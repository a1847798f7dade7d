/** The run phase: `tell_the_story` walks the collected instructions once,
    calling each step on the context and dispatching on what it returns. */
module Interpreter {
  import opened Values
  import opened Arguments
  import opened Collection

  /** What calling an instruction can give back. */
  datatype Outcome =
    | Undefined                  // the `undefined` sentinel: continue
    | Success(kwargs: Namespace) // new names for the context
    | Failure                    // stop, returning the Failure object
    | Skip                       // pass over the rest of the current sub-story
    | Result(value: Value)       // stop, returning `value`
    | NotAnOutcome               // any other object, `None` included
    | Raise(error: Error)        // the call raised

  /** The step methods, seen from the engine: the outcome of step `name` of
      `owner` called on a context holding `ns`. */
  type StepBodies = (Obj, string, Namespace) -> Outcome

  /** How `tell_the_story` ends. */
  datatype Return =
    | Returned(value: Value)     // a `Result`'s value, or `None` at the end of the trace
    | FailureReturned            // the `Failure` instance a step returned
    | Raised(error: Error)       // an exception propagated to the caller

  /** `Context(ns)`: the object a step reads its names from (through
      `Context.__getattr__`, which belongs to the step bodies). */
  class Context {
    var ns: Namespace

    constructor (ns: Namespace)
      ensures this.ns == ns
    {
      this.ns := ns;
    }
  }

  /** `method(make_proxy(self, ctx))` for one instruction: a step asks the step
      bodies; the entry check of a sub-story raises unless its declared names
      are all in the context; `end_of_story` gives `undefined`. */
  function Invoke(steps: StepBodies, ins: Instr, ns: Namespace): Outcome
  {
    match ins
    case Step(o, name, _) => steps(o, name, ns)
    case Enter(_, _, arguments) =>
      if NameSet(arguments) <= ns.Keys then Undefined
      else Raise(SubstoryArgumentsMissing(NameSet(arguments) - ns.Keys))
    case Exit(_, _) => Undefined
  }

  /** What the walk carries from one instruction to the next. */
  datatype Next =
    | Continue(ns: Namespace, skipped: Option<Decl>)
    | Stop(result: Return)

  /** One iteration of the `for` loop of `tell_the_story`. */
  function Advance(steps: StepBodies, ins: Instr, ns: Namespace, skipped: Option<Decl>): (n: Next)
    // while skipping nothing runs, and only an exit marker of the skipped
    // declaration ends the skip
    ensures skipped.Some? ==> n == Continue(ns, if ins.Exit? && ins.origin == skipped.value then None else skipped)
    // the context only grows, and a step's own declaration is what it skips
    ensures n.Continue? ==> Extends(ns, n.ns)
    ensures skipped.None? && n.Continue? && n.skipped.Some? ==> Invoke(steps, ins, ns) == Skip && n.skipped.value == ins.origin
    ensures skipped.None? && Invoke(steps, ins, ns) == Skip ==> n == Continue(ns, Some(ins.origin))
    // write-once: a `Success` is merged only when it reassigns no name
    ensures skipped.None? && Invoke(steps, ins, ns).Success? ==>
      var kw := Invoke(steps, ins, ns).kwargs;
      n == if Disjoint(ns, kw) then Continue(Update(ns, kw), None) else Stop(Raised(KeyCollision(ns.Keys * kw.Keys)))
    // the outcomes that end the walk
    ensures skipped.None? && Invoke(steps, ins, ns) == Failure ==> n == Stop(FailureReturned)
    ensures skipped.None? && Invoke(steps, ins, ns).Result? ==> n == Stop(Returned(Invoke(steps, ins, ns).value))
    ensures skipped.None? && Invoke(steps, ins, ns) == NotAnOutcome ==> n == Stop(Raised(UnexpectedReturn))
    ensures skipped.None? && Invoke(steps, ins, ns).Raise? ==> n == Stop(Raised(Invoke(steps, ins, ns).error))
    ensures skipped.None? && Invoke(steps, ins, ns) == Undefined ==> n == Continue(ns, None)
  {
    if skipped.Some? then
      if ins.Exit? && ins.origin == skipped.value then Continue(ns, None) else Continue(ns, skipped)
    else
      match Invoke(steps, ins, ns)
      case Undefined => Continue(ns, None)
      case NotAnOutcome => Stop(Raised(UnexpectedReturn))
      case Raise(e) => Stop(Raised(e))
      case Failure => Stop(FailureReturned)
      case Result(v) => Stop(Returned(v))
      case Skip => Continue(ns, Some(ins.origin))
      case Success(kw) =>
        if Disjoint(ns, kw) then Continue(Update(ns, kw), None)
        else Stop(Raised(KeyCollision(ns.Keys * kw.Keys)))
  }

  /** The walk from instruction `i` on. */
  function Run(steps: StepBodies, t: seq<Instr>, i: nat, ns: Namespace, skipped: Option<Decl>): Return
    requires i <= |t|
    decreases |t| - i
  {
    if i == |t| then Returned(NoneValue)
    else
      match Advance(steps, t[i], ns, skipped)
      case Continue(ns', skipped') => Run(steps, t, i + 1, ns', skipped')
      case Stop(r) => r
  }

  /** The context the walk from instruction `i` on leaves behind: the one it
      holds when it stops, or at the end of the trace. */
  ghost function FinalContext(steps: StepBodies, t: seq<Instr>, i: nat, ns: Namespace, skipped: Option<Decl>): Namespace
    requires i <= |t|
    decreases |t| - i
  {
    if i == |t| then ns
    else
      match Advance(steps, t[i], ns, skipped)
      case Continue(ns', skipped') => FinalContext(steps, t, i + 1, ns', skipped')
      case Stop(_) => ns
  }

  /** The walk's state after its first `n` instructions, from a fresh start. */
  function Iterate(steps: StepBodies, t: seq<Instr>, n: nat, ns: Namespace): Next
    requires n <= |t|
    decreases n
  {
    if n == 0 then Continue(ns, None)
    else
      match Iterate(steps, t, n - 1, ns)
      case Continue(ns', skipped') => Advance(steps, t[n - 1], ns', skipped')
      case Stop(r) => Stop(r)
  }

  /** `tell_the_story(obj, f, args, kwargs)`: bind the arguments, collect the
      trace with a `Collector` on `obj`, then walk it. */
  function Tell(w: World, rank: map<(Obj, Decl), nat>, steps: StepBodies, obj: Obj, f: Decl,
                args: seq<Value>, kwargs: Namespace): Return
    requires CanCollect(w, rank, obj, f)
  {
    match ValidateArguments(w.stories[f].arguments, args, kwargs)
    case Err(e) => Raised(e)
    case Ok(ns) =>
      var c := StoryTrace(w, rank, obj, f);
      if c.error.Some? then Raised(c.error.value) else Run(steps, c.emitted, 0, ns, None)
  }

  /** `tell_the_story(obj, f, args, kwargs)` as the source runs it: bind the
      arguments, collect into a fresh list, then walk it. */
  method TellTheStory(w: World, rank: map<(Obj, Decl), nat>, steps: StepBodies, obj: Obj, f: Decl,
                      args: seq<Value>, kwargs: Namespace) returns (r: Return)
    requires CanCollect(w, rank, obj, f)
    ensures r == Tell(w, rank, steps, obj, f, args, kwargs)
  {
    var bound := ValidateArguments(w.stories[f].arguments, args, kwargs);
    if bound.Err? {
      return Raised(bound.error);
    }
    var ctx := new Context(bound.value);
    var theStory := new InstructionList();
    var collector := new Collector(obj, theStory, f);
    var error := collector.RunBody(w, rank);
    assert theStory.items == StoryTrace(w, rank, obj, f).emitted;
    assert error == StoryTrace(w, rank, obj, f).error;
    if error.Some? {
      return Raised(error.value);
    }
    r := Walk(steps, theStory.items, ctx);
  }

  /** The `for` loop of `tell_the_story` over the collected list, with the
      `skipped` marker and the context mutated in place by each `Success`. */
  method Walk(steps: StepBodies, trace: seq<Instr>, ctx: Context) returns (r: Return)
    modifies ctx
    ensures r == Run(steps, trace, 0, old(ctx.ns), None)
    ensures ctx.ns == FinalContext(steps, trace, 0, old(ctx.ns), None)
    ensures Extends(old(ctx.ns), ctx.ns)
  {
    ghost var start := ctx.ns;
    var skipped: Option<Decl> := None;
    for i := 0 to |trace|
      invariant Iterate(steps, trace, i, start) == Continue(ctx.ns, skipped)
      invariant Extends(start, ctx.ns)
    {
      var ins := trace[i];
      if skipped.Some? {
        if ins.Exit? && ins.origin == skipped.value {
          skipped := None;
        }
        continue;
      }
      var result := Invoke(steps, ins, ctx.ns);
      if result == Undefined {
        continue;
      }
      if result == NotAnOutcome {
        IterateRun(steps, trace, i + 1, start);
        IterateRun(steps, trace, i, start);
        assert FinalContext(steps, trace, i, ctx.ns, None) == ctx.ns;
        return Raised(UnexpectedReturn);
      }
      if result.Raise? {
        IterateRun(steps, trace, i + 1, start);
        IterateRun(steps, trace, i, start);
        assert FinalContext(steps, trace, i, ctx.ns, None) == ctx.ns;
        return Raised(result.error);
      }
      if result == Failure {
        IterateRun(steps, trace, i + 1, start);
        IterateRun(steps, trace, i, start);
        assert FinalContext(steps, trace, i, ctx.ns, None) == ctx.ns;
        return FailureReturned;
      }
      if result.Result? {
        IterateRun(steps, trace, i + 1, start);
        IterateRun(steps, trace, i, start);
        assert FinalContext(steps, trace, i, ctx.ns, None) == ctx.ns;
        return Returned(result.value);
      }
      if result == Skip {
        skipped := Some(ins.origin);
        continue;
      }
      if !Disjoint(ctx.ns, result.kwargs) {
        IterateRun(steps, trace, i + 1, start);
        IterateRun(steps, trace, i, start);
        assert FinalContext(steps, trace, i, ctx.ns, None) == ctx.ns;
        return Raised(KeyCollision(ctx.ns.Keys * result.kwargs.Keys));
      }
      ExtendsTransitive(start, ctx.ns, Update(ctx.ns, result.kwargs));
      ctx.ns := Update(ctx.ns, result.kwargs);
    }
    NormalCompletion(steps, trace, start);
    IterateRun(steps, trace, |trace|, start);
    return Returned(NoneValue);
  }

  // ---------------------------------------------------------------------
  // Properties of the walk

  /** The walk from the start is the walk from any state it reaches, and ends
      as soon as it stops. */
  lemma {:induction false} IterateRun(steps: StepBodies, t: seq<Instr>, n: nat, ns: Namespace)
    requires n <= |t|
    ensures Iterate(steps, t, n, ns).Continue? ==>
      var s := Iterate(steps, t, n, ns);
      && Run(steps, t, 0, ns, None) == Run(steps, t, n, s.ns, s.skipped)
      && FinalContext(steps, t, 0, ns, None) == FinalContext(steps, t, n, s.ns, s.skipped)
    ensures Iterate(steps, t, n, ns).Stop? ==> Run(steps, t, 0, ns, None) == Iterate(steps, t, n, ns).result
    decreases n
  {
    if n > 0 {
      IterateRun(steps, t, n - 1, ns);
    }
  }

  /** A walk that gets through every instruction returns `None`. */
  lemma NormalCompletion(steps: StepBodies, t: seq<Instr>, ns: Namespace)
    requires Iterate(steps, t, |t|, ns).Continue?
    ensures Run(steps, t, 0, ns, None) == Returned(NoneValue)
  {
    IterateRun(steps, t, |t|, ns);
  }

  /** The context only grows over a walk: no name is removed or reassigned. */
  lemma {:induction false} IterateExtends(steps: StepBodies, t: seq<Instr>, n: nat, ns: Namespace)
    requires n <= |t|
    ensures Iterate(steps, t, n, ns).Continue? ==> Extends(ns, Iterate(steps, t, n, ns).ns)
    decreases n
  {
    if n > 0 {
      IterateExtends(steps, t, n - 1, ns);
      var prev := Iterate(steps, t, n - 1, ns);
      if prev.Continue? && Iterate(steps, t, n, ns).Continue? {
        ExtendsTransitive(ns, prev.ns, Iterate(steps, t, n, ns).ns);
      }
    }
  }

  /** The state after `n` instructions depends on those instructions only. */
  lemma {:induction false} IteratePrefix(steps: StepBodies, t: seq<Instr>, u: seq<Instr>, n: nat, ns: Namespace)
    requires n <= |t| && n <= |u| && t[..n] == u[..n]
    ensures Iterate(steps, t, n, ns) == Iterate(steps, u, n, ns)
    decreases n
  {
    if n > 0 {
      assert t[..n - 1] == t[..n][..n - 1] && u[..n - 1] == u[..n][..n - 1];
      IteratePrefix(steps, t, u, n - 1, ns);
      assert t[n - 1] == t[..n][n - 1] && u[n - 1] == u[..n][n - 1];
    }
  }

  /** A `Failure` or a `Result` reached by the walk is what the story returns,
      whatever comes after it: no later instruction runs, pending exit markers
      included. */
  lemma ShortCircuit(steps: StepBodies, t: seq<Instr>, n: nat, ns: Namespace, rest: seq<Instr>)
    requires n < |t| && Iterate(steps, t, n, ns).Continue? && Iterate(steps, t, n, ns).skipped.None?
    requires Invoke(steps, t[n], Iterate(steps, t, n, ns).ns) == Failure || Invoke(steps, t[n], Iterate(steps, t, n, ns).ns).Result?
    ensures var o := Invoke(steps, t[n], Iterate(steps, t, n, ns).ns);
      var r := if o == Failure then FailureReturned else Returned(o.value);
      && Run(steps, t, 0, ns, None) == r
      && Run(steps, t[..n + 1] + rest, 0, ns, None) == r
  {
    var u := t[..n + 1] + rest;
    assert u[..n + 1] == t[..n + 1];
    assert t[..n + 1][..n] == t[..n] && u[..n + 1][..n] == u[..n];
    IteratePrefix(steps, t, u, n + 1, ns);
    IterateRun(steps, t, n + 1, ns);
    IterateRun(steps, u, n + 1, ns);
  }

  /** No exit marker of declaration `d` among `t[i..j]`. */
  ghost predicate NoExitOf(t: seq<Instr>, i: nat, j: nat, d: Decl)
    requires i <= j <= |t|
  {
    forall k :: i <= k < j ==> !(t[k].Exit? && t[k].origin == d)
  }

  /** A skip of `d` passes over everything before the first exit marker of
      `d`, consumes that marker, and resumes right after it with the same context. */
  lemma {:induction false} SkipResumesAfterExit(steps: StepBodies, t: seq<Instr>, i: nat, j: nat, ns: Namespace, d: Decl)
    requires i <= j < |t| && NoExitOf(t, i, j, d) && t[j].Exit? && t[j].origin == d
    ensures Run(steps, t, i, ns, Some(d)) == Run(steps, t, j + 1, ns, None)
    decreases j - i
  {
    if i < j {
      SkipResumesAfterExit(steps, t, i + 1, j, ns, d);
    }
  }

  /** A skip of `d` with no exit marker of `d` ahead passes over the rest of
      the trace, and the story returns `None`. */
  lemma {:induction false} SkipToEnd(steps: StepBodies, t: seq<Instr>, i: nat, ns: Namespace, d: Decl)
    requires i <= |t| && NoExitOf(t, i, |t|, d)
    ensures Run(steps, t, i, ns, Some(d)) == Returned(NoneValue)
    decreases |t| - i
  {
    if i < |t| {
      SkipToEnd(steps, t, i + 1, ns, d);
    }
  }

  /** A `Skip` from a step of the top-level story `f` ends the story with
      `None`, when `f` is collected against `obj` only (so no exit marker of
      `f` can follow; `SkipEndsAtInjectedCopy` shows what happens otherwise). */
  lemma TopLevelSkip(w: World, rank: map<(Obj, Decl), nat>, steps: StepBodies, obj: Obj, f: Decl, n: nat, ns: Namespace)
    requires CanCollect(w, rank, obj, f) && CollectedOnlyOn(rank, f, obj)
    requires var t := StoryTrace(w, rank, obj, f).emitted;
      && n < |t| && t[n].origin == f
      && Iterate(steps, t, n, ns).Continue? && Iterate(steps, t, n, ns).skipped.None?
      && Invoke(steps, t[n], Iterate(steps, t, n, ns).ns) == Skip
    ensures Run(steps, StoryTrace(w, rank, obj, f).emitted, 0, ns, None) == Returned(NoneValue)
  {
    var t := StoryTrace(w, rank, obj, f).emitted;
    StoryTraceHasNoMarkerOf(w, rank, obj, f);
    assert NoExitOf(t, n + 1, |t|, f);
    IterateRun(steps, t, n + 1, ns);
    var s := Iterate(steps, t, n + 1, ns);
    SkipToEnd(steps, t, n + 1, s.ns, f);
  }

  /** The same at the level of the call: when the arguments bind to `ns` and
      collection succeeds, a `Skip` from a step of `f` makes
      `tell_the_story` return `None`. */
  lemma TellTopLevelSkip(w: World, rank: map<(Obj, Decl), nat>, steps: StepBodies, obj: Obj, f: Decl,
                         args: seq<Value>, kwargs: Namespace, ns: Namespace, n: nat)
    requires CanCollect(w, rank, obj, f) && CollectedOnlyOn(rank, f, obj)
    requires ValidateArguments(w.stories[f].arguments, args, kwargs) == Ok(ns)
    requires StoryTrace(w, rank, obj, f).error.None?
    requires var t := StoryTrace(w, rank, obj, f).emitted;
      && n < |t| && t[n].origin == f
      && Iterate(steps, t, n, ns).Continue? && Iterate(steps, t, n, ns).skipped.None?
      && Invoke(steps, t[n], Iterate(steps, t, n, ns).ns) == Skip
    ensures Tell(w, rank, steps, obj, f, args, kwargs) == Returned(NoneValue)
  {
    TopLevelSkip(w, rank, steps, obj, f, n, ns);
  }

  /** A skip of the sub-story `d` (inlined against `o`, which is the only
      object it is collected against), started anywhere inside its body,
      resumes right after its own exit marker, wherever the sub-story sits in
      the trace. */
  lemma SubstorySkip(w: World, rank: map<(Obj, Decl), nat>, steps: StepBodies, d: Decl, o: Obj,
                     pre: seq<Instr>, post: seq<Instr>, k: nat, ns: Namespace)
    requires CanCollect(w, rank, o, d) && CollectedOnlyOn(rank, d, o)
    requires SubstoryTrace(w, rank, d, o).error.None?
    requires k <= |StoryTrace(w, rank, o, d).emitted|
    ensures var body := StoryTrace(w, rank, o, d).emitted;
      var t := pre + SubstoryTrace(w, rank, d, o).emitted + post;
      && t[|pre| + 1 + |body|] == Exit(o, d)
      && Run(steps, t, |pre| + 1 + k, ns, Some(d)) == Run(steps, t, |pre| + |body| + 2, ns, None)
  {
    var body := StoryTrace(w, rank, o, d).emitted;
    var enter := Enter(o, d, w.stories[d].arguments);
    SubstoryFraming(w, rank, d, o);
    var t := pre + SubstoryTrace(w, rank, d, o).emitted + post;
    assert t == pre + [enter] + body + [Exit(o, d)] + post;
    var j := |pre| + 1 + |body|;
    assert t[j] == Exit(o, d);
    StoryTraceHasNoMarkerOf(w, rank, o, d);
    forall m | |pre| + 1 + k <= m < j
      ensures !(t[m].Exit? && t[m].origin == d)
    {
      assert t[m] == body[m - |pre| - 1];
    }
    SkipResumesAfterExit(steps, t, |pre| + 1 + k, j, ns, d);
  }

  /** The entry check of a sub-story leaves the context as it is, and raises
      exactly when one of the sub-story's declared names is missing. */
  lemma EnterMarker(steps: StepBodies, o: Obj, d: Decl, arguments: seq<string>, ns: Namespace)
    ensures Advance(steps, Enter(o, d, arguments), ns, None) ==
      if forall i :: 0 <= i < |arguments| ==> arguments[i] in ns then Continue(ns, None)
      else Stop(Raised(SubstoryArgumentsMissing(NameSet(arguments) - ns.Keys)))
  {
  }

  // ---------------------------------------------------------------------
  // A skip ends at the first exit marker of its declaration, whatever its owner

  const Host := Obj(0, "Host")
  const Injected := Obj(1, "Other")

  /** Story `d` of `Host` reads `check`, `inner` and `finish`; `inner` is the
      same story `d` bound to another object and stored on the instance. */
  const SameStoryInjected := World(
    map["Host" := map["check" := Plain, "finish" := Plain],
        "Other" := map["check" := Plain, "inner" := Plain, "finish" := Plain]],
    map[Host := map["inner" := BoundStory("d", Injected)]],
    map["d" := StoryDecl([], ["check", "inner", "finish"])])

  const SameStoryRank: map<(Obj, Decl), nat> := map[(Host, "d") := 1, (Injected, "d") := 0]

  /** `Host.check` skips, `Host.finish` returns `Result(1)`, and nothing else happens. */
  function SkipThenResult(o: Obj, name: string, ns: Namespace): Outcome
  {
    if o == Host && name == "check" then Skip
    else if o == Host && name == "finish" then Result(IntValue(1))
    else Undefined
  }

  lemma SameStoryWellFormed()
    ensures WellFormed(SameStoryInjected)
  {
    var w := SameStoryInjected;
    forall c, n | c in w.classAttrs && n in w.classAttrs[c] ensures StoryOk(w, w.classAttrs[c][n]) {
      assert c == "Host" || c == "Other";
    }
    forall o, n | o in w.instanceAttrs && n in w.instanceAttrs[o] ensures StoryOk(w, w.instanceAttrs[o][n]) {
      assert o == Host && n == "inner";
    }
  }

  lemma InjectedResolves()
    ensures WellFormed(SameStoryInjected)
    ensures Resolve(SameStoryInjected, Injected, "check") == PlainStep
    ensures Resolve(SameStoryInjected, Injected, "inner") == PlainStep
    ensures Resolve(SameStoryInjected, Injected, "finish") == PlainStep
  {
    SameStoryWellFormed();
  }

  lemma HostResolves()
    ensures WellFormed(SameStoryInjected)
    ensures Resolve(SameStoryInjected, Host, "check") == PlainStep
    ensures Resolve(SameStoryInjected, Host, "inner") == Inline("d", Injected)
    ensures Resolve(SameStoryInjected, Host, "finish") == PlainStep
  {
    SameStoryWellFormed();
  }

  lemma SameStoryCollects()
    ensures CanCollect(SameStoryInjected, SameStoryRank, Host, "d")
    ensures CanCollect(SameStoryInjected, SameStoryRank, Injected, "d")
  {
    var w := SameStoryInjected;
    SameStoryWellFormed();
    InjectedResolves();
    HostResolves();
    forall o, d, n ensures RefRanked(w, SameStoryRank, o, d, n) {
      if (o, d) in SameStoryRank && d in w.stories && n in w.stories[d].body {
        assert d == "d" && (o == Host || o == Injected);
        assert n == "check" || n == "inner" || n == "finish";
      }
    }
  }

  const InjectedSteps := [Step(Injected, "check", "d"), Step(Injected, "inner", "d"), Step(Injected, "finish", "d")]

  /** On `Injected` every name of `d` is a plain step. */
  lemma InjectedCopyTrace()
    ensures CanCollect(SameStoryInjected, SameStoryRank, Injected, "d")
    ensures SubstoryTrace(SameStoryInjected, SameStoryRank, "d", Injected)
      == Collected([Enter(Injected, "d", [])] + InjectedSteps + [Exit(Injected, "d")], None)
  {
    var w := SameStoryInjected;
    var rank := SameStoryRank;
    SameStoryCollects();
    InjectedResolves();
    assert BodyTrace(w, rank, Injected, "d", 1) == Collected(InjectedSteps[..1], None);
    assert BodyTrace(w, rank, Injected, "d", 2) == Collected(InjectedSteps[..2], None);
    assert BodyTrace(w, rank, Injected, "d", 3) == Collected(InjectedSteps, None);
  }

  const SameStoryTrace := [Step(Host, "check", "d"), Enter(Injected, "d", [])] + InjectedSteps
    + [Exit(Injected, "d"), Step(Host, "finish", "d")]

  /** On `Host`, `inner` inlines the copy of `d` bound to `Injected`. */
  lemma HostTrace()
    ensures CanCollect(SameStoryInjected, SameStoryRank, Host, "d")
    ensures StoryTrace(SameStoryInjected, SameStoryRank, Host, "d") == Collected(SameStoryTrace, None)
  {
    var w := SameStoryInjected;
    var rank := SameStoryRank;
    SameStoryCollects();
    InjectedCopyTrace();
    var sub := [Enter(Injected, "d", [])] + InjectedSteps + [Exit(Injected, "d")];
    HostResolves();
    assert NameTrace(w, rank, Host, "d", "check") == Collected([Step(Host, "check", "d")], None);
    assert NameTrace(w, rank, Host, "d", "inner") == Collected(sub, None);
    assert NameTrace(w, rank, Host, "d", "finish") == Collected([Step(Host, "finish", "d")], None);
    assert BodyTrace(w, rank, Host, "d", 1) == Collected([Step(Host, "check", "d")], None);
    assert BodyTrace(w, rank, Host, "d", 2) == Collected([Step(Host, "check", "d")] + sub, None);
    assert BodyTrace(w, rank, Host, "d", 3) == Collected([Step(Host, "check", "d")] + sub + [Step(Host, "finish", "d")], None);
    assert SameStoryTrace == [Step(Host, "check", "d")] + sub + [Step(Host, "finish", "d")];
  }

  /** The skip from `Host.check` ends at the exit marker of the injected copy
      of `d`, so `Host.finish` runs and the story returns 1 instead of `None`. */
  lemma SkipEndsAtInjectedCopy()
    ensures CanCollect(SameStoryInjected, SameStoryRank, Host, "d")
    ensures Tell(SameStoryInjected, SameStoryRank, SkipThenResult, Host, "d", [], map[]) == Returned(IntValue(1))
  {
    HostTrace();
    var t := SameStoryTrace;
    assert ValidateArguments([], [], map[]) == Ok(map[]);
    assert Run(SkipThenResult, t, 6, map[], None) == Returned(IntValue(1));
    SkipResumesAfterExit(SkipThenResult, t, 1, 5, map[], "d");
  }

  // ---------------------------------------------------------------------
  // A two-step story that fails in its second step

  /** `one` returns `Success(baz=4)`, `two` returns `Failure()`. */
  function OneThenTwo(o: Obj, name: string, ns: Namespace): Outcome
  {
    if name == "one" then Success(map["baz" := IntValue(4)])
    else if name == "two" then Failure
    else Undefined
  }

  /** An object of class `Steps`, whose story `x = [one, two]` declares `foo`
      and `bar`; `one` and `two` are step methods of the class. */
  const Caller := Obj(2, "Steps")

  const TwoSteps := World(
    map["Steps" := map["one" := Plain, "two" := Plain]],
    map[],
    map["x" := StoryDecl(["foo", "bar"], ["one", "two"])])

  const TwoStepsRank: map<(Obj, Decl), nat> := map[(Caller, "x") := 0]

  lemma TwoStepsResolve()
    ensures WellFormed(TwoSteps)
    ensures Resolve(TwoSteps, Caller, "one") == PlainStep
    ensures Resolve(TwoSteps, Caller, "two") == PlainStep
  {
    var w := TwoSteps;
    forall c, n | c in w.classAttrs && n in w.classAttrs[c] ensures StoryOk(w, w.classAttrs[c][n]) {
      assert c == "Steps";
    }
  }

  /** Collecting `x` on `Caller` gives its two steps, tagged with `x`. */
  lemma TwoStepsTrace()
    ensures CanCollect(TwoSteps, TwoStepsRank, Caller, "x")
    ensures StoryTrace(TwoSteps, TwoStepsRank, Caller, "x") == Collected([Step(Caller, "one", "x"), Step(Caller, "two", "x")], None)
  {
    var w := TwoSteps;
    var rank := TwoStepsRank;
    TwoStepsResolve();
    forall o, d, n ensures RefRanked(w, rank, o, d, n) {
      if (o, d) in rank && d in w.stories && n in w.stories[d].body {
        assert o == Caller && d == "x" && (n == "one" || n == "two");
      }
    }
    assert CanCollect(w, rank, Caller, "x");
    assert NameTrace(w, rank, Caller, "x", "one") == Collected([Step(Caller, "one", "x")], None);
    assert NameTrace(w, rank, Caller, "x", "two") == Collected([Step(Caller, "two", "x")], None);
    assert BodyTrace(w, rank, Caller, "x", 1) == Collected([Step(Caller, "one", "x")], None);
    assert BodyTrace(w, rank, Caller, "x", 2) == Collected([Step(Caller, "one", "x")] + [Step(Caller, "two", "x")], None);
  }

  /** `x = [one, two]` called with `foo=3, bar=2`: the arguments become the
      context unchanged, `one` adds `baz`, and the call returns the Failure of
      `two`. */
  lemma OneThenTwoFails()
    ensures CanCollect(TwoSteps, TwoStepsRank, Caller, "x")
    ensures var t := StoryTrace(TwoSteps, TwoStepsRank, Caller, "x").emitted;
      && t == [Step(Caller, "one", "x"), Step(Caller, "two", "x")]
      && Iterate(OneThenTwo, t, 1, map["foo" := IntValue(3), "bar" := IntValue(2)])
         == Continue(map["foo" := IntValue(3), "bar" := IntValue(2), "baz" := IntValue(4)], None)
    ensures Tell(TwoSteps, TwoStepsRank, OneThenTwo, Caller, "x", [], map["foo" := IntValue(3), "bar" := IntValue(2)])
      == FailureReturned
  {
    TwoStepsTrace();
    var ns := map["foo" := IntValue(3), "bar" := IntValue(2)];
    assert NameSet(["foo", "bar"]) == {"foo", "bar"} by {
      assert ["foo", "bar"][0] == "foo" && ["foo", "bar"][1] == "bar";
    }
    assert ValidateArguments(["foo", "bar"], [], ns) == Ok(ns);
    var t := [Step(Caller, "one", "x"), Step(Caller, "two", "x")];
    assert Disjoint(ns, map["baz" := IntValue(4)]);
    assert Update(ns, map["baz" := IntValue(4)]) == ns["baz" := IntValue(4)];
    IterateRun(OneThenTwo, t, 2, ns);
  }
}
