/** The compile phase: turning a story's body into a flat list of
    instructions, inlining sub-stories between an entry and an exit marker. */
module Collection {
  import opened Values
  import opened Arguments

  /** A story's identity: its undecorated function `f`, shared by every class
      and instance that exposes the story. */
  type Decl = string

  /** A host object; `cls` is its class. */
  datatype Obj = Obj(id: nat, cls: string)

  /** What an attribute lookup can find. */
  datatype Attr =
    | StoryFn(decl: Decl)                 // the function `story` returned, found on a class
    | BoundStory(decl: Decl, self: Obj)   // such a function bound to an instance (`obj.x`)
    | Plain                               // anything else: a step method, a constant, ...

  /** `is_story(attribute)` */
  predicate IsStory(a: Attr)
  {
    a.StoryFn? || a.BoundStory?
  }

  /** The registry standing for Python's attribute lookup. `classAttrs[c]` is
      what `getattr(C, name)` finds on class `c` (after its method resolution
      order), `instanceAttrs[o]` what the instance `o` holds itself, and
      `stories[d]` the decorated function of story `d`, as
      `StoryFunction.Decl()` describes it. */
  datatype World = World(
    classAttrs: map<string, map<string, Attr>>,
    instanceAttrs: map<Obj, map<string, Attr>>,
    stories: map<Decl, StoryDecl>)

  /** Every story attribute refers to a declared story. */
  ghost predicate StoryOk(w: World, a: Attr)
  {
    IsStory(a) ==> a.decl in w.stories
  }

  ghost predicate WellFormed(w: World)
  {
    && (forall c, n :: c in w.classAttrs && n in w.classAttrs[c] ==> StoryOk(w, w.classAttrs[c][n]))
    && (forall o, n :: o in w.instanceAttrs && n in w.instanceAttrs[o] ==> StoryOk(w, w.instanceAttrs[o][n]))
  }

  /** `getattr(obj.__class__, name, undefined)` */
  function ClassLookup(w: World, obj: Obj, name: string): Option<Attr>
  {
    if obj.cls in w.classAttrs && name in w.classAttrs[obj.cls] then Some(w.classAttrs[obj.cls][name]) else None
  }

  /** `getattr(obj, name)` once the class has nothing under that name. */
  function InstanceLookup(w: World, obj: Obj, name: string): Option<Attr>
  {
    if obj in w.instanceAttrs && name in w.instanceAttrs[obj] then Some(w.instanceAttrs[obj][name]) else None
  }

  /** The collector's own attributes: reading one of these in a body finds
      the attribute and never reaches `Collector.__getattr__`. */
  const CollectorFields: set<string> := {"obj", "method_calls", "of"}

  /** What reading `name` on a `Collector` decides. */
  datatype Resolution =
    | OwnField                            // a collector attribute: nothing happens
    | Inline(decl: Decl, owner: Obj)      // a sub-story, collected against `owner`
    | PlainStep                           // one step instruction
    | Unresolved(error: Error)            // the lookup raises

  /** `Collector.__getattr__(name)` on `obj`, behind the collector's own attributes. */
  function Resolve(w: World, obj: Obj, name: string): (r: Resolution)
    requires WellFormed(w)
    ensures r.Inline? ==> r.decl in w.stories
  {
    if name in CollectorFields then OwnField
    else
      match ClassLookup(w, obj, name)
      case Some(a) =>
        if IsStory(a) then Inline(a.decl, obj) else PlainStep
      case None =>
        match InstanceLookup(w, obj, name)
        case None => Unresolved(MissingAttribute(name))
        case Some(a) =>
          if !IsStory(a) then Unresolved(NotAStory(name))
          else if a.StoryFn? then Unresolved(MissingAttribute("__func__"))  // a plain function has no __func__
          else Inline(a.decl, a.self)
  }

  /** The pieces of a collected trace: `(owner, callable, of)` where the
      callable is a step name, the entry check of a sub-story, or
      `end_of_story`. `origin` is the `of` of the triple. */
  datatype Instr =
    | Step(owner: Obj, name: string, origin: Decl)
    | Enter(owner: Obj, origin: Decl, arguments: seq<string>)
    | Exit(owner: Obj, origin: Decl)

  /** The source does not detect cyclic sub-stories. Collection of story `d`
      against `o` terminates when `rank` decreases along every sub-story that
      a name of `d`'s body resolves to on `o`. */
  ghost predicate RefRanked(w: World, rank: map<(Obj, Decl), nat>, o: Obj, d: Decl, n: string)
    requires WellFormed(w)
  {
    (o, d) in rank && d in w.stories && n in w.stories[d].body && Resolve(w, o, n).Inline? ==>
      var r := Resolve(w, o, n);
      (r.owner, r.decl) in rank && rank[(r.owner, r.decl)] < rank[(o, d)]
  }

  ghost predicate Ranked(w: World, rank: map<(Obj, Decl), nat>)
  {
    WellFormed(w) && forall o, d, n :: RefRanked(w, rank, o, d, n)
  }

  /** What collection appended before it finished or raised `error`. */
  datatype Collected = Collected(emitted: seq<Instr>, error: Option<Error>)

  ghost predicate CanCollect(w: World, rank: map<(Obj, Decl), nat>, obj: Obj, d: Decl)
  {
    Ranked(w, rank) && (obj, d) in rank && d in w.stories
  }

  /** The instructions one attribute access of a body appends. */
  function NameTrace(w: World, rank: map<(Obj, Decl), nat>, obj: Obj, origin: Decl, name: string): Collected
    requires CanCollect(w, rank, obj, origin) && name in w.stories[origin].body
    decreases rank[(obj, origin)], 0, 0
  {
    assert RefRanked(w, rank, obj, origin, name);
    match Resolve(w, obj, name)
    case OwnField => Collected([], None)
    case PlainStep => Collected([Step(obj, name, origin)], None)
    case Unresolved(e) => Collected([], Some(e))
    case Inline(d, o) => SubstoryTrace(w, rank, d, o)
  }

  /** `collect_substory(story, obj, method_calls)`: the entry check, the
      story's body against `obj`, and the exit marker unless the body raised. */
  function SubstoryTrace(w: World, rank: map<(Obj, Decl), nat>, story: Decl, obj: Obj): Collected
    requires CanCollect(w, rank, obj, story)
    decreases rank[(obj, story)], 2, 0
  {
    var inner := BodyTrace(w, rank, obj, story, |w.stories[story].body|);
    var enter := Enter(obj, story, w.stories[story].arguments);
    if inner.error.None? then Collected([enter] + inner.emitted + [Exit(obj, story)], None)
    else Collected([enter] + inner.emitted, inner.error)
  }

  /** Running the first `n` attribute accesses of `origin`'s body with a
      `Collector(obj, method_calls, origin)`; the first error stops the body. */
  function BodyTrace(w: World, rank: map<(Obj, Decl), nat>, obj: Obj, origin: Decl, n: nat): Collected
    requires CanCollect(w, rank, obj, origin) && n <= |w.stories[origin].body|
    decreases rank[(obj, origin)], 1, n
  {
    if n == 0 then Collected([], None)
    else
      var prev := BodyTrace(w, rank, obj, origin, n - 1);
      if prev.error.Some? then prev
      else
        var last := NameTrace(w, rank, obj, origin, w.stories[origin].body[n - 1]);
        Collected(prev.emitted + last.emitted, last.error)
  }

  /** The trace of a top-level story: its body, without markers around it. */
  function StoryTrace(w: World, rank: map<(Obj, Decl), nat>, obj: Obj, f: Decl): Collected
    requires CanCollect(w, rank, obj, f)
  {
    BodyTrace(w, rank, obj, f, |w.stories[f].body|)
  }

  /** Once an access raises, the rest of the body is not run. */
  lemma {:induction false} BodyTraceStops(w: World, rank: map<(Obj, Decl), nat>, obj: Obj, origin: Decl, n: nat)
    requires CanCollect(w, rank, obj, origin) && n <= |w.stories[origin].body|
    requires BodyTrace(w, rank, obj, origin, n).error.Some?
    ensures StoryTrace(w, rank, obj, origin) == BodyTrace(w, rank, obj, origin, n)
    decreases |w.stories[origin].body| - n
  {
    if n < |w.stories[origin].body| {
      BodyTraceStops(w, rank, obj, origin, n + 1);
    }
  }

  // ---------------------------------------------------------------------
  // Well-nesting of a trace

  type Frame = (Obj, Decl)

  /** The sub-story an instruction belongs to: the innermost open one, or the
      top-level story. */
  function Current(top: Frame, stack: seq<Frame>): Frame
  {
    if stack == [] then top else stack[|stack| - 1]
  }

  /** Reads a trace with a stack of open sub-stories: an entry marker opens
      its frame, an exit marker must close the innermost open frame, and every
      step must belong to the innermost open frame. `None` if any of these
      fails, otherwise the stack left open. */
  function Scan(t: seq<Instr>, top: Frame, stack: seq<Frame>): Option<seq<Frame>>
    decreases |t|
  {
    if t == [] then Some(stack)
    else
      match t[0]
      case Step(o, _, d) =>
        if (o, d) == Current(top, stack) then Scan(t[1..], top, stack) else None
      case Enter(o, d, _) =>
        Scan(t[1..], top, stack + [(o, d)])
      case Exit(o, d) =>
        if stack != [] && stack[|stack| - 1] == (o, d) then Scan(t[1..], top, stack[..|stack| - 1]) else None
  }

  /** Every entry marker has its exit marker, properly nested, and every step
      carries the owner and `of` of the sub-story that directly contains it
      (`top` outside all of them). */
  ghost predicate WellNested(t: seq<Instr>, top: Frame)
  {
    Scan(t, top, []) == Some([])
  }

  lemma {:induction false} ScanAppend(a: seq<Instr>, b: seq<Instr>, top: Frame, stack: seq<Frame>)
    ensures Scan(a + b, top, stack) == match Scan(a, top, stack) case None => None case Some(s) => Scan(b, top, s)
    decreases |a|
  {
    if a != [] {
      assert (a + b)[1..] == a[1..] + b;
      match a[0]
      case Step(o, _, d) => ScanAppend(a[1..], b, top, stack);
      case Enter(o, d, _) => ScanAppend(a[1..], b, top, stack + [(o, d)]);
      case Exit(o, d) =>
        if stack != [] && stack[|stack| - 1] == (o, d) {
          ScanAppend(a[1..], b, top, stack[..|stack| - 1]);
        }
    } else {
      assert a + b == b;
    }
  }

  /** Every marker in `t` belongs to a pair ranked below `bound`. */
  ghost predicate MarkersBelow(t: seq<Instr>, rank: map<(Obj, Decl), nat>, bound: nat)
  {
    forall k :: 0 <= k < |t| && !t[k].Step? ==>
      (t[k].owner, t[k].origin) in rank && rank[(t[k].owner, t[k].origin)] < bound
  }

  lemma MarkersBelowAppend(a: seq<Instr>, b: seq<Instr>, rank: map<(Obj, Decl), nat>, bound: nat)
    requires MarkersBelow(a, rank, bound) && MarkersBelow(b, rank, bound)
    ensures MarkersBelow(a + b, rank, bound)
  {
  }

  /** What one attribute access appends leaves the open frames as they were
      when it succeeds, and opens only frames ranked below its own story. */
  lemma {:induction false} NameTraceNested(w: World, rank: map<(Obj, Decl), nat>, obj: Obj, origin: Decl, name: string, top: Frame, stack: seq<Frame>)
    requires CanCollect(w, rank, obj, origin) && name in w.stories[origin].body
    requires Current(top, stack) == (obj, origin)
    ensures NameTrace(w, rank, obj, origin, name).error.None? ==> Scan(NameTrace(w, rank, obj, origin, name).emitted, top, stack) == Some(stack)
    ensures MarkersBelow(NameTrace(w, rank, obj, origin, name).emitted, rank, rank[(obj, origin)])
    decreases rank[(obj, origin)], 0, 0
  {
    assert RefRanked(w, rank, obj, origin, name);
    match Resolve(w, obj, name)
    case OwnField =>
    case PlainStep =>
    case Unresolved(e) =>
    case Inline(d, o) =>
      SubstoryTraceNested(w, rank, d, o, top, stack);
  }

  lemma {:induction false} SubstoryTraceNested(w: World, rank: map<(Obj, Decl), nat>, story: Decl, obj: Obj, top: Frame, stack: seq<Frame>)
    requires CanCollect(w, rank, obj, story)
    ensures SubstoryTrace(w, rank, story, obj).error.None? ==> Scan(SubstoryTrace(w, rank, story, obj).emitted, top, stack) == Some(stack)
    ensures MarkersBelow(SubstoryTrace(w, rank, story, obj).emitted, rank, rank[(obj, story)] + 1)
    decreases rank[(obj, story)], 2, 0
  {
    var inner := BodyTrace(w, rank, obj, story, |w.stories[story].body|);
    var enter := Enter(obj, story, w.stories[story].arguments);
    var exit := Exit(obj, story);
    var open := stack + [(obj, story)];
    BodyTraceNested(w, rank, obj, story, |w.stories[story].body|, top, open);
    assert MarkersBelow([enter], rank, rank[(obj, story)] + 1);
    assert MarkersBelow([exit], rank, rank[(obj, story)] + 1);
    MarkersBelowAppend([enter], inner.emitted, rank, rank[(obj, story)] + 1);
    if inner.error.None? {
      MarkersBelowAppend([enter] + inner.emitted, [exit], rank, rank[(obj, story)] + 1);
      calc {
        Scan([enter] + inner.emitted + [exit], top, stack);
        { assert [enter] + inner.emitted + [exit] == [enter] + (inner.emitted + [exit]); }
        Scan([enter] + (inner.emitted + [exit]), top, stack);
        { assert ([enter] + (inner.emitted + [exit]))[1..] == inner.emitted + [exit]; }
        Scan(inner.emitted + [exit], top, open);
        { ScanAppend(inner.emitted, [exit], top, open); }
        Scan([exit], top, open);
        { assert open[..|open| - 1] == stack; }
        Some(stack);
      }
    }
  }

  lemma {:induction false} BodyTraceNested(w: World, rank: map<(Obj, Decl), nat>, obj: Obj, origin: Decl, n: nat, top: Frame, stack: seq<Frame>)
    requires CanCollect(w, rank, obj, origin) && n <= |w.stories[origin].body|
    requires Current(top, stack) == (obj, origin)
    ensures BodyTrace(w, rank, obj, origin, n).error.None? ==> Scan(BodyTrace(w, rank, obj, origin, n).emitted, top, stack) == Some(stack)
    ensures MarkersBelow(BodyTrace(w, rank, obj, origin, n).emitted, rank, rank[(obj, origin)])
    decreases rank[(obj, origin)], 1, n
  {
    if n > 0 {
      var prev := BodyTrace(w, rank, obj, origin, n - 1);
      BodyTraceNested(w, rank, obj, origin, n - 1, top, stack);
      if prev.error.None? {
        var name := w.stories[origin].body[n - 1];
        var last := NameTrace(w, rank, obj, origin, name);
        NameTraceNested(w, rank, obj, origin, name, top, stack);
        ScanAppend(prev.emitted, last.emitted, top, stack);
        MarkersBelowAppend(prev.emitted, last.emitted, rank, rank[(obj, origin)]);
      }
    }
  }

  /** A story that collects without error gives a well-nested trace whose
      steps at top level carry the story's own object and declaration, and in
      which no marker belongs to the story itself: the top-level story is not
      wrapped in markers. */
  lemma StoryTraceWellNested(w: World, rank: map<(Obj, Decl), nat>, obj: Obj, f: Decl)
    requires CanCollect(w, rank, obj, f)
    ensures StoryTrace(w, rank, obj, f).error.None? ==> WellNested(StoryTrace(w, rank, obj, f).emitted, (obj, f))
    ensures forall k :: 0 <= k < |StoryTrace(w, rank, obj, f).emitted| && !StoryTrace(w, rank, obj, f).emitted[k].Step? ==>
      (StoryTrace(w, rank, obj, f).emitted[k].owner, StoryTrace(w, rank, obj, f).emitted[k].origin) != (obj, f)
  {
    BodyTraceNested(w, rank, obj, f, |w.stories[f].body|, (obj, f), []);
  }

  /** Story `d` is collected against `o` only: no other object exposes it
      anywhere collection goes. */
  ghost predicate CollectedOnlyOn(rank: map<(Obj, Decl), nat>, d: Decl, o: Obj)
  {
    forall o' :: (o', d) in rank ==> o' == o
  }

  /** When story `f` is collected against `obj` only, the trace of its body
      holds no marker of `f`: the markers in it belong to sub-stories ranked
      strictly below `(obj, f)`. */
  lemma StoryTraceHasNoMarkerOf(w: World, rank: map<(Obj, Decl), nat>, obj: Obj, f: Decl)
    requires CanCollect(w, rank, obj, f) && CollectedOnlyOn(rank, f, obj)
    ensures forall k :: 0 <= k < |StoryTrace(w, rank, obj, f).emitted| && !StoryTrace(w, rank, obj, f).emitted[k].Step? ==>
      StoryTrace(w, rank, obj, f).emitted[k].origin != f
  {
    BodyTraceNested(w, rank, obj, f, |w.stories[f].body|, (obj, f), []);
  }

  /** Name resolution: the collector's own attributes emit nothing; then a
      class attribute wins, a story found there being inlined against the same
      object and anything else there being exactly one step; only then is the
      instance asked, where the attribute must be a bound story (inlined against
      the instance it is bound to). */
  lemma NameTraceCases(w: World, rank: map<(Obj, Decl), nat>, obj: Obj, origin: Decl, name: string)
    requires CanCollect(w, rank, obj, origin) && name in w.stories[origin].body
    ensures var c := NameTrace(w, rank, obj, origin, name);
      var a := ClassLookup(w, obj, name);
      var i := InstanceLookup(w, obj, name);
      && (name in CollectorFields ==> c == Collected([], None))
      && (name !in CollectorFields && a.Some? && IsStory(a.value) ==>
            CanCollect(w, rank, obj, a.value.decl) && c == SubstoryTrace(w, rank, a.value.decl, obj))
      && (name !in CollectorFields && a.Some? && !IsStory(a.value) ==> c == Collected([Step(obj, name, origin)], None))
      && (name !in CollectorFields && a.None? && i.None? ==> c == Collected([], Some(MissingAttribute(name))))
      && (name !in CollectorFields && a.None? && i.Some? && i.value.BoundStory? ==>
            CanCollect(w, rank, i.value.self, i.value.decl) && c == SubstoryTrace(w, rank, i.value.decl, i.value.self))
      && (name !in CollectorFields && a.None? && i.Some? && i.value.StoryFn? ==> c == Collected([], Some(MissingAttribute("__func__"))))
      && (name !in CollectorFields && a.None? && i.Some? && i.value.Plain? ==> c == Collected([], Some(NotAStory(name))))
  {
    assert RefRanked(w, rank, obj, origin, name);
  }

  /** A sub-story is its entry check (with the story's declared names), its
      own body collected against its own object, then its exit marker. */
  lemma SubstoryFraming(w: World, rank: map<(Obj, Decl), nat>, story: Decl, obj: Obj)
    requires CanCollect(w, rank, obj, story)
    ensures var c := SubstoryTrace(w, rank, story, obj);
      var body := StoryTrace(w, rank, obj, story);
      && c.error == body.error
      && |c.emitted| >= 1 && c.emitted[0] == Enter(obj, story, w.stories[story].arguments)
      && (c.error.None? ==> c.emitted == [Enter(obj, story, w.stories[story].arguments)] + body.emitted + [Exit(obj, story)])
  {
  }

  // ---------------------------------------------------------------------
  // The collector itself: objects that append to one shared list

  /** The `method_calls` list all collectors of one story share. */
  class InstructionList {
    var items: seq<Instr>

    constructor ()
      ensures items == []
    {
      items := [];
    }
  }

  /** `Collector(obj, method_calls, of)` */
  class Collector {
    const obj: Obj
    const methodCalls: InstructionList
    const origin: Decl

    constructor (obj: Obj, methodCalls: InstructionList, origin: Decl)
      ensures this.obj == obj && this.methodCalls == methodCalls && this.origin == origin
    {
      this.obj := obj;
      this.methodCalls := methodCalls;
      this.origin := origin;
    }

    /** `Collector.__getattr__(name)` */
    method GetAttr(w: World, rank: map<(Obj, Decl), nat>, name: string) returns (error: Option<Error>)
      requires CanCollect(w, rank, obj, origin) && name in w.stories[origin].body
      modifies methodCalls
      decreases rank[(obj, origin)], 0
      ensures methodCalls.items == old(methodCalls.items) + NameTrace(w, rank, obj, origin, name).emitted
      ensures error == NameTrace(w, rank, obj, origin, name).error
    {
      assert RefRanked(w, rank, obj, origin, name);
      if name in CollectorFields {
        return None;
      }
      var attribute := ClassLookup(w, obj, name);
      if attribute.Some? {
        if IsStory(attribute.value) {
          error := CollectSubstory(w, rank, attribute.value.decl, obj, methodCalls);
          return;
        }
        methodCalls.items := methodCalls.items + [Step(obj, name, origin)];
        return None;
      }
      attribute := InstanceLookup(w, obj, name);
      if attribute.None? {
        return Some(MissingAttribute(name));
      }
      if !IsStory(attribute.value) {
        return Some(NotAStory(name));
      }
      if attribute.value.StoryFn? {
        return Some(MissingAttribute("__func__"));
      }
      error := CollectSubstory(w, rank, attribute.value.decl, attribute.value.self, methodCalls);
    }

    /** Calling the story's body with this collector: one attribute access
      per name, in order; an exception ends the body. */
    method RunBody(w: World, rank: map<(Obj, Decl), nat>) returns (error: Option<Error>)
      requires CanCollect(w, rank, obj, origin)
      modifies methodCalls
      decreases rank[(obj, origin)], 1
      ensures methodCalls.items == old(methodCalls.items) + StoryTrace(w, rank, obj, origin).emitted
      ensures error == StoryTrace(w, rank, obj, origin).error
    {
      var body := w.stories[origin].body;
      var i := 0;
      while i < |body|
        invariant 0 <= i <= |body|
        invariant methodCalls.items == old(methodCalls.items) + BodyTrace(w, rank, obj, origin, i).emitted
        invariant BodyTrace(w, rank, obj, origin, i).error == None
      {
        ghost var before := methodCalls.items;
        error := GetAttr(w, rank, body[i]);
        ghost var last := NameTrace(w, rank, obj, origin, body[i]);
        assert BodyTrace(w, rank, obj, origin, i + 1) == Collected(BodyTrace(w, rank, obj, origin, i).emitted + last.emitted, last.error);
        assert methodCalls.items == old(methodCalls.items) + BodyTrace(w, rank, obj, origin, i + 1).emitted by {
          assert methodCalls.items == before + last.emitted;
        }
        if error.Some? {
          BodyTraceStops(w, rank, obj, origin, i + 1);
          return;
        }
        i := i + 1;
      }
      return None;
    }
  }

  /** `collect_substory(story, obj, method_calls)` */
  method CollectSubstory(w: World, rank: map<(Obj, Decl), nat>, story: Decl, obj: Obj, methodCalls: InstructionList)
    returns (error: Option<Error>)
    requires CanCollect(w, rank, obj, story)
    modifies methodCalls
    decreases rank[(obj, story)], 2
    ensures methodCalls.items == old(methodCalls.items) + SubstoryTrace(w, rank, story, obj).emitted
    ensures error == SubstoryTrace(w, rank, story, obj).error
  {
    var arguments := w.stories[story].arguments;
    methodCalls.items := methodCalls.items + [Enter(obj, story, arguments)];
    var collector := new Collector(obj, methodCalls, story);
    error := collector.RunBody(w, rank);
    if error.Some? {
      return;
    }
    methodCalls.items := methodCalls.items + [Exit(obj, story)];
  }
}
