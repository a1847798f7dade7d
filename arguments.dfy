/** A story's declared argument names (the `argument` decorator) and the
    binding of call arguments to them (`validate_arguments`). */
module Arguments {
  import opened Values

  /** A story function as the registry sees it: the names its `argument`
      decorators declared and the names its body refers to, in order. */
  datatype StoryDecl = StoryDecl(arguments: seq<string>, body: seq<string>)

  /** The decorated Python function `f`. Its `arguments` attribute is absent
      until the first `argument` decorator creates it; readers default to []. */
  class StoryFunction {
    const body: seq<string>
    var arguments: Option<seq<string>>

    constructor (body: seq<string>)
      ensures this.body == body && arguments == None
    {
      this.body := body;
      arguments := None;
    }

    /** `getattr(f, "arguments", [])` */
    function DeclaredArguments(): seq<string>
      reads this
    {
      match arguments
      case None => []
      case Some(names) => names
    }

    /** The registry entry of the story: `World.stories[d]` of a story `d`
        is `Decl()` of its decorated function once all its decorators ran,
        and `validate_arguments` binds against its `arguments`. */
    function Decl(): StoryDecl
      reads this
    {
      StoryDecl(DeclaredArguments(), body)
    }

    /** `argument(name)(f)`: create the list if needed, then put `name` at its front. */
    method Argument(name: string)
      modifies this
      ensures arguments == Some([name] + old(DeclaredArguments()))
    {
      if arguments.None? {
        arguments := Some([]);
      }
      arguments := Some([name] + arguments.value);
    }
  }

  /** Decorators written `@argument(names[0])` ... `@argument(names[|names| - 1])`
      above `f` are applied bottom-up, so the last one runs first. */
  method DecorateWithArguments(f: StoryFunction, names: seq<string>)
    modifies f
    ensures f.DeclaredArguments() == names + old(f.DeclaredArguments())
    ensures names != [] ==> f.arguments.Some?
    ensures names == [] ==> f.arguments == old(f.arguments)
  {
    ghost var initial := f.DeclaredArguments();
    var i := |names|;
    while i > 0
      invariant 0 <= i <= |names|
      invariant f.arguments == if i == |names| then old(f.arguments) else Some(names[i..] + initial)
    {
      i := i - 1;
      ghost var before := f.DeclaredArguments();
      f.Argument(names[i]);
      PrependSlice(names, i, initial, before);
    }
    assert names[0..] == names;
  }

  lemma PrependSlice(names: seq<string>, i: int, tail: seq<string>, before: seq<string>)
    requires 0 <= i < |names|
    requires before == names[i + 1..] + tail
    ensures [names[i]] + before == names[i..] + tail
  {
  }

  /** `names[i]` is the last occurrence of that name in `names`. */
  ghost predicate LastOccurrence(names: seq<string>, i: int)
    requires 0 <= i < |names|
  {
    forall j :: i < j < |names| ==> names[j] != names[i]
  }

  /** `{k: v for k, v in zip(names, args)}` */
  function Zip(names: seq<string>, args: seq<Value>): (d: Namespace)
    requires |names| == |args|
  {
    ZipFirst(names, args, |names|)
  }

  /** The comprehension after its first `n` pairs. */
  function ZipFirst(names: seq<string>, args: seq<Value>, n: nat): (d: Namespace)
    requires |names| == |args| && n <= |names|
    decreases n
  {
    if n == 0 then map[] else ZipFirst(names, args, n - 1)[names[n - 1] := args[n - 1]]
  }

  /** The comprehension binds exactly the names it has seen. */
  lemma {:induction false} ZipFirstKeys(names: seq<string>, args: seq<Value>, n: nat)
    requires |names| == |args| && n <= |names|
    ensures ZipFirst(names, args, n).Keys == set i | 0 <= i < n :: names[i]
    decreases n
  {
    if n > 0 {
      ZipFirstKeys(names, args, n - 1);
      assert (set i | 0 <= i < n :: names[i]) == (set i | 0 <= i < n - 1 :: names[i]) + {names[n - 1]};
    }
  }

  /** A name declared twice takes the value of its last position. */
  lemma {:induction false} ZipFirstLastWins(names: seq<string>, args: seq<Value>, n: nat, i: int)
    requires |names| == |args| && 0 <= i < n <= |names|
    requires forall j :: i < j < n ==> names[j] != names[i]
    ensures names[i] in ZipFirst(names, args, n) && ZipFirst(names, args, n)[names[i]] == args[i]
    decreases n
  {
    if i < n - 1 {
      ZipFirstLastWins(names, args, n - 1, i);
    }
  }

  /** `Zip` binds exactly the declared names, each to the argument at its last
      position (for distinct names, the argument at its own position). */
  lemma ZipBinds(names: seq<string>, args: seq<Value>)
    requires |names| == |args|
    ensures Zip(names, args).Keys == NameSet(names)
    ensures forall i :: 0 <= i < |names| && LastOccurrence(names, i) ==> Zip(names, args)[names[i]] == args[i]
  {
    ZipFirstKeys(names, args, |names|);
    forall i | 0 <= i < |names| && LastOccurrence(names, i)
      ensures Zip(names, args)[names[i]] == args[i]
    {
      ZipFirstLastWins(names, args, |names|, i);
    }
  }

  /** `validate_arguments(f, args, kwargs)` for a story declaring `arguments`. */
  function ValidateArguments(arguments: seq<string>, args: seq<Value>, kwargs: Namespace): (r: Validated<Namespace, Error>)
    ensures r == Err(MixedArguments) <==> args != [] && kwargs != map[]
    // positional call: exact count, every declared name bound to its position
    ensures args != [] && kwargs == map[] ==>
      && (r.Ok? <==> |arguments| == |args|)
      && (r.Err? ==> r.error == ArityMismatch)
    ensures args != [] && r.Ok? ==>
      && r.value.Keys == NameSet(arguments)
      && (forall i :: 0 <= i < |arguments| && LastOccurrence(arguments, i) ==> r.value[arguments[i]] == args[i])
    // keyword call (also the call without any argument): exact name set, returned unchanged
    ensures args == [] ==>
      && (r.Ok? <==> NameSet(arguments) == kwargs.Keys)
      && (r.Ok? ==> r.value == kwargs)
      && (r.Err? ==> r.error == KeywordMismatch)
  {
    if args != [] && kwargs != map[] then Err(MixedArguments)
    else if args != [] then
      if |arguments| == |args| then
        ZipBinds(arguments, args);
        Ok(Zip(arguments, args))
      else Err(ArityMismatch)
    else
      if NameSet(arguments) == kwargs.Keys then Ok(kwargs) else Err(KeywordMismatch)
  }
}
