/** Values shared by every part of the model: Python-like results, the values a
    story manipulates, dictionaries (a story's context and the keyword
    arguments of a `Success`), and the exceptions the engine raises. */
module Values {

  datatype Option<+T> = None | Some(value: T)

  datatype Validated<+T, +E> = Ok(value: T) | Err(error: E)

  /** The values stored in a context. `NoneValue` is Python's `None`, the
      default of `Result()` and what a story returns when it runs to its end. */
  datatype Value = NoneValue | IntValue(i: int) | StrValue(s: string)

  /** Every error the engine itself raises, one per assertion or failing
      attribute access in stories.py, plus the exceptions raised by step bodies. */
  datatype Error =
    | MixedArguments                         // both positional and keyword arguments
    | ArityMismatch                          // positional count differs from the declared names
    | KeywordMismatch                        // keyword names differ from the declared names
    | MissingAttribute(name: string)         // AttributeError during collection
    | NotAStory(name: string)                // an instance attribute that is not a story
    | SubstoryArgumentsMissing(missing: set<string>)  // a sub-story's names absent at its entry
    | UnexpectedReturn                       // a step returned a value outside the outcome set
    | KeyCollision(keys: set<string>)        // a Success reassigning existing names
    | StepException(description: string)     // an exception raised inside a step body

  /** The set of a list's elements: Python's `set(names)`. */
  function NameSet(s: seq<string>): set<string>
  {
    set i | 0 <= i < |s| :: s[i]
  }

  /** A Python dict from names to values: a story's context, the keyword
      arguments of a call and the keyword arguments of a `Success`. The order
      in which a dict's keys were inserted is visible only through `repr`,
      which is not modelled, so a dict is a map. */
  type Namespace = map<string, Value>

  /** Neither dict has a key of the other. */
  predicate Disjoint(a: Namespace, b: Namespace)
  {
    a.Keys !! b.Keys
  }

  /** `a.update(b)` for dicts without a common key: every pair of both survives. */
  function Update(a: Namespace, b: Namespace): (r: Namespace)
    requires Disjoint(a, b)
    ensures r.Keys == a.Keys + b.Keys
    ensures forall k :: k in a ==> r[k] == a[k]
    ensures forall k :: k in b ==> r[k] == b[k]
  {
    a + b
  }

  /** `b` holds every pair of `a`: `a` can only have grown into `b` by adding names. */
  ghost predicate Extends(a: Namespace, b: Namespace)
  {
    && a.Keys <= b.Keys
    && (forall k :: k in a ==> b[k] == a[k])
  }

  lemma ExtendsTransitive(a: Namespace, b: Namespace, c: Namespace)
    requires Extends(a, b) && Extends(b, c)
    ensures Extends(a, c)
  {
  }
}
