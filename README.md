# stories: a Dafny model of the story compiler and interpreter

`stories.py` runs *stories*: declared pipelines of steps. A story is a
function decorated with `@story`. Its body reads one attribute per step on a
recording object, and `@argument` decorators declare the names the story needs.
A call `obj.x(...)` does three things:

1. **Binding.** `validate_arguments` binds the call's positional or keyword
   arguments to the declared names. The result is the context.
2. **Collection.** A `Collector` records the body as a flat list of
   `(owner, callable, of)` triples. Each name is resolved as follows:
   - A story found on the object's class is inlined against the same object.
   - Anything else found on the class becomes one step.
   - Otherwise the instance itself must hold a bound story. That story is
     inlined against the object it is bound to (dependency injection).
   - An inlined sub-story is an entry check, then its own body, then an
     `end_of_story` exit marker.
3. **The walk.** `tell_the_story` walks the list once, with a single `skipped`
   marker. It dispatches on what each step returns:
   - `Failure` returns the Failure object.
   - `Result(v)` returns `v`.
   - `Skip` passes over everything up to the exit marker of the step's own
     declaration.
   - `Success(**kw)` adds new names to the context. A name cannot be
     assigned twice.

## Modules

- `values.dfy` (module `Values`) holds the shared types:
  - `Option` and `Result`;
  - the values a context holds;
  - the engine's errors;
  - dictionaries (`Namespace`), with `update` on disjoint dicts and the "only
    grows" relation `Extends`.
- `arguments.dfy` (module `Arguments`) holds the `argument` decorator and
  `validate_arguments`:
  - the decorated function is the class `StoryFunction`, whose `arguments`
    attribute the decorator creates and prepends to;
  - `Zip` is the dict comprehension over `zip(arguments, args)`.
- `collector.dfy` (module `Collection`) holds collection:
  - `World` is the attribute lookup: class attributes after the method
    resolution order, instance attributes, and the declared stories;
  - `Resolve` is the decision `Collector.__getattr__` takes;
  - `NameTrace`, `SubstoryTrace`, `BodyTrace` and `StoryTrace` are the
    specification of what collection appends;
  - the imperative collector is the classes `InstructionList` (the shared
    `method_calls` list) and `Collector`, plus the method `CollectSubstory`;
  - `Scan` and `WellNested` check that a trace nests properly.
- `interpreter.dfy` (module `Interpreter`) holds the walk:
  - `Outcome` is what a step can return;
  - `Context` is the object holding `ns`;
  - `Invoke` calls one instruction: a step through `make_proxy`
    (stories.py:86), the entry check of a sub-story (stories.py:194-196), or
    `end_of_story` (stories.py:203-204);
  - `Advance` is one loop iteration;
  - `Run` and `Iterate` are the walk from a state and its first `n` steps;
  - `Tell` is the whole of `tell_the_story`;
  - the methods `TellTheStory` and `Walk` run it as the source does. They
    mutate the context in place and are proved equal to `Tell` and `Run`.

### Termination

Collection recurses through sub-stories, and the source does not detect a
cycle. Every collection function therefore takes a `rank` map over
(owner, declaration) pairs. The rank strictly decreases from a story to every
sub-story that one of its names resolves to. The rank covers every name of
every body collection can reach, including names after an access that raises.
The source never looks at those names, so the precondition is stronger than
"the sub-story graph the source explores is acyclic" (see "## Left out").

### Skip matches on the declaration only

stories.py:82 ends a skip at the first `end_of_story` whose `of` is the
skipped declaration. It does not check the owner. The same story can be
inlined again inside itself against another object, when an instance stores
that story bound to a different object. In that case the inner copy's exit
marker ends the outer skip, and the rest of the outer story runs.
`Interpreter.SkipEndsAtInjectedCopy` shows a concrete world where this happens:
a top-level `Skip`, which would otherwise return `None`, lets the story
return `1`. The model follows the code. `Interpreter.TopLevelSkip`
proves the `None` result when the story is collected against its own object
only (`CollectedOnlyOn`), and `Interpreter.SubstorySkip` proves, under the same
condition for a sub-story, that a skip inside it resumes right after its own
exit marker.

### Two behaviours of the code

- **`None` from a step.** stories.py:87-91 continues only on the internal
  `undefined` sentinel, and asserts that any other value is one of the four
  outcome classes. A step returning `None` therefore fails that assertion;
  in the model it is `NotAnOutcome` and ends with `Raised(UnexpectedReturn)`.
- **The context.** stories.py:104 updates the plain dict `ctx.ns` in place.
  The model has the class `Context` with the field `ns`, which `Walk`
  reassigns.

## Model

| member | source | states |
|---|---|---|
| `Values.Update` | stories.py:103-104 | `ns.update(kwargs)` on disjoint dicts keeps every old pair and adds every new one; the key set is the union |
| `Arguments.StoryFunction.Argument` | stories.py:30-34 | creates `f.arguments` when absent and puts the name at its front; `body` is a constant, so nothing else about `f` changes |
| `Arguments.DecorateWithArguments` | stories.py:28-36 | stacked `@argument` decorators, applied bottom-up, leave the names in top-to-bottom source order in front of what was there; with no decorator `f.arguments` is untouched |
| `Arguments.ZipFirstKeys` | stories.py:114 | the comprehension after `n` pairs binds exactly the first `n` names |
| `Arguments.ZipFirstLastWins` | stories.py:114 | a name is bound to the argument at its last position among the first `n` |
| `Arguments.ZipBinds` | stories.py:114 | `zip` binds exactly the declared names, each to its positional argument (the last one for a repeated name) |
| `Arguments.ValidateArguments` | stories.py:107-117 | mixing positional and keyword arguments is rejected; a positional call needs the exact count and binds every declared name to its position; a keyword call (and a call with no arguments) needs exactly the declared name set and returns the keyword dict unchanged; each failure has its own error |
| `Collection.Resolve` | stories.py:139-154 | every story a name resolves to is a declared story |
| `Collection.NameTraceCases` | stories.py:139-154 | resolution order: the collector's own attributes emit nothing; a class attribute wins, a story there is inlined against the same object and anything else is exactly one step tagged with the current `of`; otherwise the instance attribute must be a story bound to an object, inlined against that object; a missing attribute, a non-story and an unbound function raise |
| `Collection.BodyTraceStops` | stories.py:199 | an exception raised by one attribute access ends the body; nothing after it is collected |
| `Collection.SubstoryFraming` | stories.py:190-200 | a sub-story's instructions start with its entry check carrying its declared names; when its body collects without error they are the entry check, the body collected against its own object, then its exit marker; an error in the body is the sub-story's error |
| `Collection.NameTraceNested` | stories.py:139-154 | what one attribute access appends closes every frame it opens and only opens frames ranked below the current story |
| `Collection.SubstoryTraceNested` | stories.py:190-200 | a successfully collected sub-story is balanced: its entry opens its frame, its exit closes it |
| `Collection.BodyTraceNested` | stories.py:199 | a successfully collected body is balanced, and each of its steps carries the owner and `of` of the story that contains it |
| `Collection.StoryTraceHasNoMarkerOf` | stories.py:190-200 | when a story is collected against one object only, its trace holds no entry or exit marker of its own declaration |
| `Collection.StoryTraceWellNested` | stories.py:76 | the trace of a story that collects without error is well nested, with every step tagged by the innermost sub-story around it (the story itself at top level), and the top-level story has no markers of its own |
| `Collection.InstructionList.constructor` | stories.py:75 | the shared instruction list starts empty |
| `Collection.Collector.constructor` | stories.py:134-137 | a collector remembers its object, the shared list and its `of` |
| `Collection.Collector.GetAttr` | stories.py:139-154 | `Collector.__getattr__` appends exactly what `NameTrace` specifies and raises exactly its error |
| `Collection.Collector.RunBody` | stories.py:199 | running the body with a collector appends exactly the story's trace and raises exactly its error |
| `Collection.CollectSubstory` | stories.py:190-200 | `collect_substory` appends exactly `SubstoryTrace`: the entry check, the body, and the exit marker only when the body did not raise |
| `Interpreter.Context.constructor` | stories.py:122-123 | a context wraps the dict it is given |
| `Interpreter.Advance` | stories.py:79-104 | while skipping nothing runs and only the exit marker of the skipped declaration ends the skip; the context only grows; a `Skip` met while not skipping continues with the same context and starts skipping the step's own declaration, and only a `Skip` starts a skip; a `Success` merges only when disjoint from the context (otherwise it raises); `Failure`, `Result`, an exception and any other value end the walk; `undefined` continues |
| `Interpreter.TellTheStory` | stories.py:72-104 | `tell_the_story` binds the arguments, collects the trace into a fresh list and walks it, returning exactly what `Tell` specifies |
| `Interpreter.Walk` | stories.py:77-104 | the `for` loop with `skipped` and the in-place `ns.update` returns exactly `Run` from the start, and leaves exactly the context `FinalContext` gives (the one held when the walk stops or ends), which extends the initial one |
| `Interpreter.IterateRun` | stories.py:79-104 | the walk from the start equals the walk from any state it reaches, in its result and in the context it leaves, and a stop is the result |
| `Interpreter.NormalCompletion` | stories.py:79-104 | a walk that gets through every instruction returns `None` |
| `Interpreter.IterateExtends` | stories.py:103-104 | over a walk no context name is removed or reassigned |
| `Interpreter.IteratePrefix` | stories.py:79 | the state after `n` instructions depends on those instructions only |
| `Interpreter.ShortCircuit` | stories.py:93-97 | a reached `Failure` or `Result(v)` is the story's result, whatever instructions (exit markers included) come after it |
| `Interpreter.SkipResumesAfterExit` | stories.py:81-84 | a skip of `D` passes over everything up to the first exit marker of `D`, nested sub-stories included, and resumes right after it with the same context |
| `Interpreter.SkipToEnd` | stories.py:81-84 | a skip with no exit marker of its declaration ahead returns `None` |
| `Interpreter.TopLevelSkip` | stories.py:99-101 | a `Skip` from a step of the top-level story makes the walk of the collected trace return `None`, for every world in which that story is collected against its own object only |
| `Interpreter.TellTopLevelSkip` | stories.py:72-101 | when the arguments bind and collection succeeds, such a `Skip` makes `tell_the_story` itself return `None` |
| `Interpreter.SubstorySkip` | stories.py:81-84 | a skip of a sub-story started anywhere inside its inlined body resumes right after that sub-story's own exit marker, wherever it sits in the trace, when the sub-story is collected against one object only |
| `Interpreter.EnterMarker` | stories.py:192-196 | the entry check leaves the context unchanged when every declared name of the sub-story is in it, and raises otherwise |
| `Interpreter.SkipEndsAtInjectedCopy` | stories.py:82 | a skip ends at the exit marker of an injected copy of the same declaration on another object, so later steps of the skipped story run |
| `Interpreter.OneThenTwoFails` | stories.py:72-104 | `x = [one, two]` on a class with step methods `one` and `two`, called with `foo=3, bar=2`: collection gives the two steps, `one`'s `Success(baz=4)` is merged, and the call returns `two`'s `Failure` |

## Left out

- `Proxy` and `make_proxy` (stories.py:157-183) are attribute forwarding. A
  step is the function `StepBodies` of its owner, its name and the current
  context. A step that writes to `self.ctx.ns` itself is not modelled.
- `__repr__` and `namespace_representation` (stories.py:44-66, 128-129,
  207-208) are not modelled. Within stories.py only `namespace_representation`
  (stories.py:208) reads the insertion order of a dict, so dicts are maps. A
  step can still read the order through `self.ctx.ns` (stories.py:123, 180),
  which for a keyword call is the caller's keyword order (stories.py:117). A
  step whose outcome depends on the order of the context, or of a `Success`'s
  keywords, is not modelled.
- Exceptions raised inside step bodies are the outcome `Raise(error)` with an
  abstract description. The engine's own assertions are distinct `Error`
  values; in the source they are all `AssertionError` or `AttributeError`.
  The payloads of `SubstoryArgumentsMissing` (the missing names) and
  `KeyCollision` (the reassigned names) are the model's own detail: the
  assertions at stories.py:103 and 195 carry no message.
- A `Failure` is returned as `FailureReturned`; the identity of the returned
  Failure object is not modelled.
- Python attribute lookup is a table. `World.classAttrs` gives the class
  attributes after method resolution order, and `World.instanceAttrs` gives
  what an instance holds.
- Modelled lookup gaps:
  - Of the collector's own attributes, only `obj`, `method_calls` and `of`
    are modelled; dunder names are not.
  - `__getattr__` hooks of host objects are not modelled.
- `is_story` and the `story` decorator (stories.py:18-25, 186-187) become the
  attribute kinds `StoryFn` (the wrapper function) and `BoundStory` (the
  wrapper bound to an object). Non-callable attributes flagged `is_story` are
  not modelled.
- A cyclic sub-story reference is excluded by the `rank` precondition. The
  source would recurse until the interpreter's stack limit.
- Values are only `None`, integers and strings.
- Collection.Resolve: its contract only says that an inlined story is
  declared. The resolution order itself is stated by
  `Collection.NameTraceCases`.
- `Context.__getattr__` (stories.py:125-126) is how a step reads the
  context, so it belongs to the step bodies. The model does not capture that
  `ns` (an instance attribute, stories.py:123) and dunder names hide context
  keys of the same name.
- A call is excluded by the `rank` precondition when a name after an access
  that raises would lead to a cycle, as in a story `d` whose body is
  `[missing, d]`. The source raises at `missing` and never reaches the cycle.
- Python assertions are assumed to be enabled. Every check of the engine is an
  `assert` (stories.py:91, 103, 109, 113, 116, 152, 195). Under `python -O`
  a key collision would overwrite silently and a sub-story's missing names
  would go unchecked; the model does not describe that mode.
