# pluma-parse: a Dafny model of the test-description loader and runner

`pluma-parse.py` reads a YAML test description and runs it. Tags build its
objects: a `Test` has a setup, a sequence repeated `iterations` times, a
teardown, and `defaults` / `parameters` dicts. The leaves are commands, file
transfers and python tests. A `!set` assigns a variable, a `!eval` is an
expression, a LazyStr is a format string rendered late, and `!yml` includes
another file.

Each tag constructor picks its fields from the node's mapping. A field name
suffixed with an active board tag (`value_evk`) overrides the plain one, and
the earliest tag in `global_context["overrides"]` wins. After loading,
`post_init` walks the object graph. It gives each object its `parent`, and
each test merges its defaults and parameters into its scope.
`Test.run` then runs the actions and stops early on a "failed" result unless
`continue_on_fail` is set.

The model, one module per file:

- `Base` (base.dfy): `Option`, `Result` and the Python exceptions the core
  raises.
- `Templates` (templates.dfy): LazyStr templates, `str.format` on them, and
  the rendering context of `LazyStr.__str__`.
- `Values` (values.dfy): Python values, and dicts as ordered key lists over
  maps. It also has iteration (`for a in v`), truthiness and `f'{v}'` of
  a value that is not an `!eval`.
- `Overrides` (overrides.dfy): `OverrideDict.get` and
  `get_field_overrides`, as a function and as the loop with an early return.
- `Scope` (scope.dfy): the parameter resolution of `Test.post_init`.
- `Objects` (objects.dfy): the loaded objects as an arena. Objects are
  numbered so that each one refers only to lower numbers. It also holds the
  attributes `dir()` lists and `f'{v}'` of an `!eval` (`Evaluator.get`).
- `Linking` (linking.dfy): `post_init` / `post_init_children` as a walk
  that returns the parent assignments it makes, in order.
- `Execution` (execution.dfy): `Test.run`, `VariableSetter.run` and
  `a.run()` as functions. They thread the objects and record the trace of
  actions entered.
- `Runtime` (heap.dfy): class `Heap` holds the objects, the parent links
  and the trace as mutable fields. Its methods perform the walk and the
  runs in place. Each method is proved equal to the function that
  specifies it.
- `Construct` (construct.dfy): `construct_mapping`, the field extraction of
  `construct_test`, `construct_set` and `construct_from_yml`, and the text
  that `Test.from_yaml` loads.

Things the model takes from outside are parameters:

- the outcome of each leaf action's `run`;
- Python's `eval`;
- `str()` of a non-string value;
- `global_context` as text;
- the list of active override tags;
- the contents of the files read.

Where the code and its comments or documentation differ, the model follows
the code:

- The comment at pluma-parse.py:175 speaks of merging the context. The code
  merges only the test's own defaults and parameters, and the parent's
  scope takes no part.
- `continue_on_fail` defaults to 1, which is truthy. Read as the key, as
  evidently intended, a test with no `continue_on_fail` would not stop after
  a "failed" result. As written, the check reads an attribute of a dict and
  raises AttributeError instead (see Findings).
- Rendering a template that names an unknown field raises KeyError. Nothing
  falls back to the raw text.
- A LazyStr is never given a parent: `expand_str` is commented out at
  pluma-parse.py:117. So `f'{lazy}'` renders against `global_context` alone.
- `Evaluator.get` passes the merged context to `str.format` as a positional
  argument, not as keywords. An `!eval` text with a named placeholder
  therefore raises KeyError, and only its parent's parameters being a dict
  matters. An `!eval` is only shown inside a test: its parent is the object
  whose attribute holds it, so as the value of a `!set` it raises
  AttributeError, and as a mapping key (no parent yet) too.

## Model

| member | source | states |
|---|---|---|
| Overrides.GetField | pluma-parse.py:268-273 | The field returned is either a value of the mapping or the default. |
| Overrides.GetFieldFirstMatch | pluma-parse.py:58-61 | If `name_tag` is present for the i-th active tag and absent for every earlier tag, that variant's value is returned. |
| Overrides.GetFieldFallback | pluma-parse.py:62 | With no tagged variant present, the result is the plain key's value if present, else the default. |
| Overrides.GetFieldVariantWins | pluma-parse.py:55-62 | When some active tag has a variant, the result is the variant of the earliest such tag. |
| Overrides.Get | pluma-parse.py:55-62 | The loop over the tags with its early return computes exactly GetField. |
| Templates.RenderConcat | pluma-parse.py:75 | Rendering a concatenation of templates renders each part in turn. |
| Templates.RenderPlain | pluma-parse.py:75-76 | A template of literal text only renders to its own source text in any context. |
| Templates.RenderLocal | pluma-parse.py:75 | The rendering depends only on the context's values for the fields the template names. |
| Templates.Context | pluma-parse.py:71-74 | The parent's parameters override `global_context`: the keys are the union, and a parent value beats a global one. Without parent parameters the context is `global_context`. |
| Templates.Format | pluma-parse.py:75 | `fmt.format(**ctx)` succeeds iff every field is in the context, and then gives the rendering; otherwise it raises KeyError. |
| Templates.Str | pluma-parse.py:70-78 | `LazyStr.__str__` succeeds iff every field is in `global_context` or the parent's parameters, and otherwise raises KeyError. On success the text is the rendering in the merged context. A template with no fields gives back its own text. |
| Templates.StrField | pluma-parse.py:71-75 | A lone placeholder renders to the parent's parameter when the parent has it, else to `global_context`'s value, else raises KeyError. |
| Values.Put | pluma-parse.py:341 | `d[k] = v`: the map gains or updates k. An existing key keeps its place, and a new key goes to the end. |
| Values.Filter | pluma-parse.py:178 | Exactly the keys that satisfy the predicate are kept. The result is a subsequence of the input, so the kept keys keep their order, and no duplicate appears. |
| Values.Truthy | pluma-parse.py:192 | Python truthiness: exactly None, False, 0, the empty str, the empty list and the empty dict are falsy. |
| Values.Items | pluma-parse.py:190-200 | Iterating gives a list's items, a dict's keys in insertion order, or a string's characters. Any other value raises TypeError. |
| Values.Text | pluma-parse.py:339-340 | `f'{v}'` of a value that is not an `!eval`: a str is itself and a LazyStr renders against `global_context`. Only a LazyStr can fail, with KeyError. |
| Objects.EvalText | pluma-parse.py:130-141 | `f'{e}'` of an `!eval` raises AttributeError unless its parent is a test, TypeError if that test's parameters are not a dict, and KeyError if the text has a named placeholder. On success it is `str()` of what `eval` gives for the text. |
| Objects.Repr | pluma-parse.py:130-141 | `f'{v}'` with objects: only an `!eval` or a LazyStr can fail, and a LazyStr only with KeyError. |
| Objects.EvalOutsideTest | pluma-parse.py:135 | An `!eval` whose parent is a `!set` cannot be shown: AttributeError. |
| Objects.LoadText | pluma-parse.py:366 | `f'{key}'` while loading: an `!eval` raises AttributeError, any other value is shown as Text says. |
| Objects.LoadTextIsRepr | pluma-parse.py:130-141 | Showing a value while loading is showing it with no parent assigned yet, whatever `eval` does. |
| Objects.AttributesInDirOrder | pluma-parse.py:113-125 | The attributes `post_init` walks are the constructor's attributes, in strictly sorted name order, as `dir()` lists them. |
| Scope.Merge | pluma-parse.py:176 | `{**defaults, **parameters}` has the union of keys. A parameter beats a default, and the defaults' order comes first. |
| Scope.DropNone | pluma-parse.py:178 | Exactly the entries whose value is None are removed. The others are unchanged. |
| Scope.SetDefault | pluma-parse.py:180-183 | A key is added with the given value only when it is absent. |
| Scope.ResolveParameters | pluma-parse.py:172-185 | A key given (parameter over default) and not None keeps that value. `iterations` and `continue_on_fail` are 1 otherwise, and any other key is absent. |
| Scope.ResolvedEntries | pluma-parse.py:176-183 | A key is in the resolved scope iff given or one of the two defaults. A given key has the chosen value, no value is None, and the two defaults are 1. |
| Scope.ResolveTwiceRestoresRemoved | pluma-parse.py:176-178 | A default that `None` removed is absent after one resolution. Resolving again brings it back with the default's value. |
| Scope.ResolveTwiceWithoutRemovals | pluma-parse.py:172-185 | With no None among the parameters, resolving the resolved scope again changes nothing. |
| Linking.ResolveTest | pluma-parse.py:172-185 | `Test.post_init` sets the test's parameters to the resolved scope and leaves every other object and field alone. |
| Linking.LinkObj | pluma-parse.py:105-128 | A `post_init` from object `id` changes only parameters of objects numbered up to `id`. It assigns parents only to those objects. |
| Linking.LinkResolvedTest | pluma-parse.py:172-186 | Linking a test after resolving it changes only parameters of objects up to the test, assigns parents only to those, and leaves the test itself as resolved. |
| Linking.LinkPlain | pluma-parse.py:105-128 | Linking an object that is not a test or an `!eval` changes only parameters of objects up to it, and assigns parents only to those. |
| Linking.LinkAttrs | pluma-parse.py:119-125 | The loop over an object's attributes changes only parameters of objects below it, and assigns parents only to those. |
| Linking.LinkValue | pluma-parse.py:95-103 | `post_init_children(v, owner)` changes only parameters of objects below `owner`, and assigns parents only to those. |
| Linking.LinkItems | pluma-parse.py:99-101 | The loop over a list does the same. |
| Linking.LinkKeys | pluma-parse.py:96-98 | The loop over a dict does the same. |
| Linking.LinkObjLast | pluma-parse.py:128 | A walk that raises nothing ends with `self.parent = p`. |
| Linking.LinkObjParent | pluma-parse.py:128 | After `post_init(p)` completes, the object's parent is `p`. |
| Linking.LinkValueVisits | pluma-parse.py:95-103 | `post_init_children(v, owner)` gives parent `owner` to every object held by `v`, directly or inside lists and dict values. |
| Linking.LinkItemsVisits | pluma-parse.py:99-101 | Every object held by a list element is given parent `owner`. |
| Linking.LinkKeysVisitsAt | pluma-parse.py:96-98 | Every object held by a dict value is given parent `owner`. |
| Linking.LinkAttrsVisits | pluma-parse.py:119-125 | Every object held by an attribute walked is given parent `owner`. |
| Linking.LinkObjVisits | pluma-parse.py:119-125 | Every object held by an attribute of `id` after its post_init is given parent `id` during the walk. |
| Linking.LinkChildParent | pluma-parse.py:119-125 | A child of `id` that the walk reaches only from `id` ends with parent `id`. |
| Linking.ReplayUnvisited | pluma-parse.py:95-128 | An object the walk does not reach keeps its parent. |
| Linking.ReplayAgreed | pluma-parse.py:95-128 | An object whose every assignment names the same parent ends with that parent. |
| Execution.Lookup | pluma-parse.py:194 | `parameters[key]` succeeds iff the parameters are a dict holding the key. Otherwise it raises KeyError, or TypeError on a non-dict. |
| Execution.FailFast | pluma-parse.py:192 | The fail-fast check, read as the key: defined iff the dict has `continue_on_fail`, and true iff that value is falsy. |
| Execution.FailFastAsWritten | pluma-parse.py:192 | The check as written, an attribute read on a dict, always raises AttributeError. |
| Execution.PassCount | pluma-parse.py:194 | `range(0, parameters["iterations"])` succeeds iff the parameters are a dict whose `iterations` is an int or a bool. An int gives that many passes, none if negative, and a bool 0 or 1. Other values raise TypeError, a missing key KeyError. |
| Execution.SetVar | pluma-parse.py:338-343 | Returns "ignore" iff the name and value can be shown (as Repr says), `eval` succeeds, and the parent is a test with dict parameters. It then writes exactly that one key of the parent's parameters. No other object changes, and on an exception nothing changes. |
| Execution.SetEvaluatedValue | pluma-parse.py:338-341 | A `!set` whose value is an `!eval` it is the parent of always raises, with AttributeError once its name can be shown. |
| Execution.SetIterations | pluma-parse.py:338-341 | A `!set` of `iterations` to m in its test returns "ignore", makes the pass count m and leaves the fail-fast check as it was. |
| Execution.SetterPhase | pluma-parse.py:189-193 | A setup of one `!set` that returns runs it once and continues with the objects it changed. |
| Execution.SetupSetsIterations | pluma-parse.py:189-201 | A test whose setup is one `!set` of `iterations` to m, with a flat sequence and teardown, returns "Pass". Its trace is the setter, the sequence m times, then the teardown, and the test ends with `iterations` m. |
| Execution.RunTest | pluma-parse.py:189-201 | A run changes no object except test parameters. |
| Execution.TestBody | pluma-parse.py:194-201 | The passes and teardown change no object except test parameters. |
| Execution.TestTeardown | pluma-parse.py:199-201 | The teardown changes no object except test parameters. |
| Execution.RunLoop | pluma-parse.py:194-198 | The passes change no object except test parameters. |
| Execution.RunPass | pluma-parse.py:195-198 | One pass changes no object except test parameters. |
| Execution.RunPhase | pluma-parse.py:190-193 | A loop over actions changes no object except test parameters. |
| Execution.RunChecked | pluma-parse.py:191-193 | One checked action changes no object except test parameters. |
| Execution.RunAction | pluma-parse.py:143-145 | `a.run()` changes no object except test parameters. |
| Execution.CheckedLeaf | pluma-parse.py:191-193 | A leaf run in a checked loop enters just that leaf. It continues unless it raises, or returns "failed" while `continue_on_fail` is falsy; then the run stops with that result. |
| Execution.FlatPhaseRuns | pluma-parse.py:190-193 | Over leaves that all return, and none fails or failing is allowed, the loop continues. Its trace is exactly the leaves in order. |
| Execution.FlatPhaseStops | pluma-parse.py:190-193 | The loop stops at the first leaf that raises, or fails while failing is fatal. That leaf's result ends the run, and the trace ends with that leaf. |
| Execution.FlatLoopRuns | pluma-parse.py:194-198 | n passes over a flat sequence with no stop enter the sequence n times over. |
| Execution.FlatLoopStops | pluma-parse.py:194-198 | A sequence that stops stops the first pass at that leaf. |
| Execution.RunFlatPasses | pluma-parse.py:189-201 | A flat test with no failure, or with `continue_on_fail` truthy, returns "Pass". Its trace is the setup, then the sequence `iterations` times, then the teardown. |
| Execution.FlatBodyPasses | pluma-parse.py:194-201 | After the setup, such a test's passes and teardown return "Pass" with that trace. |
| Execution.FlatTeardownPasses | pluma-parse.py:199-201 | A flat teardown runs every action and returns "Pass", whatever the actions return. |
| Execution.RunFlatStopsInSetup | pluma-parse.py:190-193 | A setup action that stops the run returns its result. Nothing after it runs. |
| Execution.RunFlatStopsInSequence | pluma-parse.py:194-198 | A sequence action that stops the run returns its result after the setup and the sequence up to it. No teardown runs. |
| Execution.ActionNeverFails | pluma-parse.py:143-145 | If no leaf returns "failed", `a.run()` never returns "failed". |
| Execution.PhaseNeverFails | pluma-parse.py:190-193 | If no leaf returns "failed", no action loop stops with "failed". |
| Execution.LoopNeverFails | pluma-parse.py:194-198 | If no leaf returns "failed", the passes never stop with "failed". |
| Execution.TestNeverFails | pluma-parse.py:189-201 | If no leaf returns "failed", and those of the source return "N/A", a test never returns "failed". |
| Execution.BodyNeverFails | pluma-parse.py:194-201 | The same for the passes and teardown. |
| Execution.TeardownNeverFails | pluma-parse.py:199-201 | The same for the teardown. |
| Execution.ActionBelow | pluma-parse.py:143-145 | `a.run()` inside a test enters only actions numbered below that test. |
| Execution.PhaseBelow | pluma-parse.py:190-193 | An action loop of a test enters only actions numbered below it. |
| Execution.LoopBelow | pluma-parse.py:194-198 | The passes of a test enter only actions numbered below it. |
| Execution.TestBelow | pluma-parse.py:189-201 | A test's run enters only actions numbered below it, the ones its lists reach. |
| Execution.BodyBelow | pluma-parse.py:194-201 | The same for the passes and teardown. |
| Execution.TeardownBelow | pluma-parse.py:199-201 | The same for the teardown. |
| Execution.ContinueOnFailAsWritten | pluma-parse.py:192 | On a test whose `continue_on_fail` comes from the default, the check as written raises AttributeError. The key lookup instead gives "do not stop". |
| Runtime.Heap.PostInit | pluma-parse.py:105-128 | `post_init(p)` on the heap produces the objects and exception LinkObj gives. Afterwards the parent links are the old ones with the walk's assignments replayed, and the invariant is kept. |
| Runtime.Heap.PostInitTest | pluma-parse.py:172-186 | `Test.post_init(p)` does what LinkObj gives for a test. |
| Runtime.Heap.PostInitMembers | pluma-parse.py:113-125 | Walking the attributes `dir()` lists for an object does what LinkAttrs gives over those attributes. |
| Runtime.Heap.PostInitAttrs | pluma-parse.py:119-125 | The loop over a list of attribute values does what LinkAttrs gives. |
| Runtime.Heap.PostInitChildren | pluma-parse.py:95-103 | `post_init_children(v, owner)` does what LinkValue gives. |
| Runtime.Heap.PostInitItems | pluma-parse.py:99-101 | The loop over a list does what LinkItems gives. |
| Runtime.Heap.PostInitKeys | pluma-parse.py:96-98 | The loop over a dict does what LinkKeys gives. |
| Runtime.Heap.SetVariable | pluma-parse.py:338-343 | `VariableSetter.run` updates the objects and returns as SetVar says. It leaves the parent links and the trace alone. |
| Runtime.Heap.Perform | pluma-parse.py:143-145 | `a.run()` on the heap returns, updates the objects and extends the trace as RunAction says. |
| Runtime.Heap.PerformChecked | pluma-parse.py:191-193 | One action and its check do what RunChecked says. |
| Runtime.Heap.RunActions | pluma-parse.py:190-193 | The loop over an action list does what RunPhase says. |
| Runtime.Heap.PassOnce | pluma-parse.py:195-198 | One pass over the sequence does what RunPass says. |
| Runtime.Heap.RunPasses | pluma-parse.py:194-198 | The `range` loop does what RunLoop says. |
| Runtime.Heap.Run | pluma-parse.py:189-201 | `Test.run` on the heap does what RunTest says. |
| Runtime.Heap.Body | pluma-parse.py:194-201 | The passes and teardown do what TestBody says. |
| Runtime.Heap.Teardown | pluma-parse.py:199-201 | The teardown does what TestTeardown says. |
| Construct.KeyOf | pluma-parse.py:362-366 | A list or dict key raises ConstructorError, and an `!eval` key AttributeError. A str key is itself, a LazyStr key renders against `global_context`, and the only other failure is its KeyError. |
| Construct.Mapping | pluma-parse.py:359-367 | The only failures are ConstructorError for an unhashable key, KeyError from rendering a LazyStr key, and AttributeError from showing an `!eval` key. |
| Construct.MappingWf | pluma-parse.py:359-367 | A dict that is built lists each of its keys exactly once. |
| Construct.MappingKeyOrder | pluma-parse.py:359-367 | The keys read from the first i pairs come first in the built dict, in their order. So each key keeps the place of its first reading. |
| Construct.MappingKeyAppended | pluma-parse.py:366 | A pair with a new key adds it at the end of the key order; a repeated key leaves the order alone. |
| Construct.MappingOf | pluma-parse.py:354-358 | A node that is not a mapping raises ConstructorError. |
| Construct.ConstructMapping | pluma-parse.py:354-367 | The loop over the key/value pairs computes MappingOf. |
| Construct.MappingPrefixFails | pluma-parse.py:360-366 | Once the pairs read so far fail, the whole mapping fails with the same exception. |
| Construct.MappingHasKey | pluma-parse.py:366 | Every key of the node, as text, is a key of the dict. |
| Construct.MappingKeySource | pluma-parse.py:366 | Every key of the dict is the text of a key of the node. |
| Construct.MappingKeys | pluma-parse.py:366 | A text is a key of the dict iff it is the text of some key of the node. |
| Construct.MappingLastWins | pluma-parse.py:366 | For a key given twice, the later pair's value wins. |
| Construct.MappingOk | pluma-parse.py:362-366 | When every key is hashable and can be shown as KeyOf says, the mapping is built. |
| Construct.MappingReadsAll | pluma-parse.py:362-366 | A mapping that is built had only keys that KeyOf turns into text. |
| Construct.MappingStopsAt | pluma-parse.py:362-364 | The first key that is unhashable or cannot be shown decides the exception raised. |
| Construct.MappingFailure | pluma-parse.py:362-364 | A failing mapping has a first bad key, and its exception is the one raised. |
| Construct.MappingFails | pluma-parse.py:360-366 | The mapping raises x iff some first bad key raises x. |
| Construct.ConstructTest | pluma-parse.py:275-286 | Each of the six fields is a value of the node's mapping or its default: None for name and sequence, `[]` for setup and teardown, `{}` for defaults and parameters. |
| Construct.ConstructTestDefaults | pluma-parse.py:275-286 | A test with no setup, teardown, defaults or parameters (plain or variant) gets empty lists and empty dicts. Its resolved scope is exactly `iterations: 1, continue_on_fail: 1`. |
| Construct.ConstructSet | pluma-parse.py:345-349 | `var` and `value` are each a value of the node's mapping or None. With no key for one, plain or variant, it is None. |
| Construct.ConstructSetVariant | pluma-parse.py:345-349 | A `!set` whose `value` has a variant for an active tag takes the earliest tag's value. |
| Construct.FromYml | pluma-parse.py:320-327 | The include fails with AttributeError iff the loaded root cannot take an attribute. Otherwise only the root test may change, and only its parameters. |
| Construct.FromYmlReplaces | pluma-parse.py:325-326 | A `parameters` field that is not None becomes the included test's parameters outright. |
| Construct.FromYmlKeeps | pluma-parse.py:323-326 | With no `parameters` field, or None as its value, the included test is kept as loaded. |
| Construct.FromYmlScope | pluma-parse.py:325-326 | After the replacement, resolving the included test gives its own defaults overridden by the including document's parameters. The included file's parameters take no part. |
| Construct.Joined | pluma-parse.py:152-156 | The loaded text starts with the main file's contents. |
| Construct.ReadDocument | pluma-parse.py:152-156 | The read-and-append loop computes Joined. |
| Construct.JoinedLines | pluma-parse.py:152-156 | When no part holds a newline, splitting the loaded text at newlines gives back the main file, then each append file in order. |

## Left out

- The object graph is acyclic in the model: every object refers only to objects numbered below it. A document with a cycle makes the source recurse without end in `post_init` and `run`. Sharing is modelled: an object reached twice gets the parent of its last visit.
- Execution.RunAction: its own contract states only that a run changes nothing but test parameters; results and traces are stated by the CheckedLeaf, Flat*, *NeverFails and *Below lemmas and by the Runtime.Heap method proved equal to it.
- Execution.RunChecked: its own contract states only that a run changes nothing but test parameters; results and traces are stated by the CheckedLeaf, Flat*, *NeverFails and *Below lemmas and by the Runtime.Heap method proved equal to it.
- Execution.RunPhase: its own contract states only that a run changes nothing but test parameters; results and traces are stated by the CheckedLeaf, Flat*, *NeverFails and *Below lemmas and by the Runtime.Heap method proved equal to it.
- Execution.RunPass: its own contract states only that a run changes nothing but test parameters; results and traces are stated by the CheckedLeaf, Flat*, *NeverFails and *Below lemmas and by the Runtime.Heap method proved equal to it.
- Execution.RunLoop: its own contract states only that a run changes nothing but test parameters; results and traces are stated by the CheckedLeaf, Flat*, *NeverFails and *Below lemmas and by the Runtime.Heap method proved equal to it.
- Execution.RunTest: its own contract states only that a run changes nothing but test parameters; results and traces are stated by the CheckedLeaf, Flat*, *NeverFails and *Below lemmas and by the Runtime.Heap method proved equal to it.
- Execution.TestBody: its own contract states only that a run changes nothing but test parameters; results and traces are stated by the CheckedLeaf, Flat*, *NeverFails and *Below lemmas and by the Runtime.Heap method proved equal to it.
- Execution.TestTeardown: its own contract states only that a run changes nothing but test parameters; results and traces are stated by the CheckedLeaf, Flat*, *NeverFails and *Below lemmas and by the Runtime.Heap method proved equal to it.
- Linking.LinkObj: its own contract states only the frame of the walk. The parents it assigns are stated by LinkObjParent, the *Visits lemmas and LinkChildParent.
- Runs of nested tests are covered by the Flat lemmas only when the actions are leaves. For nested tests the trace is given by the functions themselves and by TestBelow.
- Execution.FlatPhaseRuns: covers leaf actions only, not setters or nested tests; a setup of one setter is covered by SetupSetsIterations.
- Execution.FlatPhaseStops: covers leaf actions only, not setters or nested tests.
- Execution.FlatLoopRuns: covers leaf actions only, not setters or nested tests.
- Execution.FlatLoopStops: covers leaf actions only, not setters or nested tests.
- Execution.RunFlatPasses: covers leaf actions only; a setup of one setter of `iterations` is covered by SetupSetsIterations.
- Execution.FlatBodyPasses: covers leaf actions only, not setters or nested tests.
- Execution.FlatTeardownPasses: covers leaf actions only, not setters or nested tests.
- Execution.RunFlatStopsInSetup: covers leaf actions only, not setters or nested tests.
- Execution.RunFlatStopsInSequence: covers leaf actions only, not setters or nested tests.
- Execution.SetupSetsIterations: covers a setup of exactly one setter, whose value evaluates to a non-negative int.
- Linking.LinkResolvedTest: its own contract states only the frame of the walk. The parents it assigns are stated by the *Visits lemmas.
- Linking.LinkPlain: its own contract states only the frame of the walk. The parents it assigns are stated by the *Visits lemmas.
- Linking.LinkAttrs: its own contract states only the frame of the walk. The parents it assigns are stated by LinkAttrsVisits.
- Linking.LinkValue: its own contract states only the frame of the walk. The parents it assigns are stated by LinkValueVisits.
- Linking.LinkItems: its own contract states only the frame of the walk. The parents it assigns are stated by LinkItemsVisits.
- Linking.LinkKeys: its own contract states only the frame of the walk. The parents it assigns are stated by LinkKeysVisitsAt.
- The leaf actions `DutCmd.run`, `HostCmd.run`, `PythonTest.run`, `DeployFetch.run` and `Action.run` print and return "N/A". Their outcome is a parameter of the model. `DeployFetch.run` calls `.format` on a LazyStr, which has no such method, so in practice it raises.
- `expand_str` is not modelled: it is never called.
- Objects.Repr: an object other than an `!eval`, and a list or dict, is shown by the parameter `show`, which cannot fail. In the source the `__repr__` of a test, command, transfer or python test formats its fields with `%s`, so a field holding a LazyStr with an unknown placeholder, or an `!eval` that cannot be shown, makes it raise; so does a list or dict holding such an `!eval`.
- Objects.LoadText: the same gap as Repr for keys that are objects other than an `!eval`.
- Templates are taken as already parsed: a literal holds no brace, and a field is a plain name. Positional fields (`{}`, `{0}`), attribute and index lookups and format specs are not modelled; in an `!eval` text such a field would format the merged context dict itself.
- File lookup (`PathFinder.locate`, `locateall`) and file reading are left out: the contents of the main file and the append files are parameters.
- The YAML parser and `construct_object` are left out: a mapping node carries its key and value objects already built. `construct_dut`, `construct_host`, `construct_python_test`, `construct_deploy`, `construct_fetch`, `construct_none`, `construct_from_eval` and `construct_lazy_str` only wrap a scalar or mapping into an object, and appear only as the object kinds they build.
- Construct.ConstructTest: its own contract states where each field comes from, not which variant wins. That is stated by ConstructTestDefaults, and by the Overrides lemmas it is built on.
- Construct.FromYml: on a root that is not a test, the replacement `obj.parameters = params` adds an attribute that the model does not hold, so such a root is kept unchanged. `r._root` is not held either.
- Python's `eval` and `str()` of non-string values are parameters. An `eval` that raises is an EvalError.
- Only `{name}` fields and the `{{` / `}}` escapes of the format mini-language are modelled. Floats are not modelled, and printing is left out.
- Values.Truthy: modelled for None, bools, ints, strings, lists and dicts. Objects and LazyStrs, which define no `__bool__` or `__len__`, are truthy.

## Findings

| source | as written | input that shows it | evidently intended | confidence | as-written member | corrected member |
|---|---|---|---|---|---|---|
| pluma-parse.py:192, pluma-parse.py:197 | `self.parameters.continue_on_fail` is read as an attribute of a dict, which always raises AttributeError | any test whose action returns "failed", e.g. with the default `continue_on_fail: 1` | `self.parameters["continue_on_fail"]`, so that a truthy value lets the run continue | high; not executed; latent while every leaf returns "N/A" | Execution.ContinueOnFailAsWritten | Execution.FailFast |
