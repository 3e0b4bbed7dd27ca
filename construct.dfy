/**
 * The loader side of a document: how `construct_mapping` turns a YAML
 * mapping node into a dict, how the tag constructors pull their fields from
 * that dict through the variant lookup, how `!yml` includes another test,
 * and how `Test.from_yaml` assembles the text it hands to the loader.
 *
 * Building the key and value objects of a node is the YAML library's work:
 * a mapping node here carries them already built.
 */
module Construct {
  import opened Base
  import opened Templates
  import opened Values
  import opened Overrides
  import opened Scope
  import opened Objects
  import opened Linking

  // ---------------------------------------------------------------------
  // construct_mapping

  /** A YAML node, a mapping node with its key and value objects already built. */
  datatype Node = MappingNode(pairs: seq<(Value, Value)>) | ScalarNode | SequenceNode

  /** `isinstance(key, Hashable)`: lists and dicts are not hashable; None, numbers, strings and objects are. */
  predicate Hashable(v: Value)
  {
    !(v.VList? || v.VDict?)
  }

  /**
   * The dict key a built key object becomes, `f'{key}'` while loading, or
   * what stops the mapping first: an unhashable key, a placeholder
   * `global_context` lacks, or an `!eval` key, which has no parent yet.
   */
  function KeyOf(key: Value, objs: seq<Obj>, globals: map<string, string>, show: Value -> string): (r: Result<string>)
    ensures !Hashable(key) ==> r == Err(ConstructorError)
    ensures Hashable(key) && IsEvaluator(objs, key) ==> r == Err(AttributeError)
    ensures key.VText? ==> r == Ok(key.s)
    ensures key.VStr? ==> r == Str(key.fmt, globals, None)
    ensures r.Err? ==> r.error in {ConstructorError, KeyError, AttributeError}
  {
    if !Hashable(key) then Err(ConstructorError) else LoadText(objs, key, globals, show)
  }

  /** The dict `construct_mapping`'s loop builds from `pairs`, taken in order. */
  function Mapping(pairs: seq<(Value, Value)>, objs: seq<Obj>, globals: map<string, string>, show: Value -> string): (r: Result<Dict>)
    ensures r.Err? ==> r.error in {ConstructorError, KeyError, AttributeError}
    decreases |pairs|
  {
    if pairs == [] then Ok(EmptyDict)
    else
      var n := |pairs| - 1;
      match Mapping(pairs[..n], objs, globals, show)
      case Err(x) => Err(x)
      case Ok(d) =>
        match KeyOf(pairs[n].0, objs, globals, show)
        case Err(x) => Err(x)
        case Ok(k) => Ok(Put(d, k, pairs[n].1))
  }

  /** A mapping that is built lists each of its keys once, in the order first read. */
  lemma {:induction false} MappingWf(pairs: seq<(Value, Value)>, objs: seq<Obj>, globals: map<string, string>, show: Value -> string)
    requires Mapping(pairs, objs, globals, show).Ok?
    ensures Wf(Mapping(pairs, objs, globals, show).value)
    decreases |pairs|
  {
    if pairs != [] {
      MappingWf(pairs[..|pairs| - 1], objs, globals, show);
    }
  }

  /** `construct_mapping(node)`: a node that is not a mapping is refused. */
  function MappingOf(node: Node, objs: seq<Obj>, globals: map<string, string>, show: Value -> string): (r: Result<Dict>)
    ensures !node.MappingNode? ==> r == Err(ConstructorError)
    ensures node.MappingNode? ==> r == Mapping(node.pairs, objs, globals, show)
  {
    if node.MappingNode? then Mapping(node.pairs, objs, globals, show) else Err(ConstructorError)
  }

  /** Once a prefix of the pairs fails, the whole mapping fails with its error. */
  lemma {:induction false} MappingPrefixFails(pairs: seq<(Value, Value)>, i: nat, objs: seq<Obj>, globals: map<string, string>, show: Value -> string)
    requires i <= |pairs| && Mapping(pairs[..i], objs, globals, show).Err?
    ensures Mapping(pairs, objs, globals, show) == Mapping(pairs[..i], objs, globals, show)
    decreases |pairs|
  {
    if i < |pairs| {
      var n := |pairs| - 1;
      assert pairs[..n][..i] == pairs[..i];
      MappingPrefixFails(pairs[..n], i, objs, globals, show);
    } else {
      assert pairs[..i] == pairs;
    }
  }

  /** One more pair read onto a mapping built so far. */
  lemma MappingStep(pairs: seq<(Value, Value)>, i: nat, objs: seq<Obj>, globals: map<string, string>, show: Value -> string, d: Dict)
    requires i < |pairs| && Mapping(pairs[..i], objs, globals, show) == Ok(d)
    ensures Mapping(pairs[..i + 1], objs, globals, show) ==
      match KeyOf(pairs[i].0, objs, globals, show)
      case Err(x) => Err(x)
      case Ok(k) => Ok(Put(d, k, pairs[i].1))
  {
    assert pairs[..i + 1][..i] == pairs[..i];
  }

  /** `YamlExtendedLoader.construct_mapping`: the loop over the node's pairs. */
  method ConstructMapping(node: Node, objs: seq<Obj>, globals: map<string, string>, show: Value -> string) returns (r: Result<Dict>)
    ensures r == MappingOf(node, objs, globals, show)
  {
    if !node.MappingNode? {
      return Err(ConstructorError);
    }
    var pairs := node.pairs;
    var mapping := EmptyDict;
    for i := 0 to |pairs|
      invariant Mapping(pairs[..i], objs, globals, show) == Ok(mapping)
    {
      MappingStep(pairs, i, objs, globals, show, mapping);
      var (key, value) := pairs[i];
      if !Hashable(key) {
        MappingPrefixFails(pairs, i + 1, objs, globals, show);
        return Err(ConstructorError);
      }
      var text := LoadText(objs, key, globals, show);
      if text.Err? {
        MappingPrefixFails(pairs, i + 1, objs, globals, show);
        return Err(text.error);
      }
      mapping := Put(mapping, text.value, value);
    }
    assert pairs[..|pairs|] == pairs;
    r := Ok(mapping);
  }

  /** A mapping that is built is the one built from all pairs but the last, with the last pair put in. */
  lemma MappingLast(pairs: seq<(Value, Value)>, objs: seq<Obj>, globals: map<string, string>, show: Value -> string)
    requires pairs != [] && Mapping(pairs, objs, globals, show).Ok?
    ensures var n := |pairs| - 1;
      && Mapping(pairs[..n], objs, globals, show).Ok? && KeyOf(pairs[n].0, objs, globals, show).Ok?
      && Mapping(pairs, objs, globals, show).value.vals
         == Mapping(pairs[..n], objs, globals, show).value.vals[KeyOf(pairs[n].0, objs, globals, show).value := pairs[n].1]
  {
  }

  /**
   * The keys read from the first `i` pairs come first in the built dict, in
   * the order they had: a key keeps the place of its first pair, and a new
   * key goes after all earlier ones.
   */
  lemma {:induction false} MappingKeyOrder(pairs: seq<(Value, Value)>, objs: seq<Obj>, globals: map<string, string>, show: Value -> string, i: nat)
    requires Mapping(pairs, objs, globals, show).Ok? && i <= |pairs|
    ensures Mapping(pairs[..i], objs, globals, show).Ok?
    ensures Mapping(pairs[..i], objs, globals, show).value.keys <= Mapping(pairs, objs, globals, show).value.keys
    decreases |pairs|
  {
    if i == |pairs| {
      assert pairs[..i] == pairs;
    } else {
      var n := |pairs| - 1;
      MappingLast(pairs, objs, globals, show);
      MappingKeyOrder(pairs[..n], objs, globals, show, i);
      assert pairs[..n][..i] == pairs[..i];
      MappingWf(pairs[..n], objs, globals, show);
    }
  }

  /** Each pair whose key is new adds that key at the end of the key order. */
  lemma MappingKeyAppended(pairs: seq<(Value, Value)>, objs: seq<Obj>, globals: map<string, string>, show: Value -> string)
    requires pairs != [] && Mapping(pairs, objs, globals, show).Ok?
    ensures var n := |pairs| - 1;
      var before := Mapping(pairs[..n], objs, globals, show).value.keys;
      var k := KeyOf(pairs[n].0, objs, globals, show).value;
      Mapping(pairs, objs, globals, show).value.keys == if k in before then before else before + [k]
  {
    MappingWf(pairs[..|pairs| - 1], objs, globals, show);
  }

  /** A key read from any pair is in the mapping. */
  lemma {:induction false} MappingHasKey(pairs: seq<(Value, Value)>, objs: seq<Obj>, globals: map<string, string>, show: Value -> string, i: nat, k: string)
    requires Mapping(pairs, objs, globals, show).Ok?
    requires i < |pairs| && KeyOf(pairs[i].0, objs, globals, show) == Ok(k)
    ensures k in Mapping(pairs, objs, globals, show).value.vals
    decreases |pairs|
  {
    var n := |pairs| - 1;
    MappingLast(pairs, objs, globals, show);
    if i < n {
      assert pairs[..n][i] == pairs[i];
      MappingHasKey(pairs[..n], objs, globals, show, i, k);
    }
  }

  /** Every key of the mapping was read from some pair. */
  lemma {:induction false} MappingKeySource(pairs: seq<(Value, Value)>, objs: seq<Obj>, globals: map<string, string>, show: Value -> string, k: string) returns (i: nat)
    requires Mapping(pairs, objs, globals, show).Ok? && k in Mapping(pairs, objs, globals, show).value.vals
    ensures i < |pairs| && KeyOf(pairs[i].0, objs, globals, show) == Ok(k)
    decreases |pairs|
  {
    var n := |pairs| - 1;
    MappingLast(pairs, objs, globals, show);
    if KeyOf(pairs[n].0, objs, globals, show) == Ok(k) {
      i := n;
    } else {
      i := MappingKeySource(pairs[..n], objs, globals, show, k);
      assert pairs[..n][i] == pairs[i];
    }
  }

  /** The mapping holds exactly the keys read from the pairs. */
  lemma MappingKeys(pairs: seq<(Value, Value)>, objs: seq<Obj>, globals: map<string, string>, show: Value -> string, k: string)
    requires Mapping(pairs, objs, globals, show).Ok?
    ensures k in Mapping(pairs, objs, globals, show).value.vals
      <==> exists i :: 0 <= i < |pairs| && KeyOf(pairs[i].0, objs, globals, show) == Ok(k)
  {
    if k in Mapping(pairs, objs, globals, show).value.vals {
      var i := MappingKeySource(pairs, objs, globals, show, k);
    }
    if exists i :: 0 <= i < |pairs| && KeyOf(pairs[i].0, objs, globals, show) == Ok(k) {
      var i :| 0 <= i < |pairs| && KeyOf(pairs[i].0, objs, globals, show) == Ok(k);
      MappingHasKey(pairs, objs, globals, show, i, k);
    }
  }

  /** Of several pairs whose keys read the same, the last one's value is kept. */
  lemma {:induction false} MappingLastWins(pairs: seq<(Value, Value)>, objs: seq<Obj>, globals: map<string, string>, show: Value -> string, i: nat, k: string)
    requires Mapping(pairs, objs, globals, show).Ok?
    requires i < |pairs| && KeyOf(pairs[i].0, objs, globals, show) == Ok(k)
    requires forall j :: i < j < |pairs| ==> KeyOf(pairs[j].0, objs, globals, show) != Ok(k)
    ensures k in Mapping(pairs, objs, globals, show).value.vals
    ensures Mapping(pairs, objs, globals, show).value.vals[k] == pairs[i].1
    decreases |pairs|
  {
    var n := |pairs| - 1;
    MappingLast(pairs, objs, globals, show);
    if i < n {
      forall j | i < j < n ensures KeyOf(pairs[..n][j].0, objs, globals, show) != Ok(k) {
        assert pairs[..n][j] == pairs[j];
      }
      assert pairs[..n][i] == pairs[i];
      MappingLastWins(pairs[..n], objs, globals, show, i, k);
    }
  }

  /** `pairs[i]` holds the first key that cannot be read, and its error is `x`. */
  predicate FirstBadKey(pairs: seq<(Value, Value)>, objs: seq<Obj>, globals: map<string, string>, show: Value -> string, i: nat, x: Exc)
  {
    i < |pairs| && KeyOf(pairs[i].0, objs, globals, show) == Err(x)
    && forall j :: 0 <= j < i ==> KeyOf(pairs[j].0, objs, globals, show).Ok?
  }

  /** When every key can be read, the mapping is built. */
  lemma {:induction false} MappingOk(pairs: seq<(Value, Value)>, objs: seq<Obj>, globals: map<string, string>, show: Value -> string)
    requires forall j :: 0 <= j < |pairs| ==> KeyOf(pairs[j].0, objs, globals, show).Ok?
    ensures Mapping(pairs, objs, globals, show).Ok?
    decreases |pairs|
  {
    if pairs != [] {
      var n := |pairs| - 1;
      forall j | 0 <= j < n ensures KeyOf(pairs[..n][j].0, objs, globals, show).Ok? {
        assert pairs[..n][j] == pairs[j];
      }
      MappingOk(pairs[..n], objs, globals, show);
    }
  }

  /** A mapping that is built has read every key. */
  lemma {:induction false} MappingReadsAll(pairs: seq<(Value, Value)>, objs: seq<Obj>, globals: map<string, string>, show: Value -> string, j: nat)
    requires Mapping(pairs, objs, globals, show).Ok? && j < |pairs|
    ensures KeyOf(pairs[j].0, objs, globals, show).Ok?
    decreases |pairs|
  {
    var n := |pairs| - 1;
    MappingLast(pairs, objs, globals, show);
    if j < n {
      MappingReadsAll(pairs[..n], objs, globals, show, j);
      assert pairs[..n][j] == pairs[j];
    }
  }

  /** The first key that cannot be read stops the mapping with its error. */
  lemma MappingStopsAt(pairs: seq<(Value, Value)>, objs: seq<Obj>, globals: map<string, string>, show: Value -> string, i: nat, x: Exc)
    requires FirstBadKey(pairs, objs, globals, show, i, x)
    ensures Mapping(pairs, objs, globals, show) == Err(x)
  {
    var pre := pairs[..i + 1];
    assert pre[..i] == pairs[..i];
    forall j | 0 <= j < i ensures KeyOf(pairs[..i][j].0, objs, globals, show).Ok? {
      assert pairs[..i][j] == pairs[j];
    }
    MappingOk(pairs[..i], objs, globals, show);
    assert Mapping(pre, objs, globals, show) == Err(x);
    MappingPrefixFails(pairs, i + 1, objs, globals, show);
  }

  /** A mapping that fails does so at the first key that cannot be read. */
  lemma {:induction false} MappingFailure(pairs: seq<(Value, Value)>, objs: seq<Obj>, globals: map<string, string>, show: Value -> string) returns (i: nat)
    requires Mapping(pairs, objs, globals, show).Err?
    ensures FirstBadKey(pairs, objs, globals, show, i, Mapping(pairs, objs, globals, show).error)
    decreases |pairs|
  {
    var n := |pairs| - 1;
    var x := Mapping(pairs, objs, globals, show).error;
    if Mapping(pairs[..n], objs, globals, show).Err? {
      i := MappingFailure(pairs[..n], objs, globals, show);
      forall j | 0 <= j <= i ensures pairs[..n][j] == pairs[j] { }
    } else {
      i := n;
      forall j | 0 <= j < n ensures KeyOf(pairs[j].0, objs, globals, show).Ok? {
        MappingReadsAll(pairs[..n], objs, globals, show, j);
        assert pairs[..n][j] == pairs[j];
      }
    }
  }

  /** The mapping fails with `x` exactly when the first key that cannot be read fails with `x`. */
  lemma MappingFails(pairs: seq<(Value, Value)>, objs: seq<Obj>, globals: map<string, string>, show: Value -> string, x: Exc)
    ensures Mapping(pairs, objs, globals, show) == Err(x) <==> exists i :: FirstBadKey(pairs, objs, globals, show, i, x)
  {
    if Mapping(pairs, objs, globals, show) == Err(x) {
      var i := MappingFailure(pairs, objs, globals, show);
    }
    if exists i :: FirstBadKey(pairs, objs, globals, show, i, x) {
      var i :| FirstBadKey(pairs, objs, globals, show, i, x);
      MappingStopsAt(pairs, objs, globals, show, i, x);
    }
  }

  // ---------------------------------------------------------------------
  // Field extraction

  /** `construct_test`: each field through the variant lookup, with its default. */
  function ConstructTest(fields: Dict, overrides: seq<string>): (t: Obj)
    ensures t.TestObj?
    ensures t.name == VNone || t.name in fields.vals.Values
    ensures t.sequence == VNone || t.sequence in fields.vals.Values
    ensures t.setup == VList([]) || t.setup in fields.vals.Values
    ensures t.teardown == VList([]) || t.teardown in fields.vals.Values
    ensures t.defaults == VDict(EmptyDict) || t.defaults in fields.vals.Values
    ensures t.parameters == VDict(EmptyDict) || t.parameters in fields.vals.Values
  {
    TestObj(
      name := GetField(fields.vals, overrides, "name", VNone),
      sequence := GetField(fields.vals, overrides, "sequence", VNone),
      setup := GetField(fields.vals, overrides, "setup", VList([])),
      teardown := GetField(fields.vals, overrides, "teardown", VList([])),
      defaults := GetField(fields.vals, overrides, "defaults", VDict(EmptyDict)),
      parameters := GetField(fields.vals, overrides, "parameters", VDict(EmptyDict)))
  }

  /** No key for `name` at all, plain or suffixed by an active tag. */
  predicate Absent(fields: Dict, overrides: seq<string>, name: string)
  {
    name !in fields.vals && forall j :: 0 <= j < |overrides| ==> Suffixed(name, overrides[j]) !in fields.vals
  }

  /**
   * A test whose mapping gives no `defaults` and no `parameters` resolves to
   * the two defaults `post_init` fills in, and nothing else; missing setup and
   * teardown are empty lists.
   */
  lemma ConstructTestDefaults(fields: Dict, overrides: seq<string>)
    requires Absent(fields, overrides, "defaults") && Absent(fields, overrides, "parameters")
    requires Absent(fields, overrides, "setup") && Absent(fields, overrides, "teardown")
    ensures var t := ConstructTest(fields, overrides);
      && t.setup == VList([]) && t.teardown == VList([])
      && t.defaults == VDict(EmptyDict) && t.parameters == VDict(EmptyDict)
      && ResolveParameters(t.defaults.d, t.parameters.d).vals == map[Iterations := VInt(1), ContinueOnFail := VInt(1)]
  {
    GetFieldFallback(fields.vals, overrides, "setup", VList([]));
    GetFieldFallback(fields.vals, overrides, "teardown", VList([]));
    GetFieldFallback(fields.vals, overrides, "defaults", VDict(EmptyDict));
    GetFieldFallback(fields.vals, overrides, "parameters", VDict(EmptyDict));
    var r := ResolveParameters(EmptyDict, EmptyDict);
    var m := map[Iterations := VInt(1), ContinueOnFail := VInt(1)];
    forall k ensures At(r.vals, k) == At(m, k) {
      assert At(r.vals, k) == Resolved(EmptyDict, EmptyDict, k);
    }
    SameAt(r.vals, m);
  }

  /** `construct_set`: the `var` and `value` fields of a `!set`. */
  function ConstructSet(fields: Dict, overrides: seq<string>): (s: Obj)
    ensures s.SetterObj?
    ensures s.variable == VNone || s.variable in fields.vals.Values
    ensures s.value == VNone || s.value in fields.vals.Values
    ensures Absent(fields, overrides, "var") ==> s.variable == VNone
    ensures Absent(fields, overrides, "value") ==> s.value == VNone
  {
    var variable := GetField(fields.vals, overrides, "var", VNone);
    var value := GetField(fields.vals, overrides, "value", VNone);
    assert Absent(fields, overrides, "var") ==> variable == VNone by {
      if Absent(fields, overrides, "var") { GetFieldFallback(fields.vals, overrides, "var", VNone); }
    }
    assert Absent(fields, overrides, "value") ==> value == VNone by {
      if Absent(fields, overrides, "value") { GetFieldFallback(fields.vals, overrides, "value", VNone); }
    }
    SetterObj(variable, value)
  }

  /** A `!set` whose mapping holds a variant of `value` for an active tag takes the earliest tag's. */
  lemma ConstructSetVariant(fields: Dict, overrides: seq<string>, i: nat)
    requires i < |overrides| && Suffixed("value", overrides[i]) in fields.vals
    requires forall j :: 0 <= j < i ==> Suffixed("value", overrides[j]) !in fields.vals
    ensures ConstructSet(fields, overrides).value == fields.vals[Suffixed("value", overrides[i])]
  {
    GetFieldFirstMatch(fields.vals, overrides, "value", VNone, i);
  }

  // ---------------------------------------------------------------------
  // construct_from_yml

  /**
   * `construct_from_yml` once the included document is loaded, its root
   * being `root`: a `parameters` field other than None replaces the root
   * test's parameters outright. Marking the loaded root (`r._root = ...`)
   * fails on a value that is not an object.
   */
  function FromYml(objs: seq<Obj>, root: Value, fields: Dict, overrides: seq<string>): (r: Result<seq<Obj>>)
    requires root.VObj? ==> root.id < |objs|
    ensures r.Err? <==> !(root.VObj? || root.VStr?)
    ensures r.Err? ==> r.error == AttributeError
    ensures r.Ok? ==> |r.value| == |objs| && SameShape(objs, r.value)
    ensures r.Ok? ==> forall i :: 0 <= i < |objs| && !(root.VObj? && i == root.id) ==> r.value[i] == objs[i]
  {
    var params := GetField(fields.vals, overrides, "parameters", VNone);
    if !(root.VObj? || root.VStr?) then Err(AttributeError)
    else if params != VNone && root.VObj? && objs[root.id].TestObj? then
      Ok(objs[root.id := objs[root.id].(parameters := params)])
    else Ok(objs)
  }

  /** A given `parameters` field becomes the included test's parameters, whatever the included file had. */
  lemma FromYmlReplaces(objs: seq<Obj>, j: nat, fields: Dict, overrides: seq<string>)
    requires j < |objs| && objs[j].TestObj?
    requires GetField(fields.vals, overrides, "parameters", VNone) != VNone
    ensures var r := FromYml(objs, VObj(j), fields, overrides);
      r.Ok? && r.value[j] == objs[j].(parameters := GetField(fields.vals, overrides, "parameters", VNone))
  {
  }

  /** No `parameters` field, or `!remove` as its value: the included test is kept as loaded. */
  lemma FromYmlKeeps(objs: seq<Obj>, root: Value, fields: Dict, overrides: seq<string>)
    requires root.VObj? ==> root.id < |objs|
    requires root.VObj? || root.VStr?
    requires Absent(fields, overrides, "parameters") || GetField(fields.vals, overrides, "parameters", VNone) == VNone
    ensures FromYml(objs, root, fields, overrides) == Ok(objs)
  {
    if Absent(fields, overrides, "parameters") {
      GetFieldFallback(fields.vals, overrides, "parameters", VNone);
    }
  }

  /**
   * The replacement is not a merge: once `post_init` resolves the included
   * test, its scope is its own defaults overridden by the including
   * document's parameters, and the parameters of the included file take no
   * part.
   */
  lemma FromYmlScope(objs: seq<Obj>, j: nat, fields: Dict, overrides: seq<string>, p: Dict)
    requires j < |objs| && objs[j].TestObj? && objs[j].defaults.VDict?
    requires GetField(fields.vals, overrides, "parameters", VNone) == VDict(p)
    ensures var r := FromYml(objs, VObj(j), fields, overrides);
      && r.Ok? && r.value[j].TestObj? && r.value[j].parameters.VDict?
      && ResolveTest(r.value, j)[j].parameters == VDict(ResolveParameters(objs[j].defaults.d, p))
  {
  }

  // ---------------------------------------------------------------------
  // Test.from_yaml

  /** The text `Test.from_yaml` loads: the main file, then a newline and each `_append` file, in the order found. */
  function Joined(main: string, appends: seq<string>): (r: string)
    ensures |r| >= |main| && r[..|main|] == main
    decreases |appends|
  {
    if appends == [] then main
    else
      var n := |appends| - 1;
      Joined(main, appends[..n]) + "\n" + appends[n]
  }

  /** `content = f.read()`, then `content += '\n' + f.read()` for each `_append` file. */
  method ReadDocument(main: string, appends: seq<string>) returns (content: string)
    ensures content == Joined(main, appends)
  {
    content := main;
    for i := 0 to |appends|
      invariant content == Joined(main, appends[..i])
    {
      assert appends[..i + 1][..i] == appends[..i];
      content := content + "\n" + appends[i];
    }
    assert appends[..|appends|] == appends;
  }

  /** A text free of newlines. */
  predicate OneLine(s: string)
  {
    '\n' !in s
  }

  /** Where the last newline of `s` is. */
  function LastNewline(s: string): (i: nat)
    requires !OneLine(s)
    ensures i < |s| && s[i] == '\n' && OneLine(s[i + 1..])
  {
    if s[|s| - 1] == '\n' then |s| - 1
    else
      assert s == s[..|s| - 1] + [s[|s| - 1]];
      var i := LastNewline(s[..|s| - 1]);
      assert s[i + 1..] == s[..|s| - 1][i + 1..] + [s[|s| - 1]];
      i
  }

  /** `s.split('\n')`. */
  function Lines(s: string): (r: seq<string>)
    ensures |r| >= 1
    decreases |s|
  {
    if OneLine(s) then [s]
    else
      var i := LastNewline(s);
      Lines(s[..i]) + [s[i + 1..]]
  }

  /** Splitting the assembled text at its newlines gives back the files, when none of them spans several lines. */
  lemma {:induction false} JoinedLines(main: string, appends: seq<string>)
    requires OneLine(main) && forall i :: 0 <= i < |appends| ==> OneLine(appends[i])
    ensures Lines(Joined(main, appends)) == [main] + appends
    decreases |appends|
  {
    if appends != [] {
      var n := |appends| - 1;
      var front := Joined(main, appends[..n]);
      var s := front + "\n" + appends[n];
      JoinedLines(main, appends[..n]);
      assert s[|front|] == '\n';
      assert s[|front| + 1..] == appends[n];
      assert !OneLine(s);
      var i := LastNewline(s);
      assert i == |front|;
      assert s[..i] == front;
      assert [main] + appends[..n] + [appends[n]] == [main] + appends;
    }
  }
}
