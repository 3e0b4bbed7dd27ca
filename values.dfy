/**
 * The Python values that flow through a compiled test document: what the
 * YAML loader builds (None, booleans, integers, plain and lazy strings,
 * lists, dicts) and references to the action objects it creates.
 *
 * A Python dict keeps its insertion order; it is modelled as its key order
 * together with the map it denotes.
 */
module Values {
  import opened Base
  import opened Templates

  datatype Value =
    | VNone                  // None; also what the `!remove` tag builds
    | VBool(b: bool)
    | VInt(i: int)
    | VText(s: string)       // a plain Python str
    | VStr(fmt: Template)    // a LazyStr
    | VList(items: seq<Value>)
    | VDict(d: Dict)
    | VObj(id: nat)          // a YmlObject, by identity

  /** A Python dict: keys in insertion order, and the entries. */
  datatype Dict = Dict(keys: seq<string>, vals: map<string, Value>)

  const EmptyDict := Dict([], map[])

  predicate Distinct(s: seq<string>)
  {
    forall i, j :: 0 <= i < j < |s| ==> s[i] != s[j]
  }

  /** The key order lists each entry exactly once. */
  ghost predicate Wf(d: Dict)
  {
    Distinct(d.keys) && forall k :: k in d.vals <==> k in d.keys
  }

  /** `d[k] = v`: a new key goes to the end, an existing one keeps its place. */
  function Put(d: Dict, k: string, v: Value): (r: Dict)
    ensures r.vals == d.vals[k := v]
    ensures Wf(d) ==> Wf(r) && |r.keys| >= |d.keys| && r.keys[..|d.keys|] == d.keys
    ensures Wf(d) ==> r.keys == if k in d.keys then d.keys else d.keys + [k]
  {
    if k in d.vals then d.(vals := d.vals[k := v]) else Dict(d.keys + [k], d.vals[k := v])
  }

  /** `r` is `s` with some elements left out and the others kept in their order. */
  predicate Subsequence(r: seq<string>, s: seq<string>)
    decreases |s|
  {
    if r == [] then true
    else if s == [] then false
    else if r[0] == s[0] then Subsequence(r[1..], s[1..])
    else Subsequence(r, s[1..])
  }

  /** The keys of `keys` that `keep` accepts, in order. */
  function Filter(keys: seq<string>, keep: string -> bool): (r: seq<string>)
    ensures forall k :: k in r <==> k in keys && keep(k)
    ensures Subsequence(r, keys)
    ensures Distinct(keys) ==> Distinct(r)
    ensures |r| <= |keys|
  {
    if keys == [] then []
    else
      var rest := Filter(keys[1..], keep);
      assert forall k :: k in keys[1..] ==> k in keys;
      if keep(keys[0]) then
        assert ([keys[0]] + rest)[1..] == rest;
        [keys[0]] + rest
      else
        assert rest != [] ==> rest[0] in rest && rest[0] != keys[0];
        rest
  }

  /** Python truthiness (`bool(v)`); a LazyStr defines no `__bool__` or `__len__`, so it is always true. */
  predicate Truthy(v: Value)
    ensures !Truthy(v) <==>
      v in {VNone, VBool(false), VInt(0), VText(""), VList([])} || (v.VDict? && v.d.vals == map[])
  {
    match v
    case VNone => false
    case VBool(b) => b
    case VInt(i) => i != 0
    case VText(s) => s != ""
    case VStr(_) => true
    case VList(items) => items != []
    case VDict(d) => d.vals != map[]
    case VObj(_) => true
  }

  /**
   * What `for a in v` iterates over: list elements, dict keys (as plain
   * strings), the one-character strings of a str; anything else is not
   * iterable.
   */
  function Items(v: Value): (r: Result<seq<Value>>)
    ensures r.Err? <==> !(v.VList? || v.VDict? || v.VText?)
    ensures r.Err? ==> r.error == TypeError
    ensures v.VList? ==> r == Ok(v.items)
    ensures v.VDict? ==> r.Ok? && |r.value| == |v.d.keys| && forall i :: 0 <= i < |r.value| ==> r.value[i] == VText(v.d.keys[i])
    ensures v.VText? ==> r.Ok? && |r.value| == |v.s| && forall i :: 0 <= i < |r.value| ==> r.value[i] == VText([v.s[i]])
  {
    match v
    case VList(items) => Ok(items)
    case VDict(d) => Ok(seq(|d.keys|, i requires 0 <= i < |d.keys| => VText(d.keys[i])))
    case VText(s) => Ok(seq(|s|, i requires 0 <= i < |s| => VText([s[i]])))
    case _ => Err(TypeError)
  }

  /** Every object `v` refers to (through lists and dict values) has an id below `n`. */
  predicate RefsBelow(v: Value, n: nat)
  {
    match v
    case VObj(j) => j < n
    case VList(items) => forall i :: 0 <= i < |items| ==> RefsBelow(items[i], n)
    case VDict(d) => forall k :: k in d.vals ==> RefsBelow(d.vals[k], n)
    case _ => true
  }

  /** Object `j` is held by `v` itself or through its list elements and dict entries (not through another object). */
  predicate Holds(v: Value, j: nat)
  {
    match v
    case VObj(i) => i == j
    case VList(items) => exists i :: 0 <= i < |items| && Holds(items[i], j)
    case VDict(d) => exists i :: 0 <= i < |d.keys| && d.keys[i] in d.vals && Holds(d.vals[d.keys[i]], j)
    case _ => false
  }

  /** What iterating a value yields refers to no object the value does not refer to. */
  lemma ItemsRefs(v: Value, n: nat)
    requires RefsBelow(v, n) && Items(v).Ok?
    ensures forall i :: 0 <= i < |Items(v).value| ==> RefsBelow(Items(v).value[i], n)
  {
  }

  /**
   * The text `f'{v}'` produces for a value that is not an `!eval` (for
   * those see `Objects.Repr`). A LazyStr renders against `global_context`
   * alone (its `parent` is never set); a plain str is itself; for every other
   * value Python's `str()` is the supplied `show`.
   */
  function Text(v: Value, globals: map<string, string>, show: Value -> string): (r: Result<string>)
    ensures r.Err? ==> v.VStr? && r.error == KeyError
    ensures v.VText? ==> r == Ok(v.s)
    ensures v.VStr? ==> r == Str(v.fmt, globals, None)
  {
    match v
    case VStr(t) => Str(t, globals, None)
    case VText(s) => Ok(s)
    case _ => Ok(show(v))
  }
}
