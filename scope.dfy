/**
 * The parameter scope a test resolves in `Test.post_init`: its `defaults`
 * overridden by its own `parameters`, entries set to None (`!remove`)
 * dropped, then `iterations` and `continue_on_fail` filled in with 1 when
 * absent. The parent's scope takes no part.
 */
module Scope {
  import opened Base
  import opened Values

  const Iterations := "iterations"
  const ContinueOnFail := "continue_on_fail"

  /** `{**d, **p}`: keys of `d` in their order, then the keys only `p` has; `p` wins on shared keys. */
  function Merge(d: Dict, p: Dict): (r: Dict)
    ensures r.vals.Keys == d.vals.Keys + p.vals.Keys
    ensures forall k :: k in r.vals ==> r.vals[k] == if k in p.vals then p.vals[k] else d.vals[k]
    ensures Wf(d) && Wf(p) ==> Wf(r) && |r.keys| >= |d.keys| && r.keys[..|d.keys|] == d.keys
  {
    var added := Filter(p.keys, k => k !in d.vals);
    var r := Dict(d.keys + added, d.vals + p.vals);
    assert Wf(d) && Wf(p) ==> Wf(r) by {
      if Wf(d) && Wf(p) {
        DistinctAppend(d.keys, added);
      }
    }
    r
  }

  /** Two duplicate-free key lists with no key in common concatenate to a duplicate-free one. */
  lemma DistinctAppend(a: seq<string>, b: seq<string>)
    requires Distinct(a) && Distinct(b) && forall x :: x in b ==> x !in a
    ensures Distinct(a + b)
  {
    var c := a + b;
    forall i, j | 0 <= i < j < |c| ensures c[i] != c[j] {
      if j < |a| {
        assert c[i] == a[i] && c[j] == a[j];
      } else if i < |a| {
        assert c[i] == a[i] && c[j] == b[j - |a|];
        assert b[j - |a|] in b;
      } else {
        assert c[i] == b[i - |a|] && c[j] == b[j - |a|];
      }
    }
  }

  /** `{k: v for k, v in d.items() if v != None}`. */
  function DropNone(d: Dict): (r: Dict)
    ensures forall k :: k in r.vals <==> k in d.vals && d.vals[k] != VNone
    ensures forall k :: k in r.vals ==> r.vals[k] == d.vals[k]
    ensures Subsequence(r.keys, d.keys)
    ensures Wf(d) ==> Wf(r)
  {
    Dict(Filter(d.keys, k => k in d.vals && d.vals[k] != VNone),
         map k | k in d.vals && d.vals[k] != VNone :: d.vals[k])
  }

  /** `if k not in d: d[k] = v`. */
  function SetDefault(d: Dict, k: string, v: Value): (r: Dict)
    ensures k in d.vals ==> r == d
    ensures r.vals == if k in d.vals then d.vals else d.vals[k := v]
    ensures Wf(d) ==> Wf(r)
  {
    if k in d.vals then d else Put(d, k, v)
  }

  /** The value the merge picks for `k`: the test's own parameter if it has one, else its default. */
  function Chosen(defaults: Dict, parameters: Dict, k: string): Value
    requires k in defaults.vals || k in parameters.vals
  {
    if k in parameters.vals then parameters.vals[k] else defaults.vals[k]
  }

  /** `k` is declared in defaults or parameters, and the winning declaration is not `!remove`. */
  predicate Given(defaults: Dict, parameters: Dict, k: string)
  {
    (k in defaults.vals || k in parameters.vals) && Chosen(defaults, parameters, k) != VNone
  }

  /** `m.get(k)`. */
  function At(m: map<string, Value>, k: string): Option<Value>
  {
    if k in m then Some(m[k]) else None
  }

  /**
   * What a resolved test holds under `k`, key by key: the winning declaration
   * when it is not `!remove`, else 1 for `iterations` and `continue_on_fail`,
   * else nothing.
   */
  function Resolved(defaults: Dict, parameters: Dict, k: string): Option<Value>
  {
    if Given(defaults, parameters, k) then Some(Chosen(defaults, parameters, k))
    else if k == Iterations || k == ContinueOnFail then Some(VInt(1))
    else None
  }

  /** The resolved parameter map of `Test.post_init`. */
  function ResolveParameters(defaults: Dict, parameters: Dict): (r: Dict)
    ensures forall k :: At(r.vals, k) == Resolved(defaults, parameters, k)
    ensures Wf(defaults) && Wf(parameters) ==> Wf(r)
  {
    var merged := DropNone(Merge(defaults, parameters));
    var r := SetDefault(SetDefault(merged, Iterations, VInt(1)), ContinueOnFail, VInt(1));
    assert forall k :: At(r.vals, k) == Resolved(defaults, parameters, k) by {
      forall k ensures At(r.vals, k) == Resolved(defaults, parameters, k) {
        MergedAt(defaults, parameters, k);
        FilledAt(merged, k);
      }
    }
    r
  }

  /** After the merge and the removals, `k` holds the winning declaration, if that is not `!remove`. */
  lemma MergedAt(defaults: Dict, parameters: Dict, k: string)
    ensures At(DropNone(Merge(defaults, parameters)).vals, k)
      == if Given(defaults, parameters, k) then Some(Chosen(defaults, parameters, k)) else None
  {
  }

  /** `k` after both `setdefault` calls of `Test.post_init`. */
  lemma FilledAt(d: Dict, k: string)
    ensures At(SetDefault(SetDefault(d, Iterations, VInt(1)), ContinueOnFail, VInt(1)).vals, k)
      == if k in d.vals then Some(d.vals[k])
         else if k == Iterations || k == ContinueOnFail then Some(VInt(1))
         else None
  {
    assert |Iterations| != |ContinueOnFail|;
  }

  /** Two maps that agree on every key are equal. */
  lemma SameAt(a: map<string, Value>, b: map<string, Value>)
    requires forall k :: At(a, k) == At(b, k)
    ensures a == b
  {
    forall k ensures k in a <==> k in b {
      assert At(a, k) == At(b, k);
    }
    forall k | k in a ensures a[k] == b[k] {
      assert At(a, k) == At(b, k);
    }
  }

  /**
   * The resolved map drops every `!remove`, always holds `iterations` and
   * `continue_on_fail`, 1 where neither defaults nor parameters give them,
   * and otherwise holds exactly the winning declarations.
   */
  lemma ResolvedEntries(defaults: Dict, parameters: Dict, k: string)
    ensures var r := ResolveParameters(defaults, parameters);
      && (k in r.vals <==> Given(defaults, parameters, k) || k == Iterations || k == ContinueOnFail)
      && (Given(defaults, parameters, k) ==> r.vals[k] == Chosen(defaults, parameters, k))
      && (k in r.vals ==> r.vals[k] != VNone)
      && ((k == Iterations || k == ContinueOnFail) && !Given(defaults, parameters, k) ==> r.vals[k] == VInt(1))
  {
    var r := ResolveParameters(defaults, parameters);
    assert At(r.vals, k) == Resolved(defaults, parameters, k);
  }

  /**
   * Resolving an already resolved test again, as happens to a test object
   * reached twice through a YAML alias, brings back a default that the
   * test's parameters had removed.
   */
  lemma ResolveTwiceRestoresRemoved(defaults: Dict, parameters: Dict, k: string)
    requires k != Iterations && k != ContinueOnFail
    requires k in defaults.vals && defaults.vals[k] != VNone
    requires k in parameters.vals && parameters.vals[k] == VNone
    ensures k !in ResolveParameters(defaults, parameters).vals
    ensures var again := ResolveParameters(defaults, ResolveParameters(defaults, parameters));
      k in again.vals && again.vals[k] == defaults.vals[k]
  {
    var once := ResolveParameters(defaults, parameters);
    assert At(once.vals, k) == Resolved(defaults, parameters, k);
    assert At(ResolveParameters(defaults, once).vals, k) == Resolved(defaults, once, k);
  }

  /** Without removals, resolving twice gives the same map. */
  lemma ResolveTwiceWithoutRemovals(defaults: Dict, parameters: Dict)
    requires forall k :: k in parameters.vals ==> parameters.vals[k] != VNone
    ensures var once := ResolveParameters(defaults, parameters);
      ResolveParameters(defaults, once).vals == once.vals
  {
    var once := ResolveParameters(defaults, parameters);
    var twice := ResolveParameters(defaults, once);
    forall k ensures At(twice.vals, k) == At(once.vals, k) {
      assert At(once.vals, k) == Resolved(defaults, parameters, k);
      assert At(twice.vals, k) == Resolved(defaults, once, k);
      if k in defaults.vals && defaults.vals[k] != VNone {
        assert Given(defaults, parameters, k);
      }
    }
    SameAt(twice.vals, once.vals);
  }
}
