/**
 * `YmlObject.post_init` / `post_init_children` as functions: the walk that
 * gives every object of a compiled document its `parent`, and that makes
 * each test resolve its parameters (`Test.post_init`) on the way.
 *
 * The walk returns the parent assignments it made, in order; the parent
 * links afterwards are those assignments replayed over the old links.
 */
module Linking {
  import opened Base
  import opened Values
  import opened Scope
  import opened Objects

  /** The outcome of a walk: the objects afterwards, the parent assignments made in order, the exception that stopped it. */
  datatype Walk = Walk(objs: seq<Obj>, visits: seq<(nat, Link)>, err: Option<Exc>)

  /** `w` changed only parameters of objects below `bound`, and assigned parents only to objects below `bound`. */
  ghost predicate Within(objs: seq<Obj>, w: Walk, bound: nat)
  {
    SameShape(objs, w.objs) && WalkOrdered(w.objs)
    && (forall i :: bound <= i < |objs| ==> w.objs[i] == objs[i])
    && (forall k :: 0 <= k < |w.visits| ==> w.visits[k].0 < bound)
  }

  /** A walk followed by another: the first's effects, then the second's. */
  function Then(w1: Walk, w2: Walk): Walk
  {
    Walk(w2.objs, w1.visits + w2.visits, w2.err)
  }

  lemma WithinThen(objs: seq<Obj>, w1: Walk, w2: Walk, bound: nat)
    requires Within(objs, w1, bound) && Within(w1.objs, w2, bound)
    ensures Within(objs, Then(w1, w2), bound)
  {
  }

  /** The objects after `Test.post_init` has replaced test `id`'s parameters by its resolved map. */
  function ResolveTest(objs: seq<Obj>, id: nat): (r: seq<Obj>)
    requires id < |objs| && objs[id].TestObj? && objs[id].defaults.VDict? && objs[id].parameters.VDict?
    ensures SameShape(objs, r) && |r| == |objs|
    ensures r[id].parameters == VDict(ResolveParameters(objs[id].defaults.d, objs[id].parameters.d))
    ensures forall i :: 0 <= i < |objs| && i != id ==> r[i] == objs[i]
    ensures WalkOrdered(objs) ==> WalkOrdered(r)
  {
    var t := objs[id];
    var v := VDict(ResolveParameters(t.defaults.d, t.parameters.d));
    ResolvedOrdered(objs, id);
    ReplaceParametersOrdered(objs, id, v);
    objs[id := t.(parameters := v)]
  }

  lemma ResolvedRefs(d: Dict, p: Dict, n: nat)
    requires RefsBelow(VDict(d), n) && RefsBelow(VDict(p), n)
    ensures RefsBelow(VDict(ResolveParameters(d, p)), n)
  {
    var r := ResolveParameters(d, p);
    forall k | k in r.vals ensures RefsBelow(r.vals[k], n) {
      ResolvedEntries(d, p, k);
      if Given(d, p, k) {
        var c := Chosen(d, p, k);
        assert RefsBelow(c, n) by {
          if k in p.vals { assert c == p.vals[k]; } else { assert c == d.vals[k]; }
        }
      }
    }
  }

  /** Replacing a test's parameters by a value with smaller references keeps the walk ordered. */
  lemma ReplaceParametersOrdered(objs: seq<Obj>, id: nat, v: Value)
    requires id < |objs| && objs[id].TestObj?
    ensures WalkOrdered(objs) && RefsBelow(v, id) ==> WalkOrdered(objs[id := objs[id].(parameters := v)])
  {
    if !(WalkOrdered(objs) && RefsBelow(v, id)) { return; }
    var r := objs[id := objs[id].(parameters := v)];
    var t := objs[id];
    var before := Attributes(t);
    var after := Attributes(r[id]);
    assert before == [t.defaults, t.name, t.parameters, t.sequence, t.setup, t.teardown];
    assert after == [t.defaults, t.name, v, t.sequence, t.setup, t.teardown];
    forall i, a | 0 <= i < |r| && 0 <= a < |Attributes(r[i])| ensures RefsBelow(Attributes(r[i])[a], i) {
      if i != id {
        assert r[i] == objs[i];
      } else if a != 2 {
        assert Attributes(r[i])[a] == before[a];
      }
    }
  }

  /** The resolved parameters of a test refer only to objects its defaults and parameters refer to. */
  lemma ResolvedOrdered(objs: seq<Obj>, id: nat)
    requires id < |objs| && objs[id].TestObj? && objs[id].defaults.VDict? && objs[id].parameters.VDict?
    ensures WalkOrdered(objs) ==> RefsBelow(VDict(ResolveParameters(objs[id].defaults.d, objs[id].parameters.d)), id)
  {
    if !WalkOrdered(objs) { return; }
    var t := objs[id];
    assert Attributes(t)[0] == t.defaults && Attributes(t)[2] == t.parameters;
    ResolvedRefs(t.defaults.d, t.parameters.d, id);
  }

  /** Extending a walk of the attributes of `id` (run on `objs1`, a parameters-only change of `objs`) by parent assignments of `id`. */
  lemma WithinFramed(objs: seq<Obj>, objs1: seq<Obj>, id: nat, w: Walk, pre: seq<(nat, Link)>, post: seq<(nat, Link)>)
    requires id < |objs| && SameShape(objs, objs1) && Within(objs1, w, id)
    requires forall i :: id < i < |objs| ==> objs1[i] == objs[i]
    requires forall k :: 0 <= k < |pre| ==> pre[k].0 == id
    requires forall k :: 0 <= k < |post| ==> post[k].0 == id
    ensures Within(objs, Walk(w.objs, pre + w.visits + post, w.err), id + 1)
  {
    var vs := pre + w.visits + post;
    forall k | 0 <= k < |vs| ensures vs[k].0 < id + 1 {
      if k < |pre| {
      } else if k < |pre| + |w.visits| {
        assert vs[k] == w.visits[k - |pre|];
      } else {
        assert vs[k] == post[k - |pre| - |w.visits|];
      }
    }
  }

  /** Linking a test after resolving it: the walk of its attributes, framed by its two parent assignments. */
  function LinkResolvedTest(objs: seq<Obj>, id: nat, p: Link): (w: Walk)
    requires id < |objs| && WalkOrdered(objs)
    requires objs[id].TestObj? && objs[id].defaults.VDict? && objs[id].parameters.VDict?
    ensures Within(objs, w, id + 1)
    ensures w.objs[id] == ResolveTest(objs, id)[id]
    decreases id, 2, 0
  {
    var objs1 := ResolveTest(objs, id);
    var w := LinkAttrs(objs1, id, Attributes(objs1[id]), 0);
    var post := if w.err.None? then [(id, p)] else [];
    WithinFramed(objs, objs1, id, w, [(id, p)], post);
    Walk(w.objs, [(id, p)] + w.visits + post, w.err)
  }

  /** Linking any object other than a test or an evaluator: the walk of its attributes, then its parent assignment. */
  function LinkPlain(objs: seq<Obj>, id: nat, p: Link): (w: Walk)
    requires id < |objs| && WalkOrdered(objs)
    ensures Within(objs, w, id + 1)
    decreases id, 2, 0
  {
    var w := LinkAttrs(objs, id, Attributes(objs[id]), 0);
    var post := if w.err.None? then [(id, p)] else [];
    WithinFramed(objs, objs, id, w, [], post);
    assert [] + w.visits + post == w.visits + post;
    Walk(w.objs, w.visits + post, w.err)
  }

  /**
   * `obj.post_init(p)` on object `id`. A test sets its parent, resolves its
   * parameters (TypeError when `defaults` or `parameters` is not a dict),
   * walks its attributes and sets its parent again; an `Evaluator` only sets
   * its parent; any other object walks its attributes, then sets its parent.
   */
  function LinkObj(objs: seq<Obj>, id: nat, p: Link): (w: Walk)
    requires id < |objs| && WalkOrdered(objs)
    ensures Within(objs, w, id + 1)
    decreases id, 3, 0
  {
    match objs[id]
    case EvaluatorObj(_) => Walk(objs, [(id, p)], None)
    case TestObj(_, _, _, _, defaults, parameters) =>
      if defaults.VDict? && parameters.VDict? then LinkResolvedTest(objs, id, p)
      else Walk(objs, [(id, p)], Some(TypeError))
    case _ => LinkPlain(objs, id, p)
  }

  /** The loop over the walked attributes `attrs[i..]` of object `owner`, stopping at the first exception. */
  function LinkAttrs(objs: seq<Obj>, owner: nat, attrs: seq<Value>, i: nat): (w: Walk)
    requires owner < |objs| && WalkOrdered(objs) && i <= |attrs|
    requires forall a :: 0 <= a < |attrs| ==> RefsBelow(attrs[a], owner)
    ensures Within(objs, w, owner)
    decreases owner, 1, |attrs| - i
  {
    if i == |attrs| then Walk(objs, [], None)
    else
      var w1 := LinkValue(objs, owner, attrs[i]);
      if w1.err.Some? then w1
      else
        var w2 := LinkAttrs(w1.objs, owner, attrs, i + 1);
        WithinThen(objs, w1, w2, owner);
        Then(w1, w2)
  }

  /**
   * `post_init_children(v, owner)`: dict values and list elements are walked
   * with the same owner, an object is linked to `owner`, and every other
   * value, a LazyStr among them, is left alone.
   */
  function LinkValue(objs: seq<Obj>, owner: nat, v: Value): (w: Walk)
    requires owner < |objs| && WalkOrdered(objs) && RefsBelow(v, owner)
    ensures Within(objs, w, owner)
    decreases owner, 0, v
  {
    match v
    case VObj(j) => LinkObj(objs, j, Parent(owner))
    case VList(items) => LinkItems(objs, owner, items, 0, v)
    case VDict(d) => LinkKeys(objs, owner, d, 0, v)
    case _ => Walk(objs, [], None)
  }

  /** `for e in obj: post_init_children(e, owner)` over the list elements `items[i..]`. */
  function LinkItems(objs: seq<Obj>, owner: nat, items: seq<Value>, i: nat, ghost whole: Value): (w: Walk)
    requires whole.VList? && whole.items == items && i <= |items|
    requires owner < |objs| && WalkOrdered(objs) && RefsBelow(whole, owner)
    ensures Within(objs, w, owner)
    decreases owner, 0, whole, |items| - i
  {
    if i == |items| then Walk(objs, [], None)
    else
      var w1 := LinkValue(objs, owner, items[i]);
      if w1.err.Some? then w1
      else
        var w2 := LinkItems(w1.objs, owner, items, i + 1, whole);
        WithinThen(objs, w1, w2, owner);
        Then(w1, w2)
  }

  /** `for k in obj: post_init_children(obj[k], owner)` over the dict keys `d.keys[i..]`, in insertion order. */
  function LinkKeys(objs: seq<Obj>, owner: nat, d: Dict, i: nat, ghost whole: Value): (w: Walk)
    requires whole.VDict? && whole.d == d && i <= |d.keys|
    requires owner < |objs| && WalkOrdered(objs) && RefsBelow(whole, owner)
    ensures Within(objs, w, owner)
    decreases owner, 0, whole, |d.keys| - i
  {
    if i == |d.keys| then Walk(objs, [], None)
    else if d.keys[i] !in d.vals then LinkKeys(objs, owner, d, i + 1, whole)
    else
      var w1 := LinkValue(objs, owner, d.vals[d.keys[i]]);
      if w1.err.Some? then w1
      else
        var w2 := LinkKeys(w1.objs, owner, d, i + 1, whole);
        WithinThen(objs, w1, w2, owner);
        Then(w1, w2)
  }

  // ---------------------------------------------------------------------
  // Parent links as a replay of the walk's assignments

  ghost predicate VisitsIn(visits: seq<(nat, Link)>, n: nat)
  {
    forall k :: 0 <= k < |visits| ==> visits[k].0 < n
  }

  /** Each `x.parent = p` of the walk, applied in order to the parent links. */
  function Replay(parent: seq<Link>, visits: seq<(nat, Link)>): (r: seq<Link>)
    requires VisitsIn(visits, |parent|)
    ensures |r| == |parent|
    decreases |visits|
  {
    if visits == [] then parent
    else Replay(parent[visits[0].0 := visits[0].1], visits[1..])
  }

  lemma {:induction false} ReplayAppend(parent: seq<Link>, a: seq<(nat, Link)>, b: seq<(nat, Link)>)
    requires VisitsIn(a, |parent|) && VisitsIn(b, |parent|)
    ensures VisitsIn(a + b, |parent|)
    ensures Replay(parent, a + b) == Replay(Replay(parent, a), b)
    decreases |a|
  {
    if a != [] {
      assert (a + b)[1..] == a[1..] + b;
      ReplayAppend(parent[a[0].0 := a[0].1], a[1..], b);
    } else {
      assert a + b == b;
    }
  }

  /** One assignment replayed. */
  lemma ReplayOne(parent: seq<Link>, id: nat, p: Link)
    requires id < |parent|
    ensures Replay(parent, [(id, p)]) == parent[id := p]
  {
    assert [(id, p)][1..] == [];
  }

  /** The parent links after linking a test with dict fields: its parent set, its attributes walked, its parent set again. */
  lemma LinkResolvedTestReplay(objs: seq<Obj>, id: nat, p: Link, parent: seq<Link>)
    requires id < |objs| && WalkOrdered(objs) && |parent| == |objs|
    requires objs[id].TestObj? && objs[id].defaults.VDict? && objs[id].parameters.VDict?
    ensures var objs1 := ResolveTest(objs, id);
      var w := LinkAttrs(objs1, id, Attributes(objs1[id]), 0);
      var mid := Replay(parent[id := p], w.visits);
      && LinkObj(objs, id, p).objs == w.objs && LinkObj(objs, id, p).err == w.err
      && Replay(parent, LinkObj(objs, id, p).visits) == if w.err.None? then mid[id := p] else mid
  {
    var objs1 := ResolveTest(objs, id);
    var w := LinkAttrs(objs1, id, Attributes(objs1[id]), 0);
    var post := if w.err.None? then [(id, p)] else [];
    assert LinkObj(objs, id, p) == Walk(w.objs, [(id, p)] + w.visits + post, w.err);
    ReplayAround(parent, id, p, w.visits, w.err.None?);
  }

  /** Setting `id`'s parent, replaying `vs`, then setting it again when `again` holds. */
  lemma ReplayAround(parent: seq<Link>, id: nat, p: Link, vs: seq<(nat, Link)>, again: bool)
    requires id < |parent| && VisitsIn(vs, |parent|)
    ensures VisitsIn([(id, p)] + vs + (if again then [(id, p)] else []), |parent|)
    ensures Replay(parent, [(id, p)] + vs + (if again then [(id, p)] else []))
      == if again then Replay(parent[id := p], vs)[id := p] else Replay(parent[id := p], vs)
  {
    var post := if again then [(id, p)] else [];
    ReplayOne(parent, id, p);
    ReplayAppend(parent, [(id, p)], vs);
    ReplayAppend(parent, [(id, p)] + vs, post);
    if again {
      ReplayOne(Replay(parent[id := p], vs), id, p);
    } else {
      assert Replay(parent[id := p], vs) == Replay(Replay(parent[id := p], vs), []);
    }
  }

  /**
   * Part of a walk done: the assignments `done` have been made, and `rest`
   * is what remains; together they are `full`.
   */
  ghost predicate Resumes(parent0: seq<Link>, full: Walk, done: seq<(nat, Link)>, rest: Walk)
  {
    VisitsIn(done, |parent0|) && full == Walk(rest.objs, done + rest.visits, rest.err)
  }

  /** Doing the next step `w1` of a resumed walk: either it raised, and the walk ends, or the rest after it remains. */
  lemma Advance(parent0: seq<Link>, owner: nat, full: Walk, done: seq<(nat, Link)>, objs: seq<Obj>, w1: Walk, rest: Walk)
    requires Resumes(parent0, full, done, if w1.err.Some? then w1 else Then(w1, rest))
    requires Within(objs, w1, owner) && owner <= |parent0|
    ensures VisitsIn(w1.visits, |parent0|) && VisitsIn(done + w1.visits, |parent0|)
    ensures Replay(parent0, done + w1.visits) == Replay(Replay(parent0, done), w1.visits)
    ensures w1.err.Some? ==> full == Walk(w1.objs, done + w1.visits, w1.err)
    ensures w1.err.None? ==> Resumes(parent0, full, done + w1.visits, rest)
  {
    ReplayAppend(parent0, done, w1.visits);
    if w1.err.None? {
      AppendAssoc(done, w1.visits, rest.visits);
    }
  }

  /** A resumed walk with nothing left is over. */
  lemma Finish(parent0: seq<Link>, full: Walk, done: seq<(nat, Link)>, objs: seq<Obj>)
    requires Resumes(parent0, full, done, Walk(objs, [], None))
    ensures full == Walk(objs, done, None)
  {
    assert done + [] == done;
  }

  /** An object the walk never assigns keeps its parent. */
  lemma {:induction false} ReplayUnvisited(parent: seq<Link>, visits: seq<(nat, Link)>, j: nat)
    requires VisitsIn(visits, |parent|) && j < |parent|
    requires forall k :: 0 <= k < |visits| ==> visits[k].0 != j
    ensures Replay(parent, visits)[j] == parent[j]
    decreases |visits|
  {
    if visits != [] {
      ReplayUnvisited(parent[visits[0].0 := visits[0].1], visits[1..], j);
    }
  }

  /** An object the walk assigns, always with the same parent, ends with that parent. */
  lemma {:induction false} ReplayAgreed(parent: seq<Link>, visits: seq<(nat, Link)>, j: nat, l: Link)
    requires VisitsIn(visits, |parent|) && j < |parent|
    requires exists k :: 0 <= k < |visits| && visits[k].0 == j
    requires forall k :: 0 <= k < |visits| && visits[k].0 == j ==> visits[k].1 == l
    ensures Replay(parent, visits)[j] == l
    decreases |visits|
  {
    var next := parent[visits[0].0 := visits[0].1];
    if exists k :: 1 <= k < |visits| && visits[k].0 == j {
      var k :| 1 <= k < |visits| && visits[k].0 == j;
      assert visits[1..][k - 1].0 == j;
      ReplayAgreed(next, visits[1..], j, l);
    } else {
      assert visits[0].0 == j;
      ReplayUnvisited(next, visits[1..], j);
    }
  }

  // ---------------------------------------------------------------------
  // What the walk establishes

  /** A walk of object `id` that raised nothing ends by assigning `id` its parent `p`. */
  lemma LinkObjLast(objs: seq<Obj>, id: nat, p: Link)
    requires id < |objs| && WalkOrdered(objs)
    requires LinkObj(objs, id, p).err.None?
    ensures var vs := LinkObj(objs, id, p).visits; |vs| > 0 && vs[|vs| - 1] == (id, p)
  {
  }

  /** After a walk that raised nothing, the object's parent is the one passed to `post_init`. */
  lemma LinkObjParent(objs: seq<Obj>, id: nat, p: Link, parent: seq<Link>)
    requires id < |objs| && WalkOrdered(objs) && |parent| == |objs|
    requires LinkObj(objs, id, p).err.None?
    ensures Replay(parent, LinkObj(objs, id, p).visits)[id] == p
  {
    var w := LinkObj(objs, id, p);
    LinkObjLast(objs, id, p);
    var last := |w.visits| - 1;
    ReplayAppend(parent, w.visits[..last], [(id, p)]);
    assert w.visits[..last] + [(id, p)] == w.visits;
  }

  /** A walk of `v` that raised nothing linked every object `v` holds to `owner`. */
  lemma {:induction false} LinkValueVisits(objs: seq<Obj>, owner: nat, v: Value, j: nat)
    requires owner < |objs| && WalkOrdered(objs) && RefsBelow(v, owner)
    requires LinkValue(objs, owner, v).err.None? && Holds(v, j)
    ensures (j, Parent(owner)) in LinkValue(objs, owner, v).visits
    decreases owner, 0, v
  {
    match v
    case VObj(i) =>
      var w := LinkObj(objs, i, Parent(owner));
      LinkObjLast(objs, i, Parent(owner));
      assert w.visits[|w.visits| - 1] == (i, Parent(owner));
    case VList(items) =>
      var i :| 0 <= i < |items| && Holds(items[i], j);
      LinkItemsVisits(objs, owner, items, 0, v, i, j);
    case VDict(d) =>
      var i :| 0 <= i < |d.keys| && d.keys[i] in d.vals && Holds(d.vals[d.keys[i]], j);
      LinkKeysVisitsAt(objs, owner, d, 0, v, i, j);
  }

  lemma {:induction false} LinkItemsVisits(objs: seq<Obj>, owner: nat, items: seq<Value>, i0: nat, whole: Value, i: nat, j: nat)
    requires whole.VList? && whole.items == items && i0 <= i < |items|
    requires owner < |objs| && WalkOrdered(objs) && RefsBelow(whole, owner)
    requires LinkItems(objs, owner, items, i0, whole).err.None? && Holds(items[i], j)
    ensures (j, Parent(owner)) in LinkItems(objs, owner, items, i0, whole).visits
    decreases owner, 0, whole, |items| - i0
  {
    var w1 := LinkValue(objs, owner, items[i0]);
    if i0 == i {
      LinkValueVisits(objs, owner, items[i0], j);
    } else {
      LinkItemsVisits(w1.objs, owner, items, i0 + 1, whole, i, j);
    }
  }

  lemma {:induction false} LinkKeysVisitsAt(objs: seq<Obj>, owner: nat, d: Dict, i0: nat, whole: Value, i: nat, j: nat)
    requires whole.VDict? && whole.d == d && i0 <= i < |d.keys|
    requires owner < |objs| && WalkOrdered(objs) && RefsBelow(whole, owner)
    requires d.keys[i] in d.vals && Holds(d.vals[d.keys[i]], j)
    requires LinkKeys(objs, owner, d, i0, whole).err.None?
    ensures (j, Parent(owner)) in LinkKeys(objs, owner, d, i0, whole).visits
    decreases owner, 0, whole, |d.keys| - i0
  {
    if d.keys[i0] !in d.vals {
      LinkKeysVisitsAt(objs, owner, d, i0 + 1, whole, i, j);
    } else {
      var w1 := LinkValue(objs, owner, d.vals[d.keys[i0]]);
      if i0 == i {
        LinkValueVisits(objs, owner, d.vals[d.keys[i]], j);
      } else {
        LinkKeysVisitsAt(w1.objs, owner, d, i0 + 1, whole, i, j);
      }
    }
  }

  lemma {:induction false} LinkAttrsVisits(objs: seq<Obj>, owner: nat, attrs: seq<Value>, i0: nat, a: nat, j: nat)
    requires owner < |objs| && WalkOrdered(objs) && i0 <= a < |attrs|
    requires forall b :: 0 <= b < |attrs| ==> RefsBelow(attrs[b], owner)
    requires LinkAttrs(objs, owner, attrs, i0).err.None? && Holds(attrs[a], j)
    ensures (j, Parent(owner)) in LinkAttrs(objs, owner, attrs, i0).visits
    decreases |attrs| - i0
  {
    var w1 := LinkValue(objs, owner, attrs[i0]);
    if i0 == a {
      LinkValueVisits(objs, owner, attrs[i0], j);
    } else {
      LinkAttrsVisits(w1.objs, owner, attrs, i0 + 1, a, j);
    }
  }

  /** A walk of object `id` that raised nothing linked every object its attributes hold to `id`. */
  lemma LinkObjVisits(objs: seq<Obj>, id: nat, p: Link, a: nat, j: nat)
    requires id < |objs| && WalkOrdered(objs)
    requires var w := LinkObj(objs, id, p);
      w.err.None? && a < |Attributes(w.objs[id])| && Holds(Attributes(w.objs[id])[a], j)
    ensures (j, Parent(id)) in LinkObj(objs, id, p).visits
  {
    var t := objs[id];
    if t.TestObj? && t.defaults.VDict? && t.parameters.VDict? {
      var objs1 := ResolveTest(objs, id);
      LinkAttrsVisits(objs1, id, Attributes(objs1[id]), 0, a, j);
    } else if !t.EvaluatorObj? {
      LinkAttrsVisits(objs, id, Attributes(objs[id]), 0, a, j);
    }
  }

  /**
   * A walk of object `id` that raised nothing leaves every object held by its
   * attributes with parent `id`, provided the walk reached that object only
   * from `id` (an object shared through a YAML alias ends with the owner of
   * its last visit).
   */
  lemma LinkChildParent(objs: seq<Obj>, id: nat, p: Link, parent: seq<Link>, a: nat, j: nat)
    requires id < |objs| && WalkOrdered(objs) && |parent| == |objs|
    requires var w := LinkObj(objs, id, p);
      w.err.None? && a < |Attributes(w.objs[id])| && Holds(Attributes(w.objs[id])[a], j)
    requires var w := LinkObj(objs, id, p);
      forall k :: 0 <= k < |w.visits| && w.visits[k].0 == j ==> w.visits[k].1 == Parent(id)
    ensures j < |parent| && Replay(parent, LinkObj(objs, id, p).visits)[j] == Parent(id)
  {
    var w := LinkObj(objs, id, p);
    LinkObjVisits(objs, id, p, a, j);
    var k :| 0 <= k < |w.visits| && w.visits[k] == (j, Parent(id));
    ReplayAgreed(parent, w.visits, j, Parent(id));
  }
}
