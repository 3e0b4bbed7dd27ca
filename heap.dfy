/**
 * The objects of a compiled document as a mutable heap: the objects, each
 * one's `parent` attribute, and the actions entered so far. Its methods are
 * `post_init` / `post_init_children`, `VariableSetter.run` and `Test.run`,
 * each proved to do what the functions of Linking and Execution say.
 */
module Runtime {
  import opened Base
  import opened Values
  import opened Scope
  import opened Objects
  import opened Linking
  import opened Execution

  class Heap {
    /** The objects, numbered so that an object refers only to objects numbered below it. */
    var objs: seq<Obj>
    /** The `parent` attribute of each object. */
    var parent: seq<Link>
    /** The object numbers of the actions whose `run` has been entered, in order. */
    var trace: seq<nat>

    ghost predicate Valid()
      reads this
    {
      Runnable(objs, parent)
    }

    /** A freshly loaded document: no parent assigned yet, nothing run. */
    constructor(loaded: seq<Obj>)
      requires Ordered(loaded)
      ensures Valid() && objs == loaded && trace == []
      ensures |parent| == |loaded| && forall i :: 0 <= i < |parent| ==> parent[i] == Unlinked
    {
      objs := loaded;
      parent := seq(|loaded|, _ => Unlinked);
      trace := [];
    }

    /** `objs[id].post_init(p)`: `Test` and `Evaluator` override the method. */
    method PostInit(id: nat, p: Link) returns (err: Option<Exc>)
      requires Valid() && WalkOrdered(objs) && id < |objs| && LinkIn(p, |objs|)
      modifies this
      ensures Valid() && WalkOrdered(objs) && trace == old(trace)
      ensures var w := LinkObj(old(objs), id, p);
        objs == w.objs && err == w.err && parent == Replay(old(parent), w.visits)
      decreases id, 3
    {
      if objs[id].EvaluatorObj? {
        parent := parent[id := p];
        err := None;
        ReplayOne(old(parent), id, p);
      } else if objs[id].TestObj? && !(objs[id].defaults.VDict? && objs[id].parameters.VDict?) {
        // `{**self.defaults, **self.parameters}` on a non-dict
        parent := parent[id := p];
        err := Some(TypeError);
        ReplayOne(old(parent), id, p);
      } else if objs[id].TestObj? {
        err := PostInitTest(id, p);
      } else {
        ghost var w := LinkAttrs(objs, id, Attributes(objs[id]), 0);
        assert LinkObj(objs, id, p) == LinkPlain(objs, id, p);
        err := PostInitMembers(id);
        if err.None? {
          parent := parent[id := p];
          ReplayAppend(old(parent), w.visits, [(id, p)]);
          ReplayOne(Replay(old(parent), w.visits), id, p);
        } else {
          assert w.visits + [] == w.visits;
        }
      }
    }

    /** `Test.post_init(p)` on a test whose defaults and parameters are dicts: set the parent, resolve the parameters, walk the attributes, set the parent again. */
    method PostInitTest(id: nat, p: Link) returns (err: Option<Exc>)
      requires Valid() && WalkOrdered(objs) && id < |objs| && LinkIn(p, |objs|)
      requires objs[id].TestObj? && objs[id].defaults.VDict? && objs[id].parameters.VDict?
      modifies this
      ensures Valid() && WalkOrdered(objs) && trace == old(trace)
      ensures var w := LinkObj(old(objs), id, p);
        objs == w.objs && err == w.err && parent == Replay(old(parent), w.visits)
      decreases id, 2
    {
      LinksInUpdate(parent, id, p, |objs|);
      var objs1 := ResolveTest(objs, id);
      WalkOrderedIsOrdered(objs1);
      LinkResolvedTestReplay(objs, id, p, parent);
      parent, objs := parent[id := p], objs1;
      err := PostInitMembers(id);
      if err.None? {
        LinksInUpdate(parent, id, p, |objs|);
        parent := parent[id := p];
      }
    }

    /** The loop of `post_init` over the attributes of object `owner`. */
    method PostInitMembers(owner: nat) returns (err: Option<Exc>)
      requires Valid() && WalkOrdered(objs) && owner < |objs|
      modifies this
      ensures Valid() && WalkOrdered(objs) && trace == old(trace)
      ensures var w := LinkAttrs(old(objs), owner, Attributes(old(objs)[owner]), 0);
        objs == w.objs && err == w.err && parent == Replay(old(parent), w.visits)
      decreases owner, 1, 1
    {
      var attrs := Attributes(objs[owner]);
      assert forall a :: 0 <= a < |attrs| ==> RefsBelow(attrs[a], owner);
      err := PostInitAttrs(attrs, owner);
    }

    /** `for member in dir(self): post_init_children(getattr(self, member), self)` over the attributes `attrs`. */
    method PostInitAttrs(attrs: seq<Value>, owner: nat) returns (err: Option<Exc>)
      requires Valid() && WalkOrdered(objs) && owner < |objs|
      requires forall a :: 0 <= a < |attrs| ==> RefsBelow(attrs[a], owner)
      modifies this
      ensures Valid() && WalkOrdered(objs) && trace == old(trace)
      ensures var w := LinkAttrs(old(objs), owner, attrs, 0);
        objs == w.objs && err == w.err && parent == Replay(old(parent), w.visits)
      decreases owner, 1, 0
    {
      ghost var parent0 := parent;
      ghost var full := LinkAttrs(objs, owner, attrs, 0);
      ghost var done: seq<(nat, Link)> := [];
      var i := 0;
      while i < |attrs|
        invariant i <= |attrs| && Valid() && trace == old(trace)
        invariant WalkOrdered(objs) && |parent0| == |objs|
        invariant Resumes(parent0, full, done, LinkAttrs(objs, owner, attrs, i))
        invariant parent == Replay(parent0, done)
      {
        ghost var w1 := LinkValue(objs, owner, attrs[i]);
        ghost var rest := if w1.err.Some? then w1 else LinkAttrs(w1.objs, owner, attrs, i + 1);
        Advance(parent0, owner, full, done, objs, w1, rest);
        var e := PostInitChildren(attrs[i], owner);
        if e.Some? {
          return e;
        }
        done := done + w1.visits;
        i := i + 1;
      }
      Finish(parent0, full, done, objs);
      err := None;
    }

    /** `YmlObject.post_init_children(v, owner)`. */
    method PostInitChildren(v: Value, owner: nat) returns (err: Option<Exc>)
      requires Valid() && WalkOrdered(objs) && owner < |objs| && RefsBelow(v, owner)
      modifies this
      ensures Valid() && WalkOrdered(objs) && trace == old(trace)
      ensures var w := LinkValue(old(objs), owner, v);
        objs == w.objs && err == w.err && parent == Replay(old(parent), w.visits)
      decreases owner, 0, v, 2
    {
      match v
      case VObj(j) =>
        err := PostInit(j, Parent(owner));
      case VList(items) =>
        err := PostInitItems(items, owner, v);
      case VDict(d) =>
        err := PostInitKeys(d, owner, v);
      case _ =>
        err := None;
    }

    /** `for e in obj: post_init_children(e, owner)` over the list `whole`. */
    method PostInitItems(items: seq<Value>, owner: nat, ghost whole: Value) returns (err: Option<Exc>)
      requires Valid() && WalkOrdered(objs) && owner < |objs|
      requires whole.VList? && whole.items == items && RefsBelow(whole, owner)
      modifies this
      ensures Valid() && WalkOrdered(objs) && trace == old(trace)
      ensures var w := LinkItems(old(objs), owner, items, 0, whole);
        objs == w.objs && err == w.err && parent == Replay(old(parent), w.visits)
      decreases owner, 0, whole, 1
    {
      ghost var parent0 := parent;
      ghost var full := LinkItems(objs, owner, items, 0, whole);
      ghost var done: seq<(nat, Link)> := [];
      var i := 0;
      while i < |items|
        invariant i <= |items| && Valid() && trace == old(trace)
        invariant WalkOrdered(objs) && |parent0| == |objs|
        invariant Resumes(parent0, full, done, LinkItems(objs, owner, items, i, whole))
        invariant parent == Replay(parent0, done)
      {
        ghost var w1 := LinkValue(objs, owner, items[i]);
        ghost var rest := if w1.err.Some? then w1 else LinkItems(w1.objs, owner, items, i + 1, whole);
        Advance(parent0, owner, full, done, objs, w1, rest);
        var e := PostInitChildren(items[i], owner);
        if e.Some? {
          return e;
        }
        done := done + w1.visits;
        i := i + 1;
      }
      Finish(parent0, full, done, objs);
      err := None;
    }

    /** `for k in obj: post_init_children(obj[k], owner)` over the dict `whole`, in key order. */
    method PostInitKeys(d: Dict, owner: nat, ghost whole: Value) returns (err: Option<Exc>)
      requires Valid() && WalkOrdered(objs) && owner < |objs|
      requires whole.VDict? && whole.d == d && RefsBelow(whole, owner)
      modifies this
      ensures Valid() && WalkOrdered(objs) && trace == old(trace)
      ensures var w := LinkKeys(old(objs), owner, d, 0, whole);
        objs == w.objs && err == w.err && parent == Replay(old(parent), w.visits)
      decreases owner, 0, whole, 1
    {
      ghost var parent0 := parent;
      ghost var full := LinkKeys(objs, owner, d, 0, whole);
      ghost var done: seq<(nat, Link)> := [];
      var i := 0;
      while i < |d.keys|
        invariant i <= |d.keys| && Valid() && trace == old(trace)
        invariant WalkOrdered(objs) && |parent0| == |objs|
        invariant Resumes(parent0, full, done, LinkKeys(objs, owner, d, i, whole))
        invariant parent == Replay(parent0, done)
      {
        if d.keys[i] in d.vals {
          ghost var w1 := LinkValue(objs, owner, d.vals[d.keys[i]]);
          ghost var rest := if w1.err.Some? then w1 else LinkKeys(w1.objs, owner, d, i + 1, whole);
          Advance(parent0, owner, full, done, objs, w1, rest);
          var e := PostInitChildren(d.vals[d.keys[i]], owner);
          if e.Some? {
            return e;
          }
          done := done + w1.visits;
        }
        i := i + 1;
      }
      Finish(parent0, full, done, objs);
      err := None;
    }

    /** `VariableSetter.run` of setter `j`. */
    method SetVariable(h: Host, j: nat) returns (out: Outcome)
      requires Valid() && j < |objs| && objs[j].SetterObj?
      modifies this
      ensures Valid() && parent == old(parent) && trace == old(trace)
      ensures var e := SetVar(h, old(objs), old(parent), j);
        out == e.res && objs == e.objs
    {
      var s := objs[j];
      var key := Repr(objs, parent, s.variable, h.globals, h.show, h.eval);
      if key.Err? {
        return Raised(key.error);
      }
      var src := Repr(objs, parent, s.value, h.globals, h.show, h.eval);
      if src.Err? {
        return Raised(src.error);
      }
      var value := h.eval(src.value);
      if value.None? {
        return Raised(EvalError);
      }
      if !parent[j].Parent? || !objs[parent[j].id].TestObj? {
        return Raised(AttributeError);
      }
      var p := parent[j].id;
      if !objs[p].parameters.VDict? {
        return Raised(TypeError);
      }
      objs := objs[p := objs[p].(parameters := VDict(Put(objs[p].parameters.d, key.value, value.value)))];
      SameShapeOrdered(old(objs), objs);
      out := Returned(Ignore);
    }

    /** `a.run()` for an element `a` of an action list of test `owner`. */
    method Perform(h: Host, owner: nat, a: Value) returns (out: Outcome)
      requires Valid() && owner < |objs| && RefsBelow(a, owner)
      modifies this
      ensures Valid() && parent == old(parent)
      ensures var e := RunAction(h, old(objs), old(parent), owner, a);
        out == e.res && objs == e.objs && trace == old(trace) + e.trace
      decreases owner, 0, 0
    {
      if !a.VObj? || objs[a.id].EvaluatorObj? {
        return Raised(AttributeError);
      }
      var j := a.id;
      trace := trace + [j];
      if objs[j].TestObj? {
        out := Run(h, j);
        ghost var e := RunTest(h, old(objs), old(parent), j);
        AppendAssoc(old(trace), [j], e.trace);
      } else if objs[j].SetterObj? {
        out := SetVariable(h, j);
      } else {
        out := h.leaf(j);
      }
    }

    /** `r = a.run()` inside `Test.run` of test `id`, then the fail-fast check when `check` holds. */
    method PerformChecked(h: Host, id: nat, a: Value, check: bool) returns (flow: Flow)
      requires Valid() && id < |objs| && objs[id].TestObj? && RefsBelow(a, id)
      modifies this
      ensures Valid() && parent == old(parent)
      ensures var e := RunChecked(h, old(objs), old(parent), id, a, check);
        flow == e.res && objs == e.objs && trace == old(trace) + e.trace
      decreases id, 0, 1
    {
      var out := Perform(h, id, a);
      SameShapeTest(old(objs), objs, id);
      if out.Raised? {
        return Stop(out);
      }
      if check && out.status == Failed {
        var failFast := FailFast(objs[id].parameters);
        if failFast.Err? {
          return Stop(Raised(failFast.error));
        }
        if failFast.value {
          return Stop(Returned(Failed));
        }
      }
      flow := Continue;
    }

    /** `for a in items: ...` inside `Test.run` of test `id`, each action run by PerformChecked. */
    method RunActions(h: Host, id: nat, items: seq<Value>, check: bool) returns (flow: Flow)
      requires Valid() && id < |objs| && objs[id].TestObj?
      requires forall k :: 0 <= k < |items| ==> RefsBelow(items[k], id)
      modifies this
      ensures Valid() && parent == old(parent)
      ensures var e := RunPhase(h, old(objs), old(parent), id, items, 0, check);
        flow == e.res && objs == e.objs && trace == old(trace) + e.trace
      decreases id, 1
    {
      ghost var full := RunPhase(h, objs, parent, id, items, 0, check);
      ghost var done: seq<nat> := [];
      var i := 0;
      while i < |items|
        invariant i <= |items| && Valid() && parent == old(parent)
        invariant id < |objs| && objs[id].TestObj?
        invariant trace == old(trace) + done
        invariant Resumed(full, done, RunPhase(h, objs, parent, id, items, i, check))
      {
        ghost var r := RunChecked(h, objs, parent, id, items[i], check);
        PhaseAdvance(h, objs, parent, id, items, i, check, full, done);
        flow := PerformChecked(h, id, items[i], check);
        AppendAssoc(old(trace), done, r.trace);
        if flow.Stop? {
          return;
        }
        done := done + r.trace;
        i := i + 1;
      }
      Finished(full, done, objs, Continue);
      flow := Continue;
    }

    /** One pass over the sequence of test `id`. */
    method PassOnce(h: Host, id: nat) returns (flow: Flow)
      requires Valid() && id < |objs| && objs[id].TestObj?
      modifies this
      ensures Valid() && parent == old(parent)
      ensures var e := RunPass(h, old(objs), old(parent), id);
        flow == e.res && objs == e.objs && trace == old(trace) + e.trace
      decreases id, 2, 0
    {
      var items := Items(objs[id].sequence);
      if items.Err? {
        assert old(trace) + [] == old(trace);
        return Stop(Raised(items.error));
      }
      ItemsRefs(objs[id].sequence, id);
      flow := RunActions(h, id, items.value, true);
    }

    /** `for i in range(0, n): for a in self.sequence: ...` of test `id`. */
    method RunPasses(h: Host, id: nat, n: nat) returns (flow: Flow)
      requires Valid() && id < |objs| && objs[id].TestObj?
      modifies this
      ensures Valid() && parent == old(parent)
      ensures var e := RunLoop(h, old(objs), old(parent), id, n);
        flow == e.res && objs == e.objs && trace == old(trace) + e.trace
      decreases id, 2, 1
    {
      ghost var full := RunLoop(h, objs, parent, id, n);
      ghost var done: seq<nat> := [];
      var k := 0;
      while k < n
        invariant k <= n && Valid() && parent == old(parent)
        invariant id < |objs| && objs[id].TestObj?
        invariant trace == old(trace) + done
        invariant Resumed(full, done, RunLoop(h, objs, parent, id, n - k))
      {
        ghost var r := RunPass(h, objs, parent, id);
        LoopAdvance(h, objs, parent, id, n - k, full, done);
        flow := PassOnce(h, id);
        AppendAssoc(old(trace), done, r.trace);
        if flow.Stop? {
          return;
        }
        done := done + r.trace;
        k := k + 1;
      }
      Finished(full, done, objs, Continue);
      flow := Continue;
    }

    /** `Test.run` of test `id`. */
    method Run(h: Host, id: nat) returns (out: Outcome)
      requires Valid() && id < |objs| && objs[id].TestObj?
      modifies this
      ensures Valid() && parent == old(parent)
      ensures var e := RunTest(h, old(objs), old(parent), id);
        out == e.res && objs == e.objs && trace == old(trace) + e.trace
      decreases id, 3, 2
    {
      var setup := Items(objs[id].setup);
      if setup.Err? {
        return Raised(setup.error);
      }
      ItemsRefs(objs[id].setup, id);
      var flow := RunActions(h, id, setup.value, true);
      SameShapeTest(old(objs), objs, id);
      if flow.Stop? {
        return flow.out;
      }
      ghost var trace1 := trace;
      out := Body(h, id);
      assert trace == old(trace) + (trace1[|old(trace)|..] + trace[|trace1|..]);
    }

    /** The rest of `Test.run` of test `id` once the setup has run. */
    method Body(h: Host, id: nat) returns (out: Outcome)
      requires Valid() && id < |objs| && objs[id].TestObj?
      modifies this
      ensures Valid() && parent == old(parent)
      ensures var e := TestBody(h, old(objs), old(parent), id);
        out == e.res && objs == e.objs && trace == old(trace) + e.trace
      decreases id, 3, 1
    {
      var n := PassCount(objs[id].parameters);
      if n.Err? {
        return Raised(n.error);
      }
      var flow := RunPasses(h, id, n.value);
      SameShapeTest(old(objs), objs, id);
      if flow.Stop? {
        return flow.out;
      }
      ghost var trace1 := trace;
      out := Teardown(h, id);
      assert trace == old(trace) + (trace1[|old(trace)|..] + trace[|trace1|..]);
    }

    /** The teardown of test `id`. */
    method Teardown(h: Host, id: nat) returns (out: Outcome)
      requires Valid() && id < |objs| && objs[id].TestObj?
      modifies this
      ensures Valid() && parent == old(parent)
      ensures var e := TestTeardown(h, old(objs), old(parent), id);
        out == e.res && objs == e.objs && trace == old(trace) + e.trace
      decreases id, 3, 0
    {
      var teardown := Items(objs[id].teardown);
      if teardown.Err? {
        return Raised(teardown.error);
      }
      ItemsRefs(objs[id].teardown, id);
      var flow := RunActions(h, id, teardown.value, false);
      out := if flow.Stop? then flow.out else Returned(Pass);
    }
  }
}
