/**
 * `Test.run` and the `run` methods of the other actions, as functions
 * threading the objects (whose test parameters `VariableSetter.run` writes)
 * and the trace of the actions run.
 */
module Execution {
  import opened Base
  import opened Values
  import opened Scope
  import opened Objects

  /** The strings `run()` returns: "Pass", "failed", "N/A" and "ignore". */
  datatype Status = Pass | Failed | NotApplicable | Ignore

  /**
   * What the executor takes from outside the model: the outcome of each leaf
   * action's `run` (by object number), Python's `eval` of a text (None when
   * it raises), `str()` of a value that is not a string, and
   * `global_context` as text.
   */
  datatype Host = Host(leaf: nat -> Outcome, eval: string -> Option<Value>, show: Value -> string, globals: map<string, string>)

  /** A `run()` call either returns a status or raises. */
  datatype Outcome = Returned(status: Status) | Raised(exc: Exc)

  /** A loop over actions either runs to its end or leaves `run()` early. */
  datatype Flow = Continue | Stop(out: Outcome)

  /** A result, the objects afterwards, and the numbers of the actions run, in order. */
  datatype Exec<T> = Exec(res: T, objs: seq<Obj>, trace: seq<nat>)

  /** `parameters[key]`. */
  function Lookup(params: Value, key: string): (r: Result<Value>)
    ensures r.Ok? <==> params.VDict? && key in params.d.vals
    ensures r.Ok? ==> r.value == params.d.vals[key]
    ensures r.Err? ==> r.error == if params.VDict? then KeyError else TypeError
  {
    if !params.VDict? then Err(TypeError)
    else if key in params.d.vals then Ok(params.d.vals[key])
    else Err(KeyError)
  }

  /**
   * `not parameters["continue_on_fail"]`, the check made after a "failed"
   * result. (The source spells it as an attribute read; see FailFastAsWritten.)
   */
  function FailFast(params: Value): (r: Result<bool>)
    ensures r.Ok? <==> params.VDict? && ContinueOnFail in params.d.vals
    ensures r.Ok? ==> (r.value <==> !Truthy(params.d.vals[ContinueOnFail]))
  {
    match Lookup(params, ContinueOnFail)
    case Ok(v) => Ok(!Truthy(v))
    case Err(e) => Err(e)
  }

  /**
   * `not self.parameters.continue_on_fail` as written: `parameters` is a
   * dict, which has no attribute `continue_on_fail`, so the check raises.
   */
  function FailFastAsWritten(params: Value): (r: Result<bool>)
    ensures r.Err? && r.error == AttributeError
  {
    Err(AttributeError)
  }

  /** On a test resolved with the default `continue_on_fail`, the check as written raises where the intended one continues. */
  lemma ContinueOnFailAsWritten(defaults: Dict, parameters: Dict)
    requires !Given(defaults, parameters, ContinueOnFail)
    ensures var params := VDict(ResolveParameters(defaults, parameters));
      FailFastAsWritten(params) == Err(AttributeError) && FailFast(params) == Ok(false)
  {
    ResolvedEntries(defaults, parameters, ContinueOnFail);
  }

  /** How many passes `range(0, parameters["iterations"])` makes. */
  function PassCount(params: Value): (r: Result<nat>)
    ensures r.Ok? <==> params.VDict? && Iterations in params.d.vals
                       && (params.d.vals[Iterations].VInt? || params.d.vals[Iterations].VBool?)
    ensures r.Ok? ==> match params.d.vals[Iterations]
      case VInt(n) => r.value == if n < 0 then 0 else n
      case VBool(b) => r.value == if b then 1 else 0
      case _ => false
    ensures r.Err? ==> r.error == (if params.VDict? && Iterations in params.d.vals then TypeError
                                   else if params.VDict? then KeyError else TypeError)
  {
    match Lookup(params, Iterations)
    case Err(e) => Err(e)
    case Ok(VInt(n)) => Ok(if n < 0 then 0 else n)
    case Ok(VBool(b)) => Ok(if b then 1 else 0)
    case Ok(_) => Err(TypeError)
  }

  /** The objects and parent links a run works on. */
  ghost predicate Runnable(objs: seq<Obj>, parent: seq<Link>)
  {
    Ordered(objs) && |parent| == |objs| && LinksIn(parent, |objs|)
  }

  lemma SameShapeTest(a: seq<Obj>, b: seq<Obj>, i: nat)
    requires SameShape(a, b) && i < |a| && a[i].TestObj?
    ensures b[i].TestObj? && b[i].setup == a[i].setup && b[i].sequence == a[i].sequence
      && b[i].teardown == a[i].teardown && b[i].defaults == a[i].defaults
  {
    assert Skeleton(a[i]) == Skeleton(b[i]);
  }

  /**
   * `VariableSetter.run` for setter `j`: render the variable name, evaluate
   * the value's text, and store the result under that name in the parent's
   * parameter dict; returns "ignore". Raises when the name or the value
   * cannot be shown (a placeholder `global_context` lacks, an `!eval` whose
   * parent is not a test), when `eval` raises, when the
   * setter has no parent or its parent has no `parameters`, or when those
   * parameters are not a dict. (The source evaluates the text twice; `eval`
   * is a function of its text here, so once is the same.)
   */
  function SetVar(h: Host, objs: seq<Obj>, parent: seq<Link>, j: nat): (e: Exec<Outcome>)
    requires Runnable(objs, parent) && j < |objs| && objs[j].SetterObj?
    ensures e.trace == [] && SameShape(objs, e.objs)
    ensures e.res.Returned? ==> e.res.status == Ignore
    ensures e.res.Raised? ==> e.objs == objs
    ensures e.res.Returned? <==>
      Repr(objs, parent, objs[j].variable, h.globals, h.show, h.eval).Ok? && Repr(objs, parent, objs[j].value, h.globals, h.show, h.eval).Ok?
      && h.eval(Repr(objs, parent, objs[j].value, h.globals, h.show, h.eval).value).Some?
      && parent[j].Parent? && objs[parent[j].id].TestObj? && objs[parent[j].id].parameters.VDict?
    ensures e.res.Returned? ==>
      var p := parent[j].id;
      var key := Repr(objs, parent, objs[j].variable, h.globals, h.show, h.eval).value;
      var value := h.eval(Repr(objs, parent, objs[j].value, h.globals, h.show, h.eval).value).value;
      && e.objs[p].parameters.VDict?
      && e.objs[p].parameters.d.vals == objs[p].parameters.d.vals[key := value]
      && (Wf(objs[p].parameters.d) ==> Wf(e.objs[p].parameters.d))
      && forall i :: 0 <= i < |objs| && i != p ==> e.objs[i] == objs[i]
  {
    var s := objs[j];
    match Repr(objs, parent, s.variable, h.globals, h.show, h.eval)
    case Err(x) => Exec(Raised(x), objs, [])
    case Ok(key) =>
      match Repr(objs, parent, s.value, h.globals, h.show, h.eval)
      case Err(x) => Exec(Raised(x), objs, [])
      case Ok(src) =>
        match h.eval(src)
        case None => Exec(Raised(EvalError), objs, [])
        case Some(value) =>
          if !parent[j].Parent? || !objs[parent[j].id].TestObj? then Exec(Raised(AttributeError), objs, [])
          else
            var p := parent[j].id;
            if !objs[p].parameters.VDict? then Exec(Raised(TypeError), objs, [])
            else
              var updated := objs[p := objs[p].(parameters := VDict(Put(objs[p].parameters.d, key, value)))];
              assert SameShape(objs, updated) by {
                assert Skeleton(updated[p]) == Skeleton(objs[p]);
              }
              Exec(Returned(Ignore), updated, [])
  }

  /**
   * A setter whose value is an `!eval` is that evaluator's parent after
   * `post_init`, so showing the value fails and the setter raises.
   */
  lemma SetEvaluatedValue(h: Host, objs: seq<Obj>, parent: seq<Link>, j: nat)
    requires Runnable(objs, parent) && j < |objs| && objs[j].SetterObj?
    requires IsEvaluator(objs, objs[j].value) && parent[objs[j].value.id] == Parent(j)
    ensures SetVar(h, objs, parent, j).res.Raised?
    ensures Repr(objs, parent, objs[j].variable, h.globals, h.show, h.eval).Ok? ==>
      SetVar(h, objs, parent, j).res == Raised(AttributeError)
  {
    EvalOutsideTest(objs, parent, objs[j].value.id, h.globals, h.show, h.eval);
  }

  /**
   * `a.run()` for one element `a` of a test's action list. A nested test
   * returns its own run's result; a setter "ignore"; the other leaves what
   * the host says; an `Evaluator` or a non-object has no `run` and raises.
   * The trace records each action whose `run` is entered.
   */
  function RunAction(h: Host, objs: seq<Obj>, parent: seq<Link>, owner: nat, a: Value): (e: Exec<Outcome>)
    requires Runnable(objs, parent) && owner < |objs| && RefsBelow(a, owner)
    ensures SameShape(objs, e.objs)
    decreases owner, 0, 0
  {
    match a
    case VObj(j) =>
      (match objs[j]
       case TestObj(_, _, _, _, _, _) =>
         var r := RunTest(h, objs, parent, j);
         Exec(r.res, r.objs, [j] + r.trace)
       case SetterObj(_, _) =>
         var r := SetVar(h, objs, parent, j);
         Exec(r.res, r.objs, [j])
       case EvaluatorObj(_) => Exec(Raised(AttributeError), objs, [])
       case _ => Exec(h.leaf(j), objs, [j]))
    case _ => Exec(Raised(AttributeError), objs, [])
  }

  /**
   * `r = a.run()` inside test `id`, then the check after it: with `check`, a
   * "failed" result ends the run with "failed" when `continue_on_fail` is
   * falsy; without it (the teardown) the result is dropped. An exception
   * always ends the run.
   */
  function RunChecked(h: Host, objs: seq<Obj>, parent: seq<Link>, id: nat, a: Value, check: bool): (e: Exec<Flow>)
    requires Runnable(objs, parent) && id < |objs| && objs[id].TestObj? && RefsBelow(a, id)
    ensures SameShape(objs, e.objs)
    decreases id, 0, 1
  {
    var r := RunAction(h, objs, parent, id, a);
    SameShapeTest(objs, r.objs, id);
    if r.res.Raised? then Exec(Stop(r.res), r.objs, r.trace)
    else if check && r.res.status == Failed && FailFast(r.objs[id].parameters) != Ok(false) then
      (match FailFast(r.objs[id].parameters)
       case Err(x) => Exec(Stop(Raised(x)), r.objs, r.trace)
       case Ok(_) => Exec(Stop(Returned(Failed)), r.objs, r.trace))
    else Exec(Continue, r.objs, r.trace)
  }

  /** `for a in items[i..]: ...` inside test `id`, each action checked as RunChecked says. */
  function RunPhase(h: Host, objs: seq<Obj>, parent: seq<Link>, id: nat, items: seq<Value>, i: nat, check: bool): (e: Exec<Flow>)
    requires Runnable(objs, parent) && id < |objs| && objs[id].TestObj? && i <= |items|
    requires forall k :: 0 <= k < |items| ==> RefsBelow(items[k], id)
    ensures SameShape(objs, e.objs)
    decreases id, 1, |items| - i
  {
    if i == |items| then Exec(Continue, objs, [])
    else
      var r := RunChecked(h, objs, parent, id, items[i], check);
      SameShapeOrdered(objs, r.objs);
      SameShapeTest(objs, r.objs, id);
      if r.res.Stop? then r
      else
        var rest := RunPhase(h, r.objs, parent, id, items, i + 1, check);
        SameShapeTrans(objs, r.objs, rest.objs);
        Exec(rest.res, rest.objs, r.trace + rest.trace)
  }

  /** One pass `for a in self.sequence: ...` of test `id`, the sequence read afresh. */
  function RunPass(h: Host, objs: seq<Obj>, parent: seq<Link>, id: nat): (e: Exec<Flow>)
    requires Runnable(objs, parent) && id < |objs| && objs[id].TestObj?
    ensures SameShape(objs, e.objs)
    decreases id, 2, 0
  {
    match Items(objs[id].sequence)
    case Err(x) => Exec(Stop(Raised(x)), objs, [])
    case Ok(items) =>
      ItemsRefs(objs[id].sequence, id);
      RunPhase(h, objs, parent, id, items, 0, true)
  }

  /** `for i in range(0, n): for a in self.sequence: ...` of test `id`. */
  function RunLoop(h: Host, objs: seq<Obj>, parent: seq<Link>, id: nat, n: nat): (e: Exec<Flow>)
    requires Runnable(objs, parent) && id < |objs| && objs[id].TestObj?
    ensures SameShape(objs, e.objs)
    decreases id, 2, n
  {
    if n == 0 then Exec(Continue, objs, [])
    else
      var r := RunPass(h, objs, parent, id);
      SameShapeOrdered(objs, r.objs);
      SameShapeTest(objs, r.objs, id);
      if r.res.Stop? then r
      else
        var rest := RunLoop(h, r.objs, parent, id, n - 1);
        SameShapeTrans(objs, r.objs, rest.objs);
        Exec(rest.res, rest.objs, r.trace + rest.trace)
  }


  /**
   * `Test.run` of test `id`: the setup once, the sequence `iterations`
   * times (read after the setup has run), the teardown once with its
   * results ignored, then "Pass".
   */
  function RunTest(h: Host, objs: seq<Obj>, parent: seq<Link>, id: nat): (e: Exec<Outcome>)
    requires Runnable(objs, parent) && id < |objs| && objs[id].TestObj?
    ensures SameShape(objs, e.objs)
    decreases id, 3, 2
  {
    match Items(objs[id].setup)
    case Err(x) => Exec(Raised(x), objs, [])
    case Ok(setup) =>
      ItemsRefs(objs[id].setup, id);
      var s := RunPhase(h, objs, parent, id, setup, 0, true);
      SameShapeOrdered(objs, s.objs);
      SameShapeTest(objs, s.objs, id);
      if s.res.Stop? then Exec(s.res.out, s.objs, s.trace)
      else
        var r := TestBody(h, s.objs, parent, id);
        SameShapeTrans(objs, s.objs, r.objs);
        Exec(r.res, r.objs, s.trace + r.trace)
  }

  /** What `Test.run` of test `id` does once its setup has run: `iterations` passes, then the teardown. */
  function TestBody(h: Host, objs: seq<Obj>, parent: seq<Link>, id: nat): (e: Exec<Outcome>)
    requires Runnable(objs, parent) && id < |objs| && objs[id].TestObj?
    ensures SameShape(objs, e.objs)
    decreases id, 3, 1
  {
    match PassCount(objs[id].parameters)
    case Err(x) => Exec(Raised(x), objs, [])
    case Ok(n) =>
      var l := RunLoop(h, objs, parent, id, n);
      SameShapeOrdered(objs, l.objs);
      SameShapeTest(objs, l.objs, id);
      if l.res.Stop? then Exec(l.res.out, l.objs, l.trace)
      else
        var d := TestTeardown(h, l.objs, parent, id);
        SameShapeTrans(objs, l.objs, d.objs);
        Exec(d.res, d.objs, l.trace + d.trace)
  }

  /** The teardown of test `id`, whose "failed" results are ignored, then "Pass". */
  function TestTeardown(h: Host, objs: seq<Obj>, parent: seq<Link>, id: nat): (e: Exec<Outcome>)
    requires Runnable(objs, parent) && id < |objs| && objs[id].TestObj?
    ensures SameShape(objs, e.objs)
    decreases id, 3, 0
  {
    match Items(objs[id].teardown)
    case Err(x) => Exec(Raised(x), objs, [])
    case Ok(teardown) =>
      ItemsRefs(objs[id].teardown, id);
      var d := RunPhase(h, objs, parent, id, teardown, 0, false);
      Exec(if d.res.Stop? then d.res.out else Returned(Pass), d.objs, d.trace)
  }

  /** A plain command, transfer or python test: an action whose `run` does not recurse. */
  predicate Leaf(o: Obj)
  {
    o.DutCmdObj? || o.HostCmdObj? || o.TransferObj? || o.PythonTestObj?
  }

  /** An action list of leaf objects only. */
  ghost predicate Flat(objs: seq<Obj>, items: seq<Value>)
  {
    forall k :: 0 <= k < |items| ==> items[k].VObj? && items[k].id < |objs| && Leaf(objs[items[k].id])
  }

  /** Every leaf of `items[i..]` returns. */
  ghost predicate Completes(h: Host, items: seq<Value>, i: nat)
  {
    forall k :: i <= k < |items| && items[k].VObj? ==> h.leaf(items[k].id).Returned?
  }

  /** Every leaf of `items[i..k]` returns, and none reports "failed". */
  ghost predicate NoFailure(h: Host, items: seq<Value>, i: nat, k: nat)
  {
    forall m :: i <= m < k && m < |items| && items[m].VObj? ==> h.leaf(items[m].id).Returned? && h.leaf(items[m].id).status != Failed
  }

  /**
   * `items[k]` is the first leaf from `i` on that ends the phase: it raises,
   * or it reports "failed" while `continue_on_fail` is falsy.
   */
  ghost predicate FirstStop(h: Host, items: seq<Value>, i: nat, k: nat, params: Value)
  {
    i <= k < |items| && items[k].VObj? && NoFailure(h, items, i, k)
    && (h.leaf(items[k].id).Raised? || (h.leaf(items[k].id) == Returned(Failed) && FailFast(params) == Ok(true)))
  }

  /** The object numbers of a list of objects. */
  function Ids(items: seq<Value>): (r: seq<nat>)
    requires forall k :: 0 <= k < |items| ==> items[k].VObj?
    ensures |r| == |items| && forall k :: 0 <= k < |items| ==> r[k] == items[k].id
  {
    if items == [] then [] else [items[0].id] + Ids(items[1..])
  }

  /** `s` repeated `n` times. */
  function Repeat(s: seq<nat>, n: nat): (r: seq<nat>)
    ensures forall x :: x in r <==> n > 0 && x in s
  {
    if n == 0 then [] else s + Repeat(s, n - 1)
  }

  lemma IdsStep(items: seq<Value>, i: nat)
    requires i < |items| && forall k :: 0 <= k < |items| ==> items[k].VObj?
    ensures Ids(items[i..]) == [items[i].id] + Ids(items[i + 1..])
  {
    assert items[i..][1..] == items[i + 1..];
  }

  /** One leaf object run inside test `id` and checked. */
  lemma CheckedLeaf(h: Host, objs: seq<Obj>, parent: seq<Link>, id: nat, a: Value, check: bool)
    requires Runnable(objs, parent) && id < |objs| && objs[id].TestObj? && RefsBelow(a, id)
    requires a.VObj? && a.id < |objs| && Leaf(objs[a.id])
    ensures var e := RunChecked(h, objs, parent, id, a, check);
      var o := h.leaf(a.id);
      && e.objs == objs && e.trace == [a.id]
      && (o.Returned? && (!check || o.status != Failed || FailFast(objs[id].parameters) == Ok(false)) ==> e.res == Continue)
      && (o.Raised? || (check && o == Returned(Failed) && FailFast(objs[id].parameters) == Ok(true)) ==> e.res == Stop(o))
  {
    assert RunAction(h, objs, parent, id, a) == Exec(h.leaf(a.id), objs, [a.id]);
  }

  /** A flat phase in which nothing fails, or failures are tolerated, runs every action once, in order, and changes nothing. */
  lemma {:induction false} FlatPhaseRuns(h: Host, objs: seq<Obj>, parent: seq<Link>, id: nat, items: seq<Value>, i: nat, check: bool)
    requires Runnable(objs, parent) && id < |objs| && objs[id].TestObj? && i <= |items|
    requires forall k :: 0 <= k < |items| ==> RefsBelow(items[k], id)
    requires Flat(objs, items) && Completes(h, items, i)
    requires !check || NoFailure(h, items, i, |items|) || FailFast(objs[id].parameters) == Ok(false)
    ensures RunPhase(h, objs, parent, id, items, i, check) == Exec(Continue, objs, Ids(items[i..]))
    decreases |items| - i
  {
    if i < |items| {
      CheckedLeaf(h, objs, parent, id, items[i], check);
      FlatPhaseRuns(h, objs, parent, id, items, i + 1, check);
      IdsStep(items, i);
    }
  }

  /** A flat phase stops at its first raising action, or first failing one under fail-fast, which is the last one run. */
  lemma {:induction false} FlatPhaseStops(h: Host, objs: seq<Obj>, parent: seq<Link>, id: nat, items: seq<Value>, i: nat, k: nat)
    requires Runnable(objs, parent) && id < |objs| && objs[id].TestObj?
    requires forall m :: 0 <= m < |items| ==> RefsBelow(items[m], id)
    requires Flat(objs, items) && FirstStop(h, items, i, k, objs[id].parameters)
    ensures RunPhase(h, objs, parent, id, items, i, true) == Exec(Stop(h.leaf(items[k].id)), objs, Ids(items[i..k + 1]))
    decreases |items| - i
  {
    if i < k {
      CheckedLeaf(h, objs, parent, id, items[i], true);
      FlatPhaseStops(h, objs, parent, id, items, i + 1, k);
      IdsStep(items[..k + 1], i);
      assert items[..k + 1][i..] == items[i..k + 1];
      assert items[..k + 1][i + 1..] == items[i + 1..k + 1];
    } else {
      CheckedLeaf(h, objs, parent, id, items[k], true);
      assert Ids(items[i..k + 1]) == [items[k].id];
    }
  }

  /** Under the same conditions, `n` passes over a flat sequence run it `n` times over. */
  lemma {:induction false} FlatLoopRuns(h: Host, objs: seq<Obj>, parent: seq<Link>, id: nat, items: seq<Value>, n: nat)
    requires Runnable(objs, parent) && id < |objs| && objs[id].TestObj?
    requires Items(objs[id].sequence) == Ok(items) && Flat(objs, items) && Completes(h, items, 0)
    requires NoFailure(h, items, 0, |items|) || FailFast(objs[id].parameters) == Ok(false)
    ensures RunLoop(h, objs, parent, id, n) == Exec(Continue, objs, Repeat(Ids(items), n))
    decreases n
  {
    if n > 0 {
      ItemsRefs(objs[id].sequence, id);
      FlatPhaseRuns(h, objs, parent, id, items, 0, true);
      FlatLoopRuns(h, objs, parent, id, items, n - 1);
    }
  }

  /** The first pass stops at the sequence's first stopping action. */
  lemma FlatLoopStops(h: Host, objs: seq<Obj>, parent: seq<Link>, id: nat, items: seq<Value>, n: nat, k: nat)
    requires Runnable(objs, parent) && id < |objs| && objs[id].TestObj? && n > 0
    requires Items(objs[id].sequence) == Ok(items) && Flat(objs, items) && FirstStop(h, items, 0, k, objs[id].parameters)
    ensures RunLoop(h, objs, parent, id, n) == Exec(Stop(h.leaf(items[k].id)), objs, Ids(items[..k + 1]))
  {
    ItemsRefs(objs[id].sequence, id);
    FlatPhaseStops(h, objs, parent, id, items, 0, k);
    assert items[0..k + 1] == items[..k + 1];
  }

  /**
   * A test of leaves that all return, whose setup and sequence do not fail
   * or whose `continue_on_fail` is truthy, runs its setup, `iterations`
   * passes of its sequence and its teardown, in that order, and returns
   * "Pass" whatever the teardown reports.
   */
  lemma RunFlatPasses(h: Host, objs: seq<Obj>, parent: seq<Link>, id: nat, setup: seq<Value>, sequence: seq<Value>, teardown: seq<Value>, n: nat)
    requires Runnable(objs, parent) && id < |objs| && objs[id].TestObj?
    requires Items(objs[id].setup) == Ok(setup) && Flat(objs, setup) && Completes(h, setup, 0)
    requires Items(objs[id].sequence) == Ok(sequence) && Flat(objs, sequence) && Completes(h, sequence, 0)
    requires Items(objs[id].teardown) == Ok(teardown) && Flat(objs, teardown) && Completes(h, teardown, 0)
    requires PassCount(objs[id].parameters) == Ok(n)
    requires (NoFailure(h, setup, 0, |setup|) && NoFailure(h, sequence, 0, |sequence|)) || FailFast(objs[id].parameters) == Ok(false)
    ensures RunTest(h, objs, parent, id) == Exec(Returned(Pass), objs, Ids(setup) + Repeat(Ids(sequence), n) + Ids(teardown))
  {
    ItemsRefs(objs[id].setup, id);
    FlatPhaseRuns(h, objs, parent, id, setup, 0, true);
    assert setup[0..] == setup;
    assert RunPhase(h, objs, parent, id, setup, 0, true) == Exec(Continue, objs, Ids(setup));
    FlatBodyPasses(h, objs, parent, id, sequence, teardown, n);
    var b := TestBody(h, objs, parent, id);
    assert RunTest(h, objs, parent, id) == Exec(b.res, b.objs, Ids(setup) + b.trace);
    AppendAssoc(Ids(setup), Repeat(Ids(sequence), n), Ids(teardown));
  }

  lemma FlatBodyPasses(h: Host, objs: seq<Obj>, parent: seq<Link>, id: nat, sequence: seq<Value>, teardown: seq<Value>, n: nat)
    requires Runnable(objs, parent) && id < |objs| && objs[id].TestObj?
    requires Items(objs[id].sequence) == Ok(sequence) && Flat(objs, sequence) && Completes(h, sequence, 0)
    requires Items(objs[id].teardown) == Ok(teardown) && Flat(objs, teardown) && Completes(h, teardown, 0)
    requires PassCount(objs[id].parameters) == Ok(n)
    requires NoFailure(h, sequence, 0, |sequence|) || FailFast(objs[id].parameters) == Ok(false)
    ensures TestBody(h, objs, parent, id) == Exec(Returned(Pass), objs, Repeat(Ids(sequence), n) + Ids(teardown))
  {
    FlatLoopRuns(h, objs, parent, id, sequence, n);
    FlatTeardownPasses(h, objs, parent, id, teardown);
  }

  lemma FlatTeardownPasses(h: Host, objs: seq<Obj>, parent: seq<Link>, id: nat, teardown: seq<Value>)
    requires Runnable(objs, parent) && id < |objs| && objs[id].TestObj?
    requires Items(objs[id].teardown) == Ok(teardown) && Flat(objs, teardown) && Completes(h, teardown, 0)
    ensures TestTeardown(h, objs, parent, id) == Exec(Returned(Pass), objs, Ids(teardown))
  {
    ItemsRefs(objs[id].teardown, id);
    FlatPhaseRuns(h, objs, parent, id, teardown, 0, false);
    assert teardown[0..] == teardown;
  }

  /** Changing only tests' parameters keeps a flat action list flat. */
  lemma FlatSameShape(a: seq<Obj>, b: seq<Obj>, items: seq<Value>)
    requires SameShape(a, b) && Flat(a, items)
    ensures Flat(b, items)
  {
    forall k | 0 <= k < |items|
      ensures Leaf(b[items[k].id])
    {
      assert Skeleton(a[items[k].id]) == Skeleton(b[items[k].id]);
    }
  }

  /** A setup of one setter that returns runs that setter and leaves the objects it changed. */
  lemma SetterPhase(h: Host, objs: seq<Obj>, parent: seq<Link>, id: nat, k: nat)
    requires Runnable(objs, parent) && id < |objs| && objs[id].TestObj? && k < id && objs[k].SetterObj?
    requires SetVar(h, objs, parent, k).res.Returned?
    ensures RunPhase(h, objs, parent, id, [VObj(k)], 0, true) == Exec(Continue, SetVar(h, objs, parent, k).objs, [k])
  {
    var s := SetVar(h, objs, parent, k);
    assert RunAction(h, objs, parent, id, VObj(k)) == Exec(Returned(Ignore), s.objs, [k]);
    SameShapeOrdered(objs, s.objs);
    SameShapeTest(objs, s.objs, id);
    assert RunPhase(h, s.objs, parent, id, [VObj(k)], 1, true) == Exec(Continue, s.objs, []);
  }

  /** Setter `k` belongs to test `id` and sets `iterations` to the count `m`. */
  ghost predicate SetsIterations(h: Host, objs: seq<Obj>, parent: seq<Link>, id: nat, k: nat, m: nat)
  {
    && k < |objs| && k < |parent| && objs[k].SetterObj? && parent[k] == Parent(id)
    && Repr(objs, parent, objs[k].variable, h.globals, h.show, h.eval) == Ok(Iterations)
    && Repr(objs, parent, objs[k].value, h.globals, h.show, h.eval).Ok?
    && h.eval(Repr(objs, parent, objs[k].value, h.globals, h.show, h.eval).value) == Some(VInt(m))
  }

  /** A setter of `iterations` to `m` in test `id` makes the test's pass count `m` and keeps its `continue_on_fail`. */
  lemma SetIterations(h: Host, objs: seq<Obj>, parent: seq<Link>, id: nat, k: nat, m: nat)
    requires Runnable(objs, parent) && id < |objs| && objs[id].TestObj? && objs[id].parameters.VDict?
    requires SetsIterations(h, objs, parent, id, k, m)
    ensures var s := SetVar(h, objs, parent, k);
      && s.res == Returned(Ignore)
      && s.objs[id].TestObj? && s.objs[id].parameters.VDict?
      && s.objs[id].parameters.d.vals == objs[id].parameters.d.vals[Iterations := VInt(m)]
      && PassCount(s.objs[id].parameters) == Ok(m)
      && FailFast(s.objs[id].parameters) == FailFast(objs[id].parameters)
  {
    var s := SetVar(h, objs, parent, k);
    SameShapeTest(objs, s.objs, id);
    assert Lookup(s.objs[id].parameters, ContinueOnFail) == Lookup(objs[id].parameters, ContinueOnFail);
  }

  /**
   * A setup that is a single `!set` of `iterations` to a count `m`: the
   * setter stores `m` in the test's own parameters, which the pass count is
   * read from after the setup, so the sequence runs `m` times, whatever
   * `iterations` was before, and then the teardown.
   */
  lemma SetupSetsIterations(h: Host, objs: seq<Obj>, parent: seq<Link>, id: nat, k: nat, m: nat,
                            sequence: seq<Value>, teardown: seq<Value>)
    requires Runnable(objs, parent) && id < |objs| && objs[id].TestObj? && objs[id].parameters.VDict?
    requires Items(objs[id].setup) == Ok([VObj(k)]) && SetsIterations(h, objs, parent, id, k, m)
    requires Items(objs[id].sequence) == Ok(sequence) && Flat(objs, sequence) && Completes(h, sequence, 0)
    requires Items(objs[id].teardown) == Ok(teardown) && Flat(objs, teardown) && Completes(h, teardown, 0)
    requires NoFailure(h, sequence, 0, |sequence|) || FailFast(objs[id].parameters) == Ok(false)
    ensures var e := RunTest(h, objs, parent, id);
      && e.res == Returned(Pass)
      && e.trace == [k] + Repeat(Ids(sequence), m) + Ids(teardown)
      && e.objs == SetVar(h, objs, parent, k).objs
      && e.objs[id].parameters.VDict?
      && e.objs[id].parameters.d.vals == objs[id].parameters.d.vals[Iterations := VInt(m)]
  {
    ItemsRefs(objs[id].setup, id);
    assert RefsBelow(VObj(k), id) by { assert [VObj(k)][0] == VObj(k); }
    SetIterations(h, objs, parent, id, k, m);
    SetterPhase(h, objs, parent, id, k);
    var s := SetVar(h, objs, parent, k);
    SameShapeOrdered(objs, s.objs);
    SameShapeTest(objs, s.objs, id);
    FlatSameShape(objs, s.objs, sequence);
    FlatSameShape(objs, s.objs, teardown);
    FlatBodyPasses(h, s.objs, parent, id, sequence, teardown, m);
    AppendAssoc([k], Repeat(Ids(sequence), m), Ids(teardown));
  }

  /**
   * A setup action that raises, or that fails under fail-fast, ends the test
   * with its own outcome: nothing after it runs, not even the teardown.
   */
  lemma RunFlatStopsInSetup(h: Host, objs: seq<Obj>, parent: seq<Link>, id: nat, setup: seq<Value>, k: nat)
    requires Runnable(objs, parent) && id < |objs| && objs[id].TestObj?
    requires Items(objs[id].setup) == Ok(setup) && Flat(objs, setup) && FirstStop(h, setup, 0, k, objs[id].parameters)
    ensures RunTest(h, objs, parent, id) == Exec(h.leaf(setup[k].id), objs, Ids(setup[..k + 1]))
  {
    ItemsRefs(objs[id].setup, id);
    FlatPhaseStops(h, objs, parent, id, setup, 0, k);
    assert setup[0..k + 1] == setup[..k + 1];
  }

  /** A stopping sequence action ends the test with its own outcome, after the whole setup and a part of the first pass. */
  lemma RunFlatStopsInSequence(h: Host, objs: seq<Obj>, parent: seq<Link>, id: nat, setup: seq<Value>, sequence: seq<Value>, n: nat, k: nat)
    requires Runnable(objs, parent) && id < |objs| && objs[id].TestObj?
    requires Items(objs[id].setup) == Ok(setup) && Flat(objs, setup) && NoFailure(h, setup, 0, |setup|)
    requires Items(objs[id].sequence) == Ok(sequence) && Flat(objs, sequence) && FirstStop(h, sequence, 0, k, objs[id].parameters)
    requires PassCount(objs[id].parameters) == Ok(n) && n > 0
    ensures RunTest(h, objs, parent, id) == Exec(h.leaf(sequence[k].id), objs, Ids(setup) + Ids(sequence[..k + 1]))
  {
    ItemsRefs(objs[id].setup, id);
    FlatPhaseRuns(h, objs, parent, id, setup, 0, true);
    FlatLoopStops(h, objs, parent, id, sequence, n, k);
    assert setup[0..] == setup;
    assert TestBody(h, objs, parent, id) == Exec(h.leaf(sequence[k].id), objs, Ids(sequence[..k + 1]));
  }

  /** When no leaf reports "failed", no action, nested test included, does. */
  lemma {:induction false} ActionNeverFails(h: Host, objs: seq<Obj>, parent: seq<Link>, owner: nat, a: Value)
    requires Runnable(objs, parent) && owner < |objs| && RefsBelow(a, owner)
    requires forall j :: h.leaf(j) != Returned(Failed)
    ensures RunAction(h, objs, parent, owner, a).res != Returned(Failed)
    decreases owner, 0, 0
  {
    if a.VObj? && objs[a.id].TestObj? {
      TestNeverFails(h, objs, parent, a.id);
    }
  }

  lemma {:induction false} PhaseNeverFails(h: Host, objs: seq<Obj>, parent: seq<Link>, id: nat, items: seq<Value>, i: nat, check: bool)
    requires Runnable(objs, parent) && id < |objs| && objs[id].TestObj? && i <= |items|
    requires forall k :: 0 <= k < |items| ==> RefsBelow(items[k], id)
    requires forall j :: h.leaf(j) != Returned(Failed)
    ensures RunPhase(h, objs, parent, id, items, i, check).res != Stop(Returned(Failed))
    decreases id, 1, |items| - i
  {
    if i < |items| {
      var r := RunChecked(h, objs, parent, id, items[i], check);
      ActionNeverFails(h, objs, parent, id, items[i]);
      SameShapeOrdered(objs, r.objs);
      SameShapeTest(objs, r.objs, id);
      if r.res.Continue? {
        PhaseNeverFails(h, r.objs, parent, id, items, i + 1, check);
      }
    }
  }

  lemma {:induction false} LoopNeverFails(h: Host, objs: seq<Obj>, parent: seq<Link>, id: nat, n: nat)
    requires Runnable(objs, parent) && id < |objs| && objs[id].TestObj?
    requires forall j :: h.leaf(j) != Returned(Failed)
    ensures RunLoop(h, objs, parent, id, n).res != Stop(Returned(Failed))
    decreases id, 2, n
  {
    if n > 0 {
      if Items(objs[id].sequence).Ok? {
        ItemsRefs(objs[id].sequence, id);
        PhaseNeverFails(h, objs, parent, id, Items(objs[id].sequence).value, 0, true);
      }
      var r := RunPass(h, objs, parent, id);
      SameShapeOrdered(objs, r.objs);
      SameShapeTest(objs, r.objs, id);
      if r.res.Continue? {
        LoopNeverFails(h, r.objs, parent, id, n - 1);
      }
    }
  }


  lemma {:induction false} TestNeverFails(h: Host, objs: seq<Obj>, parent: seq<Link>, id: nat)
    requires Runnable(objs, parent) && id < |objs| && objs[id].TestObj?
    requires forall j :: h.leaf(j) != Returned(Failed)
    ensures RunTest(h, objs, parent, id).res != Returned(Failed)
    decreases id, 3, 2
  {
    if Items(objs[id].setup).Ok? {
      var setup := Items(objs[id].setup).value;
      ItemsRefs(objs[id].setup, id);
      var s := RunPhase(h, objs, parent, id, setup, 0, true);
      PhaseNeverFails(h, objs, parent, id, setup, 0, true);
      SameShapeOrdered(objs, s.objs);
      SameShapeTest(objs, s.objs, id);
      if s.res.Continue? {
        BodyNeverFails(h, s.objs, parent, id);
      }
    }
  }

  lemma {:induction false} BodyNeverFails(h: Host, objs: seq<Obj>, parent: seq<Link>, id: nat)
    requires Runnable(objs, parent) && id < |objs| && objs[id].TestObj?
    requires forall j :: h.leaf(j) != Returned(Failed)
    ensures TestBody(h, objs, parent, id).res != Returned(Failed)
    decreases id, 3, 1
  {
    if PassCount(objs[id].parameters).Ok? {
      var l := RunLoop(h, objs, parent, id, PassCount(objs[id].parameters).value);
      LoopNeverFails(h, objs, parent, id, PassCount(objs[id].parameters).value);
      SameShapeOrdered(objs, l.objs);
      SameShapeTest(objs, l.objs, id);
      if l.res.Continue? {
        TeardownNeverFails(h, l.objs, parent, id);
      }
    }
  }

  lemma {:induction false} TeardownNeverFails(h: Host, objs: seq<Obj>, parent: seq<Link>, id: nat)
    requires Runnable(objs, parent) && id < |objs| && objs[id].TestObj?
    requires forall j :: h.leaf(j) != Returned(Failed)
    ensures TestTeardown(h, objs, parent, id).res != Returned(Failed)
    decreases id, 3, 0
  {
    if Items(objs[id].teardown).Ok? {
      ItemsRefs(objs[id].teardown, id);
      PhaseNeverFails(h, objs, parent, id, Items(objs[id].teardown).value, 0, false);
    }
  }

  // ---------------------------------------------------------------------
  // Only the test's own actions run

  /** Every action id in `t` is below `n`. */
  ghost predicate Below(t: seq<nat>, n: nat)
  {
    forall k :: 0 <= k < |t| ==> t[k] < n
  }

  /**
   * A run of test `id` enters only actions reachable from it, which are
   * declared before it and so have smaller ids.
   */
  lemma {:induction false} ActionBelow(h: Host, objs: seq<Obj>, parent: seq<Link>, owner: nat, a: Value)
    requires Runnable(objs, parent) && owner < |objs| && RefsBelow(a, owner)
    ensures Below(RunAction(h, objs, parent, owner, a).trace, owner)
    decreases owner, 0, 0
  {
    if a.VObj? && objs[a.id].TestObj? {
      TestBelow(h, objs, parent, a.id);
    }
  }

  lemma {:induction false} PhaseBelow(h: Host, objs: seq<Obj>, parent: seq<Link>, id: nat, items: seq<Value>, i: nat, check: bool)
    requires Runnable(objs, parent) && id < |objs| && objs[id].TestObj? && i <= |items|
    requires forall k :: 0 <= k < |items| ==> RefsBelow(items[k], id)
    ensures Below(RunPhase(h, objs, parent, id, items, i, check).trace, id)
    decreases id, 1, |items| - i
  {
    if i < |items| {
      var r := RunChecked(h, objs, parent, id, items[i], check);
      ActionBelow(h, objs, parent, id, items[i]);
      SameShapeOrdered(objs, r.objs);
      SameShapeTest(objs, r.objs, id);
      if r.res.Continue? {
        PhaseBelow(h, r.objs, parent, id, items, i + 1, check);
      }
    }
  }

  lemma {:induction false} LoopBelow(h: Host, objs: seq<Obj>, parent: seq<Link>, id: nat, n: nat)
    requires Runnable(objs, parent) && id < |objs| && objs[id].TestObj?
    ensures Below(RunLoop(h, objs, parent, id, n).trace, id)
    decreases id, 2, n
  {
    if n > 0 {
      if Items(objs[id].sequence).Ok? {
        ItemsRefs(objs[id].sequence, id);
        PhaseBelow(h, objs, parent, id, Items(objs[id].sequence).value, 0, true);
      }
      var r := RunPass(h, objs, parent, id);
      SameShapeOrdered(objs, r.objs);
      SameShapeTest(objs, r.objs, id);
      if r.res.Continue? {
        LoopBelow(h, r.objs, parent, id, n - 1);
      }
    }
  }


  lemma {:induction false} TestBelow(h: Host, objs: seq<Obj>, parent: seq<Link>, id: nat)
    requires Runnable(objs, parent) && id < |objs| && objs[id].TestObj?
    ensures Below(RunTest(h, objs, parent, id).trace, id)
    decreases id, 3, 2
  {
    if Items(objs[id].setup).Ok? {
      var setup := Items(objs[id].setup).value;
      ItemsRefs(objs[id].setup, id);
      var s := RunPhase(h, objs, parent, id, setup, 0, true);
      PhaseBelow(h, objs, parent, id, setup, 0, true);
      SameShapeOrdered(objs, s.objs);
      SameShapeTest(objs, s.objs, id);
      if s.res.Continue? {
        BodyBelow(h, s.objs, parent, id);
      }
    }
  }

  lemma {:induction false} BodyBelow(h: Host, objs: seq<Obj>, parent: seq<Link>, id: nat)
    requires Runnable(objs, parent) && id < |objs| && objs[id].TestObj?
    ensures Below(TestBody(h, objs, parent, id).trace, id)
    decreases id, 3, 1
  {
    if PassCount(objs[id].parameters).Ok? {
      var l := RunLoop(h, objs, parent, id, PassCount(objs[id].parameters).value);
      LoopBelow(h, objs, parent, id, PassCount(objs[id].parameters).value);
      SameShapeOrdered(objs, l.objs);
      SameShapeTest(objs, l.objs, id);
      if l.res.Continue? {
        TeardownBelow(h, l.objs, parent, id);
      }
    }
  }

  lemma {:induction false} TeardownBelow(h: Host, objs: seq<Obj>, parent: seq<Link>, id: nat)
    requires Runnable(objs, parent) && id < |objs| && objs[id].TestObj?
    ensures Below(TestTeardown(h, objs, parent, id).trace, id)
    decreases id, 3, 0
  {
    if Items(objs[id].teardown).Ok? {
      ItemsRefs(objs[id].teardown, id);
      PhaseBelow(h, objs, parent, id, Items(objs[id].teardown).value, 0, false);
    }
  }

  // ---------------------------------------------------------------------
  // Runs taken one step at a time

  /** Part of a run done: the actions `done` have been entered, and `rest` remains; together they are `full`. */
  ghost predicate Resumed<T>(full: Exec<T>, done: seq<nat>, rest: Exec<T>)
  {
    full == Exec(rest.res, rest.objs, done + rest.trace)
  }

  /** The next action of a resumed phase either ends the run or leaves the rest of the phase. */
  lemma PhaseAdvance(h: Host, objs: seq<Obj>, parent: seq<Link>, id: nat, items: seq<Value>, i: nat, check: bool, full: Exec<Flow>, done: seq<nat>)
    requires Runnable(objs, parent) && id < |objs| && objs[id].TestObj? && i < |items|
    requires forall k :: 0 <= k < |items| ==> RefsBelow(items[k], id)
    requires Resumed(full, done, RunPhase(h, objs, parent, id, items, i, check))
    ensures var r := RunChecked(h, objs, parent, id, items[i], check);
      && Runnable(r.objs, parent) && r.objs[id].TestObj?
      && (r.res.Stop? ==> full == Exec(r.res, r.objs, done + r.trace))
      && (r.res.Continue? ==> Resumed(full, done + r.trace, RunPhase(h, r.objs, parent, id, items, i + 1, check)))
  {
    var r := RunChecked(h, objs, parent, id, items[i], check);
    SameShapeOrdered(objs, r.objs);
    SameShapeTest(objs, r.objs, id);
    if r.res.Continue? {
      var rest := RunPhase(h, r.objs, parent, id, items, i + 1, check);
      AppendAssoc(done, r.trace, rest.trace);
    }
  }

  /** The next pass of a resumed loop either ends the run or leaves the remaining passes. */
  lemma LoopAdvance(h: Host, objs: seq<Obj>, parent: seq<Link>, id: nat, m: nat, full: Exec<Flow>, done: seq<nat>)
    requires Runnable(objs, parent) && id < |objs| && objs[id].TestObj? && m > 0
    requires Resumed(full, done, RunLoop(h, objs, parent, id, m))
    ensures var r := RunPass(h, objs, parent, id);
      && Runnable(r.objs, parent) && r.objs[id].TestObj?
      && (r.res.Stop? ==> full == Exec(r.res, r.objs, done + r.trace))
      && (r.res.Continue? ==> Resumed(full, done + r.trace, RunLoop(h, r.objs, parent, id, m - 1)))
  {
    var r := RunPass(h, objs, parent, id);
    SameShapeOrdered(objs, r.objs);
    SameShapeTest(objs, r.objs, id);
    if r.res.Continue? {
      var rest := RunLoop(h, r.objs, parent, id, m - 1);
      AppendAssoc(done, r.trace, rest.trace);
    }
  }


  /** A resumed phase or loop with nothing left is over. */
  lemma Finished<T>(full: Exec<T>, done: seq<nat>, objs: seq<Obj>, res: T)
    requires Resumed(full, done, Exec(res, objs, []))
    ensures full == Exec(res, objs, done)
  {
    assert done + [] == done;
  }
}
