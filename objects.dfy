/**
 * The action objects a compiled document is made of, and the parent links
 * `post_init` gives them. Objects are numbered so that every object refers
 * only to objects with smaller numbers (a topological order of the object
 * graph, which a document without reference cycles always has).
 */
module Objects {
  import opened Base
  import opened Templates
  import opened Values

  /** One object built by a YAML tag constructor. */
  datatype Obj =
    | TestObj(name: Value, sequence: Value, setup: Value, teardown: Value, defaults: Value, parameters: Value)  // `!test`, `!yml`
    | DutCmdObj(cmd: Value)                                 // `!dut`
    | HostCmdObj(cmd: Value)                                // `!host`
    | TransferObj(isDeploy: bool, src: Value, dst: Value)   // `!deploy`, `!fetch` (DeployFetch)
    | PythonTestObj(moduleId: Value, testId: Value, args: Value)  // `!python`
    | SetterObj(variable: Value, value: Value)              // `!set` (VariableSetter)
    | EvaluatorObj(expr: Template)                          // `!eval`, its text read as a format string

  /** An object's `parent` attribute: not yet assigned, None, or an object. */
  datatype Link = Unlinked | NoParent | Parent(id: nat)

  /**
   * The attributes `YmlObject.post_init` walks, in the sorted order `dir()`
   * lists them. `Evaluator` overrides `post_init` and walks nothing.
   */
  function Attributes(o: Obj): seq<Value>
  {
    match o
    case TestObj(name, sequence, setup, teardown, defaults, parameters) =>
      [defaults, name, parameters, sequence, setup, teardown]
    case DutCmdObj(cmd) => [cmd]
    case HostCmdObj(cmd) => [cmd]
    case TransferObj(isDeploy, src, dst) => [dst, VBool(isDeploy), src]
    case PythonTestObj(moduleId, testId, args) => [args, moduleId, testId]
    case SetterObj(variable, value) => [value, variable]
    case EvaluatorObj(_) => []
  }

  /** `getattr(o, name)` for the data attributes the constructors set; None for any other name. */
  function Attr(o: Obj, name: string): Option<Value>
  {
    match o
    case TestObj(n, sequence, setup, teardown, defaults, parameters) =>
      if name == "name" then Some(n) else if name == "sequence" then Some(sequence)
      else if name == "setup" then Some(setup) else if name == "teardown" then Some(teardown)
      else if name == "defaults" then Some(defaults) else if name == "parameters" then Some(parameters)
      else None
    case DutCmdObj(cmd) => if name == "cmd" then Some(cmd) else None
    case HostCmdObj(cmd) => if name == "cmd" then Some(cmd) else None
    case TransferObj(isDeploy, src, dst) =>
      if name == "is_deploy" then Some(VBool(isDeploy)) else if name == "src" then Some(src)
      else if name == "dst" then Some(dst) else None
    case PythonTestObj(moduleId, testId, args) =>
      if name == "module" then Some(moduleId) else if name == "test" then Some(testId)
      else if name == "args" then Some(args) else None
    case SetterObj(variable, value) =>
      if name == "var" then Some(variable) else if name == "value" then Some(value) else None
    case EvaluatorObj(_) => None
  }

  /** Code-point lexicographic order on strings, the order `dir()` lists names in. */
  predicate Before(a: string, b: string)
  {
    b != [] && (a == [] || a[0] < b[0] || (a[0] == b[0] && Before(a[1..], b[1..])))
  }

  /** Each name comes strictly before the next. */
  predicate InDirOrder(names: seq<string>)
  {
    forall i :: 0 <= i < |names| - 1 ==> Before(names[i], names[i + 1])
  }

  /** The names `YmlObject.post_init` visits for `o`; an `Evaluator` visits none. */
  function AttributeNames(o: Obj): seq<string>
  {
    match o
    case TestObj(_, _, _, _, _, _) => ["defaults", "name", "parameters", "sequence", "setup", "teardown"]
    case DutCmdObj(_) => ["cmd"]
    case HostCmdObj(_) => ["cmd"]
    case TransferObj(_, _, _) => ["dst", "is_deploy", "src"]
    case PythonTestObj(_, _, _) => ["args", "module", "test"]
    case SetterObj(_, _) => ["value", "var"]
    case EvaluatorObj(_) => []
  }

  /**
   * The attributes `post_init` walks are those its `dir()` loop reaches, in
   * that loop's order: the names are sorted, and `Attributes(o)` holds their
   * values position by position.
   */
  lemma AttributesInDirOrder(o: Obj)
    ensures |AttributeNames(o)| == |Attributes(o)|
    ensures forall i :: 0 <= i < |Attributes(o)| ==> Attr(o, AttributeNames(o)[i]) == Some(Attributes(o)[i])
    ensures InDirOrder(AttributeNames(o))
  {
    match o
    case TestObj(_, _, _, _, _, _) => TestNamesInDirOrder();
    case TransferObj(_, _, _) =>
      assert Before("dst", "is_deploy") && Before("is_deploy", "src");
    case PythonTestObj(_, _, _) =>
      assert Before("args", "module") && Before("module", "test");
    case SetterObj(_, _) =>
      assert Before("value", "var") by {
        assert Before("lue", "r");
      }
    case _ =>
  }

  lemma TestNamesInDirOrder()
    ensures InDirOrder(["defaults", "name", "parameters", "sequence", "setup", "teardown"])
  {
    var names := ["defaults", "name", "parameters", "sequence", "setup", "teardown"];
    assert Before("defaults", "name") && Before("name", "parameters") && Before("parameters", "sequence");
    assert Before("sequence", "setup") by {
      assert Before("quence", "tup");
    }
    assert Before("setup", "teardown");
    assert names[0] == "defaults" && names[1] == "name" && names[2] == "parameters";
    assert names[3] == "sequence" && names[4] == "setup" && names[5] == "teardown";
  }

  /** The attributes of object `i` refer only to objects numbered below `i`. */
  ghost predicate WalkOrdered(objs: seq<Obj>)
  {
    forall i, a :: 0 <= i < |objs| && 0 <= a < |Attributes(objs[i])| ==> RefsBelow(Attributes(objs[i])[a], i)
  }

  /** The action lists of every test refer only to objects numbered below it. */
  ghost predicate Ordered(objs: seq<Obj>)
  {
    forall i :: 0 <= i < |objs| && objs[i].TestObj? ==>
      RefsBelow(objs[i].setup, i) && RefsBelow(objs[i].sequence, i) && RefsBelow(objs[i].teardown, i)
  }

  /** An object without the one attribute that changes after construction, a test's `parameters`. */
  function Skeleton(o: Obj): Obj
  {
    if o.TestObj? then o.(parameters := VNone) else o
  }

  /** `b` is `a` with at most the tests' parameters changed. */
  ghost predicate SameShape(a: seq<Obj>, b: seq<Obj>)
  {
    |a| == |b| && forall i :: 0 <= i < |a| ==> Skeleton(a[i]) == Skeleton(b[i])
  }

  /** A parent link that names an existing object, if any. */
  predicate LinkIn(l: Link, n: nat)
  {
    l.Parent? ==> l.id < n
  }

  /** Every parent link names an existing object. */
  ghost predicate LinksIn(parent: seq<Link>, n: nat)
  {
    forall i :: 0 <= i < |parent| ==> LinkIn(parent[i], n)
  }

  lemma LinksInUpdate(parent: seq<Link>, i: nat, l: Link, n: nat)
    requires LinksIn(parent, n) && i < |parent| && LinkIn(l, n)
    ensures LinksIn(parent[i := l], n)
  {
  }

  lemma WalkOrderedIsOrdered(objs: seq<Obj>)
    requires WalkOrdered(objs)
    ensures Ordered(objs)
  {
    forall i | 0 <= i < |objs| && objs[i].TestObj?
      ensures RefsBelow(objs[i].setup, i) && RefsBelow(objs[i].sequence, i) && RefsBelow(objs[i].teardown, i)
    {
      var attrs := Attributes(objs[i]);
      assert attrs[3] == objs[i].sequence && attrs[4] == objs[i].setup && attrs[5] == objs[i].teardown;
    }
  }

  lemma SameShapeOrdered(a: seq<Obj>, b: seq<Obj>)
    requires SameShape(a, b) && Ordered(a)
    ensures Ordered(b)
  {
    forall i | 0 <= i < |b| && b[i].TestObj?
      ensures RefsBelow(b[i].setup, i) && RefsBelow(b[i].sequence, i) && RefsBelow(b[i].teardown, i)
    {
      assert Skeleton(a[i]) == Skeleton(b[i]);
    }
  }

  lemma SameShapeTrans(a: seq<Obj>, b: seq<Obj>, c: seq<Obj>)
    requires SameShape(a, b) && SameShape(b, c)
    ensures SameShape(a, c)
  {
  }

  /** `v` is a reference to an `!eval` object. */
  predicate IsEvaluator(objs: seq<Obj>, v: Value)
  {
    v.VObj? && v.id < |objs| && objs[v.id].EvaluatorObj?
  }

  /** Object `j`'s parent is a test, the only kind of object with `parameters`. */
  predicate ParentIsTest(objs: seq<Obj>, parent: seq<Link>, j: nat)
  {
    j < |parent| && parent[j].Parent? && parent[j].id < |objs| && objs[parent[j].id].TestObj?
  }

  /**
   * `f'{e}'` for the evaluator `j`, that is `Evaluator.get`: merge
   * `global_context` with `self.parent.parameters`, pass the merged dict to
   * `str.format` as its one POSITIONAL argument, `eval` the text and show
   * the result. Without a parent that is a test the attribute lookup
   * raises AttributeError; `**` of parameters that are not a dict raises
   * TypeError; a named placeholder is looked up among the (absent) keyword
   * arguments and raises KeyError; `eval` may raise.
   */
  function EvalText(objs: seq<Obj>, parent: seq<Link>, j: nat, globals: map<string, string>,
                    show: Value -> string, eval: string -> Option<Value>): (r: Result<string>)
    requires j < |objs| && objs[j].EvaluatorObj?
    ensures !ParentIsTest(objs, parent, j) ==> r == Err(AttributeError)
    ensures ParentIsTest(objs, parent, j) && !objs[parent[j].id].parameters.VDict? ==> r == Err(TypeError)
    ensures r.Ok? ==>
      && ParentIsTest(objs, parent, j) && objs[parent[j].id].parameters.VDict?
      && Bound(objs[j].expr, map[])
      && eval(Render(objs[j].expr, map[])).Some?
      && r == Text(eval(Render(objs[j].expr, map[])).value, globals, show)
    ensures ParentIsTest(objs, parent, j) && objs[parent[j].id].parameters.VDict? && !Bound(objs[j].expr, map[]) ==>
      r == Err(KeyError)
  {
    if !ParentIsTest(objs, parent, j) then Err(AttributeError)
    else if !objs[parent[j].id].parameters.VDict? then Err(TypeError)
    else
      match Format(objs[j].expr, map[])
      case Err(x) => Err(x)
      case Ok(src) =>
        match eval(src)
        case None => Err(EvalError)
        case Some(value) => Text(value, globals, show)
  }

  /** The text `f'{v}'` produces once objects exist: an `!eval` reference as EvalText says, anything else as Text says. */
  function Repr(objs: seq<Obj>, parent: seq<Link>, v: Value, globals: map<string, string>,
                show: Value -> string, eval: string -> Option<Value>): (r: Result<string>)
    ensures r.Err? ==> (IsEvaluator(objs, v) || (v.VStr? && r.error == KeyError))
  {
    if IsEvaluator(objs, v) then EvalText(objs, parent, v.id, globals, show, eval)
    else Text(v, globals, show)
  }

  /**
   * An `!eval` whose parent is not a test cannot be shown: in particular one
   * that is the value or the name of a `!set`, whose parent is that setter.
   */
  lemma EvalOutsideTest(objs: seq<Obj>, parent: seq<Link>, j: nat, globals: map<string, string>,
                        show: Value -> string, eval: string -> Option<Value>)
    requires j < |objs| && objs[j].EvaluatorObj? && j < |parent| && parent[j].Parent?
    requires parent[j].id < |objs| && objs[parent[j].id].SetterObj?
    ensures Repr(objs, parent, VObj(j), globals, show, eval) == Err(AttributeError)
  {
  }

  /**
   * `f'{v}'` while the document is still being loaded: no `post_init` has
   * run, so an `!eval` has no `parent` and showing it raises AttributeError.
   */
  function LoadText(objs: seq<Obj>, v: Value, globals: map<string, string>, show: Value -> string): (r: Result<string>)
    ensures IsEvaluator(objs, v) ==> r == Err(AttributeError)
    ensures !IsEvaluator(objs, v) ==> r == Text(v, globals, show)
  {
    if IsEvaluator(objs, v) then Err(AttributeError) else Text(v, globals, show)
  }

  /** LoadText is Repr with every parent link still unassigned, whatever `eval` does. */
  lemma LoadTextIsRepr(objs: seq<Obj>, v: Value, globals: map<string, string>,
                       show: Value -> string, eval: string -> Option<Value>)
    ensures LoadText(objs, v, globals, show) == Repr(objs, seq(|objs|, _ => Unlinked), v, globals, show, eval)
  {
  }
}
