/**
 * The `LazyStr` template of pluma-parse.py: a `str.format` string kept
 * unrendered until `str()` is called on it, then rendered against
 * `global_context` overridden by the parent's parameters.
 *
 * A template is kept as its parsed parts; only plain `{name}` fields and the
 * `{{` / `}}` escapes are modelled.
 */
module Templates {
  import opened Base

  /** One piece of a parsed format string. */
  datatype Part =
    | Lit(text: string)     // literal text without braces
    | OpenBrace             // `{{`, renders as `{`
    | CloseBrace            // `}}`, renders as `}`
    | Field(name: string)   // `{name}`, renders as the context's value for name

  type Template = seq<Part>

  /** The text a part was parsed from. */
  function PartSource(p: Part): string
  {
    match p
    case Lit(s) => s
    case OpenBrace => "{{"
    case CloseBrace => "}}"
    case Field(n) => "{" + n + "}"
  }

  /** The format string a template was parsed from (`LazyStr.fmt`). */
  function Source(t: Template): string
  {
    if t == [] then "" else PartSource(t[0]) + Source(t[1..])
  }

  /** Every field of `t` names a key of `ctx`, so `fmt.format(**ctx)` raises no KeyError. */
  predicate Bound(t: Template, ctx: map<string, string>)
  {
    forall i :: 0 <= i < |t| && t[i].Field? ==> t[i].name in ctx
  }

  /** Literal text only: no fields and no escaped braces. */
  predicate Plain(t: Template)
  {
    forall i :: 0 <= i < |t| ==> t[i].Lit?
  }

  function RenderPart(p: Part, ctx: map<string, string>): string
    requires p.Field? ==> p.name in ctx
  {
    match p
    case Lit(s) => s
    case OpenBrace => "{"
    case CloseBrace => "}"
    case Field(n) => ctx[n]
  }

  /** `fmt.format(**ctx)` for a template whose fields are all bound. */
  function Render(t: Template, ctx: map<string, string>): string
    requires Bound(t, ctx)
  {
    if t == [] then "" else RenderPart(t[0], ctx) + Render(t[1..], ctx)
  }

  /** Rendering a concatenation renders each half in turn. */
  lemma {:induction false} RenderConcat(a: Template, b: Template, ctx: map<string, string>)
    requires Bound(a, ctx) && Bound(b, ctx)
    ensures Bound(a + b, ctx)
    ensures Render(a + b, ctx) == Render(a, ctx) + Render(b, ctx)
  {
    if a != [] {
      assert (a + b)[1..] == a[1..] + b;
      RenderConcat(a[1..], b, ctx);
    } else {
      assert a + b == b;
    }
  }

  /** A template of literal text renders to its own format string. */
  lemma {:induction false} RenderPlain(t: Template, ctx: map<string, string>)
    requires Plain(t)
    ensures Bound(t, ctx) && Render(t, ctx) == Source(t)
  {
    if t != [] {
      RenderPlain(t[1..], ctx);
    }
  }

  /** Rendering reads the context only at the template's field names. */
  lemma {:induction false} RenderLocal(t: Template, c1: map<string, string>, c2: map<string, string>)
    requires Bound(t, c1) && Bound(t, c2)
    requires forall i :: 0 <= i < |t| && t[i].Field? ==> c1[t[i].name] == c2[t[i].name]
    ensures Render(t, c1) == Render(t, c2)
  {
    if t != [] {
      RenderLocal(t[1..], c1, c2);
    }
  }

  /**
   * The rendering context of `LazyStr.__str__`: `global_context`, overridden
   * by the parent's parameters when the parent has a non-empty parameter map
   * (`parentParams` is None when there is no parent or it has no parameters).
   */
  function Context(globals: map<string, string>, parentParams: Option<map<string, string>>): (c: map<string, string>)
    ensures parentParams.None? ==> c == globals
    ensures parentParams.Some? ==> c.Keys == globals.Keys + parentParams.value.Keys
    ensures parentParams.Some? ==> forall k :: k in parentParams.value ==> c[k] == parentParams.value[k]
    ensures forall k :: k in globals && (parentParams.None? || k !in parentParams.value) ==> c[k] == globals[k]
  {
    if parentParams.Some? && parentParams.value != map[] then globals + parentParams.value else globals
  }

  /** `fmt.format(**ctx)`: the rendered text, or KeyError for a field the context lacks. */
  function Format(t: Template, ctx: map<string, string>): (r: Result<string>)
    ensures r.Ok? <==> Bound(t, ctx)
    ensures r.Ok? ==> r.value == Render(t, ctx)
    ensures r.Err? ==> r.error == KeyError
  {
    if Bound(t, ctx) then Ok(Render(t, ctx)) else Err(KeyError)
  }

  /** `LazyStr.__str__`. */
  function Str(t: Template, globals: map<string, string>, parentParams: Option<map<string, string>>): (r: Result<string>)
    ensures r.Ok? <==> forall i :: 0 <= i < |t| && t[i].Field? ==>
      t[i].name in globals || (parentParams.Some? && t[i].name in parentParams.value)
    ensures r.Err? ==> r.error == KeyError
    ensures r.Ok? ==> Bound(t, Context(globals, parentParams)) && r.value == Render(t, Context(globals, parentParams))
    ensures Plain(t) ==> r == Ok(Source(t))
  {
    var ctx := Context(globals, parentParams);
    assert Plain(t) ==> Bound(t, ctx) && Render(t, ctx) == Source(t) by {
      if Plain(t) { RenderPlain(t, ctx); }
    }
    Format(t, ctx)
  }

  /** A lone placeholder takes the parent's parameter when there is one, and `global_context`'s otherwise. */
  lemma StrField(n: string, globals: map<string, string>, parentParams: Option<map<string, string>>)
    ensures parentParams.Some? && n in parentParams.value ==> Str([Field(n)], globals, parentParams) == Ok(parentParams.value[n])
    ensures (parentParams.None? || n !in parentParams.value) && n in globals ==> Str([Field(n)], globals, parentParams) == Ok(globals[n])
    ensures (parentParams.None? || n !in parentParams.value) && n !in globals ==> Str([Field(n)], globals, parentParams) == Err(KeyError)
  {
    var t := [Field(n)];
    var ctx := Context(globals, parentParams);
    assert t[0] == Field(n) && t[1..] == [];
    if n in ctx {
      assert Bound(t, ctx);
      assert Render(t, ctx) == RenderPart(t[0], ctx) + Render(t[1..], ctx);
      assert Render(t, ctx) == ctx[n];
      assert Str(t, globals, parentParams) == Format(t, ctx);
    }
  }
}
