/**
 * Variant field resolution (`OverrideDict.get` and `get_field_overrides`):
 * for each active variant tag in order, the key `name_tag` wins if present;
 * otherwise the plain `name` entry, otherwise the default.
 */
module Overrides {

  function Suffixed(name: string, tag: string): string
  {
    name + "_" + tag
  }

  /** `get_field_overrides(fields, name, default)`, with the active tag list passed in. */
  function GetField<V(==)>(fields: map<string, V>, overrides: seq<string>, name: string, default: V): (r: V)
    ensures r == default || r in fields.Values
    decreases |overrides|
  {
    if overrides == [] then
      (if name in fields then fields[name] else default)
    else if Suffixed(name, overrides[0]) in fields then
      fields[Suffixed(name, overrides[0])]
    else
      GetField(fields, overrides[1..], name, default)
  }

  /** The entry of the earliest tag whose suffixed key is present is the result, whatever the plain key holds. */
  lemma {:induction false} GetFieldFirstMatch<V>(fields: map<string, V>, overrides: seq<string>, name: string, default: V, i: nat)
    requires i < |overrides| && Suffixed(name, overrides[i]) in fields
    requires forall j :: 0 <= j < i ==> Suffixed(name, overrides[j]) !in fields
    ensures GetField(fields, overrides, name, default) == fields[Suffixed(name, overrides[i])]
  {
    if i > 0 {
      assert Suffixed(name, overrides[0]) !in fields;
      GetFieldFirstMatch(fields, overrides[1..], name, default, i - 1);
    }
  }

  /** Without any suffixed key the result is `dict.get(name, default)`. */
  lemma {:induction false} GetFieldFallback<V>(fields: map<string, V>, overrides: seq<string>, name: string, default: V)
    requires forall j :: 0 <= j < |overrides| ==> Suffixed(name, overrides[j]) !in fields
    ensures GetField(fields, overrides, name, default) == if name in fields then fields[name] else default
  {
    if overrides != [] {
      assert Suffixed(name, overrides[0]) !in fields;
      GetFieldFallback(fields, overrides[1..], name, default);
    }
  }

  /** Some suffixed key present: the result is the entry of the earliest such tag. */
  lemma {:induction false} GetFieldVariantWins<V>(fields: map<string, V>, overrides: seq<string>, name: string, default: V)
    requires exists i :: 0 <= i < |overrides| && Suffixed(name, overrides[i]) in fields
    ensures exists i :: (0 <= i < |overrides| && Suffixed(name, overrides[i]) in fields
      && (forall j :: 0 <= j < i ==> Suffixed(name, overrides[j]) !in fields)
      && GetField(fields, overrides, name, default) == fields[Suffixed(name, overrides[i])])
  {
    if Suffixed(name, overrides[0]) in fields {
      assert Suffixed(name, overrides[0]) in fields;
    } else {
      var i :| 0 <= i < |overrides| && Suffixed(name, overrides[i]) in fields;
      assert i > 0 && Suffixed(name, overrides[1..][i - 1]) in fields;
      GetFieldVariantWins(fields, overrides[1..], name, default);
      var i' :| 0 <= i' < |overrides[1..]| && Suffixed(name, overrides[1..][i']) in fields
        && (forall j :: 0 <= j < i' ==> Suffixed(name, overrides[1..][j]) !in fields)
        && GetField(fields, overrides[1..], name, default) == fields[Suffixed(name, overrides[1..][i'])];
      assert forall j :: 0 <= j < i' + 1 ==> Suffixed(name, overrides[j]) !in fields by {
        forall j | 0 <= j < i' + 1 ensures Suffixed(name, overrides[j]) !in fields {
          if j > 0 { assert overrides[j] == overrides[1..][j - 1]; }
        }
      }
    }
  }

  /** `OverrideDict.get(name, default)`: the loop over the active tags with its early return. */
  method Get<V(==)>(fields: map<string, V>, overrides: seq<string>, name: string, default: V) returns (r: V)
    ensures r == GetField(fields, overrides, name, default)
  {
    for i := 0 to |overrides|
      invariant GetField(fields, overrides[i..], name, default) == GetField(fields, overrides, name, default)
    {
      assert overrides[i..][1..] == overrides[i + 1..];
      var key := Suffixed(name, overrides[i]);
      if key in fields {
        return fields[key];
      }
    }
    r := if name in fields then fields[name] else default;
  }
}
