/**
 Placeholder substitution in a workflow step's parameter template: every
 top-level string value that starts with "{{" names a caller variable, and a
 truthy value of that variable replaces it.
 */
module Interpolation {
  import opened Js

  /** Only the opening delimiter is checked: "{{name" counts, "x{{name}}" does not. */
  predicate IsPlaceholder(v: Json) {
    v.JStr? && StartsWith(v.s, "{{")
  }

  /** The variable a placeholder string names: its first two and last two characters cut off, then trimmed. */
  function VarName(s: string): (name: string)
    ensures |s| < 4 ==> name == ""
    ensures |s| >= 4 ==> name == Trim(s[2..|s| - 2])
  {
    Trim(Slice(s, 2, -2))
  }

  /** JavaScript's `bound || fallback`: the bound value when it is truthy, the fallback otherwise. */
  function Or(bound: Option<Json>, fallback: Json): (r: Json)
    ensures TruthyOpt(bound) ==> r == bound.value
    ensures !TruthyOpt(bound) ==> r == fallback
  {
    if TruthyOpt(bound) then bound.value else fallback
  }

  /** Variables can be read from every value but undefined and null. */
  predicate Readable(values: Option<Json>) {
    values.Some? && values.value != JNull
  }

  /** One iteration of the substitution loop, applied to the entry as it stands. */
  function Resolve(f: Field, values: Option<Json>): Outcome<Field> {
    if IsPlaceholder(f.value) then
      match ReadProperty(values, VarName(f.value.s))
      case Thrown(m) => Thrown(m)
      case Ok(bound) => Ok(Field(f.key, Or(bound, f.value)))
    else Ok(f)
  }

  function ResolveStep(values: Option<Json>): Field -> Outcome<Field> {
    f => Resolve(f, values)
  }

  /** The parameters a step runs with: each entry resolved in key order, stopping at the first throw. */
  function Interpolate(template: seq<Field>, values: Option<Json>): Outcome<seq<Field>> {
    MapThrowing(template, ResolveStep(values))
  }

  /** Substitution keeps exactly the template's keys, in the template's order. */
  lemma {:induction false} InterpolateKeepsKeys(template: seq<Field>, values: Option<Json>)
    ensures Interpolate(template, values).Ok? ==>
      var r := Interpolate(template, values).value;
      |r| == |template| && KeysOf(r) == KeysOf(template)
    decreases |template|
  {
    if |template| > 0 {
      InterpolateKeepsKeys(template[1..], values);
      match Interpolate(template, values)
      case Thrown(_) =>
      case Ok(r) =>
        var rest := Interpolate(template[1..], values).value;
        assert r == [r[0]] + rest;
        assert r[1..] == rest;
    }
  }

  /**
   Entry by entry: a non-placeholder entry is kept; a placeholder entry takes
   the bound value when it is truthy and keeps the template string otherwise. A
   substituted value is taken as it is, even when it looks like a placeholder.
   */
  lemma {:induction false} InterpolateEntries(template: seq<Field>, values: Option<Json>, i: nat)
    requires i < |template|
    requires Interpolate(template, values).Ok?
    ensures var r := Interpolate(template, values).value;
      i < |r| &&
      (!IsPlaceholder(template[i].value) ==> r[i] == template[i]) &&
      (IsPlaceholder(template[i].value) ==>
         var bound := ReadProperty(values, VarName(template[i].value.s));
         bound.Ok? && r[i] == Field(template[i].key, Or(bound.value, template[i].value)))
    decreases i
  {
    InterpolateKeepsKeys(template, values);
    if i > 0 {
      InterpolateEntries(template[1..], values, i - 1);
      var r := Interpolate(template, values).value;
      var rest := Interpolate(template[1..], values).value;
      assert r == [r[0]] + rest;
      assert r[i] == rest[i - 1];
      assert template[1..][i - 1] == template[i];
    }
  }

  /** Substitution throws exactly when variables are read out of undefined or null and the template has a placeholder. */
  lemma {:induction false} InterpolateThrowsIff(template: seq<Field>, values: Option<Json>)
    ensures Interpolate(template, values).Thrown? <==>
      !Readable(values) && exists i :: 0 <= i < |template| && IsPlaceholder(template[i].value)
    decreases |template|
  {
    if |template| > 0 {
      InterpolateThrowsIff(template[1..], values);
      assert forall i :: 0 < i < |template| ==> template[1..][i - 1] == template[i];
      if exists i :: 0 <= i < |template| && IsPlaceholder(template[i].value) {
        var i :| 0 <= i < |template| && IsPlaceholder(template[i].value);
        if i > 0 {
          assert IsPlaceholder(template[1..][i - 1].value);
        }
      }
    }
  }

  /**
   The substitution loop as written: it copies the template, then visits each
   key once and rewrites that key's entry as it currently stands. Because the
   entries not yet visited are still the template's, and a visited one is never
   read again, the loop computes the single pass `Interpolate`.
   */
  method InterpolateParams(template: seq<Field>, values: Option<Json>) returns (r: Outcome<seq<Field>>)
    ensures r == Interpolate(template, values)
  {
    var result := template;
    var i := 0;
    while i < |result|
      invariant 0 <= i <= |result| == |template|
      invariant result[i..] == template[i..]
      invariant Interpolate(template[..i], values) == Ok(result[..i])
    {
      assert result[i] == template[i];
      ghost var done := template[..i];
      assert template[..i + 1] == done + [template[i]];
      match Resolve(result[i], values)
      case Thrown(m) =>
        assert template[i..][0] == template[i];
        assert Interpolate(template[i..], values) == Thrown(m);
        MapThrowingAppend(done, template[i..], ResolveStep(values));
        assert done + template[i..] == template;
        return Thrown(m);
      case Ok(g) =>
        MapThrowingSingle(template[i], ResolveStep(values));
        MapThrowingAppend(done, [template[i]], ResolveStep(values));
        result := result[i := g];
        assert result[..i + 1] == result[..i] + [g];
      i := i + 1;
    }
    assert template[..i] == template && result[..i] == result;
    return Ok(result);
  }

  /** A substituted value is not substituted again: a variable bound to "{{b}}" yields "{{b}}", not b's value. */
  lemma NoSecondPass()
    ensures Interpolate([Field("repo", JStr("{{a}}"))],
                        Some(JObj([Field("a", JStr("{{b}}")), Field("b", JStr("demo"))])))
            == Ok([Field("repo", JStr("{{b}}"))])
  {
    var s := "{{a}}";
    assert s[..2] == "{{";
    assert s[2..|s| - 2] == "a";
    TrimPadded("", "a", "");
    assert "" + "a" + "" == "a";
    assert VarName(s) == "a";
    var fields := [Field("a", JStr("{{b}}")), Field("b", JStr("demo"))];
    assert Get(fields, "a") == Some(JStr("{{b}}"));
    var t := [Field("repo", JStr(s))];
    assert Resolve(t[0], Some(JObj(fields))) == Ok(Field("repo", JStr("{{b}}")));
    MapThrowingSingle(t[0], ResolveStep(Some(JObj(fields))));
  }

  /** A placeholder whose variable is bound to a falsy value such as 0 keeps the template string. */
  lemma FalsyBindingKeepsTemplate()
    ensures Interpolate([Field("count", JStr("{{ n }}"))], Some(JObj([Field("n", JNum(0))])))
            == Ok([Field("count", JStr("{{ n }}"))])
  {
    var s := "{{ n }}";
    assert s[..2] == "{{";
    assert s[2..|s| - 2] == " n ";
    TrimPadded(" ", "n", " ");
    assert " " + "n" + " " == " n ";
    assert VarName(s) == "n";
    var t := [Field("count", JStr(s))];
    assert Get([Field("n", JNum(0))], "n") == Some(JNum(0));
    assert Resolve(t[0], Some(JObj([Field("n", JNum(0))]))) == Ok(t[0]);
    MapThrowingSingle(t[0], ResolveStep(Some(JObj([Field("n", JNum(0))]))));
  }

  /** Only "{{" is checked: an unclosed "{{name" still reads a variable, with its last two characters lost. */
  lemma UnclosedPlaceholderName()
    ensures IsPlaceholder(JStr("{{name"))
    ensures VarName("{{name") == "na"
  {
    var s := "{{name";
    assert s[..2] == "{{";
    assert s[2..|s| - 2] == "na";
    TrimPadded("", "na", "");
    assert "" + "na" + "" == "na";
  }
}
