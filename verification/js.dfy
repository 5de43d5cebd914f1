/**
 The slice of JavaScript semantics the route handlers rely on: JSON values,
 objects as ordered lists of own properties, `undefined`, truthiness, property
 reads that throw on null/undefined, string conversion, and the string methods
 `startsWith`, `slice` and `trim`.
 */
module Js {

  /** `None` stands for JavaScript's `undefined`. */
  datatype Option<+T> = None | Some(value: T)

  /** A JSON value. Numbers are restricted to integers. */
  datatype Json =
    | JNull
    | JBool(b: bool)
    | JNum(n: int)
    | JStr(s: string)
    | JArr(items: seq<Json>)
    | JObj(fields: seq<Field>)

  /** One own property of an object; a list of fields keeps insertion order. */
  datatype Field = Field(key: string, value: Json)

  /** The outcome of a call that may throw: its value, or the thrown error's message. */
  datatype Outcome<+T> = Ok(value: T) | Thrown(message: string)

  /** The keys of an object, in enumeration order. */
  function KeysOf(fields: seq<Field>): (ks: seq<string>)
    ensures |ks| == |fields|
    decreases |fields|
  {
    if |fields| == 0 then [] else [fields[0].key] + KeysOf(fields[1..])
  }

  /** Own-property read `o[key]`: the field's value, or undefined. */
  function Get(fields: seq<Field>, key: string): (r: Option<Json>)
    ensures r.None? <==> key !in KeysOf(fields)
    ensures r.Some? ==> Field(key, r.value) in fields
    decreases |fields|
  {
    if |fields| == 0 then None
    else if fields[0].key == key then Some(fields[0].value)
    else Get(fields[1..], key)
  }

  /** Assignment `o[key] = v`: the key now holds `v`, and every other key keeps its value. */
  function Set(fields: seq<Field>, key: string, v: Json): (r: seq<Field>)
    ensures Get(r, key) == Some(v)
    ensures forall k :: k != key ==> Get(r, k) == Get(fields, k)
    decreases |fields|
  {
    if |fields| == 0 then [Field(key, v)]
    else if fields[0].key == key then [Field(key, v)] + fields[1..]
    else
      var rest := Set(fields[1..], key, v);
      var r := [fields[0]] + rest;
      assert r[1..] == rest;
      r
  }

  /** An existing property keeps its place, a new one goes last. */
  lemma {:induction false} SetKeys(fields: seq<Field>, key: string, v: Json)
    ensures key in KeysOf(fields) ==> KeysOf(Set(fields, key, v)) == KeysOf(fields)
    ensures key !in KeysOf(fields) ==> KeysOf(Set(fields, key, v)) == KeysOf(fields) + [key]
    decreases |fields|
  {
    if |fields| > 0 {
      var r := Set(fields, key, v);
      if fields[0].key == key {
        assert r[1..] == fields[1..];
      } else {
        SetKeys(fields[1..], key, v);
        assert r[1..] == Set(fields[1..], key, v);
        assert key in KeysOf(fields) <==> key in KeysOf(fields[1..]);
      }
    }
  }

  /** Drops the property `key`; every other property keeps its value and place. */
  function Remove(fields: seq<Field>, key: string): (r: seq<Field>)
    ensures Get(r, key) == None
    ensures forall k :: k != key ==> Get(r, k) == Get(fields, k)
    ensures forall k :: k in KeysOf(r) <==> k in KeysOf(fields) && k != key
    decreases |fields|
  {
    if |fields| == 0 then []
    else if fields[0].key == key then Remove(fields[1..], key)
    else
      var rest := Remove(fields[1..], key);
      var r := [fields[0]] + rest;
      assert r[1..] == rest;
      r
  }

  /** Applies `step` to each element in order; the first throw ends the pass and is the outcome. */
  function MapThrowing<A, B>(xs: seq<A>, step: A -> Outcome<B>): Outcome<seq<B>>
    decreases |xs|
  {
    if |xs| == 0 then Ok([])
    else
      match step(xs[0])
      case Thrown(m) => Thrown(m)
      case Ok(y) =>
        match MapThrowing(xs[1..], step)
        case Thrown(m) => Thrown(m)
        case Ok(ys) => Ok([y] + ys)
  }

  lemma MapThrowingSingle<A, B>(x: A, step: A -> Outcome<B>)
    ensures step(x).Thrown? ==> MapThrowing([x], step) == Thrown(step(x).message)
    ensures step(x).Ok? ==> MapThrowing([x], step) == Ok([step(x).value])
  {
    assert [x][1..] == [];
    if step(x).Ok? {
      assert [step(x).value] + [] == [step(x).value];
    }
  }

  /** A pass over `a + b` is a pass over `a` followed, when that does not throw, by a pass over `b`. */
  lemma MapThrowingAppend<A, B>(a: seq<A>, b: seq<A>, step: A -> Outcome<B>)
    ensures MapThrowing(a, step).Thrown? ==> MapThrowing(a + b, step) == MapThrowing(a, step)
    ensures MapThrowing(a, step).Ok? && MapThrowing(b, step).Thrown? ==>
      MapThrowing(a + b, step) == MapThrowing(b, step)
    ensures MapThrowing(a, step).Ok? && MapThrowing(b, step).Ok? ==>
      MapThrowing(a + b, step) == Ok(MapThrowing(a, step).value + MapThrowing(b, step).value)
  {
    if MapThrowing(a, step).Thrown? {
      AppendAfterThrow(a, b, step);
    } else {
      AppendAfterPass(a, b, step);
    }
  }

  lemma {:induction false} AppendAfterThrow<A, B>(a: seq<A>, b: seq<A>, step: A -> Outcome<B>)
    requires MapThrowing(a, step).Thrown?
    ensures MapThrowing(a + b, step) == MapThrowing(a, step)
    decreases |a|
  {
    assert (a + b)[0] == a[0];
    assert (a + b)[1..] == a[1..] + b;
    if step(a[0]).Ok? {
      AppendAfterThrow(a[1..], b, step);
    }
  }

  lemma {:induction false} AppendAfterPass<A, B>(a: seq<A>, b: seq<A>, step: A -> Outcome<B>)
    requires MapThrowing(a, step).Ok?
    ensures MapThrowing(b, step).Thrown? ==> MapThrowing(a + b, step) == MapThrowing(b, step)
    ensures MapThrowing(b, step).Ok? ==>
      MapThrowing(a + b, step) == Ok(MapThrowing(a, step).value + MapThrowing(b, step).value)
    decreases |a|
  {
    if |a| == 0 {
      assert a + b == b;
      assert MapThrowing(a, step).value == [];
      if MapThrowing(b, step).Ok? {
        assert [] + MapThrowing(b, step).value == MapThrowing(b, step).value;
      }
    } else {
      assert (a + b)[0] == a[0];
      assert (a + b)[1..] == a[1..] + b;
      AppendAfterPass(a[1..], b, step);
      var y := step(a[0]).value;
      var x := MapThrowing(a[1..], step).value;
      assert MapThrowing(a, step).value == [y] + x;
      if MapThrowing(b, step).Ok? {
        var z := MapThrowing(b, step).value;
        assert [y] + (x + z) == ([y] + x) + z;
      }
    }
  }

  /** A field for each defined entry; an undefined value is dropped, as JSON serialisation drops it. */
  function OptField(key: string, v: Option<Json>): seq<Field> {
    match v
    case None => []
    case Some(x) => [Field(key, x)]
  }

  /** JavaScript's ToBoolean on a JSON value. */
  predicate Truthy(v: Json) {
    match v
    case JNull => false
    case JBool(b) => b
    case JNum(n) => n != 0
    case JStr(s) => s != ""
    case JArr(_) => true
    case JObj(_) => true
  }

  /** ToBoolean on a possibly undefined value: undefined is falsy. */
  predicate TruthyOpt(v: Option<Json>) {
    v.Some? && Truthy(v.value)
  }

  /** The message of the TypeError thrown by reading a property of null or undefined. */
  function ReadError(target: string, name: string): string {
    "Cannot read properties of " + target + " (reading '" + name + "')"
  }

  /** The message of the TypeError thrown by destructuring null or undefined. */
  function DestructureError(name: string, variable: string, target: string): string {
    "Cannot destructure property '" + name + "' of '" + variable + "' as it is " + target + "."
  }

  /**
   A property read from a value known to be neither null nor undefined, as
   destructuring does: an object's own property, and undefined on every other
   value.
   */
  function Member(v: Json, key: string): Option<Json> {
    if v.JObj? then Get(v.fields, key) else None
  }

  /**
   Property read `target.name`: throws on undefined and null, finds the own
   property of an object, and is undefined on every other value.
   */
  function ReadProperty(target: Option<Json>, name: string): (r: Outcome<Option<Json>>)
    ensures r.Thrown? <==> target == None || target == Some(JNull)
    ensures target == None ==> r == Thrown(ReadError("undefined", name))
    ensures target == Some(JNull) ==> r == Thrown(ReadError("null", name))
    ensures target.Some? && target.value != JNull ==> r == Ok(Member(target.value, name))
    ensures target.Some? && target.value.JObj? ==> r == Ok(Get(target.value.fields, name))
    ensures target.Some? && target.value != JNull && !target.value.JObj? ==> r == Ok(None)
  {
    match target
    case None => Thrown(ReadError("undefined", name))
    case Some(JNull) => Thrown(ReadError("null", name))
    case Some(JObj(fields)) => Ok(Get(fields, name))
    case Some(_) => Ok(None)
  }

  /** Decimal digits of a natural number. */
  function NatToString(n: nat): (s: string)
    ensures |s| > 0
    ensures forall i :: 0 <= i < |s| ==> '0' <= s[i] <= '9'
    decreases n
  {
    var d := ['0' + (n % 10) as char];
    if n < 10 then d else NatToString(n / 10) + d
  }

  function IntToString(i: int): string {
    if i < 0 then "-" + NatToString(-i) else NatToString(i)
  }

  function Join(parts: seq<string>, sep: string): string
    decreases |parts|
  {
    if |parts| == 0 then ""
    else if |parts| == 1 then parts[0]
    else parts[0] + sep + Join(parts[1..], sep)
  }

  /** `String(v)` on a JSON value; an array joins its elements with commas, null elements as empty. */
  function JsonToString(v: Json): string
    decreases v
  {
    match v
    case JNull => "null"
    case JBool(b) => if b then "true" else "false"
    case JNum(n) => IntToString(n)
    case JStr(s) => s
    case JArr(items) =>
      Join(seq(|items|, i requires 0 <= i < |items| =>
             if items[i] == JNull then "" else JsonToString(items[i])), ",")
    case JObj(_) => "[object Object]"
  }

  /** `String(v)` on a possibly undefined value, as a template literal renders it. */
  function ToJsString(v: Option<Json>): string {
    match v
    case None => "undefined"
    case Some(x) => JsonToString(x)
  }

  /** `s.startsWith(prefix)`. */
  predicate StartsWith(s: string, prefix: string) {
    |prefix| <= |s| && s[..|prefix|] == prefix
  }

  /** How `slice` turns a relative index into a position: negative counts from the end, both clamp. */
  function ClampIndex(len: nat, rel: int): (p: nat)
    ensures p <= len
  {
    if rel < 0 then (if len + rel < 0 then 0 else len + rel)
    else if rel > len then len
    else rel
  }

  /** `s.slice(start, end)`: empty when the clamped start is not before the clamped end. */
  function Slice(s: string, start: int, end: int): string {
    var a := ClampIndex(|s|, start);
    var b := ClampIndex(|s|, end);
    if a < b then s[a..b] else ""
  }

  /** The characters `trim` removes: WhiteSpace and LineTerminator of ECMAScript. */
  predicate IsWhitespace(c: char) {
    || ('\t' <= c <= '\r') || c == ' ' || c == '\U{00A0}' || c == '\U{1680}'
    || ('\U{2000}' <= c <= '\U{200A}') || c == '\U{2028}' || c == '\U{2029}'
    || c == '\U{202F}' || c == '\U{205F}' || c == '\U{3000}' || c == '\U{FEFF}'
  }

  predicate AllWhitespace(s: string) {
    forall i :: 0 <= i < |s| ==> IsWhitespace(s[i])
  }

  /** Drops the leading whitespace. */
  function TrimStart(s: string): string
    decreases |s|
  {
    if |s| > 0 && IsWhitespace(s[0]) then TrimStart(s[1..]) else s
  }

  /** Drops the trailing whitespace. */
  function TrimEnd(s: string): string
    decreases |s|
  {
    if |s| > 0 && IsWhitespace(s[|s| - 1]) then TrimEnd(s[..|s| - 1]) else s
  }

  /** `TrimStart` leaves a suffix that does not start with whitespace, and drops only whitespace. */
  lemma {:induction false} TrimStartShape(s: string)
    ensures var r := TrimStart(s);
      |r| <= |s| && r == s[|s| - |r|..] && AllWhitespace(s[..|s| - |r|]) &&
      (r == [] || !IsWhitespace(r[0]))
    decreases |s|
  {
    if |s| > 0 && IsWhitespace(s[0]) {
      var t := s[1..];
      TrimStartShape(t);
      var r := TrimStart(t);
      assert TrimStart(s) == r;
      assert t[|t| - |r|..] == s[|s| - |r|..];
      var dropped := s[..|s| - |r|];
      assert dropped == [s[0]] + t[..|t| - |r|];
      forall i | 0 <= i < |dropped|
        ensures IsWhitespace(dropped[i])
      {
        if i > 0 {
          assert dropped[i] == t[..|t| - |r|][i - 1];
        }
      }
    }
  }

  /** `TrimEnd` leaves a prefix that does not end with whitespace, and drops only whitespace. */
  lemma {:induction false} TrimEndShape(s: string)
    ensures var r := TrimEnd(s);
      |r| <= |s| && r == s[..|r|] && AllWhitespace(s[|r|..]) &&
      (r == [] || !IsWhitespace(r[|r| - 1]))
    decreases |s|
  {
    if |s| > 0 && IsWhitespace(s[|s| - 1]) {
      var t := s[..|s| - 1];
      TrimEndShape(t);
      var r := TrimEnd(t);
      assert TrimEnd(s) == r;
      assert t[..|r|] == s[..|r|];
      var dropped := s[|r|..];
      assert dropped == t[|r|..] + [s[|s| - 1]];
      forall i | 0 <= i < |dropped|
        ensures IsWhitespace(dropped[i])
      {
        if i < |t| - |r| {
          assert dropped[i] == t[|r|..][i];
        }
      }
    }
  }

  /** `s.trim()`. */
  function Trim(s: string): string {
    TrimEnd(TrimStart(s))
  }

  /**
   `trim` removes exactly the whitespace around a core that neither starts nor
   ends with whitespace: whatever padding surrounds `core`, the core comes back.
   */
  lemma {:induction false} TrimPadded(pre: string, core: string, post: string)
    requires AllWhitespace(pre) && AllWhitespace(post)
    requires core == [] || (!IsWhitespace(core[0]) && !IsWhitespace(core[|core| - 1]))
    ensures Trim(pre + core + post) == core
  {
    if core == [] {
      var s := pre + post;
      assert pre + core + post == s;
      assert AllWhitespace(s) by {
        forall i | 0 <= i < |s| ensures IsWhitespace(s[i]) {
          if i >= |pre| { assert s[i] == post[i - |pre|]; }
        }
      }
      TrimStartShape(s);
    } else {
      assert (core + post)[0] == core[0];
      assert pre + core + post == pre + (core + post);
      TrimStartPadded(pre, core + post);
      TrimEndPadded(core, post);
    }
  }

  lemma {:induction false} TrimStartPadded(pre: string, rest: string)
    requires AllWhitespace(pre)
    requires rest == [] || !IsWhitespace(rest[0])
    ensures TrimStart(pre + rest) == rest
    decreases |pre|
  {
    if |pre| > 0 {
      assert (pre + rest)[1..] == pre[1..] + rest;
      TrimStartPadded(pre[1..], rest);
    } else {
      assert pre + rest == rest;
    }
  }

  lemma {:induction false} TrimEndPadded(core: string, post: string)
    requires AllWhitespace(post)
    requires core == [] || !IsWhitespace(core[|core| - 1])
    ensures TrimEnd(core + post) == core
    decreases |post|
  {
    if |post| > 0 {
      assert (core + post)[..|core + post| - 1] == core + post[..|post| - 1];
      TrimEndPadded(core, post[..|post| - 1]);
    } else {
      assert core + post == core;
    }
  }
}
