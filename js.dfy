/** The part of JavaScript's value semantics that the skill's code relies on:
    optional values, the attribute values a DynamoDB document holds, truthiness,
    `x || 0`, the truncating remainder `%`, and `toLowerCase`/`toUpperCase` on
    the characters the game's texts use (ASCII and Latin-1). */
module Js {

  datatype Option<+T> = None | Some(value: T) {
    /** `x || d` for an optional value whose present values are all truthy. */
    function GetOr(default: T): T {
      match this
      case Some(v) => v
      case None => default
    }
  }

  /** A value stored in a DynamoDB attribute (or held by a plain JS object). */
  datatype Value = Null | Bool(b: bool) | Num(n: int) | Str(s: string)

  /** JavaScript truthiness of a value. */
  predicate TruthyValue(v: Value) {
    match v
    case Null => false
    case Bool(b) => b
    case Num(n) => n != 0
    case Str(s) => s != ""
  }

  /** `item.f` is truthy; an absent attribute is `undefined`, which is falsy. */
  predicate Truthy<K(==)>(item: map<K, Value>, f: K) {
    f in item && TruthyValue(item[f])
  }

  /** `item.f || 0` for an attribute that holds a number whenever it holds anything else than null. */
  function NumOr0<K(==)>(item: map<K, Value>, f: K): (n: int)
    ensures f in item && item[f].Num? ==> n == item[f].n
    ensures f !in item || !item[f].Num? ==> n == 0
  {
    if f in item && item[f].Num? then item[f].n else 0
  }

  /** Whether every character of `s` is an ASCII digit. */
  predicate Digitos(s: string) {
    forall i :: 0 <= i < |s| ==> '0' <= s[i] <= '9'
  }

  /** The value of a string of ASCII digits, read in base 10. */
  function ValorDecimal(s: string): (v: nat)
    requires Digitos(s)
    ensures s == [] ==> v == 0
  {
    if s == [] then 0 else 10 * ValorDecimal(s[..|s| - 1]) + (s[|s| - 1] as int - '0' as int)
  }

  /** `Number(s)` for the empty string and for strings of decimal digits; None (NaN) for
      every other string. */
  function NumeroDeTexto(s: string): (r: Option<int>)
    ensures s == "" ==> r == Some(0)
    ensures r.Some? <==> Digitos(s)
    ensures r.Some? ==> r.value >= 0
  {
    if Digitos(s) then Some(ValorDecimal(s)) else None
  }

  /** `item.f >= n` in JavaScript: undefined compares false, null counts as 0, a boolean as
      0 or 1, and a string as the number it spells (the empty string as 0); a string that
      is not a numeral is NaN and compares false. */
  predicate GeRaw<K(==)>(item: map<K, Value>, f: K, n: int) {
    f in item &&
    match item[f]
    case Num(m) => m >= n
    case Null => 0 >= n
    case Bool(b) => (if b then 1 else 0) >= n
    case Str(s) => NumeroDeTexto(s).Some? && NumeroDeTexto(s).value >= n
  }

  /** A numeral string compares by its value, the empty string as 0, any other string as NaN. */
  lemma GeRawTexto()
    ensures GeRaw(map[0 := Str("3")], 0, 2)
    ensures GeRaw(map[0 := Str("")], 0, 0)
    ensures !GeRaw(map[0 := Str("3")], 0, 4)
    ensures !GeRaw(map[0 := Str("x")], 0, 0)
  {
    assert ValorDecimal("3") == 3 by {
      assert "3"[..0] == "";
    }
    assert !Digitos("x") by {
      assert !('0' <= "x"[0] <= '9');
    }
  }

  /** `v || d` for an optional value (None is `undefined`). */
  function OrValue(v: Option<Value>, d: Value): (r: Value)
    ensures v.Some? && TruthyValue(v.value) ==> r == v.value
    ensures v.None? || !TruthyValue(v.value) ==> r == d
  {
    if v.Some? && TruthyValue(v.value) then v.value else d
  }

  /** The attribute `item.f`, or None when it is undefined. */
  function Get<K(==)>(item: map<K, Value>, f: K): Option<Value> {
    if f in item then Some(item[f]) else None
  }

  /** `Array.prototype.filter` with a side-effect-free predicate. */
  function Filtrar<T>(s: seq<T>, p: T -> bool): seq<T>
  {
    if s == [] then [] else (if p(s[0]) then [s[0]] else []) + Filtrar(s[1..], p)
  }

  /** `filter` keeps exactly the elements that satisfy the predicate, and never lengthens. */
  lemma {:induction false} FiltrarExacto<T>(s: seq<T>, p: T -> bool)
    ensures forall x :: x in Filtrar(s, p) <==> x in s && p(x)
    ensures |Filtrar(s, p)| <= |s|
  {
    if s != [] {
      FiltrarExacto(s[1..], p);
      assert s == [s[0]] + s[1..];
    }
  }

  /** `filter` distributes over concatenation, so it keeps the elements in their order. */
  lemma {:induction false} FiltrarConcat<T>(a: seq<T>, b: seq<T>, p: T -> bool)
    ensures Filtrar(a + b, p) == Filtrar(a, p) + Filtrar(b, p)
  {
    if a == [] {
      assert a + b == b;
    } else {
      var c := a + b;
      assert c[0] == a[0];
      assert c[1..] == a[1..] + b;
      FiltrarConcat(a[1..], b, p);
      var cabeza := if p(a[0]) then [a[0]] else [];
      calc {
        Filtrar(c, p);
        cabeza + Filtrar(a[1..] + b, p);
        cabeza + (Filtrar(a[1..], p) + Filtrar(b, p));
        (cabeza + Filtrar(a[1..], p)) + Filtrar(b, p);
        Filtrar(a, p) + Filtrar(b, p);
      }
    }
  }

  /** An element that satisfies the predicate and comes first in `s` comes first in the result. */
  lemma {:induction false} FiltrarPrimero<T>(s: seq<T>, p: T -> bool, i: nat)
    requires i < |s| && p(s[i])
    requires forall j :: 0 <= j < i ==> !p(s[j])
    ensures |Filtrar(s, p)| > 0 && Filtrar(s, p)[0] == s[i]
  {
    if i > 0 {
      FiltrarPrimero(s[1..], p, i - 1);
    }
  }

  /** `x || d` on an optional string: an absent or empty string gives `d`. */
  function OrStr(x: Option<string>, d: string): (r: string)
    ensures x.Some? && x.value != "" ==> r == x.value
    ensures x.None? || x.value == "" ==> r == d
  {
    if x.Some? && x.value != "" then x.value else d
  }

  /** JavaScript's `%` for a positive divisor: the remainder takes the sign of the dividend. */
  function JsRem(a: int, m: int): (r: int)
    requires m > 0
    ensures -m < r < m
    ensures a >= 0 ==> r == a % m
    ensures a < 0 ==> r <= 0
  {
    if a >= 0 then a % m else -((-a) % m)
  }

  lemma {:induction false} ModDesplazado(x: int, n: int)
    requires x >= 0 && n >= 0
    ensures (x + 26 * n) % 26 == x % 26
  {
    if n > 0 {
      ModDesplazado(x, n - 1);
      assert x + 26 * n == (x + 26 * (n - 1)) + 26;
    }
  }

  /** Shifting a letter's offset by `k` and then by `26 - k % 26`, each time with
      JavaScript's `%`, gives the offset back. */
  lemma RotacionInversa(a: int, k: int)
    requires 0 <= a < 26 && k >= 0
    ensures 0 <= JsRem(a + k, 26) < 26
    ensures JsRem(JsRem(a + k, 26) + (26 - k % 26), 26) == a
  {
    var q := k % 26;
    assert k == 26 * (k / 26) + q;
    assert (a + k) % 26 == (a + q) % 26 by {
      ModDesplazado(a + q, k / 26);
    }
    var b := (a + q) % 26;
    assert b == if a + q < 26 then a + q else a + q - 26;
    assert (b + 26 - q) % 26 == a by {
      if a + q < 26 { ModDesplazado(a, 1); } else { assert b + 26 - q == a; }
    }
  }

  predicate IsAsciiUpper(c: char) { 'A' <= c <= 'Z' }
  predicate IsAsciiLower(c: char) { 'a' <= c <= 'z' }

  /** `toLowerCase` on one character, for ASCII and the Latin-1 letters. */
  function LowerChar(c: char): char {
    if 'A' <= c <= 'Z' || ('À' <= c <= 'Þ' && c != '×') then
      (c as int + 32) as char
    else c
  }

  /** `toUpperCase` on one character, for ASCII and the Latin-1 letters whose upper case is
      one character: 'à'..'þ' move down by 32, 'ÿ' becomes 'Ÿ' (U+0178) and the micro sign
      'µ' becomes the Greek capital mu (U+039C). */
  function UpperChar(c: char): char {
    if 'a' <= c <= 'z' || ('à' <= c <= 'þ' && c != '÷') then
      (c as int - 32) as char
    else if c == '\U{00FF}' then '\U{0178}'
    else if c == '\U{00B5}' then '\U{039C}'
    else c
  }

  function ToLowerCase(s: string): (r: string)
    ensures |r| == |s|
    ensures forall i :: 0 <= i < |s| ==> r[i] == LowerChar(s[i])
  {
    seq(|s|, i requires 0 <= i < |s| => LowerChar(s[i]))
  }

  function ToUpperCase(s: string): (r: string)
    ensures |r| == |s|
    ensures forall i :: 0 <= i < |s| ==> r[i] == UpperChar(s[i])
  {
    seq(|s|, i requires 0 <= i < |s| => UpperChar(s[i]))
  }

  lemma LowerCharIdempotent(c: char)
    ensures LowerChar(LowerChar(c)) == LowerChar(c)
    ensures !IsAsciiUpper(LowerChar(c))
  {
  }

  lemma UpperCharIdempotent(c: char)
    ensures UpperChar(UpperChar(c)) == UpperChar(c)
    ensures !IsAsciiLower(UpperChar(c))
  {
  }

  /** Case mapping keeps ASCII letters ASCII letters and leaves every other ASCII character alone. */
  lemma UpperCharAscii(c: char)
    ensures IsAsciiUpper(UpperChar(c)) <==> IsAsciiUpper(c) || IsAsciiLower(c)
  {
  }

  /** `s.toUpperCase()` is a fixed point of `toUpperCase`. */
  lemma ToUpperCaseIdempotent(s: string)
    ensures ToUpperCase(ToUpperCase(s)) == ToUpperCase(s)
  {
    forall i | 0 <= i < |s| ensures ToUpperCase(ToUpperCase(s))[i] == ToUpperCase(s)[i] {
      UpperCharIdempotent(s[i]);
    }
  }

  /** `s.toLowerCase()` contains no upper-case letter. */
  lemma ToLowerCaseIsLower(s: string)
    ensures forall i :: 0 <= i < |ToLowerCase(s)| ==> LowerChar(ToLowerCase(s)[i]) == ToLowerCase(s)[i]
  {
    forall i | 0 <= i < |s| ensures LowerChar(ToLowerCase(s)[i]) == ToLowerCase(s)[i] {
      LowerCharIdempotent(s[i]);
    }
  }
}
