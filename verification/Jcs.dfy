/** The canonical JSON encoder of `integration/jcs.py`. */
module Jcs {
  import opened Json
  import opened Ordering

  // ---- Strings ----

  function HexDigit(d: nat): char
    requires d < 16
  {
    (if d < 10 then '0' as int + d else 'a' as int + (d - 10)) as char
  }

  function EscapeChar(c: char): string {
    if c == '\\' then "\\\\"
    else if c == '\"' then "\\\""
    else if c as int == 8 then "\\b"
    else if c as int == 12 then "\\f"
    else if c == '\n' then "\\n"
    else if c == '\r' then "\\r"
    else if c == '\t' then "\\t"
    else if c as int < 0x20 then "\\u00" + [HexDigit(c as int / 16), HexDigit(c as int % 16)]
    else [c]
  }

  function EscapeChars(s: string): string {
    if s == [] then [] else EscapeChar(s[0]) + EscapeChars(s[1..])
  }

  function Quote(s: string): string { "\"" + EscapeChars(s) + "\"" }

  // ---- Numbers ----

  function Digit(d: nat): char
    requires d < 10
  {
    ('0' as int + d) as char
  }

  function Digits(n: nat): string {
    if n < 10 then [Digit(n)] else Digits(n / 10) + [Digit(n % 10)]
  }

  function Zeros(k: nat): string { seq(k, _ => '0') }

  function StripRight(s: string, c: char): string {
    if s != [] && s[|s| - 1] == c then StripRight(s[..|s| - 1], c) else s
  }

  function FormatFraction(digits: string, exp: int): string
    requires exp < 0
  {
    var point := |digits| + exp;
    var s := if point > 0 then digits[..point] + "." + digits[point..] else "0." + Zeros(-point) + digits;
    StripRight(StripRight(s, '0'), '.')
  }

  function FormatNumber(n: Decimal): string {
    var digits := Digits(n.coef);
    if n.exp >= 0 then (if n.neg then "-" else "") + digits + Zeros(n.exp)
    else
      var s := FormatFraction(digits, n.exp);
      if n.neg && s != "0" then "-" + s else s
  }

  // ---- Values ----

  /** `sorted(obj.keys())`: by code point. */
  function KeysOf(j: Json): (ks: seq<string>)
    requires j.Obj?
    ensures forall k :: k in ks <==> k in j.fields
  {
    StrLeIsTotalOrder();
    SortedSet(j.fields.Keys, StrLe)
  }

  function Encode(j: Json): string
    decreases j, 1, 0
  {
    match j
    case Null => "null"
    case Bool(b) => if b then "true" else "false"
    case Num(n) => FormatNumber(n)
    case Str(s) => Quote(s)
    case Arr(items) => "[" + EncodeItems(items) + "]"
    case Obj(fields) =>
      "{" + EncodeFields(j, KeysOf(j)) + "}"
  }

  function EncodeItems(items: seq<Json>): string
    decreases items, 0, 0
  {
    if items == [] then ""
    else if |items| == 1 then Encode(items[0])
    else Encode(items[0]) + "," + EncodeItems(items[1..])
  }

  function EncodeField(j: Json, key: string): string
    requires j.Obj? && key in j.fields
    decreases j, 0, 0
  {
    Quote(key) + ":" + Encode(j.fields[key])
  }

  function EncodeFields(j: Json, keys: seq<string>): string
    requires j.Obj? && forall k :: k in keys ==> k in j.fields
    decreases j, 0, |keys| + 1
  {
    if keys == [] then ""
    else if |keys| == 1 then EncodeField(j, keys[0])
    else EncodeField(j, keys[0]) + "," + EncodeFields(j, keys[1..])
  }

  // ---- Unique decodability: strings ----

  function HexValue(h: char): nat {
    if '0' <= h <= '9' then h as int - '0' as int
    else if 'a' <= h <= 'f' then h as int - 'a' as int + 10
    else 0
  }

  // The character an escaped text starts with, and how much of the text it takes.
  function Unescape(u: string): (char, nat)
    requires |u| >= 2
  {
    if u[0] != '\\' then (u[0], 1)
    else if u[1] == 'b' then (8 as char, 2)
    else if u[1] == 'f' then (12 as char, 2)
    else if u[1] == 'n' then ('\n', 2)
    else if u[1] == 'r' then ('\r', 2)
    else if u[1] == 't' then ('\t', 2)
    else if u[1] == 'u' && |u| >= 6 then ((16 * HexValue(u[4]) + HexValue(u[5])) as char, 6)
    else (u[1], 2)
  }

  lemma UnescapeEscape(c: char, x: string)
    requires x != []
    ensures Unescape(EscapeChar(c) + x) == (c, |EscapeChar(c)|)
  {
    var u := EscapeChar(c) + x;
    assert u[0] == EscapeChar(c)[0];
    if |EscapeChar(c)| == 6 {
      assert u[4] == HexDigit(c as int / 16) && u[5] == HexDigit(c as int % 16);
      assert u[1] == 'u';
    } else if |EscapeChar(c)| == 2 {
      assert u[1] == EscapeChar(c)[1];
    }
  }

  lemma EscapePrefixFree(c: char, d: char, x: string, y: string)
    requires EscapeChar(c) + x == EscapeChar(d) + y && x != [] && y != []
    ensures c == d && x == y
  {
    UnescapeEscape(c, x);
    UnescapeEscape(d, y);
    var n := |EscapeChar(c)|;
    assert x == (EscapeChar(c) + x)[n..] && y == (EscapeChar(d) + y)[n..];
  }

  // A quoted body followed by its closing quote and anything else.
  function Closed(s: string, x: string): string { EscapeChars(s) + "\"" + x }

  lemma ClosedStep(s: string, x: string)
    requires s != []
    ensures Closed(s, x) == EscapeChar(s[0]) + Closed(s[1..], x)
    ensures Closed(s, x)[0] != '\"'
  {
    assert EscapeChars(s) == EscapeChar(s[0]) + EscapeChars(s[1..]);
    assert EscapeChar(s[0])[0] != '\"';
  }

  lemma {:induction false} EscapeInjective(s: string, t: string, x: string, y: string)
    requires Closed(s, x) == Closed(t, y)
    ensures s == t && x == y
  {
    if s != [] { ClosedStep(s, x); }
    if t != [] { ClosedStep(t, y); }
    if s == [] || t == [] {
      assert Closed(s, x)[0] == Closed(t, y)[0];
      assert x == Closed(s, x)[1..] && y == Closed(t, y)[1..];
    } else {
      EscapePrefixFree(s[0], t[0], Closed(s[1..], x), Closed(t[1..], y));
      EscapeInjective(s[1..], t[1..], x, y);
      assert s == [s[0]] + s[1..] && t == [t[0]] + t[1..];
    }
  }

  lemma QuoteInjective(s: string, t: string, x: string, y: string)
    requires Quote(s) + x == Quote(t) + y
    ensures s == t && x == y
  {
    var u, v := Quote(s) + x, Quote(t) + y;
    assert u[1..] == Closed(s, x) && v[1..] == Closed(t, y);
    EscapeInjective(s, t, x, y);
  }

  // ---- Unique decodability: numbers ----

  predicate IsDigitChar(c: char) { '0' <= c <= '9' }

  predicate IsNumberChar(c: char) { IsDigitChar(c) || c == '-' || c == '.' }

  ghost predicate AllDigits(s: string) { forall i :: 0 <= i < |s| ==> IsDigitChar(s[i]) }

  ghost predicate AllNumberChars(s: string) { forall i :: 0 <= i < |s| ==> IsNumberChar(s[i]) }

  // What may follow a value: the end, or a character no number contains.
  predicate Delimited(x: string) { x == [] || !IsNumberChar(x[0]) }

  lemma {:induction false} DigitsShape(n: nat)
    ensures AllDigits(Digits(n)) && |Digits(n)| >= 1
    ensures Digits(n)[|Digits(n)| - 1] == Digit(n % 10)
    ensures n > 0 ==> Digits(n)[0] != '0'
  {
    if n >= 10 { DigitsShape(n / 10); }
  }

  lemma {:induction false} DigitsInjective(m: nat, n: nat)
    requires Digits(m) == Digits(n)
    ensures m == n
  {
    DigitsShape(m);
    DigitsShape(n);
    if m >= 10 { DigitsShape(m / 10); }
    if n >= 10 { DigitsShape(n / 10); }
    if m >= 10 && n >= 10 {
      assert Digits(m / 10) == Digits(m)[..|Digits(m)| - 1] == Digits(n / 10);
      DigitsInjective(m / 10, n / 10);
    }
  }

  // How many leading characters satisfy p, and how many zeros end the text.
  function Run(s: string, p: char -> bool): nat {
    if s != [] && p(s[0]) then 1 + Run(s[1..], p) else 0
  }

  function TrailingZeros(s: string): nat {
    if s != [] && s[|s| - 1] == '0' then 1 + TrailingZeros(s[..|s| - 1]) else 0
  }

  lemma {:induction false} RunOf(f: string, x: string, p: char -> bool)
    requires forall i :: 0 <= i < |f| ==> p(f[i])
    requires x == [] || !p(x[0])
    ensures Run(f + x, p) == |f|
  {
    if f == [] {
      assert f + x == x;
    } else {
      assert (f + x)[1..] == f[1..] + x;
      RunOf(f[1..], x, p);
    }
  }

  lemma {:induction false} TrailingZerosOf(s: string, e: nat)
    requires s != [] && s[|s| - 1] != '0'
    ensures TrailingZeros(s + Zeros(e)) == e
  {
    if e == 0 {
      assert s + Zeros(e) == s;
    } else {
      assert (s + Zeros(e))[..|s| + e - 1] == s + Zeros(e - 1);
      TrailingZerosOf(s, e - 1);
    }
  }

  lemma MaximalRun(f: string, x: string, g: string, y: string, p: char -> bool)
    requires f + x == g + y
    requires (forall i :: 0 <= i < |f| ==> p(f[i])) && (forall i :: 0 <= i < |g| ==> p(g[i]))
    requires (x == [] || !p(x[0])) && (y == [] || !p(y[0]))
    ensures f == g && x == y
  {
    RunOf(f, x, p);
    RunOf(g, y, p);
    assert f == (f + x)[..|f|] && g == (g + y)[..|g|];
    assert x == (f + x)[|f|..] && y == (g + y)[|g|..];
  }

  // Padding never hides digits: the last and first digits of a coefficient are not zero.
  lemma TrailingZerosInjective(c: nat, e: nat, d: nat, f: nat)
    requires Digits(c) + Zeros(e) == Digits(d) + Zeros(f)
    requires c % 10 != 0 && d % 10 != 0
    ensures c == d && e == f
  {
    DigitsShape(c);
    DigitsShape(d);
    TrailingZerosOf(Digits(c), e);
    TrailingZerosOf(Digits(d), f);
    var u, v := Digits(c) + Zeros(e), Digits(d) + Zeros(f);
    assert Digits(c) == u[..|u| - e] && Digits(d) == v[..|v| - f];
    DigitsInjective(c, d);
  }

  lemma LeadingZerosInjective(p: nat, c: nat, q: nat, d: nat)
    requires Zeros(p) + Digits(c) == Zeros(q) + Digits(d) && c > 0 && d > 0
    ensures c == d
  {
    DigitsShape(c);
    DigitsShape(d);
    MaximalRun(Zeros(p), Digits(c), Zeros(q), Digits(d), z => z == '0');
    DigitsInjective(c, d);
  }

  /** A fraction prints as `whole.part` with as many places as the exponent asks for. */
  lemma FractionShape(digits: string, exp: int) returns (whole: string, part: string, pad: nat)
    requires exp < 0 && digits != [] && AllDigits(digits) && digits[|digits| - 1] != '0'
    ensures FormatFraction(digits, exp) == whole + "." + part
    ensures AllDigits(whole) && AllDigits(part) && |whole| >= 1 && |part| == -exp
    ensures whole + part == Zeros(pad) + digits
  {
    var point := |digits| + exp;
    if point > 0 {
      whole, part, pad := digits[..point], digits[point..], 0;
      assert whole + part == digits == Zeros(pad) + digits;
    } else {
      whole, part, pad := "0", Zeros(-point) + digits, 1 - point;
      assert whole + part == Zeros(pad) + digits;
      assert "0." + Zeros(-point) + digits == whole + "." + part;
    }
    NothingToStrip(whole + "." + part);
  }

  lemma NothingToStrip(s: string)
    requires s != [] && s[|s| - 1] != '0' && s[|s| - 1] != '.'
    ensures StripRight(StripRight(s, '0'), '.') == s
  {
  }

  lemma PointInjective(w: string, p: string, x: string, q: string)
    requires w + "." + p == x + "." + q && AllDigits(w) && AllDigits(x)
    ensures w == x && p == q
  {
    assert w + ("." + p) == w + "." + p && x + ("." + q) == x + "." + q;
    MaximalRun(w, "." + p, x, "." + q, IsDigitChar);
    assert p == ("." + p)[1..] && q == ("." + q)[1..];
  }

  lemma FractionInjective(c: nat, e: int, d: nat, f: int)
    requires c % 10 != 0 && e < 0 && d % 10 != 0 && f < 0
    requires FormatFraction(Digits(c), e) == FormatFraction(Digits(d), f)
    ensures c == d && e == f
  {
    DigitsShape(c);
    DigitsShape(d);
    var w, p, m := FractionShape(Digits(c), e);
    var x, q, n := FractionShape(Digits(d), f);
    assert w == x && p == q by { PointInjective(w, p, x, q); }
    assert c == d by { LeadingZerosInjective(m, c, n, d); }
  }

  // The text without its sign.
  function Unsigned(n: Decimal): string {
    if n.exp >= 0 then Digits(n.coef) + Zeros(n.exp) else FormatFraction(Digits(n.coef), n.exp)
  }

  lemma UnsignedShape(n: Decimal)
    ensures Unsigned(n) != [] && IsDigitChar(Unsigned(n)[0]) && AllNumberChars(Unsigned(n))
    ensures n.exp < 0 ==> n.coef % 10 != 0 && '.' in Unsigned(n)
    ensures n.exp >= 0 ==> AllDigits(Unsigned(n))
  {
    DigitsShape(n.coef);
    if n.exp < 0 {
      var w, p, m := FractionShape(Digits(n.coef), n.exp);
      assert (w + "." + p)[|w|] == '.';
    }
  }

  lemma NumberShape(n: Decimal)
    ensures FormatNumber(n) == (if n.neg then "-" else "") + Unsigned(n)
  {
    UnsignedShape(n);
    assert "" + Unsigned(n) == Unsigned(n);
    if n.exp >= 0 {
      assert (if n.neg then "-" else "") + Digits(n.coef) + Zeros(n.exp)
          == (if n.neg then "-" else "") + Unsigned(n);
    } else if Unsigned(n) == "0" {
      assert false;
    }
  }

  lemma UnsignedInjective(m: Decimal, n: Decimal)
    requires Unsigned(m) == Unsigned(n)
    ensures m.coef == n.coef && m.exp == n.exp
  {
    UnsignedShape(m);
    UnsignedShape(n);
    assert !IsDigitChar('.');
    if m.exp < 0 {
      FractionInjective(m.coef, m.exp, n.coef, n.exp);
    } else if m.coef != 0 && n.coef != 0 {
      TrailingZerosInjective(m.coef, m.exp, n.coef, n.exp);
    } else {
      DigitsShape(m.coef);
      DigitsShape(n.coef);
      assert Unsigned(m)[0] == Digits(m.coef)[0] && Unsigned(n)[0] == Digits(n.coef)[0];
    }
  }

  lemma NumberInjective(m: Decimal, n: Decimal, x: string, y: string)
    requires FormatNumber(m) + x == FormatNumber(n) + y && Delimited(x) && Delimited(y)
    ensures m == n && x == y
  {
    NumberShape(m);
    NumberShape(n);
    UnsignedShape(m);
    UnsignedShape(n);
    var f, g := FormatNumber(m), FormatNumber(n);
    MaximalRun(f, x, g, y, IsNumberChar);
    assert m.neg == (f[0] == '-') && n.neg == (g[0] == '-');
    assert Unsigned(m) == f[if m.neg then 1 else 0..] && Unsigned(n) == g[if n.neg then 1 else 0..];
    UnsignedInjective(m, n);
  }

  // ---- Unique decodability: values ----

  lemma HeadOf(j: Json)
    ensures Encode(j) != []
    ensures match j
            case Null => Encode(j)[0] == 'n'
            case Bool(b) => Encode(j)[0] == if b then 't' else 'f'
            case Num(n) => IsDigitChar(Encode(j)[0]) || Encode(j)[0] == '-'
            case Str(s) => Encode(j)[0] == '\"'
            case Arr(items) => Encode(j)[0] == '['
            case Obj(fields) => Encode(j)[0] == '{'
  {
    if j.Num? { NumberShape(j.n); UnsignedShape(j.n); }
  }

  // What is left of an array (an object) after its opening bracket.
  function ItemsTail(items: seq<Json>, x: string): string { EncodeItems(items) + "]" + x }

  function AfterItem(items: seq<Json>, x: string): string
    requires items != []
  {
    if |items| == 1 then "]" + x else "," + ItemsTail(items[1..], x)
  }

  function FieldsTail(j: Json, keys: seq<string>, x: string): string
    requires j.Obj? && forall k :: k in keys ==> k in j.fields
  {
    EncodeFields(j, keys) + "}" + x
  }

  function AfterField(j: Json, keys: seq<string>, x: string): string
    requires j.Obj? && keys != [] && forall k :: k in keys ==> k in j.fields
  {
    if |keys| == 1 then "}" + x else "," + FieldsTail(j, keys[1..], x)
  }

  lemma Regroup(e: string, c: string, r: string, d: string, x: string)
    ensures e + c + r + d + x == e + (c + (r + d + x))
    ensures c + r + d + x == c + (r + d + x)
  {
  }

  lemma ItemsStep(items: seq<Json>, x: string)
    requires items != []
    ensures ItemsTail(items, x) == Encode(items[0]) + AfterItem(items, x)
  {
    if |items| > 1 {
      Regroup(Encode(items[0]), ",", EncodeItems(items[1..]), "]", x);
    } else {
      Regroup(Encode(items[0]), "", "", "]", x);
    }
  }

  lemma FieldsSplit(j: Json, keys: seq<string>, x: string)
    requires j.Obj? && keys != [] && forall k :: k in keys ==> k in j.fields
    ensures FieldsTail(j, keys, x) == EncodeField(j, keys[0]) + AfterField(j, keys, x)
  {
    var e := EncodeField(j, keys[0]);
    if |keys| > 1 {
      Regroup(e, ",", EncodeFields(j, keys[1..]), "}", x);
    } else {
      Regroup(e, "", "", "}", x);
    }
  }

  lemma RegroupField(q: string, e: string, t: string)
    ensures q + ":" + e + t == q + (":" + (e + t))
  {
  }

  lemma FieldsStep(j: Json, keys: seq<string>, x: string)
    requires j.Obj? && keys != [] && forall k :: k in keys ==> k in j.fields
    ensures FieldsTail(j, keys, x)
         == Quote(keys[0]) + (":" + (Encode(j.fields[keys[0]]) + AfterField(j, keys, x)))
  {
    FieldsSplit(j, keys, x);
    RegroupField(Quote(keys[0]), Encode(j.fields[keys[0]]), AfterField(j, keys, x));
  }

  // The first character tells the kind of value.
  function KindOf(c: char): nat {
    if c == 'n' then 0 else if c == 't' then 1 else if c == 'f' then 2 else if c == '\"' then 3
    else if c == '[' then 4 else if c == '{' then 5 else 6
  }

  function Kind(j: Json): nat {
    match j
    case Null => 0
    case Bool(b) => if b then 1 else 2
    case Str(_) => 3
    case Arr(_) => 4
    case Obj(_) => 5
    case Num(_) => 6
  }

  lemma SameKind(a: Json, b: Json, x: string, y: string)
    requires Encode(a) + x == Encode(b) + y
    ensures Kind(a) == Kind(b)
  {
    HeadOf(a);
    HeadOf(b);
    assert KindOf(Encode(a)[0]) == Kind(a) && KindOf(Encode(b)[0]) == Kind(b);
    assert (Encode(a) + x)[0] == (Encode(b) + y)[0];
  }

  lemma Cut(a: string, x: string, b: string, y: string, n: nat)
    requires a + x == b + y && n <= |a| && n <= |b|
    ensures a[n..] + x == b[n..] + y
  {
    assert a[n..] + x == (a + x)[n..] && b[n..] + y == (b + y)[n..];
  }

  // The text of an array (an object) without its opening bracket.
  lemma Opened(o: string, body: string, c: string, x: string)
    requires |o| == 1
    ensures (o + body + c)[1..] + x == body + c + x
  {
    assert (o + body + c)[1..] == body + c;
  }

  lemma ArrayCut(a: Json, b: Json, x: string, y: string)
    requires a.Arr? && b.Arr? && Encode(a) + x == Encode(b) + y
    ensures ItemsTail(a.items, x) == ItemsTail(b.items, y)
  {
    Opened("[", EncodeItems(a.items), "]", x);
    Opened("[", EncodeItems(b.items), "]", y);
    Cut(Encode(a), x, Encode(b), y, 1);
  }

  lemma ObjectCut(a: Json, b: Json, x: string, y: string)
    requires a.Obj? && b.Obj? && Encode(a) + x == Encode(b) + y
    ensures FieldsTail(a, KeysOf(a), x) == FieldsTail(b, KeysOf(b), y)
  {
    Opened("{", EncodeFields(a, KeysOf(a)), "}", x);
    Opened("{", EncodeFields(b, KeysOf(b)), "}", y);
    Cut(Encode(a), x, Encode(b), y, 1);
  }

  lemma AtomInjective(a: Json, b: Json, x: string, y: string)
    requires (a.Null? || a.Bool?) && Kind(a) == Kind(b) && Encode(a) + x == Encode(b) + y
    ensures a == b && x == y
  {
    var t := Encode(a);
    Cut(t, x, t, y, |t|);
    assert t[|t|..] + x == x && t[|t|..] + y == y;
  }

  /**
   Unique decodability: the text of a value determines the value, even with
   arbitrary text following, provided no number runs into that text.
   */
  lemma {:induction false} EncodeInjective(a: Json, b: Json, x: string, y: string)
    requires Encode(a) + x == Encode(b) + y && Delimited(x) && Delimited(y)
    ensures a == b && x == y
    decreases a, 1, 0
  {
    SameKind(a, b, x, y);
    match a {
      case Null => AtomInjective(a, b, x, y);
      case Bool(_) => AtomInjective(a, b, x, y);
      case Num(m) => NumberInjective(m, b.n, x, y);
      case Str(s) => QuoteInjective(s, b.s, x, y);
      case Arr(items) =>
        ArrayCut(a, b, x, y);
        ItemsInjective(items, b.items, x, y);
      case Obj(fields) =>
        ObjectCut(a, b, x, y);
        FieldsInjective(a, KeysOf(a), b, KeysOf(b), x, y);
        assert fields == b.fields;
    }
  }

  lemma {:induction false} ItemsInjective(a: seq<Json>, b: seq<Json>, x: string, y: string)
    requires ItemsTail(a, x) == ItemsTail(b, y)
    ensures a == b && x == y
    decreases a, 0, 0
  {
    var u, v := ItemsTail(a, x), ItemsTail(b, y);
    if a != [] { ItemsStep(a, x); HeadOf(a[0]); assert u[0] == Encode(a[0])[0]; }
    if b != [] { ItemsStep(b, y); HeadOf(b[0]); assert v[0] == Encode(b[0])[0]; }
    assert (a == []) == (u[0] == ']') && (b == []) == (v[0] == ']');
    if a == [] {
      assert x == u[1..] && y == v[1..];
    } else {
      var s, t := AfterItem(a, x), AfterItem(b, y);
      EncodeInjective(a[0], b[0], s, t);
      assert s[0] == t[0];
      assert s[1..] == if |a| == 1 then x else ItemsTail(a[1..], x);
      assert t[1..] == if |b| == 1 then y else ItemsTail(b[1..], y);
      if |a| > 1 { ItemsInjective(a[1..], b[1..], x, y); }
      assert a == [a[0]] + a[1..] && b == [b[0]] + b[1..];
    }
  }

  lemma {:induction false} FieldsInjective(a: Json, ks: seq<string>, b: Json, ls: seq<string>, x: string, y: string)
    requires a.Obj? && b.Obj?
    requires (forall k :: k in ks ==> k in a.fields) && (forall k :: k in ls ==> k in b.fields)
    requires FieldsTail(a, ks, x) == FieldsTail(b, ls, y)
    ensures ks == ls && x == y
    ensures forall k :: k in ks ==> a.fields[k] == b.fields[k]
    decreases a, 0, |ks|
  {
    var u, v := FieldsTail(a, ks, x), FieldsTail(b, ls, y);
    if ks != [] { FieldsStep(a, ks, x); assert u[0] == '\"'; }
    if ls != [] { FieldsStep(b, ls, y); assert v[0] == '\"'; }
    assert (ks == []) == (u[0] == '}') && (ls == []) == (v[0] == '}');
    if ks == [] {
      assert x == u[1..] && y == v[1..];
    } else {
      var k, l := ks[0], ls[0];
      var s, t := AfterField(a, ks, x), AfterField(b, ls, y);
      var p, q := Encode(a.fields[k]) + s, Encode(b.fields[l]) + t;
      QuoteInjective(k, l, ":" + p, ":" + q);
      assert p == (":" + p)[1..] && q == (":" + q)[1..];
      EncodeInjective(a.fields[k], b.fields[l], s, t);
      assert s[0] == t[0];
      assert s[1..] == if |ks| == 1 then x else FieldsTail(a, ks[1..], x);
      assert t[1..] == if |ls| == 1 then y else FieldsTail(b, ls[1..], y);
      if |ks| > 1 { FieldsInjective(a, ks[1..], b, ls[1..], x, y); }
      assert ks == [ks[0]] + ks[1..] && ls == [ls[0]] + ls[1..];
    }
  }

  /** Two values share a canonical text exactly when they are the same value. */
  lemma SameTextSameValue(a: Json, b: Json)
    ensures Encode(a) == Encode(b) <==> a == b
  {
    if Encode(a) == Encode(b) {
      assert Encode(a) + "" == Encode(b) + "";
      EncodeInjective(a, b, "", "");
    }
  }

  // ---- The encoder as it runs ----

  method EscapeStr(s: string) returns (r: string)
    ensures r == Quote(s)
  {
    var out := "";
    for i := 0 to |s|
      invariant out + EscapeChars(s[i..]) == EscapeChars(s)
    {
      out := out + EscapeChar(s[i]);
      assert s[i..] == [s[i]] + s[i + 1..];
    }
    r := "\"" + out + "\"";
  }

  function Join(parts: seq<string>): string {
    if parts == [] then "" else if |parts| == 1 then parts[0] else parts[0] + "," + Join(parts[1..])
  }

  ghost predicate AreParts(j: Json, keys: seq<string>, parts: seq<string>) {
    && j.Obj? && (forall k :: k in keys ==> k in j.fields) && |parts| == |keys|
    && forall i :: 0 <= i < |keys| ==> parts[i] == EncodeField(j, keys[i])
  }

  lemma {:induction false} JoinFields(j: Json, keys: seq<string>, parts: seq<string>)
    requires AreParts(j, keys, parts)
    ensures Join(parts) == EncodeFields(j, keys)
  {
    if |keys| > 1 { JoinFields(j, keys[1..], parts[1..]); }
  }

  // A dictionary's keys in some insertion order.
  ghost predicate Lists(keys: seq<string>, m: map<string, Json>) {
    NoDuplicates(keys) && forall k :: k in keys <==> k in m
  }

  /** `sorted(obj.keys())` whatever order the keys come in. */
  lemma ListedInAnyOrder(j: Json, listed: seq<string>)
    requires j.Obj? && Lists(listed, j.fields)
    ensures Sort(listed, StrLe) == KeysOf(j)
  {
    StrLeIsTotalOrder();
    SortedSetUnique(listed, j.fields.Keys, StrLe);
  }

  method EncodeParts(j: Json, keys: seq<string>) returns (parts: seq<string>)
    requires j.Obj? && forall k :: k in keys ==> k in j.fields
    ensures AreParts(j, keys, parts)
  {
    parts := [];
    for i := 0 to |keys|
      invariant AreParts(j, keys[..i], parts)
    {
      var name := EscapeStr(keys[i]);
      parts := parts + [name + ":" + Encode(j.fields[keys[i]])];
    }
  }

  /** The object case of `_encode`: the text never depends on the insertion order of the keys. */
  method EncodeObject(j: Json, listed: seq<string>) returns (text: string)
    requires j.Obj? && Lists(listed, j.fields)
    ensures text == Encode(j)
  {
    var keys := Sort(listed, StrLe);
    ListedInAnyOrder(j, listed);
    var parts := EncodeParts(j, keys);
    JoinFields(j, keys, parts);
    text := "{" + Join(parts) + "}";
  }
}
