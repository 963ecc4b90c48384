/** The canonical form of RFC 8785, and exactly when the encoder of `integration/jcs.py` prints it. */
module Rfc8785 {
  import opened Json
  import opened Ordering
  import opened Jcs
  import Canonical

  // ---- The order of keys, section 3.2.3 ----

  // A character's UTF-16 code units: one, or a surrogate pair.
  function UnitsOf(c: char): seq<int> {
    var n := c as int;
    if n < 0x10000 then [n] else [0xD800 + (n - 0x10000) / 0x400, 0xDC00 + (n - 0x10000) % 0x400]
  }

  function Utf16(s: string): seq<int> { if s == [] then [] else UnitsOf(s[0]) + Utf16(s[1..]) }

  predicate UnitsLe(a: seq<int>, b: seq<int>) {
    a == [] || (b != [] && (a[0] < b[0] || (a[0] == b[0] && UnitsLe(a[1..], b[1..]))))
  }

  predicate Utf16Le(a: string, b: string) { UnitsLe(Utf16(a), Utf16(b)) }

  lemma {:induction false} UnitsLeTotal(a: seq<int>, b: seq<int>)
    ensures UnitsLe(a, b) || UnitsLe(b, a)
    ensures UnitsLe(a, b) && UnitsLe(b, a) ==> a == b
  {
    if a != [] && b != [] && a[0] == b[0] {
      UnitsLeTotal(a[1..], b[1..]);
      assert a == [a[0]] + a[1..] && b == [b[0]] + b[1..];
    }
  }

  lemma {:induction false} UnitsLeTransitive(a: seq<int>, b: seq<int>, c: seq<int>)
    requires UnitsLe(a, b) && UnitsLe(b, c)
    ensures UnitsLe(a, c)
  {
    if a != [] && a[0] == b[0] && b[0] == c[0] {
      UnitsLeTransitive(a[1..], b[1..], c[1..]);
    }
  }

  lemma UnitsPrefixFree(c: char, d: char, x: seq<int>, y: seq<int>)
    requires UnitsOf(c) + x == UnitsOf(d) + y
    ensures c == d && x == y
  {
    var u, v := UnitsOf(c) + x, UnitsOf(d) + y;
    assert u[0] == UnitsOf(c)[0] && v[0] == UnitsOf(d)[0];
    assert |UnitsOf(c)| == |UnitsOf(d)|;
    if |UnitsOf(c)| == 2 { assert u[1] == UnitsOf(c)[1] && v[1] == UnitsOf(d)[1]; }
    assert x == u[|UnitsOf(c)|..] && y == v[|UnitsOf(d)|..];
  }

  lemma {:induction false} Utf16Injective(a: string, b: string)
    requires Utf16(a) == Utf16(b)
    ensures a == b
  {
    if a != [] && b != [] {
      UnitsPrefixFree(a[0], b[0], Utf16(a[1..]), Utf16(b[1..]));
      Utf16Injective(a[1..], b[1..]);
      assert a == [a[0]] + a[1..] && b == [b[0]] + b[1..];
    } else {
      assert a != [] ==> |Utf16(a)| > 0;
      assert b != [] ==> |Utf16(b)| > 0;
    }
  }

  lemma Utf16LeIsTotalOrder()
    ensures TotalOrder(Utf16Le)
  {
    forall a, b ensures Total(Utf16Le, a, b) && Antisymmetric(Utf16Le, a, b) {
      UnitsLeTotal(Utf16(a), Utf16(b));
      if Utf16(a) == Utf16(b) { Utf16Injective(a, b); }
    }
    forall a, b, c ensures Transitive(Utf16Le, a, b, c) {
      if Utf16Le(a, b) && Utf16Le(b, c) { UnitsLeTransitive(Utf16(a), Utf16(b), Utf16(c)); }
    }
  }

  // ---- When code points and code units order two keys differently ----

  // One character beyond U+FFFF, the other between U+E000 and U+FFFF.
  predicate Crossed(c: char, d: char) {
    || (c as int >= 0x10000 && 0xE000 <= d as int < 0x10000)
    || (d as int >= 0x10000 && 0xE000 <= c as int < 0x10000)
  }

  // Two keys whose first difference is such a pair of characters.
  predicate Contrary(a: string, b: string) {
    a != [] && b != [] && if a[0] == b[0] then Contrary(a[1..], b[1..]) else Crossed(a[0], b[0])
  }

  /** What `Contrary` says of positions. */
  lemma {:induction false} ContraryMeans(a: string, b: string)
    ensures Contrary(a, b) <==> exists i :: 0 <= i < |a| && i < |b| && a[..i] == b[..i] && Crossed(a[i], b[i])
  {
    if a != [] && b != [] {
      ContraryMeans(a[1..], b[1..]);
      if Contrary(a, b) {
        if a[0] == b[0] {
          var i :| 0 <= i < |a[1..]| && i < |b[1..]| && a[1..][..i] == b[1..][..i] && Crossed(a[1..][i], b[1..][i]);
          assert a[..i + 1] == [a[0]] + a[1..][..i] && b[..i + 1] == [b[0]] + b[1..][..i];
          assert Crossed(a[i + 1], b[i + 1]);
        } else {
          assert a[..0] == b[..0];
        }
      }
      if i :| 0 <= i < |a| && i < |b| && a[..i] == b[..i] && Crossed(a[i], b[i]) {
        if i > 0 {
          assert a[..i][0] == b[..i][0];
          assert a[1..][..i - 1] == a[..i][1..] && b[1..][..i - 1] == b[..i][1..];
          assert Crossed(a[1..][i - 1], b[1..][i - 1]);
        }
      }
    }
  }

  lemma HeadOrder(c: char, d: char, x: seq<int>, y: seq<int>)
    requires c != d
    ensures UnitsLe(UnitsOf(c) + x, UnitsOf(d) + y) <==> (c < d) != Crossed(c, d)
  {
    var u, v := UnitsOf(c) + x, UnitsOf(d) + y;
    assert u[0] == UnitsOf(c)[0] && v[0] == UnitsOf(d)[0];
    if u[0] == v[0] {
      assert |UnitsOf(c)| == 2 && |UnitsOf(d)| == 2;
      assert u[1..][0] == UnitsOf(c)[1] && v[1..][0] == UnitsOf(d)[1];
    }
  }

  lemma HeadSame(c: char, x: seq<int>, y: seq<int>)
    ensures UnitsLe(UnitsOf(c) + x, UnitsOf(c) + y) <==> UnitsLe(x, y)
  {
    var u := UnitsOf(c);
    assert (u + x)[1..] == u[1..] + x && (u + y)[1..] == u[1..] + y;
    if |u| == 2 {
      assert (u[1..] + x)[1..] == x && (u[1..] + y)[1..] == y;
    } else {
      assert u[1..] + x == x && u[1..] + y == y;
    }
  }

  /** The code-point order and the RFC's order disagree on two keys exactly when these are contrary. */
  lemma {:induction false} OrdersDisagree(a: string, b: string)
    ensures StrLe(a, b) != Utf16Le(a, b) <==> Contrary(a, b)
  {
    if a != [] && b != [] {
      if a[0] == b[0] {
        OrdersDisagree(a[1..], b[1..]);
        HeadSame(a[0], Utf16(a[1..]), Utf16(b[1..]));
      } else {
        HeadOrder(a[0], b[0], Utf16(a[1..]), Utf16(b[1..]));
      }
    } else {
      assert b == [] && a != [] ==> |Utf16(a)| > 0;
    }
  }

  /** The keys of an object in the order of section 3.2.3. */
  function RfcKeys(j: Json): (ks: seq<string>)
    requires j.Obj?
    ensures |ks| == |j.fields.Keys| && forall k :: k in ks <==> k in j.fields
  {
    Utf16LeIsTotalOrder();
    SortedSet(j.fields.Keys, Utf16Le)
  }

  ghost predicate KeysConform(fields: map<string, Json>) {
    forall a, b :: a in fields && b in fields ==> !Contrary(a, b)
  }

  lemma Utf16LeTotal(a: string, b: string)
    ensures Utf16Le(a, b) || Utf16Le(b, a)
    ensures Utf16Le(a, b) && Utf16Le(b, a) ==> a == b
  {
    UnitsLeTotal(Utf16(a), Utf16(b));
    if Utf16(a) == Utf16(b) { Utf16Injective(a, b); }
  }

  // Two keys in the same place of both orders are not contrary.
  lemma InBothOrders(ks: seq<string>, a: string, b: string)
    requires Sorted(ks, StrLe) && Sorted(ks, Utf16Le) && a in ks && b in ks
    ensures !Contrary(a, b)
  {
    hide StrLe, Utf16Le, Contrary;
    var i :| 0 <= i < |ks| && ks[i] == a;
    var k :| 0 <= k < |ks| && ks[k] == b;
    OrdersDisagree(a, b);
    StrLeTotal(a, b);
    Utf16LeTotal(a, b);
  }

  /** The encoder sorts an object's keys as the RFC does exactly when no two of them are contrary. */
  lemma KeyListsAgree(j: Json)
    requires j.Obj?
    ensures KeysOf(j) == RfcKeys(j) <==> KeysConform(j.fields)
  {
    hide StrLe, Utf16Le, Contrary;
    StrLeIsTotalOrder();
    Utf16LeIsTotalOrder();
    var s, ks, ls := j.fields.Keys, KeysOf(j), RfcKeys(j);
    SortedSetAscends(s, StrLe);
    SortedSetAscends(s, Utf16Le);
    if ks == ls {
      forall a, b | a in j.fields && b in j.fields ensures !Contrary(a, b) { InBothOrders(ks, a, b); }
    }
    if KeysConform(j.fields) {
      forall i, k | 0 <= i < k < |ks| ensures Utf16Le(ks[i], ks[k]) {
        assert ks[i] in ks && ks[k] in ks;
        OrdersDisagree(ks[i], ks[k]);
      }
      SortIdempotent(ks, Utf16Le);
      SortedSetUnique(ks, s, Utf16Le);
    }
  }

  lemma TwoSorted(a: string, b: string, le: (string, string) -> bool)
    requires TotalOrder(le) && a != b && le(a, b)
    ensures SortedSet({a, b}, le) == [a, b]
  {
    SortIdempotent([a, b], le);
    SortedSetUnique([a, b], {a, b}, le);
  }

  lemma TwoKeys(a: string, b: string, x: Json, y: Json)
    requires a != b && StrLe(a, b)
    ensures KeysOf(Obj(map[a := x, b := y])) == [a, b]
  {
    hide StrLe;
    StrLeIsTotalOrder();
    assert map[a := x, b := y].Keys == {a, b};
    TwoSorted(a, b, StrLe);
  }

  lemma TwoRfcKeys(a: string, b: string, x: Json, y: Json)
    requires a != b && Utf16Le(b, a)
    ensures RfcKeys(Obj(map[a := x, b := y])) == [b, a]
  {
    hide Utf16Le;
    Utf16LeIsTotalOrder();
    assert map[a := x, b := y].Keys == {b, a};
    TwoSorted(b, a, Utf16Le);
  }

  /** Two contrary keys are printed the other way round. */
  lemma KeysTurnedRound(a: string, b: string, x: Json, y: Json)
    requires Contrary(a, b) && StrLe(a, b)
    ensures KeysOf(Obj(map[a := x, b := y])) == [a, b] && RfcKeys(Obj(map[a := x, b := y])) == [b, a]
  {
    hide StrLe, Utf16Le, Contrary;
    OrdersDisagree(a, b);
    OrdersDisagree(a, a);
    StrLeTotal(a, a);
    Utf16LeTotal(a, b);
    Utf16LeTotal(a, a);
    TwoKeys(a, b, x, y);
    TwoRfcKeys(a, b, x, y);
  }

  /** Such a pair: a full-width letter and an emoji. */
  lemma LetterBeforeEmoji(x: Json, y: Json)
    ensures KeysOf(Obj(map["\U{FF21}" := x, "\U{1F600}" := y])) == ["\U{FF21}", "\U{1F600}"]
    ensures RfcKeys(Obj(map["\U{FF21}" := x, "\U{1F600}" := y])) == ["\U{1F600}", "\U{FF21}"]
  {
    var a, b := "\U{FF21}", "\U{1F600}";
    assert a[0] as int == 0xFF21 && b[0] as int == 0x1F600;
    assert StrLe(a, b) && Crossed(a[0], b[0]) && Contrary(a, b);
    KeysTurnedRound(a, b, x, y);
  }

  // ---- Strings, section 3.2.2.2 ----

  const HEX: string := "0123456789abcdef"

  // The seven two-character escapes, the other controls in lower-case hexadecimal, all else as it is.
  function RfcChar(c: char): string {
    var n := c as int;
    if n > 0x1F then (if n == 0x22 then "\\\"" else if n == 0x5C then "\\\\" else [c])
    else if n == 0x08 then "\\b"
    else if n == 0x09 then "\\t"
    else if n == 0x0A then "\\n"
    else if n == 0x0C then "\\f"
    else if n == 0x0D then "\\r"
    else ['\\', 'u', '0', '0', HEX[n / 16], HEX[n % 16]]
  }

  function RfcChars(s: string): string { if s == "" then "" else RfcChar(s[0]) + RfcChars(s[1..]) }

  function RfcString(s: string): string { "\"" + RfcChars(s) + "\"" }

  lemma HexAgrees(d: nat)
    requires d < 16
    ensures HexDigit(d) == HEX[d]
  {
    assert HEX[0] == '0' && HEX[1] == '1' && HEX[2] == '2' && HEX[3] == '3' && HEX[4] == '4' && HEX[5] == '5';
    assert HEX[6] == '6' && HEX[7] == '7' && HEX[8] == '8' && HEX[9] == '9' && HEX[10] == 'a' && HEX[11] == 'b';
    assert HEX[12] == 'c' && HEX[13] == 'd' && HEX[14] == 'e' && HEX[15] == 'f';
  }

  lemma CharAgrees(c: char)
    ensures EscapeChar(c) == RfcChar(c)
  {
    if c as int < 0x20 {
      HexAgrees(c as int / 16);
      HexAgrees(c as int % 16);
    }
  }

  /** Every string prints as the RFC asks. */
  lemma {:induction false} StringAgrees(s: string)
    ensures Quote(s) == RfcString(s)
  {
    if s != [] {
      CharAgrees(s[0]);
      StringAgrees(s[1..]);
      assert EscapeChars(s[1..]) == Quote(s[1..])[1..|Quote(s[1..])| - 1];
      assert RfcChars(s[1..]) == RfcString(s[1..])[1..|RfcString(s[1..])| - 1];
    }
  }

  // ---- Numbers, section 3.2.2.3 ----

  /** `Number::toString` of ECMAScript on the shortest digits d, which stand before the exponent exp. */
  function EcmaText(d: string, exp: int): string
    requires d != []
  {
    var n := |d| + exp;
    if exp >= 0 && n <= 21 then d + Zeros(exp)
    else if exp < 0 && 0 < n <= 21 then d[..n] + "." + d[n..]
    else if -6 < n <= 0 then "0." + Zeros(-n) + d
    else Mantissa(d) + "e" + Exponent(n - 1)
  }

  function Mantissa(d: string): string
    requires d != []
  {
    if |d| == 1 then d else d[..1] + "." + d[1..]
  }

  function Exponent(e: int): string { if e >= 0 then "+" + Numeral(e) else "-" + Numeral(-e) }

  const NUMERALS: string := "0123456789"

  function Numeral(n: nat): (d: string)
    ensures d != []
  {
    if n < 10 then [NUMERALS[n]] else Numeral(n / 10) + [NUMERALS[n % 10]]
  }

  lemma {:induction false} DigitsAgree(n: nat)
    ensures Digits(n) == Numeral(n)
  {
    assert NUMERALS[0] == '0' && NUMERALS[1] == '1' && NUMERALS[2] == '2' && NUMERALS[3] == '3' && NUMERALS[4] == '4';
    assert NUMERALS[5] == '5' && NUMERALS[6] == '6' && NUMERALS[7] == '7' && NUMERALS[8] == '8' && NUMERALS[9] == '9';
    if n >= 10 { DigitsAgree(n / 10); }
  }

  function RfcNumber(n: Decimal): string {
    if n.coef == 0 then "0" else (if n.neg then "-" else "") + EcmaText(Numeral(n.coef), n.exp)
  }

  // The decimal point falls where ECMAScript writes plain digits.
  predicate Plain(n: Decimal) { -6 < |Digits(n.coef)| + n.exp <= 21 }

  predicate NumberConforms(n: Decimal) { if n.coef == 0 then !n.neg else Plain(n) }

  lemma FractionText(digits: string, exp: int)
    requires exp < 0 && digits != [] && digits[|digits| - 1] != '0' && digits[|digits| - 1] != '.'
    ensures FormatFraction(digits, exp) ==
      if |digits| + exp > 0 then digits[..|digits| + exp] + "." + digits[|digits| + exp..] else "0." + Zeros(-|digits| - exp) + digits
  {
    var n := |digits| + exp;
    var s := if n > 0 then digits[..n] + "." + digits[n..] else "0." + Zeros(-n) + digits;
    assert s[|s| - 1] == digits[|digits| - 1];
    NothingToStrip(s);
  }

  lemma PlainText(n: Decimal)
    requires n.coef != 0 && Plain(n)
    ensures Unsigned(n) == EcmaText(Digits(n.coef), n.exp)
  {
    DigitsShape(n.coef);
    if n.exp < 0 { FractionText(Digits(n.coef), n.exp); }
  }

  lemma ExponentShows(d: string, exp: int)
    requires d != [] && !(-6 < |d| + exp <= 21)
    ensures 'e' in EcmaText(d, exp)
  {
    hide Mantissa, Exponent;
    var head, tail := Mantissa(d), Exponent(|d| + exp - 1);
    assert (head + "e" + tail)[|head|] == 'e';
  }

  lemma ZeroText(n: Decimal)
    requires n.coef == 0
    ensures FormatNumber(n) == if n.neg then "-0" else "0"
  {
    assert Digits(0) == "0" && "-" + "0" + Zeros(0) == "-0" && "" + "0" + Zeros(0) == "0";
  }

  lemma NoExponent(n: Decimal)
    ensures 'e' !in FormatNumber(n)
  {
    hide FormatNumber, Unsigned;
    NumberShape(n);
    UnsignedShape(n);
  }

  /** A number prints as the RFC asks exactly when it is zero without a sign or lies in the plain range. */
  lemma NumberAgrees(n: Decimal)
    ensures FormatNumber(n) == RfcNumber(n) <==> NumberConforms(n)
  {
    hide FormatNumber, EcmaText, Digits, Numeral, Unsigned;
    DigitsAgree(n.coef);
    if n.coef == 0 {
      ZeroText(n);
    } else if Plain(n) {
      NumberShape(n);
      PlainText(n);
    } else {
      DigitsShape(n.coef);
      ExponentShows(Digits(n.coef), n.exp);
      NoExponent(n);
      assert 'e' in RfcNumber(n);
    }
  }

  /** Only negative zero prints as `-0`. */
  lemma OnlyMinusZero(n: Decimal)
    ensures FormatNumber(n) == "-0" <==> n == NEGATIVE_ZERO
    ensures Encode(Num(NEGATIVE_ZERO)) == "-0" && RfcNumber(NEGATIVE_ZERO) == "0"
  {
    ZeroText(NEGATIVE_ZERO);
    if FormatNumber(n) == "-0" { NumberInjective(n, NEGATIVE_ZERO, "", ""); }
  }

  lemma {:induction false} DigitsMeasure(n: nat)
    requires n > 0
    ensures |Digits(n)| >= 1 && Pow10(|Digits(n)| - 1) <= n < Pow10(|Digits(n)|)
  {
    if n >= 10 { DigitsMeasure(n / 10); }
  }

  lemma {:induction false} PowersGrow(a: nat, b: nat)
    ensures a <= b ==> Pow10(a) <= Pow10(b)
    ensures a < b ==> Pow10(a) < Pow10(b)
    decreases b
  {
    if a < b { PowersGrow(a, b - 1); }
  }

  lemma Scaled(low: nat, x: nat, high: nat, p: nat)
    requires low <= x < high && p >= 1
    ensures low * p <= x * p < high * p
  {
  }

  /** The plain range: from a millionth to below ten to the twenty-first, all measured in units of ten to the minus s. */
  lemma PlainRange(n: Decimal, s: nat)
    requires n.coef != 0 && n.exp + s >= 0 && s >= 6
    ensures Plain(n) <==> Pow10(s - 6) <= Canonical.Magnitude(n.coef, n.exp, s) < Pow10(s + 21)
  {
    hide Pow10, Digits;
    var e := n.exp + s;
    var k := |Digits(n.coef)|;
    DigitsMeasure(n.coef);
    Scaled(Pow10(k - 1), n.coef, Pow10(k), Pow10(e));
    Canonical.PowerAdd(k - 1, e);
    Canonical.PowerAdd(k, e);
    Between(k + e, s, n.coef * Pow10(e));
  }

  lemma Between(p: nat, s: nat, x: nat)
    requires p >= 1 && s >= 6 && Pow10(p - 1) <= x < Pow10(p)
    ensures s - 6 < p <= s + 21 <==> Pow10(s - 6) <= x < Pow10(s + 21)
  {
    hide Pow10;
    PowersGrow(s - 6, p - 1);
    PowersGrow(p, s - 6);
    PowersGrow(p, s + 21);
    PowersGrow(s + 21, p - 1);
  }

  // ---- Values ----

  function RfcEncode(j: Json): string
    decreases j, 1, 0
  {
    match j
    case Null => "null"
    case Bool(true) => "true"
    case Bool(false) => "false"
    case Num(n) => RfcNumber(n)
    case Str(s) => RfcString(s)
    case Arr(items) => "[" + RfcItems(items) + "]"
    case Obj(fields) => "{" + RfcFields(j, RfcKeys(j)) + "}"
  }

  function RfcItems(items: seq<Json>): string
    decreases items, 0, 0
  {
    if items == [] then ""
    else if |items| == 1 then RfcEncode(items[0])
    else RfcEncode(items[0]) + "," + RfcItems(items[1..])
  }

  function RfcField(j: Json, key: string): string
    requires j.Obj? && key in j.fields
    decreases j, 0, 0
  {
    RfcString(key) + ":" + RfcEncode(j.fields[key])
  }

  function RfcFields(j: Json, keys: seq<string>): string
    requires j.Obj? && forall k :: k in keys ==> k in j.fields
    decreases j, 0, |keys| + 1
  {
    if keys == [] then ""
    else if |keys| == 1 then RfcField(j, keys[0])
    else RfcField(j, keys[0]) + "," + RfcFields(j, keys[1..])
  }

  /** Every number in the value, at any depth, and the keys of every object in it conform. */
  ghost predicate Conforms(j: Json) {
    match j
    case Num(n) => NumberConforms(n)
    case Arr(items) => forall i :: 0 <= i < |items| ==> Conforms(items[i])
    case Obj(fields) => KeysConform(fields) && forall k :: k in fields ==> Conforms(fields[k])
    case _ => true
  }

  lemma {:induction false} ConformingText(j: Json)
    requires Conforms(j)
    ensures Encode(j) == RfcEncode(j)
    decreases j, 1, 0
  {
    match j {
      case Num(n) => NumberAgrees(n);
      case Str(s) => StringAgrees(s);
      case Arr(items) => ConformingItems(items);
      case Obj(fields) =>
        KeyListsAgree(j);
        ConformingFields(j, KeysOf(j));
      case _ =>
    }
  }

  lemma {:induction false} ConformingItems(items: seq<Json>)
    requires forall i :: 0 <= i < |items| ==> Conforms(items[i])
    ensures EncodeItems(items) == RfcItems(items)
    decreases items, 0, 0
  {
    if items != [] {
      ConformingText(items[0]);
      ConformingItems(items[1..]);
    }
  }

  lemma {:induction false} ConformingFields(j: Json, keys: seq<string>)
    requires j.Obj? && (forall k :: k in keys ==> k in j.fields) && forall k :: k in j.fields ==> Conforms(j.fields[k])
    ensures EncodeFields(j, keys) == RfcFields(j, keys)
    decreases j, 0, |keys|
  {
    if keys != [] {
      StringAgrees(keys[0]);
      ConformingText(j.fields[keys[0]]);
      ConformingFields(j, keys[1..]);
    }
  }

  // ---- Equal texts come from conforming values ----

  predicate IsRfcNumberChar(c: char) { IsNumberChar(c) || c == 'e' || c == '+' }

  predicate Ends(x: string) { x == [] || !IsRfcNumberChar(x[0]) }

  ghost predicate AllRfcNumberChars(s: string) { forall i :: 0 <= i < |s| ==> IsRfcNumberChar(s[i]) }

  lemma NumberChars(n: Decimal)
    ensures AllRfcNumberChars(FormatNumber(n)) && AllRfcNumberChars(RfcNumber(n))
  {
    NumberShape(n);
    UnsignedShape(n);
    DigitsShape(n.coef);
    DigitsAgree(n.coef);
    if n.coef != 0 { EcmaChars(Numeral(n.coef), n.exp); }
  }

  lemma EcmaChars(d: string, exp: int)
    requires d != [] && AllDigits(d)
    ensures AllRfcNumberChars(EcmaText(d, exp))
  {
    hide Exponent;
    ExponentChars(|d| + exp - 1);
  }

  lemma ExponentChars(e: int)
    ensures AllRfcNumberChars(Exponent(e))
  {
    var n := if e >= 0 then e else -e;
    DigitsAgree(n);
    DigitsShape(n);
  }

  lemma NumberMatches(n: Decimal, x: string, y: string)
    requires FormatNumber(n) + x == RfcNumber(n) + y && Ends(x) && Ends(y)
    ensures NumberConforms(n) && x == y
  {
    NumberChars(n);
    MaximalRun(FormatNumber(n), x, RfcNumber(n), y, IsRfcNumberChar);
    NumberAgrees(n);
  }

  function RfcItemsTail(items: seq<Json>, x: string): string { RfcItems(items) + "]" + x }

  function RfcAfterItem(items: seq<Json>, x: string): string
    requires items != []
  {
    if |items| == 1 then "]" + x else "," + RfcItemsTail(items[1..], x)
  }

  lemma RfcItemsStep(items: seq<Json>, x: string)
    requires items != []
    ensures RfcItemsTail(items, x) == RfcEncode(items[0]) + RfcAfterItem(items, x)
  {
    hide RfcEncode;
    if |items| > 1 {
      Regroup(RfcEncode(items[0]), ",", RfcItems(items[1..]), "]", x);
    } else {
      Regroup(RfcEncode(items[0]), "", "", "]", x);
    }
  }

  function RfcFieldsTail(j: Json, keys: seq<string>, x: string): string
    requires j.Obj? && forall k :: k in keys ==> k in j.fields
  {
    RfcFields(j, keys) + "}" + x
  }

  function RfcAfterField(j: Json, keys: seq<string>, x: string): string
    requires j.Obj? && keys != [] && forall k :: k in keys ==> k in j.fields
  {
    if |keys| == 1 then "}" + x else "," + RfcFieldsTail(j, keys[1..], x)
  }

  lemma RfcFieldsStep(j: Json, keys: seq<string>, x: string)
    requires j.Obj? && keys != [] && forall k :: k in keys ==> k in j.fields
    ensures RfcFieldsTail(j, keys, x)
         == RfcString(keys[0]) + (":" + (RfcEncode(j.fields[keys[0]]) + RfcAfterField(j, keys, x)))
  {
    hide RfcEncode, RfcString;
    var e := RfcField(j, keys[0]);
    if |keys| > 1 {
      Regroup(e, ",", RfcFields(j, keys[1..]), "}", x);
    } else {
      Regroup(e, "", "", "}", x);
    }
    RegroupField(RfcString(keys[0]), RfcEncode(j.fields[keys[0]]), RfcAfterField(j, keys, x));
  }

  lemma {:induction false} TextMatches(j: Json, x: string, y: string)
    requires Encode(j) + x == RfcEncode(j) + y && Ends(x) && Ends(y)
    ensures Conforms(j) && x == y
    decreases j, 1, 0
  {
    match j {
      case Num(n) => NumberMatches(n, x, y);
      case Arr(items) =>
        Opened("[", EncodeItems(items), "]", x);
        Opened("[", RfcItems(items), "]", y);
        Cut(Encode(j), x, RfcEncode(j), y, 1);
        ItemsMatch(items, x, y);
      case Obj(fields) =>
        Opened("{", EncodeFields(j, KeysOf(j)), "}", x);
        Opened("{", RfcFields(j, RfcKeys(j)), "}", y);
        Cut(Encode(j), x, RfcEncode(j), y, 1);
        SameNumberOfKeys(j);
        FieldsMatch(j, KeysOf(j), RfcKeys(j), x, y);
        KeyListsAgree(j);
      case Str(s) =>
        StringAgrees(s);
        SameHead(Encode(j), x, y);
      case _ => SameHead(Encode(j), x, y);
    }
  }

  lemma SameHead(t: string, x: string, y: string)
    requires t + x == t + y
    ensures x == y
  {
    assert x == (t + x)[|t|..] && y == (t + y)[|t|..];
  }

  lemma SameNumberOfKeys(j: Json)
    requires j.Obj?
    ensures |KeysOf(j)| == |RfcKeys(j)|
  {
    StrLeIsTotalOrder();
  }

  lemma {:induction false} ItemsMatch(items: seq<Json>, x: string, y: string)
    requires ItemsTail(items, x) == RfcItemsTail(items, y)
    ensures (forall i :: 0 <= i < |items| ==> Conforms(items[i])) && x == y
    decreases items, 0, 0
  {
    hide Encode, RfcEncode, Conforms;
    var u, v := ItemsTail(items, x), RfcItemsTail(items, y);
    if items == [] {
      assert x == u[1..] && y == v[1..];
    } else {
      ItemsStep(items, x);
      RfcItemsStep(items, y);
      var s, t := AfterItem(items, x), RfcAfterItem(items, y);
      TextMatches(items[0], s, t);
      assert s[1..] == if |items| == 1 then x else ItemsTail(items[1..], x);
      assert t[1..] == if |items| == 1 then y else RfcItemsTail(items[1..], y);
      if |items| > 1 { ItemsMatch(items[1..], x, y); }
    }
  }

  lemma {:induction false} FieldsMatch(j: Json, ks: seq<string>, ls: seq<string>, x: string, y: string)
    requires j.Obj? && |ks| == |ls|
    requires (forall k :: k in ks ==> k in j.fields) && (forall k :: k in ls ==> k in j.fields)
    requires FieldsTail(j, ks, x) == RfcFieldsTail(j, ls, y)
    ensures ks == ls && x == y && forall k :: k in ks ==> Conforms(j.fields[k])
    decreases j, 0, |ks|
  {
    hide Encode, RfcEncode, Conforms, Quote, RfcString;
    var u, v := FieldsTail(j, ks, x), RfcFieldsTail(j, ls, y);
    if ks == [] {
      assert x == u[1..] && y == v[1..];
    } else {
      FieldsStep(j, ks, x);
      RfcFieldsStep(j, ls, y);
      var k, l := ks[0], ls[0];
      var s, t := AfterField(j, ks, x), RfcAfterField(j, ls, y);
      var p, q := Encode(j.fields[k]) + s, RfcEncode(j.fields[l]) + t;
      StringAgrees(l);
      QuoteInjective(k, l, ":" + p, ":" + q);
      assert p == (":" + p)[1..] && q == (":" + q)[1..];
      TextMatches(j.fields[k], s, t);
      assert s[1..] == if |ks| == 1 then x else FieldsTail(j, ks[1..], x);
      assert t[1..] == if |ls| == 1 then y else RfcFieldsTail(j, ls[1..], y);
      if |ks| > 1 { FieldsMatch(j, ks[1..], ls[1..], x, y); }
      assert ks == [ks[0]] + ks[1..] && ls == [ls[0]] + ls[1..];
    }
  }

  /**
   The encoder prints the canonical form of RFC 8785, written out above without it, exactly
   for the values whose numbers are all plain and not negative zero, and whose objects have no two contrary keys.
   */
  lemma Conformance(j: Json)
    ensures Encode(j) == RfcEncode(j) <==> Conforms(j)
  {
    if Encode(j) == RfcEncode(j) {
      assert Encode(j) + "" == RfcEncode(j) + "";
      TextMatches(j, "", "");
    }
    if Conforms(j) { ConformingText(j); }
  }
}
