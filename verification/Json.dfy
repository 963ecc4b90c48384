/** JSON values as the KVP pipeline holds them: Python primitives in lists and dicts. */
module Json {

  /**
   A finite Python number as `Decimal(str(n)).normalize().as_tuple()` presents it:
   sign, coefficient without trailing zeros, exponent.  Negative zero is kept.
   */
  datatype Number = Number(neg: bool, coef: nat, exp: int)

  predicate IsNormal(n: Number) {
    if n.coef == 0 then n.exp == 0 else n.coef % 10 != 0
  }

  type Decimal = n: Number | IsNormal(n) witness Number(false, 0, 0)

  datatype Json =
    | Null
    | Bool(b: bool)
    | Num(n: Decimal)
    | Str(s: string)
    | Arr(items: seq<Json>)
    | Obj(fields: map<string, Json>)

  const ZERO: Decimal := Number(false, 0, 0)
  const ONE: Decimal := Number(false, 1, 0)
  const NEGATIVE_ZERO: Decimal := Number(true, 0, 0)

  /**
   What Python's `==` can see of a value: `True == 1`, `False == 0` and `-0.0 == 0`,
   at every depth.
   */
  function Seen(j: Json): Json {
    match j
    case Bool(b) => Num(if b then ONE else ZERO)
    case Num(n) => if n.coef == 0 then Num(ZERO) else j
    case Arr(items) => Arr(seq(|items|, i requires 0 <= i < |items| => Seen(items[i])))
    case Obj(fields) => Obj(map k | k in fields :: Seen(fields[k]))
    case _ => j
  }

  /** Python's `a == b`. */
  predicate PyEq(a: Json, b: Json) { Seen(a) == Seen(b) }

  // ---- Integers, the values that identify rooms, agents, items, objects and events ----

  function Pow10(k: nat): (p: nat)
    ensures p >= 1
  {
    if k == 0 then 1 else 10 * Pow10(k - 1)
  }

  function IntValue(n: Decimal): int
    requires n.exp >= 0
  {
    (if n.neg then -1 else 1) * (n.coef * Pow10(n.exp))
  }

  function IntOf(j: Json): (r: Option<int>) {
    match j
    case Num(n) => if n.exp >= 0 then Some(IntValue(n)) else None
    case _ => None
  }

  datatype Option<+T> = None | Some(value: T)
}
