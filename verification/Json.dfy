/** jsonb values and the SQL operators on them that the validators use. None is SQL NULL throughout. */
module Json {
  import opened Basics
  import Decimals

  /** A number is mantissa / 10^scale and prints with exactly scale decimals, so 1 and 1.0 differ as text only. */
  datatype Json =
    | Null
    | Bool(flag: bool)
    | Number(mantissa: int, scale: nat)
    | String(text: string)
    | Array(items: seq<Json>)
    | Object(fields: map<string, Json>)

  /** jsonb_typeof */
  function TypeOf(j: Option<Json>): Option<string> {
    match j
    case None => None
    case Some(Null) => Some("null")
    case Some(Bool(_)) => Some("boolean")
    case Some(Number(_, _)) => Some("number")
    case Some(String(_)) => Some("string")
    case Some(Array(_)) => Some("array")
    case Some(Object(_)) => Some("object")
  }

  /** value -> key */
  function Get(j: Json, key: string): Option<Json> {
    if j.Object? && key in j.fields then Some(j.fields[key]) else None
  }

  function Unsigned(n: int): nat { if n < 0 then -n else n }

  /** n / 10^scale, rounded down */
  function Shifted(n: nat, scale: nat): nat {
    if scale == 0 then n else Shifted(n / 10, scale - 1)
  }

  function WholeText(mantissa: int, scale: nat): string {
    Decimals.Text(Shifted(Unsigned(mantissa), scale))
  }

  function DecimalsText(mantissa: int, scale: nat): string {
    if scale == 0 then "" else "." + Decimals.Padded(Unsigned(mantissa), scale)
  }

  function NumberText(mantissa: int, scale: nat): string {
    (if mantissa < 0 then "-" else "") + WholeText(mantissa, scale) + DecimalsText(mantissa, scale)
  }

  /** What ->> gives. Arrays and objects stand for their own text. */
  datatype Shown = Text(text: string) | Composite(value: Json)

  function Show(j: Option<Json>): Option<Shown> {
    match j
    case None => None
    case Some(Null) => None
    case Some(String(s)) => Some(Text(s))
    case Some(Bool(b)) => Some(Text(if b then "true" else "false"))
    case Some(Number(m, s)) => Some(Text(NumberText(m, s)))
    case Some(composite) => Some(Composite(composite))
  }

  // ---- SQL three-valued conditions ----

  function Differs<T(==)>(a: Option<T>, b: T): Option<bool> {
    if a.None? then None else Some(a.value != b)
  }

  function Or(a: Option<bool>, b: Option<bool>): Option<bool> {
    if a == Some(true) || b == Some(true) then Some(true)
    else if a.None? || b.None? then None
    else Some(false)
  }

  /** IF takes its branch on true only. */
  predicate Taken(c: Option<bool>) { c == Some(true) }

  /** n <> trunc(n); a value that is no number is left to the disjunct before this one. */
  function NotWhole(j: Option<Json>): Option<bool> {
    match j
    case Some(Number(m, s)) => Some(m % Decimals.Pow10(s) != 0)
    case _ => None
  }

  /** The text of a number is that of a one-digit constant exactly if it is that integer, written without decimals. */
  lemma NumberTextIsDigit(mantissa: int, scale: nat, d: nat)
    requires d < 10
    ensures NumberText(mantissa, scale) == Decimals.Text(d) <==> mantissa == d && scale == 0
  {
    Decimals.ValueOfText(d);
    assert Decimals.Text(d) == [Decimals.Digit(d)];
    if mantissa < 0 {
      assert NumberText(mantissa, scale)[0] == '-';
    } else if scale > 0 {
      hide *;
      assert |NumberText(mantissa, scale)| >= 2 by { LongNumberText(mantissa, scale); }
    } else {
      assert Decimals.Pow10(0) == 1;
      assert NumberText(mantissa, 0) == Decimals.Text(mantissa);
      Decimals.ValueOfText(mantissa);
    }
  }

  lemma LongNumberText(mantissa: int, scale: nat)
    requires scale > 0
    ensures |NumberText(mantissa, scale)| >= 2
  {
    assert |DecimalsText(mantissa, scale)| == 1 + scale;
    assert |WholeText(mantissa, scale)| >= 1;
    hide WholeText, DecimalsText;
  }

  /** ->> gives NULL for NULL and for a JSON null alone, a string as it is, and the words of SQL for the rest. */
  lemma ShowExactly(j: Option<Json>)
    ensures Show(j).None? <==> j == None || j == Some(Null)
    ensures j.Some? && j.value.String? ==> Show(j) == Some(Text(j.value.text))
    ensures Show(Some(Bool(true))) == Some(Text("true")) && Show(Some(Bool(false))) == Some(Text("false"))
    ensures j.Some? && (j.value.Array? || j.value.Object?) ==> Show(j) == Some(Composite(j.value))
  {
  }

  lemma {:induction false} DigitsJoin(n: nat, scale: nat)
    ensures Shifted(n, scale) * Decimals.Pow10(scale) + Decimals.Value(Decimals.Padded(n, scale)) == n
  {
    if scale > 0 {
      var q, p := n / 10, Decimals.Pow10(scale - 1);
      DigitsJoin(q, scale - 1);
      var front := Decimals.Padded(q, scale - 1);
      assert Decimals.Padded(n, scale)[..scale - 1] == front;
      assert Decimals.Value(Decimals.Padded(n, scale)) == Decimals.Value(front) * 10 + n % 10;
      assert Shifted(n, scale) == Shifted(q, scale - 1);
      Tenfold(Shifted(q, scale - 1), p, Decimals.Value(front), q);
    }
  }

  lemma Tenfold(a: int, p: int, b: int, q: int)
    requires a * p + b == q
    ensures a * (10 * p) + b * 10 == q * 10
  {
    assert a * (10 * p) == 10 * (a * p);
  }

  /**
   The text of a number has a minus sign exactly if it is negative, exactly scale decimals after
   a point, and the digits of the mantissa.
   */
  lemma NumberTextReads(mantissa: int, scale: nat)
    ensures exists whole: string, decimals: string ::
      && Decimals.AllDigits(whole) && Decimals.AllDigits(decimals) && |decimals| == scale && Decimals.Canonical(whole)
      && NumberText(mantissa, scale)
         == (if mantissa < 0 then "-" else "") + whole + (if scale > 0 then "." + decimals else "")
      && Decimals.Value(whole) * Decimals.Pow10(scale) + Decimals.Value(decimals) == Unsigned(mantissa)
  {
    var n := Unsigned(mantissa);
    var whole, decimals := Decimals.Text(Shifted(n, scale)), Decimals.Padded(n, scale);
    Decimals.ValueOfText(Shifted(n, scale));
    DigitsJoin(n, scale);
    assert NumberText(mantissa, scale)
      == (if mantissa < 0 then "-" else "") + whole + (if scale > 0 then "." + decimals else "");
    hide Decimals.Text, Decimals.Padded, Decimals.Value, Shifted, NumberText;
  }
}
