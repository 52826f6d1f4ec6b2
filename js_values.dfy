/**
 * The JavaScript values the analytics code works on: numbers (with the NaN and
 * infinities some code paths produce), `Math.floor`/`Math.ceil`/`Math.round`,
 * feature records with their attribute maps, and `Number(string)`.
 */
module JsValues {
  import opened Wrappers
  import Radix

  /** A JavaScript number: a finite value, NaN or one of the infinities. */
  datatype Number = Finite(x: real) | NaN | PlusInfinity | MinusInfinity

  /** `Math.floor`. */
  function Floor(x: real): (r: int)
    ensures r as real <= x < r as real + 1.0
  {
    x.Floor
  }

  /** `Math.ceil`. */
  function Ceil(x: real): (r: int)
    ensures r as real - 1.0 < x <= r as real
  {
    -((-x).Floor)
  }

  /** `Math.round`: the nearest integer, halves rounded up. */
  function Round(x: real): (r: int)
    ensures x - 0.5 < r as real <= x + 0.5
  {
    (x + 0.5).Floor
  }

  /** `Math.round` applied to a number that may be NaN (None). */
  function RoundOrNaN(v: Option<real>): Number {
    match v
    case Some(x) => Finite(Round(x) as real)
    case None => NaN
  }

  /** An attribute value of a feature: a number or a string. */
  datatype Value = Num(n: real) | Text(s: string)

  /** A fetched feature record: attribute name to value, `None` standing for null. */
  datatype Feature = Feature(attributes: map<string, Option<Value>>)

  /** `feature.attributes[name]`; an attribute the record lacks reads as null. */
  function Attribute(f: Feature, name: string): Option<Value> {
    if name in f.attributes then f.attributes[name] else None
  }

  /** The numeric value of an attribute; null (and text) give None. */
  function NumericAttribute(f: Feature, name: string): Option<real> {
    match Attribute(f, name)
    case Some(Num(x)) => Some(x)
    case _ => None
  }

  /** The attribute values of `field` that are not null, in record order. */
  function NonNullValues(data: seq<Feature>, field: string): (r: seq<Value>)
    ensures |r| <= |data|
    ensures forall v :: v in r <==> exists j :: 0 <= j < |data| && Attribute(data[j], field) == Some(v)
    decreases |data|
  {
    if data == [] then []
    else
      var init := data[..|data| - 1];
      assert forall j :: 0 <= j < |init| ==> init[j] == data[j];
      match Attribute(data[|data| - 1], field)
      case Some(v) => NonNullValues(init, field) + [v]
      case None => NonNullValues(init, field)
  }

  /** The numeric attribute values of `field`, in record order, skipping nulls. */
  function NumericValues(data: seq<Feature>, field: string): (r: seq<real>)
    ensures |r| <= |data|
    ensures forall x :: x in r <==> exists j :: 0 <= j < |data| && NumericAttribute(data[j], field) == Some(x)
    decreases |data|
  {
    if data == [] then []
    else
      var init := data[..|data| - 1];
      assert forall j :: 0 <= j < |init| ==> init[j] == data[j];
      match NumericAttribute(data[|data| - 1], field)
      case Some(x) => NumericValues(init, field) + [x]
      case None => NumericValues(init, field)
  }

  /** The loop `if (data[j].attributes[field] !== null) list.push(data[j].attributes[field])`. */
  method CollectNonNull(data: seq<Feature>, field: string) returns (list: seq<Value>)
    ensures list == NonNullValues(data, field)
  {
    list := [];
    var j := 0;
    while j < |data|
      invariant 0 <= j <= |data|
      invariant list == NonNullValues(data[..j], field)
    {
      assert data[..j + 1][..j] == data[..j];
      var value := Attribute(data[j], field);
      if value.Some? {
        list := list + [value.value];
      }
      j := j + 1;
    }
    assert data[..j] == data;
  }

  /** The same loop over a numeric field. */
  method CollectNumeric(data: seq<Feature>, field: string) returns (list: seq<real>)
    ensures list == NumericValues(data, field)
  {
    list := [];
    var j := 0;
    while j < |data|
      invariant 0 <= j <= |data|
      invariant list == NumericValues(data[..j], field)
    {
      assert data[..j + 1][..j] == data[..j];
      var value := NumericAttribute(data[j], field);
      if value.Some? {
        list := list + [value.value];
      }
      j := j + 1;
    }
    assert data[..j] == data;
  }

  /** The first index of `c` in `s`, or |s| when `c` does not occur. */
  function IndexOf(s: string, c: char): (r: nat)
    ensures r <= |s|
    ensures r < |s| ==> s[r] == c
    ensures forall i :: 0 <= i < r ==> s[i] != c
  {
    if s == [] then 0 else if s[0] == c then 0 else 1 + IndexOf(s[1..], c)
  }

  function Pow10(k: nat): (r: nat)
    ensures r >= 1
  {
    if k == 0 then 1 else 10 * Pow10(k - 1)
  }

  /**
   * `Number(s)` for decimal strings: an optional sign, decimal digits with at
   * most one decimal point, at least one digit; the empty string is 0. None is NaN.
   */
  function ParseNumber(s: string): Option<real> {
    if s == "" then Some(0.0)
    else if s[0] == '-' then
      match ParseUnsigned(s[1..])
      case Some(x) => Some(-x)
      case None => None
    else if s[0] == '+' then ParseUnsigned(s[1..])
    else ParseUnsigned(s)
  }

  function ParseUnsigned(t: string): Option<real> {
    var p := IndexOf(t, '.');
    var whole := t[..p];
    var frac := if p < |t| then t[p + 1..] else "";
    if |whole| + |frac| == 0 || !Radix.IsDigitString(whole, 10) || !Radix.IsDigitString(frac, 10) then None
    else Some(Radix.DigitsValue(whole, 10) as real + Radix.DigitsValue(frac, 10) as real / Pow10(|frac|) as real)
  }

  /** `Number` reads back the decimal string of every integer. */
  lemma NumberOfIntString(i: int)
    ensures ParseNumber(Radix.IntToString(i, 10)) == Some(i as real)
  {
    var n: nat := if i < 0 then -i else i;
    var digits := Radix.NatToString(n, 10);
    Radix.NatToStringRoundTrip(n, 10);
    assert Radix.DigitValue('.') == 16 && Radix.DigitValue('-') == 16 && Radix.DigitValue('+') == 16;
    assert IndexOf(digits, '.') == |digits|;
    assert digits[..|digits|] == digits;
    assert ParseUnsigned(digits) == Some(n as real);
    if i < 0 {
      assert ("-" + digits)[1..] == digits;
    } else {
      assert digits[0] != '-' && digits[0] != '+';
    }
  }
}
