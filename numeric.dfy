/** `pandas.to_numeric` on single values. How pandas parses a numeric string
    is not modelled: it is the `parse` parameter. */
module Numeric {
  import opened Wrappers
  import opened PyValues

  /** A float64 cell: NaN or a finite number. */
  datatype Num = NaN | Finite(value: real)

  /** The number `to_numeric` makes of one value, or None where it raises:
      null is NaN, booleans count as 0 and 1, numbers are themselves,
      strings go through pandas' parser, an empty list or dict is NaN (pandas
      treats every zero-length value as missing), and any other list or dict
      is refused. */
  function ToNumber(v: Json, parse: string -> Option<Num>): (r: Option<Num>)
    ensures v.JArray? ==> (r.Some? <==> v.items == []) && (r.Some? ==> r.value == NaN)
    ensures v.JObject? ==> (r.Some? <==> |v.entries| == 0) && (r.Some? ==> r.value == NaN)
    ensures v.JNull? ==> r == Some(NaN)
    ensures v.JBool? ==> r == Some(Finite(if v.b then 1.0 else 0.0))
    ensures v.JInt? ==> r == Some(Finite(v.i as real))
    ensures v.JFloat? ==> r == Some(Finite(v.f))
    ensures v.JString? ==> r == parse(v.s)
  {
    match v
    case JNull => Some(NaN)
    case JBool(b) => Some(Finite(if b then 1.0 else 0.0))
    case JInt(i) => Some(Finite(i as real))
    case JFloat(f) => Some(Finite(f))
    case JString(s) => parse(s)
    case JArray(items) => if items == [] then Some(NaN) else None
    case JObject(_, entries) => if |entries| == 0 then Some(NaN) else None
  }

  predicate IsNumeric(v: Json, parse: string -> Option<Num>) {
    ToNumber(v, parse).Some?
  }

  /** `to_numeric(column, errors="coerce")`: every value that does not convert
      becomes NaN; nothing is refused and the length is kept. */
  function CoerceColumn(col: seq<Json>, parse: string -> Option<Num>): (r: seq<Num>)
    ensures |r| == |col|
    ensures forall i :: 0 <= i < |col| && IsNumeric(col[i], parse) ==> r[i] == ToNumber(col[i], parse).value
    ensures forall i :: 0 <= i < |col| && !IsNumeric(col[i], parse) ==> r[i] == NaN
  {
    seq(|col|, i requires 0 <= i < |col| => ToNumber(col[i], parse).GetOr(NaN))
  }
}
