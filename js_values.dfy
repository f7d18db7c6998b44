/**
 * The JavaScript values the telemetry server reads out of a parsed JSON body,
 * and the records (plain objects) built from them.
 */
module JsValues {
  import opened Wrappers

  /**
   * `Num` holds a finite number only; NaN and the two infinities, which have
   * `typeof` "number" but fail `Number.isFinite`, are `NonFinite`. `Compound`
   * stands for any object or array.
   */
  datatype JsValue =
    | Undefined
    | Null
    | Bool(b: bool)
    | Num(x: real)
    | NonFinite
    | Str(s: string)
    | Compound

  /** A plain object: request bodies, normalised messages and stored samples. */
  type Record = map<string, JsValue>

  /** Property access `r?.key`: a missing property reads as `undefined`. */
  function Get(r: Record, key: string): (v: JsValue)
    ensures key !in r ==> v == Undefined
    ensures key in r ==> v == r[key]
  {
    if key in r then r[key] else Undefined
  }

  /** A number-or-undefined result stored as a property value. */
  function OfNumber(o: Option<real>): (v: JsValue)
    ensures v.Num? <==> o.Some?
    ensures o.Some? ==> v == Num(o.value)
    ensures o.None? ==> v == Undefined
  {
    match o
    case Some(x) => Num(x)
    case None => Undefined
  }

  /** The finite numeric `pitch` of a sample, if it has one (`typeof p === "number" && Number.isFinite(p)`). */
  function FinitePitch(sample: Record): (p: Option<real>)
    ensures p.Some? <==> Get(sample, "pitch").Num?
    ensures p.Some? ==> Get(sample, "pitch") == Num(p.value)
  {
    match Get(sample, "pitch")
    case Num(x) => Some(x)
    case _ => None
  }
}
