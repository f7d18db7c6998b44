/**
 * Input normalisation of the telemetry server (backend/server.js): the
 * number coercion `toNum` and the two validators that turn a request body
 * into a stored sample or event message.
 *
 * `Number(string)` is modelled for plain decimal text: optional surrounding
 * white space, an optional sign, digits with at most one decimal point.
 */
module Ingress {
  import opened Wrappers
  import opened JsValues
  import opened Windows

  // ---------------------------------------------------------------------
  // String to number

  /** The white space modelled: ASCII white space, NBSP, BOM and the line and paragraph separators. */
  predicate IsSpace(c: char) {
    c == ' ' || c == '\t' || c == '\n' || c == '\r' || c == '\U{B}' || c == '\U{C}'
    || c == '\U{A0}' || c == '\U{FEFF}' || c == '\U{2028}' || c == '\U{2029}'
  }

  /** `s` without its leading white space: a suffix of `s` that does not start with white space. */
  function TrimStart(s: string): (t: string)
    ensures |t| <= |s| && t == s[|s| - |t|..]
    ensures forall k :: 0 <= k < |s| - |t| ==> IsSpace(s[k])
    ensures t != [] ==> !IsSpace(t[0])
  {
    if s != [] && IsSpace(s[0]) then
      var t := TrimStart(s[1..]);
      assert t == s[|s| - |t|..] by {
        assert s[1..][|s| - 1 - |t|..] == s[|s| - |t|..];
      }
      assert forall k :: 1 <= k < |s| - |t| ==> s[1..][k - 1] == s[k];
      t
    else s
  }

  /** `s` without its trailing white space: a prefix of `s` that does not end with white space. */
  function TrimEnd(s: string): (t: string)
    ensures |t| <= |s| && t == s[..|t|]
    ensures forall k :: |t| <= k < |s| ==> IsSpace(s[k])
    ensures t != [] ==> s != [] && !IsSpace(t[|t| - 1]) && t[0] == s[0]
  {
    if s != [] && IsSpace(s[|s| - 1]) then
      var t := TrimEnd(s[..|s| - 1]);
      assert t == s[..|t|];
      assert forall k :: |t| <= k < |s| - 1 ==> s[..|s| - 1][k] == s[k];
      t
    else s
  }

  /** `s.trim()`: empty exactly when `s` is all white space. */
  function Trim(s: string): (t: string)
    ensures t != [] ==> !IsSpace(t[0]) && !IsSpace(t[|t| - 1])
    ensures t == "" <==> forall k :: 0 <= k < |s| ==> IsSpace(s[k])
  {
    var front := TrimStart(s);
    assert front == "" ==> forall k :: 0 <= k < |s| ==> IsSpace(s[k]);
    assert front != "" ==> TrimEnd(front) != "" by {
      if front != "" {
        assert !IsSpace(front[0]);
      }
    }
    TrimEnd(front)
  }

  predicate IsDigit(c: char) {
    '0' <= c <= '9'
  }

  predicate AllDigits(s: string) {
    forall i :: 0 <= i < |s| ==> IsDigit(s[i])
  }

  /** The value of a string of decimal digits (0 for the empty string). */
  function DigitsValue(ds: string): nat
    requires AllDigits(ds)
    decreases |ds|
  {
    if ds == [] then 0
    else DigitsValue(ds[..|ds| - 1]) * 10 + (ds[|ds| - 1] as int - '0' as int)
  }

  function Pow10(k: nat): (p: nat)
    ensures p > 0
  {
    if k == 0 then 1 else 10 * Pow10(k - 1)
  }

  /** The index of the first `c` in `s`, or `|s|` when there is none. */
  function IndexOf(s: string, c: char): (i: nat)
    ensures i <= |s|
    ensures i < |s| ==> s[i] == c
    ensures forall j :: 0 <= j < i ==> s[j] != c
  {
    if s == [] then 0
    else if s[0] == c then 0
    else 1 + IndexOf(s[1..], c)
  }

  /** Digits with at most one decimal point and at least one digit: `12`, `12.`, `.5`, `12.50`. */
  function UnsignedDecimal(s: string): Option<real> {
    var i := IndexOf(s, '.');
    var whole := s[..i];
    var frac := if i < |s| then s[i + 1..] else "";
    if AllDigits(whole) && AllDigits(frac) && |whole| + |frac| > 0 then
      Some(DigitsValue(whole) as real + DigitsValue(frac) as real / Pow10(|frac|) as real)
    else None
  }

  /** An optionally signed decimal literal. */
  function SignedDecimal(s: string): Option<real> {
    if s != [] && s[0] == '-' then
      match UnsignedDecimal(s[1..])
      case Some(x) => Some(-x)
      case None => None
    else if s != [] && s[0] == '+' then UnsignedDecimal(s[1..])
    else UnsignedDecimal(s)
  }

  /**
   * `Number(s)` when the result is finite: blank text is 0, otherwise the
   * trimmed text must be a decimal literal. `None` stands for NaN.
   */
  function NumberOfString(s: string): Option<real> {
    var t := Trim(s);
    if t == "" then Some(0.0) else SignedDecimal(t)
  }

  /**
   * `toNum`: a finite number is kept, a non-blank string that converts to a
   * finite number is converted, and everything else is undefined (`None`).
   */
  function ToNum(v: JsValue): (r: Option<real>)
    ensures v.Num? ==> r == Some(v.x)
    ensures !v.Num? && !v.Str? ==> r.None?
    ensures v.Str? && Trim(v.s) == "" ==> r.None?
    ensures v.Str? && Trim(v.s) != "" ==> r == NumberOfString(v.s)
  {
    match v
    case Num(x) => Some(x)
    case Str(s) => if Trim(s) != "" && NumberOfString(s).Some? then NumberOfString(s) else None
    case _ => None
  }

  // ---------------------------------------------------------------------
  // Properties of the conversion

  /** The decimal text of a natural number, most significant digit first. */
  function NatText(n: nat): (s: string)
    ensures s != [] && AllDigits(s)
  {
    if n < 10 then [('0' as int + n) as char]
    else NatText(n / 10) + [('0' as int + n % 10) as char]
  }

  lemma {:induction false} NatTextValue(n: nat)
    ensures DigitsValue(NatText(n)) == n
  {
    if n >= 10 {
      var s := NatText(n);
      assert s[..|s| - 1] == NatText(n / 10);
      NatTextValue(n / 10);
    }
  }

  /** Text that neither starts nor ends with white space is its own trim. */
  lemma NoTrimAtEnds(s: string)
    requires s != [] && !IsSpace(s[0]) && !IsSpace(s[|s| - 1])
    ensures Trim(s) == s
  {
    assert TrimStart(s) == s;
    assert TrimEnd(s) == s;
  }

  lemma UnsignedOfDigits(s: string)
    requires s != [] && AllDigits(s)
    ensures UnsignedDecimal(s) == Some(DigitsValue(s) as real)
  {
    assert IndexOf(s, '.') == |s|;
    assert s[..|s|] == s;
    var frac: string := "";
    assert DigitsValue(frac) == 0 && Pow10(|frac|) == 1;
  }

  /**
   * A natural number below 2^53, the range in which a double holds every
   * integer, written in decimal converts back to itself.
   */
  lemma ToNumOfNatText(n: nat)
    requires n < 0x20_0000_0000_0000
    ensures ToNum(Str(NatText(n))) == Some(n as real)
  {
    var s := NatText(n);
    NatTextValue(n);
    assert IsDigit(s[0]) && IsDigit(s[|s| - 1]);
    NoTrimAtEnds(s);
    UnsignedOfDigits(s);
    assert SignedDecimal(s) == UnsignedDecimal(s);
  }

  /** ... and with a minus sign in front, to its negation. */
  lemma ToNumOfNegatedNatText(n: nat)
    requires n < 0x20_0000_0000_0000
    ensures ToNum(Str("-" + NatText(n))) == Some(-(n as real))
  {
    var s := NatText(n);
    NatTextValue(n);
    UnsignedOfDigits(s);
    var neg := "-" + s;
    assert neg[1..] == s;
    NoTrimAtEnds(neg);
    assert SignedDecimal(neg) == Some(-(n as real));
  }

  /** Leading white space does not change the conversion. */
  lemma ToNumIgnoresLeadingSpace(c: char, s: string)
    requires IsSpace(c)
    ensures ToNum(Str([c] + s)) == ToNum(Str(s))
  {
    assert ([c] + s)[1..] == s;
    assert TrimStart([c] + s) == TrimStart(s);
    assert Trim([c] + s) == Trim(s);
  }

  /** Decimal fractions are read exactly: "2.5" is 2.5. */
  lemma ToNumOfFraction()
    ensures ToNum(Str("2.5")) == Some(2.5)
  {
    var s := "2.5";
    NoTrimAtEnds(s);
    assert IndexOf(s, '.') == 1;
    assert s[..1] == "2" && s[2..] == "5";
    assert DigitsValue("2") == 2 && DigitsValue("5") == 5;
  }

  /** Blank text does not convert (although `Number` reads it as 0). */
  lemma ToNumRejectsBlank()
    ensures ToNum(Str(" \t")) == None
  {
    assert " \t"[1..] == "\t" && "\t"[1..] == "";
    assert TrimStart(" \t") == "";
  }

  /** Text with two decimal points does not convert. */
  lemma ToNumRejectsTwoPoints()
    ensures ToNum(Str("1.2.3")) == None
  {
    var s := "1.2.3";
    assert Trim(s) == s;
    assert IndexOf(s, '.') == 1 && s[2..] == "2.3";
    assert !IsDigit("2.3"[1]);
  }

  // ---------------------------------------------------------------------
  // Normalised messages

  /** `{ ok: false, error }` or `{ ok: true, msg }`. */
  datatype Normalized = Rejected(error: string) | Accepted(msg: Record)

  /** The optional numeric fields a sample message carries besides `pitch` and `ts`. */
  const SampleNumberFields: seq<string> :=
    ["ax", "ay", "az", "pitch_smooth", "roll", "a_mag", "dpitch", "baseline_pitch", "button", "button_click"]

  /** `toNum(body.ts) ?? Date.now()`. */
  function StampOf(body: Record, now: int): real {
    ToNum(Get(body, "ts")).GetOr(now as real)
  }

  /** `{ f: toNum(body?.f), ... }` for each field `f` of `fields`. */
  function ConvertFields(body: Record, fields: seq<string>): (r: Record)
    ensures r.Keys == set k | k in fields
    ensures forall k :: k in fields ==> r[k] == OfNumber(ToNum(Get(body, k)))
  {
    if fields == [] then map[]
    else
      var k := fields[|fields| - 1];
      ConvertFields(body, fields[..|fields| - 1])[k := OfNumber(ToNum(Get(body, k)))]
  }

  /** Converting fields that are already converted changes nothing. */
  lemma ConvertFieldsIdempotent(body: Record, fields: seq<string>, m: Record)
    requires forall k :: k in fields ==> Get(m, k) == OfNumber(ToNum(Get(body, k)))
    ensures ConvertFields(m, fields) == ConvertFields(body, fields)
  {
    var a, b := ConvertFields(m, fields), ConvertFields(body, fields);
    assert a.Keys == b.Keys;
    forall k | k in a ensures a[k] == b[k] {
      assert Get(m, k) == OfNumber(ToNum(Get(body, k)));
    }
  }

  /**
   * `normalizeSample`: rejected exactly when `pitch` does not convert;
   * otherwise a "sample" message with every numeric field converted, the
   * converted pitch, and the body's converted `ts` or else the current time.
   */
  function NormalizeSample(body: Record, now: int): (r: Normalized)
    ensures r.Accepted? <==> ToNum(Get(body, "pitch")).Some?
    ensures r.Rejected? ==> r.error == "pitch must be a number"
    ensures r.Accepted? ==>
      && r.msg.Keys == {"kind", "pitch", "ts"} + set k | k in SampleNumberFields
      && Get(r.msg, "kind") == Str("sample")
      && Get(r.msg, "pitch") == Num(ToNum(Get(body, "pitch")).value)
      && Get(r.msg, "ts") == Num(StampOf(body, now))
      && forall k :: k in SampleNumberFields ==> Get(r.msg, k) == OfNumber(ToNum(Get(body, k)))
  {
    match ToNum(Get(body, "pitch"))
    case None => Rejected("pitch must be a number")
    case Some(pitch) =>
      FieldsAreOptional();
      Accepted(ConvertFields(body, SampleNumberFields)["kind" := Str("sample")]["pitch" := Num(pitch)]["ts" := Num(StampOf(body, now))])
  }

  lemma FieldsAreOptional()
    ensures "kind" !in SampleNumberFields && "pitch" !in SampleNumberFields && "ts" !in SampleNumberFields
  {
  }

  /**
   * An accepted sample has the finite pitch the window statistics count and
   * a numeric time stamp the window table can file it under.
   */
  lemma AcceptedSampleIsUsable(body: Record, now: int)
    requires NormalizeSample(body, now).Accepted?
    ensures FinitePitch(NormalizeSample(body, now).msg) == ToNum(Get(body, "pitch"))
    ensures HasUsableTs(NormalizeSample(body, now).msg)
    ensures SampleTime(NormalizeSample(body, now).msg, now) == TimeValue(StampOf(body, now))
  {
  }

  /** Normalising an accepted sample again, at any time, gives it back unchanged. */
  lemma NormalizeSampleIdempotent(body: Record, now: int, later: int)
    requires NormalizeSample(body, now).Accepted?
    ensures NormalizeSample(NormalizeSample(body, now).msg, later) == NormalizeSample(body, now)
  {
    var m := NormalizeSample(body, now).msg;
    FieldsAreOptional();
    ConvertFieldsIdempotent(body, SampleNumberFields, m);
  }

  /**
   * `normalizeEvent`: rejected exactly when `event` is not a non-empty
   * string; otherwise the body with `kind` "event" and `ts` the body's
   * converted `ts` or else the current time, every other field kept.
   */
  function NormalizeEvent(body: Record, now: int): (r: Normalized)
    ensures r.Accepted? <==> Get(body, "event").Str? && Get(body, "event").s != ""
    ensures r.Rejected? ==> r.error == "event must be a string"
    ensures r.Accepted? ==>
      && r.msg.Keys == body.Keys + {"kind", "ts"}
      && Get(r.msg, "kind") == Str("event")
      && Get(r.msg, "ts") == Num(StampOf(body, now))
      && forall k :: k in body && k != "kind" && k != "ts" ==> r.msg[k] == body[k]
  {
    var event := Get(body, "event");
    if !event.Str? || event.s == "" then Rejected("event must be a string")
    else Accepted(body["kind" := Str("event")]["ts" := Num(StampOf(body, now))])
  }

  /** Normalising an accepted event again, at any time, gives it back unchanged. */
  lemma NormalizeEventIdempotent(body: Record, now: int, later: int)
    requires NormalizeEvent(body, now).Accepted?
    ensures NormalizeEvent(NormalizeEvent(body, now).msg, later) == NormalizeEvent(body, now)
  {
    var m := NormalizeEvent(body, now).msg;
    assert Get(m, "event") == Get(body, "event");
    var m2 := NormalizeEvent(m, later).msg;
    assert m2.Keys == m.Keys;
  }
}
