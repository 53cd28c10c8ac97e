/**
 * The record the extraction pipeline produces for one service note: its
 * field domains (service-intent tags, urgency levels, the year and
 * confidence ranges), the string normalisation applied to the vehicle make
 * and model, and the domain check the record's validation performs on the
 * JSON object the model answers with.
 */
module Schemas {
  import opened Wrappers
  import opened Text

  /** The service-intent tags a record may carry. */
  datatype ServiceIntent =
    | EngineDiagnostic | OilChange | TireRotation | TirePressure | Battery
    | BrakeService | AcService | Inspection | Unknown

  function IntentTag(i: ServiceIntent): string
  {
    match i
    case EngineDiagnostic => "engine_diagnostic"
    case OilChange => "oil_change"
    case TireRotation => "tire_rotation"
    case TirePressure => "tire_pressure"
    case Battery => "battery"
    case BrakeService => "brake_service"
    case AcService => "ac_service"
    case Inspection => "inspection"
    case Unknown => "unknown"
  }

  /** The nine tags, in declaration order. */
  const IntentTags: seq<string> := [
    "engine_diagnostic", "oil_change", "tire_rotation", "tire_pressure", "battery",
    "brake_service", "ac_service", "inspection", "unknown"]

  /** Reads a tag back; `None` for any string that is not one of the nine. */
  function ParseIntent(s: string): (r: Option<ServiceIntent>)
    ensures r.Some? <==> s in IntentTags
    ensures r.Some? ==> IntentTag(r.value) == s
  {
    if s == "engine_diagnostic" then Some(EngineDiagnostic)
    else if s == "oil_change" then Some(OilChange)
    else if s == "tire_rotation" then Some(TireRotation)
    else if s == "tire_pressure" then Some(TirePressure)
    else if s == "battery" then Some(Battery)
    else if s == "brake_service" then Some(BrakeService)
    else if s == "ac_service" then Some(AcService)
    else if s == "inspection" then Some(Inspection)
    else if s == "unknown" then Some(Unknown)
    else None
  }

  /** Every intent's tag reads back as that intent. */
  lemma IntentTagRoundTrip(i: ServiceIntent)
    ensures ParseIntent(IntentTag(i)) == Some(i)
    ensures IntentTag(i) in IntentTags
  {
  }

  /** Distinct intents have distinct tags. */
  lemma IntentTagInjective(a: ServiceIntent, b: ServiceIntent)
    ensures IntentTag(a) == IntentTag(b) ==> a == b
  {
    IntentTagRoundTrip(a);
    IntentTagRoundTrip(b);
  }

  /** Reads a list of tags; `None` as soon as one of them is not a tag. */
  function ParseIntents(xs: seq<string>): (r: Option<seq<ServiceIntent>>)
    ensures r.Some? <==> forall k :: 0 <= k < |xs| ==> xs[k] in IntentTags
    ensures r.Some? ==> |r.value| == |xs| &&
                        forall k :: 0 <= k < |xs| ==> IntentTag(r.value[k]) == xs[k]
  {
    if xs == [] then Some([])
    else
      match (ParseIntent(xs[0]), ParseIntents(xs[1..]))
      case (Some(i), Some(rest)) => Some([i] + rest)
      case _ => None
  }

  /** The tags of a list of intents. */
  function Tags(xs: seq<ServiceIntent>): (r: seq<string>)
    ensures |r| == |xs| && forall k :: 0 <= k < |xs| ==> r[k] == IntentTag(xs[k])
  {
    if xs == [] then [] else [IntentTag(xs[0])] + Tags(xs[1..])
  }

  /** The tags of a list of intents read back as that list. */
  lemma {:induction false} ParseIntentsTags(xs: seq<ServiceIntent>)
    ensures ParseIntents(Tags(xs)) == Some(xs)
  {
    if xs != [] {
      IntentTagRoundTrip(xs[0]);
      ParseIntentsTags(xs[1..]);
      var ts := Tags(xs);
      assert ts == [IntentTag(xs[0])] + Tags(xs[1..]);
      assert ts[0] == IntentTag(xs[0]) && ts[1..] == Tags(xs[1..]);
      assert [xs[0]] + xs[1..] == xs;
    }
  }

  /** A list of intents without `Inspection` has no "inspection" tag. */
  lemma TagsWithoutInspection(xs: seq<ServiceIntent>)
    requires Inspection !in xs
    ensures "inspection" !in Tags(xs)
  {
    forall k | 0 <= k < |xs|
      ensures Tags(xs)[k] != "inspection"
    {
      IntentTagInjective(xs[k], Inspection);
    }
  }

  datatype Urgency = Low | Medium | High

  function UrgencyTag(u: Urgency): string
  {
    match u
    case Low => "low"
    case Medium => "medium"
    case High => "high"
  }

  function ParseUrgency(s: string): (r: Option<Urgency>)
    ensures r.Some? <==> s in ["low", "medium", "high"]
    ensures r.Some? ==> UrgencyTag(r.value) == s
  {
    if s == "low" then Some(Low)
    else if s == "medium" then Some(Medium)
    else if s == "high" then Some(High)
    else None
  }

  /** A validated record (`Extraction`). */
  datatype Extraction = Extraction(
    vinDetected: bool,
    vehicleMake: Option<string>,
    vehicleModel: Option<string>,
    year: Option<int>,
    serviceIntent: seq<ServiceIntent>,
    urgency: Urgency,
    rawExtractionConfidence: real,
    notes: Option<string>)

  const MinYear: int := 1980
  const MaxYear: int := 2100
  /** The confidence a record gets when the object has none. */
  const DefaultConfidence: real := 0.5

  function Min(a: real, b: real): real
  {
    if a <= b then a else b
  }

  function Max(a: real, b: real): real
  {
    if a >= b then a else b
  }

  predicate YearInRange(y: Option<int>)
  {
    y.None? || MinYear <= y.value <= MaxYear
  }

  predicate ConfidenceInRange(c: real)
  {
    0.0 <= c <= 1.0
  }

  /** `normalize_str`: strips a present string, and a string that strips to
      nothing becomes `None`. */
  function NormalizeStr(v: Option<string>): (r: Option<string>)
    ensures v.None? ==> r.None?
    ensures v.Some? && Strip(v.value) == "" ==> r.None?
    ensures v.Some? && Strip(v.value) != "" ==> r == Some(Strip(v.value))
    ensures r.Some? ==> r.value != "" && Trimmed(r.value)
  {
    match v
    case None => None
    case Some(s) => var t := Strip(s); if t == "" then None else Some(t)
  }

  /** Normalising twice is normalising once. */
  lemma {:induction false} NormalizeStrIdempotent(v: Option<string>)
    ensures NormalizeStr(NormalizeStr(v)) == NormalizeStr(v)
  {
    if NormalizeStr(v).Some? {
      StripTrimmed(NormalizeStr(v).value);
    }
  }

  /** The field constraints every validated record satisfies. */
  predicate ValidExtraction(e: Extraction)
  {
    YearInRange(e.year) && ConfidenceInRange(e.rawExtractionConfidence) &&
    NormalizeStr(e.vehicleMake) == e.vehicleMake &&
    NormalizeStr(e.vehicleModel) == e.vehicleModel
  }

  /** A key of the answer whose field is not `Optional`: left out, holding
      null, or holding a value. Pydantic gives a left-out key its default and
      rejects a null. */
  datatype Field<+T> = Absent | Null | Present(value: T)

  /** The value of a present field, and `d` otherwise. */
  function ValueOr<T>(f: Field<T>, d: T): T
  {
    if f.Present? then f.value else d
  }

  /** The JSON object a model (or the rule-based fallback) answers with, before
      validation. The `Optional` fields use `None` for a key that is absent or
      null, which Pydantic does not tell apart; the others use `Field`. */
  datatype RawExtraction = RawExtraction(
    vinDetected: Field<bool>,
    vehicleMake: Option<string>,
    vehicleModel: Option<string>,
    year: Option<int>,
    serviceIntent: Field<seq<string>>,
    urgency: Field<string>,
    rawExtractionConfidence: Field<real>,
    notes: Option<string>)

  /** The `vin_detected` the record takes from the object (default false). */
  function RawVin(raw: RawExtraction): bool
  {
    ValueOr(raw.vinDetected, false)
  }

  /** The intent tags the record takes from the object (default empty). */
  function RawIntents(raw: RawExtraction): seq<string>
  {
    ValueOr(raw.serviceIntent, [])
  }

  /** The confidence the record takes from the object (default 0.5). */
  function RawConfidence(raw: RawExtraction): real
  {
    ValueOr(raw.rawExtractionConfidence, DefaultConfidence)
  }

  /** The urgency tag the record takes from the object (default "medium"). */
  function RawUrgency(raw: RawExtraction): string
  {
    ValueOr(raw.urgency, "medium")
  }

  /** No field that is not `Optional` holds a null. */
  predicate NoNulls(raw: RawExtraction)
  {
    !raw.vinDetected.Null? && !raw.serviceIntent.Null? && !raw.urgency.Null? &&
    !raw.rawExtractionConfidence.Null?
  }

  /** The object passes the record's field constraints. */
  predicate Conforms(raw: RawExtraction)
  {
    NoNulls(raw) &&
    YearInRange(raw.year) && ConfidenceInRange(RawConfidence(raw)) &&
    (forall k :: 0 <= k < |RawIntents(raw)| ==> RawIntents(raw)[k] in IntentTags) &&
    RawUrgency(raw) in ["low", "medium", "high"]
  }

  /** `Extraction.model_validate(obj)`: the record, or `None` where the source
      raises `ValidationError`. */
  function ModelValidate(raw: RawExtraction): (r: Option<Extraction>)
    ensures r.Some? <==> Conforms(raw)
    ensures r.Some? ==> ValidExtraction(r.value)
    ensures r.Some? ==>
      var e := r.value;
      e.vinDetected == RawVin(raw) && e.year == raw.year && e.notes == raw.notes &&
      e.vehicleMake == NormalizeStr(raw.vehicleMake) &&
      e.vehicleModel == NormalizeStr(raw.vehicleModel) &&
      |e.serviceIntent| == |RawIntents(raw)| &&
      (forall k :: 0 <= k < |RawIntents(raw)| ==> IntentTag(e.serviceIntent[k]) == RawIntents(raw)[k]) &&
      UrgencyTag(e.urgency) == RawUrgency(raw) &&
      e.rawExtractionConfidence == RawConfidence(raw)
  {
    var intents := ParseIntents(RawIntents(raw));
    var urgency := ParseUrgency(RawUrgency(raw));
    var confidence := RawConfidence(raw);
    if NoNulls(raw) && YearInRange(raw.year) && ConfidenceInRange(confidence) &&
       intents.Some? && urgency.Some? then
      NormalizeStrIdempotent(raw.vehicleMake);
      NormalizeStrIdempotent(raw.vehicleModel);
      Some(Extraction(RawVin(raw), NormalizeStr(raw.vehicleMake), NormalizeStr(raw.vehicleModel),
                      raw.year, intents.value, urgency.value, confidence, raw.notes))
    else None
  }

  /** A null in any field that is not `Optional` is rejected, whatever else
      the object holds, while leaving the key out gives the default. */
  lemma NullFieldsRejected(raw: RawExtraction)
    ensures ModelValidate(raw.(vinDetected := Null)).None?
    ensures ModelValidate(raw.(serviceIntent := Null)).None?
    ensures ModelValidate(raw.(urgency := Null)).None?
    ensures ModelValidate(raw.(rawExtractionConfidence := Null)).None?
    ensures ModelValidate(raw.(urgency := Absent)) ==
            ModelValidate(raw.(urgency := Present("medium")))
  {
  }

  /** The defaults: an object with no keys validates to a record with no
      vehicle, no intents, urgency "medium" and confidence 0.5. */
  lemma EmptyObjectDefaults()
    ensures ModelValidate(RawExtraction(Absent, None, None, None, Absent, Absent, Absent, None)) ==
            Some(Extraction(false, None, None, None, [], Medium, DefaultConfidence, None))
  {
  }
}
