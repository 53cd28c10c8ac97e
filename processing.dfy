/**
 * The deterministic heuristics of the extraction pipeline: the check for a
 * spurious "inspection" intent, confidence calibration, the low-confidence
 * acceptance test applied to each model answer, and the keyword-based
 * extraction used when the model cannot be trusted.
 */
module Processing {
  import opened Wrappers
  import opened Text
  import opened Schemas
  import opened Validators

  /** The text mentions one of `keys` (`any(k in text for k in keys)`). */
  predicate MentionsAny(t: string, keys: seq<string>)
  {
    exists k :: k in keys && Contains(t, k)
  }

  /** Why one attempt of `robust_extract` fails. The first two are the
      exceptions it retries (the class is spelled `HallucationDetected` in
      the source); `TypeError` is what Python raises for `in` on a null
      intent list or `float` of a null confidence, and it is not retried. */
  datatype ExtractFailure = HallucationDetected | LowConfidence(confidence: real) | TypeError

  // ---------------------------------------------------------------------
  // Hallucination check

  lemma InspectionMentionsInspect(t: string)
    ensures Contains(t, "inspection") ==> Contains(t, "inspect")
  {
    if Contains(t, "inspection") {
      assert "inspect" + "ion" == "inspection";
      ContainsPrefixOf(t, "inspect", "ion");
    }
  }

  /** `detect_hallucinations(obj, original_text)`: an "inspection" intent that
      the text never mentions. Testing for "inspection" in the text adds
      nothing to testing for "inspect". A null intent list raises. */
  function DetectHallucinations(obj: RawExtraction, originalText: string): (r: Result<bool, ExtractFailure>)
    ensures r.Failure? <==> obj.serviceIntent.Null?
    ensures r.Failure? ==> r.error == TypeError
    ensures r.Success? ==>
              (r.value <==> "inspection" in RawIntents(obj) && !Contains(Lower(originalText), "inspect"))
  {
    if obj.serviceIntent.Null? then Failure(TypeError)
    else
      var serviceIntents := RawIntents(obj);
      var textLower := Lower(originalText);
      InspectionMentionsInspect(textLower);
      Success("inspection" in serviceIntents && !Contains(textLower, "inspection") &&
              !Contains(textLower, "inspect"))
  }

  /** The answer is taken for a hallucination. */
  predicate Flagged(obj: RawExtraction, originalText: string)
  {
    DetectHallucinations(obj, originalText) == Success(true)
  }

  // ---------------------------------------------------------------------
  // Confidence calibration

  /** Keywords that count as strong evidence when calibrating. */
  const CalibrationSignals: seq<string> := ["check engine", "brak", "battery", "tire", "oil", "ac"]

  predicate UnknownOnly(obj: RawExtraction)
  {
    obj.serviceIntent == Present(["unknown"])
  }

  /** `not obj.get("vehicle_make")`: absent, null or the empty string. */
  predicate MakeMissing(obj: RawExtraction)
  {
    obj.vehicleMake.None? || obj.vehicleMake == Some("")
  }

  /** The confidence after both down-weighting rules and before the boost. */
  function DownWeighted(obj: RawExtraction): (d: real)
    ensures UnknownOnly(obj) ==> d <= 0.45
    ensures MakeMissing(obj) ==> d >= 0.3
    ensures !UnknownOnly(obj) && !MakeMissing(obj) ==> d == RawConfidence(obj)
    ensures d <= Max(RawConfidence(obj), 0.3)
    ensures ConfidenceInRange(RawConfidence(obj)) ==> ConfidenceInRange(d)
  {
    var c := RawConfidence(obj);
    var capped := if UnknownOnly(obj) then Min(c, 0.45) else c;
    if MakeMissing(obj) then Max(0.3, capped - 0.15) else capped
  }

  /** The boost rule: with a strong signal, a confidence above 0.6 gains 0.05
      but ends at most at 0.9. */
  function Boost(d: real, strong: bool): (r: real)
    ensures strong && d > 0.6 ==> 0.6 < r <= 0.9 && (d < 0.9 ==> r > d)
    ensures strong && d >= 0.9 ==> r == 0.9
    ensures !(strong && d > 0.6) ==> r == d
  {
    if strong && d > 0.6 then Min(0.9, d + 0.05) else d
  }

  /** The calibrated confidence before rounding, for an answer whose
      confidence is not null. */
  function CalibratedConfidence(obj: RawExtraction, originalText: string): (c: real)
    ensures UnknownOnly(obj) ==> c <= 0.45
    ensures MakeMissing(obj) ==> c >= 0.3
    ensures ConfidenceInRange(RawConfidence(obj)) ==> ConfidenceInRange(c)
  {
    Boost(DownWeighted(obj), MentionsAny(Lower(originalText), CalibrationSignals))
  }

  /** `calibrate_confidence(obj, original_text)`; `round2` stands for
      `round(_, 2)`. Only the confidence key is rewritten, and a null
      confidence raises. */
  method CalibrateConfidence(obj: RawExtraction, originalText: string, round2: real -> real)
    returns (res: Result<RawExtraction, ExtractFailure>)
    ensures res.Failure? <==> obj.rawExtractionConfidence.Null?
    ensures res.Failure? ==> res.error == TypeError
    ensures res.Success? ==>
              res.value == obj.(rawExtractionConfidence := Present(round2(CalibratedConfidence(obj, originalText))))
  {
    if obj.rawExtractionConfidence.Null? {
      return Failure(TypeError);
    }
    var confidence := RawConfidence(obj);
    var textLower := Lower(originalText);
    var hasStrongSignal := MentionsAny(textLower, CalibrationSignals);
    if obj.serviceIntent == Present(["unknown"]) {
      confidence := Min(confidence, 0.45);
    }
    if MakeMissing(obj) {
      confidence := Max(0.3, confidence - 0.15);
    }
    if hasStrongSignal && confidence > 0.6 {
      confidence := Min(0.9, confidence + 0.05);
    }
    res := Success(obj.(rawExtractionConfidence := Present(round2(confidence))));
  }

  /** The two calibration cases the pipeline's tests describe: a weak answer
      drops to 0.3, a strong answer with a good confidence is boosted. */
  lemma CalibrationExamples()
    ensures CalibratedConfidence(
              RawExtraction(Absent, None, None, None, Present(["unknown"]), Absent, Present(0.8), None),
              "generic service question") == 0.3
    ensures CalibratedConfidence(
              RawExtraction(Absent, Some("Toyota"), Some("Camry"), None,
                            Present(["oil_change", "tire_rotation"]), Absent, Present(0.65), None),
              "2018 Camry needs oil change and tire rotation") == 0.7
  {
    var text := "2018 Camry needs oil change and tire rotation";
    var t := Lower(text);
    assert text[17] == 'o' && text[18] == 'i' && text[19] == 'l';
    assert t[17] == 'o' && t[18] == 'i' && t[19] == 'l';
    assert t[17..20] == "oil";
    OccurrenceContains(t, "oil", 17);
    assert "oil" in CalibrationSignals;
  }

  // ---------------------------------------------------------------------
  // Acceptance of a model answer

  /** Keywords that let a low-confidence answer through. */
  const AcceptanceSignals: seq<string> := ["check engine", "brak", "battery", "tire", "oil"]

  /** The confidence `robust_extract` reads: the one validation reads, except
      that a missing confidence counts as 0.0 here and as 0.5 there. */
  function AnswerConfidence(obj: RawExtraction): (c: real)
    ensures obj.rawExtractionConfidence.Present? ==> c == RawConfidence(obj)
    ensures obj.rawExtractionConfidence.Absent? ==> c == 0.0 < RawConfidence(obj)
  {
    ValueOr(obj.rawExtractionConfidence, 0.0)
  }

  /** The low-confidence rejection in `robust_extract`. */
  predicate RejectsLowConfidence(obj: RawExtraction, text: string)
  {
    AnswerConfidence(obj) < 0.6 && !MentionsAny(Lower(text), AcceptanceSignals)
  }

  /** The two defaults disagree: without a confidence key and without an
      acceptance keyword the answer is rejected as confidence 0.0, although
      validation would give it confidence 0.5. */
  lemma MissingConfidenceRejected(obj: RawExtraction, text: string)
    requires obj.rawExtractionConfidence.Absent?
    requires !MentionsAny(Lower(text), AcceptanceSignals)
    ensures RejectsLowConfidence(obj, text)
    ensures ModelValidate(obj).Some? ==> ModelValidate(obj).value.rawExtractionConfidence == 0.5
  {
  }

  /** Every acceptance keyword is a calibration keyword. */
  lemma AcceptanceSignalIsCalibrationSignal(t: string)
    requires MentionsAny(t, AcceptanceSignals)
    ensures MentionsAny(t, CalibrationSignals)
  {
    var k :| k in AcceptanceSignals && Contains(t, k);
    assert k in CalibrationSignals;
  }

  lemma {:induction false} ContainsTooLong(s: string, k: string)
    requires |s| < |k|
    ensures !Contains(s, k)
    decreases |s|
  {
    if |s| > 0 {
      ContainsTooLong(s[1..], k);
    }
  }

  /** "ac" counts as strong evidence for calibration but does not save a
      low-confidence answer from rejection. */
  lemma AcIsNoAcceptanceSignal()
    ensures MentionsAny("ac", CalibrationSignals)
    ensures RejectsLowConfidence(RawExtraction(Absent, None, None, None, Absent, Absent, Present(0.5), None), "ac")
  {
    assert StartsWith("ac", "ac");
    assert "ac" in CalibrationSignals && Contains("ac", "ac");
    assert Lower("ac") == "ac";
    forall k | k in AcceptanceSignals
      ensures !Contains("ac", k)
    {
      ContainsTooLong("ac", k);
    }
  }

  /** One attempt of `robust_extract` on the model's parsed answer `obj`:
      reject a hallucination, reject a low-confidence answer, else calibrate.
      A null intent list, or a null confidence on an answer not flagged,
      raises `TypeError`. */
  method RobustExtractAttempt(obj: RawExtraction, text: string, round2: real -> real)
    returns (r: Result<RawExtraction, ExtractFailure>)
    ensures r == Failure(TypeError) <==>
              obj.serviceIntent.Null? || (!Flagged(obj, text) && obj.rawExtractionConfidence.Null?)
    ensures r == Failure(HallucationDetected) <==> Flagged(obj, text)
    ensures r.Failure? && r.error.LowConfidence? <==>
              !obj.serviceIntent.Null? && !obj.rawExtractionConfidence.Null? && !Flagged(obj, text) &&
              RejectsLowConfidence(obj, text)
    ensures r.Failure? && r.error.LowConfidence? ==> r.error.confidence == AnswerConfidence(obj) < 0.6
    ensures r.Success? ==>
              r.value == obj.(rawExtractionConfidence := Present(round2(CalibratedConfidence(obj, text))))
  {
    var flagged := DetectHallucinations(obj, text);
    if flagged.Failure? {
      return Failure(TypeError);
    }
    if flagged.value {
      return Failure(HallucationDetected);
    }
    if obj.rawExtractionConfidence.Null? {
      return Failure(TypeError);
    }
    var confidence := AnswerConfidence(obj);
    var strongSignal := MentionsAny(Lower(text), AcceptanceSignals);
    if confidence < 0.6 && !strongSignal {
      return Failure(LowConfidence(confidence));
    }
    r := CalibrateConfidence(obj, text, round2);
  }

  // ---------------------------------------------------------------------
  // Rule-based fallback

  /** Any of these in the text yields at least one real intent. */
  const FallbackKeywords: seq<string> :=
    ["oil", "tire", "battery", "brak", "ac", "a/c", "check engine", "check-engine"]

  const FallbackNotes: string := "fallback_rule_based"
  const FallbackConfidence: real := 0.45

  /** Which keyword rules of the fallback fire. */
  datatype KeywordHits = KeywordHits(
    oil: bool, tire: bool, rotation: bool, battery: bool, brake: bool, ac: bool, engine: bool)
  {
    predicate Any()
    {
      oil || tire || battery || brake || ac || engine
    }
  }

  function Hits(t: string): KeywordHits
  {
    KeywordHits(Contains(t, "oil"), Contains(t, "tire"), Contains(t, "rotation"),
                Contains(t, "battery"), Contains(t, "brak"),
                Contains(t, "ac") || Contains(t, "a/c"),
                Contains(t, "check engine") || Contains(t, "check-engine"))
  }

  /** `[i]` when `c` holds, else nothing. */
  function When(c: bool, i: ServiceIntent): seq<ServiceIntent>
  {
    if c then [i] else []
  }

  /** Number of keyword rules of the fallback. */
  const RuleCount: nat := 6

  /** What the `k`-th keyword rule contributes: oil, tires (rotation or
      pressure), battery, brakes, air conditioning, check engine. */
  function Rule(h: KeywordHits, k: nat): seq<ServiceIntent>
    requires k < RuleCount
  {
    if k == 0 then When(h.oil, OilChange)
    else if k == 1 then When(h.tire, if h.rotation then TireRotation else TirePressure)
    else if k == 2 then When(h.battery, Battery)
    else if k == 3 then When(h.brake, BrakeService)
    else if k == 4 then When(h.ac, AcService)
    else When(h.engine, EngineDiagnostic)
  }

  /** The intents the first `n` rules yield, in the order they are tried. */
  function RulesUpTo(h: KeywordHits, n: nat): seq<ServiceIntent>
    requires n <= RuleCount
  {
    if n == 0 then [] else RulesUpTo(h, n - 1) + Rule(h, n - 1)
  }

  /** The intents all the keyword rules yield. */
  function IntentsFor(h: KeywordHits): seq<ServiceIntent>
  {
    RulesUpTo(h, RuleCount)
  }

  /** The intents of the rule-based fallback on the lowercased text. */
  function FallbackIntents(t: string): (r: seq<ServiceIntent>)
    ensures r != []
    ensures r == [Unknown] || Unknown !in r
  {
    var found := IntentsFor(Hits(t));
    IntentsForMembership(Hits(t));
    if found == [] then [Unknown] else found
  }

  /** The rule that can yield an intent (`RuleCount` for the intents no rule
      yields). */
  function RuleIndex(i: ServiceIntent): nat
  {
    match i
    case OilChange => 0
    case TireRotation => 1
    case TirePressure => 1
    case Battery => 2
    case BrakeService => 3
    case AcService => 4
    case EngineDiagnostic => 5
    case _ => RuleCount
  }

  /** The keyword condition under which an intent is yielded. */
  predicate Fires(h: KeywordHits, i: ServiceIntent)
  {
    match i
    case OilChange => h.oil
    case TireRotation => h.tire && h.rotation
    case TirePressure => h.tire && !h.rotation
    case Battery => h.battery
    case BrakeService => h.brake
    case AcService => h.ac
    case EngineDiagnostic => h.engine
    case _ => false
  }

  /** Rule `k` yields at most one intent: the one of its own index, if its
      condition holds. */
  lemma InRule(h: KeywordHits, k: nat, i: ServiceIntent)
    requires k < RuleCount
    ensures |Rule(h, k)| <= 1
    ensures i in Rule(h, k) <==> Fires(h, i) && RuleIndex(i) == k
  {
  }

  /** An intent is yielded by the first `n` rules exactly when its rule is
      among them and fires. */
  lemma {:induction false} InRulesUpTo(h: KeywordHits, n: nat, i: ServiceIntent)
    requires n <= RuleCount
    ensures i in RulesUpTo(h, n) <==> Fires(h, i) && RuleIndex(i) < n
  {
    if n > 0 {
      InRulesUpTo(h, n - 1, i);
      InRule(h, n - 1, i);
    }
  }

  /** Each rule contributes its intent exactly when it fires, and nothing else
      is listed. */
  lemma IntentsForMembership(h: KeywordHits)
    ensures var got := IntentsFor(h);
      (got == [] <==> !h.Any()) &&
      Unknown !in got && Inspection !in got &&
      (OilChange in got <==> h.oil) &&
      (TireRotation in got <==> h.tire && h.rotation) &&
      (TirePressure in got <==> h.tire && !h.rotation) &&
      (Battery in got <==> h.battery) &&
      (BrakeService in got <==> h.brake) &&
      (AcService in got <==> h.ac) &&
      (EngineDiagnostic in got <==> h.engine)
  {
    var got := IntentsFor(h);
    forall i: ServiceIntent
      ensures i in got <==> Fires(h, i)
    {
      InRulesUpTo(h, RuleCount, i);
    }
    if got != [] {
      assert got[0] in got && Fires(h, got[0]);
    }
    if h.oil { assert OilChange in got; }
    if h.tire { assert (if h.rotation then TireRotation else TirePressure) in got; }
    if h.battery { assert Battery in got; }
    if h.brake { assert BrakeService in got; }
    if h.ac { assert AcService in got; }
    if h.engine { assert EngineDiagnostic in got; }
  }

  /** The intents of `s` come from strictly increasing rules. */
  ghost predicate Ordered(s: seq<ServiceIntent>)
  {
    forall i, j :: 0 <= i < j < |s| ==> RuleIndex(s[i]) < RuleIndex(s[j])
  }

  /** The first `n` rules yield their intents in rule order. */
  lemma {:induction false} RulesUpToOrdered(h: KeywordHits, n: nat)
    requires n <= RuleCount
    ensures Ordered(RulesUpTo(h, n))
    ensures forall k :: 0 <= k < |RulesUpTo(h, n)| ==> RuleIndex(RulesUpTo(h, n)[k]) < n
  {
    if n > 0 {
      var s := RulesUpTo(h, n - 1);
      var x := Rule(h, n - 1);
      RulesUpToOrdered(h, n - 1);
      if x != [] {
        InRule(h, n - 1, x[0]);
        assert x[0] in x;
      }
      assert RulesUpTo(h, n) == s + x;
    }
  }

  /** The intents come in rule order, so none is listed twice. */
  lemma IntentsForOrdered(h: KeywordHits)
    ensures Ordered(IntentsFor(h))
  {
    RulesUpToOrdered(h, RuleCount);
  }

  /** A keyword rule fires exactly when one of the fallback keywords occurs. */
  lemma KeywordHitsMention(t: string)
    ensures Hits(t).Any() <==> MentionsAny(t, FallbackKeywords)
  {
    var h := Hits(t);
    if MentionsAny(t, FallbackKeywords) {
      var k :| k in FallbackKeywords && Contains(t, k);
      assert h.Any();
    }
    if h.oil { assert "oil" in FallbackKeywords; }
    if h.tire { assert "tire" in FallbackKeywords; }
    if h.battery { assert "battery" in FallbackKeywords; }
    if h.brake { assert "brak" in FallbackKeywords; }
    if h.ac { assert "ac" in FallbackKeywords && "a/c" in FallbackKeywords; }
    if h.engine { assert "check engine" in FallbackKeywords && "check-engine" in FallbackKeywords; }
  }

  /** What the rule-based fallback reports for a lowercased text `t`. */
  lemma FallbackIntentsSpec(t: string)
    ensures var got := FallbackIntents(t);
      got != [] &&
      (got == [Unknown] <==> !MentionsAny(t, FallbackKeywords)) &&
      (MentionsAny(t, FallbackKeywords) ==> Unknown !in got) &&
      Inspection !in got &&
      (OilChange in got <==> Contains(t, "oil")) &&
      (TireRotation in got <==> Contains(t, "tire") && Contains(t, "rotation")) &&
      (TirePressure in got <==> Contains(t, "tire") && !Contains(t, "rotation")) &&
      (Battery in got <==> Contains(t, "battery")) &&
      (BrakeService in got <==> Contains(t, "brak")) &&
      (AcService in got <==> Contains(t, "ac") || Contains(t, "a/c")) &&
      (EngineDiagnostic in got <==> Contains(t, "check engine") || Contains(t, "check-engine")) &&
      Ordered(got)
  {
    IntentsForMembership(Hits(t));
    IntentsForOrdered(Hits(t));
    KeywordHitsMention(t);
  }

  /** The keyword rules of `fallback_rule_based`, tried in order on the
      lowercased text `t`; each appends the intent of its tag. */
  method KeywordIntents(t: string) returns (intents: seq<ServiceIntent>)
    ensures intents == IntentsFor(Hits(t))
  {
    ghost var h := Hits(t);
    intents := [];
    if Contains(t, "oil") {
      intents := intents + [OilChange];
    }
    assert intents == RulesUpTo(h, 1);
    if Contains(t, "tire") {
      intents := intents + [if Contains(t, "rotation") then TireRotation else TirePressure];
    }
    assert intents == RulesUpTo(h, 2);
    if Contains(t, "battery") {
      intents := intents + [Battery];
    }
    assert intents == RulesUpTo(h, 3);
    if Contains(t, "brak") {
      intents := intents + [BrakeService];
    }
    assert intents == RulesUpTo(h, 4);
    if Contains(t, "ac") || Contains(t, "a/c") {
      intents := intents + [AcService];
    }
    assert intents == RulesUpTo(h, 5);
    if Contains(t, "check engine") || Contains(t, "check-engine") {
      intents := intents + [EngineDiagnostic];
    }
    assert intents == RulesUpTo(h, 6);
  }

  /** `fallback_rule_based(text)`. */
  method FallbackRuleBased(text: string) returns (r: RawExtraction)
    ensures r.serviceIntent == Present(Tags(FallbackIntents(Lower(text))))
    ensures r.vinDetected == Present(false) && r.vehicleMake.None? && r.vehicleModel.None? && r.year.None?
    ensures r.urgency == Present("medium") && r.rawExtractionConfidence == Present(FallbackConfidence)
    ensures r.notes == Some(FallbackNotes)
  {
    var t := Lower(text);
    var intents := KeywordIntents(t);
    if intents == [] {
      intents := [Unknown];
    }
    r := RawExtraction(Present(false), None, None, None, Present(Tags(intents)), Present("medium"),
                       Present(FallbackConfidence), Some(FallbackNotes));
  }

  /** The fallback's tags read back as its intents, and none of them is
      "inspection", so its answer is never taken for a hallucination. */
  lemma FallbackTags(t: string)
    ensures ParseIntents(Tags(FallbackIntents(t))) == Some(FallbackIntents(t))
    ensures "inspection" !in Tags(FallbackIntents(t))
  {
    ParseIntentsTags(FallbackIntents(t));
    InRulesUpTo(Hits(t), RuleCount, Inspection);
    TagsWithoutInspection(FallbackIntents(t));
  }

  /** The final fallback of `process_notes`: the rule-based answer always
      validates, with no warning and a confidence of exactly 0.45. */
  method ValidatedFallback(text: string) returns (v: Validated)
    ensures v.warnings == []
    ensures v.extraction.serviceIntent == FallbackIntents(Lower(text)) != []
    ensures v.extraction.vehicleMake.None? && v.extraction.vehicleModel.None? && v.extraction.year.None?
    ensures v.extraction.rawExtractionConfidence == FallbackConfidence
    ensures v.extraction.urgency == Medium && v.extraction.notes == Some(FallbackNotes)
    ensures ValidExtraction(v.extraction)
  {
    var obj := FallbackRuleBased(text);
    FallbackTags(Lower(text));
    var r := ValidateExtraction(obj);
    assert Conforms(obj);
    v := r.value;
    FallbackIntentsSpec(Lower(text));
  }
}
