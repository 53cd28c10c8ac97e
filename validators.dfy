/**
 * Post-validation of an extraction: validating the object into a record,
 * the empty-intent warning, and the confidence cap for records whose only
 * intent is "unknown".
 */
module Validators {
  import opened Wrappers
  import opened Schemas

  /** The confidence a record whose only intent is "unknown" may keep at most. */
  const UnknownConfidenceCap: real := 0.5

  const EmptyServiceIntentWarning: string := "empty_service_intent"

  /** A validated record and the warnings raised on it. */
  datatype Validated = Validated(extraction: Extraction, warnings: seq<string>)

  /** Pydantic's `ValidationError`, raised when the object breaks a field constraint. */
  datatype ValidationFailure = ValidationError

  /** `validate_extraction(obj)`. */
  method ValidateExtraction(obj: RawExtraction) returns (r: Result<Validated, ValidationFailure>)
    ensures r.Failure? <==> !Conforms(obj)
    ensures r.Success? ==>
      var ex := ModelValidate(obj).value;
      var out := r.value.extraction;
      (r.value.warnings == if ex.serviceIntent == [] then [EmptyServiceIntentWarning] else []) &&
      (ex.serviceIntent == [Unknown] ==>
         out.rawExtractionConfidence == Min(ex.rawExtractionConfidence, UnknownConfidenceCap)) &&
      (ex.serviceIntent != [Unknown] ==> out.rawExtractionConfidence == ex.rawExtractionConfidence) &&
      out == ex.(rawExtractionConfidence := out.rawExtractionConfidence)
    ensures r.Success? ==> |r.value.warnings| <= 1 && ValidExtraction(r.value.extraction)
  {
    var warnings: seq<string> := [];
    var validated := ModelValidate(obj);
    if validated.None? {
      return Failure(ValidationError);
    }
    var ex := validated.value;
    if ex.serviceIntent == [] {
      warnings := warnings + [EmptyServiceIntentWarning];
    }
    if ex.serviceIntent == [Unknown] {
      ex := ex.(rawExtractionConfidence := Min(ex.rawExtractionConfidence, UnknownConfidenceCap));
    }
    r := Success(Validated(ex, warnings));
  }
}
