/**
 * The kinds of answer the AI chat service gives (chatbox/dto/ResponseType.java):
 * each kind's wire value, the lookup from a wire value, and the kind tests.
 */
module ResponseTypes {
  import opened Common

  datatype ResponseType = CONVERSATIONAL | PRODUCT_RECOMMENDATION | HYBRID | INTENT_CLASSIFICATION

  /** `values()`, in declaration order. */
  const AllTypes: seq<ResponseType> := [CONVERSATIONAL, PRODUCT_RECOMMENDATION, HYBRID, INTENT_CLASSIFICATION]

  lemma AllTypesComplete(t: ResponseType)
    ensures t in AllTypes
  {
  }

  /** `getValue` and `toString`: the lower-case wire value; no two kinds share one. */
  function Value(t: ResponseType): string
  {
    match t
    case CONVERSATIONAL => "conversational"
    case PRODUCT_RECOMMENDATION => "product_recommendation"
    case HYBRID => "hybrid"
    case INTENT_CLASSIFICATION => "intent_classification"
  }

  lemma ValueInjective(s: ResponseType, t: ResponseType)
    ensures Value(s) == Value(t) ==> s == t
  {
  }

  /**
   * `fromValue`: the first kind whose value equals the argument, or the
   * IllegalArgumentException's message (a null argument reads "null").
   */
  method FromValue(value: Option<string>) returns (r: Result<ResponseType, string>)
    ensures r.Ok? ==> value == Some(Value(r.value))
    ensures forall t :: value == Some(Value(t)) ==> r == Ok(t)
    ensures r.Err? <==> forall t :: value != Some(Value(t))
    ensures r.Err? ==> r.error == "Unknown ResponseType: " + JavaString(value)
  {
    var i := 0;
    while i < |AllTypes|
      invariant 0 <= i <= |AllTypes|
      invariant forall k :: 0 <= k < i ==> value != Some(Value(AllTypes[k]))
    {
      if value == Some(Value(AllTypes[i])) {
        forall t | value == Some(Value(t))
          ensures t == AllTypes[i]
        {
          ValueInjective(t, AllTypes[i]);
        }
        return Ok(AllTypes[i]);
      }
      i := i + 1;
    }
    forall t: ResponseType
      ensures value != Some(Value(t))
    {
      AllTypesComplete(t);
    }
    return Err("Unknown ResponseType: " + JavaString(value));
  }

  predicate IsConversational(t: ResponseType) { t == CONVERSATIONAL }
  predicate IsProductRecommendation(t: ResponseType) { t == PRODUCT_RECOMMENDATION }
  predicate IsHybrid(t: ResponseType) { t == HYBRID }
  predicate IsIntentClassification(t: ResponseType) { t == INTENT_CLASSIFICATION }

  /** Exactly one of the four kind tests holds for every kind. */
  lemma ExactlyOneKind(t: ResponseType)
    ensures IsConversational(t) || IsProductRecommendation(t) || IsHybrid(t) || IsIntentClassification(t)
    ensures !(IsConversational(t) && IsProductRecommendation(t)) && !(IsConversational(t) && IsHybrid(t))
    ensures !(IsConversational(t) && IsIntentClassification(t)) && !(IsProductRecommendation(t) && IsHybrid(t))
    ensures !(IsProductRecommendation(t) && IsIntentClassification(t)) && !(IsHybrid(t) && IsIntentClassification(t))
  {
  }
}
