/**
 * The admin AI chat API helpers (apis/aiChat.js): message validation, the
 * request format, and the mapping of the recommended products in an AI
 * answer.
 *
 * JavaScript string lengths count UTF-16 code units, so a character beyond
 * U+FFFF counts twice. The generated session id (clock and randomness) is
 * a parameter.
 */
module AiChat {
  import opened Common

  const MaxMessageLength := 1000
  const EmptyMessageError := "Tin nhắn không được để trống"
  const TooLongError := "Tin nhắn quá dài (tối đa 1000 ký tự)"

  /** `s.length` in JavaScript. */
  function Utf16Length(s: string): (n: nat)
    ensures n >= |s|
    ensures s != [] ==> n > 0
  {
    if s == [] then 0 else Utf16Length(s[..|s| - 1]) + (if s[|s| - 1] as int > 0xFFFF then 2 else 1)
  }

  datatype ChatValidation = Valid(message: string) | Invalid(error: string)

  /**
   * validateChatMessage: no string, an empty string or a blank one is
   * empty; more than 1000 UTF-16 units after trimming is too long;
   * otherwise the trimmed text is valid. (`None` stands for a missing or
   * non-string argument.)
   */
  function ValidateChatMessage(message: Option<string>): (r: ChatValidation)
    ensures r.Valid? <==> message.Some? && JsTrim(message.value) != [] && Utf16Length(JsTrim(message.value)) <= MaxMessageLength
    ensures r.Valid? ==> r.message == JsTrim(message.value)
    ensures r == Invalid(EmptyMessageError) <==> message.None? || JsBlank(message.value)
    ensures r == Invalid(TooLongError) <==> message.Some? && !JsBlank(message.value) && Utf16Length(JsTrim(message.value)) > MaxMessageLength
  {
    JsTrimEmptyIff(if message.Some? then message.value else "");
    if message.None? || message.value == "" then Invalid(EmptyMessageError)
    else
      var trimmed := JsTrim(message.value);
      if Utf16Length(trimmed) == 0 then Invalid(EmptyMessageError)
      else if Utf16Length(trimmed) > MaxMessageLength then Invalid(TooLongError)
      else Valid(trimmed)
  }

  /** A validated message validates again to itself. */
  lemma ValidationIdempotent(message: Option<string>)
    requires ValidateChatMessage(message).Valid?
    ensures ValidateChatMessage(Some(ValidateChatMessage(message).message)) == ValidateChatMessage(message)
  {
    TrimIdempotent(message.value, IsJsWhitespace);
    JsTrimEmptyIff(JsTrim(message.value));
  }

  datatype ChatRequest = ChatRequest(message: string, userId: string, sessionId: string)

  /**
   * formatChatRequest: the trimmed content, the user ("anonymous" when the
   * argument is left out), and the given session id unless it is falsy.
   */
  function FormatChatRequest(content: string, userId: Option<string>, sessionId: Option<string>, generatedSessionId: string): (r: ChatRequest)
    ensures r.message == JsTrim(content)
    ensures userId.Some? ==> r.userId == userId.value
    ensures userId.None? ==> r.userId == "anonymous"
    ensures sessionId.Some? && sessionId.value != "" ==> r.sessionId == sessionId.value
    ensures sessionId.None? || sessionId.value == "" ==> r.sessionId == generatedSessionId
  {
    ChatRequest(JsTrim(content), if userId.Some? then userId.value else "anonymous",
                if sessionId.Some? && sessionId.value != "" then sessionId.value else generatedSessionId)
  }

  /** A validated message is sent exactly as validated. */
  lemma ValidatedMessageSentUnchanged(message: Option<string>, userId: Option<string>, sessionId: Option<string>, generated: string)
    requires ValidateChatMessage(message).Valid?
    ensures FormatChatRequest(ValidateChatMessage(message).message, userId, sessionId, generated).message
         == ValidateChatMessage(message).message
  {
    TrimIdempotent(message.value, IsJsWhitespace);
  }

  /** A product as the AI answer lists it, with its Vietnamese and English field names. */
  datatype RawProduct = RawProduct(
    san_pham_chi_tiet_id: Option<int>, id: Option<int>,
    ten_san_pham: Option<string>, name: Option<string>,
    mo_ta: Option<string>, description: Option<string>,
    gia_ban: Option<int>, price: Option<int>,
    similarity_score: Option<real>, score: Option<real>,
    hinh_anh: Option<string>, image: Option<string>,
    url: Option<string>)

  datatype AiResponse = AiResponse(productRecommendations: Option<seq<RawProduct>>)

  datatype Recommendation = Recommendation(
    id: Option<int>, name: Option<string>, description: Option<string>, price: Option<int>,
    similarityScore: real, image: Option<string>, url: string)

  function OrInt(a: Option<int>, b: Option<int>): Option<int> { if a.Some? && a.value != 0 then a else b }
  function OrString(a: Option<string>, b: Option<string>): Option<string> { if a.Some? && a.value != "" then a else b }

  /** A template literal of an optional number: `undefined` when absent. */
  function Interpolate(x: Option<int>): string { if x.Some? then IntToString(x.value) else "undefined" }

  function ToRecommendation(p: RawProduct): (r: Recommendation)
    ensures r.id == OrInt(p.san_pham_chi_tiet_id, p.id)
    ensures (p.url.Some? && p.url.value != "") ==> r.url == p.url.value
    ensures !(p.url.Some? && p.url.value != "") ==> r.url == "/products/" + Interpolate(r.id)
    ensures r.similarityScore == 0.0 <==>
      (p.similarity_score.None? || p.similarity_score.value == 0.0) && (p.score.None? || p.score.value == 0.0)
  {
    var id := OrInt(p.san_pham_chi_tiet_id, p.id);
    Recommendation(
      id,
      OrString(p.ten_san_pham, p.name),
      OrString(p.mo_ta, p.description),
      OrInt(p.gia_ban, p.price),
      if p.similarity_score.Some? && p.similarity_score.value != 0.0 then p.similarity_score.value
      else if p.score.Some? && p.score.value != 0.0 then p.score.value
      else 0.0,
      OrString(p.hinh_anh, p.image),
      if p.url.Some? && p.url.value != "" then p.url.value else "/products/" + Interpolate(id))
  }

  /** extractProductRecommendations: none without an answer or a list, otherwise one entry per listed product, in order. */
  function ExtractProductRecommendations(aiResponse: Option<AiResponse>): (r: seq<Recommendation>)
    ensures aiResponse.None? || aiResponse.value.productRecommendations.None? ==> r == []
    ensures aiResponse.Some? && aiResponse.value.productRecommendations.Some? ==>
      |r| == |aiResponse.value.productRecommendations.value|
      && forall i :: 0 <= i < |r| ==> r[i] == ToRecommendation(aiResponse.value.productRecommendations.value[i])
  {
    if aiResponse.None? || aiResponse.value.productRecommendations.None? then []
    else
      var ps := aiResponse.value.productRecommendations.value;
      seq(|ps|, i requires 0 <= i < |ps| => ToRecommendation(ps[i]))
  }

  /** A product listed with only its variant id links to that variant's page. */
  lemma VariantLink(p: RawProduct, variantId: int)
    requires p.san_pham_chi_tiet_id == Some(variantId) && variantId != 0 && p.url.None?
    ensures ToRecommendation(p).url == "/products/" + IntToString(variantId)
  {
  }
}
