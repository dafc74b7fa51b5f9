/** The request and response models (app/models/chat.py). The `query`
    field carries two independent checks: a length constraint on the raw
    text and a validator that refuses blank text and stores it stripped.
    Which of the two runs first is left to the validation library, so each
    is stated on its own. */
module ChatModels {
  import opened Wrappers
  import opened PyStr
  import ValidationService
  import Exceptions

  const BlankQueryMessage := "Query cannot be empty or whitespace only"

  /** `Field(..., min_length=1, max_length=max_input_length)`. */
  predicate QueryFieldConstraint(query: string, maxInputLength: int)
  {
    1 <= |query| <= maxInputLength
  }

  /** The `validate_query` validator: the stripped text, or the
      `ValueError` message for blank text. */
  function ValidateQueryField(v: string): (r: Result<string, string>)
    ensures r.Success? <==> !AllSpace(v)
    ensures r.Success? ==> r.value == Strip(v) && r.value != ""
    ensures r.Failure? ==> r.error == BlankQueryMessage
  {
    StripEmptyIff(v);
    if Strip(v) == "" then Failure(BlankQueryMessage) else Success(Strip(v))
  }

  datatype ChatResponse = ChatResponse(
    success: bool,
    response: string,
    query: Option<string>,
    contextFound: bool,
    processingTime: Option<real>)

  /** `ChatResponse(success=..., response=...)` with every other field left
      to its default. */
  function NewChatResponse(success: bool, response: string): (r: ChatResponse)
    ensures r.success == success && r.response == response
    ensures !r.contextFound && r.query.None? && r.processingTime.None?
  {
    ChatResponse(success, response, None, false, None)
  }

  /** The raw length bounds: the empty query fails, and with the default
      limit exactly 1000 characters pass and 1001 fail. */
  lemma QueryFieldBounds(query: string)
    ensures !QueryFieldConstraint("", ValidationService.DefaultMaxInputLength)
    ensures |query| == 1000 ==> QueryFieldConstraint(query, ValidationService.DefaultMaxInputLength)
    ensures |query| == 1001 ==> !QueryFieldConstraint(query, ValidationService.DefaultMaxInputLength)
  {
  }

  /** Whitespace-only input is refused by the validator. */
  lemma WhitespaceQueryRefused()
    ensures ValidateQueryField("   ") == Failure(BlankQueryMessage)
  {
    var blank := "   ";
    assert forall k :: 0 <= k < |blank| ==> blank[k] == ' ';
    assert AllSpace(blank);
  }

  /** The stored query passes the validator again unchanged. */
  lemma ValidateQueryFieldIdempotent(v: string)
    requires ValidateQueryField(v).Success?
    ensures ValidateQueryField(ValidateQueryField(v).value) == ValidateQueryField(v)
  {
    StripIdempotent(v);
  }

  /** The validator and `ValidationService.validate_query` agree: both
      refuse blank text, and when the stripped text is within the limit
      both keep the same stripped text. */
  lemma ValidatorAgreesWithService(v: string, maxInputLength: int)
    ensures ValidateQueryField(v).Failure? <==>
      ValidationService.ValidateQuery(v, maxInputLength) == Failure(Exceptions.NewValidationError(ValidationService.EmptyQueryMessage))
    ensures ValidateQueryField(v).Success? && |Strip(v)| <= maxInputLength ==>
      ValidationService.ValidateQuery(v, maxInputLength) == Success(ValidateQueryField(v).value)
  {
    ValidationService.BlankQueryRejected(v, maxInputLength);
  }
}
