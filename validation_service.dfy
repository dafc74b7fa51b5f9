/** `ValidationService.validate_query` (app/services/validation_service.py):
    strip the query, reject it when blank or longer than the configured
    maximum, and return the stripped text. */
module ValidationService {
  import opened Wrappers
  import opened PyStr
  import opened Exceptions

  /** The default of the `max_input_length` setting. */
  const DefaultMaxInputLength := 1000

  const EmptyQueryMessage := "Query cannot be empty"

  /** The too-long message: the limit and the stripped query's length. */
  function TooLongMessage(maxInputLength: int, length: nat): string
  {
    "Query too long. Maximum " + IntToString(maxInputLength) + " characters allowed. "
    + "Current: " + NatToString(length)
  }

  /** The query accepted and stripped, or the `ValidationError` raised. */
  function ValidateQuery(query: string, maxInputLength: int): (r: Result<string, SuiBotException>)
    ensures r.Success? <==> !AllSpace(query) && |Strip(query)| <= maxInputLength
    ensures r.Success? ==> r.value == Strip(query)
    ensures r.Failure? ==> r.error.kind == ValidationError && r.error.statusCode == 400
  {
    StripEmptyIff(query);
    if query == "" || Strip(query) == "" then
      Failure(NewValidationError(EmptyQueryMessage))
    else
      var stripped := Strip(query);
      if |stripped| > maxInputLength then
        Failure(NewValidationError(TooLongMessage(maxInputLength, |stripped|)))
      else
        Success(stripped)
  }

  /** A blank query (empty or all whitespace) is refused as empty. */
  lemma BlankQueryRejected(query: string, maxInputLength: int)
    ensures AllSpace(query) <==> ValidateQuery(query, maxInputLength) == Failure(NewValidationError(EmptyQueryMessage))
  {
    StripEmptyIff(query);
  }

  /** A non-blank query over the limit is refused with the too-long
      message, which names both the limit and the stripped length. */
  lemma LongQueryRejected(query: string, maxInputLength: nat)
    requires !AllSpace(query) && |Strip(query)| > maxInputLength
    ensures ValidateQuery(query, maxInputLength)
      == Failure(NewValidationError(TooLongMessage(maxInputLength, |Strip(query)|)))
    ensures Contains(TooLongMessage(maxInputLength, |Strip(query)|), NatToString(maxInputLength))
    ensures Contains(TooLongMessage(maxInputLength, |Strip(query)|), NatToString(|Strip(query)|))
  {
    StripEmptyIff(query);
    var n := NatToString(maxInputLength);
    var l := NatToString(|Strip(query)|);
    assert IntToString(maxInputLength) == n;
    ContainsInfix("Query too long. Maximum ", n, " characters allowed. " + "Current: " + l);
    assert "Query too long. Maximum " + n + (" characters allowed. " + "Current: " + l)
      == TooLongMessage(maxInputLength, |Strip(query)|);
    ContainsInfix("Query too long. Maximum " + n + " characters allowed. " + "Current: ", l, "");
    assert "Query too long. Maximum " + n + " characters allowed. " + "Current: " + l + ""
      == TooLongMessage(maxInputLength, |Strip(query)|);
  }

  /** An accepted query is non-empty, within the limit and has no
      whitespace at either end. */
  lemma AcceptedQueryIsClean(query: string, maxInputLength: int)
    requires ValidateQuery(query, maxInputLength).Success?
    ensures var v := ValidateQuery(query, maxInputLength).value;
      && v != "" && |v| <= maxInputLength
      && !IsSpace(v[0]) && !IsSpace(v[|v| - 1])
  {
    StripEmptyIff(query);
    StripSpec(query);
  }

  /** Validating an accepted query again returns it unchanged. */
  lemma ValidateQueryIdempotent(query: string, maxInputLength: int)
    requires ValidateQuery(query, maxInputLength).Success?
    ensures var v := ValidateQuery(query, maxInputLength).value;
      ValidateQuery(v, maxInputLength) == Success(v)
  {
    StripIdempotent(query);
    StripEmptyIff(query);
    StripEmptyIff(Strip(query));
  }

  /** The bound is inclusive: with the default limit, a trimmed query of
      1000 characters (such as 1000 letters `a`) passes unchanged. */
  lemma LengthBoundaryAccepts(query: string)
    requires |query| == 1000 && !IsSpace(query[0]) && !IsSpace(query[999])
    ensures ValidateQuery(query, DefaultMaxInputLength) == Success(query)
  {
    StripOfTrimmed(query);
    StripEmptyIff(query);
  }

  /** A trimmed query of 1001 characters is refused, and the message
      reports 1001. */
  lemma LengthBoundaryRejects(query: string)
    requires |query| == 1001 && !IsSpace(query[0]) && !IsSpace(query[1000])
    ensures var r := ValidateQuery(query, DefaultMaxInputLength);
      r.Failure? && Contains(r.error.message, "1001")
  {
    StripOfTrimmed(query);
    LongQueryRejected(query, DefaultMaxInputLength);
    RenderThousandAndOne();
  }

  lemma RenderThousandAndOne()
    ensures NatToString(1001) == "1001"
  {
  }
}
