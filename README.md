# Sui chatbot search core, in Dafny

This project models the request-handling core of the walrus_chatbot
service. The service answers questions about the Sui blockchain, and the
core covers these parts:

- **Query validation.** `ValidationService.validate_query` strips the query,
  refuses a blank one and refuses one longer than the configured limit. The
  `ChatRequest` model carries its own length constraint and
  blank-text validator.
- **The local knowledge lookup.** `_check_local_info` lower-cases the query
  and scans an ordered table of topics, each with a list of literal patterns.
  The body of the first topic with a matching pattern is taken from the
  `SUI_BLOCKCHAIN_INFO` catalog.
- **Two web providers.** `_search_tavily` reads the contents of the first
  three results and joins them with spaces. `_search_duckduckgo` joins the
  abstract with the texts of the first two related topics and strips the
  result. Each provider turns every failure into "nothing found".
- **The search chain.** `search_sui_docs` tries the local lookup, then
  Tavily, then DuckDuckGo. It returns the first non-empty answer, or raises
  `SearchError` with status 503.
- **The exception hierarchy and its status codes**, and the defaults of
  `ChatResponse`.

The Dafny modules follow the source files:

| module | source |
|---|---|
| `Wrappers` | `Option` and `Result`, for Python's `None` and raised exceptions |
| `PyStr` | the Python string built-ins the core relies on (see below) |
| `Exceptions` | app/utils/exceptions.py |
| `SuiInfo` | app/data/sui_info.py |
| `SearchService` | app/services/search_service.py |
| `ValidationService` | app/services/validation_service.py |
| `ChatModels` | app/models/chat.py |

Python's string built-ins are written out in `PyStr`:

- `str.strip()` removes every character for which `str.isspace()` holds. That
  covers the ASCII whitespace and separators and the Unicode space characters.
- `str.lower()` maps `A`–`Z` to `a`–`z`.
- `re.search` with a pattern free of metacharacters is substring search
  (`Contains`). Every pattern of the table is such a literal.
- `" ".join` is `Join`; `str(n)` is `NatToString` and `IntToString`.

The HTTP endpoints are parameters. Each is a function from the request the
provider sends to the decoded JSON reply, or to a failure. A failure stands
for any exception raised while sending, checking the status or decoding.
Each provider method also returns the requests it sent, so the model can say
which calls were made. The configured `tavily_api_key` and
`max_input_length` are parameters too.

Each operation that loops in the source is a method whose loop is proved
against a pure specification function:

| method | specified by |
|---|---|
| `CheckLocalInfo` | `LocalInfo`, which is `FirstMatch` over the table |
| `SearchTavily` | `TavilyOutcome` |
| `SearchDuckDuckGo` | `DuckDuckGoOutcome` |
| `SearchSuiDocs` | `Chain` over the three outcomes |

The lemmas state what those functions promise.

Where the tests and the code disagree, the model follows the code. The tests
at app/tests/test_service.py:73, 108 and 149 expect query rewriting and a
rejection message that search_service.py does not produce.

## Model

| member | source | states |
|---|---|---|
| `Exceptions.NewSuiBotException` | app/utils/exceptions.py:6-11 | the base exception keeps its message and status code; the status defaults to 500 |
| `Exceptions.FixedStatus` | app/utils/exceptions.py:13-26 | each subclass passes a fixed 4xx/5xx status to the base class |
| `Exceptions.NewError` | app/utils/exceptions.py:13-26 | `ValidationError` has status 400; `SearchError` and `AIServiceError` have 503; the message is kept |
| `Exceptions.SubclassStatusIsFixed` | app/utils/exceptions.py:13-26 | a subclass's status depends on the class, never on the message; only a validation error is below 500 |
| `SuiInfo.CatalogHasEighteenKeys` | app/data/sui_info.py:10-622 | the catalog has exactly eighteen keys; the repeated `"sui_objects"` adds no second entry |
| `SuiInfo.SuiObjectsKeepsLaterBody` | app/data/sui_info.py:85-107 | the repeated key keeps the later body (lines 252-287); the earlier body is in no entry |
| `SuiInfo.CatalogBodiesNonEmpty` | app/data/sui_info.py:10-622 | every catalog body is non-empty |
| `SuiInfo.CatalogBodiesDistinct` | app/data/sui_info.py:10-622 | no two keys share a body |
| `SearchService.TableKeysInCatalog` | app/services/search_service.py:83-99 | every key of the pattern table is a catalog key, so the lookup at line 99 never fails |
| `SearchService.FirstMatch` | app/services/search_service.py:95-101 | a chosen key is the key of some table entry |
| `SearchService.FirstMatchIsFirst` | app/services/search_service.py:95-99 | the first matching topic in table order wins |
| `SearchService.FirstMatchNoneIff` | app/services/search_service.py:95-101 | nothing is chosen exactly when no pattern of any topic occurs |
| `SearchService.FirstMatchSound` | app/services/search_service.py:95-99 | a chosen key belongs to a matching topic that only non-matching topics precede |
| `SearchService.LocalInfo` | app/services/search_service.py:80-101 | a hit is a non-empty body from the catalog |
| `SearchService.CheckLocalInfo` | app/services/search_service.py:80-101 | the nested loop with early return computes `LocalInfo` |
| `SearchService.LocalInfoFoundIff` | app/services/search_service.py:81-101 | there is a hit exactly when some pattern occurs in the lower-cased query |
| `SearchService.LocalInfoIgnoresCase` | app/services/search_service.py:81 | the lookup sees the query only through its lower case |
| `SearchService.LocalInfoFirstWins` | app/services/search_service.py:95-99 | the body returned is that of the earliest matching topic |
| `SearchService.TxSelectsTransactions` | app/services/search_service.py:89 | a query containing "tx" that no earlier topic matches gets the transactions body |
| `SearchService.EarlyPatternsAreLong` | app/services/search_service.py:84-88 | a text of at most eight characters matches none of the first five topics, except "sui coin" itself |
| `SearchService.UtxoSelectsTransactions` | app/services/search_service.py:89 | "UTXO" gets the transactions body through the bare "tx" pattern |
| `SearchService.EarlierTopicShadowsLater` | app/services/search_service.py:89-92 | "tx dapps" matches the smart-contracts topic but gets the transactions body |
| `SearchService.TableKeysNotUnreachable` | app/services/search_service.py:83-93 | the nine table keys are none of the nine catalog keys that no pattern names |
| `SearchService.MissesPattern` | app/services/search_service.py:95-97 | a short text without rare letters does not contain a pattern that is longer or holds a rare letter |
| `SearchService.RareLettersMissRows` | app/services/search_service.py:83-97 | a text of at most twelve characters without any of the letters a, b, c, d, k, r, v, w, x matches no topic: every pattern is either longer or holds one of them |
| `SearchService.UnreachableBodies` | app/services/search_service.py:83-101 | no query gets the body of an unnamed catalog key, nor the overwritten first `"sui_objects"` body |
| `SearchService.Take` | app/services/search_service.py:36 | `s[:n]` is the prefix of `s` of length `min(n, len(s))` |
| `SearchService.TavilyRequestFor` | app/services/search_service.py:22-28 | the request goes to the Tavily URL; the posted query is the user query followed by the site filter, with the configured key |
| `SearchService.ContentPieces` | app/services/search_service.py:34-38 | there are no more pieces than results |
| `SearchService.SearchTavily` | app/services/search_service.py:17-47 | no key means no request and no answer; otherwise exactly one request is sent, and the loop computes `TavilyOutcome` |
| `SearchService.ContentPiecesHas` | app/services/search_service.py:36-38 | each result with a `content` contributes it as a piece |
| `SearchService.TavilyReadsThree` | app/services/search_service.py:36 | at most three pieces are joined; results after the third never matter |
| `SearchService.TavilyKeepsFragments` | app/services/search_service.py:34-43 | each non-empty content among the first three results appears in the answer, which is then present |
| `SearchService.TavilyAbsentIff` | app/services/search_service.py:40-43 | the answer is absent exactly when there are no pieces or one empty piece |
| `SearchService.TavilyTwoResults` | app/tests/test_service.py:55-70 | two contents `a` and `b` give the answer `a + " " + b` |
| `SearchService.DuckDuckGoRequestFor` | app/services/search_service.py:51-57 | the request goes to the DuckDuckGo URL; the `q` parameter is the user query followed by the site filter |
| `SearchService.SearchDuckDuckGo` | app/services/search_service.py:49-78 | exactly one request is sent, and the accumulation loop computes `DuckDuckGoOutcome` |
| `SearchService.DuckDuckGoAnswerTrimmed` | app/services/search_service.py:71-74 | a present answer is non-empty with no whitespace at either end; it is absent exactly when the accumulated text is blank |
| `SearchService.TopicsTextHas` | app/services/search_service.py:66-69 | each dict topic with a `Text` contributes that text |
| `SearchService.TopicOccursInRaw` | app/services/search_service.py:66-69 | the text of every topic read occurs in the accumulated text, after the abstract |
| `SearchService.DuckDuckGoKeepsOccurrence` | app/services/search_service.py:62-74 | any non-blank text occurring in the accumulated text appears, stripped, in the present answer |
| `SearchService.DuckDuckGoKeepsInfix` | app/services/search_service.py:62-74 | any non-blank part of the accumulated text appears, stripped, in the present answer |
| `SearchService.DuckDuckGoKeepsAbstract` | app/services/search_service.py:63-64 | a non-blank abstract appears, stripped, in the answer |
| `SearchService.DuckDuckGoKeepsTopic` | app/services/search_service.py:66-69 | the non-blank text of either of the first two dict topics appears, stripped, in the answer |
| `SearchService.DuckDuckGoAbstractAndTopics` | app/tests/test_service.py:89-104 | an abstract and two topic texts give `a + " " + t1 + " " + t2`, without the trailing space |
| `SearchService.SearchSuiDocs` | app/services/search_service.py:103-119 | the result and the stages called are those of `Chain` over the three outcomes |
| `SearchService.ChainCallOrder` | app/services/search_service.py:106-113 | stages run in the order local, Tavily, DuckDuckGo, each at most once; each later stage runs exactly when every earlier one found nothing |
| `SearchService.ChainIgnoresUncalledStages` | app/services/search_service.py:107-113 | a stage that is not called cannot change the run |
| `SearchService.ChainResult` | app/services/search_service.py:106-119 | the search fails exactly when all three stages find nothing, and then with `SearchError`, the fixed message and status 503; otherwise it returns the first non-empty answer |
| `SearchService.LocalHitShortCircuits` | app/services/search_service.py:106-108 | a catalog hit is returned without calling either web provider |
| `SearchService.SuiQuestionMissesCatalog` | app/tests/test_service.py:127-132 | the query "Sui question" matches no pattern, so the local lookup finds nothing |
| `SearchService.FallsBackToDuckDuckGo` | app/tests/test_service.py:127-136 | for "Sui question", with the catalog missing and Tavily finding nothing, the DuckDuckGo text is returned after one call to each provider |
| `ValidationService.ValidateQuery` | app/services/validation_service.py:10-21 | accepted exactly when the query is not blank and its stripped length is within the limit; an accepted query is returned stripped; a refusal is a `ValidationError` with status 400 |
| `ValidationService.BlankQueryRejected` | app/services/validation_service.py:11-12 | a blank query is refused, and with "Query cannot be empty" exactly when it is blank |
| `ValidationService.LongQueryRejected` | app/services/validation_service.py:14-19 | an over-long query is refused with the too-long message, which names the limit and the stripped length |
| `ValidationService.AcceptedQueryIsClean` | app/services/validation_service.py:14-21 | an accepted query is non-empty, within the limit and has no whitespace at either end |
| `ValidationService.ValidateQueryIdempotent` | app/services/validation_service.py:10-21 | validating an accepted query again returns it unchanged |
| `ValidationService.LengthBoundaryAccepts` | app/tests/test_service.py:34-37 | with the default limit, any query of 1000 characters without edge whitespace, such as 1000 letters `a`, passes unchanged |
| `ValidationService.LengthBoundaryRejects` | app/tests/test_service.py:39-44 | any such query of 1001 characters is refused, and the message contains "1001" |
| `ChatModels.ValidateQueryField` | app/models/chat.py:12-16 | the validator accepts exactly non-blank text, returns it stripped and non-empty, and otherwise fails with the whitespace message |
| `ChatModels.NewChatResponse` | app/models/chat.py:19-24 | the unset fields default to `None`, `False` and `None` |
| `ChatModels.QueryFieldBounds` | app/models/chat.py:10 | the empty query breaks the length constraint; with the default limit, 1000 characters meet it and 1001 do not |
| `ChatModels.WhitespaceQueryRefused` | app/tests/test_chat_api.py:123-128 | `"   "` is refused by the validator |
| `ChatModels.ValidateQueryFieldIdempotent` | app/models/chat.py:12-16 | the stored query passes the validator again unchanged |
| `ChatModels.ValidatorAgreesWithService` | app/models/chat.py:12-16 | the model validator and `validate_query` refuse the same blank texts; within the limit, both keep the same stripped text |
| `PyStr.StripSpec` | app/services/validation_service.py:14 | `strip()` removes only whitespace, from the two ends, and leaves no whitespace at either end |
| `PyStr.StripEmptyIff` | app/services/validation_service.py:11 | `not query.strip()` holds exactly when the query is all whitespace |
| `PyStr.StripIdempotent` | app/models/chat.py:16 | stripping twice is stripping once |
| `PyStr.StripKeepsInfix` | app/services/search_service.py:71 | stripping keeps every stripped infix of the text |
| `PyStr.LowerIsLowerCase` | app/services/search_service.py:81 | `lower()` yields lower-case text, leaves lower-case text unchanged and is idempotent |
| `PyStr.JoinEmptyIff` | app/services/search_service.py:40-43 | with a non-empty separator, the join is empty exactly when there are no parts or one empty part |
| `PyStr.JoinContainsParts` | app/services/search_service.py:40 | every part occurs in the join, at the returned index |
| `PyStr.NatToStringRoundTrip` | app/services/validation_service.py:17-18 | the decimal rendering of a length reads back as that length |

## Left out

- Logging is not modelled: every `self.logger` call, and the logger module, is left out.
- Configuration loading (app/core/config.py) is not modelled. `tavily_api_key` and `max_input_length` are parameters.
- HTTP transport, timeouts and `raise_for_status` are not modelled. They are folded into the endpoint parameter's failure reply.
- JSON values of the wrong type are not modelled separately. For example, `content` may hold a non-string or `results` a non-list. In the source such values either raise, which is a failure reply, or contribute nothing, which is an absent `results`, a result without `content` or a topic that is not a dict.
- The catalog bodies' text is not modelled. Each body is a distinct non-empty placeholder naming its source lines. Only presence, distinctness and which key keeps which body matter to the core.
- Non-ASCII case mapping in `lower()` and in `re.IGNORECASE` is not modelled. `Lower` maps only `A`–`Z`.
- The patterns are assumed to be regex literals. Each one uses only lower-case letters, spaces and `-`, so `re.search` is substring search. This is read off the table, not proved.
- `ChatRequest` constraint and validator: their relative order is left to pydantic and is not fixed here. Each is stated separately, and no pydantic error type or status 422 is modelled.
- `ErrorResponse` and `HealthResponse` (app/models/chat.py:27-37) are not modelled. They are plain records with no logic.
- The routes, the AI service, the Walrus data, the TypeScript client and the application entry point are not part of this model.
- `SearchService.SearchTavily` and `SearchService.SearchDuckDuckGo` take an endpoint function, so the model cannot express a request that is retried or sent to a different URL. The URLs are recorded as constants only.
