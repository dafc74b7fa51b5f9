/** `SearchService` (app/services/search_service.py): the local knowledge
    lookup, the two web-search providers and the chain that tries them in
    order. The service object holds nothing but a logger, so its operations
    are modelled as module-level members; logging is left out. The HTTP
    endpoints are parameters: a function from the request the provider
    sends to the decoded reply, or to a failure standing for any exception
    raised while sending, checking or decoding. */
module SearchService {
  import opened Wrappers
  import opened PyStr
  import opened Exceptions
  import opened SuiInfo

  // ---------------------------------------------------------------------
  // Local knowledge lookup (`_check_local_info`)
  // ---------------------------------------------------------------------

  /** One entry of the ordered pattern table: a catalog key and the
      patterns that select it. */
  datatype Topic = Topic(key: string, patterns: seq<string>)

  /** The pattern table, in declaration order. */
  const LocalPatterns: seq<Topic> := [
    Topic("what_is_sui", WhatIsSuiPatterns),
    Topic("sui_token", SuiTokenPatterns),
    Topic("sui_architecture", SuiArchitecturePatterns),
    Topic("move_language", MoveLanguagePatterns),
    Topic("sui_objects", SuiObjectsPatterns),
    Topic("sui_transactions", SuiTransactionsPatterns),
    Topic("sui_consensus", SuiConsensusPatterns),
    Topic("sui_storage", SuiStoragePatterns),
    Topic("sui_smart_contracts", SuiSmartContractsPatterns)
  ]

  const WhatIsSuiPatterns := ["what is sui", "sui blockchain", "about sui", "sui overview", "define sui", "sui definition"]
  const SuiTokenPatterns := ["sui token", "token economics", "tokenomics", "sui coin"]
  const SuiArchitecturePatterns := ["architecture", "how sui works", "sui design", "sui structure"]
  const MoveLanguagePatterns := ["move language", "programming language", "smart contract language", "move programming"]
  const SuiObjectsPatterns := ["sui objects", "object model", "object-centric"]
  const SuiTransactionsPatterns := ["transactions", "tx", "how transactions work"]
  const SuiConsensusPatterns := ["consensus", "narwhal", "bullshark", "proof of stake"]
  const SuiStoragePatterns := ["storage", "data storage", "state storage"]
  const SuiSmartContractsPatterns := ["smart contracts", "contracts", "dapps", "applications"]

  /** Every key of the table is a key of the catalog, so the lookup of the
      matched key never fails. */
  lemma TableKeysInCatalog()
    ensures forall i :: 0 <= i < |LocalPatterns| ==> LocalPatterns[i].key in SuiBlockchainInfo
  {
  }

  /** Some pattern of the list occurs in the text. */
  predicate AnyContained(patterns: seq<string>, text: string)
  {
    exists j :: 0 <= j < |patterns| && Contains(text, patterns[j])
  }

  /** The key of the first topic, in table order, one of whose patterns
      occurs in the text. */
  function FirstMatch(table: seq<Topic>, text: string): (r: Option<string>)
    ensures r.Some? ==> exists i :: 0 <= i < |table| && table[i].key == r.value
    decreases |table|
  {
    if table == [] then None
    else if AnyContained(table[0].patterns, text) then Some(table[0].key)
    else FirstMatch(table[1..], text)
  }

  /** First match wins: the topic at `i` is chosen when it matches and no
      earlier topic does. */
  lemma {:induction false} FirstMatchIsFirst(table: seq<Topic>, text: string, i: nat)
    requires i < |table|
    requires AnyContained(table[i].patterns, text)
    requires forall i' :: 0 <= i' < i ==> !AnyContained(table[i'].patterns, text)
    ensures FirstMatch(table, text) == Some(table[i].key)
    decreases i
  {
    if i > 0 {
      assert forall i' :: 0 <= i' < i - 1 ==> table[1..][i'] == table[i' + 1];
      FirstMatchIsFirst(table[1..], text, i - 1);
    }
  }

  /** Nothing is chosen exactly when no pattern of any topic occurs. */
  lemma {:induction false} FirstMatchNoneIff(table: seq<Topic>, text: string)
    ensures FirstMatch(table, text) == None <==>
      forall i :: 0 <= i < |table| ==> !AnyContained(table[i].patterns, text)
    decreases |table|
  {
    if table != [] {
      FirstMatchNoneIff(table[1..], text);
      assert forall i :: 1 <= i < |table| ==> table[i] == table[1..][i - 1];
    }
  }

  /** Conversely, a chosen key belongs to a topic that matches and is
      preceded only by topics that do not. */
  lemma {:induction false} FirstMatchSound(table: seq<Topic>, text: string) returns (i: nat)
    requires FirstMatch(table, text).Some?
    ensures i < |table| && table[i].key == FirstMatch(table, text).value
    ensures AnyContained(table[i].patterns, text)
    ensures forall i' :: 0 <= i' < i ==> !AnyContained(table[i'].patterns, text)
    decreases |table|
  {
    if AnyContained(table[0].patterns, text) {
      i := 0;
    } else {
      var i1 := FirstMatchSound(table[1..], text);
      i := i1 + 1;
      assert forall i' :: 1 <= i' < i ==> table[i'] == table[1..][i' - 1];
    }
  }

  /** What `_check_local_info` returns: the catalog body of the first
      matching topic, looked up with the lower-cased query, or nothing. */
  function LocalInfo(query: string): (r: Option<string>)
    ensures r.Some? ==> r.value in SuiBlockchainInfo.Values && r.value != ""
  {
    match FirstMatch(LocalPatterns, Lower(query))
    case None => None
    case Some(key) =>
      TableKeysInCatalog();
      CatalogBodiesNonEmpty(key);
      Some(SuiBlockchainInfo[key])
  }

  /** `_check_local_info`: lower-case the query, then scan the topics in
      order and each topic's patterns in order, returning at the first hit. */
  method CheckLocalInfo(query: string) returns (r: Option<string>)
    ensures r == LocalInfo(query)
  {
    var text := Lower(query);
    var i := 0;
    while i < |LocalPatterns|
      invariant 0 <= i <= |LocalPatterns|
      invariant forall i' :: 0 <= i' < i ==> !AnyContained(LocalPatterns[i'].patterns, text)
    {
      var topic := LocalPatterns[i];
      var j := 0;
      while j < |topic.patterns|
        invariant 0 <= j <= |topic.patterns|
        invariant forall j' :: 0 <= j' < j ==> !Contains(text, topic.patterns[j'])
      {
        if Contains(text, topic.patterns[j]) {
          FirstMatchIsFirst(LocalPatterns, text, i);
          TableKeysInCatalog();
          return Some(SuiBlockchainInfo[topic.key]);
        }
        j := j + 1;
      }
      i := i + 1;
    }
    FirstMatchNoneIff(LocalPatterns, text);
    return None;
  }

  /** The lookup finds something exactly when some pattern of the table
      occurs in the lower-cased query. */
  lemma LocalInfoFoundIff(query: string)
    ensures LocalInfo(query).Some? <==>
      exists i, j :: 0 <= i < |LocalPatterns| && 0 <= j < |LocalPatterns[i].patterns| &&
        Contains(Lower(query), LocalPatterns[i].patterns[j])
  {
    FirstMatchNoneIff(LocalPatterns, Lower(query));
  }

  /** The lookup sees the query only through its lower case. */
  lemma LocalInfoIgnoresCase(query: string)
    ensures LocalInfo(Lower(query)) == LocalInfo(query)
  {
    LowerIsLowerCase(query);
  }

  /** First match wins, in terms of the catalog: the body returned is that
      of the earliest matching topic. */
  lemma LocalInfoFirstWins(query: string, i: nat)
    requires i < |LocalPatterns|
    requires AnyContained(LocalPatterns[i].patterns, Lower(query))
    requires forall i' :: 0 <= i' < i ==> !AnyContained(LocalPatterns[i'].patterns, Lower(query))
    ensures LocalInfo(query) == Some(SuiBlockchainInfo[LocalPatterns[i].key])
  {
    FirstMatchIsFirst(LocalPatterns, Lower(query), i);
  }

  /** Any query containing "tx" that no earlier topic matches gets the
      transactions body, whatever later topics it also mentions. */
  lemma TxSelectsTransactions(query: string)
    requires Contains(Lower(query), "tx")
    requires forall i' :: 0 <= i' < 5 ==> !AnyContained(LocalPatterns[i'].patterns, Lower(query))
    ensures LocalInfo(query) == Some(SuiTransactions)
  {
    var text := Lower(query);
    assert LocalPatterns[5].patterns[1] == "tx";
    assert AnyContained(LocalPatterns[5].patterns, text);
    FirstMatchIsFirst(LocalPatterns, text, 5);
  }

  /** Every pattern of the first five topics is at least eight characters
      long, so a shorter text can only be matched from the sixth topic on. */
  lemma EarlyPatternsAreLong(text: string)
    requires |text| <= 8 && text != "sui coin"
    ensures forall i' :: 0 <= i' < 5 ==> !AnyContained(LocalPatterns[i'].patterns, text)
  {
    assert forall i', j :: 0 <= i' < 5 && 0 <= j < |LocalPatterns[i'].patterns| ==>
      (|LocalPatterns[i'].patterns[j]| > 8 || LocalPatterns[i'].patterns[j] == "sui coin");
    forall i', j | 0 <= i' < 5 && 0 <= j < |LocalPatterns[i'].patterns|
      ensures !Contains(text, LocalPatterns[i'].patterns[j])
    {
      var p := LocalPatterns[i'].patterns[j];
      if |p| == |text| {
        assert forall i: nat :: i <= |text| && OccursAt(text, p, i) ==> i == 0 && text == p;
      }
    }
  }

  /** A blockchain term holding "tx" selects the transactions body. */
  lemma UtxoSelectsTransactions()
    ensures LocalInfo("UTXO") == Some(SuiTransactions)
  {
    assert Lower("UTXO") == "utxo";
    assert "utxo"[1..3] == "tx";
    assert OccursAt("utxo", "tx", 1);
    EarlyPatternsAreLong("utxo");
    TxSelectsTransactions("UTXO");
  }

  /** A later topic is shadowed by an earlier one: "tx dapps" names the
      smart contracts topic ("dapps") but gets the transactions body. */
  lemma EarlierTopicShadowsLater()
    ensures AnyContained(LocalPatterns[8].patterns, "tx dapps")
    ensures LocalInfo("tx dapps") == Some(SuiTransactions)
  {
    assert "tx dapps"[3..8] == "dapps";
    assert OccursAt("tx dapps", "dapps", 3);
    assert LocalPatterns[8].patterns[2] == "dapps";
    LowerIsLowerCase("tx dapps");
    assert "tx dapps"[0..2] == "tx";
    assert OccursAt("tx dapps", "tx", 0);
    EarlyPatternsAreLong("tx dapps");
    TxSelectsTransactions("tx dapps");
  }

  /** Letters of which every pattern of at most twelve characters holds at
      least one. */
  const RareLetters := "abcdkrvwx"

  /** A text without rare letters does not contain `p` when `p` is longer
      than twelve characters or holds a rare letter at `k`. */
  lemma MissesPattern(text: string, p: string, k: nat)
    requires |text| <= 12 && forall i :: 0 <= i < |text| ==> text[i] !in RareLetters
    requires |p| > 12 || (k < |p| && p[k] in RareLetters)
    ensures !Contains(text, p)
  {
    if |p| > 12 {
      NotContainsLonger(text, p);
    } else {
      NotContainsMissingChar(text, p, k);
    }
  }

  /** A text without rare letters matches none of the first two topics. */
  lemma FirstTopicsMiss(text: string)
    requires |text| <= 12 && forall i :: 0 <= i < |text| ==> text[i] !in RareLetters
    ensures !AnyContained(LocalPatterns[0].patterns, text)
    ensures !AnyContained(LocalPatterns[1].patterns, text)
  {
    MissesPattern(text, "what is sui", 0);
    MissesPattern(text, "sui blockchain", 0);
    MissesPattern(text, "about sui", 0);
    MissesPattern(text, "sui overview", 5);
    MissesPattern(text, "define sui", 0);
    MissesPattern(text, "sui definition", 0);
    MissesPattern(text, "sui token", 6);
    MissesPattern(text, "token economics", 0);
    MissesPattern(text, "tokenomics", 2);
    MissesPattern(text, "sui coin", 4);
  }

  /** A text without rare letters matches none of the topics three to six. */
  lemma MiddleTopicsMiss(text: string)
    requires |text| <= 12 && forall i :: 0 <= i < |text| ==> text[i] !in RareLetters
    ensures !AnyContained(LocalPatterns[2].patterns, text)
    ensures !AnyContained(LocalPatterns[3].patterns, text)
    ensures !AnyContained(LocalPatterns[4].patterns, text)
    ensures !AnyContained(LocalPatterns[5].patterns, text)
  {
    MissesPattern(text, "architecture", 0);
    MissesPattern(text, "how sui works", 0);
    MissesPattern(text, "sui design", 4);
    MissesPattern(text, "sui structure", 0);
    MissesPattern(text, "move language", 0);
    MissesPattern(text, "programming language", 0);
    MissesPattern(text, "smart contract language", 0);
    MissesPattern(text, "move programming", 0);
    MissesPattern(text, "sui objects", 5);
    MissesPattern(text, "object model", 1);
    MissesPattern(text, "object-centric", 0);
    MissesPattern(text, "transactions", 1);
    MissesPattern(text, "tx", 1);
    MissesPattern(text, "how transactions work", 0);
  }

  /** A text without rare letters matches none of the last three topics. */
  lemma LastTopicsMiss(text: string)
    requires |text| <= 12 && forall i :: 0 <= i < |text| ==> text[i] !in RareLetters
    ensures !AnyContained(LocalPatterns[6].patterns, text)
    ensures !AnyContained(LocalPatterns[7].patterns, text)
    ensures !AnyContained(LocalPatterns[8].patterns, text)
  {
    MissesPattern(text, "consensus", 0);
    MissesPattern(text, "narwhal", 1);
    MissesPattern(text, "bullshark", 0);
    MissesPattern(text, "proof of stake", 0);
    MissesPattern(text, "storage", 3);
    MissesPattern(text, "data storage", 0);
    MissesPattern(text, "state storage", 0);
    MissesPattern(text, "smart contracts", 0);
    MissesPattern(text, "contracts", 0);
    MissesPattern(text, "dapps", 0);
    MissesPattern(text, "applications", 0);
  }

  /** A text of at most twelve characters without any rare letter matches
      no topic: each pattern is either too long or holds a rare letter. */
  lemma RareLettersMissRows(text: string)
    requires |text| <= 12 && forall i :: 0 <= i < |text| ==> text[i] !in RareLetters
    ensures forall i :: 0 <= i < |LocalPatterns| ==> !AnyContained(LocalPatterns[i].patterns, text)
  {
    FirstTopicsMiss(text);
    MiddleTopicsMiss(text);
    LastTopicsMiss(text);
    NoRowMatches(LocalPatterns, text);
  }

  /** Nine rows that each miss the text: no row matches. */
  lemma NoRowMatches(table: seq<Topic>, text: string)
    requires |table| == 9
    requires !AnyContained(table[0].patterns, text) && !AnyContained(table[1].patterns, text)
    requires !AnyContained(table[2].patterns, text) && !AnyContained(table[3].patterns, text)
    requires !AnyContained(table[4].patterns, text) && !AnyContained(table[5].patterns, text)
    requires !AnyContained(table[6].patterns, text) && !AnyContained(table[7].patterns, text)
    requires !AnyContained(table[8].patterns, text)
    ensures forall i :: 0 <= i < |table| ==> !AnyContained(table[i].patterns, text)
  {
  }

  /** The query of test_service.py:127-136 is not in the catalog. */
  lemma SuiQuestionMissesCatalog()
    ensures LocalInfo("Sui question") == None
  {
    var text := Lower("Sui question");
    assert text == "sui question";
    RareLettersMissRows(text);
    FirstMatchNoneIff(LocalPatterns, text);
  }

  /** The catalog keys that no pattern names. */
  const UnreachableKeys: set<string> := {
    "sui_epochs", "move_smart_contracts", "what_is_blockchain", "types_of_blockchain",
    "distributed_ledger", "proof_of_work", "sui_blockchain_type",
    "blockchain_consensus", "blockchain_security"
  }

  lemma TableKeysNotUnreachable()
    ensures forall i :: 0 <= i < |LocalPatterns| ==> LocalPatterns[i].key !in UnreachableKeys
  {
  }

  /** No query ever gets the body of a catalog key that the table does not
      name, nor the overwritten first "sui_objects" body. */
  lemma UnreachableBodies(query: string, key: string)
    requires key in UnreachableKeys
    ensures key in SuiBlockchainInfo
    ensures LocalInfo(query) != Some(SuiBlockchainInfo[key])
    ensures LocalInfo(query) != Some(SuiObjectsOverwritten)
  {
    SuiObjectsKeepsLaterBody();
    var r := FirstMatch(LocalPatterns, Lower(query));
    if r.Some? {
      var i := FirstMatchSound(LocalPatterns, Lower(query));
      TableKeysInCatalog();
      TableKeysNotUnreachable();
      CatalogBodiesDistinct(LocalPatterns[i].key, key);
    }
  }

  // ---------------------------------------------------------------------
  // Python slicing
  // ---------------------------------------------------------------------

  /** `s[:n]`: the prefix of `s` of length `min(n, |s|)`. */
  function Take<T>(s: seq<T>, n: nat): (r: seq<T>)
    ensures |r| == (if |s| <= n then |s| else n)
    ensures r == s[..|r|]
    ensures |s| <= n ==> r == s
  {
    if |s| <= n then s else s[..n]
  }

  // ---------------------------------------------------------------------
  // Tavily (`_search_tavily`)
  // ---------------------------------------------------------------------

  const TavilyUrl := "https://api.tavily.com/search"
  const TavilySiteFilter := " site:docs.sui.io OR site:move-language.github.io OR site:move-book.com"
  /** Only this many results are read, whatever the service returns. */
  const TavilyResultsRead := 3

  /** The URL and the JSON payload posted to Tavily. */
  datatype TavilyRequest = TavilyRequest(url: string, apiKey: string, query: string, searchDepth: string, maxResults: int)

  /** One decoded result: its `content`, when the key is present. */
  datatype TavilyResult = TavilyResult(content: Option<string>)

  /** The decoded reply (`results` when present), or any failure. */
  datatype TavilyReply = TavilyFailed | TavilyOk(results: Option<seq<TavilyResult>>)

  /** `if not settings.tavily_api_key`: absent and empty keys both count as
      not configured. */
  predicate KeyConfigured(apiKey: Option<string>)
  {
    apiKey.Some? && apiKey.value != ""
  }

  function TavilyRequestFor(apiKey: string, query: string): (req: TavilyRequest)
    ensures req.url == TavilyUrl
    ensures req.query == query + TavilySiteFilter && req.apiKey == apiKey
  {
    TavilyRequest(TavilyUrl, apiKey, query + TavilySiteFilter, "basic", 5)
  }

  /** The `content` values of the results that have one, in order. */
  function ContentPieces(results: seq<TavilyResult>): (pieces: seq<string>)
    ensures |pieces| <= |results|
    decreases |results|
  {
    if results == [] then []
    else
      var last := results[|results| - 1];
      ContentPieces(results[..|results| - 1]) + (if last.content.Some? then [last.content.value] else [])
  }

  /** The answer assembled from a reply: the contents of the first three
      results joined by single spaces, absent when that join is empty or
      the call failed. */
  function TavilyContent(reply: TavilyReply): Option<string>
  {
    match reply
    case TavilyFailed => None
    case TavilyOk(results) =>
      var pieces := if results.Some? then ContentPieces(Take(results.value, TavilyResultsRead)) else [];
      var content := Join(" ", pieces);
      if content == "" then None else Some(content)
  }

  /** The whole provider: nothing without a key, else the assembled reply to
      the request it sends. */
  function TavilyOutcome(apiKey: Option<string>, api: TavilyRequest -> TavilyReply, query: string): Option<string>
  {
    if KeyConfigured(apiKey) then TavilyContent(api(TavilyRequestFor(apiKey.value, query))) else None
  }

  /** `_search_tavily`: sends at most one request, and none without a key. */
  method SearchTavily(apiKey: Option<string>, api: TavilyRequest -> TavilyReply, query: string)
    returns (r: Option<string>, sent: seq<TavilyRequest>)
    ensures !KeyConfigured(apiKey) ==> sent == []
    ensures KeyConfigured(apiKey) ==> sent == [TavilyRequestFor(apiKey.value, query)]
    ensures r == TavilyOutcome(apiKey, api, query)
  {
    if !KeyConfigured(apiKey) {
      return None, [];
    }
    var request := TavilyRequestFor(apiKey.value, query);
    sent := [request];
    var reply := api(request);
    if reply.TavilyFailed? {
      return None, sent;
    }
    var pieces: seq<string> := [];
    if reply.results.Some? {
      var top := Take(reply.results.value, TavilyResultsRead);
      var i := 0;
      while i < |top|
        invariant 0 <= i <= |top|
        invariant pieces == ContentPieces(top[..i])
      {
        assert top[..i + 1][..i] == top[..i];
        if top[i].content.Some? {
          pieces := pieces + [top[i].content.value];
        }
        i := i + 1;
      }
      assert top[..|top|] == top;
    }
    var content := Join(" ", pieces);
    r := if content == "" then None else Some(content);
  }

  /** The content of the result at `k` is one of the pieces. */
  lemma {:induction false} ContentPiecesHas(results: seq<TavilyResult>, k: nat) returns (m: nat)
    requires k < |results| && results[k].content.Some?
    ensures m < |ContentPieces(results)| && ContentPieces(results)[m] == results[k].content.value
    decreases |results|
  {
    var init := results[..|results| - 1];
    if k == |results| - 1 {
      m := |ContentPieces(init)|;
    } else {
      m := ContentPiecesHas(init, k);
    }
  }

  /** At most three fragments are joined, and results after the third
      never influence the answer. */
  lemma TavilyReadsThree(results: seq<TavilyResult>)
    ensures |ContentPieces(Take(results, TavilyResultsRead))| <= 3
    ensures TavilyContent(TavilyOk(Some(results))) == TavilyContent(TavilyOk(Some(Take(results, 3))))
  {
  }

  /** Every non-empty content among the first three results is found in the
      answer, which is then present. */
  lemma TavilyKeepsFragments(results: seq<TavilyResult>, k: nat)
    requires k < 3 && k < |results| && results[k].content.Some? && results[k].content.value != ""
    ensures TavilyContent(TavilyOk(Some(results))).Some?
    ensures Contains(TavilyContent(TavilyOk(Some(results))).value, results[k].content.value)
  {
    var top := Take(results, TavilyResultsRead);
    assert top[k] == results[k];
    var m := ContentPiecesHas(top, k);
    var pieces := ContentPieces(top);
    var at := JoinContainsParts(" ", pieces, m);
    assert Join(" ", pieces) != "";
  }

  /** The answer is absent exactly when there was nothing to join or the
      only piece was empty; two empty pieces already give " ". */
  lemma TavilyAbsentIff(results: seq<TavilyResult>)
    ensures TavilyContent(TavilyOk(Some(results))).None? <==>
      var pieces := ContentPieces(Take(results, TavilyResultsRead));
      pieces == [] || pieces == [""]
  {
    JoinEmptyIff(" ", ContentPieces(Take(results, TavilyResultsRead)));
  }

  /** The reply of test_service.py:55-70: both contents, joined by a space. */
  lemma TavilyTwoResults(a: string, b: string)
    ensures TavilyContent(TavilyOk(Some([TavilyResult(Some(a)), TavilyResult(Some(b))]))) == Some(a + " " + b)
  {
    var rs := [TavilyResult(Some(a)), TavilyResult(Some(b))];
    assert rs[..1] == [TavilyResult(Some(a))];
    assert rs[..1][..0] == [];
    assert ContentPieces(rs) == [a, b];
    assert Take(rs, TavilyResultsRead) == rs;
    assert [a, b][..1] == [a];
    assert Join(" ", [a, b]) == a + " " + b;
  }

  // ---------------------------------------------------------------------
  // DuckDuckGo (`_search_duckduckgo`)
  // ---------------------------------------------------------------------

  const DuckDuckGoUrl := "https://api.duckduckgo.com/"
  const DuckDuckGoSiteFilter := " site:docs.sui.io OR site:move-language.github.io"
  /** Only this many related topics are read. */
  const RelatedTopicsRead := 2

  /** The URL and the query parameters of the GET request. */
  datatype DuckDuckGoRequest = DuckDuckGoRequest(url: string, q: string, format: string, noHtml: string, skipDisambig: string)

  /** An entry of `RelatedTopics`: a dict, with its `Text` when present, or
      anything that is not a dict. */
  datatype RelatedTopic = TopicDict(text: Option<string>) | NotADict

  /** The decoded reply (`AbstractText` and `RelatedTopics` when present),
      or any failure. */
  datatype DuckDuckGoReply =
    | DuckDuckGoFailed
    | DuckDuckGoOk(abstractText: Option<string>, relatedTopics: Option<seq<RelatedTopic>>)

  function DuckDuckGoRequestFor(query: string): (req: DuckDuckGoRequest)
    ensures req.url == DuckDuckGoUrl
    ensures req.q == query + DuckDuckGoSiteFilter
  {
    DuckDuckGoRequest(DuckDuckGoUrl, query + DuckDuckGoSiteFilter, "json", "1", "1")
  }

  /** The text each dict topic with a `Text` contributes, each followed by a
      space. */
  function TopicsText(topics: seq<RelatedTopic>): string
    decreases |topics|
  {
    if topics == [] then ""
    else
      var last := topics[|topics| - 1];
      TopicsText(topics[..|topics| - 1]) + (if last.TopicDict? && last.text.Some? then last.text.value + " " else "")
  }

  /** The text accumulated before stripping: a non-empty abstract and a
      space, then the first two related topics' texts. */
  function RawContent(abstractText: Option<string>, relatedTopics: Option<seq<RelatedTopic>>): string
  {
    (if abstractText.Some? && abstractText.value != "" then abstractText.value + " " else "")
    + (if relatedTopics.Some? then TopicsText(Take(relatedTopics.value, RelatedTopicsRead)) else "")
  }

  /** The answer assembled from a reply: the stripped text, absent when it
      is empty or the call failed. */
  function DuckDuckGoContent(reply: DuckDuckGoReply): Option<string>
  {
    match reply
    case DuckDuckGoFailed => None
    case DuckDuckGoOk(abstractText, relatedTopics) =>
      var content := Strip(RawContent(abstractText, relatedTopics));
      if content == "" then None else Some(content)
  }

  function DuckDuckGoOutcome(api: DuckDuckGoRequest -> DuckDuckGoReply, query: string): Option<string>
  {
    DuckDuckGoContent(api(DuckDuckGoRequestFor(query)))
  }

  /** `_search_duckduckgo`: always sends exactly one request. */
  method SearchDuckDuckGo(api: DuckDuckGoRequest -> DuckDuckGoReply, query: string)
    returns (r: Option<string>, sent: DuckDuckGoRequest)
    ensures sent == DuckDuckGoRequestFor(query)
    ensures r == DuckDuckGoOutcome(api, query)
  {
    sent := DuckDuckGoRequestFor(query);
    var reply := api(sent);
    if reply.DuckDuckGoFailed? {
      return None, sent;
    }
    var DuckDuckGoOk(abstractText, relatedTopics) := reply;
    var content := "";
    if abstractText.Some? && abstractText.value != "" {
      content := content + abstractText.value + " ";
    }
    ghost var head := content;
    if relatedTopics.Some? {
      var top := Take(relatedTopics.value, RelatedTopicsRead);
      var i := 0;
      while i < |top|
        invariant 0 <= i <= |top|
        invariant content == head + TopicsText(top[..i])
      {
        assert top[..i + 1][..i] == top[..i];
        if top[i].TopicDict? && top[i].text.Some? {
          content := content + top[i].text.value + " ";
        }
        i := i + 1;
      }
      assert top[..|top|] == top;
    }
    assert content == RawContent(abstractText, relatedTopics);
    content := Strip(content);
    r := if content == "" then None else Some(content);
  }

  /** A present answer is non-empty and has no whitespace at either end;
      it is absent exactly when the accumulated text is all whitespace. */
  lemma DuckDuckGoAnswerTrimmed(abstractText: Option<string>, relatedTopics: Option<seq<RelatedTopic>>)
    ensures var r := DuckDuckGoContent(DuckDuckGoOk(abstractText, relatedTopics));
      && (r.None? <==> AllSpace(RawContent(abstractText, relatedTopics)))
      && (r.Some? ==> r.value != "" && !IsSpace(r.value[0]) && !IsSpace(r.value[|r.value| - 1]))
  {
    var raw := RawContent(abstractText, relatedTopics);
    StripEmptyIff(raw);
    StripSpec(raw);
  }

  /** The text of the related topic at `k` sits inside the topics' text. */
  lemma {:induction false} TopicsTextHas(topics: seq<RelatedTopic>, k: nat) returns (x: string, y: string)
    requires k < |topics| && topics[k].TopicDict? && topics[k].text.Some?
    ensures TopicsText(topics) == x + topics[k].text.value + y
    decreases |topics|
  {
    var init := topics[..|topics| - 1];
    var last := topics[|topics| - 1];
    if k == |topics| - 1 {
      x, y := TopicsText(init), " ";
    } else {
      var x1, y1 := TopicsTextHas(init, k);
      x := x1;
      y := y1 + (if last.TopicDict? && last.text.Some? then last.text.value + " " else "");
    }
  }

  /** Whatever non-blank text sits inside the accumulated text is found,
      stripped, in the answer, which is then present. */
  lemma DuckDuckGoKeepsInfix(abstractText: Option<string>, relatedTopics: Option<seq<RelatedTopic>>,
                             x: string, part: string, y: string)
    requires RawContent(abstractText, relatedTopics) == x + part + y
    requires Strip(part) != ""
    ensures var r := DuckDuckGoContent(DuckDuckGoOk(abstractText, relatedTopics));
      r.Some? && Contains(r.value, Strip(part))
  {
    ConcatOccursAt(x, part, y);
    DuckDuckGoKeepsOccurrence(abstractText, relatedTopics, part, |x|);
  }

  /** The same, for an occurrence of `part` at index `b` of the
      accumulated text. */
  lemma DuckDuckGoKeepsOccurrence(abstractText: Option<string>, relatedTopics: Option<seq<RelatedTopic>>,
                                  part: string, b: nat)
    requires OccursAt(RawContent(abstractText, relatedTopics), part, b)
    requires Strip(part) != ""
    ensures var r := DuckDuckGoContent(DuckDuckGoOk(abstractText, relatedTopics));
      r.Some? && Contains(r.value, Strip(part))
  {
    var raw := RawContent(abstractText, relatedTopics);
    StripKeepsOccurrence(raw, part, b);
    var s := Strip(raw);
    assert |s| >= |Strip(part)| by {
      var i: nat :| i <= |s| && OccursAt(s, Strip(part), i);
    }
  }

  /** A non-blank abstract is found, stripped, in the answer. */
  lemma DuckDuckGoKeepsAbstract(abstractText: string, relatedTopics: Option<seq<RelatedTopic>>)
    requires Strip(abstractText) != ""
    ensures var r := DuckDuckGoContent(DuckDuckGoOk(Some(abstractText), relatedTopics));
      r.Some? && Contains(r.value, Strip(abstractText))
  {
    var rest := if relatedTopics.Some? then TopicsText(Take(relatedTopics.value, RelatedTopicsRead)) else "";
    assert abstractText != "";
    assert RawContent(Some(abstractText), relatedTopics) == "" + abstractText + (" " + rest);
    DuckDuckGoKeepsInfix(Some(abstractText), relatedTopics, "", abstractText, " " + rest);
  }

  /** The non-blank text of each of the first two dict topics is found,
      stripped, in the answer. */
  lemma DuckDuckGoKeepsTopic(abstractText: Option<string>, topics: seq<RelatedTopic>, k: nat, text: string)
    requires k < RelatedTopicsRead && k < |topics| && topics[k] == TopicDict(Some(text))
    requires Strip(text) != ""
    ensures var r := DuckDuckGoContent(DuckDuckGoOk(abstractText, Some(topics)));
      r.Some? && Contains(r.value, Strip(text))
  {
    var b := TopicOccursInRaw(abstractText, topics, k, text);
    DuckDuckGoKeepsOccurrence(abstractText, Some(topics), text, b);
  }

  /** The text of each of the first two dict topics occurs in the
      accumulated text. */
  lemma TopicOccursInRaw(abstractText: Option<string>, topics: seq<RelatedTopic>, k: nat, text: string)
    returns (b: nat)
    requires k < RelatedTopicsRead && k < |topics| && topics[k] == TopicDict(Some(text))
    ensures OccursAt(RawContent(abstractText, Some(topics)), text, b)
  {
    var top := Take(topics, RelatedTopicsRead);
    assert top[k] == topics[k];
    var x1, y1 := TopicsTextHas(top, k);
    var head := if abstractText.Some? && abstractText.value != "" then abstractText.value + " " else "";
    var raw := RawContent(abstractText, Some(topics));
    var topicsText := TopicsText(top);
    ConcatOccursAt(x1, text, y1);
    ConcatOccursAt(head, topicsText, "");
    assert head + topicsText + "" == raw;
    OccursAtCompose(raw, topicsText, text, |head|, |x1|);
    b := |head| + |x1|;
  }

  /** Two dict topics with texts contribute both, each followed by a space. */
  lemma TwoTopicsText(t1: string, t2: string)
    ensures TopicsText([TopicDict(Some(t1)), TopicDict(Some(t2))]) == (t1 + " ") + (t2 + " ")
  {
    var ts := [TopicDict(Some(t1)), TopicDict(Some(t2))];
    assert ts[..1] == [TopicDict(Some(t1))];
    assert ts[..1][..0] == [];
    assert TopicsText(ts[..1]) == t1 + " ";
  }

  /** The reply of test_service.py:89-104: the abstract and both topic
      texts, separated by single spaces, without the trailing space. */
  lemma DuckDuckGoAbstractAndTopics(a: string, t1: string, t2: string)
    requires a != "" && !IsSpace(a[0])
    requires t2 != "" && !IsSpace(t2[|t2| - 1])
    ensures DuckDuckGoContent(DuckDuckGoOk(Some(a), Some([TopicDict(Some(t1)), TopicDict(Some(t2))])))
      == Some(a + " " + t1 + " " + t2)
  {
    var ts := [TopicDict(Some(t1)), TopicDict(Some(t2))];
    TwoTopicsText(t1, t2);
    assert Take(ts, RelatedTopicsRead) == ts;
    var body := a + " " + t1 + " " + t2;
    assert RawContent(Some(a), Some(ts)) == (a + " ") + ((t1 + " ") + (t2 + " "));
    assert (a + " ") + ((t1 + " ") + (t2 + " ")) == body + " ";
    assert body[0] == a[0];
    assert body[|body| - 1] == t2[|t2| - 1];
    StripTrailingSpace(body);
  }

  // ---------------------------------------------------------------------
  // The search chain (`search_sui_docs`)
  // ---------------------------------------------------------------------

  const NotFoundMessage := "Could not find relevant information in Sui documentation"

  /** The stages of the chain, as the calls they make. */
  datatype Stage = LocalLookup | Tavily | DuckDuckGo

  /** What a search produced, and the stages it called, in order. */
  datatype Run = Run(result: Result<string, SuiBotException>, calls: seq<Stage>)

  /** Python truthiness of an `Optional[str]`. */
  predicate Truthy(content: Option<string>)
  {
    content.Some? && content.value != ""
  }

  /** The chain over the three stages' outcomes: the first truthy one is
      the answer, and later stages are not called. */
  function Chain(local: Option<string>, tavily: Option<string>, duckDuckGo: Option<string>): Run
  {
    if Truthy(local) then Run(Success(local.value), [LocalLookup])
    else if Truthy(tavily) then Run(Success(tavily.value), [LocalLookup, Tavily])
    else if Truthy(duckDuckGo) then Run(Success(duckDuckGo.value), [LocalLookup, Tavily, DuckDuckGo])
    else Run(Failure(NewSearchError(NotFoundMessage)), [LocalLookup, Tavily, DuckDuckGo])
  }

  /** `search_sui_docs`. */
  method SearchSuiDocs(
    tavilyApiKey: Option<string>,
    tavily: TavilyRequest -> TavilyReply,
    duckDuckGo: DuckDuckGoRequest -> DuckDuckGoReply,
    query: string)
    returns (r: Result<string, SuiBotException>, calls: seq<Stage>)
    ensures Run(r, calls) == Chain(LocalInfo(query), TavilyOutcome(tavilyApiKey, tavily, query), DuckDuckGoOutcome(duckDuckGo, query))
  {
    calls := [LocalLookup];
    var content := CheckLocalInfo(query);
    if Truthy(content) {
      return Success(content.value), calls;
    }
    calls := calls + [Tavily];
    var tavilyRequests;
    content, tavilyRequests := SearchTavily(tavilyApiKey, tavily, query);
    if !Truthy(content) {
      calls := calls + [DuckDuckGo];
      var duckDuckGoRequest;
      content, duckDuckGoRequest := SearchDuckDuckGo(duckDuckGo, query);
    }
    if !Truthy(content) {
      return Failure(NewSearchError(NotFoundMessage)), calls;
    }
    return Success(content.value), calls;
  }

  /** The stages are called in the fixed order local, Tavily, DuckDuckGo,
      each at most once; DuckDuckGo is called exactly when neither earlier
      stage produced anything. */
  lemma ChainCallOrder(local: Option<string>, tavily: Option<string>, duckDuckGo: Option<string>)
    ensures var calls := Chain(local, tavily, duckDuckGo).calls;
      && 1 <= |calls| <= 3 && calls == [LocalLookup, Tavily, DuckDuckGo][..|calls|]
      && (Tavily in calls <==> !Truthy(local))
      && (DuckDuckGo in calls <==> !Truthy(local) && !Truthy(tavily))
  {
  }

  /** A stage that is not called cannot influence the run. */
  lemma ChainIgnoresUncalledStages(local: Option<string>, t1: Option<string>, t2: Option<string>,
                                   d1: Option<string>, d2: Option<string>)
    ensures Truthy(local) ==> Chain(local, t1, d1) == Chain(local, t2, d2)
    ensures Truthy(t1) ==> Chain(local, t1, d1) == Chain(local, t1, d2)
  {
  }

  /** The search fails exactly when all three stages come back empty, and
      then with the fixed `SearchError`; otherwise it answers with the
      first non-empty outcome. */
  lemma ChainResult(local: Option<string>, tavily: Option<string>, duckDuckGo: Option<string>)
    ensures var r := Chain(local, tavily, duckDuckGo).result;
      && (r.Failure? <==> !Truthy(local) && !Truthy(tavily) && !Truthy(duckDuckGo))
      && (r.Failure? ==> r.error.kind == SearchError && r.error.message == NotFoundMessage
                          && r.error.statusCode == 503)
      && (r.Success? ==> (r.value != "" &&
            r.value == (if Truthy(local) then local.value else if Truthy(tavily) then tavily.value else duckDuckGo.value)))
  {
  }

  /** A catalog hit answers with the catalog body and calls neither web
      provider, whatever they would have returned. */
  lemma LocalHitShortCircuits(query: string, tavily: Option<string>, duckDuckGo: Option<string>)
    requires LocalInfo(query).Some?
    ensures Chain(LocalInfo(query), tavily, duckDuckGo) == Run(Success(LocalInfo(query).value), [LocalLookup])
  {
  }

  /** test_service.py:127-136: "Sui question" misses the catalog, Tavily
      finds nothing and DuckDuckGo answers; both providers are called once
      and the DuckDuckGo text is returned. */
  lemma FallsBackToDuckDuckGo()
    ensures Chain(LocalInfo("Sui question"), None, Some("Sui documentation from DuckDuckGo"))
      == Run(Success("Sui documentation from DuckDuckGo"), [LocalLookup, Tavily, DuckDuckGo])
  {
    SuiQuestionMissesCatalog();
  }
}
