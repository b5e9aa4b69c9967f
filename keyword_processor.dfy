/**
 * The keyword pipeline (`KeywordProcessor`): offline synthesis, the single-
 * and multi-region online pipelines, the paginated collector, the server-side
 * filter string, the client-side filter, and the deduplication against the
 * list the service returns.
 *
 * The API client is an oracle (`Service`): each field gives the answer the
 * corresponding client wrapper returns for a request, already mapped to its
 * default where the service gave no body.
 */
module KeywordPipeline {
  import opened Common
  import opened Seqs
  import opened Text
  import opened Records
  import opened Settings
  import opened KeysApi

  /**
   * What the client wrappers answer. `pages(uid)` lists the answers to the
   * page requests 1, 2, ... of the job `uid`; a page past the end of that list
   * is answered with no body, that is, with the empty default page.
   */
  datatype Service = Service(
    suggest: (seq<string>, int) -> Result<seq<string>, ApiError>,
    suggestMulti: (seq<string>, seq<int>) -> Result<map<int, seq<string>>, ApiError>,
    create: (string, seq<string>) -> Result<Value, ApiError>,
    wait: Value -> Result<bool, ApiError>,
    pages: Value -> seq<Result<Body, ApiError>>,
    deleteDoubles: seq<string> -> Result<seq<string>, ApiError>)

  /** What the pipeline raises: an error of the client, or the job that was never created. */
  datatype PipelineError = ServiceFailed(error: ApiError) | JobNotCreated

  const PerPage: nat := 100
  const Sort: string := "wsk|asc,numwords|desc"
  const Interrogatives: seq<string> := ["как", "где", "сколько", "что", "какой"]

  /** The phrases of a list of candidates, in order (`words_only`). */
  function Phrases(ks: seq<Record>): seq<string> {
    seq(|ks|, i requires 0 <= i < |ks| => Phrase(ks[i]))
  }

  // ---------------------------------------------------------------------------
  // Offline mode
  // ---------------------------------------------------------------------------

  /** The lowercased seed contains one of the five interrogatives. */
  predicate IsQuestion(seed: string) {
    exists q :: q in Interrogatives && Contains(Lower(seed), q)
  }

  /** The record synthesised for one seed when no service is used. */
  function OfflineRecord(seed: string): Record {
    map["word" := Str(seed), "destination_key" := Str(seed), "wsk" := Int(0), "ws" := Int(0),
        "numwords" := Int(|Words(seed)|), "isquest" := Int(if IsQuestion(seed) then 1 else 0),
        "isgeo" := Int(0), "adscnt" := Int(0), "avbid" := Int(0), "docs" := Int(0), "cnt" := Int(0),
        "offline" := Bool(true)]
  }

  function OfflineRecords(seeds: seq<string>): seq<Record> {
    seq(|seeds|, i requires 0 <= i < |seeds| => OfflineRecord(seeds[i]))
  }

  /** `_offline_mode_results(seeds)`: one record per seed, then `[:max_results]`. */
  method OfflineModeResults(c: Config, seeds: seq<string>) returns (r: seq<Record>)
    ensures r == Prefix(OfflineRecords(seeds), c.maxResults)
  {
    var results: seq<Record> := [];
    var i := 0;
    while i < |seeds|
      invariant 0 <= i <= |seeds|
      invariant |results| == i
      invariant forall j :: 0 <= j < i ==> results[j] == OfflineRecord(seeds[j])
    {
      results := results + [OfflineRecord(seeds[i])];
      i := i + 1;
    }
    assert results == OfflineRecords(seeds);
    r := Prefix(results, c.maxResults);
  }

  /**
   * The offline results are the seeds in order, cut at `max_results`: each
   * record's phrase is its seed, with no volume, the seed's word count, and
   * the question flag set exactly for the interrogative seeds.
   */
  lemma OfflineResultsFollowSeeds(c: Config, seeds: seq<string>)
    ensures Phrases(Prefix(OfflineRecords(seeds), c.maxResults)) == Prefix(seeds, c.maxResults)
    ensures forall i :: 0 <= i < SliceLength(|seeds|, c.maxResults) ==>
      var kw := Prefix(OfflineRecords(seeds), c.maxResults)[i];
      kw["wsk"] == Int(0) && kw["ws"] == Int(0) && kw["numwords"] == Int(|Words(seeds[i])|)
      && (kw["isquest"] == Int(1) <==> IsQuestion(seeds[i]))
  {
    var r := Prefix(OfflineRecords(seeds), c.maxResults);
    forall i | 0 <= i < |r|
      ensures Phrase(r[i]) == seeds[i]
      ensures r[i]["wsk"] == Int(0) && r[i]["ws"] == Int(0) && r[i]["numwords"] == Int(|Words(seeds[i])|)
      ensures r[i]["isquest"] == Int(1) <==> IsQuestion(seeds[i])
    {
      assert r[i] == OfflineRecord(seeds[i]);
      OfflineRecordPhrase(seeds[i]);
      OfflineRecordFields(seeds[i]);
    }
  }

  lemma OfflineRecordPhrase(seed: string)
    ensures Phrase(OfflineRecord(seed)) == seed
  {
  }

  lemma OfflineRecordFields(seed: string)
    ensures var kw := OfflineRecord(seed);
      kw["wsk"] == Int(0) && kw["ws"] == Int(0) && kw["numwords"] == Int(|Words(seed)|)
      && (kw["isquest"] == Int(1) <==> IsQuestion(seed))
  {
  }

  // ---------------------------------------------------------------------------
  // Client-side filter
  // ---------------------------------------------------------------------------

  /** The stop word `sw`, stripped, is non-blank and occurs in the lowercased text. */
  predicate Hits(sw: string, text: string) {
    Strip(sw) != "" && Contains(Lower(text), Lower(Strip(sw)))
  }

  /** `_contains_stop_words(text)`: the search over the stop words, stopping at the first hit. */
  predicate ContainsStopWords(stopWords: seq<string>, text: string)
    decreases |stopWords|
  {
    stopWords != [] && (Hits(stopWords[0], text) || ContainsStopWords(stopWords[1..], text))
  }

  /** The search finds a hit exactly when some stop word hits. */
  lemma {:induction false} ContainsStopWordsIff(stopWords: seq<string>, text: string)
    ensures ContainsStopWords(stopWords, text) <==> exists i :: 0 <= i < |stopWords| && Hits(stopWords[i], text)
    decreases |stopWords|
  {
    if stopWords != [] {
      ContainsStopWordsIff(stopWords[1..], text);
      if exists i :: 0 <= i < |stopWords| && Hits(stopWords[i], text) {
        var i :| 0 <= i < |stopWords| && Hits(stopWords[i], text);
        if i > 0 {
          assert stopWords[1..][i - 1] == stopWords[i];
        }
      }
      if ContainsStopWords(stopWords[1..], text) {
        var i :| 0 <= i < |stopWords| - 1 && Hits(stopWords[1..][i], text);
        assert stopWords[i + 1] == stopWords[1..][i];
      }
    }
  }

  /** A character the validity check accepts: `\w`, `\s` or `-`. */
  predicate Allowed(ch: char) {
    IsWordChar(ch) || IsSpace(ch) || ch == '-'
  }

  /** `_is_valid_keyword(text)`: the three checks in order. */
  predicate IsValidKeyword(text: string) {
    if |text| < 5 then false
    else if exists i :: 0 <= i < |text| && !Allowed(text[i]) then false
    else var words := Words(text); !(2 * |Elems(words)| < |words|)
  }

  /** `k` copies of the word `w`. */
  function Copies(w: string, k: nat): seq<string> {
    seq(k, _ => w)
  }

  /**
   * The repetition check on one word said `k` times: as long as the phrase is
   * long enough, two copies still pass (one distinct word is half of two) and
   * three or more are rejected.
   */
  lemma RepeatedWord(w: string, k: nat)
    requires w != [] && forall i :: 0 <= i < |w| ==> IsWordChar(w[i])
    requires k >= 1 && |Join(Copies(w, k), " ")| >= 5
    ensures IsValidKeyword(Join(Copies(w, k), " ")) <==> k <= 2
  {
    var ws := Copies(w, k);
    var text := Join(ws, " ");
    SplitJoin(ws, ' ', IsSpace);
    assert Words(text) == ws;
    JoinAllowed(ws);
    assert Elems(ws) == {w} by {
      assert ws[0] == w;
    }
  }

  /** A phrase joined with spaces from words of word characters has only allowed characters. */
  lemma {:induction false} JoinAllowed(ws: seq<string>)
    requires forall k, i :: 0 <= k < |ws| && 0 <= i < |ws[k]| ==> IsWordChar(ws[k][i])
    ensures forall i :: 0 <= i < |Join(ws, " ")| ==> Allowed(Join(ws, " ")[i])
    decreases |ws|
  {
    if |ws| > 1 {
      JoinAllowed(ws[1..]);
      assert Join(ws, " ") == ws[0] + " " + Join(ws[1..], " ");
      forall i | 0 <= i < |Join(ws, " ")|
        ensures Allowed(Join(ws, " ")[i])
      {
        if i < |ws[0]| {
          assert Join(ws, " ")[i] == ws[0][i];
        } else if i > |ws[0]| {
          assert Join(ws, " ")[i] == Join(ws[1..], " ")[i - |ws[0]| - 1];
        }
      }
    } else if |ws| == 1 {
      assert Join(ws, " ") == ws[0];
    }
  }

  /** A phrase of at least five allowed characters whose words are all different is valid. */
  lemma DistinctWordsAreValid(text: string)
    requires |text| >= 5 && forall i :: 0 <= i < |text| ==> Allowed(text[i])
    requires Distinct(Words(text))
    ensures IsValidKeyword(text)
  {
    DistinctElems(Words(text));
  }

  /** The phrase of every kept candidate is valid, and its numbers are within bounds. */
  predicate Passes(c: Config, kw: Record) {
    NumField(kw, "numwords", 0) >= c.minNumWords as real
    && NumField(kw, "wsk", 999999) <= c.wskThreshold as real
    && !ContainsStopWords(c.stopWords.GetOr([]), Phrase(kw))
    && IsValidKeyword(Phrase(kw))
  }

  function Keep(c: Config): Record -> bool {
    kw => Passes(c, kw)
  }

  /** `_filter_keywords(keywords)`: the candidates passing every check, in order. */
  method FilterKeywords(c: Config, keywords: seq<Record>) returns (filtered: seq<Record>)
    requires c.stopWords.Some?
    ensures filtered == Filter(keywords, Keep(c))
  {
    filtered := [];
    var i := 0;
    while i < |keywords|
      invariant 0 <= i <= |keywords|
      invariant filtered == Filter(keywords[..i], Keep(c))
    {
      var kw := keywords[i];
      var word := Phrase(kw);
      if NumField(kw, "numwords", 0) < c.minNumWords as real {
      } else if NumField(kw, "wsk", 999999) > c.wskThreshold as real {
      } else if ContainsStopWords(c.stopWords.value, word) {
      } else if !IsValidKeyword(word) {
      } else {
        filtered := filtered + [kw];
      }
      FilterAppend(keywords[..i], kw, Keep(c));
      assert keywords[..i + 1] == keywords[..i] + [kw];
      i := i + 1;
    }
    assert keywords[..|keywords|] == keywords;
  }

  /**
   * The filter keeps an order-preserving subsequence; a kept candidate has
   * enough words (missing: 0), a small enough volume (missing: 999999), no
   * stop word and a valid phrase; every candidate passing the checks is kept.
   */
  lemma FilterKeepsQualified(c: Config, keywords: seq<Record>)
    ensures IsSubsequence(Filter(keywords, Keep(c)), keywords)
    ensures forall kw :: kw in Filter(keywords, Keep(c)) ==>
      NumField(kw, "numwords", 0) >= c.minNumWords as real
      && NumField(kw, "wsk", 999999) <= c.wskThreshold as real
      && !ContainsStopWords(c.stopWords.GetOr([]), Phrase(kw)) && IsValidKeyword(Phrase(kw))
    ensures forall kw :: kw in keywords && Passes(c, kw) ==> kw in Filter(keywords, Keep(c))
  {
    FilterIsSubsequence(keywords, Keep(c));
  }

  // ---------------------------------------------------------------------------
  // Server-side filter string
  // ---------------------------------------------------------------------------

  /** The operator text that starts a stop-word clause. */
  const NotLike: string := "destination_keyNOT LIKE"

  /** The clause excluding one stop word, if the stripped word is non-blank. */
  function StopClause(sw: string): seq<string> {
    if Strip(sw) != "" then [NotLike + Strip(sw)] else []
  }

  /** The stop-word clauses, in the order of the stop words. */
  function StopClauses(stopWords: seq<string>): seq<string>
    decreases |stopWords|
  {
    if stopWords == [] then []
    else StopClauses(stopWords[..|stopWords| - 1]) + StopClause(stopWords[|stopWords| - 1])
  }

  lemma StopClausesStep(stopWords: seq<string>, i: nat)
    requires i < |stopWords|
    ensures StopClauses(stopWords[..i + 1]) == StopClauses(stopWords[..i]) + StopClause(stopWords[i])
  {
    assert stopWords[..i + 1][..i] == stopWords[..i];
  }

  lemma StopClausesGrow(filters: seq<string>, stopWords: seq<string>, i: nat)
    requires i < |stopWords|
    ensures filters + StopClauses(stopWords[..i]) + StopClause(stopWords[i]) == filters + StopClauses(stopWords[..i + 1])
  {
    StopClausesStep(stopWords, i);
  }

  /** The `ad_filters` value, if truthy. */
  function AdClause(adFilters: Option<string>): seq<string> {
    if adFilters.Some? && adFilters.value != "" then [adFilters.value] else []
  }

  /** The bound clauses on word count, volume and, if set, exact volume. */
  function BoundClauses(c: Config): seq<string> {
    ["numwords>=" + IntToString(c.minNumWords), "wsk<=" + IntToString(c.wskThreshold)]
    + (if c.wsThreshold != 0 then ["ws<=" + IntToString(c.wsThreshold)] else [])
  }

  /** The adult-content clause, if safe filtering is on, then the raw ad filter. */
  function FlagClauses(c: Config): seq<string> {
    (if c.safeFilters then ["isadult=0"] else []) + AdClause(c.adFilters)
  }

  /** The clauses of the filter string, in order. */
  function Clauses(c: Config): seq<string>
    requires c.stopWords.Some?
  {
    BoundClauses(c) + StopClauses(c.stopWords.value) + FlagClauses(c)
  }

  function Filters(c: Config): string
    requires c.stopWords.Some?
  {
    Join(Clauses(c), "^")
  }

  /** `_build_filters()`: the clauses appended one by one, then joined with `^`. */
  method BuildFilters(c: Config) returns (r: string)
    requires c.stopWords.Some?
    ensures r == Filters(c)
  {
    var filters: seq<string> := [];
    filters := filters + ["numwords>=" + IntToString(c.minNumWords)];
    filters := filters + ["wsk<=" + IntToString(c.wskThreshold)];
    if c.wsThreshold != 0 {
      filters := filters + ["ws<=" + IntToString(c.wsThreshold)];
    }
    assert filters == BoundClauses(c);
    var stops := AppendStopClauses(filters, c.stopWords.value);
    filters := stops;
    ghost var middle := filters;
    if c.safeFilters {
      filters := filters + ["isadult=0"];
    }
    ghost var flagged := filters;
    if c.adFilters.Some? && c.adFilters.value != "" {
      filters := filters + [c.adFilters.value];
    }
    assert filters == flagged + AdClause(c.adFilters);
    assert flagged == middle + (if c.safeFilters then ["isadult=0"] else []);
    assert filters == middle + FlagClauses(c);
    assert filters == Clauses(c);
    r := Join(filters, "^");
  }

  /** The `for stop_word in stop_words` loop of `_build_filters`. */
  method AppendStopClauses(filters: seq<string>, stopWords: seq<string>) returns (r: seq<string>)
    ensures r == filters + StopClauses(stopWords)
  {
    r := filters;
    var i := 0;
    while i < |stopWords|
      invariant 0 <= i <= |stopWords|
      invariant r == filters + StopClauses(stopWords[..i])
    {
      r := AppendStopClause(r, stopWords[i]);
      StopClausesGrow(filters, stopWords, i);
      i := i + 1;
    }
    assert stopWords[..|stopWords|] == stopWords;
  }

  /** One pass of the stop-word loop: the stripped word, if non-blank, as a clause. */
  method AppendStopClause(filters: seq<string>, stopWord: string) returns (r: seq<string>)
    ensures r == filters + StopClause(stopWord)
  {
    r := filters;
    var sw := Strip(stopWord);
    if sw != "" {
      r := r + [NotLike + sw];
    }
  }

  predicate IsCaret(ch: char) {
    ch == '^'
  }

  predicate CaretFree(s: string) {
    forall i :: 0 <= i < |s| ==> s[i] != '^'
  }

  /**
   * When no stop word and no raw ad filter contains `^`, splitting the filter
   * string at `^` gives back exactly its clauses, in order.
   */
  lemma FiltersSplitIntoClauses(c: Config)
    requires c.stopWords.Some?
    requires forall k :: 0 <= k < |c.stopWords.value| ==> CaretFree(c.stopWords.value[k])
    requires c.adFilters.Some? ==> CaretFree(c.adFilters.value)
    ensures Split(Filters(c), IsCaret) == Clauses(c)
  {
    ClausesShape(c);
    SplitJoin(Clauses(c), '^', IsCaret);
  }

  /** Every clause is non-empty and free of `^`. */
  predicate Separable(cs: seq<string>) {
    forall k :: 0 <= k < |cs| ==> cs[k] != [] && CaretFree(cs[k])
  }

  lemma SeparableConcat(a: seq<string>, b: seq<string>)
    requires Separable(a) && Separable(b)
    ensures Separable(a + b)
  {
    assert forall k :: 0 <= k < |a + b| ==> (a + b)[k] == (if k < |a| then a[k] else b[k - |a|]);
  }

  lemma BoundClausesShape(c: Config)
    ensures Separable(BoundClauses(c))
  {
    PrefixedClause("numwords>=", IntToString(c.minNumWords));
    PrefixedClause("wsk<=", IntToString(c.wskThreshold));
    PrefixedClause("ws<=", IntToString(c.wsThreshold));
  }

  lemma FlagClausesShape(c: Config)
    requires c.adFilters.Some? ==> CaretFree(c.adFilters.value)
    ensures Separable(FlagClauses(c))
  {
    var f := if c.safeFilters then ["isadult=0"] else [];
    assert Separable(f);
    SeparableConcat(f, AdClause(c.adFilters));
  }

  lemma ClausesShape(c: Config)
    requires c.stopWords.Some?
    requires forall k :: 0 <= k < |c.stopWords.value| ==> CaretFree(c.stopWords.value[k])
    requires c.adFilters.Some? ==> CaretFree(c.adFilters.value)
    ensures Separable(Clauses(c))
  {
    BoundClausesShape(c);
    StopClausesShape(c.stopWords.value);
    FlagClausesShape(c);
    SeparableConcat(BoundClauses(c), StopClauses(c.stopWords.value));
    SeparableConcat(BoundClauses(c) + StopClauses(c.stopWords.value), FlagClauses(c));
  }

  lemma PrefixedClause(name: string, s: string)
    requires name != [] && CaretFree(name)
    requires CaretFree(s)
    ensures name + s != [] && CaretFree(name + s)
  {
    assert forall i :: 0 <= i < |name + s| ==> (name + s)[i] == (if i < |name| then name[i] else s[i - |name|]);
  }

  lemma {:induction false} StopClausesShape(stopWords: seq<string>)
    requires forall k :: 0 <= k < |stopWords| ==> CaretFree(stopWords[k])
    ensures Separable(StopClauses(stopWords))
    decreases |stopWords|
  {
    if stopWords != [] {
      var init := stopWords[..|stopWords| - 1];
      var last := stopWords[|stopWords| - 1];
      StopClausesShape(init);
      StopClauseShape(last);
      SeparableConcat(StopClauses(init), StopClause(last));
    }
  }

  lemma StopClauseShape(stopWord: string)
    requires CaretFree(stopWord)
    ensures Separable(StopClause(stopWord))
  {
    var sw := Strip(stopWord);
    if sw != "" {
      StripIsCaretFree(stopWord);
      NotLikeCaretFree();
      PrefixedClause(NotLike, sw);
      assert StopClause(stopWord) == [NotLike + sw];
    } else {
      assert StopClause(stopWord) == [];
    }
  }

  lemma NotLikeCaretFree()
    ensures NotLike != [] && CaretFree(NotLike)
  {
    assert forall i :: 0 <= i < |NotLike| ==> NotLike[i] in "destination_keyNOT LIKE";
  }

  lemma StripIsCaretFree(s: string)
    requires CaretFree(s)
    ensures CaretFree(Strip(s))
  {
    var t := StripStart(s);
    SliceCaretFree(s, |s| - |t|, |s|);
    assert t == s[|s| - |t|..|s|];
    SliceCaretFree(t, 0, |StripEnd(t)|);
    assert StripEnd(t) == t[0..|StripEnd(t)|];
  }

  lemma SliceCaretFree(s: string, lo: nat, hi: nat)
    requires CaretFree(s) && lo <= hi <= |s|
    ensures CaretFree(s[lo..hi])
  {
    assert forall i :: 0 <= i < hi - lo ==> s[lo..hi][i] == s[lo + i];
  }

  // ---------------------------------------------------------------------------
  // Paginated collector
  // ---------------------------------------------------------------------------

  /** `result.get("data", [])`: the rows of a page; a field that is not a list of rows reads as none. */
  function PageRows(b: Body): seq<Record> {
    if "data" in b && b["data"].Rows? then b["data"].rows else []
  }

  /** The answer to the request for page `p` (1-based). */
  function Answer(pages: seq<Result<Body, ApiError>>, p: nat): Result<Body, ApiError> {
    if 1 <= p <= |pages| then pages[p - 1] else Ok(NoPage)
  }

  /** What the collector returns and how many page requests it made. */
  datatype Collected = Collected(result: Result<seq<Record>, ApiError>, requests: nat)

  /** The rows `rows` collected ahead of a later collection. */
  function Glue(rows: seq<Record>, rest: Collected): Collected {
    Collected(if rest.result.Ok? then Ok(rows + rest.result.value) else rest.result, rest.requests)
  }

  /** The collection from page `p` on: stop at an empty or short page, or at an error. */
  function Collect(pages: seq<Result<Body, ApiError>>, p: nat): (col: Collected)
    requires p >= 1
    decreases |pages| + 1 - p
  {
    match Answer(pages, p)
    case Err(e) => Collected(Err(e), p)
    case Ok(b) =>
      var data := PageRows(b);
      if data == [] || |data| < PerPage then Collected(Ok(data), p)
      else Glue(data, Collect(pages, p + 1))
  }

  /** The rows of pages `p` up to but excluding `q`. */
  function RowsBetween(pages: seq<Result<Body, ApiError>>, p: nat, q: nat): seq<Record>
    decreases q - p
  {
    if p >= q then []
    else (if Answer(pages, p).Ok? then PageRows(Answer(pages, p).value) else []) + RowsBetween(pages, p + 1, q)
  }

  /**
   * The collector requests pages `p`, `p + 1`, ... up to its last request;
   * every page before the last is at least a full page; the result is the error of the
   * last page, or all the rows of the requested pages in order, the last one
   * being empty or short; at most one request goes past the known pages.
   */
  lemma {:induction false} CollectShape(pages: seq<Result<Body, ApiError>>, p: nat)
    requires p >= 1
    ensures p <= Collect(pages, p).requests <= Max(p, |pages| + 1)
    ensures forall j :: p <= j < Collect(pages, p).requests ==>
      Answer(pages, j).Ok? && |PageRows(Answer(pages, j).value)| >= PerPage
    ensures Collect(pages, p).result.Err? ==> Answer(pages, Collect(pages, p).requests).Err?
    ensures Collect(pages, p).result.Ok? ==>
      Answer(pages, Collect(pages, p).requests).Ok?
      && |PageRows(Answer(pages, Collect(pages, p).requests).value)| < PerPage
      && Collect(pages, p).result.value == RowsBetween(pages, p, Collect(pages, p).requests + 1)
    decreases |pages| + 1 - p
  {
    var col := Collect(pages, p);
    match Answer(pages, p)
    case Err(e) =>
    case Ok(b) =>
      var data := PageRows(b);
      if data == [] || |data| < PerPage {
        assert RowsBetween(pages, p + 1, p + 1) == [];
      } else {
        assert p <= |pages|;
        CollectShape(pages, p + 1);
        var rest := Collect(pages, p + 1);
        if rest.result.Ok? {
          assert col.result.value == data + rest.result.value;
          assert RowsBetween(pages, p, rest.requests + 1) == data + RowsBetween(pages, p + 1, rest.requests + 1);
        }
      }
  }

  /** Two full pages and a page of 37 rows: three requests, 237 rows, in page order. */
  lemma ThreePages(a: seq<Record>, b: seq<Record>, c: seq<Record>)
    requires |a| == 100 && |b| == 100 && |c| == 37
    ensures var pages := [Ok(map["data" := Rows(a)]), Ok(map["data" := Rows(b)]), Ok(map["data" := Rows(c)])];
      Collect(pages, 1) == Collected(Ok(a + b + c), 3) && |a + b + c| == 237
  {
    var pages: seq<Result<Body, ApiError>> := [Ok(map["data" := Rows(a)]), Ok(map["data" := Rows(b)]), Ok(map["data" := Rows(c)])];
    assert Collect(pages, 3) == Collected(Ok(c), 3);
    assert Collect(pages, 2) == Collected(Ok(b + c), 3);
    assert a + (b + c) == a + b + c;
  }

  /** `_fetch_all_keywords(uid)`; `sent` holds the query of every page request made. */
  method FetchAllKeywords(c: Config, pages: seq<Result<Body, ApiError>>)
    returns (r: Result<seq<Record>, ApiError>, sent: seq<map<string, Value>>)
    requires c.stopWords.Some?
    ensures r == Collect(pages, 1).result
    ensures |sent| == Collect(pages, 1).requests
    ensures forall i :: 0 <= i < |sent| ==> sent[i] == PageParams(i + 1, PerPage, Filters(c), Sort)
  {
    var filters := BuildFilters(c);
    r, sent := RequestPages(pages, filters);
  }

  /** The `while True` page loop of `_fetch_all_keywords`, sending `filters` with every request. */
  method RequestPages(pages: seq<Result<Body, ApiError>>, filters: string)
    returns (r: Result<seq<Record>, ApiError>, sent: seq<map<string, Value>>)
    ensures r == Collect(pages, 1).result
    ensures |sent| == Collect(pages, 1).requests
    ensures forall i :: 0 <= i < |sent| ==> sent[i] == PageParams(i + 1, PerPage, filters, Sort)
  {
    var all: seq<Record> := [];
    var page: nat := 1;
    sent := [];
    GlueNothing(Collect(pages, 1));
    while true
      invariant page >= 1 && |sent| == page - 1
      invariant SentInOrder(sent, filters)
      invariant Collect(pages, 1) == Glue(all, Collect(pages, page))
      decreases |pages| + 1 - page
    {
      SentGrows(sent, filters);
      sent := sent + [PageParams(page, PerPage, filters, Sort)];
      var result := Answer(pages, page);
      CollectStep(pages, page);
      if result.Err? {
        return Err(result.error), sent;
      }
      var data := PageRows(result.value);
      if data == [] {
        assert all + data == all;
        break;
      }
      ghost var before := all;
      all := all + data;
      if |data| < PerPage {
        break;
      }
      GlueTwice(before, data, Collect(pages, page + 1));
      page := page + 1;
    }
    r := Ok(all);
  }

  /** The `i`-th query sent asked for page `i + 1` with the filter text. */
  predicate SentInOrder(sent: seq<map<string, Value>>, filters: string) {
    forall i :: 0 <= i < |sent| ==> sent[i] == PageParams(i + 1, PerPage, filters, Sort)
  }

  lemma SentGrows(sent: seq<map<string, Value>>, filters: string)
    requires SentInOrder(sent, filters)
    ensures SentInOrder(sent + [PageParams(|sent| + 1, PerPage, filters, Sort)], filters)
  {
  }

  /** One request of the collector: an error ends it, an empty or short page ends it, a full page goes on. */
  lemma CollectStep(pages: seq<Result<Body, ApiError>>, p: nat)
    requires p >= 1
    ensures Answer(pages, p).Err? ==> Collect(pages, p) == Collected(Err(Answer(pages, p).error), p)
    ensures Answer(pages, p).Ok? && |PageRows(Answer(pages, p).value)| < PerPage ==>
      Collect(pages, p) == Collected(Ok(PageRows(Answer(pages, p).value)), p)
    ensures Answer(pages, p).Ok? && |PageRows(Answer(pages, p).value)| >= PerPage ==>
      p <= |pages| && Collect(pages, p) == Glue(PageRows(Answer(pages, p).value), Collect(pages, p + 1))
  {
  }

  lemma GlueNothing(rest: Collected)
    ensures Glue([], rest) == rest
  {
    if rest.result.Ok? {
      assert [] + rest.result.value == rest.result.value;
    }
  }

  lemma GlueTwice(a: seq<Record>, d: seq<Record>, rest: Collected)
    ensures Glue(a, Glue(d, rest)) == Glue(a + d, rest)
  {
    if rest.result.Ok? {
      assert a + (d + rest.result.value) == (a + d) + rest.result.value;
    }
  }

  // ---------------------------------------------------------------------------
  // Deduplication against the service's list
  // ---------------------------------------------------------------------------

  /** The candidates whose phrase is still allowed, each allowed phrase used up by its first candidate. */
  function Dedup(ks: seq<Record>, allowed: set<string>): seq<Record>
    decreases |ks|
  {
    if ks == [] then []
    else if Phrase(ks[0]) in allowed then [ks[0]] + Dedup(ks[1..], allowed - {Phrase(ks[0])})
    else Dedup(ks[1..], allowed)
  }

  /** What `_deduplicate_keywords` returns, the service's list being `delete_doubles(words_only)`. */
  function Deduplicated(api: Service, ks: seq<Record>): Result<seq<Record>, ApiError> {
    match api.deleteDoubles(Phrases(ks))
    case Err(e) => Err(e)
    case Ok(ws) => Ok(Dedup(ks, Elems(ws)))
  }

  /** `_deduplicate_keywords(keywords)`: keep a candidate if its phrase is in the set, then discard the phrase. */
  method DeduplicateKeywords(api: Service, keywords: seq<Record>) returns (r: Result<seq<Record>, ApiError>)
    ensures r == Deduplicated(api, keywords)
  {
    var wordsOnly := Phrases(keywords);
    var answer := api.deleteDoubles(wordsOnly);
    if answer.Err? {
      return Err(answer.error);
    }
    var deduplicated: seq<Record> := [];
    var dedupSet := Elems(answer.value);
    var i := 0;
    while i < |keywords|
      invariant 0 <= i <= |keywords|
      invariant Dedup(keywords, Elems(answer.value)) == deduplicated + Dedup(keywords[i..], dedupSet)
    {
      var kw := keywords[i];
      var word := Phrase(kw);
      assert keywords[i..][1..] == keywords[i + 1..];
      ghost var before := deduplicated;
      if word in dedupSet {
        deduplicated := deduplicated + [kw];
        dedupSet := dedupSet - {word};
        assert before + ([kw] + Dedup(keywords[i + 1..], dedupSet)) == deduplicated + Dedup(keywords[i + 1..], dedupSet);
      }
      i := i + 1;
    }
    assert keywords[|keywords|..] == [];
    assert deduplicated + [] == deduplicated;
    r := Ok(deduplicated);
  }

  /** The deduplicated candidates keep their relative order. */
  lemma {:induction false} DedupIsSubsequence(ks: seq<Record>, allowed: set<string>)
    ensures IsSubsequence(Dedup(ks, allowed), ks)
    decreases |ks|
  {
    if ks != [] {
      var w := Phrase(ks[0]);
      if w in allowed {
        DedupIsSubsequence(ks[1..], allowed - {w});
        assert Dedup(ks, allowed)[1..] == Dedup(ks[1..], allowed - {w});
      } else {
        DedupIsSubsequence(ks[1..], allowed);
        if Dedup(ks, allowed) != [] {
          SubsequenceSkip(Dedup(ks[1..], allowed), ks[1..], ks[0]);
          assert [ks[0]] + ks[1..] == ks;
        }
      }
    }
  }

  /** Every kept phrase is an allowed one, and no phrase is kept twice. */
  lemma {:induction false} DedupPhrases(ks: seq<Record>, allowed: set<string>)
    ensures forall kw :: kw in Dedup(ks, allowed) ==> Phrase(kw) in allowed
    ensures Distinct(Phrases(Dedup(ks, allowed)))
    decreases |ks|
  {
    if ks != [] {
      var w := Phrase(ks[0]);
      if w in allowed {
        var rest := Dedup(ks[1..], allowed - {w});
        DedupPhrases(ks[1..], allowed - {w});
        var d := [ks[0]] + rest;
        assert Dedup(ks, allowed) == d;
        forall i, j | 0 <= i < j < |d|
          ensures Phrase(d[i]) != Phrase(d[j])
        {
          assert d[j] == rest[j - 1];
          if i > 0 {
            assert d[i] == rest[i - 1];
            assert Phrases(rest)[i - 1] != Phrases(rest)[j - 1];
          } else {
            assert rest[j - 1] in rest;
          }
        }
      } else {
        DedupPhrases(ks[1..], allowed);
      }
    }
  }

  /** The first candidate of `ks` whose phrase is `w`. */
  function FirstWith(ks: seq<Record>, w: string): Option<Record>
    decreases |ks|
  {
    if ks == [] then None
    else if Phrase(ks[0]) == w then Some(ks[0])
    else FirstWith(ks[1..], w)
  }

  /** Each kept candidate is the first candidate of the input with its phrase. */
  lemma {:induction false} DedupKeepsFirst(ks: seq<Record>, allowed: set<string>)
    ensures forall kw :: kw in Dedup(ks, allowed) ==> FirstWith(ks, Phrase(kw)) == Some(kw)
    decreases |ks|
  {
    if ks != [] {
      var w := Phrase(ks[0]);
      var left := if w in allowed then allowed - {w} else allowed;
      DedupKeepsFirst(ks[1..], left);
      DedupPhrases(ks[1..], left);
      forall kw | kw in Dedup(ks, allowed)
        ensures FirstWith(ks, Phrase(kw)) == Some(kw)
      {
        if kw != ks[0] || w !in allowed {
          assert kw in Dedup(ks[1..], left);
          assert Phrase(kw) in left;
        }
      }
    }
  }

  /** Every allowed phrase occurring in the input is kept. */
  lemma {:induction false} DedupCoversAllowed(ks: seq<Record>, allowed: set<string>, kw: Record)
    requires kw in ks && Phrase(kw) in allowed
    ensures exists y :: y in Dedup(ks, allowed) && Phrase(y) == Phrase(kw)
    decreases |ks|
  {
    var w := Phrase(ks[0]);
    if w == Phrase(kw) {
      assert ks[0] in Dedup(ks, allowed);
    } else {
      assert kw in ks[1..];
      var left := if w in allowed then allowed - {w} else allowed;
      DedupCoversAllowed(ks[1..], left, kw);
      var y :| y in Dedup(ks[1..], left) && Phrase(y) == Phrase(kw);
      assert y in Dedup(ks, allowed);
    }
  }

  // ---------------------------------------------------------------------------
  // The online pipelines
  // ---------------------------------------------------------------------------

  /** `list(set(xs))`, and the iteration over a dict's keys: the elements of a set in some order, each once. */
  method ListOfSet<T>(s: set<T>) returns (r: seq<T>)
    ensures Distinct(r) && Elems(r) == s
  {
    r := [];
    var rest := s;
    while rest != {}
      invariant Distinct(r) && Elems(r) + rest == s && Elems(r) !! rest
      decreases |rest|
    {
      var x :| x in rest;
      AppendFresh(r, x);
      r := r + [x];
      rest := rest - {x};
    }
  }

  /** What `_process_extended_keywords(keywords)` returns: create the job, wait for it, collect its pages. */
  function Extended(c: Config, api: Service, keywords: seq<string>): Result<seq<Record>, PipelineError> {
    match api.create(c.base, keywords)
    case Err(e) => Err(ServiceFailed(e))
    case Ok(uid) =>
      if !Truthy(uid) then Err(JobNotCreated)
      else
        match api.wait(uid)
        case Err(e) => Err(ServiceFailed(e))
        case Ok(_) =>
          match Collect(api.pages(uid), 1).result
          case Err(e) => Err(ServiceFailed(e))
          case Ok(rows) => Ok(rows)
  }

  /** `_process_extended_keywords(keywords)`. */
  method ProcessExtendedKeywords(c: Config, api: Service, keywords: seq<string>) returns (r: Result<seq<Record>, PipelineError>)
    requires c.stopWords.Some?
    ensures r == Extended(c, api, keywords)
  {
    var uid := api.create(c.base, keywords);
    if uid.Err? {
      return Err(ServiceFailed(uid.error));
    }
    if !Truthy(uid.value) {
      return Err(JobNotCreated);
    }
    var done := api.wait(uid.value);
    if done.Err? {
      return Err(ServiceFailed(done.error));
    }
    var extended, sent := FetchAllKeywords(c, api.pages(uid.value));
    if extended.Err? {
      return Err(ServiceFailed(extended.error));
    }
    r := Ok(extended.value);
  }

  /** The steps after the candidate list: extend, filter, deduplicate, cut at `max_results`. */
  function Finish(c: Config, api: Service, candidates: seq<string>): Result<seq<Record>, PipelineError> {
    match Extended(c, api, candidates)
    case Err(e) => Err(e)
    case Ok(rows) =>
      match Deduplicated(api, Filter(rows, Keep(c)))
      case Err(e) => Err(ServiceFailed(e))
      case Ok(d) => Ok(Prefix(d, c.maxResults))
  }

  /** The steps after the candidate list, as the pipelines run them. */
  method FinishPipeline(c: Config, api: Service, candidates: seq<string>) returns (r: Result<seq<Record>, PipelineError>)
    requires c.stopWords.Some?
    ensures r == Finish(c, api, candidates)
  {
    var extended := ProcessExtendedKeywords(c, api, candidates);
    if extended.Err? {
      return Err(extended.error);
    }
    var filtered := FilterKeywords(c, extended.value);
    var deduplicated := DeduplicateKeywords(api, filtered);
    if deduplicated.Err? {
      return Err(ServiceFailed(deduplicated.error));
    }
    r := Ok(Prefix(deduplicated.value, c.maxResults));
  }

  /**
   * A pipeline that succeeds returns at most `max_results` of the collected
   * rows (for a non-negative bound), in their collected order.
   */
  lemma FinishIsBoundedSubsequence(c: Config, api: Service, candidates: seq<string>)
    ensures Finish(c, api, candidates).Ok? ==>
      Extended(c, api, candidates).Ok?
      && IsSubsequence(Finish(c, api, candidates).value, Extended(c, api, candidates).value)
      && (c.maxResults >= 0 ==> |Finish(c, api, candidates).value| <= c.maxResults)
  {
    if Finish(c, api, candidates).Ok? {
      var rows := Extended(c, api, candidates).value;
      var kept := Filter(rows, Keep(c));
      var ws := api.deleteDoubles(Phrases(kept)).value;
      var d := Dedup(kept, Elems(ws));
      var out := Prefix(d, c.maxResults);
      assert Finish(c, api, candidates).value == out;
      PrefixIsSubsequence(d, |out|);
      assert d[..|out|] == out;
      DedupIsSubsequence(kept, Elems(ws));
      FilterIsSubsequence(rows, Keep(c));
      SubsequenceTrans(out, d, kept);
      SubsequenceTrans(out, kept, rows);
    }
  }

  /** Every row a successful pipeline returns passes the client-side filter, and no phrase comes twice. */
  lemma FinishIsFilteredAndDistinct(c: Config, api: Service, candidates: seq<string>)
    ensures Finish(c, api, candidates).Ok? ==>
      (forall kw :: kw in Finish(c, api, candidates).value ==> Passes(c, kw))
      && Distinct(Phrases(Finish(c, api, candidates).value))
  {
    if Finish(c, api, candidates).Ok? {
      var rows := Extended(c, api, candidates).value;
      var kept := Filter(rows, Keep(c));
      var ws := api.deleteDoubles(Phrases(kept)).value;
      var d := Dedup(kept, Elems(ws));
      var out := Prefix(d, c.maxResults);
      assert Finish(c, api, candidates).value == out;
      DedupPhrases(kept, Elems(ws));
      DedupIsSubsequence(kept, Elems(ws));
      forall i, j | 0 <= i < j < |out|
        ensures Phrases(out)[i] != Phrases(out)[j]
      {
        assert Phrases(d)[i] != Phrases(d)[j];
      }
      forall kw | kw in out
        ensures Passes(c, kw)
      {
        assert kw in d;
        SubsequenceMember(d, kept, kw);
        assert Keep(c)(kw);
      }
    }
  }

  /** A falsy job uid (`None`, `""`, `0`, `False`) makes the pipeline raise, whatever the later answers. */
  lemma NoUidRaises(c: Config, api: Service, candidates: seq<string>)
    requires api.create(c.base, candidates).Ok? && !Truthy(api.create(c.base, candidates).value)
    ensures Finish(c, api, candidates) == Err(JobNotCreated)
  {
  }

  /** The suggestions of the regions whose keys are in `done`, as one set. */
  function SuggestedIn(m: map<int, seq<string>>, done: set<int>): set<string> {
    set region, w | region in done && region in m && w in m[region] :: w
  }

  /** The single-region pipeline succeeds or fails as its steps do, on a duplicate-free candidate list. */
  predicate SingleOutcome(c: Config, api: Service, seeds: seq<string>, r: Result<seq<Record>, PipelineError>, candidates: seq<string>) {
    match api.suggest(seeds, c.regionId)
    case Err(e) => r == Err(ServiceFailed(e))
    case Ok(suggested) =>
      Distinct(candidates) && Elems(candidates) == Elems(seeds + suggested) && r == Finish(c, api, candidates)
  }

  /** The multi-region pipeline likewise, its candidates being the seeds and every region's suggestions. */
  predicate MultiOutcome(c: Config, api: Service, seeds: seq<string>, r: Result<seq<Record>, PipelineError>, candidates: seq<string>) {
    match api.suggestMulti(seeds, c.regions)
    case Err(e) => r == Err(ServiceFailed(e))
    case Ok(m) =>
      Distinct(candidates) && Elems(candidates) == Elems(seeds) + SuggestedIn(m, m.Keys) && r == Finish(c, api, candidates)
  }

  /** `_single_region_pipeline(seeds)`; `candidates` is the list sent to the extension job. */
  method SingleRegionPipeline(c: Config, api: Service, seeds: seq<string>)
    returns (r: Result<seq<Record>, PipelineError>, candidates: seq<string>)
    requires c.stopWords.Some?
    ensures SingleOutcome(c, api, seeds, r, candidates)
  {
    var suggested := api.suggest(seeds, c.regionId);
    if suggested.Err? {
      return Err(ServiceFailed(suggested.error)), [];
    }
    candidates := ListOfSet(Elems(seeds + suggested.value));
    r := FinishPipeline(c, api, candidates);
  }

  /** `_multi_region_pipeline(seeds)`; `candidates` is the list sent to the extension job. */
  method MultiRegionPipeline(c: Config, api: Service, seeds: seq<string>)
    returns (r: Result<seq<Record>, PipelineError>, candidates: seq<string>)
    requires c.stopWords.Some?
    ensures MultiOutcome(c, api, seeds, r, candidates)
  {
    var multiSuggested := api.suggestMulti(seeds, c.regions);
    if multiSuggested.Err? {
      return Err(ServiceFailed(multiSuggested.error)), [];
    }
    var m := multiSuggested.value;
    var allKeywords := ListOfSet(Elems(seeds));
    var regions := ListOfSet(m.Keys);
    allKeywords := AddSuggestions(m, regions, allKeywords);
    candidates := ListOfSet(Elems(allKeywords));
    r := FinishPipeline(c, api, candidates);
  }

  /** The `for region, suggested in multi_suggested.items()` loop: every region's suggestions appended. */
  method AddSuggestions(m: map<int, seq<string>>, regions: seq<int>, start: seq<string>) returns (all: seq<string>)
    requires forall i :: 0 <= i < |regions| ==> regions[i] in m
    ensures Elems(all) == Elems(start) + SuggestedIn(m, Elems(regions))
  {
    all := start;
    var i := 0;
    while i < |regions|
      invariant 0 <= i <= |regions|
      invariant Elems(all) == Elems(start) + SuggestedIn(m, Elems(regions[..i]))
    {
      AddSuggestionsStep(m, regions, i, all);
      all := all + m[regions[i]];
      i := i + 1;
    }
    assert regions[..|regions|] == regions;
  }

  lemma AddSuggestionsStep(m: map<int, seq<string>>, regions: seq<int>, i: nat, all: seq<string>)
    requires i < |regions| && regions[i] in m
    ensures Elems(all + m[regions[i]]) == Elems(all) + Elems(m[regions[i]])
    ensures SuggestedIn(m, Elems(regions[..i + 1])) == SuggestedIn(m, Elems(regions[..i])) + Elems(m[regions[i]])
  {
    assert regions[..i + 1] == regions[..i] + [regions[i]];
    assert Elems(regions[..i + 1]) == Elems(regions[..i]) + {regions[i]};
    SuggestedStep(m, Elems(regions[..i]), regions[i]);
  }

  lemma SuggestedStep(m: map<int, seq<string>>, done: set<int>, region: int)
    requires region in m
    ensures SuggestedIn(m, done + {region}) == SuggestedIn(m, done) + Elems(m[region])
  {
  }

  /** `process_pipeline(seeds)`: offline synthesis, or the multi- or single-region pipeline. */
  method ProcessPipeline(c: Config, api: Service, seeds: seq<string>)
    returns (r: Result<seq<Record>, PipelineError>, candidates: seq<string>)
    requires !c.offlineMode ==> c.stopWords.Some?
    ensures c.offlineMode ==> r == Ok(Prefix(OfflineRecords(seeds), c.maxResults)) && candidates == []
    ensures !c.offlineMode && c.multiRegion ==> MultiOutcome(c, api, seeds, r, candidates)
    ensures !c.offlineMode && !c.multiRegion ==> SingleOutcome(c, api, seeds, r, candidates)
  {
    if c.offlineMode {
      var results := OfflineModeResults(c, seeds);
      return Ok(results), [];
    }
    if c.multiRegion {
      r, candidates := MultiRegionPipeline(c, api, seeds);
      return;
    }
    r, candidates := SingleRegionPipeline(c, api, seeds);
  }
}
