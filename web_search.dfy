/**
 `ai_search` (ollama_import.py lines 75-87): generate a query, search, then walk
 the result URLs in order and return the first scraped text that is non-empty
 and judged relevant, or the sentinel "No relevant data found.".
 */
module WebSearch {
  import opened Wrappers
  import opened Scrape
  import opened ModelCalls

  /** Every external collaborator of the pipeline. */
  datatype Oracles = Oracles(
    chat: Chat,
    search: (string, nat) -> seq<string>,   // googlesearch.search(query, num_results), as a list
    fetch: Fetcher)

  const NumResults: nat := 5
  const NoRelevantData := "No relevant data found."

  /** `google_search(query)` with its default of five results; the cap itself is foreign. */
  function GoogleSearch(query: string, o: Oracles): seq<string> {
    o.search(query, NumResults)
  }

  /** The candidate URLs `ai_search` walks for `prompt`. */
  function Candidates(prompt: string, o: Oracles): seq<string> {
    GoogleSearch(GenerateQuery(prompt, o.chat), o)
  }

  /** The loop's test at line 83: the page scraped to usable text and the judge said yes. */
  predicate Qualifies(url: string, prompt: string, o: Oracles) {
    var page := ScrapeWebpage(url, o.fetch);
    Truthy(page) && ContainsRelevantData(page.value, prompt, o.chat)
  }

  predicate IsFirstRelevant(urls: seq<string>, k: nat, prompt: string, o: Oracles) {
    k < |urls| && Qualifies(urls[k], prompt, o) &&
    forall j :: 0 <= j < k ==> !Qualifies(urls[j], prompt, o)
  }

  /** The index of the first qualifying URL at or after `i`, if any. */
  function FirstRelevantFrom(urls: seq<string>, i: nat, prompt: string, o: Oracles): (r: Option<nat>)
    requires i <= |urls|
    ensures r.Some? ==> i <= r.value < |urls| && Qualifies(urls[r.value], prompt, o)
    ensures r.Some? ==> forall j :: i <= j < r.value ==> !Qualifies(urls[j], prompt, o)
    ensures r.None? ==> forall j :: i <= j < |urls| ==> !Qualifies(urls[j], prompt, o)
    decreases |urls| - i
  {
    if i == |urls| then None
    else if Qualifies(urls[i], prompt, o) then Some(i)
    else FirstRelevantFrom(urls, i + 1, prompt, o)
  }

  /** At most one index is the first to qualify, and the search finds it. */
  lemma FirstRelevantUnique(urls: seq<string>, prompt: string, o: Oracles)
    ensures forall k: nat :: IsFirstRelevant(urls, k, prompt, o) ==> FirstRelevantFrom(urls, 0, prompt, o) == Some(k)
  {
    var r := FirstRelevantFrom(urls, 0, prompt, o);
    forall k: nat | IsFirstRelevant(urls, k, prompt, o) ensures r == Some(k) {}
  }

  /** What `ai_search` returns when the search produced `urls`. */
  function SearchContext(urls: seq<string>, prompt: string, o: Oracles): (r: string)
    ensures (forall j :: 0 <= j < |urls| ==> !Qualifies(urls[j], prompt, o)) ==> r == NoRelevantData
    ensures forall k: nat :: IsFirstRelevant(urls, k, prompt, o) ==>
      r == ScrapeWebpage(urls[k], o.fetch).value && r != ""
  {
    FirstRelevantUnique(urls, prompt, o);
    match FirstRelevantFrom(urls, 0, prompt, o)
    case Some(k) => ScrapeWebpage(urls[k], o.fetch).value
    case None => NoRelevantData
  }

  /** How many URLs `ai_search` scrapes: up to and including the first qualifying one. */
  function ScannedCount(urls: seq<string>, prompt: string, o: Oracles): (n: nat)
    ensures n <= |urls|
    ensures (forall j :: 0 <= j < |urls| ==> !Qualifies(urls[j], prompt, o)) ==> n == |urls|
    ensures forall k: nat :: IsFirstRelevant(urls, k, prompt, o) ==> n == k + 1
  {
    FirstRelevantUnique(urls, prompt, o);
    match FirstRelevantFrom(urls, 0, prompt, o)
    case Some(k) => k + 1
    case None => |urls|
  }

  /** One external call made by the scan loop. */
  datatype Call = ScrapeCall(url: string) | JudgeCall(url: string, pageText: string)

  /** The calls one iteration makes: a scrape, then a judgement only if the text is truthy
      (`and` short-circuits at line 83). */
  function StepLog(url: string, prompt: string, o: Oracles): seq<Call> {
    var page := ScrapeWebpage(url, o.fetch);
    [ScrapeCall(url)] + if Truthy(page) then [JudgeCall(url, page.value)] else []
  }

  /** The calls made by iterations over `urls`, in order. */
  function ScanLog(urls: seq<string>, prompt: string, o: Oracles): seq<Call> {
    if urls == [] then [] else ScanLog(urls[..|urls| - 1], prompt, o) + StepLog(urls[|urls| - 1], prompt, o)
  }

  /** The URLs scraped, in call order. */
  function ScrapedUrls(log: seq<Call>): seq<string> {
    if log == [] then []
    else ScrapedUrls(log[..|log| - 1]) + if log[|log| - 1].ScrapeCall? then [log[|log| - 1].url] else []
  }

  lemma {:induction false} ScrapedUrlsAppend(a: seq<Call>, b: seq<Call>)
    ensures ScrapedUrls(a + b) == ScrapedUrls(a) + ScrapedUrls(b)
    decreases |b|
  {
    if b == [] {
      assert a + b == a;
    } else {
      assert (a + b)[..|a + b| - 1] == a + b[..|b| - 1];
      ScrapedUrlsAppend(a, b[..|b| - 1]);
    }
  }

  /** The scan scrapes exactly the URLs it walks, each once, in order. */
  lemma {:induction false} ScanLogScrapes(urls: seq<string>, prompt: string, o: Oracles)
    ensures ScrapedUrls(ScanLog(urls, prompt, o)) == urls
    decreases |urls|
  {
    if urls != [] {
      var last := urls[|urls| - 1];
      ScanLogScrapes(urls[..|urls| - 1], prompt, o);
      ScrapedUrlsAppend(ScanLog(urls[..|urls| - 1], prompt, o), StepLog(last, prompt, o));
      var page := ScrapeWebpage(last, o.fetch);
      var judged: seq<Call> := if Truthy(page) then [JudgeCall(last, page.value)] else [];
      ScrapedUrlsAppend([ScrapeCall(last)], judged);
      assert ScrapedUrls([ScrapeCall(last)]) == [last] by {
        assert [ScrapeCall(last)][..0] == [];
      }
      if Truthy(page) {
        assert judged[..0] == [];
      }
      assert ScrapedUrls(judged) == [];
    }
  }

  /** Every judgement directly follows the scrape of its own URL, which is one of the walked
      URLs, and is about the non-empty text that scrape returned. */
  predicate JudgedAfterItsScrape(log: seq<Call>, urls: seq<string>, o: Oracles) {
    forall k :: 0 <= k < |log| && log[k].JudgeCall? ==>
      0 < k && log[k - 1] == ScrapeCall(log[k].url) && log[k].url in urls &&
      ScrapeWebpage(log[k].url, o.fetch) == Some(log[k].pageText) && log[k].pageText != ""
  }

  /** The judge is only asked about non-empty scraped text, right after that page's scrape:
      `None` and "" are skipped without a judgement (`and` short-circuits at line 83). */
  lemma {:induction false} ScanLogJudges(urls: seq<string>, prompt: string, o: Oracles)
    ensures JudgedAfterItsScrape(ScanLog(urls, prompt, o), urls, o)
    decreases |urls|
  {
    if urls != [] {
      var init := urls[..|urls| - 1];
      var last := urls[|urls| - 1];
      var a, b := ScanLog(init, prompt, o), StepLog(last, prompt, o);
      ScanLogJudges(init, prompt, o);
      var log: seq<Call> := a + b;
      assert ScanLog(urls, prompt, o) == log;
      forall k | 0 <= k < |log| && log[k].JudgeCall?
        ensures 0 < k && log[k - 1] == ScrapeCall(log[k].url) && log[k].url in urls &&
          ScrapeWebpage(log[k].url, o.fetch) == Some(log[k].pageText) && log[k].pageText != ""
      {
        if k < |a| {
          assert log[k] == a[k] && log[k - 1] == a[k - 1];
          assert a[k].url in init;
        } else {
          assert log[k] == b[k - |a|];
          assert k - |a| == 1 && b[0] == ScrapeCall(last);
          assert log[k - 1] == b[0];
        }
      }
    }
  }

  /** Every scrape whose text is truthy is followed directly by the judgement of that text. */
  predicate TruthyScrapeJudged(log: seq<Call>, o: Oracles) {
    forall k :: 0 <= k < |log| && log[k].ScrapeCall? && Truthy(ScrapeWebpage(log[k].url, o.fetch)) ==>
      k + 1 < |log| && log[k + 1] == JudgeCall(log[k].url, ScrapeWebpage(log[k].url, o.fetch).value)
  }

  /** The converse of `ScanLogJudges`: no truthy scraped text escapes the judge. */
  lemma {:induction false} ScanLogJudgesTruthy(urls: seq<string>, prompt: string, o: Oracles)
    ensures TruthyScrapeJudged(ScanLog(urls, prompt, o), o)
    decreases |urls|
  {
    if urls != [] {
      var init := urls[..|urls| - 1];
      var last := urls[|urls| - 1];
      var a, b := ScanLog(init, prompt, o), StepLog(last, prompt, o);
      ScanLogJudgesTruthy(init, prompt, o);
      var log: seq<Call> := a + b;
      assert ScanLog(urls, prompt, o) == log;
      forall k | 0 <= k < |log| && log[k].ScrapeCall? && Truthy(ScrapeWebpage(log[k].url, o.fetch))
        ensures k + 1 < |log| && log[k + 1] == JudgeCall(log[k].url, ScrapeWebpage(log[k].url, o.fetch).value)
      {
        if k < |a| {
          assert log[k] == a[k] && log[k + 1] == a[k + 1];
        } else {
          assert log[k] == b[k - |a|];
          assert k - |a| == 0 && b[0] == ScrapeCall(last);
          assert log[k + 1] == b[1];
        }
      }
    }
  }

  /** When candidate `k` is the first to qualify, the scan scrapes exactly the first
      `k + 1` candidates and nothing after them. */
  lemma ScanStopsAtFirstRelevant(urls: seq<string>, k: nat, prompt: string, o: Oracles)
    requires IsFirstRelevant(urls, k, prompt, o)
    ensures ScrapedUrls(ScanLog(urls[..ScannedCount(urls, prompt, o)], prompt, o)) == urls[..k + 1]
  {
    ScanLogScrapes(urls[..k + 1], prompt, o);
  }

  /** When no candidate qualifies, every candidate is scraped once, in order. */
  lemma ScanExhaustsWhenNoneRelevant(urls: seq<string>, prompt: string, o: Oracles)
    requires forall j :: 0 <= j < |urls| ==> !Qualifies(urls[j], prompt, o)
    ensures ScrapedUrls(ScanLog(urls[..ScannedCount(urls, prompt, o)], prompt, o)) == urls
  {
    assert urls[..|urls|] == urls;
    ScanLogScrapes(urls, prompt, o);
  }

  /** One more iteration appends its calls to the log. */
  lemma ScanLogStep(urls: seq<string>, i: nat, prompt: string, o: Oracles)
    requires i < |urls|
    ensures ScanLog(urls[..i + 1], prompt, o) == ScanLog(urls[..i], prompt, o) + StepLog(urls[i], prompt, o)
  {
    assert urls[..i + 1][..i] == urls[..i];
  }

  /** The scan stops at index `i` when nothing before it qualifies and it does. */
  lemma StopsAt(urls: seq<string>, i: nat, prompt: string, o: Oracles)
    requires i < |urls| && Qualifies(urls[i], prompt, o)
    requires forall j :: 0 <= j < i ==> !Qualifies(urls[j], prompt, o)
    ensures SearchContext(urls, prompt, o) == ScrapeWebpage(urls[i], o.fetch).value
    ensures ScannedCount(urls, prompt, o) == i + 1
  {
    assert IsFirstRelevant(urls, i, prompt, o);
  }

  /** The scan walks every URL and returns the sentinel when no URL qualifies. */
  lemma ExhaustsAll(urls: seq<string>, prompt: string, o: Oracles)
    requires forall j :: 0 <= j < |urls| ==> !Qualifies(urls[j], prompt, o)
    ensures SearchContext(urls, prompt, o) == NoRelevantData
    ensures ScannedCount(urls, prompt, o) == |urls| && urls[..|urls|] == urls
  {
  }

  /** `ai_search`: returns the context; the ghost `log` records the scrape/judge calls made, in order. */
  method AiSearch(prompt: string, o: Oracles) returns (context: string, ghost log: seq<Call>)
    ensures context == SearchContext(Candidates(prompt, o), prompt, o)
    ensures log == ScanLog(Candidates(prompt, o)[..ScannedCount(Candidates(prompt, o), prompt, o)], prompt, o)
  {
    var searchQuery := GenerateQuery(prompt, o.chat);
    var searchResults := GoogleSearch(searchQuery, o);
    log := [];
    var i := 0;
    while i < |searchResults|
      invariant i <= |searchResults|
      invariant forall j :: 0 <= j < i ==> !Qualifies(searchResults[j], prompt, o)
      invariant log == ScanLog(searchResults[..i], prompt, o)
    {
      var url := searchResults[i];
      ScanLogStep(searchResults, i, prompt, o);
      ghost var before := log;
      var pageText := ScrapeWebpage(url, o.fetch);
      log := log + [ScrapeCall(url)];
      if pageText.Some? && pageText.value != "" {
        log := log + [JudgeCall(url, pageText.value)];
        assert log == before + StepLog(url, prompt, o);
        if ContainsRelevantData(pageText.value, prompt, o.chat) {
          StopsAt(searchResults, i, prompt, o);
          context := pageText.value;
          return;
        }
      } else {
        assert log == before + StepLog(url, prompt, o);
      }
      i := i + 1;
    }
    ExhaustsAll(searchResults, prompt, o);
    context := NoRelevantData;
  }
}
