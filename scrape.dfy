/**
 `scrape_webpage` (ollama_import.py lines 47-62): an article extractor first;
 if it raises, the raw page's paragraph texts joined by single spaces; if that
 raises too, `None`. Both extractors are oracles: `None` means "raised".
 */
module Scrape {
  import opened Wrappers

  /** The two foreign extraction stages, as outcomes per URL. */
  datatype Fetcher = Fetcher(
    article: string -> Option<string>,           // Article(url) download + parse, then .text
    paragraphs: string -> Option<seq<string>>)   // requests.get + BeautifulSoup, the texts of all <p>

  /** Total length of a sequence of strings. */
  function TotalLength(ps: seq<string>): nat {
    if ps == [] then 0 else |ps[0]| + TotalLength(ps[1..])
  }

  /** Python's `' '.join(ps)`: every paragraph, with one separator between neighbours. */
  function JoinSpace(ps: seq<string>): (r: string)
    ensures ps != [] ==> |r| == TotalLength(ps) + |ps| - 1
  {
    if |ps| == 0 then "" else if |ps| == 1 then ps[0] else ps[0] + " " + JoinSpace(ps[1..])
  }

  /** Paragraph `i` sits in the join at offset "length of the paragraphs before it plus one
      space per gap", and a single space follows every paragraph but the last. */
  lemma {:induction false} JoinSpaceAt(ps: seq<string>, i: nat)
    requires i < |ps|
    ensures var off := TotalLength(ps[..i]) + i;
      off + |ps[i]| <= |JoinSpace(ps)| &&
      JoinSpace(ps)[off..off + |ps[i]|] == ps[i] &&
      (i < |ps| - 1 ==> off + |ps[i]| < |JoinSpace(ps)| && JoinSpace(ps)[off + |ps[i]|] == ' ')
  {
    if i == 0 {
      JoinSpaceHead(ps);
    } else {
      var rest := ps[1..];
      JoinSpaceAt(rest, i - 1);
      JoinSpaceShift(ps, i);
    }
  }

  /** The first paragraph starts the join, followed by a space when more come. */
  lemma JoinSpaceHead(ps: seq<string>)
    requires ps != []
    ensures |ps[0]| <= |JoinSpace(ps)| && JoinSpace(ps)[..|ps[0]|] == ps[0]
    ensures |ps| > 1 ==> |ps[0]| < |JoinSpace(ps)| && JoinSpace(ps)[|ps[0]|] == ' '
  {
    if |ps| > 1 {
      assert JoinSpace(ps) == ps[0] + " " + JoinSpace(ps[1..]);
    }
  }

  /** Past the first paragraph and its space, the join is the join of the rest, and the
      offsets of the later paragraphs move by exactly that much. */
  lemma JoinSpaceShift(ps: seq<string>, i: nat)
    requires 0 < i < |ps|
    ensures var h := |ps[0]| + 1;
      h <= |JoinSpace(ps)| && JoinSpace(ps)[h..] == JoinSpace(ps[1..]) &&
      TotalLength(ps[..i]) + i == h + TotalLength(ps[1..][..i - 1]) + i - 1
  {
    assert JoinSpace(ps) == ps[0] + " " + JoinSpace(ps[1..]);
    assert ps[..i][1..] == ps[1..][..i - 1];
  }

  /** The join is empty exactly when there is no paragraph or a single empty one:
      two empty paragraphs already give the non-empty text " ". */
  lemma JoinSpaceEmptyIff(ps: seq<string>)
    ensures JoinSpace(ps) == "" <==> ps == [] || ps == [""]
  {
    if |ps| == 1 { assert ps == [ps[0]]; }
  }

  /** `scrape_webpage`: the article text if that stage succeeds (even when empty), otherwise
      the joined paragraphs if the fallback succeeds, otherwise `None`. */
  function ScrapeWebpage(url: string, f: Fetcher): (r: Option<string>)
    ensures r.None? <==> f.article(url).None? && f.paragraphs(url).None?
    ensures f.article(url).Some? ==> r == f.article(url)
    ensures f.article(url).None? && f.paragraphs(url).Some? ==> r == Some(JoinSpace(f.paragraphs(url).value))
  {
    match f.article(url)
    case Some(text) => Some(text)
    case None =>
      match f.paragraphs(url)
      case Some(ps) => Some(JoinSpace(ps))
      case None => None
  }

  /** Python truthiness of the scraped value: neither `None` nor the empty string. */
  predicate Truthy(page: Option<string>) {
    page.Some? && page.value != ""
  }

  /** When scraping yields usable text: a non-empty article text, or, after the article
      stage raised, paragraph texts that do not join to the empty string. */
  lemma ScrapeTruthyIff(url: string, f: Fetcher)
    ensures Truthy(ScrapeWebpage(url, f)) <==>
      (f.article(url).Some? && f.article(url).value != "") ||
      (f.article(url).None? && f.paragraphs(url).Some? &&
       f.paragraphs(url).value != [] && f.paragraphs(url).value != [""])
  {
    if f.article(url).None? && f.paragraphs(url).Some? {
      JoinSpaceEmptyIff(f.paragraphs(url).value);
    }
  }
}
