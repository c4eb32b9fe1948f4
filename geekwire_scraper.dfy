/** The GeekWire collector: the entries of three RSS feeds, each article that is recent,
    about a startup and about the Seattle area, one record per article whose headline names
    a company, and a name-keyed deduplication at the end. Fetching feeds and articles,
    parsing RSS and dates, and the regular expressions run over headlines and article text
    are not modelled: a feed is the result of `fetchFeed`, and an article is what `article`
    says its text and the captures of those expressions are. */
module GeekWireScraper {
  import opened Wrappers
  import opened Text
  import opened Dedup
  import opened Collect
  import opened Records

  const RssUrls: seq<string> := [
    "https://www.geekwire.com/feed/",
    "https://www.geekwire.com/startups/feed/",
    "https://www.geekwire.com/funding/feed/"]

  /** A feed entry; `date` is `_parse_article_date`'s answer as a comparable instant,
      `None` when the entry carries no date it can parse. */
  datatype Entry = Entry(title: string, summary: string, link: string, date: Option<int>)

  /** An article as the extractors see it: its text ("" when the fetch failed) and, in
      pattern order, what each regular expression captured (`None` for no match). */
  datatype Article = Article(
    content: string,
    nameCaptures: seq<Option<string>>,
    descriptionMatch: Option<string>,
    amountCaptures: seq<Option<string>>,
    roundCaptures: seq<Option<string>>,
    investorCapture: Option<string>,
    website: Option<string>,
    location: Option<string>)

  // ---------------------------------------------------------------- relevance

  const StartupIndicators: seq<string> := [
    "raises", "funding", "series a", "series b", "seed round",
    "venture capital", "investment", "startup", "founded",
    "launches", "announces", "million", "valuation",
    "ai company", "machine learning", "artificial intelligence"]

  const SeattleIndicators: seq<string> := ["seattle", "bellevue", "redmond", "kirkland", "washington"]

  function CombinedText(title: string, summary: string, content: string): string {
    Lower(title + " " + summary + " " + content)
  }

  /** `p` occurs in the lower-cased headline, summary or text on its own. */
  predicate InSomeField(title: string, summary: string, content: string, p: string) {
    Contains(Lower(title), p) || Contains(Lower(summary), p) || Contains(Lower(content), p)
  }

  /** An indicator found in one lower-cased field is found in the combined text. */
  lemma FieldInCombined(title: string, summary: string, content: string, p: string)
    requires InSomeField(title, summary, content, p)
    ensures Contains(CombinedText(title, summary, content), p)
  {
    var t, s, c, sp := Lower(title), Lower(summary), Lower(content), Lower(" ");
    LowerAppend(title + " " + summary + " ", content);
    LowerAppend(title + " " + summary, " ");
    LowerAppend(title + " ", summary);
    LowerAppend(title, " ");
    assert CombinedText(title, summary, content) == t + sp + s + sp + c;
    if Contains(t, p) {
      ContainsInside([], t, sp + s + sp + c, p);
      assert [] + t + (sp + s + sp + c) == t + sp + s + sp + c;
    } else if Contains(s, p) {
      ContainsInside(t + sp, s, sp + c, p);
      assert t + sp + s + (sp + c) == t + sp + s + sp + c;
    } else {
      ContainsInside(t + sp + s + sp, c, [], p);
      assert t + sp + s + sp + c + [] == t + sp + s + sp + c;
    }
  }

  lemma FieldsInCombined(title: string, summary: string, content: string)
    ensures forall p :: InSomeField(title, summary, content, p) ==> Contains(CombinedText(title, summary, content), p)
  {
    forall p | InSomeField(title, summary, content, p) {
      FieldInCombined(title, summary, content, p);
    }
  }

  /** `_is_startup_relevant`: some startup indicator and some Seattle-area indicator occur in
      the lower-cased headline, summary and text joined by spaces. An indicator in any one
      field is enough, and since "series a", "seed round" and other indicators hold a space,
      a match may also straddle two fields (`StraddlingMatchCounts`). */
  function IsStartupRelevant(title: string, summary: string, content: string): (relevant: bool)
    ensures relevant <==>
      (exists k :: 0 <= k < |StartupIndicators| && Contains(CombinedText(title, summary, content), StartupIndicators[k])) &&
      (exists k :: 0 <= k < |SeattleIndicators| && Contains(CombinedText(title, summary, content), SeattleIndicators[k]))
    ensures (exists k :: 0 <= k < |StartupIndicators| && InSomeField(title, summary, content, StartupIndicators[k])) &&
            (exists k :: 0 <= k < |SeattleIndicators| && InSomeField(title, summary, content, SeattleIndicators[k]))
            ==> relevant
  {
    FieldsInCombined(title, summary, content);
    AnyContained(CombinedText(title, summary, content), StartupIndicators) &&
    AnyContained(CombinedText(title, summary, content), SeattleIndicators)
  }

  /** The test ignores case: lower-casing the inputs first changes nothing. */
  lemma RelevanceIgnoresCase(title: string, summary: string, content: string)
    ensures IsStartupRelevant(title, summary, content) <==>
            IsStartupRelevant(Lower(title), Lower(summary), Lower(content))
  {
    var t := title + " " + summary + " " + content;
    var t' := Lower(title) + " " + Lower(summary) + " " + Lower(content);
    LowerAppend(title, " ");
    LowerAppend(title + " ", summary);
    LowerAppend(title + " " + summary, " ");
    LowerAppend(title + " " + summary + " ", content);
    assert Lower(" ") == " ";
    assert Lower(t) == t';
    LowerIdempotent(t);
  }

  /** A concrete headline: funding news from Seattle, written in capitals. */
  lemma RelevantExample()
    ensures IsStartupRelevant("RAISES", "SEATTLE", "")
  {
    var text := CombinedText("RAISES", "SEATTLE", "");
    assert text == "raises seattle ";
    assert text[0..6] == StartupIndicators[0];
    ContainsAt(text, StartupIndicators[0], 0);
    assert text[7..14] == SeattleIndicators[0];
    ContainsAt(text, SeattleIndicators[0], 7);
  }

  /** A match across the join counts: "series a" is in none of the three fields, yet the
      article is relevant through it. */
  lemma StraddlingMatchCounts()
    ensures !InSomeField("Series", "A", "Seattle", "series a")
    ensures Contains(CombinedText("Series", "A", "Seattle"), "series a")
    ensures IsStartupRelevant("Series", "A", "Seattle")
  {
    ShorterNeverContains(Lower("Series"), "series a");
    ShorterNeverContains(Lower("A"), "series a");
    ShorterNeverContains(Lower("Seattle"), "series a");
    var text := CombinedText("Series", "A", "Seattle");
    assert text == "series a seattle";
    assert text[9..16] == "seattle";
    assert text[0..8] == StartupIndicators[2];
    ContainsAt(text, StartupIndicators[2], 0);
    assert text[9..16] == SeattleIndicators[0];
    ContainsAt(text, SeattleIndicators[0], 9);
  }

  // ---------------------------------------------------------------- company name

  const NameStopWords: seq<string> := ["seattle", "the", "a", "an"]

  /** The false-positive filter of `_extract_company_name`. */
  predicate AcceptableName(name: string) {
    |name| > 1 && Lower(name) !in NameStopWords
  }

  /** A pattern whose capture cannot be the name: no match, or a match the filter rejects. */
  predicate Rejected(capture: Option<string>) {
    capture.None? || !AcceptableName(Strip(capture.value))
  }

  /** Capture `k` is the first that the filter accepts. */
  predicate FirstAccepted(captures: seq<Option<string>>, k: int) {
    0 <= k < |captures| && !Rejected(captures[k]) && forall j :: 0 <= j < k ==> Rejected(captures[j])
  }

  lemma FirstAcceptedShift(captures: seq<Option<string>>)
    requires captures != [] && Rejected(captures[0])
    ensures forall k :: FirstAccepted(captures[1..], k) ==> FirstAccepted(captures, k + 1)
  {
    forall k | FirstAccepted(captures[1..], k)
      ensures FirstAccepted(captures, k + 1)
    {
      forall j | 0 < j < k + 1
        ensures Rejected(captures[j])
      {
        assert captures[j] == captures[1..][j - 1];
      }
    }
  }

  /** `_extract_company_name`: the first pattern whose stripped capture passes the filter;
      a capture that fails it falls through to the next pattern. */
  function ExtractCompanyName(captures: seq<Option<string>>): (r: Option<string>)
    ensures r.Some? ==> AcceptableName(r.value)
    ensures r.None? <==> forall k :: 0 <= k < |captures| ==> Rejected(captures[k])
    ensures r.Some? ==> exists k :: FirstAccepted(captures, k) && r.value == Strip(captures[k].value)
    decreases |captures|
  {
    if captures == [] then None
    else if !Rejected(captures[0]) then
      assert FirstAccepted(captures, 0);
      Some(Strip(captures[0].value))
    else
      var rest := captures[1..];
      assert forall k :: 1 <= k < |captures| ==> captures[k] == rest[k - 1];
      FirstAcceptedShift(captures);
      ExtractCompanyName(rest)
  }

  /** A rejected capture does not stop the search: the next pattern's capture is used. */
  lemma NameFallsThrough(first: string, second: string)
    requires !AcceptableName(Strip(first)) && AcceptableName(Strip(second))
    ensures ExtractCompanyName([Some(first), Some(second)]) == Some(Strip(second))
  {
    assert [Some(first), Some(second)][1..] == [Some(second)];
  }

  // ---------------------------------------------------------------- funding and description

  /** Capture `k` is the first that matched. */
  predicate FirstMatched(captures: seq<Option<string>>, k: int) {
    0 <= k < |captures| && captures[k].Some? && forall j :: 0 <= j < k ==> captures[j].None?
  }

  lemma FirstMatchedShift(captures: seq<Option<string>>)
    requires captures != [] && captures[0].None?
    ensures forall k :: FirstMatched(captures[1..], k) ==> FirstMatched(captures, k + 1)
  {
    forall k | FirstMatched(captures[1..], k)
      ensures FirstMatched(captures, k + 1)
    {
      forall j | 0 < j < k + 1
        ensures captures[j].None?
      {
        assert captures[j] == captures[1..][j - 1];
      }
    }
  }

  /** The first pattern that matched, in pattern order. */
  function FirstSome(captures: seq<Option<string>>): (r: Option<string>)
    ensures r.None? <==> forall k :: 0 <= k < |captures| ==> captures[k].None?
    ensures r.Some? ==> exists k :: FirstMatched(captures, k) && captures[k] == r
    decreases |captures|
  {
    if captures == [] then None
    else if captures[0].Some? then
      assert FirstMatched(captures, 0);
      captures[0]
    else
      assert forall k :: 1 <= k < |captures| ==> captures[k] == captures[1..][k - 1];
      FirstMatchedShift(captures);
      FirstSome(captures[1..])
  }

  function MapOption(o: Option<string>, f: string -> string): (r: Option<string>)
    ensures r.Some? <==> o.Some?
  {
    if o.Some? then Some(f(o.value)) else None
  }

  /** `_extract_funding_info`: a key per kind of match; the first amount and round patterns
      that match win, the round is title-cased and the investor stripped. */
  function ExtractFundingInfo(a: Article): (f: FundingInfo)
    ensures f.amount == FirstSome(a.amountCaptures)
    ensures f.roundType.Some? <==> exists k :: 0 <= k < |a.roundCaptures| && a.roundCaptures[k].Some?
    ensures f.roundType.Some? ==> |f.roundType.value| == |FirstSome(a.roundCaptures).value|
    ensures f.roundType == MapOption(FirstSome(a.roundCaptures), Title)
    ensures f.leadInvestor.Some? <==> a.investorCapture.Some?
    ensures f.leadInvestor == MapOption(a.investorCapture, Strip)
  {
    FundingInfo(FirstSome(a.amountCaptures), MapOption(FirstSome(a.roundCaptures), Title),
                MapOption(a.investorCapture, Strip))
  }

  /** The round is reported title-cased: "series a" becomes "Series A". */
  lemma RoundTitleCased()
    ensures Title("series a") == "Series A"
  {
  }

  const DescriptionLimit := 200

  /** The fallback of `_extract_company_description`: the first line of the text, cut to
      200 characters plus "..." when it is longer. */
  function DescriptionFallback(content: string): (d: string)
    ensures |d| <= DescriptionLimit + 3
    ensures '\n' !in d
    ensures |UpTo(content, '\n')| <= DescriptionLimit ==> d == UpTo(content, '\n')
    ensures |UpTo(content, '\n')| > DescriptionLimit ==> d == UpTo(content, '\n')[..DescriptionLimit] + "..."
  {
    var first := UpTo(content, '\n');
    if |first| > DescriptionLimit then first[..DescriptionLimit] + "..." else first
  }

  /** `_extract_company_description`: a descriptive sentence when one matched, stripped;
      else the fallback, which is one line and, when not cut, the start of the text. */
  function ExtractDescription(a: Article): (d: string)
    ensures a.descriptionMatch.Some? ==> d == Strip(a.descriptionMatch.value)
    ensures a.descriptionMatch.None? ==> d == DescriptionFallback(a.content)
    ensures a.descriptionMatch.None? ==>
      '\n' !in d && |d| <= DescriptionLimit + 3 && (|d| <= DescriptionLimit ==> d <= a.content)
  {
    if a.descriptionMatch.Some? then Strip(a.descriptionMatch.value) else DescriptionFallback(a.content)
  }

  // ---------------------------------------------------------------- one article

  /** `_parse_company_from_content`: no record without a name; otherwise the location
      defaults to Seattle. */
  function ParseCompanyFromContent(e: Entry, a: Article): (r: Option<Company>)
    ensures r.None? <==> ExtractCompanyName(a.nameCaptures).None?
    ensures r.Some? ==> r.value.name == ExtractCompanyName(a.nameCaptures).value
    ensures r.Some? ==> r.value.source == GeekWire && r.value.sourceArticle == e.link
    ensures r.Some? ==> r.value.location == (if a.location.Some? && a.location.value != "" then a.location.value else "Seattle, WA")
    ensures r.Some? ==> r.value.fundingInfo == Some(ExtractFundingInfo(a))
    ensures r.Some? ==> r.value.description == ExtractDescription(a)
    ensures r.Some? ==> r.value.website == a.website.GetOr("")
  {
    var name := ExtractCompanyName(a.nameCaptures);
    if name.None? then None
    else
      var location := if a.location.Some? && a.location.value != "" then a.location.value else "Seattle, WA";
      var c := NewCompany(name.value, ExtractDescription(a), a.website.GetOr(""), location, GeekWire);
      Some(c.(fundingInfo := Some(ExtractFundingInfo(a)), sourceArticle := e.link))
  }

  /** `_extract_companies_from_article`: nothing for an empty or irrelevant article,
      otherwise the parsed record if there is one. */
  function ArticleCompanies(e: Entry, a: Article): (cs: seq<Company>)
    ensures |cs| <= 1
    ensures cs != [] <==> a.content != [] && IsStartupRelevant(e.title, e.summary, a.content) &&
                          ExtractCompanyName(a.nameCaptures).Some?
  {
    if a.content == [] || !IsStartupRelevant(e.title, e.summary, a.content) then []
    else
      var r := ParseCompanyFromContent(e, a);
      if r.Some? then [r.value] else []
  }

  // ---------------------------------------------------------------- one feed

  /** The date filter of `_scrape_rss_feed`: a dated entry older than the cutoff is
      skipped; an undated one is kept. */
  predicate IsRecent(e: Entry, cutoff: int) {
    !(e.date.Some? && e.date.value < cutoff)
  }

  /** The records one feed yields, entry by entry. */
  function FeedCompanies(entries: seq<Entry>, cutoff: int, article: string -> Article): seq<Company>
    decreases |entries|
  {
    if entries == [] then []
    else
      var e := entries[|entries| - 1];
      FeedCompanies(entries[..|entries| - 1], cutoff, article) +
        (if IsRecent(e, cutoff) then ArticleCompanies(e, article(e.link)) else [])
  }

  lemma FeedCompaniesStep(entries: seq<Entry>, cutoff: int, article: string -> Article, i: nat)
    requires i < |entries|
    ensures FeedCompanies(entries[..i + 1], cutoff, article) ==
      FeedCompanies(entries[..i], cutoff, article) +
        (if IsRecent(entries[i], cutoff) then ArticleCompanies(entries[i], article(entries[i].link)) else [])
  {
    assert entries[..i + 1][..i] == entries[..i];
  }

  method ScrapeRssFeed(entries: seq<Entry>, cutoff: int, article: string -> Article)
    returns (companies: seq<Company>)
    ensures companies == FeedCompanies(entries, cutoff, article)
  {
    companies := [];
    for i := 0 to |entries|
      invariant companies == FeedCompanies(entries[..i], cutoff, article)
    {
      FeedCompaniesStep(entries, cutoff, article, i);
      var e := entries[i];
      if e.date.Some? && e.date.value < cutoff {
        continue;
      }
      var found := ArticleCompanies(e, article(e.link));
      companies := companies + found;
    }
    assert entries[..|entries|] == entries;
  }

  /** `c` is what a recent, relevant entry's article names, and carries the entry's link. */
  predicate FromEntry(c: Company, e: Entry, cutoff: int, article: string -> Article) {
    IsRecent(e, cutoff) && IsStartupRelevant(e.title, e.summary, article(e.link).content) &&
    c.sourceArticle == e.link
  }

  /** Every record of a feed comes from a recent, relevant entry of that feed whose
      article names it, and carries the entry's link. */
  lemma {:induction false} FeedCompaniesFacts(entries: seq<Entry>, cutoff: int, article: string -> Article, c: Company)
    requires c in FeedCompanies(entries, cutoff, article)
    ensures exists k :: 0 <= k < |entries| && FromEntry(c, entries[k], cutoff, article)
    ensures c.source == GeekWire && |c.name| >= 2
    decreases |entries|
  {
    var init := entries[..|entries| - 1];
    var e := entries[|entries| - 1];
    if c in FeedCompanies(init, cutoff, article) {
      FeedCompaniesFacts(init, cutoff, article, c);
      var k :| 0 <= k < |init| && FromEntry(c, init[k], cutoff, article);
      assert entries[k] == init[k];
    } else {
      assert IsRecent(e, cutoff) && c in ArticleCompanies(e, article(e.link));
      assert FromEntry(c, entries[|entries| - 1], cutoff, article);
    }
  }

  /** An entry dated before the cutoff contributes nothing. */
  lemma OldEntrySkipped(entries: seq<Entry>, e: Entry, cutoff: int, article: string -> Article)
    requires e.date.Some? && e.date.value < cutoff
    ensures FeedCompanies(entries + [e], cutoff, article) == FeedCompanies(entries, cutoff, article)
  {
    assert (entries + [e])[..|entries|] == entries;
  }

  // ---------------------------------------------------------------- deduplication

  /** `company['name'].lower().strip()` */
  function NameKey(c: Company): string {
    Strip(Lower(c.name))
  }

  /** `_deduplicate_companies`: one `seen_names` set, first occurrence kept. */
  method DeduplicateCompanies(companies: seq<Company>) returns (unique: seq<Company>)
    ensures unique == Distinct(companies, NameKey, Always)
  {
    var seen: set<string> := {};
    unique := [];
    for i := 0 to |companies|
      invariant unique == Distinct(companies[..i], NameKey, Always)
      invariant seen == Keys(unique, NameKey)
    {
      TakeSnoc(companies, i);
      DistinctSnoc(companies[..i], companies[i], NameKey, Always);
      var key := NameKey(companies[i]);
      if key !in seen {
        seen := seen + {key};
        unique := unique + [companies[i]];
      }
    }
    assert companies[..|companies|] == companies;
  }

  /** The deduplicated list keeps input order, has pairwise-distinct keys, and holds the
      first record of every key present. */
  lemma DeduplicateFacts(companies: seq<Company>) returns (idx: seq<nat>)
    ensures Picks(Distinct(companies, NameKey, Always), companies, idx)
    ensures forall j, j' :: 0 <= j < j' < |Distinct(companies, NameKey, Always)| ==>
      NameKey(Distinct(companies, NameKey, Always)[j]) != NameKey(Distinct(companies, NameKey, Always)[j'])
    ensures forall i :: 0 <= i < |companies| ==> NameKey(companies[i]) in Keys(Distinct(companies, NameKey, Always), NameKey)
  {
    idx := DistinctIsSubsequence(companies, NameKey, Always);
    DistinctKeysUnique(companies, NameKey, Always);
    DistinctCoversKeys(companies, NameKey, Always);
  }

  /** The record kept for a name is the first one carrying it. */
  lemma FirstOfNameKept(companies: seq<Company>, i: nat)
    requires i < |companies|
    requires forall i' :: 0 <= i' < i ==> NameKey(companies[i']) != NameKey(companies[i])
    ensures companies[i] in Distinct(companies, NameKey, Always)
  {
    DistinctKeepsFirst(companies, NameKey, Always, i);
  }

  // ---------------------------------------------------------------- all feeds

  function FeedOutcomes(fetchFeed: string -> Result<seq<Entry>>, cutoff: int, article: string -> Article)
    : (rs: seq<Result<seq<Company>>>)
    ensures |rs| == |RssUrls|
  {
    seq(|RssUrls|, k requires 0 <= k < |RssUrls| =>
      match fetchFeed(RssUrls[k])
      case Failure(e) => Failure(e)
      case Success(entries) => Success(FeedCompanies(entries, cutoff, article)))
  }

  /** `get_recent_startups`: the feeds in order, each in its own `try`, then deduplication.
      The cutoff is `now - days_back` computed by the caller. */
  method GetRecentStartups(fetchFeed: string -> Result<seq<Entry>>, cutoff: int, article: string -> Article)
    returns (unique: seq<Company>)
    ensures unique == Distinct(Successes(FeedOutcomes(fetchFeed, cutoff, article)), NameKey, Always)
  {
    var outcomes := FeedOutcomes(fetchFeed, cutoff, article);
    var all: seq<Company> := [];
    for i := 0 to |RssUrls|
      invariant all == Successes(outcomes[..i])
    {
      SuccessesStep(outcomes, i);
      var feed := fetchFeed(RssUrls[i]);
      if feed.Success? {
        var companies := ScrapeRssFeed(feed.value, cutoff, article);
        all := all + companies;
      }
    }
    assert outcomes[..|RssUrls|] == outcomes;
    unique := DeduplicateCompanies(all);
  }
}
