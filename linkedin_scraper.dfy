/** The LinkedIn collector: one public job search per search term, each result page read
    card by card (with a fallback over raw page text when no card yields a company), and a
    deduplication that folds the job titles of later postings into the first record of
    each company. Fetching pages, HTML parsing and the regular expressions are not
    modelled: a search answer is the result of `search`, a card is the text of the elements
    the extractor looks for, and the fallback works on the strings its patterns matched. */
module LinkedInScraper {
  import opened Wrappers
  import opened Text
  import opened Dedup
  import opened Collect
  import opened Records
  import opened Merging

  const SearchTerms: seq<string> := [
    "Machine Learning Engineer Seattle",
    "Data Scientist Seattle",
    "AI Engineer Seattle",
    "ML Engineer Seattle",
    "Deep Learning Engineer Seattle"]

  // ---------------------------------------------------------------- job cards

  /** The first link of a card whose address contains "/company/": its text and address. */
  datatype Anchor = Anchor(text: string, href: string)

  /** A job card: the stripped text of the company heading, the job-title heading and the
      location line, each `None` when the card has no such element, and the company link. */
  datatype JobCard = JobCard(
    companyHeading: Option<string>,
    companyAnchor: Option<Anchor>,
    jobTitle: Option<string>,
    location: Option<string>)

  const CompanyMarker: string := "/company/"
  const CompanyPagePrefix: string := "https://www.linkedin.com/company/"
  const UnknownPosition: string := "Unknown Position"
  const DefaultLocation: string := "Seattle, WA"
  const HiringPrefix: string := "Hiring for: "

  /** `href.split('/company/')[-1].split('/')[0]`: a single path segment, never longer
      than the address. */
  function Slug(href: string): (slug: string)
    ensures '/' !in slug && |slug| <= |href|
  {
    UpTo(AfterLast(href, CompanyMarker), '/')
  }

  /** The slug is the path segment that follows the last "/company/" of the address (the
      last one found scanning from the left): it runs from just after that marker up to the
      next '/' or the end, and holds no '/'. */
  lemma SlugFollowsLastMarker(href: string) returns (k: nat)
    requires Contains(href, CompanyMarker)
    ensures |CompanyMarker| <= k <= |href| && href[k - |CompanyMarker|..k] == CompanyMarker
    ensures !Contains(href[k..], CompanyMarker)
    ensures k + |Slug(href)| <= |href| && href[k..k + |Slug(href)|] == Slug(href)
    ensures k + |Slug(href)| == |href| || href[k + |Slug(href)|] == '/'
    ensures '/' !in Slug(href)
  {
    k := LastPieceStart(href, CompanyMarker);
    var rest := AfterLast(href, CompanyMarker);
    var slug := UpTo(rest, '/');
    PrefixOfSuffix(href, k, rest, |slug|);
  }

  /** The element `_extract_company_from_job_card` takes the name from: the company
      heading when the card has one, otherwise the company link. */
  function CompanyElementText(card: JobCard): Option<string> {
    if card.companyHeading.Some? then card.companyHeading
    else if card.companyAnchor.Some? then Some(card.companyAnchor.value.text)
    else None
  }

  /** The company page a card links to: present exactly when the card's company link
      points into "/company/", and then the canonical company address of its slug. */
  function CardLink(card: JobCard): (link: Option<string>)
    ensures link.Some? <==> card.companyAnchor.Some? && Contains(card.companyAnchor.value.href, CompanyMarker)
    ensures link.Some? ==> |CompanyPagePrefix| <= |link.value| && link.value[..|CompanyPagePrefix|] == CompanyPagePrefix
    ensures link.Some? ==> '/' !in link.value[|CompanyPagePrefix|..]
  {
    match card.companyAnchor
    case None => None
    case Some(a) => if Contains(a.href, CompanyMarker) then Some(CompanyPagePrefix + Slug(a.href)) else None
  }

  /** `_extract_company_from_job_card` */
  function ExtractCompanyFromJobCard(card: JobCard): (r: Option<Company>)
    ensures r.None? <==> CompanyElementText(card).None? || |CompanyElementText(card).value| < 2
    ensures r.Some? ==> r.value.name == CompanyElementText(card).value && r.value.source == LinkedInJobs
    ensures r.Some? ==> r.value.hiringForMl && r.value.website == ""
    ensures r.Some? ==> var title := card.jobTitle.GetOr(UnknownPosition);
      r.value.description == HiringPrefix + title && r.value.mlJobTitles == Some([title]) &&
      r.value.location == card.location.GetOr(DefaultLocation) &&
      r.value.linkedinCompanyUrl == CardLink(card)
  {
    match CompanyElementText(card)
    case None => None
    case Some(name) =>
      if |name| < 2 then None
      else
        var title := card.jobTitle.GetOr(UnknownPosition);
        var location := card.location.GetOr(DefaultLocation);
        Some(NewCompany(name, HiringPrefix + title, "", location, LinkedInJobs).(
          linkedinCompanyUrl := CardLink(card),
          hiringForMl := true,
          mlJobTitles := Some([title])))
  }

  /** A card with a company heading takes its name from the heading even when the heading
      is too short and the link text would do: the link is only a fallback for a missing
      heading. */
  lemma HeadingWinsOverLink(heading: string, link: Anchor, title: Option<string>, location: Option<string>)
    requires |heading| < 2 <= |link.text|
    ensures ExtractCompanyFromJobCard(JobCard(Some(heading), Some(link), title, location)).None?
    ensures ExtractCompanyFromJobCard(JobCard(None, Some(link), title, location)).Some?
  {
  }

  // ---------------------------------------------------------------- text fallback

  const TextStopNames: seq<string> := ["Seattle", "Washington", "United States", "LinkedIn"]
  const TextFallbackDescription: string := "Discovered from LinkedIn job posting"

  /** The false-positive filter of `_extract_companies_from_text`, minus the already-found
      test. */
  predicate PlausibleName(name: string) {
    2 < |name| < 50 && name !in TextStopNames && !EndsWith(name, "...")
  }

  predicate PlausibleMatch(m: string) {
    PlausibleName(Strip(m))
  }

  function CompanyName(c: Company): string {
    c.name
  }

  function TextCompany(name: string): (c: Company)
    ensures c.name == name && c.source == LinkedInJobsText && c.hiringForMl
    ensures c.description == TextFallbackDescription && c.location == DefaultLocation
    ensures c.mlJobTitles.None? && c.linkedinCompanyUrl.None?
  {
    NewCompany(name, TextFallbackDescription, "", DefaultLocation, LinkedInJobsText).(hiringForMl := true)
  }

  /** One record per kept match, named by the stripped match. */
  function NamedCompanies(kept: seq<string>): (cs: seq<Company>)
    ensures |cs| == |kept|
    ensures forall j :: 0 <= j < |kept| ==> cs[j] == TextCompany(Strip(kept[j]))
    decreases |kept|
  {
    if kept == [] then []
    else NamedCompanies(kept[..|kept| - 1]) + [TextCompany(Strip(kept[|kept| - 1]))]
  }

  /** Reference definition: the plausible matches, first occurrence per stripped name, in
      pattern order and then match order. */
  function TextCompanies(matches: seq<string>): seq<Company> {
    NamedCompanies(Distinct(matches, Strip, PlausibleMatch))
  }

  /** `_extract_companies_from_text`; `matches` is what the four patterns found, pattern by
      pattern. */
  method ExtractCompaniesFromText(matches: seq<string>) returns (companies: seq<Company>)
    ensures companies == TextCompanies(matches)
  {
    var found: set<string> := {};
    ghost var kept: seq<string> := [];
    companies := [];
    for i := 0 to |matches|
      invariant kept == Distinct(matches[..i], Strip, PlausibleMatch)
      invariant found == Keys(kept, Strip)
      invariant companies == NamedCompanies(kept)
    {
      TakeSnoc(matches, i);
      DistinctSnoc(matches[..i], matches[i], Strip, PlausibleMatch);
      var name := Strip(matches[i]);
      if 2 < |name| < 50 && name !in TextStopNames && !EndsWith(name, "...") && name !in found {
        found := found + {name};
        kept := kept + [matches[i]];
        companies := companies + [TextCompany(name)];
        assert NamedCompanies(kept)[..|kept| - 1] == NamedCompanies(kept[..|kept| - 1]);
      }
    }
    assert matches[..|matches|] == matches;
  }

  /** The fallback records follow the matches' order: `idx` names, in increasing
      positions, the match each record is named after. */
  lemma TextCompaniesFollowMatches(matches: seq<string>) returns (idx: seq<nat>)
    ensures |idx| == |TextCompanies(matches)|
    ensures forall j :: 0 <= j < |idx| ==>
      idx[j] < |matches| && TextCompanies(matches)[j] == TextCompany(Strip(matches[idx[j]]))
    ensures forall j, j' :: 0 <= j < j' < |idx| ==> idx[j] < idx[j']
  {
    idx := DistinctIsSubsequence(matches, Strip, PlausibleMatch);
  }

  /** Every fallback record has a plausible name, and no two share a name. */
  lemma TextCompaniesNames(matches: seq<string>)
    ensures forall j :: 0 <= j < |TextCompanies(matches)| ==> PlausibleName(TextCompanies(matches)[j].name)
    ensures forall j, j' :: 0 <= j < j' < |TextCompanies(matches)| ==>
      TextCompanies(matches)[j].name != TextCompanies(matches)[j'].name
  {
    DistinctKeysUnique(matches, Strip, PlausibleMatch);
  }

  /** Every plausible match is represented by a record of its stripped name. */
  lemma TextCompaniesCover(matches: seq<string>, i: nat)
    requires i < |matches| && PlausibleMatch(matches[i])
    ensures Strip(matches[i]) in Keys(TextCompanies(matches), CompanyName)
  {
    var kept := Distinct(matches, Strip, PlausibleMatch);
    var cs := TextCompanies(matches);
    DistinctCoversKeys(matches, Strip, PlausibleMatch);
    KeysMembership(kept, Strip, Strip(matches[i]));
    var j :| 0 <= j < |kept| && Strip(kept[j]) == Strip(matches[i]);
    KeysMembership(cs, CompanyName, Strip(matches[i]));
    assert CompanyName(cs[j]) == Strip(matches[i]);
  }

  // ---------------------------------------------------------------- result pages

  /** A result page: its job cards and, for the fallback, what the name patterns matched in
      its raw text. */
  datatype Page = Page(cards: seq<JobCard>, textMatches: seq<string>)

  /** The search answer: its HTTP status and the page it carried. */
  datatype Response = Response(status: int, page: Page)

  /** The records the cards of a page yield, in card order. */
  function CardCompanies(cards: seq<JobCard>): seq<Company>
    decreases |cards|
  {
    if cards == [] then []
    else
      var init := CardCompanies(cards[..|cards| - 1]);
      match ExtractCompanyFromJobCard(cards[|cards| - 1])
      case Some(c) => init + [c]
      case None => init
  }

  lemma CardCompaniesStep(cards: seq<JobCard>, i: nat)
    requires i < |cards|
    ensures CardCompanies(cards[..i + 1]) ==
      CardCompanies(cards[..i]) + (match ExtractCompanyFromJobCard(cards[i]) case Some(c) => [c] case None => [])
  {
    assert cards[..i + 1][..i] == cards[..i];
  }

  /** A card record is exactly what some card of the page yields. */
  lemma {:induction false} CardCompaniesMembership(cards: seq<JobCard>, c: Company)
    ensures c in CardCompanies(cards) <==>
      exists k :: 0 <= k < |cards| && ExtractCompanyFromJobCard(cards[k]) == Some(c)
    decreases |cards|
  {
    if cards != [] {
      var init := cards[..|cards| - 1];
      CardCompaniesMembership(init, c);
      assert forall k :: 0 <= k < |init| ==> init[k] == cards[k];
      if c in CardCompanies(init) {
        var k :| 0 <= k < |init| && ExtractCompanyFromJobCard(init[k]) == Some(c);
        assert ExtractCompanyFromJobCard(cards[k]) == Some(c);
      }
    }
  }

  /** Reference definition of `_parse_job_results`. */
  function JobResults(page: Page): seq<Company> {
    var fromCards := CardCompanies(page.cards);
    if fromCards == [] then TextCompanies(page.textMatches) else fromCards
  }

  /** `_parse_job_results` */
  method ParseJobResults(page: Page) returns (companies: seq<Company>)
    ensures companies == JobResults(page)
  {
    companies := [];
    for i := 0 to |page.cards|
      invariant companies == CardCompanies(page.cards[..i])
    {
      CardCompaniesStep(page.cards, i);
      var data := ExtractCompanyFromJobCard(page.cards[i]);
      if data.Some? {
        companies := companies + [data.value];
      }
    }
    assert page.cards[..|page.cards|] == page.cards;
    if companies == [] {
      companies := ExtractCompaniesFromText(page.textMatches);
    }
  }

  /** The text fallback runs exactly when no card yields a record; every record then comes
      from a card of the page or, failing that, from the fallback. */
  lemma JobResultsFacts(page: Page, c: Company)
    ensures JobResults(page) == TextCompanies(page.textMatches) <== CardCompanies(page.cards) == []
    ensures c in JobResults(page) ==>
      (exists k :: 0 <= k < |page.cards| && ExtractCompanyFromJobCard(page.cards[k]) == Some(c)) ||
      (CardCompanies(page.cards) == [] && c in TextCompanies(page.textMatches))
    ensures (exists k :: 0 <= k < |page.cards| && ExtractCompanyFromJobCard(page.cards[k]) == Some(c)) ==>
      c in JobResults(page)
  {
    CardCompaniesMembership(page.cards, c);
  }

  /** `_search_jobs`: a page is read only from a 200 answer; a rate-limit (429) or any
      other status yields nothing. */
  function SearchJobs(response: Response): (cs: seq<Company>)
    ensures response.status != 200 ==> cs == []
    ensures response.status == 200 ==> cs == JobResults(response.page)
  {
    if response.status == 200 then JobResults(response.page) else []
  }

  // ---------------------------------------------------------------- merging deduplication

  /** `company['name'].lower().strip()` */
  function NameKey(c: Company): string {
    Strip(Lower(c.name))
  }

  /** `company.get('ml_job_titles', [])` */
  function Titles(c: Company): seq<string> {
    c.mlJobTitles.GetOr([])
  }

  /** `'ml_job_titles' in company`: whether a duplicate brings titles to merge. */
  predicate HasTitles(c: Company) {
    c.mlJobTitles.Some?
  }

  /** `existing['ml_job_titles'] = list(set(existing_titles + new_titles))`; the list
      keeps first occurrences in order. */
  function MergeTitles(existing: Company, newcomer: Company): Company {
    existing.(mlJobTitles := Some(Nub(Titles(existing) + Titles(newcomer))))
  }

  ghost function TitleSet(c: Company): set<string> {
    set t | t in Titles(c)
  }

  /** A record with its job titles blanked: what a merge leaves untouched. */
  function WithoutTitles(c: Company): Company {
    c.(mlJobTitles := None)
  }

  /** The merged list holds each title of either list exactly once, and the rest of the
      kept record is untouched. */
  lemma MergeTitlesFacts(existing: Company, newcomer: Company)
    ensures WithoutTitles(MergeTitles(existing, newcomer)) == WithoutTitles(existing)
    ensures TitleSet(MergeTitles(existing, newcomer)) == TitleSet(existing) + TitleSet(newcomer)
    ensures var merged := Titles(MergeTitles(existing, newcomer));
      forall j, j' :: 0 <= j < j' < |merged| ==> merged[j] != merged[j']
  {
    NubProperties(Titles(existing) + Titles(newcomer));
  }

  lemma MergeObligations()
    ensures forall a, b :: WithoutTitles(MergeTitles(a, b)) == WithoutTitles(a)
    ensures forall a, b :: TitleSet(MergeTitles(a, b)) == TitleSet(a) + TitleSet(b)
    ensures forall b :: !HasTitles(b) ==> TitleSet(b) == {}
  {
    forall a, b
      ensures WithoutTitles(MergeTitles(a, b)) == WithoutTitles(a)
      ensures TitleSet(MergeTitles(a, b)) == TitleSet(a) + TitleSet(b)
    {
      MergeTitlesFacts(a, b);
    }
  }

  /** Reference definition of `_deduplicate_companies`. */
  function Deduplicated(companies: seq<Company>): seq<Company> {
    Values(Absorbed(companies, NameKey, MergeTitles, HasTitles))
  }

  /** `_deduplicate_companies`: `order` and `records` are the insertion-ordered
      `seen_companies` dictionary. */
  method DeduplicateCompanies(companies: seq<Company>) returns (unique: seq<Company>)
    ensures unique == Deduplicated(companies)
  {
    var order: seq<string> := [];
    var records: map<string, Company> := map[];
    for i := 0 to |companies|
      invariant Seen(order, records) == Absorbed(companies[..i], NameKey, MergeTitles, HasTitles)
    {
      AbsorbedSnoc(companies, i, NameKey, MergeTitles, HasTitles);
      var company := companies[i];
      var key := NameKey(company);
      if key in records {
        if company.mlJobTitles.Some? {
          records := records[key := MergeTitles(records[key], company)];
        }
      } else {
        records := records[key := company];
        order := order + [key];
      }
    }
    assert companies[..|companies|] == companies;
    unique := seq(|order|, i requires 0 <= i < |order| => records[order[i]]);
  }

  /** Deduplication keeps, in first-occurrence order, one record per name key, and that
      record is the first one carrying the key, except for its job titles. */
  lemma DeduplicatedKeepsFirst(companies: seq<Company>)
    ensures |Deduplicated(companies)| == |Distinct(companies, NameKey, Always)|
    ensures forall j :: 0 <= j < |Deduplicated(companies)| ==>
      WithoutTitles(Deduplicated(companies)[j]) == WithoutTitles(Distinct(companies, NameKey, Always)[j])
  {
    MergeObligations();
    AbsorbedMirrorsDistinct(companies, NameKey, MergeTitles, HasTitles, WithoutTitles);
  }

  /** Each kept record's job titles are exactly the titles of every record of its name
      key, its own included. */
  lemma DeduplicatedTitles(companies: seq<Company>, j: nat, t: string)
    requires j < |Deduplicated(companies)|
    ensures t in Titles(Deduplicated(companies)[j]) <==>
      exists i :: 0 <= i < |companies| && NameKey(companies[i]) == NameKey(Deduplicated(companies)[j]) &&
        t in Titles(companies[i])
  {
    var s := Absorbed(companies, NameKey, MergeTitles, HasTitles);
    var k := s.order[j];
    var c := Deduplicated(companies)[j];
    assert c == s.records[k];
    MergeObligations();
    AbsorbedMirrorsDistinct(companies, NameKey, MergeTitles, HasTitles, WithoutTitles);
    assert NameKey(c) == k by {
      assert WithoutTitles(c).name == c.name;
    }
    AbsorbedGathers(companies, NameKey, MergeTitles, HasTitles, TitleSet, k);
    KeyValuesMembership(companies, NameKey, TitleSet, k, t);
  }

  // ---------------------------------------------------------------- all search terms

  function TermOutcomes(search: string -> Result<Response>): (rs: seq<Result<seq<Company>>>)
    ensures |rs| == |SearchTerms|
    ensures forall k :: 0 <= k < |rs| ==> (rs[k].Success? <==> search(SearchTerms[k]).Success?)
    ensures forall k :: 0 <= k < |rs| && rs[k].Success? ==> rs[k].value == SearchJobs(search(SearchTerms[k]).value)
  {
    seq(|SearchTerms|, k requires 0 <= k < |SearchTerms| =>
      match search(SearchTerms[k])
      case Failure(e) => Failure(e)
      case Success(response) => Success(SearchJobs(response)))
  }

  /** `get_companies_hiring_ml`: every search term in order, each in its own `try`, then
      the merging deduplication. */
  method GetCompaniesHiringMl(search: string -> Result<Response>) returns (unique: seq<Company>)
    ensures unique == Deduplicated(Successes(TermOutcomes(search)))
  {
    var outcomes := TermOutcomes(search);
    var all: seq<Company> := [];
    for i := 0 to |SearchTerms|
      invariant all == Successes(outcomes[..i])
    {
      SuccessesStep(outcomes, i);
      var answer := search(SearchTerms[i]);
      if answer.Success? {
        var companies := SearchJobs(answer.value);
        all := all + companies;
      }
    }
    assert outcomes[..|SearchTerms|] == outcomes;
    unique := DeduplicateCompanies(all);
  }

  /** A search that fails contributes nothing, and the terms before and after it still
      contribute theirs. */
  lemma FailedSearchSkipped(search: string -> Result<Response>, k: nat)
    requires k < |SearchTerms| && search(SearchTerms[k]).Failure?
    ensures Successes(TermOutcomes(search)) ==
      Successes(TermOutcomes(search)[..k]) + Successes(TermOutcomes(search)[k + 1..])
  {
    SuccessesSkipFailure(TermOutcomes(search), k);
  }

  /** Before deduplication, a record is exactly one that a successful search's page
      yields. */
  lemma SearchMembership(search: string -> Result<Response>, c: Company)
    ensures c in Successes(TermOutcomes(search)) <==>
      exists k :: 0 <= k < |SearchTerms| && search(SearchTerms[k]).Success? &&
        c in SearchJobs(search(SearchTerms[k]).value)
  {
    SuccessesMembership(TermOutcomes(search), c);
  }
}
