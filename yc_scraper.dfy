/** The Y Combinator collector: for each target batch, the company blocks of the batch
    listing become records, and the Seattle-area ones are kept. Fetching the listing and
    the regular expressions that cut the HTML into blocks and captures are not modelled:
    a batch's listing is the result of `fetchBatch`, already cut into `CompanyBlock`s. */
module YcScraper {
  import opened Wrappers
  import opened Text
  import opened Dedup
  import opened Collect
  import opened Records

  const TargetBatches: seq<string> := ["W22", "S22", "W23"]

  /** What the regular expressions of `_extract_company_data` capture in one block: the
      heading, the description paragraph and the first absolute link (each `None` when
      its pattern does not match), the location `_extract_location` settled on, and every
      tag span's text. */
  datatype CompanyBlock = CompanyBlock(
    heading: Option<string>,
    description: Option<string>,
    link: Option<string>,
    location: string,
    tagTexts: seq<string>)

  // ---------------------------------------------------------------- batch year

  predicate TwoDigitsAt(s: string, i: int) {
    0 <= i && i + 2 <= |s| && IsDigit(s[i]) && IsDigit(s[i + 1])
  }

  function DigitPair(s: string, i: int): (n: nat)
    requires TwoDigitsAt(s, i)
    ensures n < 100
  {
    (s[i] as int - '0' as int) * 10 + (s[i + 1] as int - '0' as int)
  }

  /** `re.search(r'(\d{2})$', batch)`: two digits at the end, or just before a final
      newline, which `$` also accepts. */
  function YearSuffix(batch: string): (r: Option<nat>)
    ensures r.Some? <==> (TwoDigitsAt(batch, |batch| - 2) ||
                          (|batch| > 0 && batch[|batch| - 1] == '\n' && TwoDigitsAt(batch, |batch| - 3)))
    ensures r.Some? ==> r.value < 100
  {
    if TwoDigitsAt(batch, |batch| - 2) then Some(DigitPair(batch, |batch| - 2))
    else if |batch| > 0 && batch[|batch| - 1] == '\n' && TwoDigitsAt(batch, |batch| - 3)
    then Some(DigitPair(batch, |batch| - 3))
    else None
  }

  /** `_batch_to_year`: the clock is the parameter `currentYear`. */
  function BatchToYear(batch: string, currentYear: int): (y: int)
    ensures YearSuffix(batch).Some? ==> 2000 <= y < 2100 && y == 2000 + YearSuffix(batch).value
    ensures YearSuffix(batch).None? ==> y == currentYear
  {
    match YearSuffix(batch)
    case Some(dd) => 2000 + dd
    case None => currentYear
  }

  /** The target batches are founded in 2022, 2022 and 2023, whatever the clock says. */
  lemma TargetBatchYears(currentYear: int)
    ensures BatchToYear(TargetBatches[0], currentYear) == 2022
    ensures BatchToYear(TargetBatches[1], currentYear) == 2022
    ensures BatchToYear(TargetBatches[2], currentYear) == 2023
  {
    assert TwoDigitsAt(TargetBatches[0], 1);
    assert TwoDigitsAt(TargetBatches[1], 1);
    assert TwoDigitsAt(TargetBatches[2], 1);
  }

  // ---------------------------------------------------------------- one block

  predicate NonBlank(t: string) { t != [] }

  function StripAll(texts: seq<string>): (r: seq<string>)
    ensures |r| == |texts| && forall k :: 0 <= k < |texts| ==> r[k] == Strip(texts[k])
  {
    seq(|texts|, k requires 0 <= k < |texts| => Strip(texts[k]))
  }

  /** The non-blank stripped tag texts: every non-blank one survives, and none is blank. */
  lemma NonBlankFacts(texts: seq<string>)
    ensures var tags := Filter(NonBlank, StripAll(texts));
      |tags| <= |texts| &&
      (forall j :: 0 <= j < |tags| ==> tags[j] != []) &&
      (forall k :: 0 <= k < |texts| && Strip(texts[k]) != [] ==> Strip(texts[k]) in tags)
  {
    var stripped := StripAll(texts);
    FilterFacts(NonBlank, stripped);
    var tags := Filter(NonBlank, stripped);
    forall k | 0 <= k < |texts| && Strip(texts[k]) != []
      ensures Strip(texts[k]) in tags
    {
      assert stripped[k] in stripped && NonBlank(stripped[k]);
    }
    forall j | 0 <= j < |tags|
      ensures tags[j] != []
    {
      assert tags[j] in tags;
      assert NonBlank(tags[j]);
    }
  }

  /** `[tag.strip() for tag in matches if tag.strip()]`: every non-blank tag text
      survives, stripped, and no tag is blank. */
  function ExtractTags(texts: seq<string>): (tags: seq<string>)
    ensures |tags| <= |texts|
    ensures forall j :: 0 <= j < |tags| ==> tags[j] != []
    ensures forall k :: 0 <= k < |texts| && Strip(texts[k]) != [] ==> Strip(texts[k]) in tags
  {
    NonBlankFacts(texts);
    Filter(NonBlank, StripAll(texts))
  }

  /** The tags keep the order of the tag texts: `idx` names, in increasing order, the tag
      text each tag came from. */
  lemma ExtractTagsFacts(texts: seq<string>) returns (idx: seq<nat>)
    ensures Picks(ExtractTags(texts), StripAll(texts), idx)
  {
    idx := FilterIsSubsequence(NonBlank, StripAll(texts));
  }

  function StrippedOr(capture: Option<string>): string {
    if capture.Some? then Strip(capture.value) else ""
  }

  /** `_extract_company_data`: a record exactly when the stripped heading is non-empty. */
  function ExtractCompanyData(block: CompanyBlock, batch: string, currentYear: int): (r: Option<Company>)
    ensures r.Some? <==> StrippedOr(block.heading) != []
    ensures r.Some? ==> r.value.name == StrippedOr(block.heading)
    ensures r.Some? ==> r.value.description == StrippedOr(block.description)
    ensures r.Some? ==> r.value.website == block.link.GetOr("")
    ensures r.Some? ==> r.value.location == block.location && r.value.source == YCombinator
    ensures r.Some? ==> r.value.batch == batch && r.value.foundedYear == Some(BatchToYear(batch, currentYear))
    ensures r.Some? ==> r.value.tags == ExtractTags(block.tagTexts)
  {
    var name := StrippedOr(block.heading);
    if name == [] then None
    else
      var c := NewCompany(name, StrippedOr(block.description), block.link.GetOr(""), block.location, YCombinator);
      Some(c.(batch := batch, foundedYear := Some(BatchToYear(batch, currentYear)),
              tags := ExtractTags(block.tagTexts)))
  }

  /** The records `_parse_companies_html` keeps, in block order. */
  function ParsedCompanies(blocks: seq<CompanyBlock>, batch: string, currentYear: int): seq<Company>
    decreases |blocks|
  {
    if blocks == [] then []
    else
      var r := ExtractCompanyData(blocks[|blocks| - 1], batch, currentYear);
      ParsedCompanies(blocks[..|blocks| - 1], batch, currentYear) + (if r.Some? then [r.value] else [])
  }

  lemma {:induction false} ParsedCompaniesFacts(blocks: seq<CompanyBlock>, batch: string, currentYear: int)
    ensures |ParsedCompanies(blocks, batch, currentYear)| <= |blocks|
    ensures forall c :: c in ParsedCompanies(blocks, batch, currentYear) ==>
      c.name != [] && c.source == YCombinator && c.batch == batch &&
      c.foundedYear == Some(BatchToYear(batch, currentYear))
    decreases |blocks|
  {
    if blocks != [] {
      ParsedCompaniesFacts(blocks[..|blocks| - 1], batch, currentYear);
    }
  }

  method ParseCompanies(blocks: seq<CompanyBlock>, batch: string, currentYear: int)
    returns (companies: seq<Company>)
    ensures companies == ParsedCompanies(blocks, batch, currentYear)
  {
    companies := [];
    for i := 0 to |blocks|
      invariant companies == ParsedCompanies(blocks[..i], batch, currentYear)
    {
      assert blocks[..i + 1][..i] == blocks[..i];
      var data := ExtractCompanyData(blocks[i], batch, currentYear);
      if data.Some? {
        companies := companies + [data.value];
      }
    }
    assert blocks[..|blocks|] == blocks;
  }

  // ---------------------------------------------------------------- Seattle filter

  const SeattleIndicators: seq<string> := [
    "seattle", "bellevue", "redmond", "kirkland", "tacoma",
    "washington state", "wa,", "wa ", "pacific northwest"]

  /** The test of `_filter_seattle_companies`: an indicator in the lower-cased location
      or, failing that, in the lower-cased description. */
  predicate IsSeattleArea(c: Company) {
    AnyContained(Lower(c.location), SeattleIndicators) ||
    AnyContained(Lower(c.description), SeattleIndicators)
  }

  method FilterSeattleCompanies(companies: seq<Company>) returns (seattle: seq<Company>)
    ensures seattle == Filter(IsSeattleArea, companies)
  {
    seattle := [];
    for i := 0 to |companies|
      invariant seattle == Filter(IsSeattleArea, companies[..i])
    {
      FilterStep(IsSeattleArea, companies, i);
      var c := companies[i];
      if AnyContained(Lower(c.location), SeattleIndicators) {
        seattle := seattle + [c];
        continue;
      }
      if AnyContained(Lower(c.description), SeattleIndicators) {
        seattle := seattle + [c];
        continue;
      }
    }
    assert companies[..|companies|] == companies;
  }

  /** The filter keeps, in input order, exactly the Seattle-area records. */
  lemma SeattleFilterFacts(companies: seq<Company>) returns (idx: seq<nat>)
    ensures forall c :: c in Filter(IsSeattleArea, companies) <==> c in companies && IsSeattleArea(c)
    ensures Picks(Filter(IsSeattleArea, companies), companies, idx)
  {
    FilterFacts(IsSeattleArea, companies);
    idx := FilterIsSubsequence(IsSeattleArea, companies);
  }

  // ---------------------------------------------------------------- all batches

  /** What one batch contributes: nothing when scraping it failed, otherwise its
      Seattle-area records. */
  function BatchOutcome(listing: Result<seq<CompanyBlock>>, batch: string, currentYear: int): Result<seq<Company>> {
    match listing
    case Failure(e) => Failure(e)
    case Success(blocks) => Success(Filter(IsSeattleArea, ParsedCompanies(blocks, batch, currentYear)))
  }

  function BatchOutcomes(fetchBatch: string -> Result<seq<CompanyBlock>>, currentYear: int): (rs: seq<Result<seq<Company>>>)
    ensures |rs| == |TargetBatches|
  {
    seq(|TargetBatches|, k requires 0 <= k < |TargetBatches| =>
      BatchOutcome(fetchBatch(TargetBatches[k]), TargetBatches[k], currentYear))
  }

  /** `get_seattle_companies`: the batches in order, each in its own `try`. */
  method GetSeattleCompanies(fetchBatch: string -> Result<seq<CompanyBlock>>, currentYear: int)
    returns (all: seq<Company>)
    ensures all == Successes(BatchOutcomes(fetchBatch, currentYear))
  {
    var outcomes := BatchOutcomes(fetchBatch, currentYear);
    all := [];
    for i := 0 to |TargetBatches|
      invariant all == Successes(outcomes[..i])
    {
      SuccessesStep(outcomes, i);
      var batch := TargetBatches[i];
      var listing := fetchBatch(batch);
      if listing.Success? {
        var companies := ParseCompanies(listing.value, batch, currentYear);
        var seattle := FilterSeattleCompanies(companies);
        all := all + seattle;
      }
    }
    assert outcomes[..|TargetBatches|] == outcomes;
  }

  /** What one batch's records satisfy. */
  lemma BatchOutcomeFacts(listing: Result<seq<CompanyBlock>>, batch: string, currentYear: int, c: Company)
    requires listing.Success? && c in BatchOutcome(listing, batch, currentYear).value
    ensures IsSeattleArea(c) && c.name != [] && c.source == YCombinator
    ensures c.batch == batch && c.foundedYear == Some(BatchToYear(batch, currentYear))
  {
    var parsed := ParsedCompanies(listing.value, batch, currentYear);
    FilterFacts(IsSeattleArea, parsed);
    ParsedCompaniesFacts(listing.value, batch, currentYear);
  }

  /** Every collected record is a Seattle-area Y Combinator record with a name, from one of
      the target batches, founded in 2022 or 2023. */
  lemma SeattleCompaniesFacts(fetchBatch: string -> Result<seq<CompanyBlock>>, currentYear: int, c: Company)
    requires c in Successes(BatchOutcomes(fetchBatch, currentYear))
    ensures IsSeattleArea(c) && c.name != [] && c.source == YCombinator
    ensures c.batch in TargetBatches
    ensures c.foundedYear == Some(2022) || c.foundedYear == Some(2023)
  {
    var rs := BatchOutcomes(fetchBatch, currentYear);
    SuccessesMembership(rs, c);
    var k :| 0 <= k < |rs| && rs[k].Success? && c in rs[k].value;
    var batch := TargetBatches[k];
    assert rs[k] == BatchOutcome(fetchBatch(batch), batch, currentYear);
    BatchOutcomeFacts(fetchBatch(batch), batch, currentYear, c);
    TargetBatchYears(currentYear);
  }

  /** A batch whose scrape fails contributes nothing, and the others still do. */
  lemma FailedBatchSkipped(fetchBatch: string -> Result<seq<CompanyBlock>>, currentYear: int, k: nat)
    requires k < |TargetBatches| && fetchBatch(TargetBatches[k]).Failure?
    ensures Successes(BatchOutcomes(fetchBatch, currentYear)) ==
      Successes(BatchOutcomes(fetchBatch, currentYear)[..k]) + Successes(BatchOutcomes(fetchBatch, currentYear)[k + 1..])
  {
    SuccessesSkipFailure(BatchOutcomes(fetchBatch, currentYear), k);
  }
}
