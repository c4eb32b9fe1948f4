/** The discovery engine: one run calls the three collectors, pools their records, removes
    duplicates by identity key, analyses every record, stores the results and builds the
    report. The engine is a class whose `stats` field the phases update in place; the
    collectors' outcomes, the per-record AI-washing and GitHub analyses, the database and
    the clock are inputs. */
module DiscoveryEngine {
  import opened Wrappers
  import opened Text
  import opened Dedup
  import opened Collect
  import opened Records
  import opened Settings
  import GitHubAnalyzer

  /** The run counters and timestamps (`self.stats`). Timestamps are seconds. */
  datatype RunStatistics = RunStatistics(
    companiesDiscovered: nat,
    companiesAnalyzed: nat,
    highPotentialTargets: nat,
    aiWashingFiltered: nat,
    runStartTime: Option<int>,
    runEndTime: Option<int>)

  const InitialStatistics := RunStatistics(0, 0, 0, 0, None, None)

  /** The counters agree with each other: a target is high-potential or filtered, not both,
      and only analysed records are either. */
  predicate Consistent(s: RunStatistics) {
    s.highPotentialTargets + s.aiWashingFiltered <= s.companiesAnalyzed
  }

  datatype Report = Report(
    date: int,
    runtimeSeconds: int,
    statistics: RunStatistics,
    topTargets: seq<Company>,
    recommendations: seq<Note>)

  /** What each collector returned, or the text of what it raised. */
  datatype Sources = Sources(
    yc: Result<seq<Company>>,
    geekwire: Result<seq<Company>>,
    linkedin: Result<seq<Company>>)

  /** The per-record analyses: the AI-washing scorer and the GitHub analyser, either of
      which may raise. */
  datatype Analyses = Analyses(
    detect: Company -> Result<int>,
    github: Company -> Result<GitHubAnalyzer.GithubReport>)

  // ---------------------------------------------------------------- discovery

  /** The pooled records: the successful collectors' records, YC, then GeekWire, then
      LinkedIn. */
  function Aggregate(s: Sources): seq<Company> {
    Successes([s.yc, s.geekwire, s.linkedin])
  }

  /** Pooling is concatenation, a collector that raised adding nothing. */
  lemma AggregateIsConcatenation(s: Sources)
    ensures Aggregate(s) == Contribution(s.yc) + Contribution(s.geekwire) + Contribution(s.linkedin)
  {
    SuccessesOfThree(s.yc, s.geekwire, s.linkedin);
  }

  /** A record is pooled exactly when a collector that did not raise returned it. */
  lemma AggregateMembership(s: Sources, c: Company)
    ensures c in Aggregate(s) <==>
      (s.yc.Success? && c in s.yc.value) ||
      (s.geekwire.Success? && c in s.geekwire.value) ||
      (s.linkedin.Success? && c in s.linkedin.value)
  {
    AggregateIsConcatenation(s);
  }

  // ---------------------------------------------------------------- identity keys

  const ProtocolMark := "://"
  const WwwPrefix := "www."

  /** The text after the first "://", or all of it. */
  function AfterProtocol(url: string): (r: string)
    ensures |r| <= |url| && r == url[|url| - |r|..]
    ensures !Contains(url, ProtocolMark) ==> r == url
  {
    if Contains(url, ProtocolMark) then url[IndexOf(url, ProtocolMark) + |ProtocolMark|..] else url
  }

  /** "www." removed when it is literally there (case-sensitive). */
  function DropWww(host: string): (r: string)
    ensures |r| <= |host| && r == host[|host| - |r|..]
    ensures !StartsWith(host, WwwPrefix) ==> r == host
  {
    if StartsWith(host, WwwPrefix) then host[|WwwPrefix|..] else host
  }

  /** `_extract_domain`: drop the protocol, then the path, then a leading "www.", and
      lower-case what is left. */
  function ExtractDomain(url: string): (d: string)
    ensures url == [] ==> d == []
    ensures '/' !in d
    ensures Lower(d) == d
    ensures |d| <= |url|
  {
    if url == [] then []
    else
      var host := DropWww(UpTo(AfterProtocol(url), '/'));
      LowerIdempotent(host);
      Lower(host)
  }

  /** The domain is the lower-cased text of one '/'-free stretch of the URL. */
  lemma DomainIsSlice(url: string) returns (i: nat, j: nat)
    ensures i <= j <= |url| && '/' !in url[i..j]
    ensures ExtractDomain(url) == Lower(url[i..j])
  {
    if url == [] {
      i, j := 0, 0;
    } else {
      var a := AfterProtocol(url);
      var u := UpTo(a, '/');
      var h := DropWww(u);
      var p := |url| - |a|;
      PrefixOfSuffix(url, p, a, |u|);
      i, j := p + |u| - |h|, p + |u|;
      assert url[i..j] == u[|u| - |h|..];
    }
  }

  /** A host written "www." loses the prefix ... */
  lemma LowerCaseWwwDropped(host: string)
    requires !Contains(host, ProtocolMark) && '/' !in host && StartsWith(host, WwwPrefix)
    ensures ExtractDomain(host) == Lower(host[|WwwPrefix|..])
  {
    assert UpTo(host, '/') == host;
  }

  /** ... and any other host is only lower-cased: the prefix test runs before lower-casing,
      so "WWW.acme.com" keeps its prefix and becomes "www.acme.com". */
  lemma OtherHostLowered(host: string)
    requires !Contains(host, ProtocolMark) && '/' !in host && !StartsWith(host, WwwPrefix)
    ensures ExtractDomain(host) == Lower(host)
  {
    assert UpTo(host, '/') == host;
  }

  /** `domain if domain else company_name`: the website's domain, else the lower-cased,
      stripped name. Either way the key is lower case, so keys ignore case. */
  function IdentityKey(c: Company): (key: string)
    ensures Lower(key) == key
    ensures ExtractDomain(c.website) != [] ==> key == ExtractDomain(c.website)
    ensures ExtractDomain(c.website) == [] ==> key == Strip(Lower(c.name))
  {
    StripKeepsLower(c.name);
    var domain := ExtractDomain(c.website);
    if domain != [] then domain else Strip(Lower(c.name))
  }

  /** `if unique_key and ...`: a record with an empty key is dropped. */
  predicate HasIdentity(c: Company) {
    IdentityKey(c) != []
  }

  /** The deduplicated records are a subsequence of the input with pairwise different,
      non-empty keys, and every non-empty key of the input is among them. */
  lemma DeduplicatedFacts(companies: seq<Company>) returns (idx: seq<nat>)
    ensures var d := Distinct(companies, IdentityKey, HasIdentity);
      Picks(d, companies, idx) &&
      (forall j :: 0 <= j < |d| ==> HasIdentity(d[j])) &&
      (forall j, j' :: 0 <= j < j' < |d| ==> IdentityKey(d[j]) != IdentityKey(d[j'])) &&
      (forall i :: 0 <= i < |companies| && HasIdentity(companies[i]) ==>
         IdentityKey(companies[i]) in Keys(d, IdentityKey))
  {
    idx := DistinctIsSubsequence(companies, IdentityKey, HasIdentity);
    DistinctKeysUnique(companies, IdentityKey, HasIdentity);
    DistinctCoversKeys(companies, IdentityKey, HasIdentity);
  }

  /** The record kept for a key is its first occurrence. */
  lemma DeduplicatedKeepsFirst(companies: seq<Company>, i: nat)
    requires i < |companies| && HasIdentity(companies[i])
    requires forall i' :: 0 <= i' < i && HasIdentity(companies[i']) ==>
      IdentityKey(companies[i']) != IdentityKey(companies[i])
    ensures companies[i] in Distinct(companies, IdentityKey, HasIdentity)
  {
    DistinctKeepsFirst(companies, IdentityKey, HasIdentity, i);
  }

  /** Domains and names share one seen-set: a record without a website whose name is
      "acme" drops a later record whose website's domain is "acme". */
  lemma NameKeyMeetsDomainKey(named: Company, hosted: Company)
    requires named.website == [] && Strip(Lower(named.name)) != []
    requires ExtractDomain(hosted.website) == Strip(Lower(named.name))
    ensures Distinct([named, hosted], IdentityKey, HasIdentity) == [named]
  {
    assert IdentityKey(named) == IdentityKey(hosted) && HasIdentity(named);
    DistinctSameKeyPair(named, hosted, IdentityKey, HasIdentity);
  }

  // ---------------------------------------------------------------- strategic fit

  /** `any(term.lower() in text.lower() for term in terms)` */
  predicate MentionsAny(text: string, terms: seq<string>) {
    exists k :: 0 <= k < |terms| && Contains(Lower(text), Lower(terms[k]))
  }

  /** How many of the four profile criteria hold: location, funding stage, size, industry. */
  function ProfileMatches(c: Company, t: TargetCriteria): (n: nat)
    ensures n <= 4
  {
    (if MentionsAny(c.location, t.targetLocations) then 1 else 0) +
    (if c.fundingStage in t.fundingStages then 1 else 0) +
    (if t.minEmployees <= c.employeesCount <= t.maxEmployees then 1 else 0) +
    (if MentionsAny(c.description, t.targetIndustries) then 1 else 0)
  }

  /** The technical-depth points for an AI-washing score. */
  function TechnicalPoints(ai: int): (p: nat)
    ensures p <= 2
  {
    if ai >= 7 then 2 else if ai >= 5 then 1 else 0
  }

  /** `_calculate_strategic_fit`: two points per profile criterion met, plus the technical
      points of the score already written into the record, capped at 10. */
  function StrategicFit(c: Company, t: TargetCriteria): (s: int)
    ensures 0 <= s <= 10
  {
    var score := 2 * ProfileMatches(c, t) + TechnicalPoints(c.aiWashingScore.GetOr(0));
    if score < 10 then score else 10
  }

  /** The record with its AI-washing score written in. */
  function WithScore(c: Company, ai: int): Company {
    c.(aiWashingScore := Some(ai))
  }

  /** The cap never binds: the points add up to at most 10 anyway. */
  lemma FitCapNeverBinds(c: Company, t: TargetCriteria)
    ensures StrategicFit(c, t) == 2 * ProfileMatches(c, t) + TechnicalPoints(c.aiWashingScore.GetOr(0))
  {
  }

  /** A fit of 7 or more needs at least three of the four profile criteria. */
  lemma HighFitNeedsThreeCriteria(c: Company, t: TargetCriteria)
    requires StrategicFit(c, t) >= 7
    ensures ProfileMatches(c, t) >= 3
  {
  }

  /** A higher AI-washing score never lowers the fit. */
  lemma FitMonotoneInScore(c: Company, t: TargetCriteria, ai: int, ai': int)
    requires ai <= ai'
    ensures StrategicFit(WithScore(c, ai), t) <= StrategicFit(WithScore(c, ai'), t)
  {
  }

  /** No collector writes a funding stage or an employee count, so under the default
      criteria a collected record scores at most 6 and never counts as high-potential. */
  lemma CollectedRecordNeverHighPotential(c: Company, ai: int)
    requires c.fundingStage == [] && c.employeesCount == 0
    ensures StrategicFit(WithScore(c, ai), DefaultTargets()) <= 6
  {
    var t := DefaultTargets();
    assert c.fundingStage !in t.fundingStages by {
      forall k | 0 <= k < |t.fundingStages| ensures t.fundingStages[k] != [] {
        assert |t.fundingStages[k]| > 0;
      }
    }
  }

  // ---------------------------------------------------------------- healthcare relevance

  const HealthcareKeywords: seq<string> := [
    "health", "medical", "healthcare", "clinical", "patient",
    "hospital", "diagnosis", "treatment", "pharma", "biotech",
    "therapeutic", "drug", "medicine", "doctor", "physician"]

  /** Description, name and keywords, space-joined and lower-cased. */
  function CombinedText(c: Company): string {
    Lower(c.description + " " + c.name + " " + Join(" ", c.keywords))
  }

  /** `p` occurs in the lower-cased description, name or one of the keywords on its own. */
  predicate MentionedIn(c: Company, p: string) {
    Contains(Lower(c.description), p) || Contains(Lower(c.name), p) ||
    exists j :: 0 <= j < |c.keywords| && Contains(Lower(c.keywords[j]), p)
  }

  lemma CombinedTextSplit(c: Company)
    ensures CombinedText(c) == Lower(c.description) + " " + Lower(c.name) + " " + Lower(Join(" ", c.keywords))
  {
    LowerAppend(c.description + " " + c.name + " ", Join(" ", c.keywords));
    LowerAppend(c.description + " " + c.name, " ");
    LowerAppend(c.description + " ", c.name);
    LowerAppend(c.description, " ");
  }

  /** The parts are joined with spaces, so a non-empty pattern without a space occurs in
      the combined text exactly when it occurs in one part: no match straddles two parts. */
  lemma CombinedParts(c: Company, p: string)
    requires ' ' !in p && |p| > 0
    ensures Contains(CombinedText(c), p) <==> MentionedIn(c, p)
  {
    var d, n, k := Lower(c.description), Lower(c.name), Lower(Join(" ", c.keywords));
    CombinedTextSplit(c);
    ContainsAcrossSpace(d + " " + n, k, p);
    ContainsAcrossSpace(d, n, p);
    JoinContains(c.keywords, p);
  }

  lemma HealthcareKeywordsPlain()
    ensures forall k :: 0 <= k < |HealthcareKeywords| ==> ' ' !in HealthcareKeywords[k] && |HealthcareKeywords[k]| > 0
  {
  }

  lemma AllCombinedParts(c: Company)
    ensures forall k :: 0 <= k < |HealthcareKeywords| ==>
      (Contains(CombinedText(c), HealthcareKeywords[k]) <==> MentionedIn(c, HealthcareKeywords[k]))
  {
    HealthcareKeywordsPlain();
    forall k | 0 <= k < |HealthcareKeywords| {
      CombinedParts(c, HealthcareKeywords[k]);
    }
  }

  /** `_assess_healthcare_relevance`: a healthcare keyword in the description, the name or
      the keywords. No keyword holds a space, so joining the texts neither adds nor loses a
      match. */
  function HealthcareRelevant(c: Company): (relevant: bool)
    ensures relevant <==> exists k :: 0 <= k < |HealthcareKeywords| && MentionedIn(c, HealthcareKeywords[k])
  {
    AllCombinedParts(c);
    AnyContained(CombinedText(c), HealthcareKeywords)
  }

  // ---------------------------------------------------------------- per-record analysis

  /** Both analyses of the record return. */
  predicate Succeeds(c: Company, a: Analyses) {
    a.detect(c).Success? && a.github(WithScore(c, a.detect(c).value)).Success?
  }

  /** The record an analysis that raised leaves behind. */
  function Failed(c: Company, error: string): Company {
    c.(aiWashingScore := Some(0), analysisError := Some(error))
  }

  /** One iteration of `_analyze_companies`. The strategic fit does not read the GitHub
      report, so it is computed from the scored record. */
  function AnalyzeOne(c: Company, t: TargetCriteria, a: Analyses): (r: Company)
    ensures r.(aiWashingScore := c.aiWashingScore, githubAnalysis := c.githubAnalysis,
               strategicFitScore := c.strategicFitScore, healthcareRelevance := c.healthcareRelevance,
               analysisError := c.analysisError) == c
    ensures !Succeeds(c, a) ==>
      r.aiWashingScore == Some(0) && r.analysisError.Some? &&
      r.githubAnalysis == c.githubAnalysis && r.strategicFitScore == c.strategicFitScore &&
      r.healthcareRelevance == c.healthcareRelevance
    ensures a.detect(c).Failure? ==> r.analysisError == Some(a.detect(c).error)
    ensures a.detect(c).Success? && a.github(WithScore(c, a.detect(c).value)).Failure? ==>
      r.analysisError == Some(a.github(WithScore(c, a.detect(c).value)).error)
    ensures Succeeds(c, a) ==>
      var ai := a.detect(c).value;
      r.aiWashingScore == Some(ai) && r.analysisError == c.analysisError &&
      r.githubAnalysis == Some(a.github(WithScore(c, ai)).value) &&
      r.strategicFitScore == Some(StrategicFit(WithScore(c, ai), t)) &&
      r.healthcareRelevance == Some(HealthcareRelevant(c))
  {
    match a.detect(c)
    case Failure(e) => Failed(c, e)
    case Success(ai) =>
      var scored := WithScore(c, ai);
      match a.github(scored)
      case Failure(e) => Failed(c, e)
      case Success(g) =>
        var fit := StrategicFit(scored, t);
        scored.(githubAnalysis := Some(g), strategicFitScore := Some(fit),
                healthcareRelevance := Some(HealthcareRelevant(scored)))
  }

  /** Counted as a high-potential target. */
  predicate HighPotential(c: Company, t: TargetCriteria, a: Analyses) {
    Succeeds(c, a) && a.detect(c).value >= t.minAiWashingScore &&
    StrategicFit(WithScore(c, a.detect(c).value), t) >= 7
  }

  /** Counted as filtered out for AI-washing. */
  predicate Filtered(c: Company, t: TargetCriteria, a: Analyses) {
    Succeeds(c, a) && a.detect(c).value < t.minAiWashingScore
  }

  datatype Counts = Counts(analyzed: nat, highPotential: nat, filtered: nat) {
    function Plus(m: Counts): Counts {
      Counts(analyzed + m.analyzed, highPotential + m.highPotential, filtered + m.filtered)
    }
  }

  /** No more than `size` records analysed, and high-potential and filtered records among
      them, never both at once. */
  predicate Bounded(n: Counts, size: nat) {
    n.highPotential + n.filtered <= n.analyzed <= size
  }

  /** The criteria and the analyses one run scores with. */
  datatype Scoring = Scoring(targets: TargetCriteria, analyses: Analyses) {
    function Analyzed(c: Company): Company {
      AnalyzeOne(c, targets, analyses)
    }

    /** What one record adds to the counters: one analysed record exactly when its
        analyses returned, and never both high-potential and filtered. */
    function Counted(c: Company): (n: Counts)
      ensures Bounded(n, 1)
      ensures n.analyzed == (if Succeeds(c, analyses) then 1 else 0)
    {
      Counts(if Succeeds(c, analyses) then 1 else 0,
             if HighPotential(c, targets, analyses) then 1 else 0,
             if Filtered(c, targets, analyses) then 1 else 0)
    }
  }

  /** `ys` is `xs` with `f` applied to every element. */
  ghost predicate Pointwise<T, U>(ys: seq<U>, xs: seq<T>, f: T -> U) {
    |ys| == |xs| && forall j :: 0 <= j < |xs| ==> ys[j] == f(xs[j])
  }

  lemma PointwiseSnoc<T, U>(ys: seq<U>, xs: seq<T>, f: T -> U, x: T)
    requires Pointwise(ys, xs, f)
    ensures Pointwise(ys + [f(x)], xs + [x], f)
  {
  }

  /** The counts of a batch of records. */
  function Tally<T>(xs: seq<T>, count: T -> Counts): Counts
    decreases |xs|
  {
    if xs == [] then Counts(0, 0, 0)
    else Tally(xs[..|xs| - 1], count).Plus(count(xs[|xs| - 1]))
  }

  /** The counters after adding `n`. */
  function Recorded(s: RunStatistics, n: Counts): (r: RunStatistics)
    ensures Consistent(s) && Bounded(n, n.analyzed) ==> Consistent(r)
  {
    s.(companiesAnalyzed := s.companiesAnalyzed + n.analyzed,
       highPotentialTargets := s.highPotentialTargets + n.highPotential,
       aiWashingFiltered := s.aiWashingFiltered + n.filtered)
  }

  lemma RecordedPlus(s: RunStatistics, n: Counts, m: Counts)
    ensures Recorded(Recorded(s, n), m) == Recorded(s, n.Plus(m))
  {
  }

  /** One loop step of the counting. */
  lemma TallyStep<T>(xs: seq<T>, i: nat, count: T -> Counts)
    requires i < |xs|
    ensures Tally(xs[..i + 1], count) == Tally(xs[..i], count).Plus(count(xs[i]))
  {
    assert xs[..i + 1][..i] == xs[..i];
  }

  /** A batch whose every record is bounded is bounded. */
  lemma {:induction false} TallyBounded<T>(xs: seq<T>, count: T -> Counts)
    requires forall x :: Bounded(count(x), 1)
    ensures Bounded(Tally(xs, count), |xs|)
    decreases |xs|
  {
    if xs != [] {
      TallyBounded(xs[..|xs| - 1], count);
      assert Bounded(count(xs[|xs| - 1]), 1);
    }
  }

  /** Analysing a batch keeps the counters consistent and adds at most one analysed
      record per record. */
  lemma RecordedTally(s: RunStatistics, cs: seq<Company>, sc: Scoring)
    ensures Consistent(s) ==> Consistent(Recorded(s, Tally(cs, sc.Counted)))
    ensures Recorded(s, Tally(cs, sc.Counted)).companiesAnalyzed <= s.companiesAnalyzed + |cs|
  {
    TallyBounded(cs, sc.Counted);
  }

  /** Counting two batches one after the other is counting their concatenation: the
      counters of two runs on one engine are those of one run over both batches. */
  lemma {:induction false} TallyAppend<T>(xs: seq<T>, ys: seq<T>, count: T -> Counts)
    ensures Tally(xs + ys, count) == Tally(xs, count).Plus(Tally(ys, count))
    decreases |ys|
  {
    if ys == [] {
      assert xs + ys == xs;
    } else {
      var init, last := ys[..|ys| - 1], ys[|ys| - 1];
      LastSplit(ys);
      assert (xs + ys)[..|xs + ys| - 1] == xs + init;
      TallyAppend(xs, init, count);
      assert Tally(xs + ys, count) == Tally(xs + init, count).Plus(count(last));
    }
  }

  /** With no failing record every record is analysed. */
  lemma {:induction false} TallyAllSucceed(cs: seq<Company>, s: Scoring)
    requires forall i :: 0 <= i < |cs| ==> Succeeds(cs[i], s.analyses)
    ensures Tally(cs, s.Counted).analyzed == |cs|
    decreases |cs|
  {
    if cs != [] {
      TallyAllSucceed(cs[..|cs| - 1], s);
    }
  }

  // ---------------------------------------------------------------- recommendations

  /** A recommendation; `NoteText` is the sentence the report carries. */
  datatype Note = HighPotentialNote(targets: nat) | FilterNote | HealthcareNote(targets: nat)

  function NoteText(n: Note): string {
    match n
    case HighPotentialNote(k) =>
      "Found " + NatToString(k) + " high-potential targets. Focus deep analysis on these companies."
    case FilterNote =>
      "High ratio of AI-washing companies detected. Current filters are working effectively."
    case HealthcareNote(k) =>
      "Found " + NatToString(k) + " healthcare-relevant targets. Leverage FDA experience in outreach."
  }

  predicate HealthcareTarget(c: Company) {
    c.healthcareRelevance.GetOr(false)
  }

  /** `_generate_recommendations`: at most three notes, in a fixed order, each present
      exactly when its condition holds. The healthcare note counts entries of `top`, so a
      record listed twice is counted twice. */
  function Recommendations(s: RunStatistics, top: seq<Company>): (r: seq<Note>)
    ensures |r| <= 3
    ensures s.highPotentialTargets > 0 <==> HighPotentialNote(s.highPotentialTargets) in r
    ensures s.highPotentialTargets > 0 ==> r[0] == HighPotentialNote(s.highPotentialTargets)
    ensures s.aiWashingFiltered > s.highPotentialTargets <==> FilterNote in r
    ensures (exists i :: 0 <= i < |top| && HealthcareTarget(top[i])) <==>
      HealthcareNote(|Filter(HealthcareTarget, top)|) in r
    ensures (exists i :: 0 <= i < |top| && HealthcareTarget(top[i])) ==>
      r[|r| - 1] == HealthcareNote(|Filter(HealthcareTarget, top)|)
    ensures forall i :: 0 <= i < |r| ==>
      (r[i] in {HighPotentialNote(s.highPotentialTargets), FilterNote, HealthcareNote(|Filter(HealthcareTarget, top)|)})
    ensures forall i, j :: 0 <= i < j < |r| ==> r[i] != r[j]
  {
    var healthcare := Filter(HealthcareTarget, top);
    FilterFacts(HealthcareTarget, top);
    assert healthcare != [] <==> exists i :: 0 <= i < |top| && HealthcareTarget(top[i]) by {
      if healthcare != [] {
        assert healthcare[0] in top;
      }
    }
    var first := if s.highPotentialTargets > 0 then [HighPotentialNote(s.highPotentialTargets)] else [];
    var second := if s.aiWashingFiltered > s.highPotentialTargets then [FilterNote] else [];
    var third := if healthcare != [] then [HealthcareNote(|healthcare|)] else [];
    first + second + third
  }

  // ---------------------------------------------------------------- the engine

  /** The text of the TypeError `None - datetime` raises. */
  const MissingTimestamp := "unsupported operand type(s) for -: 'NoneType' and 'datetime.datetime'"

  /** The records one run keeps after deduplication. */
  function RunRecords(sources: Sources): seq<Company> {
    Distinct(Aggregate(sources), IdentityKey, HasIdentity)
  }

  /** The statistics once a run has discovered, deduplicated and analysed its records,
      starting from `s`: the start time and the pooled count are overwritten, while the
      analysis counters grow from their old values, since nothing resets them between runs. */
  function AfterAnalysis(s: RunStatistics, start: int, sources: Sources, t: TargetCriteria, a: Analyses): RunStatistics {
    Recorded(s.(runStartTime := Some(start), companiesDiscovered := |Aggregate(sources)|),
             Tally(RunRecords(sources), Scoring(t, a).Counted))
  }

  /** Every analysed record of `unique` is stored. */
  predicate AllStored(unique: seq<Company>, t: TargetCriteria, a: Analyses, upsert: Company -> Result<int>) {
    forall i :: 0 <= i < |unique| ==> upsert(AnalyzeOne(unique[i], t, a)).Success?
  }

  /** `e` is the error of the first analysed record of `unique` whose upsert fails. */
  predicate FirstStoreError(unique: seq<Company>, t: TargetCriteria, a: Analyses,
                            upsert: Company -> Result<int>, e: string) {
    exists i :: 0 <= i < |unique| && upsert(AnalyzeOne(unique[i], t, a)) == Failure(e) &&
      forall j :: 0 <= j < i ==> upsert(AnalyzeOne(unique[j], t, a)).Success?
  }

  /** The outcome of storing the analysed records, restated over the records before
      analysis. */
  lemma StoreOutcome(analyzed: seq<Company>, unique: seq<Company>, t: TargetCriteria, a: Analyses,
                     upsert: Company -> Result<int>, error: Option<string>)
    requires |analyzed| == |unique|
    requires forall i :: 0 <= i < |unique| ==> analyzed[i] == AnalyzeOne(unique[i], t, a)
    requires error.None? <==> forall i :: 0 <= i < |analyzed| ==> upsert(analyzed[i]).Success?
    requires error.Some? ==> exists i :: (0 <= i < |analyzed| &&
      upsert(analyzed[i]) == Failure(error.value) &&
      forall j :: 0 <= j < i ==> upsert(analyzed[j]).Success?)
    ensures error.None? <==> AllStored(unique, t, a, upsert)
    ensures error.Some? ==> FirstStoreError(unique, t, a, upsert, error.value)
  {
  }

  class Engine {
    const targets: TargetCriteria
    var stats: RunStatistics

    constructor(config: Config)
      ensures targets == config.targets && stats == InitialStatistics
    {
      targets := config.targets;
      stats := InitialStatistics;
    }

    /** `_discover_companies`: each collector inside its own `try`; the pooled count
        overwrites `companies_discovered`. */
    method DiscoverCompanies(sources: Sources) returns (all: seq<Company>)
      modifies this
      ensures all == Aggregate(sources)
      ensures stats == old(stats).(companiesDiscovered := |all|)
    {
      all := [];
      if sources.yc.Success? {
        all := all + sources.yc.value;
      }
      if sources.geekwire.Success? {
        all := all + sources.geekwire.value;
      }
      if sources.linkedin.Success? {
        all := all + sources.linkedin.value;
      }
      AggregateIsConcatenation(sources);
      assert all == Contribution(sources.yc) + Contribution(sources.geekwire) + Contribution(sources.linkedin);
      stats := stats.(companiesDiscovered := |all|);
    }

    /** `_deduplicate_companies`: one pass with a set of seen keys. */
    method DeduplicateCompanies(companies: seq<Company>) returns (unique: seq<Company>)
      ensures unique == Distinct(companies, IdentityKey, HasIdentity)
    {
      var seen: set<string> := {};
      unique := [];
      var i := 0;
      while i < |companies|
        invariant 0 <= i <= |companies|
        invariant unique == Distinct(companies[..i], IdentityKey, HasIdentity)
        invariant seen == Keys(unique, IdentityKey)
      {
        var company := companies[i];
        TakeSnoc(companies, i);
        DistinctSnoc(companies[..i], company, IdentityKey, HasIdentity);
        var domain := ExtractDomain(company.website);
        var name := Strip(Lower(company.name));
        var key := if domain != [] then domain else name;
        if key != [] && key !in seen {
          seen := seen + {key};
          unique := unique + [company];
        }
        i := i + 1;
      }
      assert companies[..i] == companies;
    }

    /** One pass of the `try` in `_analyze_companies`: score the record, or keep it with
        score 0 and the error text; only a record whose analyses returned is counted. */
    method AnalyzeCompany(company: Company, a: Analyses) returns (record: Company)
      modifies this
      ensures record == AnalyzeOne(company, targets, a)
      ensures stats == Recorded(old(stats), Scoring(targets, a).Counted(company))
    {
      var outcome := a.detect(company);
      if outcome.Failure? {
        return Failed(company, outcome.error);
      }
      var aiScore := outcome.value;
      var scored := WithScore(company, aiScore);
      var githubData := a.github(scored);
      if githubData.Failure? {
        return Failed(company, githubData.error);
      }
      var fitScore := StrategicFit(scored, targets);
      record := scored.(githubAnalysis := Some(githubData.value),
                        strategicFitScore := Some(fitScore),
                        healthcareRelevance := Some(HealthcareRelevant(scored)));
      stats := stats.(companiesAnalyzed := stats.companiesAnalyzed + 1);
      if aiScore >= targets.minAiWashingScore && fitScore >= 7 {
        stats := stats.(highPotentialTargets := stats.highPotentialTargets + 1);
      }
      if aiScore < targets.minAiWashingScore {
        stats := stats.(aiWashingFiltered := stats.aiWashingFiltered + 1);
      }
    }

    /** `_analyze_companies`: every record comes back, in order; the counters grow by what
        the successful records contribute. */
    method Analyze(companies: seq<Company>, a: Analyses) returns (analyzed: seq<Company>)
      modifies this
      ensures |analyzed| == |companies|
      ensures forall i :: 0 <= i < |companies| ==> analyzed[i] == AnalyzeOne(companies[i], targets, a)
      ensures stats == Recorded(old(stats), Tally(companies, Scoring(targets, a).Counted))
    {
      analyzed := [];
      ghost var s0, count := stats, Scoring(targets, a).Counted;
      ghost var n := Counts(0, 0, 0);
      var i := 0;
      while i < |companies|
        invariant 0 <= i <= |companies|
        invariant Pointwise(analyzed, companies[..i], Scoring(targets, a).Analyzed)
        invariant n == Tally(companies[..i], count)
        invariant stats == Recorded(s0, n)
      {
        TallyStep(companies, i, count);
        RecordedPlus(s0, n, count(companies[i]));
        n := n.Plus(count(companies[i]));
        TakeSnoc(companies, i);
        PointwiseSnoc(analyzed, companies[..i], Scoring(targets, a).Analyzed, companies[i]);
        var record := AnalyzeCompany(companies[i], a);
        analyzed := analyzed + [record];
        i := i + 1;
      }
      assert companies[..i] == companies;
    }

    /** `_store_results`: upsert every record in order; the first one that raises ends the
        loop and its error propagates. */
    method StoreResults(companies: seq<Company>, upsert: Company -> Result<int>)
      returns (error: Option<string>)
      ensures error.None? <==> forall i :: 0 <= i < |companies| ==> upsert(companies[i]).Success?
      ensures error.Some? ==> exists i :: (0 <= i < |companies| &&
        upsert(companies[i]) == Failure(error.value) &&
        forall j :: 0 <= j < i ==> upsert(companies[j]).Success?)
    {
      var i := 0;
      while i < |companies|
        invariant 0 <= i <= |companies|
        invariant forall j :: 0 <= j < i ==> upsert(companies[j]).Success?
      {
        var stored := upsert(companies[i]);
        if stored.Failure? {
          return Some(stored.error);
        }
        i := i + 1;
      }
      return None;
    }

    /** `_generate_discovery_report`: the runtime needs both timestamps (subtracting a
        missing one raises), then the top targets come from the database. */
    method GenerateDiscoveryReport(now: int, top: Result<seq<Company>>) returns (r: Result<Report>)
      ensures stats.runStartTime.None? || stats.runEndTime.None? ==> r == Failure(MissingTimestamp)
      ensures stats.runStartTime.Some? && stats.runEndTime.Some? && top.Failure? ==> r == Failure(top.error)
      ensures r.Success? ==>
        top.Success? && stats.runStartTime.Some? && stats.runEndTime.Some? &&
        r.value.runtimeSeconds == stats.runEndTime.value - stats.runStartTime.value &&
        r.value.statistics == stats && r.value.topTargets == top.value &&
        r.value.recommendations == Recommendations(stats, top.value)
      ensures stats.runStartTime.Some? && stats.runEndTime.Some? && top.Success? ==> r.Success?
    {
      if stats.runStartTime.None? || stats.runEndTime.None? {
        return Failure(MissingTimestamp);
      }
      var runtime := stats.runEndTime.value - stats.runStartTime.value;
      if top.Failure? {
        return Failure(top.error);
      }
      r := Success(Report(now, runtime, stats, top.value, Recommendations(stats, top.value)));
    }

    /** `run_daily_discovery` as written: the end time is recorded only after the report,
        which already needed it, so on an engine whose end time was never recorded (every
        engine, from construction on) the run raises and the end time stays unrecorded.
        `finish` stands for both clock readings taken after the analysis, the report's date
        and the end time; the source reads the clock twice, a moment apart. */
    method RunDailyDiscovery(start: int, finish: int, sources: Sources, a: Analyses,
                             upsert: Company -> Result<int>, top: Result<seq<Company>>)
      returns (r: Result<Report>)
      modifies this
      ensures old(stats.runEndTime).None? ==> r.Failure? && stats.runEndTime.None?
      ensures !AllStored(RunRecords(sources), targets, a, upsert) ==>
        r.Failure? && FirstStoreError(RunRecords(sources), targets, a, upsert, r.error)
      ensures AllStored(RunRecords(sources), targets, a, upsert) && old(stats.runEndTime).None? ==>
        r == Failure(MissingTimestamp)
      ensures r.Failure? ==> stats == AfterAnalysis(old(stats), start, sources, targets, a)
      ensures r.Success? ==> stats == AfterAnalysis(old(stats), start, sources, targets, a).(runEndTime := Some(finish))
      ensures stats.runStartTime == Some(start)
      ensures stats.companiesDiscovered == |Aggregate(sources)|
      ensures old(stats) == InitialStatistics ==>
        Consistent(stats) && stats.companiesAnalyzed <= stats.companiesDiscovered
    {
      ghost var mid := AfterAnalysis(stats, start, sources, targets, a);
      stats := stats.(runStartTime := Some(start));
      var companies := DiscoverCompanies(sources);
      var unique := DeduplicateCompanies(companies);
      DistinctLength(companies, IdentityKey, HasIdentity);
      RecordedTally(stats, unique, Scoring(targets, a));
      var analyzed := Analyze(unique, a);
      assert stats == mid;
      var error := StoreResults(analyzed, upsert);
      StoreOutcome(analyzed, unique, targets, a, upsert, error);
      if error.Some? {
        return Failure(error.value);
      }
      r := GenerateDiscoveryReport(finish, top);
      if r.Failure? {
        return;
      }
      stats := stats.(runEndTime := Some(finish));
    }

    /** The run with the end time recorded before the report reads it: it fails only when
        storing a record or reading the top targets fails, and the report's runtime is the
        run's duration. `finish` is both the end time and the report's date. */
    method RunDailyDiscoveryCorrected(start: int, finish: int, sources: Sources, a: Analyses,
                                      upsert: Company -> Result<int>, top: Result<seq<Company>>)
      returns (r: Result<Report>)
      modifies this
      ensures !AllStored(RunRecords(sources), targets, a, upsert) ==>
        r.Failure? && FirstStoreError(RunRecords(sources), targets, a, upsert, r.error) &&
        stats == AfterAnalysis(old(stats), start, sources, targets, a)
      ensures AllStored(RunRecords(sources), targets, a, upsert) ==>
        stats == AfterAnalysis(old(stats), start, sources, targets, a).(runEndTime := Some(finish))
      ensures AllStored(RunRecords(sources), targets, a, upsert) && top.Failure? ==> r == Failure(top.error)
      ensures AllStored(RunRecords(sources), targets, a, upsert) && top.Success? ==> r.Success?
      ensures r.Success? ==>
        r.value.runtimeSeconds == finish - start && r.value.statistics == stats &&
        r.value.topTargets == top.value && r.value.recommendations == Recommendations(stats, top.value) &&
        stats.runStartTime == Some(start) && stats.runEndTime == Some(finish)
      ensures stats.companiesDiscovered == |Aggregate(sources)|
      ensures old(stats) == InitialStatistics ==>
        Consistent(stats) && stats.companiesAnalyzed <= stats.companiesDiscovered
    {
      ghost var mid := AfterAnalysis(stats, start, sources, targets, a);
      stats := stats.(runStartTime := Some(start));
      var companies := DiscoverCompanies(sources);
      var unique := DeduplicateCompanies(companies);
      DistinctLength(companies, IdentityKey, HasIdentity);
      RecordedTally(stats, unique, Scoring(targets, a));
      var analyzed := Analyze(unique, a);
      assert stats == mid;
      var error := StoreResults(analyzed, upsert);
      StoreOutcome(analyzed, unique, targets, a, upsert, error);
      if error.Some? {
        return Failure(error.value);
      }
      stats := stats.(runEndTime := Some(finish));
      r := GenerateDiscoveryReport(finish, top);
    }
  }
}
