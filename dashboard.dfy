/** The dashboard generator: the statistics shown in its header, the cards of the top
    companies and the score classes those cards carry. Rows come from the database query
    for the top companies, so every column is present and a NULL column is `None`; the
    defaults passed to `dict.get` never apply, and a NULL that reaches a comparison, a
    `lower()` or a `len()` raises, which ends the generation. */
module Dashboard {
  import opened Wrappers
  import opened Text

  /** The columns of a company row the dashboard reads. `name` is NOT NULL in the table. */
  datatype Row = Row(
    name: string,
    website: Option<string>,
    description: Option<string>,
    location: Option<string>,
    aiWashingScore: Option<int>,
    strategicFitScore: Option<int>,
    healthcareRelevance: Option<bool>)

  /** The exceptions a NULL column raises. */
  const NoneCompared := "'>=' not supported between instances of 'NoneType' and 'int'"
  const NoneLowered := "'NoneType' object has no attribute 'lower'"
  const NoneMeasured := "object of type 'NoneType' has no len()"

  // ---------------------------------------------------------------- all-or-first-failure

  /** Index `i` holds the first exception `f` raises over `xs`, and it is `e`. */
  ghost predicate FirstFailure<T, U>(xs: seq<T>, f: T -> Result<U>, e: string) {
    exists i :: 0 <= i < |xs| && f(xs[i]) == Failure(e) && forall j :: 0 <= j < i ==> f(xs[j]).Success?
  }

  lemma FirstFailureExtends<T, U>(xs: seq<T>, f: T -> Result<U>, e: string)
    requires xs != [] && FirstFailure(xs[..|xs| - 1], f, e)
    ensures FirstFailure(xs, f, e)
  {
    var init := xs[..|xs| - 1];
    var i :| 0 <= i < |init| && f(init[i]) == Failure(e) && forall j :: 0 <= j < i ==> f(init[j]).Success?;
    assert f(xs[i]) == Failure(e);
    forall j | 0 <= j < i ensures f(xs[j]).Success? {
      assert xs[j] == init[j];
    }
  }

  lemma FirstFailureAtEnd<T, U>(xs: seq<T>, f: T -> Result<U>, e: string)
    requires xs != [] && f(xs[|xs| - 1]) == Failure(e)
    requires forall j :: 0 <= j < |xs| - 1 ==> f(xs[j]).Success?
    ensures FirstFailure(xs, f, e)
  {
  }

  /** `[f(x) for x in xs]`, or the first exception `f` raises. */
  function MapAll<T, U>(xs: seq<T>, f: T -> Result<U>): (r: Result<seq<U>>)
    ensures r.Success? <==> forall i :: 0 <= i < |xs| ==> f(xs[i]).Success?
    ensures r.Success? ==> |r.value| == |xs| && forall i :: 0 <= i < |xs| ==> f(xs[i]) == Success(r.value[i])
    ensures r.Failure? ==> FirstFailure(xs, f, r.error)
    decreases |xs|
  {
    if xs == [] then Success([])
    else
      var init := MapAll(xs[..|xs| - 1], f);
      assert forall i :: 0 <= i < |xs| - 1 ==> xs[..|xs| - 1][i] == xs[i];
      if init.Failure? then
        FirstFailureExtends(xs, f, init.error);
        init
      else
        match f(xs[|xs| - 1])
        case Failure(e) =>
          FirstFailureAtEnd(xs, f, e);
          Failure(e)
        case Success(y) => Success(init.value + [y])
  }

  lemma MapAllSnoc<T, U>(xs: seq<T>, i: nat, f: T -> Result<U>)
    requires i < |xs|
    ensures MapAll(xs[..i + 1], f) ==
      match MapAll(xs[..i], f)
      case Failure(e) => Failure(e)
      case Success(ys) => (match f(xs[i]) case Failure(e) => Failure(e) case Success(y) => Success(ys + [y]))
  {
    assert xs[..i + 1][..i] == xs[..i];
  }

  /** `len([x for x in xs if test(x)])`, or the first exception the test raises. */
  function CountWhere<T>(xs: seq<T>, test: T -> Result<bool>): (r: Result<nat>)
    ensures r.Success? <==> forall i :: 0 <= i < |xs| ==> test(xs[i]).Success?
    ensures r.Success? ==> r.value <= |xs|
    ensures r.Failure? ==> FirstFailure(xs, test, r.error)
    decreases |xs|
  {
    if xs == [] then Success(0)
    else
      var init := CountWhere(xs[..|xs| - 1], test);
      assert forall i :: 0 <= i < |xs| - 1 ==> xs[..|xs| - 1][i] == xs[i];
      if init.Failure? then
        FirstFailureExtends(xs, test, init.error);
        init
      else
        match test(xs[|xs| - 1])
        case Failure(e) =>
          FirstFailureAtEnd(xs, test, e);
          Failure(e)
        case Success(hit) => Success(init.value + if hit then 1 else 0)
  }

  /** Every row is counted exactly when the test holds of every row, and none is counted
      exactly when it holds of none. */
  lemma {:induction false} CountWhereExtremes<T>(xs: seq<T>, test: T -> Result<bool>)
    requires CountWhere(xs, test).Success?
    ensures CountWhere(xs, test).value == |xs| <==> forall i :: 0 <= i < |xs| ==> test(xs[i]) == Success(true)
    ensures CountWhere(xs, test).value == 0 <==> forall i :: 0 <= i < |xs| ==> test(xs[i]) == Success(false)
    decreases |xs|
  {
    if xs != [] {
      var init := xs[..|xs| - 1];
      CountWhereExtremes(init, test);
      assert forall i :: 0 <= i < |init| ==> init[i] == xs[i];
      var n := CountWhere(init, test).value;
      assert n <= |init|;
    }
  }

  /** Counting over a concatenation adds the counts of the two parts. */
  lemma {:induction false} CountWhereAppend<T>(xs: seq<T>, ys: seq<T>, test: T -> Result<bool>)
    ensures CountWhere(xs + ys, test).Success? <==> CountWhere(xs, test).Success? && CountWhere(ys, test).Success?
    ensures CountWhere(xs + ys, test).Success? ==>
      CountWhere(xs + ys, test).value == CountWhere(xs, test).value + CountWhere(ys, test).value
    decreases |ys|
  {
    if ys == [] {
      assert xs + ys == xs;
    } else {
      var init := ys[..|ys| - 1];
      CountWhereAppend(xs, init, test);
      assert (xs + ys)[..|xs + ys| - 1] == xs + init;
      assert (xs + ys)[|xs + ys| - 1] == ys[|ys| - 1];
      assert forall i :: 0 <= i < |ys| ==> (xs + ys)[|xs| + i] == ys[i];
      assert forall i :: 0 <= i < |init| ==> init[i] == ys[i];
    }
  }

  // ---------------------------------------------------------------- statistics

  /** The four counters shown above the cards. */
  datatype Stats = Stats(totalCompanies: nat, highPotential: nat, healthcareCompanies: nat, seattleCompanies: nat)

  /** `ai_washing_score >= 7 and strategic_fit_score >= 7`; the fit score is only compared
      when the AI score passed. */
  function HighPotentialTest(r: Row): (b: Result<bool>)
    ensures b == Success(true) <==> r.aiWashingScore.Some? && r.aiWashingScore.value >= 7 &&
                                    r.strategicFitScore.Some? && r.strategicFitScore.value >= 7
    ensures b.Failure? <==> r.aiWashingScore.None? || (r.aiWashingScore.value >= 7 && r.strategicFitScore.None?)
    ensures b.Failure? ==> b.error == NoneCompared
  {
    match r.aiWashingScore
    case None => Failure(NoneCompared)
    case Some(ai) =>
      if ai < 7 then Success(false)
      else
        match r.strategicFitScore
        case None => Failure(NoneCompared)
        case Some(fit) => Success(fit >= 7)
  }

  /** `healthcare_relevance` is truthy; a NULL is falsy. */
  function HealthcareTest(r: Row): (b: Result<bool>)
    ensures b.Success? && (b.value <==> r.healthcareRelevance == Some(true))
  {
    Success(r.healthcareRelevance.GetOr(false))
  }

  /** `location.lower().find('seattle') >= 0`: the location mentions Seattle in any case. */
  function SeattleTest(r: Row): (b: Result<bool>)
    ensures b.Success? <==> r.location.Some?
    ensures b.Success? ==> (b.value <==> Contains(Lower(r.location.value), "seattle"))
    ensures b.Failure? ==> b.error == NoneLowered
  {
    match r.location
    case None => Failure(NoneLowered)
    case Some(loc) => Success(IndexOf(Lower(loc), "seattle") >= 0)
  }

  /** `_calculate_stats`: the high-potential count is taken first, then healthcare, then
      Seattle, so a NULL score is reported before a NULL location. */
  function CalculateStats(rows: seq<Row>): (r: Result<Stats>)
    ensures r.Success? <==>
      forall i :: 0 <= i < |rows| ==> HighPotentialTest(rows[i]).Success? && rows[i].location.Some?
    ensures r.Success? ==>
      r.value.totalCompanies == |rows| && r.value.highPotential <= |rows| &&
      r.value.healthcareCompanies <= |rows| && r.value.seattleCompanies <= |rows|
    ensures (exists i :: 0 <= i < |rows| && HighPotentialTest(rows[i]).Failure?) ==> r == Failure(NoneCompared)
    ensures r.Failure? ==> r.error == NoneCompared || r.error == NoneLowered
  {
    var high := CountWhere(rows, HighPotentialTest);
    var healthcare := CountWhere(rows, HealthcareTest);
    var seattle := CountWhere(rows, SeattleTest);
    if high.Failure? then
      ghost var i :| 0 <= i < |rows| && HighPotentialTest(rows[i]) == Failure(high.error) &&
                     forall j :: 0 <= j < i ==> HighPotentialTest(rows[j]).Success?;
      Failure(high.error)
    else if seattle.Failure? then
      ghost var i :| 0 <= i < |rows| && SeattleTest(rows[i]) == Failure(seattle.error) &&
                     forall j :: 0 <= j < i ==> SeattleTest(rows[j]).Success?;
      Failure(seattle.error)
    else
      Success(Stats(|rows|, high.value, healthcare.value, seattle.value))
  }

  /** The statistics of two batches of rows add up to those of the rows together, and the
      rows together can be counted exactly when each batch can. */
  lemma StatsAppend(xs: seq<Row>, ys: seq<Row>)
    ensures CalculateStats(xs + ys).Success? <==> CalculateStats(xs).Success? && CalculateStats(ys).Success?
    ensures CalculateStats(xs + ys).Success? ==>
      var s, a, b := CalculateStats(xs + ys).value, CalculateStats(xs).value, CalculateStats(ys).value;
      s.totalCompanies == a.totalCompanies + b.totalCompanies &&
      s.highPotential == a.highPotential + b.highPotential &&
      s.healthcareCompanies == a.healthcareCompanies + b.healthcareCompanies &&
      s.seattleCompanies == a.seattleCompanies + b.seattleCompanies
  {
    CountWhereAppend(xs, ys, HighPotentialTest);
    CountWhereAppend(xs, ys, HealthcareTest);
    CountWhereAppend(xs, ys, SeattleTest);
  }

  /** Every row counts as high potential exactly when every row has both scores at 7 or
      more, and none does exactly when no row has. */
  lemma HighPotentialExtremes(rows: seq<Row>)
    requires CalculateStats(rows).Success?
    ensures CalculateStats(rows).value.highPotential == |rows| <==>
      forall i :: 0 <= i < |rows| ==> rows[i].aiWashingScore.value >= 7 && rows[i].strategicFitScore.value >= 7
    ensures CalculateStats(rows).value.highPotential == 0 <==>
      forall i :: 0 <= i < |rows| ==> HighPotentialTest(rows[i]) == Success(false)
  {
    CountWhereExtremes(rows, HighPotentialTest);
  }

  // ---------------------------------------------------------------- score classes

  /** The CSS class a score is shown with. */
  datatype ScoreClass = ScoreLow | ScoreMedium | ScoreHigh {
    function CssName(): string {
      match this
      case ScoreLow => "score-low"
      case ScoreMedium => "score-medium"
      case ScoreHigh => "score-high"
    }

    function Rank(): nat {
      match this
      case ScoreLow => 0
      case ScoreMedium => 1
      case ScoreHigh => 2
    }
  }

  /** `_get_score_class`: 8 and above is high, 6 and 7 are medium, the rest is low. */
  function ClassOf(score: int): (c: ScoreClass)
    ensures c == ScoreHigh <==> score >= 8
    ensures c == ScoreMedium <==> 6 <= score < 8
    ensures c == ScoreLow <==> score < 6
  {
    if score >= 8 then ScoreHigh
    else if score >= 6 then ScoreMedium
    else ScoreLow
  }

  /** A higher score never gets a lower class. */
  lemma ClassMonotone(s: int, t: int)
    requires s <= t
    ensures ClassOf(s).Rank() <= ClassOf(t).Rank()
  {
  }

  // ---------------------------------------------------------------- cards

  /** How many characters of a description a card shows before the ellipsis. */
  const DescriptionLimit := 150
  const Ellipsis := "..."

  /** A description longer than the limit is cut to the limit and marked with an ellipsis. */
  function Truncate(d: string): (r: string)
    ensures |r| <= DescriptionLimit + |Ellipsis|
    ensures |d| <= DescriptionLimit ==> r == d
    ensures |d| > DescriptionLimit ==>
      |r| == DescriptionLimit + |Ellipsis| && r[..DescriptionLimit] == d[..DescriptionLimit] &&
      r[DescriptionLimit..] == Ellipsis
  {
    if |d| > DescriptionLimit then d[..DescriptionLimit] + Ellipsis else d
  }

  /** Truncating a shown description again changes nothing. */
  lemma TruncateIdempotent(d: string)
    ensures Truncate(Truncate(d)) == Truncate(d)
  {
    if |d| > DescriptionLimit {
      var r := Truncate(d);
      assert r[..DescriptionLimit] + Ellipsis == r;
    }
  }

  /** Whatever the description, the card starts with its first characters, up to the limit. */
  lemma TruncateKeepsStart(d: string, k: nat)
    requires k <= |d| && k <= DescriptionLimit
    ensures k <= |Truncate(d)| && Truncate(d)[..k] == d[..k]
  {
    if |d| > DescriptionLimit {
      assert Truncate(d)[..k] == Truncate(d)[..DescriptionLimit][..k];
    }
  }

  /** The parts of a card the model keeps: the name, both scores with their classes, the
      shown description, whether the healthcare badge appears and the linked website. */
  datatype Card = Card(
    name: string,
    aiScore: int,
    aiClass: ScoreClass,
    fitScore: int,
    fitClass: ScoreClass,
    description: string,
    healthcareBadge: bool,
    website: Option<string>)

  /** `_create_company_card`: the AI class is computed first, then the fit class, then the
      description is measured; a NULL in any of them raises. An empty or NULL website
      gets no link. */
  function CardFor(r: Row): (c: Result<Card>)
    ensures c.Success? <==> r.aiWashingScore.Some? && r.strategicFitScore.Some? && r.description.Some?
    ensures c.Success? ==>
      c.value.aiClass == ClassOf(r.aiWashingScore.value) && c.value.fitClass == ClassOf(r.strategicFitScore.value) &&
      c.value.description == Truncate(r.description.value) &&
      (c.value.healthcareBadge <==> r.healthcareRelevance == Some(true)) &&
      (c.value.website.Some? <==> r.website.Some? && r.website.value != [])
    ensures r.aiWashingScore.None? || r.strategicFitScore.None? ==> c == Failure(NoneCompared)
    ensures r.aiWashingScore.Some? && r.strategicFitScore.Some? && r.description.None? ==> c == Failure(NoneMeasured)
  {
    match (r.aiWashingScore, r.strategicFitScore, r.description)
    case (None, _, _) => Failure(NoneCompared)
    case (_, None, _) => Failure(NoneCompared)
    case (_, _, None) => Failure(NoneMeasured)
    case (Some(ai), Some(fit), Some(d)) =>
      var link := if r.website.GetOr([]) == [] then None else r.website;
      Success(Card(r.name, ai, ClassOf(ai), fit, ClassOf(fit), Truncate(d), r.healthcareRelevance == Some(true), link))
  }

  /** How many cards the page renders before any filtering. */
  const InitialCards := 20

  function Shown(n: nat): (k: nat)
    ensures k <= n && k <= InitialCards
    ensures k == n || k == InitialCards
  {
    if n < InitialCards then n else InitialCards
  }

  /** `_generate_html`'s card loop over `companies[:20]`: the cards of the first twenty
      rows, in order, or the first exception one of them raises. */
  method RenderCards(rows: seq<Row>) returns (r: Result<seq<Card>>)
    ensures r == MapAll(rows[..Shown(|rows|)], CardFor)
    ensures r.Success? ==>
      |r.value| == Shown(|rows|) && |r.value| <= InitialCards &&
      forall i :: 0 <= i < |r.value| ==> CardFor(rows[i]) == Success(r.value[i])
    ensures r.Success? <==> forall i :: 0 <= i < Shown(|rows|) ==> CardFor(rows[i]).Success?
  {
    var shown := rows[..Shown(|rows|)];
    var cards: seq<Card> := [];
    var i := 0;
    while i < |shown|
      invariant 0 <= i <= |shown|
      invariant MapAll(shown[..i], CardFor) == Success(cards)
    {
      MapAllSnoc(shown, i, CardFor);
      var card := CardFor(shown[i]);
      if card.Failure? {
        r := Failure(card.error);
        MapAllFailed(shown, i + 1, CardFor);
        return;
      }
      cards := cards + [card.value];
      i := i + 1;
    }
    assert shown[..i] == shown;
    r := Success(cards);
  }

  /** Once a prefix fails, the whole sequence fails with the same exception. */
  lemma {:induction false} MapAllFailed<T, U>(xs: seq<T>, n: nat, f: T -> Result<U>)
    requires n <= |xs| && MapAll(xs[..n], f).Failure?
    ensures MapAll(xs, f) == MapAll(xs[..n], f)
    decreases |xs| - n
  {
    if n == |xs| {
      assert xs[..n] == xs;
    } else {
      MapAllSnoc(xs, n, f);
      MapAllFailed(xs, n + 1, f);
    }
  }

  /** What the page shows: the counters, the rendered cards and every fetched row for the
      page's own filtering. */
  datatype Page = Page(stats: Stats, cards: seq<Card>, companies: seq<Row>)

  /** The page template's style sheet opens with `body {` followed by a newline and
      `font-family:`. `str.format` reads that single brace as a replacement field
      named by the text up to the colon. No such keyword is passed, so formatting
      raises `KeyError` with this text. */
  const TemplateKeyError := "'\\n            font-family'"

  /** `generate_dashboard` as written, without the file it would write. It fetches the top
      companies, computes the statistics and renders the cards, and the first exception
      ends the generation. When all three succeed, formatting the template raises
      `KeyError`, so no page is ever produced. */
  method GenerateDashboardAsWritten(fetched: Result<seq<Row>>) returns (r: Result<Page>)
    ensures r.Failure?
    ensures fetched.Failure? ==> r == Failure(fetched.error)
    ensures fetched.Success? && CalculateStats(fetched.value).Failure? ==> r == Failure(CalculateStats(fetched.value).error)
    ensures (fetched.Success? && CalculateStats(fetched.value).Success? &&
             MapAll(fetched.value[..Shown(|fetched.value|)], CardFor).Failure?) ==>
      r == Failure(MapAll(fetched.value[..Shown(|fetched.value|)], CardFor).error)
    ensures (fetched.Success? && CalculateStats(fetched.value).Success? &&
             MapAll(fetched.value[..Shown(|fetched.value|)], CardFor).Success?) ==>
      r == Failure(TemplateKeyError)
  {
    var page := GenerateDashboard(fetched);
    if page.Failure? {
      return Failure(page.error);
    }
    r := Failure(TemplateKeyError);
  }

  /** `generate_dashboard` with the template's literal braces doubled, without the file it
      writes. It fetches the top companies (or takes the exception fetching them raised),
      then computes the statistics, then renders the cards; the first exception ends the
      generation. */
  method GenerateDashboard(fetched: Result<seq<Row>>) returns (r: Result<Page>)
    ensures fetched.Failure? ==> r == Failure(fetched.error)
    ensures fetched.Success? && CalculateStats(fetched.value).Failure? ==> r == Failure(CalculateStats(fetched.value).error)
    ensures (fetched.Success? && CalculateStats(fetched.value).Success? &&
             MapAll(fetched.value[..Shown(|fetched.value|)], CardFor).Failure?) ==>
      r == Failure(MapAll(fetched.value[..Shown(|fetched.value|)], CardFor).error)
    ensures r.Success? <==>
      fetched.Success? && CalculateStats(fetched.value).Success? &&
      MapAll(fetched.value[..Shown(|fetched.value|)], CardFor).Success?
    ensures r.Success? ==>
      r.value.companies == fetched.value && r.value.stats == CalculateStats(fetched.value).value &&
      r.value.stats.totalCompanies == |r.value.companies| && |r.value.cards| == Shown(|r.value.companies|) &&
      forall i :: 0 <= i < |r.value.cards| ==> CardFor(r.value.companies[i]) == Success(r.value.cards[i])
  {
    if fetched.Failure? {
      return Failure(fetched.error);
    }
    var rows := fetched.value;
    var stats := CalculateStats(rows);
    if stats.Failure? {
      return Failure(stats.error);
    }
    var cards := RenderCards(rows);
    if cards.Failure? {
      return Failure(cards.error);
    }
    r := Success(Page(stats.value, cards.value, rows));
  }

  /** A complete row: every column the dashboard reads is present. */
  const CompleteRow := Row("Acme", Some("https://acme.example"), Some("Builds ML models."),
                           Some("Seattle, WA"), Some(8), Some(7), Some(true))

  /** A single complete row passes the statistics and renders its card. So the corrected
      generation returns a page for it, while the generation as written raises `KeyError`. */
  lemma CompleteRowRenders()
    ensures CalculateStats([CompleteRow]).Success?
    ensures MapAll([CompleteRow][..Shown(1)], CardFor).Success?
  {
    assert [CompleteRow][..Shown(1)] == [CompleteRow];
  }
}
