/** AI-washing detection: four sub-scores (engineering blog, job postings, GitHub
    presence, marketing copy), each in [0, 10], combined with weights 0.3, 0.25, 0.25 and
    0.2 into a score in [1, 10], higher meaning more authentic AI work. Page fetches, the
    anchors and GitHub links found in a page, the organisation endpoint, the repository
    listing and the job-board search are the oracles of `Environment`. Scores are exact
    reals rather than doubles, so a score truncated to an integer can come out one higher
    than the double arithmetic gives when the weighted sum lands just below an integer. */
module AiWashingDetector {
  import opened Wrappers
  import opened Text
  import opened Dedup
  import Settings
  import GitHubAnalyzer
  import opened Records

  function MinR(a: real, b: real): real { GitHubAnalyzer.MinR(a, b) }

  function MaxR(a: real, b: real): real { GitHubAnalyzer.MaxR(a, b) }

  /** An `<a href=...>` element: its `href` and its text. */
  datatype Anchor = Anchor(href: string, text: string)

  /** The outside world as the detector sees it. `fetch` is `_get_page_content`: the text of
      a page, "" when it cannot be fetched. `anchorsIn` and `githubCaptures` are the HTML
      parser's anchors and the `github\.com/(name)` captures found in such a text. Since the
      fetched text is the page's visible text with its tags removed, a parser run on it finds
      hardly any anchors, so the fallback paths usually decide. `orgExists`
      is the organisation endpoint's answer (asked only with a token), `listRepos` the
      repository listing of an organisation, `jobTitles` the job-board search by name. */
  datatype Environment = Environment(
    hasGithubToken: bool,
    fetch: string -> string,
    anchorsIn: string -> seq<Anchor>,
    githubCaptures: string -> seq<string>,
    orgExists: string -> bool,
    listRepos: string -> GitHubAnalyzer.PageResponse,
    jobTitles: string -> seq<string>)

  // ---------------------------------------------------------------- blog post

  /** `re.search(r'w1\s+w2...')` anchored at the start of `s`: the words in order, separated
      by whitespace runs (each word starts with a letter, so a run is consumed whole). */
  predicate WordsAt(s: string, words: seq<string>)
    decreases |words|
  {
    if words == [] then true
    else
      StartsWith(s, words[0]) &&
      (|words| == 1 ||
       (var t := s[|words[0]|..];
        |t| > 0 && IsSpace(t[0]) && WordsAt(LStrip(t), words[1..])))
  }

  /** `re.search` of such a pattern anywhere in `s`. */
  predicate SearchWords(s: string, words: seq<string>)
    decreases |s|
  {
    WordsAt(s, words) || (|s| > 0 && SearchWords(s[1..], words))
  }

  /** Number of patterns found in `text`. */
  function CountSearches(text: string, patterns: seq<seq<string>>): (n: nat)
    ensures n <= |patterns|
  {
    if patterns == [] then 0
    else
      CountSearches(text, patterns[..|patterns| - 1])
      + (if SearchWords(text, patterns[|patterns| - 1]) then 1 else 0)
  }

  const TechnicalPatterns: seq<seq<string>> := [
    ["model", "accuracy"], ["precision", "and", "recall"], ["training", "loss"],
    ["hyperparameter"], ["feature", "engineering"], ["data", "preprocessing"],
    ["model", "deployment"], ["inference", "latency"]]

  /** Code blocks or a GitHub link: `<code>` and the fence are looked up case-sensitively. */
  predicate HasCodeMarker(content: string) {
    Contains(content, "<code>") || Contains(content, "```") || Contains(Lower(content), "github.com")
  }

  /** `_score_blog_post_content`: half a point per positive term (at most 6), minus one per
      negative term, half a point per technical pattern (at most 3), one for a code marker,
      clamped to [0, 10]. */
  function BlogPostScore(content: string): (s: real)
    ensures content == [] ==> s == 0.0
    ensures 0.0 <= s <= 10.0
  {
    if content == [] then 0.0
    else
      var low := Lower(content);
      var positive := CountContained(low, Settings.PositiveBlogTerms());
      var negative := CountContained(low, Settings.NegativeBlogTerms());
      var technical := CountSearches(low, TechnicalPatterns);
      var raw := MinR(6.0, 0.5 * positive as real) - negative as real
        + MinR(3.0, 0.5 * technical as real) + (if HasCodeMarker(content) then 1.0 else 0.0);
      MaxR(0.0, MinR(10.0, raw))
  }

  /** The table terms are matched against the lower-cased post, so the four negative terms
      written with capitals ("ChatGPT integration", "OpenAI API", "AI-powered",
      "AI transformation") never match and the penalty is at most 3; likewise "MLOps" and
      "A/B testing" never count as positive. */
  lemma CapitalisedTermsNeverMatch(content: string)
    ensures CountContained(Lower(content), Settings.NegativeBlogTerms()) <= 3
    ensures CountContained(Lower(content), Settings.PositiveBlogTerms()) <= 14
  {
    var neg := Settings.NegativeBlogTerms();
    forall k | k in {0, 1, 3, 6}
      ensures k < |neg| && !Contains(Lower(content), neg[k])
    {
      assert IsUpper(neg[k][0]);
      UpperNeverInLowered(content, neg[k]);
    }
    assert |{0, 1, 3, 6}| == 4;
    CountContainedSkips(Lower(content), neg, {0, 1, 3, 6});
    var pos := Settings.PositiveBlogTerms();
    forall k | k in {10, 12}
      ensures k < |pos| && !Contains(Lower(content), pos[k])
    {
      assert IsUpper(pos[k][0]);
      UpperNeverInLowered(content, pos[k]);
    }
    CountContainedSkips(Lower(content), pos, {10, 12});
  }

  /** Without a negative term the clamp never binds: the score is the capped sum. */
  lemma BlogPostScoreWithoutPenalty(content: string)
    requires content != []
    requires !AnyContained(Lower(content), Settings.NegativeBlogTerms())
    ensures BlogPostScore(content) ==
      MinR(6.0, 0.5 * CountContained(Lower(content), Settings.PositiveBlogTerms()) as real)
      + MinR(3.0, 0.5 * CountSearches(Lower(content), TechnicalPatterns) as real)
      + (if HasCodeMarker(content) then 1.0 else 0.0)
  {
  }

  // ---------------------------------------------------------------- finding the blog

  const BlogKeywords: seq<string> := ["blog", "engineering", "technical", "tech"]

  const BlogPaths: seq<string> := [
    "/blog", "/engineering", "/tech", "/blog/engineering",
    "/technical-blog", "/dev-blog", "/engineering-blog"]

  /** The URL one anchor contributes: the lower-cased `href` or text must mention a blog
      keyword; a site-relative `href` is appended to `base`, an `http...` one is kept, any
      other is skipped. */
  function AnchorUrl(base: string, a: Anchor): (u: Option<string>)
    ensures u.Some? ==>
      AnyContained(Lower(a.href), BlogKeywords) || AnyContained(Lower(a.text), BlogKeywords)
    ensures u.Some? ==>
      (StartsWith(Lower(a.href), "/") && u.value == base + Lower(a.href)) ||
      (StartsWith(Lower(a.href), "http") && u.value == Lower(a.href))
  {
    var href := Lower(a.href);
    var text := Lower(a.text);
    if !(AnyContained(href, BlogKeywords) || AnyContained(text, BlogKeywords)) then None
    else if StartsWith(href, "/") then Some(base + href)
    else if StartsWith(href, "http") then Some(href)
    else None
  }

  /** The URLs of the qualifying anchors, in page order, repeats included. */
  function AnchorUrls(base: string, anchors: seq<Anchor>): seq<string>
    decreases |anchors|
  {
    if anchors == [] then []
    else
      var u := AnchorUrl(base, anchors[|anchors| - 1]);
      AnchorUrls(base, anchors[..|anchors| - 1]) + (if u.Some? then [u.value] else [])
  }

  function FallbackUrls(base: string): (r: seq<string>)
    ensures |r| == |BlogPaths|
    ensures forall k :: 0 <= k < |r| ==> r[k] == base + BlogPaths[k]
  {
    seq(|BlogPaths|, k requires 0 <= k < |BlogPaths| => base + BlogPaths[k])
  }

  function Take<T>(xs: seq<T>, n: nat): (r: seq<T>)
    ensures |r| <= n && r <= xs
    ensures |xs| >= n ==> |r| == n
  {
    if |xs| <= n then xs else xs[..n]
  }

  /** The anchors the home page offers: none when it could not be fetched. */
  function HomeAnchors(website: string, env: Environment): seq<Anchor> {
    var main := env.fetch(website);
    if main != [] then env.anchorsIn(main) else []
  }

  /** `_find_engineering_blog`: the distinct qualifying anchor URLs, or the seven fixed
      paths under the base when none qualifies, cut to five. */
  function BlogUrlsFor(website: string, env: Environment): seq<string> {
    var base := RStripChar(website, '/');
    var found := Nub(AnchorUrls(base, HomeAnchors(website, env)));
    Take(if found == [] then FallbackUrls(base) else found, 5)
  }

  lemma AnchorUrlsStep(base: string, anchors: seq<Anchor>, i: nat)
    requires i < |anchors|
    ensures AnchorUrls(base, anchors[..i + 1]) == AnchorUrls(base, anchors[..i]) +
      (if AnchorUrl(base, anchors[i]).Some? then [AnchorUrl(base, anchors[i]).value] else [])
  {
    assert anchors[..i + 1][..i] == anchors[..i];
  }

  /** The anchor loop: each qualifying URL is appended unless already present. */
  method CollectBlogLinks(base: string, anchors: seq<Anchor>) returns (urls: seq<string>)
    ensures urls == Nub(AnchorUrls(base, anchors))
  {
    urls := [];
    var i := 0;
    while i < |anchors|
      invariant 0 <= i <= |anchors|
      invariant urls == Nub(AnchorUrls(base, anchors[..i]))
    {
      AnchorUrlsStep(base, anchors, i);
      var u := AnchorUrl(base, anchors[i]);
      if u.Some? {
        NubStep(AnchorUrls(base, anchors[..i]), u.value);
        if u.value !in urls {
          urls := urls + [u.value];
        }
      } else {
        assert AnchorUrls(base, anchors[..i]) + [] == AnchorUrls(base, anchors[..i]);
      }
      i := i + 1;
    }
    assert anchors[..i] == anchors;
  }

  method FindEngineeringBlog(website: string, env: Environment) returns (urls: seq<string>)
    ensures urls == BlogUrlsFor(website, env)
  {
    var base := RStripChar(website, '/');
    var anchors := HomeAnchors(website, env);
    urls := CollectBlogLinks(base, anchors);
    if urls == [] {
      var j := 0;
      while j < |BlogPaths|
        invariant 0 <= j <= |BlogPaths|
        invariant urls == FallbackUrls(base)[..j]
      {
        urls := urls + [base + BlogPaths[j]];
        j := j + 1;
      }
    }
    urls := Take(urls, 5);
  }

  lemma FallbackUrlsDistinct(base: string)
    ensures forall j, j' :: 0 <= j < j' < |FallbackUrls(base)| ==> FallbackUrls(base)[j] != FallbackUrls(base)[j']
  {
    var r := FallbackUrls(base);
    forall j, j' | 0 <= j < j' < |r|
      ensures r[j] != r[j']
    {
      assert r[j][|base|..] == BlogPaths[j];
      assert r[j'][|base|..] == BlogPaths[j'];
    }
  }

  /** At most five distinct URLs, never none; they come from the page's anchors when one
      qualifies and are the first five fixed paths otherwise. */
  lemma BlogUrlsFacts(website: string, env: Environment)
    ensures var urls := BlogUrlsFor(website, env);
      0 < |urls| <= 5 &&
      (forall j, j' :: 0 <= j < j' < |urls| ==> urls[j] != urls[j']) &&
      (AnchorUrls(RStripChar(website, '/'), HomeAnchors(website, env)) == [] ==>
         urls == FallbackUrls(RStripChar(website, '/'))[..5]) &&
      (AnchorUrls(RStripChar(website, '/'), HomeAnchors(website, env)) != [] ==>
         forall k :: 0 <= k < |urls| ==> urls[k] in AnchorUrls(RStripChar(website, '/'), HomeAnchors(website, env)))
  {
    var base := RStripChar(website, '/');
    var all := AnchorUrls(base, HomeAnchors(website, env));
    var found := Nub(all);
    NubProperties(all);
    FallbackUrlsDistinct(base);
    if all != [] {
      assert all[0] in found;
    }
  }

  // ---------------------------------------------------------------- blog sub-score

  /** `total / count`: the mean of `count` scores summing to `total`. */
  function Mean(total: real, count: nat): (m: real)
    requires count > 0
    ensures 0.0 <= total <= 10.0 * count as real ==> 0.0 <= m <= 10.0
  {
    var n := count as real;
    assert total / n * n == total;
    total / n
  }

  /** The non-empty pages among `urls`, in order. */
  function FetchedPosts(urls: seq<string>, fetch: string -> string): (posts: seq<string>)
    ensures |posts| <= |urls|
    ensures forall k :: 0 <= k < |posts| ==> posts[k] != []
    decreases |urls|
  {
    if urls == [] then []
    else
      var c := fetch(urls[|urls| - 1]);
      FetchedPosts(urls[..|urls| - 1], fetch) + (if c != [] then [c] else [])
  }

  function ScoreSum(posts: seq<string>): (s: real)
    ensures 0.0 <= s <= 10.0 * |posts| as real
    decreases |posts|
  {
    if posts == [] then 0.0 else ScoreSum(posts[..|posts| - 1]) + BlogPostScore(posts[|posts| - 1])
  }

  /** `_analyze_engineering_blog`: 0 without a website, the mean score of the (at most three)
      first blog URLs that could be fetched, or 2 when none could. */
  function BlogScoreFor(website: string, env: Environment): real {
    if website == [] then 0.0
    else
      var urls := BlogUrlsFor(website, env);
      var posts := FetchedPosts(Take(urls, 3), env.fetch);
      if urls == [] || posts == [] then 2.0 else MinR(10.0, Mean(ScoreSum(posts), |posts|))
  }

  /** The blog sub-score is in [0, 10]; the `min(10, ...)` never binds, since it is a mean
      of scores that are at most 10. */
  lemma BlogScoreRange(website: string, env: Environment)
    ensures 0.0 <= BlogScoreFor(website, env) <= 10.0
    ensures website == [] ==> BlogScoreFor(website, env) == 0.0
    ensures website != [] ==>
      var posts := FetchedPosts(Take(BlogUrlsFor(website, env), 3), env.fetch);
      BlogScoreFor(website, env) == if posts == [] then 2.0 else Mean(ScoreSum(posts), |posts|)
  {
    if website != [] {
      BlogUrlsFacts(website, env);
    }
  }

  /** What the post loop holds after the URLs `done`. */
  predicate PostsInv(done: seq<string>, fetch: string -> string, total: real, count: nat) {
    count == |FetchedPosts(done, fetch)| && total == ScoreSum(FetchedPosts(done, fetch))
  }

  lemma PostsStep(done: seq<string>, url: string, fetch: string -> string, total: real, count: nat)
    requires PostsInv(done, fetch, total, count)
    ensures fetch(url) != [] ==> PostsInv(done + [url], fetch, total + BlogPostScore(fetch(url)), count + 1)
    ensures fetch(url) == [] ==> PostsInv(done + [url], fetch, total, count)
  {
    assert (done + [url])[..|done|] == done;
    var posts := FetchedPosts(done, fetch);
    if fetch(url) != [] {
      assert (posts + [fetch(url)])[..|posts|] == posts;
    } else {
      assert posts + [] == posts;
    }
  }

  /** The loop over the first blog URLs: sum and number of the pages fetched. */
  method ScorePosts(urls: seq<string>, fetch: string -> string) returns (total: real, count: nat)
    ensures PostsInv(urls, fetch, total, count)
  {
    total, count := 0.0, 0;
    var i := 0;
    while i < |urls|
      invariant 0 <= i <= |urls| && PostsInv(urls[..i], fetch, total, count)
    {
      PostsStep(urls[..i], urls[i], fetch, total, count);
      assert urls[..i + 1] == urls[..i] + [urls[i]];
      var content := fetch(urls[i]);
      if content != [] {
        total := total + BlogPostScore(content);
        count := count + 1;
      }
      i := i + 1;
    }
    assert urls[..i] == urls;
  }

  method AnalyzeEngineeringBlog(website: string, env: Environment) returns (score: real)
    ensures score == BlogScoreFor(website, env)
  {
    if website == [] {
      return 0.0;
    }
    var urls := FindEngineeringBlog(website, env);
    if urls == [] {
      return 2.0;
    }
    var total, count := ScorePosts(Take(urls, 3), env.fetch);
    if count > 0 {
      return MinR(10.0, Mean(total, count));
    }
    return 2.0;
  }

  // ---------------------------------------------------------------- job postings

  /** The weight of the first pattern whose lower-cased form occurs in `title` (already
      lower-cased), or 0. */
  function TitleWeight(title: string, weights: seq<(string, real)>): (w: real)
    ensures w == 0.0 || exists k :: 0 <= k < |weights| && w == weights[k].1 && Contains(title, Lower(weights[k].0))
    ensures (forall k :: 0 <= k < |weights| ==> !Contains(title, Lower(weights[k].0))) ==> w == 0.0
    decreases |weights|
  {
    if weights == [] then 0.0
    else if Contains(title, Lower(weights[0].0)) then weights[0].1
    else
      var w := TitleWeight(title, weights[1..]);
      assert forall k :: 1 <= k < |weights| ==> weights[1..][k - 1] == weights[k];
      w
  }

  /** Total ML weight of the postings. */
  function MlPositions(titles: seq<string>): (m: real)
    ensures 0.0 <= m <= 3.0 * |titles| as real
    decreases |titles|
  {
    if titles == [] then 0.0
    else
      var w := TitleWeight(Lower(titles[|titles| - 1]), Settings.JobTitleWeights());
      MlPositions(titles[..|titles| - 1]) + w
  }

  /** The ratio thresholds. */
  function RatioScore(ratio: real): (s: real)
    ensures s == 2.0 || s == 4.0 || s == 6.0 || s == 8.0 || s == 10.0
    ensures s == 10.0 <==> ratio >= 0.3
    ensures s == 2.0 <==> ratio < 0.1
  {
    if ratio >= 0.3 then 10.0
    else if ratio >= 0.2 then 8.0
    else if ratio >= 0.15 then 6.0
    else if ratio >= 0.1 then 4.0
    else 2.0
  }

  lemma RatioScoreMonotone(r: real, r': real)
    requires r <= r'
    ensures RatioScore(r) <= RatioScore(r')
  {
  }

  /** `_analyze_job_postings` as intended (`_search_job_postings` returning `titles`): 0
      without a name, 3 without postings, else the ratio score of weight per posting. */
  function JobPostingsScore(name: string, titles: seq<string>): (s: real)
    ensures name == [] ==> s == 0.0
    ensures name != [] && titles == [] ==> s == 3.0
    ensures 0.0 <= s <= 10.0
  {
    if name == [] then 0.0
    else if titles == [] then 3.0
    else RatioScore(MlPositions(titles) / |titles| as real)
  }

  /** The inner loop over the weight table, stopping at the first match. */
  method FirstMatchWeight(title: string) returns (w: real)
    ensures w == TitleWeight(title, Settings.JobTitleWeights())
  {
    var weights := Settings.JobTitleWeights();
    w := 0.0;
    var k := 0;
    while k < |weights|
      invariant 0 <= k <= |weights|
      invariant TitleWeight(title, weights) == TitleWeight(title, weights[k..])
    {
      assert weights[k..][1..] == weights[k + 1..];
      if Contains(title, Lower(weights[k].0)) {
        w := weights[k].1;
        return;
      }
      k := k + 1;
    }
  }

  method AnalyzeJobPostings(name: string, titles: seq<string>) returns (score: real)
    ensures score == JobPostingsScore(name, titles)
  {
    if name == [] {
      return 0.0;
    }
    if titles == [] {
      return 3.0;
    }
    var total := |titles|;
    var mlPositions := 0.0;
    var i := 0;
    while i < |titles|
      invariant 0 <= i <= |titles|
      invariant mlPositions == MlPositions(titles[..i])
    {
      var w := FirstMatchWeight(Lower(titles[i]));
      assert titles[..i + 1][..i] == titles[..i];
      mlPositions := mlPositions + w;
      i := i + 1;
    }
    assert titles[..i] == titles;
    score := RatioScore(mlPositions / total as real);
  }

  /** The job sub-score the code as written computes: `_search_job_postings` reads an
      undefined `company`, the NameError is caught and the default 3 returned. */
  function JobPostingsAsWritten(name: string): (s: real)
    ensures name == [] ==> s == 0.0
    ensures name != [] ==> s == 3.0
  {
    if name == [] then 0.0 else 3.0
  }

  /** A single "Machine Learning Engineer" posting scores 10 as intended but 3 as written. */
  lemma JobPostingsDefect()
    ensures var t := Lower(Settings.JobTitleWeights()[0].0);
      JobPostingsScore("Acme", [t]) == 10.0 && JobPostingsAsWritten("Acme") == 3.0
  {
    var t := Lower(Settings.JobTitleWeights()[0].0);
    LowerIdempotent(Settings.JobTitleWeights()[0].0);
    assert StartsWith(Lower(t), t);
    assert TitleWeight(Lower(t), Settings.JobTitleWeights()) == 3.0;
    assert [t][..0] == [];
    assert MlPositions([t]) == 3.0;
  }

  // ---------------------------------------------------------------- GitHub presence

  predicate MentionsIndicator(text: string) {
    AnyContained(Lower(text), Settings.GithubMlIndicators())
  }

  /** One repository's contribution to the ML count: 1 for an indicator in its description
      or name, 0.5 more for Python. */
  function RepoMlWeight(r: GitHubAnalyzer.Repo): (w: real)
    ensures 0.0 <= w <= 1.5
  {
    (if MentionsIndicator(r.description) || MentionsIndicator(r.name) then 1.0 else 0.0)
    + (if Lower(r.language) == "python" then 0.5 else 0.0)
  }

  function MlRepoCount(repos: seq<GitHubAnalyzer.Repo>): (c: real)
    ensures 0.0 <= c <= 1.5 * |repos| as real
    decreases |repos|
  {
    if repos == [] then 0.0 else MlRepoCount(repos[..|repos| - 1]) + RepoMlWeight(repos[|repos| - 1])
  }

  /** `_analyze_github_repos`: 5 without a token, 3 on a failed or empty listing, otherwise
      twenty times the ML share, capped at 10. */
  function GithubReposScore(hasToken: bool, reply: GitHubAnalyzer.PageResponse): (s: real)
    ensures !hasToken ==> s == 5.0
    ensures hasToken && !(reply.Page? && reply.items != []) ==> s == 3.0
    ensures 0.0 <= s <= 10.0
  {
    if !hasToken then 5.0
    else match reply
      case Page(repos) =>
        if |repos| > 0 then MinR(10.0, MlRepoCount(repos) / |repos| as real * 20.0) else 3.0
      case _ => 3.0
  }

  /** A listing where at least half of the repositories are ML work scores 10. */
  lemma GithubReposHalfMlScoresTen(repos: seq<GitHubAnalyzer.Repo>)
    requires repos != []
    requires MlRepoCount(repos) / |repos| as real >= 0.5
    ensures GithubReposScore(true, GitHubAnalyzer.Page(repos)) == 10.0
  {
  }

  method AnalyzeGithubRepos(hasToken: bool, reply: GitHubAnalyzer.PageResponse) returns (score: real)
    ensures score == GithubReposScore(hasToken, reply)
  {
    if !hasToken {
      return 5.0;
    }
    if !reply.Page? {
      return 3.0;
    }
    var repos := reply.items;
    var count := 0.0;
    var i := 0;
    while i < |repos|
      invariant 0 <= i <= |repos|
      invariant count == MlRepoCount(repos[..i])
    {
      var r := repos[i];
      assert repos[..i + 1][..i] == repos[..i];
      if MentionsIndicator(r.description) || MentionsIndicator(r.name) {
        count := count + 1.0;
      }
      if Lower(r.language) == "python" {
        count := count + 0.5;
      }
      i := i + 1;
    }
    assert repos[..i] == repos;
    if |repos| > 0 {
      return MinR(10.0, count / |repos| as real * 20.0);
    }
    return 3.0;
  }

  /** The organisation names tried for a company name. */
  function OrgVariants(name: string): (r: seq<string>)
    ensures |r| == 3 && forall k :: 0 <= k < 3 ==> ' ' !in r[k]
  {
    [ReplaceSpace(Lower(name), "-"), ReplaceSpace(Lower(name), ""), ReplaceSpace(Lower(name), "_")]
  }

  /** The first name the organisation endpoint confirms; `_github_org_exists` answers
      False without a token. */
  function FirstConfirmed(names: seq<string>, env: Environment): (r: Option<string>)
    ensures r.Some? ==> r.value in names && env.hasGithubToken && env.orgExists(r.value)
    ensures !env.hasGithubToken ==> r.None?
  {
    if names == [] then None
    else if env.hasGithubToken && env.orgExists(names[0]) then Some(names[0])
    else FirstConfirmed(names[1..], env)
  }

  /** `_find_github_org`: the first `github.com/<name>` capture on the website's page, else
      the first name variant the endpoint confirms (never without a token). */
  function GithubOrgFor(website: string, name: string, env: Environment): Option<string> {
    var content := if website != [] then env.fetch(website) else [];
    var captures := if content != [] then env.githubCaptures(content) else [];
    if captures != [] then Some(captures[0])
    else if name == [] then None
    else FirstConfirmed(OrgVariants(name), env)
  }

  /** An organisation found by name is a confirmed variant of the name; without a token
      and without a link on the page, none is found. */
  lemma GithubOrgFacts(website: string, name: string, env: Environment)
    ensures var content := if website != [] then env.fetch(website) else [];
      var captures := if content != [] then env.githubCaptures(content) else [];
      var org := GithubOrgFor(website, name, env);
      (captures != [] ==> org == Some(captures[0])) &&
      (captures == [] && org.Some? ==> env.hasGithubToken && org.value in OrgVariants(name) &&
                                       env.orgExists(org.value) && ' ' !in org.value) &&
      (captures == [] && !env.hasGithubToken ==> org.None?)
  {
  }

  method FindGithubOrg(website: string, name: string, env: Environment) returns (org: Option<string>)
    ensures org == GithubOrgFor(website, name, env)
  {
    if website != [] {
      var content := env.fetch(website);
      if content != [] {
        var matches := env.githubCaptures(content);
        if matches != [] {
          return Some(matches[0]);
        }
      }
    }
    if name != [] {
      var possible := OrgVariants(name);
      var i := 0;
      while i < |possible|
        invariant 0 <= i <= |possible|
        invariant FirstConfirmed(possible, env) == FirstConfirmed(possible[i..], env)
      {
        assert possible[i..][1..] == possible[i + 1..];
        if env.hasGithubToken && env.orgExists(possible[i]) {
          return Some(possible[i]);
        }
        i := i + 1;
      }
    }
    return None;
  }

  /** `if not github_org`: no organisation, or an empty name, which Python also treats as
      false. */
  predicate OrgMissing(org: Option<string>) {
    org.None? || org.value == []
  }

  /** `_analyze_github_presence`: 0 with neither website nor name, 2 when no organisation is
      found, otherwise the repository score. */
  function GithubPresenceFor(website: string, name: string, env: Environment): (s: real)
    ensures website == [] && name == [] ==> s == 0.0
    ensures (website != [] || name != []) && OrgMissing(GithubOrgFor(website, name, env)) ==> s == 2.0
    ensures 0.0 <= s <= 10.0
  {
    if website == [] && name == [] then 0.0
    else
      var org := GithubOrgFor(website, name, env);
      if OrgMissing(org) then 2.0 else MinR(10.0, GithubReposScore(env.hasGithubToken, env.listRepos(org.value)))
  }

  /** Without a token, a company whose page links a GitHub organisation scores 5. */
  lemma GithubPresenceWithoutToken(website: string, name: string, env: Environment)
    requires !env.hasGithubToken
    ensures GithubPresenceFor(website, name, env) ==
      if website == [] && name == [] then 0.0
      else if OrgMissing(GithubOrgFor(website, name, env)) then 2.0 else 5.0
  {
  }

  method AnalyzeGithubPresence(website: string, name: string, env: Environment) returns (score: real)
    ensures score == GithubPresenceFor(website, name, env)
  {
    if website == [] && name == [] {
      return 0.0;
    }
    var org := FindGithubOrg(website, name, env);
    if org.None? || org.value == [] {
      return 2.0;
    }
    var repoScore := AnalyzeGithubRepos(env.hasGithubToken, env.listRepos(org.value));
    return MinR(10.0, repoScore);
  }

  // ---------------------------------------------------------------- marketing

  const SpecificClaims: seq<string> := [
    "accuracy", "precision", "recall", "f1 score",
    "training data", "model performance", "inference time",
    "custom model", "proprietary algorithm"]

  const VagueClaims: seq<string> := [
    "ai-powered", "artificial intelligence", "machine learning magic",
    "smart technology", "intelligent system", "ai revolution"]

  predicate MentionsChatGpt(text: string) {
    Contains(text, "chatgpt") || Contains(text, "openai api")
  }

  /** The marketing arithmetic on the lower-cased "description content" text. */
  function MarketingTextScore(combined: string): (s: real)
    ensures 1.0 <= s <= 8.0
  {
    var specific := CountContained(combined, SpecificClaims);
    var vague := CountContained(combined, VagueClaims);
    var score := 5.0 + MinR(3.0, 0.5 * specific as real) - MinR(3.0, 0.3 * vague as real)
      - (if MentionsChatGpt(combined) && specific == 0 then 3.0 else 0.0);
    MaxR(1.0, MinR(10.0, score))
  }

  /** `_analyze_marketing_content`: 5 with neither website nor description, otherwise the
      score of the description followed by the page text. */
  function MarketingScore(website: string, description: string, env: Environment): (s: real)
    ensures website == [] && description == [] ==> s == 5.0
    ensures 1.0 <= s <= 10.0
  {
    if website == [] && description == [] then 5.0
    else
      var content := if website != [] then env.fetch(website) else [];
      MarketingTextScore(Lower(description + " " + content))
  }

  /** A ChatGPT or OpenAI API mention without any specific claim caps the score at 2. */
  lemma ChatGptWrapperPenalty(combined: string)
    requires MentionsChatGpt(combined) && !AnyContained(combined, SpecificClaims)
    ensures MarketingTextScore(combined) <= 2.0
  {
  }

  /** Copy with no claim of either kind and no ChatGPT mention scores the base 5. */
  lemma MarketingNeutral(combined: string)
    requires !AnyContained(combined, SpecificClaims) && !AnyContained(combined, VagueClaims)
    requires !MentionsChatGpt(combined)
    ensures MarketingTextScore(combined) == 5.0
  {
  }

  /** Specific claims never lower the score, vague ones never raise it. */
  lemma MarketingTextBounds(combined: string)
    ensures AnyContained(combined, SpecificClaims) ==> MarketingTextScore(combined) >= 2.5
    ensures !AnyContained(combined, SpecificClaims) ==> MarketingTextScore(combined) <= 5.0
  {
  }

  // ---------------------------------------------------------------- combination

  /** `int(x)`: truncation toward zero. */
  function Trunc(x: real): (n: int)
    ensures x >= 0.0 ==> 0 <= n && n as real <= x < n as real + 1.0
    ensures x < 0.0 ==> n <= 0 && x <= n as real && n as real - 1.0 < x
  {
    if x >= 0.0 then x.Floor else -((-x).Floor)
  }

  /** `max(1, min(10, int(score)))` of the weighted sum. */
  function CombineScores(blog: real, jobs: real, github: real, marketing: real): (s: int)
    ensures 1 <= s <= 10
  {
    var score := blog * 0.3 + jobs * 0.25 + github * 0.25 + marketing * 0.2;
    var t := Trunc(score);
    if t > 10 then 10 else if t < 1 then 1 else t
  }

  /** The weighted sum is truncated, not rounded: 2, 3, 2, 5 sum to 2.85 and give 2. */
  lemma CombineTruncates()
    ensures CombineScores(2.0, 3.0, 2.0, 5.0) == 2
  {
    assert 2.0 * 0.3 + 3.0 * 0.25 + 2.0 * 0.25 + 5.0 * 0.2 == 2.85;
  }

  /** A higher sub-score never lowers the result. */
  lemma CombineMonotone(b: real, j: real, g: real, m: real, b': real, j': real, g': real, m': real)
    requires b <= b' && j <= j' && g <= g' && m <= m'
    ensures CombineScores(b, j, g, m) <= CombineScores(b', j', g', m')
  {
    var x := b * 0.3 + j * 0.25 + g * 0.25 + m * 0.2;
    var x' := b' * 0.3 + j' * 0.25 + g' * 0.25 + m' * 0.2;
    assert x <= x';
    if x >= 0.0 && x' >= 0.0 {
      assert x.Floor <= x'.Floor;
    }
  }

  /** Sub-scores all 10 give 10; sub-scores in range never need the upper clamp. */
  lemma CombineTop(b: real, j: real, g: real, m: real)
    requires 0.0 <= b <= 10.0 && 0.0 <= j <= 10.0 && 0.0 <= g <= 10.0 && 0.0 <= m <= 10.0
    ensures CombineScores(b, j, g, m) == (var t := Trunc(b * 0.3 + j * 0.25 + g * 0.25 + m * 0.2);
                                          if t < 1 then 1 else t)
    ensures CombineScores(10.0, 10.0, 10.0, 10.0) == 10
  {
    assert 10.0 * 0.3 + 10.0 * 0.25 + 10.0 * 0.25 + 10.0 * 0.2 == 10.0;
  }

  /** The composite score of a company, as the four analyses produce it. */
  function AiWashingScoreFor(company: Company, env: Environment): int {
    CombineScores(
      BlogScoreFor(company.website, env),
      JobPostingsScore(company.name, env.jobTitles(company.name)),
      GithubPresenceFor(company.website, company.name, env),
      MarketingScore(company.website, company.description, env))
  }

  /** `calculate_ai_washing_score`: accumulate the weighted sub-scores, truncate, clamp. */
  method CalculateAiWashingScore(company: Company, env: Environment) returns (finalScore: int)
    ensures finalScore == AiWashingScoreFor(company, env)
    ensures 1 <= finalScore <= 10
  {
    var score := 0.0;
    var blogScore := AnalyzeEngineeringBlog(company.website, env);
    score := score + blogScore * 0.3;
    var jobsScore := AnalyzeJobPostings(company.name, env.jobTitles(company.name));
    score := score + jobsScore * 0.25;
    var githubScore := AnalyzeGithubPresence(company.website, company.name, env);
    score := score + githubScore * 0.25;
    var marketingScore := MarketingScore(company.website, company.description, env);
    score := score + marketingScore * 0.2;
    var t := Trunc(score);
    finalScore := if t > 10 then 10 else if t < 1 then 1 else t;
  }
}
