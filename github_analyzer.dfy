/** GitHub footprint analysis: per-repository ML scoring, the aggregate over an
    organisation's repositories, the 0-10 contribution score, the candidate organisation
    names tried for a company, and the pagination loop. HTTP requests are replaced by
    oracle parameters: `listing` for the repository listing of an organisation, page by
    page, `recentActivity` for the commit search of an organisation, `orgExists` for the
    organisation endpoint, and `websiteMatches`/`isOrganization` for the GitHub links
    found on a company's website. */
module GitHubAnalyzer {
  import opened Wrappers
  import opened Text
  import opened Dedup
  import Settings

  /** Repository metadata as the GitHub API reports it. An absent description or language
      is the empty string; `updatedWithin30Days` stands for the wall-clock recency check. */
  datatype Repo = Repo(
    name: string,
    description: string,
    language: string,
    stars: nat,
    forks: nat,
    updatedWithin30Days: bool)

  /** The summary kept for an ML-related repository. */
  datatype RepoInfo = RepoInfo(
    name: string, description: string, language: string, stars: nat, forks: nat, mlScore: real)

  datatype RepoAnalysis = RepoAnalysis(
    totalRepositories: nat,
    pythonRepositories: nat,
    mlRelatedRepos: nat,
    mlRepositories: seq<RepoInfo>,
    openSourceMlProjects: seq<RepoInfo>,
    languagesUsed: map<string, nat>)

  /** What `analyze_company_github` returns (the analysis timestamp is not modelled). */
  datatype GithubReport = GithubReport(
    organizationFound: bool,
    organizationName: string,
    mlRepositories: seq<RepoInfo>,
    mlContributionsScore: int,
    totalRepositories: nat,
    pythonRepositories: nat,
    mlRelatedRepos: nat,
    recentMlActivity: bool,
    openSourceMlProjects: seq<RepoInfo>,
    languagesUsed: map<string, nat>)

  function MinR(a: real, b: real): real { if a <= b then a else b }

  function MaxR(a: real, b: real): real { if a >= b then a else b }

  // ---------------------------------------------------------------- one repository

  const HighValueKeywords: seq<string> := [
    "neural", "deep learning", "tensorflow", "pytorch",
    "machine learning", "artificial intelligence", "nlp",
    "computer vision", "reinforcement learning"]

  function LanguageBonus(language: string): real {
    var l := Lower(language);
    if l == "python" then 1.0 else if l == "r" || l == "julia" || l == "scala" then 0.5 else 0.0
  }

  /** `_score_repository_for_ml`: one point per ML indicator and two per high-value keyword
      found in "name description", a language bonus, popularity and recency bonuses, capped
      at 10. */
  function ScoreRepositoryForMl(r: Repo): (s: real)
    ensures 0.0 <= s <= 10.0
    ensures Lower(r.language) == "python" ==> s >= 1.0
  {
    var text := Lower(r.name) + " " + Lower(r.description);
    var raw := CountContained(text, Settings.GithubMlIndicators()) as real
      + LanguageBonus(r.language)
      + 2.0 * CountContained(text, HighValueKeywords) as real
      + (if r.stars > 100 then 1.0 else 0.0)
      + (if r.stars > 1000 then 1.0 else 0.0)
      + (if r.updatedWithin30Days then 0.5 else 0.0);
    MinR(10.0, raw)
  }

  /** Python's language check is exact-case for the count but lower-cased for the score:
      every repository whose language is exactly "Python" is ML-related. */
  lemma PythonRepoIsMlRelated(r: Repo)
    requires r.language == "Python"
    ensures ScoreRepositoryForMl(r) >= 1.0
  {
    assert Lower("Python") == "python";
  }

  // ---------------------------------------------------------------- aggregate

  function Info(r: Repo): RepoInfo {
    RepoInfo(r.name, r.description, r.language, r.stars, r.forks, ScoreRepositoryForMl(r))
  }

  /** The summaries of the ML-related repositories, in input order. */
  function MlRepoInfos(repos: seq<Repo>): seq<RepoInfo>
    decreases |repos|
  {
    if repos == [] then []
    else
      var r := repos[|repos| - 1];
      MlRepoInfos(repos[..|repos| - 1]) + (if ScoreRepositoryForMl(r) > 0.0 then [Info(r)] else [])
  }

  predicate IsOpenSourceProject(i: RepoInfo) { i.stars > 50 || i.forks > 10 }

  /** Number of repositories whose language is exactly `lang`. */
  function CountLanguage(repos: seq<Repo>, lang: string): nat
    decreases |repos|
  {
    if repos == [] then 0
    else CountLanguage(repos[..|repos| - 1], lang) + (if repos[|repos| - 1].language == lang then 1 else 0)
  }

  /** `languages_used`: a count for every language that occurs, and only for those. */
  ghost predicate IsHistogram(langs: map<string, nat>, repos: seq<Repo>) {
    (forall l :: l in langs <==> l != "" && CountLanguage(repos, l) > 0) &&
    (forall l :: l in langs ==> langs[l] == CountLanguage(repos, l))
  }

  /** `languages_used[lang] = languages_used.get(lang, 0) + 1` for a present language. */
  function Tally(langs: map<string, nat>, l: string): map<string, nat> {
    if l == "" then langs else langs[l := (if l in langs then langs[l] else 0) + 1]
  }

  /** What the aggregation loop has built in the analysis after the repositories `done`. */
  ghost predicate Tallied(done: seq<Repo>, a: RepoAnalysis) {
    a.pythonRepositories == CountLanguage(done, "Python") &&
    a.mlRepositories == MlRepoInfos(done) && a.mlRelatedRepos == |a.mlRepositories| &&
    a.openSourceMlProjects == Filter(IsOpenSourceProject, a.mlRepositories) &&
    IsHistogram(a.languagesUsed, done)
  }

  /** One more repository, as the aggregation loop sees it. */
  lemma TallyStep(done: seq<Repo>, r: Repo, a: RepoAnalysis, a': RepoAnalysis)
    requires Tallied(done, a)
    requires a'.pythonRepositories == a.pythonRepositories + (if r.language == "Python" then 1 else 0)
    requires var ml := ScoreRepositoryForMl(r) > 0.0;
      a'.mlRelatedRepos == a.mlRelatedRepos + (if ml then 1 else 0) &&
      a'.mlRepositories == a.mlRepositories + (if ml then [Info(r)] else []) &&
      a'.openSourceMlProjects == a.openSourceMlProjects + (if ml && IsOpenSourceProject(Info(r)) then [Info(r)] else [])
    requires a'.languagesUsed == Tally(a.languagesUsed, r.language)
    ensures Tallied(done + [r], a')
  {
    var done' := done + [r];
    assert done'[..|done|] == done;
    if ScoreRepositoryForMl(r) > 0.0 {
      assert a'.mlRepositories[..|a.mlRepositories|] == a.mlRepositories;
    } else {
      assert a'.mlRepositories == a.mlRepositories;
    }
  }

  lemma {:induction false} MlRepoInfosFacts(repos: seq<Repo>)
    ensures |MlRepoInfos(repos)| <= |repos|
    ensures CountLanguage(repos, "Python") <= |MlRepoInfos(repos)|
    ensures forall k :: 0 <= k < |MlRepoInfos(repos)| ==> MlRepoInfos(repos)[k].mlScore > 0.0
    decreases |repos|
  {
    if repos != [] {
      MlRepoInfosFacts(repos[..|repos| - 1]);
      var r := repos[|repos| - 1];
      if r.language == "Python" {
        PythonRepoIsMlRelated(r);
      }
    }
  }

  lemma OpenSourceProjectsFacts(infos: seq<RepoInfo>)
    ensures multiset(Filter(IsOpenSourceProject, infos)) <= multiset(infos)
    ensures forall k :: 0 <= k < |Filter(IsOpenSourceProject, infos)| ==>
      IsOpenSourceProject(Filter(IsOpenSourceProject, infos)[k])
  {
    FilterMultiset(IsOpenSourceProject, infos);
    FilterFacts(IsOpenSourceProject, infos);
    var open := Filter(IsOpenSourceProject, infos);
    forall k | 0 <= k < |open|
      ensures IsOpenSourceProject(open[k])
    {
      assert open[k] in open;
    }
  }

  // ---------------------------------------------------------------- descending sort

  predicate SortedDesc<T>(xs: seq<T>, key: T -> real) {
    forall i, j :: 0 <= i < j < |xs| ==> key(xs[i]) >= key(xs[j])
  }

  lemma ConsSorted<T>(a: T, xs: seq<T>, key: T -> real)
    requires SortedDesc(xs, key) && (xs == [] || key(a) >= key(xs[0]))
    ensures SortedDesc([a] + xs, key)
  {
    var r := [a] + xs;
    forall i, j | 0 <= i < j < |r|
      ensures key(r[i]) >= key(r[j])
    {
      if i == 0 && j > 1 {
        assert key(xs[0]) >= key(xs[j - 1]);
      }
    }
  }

  /** The first branch of `Insert`: `x` goes after the head. */
  lemma InsertAfterHead<T>(x: T, xs: seq<T>, rest: seq<T>, key: T -> real)
    requires xs != [] && SortedDesc(xs, key) && key(xs[0]) >= key(x)
    requires multiset(rest) == multiset(xs[1..]) + multiset{x}
    requires rest != [] && (rest[0] == x || (|xs| > 1 && rest[0] == xs[1]))
    requires SortedDesc(rest, key)
    ensures multiset([xs[0]] + rest) == multiset(xs) + multiset{x}
    ensures SortedDesc([xs[0]] + rest, key)
  {
    SplitHead(xs);
    assert key(xs[0]) >= key(rest[0]);
    ConsSorted(xs[0], rest, key);
  }

  lemma SplitHead<T>(xs: seq<T>)
    requires xs != []
    ensures xs == [xs[0]] + xs[1..]
  {
  }

  /** Places `x` after every element whose key is at least its own. */
  function Insert<T>(x: T, xs: seq<T>, key: T -> real): (r: seq<T>)
    requires SortedDesc(xs, key)
    ensures |r| == |xs| + 1
    ensures multiset(r) == multiset(xs) + multiset{x}
    ensures r[0] == x || (xs != [] && r[0] == xs[0])
    ensures SortedDesc(r, key)
    decreases |xs|
  {
    if xs == [] then [x]
    else if key(xs[0]) >= key(x) then
      var rest := Insert(x, xs[1..], key);
      InsertAfterHead(x, xs, rest, key);
      [xs[0]] + rest
    else
      ConsSorted(x, xs, key);
      [x] + xs
  }

  /** `list.sort(key=key, reverse=True)`: sorted by descending key and a permutation of the
      input. The order among equal keys is not stated. */
  function SortDesc<T>(xs: seq<T>, key: T -> real): (r: seq<T>)
    ensures SortedDesc(r, key)
    ensures multiset(r) == multiset(xs)
    ensures |r| == |xs|
    decreases |xs|
  {
    if xs == [] then []
    else
      assert xs == xs[..|xs| - 1] + [xs[|xs| - 1]];
      Insert(xs[|xs| - 1], SortDesc(xs[..|xs| - 1], key), key)
  }

  function MlScoreKey(i: RepoInfo): real { i.mlScore }

  function StarsKey(i: RepoInfo): real { i.stars as real }

  /** Sorting keeps the per-element facts of the two lists. */
  lemma SortedListsFacts(ml: seq<RepoInfo>, open: seq<RepoInfo>)
    requires forall k :: 0 <= k < |ml| ==> ml[k].mlScore > 0.0
    requires forall k :: 0 <= k < |open| ==> IsOpenSourceProject(open[k])
    ensures forall k :: 0 <= k < |SortDesc(ml, MlScoreKey)| ==> SortDesc(ml, MlScoreKey)[k].mlScore > 0.0
    ensures forall k :: 0 <= k < |SortDesc(open, StarsKey)| ==> IsOpenSourceProject(SortDesc(open, StarsKey)[k])
  {
    var sortedMl, sortedOpen := SortDesc(ml, MlScoreKey), SortDesc(open, StarsKey);
    forall k | 0 <= k < |sortedMl|
      ensures sortedMl[k].mlScore > 0.0
    {
      assert sortedMl[k] in multiset(ml);
    }
    forall k | 0 <= k < |sortedOpen|
      ensures IsOpenSourceProject(sortedOpen[k])
    {
      assert sortedOpen[k] in multiset(open);
    }
  }

  /** The body of the aggregation loop: one repository updates the counters, the
      language histogram and the two lists of the analysis. */
  method CountRepository(r: Repo, a: RepoAnalysis) returns (a': RepoAnalysis)
    ensures a'.totalRepositories == a.totalRepositories
    ensures a'.pythonRepositories == a.pythonRepositories + (if r.language == "Python" then 1 else 0)
    ensures var ml := ScoreRepositoryForMl(r) > 0.0;
      a'.mlRelatedRepos == a.mlRelatedRepos + (if ml then 1 else 0) &&
      a'.mlRepositories == a.mlRepositories + (if ml then [Info(r)] else []) &&
      a'.openSourceMlProjects == a.openSourceMlProjects + (if ml && IsOpenSourceProject(Info(r)) then [Info(r)] else [])
    ensures a'.languagesUsed == Tally(a.languagesUsed, r.language)
  {
    a' := a;
    if r.language == "Python" {
      a' := a'.(pythonRepositories := a'.pythonRepositories + 1);
    }
    if r.language != "" {
      var langs := a'.languagesUsed;
      a' := a'.(languagesUsed := langs[r.language := (if r.language in langs then langs[r.language] else 0) + 1]);
    }
    var score := ScoreRepositoryForMl(r);
    if score > 0.0 {
      a' := a'.(mlRelatedRepos := a'.mlRelatedRepos + 1);
      var info := Info(r);
      a' := a'.(mlRepositories := a'.mlRepositories + [info]);
      if info.stars > 50 || info.forks > 10 {
        a' := a'.(openSourceMlProjects := a'.openSourceMlProjects + [info]);
      }
    }
  }

  /** The aggregation loop of `_analyze_repositories`, before sorting. */
  method TallyRepositories(repos: seq<Repo>) returns (a: RepoAnalysis)
    ensures Tallied(repos, a) && a.totalRepositories == |repos|
  {
    a := RepoAnalysis(|repos|, 0, 0, [], [], map[]);
    for i := 0 to |repos|
      invariant Tallied(repos[..i], a) && a.totalRepositories == |repos|
    {
      var a' := CountRepository(repos[i], a);
      TallyStep(repos[..i], repos[i], a, a');
      assert repos[..i + 1] == repos[..i] + [repos[i]];
      a := a';
    }
    assert repos[..|repos|] == repos;
  }

  /** `_analyze_repositories`: counts, the language histogram, and the ML-related and
      popular ML repositories, sorted by ML score and by stars. */
  method AnalyzeRepositories(repos: seq<Repo>) returns (a: RepoAnalysis)
    ensures a.totalRepositories == |repos|
    ensures a.pythonRepositories == CountLanguage(repos, "Python")
    ensures a.pythonRepositories <= a.mlRelatedRepos == |a.mlRepositories| <= |repos|
    ensures multiset(a.mlRepositories) == multiset(MlRepoInfos(repos))
    ensures SortedDesc(a.mlRepositories, MlScoreKey)
    ensures forall k :: 0 <= k < |a.mlRepositories| ==> a.mlRepositories[k].mlScore > 0.0
    ensures multiset(a.openSourceMlProjects) <= multiset(a.mlRepositories)
    ensures multiset(a.openSourceMlProjects) == multiset(Filter(IsOpenSourceProject, MlRepoInfos(repos)))
    ensures forall k :: 0 <= k < |a.openSourceMlProjects| ==> IsOpenSourceProject(a.openSourceMlProjects[k])
    ensures SortedDesc(a.openSourceMlProjects, StarsKey)
    ensures IsHistogram(a.languagesUsed, repos)
  {
    a := TallyRepositories(repos);
    MlRepoInfosFacts(repos);
    OpenSourceProjectsFacts(a.mlRepositories);
    SortedListsFacts(a.mlRepositories, a.openSourceMlProjects);
    a := a.(mlRepositories := SortDesc(a.mlRepositories, MlScoreKey),
            openSourceMlProjects := SortDesc(a.openSourceMlProjects, StarsKey));
  }

  // ---------------------------------------------------------------- contribution score

  /** The pre-truncation contribution score of an organisation that was found. */
  function MlScoreRaw(total: nat, mlRepos: nat, pythonRepos: nat, projects: nat, recent: bool): (raw: real)
    ensures 2.0 <= raw <= 10.0
  {
    2.0
    + (if total > 0 then MinR(3.0, (mlRepos as real / total as real) * 10.0) else 0.0)
    + (if total > 0 then MinR(2.0, (pythonRepos as real / total as real) * 4.0) else 0.0)
    + (if projects > 0 then MinR(2.0, projects as real * 0.5) else 0.0)
    + (if recent then 1.0 else 0.0)
  }

  /** `_calculate_ml_score`: 0 without an organisation, otherwise the truncated raw score
      clamped to [0, 10]. */
  function CalculateMlScore(found: bool, total: nat, mlRepos: nat, pythonRepos: nat,
                            projects: nat, recent: bool): (s: int)
    ensures !found ==> s == 0
    ensures found ==> 2 <= s <= 10
  {
    if !found then 0
    else
      var t := MlScoreRaw(total, mlRepos, pythonRepos, projects, recent).Floor;
      if t > 10 then 10 else if t < 0 then 0 else t
  }

  /** The clamp never binds: a found organisation's score is the floor of its raw score. */
  lemma MlScoreIsTruncatedRaw(total: nat, mlRepos: nat, pythonRepos: nat, projects: nat, recent: bool)
    ensures CalculateMlScore(true, total, mlRepos, pythonRepos, projects, recent) ==
      MlScoreRaw(total, mlRepos, pythonRepos, projects, recent).Floor
  {
  }

  // ---------------------------------------------------------------- organisation names

  const CorporateSuffixes: seq<string> := ["inc", "corp", "corporation", "llc", "ltd", "limited"]

  /** Where a whitespace-preceded corporate suffix word starting `u`'s tail begins, if any. */
  function SuffixStart(u: string, k: nat): (r: int)
    requires k <= |CorporateSuffixes|
    ensures r == -1 || (0 < r <= |u| && IsSpace(u[r - 1]))
    decreases |CorporateSuffixes| - k
  {
    if k == |CorporateSuffixes| then -1
    else
      var w := CorporateSuffixes[k];
      if |w| < |u| && EndsWith(u, w) && IsSpace(u[|u| - |w| - 1]) then |u| - |w|
      else SuffixStart(u, k + 1)
  }

  /** `re.sub(r'\s+(inc|corp|corporation|llc|ltd|limited)\.?$', '', name)`. `$` also matches
      before a final newline, which then survives the substitution. */
  function RemoveCorporateSuffix(s: string): (r: string)
    ensures |r| <= |s|
  {
    var nl := |s| > 0 && s[|s| - 1] == '\n';
    var t := if nl then s[..|s| - 1] else s;
    var tail := if nl then "\n" else "";
    var u := if |t| > 0 && t[|t| - 1] == '.' && SuffixStart(t[..|t| - 1], 0) >= 0 then t[..|t| - 1] else t;
    var k := SuffixStart(u, 0);
    if k < 0 then s else RStrip(u[..k]) + tail
  }

  predicate OrgChar(c: char) {
    'a' <= c <= 'z' || 'A' <= c <= 'Z' || '0' <= c <= '9' || c == '-' || c == '_' || c == '.'
  }

  /** `re.match(r'^[a-zA-Z0-9\-_.]+$', n)`: one or more name characters, optionally
      followed by a single final newline. */
  predicate MatchesOrgPattern(n: string) {
    var body := if |n| > 0 && n[|n| - 1] == '\n' then n[..|n| - 1] else n;
    |body| > 0 && forall i :: 0 <= i < |body| ==> OrgChar(body[i])
  }

  predicate IsValidOrgName(n: string) {
    n != "" && |n| >= 2 && MatchesOrgPattern(n)
  }

  /** `''.join(word[0] for word in words)` */
  function Acronym(words: seq<string>): string {
    if words == [] then []
    else (if words[0] == [] then [] else [words[0][0]]) + Acronym(words[1..])
  }

  /** The suffix-stripped, lower-cased name the candidates are built from. */
  function OrgBaseName(companyName: string): string {
    RemoveCorporateSuffix(Lower(companyName))
  }

  /** The candidate list before filtering; `name.split()[0]` raises IndexError when the
      name holds a space but no word. */
  function OrgNameCandidates(name: string): (r: Result<seq<string>>)
    ensures r.Failure? <==> ' ' in name && Words(name) == []
    ensures r.Success? ==> 5 <= |r.value| <= 7
  {
    var words := Words(name);
    if ' ' in name && words == [] then Failure("IndexError: list index out of range")
    else
      var first := if ' ' in name then words[0] else name;
      var base := [ReplaceSpace(name, "-"), ReplaceSpace(name, ""), ReplaceSpace(name, "_"),
                   ReplaceSpace(name, "."), first];
      if |words| > 1 then Success(base + [Acronym(words), words[0] + words[|words| - 1]])
      else Success(base)
  }

  lemma NubFilterLength(p: string -> bool, xs: seq<string>)
    ensures |Nub(Filter(p, xs))| <= |xs|
  {
    FilterFacts(p, xs);
    NubProperties(Filter(p, xs));
  }

  /** One loop step of "keep the valid ones, each once". */
  lemma NubFilterStep(p: string -> bool, xs: seq<string>, i: nat)
    requires i < |xs|
    ensures var prev := Nub(Filter(p, xs[..i]));
      Nub(Filter(p, xs[..i + 1])) == if p(xs[i]) && xs[i] !in prev then prev + [xs[i]] else prev
  {
    FilterStep(p, xs, i);
    if p(xs[i]) {
      NubStep(Filter(p, xs[..i]), xs[i]);
    } else {
      assert Filter(p, xs[..i]) + [] == Filter(p, xs[..i]);
    }
  }

  /** The filtering loop of `_generate_potential_org_names`: keep a candidate when it is
      valid and not yet kept. */
  method KeepValidOnce(cs: seq<string>) returns (valid: seq<string>)
    ensures valid == Nub(Filter(IsValidOrgName, cs))
  {
    valid := [];
    var i := 0;
    while i < |cs|
      invariant 0 <= i <= |cs|
      invariant valid == Nub(Filter(IsValidOrgName, cs[..i]))
    {
      var n := cs[i];
      NubFilterStep(IsValidOrgName, cs, i);
      if IsValidOrgName(n) && n !in valid {
        valid := valid + [n];
      }
      i := i + 1;
    }
    assert cs[..i] == cs;
  }

  /** The names `_generate_potential_org_names` returns: the valid candidates, each once,
      in candidate order. */
  function OrgNamesFor(companyName: string): Result<seq<string>> {
    var cands := OrgNameCandidates(OrgBaseName(companyName));
    if cands.Failure? then Failure(cands.error) else Success(Nub(Filter(IsValidOrgName, cands.value)))
  }

  /** At most 7 names (so the cut to 10 never binds), no duplicates, all valid; the only
      failure is a name with a space but no word. */
  lemma OrgNamesForFacts(companyName: string)
    ensures var r := OrgNamesFor(companyName);
      (r.Failure? <==> ' ' in OrgBaseName(companyName) && Words(OrgBaseName(companyName)) == []) &&
      (r.Success? ==>
         |r.value| <= 7 &&
         (forall j, j' :: 0 <= j < j' < |r.value| ==> r.value[j] != r.value[j']) &&
         (forall n :: n in r.value ==> IsValidOrgName(n)))
  {
    var cands := OrgNameCandidates(OrgBaseName(companyName));
    if cands.Success? {
      FilterFacts(IsValidOrgName, cands.value);
      NubProperties(Filter(IsValidOrgName, cands.value));
    }
  }

  /** `_generate_potential_org_names`: the valid candidates, each once, in candidate order,
      cut to 10. */
  method GenerateOrgNames(companyName: string) returns (r: Result<seq<string>>)
    ensures r == OrgNamesFor(companyName)
  {
    var name := OrgBaseName(companyName);
    var cands := OrgNameCandidates(name);
    if cands.Failure? {
      return Failure(cands.error);
    }
    var valid := KeepValidOnce(cands.value);
    NubFilterLength(IsValidOrgName, cands.value);
    assert valid[..if |valid| < 10 then |valid| else 10] == valid;
    r := Success(valid[..if |valid| < 10 then |valid| else 10]);
  }

  // ---------------------------------------------------------------- finding the organisation

  const BigTechOrgs: seq<string> := ["microsoft", "google", "facebook", "apple", "amazon"]

  predicate PlausibleOrg(m: string, isOrganization: string -> bool) {
    m !in BigTechOrgs && !StartsWith(m, "user-") && |m| > 2 && isOrganization(m)
  }

  /** `_extract_github_from_website`: the first GitHub name linked from the page that is not
      a big-tech account, not a `user-` name, longer than 2, and an organisation. */
  function WebsiteOrg(matches: seq<string>, isOrganization: string -> bool): (r: Option<string>)
    ensures r.Some? ==> r.value in matches && PlausibleOrg(r.value, isOrganization)
    ensures r.None? ==> forall m :: m in matches ==> !PlausibleOrg(m, isOrganization)
  {
    if matches == [] then None
    else if PlausibleOrg(matches[0], isOrganization) then Some(matches[0])
    else WebsiteOrg(matches[1..], isOrganization)
  }

  /** The first name the organisation endpoint confirms. */
  function FirstExisting(names: seq<string>, orgExists: string -> bool): (r: Option<string>)
    ensures r.Some? ==> exists k :: 0 <= k < |names| && names[k] == r.value && orgExists(r.value) &&
                                   forall j :: 0 <= j < k ==> !orgExists(names[j])
    ensures r.None? ==> forall j :: 0 <= j < |names| ==> !orgExists(names[j])
  {
    if names == [] then None
    else if orgExists(names[0]) then Some(names[0])
    else
      var r := FirstExisting(names[1..], orgExists);
      assert r.Some? ==> exists k :: 0 <= k < |names| - 1 && names[1..][k] == r.value && orgExists(r.value) &&
                                     forall j :: 0 <= j < k ==> !orgExists(names[1..][j]);
      r
  }

  /** `_find_github_organization`: the website's GitHub link first, then the first candidate
      name that exists; the IndexError of the name generation propagates. */
  function OrganizationFor(website: string, name: string, websiteMatches: seq<string>,
                           isOrganization: string -> bool, orgExists: string -> bool)
    : Result<Option<string>>
  {
    if website != "" && WebsiteOrg(websiteMatches, isOrganization).Some? then
      Success(WebsiteOrg(websiteMatches, isOrganization))
    else if name == "" then Success(None)
    else
      var names := OrgNamesFor(name);
      if names.Failure? then Failure(names.error) else Success(FirstExisting(names.value, orgExists))
  }

  method FindOrganization(website: string, name: string, websiteMatches: seq<string>,
                          isOrganization: string -> bool, orgExists: string -> bool)
    returns (r: Result<Option<string>>)
    ensures r == OrganizationFor(website, name, websiteMatches, isOrganization, orgExists)
  {
    if website != "" {
      var fromSite := WebsiteOrg(websiteMatches, isOrganization);
      if fromSite.Some? {
        return Success(fromSite);
      }
    }
    if name == "" {
      return Success(None);
    }
    var names := GenerateOrgNames(name);
    if names.Failure? {
      return Failure(names.error);
    }
    var found := FirstExistingName(names.value, orgExists);
    return Success(found);
  }

  /** The candidate loop of `_find_github_organization`: the first name that exists. */
  method FirstExistingName(ns: seq<string>, orgExists: string -> bool) returns (r: Option<string>)
    ensures r == FirstExisting(ns, orgExists)
  {
    var i := 0;
    while i < |ns|
      invariant 0 <= i <= |ns|
      invariant FirstExisting(ns, orgExists) == FirstExisting(ns[i..], orgExists)
    {
      assert ns[i..][1..] == ns[i + 1..];
      if orgExists(ns[i]) {
        return Some(ns[i]);
      }
      i := i + 1;
    }
    return None;
  }

  /** What the organisation search can answer: the website's link, or a confirmed
      candidate name that passed the name filter, or nothing when there is no name. */
  lemma OrganizationForFacts(website: string, name: string, websiteMatches: seq<string>,
                             isOrganization: string -> bool, orgExists: string -> bool)
    ensures var r := OrganizationFor(website, name, websiteMatches, isOrganization, orgExists);
      (r.Failure? ==> name != "" && ' ' in OrgBaseName(name) && Words(OrgBaseName(name)) == []) &&
      (r.Success? && r.value.Some? && !(website != "" && WebsiteOrg(websiteMatches, isOrganization).Some?) ==>
         orgExists(r.value.value) && IsValidOrgName(r.value.value)) &&
      (website == "" && name == "" ==> r == Success(None))
  {
    if name != "" && !(website != "" && WebsiteOrg(websiteMatches, isOrganization).Some?) {
      var names := OrgNamesFor(name);
      if names.Success? {
        OrgNamesForFacts(name);
      }
    }
  }

  // ---------------------------------------------------------------- pagination

  datatype PageResponse = Page(items: seq<Repo>) | HttpError(status: int) | Raised

  const MaxRepos := 500

  /** The repositories the paginator collects from `page` on, having collected `acc`. */
  function Paginate(fetchPage: nat -> PageResponse, page: nat, acc: seq<Repo>): seq<Repo>
    decreases MaxRepos - |acc|
  {
    if |acc| >= MaxRepos then acc
    else match fetchPage(page)
      case Page(items) => if items == [] then acc else Paginate(fetchPage, page + 1, acc + items)
      case _ => acc
  }

  /** With pages of at most 100 items the paginator never exceeds 599 repositories. */
  lemma {:induction false} PaginateBound(fetchPage: nat -> PageResponse, page: nat, acc: seq<Repo>)
    requires forall p :: fetchPage(p).Page? ==> |fetchPage(p).items| <= 100
    requires |acc| < MaxRepos + 100
    ensures |Paginate(fetchPage, page, acc)| < MaxRepos + 100
    decreases MaxRepos - |acc|
  {
    if |acc| < MaxRepos && fetchPage(page).Page? && fetchPage(page).items != [] {
      PaginateBound(fetchPage, page + 1, acc + fetchPage(page).items);
    }
  }

  /** What was collected is never dropped: `acc` is a prefix of the result. */
  lemma {:induction false} PaginateExtends(fetchPage: nat -> PageResponse, page: nat, acc: seq<Repo>)
    ensures acc <= Paginate(fetchPage, page, acc)
    decreases MaxRepos - |acc|
  {
    if |acc| < MaxRepos && fetchPage(page).Page? && fetchPage(page).items != [] {
      PaginateExtends(fetchPage, page + 1, acc + fetchPage(page).items);
    }
  }

  /** `_get_organization_repositories`: pages 1, 2, ... of 100 until an empty page, a
      non-200 response or an exception, or until 500 repositories are held. */
  method GetOrganizationRepositories(listing: string -> nat -> PageResponse, orgName: string)
    returns (repos: seq<Repo>)
    ensures repos == Paginate(listing(orgName), 1, [])
    ensures (forall p :: listing(orgName)(p).Page? ==> |listing(orgName)(p).items| <= 100) ==>
      |repos| < MaxRepos + 100
  {
    var fetchPage := listing(orgName);
    repos := [];
    var page := 1;
    while |repos| < MaxRepos
      invariant Paginate(fetchPage, page, repos) == Paginate(fetchPage, 1, [])
      invariant (forall p :: fetchPage(p).Page? ==> |fetchPage(p).items| <= 100) ==> |repos| < MaxRepos + 100
      decreases MaxRepos - |repos|
    {
      var response := fetchPage(page);
      if response.Page? && response.items != [] {
        repos := repos + response.items;
        page := page + 1;
      } else {
        break;
      }
    }
    if (forall p :: fetchPage(p).Page? ==> |fetchPage(p).items| <= 100) {
      PaginateBound(fetchPage, 1, []);
    }
  }

  // ---------------------------------------------------------------- whole analysis

  /** The result for a company whose organisation was not found. */
  function NotFoundReport(): (g: GithubReport)
    ensures !g.organizationFound && g.mlContributionsScore == 0
    ensures g.totalRepositories == 0 && g.pythonRepositories == 0 && g.mlRelatedRepos == 0
    ensures g.mlRepositories == [] && g.openSourceMlProjects == [] && !g.recentMlActivity
  {
    GithubReport(false, "", [], 0, 0, 0, 0, false, [], map[])
  }

  /** The report's repository fields describe exactly `repos`: the counts, the histogram,
      the ML-related summaries sorted by ML score, and the popular ones sorted by stars. */
  ghost predicate DescribesRepositories(g: GithubReport, repos: seq<Repo>) {
    g.totalRepositories == |repos| &&
    g.pythonRepositories == CountLanguage(repos, "Python") &&
    g.mlRelatedRepos == |g.mlRepositories| &&
    multiset(g.mlRepositories) == multiset(MlRepoInfos(repos)) &&
    SortedDesc(g.mlRepositories, MlScoreKey) &&
    multiset(g.openSourceMlProjects) == multiset(Filter(IsOpenSourceProject, MlRepoInfos(repos))) &&
    SortedDesc(g.openSourceMlProjects, StarsKey) &&
    IsHistogram(g.languagesUsed, repos)
  }

  /** `analyze_company_github`: find the organisation, analyse its repositories when there
      are any, and score it. The listing and the commit search are asked about the
      organisation found. */
  method AnalyzeCompanyGithub(website: string, name: string, websiteMatches: seq<string>,
                              isOrganization: string -> bool, orgExists: string -> bool,
                              listing: string -> nat -> PageResponse, recentActivity: string -> bool)
    returns (r: Result<GithubReport>)
    ensures r.Success? && !r.value.organizationFound ==> r.value == NotFoundReport()
    ensures r.Success? && r.value.organizationFound ==>
      2 <= r.value.mlContributionsScore <= 10 &&
      r.value.pythonRepositories <= r.value.mlRelatedRepos <= r.value.totalRepositories &&
      r.value.recentMlActivity == recentActivity(r.value.organizationName)
    ensures website == "" && name == "" ==> r == Success(NotFoundReport())
    ensures var org := OrganizationFor(website, name, websiteMatches, isOrganization, orgExists);
      (r.Failure? <==> org.Failure?) && (r.Failure? ==> r.error == org.error) &&
      (r.Success? ==> (r.value.organizationFound <==> org.value.Some?)) &&
      (r.Success? && r.value.organizationFound ==> r.value.organizationName == org.value.value)
    ensures r.Success? && r.value.organizationFound ==>
      DescribesRepositories(r.value, Paginate(listing(r.value.organizationName), 1, [])) &&
      r.value.mlContributionsScore ==
        CalculateMlScore(true, r.value.totalRepositories, r.value.mlRelatedRepos, r.value.pythonRepositories,
                         |r.value.openSourceMlProjects|, r.value.recentMlActivity)
  {
    var org := FindOrganization(website, name, websiteMatches, isOrganization, orgExists);
    if org.Failure? {
      return Failure(org.error);
    }
    if org.value.None? {
      return Success(NotFoundReport());
    }
    var repos := GetOrganizationRepositories(listing, org.value.value);
    var g := GithubReport(true, org.value.value, [], 0, 0, 0, 0, false, [], map[]);
    if repos != [] {
      var a := AnalyzeRepositories(repos);
      g := g.(totalRepositories := a.totalRepositories, pythonRepositories := a.pythonRepositories,
               mlRelatedRepos := a.mlRelatedRepos, mlRepositories := a.mlRepositories,
               openSourceMlProjects := a.openSourceMlProjects, languagesUsed := a.languagesUsed);
    }
    g := g.(recentMlActivity := recentActivity(org.value.value));
    g := g.(mlContributionsScore := CalculateMlScore(true, g.totalRepositories, g.mlRelatedRepos,
                                                     g.pythonRepositories, |g.openSourceMlProjects|,
                                                     g.recentMlActivity));
    return Success(g);
  }
}
