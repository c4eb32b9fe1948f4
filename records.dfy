/** The company record that flows through the pipeline. The source passes plain
    dictionaries whose keys depend on the collector; here every key any stage reads is a
    field, with the value `dict.get` yields when the key is absent: "" for text, 0 for the
    employee count, [] for lists and `None` for the analysis results. A website that is
    absent or `None` is the empty string, which every reader treats the same way. */
module Records {
  import opened Wrappers
  import GitHubAnalyzer

  /** The `source` tag a collector writes. */
  datatype Origin = YCombinator | GeekWire | LinkedInJobs | LinkedInJobsText

  /** `_extract_funding_info`: a key is present exactly when its pattern matched. */
  datatype FundingInfo = FundingInfo(
    amount: Option<string>,
    roundType: Option<string>,
    leadInvestor: Option<string>)

  datatype Company = Company(
    name: string,
    description: string,
    website: string,
    location: string,
    source: Origin,
    // Y Combinator
    batch: string,
    foundedYear: Option<int>,
    tags: seq<string>,
    // GeekWire
    fundingInfo: Option<FundingInfo>,
    sourceArticle: string,
    // LinkedIn
    linkedinCompanyUrl: Option<string>,
    hiringForMl: bool,
    mlJobTitles: Option<seq<string>>,
    // read by the engine, written by no collector
    fundingStage: string,
    employeesCount: int,
    keywords: seq<string>,
    // written by the analysis loop
    aiWashingScore: Option<int>,
    githubAnalysis: Option<GitHubAnalyzer.GithubReport>,
    strategicFitScore: Option<int>,
    healthcareRelevance: Option<bool>,
    analysisError: Option<string>)

  /** A record holding only the fields every collector writes. */
  function NewCompany(name: string, description: string, website: string, location: string,
                      source: Origin): (c: Company)
    ensures c.name == name && c.description == description && c.website == website
    ensures c.location == location && c.source == source
    ensures c.aiWashingScore.None? && c.analysisError.None? && c.mlJobTitles.None?
  {
    Company(name, description, website, location, source,
            "", None, [], None, "", None, false, None,
            "", 0, [], None, None, None, None, None)
  }
}
