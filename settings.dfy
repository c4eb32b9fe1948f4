/** Configuration: the API and database settings `Config.validate` reads, the target
    criteria with their defaults, and the lookup tables of the AI-washing scorers.
    Environment lookups are not modelled: the values they produce are fields of `Config`. */
module Settings {
  import opened Text
  import opened Wrappers

  datatype ApiConfig = ApiConfig(githubToken: string)

  datatype DatabaseConfig = DatabaseConfig(
    host: string, port: int, name: string, user: string, password: string)

  /** The database settings when no environment variable overrides them. */
  function DefaultDatabase(): (d: DatabaseConfig)
    ensures d.host == "localhost" && d.port == 5432
    ensures d.password == ""
  {
    DatabaseConfig("localhost", 5432, "startup_intelligence", "postgres", "")
  }

  datatype TargetCriteria = TargetCriteria(
    targetLocations: seq<string>,
    fundingStages: seq<string>,
    minEmployees: int,
    maxEmployees: int,
    targetIndustries: seq<string>,
    healthcareFocused: bool,
    minAiWashingScore: int,
    requireMlEngineers: bool,
    minMlEngineerRatio: real,
    requireEngineeringBlog: bool,
    requireGithubPresence: bool,
    minGithubMlContributions: int)

  const DefaultLocations: seq<string> := ["Seattle", "Bellevue", "Redmond", "Kirkland"]
  const DefaultFundingStages: seq<string> := ["Series A", "Series B", "Early Stage VC"]
  const DefaultIndustries: seq<string> := [
    "Healthcare", "Health Tech", "Medical Devices",
    "E-commerce", "Enterprise Software", "SaaS",
    "Real-time Communications", "Video Conferencing",
    "AI/ML Infrastructure", "Data Analytics"]

  /** `TargetCriteria(...)` followed by `__post_init__`: a list left out (None) takes its default. */
  function MakeTargets(locations: Option<seq<string>>, stages: Option<seq<string>>,
                       industries: Option<seq<string>>): (t: TargetCriteria)
    ensures locations.None? ==> t.targetLocations == DefaultLocations
    ensures locations.Some? ==> t.targetLocations == locations.value
    ensures stages.None? ==> t.fundingStages == DefaultFundingStages
    ensures stages.Some? ==> t.fundingStages == stages.value
    ensures industries.None? ==> t.targetIndustries == DefaultIndustries
    ensures industries.Some? ==> t.targetIndustries == industries.value
    ensures 0 < t.minEmployees <= t.maxEmployees
    ensures 1 <= t.minAiWashingScore <= 10
  {
    TargetCriteria(
      if locations.Some? then locations.value else DefaultLocations,
      if stages.Some? then stages.value else DefaultFundingStages,
      10, 200,
      if industries.Some? then industries.value else DefaultIndustries,
      true, 6, true, 0.15, true, true, 5)
  }

  /** The criteria `TargetCriteria()` produces. */
  function DefaultTargets(): (t: TargetCriteria)
    ensures |t.targetLocations| == 4 && t.targetLocations[0] == "Seattle"
    ensures |t.fundingStages| == 3 && "Series A" in t.fundingStages
    ensures t.minEmployees == 10 && t.maxEmployees == 200
    ensures t.minAiWashingScore == 6
  {
    MakeTargets(None, None, None)
  }

  datatype Config = Config(api: ApiConfig, database: DatabaseConfig, targets: TargetCriteria)

  const GithubTokenIssue := "GitHub token required for API access"
  const DatabasePasswordIssue := "Database password required for remote connections"

  predicate RemoteWithoutPassword(db: DatabaseConfig) {
    db.password == "" && db.host != "localhost"
  }

  /** `Config.validate`: the list of configuration problems, GitHub first. */
  method Validate(config: Config) returns (issues: seq<string>)
    ensures issues == [] <==> config.api.githubToken != "" && !RemoteWithoutPassword(config.database)
    ensures |issues| <= 2
    ensures GithubTokenIssue in issues <==> config.api.githubToken == ""
    ensures DatabasePasswordIssue in issues <==> RemoteWithoutPassword(config.database)
    ensures config.api.githubToken == "" ==> issues[0] == GithubTokenIssue
  {
    issues := [];
    if config.api.githubToken == "" {
      issues := issues + [GithubTokenIssue];
    }
    if RemoteWithoutPassword(config.database) {
      issues := issues + [DatabasePasswordIssue];
    }
  }

  // ---------------------------------------------------------------- detection tables

  /** Phrases a genuine ML engineering blog uses. */
  function PositiveBlogTerms(): (t: seq<string>)
    ensures |t| == 16
    ensures "MLOps" in t && "A/B testing" in t
  {
    ["model training", "neural network", "machine learning pipeline",
     "feature engineering", "hyperparameter tuning", "model evaluation",
     "data preprocessing", "algorithm optimization", "inference latency",
     "model deployment", "MLOps", "model monitoring", "A/B testing",
     "gradient descent", "backpropagation", "transformer architecture"]
  }

  /** Phrases of an AI-washing blog. The fourth entry is written in the configuration as
      a quoted string followed by stray words; it is read here as the quoted string. */
  function NegativeBlogTerms(): (t: seq<string>)
    ensures |t| == 7
    ensures t[3] == "AI-powered"
  {
    ["ChatGPT integration", "OpenAI API", "prompt engineering only",
     "AI-powered", "machine learning magic",
     "artificial intelligence revolution", "AI transformation"]
  }

  /** Job-title patterns and their weights, in dictionary iteration order. */
  function JobTitleWeights(): (t: seq<(string, real)>)
    ensures |t| == 8
    ensures t[0].0 == "Machine Learning Engineer"
    ensures forall k :: 0 <= k < |t| ==> 0.0 < t[k].1 <= 3.0
  {
    [("Machine Learning Engineer", 3.0), ("ML Engineer", 3.0), ("Data Scientist", 2.0),
     ("AI Engineer", 2.5), ("Research Scientist", 3.0), ("MLOps Engineer", 2.5),
     ("AI Product Manager", 1.5), ("Software Engineer", 0.5)]
  }

  /** Library and tool names that mark a repository as ML work. */
  function GithubMlIndicators(): (t: seq<string>)
    ensures |t| == 15
    ensures forall k :: 0 <= k < |t| ==> !HasUpper(t[k]) && |t[k]| > 0
  {
    ["pytorch", "tensorflow", "scikit-learn", "numpy", "pandas",
     "jupyter", "keras", "xgboost", "lightgbm", "transformers",
     "mlflow", "kubeflow", "airflow", "docker", "kubernetes"]
  }
}
