# Startup discovery pipeline, modelled in Dafny

This project models the pipeline that finds Seattle-area AI startups. It has seven parts:

- **Collectors.** Three collectors each produce company records:
  - the Y Combinator batch listings;
  - the GeekWire RSS feeds;
  - the LinkedIn public job search.
- **Discovery engine.** It pools the collectors' records and deduplicates them by website domain or name. It then scores each record. It also counts the run's statistics, stores the records and writes a daily report with recommendations.
- **AI-washing detector.** It rates how genuine a company's AI work is, from 1 to 10. The rating combines four sub-scores: the engineering blog, job postings, GitHub presence and marketing copy.
- **GitHub analyser.** It finds a company's GitHub organisation, aggregates its repositories and gives a 0–10 ML contribution score.
- **Configuration.** The target criteria, configuration validation and the detection tables.
- **Dashboard.** It shows statistics over the top companies in the database, and the cards of the first twenty.

## How the model is built

**Values and state.**
- A company record is a datatype value (`Records.Company`). It has one field per dictionary key that some stage reads.
- Where the source updates a record dictionary in place, the model returns the updated value.
- The engine's `stats` dictionary is the `stats` field of the class `DiscoveryEngine.Engine`. The engine's methods update it, and their contracts state the new value.

**The outside world.** Everything the pipeline gets from outside is a parameter:
- HTTP answers;
- HTML and RSS parsing;
- regular-expression captures;
- database calls;
- the clock.

Some of these are functions, such as `fetch`, `search`, `upsert` and `orgExists`. Others are the values they would return, such as captures, cards, timestamps and the rows the database returns.

**Exceptions.**
- Where an exception propagates, the model returns a `Result` whose failure carries the exception's text.
- Where the source catches an exception inside a loop, the loop's result skips that element (`Collect.Successes`).

**Loops.** Loops become methods with loop invariants. Each method is proved equal to a reference function, and lemmas state the properties of that function.

Shared modules:
- `Text`: Python string operations on ASCII.
- `Dedup`: first-occurrence deduplication, and filtering with its subsequence witness.
- `Collect`: "each source in its own `try`".
- `Merging`: the insertion-ordered dictionary that LinkedIn deduplication fills.

## Model

| member | source | states |
|---|---|---|
| Settings.DefaultDatabase | config/settings.py:31-37 | Without environment overrides the database is on localhost, port 5432, with an empty password |
| Settings.MakeTargets | config/settings.py:59-96 | A list left as None takes its default and a supplied list is kept; the employee range is positive and ordered; the minimum AI score is within [1, 10] |
| Settings.DefaultTargets | config/settings.py:83-96 | The default criteria: four locations starting with Seattle, three funding stages including Series A, 10 to 200 employees, minimum AI score 6 |
| Settings.Validate | config/settings.py:111-123 | No issue exactly when a GitHub token is set and the database is not remote without a password; each issue appears exactly when its condition holds; the token issue comes first |
| Settings.PositiveBlogTerms | config/settings.py:162-168 | Sixteen positive blog terms, among them "MLOps" and "A/B testing" |
| Settings.NegativeBlogTerms | config/settings.py:169-173 | Seven negative blog terms, the fourth read as "AI-powered" |
| Settings.JobTitleWeights | config/settings.py:175-184 | Eight title patterns in dictionary order, "Machine Learning Engineer" first, every weight in (0, 3] |
| Settings.GithubMlIndicators | config/settings.py:185-189 | Fifteen non-empty lower-case indicator names |
| AiWashingDetector.CountSearches | src/analysis/ai_washing_detector.py:178-179 | The number of technical patterns found never exceeds the number of patterns |
| AiWashingDetector.BlogPostScore | src/analysis/ai_washing_detector.py:148-186 | An empty post scores 0; every post scores within [0, 10] |
| AiWashingDetector.CapitalisedTermsNeverMatch | src/analysis/ai_washing_detector.py:153-164 | Terms are matched against the lower-cased post, so at most 3 negative and 14 positive terms can ever match |
| AiWashingDetector.BlogPostScoreWithoutPenalty | src/analysis/ai_washing_detector.py:156-186 | Without a negative term the clamp never binds: the score is capped positive points plus capped technical points plus the code bonus |
| AiWashingDetector.AnchorUrl | src/analysis/ai_washing_detector.py:122-133 | An anchor yields a URL only if its lower-cased href or text mentions a blog keyword; a site-relative href is appended to the base, an http one is kept |
| AiWashingDetector.FallbackUrls | src/analysis/ai_washing_detector.py:141-144 | The fallback URLs are the base followed by each of the seven fixed blog paths, in order |
| AiWashingDetector.FallbackUrlsDistinct | src/analysis/ai_washing_detector.py:106-108 | The fallback URLs are pairwise distinct |
| AiWashingDetector.CollectBlogLinks | src/analysis/ai_washing_detector.py:123-136 | The anchor loop yields the qualifying URLs in page order, each once |
| AiWashingDetector.FindEngineeringBlog | src/analysis/ai_washing_detector.py:104-146 | The method computes the blog URL list `BlogUrlsFor` |
| AiWashingDetector.BlogUrlsFacts | src/analysis/ai_washing_detector.py:104-146 | One to five distinct URLs; the first five fallback paths when no anchor qualifies, otherwise only anchor URLs |
| AiWashingDetector.FetchedPosts | src/analysis/ai_washing_detector.py:81-87 | Only pages that could be fetched are scored, at most one per URL |
| AiWashingDetector.ScoreSum | src/analysis/ai_washing_detector.py:85-86 | The summed post scores lie within [0, 10 per post] |
| AiWashingDetector.ScorePosts | src/analysis/ai_washing_detector.py:78-87 | The loop's total and count are the score sum and the number of fetched posts |
| AiWashingDetector.BlogScoreRange | src/analysis/ai_washing_detector.py:66-102 | The blog sub-score is in [0, 10]: 0 without a website, otherwise the mean post score, or 2 when no post was fetched; the min(10, ...) never binds |
| AiWashingDetector.AnalyzeEngineeringBlog | src/analysis/ai_washing_detector.py:66-102 | The method computes the blog sub-score `BlogScoreFor` |
| AiWashingDetector.TitleWeight | src/analysis/ai_washing_detector.py:209-212 | A title's weight is that of a table pattern it contains, or 0 when it contains none |
| AiWashingDetector.MlPositions | src/analysis/ai_washing_detector.py:205-212 | The ML weight of n postings lies in [0, 3n] |
| AiWashingDetector.RatioScore | src/analysis/ai_washing_detector.py:214-227 | The ratio score is one of 2, 4, 6, 8 and 10; it is 10 exactly from 0.3 up and 2 exactly below 0.1 |
| AiWashingDetector.RatioScoreMonotone | src/analysis/ai_washing_detector.py:218-227 | A higher ML ratio never gives a lower score |
| AiWashingDetector.JobPostingsScore | src/analysis/ai_washing_detector.py:188-232 | 0 without a name, 3 without postings, always within [0, 10] |
| AiWashingDetector.FirstMatchWeight | src/analysis/ai_washing_detector.py:209-212 | The inner loop stops at the first matching pattern and returns its weight |
| AiWashingDetector.AnalyzeJobPostings | src/analysis/ai_washing_detector.py:188-232 | The method computes the job sub-score `JobPostingsScore` |
| AiWashingDetector.JobPostingsAsWritten | src/analysis/ai_washing_detector.py:234-253 | As written the job sub-score is 0 without a name and 3 for every named company |
| AiWashingDetector.JobPostingsDefect | src/analysis/ai_washing_detector.py:246 | One "Machine Learning Engineer" posting scores 10 in the intended logic but 3 as written |
| AiWashingDetector.RepoMlWeight | src/analysis/ai_washing_detector.py:342-354 | One repository adds between 0 and 1.5 to the ML count |
| AiWashingDetector.MlRepoCount | src/analysis/ai_washing_detector.py:338-354 | The ML count of n repositories lies in [0, 1.5n] |
| AiWashingDetector.GithubReposScore | src/analysis/ai_washing_detector.py:323-363 | 5 without a token, 3 for a failed or empty listing, always within [0, 10] |
| AiWashingDetector.GithubReposHalfMlScoresTen | src/analysis/ai_washing_detector.py:356-358 | A listing whose ML share is at least one half scores 10 |
| AiWashingDetector.AnalyzeGithubRepos | src/analysis/ai_washing_detector.py:323-363 | The method computes the repository score `GithubReposScore` |
| AiWashingDetector.OrgVariants | src/analysis/ai_washing_detector.py:296-300 | Three organisation name variants, none containing a space |
| AiWashingDetector.FirstConfirmed | src/analysis/ai_washing_detector.py:302-321 | A name is returned only if it is a candidate the endpoint confirmed while a token was set; without a token none is returned |
| AiWashingDetector.GithubOrgFacts | src/analysis/ai_washing_detector.py:280-306 | The first GitHub capture on the page wins; otherwise the organisation is a confirmed space-free name variant, and there is none without a token |
| AiWashingDetector.FindGithubOrg | src/analysis/ai_washing_detector.py:280-306 | The method computes the organisation search `GithubOrgFor` |
| AiWashingDetector.GithubPresenceFor | src/analysis/ai_washing_detector.py:255-278 | 0 with neither website nor name; 2 when no organisation, or an empty name, is found; always within [0, 10] |
| AiWashingDetector.GithubPresenceWithoutToken | src/analysis/ai_washing_detector.py:255-278 | Without a token: 0 with neither website nor name, 2 when no organisation is found, 5 otherwise |
| AiWashingDetector.AnalyzeGithubPresence | src/analysis/ai_washing_detector.py:255-278 | The method computes the GitHub sub-score `GithubPresenceFor` |
| AiWashingDetector.MarketingTextScore | src/analysis/ai_washing_detector.py:379-406 | The marketing arithmetic stays within [1, 8] |
| AiWashingDetector.MarketingScore | src/analysis/ai_washing_detector.py:365-411 | 5 with neither website nor description; always within [1, 10] |
| AiWashingDetector.ChatGptWrapperPenalty | src/analysis/ai_washing_detector.py:401-404 | A ChatGPT or OpenAI API mention without a specific claim caps the score at 2 |
| AiWashingDetector.MarketingNeutral | src/analysis/ai_washing_detector.py:396-406 | Copy with no claim and no ChatGPT mention scores the base 5 |
| AiWashingDetector.MarketingTextBounds | src/analysis/ai_washing_detector.py:393-399 | With a specific claim the score is at least 2.5; without one it is at most 5 |
| AiWashingDetector.Trunc | src/analysis/ai_washing_detector.py:61 | `int(x)` truncates toward zero |
| AiWashingDetector.CombineScores | src/analysis/ai_washing_detector.py:60-61 | The composite score is within [1, 10] (computed on exact reals) |
| AiWashingDetector.CombineTruncates | src/analysis/ai_washing_detector.py:61 | The weighted sum is truncated, not rounded: sub-scores 2, 3, 2 and 5 give 2 |
| AiWashingDetector.CombineMonotone | src/analysis/ai_washing_detector.py:44-61 | Raising any sub-score never lowers the composite score |
| AiWashingDetector.CombineTop | src/analysis/ai_washing_detector.py:44-61 | For sub-scores in range the upper clamp never binds; all 10 give 10 |
| AiWashingDetector.CalculateAiWashingScore | src/analysis/ai_washing_detector.py:39-64 | The accumulating method computes `AiWashingScoreFor`, which lies within [1, 10] |
| GitHubAnalyzer.ScoreRepositoryForMl | src/discovery/github_analyzer.py:289-339 | A repository's ML score is within [0, 10] and at least 1 for Python |
| GitHubAnalyzer.PythonRepoIsMlRelated | src/discovery/github_analyzer.py:249-259 | Every repository whose language is exactly "Python" is ML-related |
| GitHubAnalyzer.MlRepoInfosFacts | src/discovery/github_analyzer.py:247-273 | At most one summary per repository; Python repositories never outnumber ML ones; every kept summary has a positive score |
| GitHubAnalyzer.OpenSourceProjectsFacts | src/discovery/github_analyzer.py:275-278 | The popular projects are a sub-multiset of the ML repositories, and each has over 50 stars or over 10 forks |
| GitHubAnalyzer.SortDesc | src/discovery/github_analyzer.py:280-282 | Sorting by key in reverse gives a descending permutation of its input |
| GitHubAnalyzer.SortedListsFacts | src/discovery/github_analyzer.py:280-282 | Sorting keeps the per-element facts of both lists |
| GitHubAnalyzer.CountRepository | src/discovery/github_analyzer.py:247-278 | One repository updates the Python count, the ML count and lists, the popular list and the language histogram |
| GitHubAnalyzer.TallyRepositories | src/discovery/github_analyzer.py:237-278 | After the loop the counters, lists and histogram describe every repository |
| GitHubAnalyzer.AnalyzeRepositories | src/discovery/github_analyzer.py:235-287 | Counts, an exact language histogram, exactly the ML repositories sorted by score, and exactly the popular ML repositories sorted by stars |
| GitHubAnalyzer.MlScoreRaw | src/discovery/github_analyzer.py:379-404 | A found organisation's raw score lies within [2, 10] |
| GitHubAnalyzer.CalculateMlScore | src/discovery/github_analyzer.py:374-406 | 0 without an organisation, otherwise between 2 and 10 |
| GitHubAnalyzer.MlScoreIsTruncatedRaw | src/discovery/github_analyzer.py:406 | The clamp never binds: the score is the floor of the raw score |
| GitHubAnalyzer.RemoveCorporateSuffix | src/discovery/github_analyzer.py:139 | Removing a trailing corporate suffix never lengthens the name |
| GitHubAnalyzer.OrgNameCandidates | src/discovery/github_analyzer.py:141-155 | Five to seven candidates; an IndexError exactly when the name holds a space but no word |
| GitHubAnalyzer.KeepValidOnce | src/discovery/github_analyzer.py:157-164 | The filtering loop keeps the valid candidates, each once, in order |
| GitHubAnalyzer.OrgNamesForFacts | src/discovery/github_analyzer.py:134-166 | At most 7 valid names, none repeated, so the cut to 10 never binds; the only failure is a name with a space but no word |
| GitHubAnalyzer.GenerateOrgNames | src/discovery/github_analyzer.py:134-166 | The method computes `OrgNamesFor` |
| GitHubAnalyzer.WebsiteOrg | src/discovery/github_analyzer.py:117-127 | The page's first plausible organisation link, or none when no link is plausible |
| GitHubAnalyzer.FirstExisting | src/discovery/github_analyzer.py:97-100 | The first candidate the endpoint confirms, no earlier one confirmed; none when no candidate is confirmed |
| GitHubAnalyzer.FirstExistingName | src/discovery/github_analyzer.py:97-100 | The candidate loop returns `FirstExisting` |
| GitHubAnalyzer.FindOrganization | src/discovery/github_analyzer.py:81-102 | The method computes `OrganizationFor` |
| GitHubAnalyzer.OrganizationForFacts | src/discovery/github_analyzer.py:81-102 | A name-derived organisation exists and passed the name filter; failure only from the name generation; none with neither website nor name |
| GitHubAnalyzer.PaginateBound | src/discovery/github_analyzer.py:206-222 | With pages of at most 100 items, fewer than 600 repositories are collected |
| GitHubAnalyzer.PaginateExtends | src/discovery/github_analyzer.py:199-233 | Collected repositories are never dropped |
| GitHubAnalyzer.GetOrganizationRepositories | src/discovery/github_analyzer.py:199-233 | The pagination loop computes `Paginate` over the named organisation's listing from page 1, below 600 repositories |
| GitHubAnalyzer.NotFoundReport | src/discovery/github_analyzer.py:43-63 | Without an organisation the report is all zeros and empty lists, with no recent activity |
| GitHubAnalyzer.AnalyzeCompanyGithub | src/discovery/github_analyzer.py:43-79 | The organisation lookup decides: its error propagates, none gives the empty report; found gives that organisation, the analysis of every repository of that organisation's paginated listing, its recent-activity answer, and the ML score of those counts, within [2, 10] |
| YcScraper.YearSuffix | src/discovery/yc_scraper.py:163 | Two digits at the end, or just before a final newline, are found |
| YcScraper.BatchToYear | src/discovery/yc_scraper.py:160-169 | 2000 plus the two-digit suffix, otherwise the current year |
| YcScraper.TargetBatchYears | src/discovery/yc_scraper.py:25 | W22, S22 and W23 map to 2022, 2022 and 2023, whatever the clock |
| YcScraper.ExtractTags | src/discovery/yc_scraper.py:153-158 | Every non-blank tag text survives stripped; no blank tag survives; no more tags than texts |
| YcScraper.ExtractTagsFacts | src/discovery/yc_scraper.py:153-158 | The tags keep the order of their texts |
| YcScraper.ExtractCompanyData | src/discovery/yc_scraper.py:99-136 | A record exactly when the stripped heading is non-empty, with each field from its capture |
| YcScraper.ParsedCompaniesFacts | src/discovery/yc_scraper.py:80-97 | At most one record per block, each named, tagged with its batch and founding year |
| YcScraper.ParseCompanies | src/discovery/yc_scraper.py:80-97 | The block loop computes `ParsedCompanies` |
| YcScraper.FilterSeattleCompanies | src/discovery/yc_scraper.py:171-194 | The loop keeps exactly the Seattle-area records, in order |
| YcScraper.SeattleFilterFacts | src/discovery/yc_scraper.py:171-194 | A record is kept exactly when it is Seattle-area; the kept records are a subsequence |
| YcScraper.GetSeattleCompanies | src/discovery/yc_scraper.py:40-60 | The batch loop concatenates the outcomes of the batches that did not raise |
| YcScraper.BatchOutcomeFacts | src/discovery/yc_scraper.py:45-52 | A batch's records are Seattle-area, named, from Y Combinator, with that batch and its year |
| YcScraper.SeattleCompaniesFacts | src/discovery/yc_scraper.py:40-60 | Every collected record is a named Seattle-area record of a target batch, founded in 2022 or 2023 |
| YcScraper.FailedBatchSkipped | src/discovery/yc_scraper.py:57-58 | A failing batch contributes nothing, and the others still contribute |
| GeekWireScraper.IsStartupRelevant | src/discovery/geekwire_scraper.py:169-187 | Relevant exactly when a startup term and a Seattle term occur in the lower-cased, space-joined title, summary and content; a term in any single field is enough |
| GeekWireScraper.StraddlingMatchCounts | src/discovery/geekwire_scraper.py:171-185 | "series a" split across the title and summary still makes the article relevant, although no field contains it |
| GeekWireScraper.RelevanceIgnoresCase | src/discovery/geekwire_scraper.py:169-187 | Lower-casing the inputs first does not change the relevance test |
| GeekWireScraper.RelevantExample | src/discovery/geekwire_scraper.py:169-187 | A headline "RAISES" with a summary "SEATTLE" is relevant |
| GeekWireScraper.ExtractCompanyName | src/discovery/geekwire_scraper.py:224-245 | The stripped capture of the first pattern whose capture passes the filter; none exactly when every capture is rejected |
| GeekWireScraper.NameFallsThrough | src/discovery/geekwire_scraper.py:237-243 | A rejected capture falls through to the next pattern's capture |
| GeekWireScraper.FirstSome | src/discovery/geekwire_scraper.py:258-262 | The first capture that matched, in pattern order; none exactly when no pattern matched |
| GeekWireScraper.ExtractFundingInfo | src/discovery/geekwire_scraper.py:247-284 | The first matching amount; the first matching round, title-cased; the investor capture, stripped; each absent exactly when nothing matched |
| GeekWireScraper.RoundTitleCased | src/discovery/geekwire_scraper.py:275 | The round is title-cased: "series a" becomes "Series A" |
| GeekWireScraper.DescriptionFallback | src/discovery/geekwire_scraper.py:304-309 | The first line, cut to 200 characters plus "..." when longer; it has no newline |
| GeekWireScraper.ExtractDescription | src/discovery/geekwire_scraper.py:286-309 | The stripped match when there is one; otherwise exactly the first-line fallback, without a newline and at most 203 characters |
| GeekWireScraper.ParseCompanyFromContent | src/discovery/geekwire_scraper.py:189-222 | No record without a name; otherwise the name, description, funding, website (empty when none was found) and article link, with the location defaulting to Seattle, WA |
| GeekWireScraper.ArticleCompanies | src/discovery/geekwire_scraper.py:109-139 | At most one record, present exactly when the article has text, is relevant and names a company |
| GeekWireScraper.ScrapeRssFeed | src/discovery/geekwire_scraper.py:67-95 | The entry loop computes `FeedCompanies` |
| GeekWireScraper.FeedCompaniesFacts | src/discovery/geekwire_scraper.py:81-91 | Every record comes from a recent entry of the feed whose article names it; the name is at least 2 long |
| GeekWireScraper.OldEntrySkipped | src/discovery/geekwire_scraper.py:83-85 | An entry dated before the cutoff contributes nothing |
| GeekWireScraper.DeduplicateCompanies | src/discovery/geekwire_scraper.py:346-357 | The seen-names loop keeps the first record of each lower-cased, stripped name |
| GeekWireScraper.DeduplicateFacts | src/discovery/geekwire_scraper.py:346-357 | A subsequence with pairwise different name keys that covers every key of the input |
| GeekWireScraper.FirstOfNameKept | src/discovery/geekwire_scraper.py:351-355 | The first record carrying a name key is kept |
| GeekWireScraper.GetRecentStartups | src/discovery/geekwire_scraper.py:43-65 | The feeds that did not raise, concatenated, then deduplicated by name |
| LinkedInScraper.Slug | src/discovery/linkedin_scraper.py:155-158 | The slug has no '/' and is no longer than the address |
| LinkedInScraper.CardLink | src/discovery/linkedin_scraper.py:155-158 | A company link exactly when the card's anchor points into "/company/"; it is the company-page prefix followed by a '/'-free slug |
| LinkedInScraper.SlugFollowsLastMarker | src/discovery/linkedin_scraper.py:155-158 | The slug is the '/'-free segment after the last "/company/" of the address |
| LinkedInScraper.ExtractCompanyFromJobCard | src/discovery/linkedin_scraper.py:128-173 | No record without a company element or with a name shorter than 2; otherwise the name, title, location and company link with their defaults |
| LinkedInScraper.HeadingWinsOverLink | src/discovery/linkedin_scraper.py:132-141 | A too-short heading rejects the card even though the link text would do |
| LinkedInScraper.TextCompany | src/discovery/linkedin_scraper.py:202-209 | A text-fallback record has its fixed description, location and source, and no titles |
| LinkedInScraper.ExtractCompaniesFromText | src/discovery/linkedin_scraper.py:175-211 | The match loop computes `TextCompanies` |
| LinkedInScraper.TextCompaniesFollowMatches | src/discovery/linkedin_scraper.py:189-209 | The fallback records follow the matches in increasing positions |
| LinkedInScraper.TextCompaniesNames | src/discovery/linkedin_scraper.py:195-201 | Every fallback name is plausible, and no two records share a name |
| LinkedInScraper.TextCompaniesCover | src/discovery/linkedin_scraper.py:189-201 | Every plausible match is represented by its stripped name |
| LinkedInScraper.CardCompaniesMembership | src/discovery/linkedin_scraper.py:114-120 | A card record is exactly what some card of the page yields |
| LinkedInScraper.ParseJobResults | src/discovery/linkedin_scraper.py:106-126 | The card loop computes `JobResults` |
| LinkedInScraper.JobResultsFacts | src/discovery/linkedin_scraper.py:122-126 | The fallback runs exactly when no card yields a record; every card record is kept |
| LinkedInScraper.SearchJobs | src/discovery/linkedin_scraper.py:90-104 | A 200 answer yields the records its page yields; any other answer, including 429, yields none |
| LinkedInScraper.MergeTitlesFacts | src/discovery/linkedin_scraper.py:223-226 | The merged titles are the union of both lists, each once; the rest of the record is untouched |
| LinkedInScraper.DeduplicateCompanies | src/discovery/linkedin_scraper.py:213-230 | The dictionary loop computes `Deduplicated` |
| LinkedInScraper.DeduplicatedKeepsFirst | src/discovery/linkedin_scraper.py:213-230 | One record per name key, in first-occurrence order, equal to the first such record except for its titles |
| LinkedInScraper.DeduplicatedTitles | src/discovery/linkedin_scraper.py:220-226 | A kept record's titles are exactly the titles of every record with its name key |
| LinkedInScraper.GetCompaniesHiringMl | src/discovery/linkedin_scraper.py:52-73 | The searches that did not raise, concatenated, then deduplicated with merging |
| LinkedInScraper.FailedSearchSkipped | src/discovery/linkedin_scraper.py:57-67 | A failing search contributes nothing, and the others still contribute |
| LinkedInScraper.SearchMembership | src/discovery/linkedin_scraper.py:57-61 | Before deduplication, a record is exactly one that a successful search's page yields |
| DiscoveryEngine.AggregateIsConcatenation | src/discovery/discovery_engine.py:76-108 | Pooling concatenates YC, GeekWire and LinkedIn; a collector that raised adds nothing |
| DiscoveryEngine.AggregateMembership | src/discovery/discovery_engine.py:78-105 | A record is pooled exactly when a collector that did not raise returned it |
| DiscoveryEngine.AfterProtocol | src/discovery/discovery_engine.py:232-233 | The text after the first "://" is a suffix of the URL; without "://" it is the URL |
| DiscoveryEngine.DropWww | src/discovery/discovery_engine.py:240-241 | Dropping "www." leaves a suffix; a host not starting with it is unchanged |
| DiscoveryEngine.ExtractDomain | src/discovery/discovery_engine.py:226-243 | An empty URL gives an empty domain; a domain has no '/', is lower case and is no longer than the URL |
| DiscoveryEngine.DomainIsSlice | src/discovery/discovery_engine.py:226-243 | The domain is one '/'-free stretch of the URL, lower-cased |
| DiscoveryEngine.LowerCaseWwwDropped | src/discovery/discovery_engine.py:240-243 | A bare host starting with "www." loses the prefix before lower-casing |
| DiscoveryEngine.OtherHostLowered | src/discovery/discovery_engine.py:240-243 | Any other bare host is only lower-cased, so "WWW." is kept |
| DiscoveryEngine.IdentityKey | src/discovery/discovery_engine.py:119-123 | The website's domain when it is non-empty, otherwise the lower-cased, stripped name; either way lower case |
| DiscoveryEngine.DeduplicatedFacts | src/discovery/discovery_engine.py:110-130 | A subsequence with non-empty, pairwise different keys that covers every non-empty key of the input |
| DiscoveryEngine.DeduplicatedKeepsFirst | src/discovery/discovery_engine.py:118-127 | The first record of each non-empty key is kept |
| DiscoveryEngine.NameKeyMeetsDomainKey | src/discovery/discovery_engine.py:119-126 | Names and domains share one seen-set: a name key drops a later record whose domain equals it |
| DiscoveryEngine.ProfileMatches | src/discovery/discovery_engine.py:179-197 | At most four profile criteria can hold |
| DiscoveryEngine.TechnicalPoints | src/discovery/discovery_engine.py:199-204 | The technical points are at most 2 |
| DiscoveryEngine.StrategicFit | src/discovery/discovery_engine.py:175-206 | The fit is within [0, 10] |
| DiscoveryEngine.FitCapNeverBinds | src/discovery/discovery_engine.py:206 | The cap at 10 never binds: the fit is twice the criteria met plus the technical points |
| DiscoveryEngine.HighFitNeedsThreeCriteria | src/discovery/discovery_engine.py:175-206 | A fit of 7 or more needs at least three profile criteria |
| DiscoveryEngine.FitMonotoneInScore | src/discovery/discovery_engine.py:199-204 | A higher AI-washing score never lowers the fit |
| DiscoveryEngine.CollectedRecordNeverHighPotential | src/discovery/discovery_engine.py:184-192 | With no funding stage and no employee count the default criteria give a fit of at most 6 |
| DiscoveryEngine.CombinedParts | src/discovery/discovery_engine.py:210-224 | A non-empty keyword without a space occurs in the combined text exactly when it occurs in the description, the name or one keyword |
| DiscoveryEngine.HealthcareRelevant | src/discovery/discovery_engine.py:208-224 | Relevant exactly when some healthcare keyword occurs in the lower-cased description, name or one of the keywords |
| DiscoveryEngine.AnalyzeOne | src/discovery/discovery_engine.py:138-171 | Only the analysis fields change. A failure gives score 0 and the raising analysis's error, and leaves the other analysis fields as they were; success gives the score, the GitHub analyser's report, the fit of the scored record and the healthcare flag |
| DiscoveryEngine.Scoring.Counted | src/discovery/discovery_engine.py:155-164 | A record is counted as analysed exactly when its analyses returned, and never as both high-potential and filtered |
| DiscoveryEngine.Recorded | src/discovery/discovery_engine.py:156-164 | Adding bounded counts keeps the counters consistent |
| DiscoveryEngine.RecordedTally | src/discovery/discovery_engine.py:132-173 | Analysing a batch keeps the counters consistent and adds at most one analysed record per record |
| DiscoveryEngine.TallyAppend | src/discovery/discovery_engine.py:138-164 | Counting two batches one after the other equals counting their concatenation |
| DiscoveryEngine.TallyAllSucceed | src/discovery/discovery_engine.py:138-164 | When no analysis raises, every record is counted as analysed |
| DiscoveryEngine.Recommendations | src/discovery/discovery_engine.py:271-294 | At most three distinct notes in fixed order, each present exactly when its condition holds, with the healthcare count of the top targets |
| DiscoveryEngine.Engine.constructor | src/discovery/discovery_engine.py:25-46 | A new engine has the configured criteria and all-zero statistics without timestamps |
| DiscoveryEngine.Engine.DiscoverCompanies | src/discovery/discovery_engine.py:76-108 | Returns the pooled records and overwrites only `companies_discovered`, with their number |
| DiscoveryEngine.Engine.DeduplicateCompanies | src/discovery/discovery_engine.py:110-130 | The seen-set loop computes `Distinct` on the identity key |
| DiscoveryEngine.Engine.AnalyzeCompany | src/discovery/discovery_engine.py:139-171 | One record is analysed as `AnalyzeOne` says, and the counters grow by what it counts |
| DiscoveryEngine.Engine.Analyze | src/discovery/discovery_engine.py:132-173 | Every record comes back analysed, in order; the counters grow by the batch's tally |
| DiscoveryEngine.Engine.StoreResults | src/discovery/discovery_engine.py:245-252 | No error exactly when every upsert succeeds; otherwise the first failing upsert's error |
| DiscoveryEngine.Engine.GenerateDiscoveryReport | src/discovery/discovery_engine.py:254-269 | A missing timestamp raises; then a failing top-targets query propagates; otherwise the report carries the runtime, statistics, targets and recommendations |
| DiscoveryEngine.Engine.RunDailyDiscovery | src/discovery/discovery_engine.py:48-74 | As written, a run on an engine with no end time always fails: with the first failing upsert's error, else the missing-timestamp TypeError. The counters grow from their old values by the tally of the deduplicated records, the start time and discovered count are overwritten, and the end time stays unset |
| DiscoveryEngine.Engine.RunDailyDiscoveryCorrected | src/discovery/discovery_engine.py:48-74 | With the end time set first: the first failing upsert's error, else the query's error, else a report with the run's duration, the new statistics, the top targets and their recommendations. The counters grow from their old values by the tally of the deduplicated records |
| Dashboard.CountWhere | dashboard.py:307-313 | A comprehension count succeeds exactly when every test does, is at most the row count, and otherwise fails with the first exception |
| Dashboard.CountWhereExtremes | dashboard.py:307-313 | A count equals the row count exactly when every test is true, and is 0 exactly when every test is false |
| Dashboard.CountWhereAppend | dashboard.py:307-313 | Counting two batches of rows succeeds exactly when both succeed, and the counts add up |
| Dashboard.HighPotentialTest | dashboard.py:308-310 | High-potential exactly when both scores are present and at least 7; a NULL that gets compared raises |
| Dashboard.HealthcareTest | dashboard.py:311 | Counted exactly when healthcare relevance is true; NULL counts as false |
| Dashboard.SeattleTest | dashboard.py:312-313 | Counted exactly when the lower-cased location contains "seattle"; a NULL location raises |
| Dashboard.CalculateStats | dashboard.py:305-320 | Succeeds exactly when no row raises; every count is at most the total; a NULL score is reported before a NULL location |
| Dashboard.StatsAppend | dashboard.py:305-320 | The statistics of two batches of rows add up to those of the rows together |
| Dashboard.HighPotentialExtremes | dashboard.py:308-310 | Every row counts exactly when all have both scores at 7 or more; none counts exactly when every test is false |
| Dashboard.ClassOf | dashboard.py:379-386 | High exactly from 8, medium exactly for 6 and 7, low below 6 |
| Dashboard.ClassMonotone | dashboard.py:379-386 | A higher score never gets a lower class |
| Dashboard.Truncate | dashboard.py:353-355 | At most 153 characters; a description up to 150 is unchanged; a longer one keeps its first 150 characters and ends with "..." |
| Dashboard.TruncateIdempotent | dashboard.py:353-355 | Truncating a shown description again changes nothing |
| Dashboard.TruncateKeepsStart | dashboard.py:353-355 | The card starts with the description's first characters, up to 150 |
| Dashboard.CardFor | dashboard.py:342-377 | A card exactly when both scores and the description are present; the classes, the truncated description, the badge and the link as the row says |
| Dashboard.MapAll | dashboard.py:326-327 | Rendering succeeds exactly when every card does, one card per row in order; otherwise it fails with the first exception |
| Dashboard.MapAllFailed | dashboard.py:326-327 | Once a card raises, later rows cannot change the outcome |
| Dashboard.Shown | dashboard.py:326 | `companies[:20]` keeps all rows, or 20 of them |
| Dashboard.RenderCards | dashboard.py:322-327 | The cards of the first twenty rows, in order, or the first exception |
| Dashboard.GenerateDashboard | dashboard.py:277-303 | With the template's braces doubled: a fetch failure propagates, then a statistics failure, then a card failure; on success, the statistics of all rows and at most twenty cards |
| Dashboard.GenerateDashboardAsWritten | dashboard.py:277-303 | As written, no page is produced: a fetch, statistics or card failure propagates, and otherwise formatting the template raises a KeyError |
| Dashboard.CompleteRowRenders | dashboard.py:305-377 | A row with both scores, a description and a location passes the statistics and gets a card, so it reaches the template |

## Left out

- HTTP sessions, sleeps and rate limiting, including the 60-second wait after a 429 from LinkedIn, are left out. They only delay the pipeline.
- HTML and RSS parsing and the regular expressions are left out. Their results are inputs: captures, anchors, cards, blocks and entries.
- The wall clock is a parameter (timestamps, the current year, the GeekWire cutoff, repository recency).
- Logging and `print` are left out.
- Database access (`src/data/database.py`) is left out. Upserts and the top-companies query are parameters that may fail. The engine's database handle is never initialised in the source, so a real run's upsert would fail; the model leaves that open.
- The HTML text of the dashboard, file writing and JSON rendering are left out. A card keeps only the values it displays; formatting the template is modelled only by its outcome.
- `main.py`, `setup.py` and `test_runner.py` are left out.
- The GeekWire helpers `_parse_article_date`, `_get_article_content`, `_extract_website` and `_extract_location_from_content` are not modelled as code. Their answers are fields of an `Entry` or an `Article`.
- `_check_recent_ml_activity` and `_is_github_organization` are boolean inputs, because they depend on the network and the clock.
- `lower()`, `strip()` and `split()` are modelled on ASCII letters and Python's whitespace set. Unicode case mapping is left out.
- AiWashingDetector.CombineScores, AiWashingDetector.CalculateAiWashingScore, GitHubAnalyzer.CalculateMlScore: these compute on exact reals, whereas the source uses doubles. A score truncated to an integer can therefore be one higher than the source's. For example, sub-scores 9, 3, 3 and 4 combine to 5 in the model, whereas Python computes int(4.999999999999999) = 4. Likewise, CalculateMlScore(true, 14, 3, 3, 0, false) is 5 in the model and 4 in Python.
- GitHubAnalyzer.SortDesc: the result is stated to be descending and a permutation. The stability of Python's sort, that is, the order among equal keys, is not stated.
- Page anchors: `_get_page_content` returns the page's visible text with the tags stripped (src/analysis/ai_washing_detector.py:425). The anchors searched for in that text are therefore almost never found, and the fallback paths almost always decide. The model keeps anchors as an input and so covers both cases.
- GitHubAnalyzer.RemoveCorporateSuffix: the contract states only that the result is no longer than the input. The exact suffix match is in its body, but no lemma about it is stated.
- LinkedInScraper.MergeTitlesFacts: the merged titles keep first-occurrence order. Python's `list(set(...))` order is unspecified, so only the set of titles and the absence of repeats are claimed.
- In the source, the engine's counters accumulate over runs and are never reset; the model does the same. `companies_discovered` is overwritten each run.
- A record that raises during analysis is kept, with its partially written fields, only where the model's `AnalyzeOne` says so. It does not model which of the analysis fields were already written before the exception.
- Strategic fit is computed before the GitHub report is stored, because the fit does not read that report.
- Settings.NegativeBlogTerms: line 171 of config/settings.py is not valid Python, because words follow the string literal. The entry is read as "AI-powered", so the module as written would not even import.
- Dashboard rows hold only the columns the dashboard reads. The keys of a database row are always present, so NULL columns are `None` and the `dict.get` defaults never apply.

## Findings

| source | as written | input that shows it | evidently intended | confidence | as-written member | corrected member |
|---|---|---|---|---|---|---|
| src/discovery/discovery_engine.py:256 | The report subtracts `run_end_time` before that time is set, so the subtraction raises a TypeError on every run | Any run of a freshly constructed engine | Set the end time before generating the report | not executed | DiscoveryEngine.Engine.RunDailyDiscovery | DiscoveryEngine.Engine.RunDailyDiscoveryCorrected |
| dashboard.py:332 | `HTML_TEMPLATE.format` is given a template whose CSS braces are single, e.g. `body {` at line 19, so it raises a KeyError and no page is ever written | One fetched row with both scores, a description and a location | Double the template's literal braces | not executed | Dashboard.GenerateDashboardAsWritten | Dashboard.GenerateDashboard |
| src/analysis/ai_washing_detector.py:246 | `_search_job_postings` reads an undefined name `company`; the NameError is caught and every named company scores 3 | A company named "Acme" with one "Machine Learning Engineer" posting | Score the postings by the ML title ratio (10 here) | not executed | AiWashingDetector.JobPostingsAsWritten | AiWashingDetector.JobPostingsScore |
