# Package-evaluation CLI: scoring core

This project models the scoring and decision logic of a command-line tool that rates open-source packages. The tool reads a file of GitHub or npm URLs. For each URL it resolves an npm package to its GitHub repository. It then runs five metrics:

- bus factor;
- responsive maintainer;
- correctness;
- ramp-up;
- license.

It combines the five into a net score and appends one NDJSON record per URL to an output file. It stops at the first failure.

Every fetched value is a parameter of the model. This covers GitHub API records, a registry response, a cloned file tree, the current time, and measured durations. A failed fetch is an `Err` value. What remains is sequential, deterministic logic, stated over exact `real` numbers and unbounded integers.

The modules follow the source files:

- `Results`: the errors and result types.
- `JsText`: the JavaScript string built-ins the code relies on, namely `includes`, `indexOf`, `split`, `trim` and the regular-expression character classes (`\s`, `.`).
- `MetricBase`: the shared `Metric` score state, plus the `parts[3]`/`parts[4]` owner/repository split.
- `WorkTree`: the shared `<cwd>/test` checkout directory that the correctness and license metrics clone into and remove. It is modelled as a class over an optional map from path to contents.
- One module per metric: `BusFactorMetric`, `ResponsiveMaintainer`, `CorrectnessMetric`, `RampUpMetric`, `LicenseMetric`.
- `NetScoring`: the net score, with `toFixed(3)` rounding done exactly.
- `NpmRegistry`: the registry URL clean-up.
- `UrlProcessing`: URL classification, the record, the batch loop and `main`.
- `Logging`: level parsing, gating and the line format.

In the source, each metric class extends `Metric`. In the model, each metric class holds a `Metric` object as `base`, and its methods update `base.score`.

Two modelling choices affect several modules:

- Where the source divides by zero, the model follows IEEE behaviour explicitly. In the bus factor's 3.8-fold drop-off test, `x / 0` is infinite for `x > 0`, and `0 / 0` is `NaN`, which compares false.
- A JavaScript value that may be `undefined`, such as `parts[4]` of a short URL, is an `Option`.

## Model

| member | source | states |
|---|---|---|
| MetricBase.Metric.constructor | cli/lib/models/Metric.ts:13-16 | the URL is stored and the score starts at 0 |
| MetricBase.Metric.GetScore | cli/lib/models/Metric.ts:18-20 | returns the current score |
| MetricBase.Metric.UpdateScore | cli/lib/models/Metric.ts:22-24 | the score becomes the new value and the URL is unchanged |
| MetricBase.OwnerAndRepo | cli/lib/models/BusFactor.ts:21-24 | `parts[3]` exists iff the URL has at least three slashes, `parts[4]` iff it has at least four; neither piece contains a slash |
| MetricBase.GitHubHeadSplit | cli/lib/models/RampUp.ts:26-29 | `https://github.com/<path>` splits on `/` into `https:`, the empty string, `github.com`, then the pieces of the path |
| MetricBase.GitHubOwnerAndRepo | cli/lib/models/RampUp.ts:26-29 | for `https://github.com/<owner>/<repo>[/...]` with slash-free owner and repo, the owner and repository name are read back exactly |
| JsText.IndexOf | cli/lib/models/License.ts:76 | `indexOf` finds something iff the pattern occurs, which is what `includes` tests |
| JsText.IndexFromMeaning | cli/lib/models/UrlProcessor.ts:83 | the search returns the first occurrence at or after the start, and returns none only when there is no occurrence |
| JsText.SplitJoin | cli/lib/models/BusFactor.ts:22 | joining the pieces of `split(sep)` with `sep` gives back the original string |
| JsText.SplitPiecesAvoidSeparator | cli/lib/models/BusFactor.ts:22 | no piece of `split(sep)` contains `sep` |
| JsText.SplitCharCount | cli/lib/models/RampUp.ts:70 | splitting on one character gives one more piece than there are occurrences of it |
| JsText.JoinSplitChar | cli/lib/models/RampUp.ts:70 | splitting on `c` undoes joining with `c` pieces that contain no `c` |
| JsText.SplitCharPrefix | cli/lib/models/RM.ts:45-48 | splitting `a + c + b` on `c`, where `a` has no `c`, gives `a` followed by the pieces of `b` |
| JsText.SplitFromShift | cli/lib/models/RM.ts:45-48 | splitting the tail of a string does not depend on the text before it |
| JsText.SplitSecondPiece | cli/lib/models/UrlProcessor.ts:83 | `split(sep)[1]` exists when `sep` occurs, and is the text from just after the first occurrence up to the next occurrence or the end |
| JsText.Segment | cli/lib/models/RM.ts:47 | `parts[i]` is defined iff `i` is within the array, and is then that element |
| JsText.Trim | cli/lib/models/UrlProcessor.ts:58 | `trim()` is a slice of the input with only whitespace outside it and no whitespace at either of its ends |
| JsText.TrimIdempotent | cli/lib/models/UrlProcessor.ts:58 | trimming twice is trimming once |
| WorkTree.Checkout | cli/lib/models/Correctness.ts:43-49 | after a checkout, the paths are the cloned ones plus those already present, and every cloned path holds the cloned contents |
| WorkTree.CheckoutFresh | cli/lib/models/Correctness.ts:43-49 | into an absent directory, a checkout holds exactly the cloned files |
| WorkTree.AfterCleanUp | cli/lib/models/Correctness.ts:172-180 | a successful clean-up removes the directory; a failed one leaves it as it was |
| WorkTree.Workspace.constructor | cli/lib/models/Correctness.ts:29 | the directory starts as given |
| WorkTree.Workspace.Exists | cli/lib/models/Correctness.ts:61-62 | `existsSync` is true iff the directory exists and holds the path |
| WorkTree.Workspace.CleanUp | cli/lib/models/License.ts:117-126 | the directory becomes `AfterCleanUp` of the old one, so only an existing directory is acted on and a removal error is swallowed |
| WorkTree.Workspace.InitRepository | cli/lib/models/License.ts:37-41 | a failed `git.init` changes nothing; otherwise the directory exists and keeps its files |
| WorkTree.Workspace.Clone | cli/lib/models/Correctness.ts:40-54 | a failed clone reports the error and changes nothing; otherwise the cloned files are checked out |
| BusFactorMetric.Counts | cli/lib/models/BusFactor.ts:5-8 | the contribution counts, one per contributor and in list order |
| BusFactorMetric.Critical | cli/lib/models/BusFactor.ts:64-74 | the critical prefix runs from the top up to and including the first entry followed by a 3.8-fold drop-off, or is the whole list; it has at least one entry |
| BusFactorMetric.PeopleFrom | cli/lib/models/BusFactor.ts:79-86 | the scan stops at the first prefix whose sum reaches the target, or at the end of the list |
| BusFactorMetric.BusPeopleBounds | cli/lib/models/BusFactor.ts:76-86 | busPeople is the smallest k ≥ 1 whose top-k sum reaches 60 % of the critical total, and 1 ≤ busPeople ≤ criticalContributors |
| BusFactorMetric.BusFactorRange | cli/lib/models/BusFactor.ts:51-53 | fewer than two contributors score 0, and every score lies in [0, 1) |
| BusFactorMetric.BusFactorZero | cli/lib/models/BusFactor.ts:92 | the score is 0 exactly when every critical contributor is needed to reach the target |
| BusFactorMetric.TwoContributorsExample | cli/tests/busFactorMetric_test.ts:33-42 | `[100, 10]` has one critical contributor and one bus person, so it scores 0 |
| BusFactorMetric.SevenContributorsExample | cli/tests/busFactorMetric_test.ts:16-30 | `[100, 90, 70, 50, 30, 20, 10]` has seven critical contributors and three bus people, so it scores 4/7 |
| BusFactorMetric.SortedUnique | cli/lib/models/BusFactor.ts:56 | two descending orderings of the same counts are equal |
| BusFactorMetric.CountsPermutation | cli/lib/models/BusFactor.ts:56 | permuting contributors permutes their counts |
| BusFactorMetric.ScoreIgnoresOrder | cli/lib/models/BusFactor.ts:56 | any two sorted arrangements of the same contributors score the same, so ties in the sort do not matter |
| BusFactorMetric.SortByContributions | cli/lib/models/BusFactor.ts:56 | sorts the array in place by contributions, descending, as a permutation of its contents |
| BusFactorMetric.CountCritical | cli/lib/models/BusFactor.ts:58-74 | the first loop yields `Critical` of the counts and the sum of that prefix |
| BusFactorMetric.CountBusPeople | cli/lib/models/BusFactor.ts:79-86 | the second loop yields the number of top contributors needed to reach the target |
| BusFactorMetric.ScoreSorted | cli/lib/models/BusFactor.ts:58-92 | on sorted counts, the two loops and `1 - busPeople / criticalContributors` give `BusFactorScore` |
| BusFactorMetric.CalculateBusFactor | cli/lib/models/BusFactor.ts:50-93 | 0 for fewer than two contributors, with the array untouched; otherwise the array ends sorted descending, as a permutation of its contents, and the score is `BusFactorScore` of the sorted counts |
| BusFactorMetric.BusFactor.constructor | cli/lib/models/BusFactor.ts:15-19 | the base metric holds the URL with score 0, and owner and repository come from the URL split |
| BusFactorMetric.BusFactor.Init | cli/lib/models/BusFactor.ts:26-36 | a fetch failure propagates out and leaves the score alone; otherwise the score is that of a sorted permutation of the fetched contributors |
| ResponsiveMaintainer.AgeScore | cli/lib/models/RM.ts:113-131 | the age score is never negative, and is 1 for an empty list |
| ResponsiveMaintainer.AgeScoreRange | cli/lib/models/RM.ts:127-130 | with no item from the future the age score is in [0, 1], and it is 0 exactly when the mean age is at least 365 days |
| ResponsiveMaintainer.CalculateIssueOrPRAgeScore | cli/lib/models/RM.ts:113-131 | the `forEach` total, the mean and the clamp give `AgeScore` |
| ResponsiveMaintainer.RecencyScore | cli/lib/models/RM.ts:153-159 | the recency score is never negative |
| ResponsiveMaintainer.RecencyScoreRange | cli/lib/models/RM.ts:153-159 | for a past commit the recency score is at most 1; it is 1 iff the commit is now, and 0 iff the commit is at least 365 days old |
| ResponsiveMaintainer.BlendRange | cli/lib/models/RM.ts:74 | the 0.4/0.4/0.2 blend of sub-scores in [0, 1] is in [0, 1], and perfect sub-scores blend to 1 |
| ResponsiveMaintainer.FilterBots | cli/lib/models/RM.ts:99 | no kept pull request is by a bot, and none is added |
| ResponsiveMaintainer.FilterBotsKeeps | cli/lib/models/RM.ts:99 | each pull request not by a bot is kept exactly as often as it occurs, and each one by a bot is dropped |
| ResponsiveMaintainer.FilterBotsAppend | cli/lib/models/RM.ts:99 | filtering works piecewise over concatenation, so kept pull requests stay in their original order |
| ResponsiveMaintainer.FilterBotsCreatedBy | cli/lib/models/RM.ts:99 | filtering keeps the no-future-items condition |
| ResponsiveMaintainer.FetchIssueData | cli/lib/models/RM.ts:88-106 | the issues unfiltered and the pull requests without bots, or two empty lists if either fetch fails |
| ResponsiveMaintainer.FetchFailureScoresFull | cli/lib/models/RM.ts:102-105 | when issue or pull-request data cannot be fetched, both age scores are 1 |
| ResponsiveMaintainer.LastCommitDate | cli/lib/models/RM.ts:138-146 | the first commit's date, and an error when the fetch fails or the list is empty |
| ResponsiveMaintainer.CalculateScore | cli/lib/models/RM.ts:58-82 | 0 when the repository record or the last commit cannot be fetched; otherwise the blend of the two age scores and the recency score |
| ResponsiveMaintainer.ScoreRange | cli/lib/models/RM.ts:69-74 | with nothing from the future, the RM score lies in [0, 1] |
| ResponsiveMaintainer.RM.constructor | cli/lib/models/RM.ts:37-48 | the score starts at 0, `owner` is `parts[3]`, and the `URL` field is overwritten with `parts[4]` |
| ResponsiveMaintainer.RM.Init | cli/lib/models/RM.ts:50-53 | the score becomes the result of `calculateScore`, and the URL field is left alone |
| CorrectnessMetric.ManifestPointsRange | cli/lib/models/Correctness.ts:85-115 | the manifest earns between 0 and 0.175; it earns 0.175 iff all six flags are set, and 0 iff no counted flag is |
| CorrectnessMetric.MoreDependencies | cli/lib/models/Correctness.ts:85-115 | 0 without `package.json`, an error when its JSON does not parse, and otherwise the manifest's points |
| CorrectnessMetric.ReadmePointsValues | cli/lib/models/Correctness.ts:147-165 | the readme earns 0, 0.05 or 0.35; it earns 0 iff there is no `README.md` |
| CorrectnessMetric.Readme | cli/lib/models/Correctness.ts:147-165 | the step-by-step readme score is `ReadmePoints` of the directory |
| CorrectnessMetric.BadgeExample | cli/lib/models/Correctness.ts:156 | the bare badge line `[![NPM Downloads][npm-downloads]][npmtrends-url]` matches the downloads-badge pattern |
| CorrectnessMetric.ReadmeExample | cli/tests/correctnessMetric_test.ts:45-55 | a `README.md` holding just the badge line earns the full 0.35 |
| CorrectnessMetric.ActivityPointsRange | cli/lib/models/Correctness.ts:117-145 | activity earns between 0 and 1.05, and 1.05 exactly when every condition holds |
| CorrectnessMetric.ActivityExample | cli/tests/correctnessMetric_test.ts:28-42 | updated 2024-05-01, 1500 forks, 20 open issues and 20000 stars earn 0.65 |
| CorrectnessMetric.ApiHistory | cli/lib/models/Correctness.ts:117-145 | a failed repository fetch is an error; otherwise the step-by-step score is the activity points |
| CorrectnessMetric.CorrectnessScoreRange | cli/lib/models/Correctness.ts:56-83 | the capped sum is in [0, 1], and it is 0 on a repository-fetch or manifest-parse error |
| CorrectnessMetric.CorrectnessGate | cli/lib/models/Correctness.ts:60-67 | with neither `package.json` nor `README.md` the score is 0, whatever else holds |
| CorrectnessMetric.CheckCorrectness | cli/lib/models/Correctness.ts:56-83 | the gate, the three additions in order, the cap and the error path give `CorrectnessScore` |
| CorrectnessMetric.Correctness.constructor | cli/lib/models/Correctness.ts:25-32 | URL stored, score 0, the shared checkout directory, owner and repository from the URL split |
| CorrectnessMetric.Correctness.Init | cli/lib/models/Correctness.ts:34-38 | a failed clone propagates and changes neither the score nor the directory, and no clean-up runs; otherwise the score is that of the checkout, which is then cleaned up |
| LicenseMetric.LicenseScoreMeaning | cli/lib/models/License.ts:59-108 | the score is 0 or 1, and it is 1 iff one of the six license files or four readme files exists and contains an allowed identifier |
| LicenseMetric.FoundInAppend | cli/lib/models/License.ts:69-106 | scanning the license paths and then the readme paths is scanning both lists |
| LicenseMetric.DuplicateReadmeIrrelevant | cli/lib/models/License.ts:85-90 | the second `README.md` entry never changes the result |
| LicenseMetric.EmptyAllowList | cli/lib/models/License.ts:75-80 | an empty allow-list always scores 0 |
| LicenseMetric.ScanPaths | cli/lib/models/License.ts:69-82 | the nested loops with early return find a match iff some listed existing file contains some allowed identifier |
| LicenseMetric.CheckCompatibility | cli/lib/models/License.ts:33-113 | a failed init or clone scores 0, with the directory as git left it; otherwise the score is that of the checkout |
| LicenseMetric.MitExample | cli/tests/licenseMetric_test.ts:26-35 | a `LICENSE` naming MIT scores 1 with the default allow-list |
| LicenseMetric.ReadmeOnlyExample | cli/tests/licenseMetric_test.ts:49-57 | LGPLv2.1 named only in `README` scores 1 |
| LicenseMetric.GplExample | cli/tests/licenseMetric_test.ts:38-46 | files that all hold the GPL-3.0 text score 0 with the default allow-list |
| LicenseMetric.NoFilesExample | cli/tests/licenseMetric_test.ts:103-109 | a repository without any of the ten files scores 0 |
| LicenseMetric.License.constructor | cli/lib/models/License.ts:17-24 | the allow-list defaults to exactly `['LGPLv2.1', 'MIT', 'Apache-2.0']`, and the score starts at 0 |
| LicenseMetric.License.Init | cli/lib/models/License.ts:26-31 | clean-up, check, clean-up: the score is 0 on init or clone failure, and otherwise the score of the checkout into the cleaned directory; the directory ends cleaned again |
| LicenseMetric.CleanStartScoresClone | cli/lib/models/License.ts:26-28 | after a successful first clean-up, leftovers of an earlier clone cannot affect the score |
| NetScoring.NetScore | cli/lib/models/NetScore.ts:13-35 | construction succeeds iff all three arrays have five elements, failing with an arity error otherwise; the URL is kept and the latency is the rounded sum |
| NetScoring.NetScoreFormula | cli/lib/models/NetScore.ts:25-31 | the score is `s[0] * s[2] * (0.6 s[1] + 0.2 s[3] + 0.2 s[4])` |
| NetScoring.WeightsIrrelevant | cli/lib/models/NetScore.ts:13-31 | the values of the weights never affect the result |
| NetScoring.NetScoreUnit | cli/lib/models/NetScore.ts:31 | scores in [0, 1] give a net score in [0, 1] |
| NetScoring.AllOnes | cli/lib/models/NetScore.ts:31 | five perfect scores give exactly 1 |
| NetScoring.ZeroSlot | cli/lib/models/NetScore.ts:31 | a zero in slot 0 or slot 2 makes the score 0 |
| NetScoring.GetLatencyIsRoundedSum | cli/lib/models/NetScore.ts:34-39 | `getLatency` returns the sum of the latencies rounded to three decimals |
| NetScoring.SumNonNegative | cli/lib/models/NetScore.ts:34 | a sum of non-negative latencies is non-negative |
| NetScoring.Round3Close | cli/lib/models/UrlProcessor.ts:158 | `toFixed(3)` moves a number by at most half a thousandth |
| NetScoring.Round3Thousandths | cli/lib/models/UrlProcessor.ts:158 | a number of whole thousandths is unchanged by rounding |
| NetScoring.Round3Idempotent | cli/lib/models/UrlProcessor.ts:158 | rounding twice is rounding once |
| NetScoring.Round3Monotone | cli/lib/models/UrlProcessor.ts:158 | rounding keeps order |
| NetScoring.Round3Unit | cli/lib/models/UrlProcessor.ts:158 | rounding keeps a number inside [0, 1] |
| RampUpMetric.CheckDocumentationLink | cli/lib/models/RampUp.ts:58-64 | true iff the README is present and contains `http://` or `https://` followed by a non-whitespace character |
| RampUpMetric.LineCount | cli/lib/models/RampUp.ts:70 | `split('\n').length` is the number of newlines plus one |
| RampUpMetric.CalculateRampUpScore | cli/lib/models/RampUp.ts:66-82 | the +0.5, −0.4, +0.5 steps and the clamp give `RampUpScore`, which is in [0, 1] |
| RampUpMetric.RampUpScoreValues | cli/lib/models/RampUp.ts:66-82 | the score is one of 0, 0.1, 0.5, 0.6 and 1.0; an absent (null or empty) README scores 0 and a present one scores at least 0.1 |
| RampUpMetric.FetchReadme | cli/lib/models/RampUp.ts:41-56 | a failed fetch gives no README rather than an error |
| RampUpMetric.FailedFetchScoresZero | cli/lib/models/RampUp.ts:52-55 | a README that could not be fetched scores 0 |
| RampUpMetric.ShortReadme | cli/lib/models/RampUp.ts:74-78 | a README of fewer than 50 lines scores 0.6 with a link and 0.1 without |
| RampUpMetric.DocsReadmeExample | cli/tests/rampupMetric_test.ts:16-29 | the seven-line README ending in `https://docs.example.com` scores 0.6 |
| RampUpMetric.PlainReadmeExample | cli/tests/rampupMetric_test.ts:45-57 | the test's README `# Project`, `## Installation`, `Install instructions here` has no link and scores 0.1, below 0.5 |
| RampUpMetric.NoLinkWithoutColon | cli/lib/models/RampUp.ts:63 | text without a `:` has neither `http://` nor `https://` and so no link |
| RampUpMetric.RampUp.constructor | cli/lib/models/RampUp.ts:19-24 | URL stored, score 0, owner and repository from the URL split |
| RampUpMetric.RampUp.Init | cli/lib/models/RampUp.ts:31-39 | the score is `RampUpScore` of the fetched README and its link test |
| NpmRegistry.RequestTarget | cli/lib/api/Api.ts:95-100 | the request goes to `https://registry.npmjs.org` followed by the endpoint verbatim |
| NpmRegistry.StripGitPlus | cli/lib/api/Api.ts:107 | one leading `git+` is removed, and a URL without it is unchanged |
| NpmRegistry.StripDotGit | cli/lib/api/Api.ts:107 | one trailing `.git` is removed, and a URL without it is unchanged |
| NpmRegistry.CleanWithoutAffixes | cli/lib/api/Api.ts:107 | a URL with neither affix comes back unchanged |
| NpmRegistry.CleanUnwraps | cli/lib/api/Api.ts:107 | clean-up undoes wrapping in `git+` and `.git` |
| NpmRegistry.PrefixRemovedOnce | cli/lib/api/Api.ts:107 | `git+git+y` becomes `git+y`: each affix is removed once only |
| NpmRegistry.CleanNotIdempotent | cli/lib/api/Api.ts:107 | cleaning twice can differ from cleaning once |
| NpmRegistry.GetRepo | cli/lib/api/Api.ts:98-110 | a failed request propagates; a response without a repository URL is an error; otherwise the cleaned URL |
| NpmRegistry.MissingUrlIsError | cli/lib/api/Api.ts:102-105 | a missing repository URL is an error, never an empty result |
| UrlProcessing.SpelledOutMatches | cli/lib/models/UrlProcessor.ts:73-74 | text that spells a pattern out matches it |
| UrlProcessing.ContainsGitHubPrefix | cli/lib/models/UrlProcessor.ts:73 | any line containing `https://github.com/` anywhere is a GitHub URL |
| UrlProcessing.DotMatchesAnyCharacter | cli/lib/models/UrlProcessor.ts:73 | the unescaped `.` lets any non-line-terminator stand between `github` and `com` |
| UrlProcessing.NpmUrlContainsPackage | cli/lib/models/UrlProcessor.ts:74 | an npm URL contains `package`, so `split('package')[1]` exists |
| UrlProcessing.NpmPart | cli/lib/models/UrlProcessor.ts:83 | the text from after the first `package` up to the second one or the end |
| UrlProcessing.DetermineLinkType | cli/lib/models/UrlProcessor.ts:72-93 | a GitHub URL is returned unchanged, tested first; a URL that is neither kind is an invalid-URL-type error |
| UrlProcessing.NpmResolution | cli/lib/models/UrlProcessor.ts:79-89 | an npm URL that is not a GitHub URL is resolved by asking the registry for its `package` part |
| UrlProcessing.NpmPackageFirst | cli/lib/models/UrlProcessor.ts:83 | in `https://www.npmjs.com/package...` the first `package` starts at index 22 |
| UrlProcessing.NpmPartOfPackageUrl | cli/lib/models/UrlProcessor.ts:83-86 | for `https://www.npmjs.com/package/<name>` with no `package` in the name, the registry is asked for `/<name>` |
| UrlProcessing.NormalizeLatency | cli/lib/models/UrlProcessor.ts:99-102 | the result is `min(l / 5, 1)`: at most 1 and at most `l / 5`, and equal to one of them |
| UrlProcessing.NormalizeLatencyUnit | cli/lib/models/UrlProcessor.ts:102 | a non-negative latency normalises into [0, 1] |
| UrlProcessing.EvaluateUrl | cli/lib/models/UrlProcessor.ts:95-171 | the record carries the URL it was evaluated for; what each other field holds is stated by `EvaluatedMetricFields`, `EvaluatedNetScore` and `EvaluatedNetScoreLatency` |
| UrlProcessing.EvaluatedNetScore | cli/lib/models/UrlProcessor.ts:150-158 | given `[busFactor, RM, rampUp, correctness, license]`, the net score is the rounded `busFactor * rampUp * (0.6 RM + 0.2 correctness + 0.2 license)`, and 0 if bus factor or ramp-up is 0 |
| UrlProcessing.EvaluatedNetScoreLatency | cli/lib/models/UrlProcessor.ts:150-159 | `NetScore_Latency` is the rounded sum of the normalised latencies, normalised and rounded again |
| UrlProcessing.Fields | cli/lib/models/UrlProcessor.ts:156-170 | the record has 13 keys in the fixed order `URL` … `License_Latency`, with the URL first and numbers after it |
| UrlProcessing.Lookup | cli/lib/models/UrlProcessor.ts:156-170 | the value found under a key is paired with it in the record, and a key that is not found is on no pair |
| UrlProcessing.RecordLookup | cli/lib/models/UrlProcessor.ts:156-170 | each of the 13 keys, looked up in the written object, gives the record's field of that name |
| UrlProcessing.EvaluatedMetricFields | cli/lib/models/UrlProcessor.ts:104-170 | `BusFactor`, `ResponsiveMaintainer`, `RampUp`, `Correctness` and `License` hold that metric's own score rounded to thousandths, and each `_Latency` key holds that metric's own duration normalised and rounded |
| UrlProcessing.EvaluatedRecordRounded | cli/lib/models/UrlProcessor.ts:158-169 | every number in a record already has at most three decimals |
| UrlProcessing.EvaluatedRecordUnit | cli/lib/models/UrlProcessor.ts:150-169 | with scores in [0, 1] and non-negative times, every number in the record is in [0, 1] |
| UrlProcessing.ProcessLine | cli/lib/models/UrlProcessor.ts:57-63 | a line is trimmed and classified; a classification error is the line's error, and a record is the evaluation of the resolved URL |
| UrlProcessing.RunFrom | cli/lib/models/UrlProcessor.ts:57-68 | a run over the lines from `k` writes at most one record per remaining line |
| UrlProcessing.RunFromMeaning | cli/lib/models/UrlProcessor.ts:57-68 | one record per line in order up to the first failing line, whose error stops the run; with no failure every line has its record |
| UrlProcessing.RunBatchMeaning | cli/lib/models/UrlProcessor.ts:57-68 | the batch keeps the records of the lines before the first failure, in order, and fails iff some line fails |
| UrlProcessing.RunFromPrefix | cli/lib/models/UrlProcessor.ts:57-68 | records written before a failure are kept, and more input can only add records |
| UrlProcessing.OneRecordPerLine | cli/lib/models/UrlProcessor.ts:175-180 | the output read back line by line gives one serialised record per line in order, then an empty piece after the final newline |
| UrlProcessing.NdjsonSnoc | cli/lib/models/UrlProcessor.ts:178 | appending a record appends its serialisation and a newline to the file |
| UrlProcessing.UrlProcessor.constructor | cli/lib/models/UrlProcessor.ts:22-42 | the paths are stored and the output file is emptied |
| UrlProcessing.UrlProcessor.WriteResults | cli/lib/models/UrlProcessor.ts:175-180 | one serialised record and a newline are appended to the output |
| UrlProcessing.UrlProcessor.ProcessUrlsFromFile | cli/lib/models/UrlProcessor.ts:44-69 | a missing file fails and writes nothing; otherwise the output gains exactly `RunBatch`'s records as NDJSON, and the run fails iff some line failed |
| UrlProcessing.RunCli | cli/lib/models/UrlProcessor.ts:184-199 | a wrong argument count exits 1 before any file is touched. The output file is emptied before the URL file is read, so the URL file is looked up with `argv[3]` already empty. A missing URL file exits 1 with an emptied output. Otherwise the exit code is 1 iff a line failed, and the output holds the batch's records. When both paths are the same, no line is read and the exit code is 0 |
| Logging.DecimalLevel | cli/lib/utilities/logger.ts:40-43 | a level written as plain decimal digits is that number |
| Logging.DecimalPrefix | cli/lib/utilities/logger.ts:41 | `parseInt` reads the leading run of decimal digits and ignores what follows |
| Logging.MissingLevelIsOff | cli/lib/utilities/logger.ts:40-43 | a missing or empty level is OFF |
| Logging.NonNumericLevelIsOff | cli/lib/utilities/logger.ts:40-43 | a level that does not start with a sign, a digit or whitespace is OFF |
| Logging.InvalidLevelIsOff | cli/tests/logger_test.ts:146-157 | the level `invalid` is OFF |
| Logging.EnabledLevels | cli/lib/utilities/logger.ts:50-76 | errors are written iff informational messages are; debug messages imply informational ones; level 0 or below writes nothing, and level 2 or above writes everything |
| Logging.FormatLineIsOneLine | cli/lib/utilities/logger.ts:84-85 | a message without a newline becomes exactly one line `<timestamp> [<LEVEL>]: <message>` and a newline |
| Logging.AfterLog | cli/lib/utilities/logger.ts:87-91 | without a log file (unset or empty) nothing changes; otherwise exactly that file gains the line at its end |
| Logging.SilentLogger | cli/lib/utilities/logger.ts:72-76 | at level OFF, or without a log file, no message writes anything |
| Logging.EnabledMessageAppends | cli/lib/utilities/logger.ts:83-92 | an enabled message appends exactly its formatted line to the log file |
| Logging.SystemLogger.constructor | cli/lib/utilities/logger.ts:16-17 | no log file and level OFF to begin with |
| Logging.SystemLogger.Initialize | cli/lib/utilities/logger.ts:23-34 | `LOG_FILE` and the parsed `LOG_LEVEL` are taken from the environment, and no file changes |
| Logging.SystemLogger.Log | cli/lib/utilities/logger.ts:83-92 | the files become `AfterLog` of the formatted line, and the level and file settings are unchanged |
| Logging.SystemLogger.Info | cli/lib/utilities/logger.ts:50-54 | writes only when the level is at least INFO |
| Logging.SystemLogger.Debug | cli/lib/utilities/logger.ts:61-65 | writes only when the level is at least DEBUG |
| Logging.SystemLogger.Error | cli/lib/utilities/logger.ts:72-76 | writes only when the level is above OFF |

## Left out

- HTTP requests to the GitHub API and the npm registry are not modelled. Each fetched record or list is a parameter, and a failed request is an `Err` value.
- `git.clone` and `git.init` are not modelled. A clone is a map of the repository's files, and success or failure is a parameter.
- Filesystem effects are not modelled. `existsSync`, `readFileSync`, `rmSync`, `writeFileSync` and `appendFileSync` act on maps from paths to contents. Whether a removal throws is a parameter.
- Base64 decoding of the README is not modelled. The fetched README is already text.
- `JSON.parse` of `package.json` is the parameter `ManifestParser`, which also stands for the property reads.
- `JSON.stringify` of a record is the parameter `stringify`. The field order it sees is stated by `Fields`.
- Date parsing and `new Date()` are not modelled. Timestamps are milliseconds as integers, and "now" is a parameter. The logger's ISO timestamp is a string parameter.
- `process.hrtime` is not modelled. Each metric's duration in seconds is part of the `Measurement` given to the evaluator.
- Running the five metrics inside `evaluateUrl` is the abstract evaluator `measure`. The metric classes are modelled separately, each with its own `Init`.
- IEEE floating point is not modelled. Sums, products and comparisons are exact over `real`, and `toFixed(3)` is exact half-away-from-zero rounding to thousandths, so float rounding errors are not captured.
- `readline` splitting of the URL file is not modelled. The file is given as its sequence of lines.
- The `crlfDelay` handling is not modelled either.
- `console.log` and `console.error` output is not modelled.
- The logging calls made inside the metrics are not modelled. They do not affect any score.
- The logger's asynchronous append and its error report are modelled as an immediate append.
- The creation of the log directory in `initialize` is not modelled.
- `dotenv` loading is not modelled. The environment is a map given to `Initialize`.
- Concurrency and the `Promise` structure are not modelled. Everything runs strictly in sequence.
- `process.exit(1)` is not modelled as process termination. It is the `failed` flag returned by `ProcessUrlsFromFile` and the exit code returned by `RunCli`.
- The regular-expression engine is not modelled. Only the four patterns the code uses are modelled, as predicates: the GitHub, npm, link and downloads-badge patterns.
- The working path `<cwd>/test` is the same for the correctness and license metrics. In the model each metric works on the one `Workspace` object it is given, and sharing that object between the two metrics is left to the caller.
- GetRepo: a registry response with no `repository` object, or with a `repository.url` that is `null` or not a string, makes the source throw a `TypeError` rather than the "GitHub Repository URL not found" error. The model does not tell these apart from a failed request: all of them are the `Err` of the `fetch` parameter.
- RunCli: the emptying of the output file by the constructor is assumed to succeed. The source swallows a `writeFileSync` error (for example when the path is a directory), and the model does not cover that case.
- JavaScript strings are sequences of UTF-16 code units, lone surrogates included, while a Dafny `string` is a sequence of Unicode scalar values. Indices and lengths in the model, such as those of `IndexOf`, `NpmPart` and `NpmPackageFirst`, count characters rather than code units. They agree with the source only for text without characters outside the Basic Multilingual Plane.
- The RM endpoints are built from `owner` and the overwritten `URL`. That string building is not modelled, and the fetched values are parameters.
- In the bus-factor `init`, the fetched contributors are copied into a fresh array before sorting. The in-place reordering of the fetched array itself is therefore not visible to the caller in the model.
- The log-level parsing reads the integer prefix exactly. Integers too large for a float to hold exactly are read without the loss of precision JavaScript would have.
- cli/lib/utilities/main.ts, cli/eslint.config.mjs and the test files are not part of this model. The tests' expected values appear only as worked-example lemmas.
