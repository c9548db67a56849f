/** The correctness metric: a capped sum of points for the package
    manifest, the readme and the repository's activity counters, computed
    over a clone of the repository. */
module CorrectnessMetric {
  import opened Results
  import opened JsText
  import opened MetricBase
  import opened WorkTree

  /** Which of `scripts.build`, `.test`, `.lint` and `.prettier` are truthy. */
  datatype Scripts = Scripts(build: bool, test: bool, lint: bool, prettier: bool)

  /** The parsed `package.json`: whether `devDependencies` and
      `dependencies` are truthy, and `scripts` when it is. */
  datatype Manifest = Manifest(devDependencies: bool, dependencies: bool, scripts: Option<Scripts>)

  /** `JSON.parse` followed by the property reads: `None` when the text is
      not JSON or is a value whose properties cannot be read (`null`). */
  type ManifestParser = string -> Option<Manifest>

  /** The repository record's counters; `updated_at` as milliseconds since
      the epoch. */
  datatype Repository = Repository(updatedAt: int, stargazers: int, forks: int, openIssues: int)

  /** 2024-04-01T00:00:00Z in milliseconds since the epoch. */
  const ComparisonDate: int := 1711929600000

  function Points(flag: bool, weight: real): real
  {
    if flag then weight else 0.0
  }

  /** The points a parsed manifest earns. */
  function ManifestPoints(m: Manifest): real
  {
    Points(m.devDependencies, 0.025) + Points(m.dependencies, 0.025)
    + match m.scripts
      case None => 0.0
      case Some(s) =>
        Points(s.build, 0.025) + Points(s.test, 0.05) + Points(s.lint, 0.025) + Points(s.prettier, 0.025)
  }

  /** The manifest earns at most 0.175, and that only with every flag set
      and `scripts` present; it earns nothing exactly when no flag is set. */
  lemma ManifestPointsRange(m: Manifest)
    ensures 0.0 <= ManifestPoints(m) <= 0.175
    ensures ManifestPoints(m) == 0.175 <==>
      m.devDependencies && m.dependencies && m.scripts == Some(Scripts(true, true, true, true))
    ensures ManifestPoints(m) == 0.0 <==>
      !m.devDependencies && !m.dependencies
      && (m.scripts.None? || m.scripts == Some(Scripts(false, false, false, false)))
  {
  }

  /** `moreDependencies`: 0 without `package.json`, an error when it does
      not parse, otherwise the manifest's points added up flag by flag. */
  method MoreDependencies(ws: Workspace, parse: ManifestParser) returns (r: Result<real>)
    ensures !ws.Exists("package.json") ==> r == Ok(0.0)
    ensures ws.Exists("package.json") && parse(ws.tree.value["package.json"]).None? ==> r.Err?
    ensures ws.Exists("package.json") && parse(ws.tree.value["package.json"]).Some? ==>
      r == Ok(ManifestPoints(parse(ws.tree.value["package.json"]).value))
  {
    var score := 0.0;
    if ws.Exists("package.json") {
      var parsed := parse(ws.tree.value["package.json"]);
      if parsed.None? {
        return Err(Collaborator("package.json does not parse"));
      }
      var packageJson := parsed.value;
      if packageJson.devDependencies {
        score := score + 0.025;
      }
      if packageJson.dependencies {
        score := score + 0.025;
      }
      if packageJson.scripts.Some? {
        var scripts := packageJson.scripts.value;
        if scripts.build {
          score := score + 0.025;
        }
        if scripts.test {
          score := score + 0.05;
        }
        if scripts.lint {
          score := score + 0.025;
        }
        if scripts.prettier {
          score := score + 0.025;
        }
      }
    }
    r := Ok(score);
  }

  /** No line terminator in `s[a..b]`: what `.*` may match there. */
  predicate NoLineBreak(s: string, a: int, b: int)
  {
    0 <= a <= b <= |s| && forall m :: a <= m < b ==> !IsLineTerminator(s[m])
  }

  /** At `k`: `\]\[npm-downloads\]\]\s?\[npmtrends-url\]`. */
  predicate BadgeTail(s: string, k: int)
  {
    var l := k + |"][npm-downloads]]"|;
    && OccursAt(s, "][npm-downloads]]", k)
    && (OccursAt(s, "[npmtrends-url]", l)
        || (l < |s| && IsWhitespace(s[l]) && OccursAt(s, "[npmtrends-url]", l + 1)))
  }

  /** From `j`: `.*` and then the tail of the badge. */
  predicate BadgeAfterLabel(s: string, j: int)
  {
    exists k :: j <= k <= |s| && NoLineBreak(s, j, k) && BadgeTail(s, k)
  }

  /** From `i`: `.*NPM Downloads` and then the rest of the badge. */
  predicate BadgeAfterOpen(s: string, i: int)
  {
    exists j :: i <= j <= |s| && NoLineBreak(s, i, j) && OccursAt(s, "NPM Downloads", j)
      && BadgeAfterLabel(s, j + |"NPM Downloads"|)
  }

  /** The unanchored test of
      `/\[!\[.*NPM Downloads.*\]\[npm-downloads\]\]\s?\[npmtrends-url\]/`. */
  predicate NpmDownloadsBadge(s: string)
  {
    exists i :: 0 <= i <= |s| && OccursAt(s, "[![", i) && BadgeAfterOpen(s, i + |"[!["|)
  }

  /** The points the readme earns: 0.05 for `README.md`, and 0.3 more for
      the downloads badge in it. */
  function ReadmePoints(tree: Option<Files>): real
  {
    if tree.Some? && "README.md" in tree.value then
      0.05 + Points(NpmDownloadsBadge(tree.value["README.md"]), 0.3)
    else 0.0
  }

  lemma ReadmePointsValues(tree: Option<Files>)
    ensures ReadmePoints(tree) in {0.0, 0.05, 0.35}
    ensures ReadmePoints(tree) == 0.0 <==> !(tree.Some? && "README.md" in tree.value)
  {
  }

  /** `Readme`. */
  method Readme(ws: Workspace) returns (score: real)
    ensures score == ReadmePoints(ws.tree)
  {
    score := 0.0;
    if ws.Exists("README.md") {
      score := score + 0.05;
      var readmeContent := ws.tree.value["README.md"];
      if NpmDownloadsBadge(readmeContent) {
        score := score + 0.3;
      }
    }
  }

  /** The bare badge line `[![NPM Downloads][npm-downloads]][npmtrends-url]`,
      written in its four parts. */
  const BadgeLine: string := "[![" + "NPM Downloads" + "][npm-downloads]]" + "[npmtrends-url]"

  lemma BadgeTailExample()
    ensures BadgeAfterLabel(BadgeLine, 16)
  {
    var head, tail, trends := "[![" + "NPM Downloads", "][npm-downloads]]", "[npmtrends-url]";
    OccursInMiddle(head + tail, trends, "");
    assert head + tail + trends + "" == BadgeLine;
    OccursInMiddle(head, tail, trends);
    assert BadgeTail(BadgeLine, 16);
    assert NoLineBreak(BadgeLine, 16, 16);
  }

  lemma BadgeOpenExample()
    ensures BadgeAfterOpen(BadgeLine, 3)
  {
    var bang, name, rest := "[![", "NPM Downloads", "][npm-downloads]]" + "[npmtrends-url]";
    assert BadgeLine == bang + name + rest;
    BadgeTailExample();
    OccursInMiddle(bang, name, rest);
    assert NoLineBreak(BadgeLine, 3, 3);
  }

  /** The bare badge line matches the pattern. */
  lemma BadgeExample()
    ensures NpmDownloadsBadge(BadgeLine)
  {
    var bang, rest := "[![", "NPM Downloads" + "][npm-downloads]]" + "[npmtrends-url]";
    BadgeOpenExample();
    OccursInMiddle("", bang, rest);
    assert "" + bang + rest == BadgeLine;
  }

  /** A readme holding just the badge line scores the full 0.35. */
  lemma ReadmeExample()
    ensures ReadmePoints(Some(map["README.md" := BadgeLine])) == 0.35
  {
    BadgeExample();
  }

  /** The points the repository's activity earns. */
  function ActivityPoints(r: Repository): real
  {
    Points(r.updatedAt > ComparisonDate, 0.15)
    + Points(r.forks > 1000, 0.2)
    + Points(r.openIssues <= 50, 0.1)
    + Points(r.stargazers >= 10000, 0.2)
    + Points(r.stargazers >= 50000, 0.4)
  }

  /** Activity alone earns up to 1.05, so the cap on the total is reachable;
      the star bonuses are cumulative. */
  lemma ActivityPointsRange(r: Repository)
    ensures 0.0 <= ActivityPoints(r) <= 1.05
    ensures ActivityPoints(r) == 1.05 <==>
      r.updatedAt > ComparisonDate && r.forks > 1000 && r.openIssues <= 50 && r.stargazers >= 50000
  {
  }

  /** Updated 2024-05-01, 1500 forks, 20 open issues and 20000 stars. */
  lemma ActivityExample()
    ensures ActivityPoints(Repository(1714521600000, 20000, 1500, 20)) == 0.65
  {
  }

  /** `ApiHistory`: `fetched` is the repository record or the failure of
      fetching it, which propagates. */
  method ApiHistory(fetched: Result<Repository>) returns (r: Result<real>)
    ensures fetched.Err? ==> r == Err(fetched.error)
    ensures fetched.Ok? ==> r == Ok(ActivityPoints(fetched.value))
  {
    if fetched.Err? {
      return Err(fetched.error);
    }
    var response := fetched.value;
    var score := 0.0;
    if response.updatedAt > ComparisonDate {
      score := score + 0.15;
    }
    if response.forks > 1000 {
      score := score + 0.2;
    }
    if response.openIssues <= 50 {
      score := score + 0.1;
    }
    if response.stargazers >= 10000 {
      score := score + 0.2;
    }
    if response.stargazers >= 50000 {
      score := score + 0.4;
    }
    r := Ok(score);
  }

  /** The manifest's points, or the error of parsing it. */
  function ManifestResult(tree: Option<Files>, parse: ManifestParser): Result<real>
  {
    if tree.Some? && "package.json" in tree.value then
      match parse(tree.value["package.json"])
      case None => Err(Collaborator("package.json does not parse"))
      case Some(m) => Ok(ManifestPoints(m))
    else Ok(0.0)
  }

  /** `checkCorrectness`: 0 when neither `package.json` nor `README.md`
      exists, 0 on any error, and otherwise the sum of the three sub-scores
      capped at 1. */
  function CorrectnessScore(tree: Option<Files>, parse: ManifestParser, fetched: Result<Repository>): real
  {
    var hasPackage := tree.Some? && "package.json" in tree.value;
    var hasReadme := tree.Some? && "README.md" in tree.value;
    if !hasPackage && !hasReadme then 0.0
    else
      var manifest := ManifestResult(tree, parse);
      if manifest.Err? || fetched.Err? then 0.0
      else
        var total := manifest.value + ReadmePoints(tree) + ActivityPoints(fetched.value);
        if total >= 1.0 then 1.0 else total
  }

  /** The score is in [0, 1]; without either file or on any error it is 0
      whatever the other inputs are. */
  lemma CorrectnessScoreRange(tree: Option<Files>, parse: ManifestParser, fetched: Result<Repository>)
    ensures 0.0 <= CorrectnessScore(tree, parse, fetched) <= 1.0
    ensures fetched.Err? ==> CorrectnessScore(tree, parse, fetched) == 0.0
    ensures ManifestResult(tree, parse).Err? ==> CorrectnessScore(tree, parse, fetched) == 0.0
  {
    var manifest := ManifestResult(tree, parse);
    if manifest.Ok? && tree.Some? && "package.json" in tree.value {
      ManifestPointsRange(parse(tree.value["package.json"]).value);
    }
    if fetched.Ok? {
      ActivityPointsRange(fetched.value);
    }
    ReadmePointsValues(tree);
  }

  /** The gate: with neither file present, nothing else matters. */
  lemma CorrectnessGate(tree: Option<Files>, parse: ManifestParser, fetched: Result<Repository>)
    requires !(tree.Some? && "package.json" in tree.value) && !(tree.Some? && "README.md" in tree.value)
    ensures CorrectnessScore(tree, parse, fetched) == 0.0
  {
  }

  method CheckCorrectness(ws: Workspace, parse: ManifestParser, fetched: Result<Repository>)
    returns (score: real)
    ensures score == CorrectnessScore(ws.tree, parse, fetched)
  {
    var packageExists := ws.Exists("package.json");
    var readmeExists := ws.Exists("README.md");
    if !packageExists && !readmeExists {
      return 0.0;
    }
    var dependencies := MoreDependencies(ws, parse);
    if dependencies.Err? {
      return 0.0;
    }
    var readme := Readme(ws);
    var history := ApiHistory(fetched);
    if history.Err? {
      return 0.0;
    }
    score := dependencies.value + readme + history.value;
    if score >= 1.0 {
      return 1.0;
    }
  }

  class Correctness {
    const base: Metric
    const ws: Workspace
    var owner: Option<string>
    var repo: Option<string>

    constructor(url: string, ws: Workspace)
      ensures fresh(base) && base.URL == Some(url) && base.score == 0.0
      ensures this.ws == ws
      ensures (owner, repo) == OwnerAndRepo(url)
    {
      base := new Metric(url);
      this.ws := ws;
      owner, repo := OwnerAndRepo(url).0, OwnerAndRepo(url).1;
    }

    /** `init`: clone, score, clean up. A failed clone propagates out of
        `init` before the score is set or the directory is cleaned up. */
    method Init(cloned: Result<Files>, parse: ManifestParser, fetched: Result<Repository>, removalFails: bool)
      returns (outcome: Outcome)
      modifies base, ws
      ensures cloned.Err? ==> outcome == Fail(cloned.error)
      ensures cloned.Err? ==> base.score == old(base.score) && ws.tree == old(ws.tree)
      ensures cloned.Ok? ==> outcome == Pass
      ensures cloned.Ok? ==> base.score == CorrectnessScore(Some(Checkout(old(ws.tree), cloned.value)), parse, fetched)
      ensures cloned.Ok? ==> ws.tree == AfterCleanUp(Some(Checkout(old(ws.tree), cloned.value)), removalFails)
      ensures base.URL == old(base.URL)
    {
      outcome := ws.Clone(cloned);
      if outcome.Fail? {
        return;
      }
      var s := CheckCorrectness(ws, parse, fetched);
      base.UpdateScore(s);
      ws.CleanUp(removalFails);
    }
  }
}
