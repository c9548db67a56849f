/** The responsive-maintainer metric: how old the open issues and pull
    requests are, and how recent the last commit is. Timestamps are
    milliseconds since the epoch, as `Date.getTime()` gives them; "now" is a
    parameter. */
module ResponsiveMaintainer {
  import opened Results
  import opened MetricBase

  /** An open issue or pull request; `closed_at` is read but never used. */
  datatype IssueOrPR = IssueOrPR(createdAt: int, closedAt: Option<int>, userType: string)

  /** Milliseconds in a day: `1000 * 60 * 60 * 24`. */
  const DayMs: int := 1000 * 60 * 60 * 24

  function AgeInDays(now: int, t: int): real
  {
    (now - t) as real / DayMs as real
  }

  /** The total age in days of the first `n` items. */
  function TotalAge(items: seq<IssueOrPR>, now: int, n: nat): real
    requires n <= |items|
  {
    if n == 0 then 0.0 else TotalAge(items, now, n - 1) + AgeInDays(now, items[n - 1].createdAt)
  }

  /** The mean age in days of the items. */
  function MeanAge(items: seq<IssueOrPR>, now: int): real
    requires |items| > 0
  {
    TotalAge(items, now, |items|) / |items| as real
  }

  /** No item is newer than `now`. */
  predicate AllCreatedBy(items: seq<IssueOrPR>, now: int)
  {
    forall i :: 0 <= i < |items| ==> items[i].createdAt <= now
  }

  /** `calculateIssueOrPRAgeScore`: 1 for no items, otherwise
      `max(1 - meanAgeInDays / 365, 0)`. */
  function AgeScore(items: seq<IssueOrPR>, now: int): (r: real)
    ensures r >= 0.0
    ensures |items| == 0 ==> r == 1.0
  {
    if |items| == 0 then 1.0
    else
      var s := 1.0 - MeanAge(items, now) / 365.0;
      if s > 0.0 then s else 0.0
  }

  lemma {:induction false} TotalAgeNonNegative(items: seq<IssueOrPR>, now: int, n: nat)
    requires n <= |items| && AllCreatedBy(items, now)
    ensures TotalAge(items, now, n) >= 0.0
  {
    if n > 0 {
      TotalAgeNonNegative(items, now, n - 1);
      assert AgeInDays(now, items[n - 1].createdAt) >= 0.0;
    }
  }

  /** With no item from the future the age score is at most 1; it is 0
      exactly when the mean age reaches a year. */
  lemma AgeScoreRange(items: seq<IssueOrPR>, now: int)
    requires AllCreatedBy(items, now)
    ensures 0.0 <= AgeScore(items, now) <= 1.0
    ensures |items| > 0 ==> (AgeScore(items, now) == 0.0 <==> MeanAge(items, now) >= 365.0)
  {
    if |items| > 0 {
      TotalAgeNonNegative(items, now, |items|);
      assert MeanAge(items, now) >= 0.0;
    }
  }

  /** The `forEach` loop adding up the ages, then the mean and the clamp. */
  method CalculateIssueOrPRAgeScore(items: seq<IssueOrPR>, now: int) returns (score: real)
    ensures score == AgeScore(items, now)
  {
    if |items| == 0 {
      return 1.0;
    }
    var totalAgeInDays := 0.0;
    var i := 0;
    while i < |items|
      invariant 0 <= i <= |items|
      invariant totalAgeInDays == TotalAge(items, now, i)
    {
      var ageInDays := (now - items[i].createdAt) as real / (1000 * 60 * 60 * 24) as real;
      totalAgeInDays := totalAgeInDays + ageInDays;
      i := i + 1;
    }
    var averageAgeInDays := totalAgeInDays / |items| as real;
    var s := 1.0 - averageAgeInDays / 365.0;
    score := if s > 0.0 then s else 0.0;
  }

  /** `calculateRecencyScore`: `max(1 - daysSinceLastCommit / 365, 0)`. */
  function RecencyScore(lastCommit: int, now: int): (r: real)
    ensures r >= 0.0
  {
    var s := 1.0 - AgeInDays(now, lastCommit) / 365.0;
    if s > 0.0 then s else 0.0
  }

  /** A commit made now scores 1, one a year old or older scores 0, and
      anything in between lies strictly between. */
  lemma RecencyScoreRange(lastCommit: int, now: int)
    requires lastCommit <= now
    ensures RecencyScore(lastCommit, now) <= 1.0
    ensures RecencyScore(lastCommit, now) == 1.0 <==> lastCommit == now
    ensures RecencyScore(lastCommit, now) == 0.0 <==> now - lastCommit >= 365 * DayMs
  {
    var d := AgeInDays(now, lastCommit);
    assert d * DayMs as real == (now - lastCommit) as real;
  }

  /** The weighted blend of the three sub-scores. */
  function Blend(issueAge: real, prAge: real, recency: real): real
  {
    issueAge * 0.4 + prAge * 0.4 + recency * 0.2
  }

  /** The weights sum to 1, so sub-scores in [0, 1] blend into [0, 1], and
      three perfect sub-scores give exactly 1. */
  lemma BlendRange(issueAge: real, prAge: real, recency: real)
    requires 0.0 <= issueAge <= 1.0 && 0.0 <= prAge <= 1.0 && 0.0 <= recency <= 1.0
    ensures 0.0 <= Blend(issueAge, prAge, recency) <= 1.0
    ensures Blend(1.0, 1.0, 1.0) == 1.0
  {
  }

  predicate IsBot(pr: IssueOrPR)
  {
    pr.userType == "Bot"
  }

  /** `openPRs.filter(pr => pr.user.type !== 'Bot')`. */
  function FilterBots(prs: seq<IssueOrPR>): (r: seq<IssueOrPR>)
    ensures forall i :: 0 <= i < |r| ==> !IsBot(r[i])
    ensures |r| <= |prs|
  {
    if |prs| == 0 then []
    else (if IsBot(prs[0]) then [] else [prs[0]]) + FilterBots(prs[1..])
  }

  /** The filter keeps every human-authored pull request exactly as often as
      it occurs, and drops every bot's. */
  lemma {:induction false} FilterBotsKeeps(prs: seq<IssueOrPR>, p: IssueOrPR)
    ensures multiset(FilterBots(prs))[p] == if IsBot(p) then 0 else multiset(prs)[p]
  {
    if |prs| > 0 {
      FilterBotsKeeps(prs[1..], p);
      assert prs == [prs[0]] + prs[1..];
    }
  }

  /** Filtering works piecewise, so the kept pull requests stay in their
      original order. */
  lemma {:induction false} FilterBotsAppend(a: seq<IssueOrPR>, b: seq<IssueOrPR>)
    ensures FilterBots(a + b) == FilterBots(a) + FilterBots(b)
  {
    if |a| > 0 {
      FilterBotsAppend(a[1..], b);
      var ab := a + b;
      assert ab[0] == a[0] && ab[1..] == a[1..] + b;
      assert FilterBots(ab) == (if IsBot(a[0]) then [] else [a[0]]) + FilterBots(a[1..] + b);
    } else {
      assert a + b == b;
    }
  }

  /** `fetchIssueData`: the open issues, and the open pull requests without
      the bots' ones; if either fetch fails, both lists are empty. */
  function FetchIssueData(issues: Result<seq<IssueOrPR>>, pulls: Result<seq<IssueOrPR>>): (r: (seq<IssueOrPR>, seq<IssueOrPR>))
    ensures issues.Ok? && pulls.Ok? ==> r == (issues.value, FilterBots(pulls.value))
    ensures issues.Err? || pulls.Err? ==> r == ([], [])
  {
    if issues.Err? then ([], [])
    else if pulls.Err? then ([], [])
    else (issues.value, FilterBots(pulls.value))
  }

  /** When issue data cannot be fetched both age scores are perfect. */
  lemma FetchFailureScoresFull(issues: Result<seq<IssueOrPR>>, pulls: Result<seq<IssueOrPR>>, now: int)
    requires issues.Err? || pulls.Err?
    ensures AgeScore(FetchIssueData(issues, pulls).0, now) == 1.0
    ensures AgeScore(FetchIssueData(issues, pulls).1, now) == 1.0
  {
  }

  /** `getLastCommitDate`: the committer date of the first commit listed,
      newest first. An empty listing fails like a failed fetch. */
  function LastCommitDate(commits: Result<seq<int>>): (r: Result<int>)
    ensures r.Ok? <==> commits.Ok? && |commits.value| > 0
    ensures r.Ok? ==> r.value == commits.value[0]
  {
    if commits.Err? then Err(commits.error)
    else if |commits.value| == 0 then Err(Collaborator("no commits"))
    else Ok(commits.value[0])
  }

  /** `calculateScore`. `repo` is the repository record's `full_name`, or
      the failure of fetching it; `commitsOf` fetches the commit list of
      a full name. Any failure of these two makes the score 0. */
  method CalculateScore(repo: Result<string>, issues: Result<seq<IssueOrPR>>,
                        pulls: Result<seq<IssueOrPR>>, commitsOf: string -> Result<seq<int>>,
                        now: int)
    returns (score: real)
    ensures repo.Err? ==> score == 0.0
    ensures repo.Ok? && LastCommitDate(commitsOf(repo.value)).Err? ==> score == 0.0
    ensures repo.Ok? && LastCommitDate(commitsOf(repo.value)).Ok? ==>
      var data := FetchIssueData(issues, pulls);
      score == Blend(AgeScore(data.0, now), AgeScore(data.1, now),
                     RecencyScore(LastCommitDate(commitsOf(repo.value)).value, now))
  {
    if repo.Err? {
      return 0.0;
    }
    var data := FetchIssueData(issues, pulls);
    var lastCommitDate := LastCommitDate(commitsOf(repo.value));
    if lastCommitDate.Err? {
      return 0.0;
    }
    var issueAgeScore := CalculateIssueOrPRAgeScore(data.0, now);
    var prAgeScore := CalculateIssueOrPRAgeScore(data.1, now);
    var recentCommitScore := RecencyScore(lastCommitDate.value, now);
    score := issueAgeScore * 0.4 + prAgeScore * 0.4 + recentCommitScore * 0.2;
  }

  /** With no item or commit from the future, the score lies in [0, 1]. */
  lemma ScoreRange(issues: seq<IssueOrPR>, prs: seq<IssueOrPR>, lastCommit: int, now: int)
    requires AllCreatedBy(issues, now) && AllCreatedBy(prs, now) && lastCommit <= now
    ensures 0.0 <= Blend(AgeScore(issues, now), AgeScore(FilterBots(prs), now), RecencyScore(lastCommit, now)) <= 1.0
  {
    AgeScoreRange(issues, now);
    FilterBotsCreatedBy(prs, now);
    AgeScoreRange(FilterBots(prs), now);
    RecencyScoreRange(lastCommit, now);
    BlendRange(AgeScore(issues, now), AgeScore(FilterBots(prs), now), RecencyScore(lastCommit, now));
  }

  lemma {:induction false} FilterBotsCreatedBy(prs: seq<IssueOrPR>, now: int)
    requires AllCreatedBy(prs, now)
    ensures AllCreatedBy(FilterBots(prs), now)
  {
    if |prs| > 0 {
      FilterBotsCreatedBy(prs[1..], now);
    }
  }

  class RM {
    const base: Metric
    var owner: Option<string>

    /** The constructor splits the URL and then overwrites the `URL` field
        with `parts[4]`, the repository name. */
    constructor(url: string)
      ensures fresh(base) && base.score == 0.0
      ensures owner == OwnerAndRepo(url).0
      ensures base.URL == OwnerAndRepo(url).1
    {
      base := new Metric(url);
      owner := OwnerAndRepo(url).0;
      new;
      base.URL := OwnerAndRepo(url).1;
    }

    method Init(repo: Result<string>, issues: Result<seq<IssueOrPR>>,
                pulls: Result<seq<IssueOrPR>>, commitsOf: string -> Result<seq<int>>, now: int)
      modifies base
      ensures repo.Err? ==> base.score == 0.0
      ensures repo.Ok? && LastCommitDate(commitsOf(repo.value)).Err? ==> base.score == 0.0
      ensures repo.Ok? && LastCommitDate(commitsOf(repo.value)).Ok? ==>
        var data := FetchIssueData(issues, pulls);
        base.score == Blend(AgeScore(data.0, now), AgeScore(data.1, now),
                            RecencyScore(LastCommitDate(commitsOf(repo.value)).value, now))
      ensures base.URL == old(base.URL)
    {
      var s := CalculateScore(repo, issues, pulls, commitsOf, now);
      base.UpdateScore(s);
    }
  }
}
