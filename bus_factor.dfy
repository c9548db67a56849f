/** The bus-factor metric: how many of a repository's top contributors
    account for most of the work of its "critical" contributors. */
module BusFactorMetric {
  import opened Results
  import opened MetricBase

  /** A contributor as the GitHub contributors listing reports it. */
  datatype Contributor = Contributor(login: string, contributions: nat)

  /** The contribution counts, in list order. */
  function Counts(cs: seq<Contributor>): (r: seq<nat>)
    ensures |r| == |cs|
    ensures forall i :: 0 <= i < |cs| ==> r[i] == cs[i].contributions
  {
    seq(|cs|, i requires 0 <= i < |cs| => cs[i].contributions)
  }

  predicate SortedDesc(c: seq<nat>)
  {
    forall p, q :: 0 <= p < q < |c| ==> c[p] >= c[q]
  }

  /** `curr / next >= 3.8` as IEEE division evaluates it: `x / 0` is
      `+Infinity` for `x > 0`, and `0 / 0` is `NaN`, which compares false. */
  predicate DropOff(curr: nat, next: nat)
  {
    if next == 0 then curr > 0 else curr as real / next as real >= 3.8
  }

  /** The index one past the first drop-off at or after `i`, or `|c|`. */
  function CriticalFrom(c: seq<nat>, i: nat): (r: nat)
    requires i < |c|
    ensures i < r <= |c|
    ensures forall j :: i <= j < r - 1 ==> !DropOff(c[j], c[j + 1])
    ensures r < |c| ==> DropOff(c[r - 1], c[r])
    decreases |c| - i
  {
    if i + 1 == |c| then |c|
    else if DropOff(c[i], c[i + 1]) then i + 1
    else CriticalFrom(c, i + 1)
  }

  /** The number of critical contributors: the entries from the top down to
      and including the first one followed by a 3.8-fold drop-off, or all
      of them when there is none. */
  function Critical(c: seq<nat>): (r: nat)
    requires |c| > 0
    ensures 1 <= r <= |c|
    ensures forall j :: 0 <= j < r - 1 ==> !DropOff(c[j], c[j + 1])
    ensures r < |c| ==> DropOff(c[r - 1], c[r])
  {
    CriticalFrom(c, 0)
  }

  /** The sum of the first `n` counts. */
  function SumTo(c: seq<nat>, n: nat): nat
    requires n <= |c|
  {
    if n == 0 then 0 else SumTo(c, n - 1) + c[n - 1]
  }

  /** The first `n > k` whose prefix sum reaches `target`, or `|c|` when
      none does: the second loop's count when it starts after `k` entries. */
  function PeopleFrom(c: seq<nat>, k: nat, target: real): (r: nat)
    requires k <= |c|
    ensures k <= r <= |c| && (k < |c| ==> k < r)
    ensures r < |c| ==> SumTo(c, r) as real >= target
    ensures forall m :: k < m < r ==> (SumTo(c, m) as real) < target
    decreases |c| - k
  {
    if k == |c| then |c|
    else if SumTo(c, k + 1) as real >= target then k + 1
    else PeopleFrom(c, k + 1, target)
  }

  /** The number of top contributors whose counts together reach `target`. */
  function People(c: seq<nat>, target: real): nat
  {
    PeopleFrom(c, 0, target)
  }

  /** The 60 % share of the critical contributors' total. */
  function Target(c: seq<nat>): real
    requires |c| > 0
  {
    SumTo(c, Critical(c)) as real * 0.6
  }

  /** The score of counts already in descending order:
      `1 - busPeople / criticalContributors`, and 0 for fewer than two. */
  function BusFactorScore(c: seq<nat>): real
  {
    if |c| <= 1 then 0.0
    else 1.0 - People(c, Target(c)) as real / Critical(c) as real
  }

  lemma {:induction false} PeopleFromAtMost(c: seq<nat>, k: nat, target: real, m: nat)
    requires k < m <= |c| && SumTo(c, m) as real >= target
    ensures PeopleFrom(c, k, target) <= m
    decreases |c| - k
  {
    if SumTo(c, k + 1) as real < target {
      if k + 1 < m {
        PeopleFromAtMost(c, k + 1, target, m);
      } else {
        assert false;
      }
    }
  }

  /** The bus people are at least one and (since the critical prefix
      reaches its own total) at most the critical contributors; they are
      the fewest top contributors that reach the target. */
  lemma BusPeopleBounds(c: seq<nat>)
    requires |c| > 0
    ensures var people, critical := People(c, Target(c)), Critical(c);
      && 1 <= people <= critical
      && SumTo(c, people) as real >= Target(c)
      && forall m :: 1 <= m < people ==> (SumTo(c, m) as real) < Target(c)
  {
    var critical := Critical(c);
    PeopleFromAtMost(c, 0, Target(c), critical);
  }

  lemma RatioBounds(p: nat, k: nat)
    requires 1 <= p <= k
    ensures 0.0 < p as real / k as real <= 1.0
    ensures p as real / k as real == 1.0 <==> p == k
  {
    var r := p as real / k as real;
    assert r * k as real == p as real;
  }

  /** Fewer than two contributors score 0; otherwise the score lies in
      [0, 1): at least one person always carries the load. */
  lemma BusFactorRange(c: seq<nat>)
    ensures |c| <= 1 ==> BusFactorScore(c) == 0.0
    ensures 0.0 <= BusFactorScore(c) < 1.0
  {
    if |c| > 1 {
      BusPeopleBounds(c);
      RatioBounds(People(c, Target(c)), Critical(c));
    }
  }

  /** The score is 0 exactly when every critical contributor is needed to
      reach the target. */
  lemma BusFactorZero(c: seq<nat>)
    requires |c| > 1
    ensures BusFactorScore(c) == 0.0 <==> People(c, Target(c)) == Critical(c)
  {
    BusPeopleBounds(c);
    RatioBounds(People(c, Target(c)), Critical(c));
  }

  /** `[100, 10]`: one critical contributor, one bus person, score 0. */
  lemma TwoContributorsExample()
    ensures Critical([100, 10]) == 1
    ensures People([100, 10], Target([100, 10])) == 1
    ensures BusFactorScore([100, 10]) == 0.0
  {
    var c := [100, 10];
    assert DropOff(c[0], c[1]);
    assert SumTo(c, 1) == 100;
  }

  /** `[100, 90, 70, 50, 30, 20, 10]`: no drop-off, so seven critical
      contributors with total 370; the target 222 is reached by three of
      them, and the score is 4/7. */
  lemma SevenContributorsExample()
    ensures var c := [100, 90, 70, 50, 30, 20, 10];
      && Critical(c) == 7
      && People(c, Target(c)) == 3
      && BusFactorScore(c) == 4.0 / 7.0
  {
    var c: seq<nat> := [100, 90, 70, 50, 30, 20, 10];
    assert !DropOff(c[0], c[1]) && !DropOff(c[1], c[2]) && !DropOff(c[2], c[3]);
    assert !DropOff(c[3], c[4]) && !DropOff(c[4], c[5]) && !DropOff(c[5], c[6]);
    assert CriticalFrom(c, 5) == 7;
    assert Critical(c) == 7;
    assert SumTo(c, 7) == 370;
    assert Target(c) == 222.0;
    assert SumTo(c, 1) == 100 && SumTo(c, 2) == 190 && SumTo(c, 3) == 260;
    assert PeopleFrom(c, 2, 222.0) == 3;
    assert PeopleFrom(c, 0, 222.0) == 3;
  }

  /** The head of a descending sequence is its largest element. */
  lemma SortedHeadIsMax(x: seq<nat>, v: nat)
    requires SortedDesc(x) && v in multiset(x)
    ensures |x| > 0 && v <= x[0]
  {
    assert v in x;
  }

  lemma SortedTail(x: seq<nat>)
    requires SortedDesc(x) && |x| > 0
    ensures SortedDesc(x[1..])
  {
    forall p, q | 0 <= p < q < |x| - 1
      ensures x[1..][p] >= x[1..][q]
    {
      assert x[1..][p] == x[p + 1] && x[1..][q] == x[q + 1];
    }
  }

  /** Removing equal heads leaves equal multisets. */
  lemma DropHead(x: seq<nat>, y: seq<nat>)
    requires |x| > 0 && |y| > 0 && x[0] == y[0] && multiset(x) == multiset(y)
    ensures multiset(x[1..]) == multiset(y[1..])
  {
    assert x == [x[0]] + x[1..] && y == [y[0]] + y[1..];
    assert multiset(x[1..]) == multiset(x) - multiset{x[0]};
    assert multiset(y[1..]) == multiset(y) - multiset{y[0]};
  }

  /** Two descending sequences with the same elements are equal. */
  lemma {:induction false} SortedUnique(x: seq<nat>, y: seq<nat>)
    requires SortedDesc(x) && SortedDesc(y) && multiset(x) == multiset(y)
    ensures x == y
    decreases |x|
  {
    if |x| == 0 {
      assert |multiset(y)| == 0;
    } else {
      assert x[0] in multiset(x);
      SortedHeadIsMax(y, x[0]);
      assert y[0] in multiset(y);
      SortedHeadIsMax(x, y[0]);
      DropHead(x, y);
      SortedTail(x);
      SortedTail(y);
      SortedUnique(x[1..], y[1..]);
      assert x == [x[0]] + x[1..] && y == [y[0]] + y[1..];
    }
  }

  lemma CountsAppend(s: seq<Contributor>, t: seq<Contributor>)
    ensures Counts(s + t) == Counts(s) + Counts(t)
  {
  }

  /** Contributors that are a permutation of each other have counts that
      are a permutation of each other. */
  lemma {:induction false} CountsPermutation(s: seq<Contributor>, t: seq<Contributor>)
    requires multiset(s) == multiset(t)
    ensures multiset(Counts(s)) == multiset(Counts(t))
    decreases |s|
  {
    if |s| == 0 {
      assert |multiset(t)| == 0;
    } else {
      assert s[0] in multiset(t);
      var j :| 0 <= j < |t| && t[j] == s[0];
      var rest := t[..j] + t[j + 1..];
      assert t == t[..j] + [t[j]] + t[j + 1..];
      assert s == [s[0]] + s[1..];
      assert multiset(t) == multiset(t[..j]) + multiset{t[j]} + multiset(t[j + 1..]);
      assert multiset(rest) == multiset(t[..j]) + multiset(t[j + 1..]);
      assert multiset(s) == multiset{s[0]} + multiset(s[1..]);
      assert multiset(s[1..]) == multiset(s) - multiset{s[0]};
      assert multiset(rest) == multiset(t) - multiset{t[j]};
      CountsPermutation(s[1..], rest);
      CountsAppend([s[0]], s[1..]);
      CountsAppend(t[..j] + [t[j]], t[j + 1..]);
      CountsAppend(t[..j], [t[j]]);
      CountsAppend(t[..j], t[j + 1..]);
    }
  }

  /** Since the counts are sorted first, the score depends only on how many
      contributions each contributor made, not on the listing order or on
      how ties are broken. */
  lemma ScoreIgnoresOrder(s: seq<Contributor>, t: seq<Contributor>)
    requires SortedDesc(Counts(s)) && SortedDesc(Counts(t))
    requires multiset(s) == multiset(t)
    ensures BusFactorScore(Counts(s)) == BusFactorScore(Counts(t))
  {
    CountsPermutation(s, t);
    SortedUnique(Counts(s), Counts(t));
  }

  predicate SortedByContributions(s: seq<Contributor>)
  {
    forall p, q :: 0 <= p < q < |s| ==> s[p].contributions >= s[q].contributions
  }

  lemma SortedCounts(s: seq<Contributor>)
    requires SortedByContributions(s)
    ensures SortedDesc(Counts(s))
  {
  }

  /** Exchanges two neighbouring entries. */
  method SwapAdjacent(a: array<Contributor>, j: nat)
    requires 0 < j < a.Length
    modifies a
    ensures a[..] == old(a[..])[j - 1 := old(a[j])][j := old(a[j - 1])]
    ensures multiset(a[..]) == multiset(old(a[..]))
  {
    a[j - 1], a[j] := a[j], a[j - 1];
  }

  /** Sorted up to (excluding) `n`. */
  predicate SortedPrefix(s: seq<Contributor>, n: nat)
    requires n <= |s|
  {
    forall p, q :: 0 <= p < q < n ==> s[p].contributions >= s[q].contributions
  }

  /** Inside the insertion of entry `i`: the entry being moved sits at `j`,
      the others up to `i` are in order, and it beats everything after it. */
  predicate Inserting(s: seq<Contributor>, i: nat, j: nat)
  {
    && j <= i < |s|
    && (forall p, q :: 0 <= p < q <= i && p != j && q != j ==> s[p].contributions >= s[q].contributions)
    && (forall q :: j < q <= i ==> s[j].contributions > s[q].contributions)
  }

  lemma StartInserting(s: seq<Contributor>, i: nat)
    requires i < |s| && SortedPrefix(s, i)
    ensures Inserting(s, i, i)
  {
  }

  lemma SwapKeepsInserting(s: seq<Contributor>, i: nat, j: nat)
    requires Inserting(s, i, j) && 0 < j && s[j - 1].contributions < s[j].contributions
    ensures Inserting(s[j - 1 := s[j]][j := s[j - 1]], i, j - 1)
  {
  }

  lemma StopInserting(s: seq<Contributor>, i: nat, j: nat)
    requires Inserting(s, i, j) && (j == 0 || s[j - 1].contributions >= s[j].contributions)
    ensures SortedPrefix(s, i + 1)
  {
  }

  /** Sorts the contributors by contributions, descending, in place. The
      comparator `b.contributions - a.contributions` orders only by count;
      how equal counts end up ordered is not stated, and by
      `ScoreIgnoresOrder` it cannot change the score. */
  method SortByContributions(a: array<Contributor>)
    modifies a
    ensures SortedByContributions(a[..])
    ensures multiset(a[..]) == multiset(old(a[..]))
  {
    var i := 0;
    while i < a.Length
      invariant 0 <= i <= a.Length
      invariant SortedPrefix(a[..], i)
      invariant multiset(a[..]) == multiset(old(a[..]))
    {
      StartInserting(a[..], i);
      var j := i;
      while j > 0 && a[j - 1].contributions < a[j].contributions
        invariant Inserting(a[..], i, j)
        invariant multiset(a[..]) == multiset(old(a[..]))
      {
        SwapKeepsInserting(a[..], i, j);
        SwapAdjacent(a, j);
        j := j - 1;
      }
      StopInserting(a[..], i, j);
      i := i + 1;
    }
  }

  /** The first loop: walks down the list adding up contributions until
      the first 3.8-fold drop-off. */
  method CountCritical(a: array<Contributor>) returns (criticalContributors: nat, totalContributions: nat)
    requires a.Length > 0
    ensures criticalContributors == Critical(Counts(a[..]))
    ensures totalContributions == SumTo(Counts(a[..]), criticalContributors)
  {
    ghost var c := Counts(a[..]);
    totalContributions := 0;
    criticalContributors := 0;
    var i := 0;
    while i < a.Length
      invariant 0 <= i <= a.Length
      invariant criticalContributors == i && totalContributions == SumTo(c, i)
      invariant i < a.Length ==> Critical(c) == CriticalFrom(c, i)
      invariant i == a.Length ==> Critical(c) == a.Length
    {
      totalContributions := totalContributions + a[i].contributions;
      criticalContributors := criticalContributors + 1;
      if i + 1 < a.Length && DropOff(a[i].contributions, a[i + 1].contributions) {
        break;
      }
      i := i + 1;
    }
  }

  /** The second loop: counts contributors from the top until their
      running total reaches `target`. */
  method CountBusPeople(a: array<Contributor>, target: real) returns (busPeople: nat)
    ensures busPeople == People(Counts(a[..]), target)
  {
    ghost var c := Counts(a[..]);
    var cumulativeContributions := 0;
    busPeople := 0;
    var k := 0;
    while k < a.Length
      invariant 0 <= k <= a.Length
      invariant busPeople == k && cumulativeContributions == SumTo(c, k)
      invariant People(c, target) == PeopleFrom(c, k, target)
    {
      cumulativeContributions := cumulativeContributions + a[k].contributions;
      busPeople := busPeople + 1;
      if cumulativeContributions as real >= target {
        break;
      }
      k := k + 1;
    }
  }

  /** The two counting loops over counts that are already sorted, combined
      as `1 - busPeople / criticalContributors`. */
  method ScoreSorted(a: array<Contributor>) returns (score: real)
    ensures score == BusFactorScore(Counts(a[..]))
  {
    if a.Length <= 1 {
      return 0.0;
    }
    var criticalContributors, totalContributions := CountCritical(a);
    var halfTotalContributions := totalContributions as real * 0.6;
    var busPeople := CountBusPeople(a, halfTotalContributions);
    score := 1.0 - busPeople as real / criticalContributors as real;
  }

  /** `calculateBusFactor`: 0 for fewer than two contributors; otherwise the
      list is sorted in place and then scored. */
  method CalculateBusFactor(a: array<Contributor>) returns (score: real)
    modifies a
    ensures a.Length <= 1 ==> score == 0.0 && a[..] == old(a[..])
    ensures SortedDesc(Counts(a[..]))
    ensures multiset(a[..]) == multiset(old(a[..]))
    ensures score == BusFactorScore(Counts(a[..]))
  {
    if a.Length <= 1 {
      return 0.0;
    }
    SortByContributions(a);
    SortedCounts(a[..]);
    score := ScoreSorted(a);
  }

  class BusFactor {
    const base: Metric
    var owner: Option<string>
    var repo: Option<string>

    constructor(url: string)
      ensures fresh(base) && base.URL == Some(url) && base.score == 0.0
      ensures (owner, repo) == OwnerAndRepo(url)
    {
      base := new Metric(url);
      owner, repo := OwnerAndRepo(url).0, OwnerAndRepo(url).1;
    }

    /** `init`: `fetched` is the contributors listing or the failure of
        fetching it. A failure propagates out and leaves the score alone. */
    method Init(fetched: Result<seq<Contributor>>) returns (outcome: Outcome)
      modifies base
      ensures fetched.Err? ==> outcome == Fail(fetched.error) && base.score == old(base.score)
      ensures fetched.Ok? ==> outcome == Pass
      ensures fetched.Ok? ==> exists ranked: seq<Contributor> ::
        && multiset(ranked) == multiset(fetched.value)
        && SortedDesc(Counts(ranked))
        && base.score == BusFactorScore(Counts(ranked))
      ensures base.URL == old(base.URL)
    {
      if fetched.Err? {
        return Fail(fetched.error);
      }
      var a := new Contributor[|fetched.value|](i requires 0 <= i < |fetched.value| => fetched.value[i]);
      assert a[..] == fetched.value;
      var s := CalculateBusFactor(a);
      base.UpdateScore(s);
      assert multiset(a[..]) == multiset(fetched.value);
      outcome := Pass;
    }
  }
}
