/** The batch driver: it classifies each input line as a GitHub or an npm
    URL, resolves npm packages through the registry, runs the five metrics,
    assembles one record per line and appends it to the output file,
    stopping at the first failure. */
module UrlProcessing {
  import opened Results
  import opened JsText
  import opened NpmRegistry
  import opened NetScoring

  /** One character of a regular expression without metacharacters other
      than `.`, which matches anything but a line terminator. */
  predicate CharMatches(c: char, p: char)
  {
    if p == '.' then !IsLineTerminator(c) else c == p
  }

  /** The pattern matches `s` starting at index `i`. */
  predicate MatchesAt(s: string, pat: string, i: int)
  {
    0 <= i && i + |pat| <= |s| && forall t :: 0 <= t < |pat| ==> CharMatches(s[i + t], pat[t])
  }

  // The GitHub test `https:\/\/github.com\/.*` as a pattern; the trailing
  // `.*` may match nothing, so it is left off.
  const GitHubPattern := "https://github" + "." + "com/"
  // The npm test `https:\/\/www.npmjs.com\/package\/.*`.
  const NpmPattern := "https://www" + "." + "npmjs" + "." + "com/" + "package" + "/"

  /** `githubRegex.test(url)`: the test is not anchored. */
  predicate IsGitHubUrl(url: string)
  {
    exists i :: 0 <= i <= |url| && MatchesAt(url, GitHubPattern, i)
  }

  /** `npmRegex.test(url)`. */
  predicate IsNpmUrl(url: string)
  {
    exists i :: 0 <= i <= |url| && MatchesAt(url, NpmPattern, i)
  }

  /** Text that spells a pattern out matches it, since `.` is not a line
      terminator. */
  lemma SpelledOutMatches(s: string, pat: string, i: int)
    requires OccursAt(s, pat, i)
    ensures MatchesAt(s, pat, i)
  {
    forall t | 0 <= t < |pat| ensures CharMatches(s[i + t], pat[t]) {
      assert s[i + t] == s[i..i + |pat|][t];
    }
  }

  /** Any line that contains `https://github.com/` is a GitHub URL. */
  lemma ContainsGitHubPrefix(url: string)
    requires Contains(url, GitHubPattern)
    ensures IsGitHubUrl(url)
  {
    var i :| 0 <= i <= |url| && OccursAt(url, GitHubPattern, i);
    SpelledOutMatches(url, GitHubPattern, i);
  }

  /** The unescaped dot lets any other character stand between `github`
      and `com`. */
  lemma DotMatchesAnyCharacter(x: char)
    requires !IsLineTerminator(x)
    ensures IsGitHubUrl("https://github" + [x] + "com/")
  {
    var s := "https://github" + [x] + "com/";
    assert MatchesAt(s, GitHubPattern, 0);
  }

  /** The `package` part of the npm pattern is literal, so an npm URL
      contains `package`. */
  lemma NpmUrlContainsPackage(url: string)
    requires IsNpmUrl(url)
    ensures Contains(url, "package")
  {
    var i :| 0 <= i <= |url| && MatchesAt(url, NpmPattern, i);
    var w := url[i + 22..i + 29];
    forall t | 0 <= t < 7 ensures w[t] == "package"[t] {
      assert CharMatches(url[i + (22 + t)], NpmPattern[22 + t]);
      assert NpmPattern[22 + t] == "package"[t];
    }
    assert w == "package";
    assert OccursAt(url, "package", i + 22);
  }

  /** `url.split('package')[1]`: the text between the first and the
      second occurrence of `package`. */
  function NpmPart(url: string): (p: string)
    requires Contains(url, "package")
    ensures var start := IndexOf(url, "package").value + 7;
      && start + |p| <= |url| && p == url[start..start + |p|]
      && (start + |p| == |url| || OccursAt(url, "package", start + |p|))
      && forall m :: start <= m < start + |p| ==> !OccursAt(url, "package", m)
  {
    SplitSecondPiece(url, "package");
    Split(url, "package")[1]
  }

  /** `determineLinkType`. The GitHub test comes first; an npm URL is
      resolved through the registry, whose request `fetch` stands for. */
  function DetermineLinkType(url: string, fetch: string -> Result<Option<string>>): (r: Result<string>)
    ensures IsGitHubUrl(url) ==> r == Ok(url)
    ensures !IsGitHubUrl(url) && !IsNpmUrl(url) ==> r == Err(InvalidUrlType)
  {
    if IsGitHubUrl(url) then Ok(url)
    else if IsNpmUrl(url) then
      NpmUrlContainsPackage(url);
      GetRepo(NpmPart(url), fetch)
    else Err(InvalidUrlType)
  }

  /** An npm URL that is not also a GitHub URL is resolved by asking the
      registry for the text after its first `package`. */
  lemma NpmResolution(url: string, fetch: string -> Result<Option<string>>)
    requires !IsGitHubUrl(url) && IsNpmUrl(url)
    ensures Contains(url, "package")
    ensures DetermineLinkType(url, fetch) == GetRepo(NpmPart(url), fetch)
  {
    NpmUrlContainsPackage(url);
  }

  const NpmPackagePrefix := "https://www" + "." + "npmjs" + "." + "com/"

  /** There is no `a` before index 23, so `package` cannot start before 22. */
  lemma NpmPrefixHasNoPackage(tail: string)
    ensures forall m :: 0 <= m < 22 ==> !OccursAt(NpmPackagePrefix + "package" + tail, "package", m)
  {
    var url := NpmPackagePrefix + "package" + tail;
    var head := NpmPackagePrefix + "p";
    assert 'a' !in head;
    assert url == head + ("ackage" + tail);
    forall m | 0 <= m < 22 ensures !OccursAt(url, "package", m) {
      assert url[m + 1] == head[m + 1];
      Mismatch(url, "package", m, 1);
    }
  }

  /** In `https://www.npmjs.com/package...` the first `package` is the
      one after the host. */
  lemma NpmPackageFirst(tail: string)
    ensures IndexOf(NpmPackagePrefix + "package" + tail, "package") == Some(22)
  {
    var url := NpmPackagePrefix + "package" + tail;
    OccursInMiddle(NpmPackagePrefix, "package", tail);
    NpmPrefixHasNoPackage(tail);
    IndexFromMeaning(url, "package", 0);
  }

  lemma NpmNameHasNoPackage(name: string)
    requires !Contains(name, "package")
    ensures var url := NpmPackagePrefix + "package" + ("/" + name);
      forall m :: 29 <= m ==> !OccursAt(url, "package", m)
  {
    var url := NpmPackagePrefix + "package" + ("/" + name);
    forall m | 29 <= m ensures !OccursAt(url, "package", m) {
      if m == 29 {
        assert url[29] == '/';
      } else {
        var head := NpmPackagePrefix + "package" + "/";
        assert url == head + name && |head| == 30;
        OccursShift(head, name, "package", m - 30);
        assert !OccursAt(name, "package", m - 30);
      }
    }
  }

  /** For `https://www.npmjs.com/package/<name>` the registry is asked for
      `/<name>`. */
  lemma NpmPartOfPackageUrl(name: string)
    requires !Contains(name, "package")
    ensures Contains(NpmPackagePrefix + "package" + ("/" + name), "package")
    ensures NpmPart(NpmPackagePrefix + "package" + ("/" + name)) == "/" + name
  {
    var url := NpmPackagePrefix + "package" + ("/" + name);
    NpmPackageFirst("/" + name);
    NpmNameHasNoPackage(name);
    var p := NpmPart(url);
    assert 29 + |p| == |url|;
    assert p == url[29..];
  }

  /** `normalizeLatency`: the latency as a fraction of five seconds, at
      most 1. */
  function NormalizeLatency(latency: real): (n: real)
    ensures n <= 1.0 && n <= latency / 5.0
    ensures n == 1.0 || n == latency / 5.0
  {
    if latency / 5.0 < 1.0 then latency / 5.0 else 1.0
  }

  lemma NormalizeLatencyUnit(latency: real)
    requires latency >= 0.0
    ensures 0.0 <= NormalizeLatency(latency) <= 1.0
  {
  }

  /** What running the five metrics on a URL yields: each score and the
      seconds it took. */
  datatype Measurement = Measurement(
    busFactor: real, busFactorSeconds: real,
    responsiveMaintainer: real, responsiveMaintainerSeconds: real,
    license: real, licenseSeconds: real,
    rampUp: real, rampUpSeconds: real,
    correctness: real, correctnessSeconds: real)

  /** The record written for one URL. */
  datatype Record = Record(
    url: string,
    netScore: real, netScoreLatency: real,
    busFactor: real, busFactorLatency: real,
    responsiveMaintainer: real, responsiveMaintainerLatency: real,
    rampUp: real, rampUpLatency: real,
    correctness: real, correctnessLatency: real,
    license: real, licenseLatency: real)

  /** The scores in the order NetScore receives them. */
  function ScoreSlots(m: Measurement): seq<real>
  {
    [m.busFactor, m.responsiveMaintainer, m.rampUp, m.correctness, m.license]
  }

  /** The normalised latencies, in the same order. */
  function LatencySlots(m: Measurement): seq<real>
  {
    [NormalizeLatency(m.busFactorSeconds), NormalizeLatency(m.responsiveMaintainerSeconds),
     NormalizeLatency(m.rampUpSeconds), NormalizeLatency(m.correctnessSeconds),
     NormalizeLatency(m.licenseSeconds)]
  }

  const Weights: seq<real> := [0.2, 0.2, 0.2, 0.2, 0.2]

  /** `evaluateUrl` once the metrics have run: the NetScore of the five
      slots and every number rounded to three decimals. */
  function EvaluateUrl(url: string, m: Measurement): (r: Record)
    ensures r.url == url
  {
    var net := NetScore(url, ScoreSlots(m), Weights, LatencySlots(m)).value;
    Record(url,
      Round3(net.score), Round3(NormalizeLatency(GetLatency(net))),
      Round3(m.busFactor), Round3(NormalizeLatency(m.busFactorSeconds)),
      Round3(m.responsiveMaintainer), Round3(NormalizeLatency(m.responsiveMaintainerSeconds)),
      Round3(m.rampUp), Round3(NormalizeLatency(m.rampUpSeconds)),
      Round3(m.correctness), Round3(NormalizeLatency(m.correctnessSeconds)),
      Round3(m.license), Round3(NormalizeLatency(m.licenseSeconds)))
  }

  /** The net score of a URL is the bus factor times ramp-up times a mix of
      the responsiveness, correctness and license scores. */
  lemma EvaluatedNetScore(url: string, m: Measurement)
    ensures EvaluateUrl(url, m).netScore
         == Round3(m.busFactor * m.rampUp * (0.6 * m.responsiveMaintainer + 0.2 * m.correctness + 0.2 * m.license))
    ensures m.busFactor == 0.0 || m.rampUp == 0.0 ==> EvaluateUrl(url, m).netScore == 0.0
  {
    var s := ScoreSlots(m);
    NetScoreFormula(url, s, Weights, LatencySlots(m));
    assert s[0] == m.busFactor && s[1] == m.responsiveMaintainer && s[2] == m.rampUp;
    assert s[3] == m.correctness && s[4] == m.license;
    assert EvaluateUrl(url, m).netScore == Round3(NetScore(url, s, Weights, LatencySlots(m)).value.score);
    assert NetScore(url, s, Weights, LatencySlots(m)).value.score == s[0] * s[2] * (0.6 * s[1] + 0.2 * s[3] + 0.2 * s[4]);
    assert s[0] * s[2] * (0.6 * s[1] + 0.2 * s[3] + 0.2 * s[4])
        == m.busFactor * m.rampUp * (0.6 * m.responsiveMaintainer + 0.2 * m.correctness + 0.2 * m.license);
    if m.busFactor == 0.0 || m.rampUp == 0.0 {
      ZeroSlot(url, s, Weights, LatencySlots(m));
      Round3Thousandths(0);
    }
  }

  /** The NetScore latency is the rounded sum of the normalised latencies,
      normalised again. */
  lemma EvaluatedNetScoreLatency(url: string, m: Measurement)
    ensures EvaluateUrl(url, m).netScoreLatency == Round3(NormalizeLatency(Round3(Sum(LatencySlots(m)))))
  {
  }

  /** The values of a record in key order. */
  datatype Field = Text(text: string) | Number(number: real)

  const Keys: seq<string> :=
    ["URL", "NetScore", "NetScore_Latency", "BusFactor", "BusFactor_Latency",
     "ResponsiveMaintainer", "ResponsiveMaintainer_Latency", "RampUp", "RampUp_Latency",
     "Correctness", "Correctness_Latency", "License", "License_Latency"]

  /** The record as the key-value pairs it is written as. */
  function Fields(r: Record): (f: seq<(string, Field)>)
    ensures |f| == |Keys| && forall i :: 0 <= i < |f| ==> f[i].0 == Keys[i]
    ensures f[0].1 == Text(r.url) && forall i :: 1 <= i < |f| ==> f[i].1.Number?
  {
    [("URL", Text(r.url)),
     ("NetScore", Number(r.netScore)), ("NetScore_Latency", Number(r.netScoreLatency)),
     ("BusFactor", Number(r.busFactor)), ("BusFactor_Latency", Number(r.busFactorLatency)),
     ("ResponsiveMaintainer", Number(r.responsiveMaintainer)),
     ("ResponsiveMaintainer_Latency", Number(r.responsiveMaintainerLatency)),
     ("RampUp", Number(r.rampUp)), ("RampUp_Latency", Number(r.rampUpLatency)),
     ("Correctness", Number(r.correctness)), ("Correctness_Latency", Number(r.correctnessLatency)),
     ("License", Number(r.license)), ("License_Latency", Number(r.licenseLatency))]
  }

  /** The value a reader of the written object finds under `key`: the
      first pair with that key. */
  function Lookup(f: seq<(string, Field)>, key: string): (r: Option<Field>)
    ensures r.Some? ==> (key, r.value) in f
    ensures r.None? ==> forall i :: 0 <= i < |f| ==> f[i].0 != key
  {
    if |f| == 0 then None
    else if f[0].0 == key then Some(f[0].1)
    else Lookup(f[1..], key)
  }

  /** The first pair with `key` decides the lookup. */
  lemma {:induction false} LookupFirst(f: seq<(string, Field)>, key: string, i: nat)
    requires i < |f| && f[i].0 == key && forall j :: 0 <= j < i ==> f[j].0 != key
    ensures Lookup(f, key) == Some(f[i].1)
  {
    if i > 0 {
      assert f[0].0 != key;
      forall j | 0 <= j < i - 1 ensures f[1..][j].0 != key {
        assert f[1..][j] == f[j + 1];
      }
      LookupFirst(f[1..], key, i - 1);
    }
  }

  /** The lengths of the thirteen keys, all different. */
  const KeyLengths: seq<nat> := [3, 8, 16, 9, 17, 20, 28, 6, 14, 11, 19, 7, 15]

  /** No two keys are equal, since no two have the same length. */
  lemma KeysDistinct(i: nat, j: nat)
    requires i < |Keys| && j < |Keys| && i != j
    ensures Keys[i] != Keys[j]
  {
    assert |Keys| == |KeyLengths| && forall k :: 0 <= k < |Keys| ==> |Keys[k]| == KeyLengths[k];
    assert KeyLengths[i] != KeyLengths[j];
  }

  /** Every key is found at its own position. */
  lemma LookupKey(f: seq<(string, Field)>, i: nat)
    requires |f| == |Keys| && i < |f| && forall k :: 0 <= k < |f| ==> f[k].0 == Keys[k]
    ensures Lookup(f, Keys[i]) == Some(f[i].1)
  {
    forall j | 0 <= j < i ensures f[j].0 != Keys[i] {
      KeysDistinct(j, i);
    }
    LookupFirst(f, Keys[i], i);
  }

  /** Looking a key up in the written object gives the record's field of
      that name. */
  lemma RecordLookup(r: Record)
    ensures var f := Fields(r);
      && Lookup(f, "URL") == Some(Text(r.url))
      && Lookup(f, "NetScore") == Some(Number(r.netScore))
      && Lookup(f, "NetScore_Latency") == Some(Number(r.netScoreLatency))
      && Lookup(f, "BusFactor") == Some(Number(r.busFactor))
      && Lookup(f, "BusFactor_Latency") == Some(Number(r.busFactorLatency))
      && Lookup(f, "ResponsiveMaintainer") == Some(Number(r.responsiveMaintainer))
      && Lookup(f, "ResponsiveMaintainer_Latency") == Some(Number(r.responsiveMaintainerLatency))
      && Lookup(f, "RampUp") == Some(Number(r.rampUp))
      && Lookup(f, "RampUp_Latency") == Some(Number(r.rampUpLatency))
      && Lookup(f, "Correctness") == Some(Number(r.correctness))
      && Lookup(f, "Correctness_Latency") == Some(Number(r.correctnessLatency))
      && Lookup(f, "License") == Some(Number(r.license))
      && Lookup(f, "License_Latency") == Some(Number(r.licenseLatency))
  {
    var f := Fields(r);
    LookupKey(f, 0);
    LookupKey(f, 1);
    LookupKey(f, 2);
    LookupKey(f, 3);
    LookupKey(f, 4);
    LookupKey(f, 5);
    LookupKey(f, 6);
    LookupKey(f, 7);
    LookupKey(f, 8);
    LookupKey(f, 9);
    LookupKey(f, 10);
    LookupKey(f, 11);
    LookupKey(f, 12);
  }

  /** Each metric's key holds that metric's own rounded score, and its
      `_Latency` key its own rounded, normalised duration. */
  lemma EvaluatedMetricFields(url: string, m: Measurement)
    ensures var f := Fields(EvaluateUrl(url, m));
      && Lookup(f, "URL") == Some(Text(url))
      && Lookup(f, "BusFactor") == Some(Number(Round3(m.busFactor)))
      && Lookup(f, "BusFactor_Latency") == Some(Number(Round3(NormalizeLatency(m.busFactorSeconds))))
      && Lookup(f, "ResponsiveMaintainer") == Some(Number(Round3(m.responsiveMaintainer)))
      && Lookup(f, "ResponsiveMaintainer_Latency")
         == Some(Number(Round3(NormalizeLatency(m.responsiveMaintainerSeconds))))
      && Lookup(f, "RampUp") == Some(Number(Round3(m.rampUp)))
      && Lookup(f, "RampUp_Latency") == Some(Number(Round3(NormalizeLatency(m.rampUpSeconds))))
      && Lookup(f, "Correctness") == Some(Number(Round3(m.correctness)))
      && Lookup(f, "Correctness_Latency") == Some(Number(Round3(NormalizeLatency(m.correctnessSeconds))))
      && Lookup(f, "License") == Some(Number(Round3(m.license)))
      && Lookup(f, "License_Latency") == Some(Number(Round3(NormalizeLatency(m.licenseSeconds))))
  {
    RecordLookup(EvaluateUrl(url, m));
  }

  /** Every number in an evaluated record already has at most three
      decimals. */
  lemma EvaluatedRecordRounded(url: string, m: Measurement)
    ensures var f := Fields(EvaluateUrl(url, m));
      forall i :: 1 <= i < |f| ==> Round3(f[i].1.number) == f[i].1.number
  {
    var net := NetScore(url, ScoreSlots(m), Weights, LatencySlots(m)).value;
    Round3Idempotent(net.score);
    Round3Idempotent(NormalizeLatency(GetLatency(net)));
    Round3Idempotent(m.busFactor);
    Round3Idempotent(NormalizeLatency(m.busFactorSeconds));
    Round3Idempotent(m.responsiveMaintainer);
    Round3Idempotent(NormalizeLatency(m.responsiveMaintainerSeconds));
    Round3Idempotent(m.rampUp);
    Round3Idempotent(NormalizeLatency(m.rampUpSeconds));
    Round3Idempotent(m.correctness);
    Round3Idempotent(NormalizeLatency(m.correctnessSeconds));
    Round3Idempotent(m.license);
    Round3Idempotent(NormalizeLatency(m.licenseSeconds));
  }

  predicate Plausible(m: Measurement)
  {
    && 0.0 <= m.busFactor <= 1.0 && 0.0 <= m.responsiveMaintainer <= 1.0
    && 0.0 <= m.license <= 1.0 && 0.0 <= m.rampUp <= 1.0 && 0.0 <= m.correctness <= 1.0
    && m.busFactorSeconds >= 0.0 && m.responsiveMaintainerSeconds >= 0.0
    && m.licenseSeconds >= 0.0 && m.rampUpSeconds >= 0.0 && m.correctnessSeconds >= 0.0
  }

  /** With scores in [0, 1] and non-negative times, every number in the
      record lies in [0, 1]. */
  lemma EvaluatedRecordUnit(url: string, m: Measurement)
    requires Plausible(m)
    ensures var f := Fields(EvaluateUrl(url, m));
      forall i :: 1 <= i < |f| ==> 0.0 <= f[i].1.number <= 1.0
  {
    var net := NetScore(url, ScoreSlots(m), Weights, LatencySlots(m)).value;
    NetScoreUnit(url, ScoreSlots(m), Weights, LatencySlots(m));
    Round3Unit(net.score);
    var ls := LatencySlots(m);
    NormalizeLatencyUnit(m.busFactorSeconds);
    NormalizeLatencyUnit(m.responsiveMaintainerSeconds);
    NormalizeLatencyUnit(m.rampUpSeconds);
    NormalizeLatencyUnit(m.correctnessSeconds);
    NormalizeLatencyUnit(m.licenseSeconds);
    SumNonNegative(ls);
    Round3Monotone(0.0, Sum(ls));
    Round3Thousandths(0);
    NormalizeLatencyUnit(Round3(Sum(ls)));
    Round3Unit(NormalizeLatency(GetLatency(net)));
    Round3Unit(m.busFactor);
    Round3Unit(ls[0]);
    Round3Unit(m.responsiveMaintainer);
    Round3Unit(ls[1]);
    Round3Unit(m.rampUp);
    Round3Unit(ls[2]);
    Round3Unit(m.correctness);
    Round3Unit(ls[3]);
    Round3Unit(m.license);
    Round3Unit(ls[4]);
  }

  /** One input line: trimmed, classified, measured and turned into a
      record. `measure` runs the five metrics on a repository URL; the bus
      factor and correctness metrics can fail and stop the batch. */
  function ProcessLine(line: string, fetch: string -> Result<Option<string>>,
                       measure: string -> Result<Measurement>): (r: Result<Record>)
    ensures r.Ok? ==> (DetermineLinkType(Trim(line), fetch).Ok?
      && var u := DetermineLinkType(Trim(line), fetch).value;
         measure(u).Ok? && r.value == EvaluateUrl(u, measure(u).value))
    ensures DetermineLinkType(Trim(line), fetch).Err? ==> r == Err(DetermineLinkType(Trim(line), fetch).error)
  {
    match DetermineLinkType(Trim(line), fetch)
    case Err(e) => Err(e)
    case Ok(u) =>
      match measure(u)
      case Err(e) => Err(e)
      case Ok(m) => Ok(EvaluateUrl(u, m))
  }

  /** The line evaluator the command line uses. */
  function LineEvaluator(fetch: string -> Result<Option<string>>, measure: string -> Result<Measurement>)
    : string -> Result<Record>
  {
    line => ProcessLine(line, fetch, measure)
  }

  /** What a batch run leaves behind: the records written, and the error
      that stopped it, if any. */
  datatype Batch = Batch(records: seq<Record>, failure: Option<Error>)

  /** The batch over `lines[k..]`. */
  function RunFrom(lines: seq<string>, process: string -> Result<Record>, k: nat): (b: Batch)
    requires k <= |lines|
    ensures k + |b.records| <= |lines|
    decreases |lines| - k
  {
    if k == |lines| then Batch([], None)
    else
      match process(lines[k])
      case Err(e) => Batch([], Some(e))
      case Ok(r) =>
        var rest := RunFrom(lines, process, k + 1);
        Batch([r] + rest.records, rest.failure)
  }

  /** The batch over `lines[k..]` has one record per line, in order, up to
      the first line whose evaluation fails, and stops with that error. */
  lemma {:induction false} RunFromMeaning(lines: seq<string>, process: string -> Result<Record>, k: nat)
    requires k <= |lines|
    ensures var b := RunFrom(lines, process, k);
      && (forall i :: 0 <= i < |b.records| ==> process(lines[k + i]) == Ok(b.records[i]))
      && (b.failure.None? ==> k + |b.records| == |lines|)
      && (b.failure.Some? ==>
            k + |b.records| < |lines| && process(lines[k + |b.records|]) == Err(b.failure.value))
    decreases |lines| - k
  {
    if k < |lines| && process(lines[k]).Ok? {
      RunFromMeaning(lines, process, k + 1);
      var b, rest := RunFrom(lines, process, k), RunFrom(lines, process, k + 1);
      forall i | 0 <= i < |b.records| ensures process(lines[k + i]) == Ok(b.records[i]) {
        if i > 0 {
          assert b.records[i] == rest.records[i - 1];
          assert k + i == (k + 1) + (i - 1);
        }
      }
    }
  }

  /** The whole batch. */
  function RunBatch(lines: seq<string>, process: string -> Result<Record>): Batch
  {
    RunFrom(lines, process, 0)
  }

  /** The whole batch holds the records of the lines before the first
      failing one, in order, and that line's error; it fails exactly when
      some line fails. */
  lemma RunBatchMeaning(lines: seq<string>, process: string -> Result<Record>)
    ensures var b := RunBatch(lines, process);
      && |b.records| <= |lines|
      && (forall i :: 0 <= i < |b.records| ==> process(lines[i]) == Ok(b.records[i]))
      && (b.failure.None? ==> |b.records| == |lines|)
      && (b.failure.Some? ==>
            |b.records| < |lines| && process(lines[|b.records|]) == Err(b.failure.value))
      && (b.failure.None? <==> forall i :: 0 <= i < |lines| ==> process(lines[i]).Ok?)
  {
    var b := RunFrom(lines, process, 0);
    RunFromMeaning(lines, process, 0);
    assert forall i :: 0 <= i < |b.records| ==> process(lines[i]) == Ok(b.records[i]);
    assert b.failure.Some? ==> !process(lines[|b.records|]).Ok?;
  }

  /** Records written before a failing line are kept: a batch over more
      lines writes at least what the batch over a prefix wrote. */
  lemma {:induction false} RunFromPrefix(lines: seq<string>, more: seq<string>,
                                         process: string -> Result<Record>, k: nat)
    requires k <= |lines|
    ensures var b := RunFrom(lines, process, k); var c := RunFrom(lines + more, process, k);
      |b.records| <= |c.records| && b.records == c.records[..|b.records|]
      && (b.failure.Some? ==> c == b)
    decreases |lines| - k
  {
    if k < |lines| {
      assert (lines + more)[k] == lines[k];
      if process(lines[k]).Ok? {
        RunFromPrefix(lines, more, process, k + 1);
      }
    }
  }

  /** The output file: each serialised record followed by a newline. */
  function Ndjson(records: seq<Record>, stringify: Record -> string): string
  {
    if |records| == 0 then ""
    else stringify(records[0]) + "\n" + Ndjson(records[1..], stringify)
  }

  function Serialised(records: seq<Record>, stringify: Record -> string): (lines: seq<string>)
    ensures |lines| == |records|
  {
    seq(|records|, i requires 0 <= i < |records| => stringify(records[i]))
  }

  lemma {:induction false} NdjsonIsJoin(records: seq<Record>, stringify: Record -> string)
    ensures Ndjson(records, stringify) == Join(Serialised(records, stringify) + [""], "\n")
  {
    if |records| > 0 {
      NdjsonIsJoin(records[1..], stringify);
      var ls := Serialised(records, stringify);
      assert Serialised(records[1..], stringify) == ls[1..];
      assert (ls + [""])[1..] == ls[1..] + [""];
    }
  }

  /** Appending a record to the file appends its line to the contents. */
  lemma {:induction false} NdjsonSnoc(records: seq<Record>, r: Record, stringify: Record -> string)
    ensures Ndjson(records + [r], stringify) == Ndjson(records, stringify) + stringify(r) + "\n"
  {
    if |records| > 0 {
      NdjsonSnoc(records[1..], r, stringify);
      assert (records + [r])[1..] == records[1..] + [r];
    }
  }

  lemma AppendLine(before: string, done: string, line: string)
    ensures before + done + line + "\n" == before + (done + line + "\n")
  {
  }

  /** The output file read back line by line gives one serialised record
      per line, in order, and a final empty piece after the last newline. */
  lemma OneRecordPerLine(records: seq<Record>, stringify: Record -> string)
    requires forall r :: '\n' !in stringify(r)
    ensures Split(Ndjson(records, stringify), "\n") == Serialised(records, stringify) + [""]
  {
    NdjsonIsJoin(records, stringify);
    var ls := Serialised(records, stringify) + [""];
    forall i | 0 <= i < |ls| ensures '\n' !in ls[i] {
      if i < |records| {
        assert ls[i] == stringify(records[i]);
      }
    }
    JoinSplitChar(ls, '\n');
  }

  lemma RunFromStep(lines: seq<string>, process: string -> Result<Record>, i: nat)
    requires i < |lines|
    ensures process(lines[i]).Err? ==> RunFrom(lines, process, i) == Batch([], Some(process(lines[i]).error))
    ensures process(lines[i]).Ok? ==>
      var rest := RunFrom(lines, process, i + 1);
      RunFrom(lines, process, i) == Batch([process(lines[i]).value] + rest.records, rest.failure)
  {
  }

  lemma RecordsStep(done: seq<Record>, r: Record, rest: seq<Record>)
    ensures done + ([r] + rest) == (done + [r]) + rest
  {
  }

  class UrlProcessor {
    const urlFile: string
    const outputFile: string
    /** The contents of the output file. */
    var output: string

    /** The constructor empties the output file. */
    constructor(urlFile: string, outputFile: string)
      ensures this.urlFile == urlFile && this.outputFile == outputFile && output == ""
    {
      this.urlFile := urlFile;
      this.outputFile := outputFile;
      output := "";
    }

    /** `writeResults`: one serialised record and a newline are appended. */
    method WriteResults(result: Record, stringify: Record -> string)
      modifies this
      ensures output == old(output) + stringify(result) + "\n"
    {
      output := output + stringify(result) + "\n";
    }

    /** `processUrlsFromFile`. `input` holds the lines of the URL file, or
        nothing when it does not exist; `failed` is the `process.exit(1)`
        of the failure path. */
    method ProcessUrlsFromFile(input: Option<seq<string>>, process: string -> Result<Record>,
                               stringify: Record -> string)
      returns (failed: bool)
      modifies this
      ensures input.None? ==> failed && output == old(output)
      ensures input.Some? ==> var b := RunBatch(input.value, process);
        failed == b.failure.Some? && output == old(output) + Ndjson(b.records, stringify)
    {
      if input.None? {
        return true;
      }
      var lines := input.value;
      ghost var b := RunFrom(lines, process, 0);
      var done: seq<Record> := [];
      for i := 0 to |lines|
        invariant b.records == done + RunFrom(lines, process, i).records
        invariant b.failure == RunFrom(lines, process, i).failure
        invariant output == old(output) + Ndjson(done, stringify)
      {
        var evaluationResults := process(lines[i]);
        RunFromStep(lines, process, i);
        if evaluationResults.Err? {
          assert done + [] == done;
          return true;
        }
        RecordsStep(done, evaluationResults.value, RunFrom(lines, process, i + 1).records);
        WriteResults(evaluationResults.value, stringify);
        NdjsonSnoc(done, evaluationResults.value, stringify);
        AppendLine(old(output), Ndjson(done, stringify), stringify(evaluationResults.value));
        done := done + [evaluationResults.value];
      }
      assert done + [] == done;
      failed := false;
    }
  }

  /** `main`: the process's exit code and, once the processor was created,
      the contents of the output file. `inputs` maps the paths of existing
      files to their lines. The constructor empties (or creates) the output
      file before the URL file is looked at, so the URL file is read from
      `inputs[argv[3] := []]`: when both paths are the same, no line is
      read. */
  method RunCli(argv: seq<string>, inputs: map<string, seq<string>>,
                fetch: string -> Result<Option<string>>, measure: string -> Result<Measurement>,
                stringify: Record -> string)
    returns (exitCode: int, written: Option<string>)
    ensures |argv| != 4 ==> exitCode == 1 && written == None
    ensures |argv| == 4 && argv[2] !in inputs[argv[3] := []] ==> exitCode == 1 && written == Some("")
    ensures |argv| == 4 && argv[2] in inputs[argv[3] := []] ==>
      var b := RunBatch(inputs[argv[3] := []][argv[2]], LineEvaluator(fetch, measure));
      && exitCode == (if b.failure.Some? then 1 else 0)
      && written == Some(Ndjson(b.records, stringify))
    ensures |argv| == 4 && argv[2] == argv[3] ==> exitCode == 0 && written == Some("")
  {
    if |argv| != 4 {
      return 1, None;
    }
    var urlFile, outputFile := argv[2], argv[3];
    var urlProcessor := new UrlProcessor(urlFile, outputFile);
    var files := inputs[outputFile := []];
    var input := if urlFile in files then Some(files[urlFile]) else None;
    var failed := urlProcessor.ProcessUrlsFromFile(input, LineEvaluator(fetch, measure), stringify);
    exitCode := if failed then 1 else 0;
    written := Some(urlProcessor.output);
    if urlFile in files {
      var n := Ndjson(RunBatch(files[urlFile], LineEvaluator(fetch, measure)).records, stringify);
      assert "" + n == n;
    }
    if urlFile == outputFile {
      assert RunBatch([], LineEvaluator(fetch, measure)) == Batch([], None);
    }
  }
}
