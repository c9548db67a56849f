/** The license metric: 1 when a license or readme file of the cloned
    repository names a compatible license, 0 otherwise. */
module LicenseMetric {
  import opened Results
  import opened JsText
  import opened MetricBase
  import opened WorkTree

  /** The allow-list used when none is given. */
  const DefaultLicenses: seq<string> := ["LGPLv2.1", "MIT", "Apache-2.0"]

  /** The license files looked for, in order. */
  const LicensePaths: seq<string> := ["LICENSE", "license", "LICENSE.txt", "license.txt", "LICENSE.md", "license.md"]

  /** The readme files looked for, in order; `README.md` is listed twice. */
  const ReadmePaths: seq<string> := ["README", "README.md", "README.txt", "README.md"]

  /** Some file named in `paths` exists and contains some allowed license
      identifier as a substring. */
  predicate FoundIn(files: Files, paths: seq<string>, allowed: seq<string>)
  {
    exists p, l :: 0 <= p < |paths| && 0 <= l < |allowed|
      && paths[p] in files && Contains(files[paths[p]], allowed[l])
  }

  /** The score of a checked-out repository. */
  function LicenseScore(files: Files, allowed: seq<string>): real
  {
    if FoundIn(files, LicensePaths, allowed) || FoundIn(files, ReadmePaths, allowed) then 1.0 else 0.0
  }

  /** The score is 1 exactly when one of the ten file names exists and
      contains an allowed identifier, and 0 otherwise. */
  lemma LicenseScoreMeaning(files: Files, allowed: seq<string>)
    ensures LicenseScore(files, allowed) in {0.0, 1.0}
    ensures LicenseScore(files, allowed) == 1.0 <==> FoundIn(files, LicensePaths + ReadmePaths, allowed)
  {
    FoundInAppend(files, LicensePaths, ReadmePaths, allowed);
  }

  /** Searching a concatenation of path lists is searching each. */
  lemma FoundInAppend(files: Files, a: seq<string>, b: seq<string>, allowed: seq<string>)
    ensures FoundIn(files, a + b, allowed) <==> FoundIn(files, a, allowed) || FoundIn(files, b, allowed)
  {
    var ab := a + b;
    if FoundIn(files, ab, allowed) {
      var p, l :| 0 <= p < |ab| && 0 <= l < |allowed| && ab[p] in files && Contains(files[ab[p]], allowed[l]);
      if p >= |a| {
        assert b[p - |a|] == ab[p];
      } else {
        assert a[p] == ab[p];
      }
    }
    if FoundIn(files, b, allowed) {
      var p, l :| 0 <= p < |b| && 0 <= l < |allowed| && b[p] in files && Contains(files[b[p]], allowed[l]);
      assert ab[|a| + p] == b[p];
    }
    if FoundIn(files, a, allowed) {
      var p, l :| 0 <= p < |a| && 0 <= l < |allowed| && a[p] in files && Contains(files[a[p]], allowed[l]);
      assert ab[p] == a[p];
    }
  }

  /** The second `README.md` entry never changes the result. */
  lemma DuplicateReadmeIrrelevant(files: Files, allowed: seq<string>)
    ensures FoundIn(files, ReadmePaths, allowed) <==> FoundIn(files, ["README", "README.md", "README.txt"], allowed)
  {
    var short := ["README", "README.md", "README.txt"];
    if FoundIn(files, ReadmePaths, allowed) {
      var p, l :| 0 <= p < |ReadmePaths| && 0 <= l < |allowed|
        && ReadmePaths[p] in files && Contains(files[ReadmePaths[p]], allowed[l]);
      var q := if p == 3 then 1 else p;
      assert short[q] == ReadmePaths[p];
    }
    if FoundIn(files, short, allowed) {
      var p, l :| 0 <= p < |short| && 0 <= l < |allowed|
        && short[p] in files && Contains(files[short[p]], allowed[l]);
      assert ReadmePaths[p] == short[p];
    }
  }

  /** An empty allow-list never matches. */
  lemma EmptyAllowList(files: Files)
    ensures LicenseScore(files, []) == 0.0
  {
  }

  /** Looks through `paths` in order and, in each existing file, through
      the allow-list in order, stopping at the first match. */
  method ScanPaths(ws: Workspace, paths: seq<string>, allowed: seq<string>) returns (found: bool)
    requires ws.tree.Some?
    ensures found <==> FoundIn(ws.tree.value, paths, allowed)
  {
    var files := ws.tree.value;
    for i := 0 to |paths|
      invariant forall p, l :: 0 <= p < i && 0 <= l < |allowed| && paths[p] in files ==> !Contains(files[paths[p]], allowed[l])
    {
      var path := paths[i];
      if ws.Exists(path) {
        var fileContent := files[path];
        for j := 0 to |allowed|
          invariant forall l :: 0 <= l < j ==> !Contains(fileContent, allowed[l])
        {
          if IndexOf(fileContent, allowed[j]).Some? {
            return true;
          }
        }
      }
    }
    return false;
  }

  /** `checkCompatibilityWithLicenses`: initialise the directory, clone
      into it, and scan the license files and then the readme files. Any
      failure of the initialisation or the clone scores 0. */
  method CheckCompatibility(ws: Workspace, initFails: bool, cloned: Result<Files>, allowed: seq<string>)
    returns (score: real)
    modifies ws
    ensures initFails ==> score == 0.0 && ws.tree == old(ws.tree)
    ensures !initFails && cloned.Err? ==> score == 0.0 && ws.tree == Some(FilesOf(old(ws.tree)))
    ensures !initFails && cloned.Ok? ==> ws.tree == Some(Checkout(old(ws.tree), cloned.value))
    ensures !initFails && cloned.Ok? ==> score == LicenseScore(Checkout(old(ws.tree), cloned.value), allowed)
  {
    var initialised := ws.InitRepository(initFails);
    if initialised.Fail? {
      return 0.0;
    }
    var outcome := ws.Clone(cloned);
    if outcome.Fail? {
      return 0.0;
    }
    assert Checkout(Some(FilesOf(old(ws.tree))), cloned.value) == Checkout(old(ws.tree), cloned.value);
    var inLicense := ScanPaths(ws, LicensePaths, allowed);
    if inLicense {
      return 1.0;
    }
    var inReadme := ScanPaths(ws, ReadmePaths, allowed);
    if inReadme {
      return 1.0;
    }
    return 0.0;
  }

  /** `This project is licensed under the MIT License.` */
  const MitText: string := "This project is licensed under the " + "MIT" + " License."

  /** `This project is licensed under the LGPLv2.1 License.` */
  const LgplText: string := "This project is licensed under the " + "LGPLv2.1" + " License."

  /** A `LICENSE` file naming MIT scores 1. */
  lemma MitExample(files: Files)
    requires "LICENSE" in files && files["LICENSE"] == MitText
    ensures LicenseScore(files, DefaultLicenses) == 1.0
  {
    OccursInMiddle("This project is licensed under the ", "MIT", " License.");
    assert LicensePaths[0] == "LICENSE" && DefaultLicenses[1] == "MIT";
    assert Contains(files[LicensePaths[0]], DefaultLicenses[1]);
  }

  /** A license named only in `README` still scores 1. */
  lemma ReadmeOnlyExample(files: Files)
    requires "README" in files && files["README"] == LgplText
    ensures LicenseScore(files, DefaultLicenses) == 1.0
  {
    OccursInMiddle("This project is licensed under the ", "LGPLv2.1", " License.");
    assert ReadmePaths[0] == "README" && DefaultLicenses[0] == "LGPLv2.1";
    assert Contains(files[ReadmePaths[0]], DefaultLicenses[0]);
  }

  /** `This project is licensed under the GPL-3.0 License.` */
  const GplText: string :=
    "This " + "project " + "is " + "licensed " + "under " + "the " + "GPL-3.0 " + "License."

  /** The GPL-3.0 text has no `M` and no `2`. */
  lemma GplTextLetters()
    ensures 'M' !in GplText && '2' !in GplText
  {
  }

  /** GPL-3.0 is not on the default allow-list: files that all hold the
      GPL-3.0 text score 0, whichever of the ten names exist. */
  lemma GplExample(files: Files)
    requires forall p :: p in files ==> files[p] == GplText
    ensures LicenseScore(files, DefaultLicenses) == 0.0
  {
    GplTextLetters();
    MissingCharNotContained(GplText, DefaultLicenses[0], 5);
    MissingCharNotContained(GplText, DefaultLicenses[1], 0);
    MissingCharNotContained(GplText, DefaultLicenses[2], 7);
    assert forall l :: 0 <= l < |DefaultLicenses| ==> !Contains(GplText, DefaultLicenses[l]);
  }

  /** A repository without any of the ten files scores 0. */
  lemma NoFilesExample(files: Files, allowed: seq<string>)
    requires forall p :: p in files ==> p !in LicensePaths && p !in ReadmePaths
    ensures LicenseScore(files, allowed) == 0.0
  {
  }

  class License {
    const base: Metric
    const ws: Workspace
    const compatibleLicenses: seq<string>

    /** An omitted allow-list is the default one. */
    constructor(url: string, ws: Workspace, compatibleLicenses: Option<seq<string>>)
      ensures fresh(base) && base.URL == Some(url) && base.score == 0.0
      ensures this.ws == ws
      ensures this.compatibleLicenses == if compatibleLicenses.Some? then compatibleLicenses.value else DefaultLicenses
    {
      base := new Metric(url);
      this.ws := ws;
      this.compatibleLicenses := if compatibleLicenses.Some? then compatibleLicenses.value else DefaultLicenses;
    }

    /** `init`: clean up, check, clean up again. The two clean-ups may each
        fail, which is swallowed. */
    method Init(firstRemovalFails: bool, initFails: bool, cloned: Result<Files>, secondRemovalFails: bool)
      modifies base, ws
      ensures var start := AfterCleanUp(old(ws.tree), firstRemovalFails);
        && (initFails || cloned.Err? ==> base.score == 0.0)
        && (!initFails && cloned.Ok? ==> base.score == LicenseScore(Checkout(start, cloned.value), compatibleLicenses))
      ensures var start := AfterCleanUp(old(ws.tree), firstRemovalFails);
        && (initFails ==> ws.tree == AfterCleanUp(start, secondRemovalFails))
        && (!initFails && cloned.Err? ==> ws.tree == AfterCleanUp(Some(FilesOf(start)), secondRemovalFails))
        && (!initFails && cloned.Ok? ==> ws.tree == AfterCleanUp(Some(Checkout(start, cloned.value)), secondRemovalFails))
      ensures base.URL == old(base.URL)
    {
      ws.CleanUp(firstRemovalFails);
      var s := CheckCompatibility(ws, initFails, cloned, compatibleLicenses);
      base.UpdateScore(s);
      ws.CleanUp(secondRemovalFails);
    }
  }

  /** When the first clean-up succeeds, leftovers of an earlier clone
      cannot affect the score: only the cloned files count. */
  lemma CleanStartScoresClone(tree: Option<Files>, files: Files, allowed: seq<string>)
    ensures LicenseScore(Checkout(AfterCleanUp(tree, false), files), allowed) == LicenseScore(files, allowed)
  {
    CheckoutFresh(files);
  }
}
