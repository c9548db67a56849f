/** The state every metric shares: the URL it was built with and its
    current score. The metric classes hold one of these and update it. */
module MetricBase {
  import opened Results
  import opened JsText

  class Metric {
    /** The URL the metric works on. It is an `Option` because the
        responsive-maintainer metric overwrites it with a piece of the URL
        that may be missing (`undefined`). */
    var URL: Option<string>
    var score: real

    constructor(url: string)
      ensures URL == Some(url) && score == 0.0
    {
      URL := Some(url);
      score := 0.0;
    }

    method GetScore() returns (s: real)
      ensures s == score
    {
      s := score;
    }

    method UpdateScore(newScore: real)
      modifies this
      ensures score == newScore
      ensures URL == old(URL)
    {
      score := newScore;
    }
  }

  /** `parts[3]` and `parts[4]` of `url.split('/')`, each `undefined` when
      the URL has too few slashes: the owner and repository name of a
      GitHub URL. */
  function OwnerAndRepo(url: string): (r: (Option<string>, Option<string>))
    ensures r.0.Some? <==> CountChar(url, '/') >= 3
    ensures r.1.Some? <==> CountChar(url, '/') >= 4
    ensures r.0.Some? ==> !Contains(r.0.value, "/")
    ensures r.1.Some? ==> !Contains(r.1.value, "/")
  {
    var parts := Split(url, "/");
    SplitCharCount(url, '/');
    SplitPiecesAvoidSeparator(url, "/");
    (Segment(parts, 3), Segment(parts, 4))
  }

  /** The fixed head of a GitHub URL, cut at its slashes. */
  lemma GitHubHeadShape(path: string)
    ensures "https://github.com/" + path == "https:" + "/" + ("" + "/" + ("github.com" + "/" + path))
  {
    var u, v := "https://github.com/" + path, "https:" + "/" + ("" + "/" + ("github.com" + "/" + path));
    assert |u| == |v|;
    forall t | 0 <= t < |u| ensures u[t] == v[t] {
      if t >= 19 {
        assert u[t] == path[t - 19] == v[t];
      }
    }
  }

  /** The fixed head of a GitHub URL splits into three pieces. */
  lemma GitHubHeadSplit(path: string)
    ensures Split("https://github.com/" + path, "/") == ["https:", "", "github.com"] + Split(path, "/")
  {
    var x2 := "github.com" + "/" + path;
    var x1 := "" + "/" + x2;
    GitHubHeadShape(path);
    SplitCharPrefix("https:", '/', x1);
    SplitCharPrefix("", '/', x2);
    SplitCharPrefix("github.com", '/', path);
  }

  /** For `https://github.com/<owner>/<repo>` optionally followed by a
      further path, the owner and the repository name are read back. */
  lemma GitHubOwnerAndRepo(owner: string, repo: string, rest: string)
    requires forall i :: 0 <= i < |owner| ==> owner[i] != '/'
    requires forall i :: 0 <= i < |repo| ==> repo[i] != '/'
    requires rest == [] || rest[0] == '/'
    ensures OwnerAndRepo("https://github.com/" + owner + "/" + repo + rest)
         == (Some(owner), Some(repo))
  {
    var tail := repo + rest;
    var path := owner + "/" + tail;
    assert "https://github.com/" + owner + "/" + repo + rest == "https://github.com/" + path;
    GitHubHeadSplit(path);
    SplitCharPrefix(owner, '/', tail);
    var parts := Split("https://github.com/" + path, "/");
    assert parts == ["https:", "", "github.com", owner] + Split(tail, "/");
    if rest == [] {
      assert tail == repo && tail[0..] == repo;
      SplitFromCharEnd(tail, '/', 0);
      assert Split(tail, "/") == [repo];
    } else {
      assert tail == repo + "/" + rest[1..];
      SplitCharPrefix(repo, '/', rest[1..]);
      assert Split(tail, "/")[0] == repo;
    }
    assert parts[3] == owner && parts[4] == repo;
  }
}
