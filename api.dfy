/** The npm registry client: the request target it builds and the way it
    turns the manifest's `repository.url` into a repository URL. */
module NpmRegistry {
  import opened Results
  import opened JsText

  const RegistryBase := "https://registry.npmjs.org"

  /** `${this._url}${endpoint}`: the endpoint is appended verbatim. */
  function RequestTarget(endpoint: string): (t: string)
    ensures StartsWith(t, RegistryBase) && t[|RegistryBase|..] == endpoint
  {
    RegistryBase + endpoint
  }

  /** `.replace(/^git\+/, '')`: one leading `git+` is removed. */
  function StripGitPlus(u: string): (r: string)
    ensures StartsWith(u, "git+") ==> u == "git+" + r
    ensures !StartsWith(u, "git+") ==> r == u
  {
    if StartsWith(u, "git+") then u[4..] else u
  }

  /** `.replace(/\.git$/, '')`: one trailing `.git` is removed. */
  function StripDotGit(u: string): (r: string)
    ensures EndsWith(u, ".git") ==> u == r + ".git"
    ensures !EndsWith(u, ".git") ==> r == u
  {
    if EndsWith(u, ".git") then u[..|u| - 4] else u
  }

  /** The prefix is stripped first, then the suffix. */
  function CleanRepoUrl(u: string): string
  {
    StripDotGit(StripGitPlus(u))
  }

  /** A URL with neither affix comes back unchanged. */
  lemma CleanWithoutAffixes(u: string)
    requires !StartsWith(u, "git+") && !EndsWith(u, ".git")
    ensures CleanRepoUrl(u) == u
  {
  }

  /** Clean-up undoes wrapping in `git+` and `.git`, whatever `x` is. */
  lemma CleanUnwraps(x: string)
    ensures CleanRepoUrl("git+" + x + ".git") == x
  {
    var u := "git+" + x + ".git";
    assert StartsWith(u, "git+") && u[4..] == x + ".git";
    var t := x + ".git";
    assert EndsWith(t, ".git") && t[..|t| - 4] == x;
  }

  /** Each affix is removed once only: a doubled prefix keeps one copy. */
  lemma PrefixRemovedOnce(y: string)
    requires !EndsWith(y, ".git")
    ensures CleanRepoUrl("git+git+" + y) == "git+" + y
  {
    var u := "git+git+" + y;
    assert u == "git+" + ("git+" + y);
    var t := "git+" + y;
    assert StartsWith(u, "git+") && u[4..] == t;
    if |y| >= 4 {
      assert t[|t| - 4..] == y[|y| - 4..];
    } else {
      assert t[|y|] == "git+"[|y|];
      assert '.' !in "git+";
    }
  }

  /** Cleaning twice can differ from cleaning once. */
  lemma CleanNotIdempotent()
    ensures CleanRepoUrl(CleanRepoUrl("git+git+x")) != CleanRepoUrl("git+git+x")
  {
    PrefixRemovedOnce("x");
    assert CleanRepoUrl("git+git+" + "x") == "git+" + "x";
    assert "git+git+x" == "git+git+" + "x";
    assert "git+x" == "git+" + "x";
    var t := "git+x";
    assert StartsWith(t, "git+") && t[4..] == "x";
  }

  /** `getRepo`. `fetch` stands for the registry request: it fails, or
      yields the manifest's `repository.url`, which may be missing. */
  function GetRepo(endpoint: string, fetch: string -> Result<Option<string>>): (r: Result<string>)
    ensures fetch(RequestTarget(endpoint)).Err? ==> r == Err(fetch(RequestTarget(endpoint)).error)
    ensures fetch(RequestTarget(endpoint)) == Ok(None) ==> r == Err(RepositoryUrlNotFound)
    ensures fetch(RequestTarget(endpoint)).Ok? && fetch(RequestTarget(endpoint)).value.Some? ==>
      r == Ok(CleanRepoUrl(fetch(RequestTarget(endpoint)).value.value))
  {
    match fetch(RequestTarget(endpoint))
    case Err(e) => Err(e)
    case Ok(None) => Err(RepositoryUrlNotFound)
    case Ok(Some(repoUrl)) => Ok(CleanRepoUrl(repoUrl))
  }

  /** A missing repository URL is an error, never an empty result. */
  lemma MissingUrlIsError(endpoint: string, fetch: string -> Result<Option<string>>)
    requires fetch(RequestTarget(endpoint)).Ok? && fetch(RequestTarget(endpoint)).value.None?
    ensures GetRepo(endpoint, fetch) == Err(RepositoryUrlNotFound)
  {
  }
}
