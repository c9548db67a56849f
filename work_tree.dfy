/** The scratch directory `<cwd>/test` that the correctness and license
    metrics clone repositories into, as a map from relative path to file
    contents; `None` when the directory does not exist. */
module WorkTree {
  import opened Results

  type Files = map<string, string>

  /** The files of a directory, none when it is absent. */
  function FilesOf(tree: Option<Files>): Files
  {
    if tree.Some? then tree.value else map[]
  }

  /** The directory after a checkout of `files` into `tree`: the
      checked-out files are written over whatever the directory held. */
  function Checkout(tree: Option<Files>, files: Files): (r: Files)
    ensures forall p :: p in r <==> p in files || (tree.Some? && p in tree.value)
    ensures forall p :: p in files ==> r[p] == files[p]
  {
    FilesOf(tree) + files
  }

  /** Into an absent directory, a checkout holds exactly the cloned files. */
  lemma CheckoutFresh(files: Files)
    ensures Checkout(None, files) == files
  {
  }

  /** The directory after `cleanUpRepo`: removed when it exists, unless the
      removal fails, which is swallowed and leaves it as it was. */
  function AfterCleanUp(tree: Option<Files>, removalFails: bool): (r: Option<Files>)
    ensures !removalFails ==> r.None?
    ensures r.None? || r == tree
  {
    if tree.Some? && removalFails then tree else None
  }

  class Workspace {
    var tree: Option<Files>

    constructor(initial: Option<Files>)
      ensures tree == initial
    {
      tree := initial;
    }

    /** `existsSync(<repoPath>/<path>)`. */
    function Exists(path: string): (b: bool)
      reads this
      ensures b <==> tree.Some? && path in tree.value
    {
      tree.Some? && path in tree.value
    }

    /** `cleanUpRepo`: acts only when the directory exists. */
    method CleanUp(removalFails: bool)
      modifies this
      ensures tree == AfterCleanUp(old(tree), removalFails)
    {
      if tree.Some? {
        if !removalFails {
          tree := None;
        }
      }
    }

    /** `git.init` on the directory: creates it when absent and keeps any
        files already there. */
    method InitRepository(fails: bool) returns (outcome: Outcome)
      modifies this
      ensures fails ==> outcome.Fail? && tree == old(tree)
      ensures !fails ==> outcome == Pass && tree == Some(FilesOf(old(tree)))
    {
      if fails {
        return Fail(Collaborator("git init failed"));
      }
      if tree.None? {
        tree := Some(map[]);
      }
      outcome := Pass;
    }

    /** `git.clone` into the directory: `fetched` is the repository's files
        or the failure of fetching them. */
    method Clone(fetched: Result<Files>) returns (outcome: Outcome)
      modifies this
      ensures fetched.Err? ==> outcome == Fail(fetched.error) && tree == old(tree)
      ensures fetched.Ok? ==> outcome == Pass && tree == Some(Checkout(old(tree), fetched.value))
    {
      if fetched.Err? {
        return Fail(fetched.error);
      }
      tree := Some(Checkout(tree, fetched.value));
      outcome := Pass;
    }
  }
}
