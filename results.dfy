/** Option, Result and Outcome types for the collaborator failures and the
    thrown errors of the package-evaluation CLI. */
module Results {

  /** `None` stands for JavaScript's `null` or `undefined`. */
  datatype Option<+T> = None | Some(value: T)

  /** The errors the core raises or lets propagate. */
  datatype Error =
    /** The input line is neither a GitHub nor an npm package URL. */
    | InvalidUrlType
    /** The registry manifest has a `repository` without a `url`. */
    | RepositoryUrlNotFound
    /** NetScore was given arrays that do not all have five elements. */
    | ArityMismatch
    /** The batch input file does not exist. */
    | MissingInputFile(path: string)
    /** A failure of an external collaborator (HTTP, git, filesystem, JSON). */
    | Collaborator(reason: string)

  /** The value of a computation that either returns or throws. */
  datatype Result<+T> = Ok(value: T) | Err(error: Error)

  /** The completion of an `async` method returning `void`. */
  datatype Outcome = Pass | Fail(error: Error)
}
