/**
  The records the dashboard receives from the platform, reduced to the
  fields the modelled code reads.
 */
module Records {
  import opened JsValues

  /**
    An XP transaction: its `amount` (whatever JavaScript type it arrived
    as), its `createdAt` instant in milliseconds since the epoch, and its
    slash-separated `path`, which may be absent.
   */
  datatype Transaction = Transaction(amount: Amount, createdAt: int, path: Option<string>)

  /** A project progress entry; `grade` is absent for an entry never graded. */
  datatype Progress = Progress(grade: Option<real>)
}
