/**
 * The value types the dump actor works with: the status record kept for each
 * dump, the errors a request can be answered with, and the three ways the
 * background dump task can end. The record type lives in a sibling module of
 * the actor; only the part of it that the actor reads and writes is modelled.
 */
module DumpTypes {

  datatype Option<T> = None | Some(value: T)

  /** Lifecycle of one dump: created `InProgress`, ends `Done` or `Failed`. */
  datatype DumpStatus = InProgress | Done | Failed

  /** A dump's status record, stored in the registry under its uid. */
  datatype DumpInfo = DumpInfo(uid: string, status: DumpStatus, error: Option<string>)
  {
    /** A fresh record: no error recorded yet. */
    static function New(uid: string, status: DumpStatus): DumpInfo
    {
      DumpInfo(uid, status, None)
    }

    /** The record after its dump succeeded. */
    function MarkDone(): DumpInfo
    {
      this.(status := Done)
    }

    /** The record after its dump failed with the given message. */
    function WithError(msg: string): DumpInfo
    {
      this.(status := Failed, error := Some(msg))
    }
  }

  /** Errors a create or info request is answered with. */
  datatype DumpError =
    | DumpAlreadyRunning
    | DumpDoesNotExist(uid: string)

  datatype DumpResult<T> = Ok(value: T) | Err(error: DumpError)

  /**
   * How the spawned dump task ended: it returned `Ok(())`, it returned an
   * error (carried here already rendered to its message), or joining it
   * failed. `Panicked` stands for any failed join: a panic, but also a
   * cancelled task.
   */
  datatype TaskOutcome =
    | Success
    | TaskError(message: string)
    | Panicked

  /** The message recorded for a dump whose task could not be joined. */
  const PanicMessage: string := "Unexpected error while performing dump."
}
