/**
 * The error taxonomy of process-fun-core (`ProcessFunError`) and the results
 * its operations return. Display strings are not modelled: where the source
 * formats a message into `ProcessError(String)`, the model records which
 * message it is as a `ProcessCause`.
 */
module CoreErrors {

  /** An errno value as `nix` reports it. */
  datatype Errno = Errno(code: int)

  /** "No such process": the target exited before the signal was sent. */
  const ESRCH: Errno := Errno(3)

  /** The `io::ErrorKind` of the I/O failures the core can meet. */
  datatype IoErrorKind = UnexpectedEof | BrokenPipe

  /** Which of the core's `ProcessError` messages was produced. */
  datatype ProcessCause =
    | AlreadyCompleted        // "Process already completed"
    | PipeReadFailed          // "Failed to read from pipe: ..."
    | KillFailed(errno: Errno) // "Failed to send SIGKILL to process: ..."

  datatype ProcessFunError =
    | MultipleTags(fun: string)
    | BadItemType(itemText: string)
    | IoError(kind: IoErrorKind)
    | ParseError
    | ProcessError(cause: ProcessCause)
    | JsonError
    | TimeoutError

  /** `Result<T, ProcessFunError>` */
  datatype Result<+T> = Ok(value: T) | Err(error: ProcessFunError)
}
