/** What one run of the command leaves behind: the bytes written to
    standard output and standard error, and the exit status. Both
    implementations end each run either by returning from `main` (status 0)
    or by exiting with status 1. */
module Process {
  import opened ByteText

  datatype Option<T> = None | Some(value: T) {
    function GetOr(default: T): T {
      match this
      case Some(v) => v
      case None => default
    }
  }

  datatype Outcome = Outcome(stdout: Bytes, stderr: Bytes, code: int)

  /** A run that returns normally after writing `text` to standard output. */
  function Printed(text: Bytes): Outcome {
    Outcome(text, [], 0)
  }

  /** `text` followed by the newline `println!` / `fmt.Println` adds. */
  function Line(text: Bytes): Bytes {
    text + [NEWLINE]
  }
}
