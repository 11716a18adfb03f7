/** The output sink of internal/output/output.go, reduced to what the commands
    observe: the payloads it has accepted, in order, and whether its encoder
    fails. Where the output goes and its format are not modelled. */
module Output {
  import opened Wrappers
  import opened Domain

  /** A `*CLIWriter`. `failure` is the error its encoder gives on every write,
      if it gives one. */
  class Writer {
    var written: seq<Payload>
    const failure: Option<string>

    constructor (failure: Option<string>)
      ensures written == [] && this.failure == failure
    {
      written := [];
      this.failure := failure;
    }

    /** `Write(data)`: the payload is appended, or the encoder's error is
        returned and nothing is appended. */
    method Write(p: Payload) returns (err: Option<Error>)
      modifies this
      ensures err == WriteError(failure)
      ensures written == old(written) + Accepted(failure, p)
    {
      if failure.Some? {
        err := Some(Io(failure.value));
      } else {
        err := None;
        written := written + [p];
      }
    }
  }

  /** What one write adds to the sink. */
  function Accepted(failure: Option<string>, p: Payload): seq<Payload>
  {
    if failure.None? then [p] else []
  }

  /** What one write returns. */
  function WriteError(failure: Option<string>): Option<Error>
  {
    if failure.Some? then Some(Io(failure.value)) else None
  }
}
