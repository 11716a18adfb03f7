/** internal/platformapi/laberror.go: the error body the platform returns with a
    4xx or 5xx status, and the three methods that make it a Go error. */
module LabError {
  import opened Wrappers
  import opened Strconv

  /** `LabRouteError`: every field is an optional JSON string. */
  datatype LabRouteError = LabRouteError(
    status: Option<string>,
    name: Option<string>,
    message: Option<string>,
    description: Option<string>)

  /** `Error()` dereferences Status, Name and Message. */
  predicate Printable(e: LabRouteError)
  {
    e.status.Some? && e.name.Some? && e.message.Some?
  }

  /** `Error()`: "HTTP <status> - <name>: <message>". */
  function ErrorText(e: LabRouteError): (r: string)
    requires Printable(e)
    ensures |r| == 10 + |e.status.value| + |e.name.value| + |e.message.value|
    ensures r[..5] == "HTTP " && r[5..5 + |e.status.value|] == e.status.value
    ensures r[5 + |e.status.value|..8 + |e.status.value|] == " - "
    ensures r[8 + |e.status.value|..8 + |e.status.value| + |e.name.value|] == e.name.value
    ensures r[|r| - |e.message.value| - 2..] == ": " + e.message.value
  {
    "HTTP " + e.status.value + " - " + e.name.value + ": " + e.message.value
  }

  /** `ExitCode()`: a platform error always ends the process with status 1. */
  function ExitCode(e: LabRouteError): (c: int)
    ensures c == 1
  {
    1
  }

  /** Why `StatusCode` has no code to give. */
  datatype StatusCodeError = NotDefined | Unparsable(cause: NumError)

  /** `StatusCode()` exactly as laberror.go:21-31 has it: the two results of
      `strconv.Atoi` are swapped, so a parse error yields Atoi's value with a nil
      error and a successful parse yields 0. There is an error only when Status
      is nil. */
  function StatusCode(e: LabRouteError): (r: (int, Option<StatusCodeError>))
    ensures e.status.None? <==> r.1.Some?
    ensures e.status.None? ==> r == (0, Some(NotDefined))
    ensures e.status.Some? && Atoi(e.status.value).1.None? ==> r.0 == 0
    ensures e.status.Some? && Atoi(e.status.value).1.Some? ==> r.0 == Atoi(e.status.value).0
  {
    if e.status.Some? then
      var (i, err) := Atoi(e.status.value);
      // laberror.go:24-27: a non-nil Atoi error is dropped; otherwise the nil error is returned with 0
      if err.Some? then (i, None) else (0, None)
    else
      (0, Some(NotDefined))
  }

  /** As written, a Status that is the decimal form of any 64-bit integer
      (such as "500") gives the code 0. */
  lemma StatusCodeOfDecimalIsZero(e: LabRouteError, n: int)
    requires MinInt64 <= n <= MaxInt64
    requires e.status == Some(Itoa(n))
    ensures StatusCode(e) == (0, None)
  {
    AtoiItoa(n);
  }

  /** As written, `StatusCode` reports a code of 500 or more only for a Status
      whose digits overflow a positive 64-bit integer, and that code is then
      2^63-1. */
  lemma StatusCodeAtLeast500OnlyOnOverflow(e: LabRouteError)
    requires StatusCode(e).1.None? && StatusCode(e).0 >= 500
    ensures e.status.Some?
    ensures Atoi(e.status.value).1 == Some(NumError(e.status.value, ErrRange))
    ensures StatusCode(e).0 == MaxInt64
  {
  }

  /** The numeric status the platform returned in the error body, or why there
      is none: `StatusCode` with the branches the other way round, which is what
      the 5xx retry in run.go relies on. */
  function StatusCodeIntended(e: LabRouteError): (r: (int, Option<StatusCodeError>))
    ensures e.status.None? ==> r == (0, Some(NotDefined))
    ensures e.status.Some? && Atoi(e.status.value).1.None? ==> r == (Atoi(e.status.value).0, None)
    ensures e.status.Some? && Atoi(e.status.value).1.Some? ==> r == (0, Some(Unparsable(Atoi(e.status.value).1.value)))
  {
    if e.status.Some? then
      var (i, err) := Atoi(e.status.value);
      if err.Some? then (0, Some(Unparsable(err.value))) else (i, None)
    else
      (0, Some(NotDefined))
  }

  /** The corrected helper reads back every decimal status: "500" gives 500. */
  lemma StatusCodeIntendedReadsDecimal(e: LabRouteError, n: int)
    requires MinInt64 <= n <= MaxInt64
    requires e.status == Some(Itoa(n))
    ensures StatusCodeIntended(e) == (n, None)
  {
    AtoiItoa(n);
  }
}
