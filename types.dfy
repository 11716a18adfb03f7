/** internal/platformapi/types.go: the assessment `Status` enumeration and the
    generic `Ptr` helper. */
module Types {
  import opened Wrappers

  /** Go's `type Status int`: every int is a Status, only four are named. */
  newtype Status = int

  const Completed: Status := 0
  const Pending: Status := 1
  const Failed: Status := 2
  const Unknown: Status := 3

  /** `Status.String`: the three named states print as their lower-case name,
      `Unknown` and every value outside the enumeration print as "unknown". */
  function StatusString(s: Status): (r: string)
    ensures r == "completed" <==> s == Completed
    ensures r == "pending" <==> s == Pending
    ensures r == "failed" <==> s == Failed
    ensures r == "unknown" <==> (s != Completed && s != Pending && s != Failed)
    ensures r != []
  {
    if s == Completed then "completed"
    else if s == Pending then "pending"
    else if s == Failed then "failed"
    else "unknown"
  }

  /** Two statuses with the same text are both unnamed or are the same. */
  lemma StatusStringInjectiveOnNamed(s: Status, t: Status)
    requires s == Completed || s == Pending || s == Failed
    ensures StatusString(s) == StatusString(t) <==> s == t
  {
  }

  /** `Ptr(v)`: a non-nil pointer whose target is `v`. */
  function Ptr<T>(v: T): (p: Option<T>)
    ensures p != None && p.value == v
  {
    Some(v)
  }
}
