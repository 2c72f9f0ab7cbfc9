/** Argument validation of the publisher: the closed set of event types and the
    check applied to the `-type` and `-message` flags (cmd/main.go:34-40, 120-131). */
module Flags {
  import opened Wrappers

  /** The event types the publisher accepts. */
  const ValidTypes: set<string> := {"task", "question", "progress", "session"}

  /** Why a set of flags was refused. */
  datatype FlagError =
    | MissingRequired                  // `-type` or `-message` left empty
    | InvalidType(eventType: string)   // a type outside `ValidTypes`

  /** `None` when the flags are acceptable, otherwise the first constraint they break:
      emptiness is checked before membership of the closed set. */
  function ValidateFlags(eventType: string, message: string): (r: Option<FlagError>)
    ensures r == None <==> eventType != "" && message != "" && eventType in ValidTypes
    ensures r == Some(MissingRequired) <==> eventType == "" || message == ""
    ensures r == Some(InvalidType(eventType)) <==> eventType != "" && message != "" && eventType !in ValidTypes
    ensures r.Some? ==> r.value == MissingRequired || r.value == InvalidType(eventType)
  {
    if eventType == "" || message == "" then Some(MissingRequired)
    else if eventType !in ValidTypes then Some(InvalidType(eventType))
    else None
  }
}
