/** One run of the publisher: help, validation, building the event, connecting,
    publishing and flushing, each failure ending the run with its exit code
    (cmd/main.go:15-20, 57-118, 206-221). The transport's outcomes are inputs. */
module Pipeline {
  import opened Wrappers
  import opened Flags
  import opened Subjects
  import opened Auth
  import opened Encoding

  const ExitSuccess := 0
  const ExitInvalidArgs := 1
  const ExitConnectionError := 2

  /** The parsed command line. `argCount` is the number of arguments after the program name. */
  datatype Invocation = Invocation(
    argCount: nat,
    help: bool,
    eventType: string,
    message: string,
    state: string,
    taskNum: string,
    session: string)

  /** Whether each call into the messaging client succeeds. */
  datatype Transport = Transport(connectOk: bool, publishOk: bool, flushOk: bool, flushTimeoutOk: bool)

  /** The stage that ended a run badly. */
  datatype RunError =
    | InvalidArguments(cause: FlagError)
    | ConnectionFailed
    | PublishFailed(subject: string)
    | FlushFailed
    | DeliveryTimeout

  /** The stages a run passes through. */
  datatype Stage = Idle | ShowingHelp | Validating | Building | Connecting | Publishing | Succeeded | Failed

  /** What the publish call was given. */
  datatype Publication = Publication(subject: string, payload: seq<Pair>)

  /** The observable outcome of a run. */
  datatype RunResult = RunResult(
    exitCode: int,
    error: Option<RunError>,
    connection: Option<ConnectRequest>,  // the connection attempt, if one was made
    publication: Option<Publication>,    // the publish call, if one was made
    closed: bool,                        // whether an open connection was closed on exit
    trace: seq<Stage>)

  /** The stages that may follow one another. */
  predicate Step(s: Stage, s': Stage) {
    match s
    case Idle => s' == ShowingHelp || s' == Validating
    case ShowingHelp => s' == Succeeded
    case Validating => s' == Building || s' == Failed
    case Building => s' == Connecting
    case Connecting => s' == Publishing || s' == Failed
    case Publishing => s' == Succeeded || s' == Failed
    case Succeeded => false
    case Failed => false
  }

  /** A single pass from `Idle` to a final stage, with no re-entry. */
  predicate LinearTrace(t: seq<Stage>) {
    && |t| >= 2
    && t[0] == Idle
    && (t[|t| - 1] == Succeeded || t[|t| - 1] == Failed)
    && forall i :: 0 <= i < |t| - 1 ==> Step(t[i], t[i + 1])
  }

  /** The five ways through a run are each a single linear pass. */
  lemma RunTracesLinear()
    ensures LinearTrace([Idle, ShowingHelp, Succeeded])
    ensures LinearTrace([Idle, Validating, Failed])
    ensures LinearTrace([Idle, Validating, Building, Connecting, Failed])
    ensures LinearTrace([Idle, Validating, Building, Connecting, Publishing, Failed])
    ensures LinearTrace([Idle, Validating, Building, Connecting, Publishing, Succeeded])
  {
  }

  /** The error, if any, of publishing and then flushing twice (the second time with a
      timeout); a later call is made only when the earlier ones succeed. */
  function PublishMessage(t: Transport, subject: string): (r: Option<RunError>)
    ensures r == None <==> t.publishOk && t.flushOk && t.flushTimeoutOk
    ensures r == Some(PublishFailed(subject)) <==> !t.publishOk
    ensures r == Some(FlushFailed) <==> t.publishOk && !t.flushOk
    ensures r == Some(DeliveryTimeout) <==> t.publishOk && t.flushOk && !t.flushTimeoutOk
  {
    if !t.publishOk then Some(PublishFailed(subject))
    else if !t.flushOk then Some(FlushFailed)
    else if !t.flushTimeoutOk then Some(DeliveryTimeout)
    else None
  }

  /** The event built from the flags, the subject and the clock's reading: every flag
      value reaches the payload, and an optional flag left empty leaves no key behind. */
  function BuildMessage(inv: Invocation, subject: string, timestamp: string): (m: Message)
    ensures Decode(Encode(m)) == m
    ensures FieldValue(m, "event") == subject && FieldValue(m, "timestamp") == timestamp
    ensures FieldValue(m, "message") == inv.message && "message" in Keys(Encode(m))
    ensures FieldValue(m, "session_id") == inv.session && FieldValue(m, "state") == inv.state
            && FieldValue(m, "task_num") == inv.taskNum
    ensures "session_id" in Keys(Encode(m)) <==> inv.session != ""
    ensures "state" in Keys(Encode(m)) <==> inv.state != ""
    ensures "task_num" in Keys(Encode(m)) <==> inv.taskNum != ""
  {
    var m := Message(subject, timestamp, inv.session, inv.message, inv.state, inv.taskNum);
    OmitsExactlyEmpty(m);
    DecodeEncode(m);
    m
  }

  /** A run of the publisher. */
  method Run(inv: Invocation, env: Env, d: Defaults, loadsNKey: string -> bool, t: Transport, timestamp: string)
    returns (res: RunResult)
    ensures LinearTrace(res.trace)
    ensures res.exitCode == ExitSuccess <==> res.trace[|res.trace| - 1] == Succeeded
    ensures res.exitCode == ExitSuccess <==> res.error == None
    // help, or no arguments at all: success without validation or connection
    ensures inv.help || inv.argCount == 0 ==>
      res.exitCode == ExitSuccess && res.trace == [Idle, ShowingHelp, Succeeded] && res.connection == None
    // invalid flags: exit 1 and no connection is attempted
    ensures !inv.help && inv.argCount > 0 && ValidateFlags(inv.eventType, inv.message).Some? ==>
      res.exitCode == ExitInvalidArgs && res.connection == None && res.publication == None
      && res.error == Some(InvalidArguments(ValidateFlags(inv.eventType, inv.message).value))
    ensures res.exitCode == ExitInvalidArgs <==>
      !inv.help && inv.argCount > 0 && ValidateFlags(inv.eventType, inv.message).Some?
    ensures res.exitCode == ExitInvalidArgs ==> res.error.Some? && res.error.value.InvalidArguments?
    // valid flags and every transport call succeeding: exit 0 with no error
    ensures (!inv.help && inv.argCount > 0 && ValidateFlags(inv.eventType, inv.message) == None
             && t.connectOk && t.publishOk && t.flushOk && t.flushTimeoutOk) ==>
      res.exitCode == ExitSuccess && res.error == None && res.trace[|res.trace| - 1] == Succeeded
    // a connection is attempted exactly for valid flags, and with the selected address and option
    ensures res.connection.Some? <==>
      !inv.help && inv.argCount > 0 && ValidateFlags(inv.eventType, inv.message) == None
    ensures res.connection.Some? ==> res.connection.value == ConnectNATS(env, d, loadsNKey)
    // failure to connect, publish or flush: exit 2
    ensures res.exitCode == ExitConnectionError <==>
      res.connection.Some? && (!t.connectOk || PublishMessage(t, MapSubject(inv.eventType, inv.state)).Some?)
    ensures res.connection.Some? && !t.connectOk ==>
      res.error == Some(ConnectionFailed) && res.publication == None
    // the publish call goes to the mapped subject with the encoded event
    ensures res.publication.Some? <==> res.connection.Some? && t.connectOk
    ensures res.publication.Some? ==>
      && res.publication.value.subject == MapSubject(inv.eventType, inv.state)
      && res.publication.value.payload
         == Encode(BuildMessage(inv, MapSubject(inv.eventType, inv.state), timestamp))
      && Decode(res.publication.value.payload)
         == BuildMessage(inv, MapSubject(inv.eventType, inv.state), timestamp)
    ensures res.publication.Some? && res.exitCode == ExitConnectionError ==>
      res.error == PublishMessage(t, MapSubject(inv.eventType, inv.state))
    // an opened connection is always closed
    ensures res.closed <==> res.publication.Some?
    ensures res.exitCode in {ExitSuccess, ExitInvalidArgs, ExitConnectionError}
  {
    RunTracesLinear();
    if inv.help || inv.argCount == 0 {
      return RunResult(ExitSuccess, None, None, None, false, [Idle, ShowingHelp, Succeeded]);
    }

    var invalid := ValidateFlags(inv.eventType, inv.message);
    if invalid.Some? {
      return RunResult(ExitInvalidArgs, Some(InvalidArguments(invalid.value)), None, None, false,
                       [Idle, Validating, Failed]);
    }

    var subject := MapSubject(inv.eventType, inv.state);
    var msg := BuildMessage(inv, subject, timestamp);
    // Encoding a record of strings cannot fail, so there is no error path here.
    var payload := Encode(msg);

    var request := ConnectNATS(env, d, loadsNKey);
    if !t.connectOk {
      return RunResult(ExitConnectionError, Some(ConnectionFailed), Some(request), None, false,
                       [Idle, Validating, Building, Connecting, Failed]);
    }

    var publication := Publication(subject, payload);
    var failure := PublishMessage(t, subject);
    if failure.Some? {
      return RunResult(ExitConnectionError, failure, Some(request), Some(publication), true,
                       [Idle, Validating, Building, Connecting, Publishing, Failed]);
    }
    return RunResult(ExitSuccess, None, Some(request), Some(publication), true,
                     [Idle, Validating, Building, Connecting, Publishing, Succeeded]);
  }
}
