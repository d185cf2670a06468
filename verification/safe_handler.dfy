/**
 * The handler guard (`safeHandler`): it wraps a user-supplied lifecycle
 * action and maps each event, together with how the action ended, to exactly
 * one of: re-raise the Retry signal, do nothing, or submit one response.
 */
module SafeHandler {
  import opened Wrappers
  import opened CfnResponse

  /** Whether a thrown value is an instance of the `Retry` class. */
  datatype ErrorKind = RetryKind | OtherKind

  /** A thrown error: its class, its `message` and its `stack`, either of which may be undefined. */
  datatype Error = Error(kind: ErrorKind, message: Option<string>, stack: Option<string>)

  datatype Outcome = Completed | Threw(error: Error)

  /**
   * One run of the wrapped action. The action receives the event object
   * itself and may change it, so the guard's failure handling sees the event
   * as the action left it.
   */
  datatype Attempt = Attempt(event: Event, outcome: Outcome)

  /** What the guard does with one event. */
  datatype Response =
    | Propagate(error: Error)
    | NoSubmit
    | Submit(status: Status, event: Event, options: Options)

  /** A Delete for a resource whose Create failed: its id is exactly the create-failed marker. */
  predicate IsOrphanedDelete(e: Event) {
    e.requestType == Delete && e.physicalResourceId == Some(CREATE_FAILED_PHYSICAL_ID_MARKER)
  }

  /** The process-wide `includeStackTraces` switch is on unless the embedding code turns it off. */
  const DefaultIncludeStackTraces := true

  /** The reason handed to the submitter for a failure: the stack trace or the message. */
  function FailureReason(err: Error, includeStackTraces: bool): Option<string> {
    if includeStackTraces then err.stack else err.message
  }

  /** The catch block's id fix-up: a Create without an id gets the create-failed marker. */
  function MarkFailedEvent(e: Event): Event {
    if Absent(e.physicalResourceId) && e.requestType == Create
    then e.(physicalResourceId := Some(CREATE_FAILED_PHYSICAL_ID_MARKER))
    else e
  }

  /**
   * The guard's decision for `event`. `action` is the wrapped block and is
   * consulted only when the event is not an orphaned Delete;
   * `includeStackTraces` is the process-wide switch.
   */
  function Guard(event: Event, action: Event -> Attempt, includeStackTraces: bool): (r: Response)
    ensures IsOrphanedDelete(event) ==> r == Submit(Success, event, NoOptions)
    ensures (r.Submit? && r.status == Success) <==> IsOrphanedDelete(event)
    ensures r.NoSubmit? <==> !IsOrphanedDelete(event) && action(event).outcome.Completed?
    ensures r.Propagate? <==>
              !IsOrphanedDelete(event) && action(event).outcome.Threw? &&
              action(event).outcome.error.kind == RetryKind
    ensures r.Propagate? ==> r.error == action(event).outcome.error
    ensures (r.Submit? && r.status == Failed) <==>
              !IsOrphanedDelete(event) && action(event).outcome.Threw? &&
              action(event).outcome.error.kind == OtherKind
    ensures r.Submit? && r.status == Failed ==>
              var after := action(event).event;
              && r.options == Options(FailureReason(action(event).outcome.error, includeStackTraces), None)
              && r.event == after.(physicalResourceId := r.event.physicalResourceId)
              && (!Absent(after.physicalResourceId) ==> r.event == after)
              && (Absent(after.physicalResourceId) && after.requestType == Create ==>
                    r.event.physicalResourceId == Some(CREATE_FAILED_PHYSICAL_ID_MARKER))
              && (Absent(after.physicalResourceId) && after.requestType != Create ==> r.event == after)
  {
    if IsOrphanedDelete(event) then
      Submit(Success, event, NoOptions)
    else
      var attempt := action(event);
      match attempt.outcome
      case Completed => NoSubmit
      case Threw(err) =>
        match err.kind
        case RetryKind => Propagate(err)
        case OtherKind =>
          Submit(Failed, MarkFailedEvent(attempt.event), Options(FailureReason(err, includeStackTraces), None))
  }

  /**
   * What the guard itself does in one invocation: an error raised, or at most
   * one submission. Submissions the action makes on its own are part of the
   * action and do not appear here.
   */
  datatype Effect = Effect(raised: Option<Error>, submission: Option<Submission>)

  /**
   * The handler `safeHandler(block)` returns, run on one event: the guard's
   * decision carried through `submitResponse`.
   */
  function Handle(event: Event, action: Event -> Attempt, includeStackTraces: bool,
                  parse: string -> ParsedUrl,
                  stringify: Envelope -> seq<Utf8.CodePoint>): (r: Effect)
    ensures r.raised.None? || r.submission.None?
    ensures IsOrphanedDelete(event) ==>
              && r.raised.None? && r.submission.Some?
              && r.submission.value.envelope.status == Success
              && r.submission.value.envelope.reason == "SUCCESS"
              && r.submission.value.envelope.physicalResourceId == CREATE_FAILED_PHYSICAL_ID_MARKER
    ensures !IsOrphanedDelete(event) && action(event).outcome.Completed? ==> r == Effect(None, None)
    ensures !IsOrphanedDelete(event) && action(event).outcome.Threw? &&
            action(event).outcome.error.kind == RetryKind ==>
              r == Effect(Some(action(event).outcome.error), None)
    ensures !IsOrphanedDelete(event) && action(event).outcome.Threw? &&
            action(event).outcome.error.kind == OtherKind ==>
              var after := action(event).event;
              var reason := FailureReason(action(event).outcome.error, includeStackTraces);
              && r.raised.None? && r.submission.Some?
              && r.submission.value.envelope.status == Failed
              && r.submission.value.envelope.reason == (if Absent(reason) then "FAILED" else reason.value)
              && r.submission.value.envelope.noEcho.None?
              && r.submission.value.envelope.physicalResourceId ==
                   (if !Absent(after.physicalResourceId) then after.physicalResourceId.value
                    else if after.requestType == Create then CREATE_FAILED_PHYSICAL_ID_MARKER
                    else MISSING_PHYSICAL_ID_MARKER)
  {
    match Guard(event, action, includeStackTraces)
    case Propagate(err) => Effect(Some(err), None)
    case NoSubmit => Effect(None, None)
    case Submit(status, ev, options) =>
      Effect(None, Some(SubmitResponse(status, ev, options, parse, stringify)))
  }

  /** An orphaned Delete never consults the action: any two actions give the same response. */
  lemma OrphanedDeleteSkipsAction(event: Event, a1: Event -> Attempt, a2: Event -> Attempt, includeStackTraces: bool)
    requires IsOrphanedDelete(event)
    ensures Guard(event, a1, includeStackTraces) == Guard(event, a2, includeStackTraces)
    ensures Guard(event, a1, includeStackTraces).Submit?
  {
  }

  /**
   * Retry is recognised by the error's class alone: an ordinary error with
   * the same message and stack is reported as a failure instead.
   */
  lemma RetryRecognisedByKind(event: Event, a1: Event -> Attempt, a2: Event -> Attempt, includeStackTraces: bool,
                              after: Event, message: Option<string>, stack: Option<string>)
    requires !IsOrphanedDelete(event)
    requires a1(event) == Attempt(after, Threw(Error(RetryKind, message, stack)))
    requires a2(event) == Attempt(after, Threw(Error(OtherKind, message, stack)))
    ensures Guard(event, a1, includeStackTraces) == Propagate(Error(RetryKind, message, stack))
    ensures Guard(event, a2, includeStackTraces).Submit?
    ensures Guard(event, a2, includeStackTraces).status == Failed
  {
  }

  /**
   * A Create without an id whose action fails answers FAILED with the
   * create-failed marker, and the Delete that follows with that id takes the
   * orphaned-delete short cut: SUCCESS, whatever the action would do.
   */
  lemma CreateFailureRoundTrip(event: Event, action: Event -> Attempt, includeStackTraces: bool,
                               delete: Event, cleanup: Event -> Attempt)
    requires event.requestType == Create && Absent(event.physicalResourceId)
    requires action(event).event.requestType == Create && Absent(action(event).event.physicalResourceId)
    requires action(event).outcome.Threw? && action(event).outcome.error.kind == OtherKind
    ensures var r := Guard(event, action, includeStackTraces);
            && r.Submit? && r.status == Failed
            && var failed := BuildEnvelope(r.status, r.event, r.options);
            && failed.physicalResourceId == CREATE_FAILED_PHYSICAL_ID_MARKER
            && (delete.requestType == Delete && delete.physicalResourceId == Some(failed.physicalResourceId) ==>
                  && IsOrphanedDelete(delete)
                  && Guard(delete, cleanup, includeStackTraces) == Submit(Success, delete, NoOptions)
                  && BuildEnvelope(Success, delete, NoOptions).reason == "SUCCESS"
                  && BuildEnvelope(Success, delete, NoOptions).physicalResourceId == CREATE_FAILED_PHYSICAL_ID_MARKER)
  {
  }
}
