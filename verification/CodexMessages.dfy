/**
 What the JSON fields of a server message mean for the turns and requests of the Codex
 client.
 */
module CodexMessages {
  import opened Integers
  import opened Wrappers
  import opened CodexAppServer
  import opened CodexRuns
  import opened CodexTurns
  import opened CodexActiveTurns

  // ----- Reports -----

  /** `turn/completed` for this turn, with a status other than `inProgress`. */
  predicate IsCompletion(message: Incoming, t: TurnId) {
    && message.id == None && message.methodName == Some("turn/completed") && message.params.threadId.Some?
    && message.params.turn.Some? && message.params.turn.value.id == Some(t)
    && message.params.turn.value.status != Some("inProgress")
  }

  /** `error` for this turn, which the server will not retry. */
  predicate IsFinalError(message: Incoming, t: TurnId) {
    && message.id == None && message.methodName == Some("error") && message.params.threadId.Some?
    && message.params.turnId == Some(t) && message.params.willRetry != Some(true)
  }

  function OrElse(text: Option<string>, default_: string): string {
    if text.Some? then text.value else default_
  }

  /** The result of a turn that ended with this status. */
  function ResultOfStatus(status: Option<string>, errorMessage: Option<string>): TurnResult {
    if status == None then Fail("turn status missing")
    else if status == Some("failed") then Fail(OrElse(errorMessage, "turn failed"))
    else if status == Some("completed") then Stop("EndTurn")
    else if status == Some("interrupted") then Stop("Cancelled")
    else Stop(status.value)
  }

  lemma TurnsEndByStatus(turn: Turn)
    ensures PromptResultFromTurn(turn) ==
            if turn.status == Some("inProgress") then None else Some(ResultOfStatus(turn.status, turn.errorMessage))
  {
  }

  /** A message reports a turn finished if and only if it is one of these two; a completion gives
      the result of its status, an error its message. */
  lemma ReportsOnTheWire(s: State, message: Incoming, t: TurnId)
    ensures Ends(Message(message), t) <==> IsCompletion(message, t) || IsFinalError(message, t)
    ensures IsCompletion(message, t) ==>
              var turn := message.params.turn.value;
              TouchesOf(s, Message(message), t) == [Reported(ResultOfStatus(turn.status, turn.errorMessage))]
    ensures IsFinalError(message, t) ==>
              TouchesOf(s, Message(message), t) ==
              [Reported(Fail(OrElse(message.params.errorMessage, "codex app-server turn failed")))]
    ensures !IsCompletion(message, t) && !IsFinalError(message, t) ==> TouchesOf(s, Message(message), t) == []
  {
    if message.params.turn.Some? { TurnsEndByStatus(message.params.turn.value); }
    hide PromptResultFromTurn, ResultOfStatus;
  }

  /** What a message records or ends for a session, on its fields. */
  lemma MarksOnTheWire(s: State, message: Incoming, h: ThreadId, t: TurnId)
    ensures Recorded(h, t) in MarksOf(s, Message(message)) <==>
            && message.id == None && message.methodName == Some("turn/started")
            && message.params.threadId == Some(h)
            && message.params.turn.Some? && message.params.turn.value.id == Some(t)
    ensures Mark.Ended(h, t) in MarksOf(s, Message(message)) <==>
            && message.params.threadId == Some(h) && (IsCompletion(message, t) || IsFinalError(message, t))
  {
    if message.params.turn.Some? { TurnsEndByStatus(message.params.turn.value); }
    hide PromptResultFromTurn, ResultOfStatus;
  }

  /** An error that the server will retry, and every other notification that names no turn to
      start or end, leaves the maps of every run as they were. */
  lemma OtherNotificationsChangeNothing(tr: seq<Event>, message: Incoming)
    requires message.id == None
    requires message.methodName == Some("error") ==> message.params.willRetry == Some(true)
    requires message.methodName !in {Some("turn/started"), Some("turn/completed")}
    ensures Run(tr + [Message(message)]) == Run(tr)
  {
    RunExtended(tr, Message(message));
    hide Run, Sound;
  }

  // ----- Responses -----

  /** What the response to `turn/start` tells the prompt, on its fields. */
  lemma ResponsesOnTheWire(message: Incoming, t: TurnId)
    ensures var verdict := VerdictOf(ResponseOf(message));
            && (message.result == None ==> verdict == Failed(message.errorText))
            && (message.result == Some(None) ==> verdict == Failed("codex turn/start response missing turn"))
            && (message.result.Some? && message.result.value.Some? ==>
                  var turn := message.result.value.value;
                  && (turn.id == None ==> verdict == Failed("codex turn/start response missing turn.id"))
                  && (turn.id == Some(t) ==>
                        verdict == if turn.status == Some("inProgress") then Running(t)
                                   else Over(t, ResultOfStatus(turn.status, turn.errorMessage))))
  {
    if message.result.Some? && message.result.value.Some? { TurnsEndByStatus(message.result.value.value); }
    hide PromptResultFromTurn, ResultOfStatus;
  }

  /** A request in flight that gets its response and resumes returns that response: the result,
      or the error of the message. */
  lemma RequestsReturnTheirResponse(tr: seq<Event>, c: CallId, message: Incoming)
    requires NeverRedraws(tr) && c in Run(tr).calls && Run(tr).calls[c].InFlight?
    requires Run(tr).calls[c].purpose == Other
    requires message.id == Some(Run(tr).calls[c].id) && message.methodName == None
    ensures Lookup(Run(tr + [Message(message)] + [Resume(c)]).calls, c) ==
            Some(Returned(if message.result.Some? then Response(message.result.value) else Failure(message.errorText)))
  {
    hide Run, Sound, NeverRedraws;
    RunExtended(tr, Message(message));
    RunExtended(tr + [Message(message)], Resume(c));
    ResponseResolvesItsCall(tr, message);
    assert Step(Run(tr), Message(message)) == Received(Run(tr), message);
    hide Received;
  }

  /** A prompt whose response names no turn fails with what is missing, or with the error. */
  lemma FailedResponsesFailThePrompt(tr: seq<Event>, c: CallId)
    requires c in Run(tr).calls && Run(tr).calls[c].Answered? && Run(tr).calls[c].purpose.Prompt?
    requires VerdictOf(Run(tr).calls[c].reply).Failed?
    ensures var s, after := Run(tr), Run(tr + [Resume(c)]);
            && Lookup(after.calls, c) == Some(Done(Fail(VerdictOf(s.calls[c].reply).error)))
            && after.waiters == s.waiters && after.completed == s.completed && after.active == s.active
  {
    hide Run, Sound, VerdictOf;
    RunExtended(tr, Resume(c));
  }
}
