/**
 The Codex app-server client: the maps that a reader task shares with the calls that
 wait on it (daemon/core/src/codex_app_server.rs).

 Everything runs on one thread, so the code between two awaits is one atomic step. Each
 step is a function on `State`; the class `CodexAppServerAgent` performs the same steps
 on mutable maps. A oneshot channel is modelled by its two ends: the sender is the
 `CallId` stored in a map, the receiver is that call's entry in `calls`.
 */
module CodexAppServer {
  import opened Integers
  import opened Wrappers

  datatype CallId = CallId(number: int)

  datatype ThreadId = ThreadId(text: string)

  datatype TurnId = TurnId(text: string)

  /** What a prompt returns: a stop reason, or an error text. */
  datatype TurnResult = Stop(reason: string) | Fail(error: string)

  /** The fields of a JSON turn object that are read; None is missing or not a string. */
  datatype Turn = Turn(id: Option<TurnId>, status: Option<string>, errorMessage: Option<string>)

  /** What a request returns: the turn its response carries, if any, or an error text. */
  datatype Reply = Response(turn: Option<Turn>) | Failure(error: string)

  datatype Params = Params(
    threadId: Option<ThreadId>,
    turn: Option<Turn>,
    turnId: Option<TurnId>,
    errorMessage: Option<string>,
    willRetry: Option<bool>)

  /** One JSON line from the server. `result` is None when the key is missing, and
      `errorText` is then what the error says. */
  datatype Incoming = Incoming(
    id: Option<u64>,
    methodName: Option<string>,
    result: Option<Option<Turn>>,
    errorText: string,
    params: Params)

  datatype Settings = Settings(model: Option<string>, reasoningEffort: Option<string>)

  datatype Purpose = Prompt(session: ThreadId) | Other

  /** Where the future of one call stands. */
  datatype Call =
    | InFlight(id: u64, purpose: Purpose)
    | Answered(id: u64, purpose: Purpose, reply: Reply)
    | Waiting(turnId: TurnId)
    | Done(outcome: TurnResult)
    | Returned(reply: Reply)
    | Abandoned
  {
    /** The future has its result; nothing may be sent to it any more. */
    predicate Settled() { Done? || Returned? || Abandoned? }

  }

  datatype State = State(
    nextId: u64,
    pending: map<u64, CallId>,
    active: map<ThreadId, TurnId>,
    waiters: map<TurnId, CallId>,
    completed: map<TurnId, TurnResult>,
    settings: map<ThreadId, Settings>,
    healthy: bool,
    calls: map<CallId, Call>)

  function Initial(): State {
    State(1, map[], map[], map[], map[], map[], true, map[])
  }

  // ----- Reading JSON -----

  /** What a turn object says about its turn: none while it is in progress. */
  function PromptResultFromTurn(turn: Turn): (r: Option<TurnResult>)
    ensures r == None <==> turn.status == Some("inProgress")
    ensures r.Some? && r.value.Fail? <==> turn.status in {None, Some("failed")}
  {
    match turn.status
    case None => Some(Fail("turn status missing"))
    case Some(status) =>
      if status == "completed" then Some(Stop("EndTurn"))
      else if status == "interrupted" then Some(Stop("Cancelled"))
      else if status == "failed" then
        Some(Fail(if turn.errorMessage.Some? then turn.errorMessage.value else "turn failed"))
      else if status == "inProgress" then None
      else Some(Stop(status))
  }

  datatype Start = Start(threadId: ThreadId, turnId: TurnId)

  datatype Report = Report(threadId: ThreadId, turnId: TurnId, result: TurnResult)

  /** What a notification tells the maps. */
  datatype Notice = Started(start: Start) | Ended(report: Report) | Ignored

  function NoticeOf(methodName: string, params: Params): Notice {
    if params.threadId.None? then Ignored
    else if methodName == "turn/started" then
      if params.turn.Some? && params.turn.value.id.Some? then
        Started(Start(params.threadId.value, params.turn.value.id.value))
      else Ignored
    else if methodName == "turn/completed" then
      if params.turn.Some? && params.turn.value.id.Some? then
        match PromptResultFromTurn(params.turn.value)
        case Some(result) => Ended(Report(params.threadId.value, params.turn.value.id.value, result))
        case None => Ignored
      else Ignored
    else if methodName == "error" then
      if params.turnId.Some? && params.willRetry != Some(true) then
        Ended(Report(params.threadId.value, params.turnId.value,
                     Fail(if params.errorMessage.Some? then params.errorMessage.value
                          else "codex app-server turn failed")))
      else Ignored
    else Ignored
  }

  function NoticeIn(message: Incoming): Notice {
    if message.id.None? && message.methodName.Some? then NoticeOf(message.methodName.value, message.params)
    else Ignored
  }

  const TURN_MISSING := "codex turn/start response missing turn"
  const TURN_ID_MISSING := "codex turn/start response missing turn.id"

  /** What a `turn/start` response tells the prompt: it failed, or it names a turn that is
      running or already has a result. */
  datatype Verdict = Failed(error: string) | Running(turnId: TurnId) | Over(turnId: TurnId, result: TurnResult)

  function VerdictOf(reply: Reply): Verdict {
    match reply
    case Failure(e) => Failed(e)
    case Response(turn) =>
      if turn.None? then Failed(TURN_MISSING)
      else if turn.value.id.None? then Failed(TURN_ID_MISSING)
      else
        match PromptResultFromTurn(turn.value)
        case Some(result) => Over(turn.value.id.value, result)
        case None => Running(turn.value.id.value)
  }

  function ResponseOf(message: Incoming): Reply {
    if message.result.Some? then Response(message.result.value) else Failure(message.errorText)
  }

  // ----- Atomic steps -----

  const RESPONSE_DROPPED := "codex app-server dropped response"
  const WAITER_DROPPED := "codex turn waiter dropped before completion"

  /** Sending on a request's oneshot. */
  function Answer(call: Call, reply: Reply): Call {
    var id := if call.InFlight? || call.Answered? then call.id else 0;
    var purpose := if call.InFlight? || call.Answered? then call.purpose else Other;
    Answered(id, purpose, reply)
  }

  /** A call draws the next request id and stores its sender; a sender that was already
      stored under that id is dropped, which its receiver sees as an error. */
  function Begun(s: State, c: CallId, purpose: Purpose): State
    requires Sound(s)
  {
    var id := s.nextId;
    var calls := if id in s.pending
                 then s.calls[s.pending[id] := Answer(s.calls[s.pending[id]], Failure(RESPONSE_DROPPED))]
                 else s.calls;
    s.(nextId := ((id as int + 1) % U64_RANGE) as u64,
       pending := s.pending[id := c],
       calls := calls[c := InFlight(id, purpose)])
  }

  /** A request future ends before it resumes with a response: the write failed, or the
      future was dropped. The drop guard removes the id. */
  function Dropped(s: State, c: CallId): State {
    if c in s.calls && (s.calls[c].InFlight? || s.calls[c].Answered?) then
      s.(pending := s.pending - {s.calls[c].id}, calls := s.calls[c := Abandoned])
    else s
  }

  /** The first block of `finish_turn`: the session's active turn is cleared if it is this one. */
  function Deactivated(s: State, threadId: ThreadId, turnId: TurnId): State {
    if Lookup(s.active, threadId) == Some(turnId) then s.(active := s.active - {threadId}) else s
  }

  /** The second block of `finish_turn`: the result goes to the waiter, or is stored. */
  function Delivered(s: State, turnId: TurnId, result: TurnResult): State {
    if turnId in s.waiters then
      s.(waiters := s.waiters - {turnId}, calls := s.calls[s.waiters[turnId] := Done(result)])
    else
      s.(completed := s.completed[turnId := result])
  }

  function Finished(s: State, r: Report): State {
    Delivered(Deactivated(s, r.threadId, r.turnId), r.turnId, r.result)
  }

  function Notified(s: State, notice: Notice): State {
    match notice
    case Started(start) => s.(active := s.active[start.threadId := start.turnId])
    case Ended(report) => Finished(s, report)
    case Ignored => s
  }

  /** The reader's dispatch: server request, response, notification, or nothing. */
  function Received(s: State, message: Incoming): State
    requires Sound(s)
  {
    if message.id.Some? then
      if message.methodName.Some? then s
      else if message.id.value in s.pending then
        var c := s.pending[message.id.value];
        s.(pending := s.pending - {message.id.value},
           calls := s.calls[c := Answer(s.calls[c], ResponseOf(message))])
      else s
    else Notified(s, NoticeIn(message))
  }

  /** A prompt stores its waiter. A waiter already stored for that turn is dropped. */
  function Registered(s: State, c: CallId, session: ThreadId, turnId: TurnId): State {
    var calls := if turnId in s.waiters then s.calls[s.waiters[turnId] := Done(Fail(WAITER_DROPPED))] else s.calls;
    s.(waiters := s.waiters[turnId := c],
       active := s.active[session := turnId],
       calls := calls[c := Waiting(turnId)])
  }

  /** A stored completion wins over what the response itself says about the turn. */
  function PromptResumed(s: State, c: CallId, session: ThreadId, verdict: Verdict): State {
    if verdict.Failed? then s.(calls := s.calls[c := Done(Fail(verdict.error))])
    else if verdict.turnId in s.completed then
      s.(completed := s.completed - {verdict.turnId}, calls := s.calls[c := Done(s.completed[verdict.turnId])])
    else if verdict.Over? then s.(calls := s.calls[c := Done(verdict.result)])
    else Registered(s, c, session, verdict.turnId)
  }

  /** An answered call resumes: its drop guard runs, then the code after the await. */
  function Resumed(s: State, c: CallId): State {
    if c in s.calls && s.calls[c].Answered? then
      var call := s.calls[c];
      var s' := s.(pending := s.pending - {call.id});
      match call.purpose
      case Other => s'.(calls := s.calls[c := Returned(call.reply)])
      case Prompt(session) => PromptResumed(s', c, session, VerdictOf(call.reply))
    else s
  }

  function RequestsFailed(s: State, message: string): State
    requires Sound(s)
  {
    s.(pending := map[],
       calls := map c | c in s.calls ::
                  if c in s.pending.Values then Answer(s.calls[c], Failure(message)) else s.calls[c])
  }

  function TurnsFailed(s: State, message: string): State {
    s.(waiters := map[],
       calls := map c | c in s.calls :: if c in s.waiters.Values then Done(Fail(message)) else s.calls[c])
  }

  /** The drains run back to back when the server disconnects. */
  function Disconnected(s: State, message: string): State
    requires Sound(s)
  {
    TurnsFailed(RequestsFailed(s, message), message).(healthy := false)
  }

  function SettingsStored(s: State, session: ThreadId, settings: Settings): State {
    if session in s.active then s else s.(settings := s.settings[session := settings])
  }

  // ----- What every step keeps -----

  /** No turn has both a waiter and a stored result, a stored request sender belongs to a
      call in flight under that id, and a turn's waiter is exactly the call waiting on it. */
  ghost predicate Sound(s: State) {
    && s.waiters.Keys !! s.completed.Keys
    && (forall id <- s.pending ::
          s.pending[id] in s.calls && s.calls[s.pending[id]].InFlight? && s.calls[s.pending[id]].id == id)
    && (forall t <- s.waiters :: s.waiters[t] in s.calls && s.calls[s.waiters[t]] == Waiting(t))
    && (forall c <- s.calls :: s.calls[c].Waiting? ==> Lookup(s.waiters, s.calls[c].turnId) == Some(c))
  }

  // ----- Draining one entry at a time -----

  function OneRequestFailed(s: State, id: u64, message: string): State
    requires Sound(s) && id in s.pending
  {
    var c := s.pending[id];
    s.(pending := s.pending - {id}, calls := s.calls[c := Answer(s.calls[c], Failure(message))])
  }

  lemma OneRequestFailedSound(s: State, id: u64, message: string)
    requires Sound(s) && id in s.pending
    ensures s.pending[id] in s.calls
    ensures Sound(OneRequestFailed(s, id, message))
  {
  }

  lemma FailingOneRequest(s: State, id: u64, message: string)
    requires Sound(s) && id in s.pending
    ensures Sound(OneRequestFailed(s, id, message))
    ensures RequestsFailed(OneRequestFailed(s, id, message), message) == RequestsFailed(s, message)
  {
    OneRequestFailedSound(s, id, message);
    hide Sound;
    var s' := OneRequestFailed(s, id, message);
    assert forall k <- s.pending :: k == id || k in s'.pending;
    assert s.pending.Values == s'.pending.Values + {s.pending[id]};
    assert RequestsFailed(s', message).calls == RequestsFailed(s, message).calls;
  }

  function OneTurnFailed(s: State, turnId: TurnId, message: string): State
    requires turnId in s.waiters
  {
    s.(waiters := s.waiters - {turnId}, calls := s.calls[s.waiters[turnId] := Done(Fail(message))])
  }

  lemma OneTurnFailedSound(s: State, turnId: TurnId, message: string)
    requires Sound(s) && turnId in s.waiters
    ensures s.waiters[turnId] in s.calls
    ensures Sound(OneTurnFailed(s, turnId, message))
  {
  }

  lemma FailingOneTurn(s: State, turnId: TurnId, message: string)
    requires Sound(s) && turnId in s.waiters
    ensures Sound(OneTurnFailed(s, turnId, message))
    ensures TurnsFailed(OneTurnFailed(s, turnId, message), message) == TurnsFailed(s, message)
  {
    OneTurnFailedSound(s, turnId, message);
    hide Sound;
    var s' := OneTurnFailed(s, turnId, message);
    assert forall k <- s.waiters :: k == turnId || k in s'.waiters;
    assert s.waiters.Values == s'.waiters.Values + {s.waiters[turnId]};
    assert TurnsFailed(s', message).calls == TurnsFailed(s, message).calls;
  }

  lemma NothingLeftToFail(s: State, message: string)
    requires Sound(s)
    ensures s.pending == map[] ==> RequestsFailed(s, message) == s
    ensures s.waiters == map[] ==> TurnsFailed(s, message) == s
  {
    assert s.pending == map[] ==> RequestsFailed(s, message).calls == s.calls;
    assert s.waiters == map[] ==> TurnsFailed(s, message).calls == s.calls;
  }

  // ----- The client object -----

  class CodexAppServerAgent {
    var nextRequestId: u64
    var pendingRequests: map<u64, CallId>
    var activeTurns: map<ThreadId, TurnId>
    var turnWaiters: map<TurnId, CallId>
    var completedTurns: map<TurnId, TurnResult>
    var sessionSettings: map<ThreadId, Settings>
    var alive: bool
    var calls: map<CallId, Call>

    function View(): State
      reads this
    {
      State(nextRequestId, pendingRequests, activeTurns, turnWaiters, completedTurns,
            sessionSettings, alive, calls)
    }

    constructor ()
      ensures View() == Initial()
    {
      nextRequestId, alive := 1, true;
      pendingRequests, activeTurns, turnWaiters, completedTurns := map[], map[], map[], map[];
      sessionSettings, calls := map[], map[];
    }

    method BeginRequest(c: CallId, purpose: Purpose) returns (id: u64)
      requires Sound(View()) && c !in calls
      modifies this
      ensures View() == Begun(old(View()), c, purpose)
      ensures id == old(nextRequestId)
    {
      id := nextRequestId;
      nextRequestId := ((id as int + 1) % U64_RANGE) as u64;
      if id in pendingRequests {
        var replaced := pendingRequests[id];
        calls := calls[replaced := Answer(calls[replaced], Failure(RESPONSE_DROPPED))];
      }
      pendingRequests := pendingRequests[id := c];
      calls := calls[c := InFlight(id, purpose)];
    }

    /** The body of the drop guard. */
    method RemovePending(id: u64)
      modifies this
      ensures View() == old(View()).(pending := old(pendingRequests) - {id})
    {
      pendingRequests := pendingRequests - {id};
    }

    method DropRequest(c: CallId)
      modifies this
      ensures View() == Dropped(old(View()), c)
    {
      if c in calls && (calls[c].InFlight? || calls[c].Answered?) {
        RemovePending(calls[c].id);
        calls := calls[c := Abandoned];
      }
    }

    method FinishTurn(threadId: ThreadId, turnId: TurnId, result: TurnResult)
      modifies this
      ensures View() == Finished(old(View()), Report(threadId, turnId, result))
    {
      if threadId in activeTurns && activeTurns[threadId] == turnId {
        activeTurns := activeTurns - {threadId};
      }
      if turnId in turnWaiters {
        var waiter := turnWaiters[turnId];
        turnWaiters := turnWaiters - {turnId};
        calls := calls[waiter := Done(result)];
      } else {
        completedTurns := completedTurns[turnId := result];
      }
    }

    method HandleNotification(methodName: string, params: Params)
      modifies this
      ensures View() == Notified(old(View()), NoticeOf(methodName, params))
    {
      if methodName == "turn/started" {
        if params.threadId.None? || params.turn.None? || params.turn.value.id.None? { return; }
        activeTurns := activeTurns[params.threadId.value := params.turn.value.id.value];
      } else if methodName == "turn/completed" {
        if params.threadId.None? || params.turn.None? || params.turn.value.id.None? { return; }
        var result := PromptResultFromTurn(params.turn.value);
        if result.None? { return; }
        FinishTurn(params.threadId.value, params.turn.value.id.value, result.value);
      } else if methodName == "error" {
        if params.threadId.None? || params.turnId.None? { return; }
        var text := if params.errorMessage.Some? then params.errorMessage.value else "codex app-server turn failed";
        if params.willRetry == Some(true) { return; }
        FinishTurn(params.threadId.value, params.turnId.value, Fail(text));
      }
    }

    method HandleMessage(message: Incoming)
      requires Sound(View())
      modifies this
      ensures View() == Received(old(View()), message)
    {
      if message.id.Some? {
        var id := message.id.value;
        if message.methodName.Some? { return; }
        if id in pendingRequests {
          var c := pendingRequests[id];
          pendingRequests := pendingRequests - {id};
          calls := calls[c := Answer(calls[c], ResponseOf(message))];
        }
        return;
      }
      if message.methodName.Some? {
        HandleNotification(message.methodName.value, message.params);
      }
    }

    method ResumeCall(c: CallId)
      modifies this
      ensures View() == Resumed(old(View()), c)
    {
      if c !in calls || !calls[c].Answered? { return; }
      var call := calls[c];
      RemovePending(call.id);
      if call.purpose.Other? {
        calls := calls[c := Returned(call.reply)];
        return;
      }
      if call.reply.Failure? {
        calls := calls[c := Done(Fail(call.reply.error))];
        return;
      }
      if call.reply.turn.None? {
        calls := calls[c := Done(Fail(TURN_MISSING))];
        return;
      }
      var turn := call.reply.turn.value;
      if turn.id.None? {
        calls := calls[c := Done(Fail(TURN_ID_MISSING))];
        return;
      }
      var turnId := turn.id.value;
      if turnId in completedTurns {
        calls := calls[c := Done(completedTurns[turnId])];
        completedTurns := completedTurns - {turnId};
        return;
      }
      var result := PromptResultFromTurn(turn);
      if result.Some? {
        calls := calls[c := Done(result.value)];
        return;
      }
      if turnId in turnWaiters {
        calls := calls[turnWaiters[turnId] := Done(Fail(WAITER_DROPPED))];
      }
      turnWaiters := turnWaiters[turnId := c];
      activeTurns := activeTurns[call.purpose.session := turnId];
      calls := calls[c := Waiting(turnId)];
    }

    method FailOutstandingRequests(message: string)
      requires Sound(View())
      modifies this
      ensures View() == RequestsFailed(old(View()), message)
    {
      hide Sound, RequestsFailed;
      ghost var goal := RequestsFailed(View(), message);
      while pendingRequests != map[]
        invariant Sound(View()) && RequestsFailed(View(), message) == goal
        decreases pendingRequests.Keys
      {
        var id :| id in pendingRequests;
        OneRequestFailedSound(View(), id, message);
        FailingOneRequest(View(), id, message);
        calls := calls[pendingRequests[id] := Answer(calls[pendingRequests[id]], Failure(message))];
        pendingRequests := pendingRequests - {id};
      }
      NothingLeftToFail(View(), message);
    }

    method FailOutstandingTurns(message: string)
      requires Sound(View())
      modifies this
      ensures View() == TurnsFailed(old(View()), message)
    {
      hide Sound, TurnsFailed;
      ghost var goal := TurnsFailed(View(), message);
      while turnWaiters != map[]
        invariant Sound(View()) && TurnsFailed(View(), message) == goal
        decreases turnWaiters.Keys
      {
        var turnId :| turnId in turnWaiters;
        OneTurnFailedSound(View(), turnId, message);
        FailingOneTurn(View(), turnId, message);
        calls := calls[turnWaiters[turnId] := Done(Fail(message))];
        turnWaiters := turnWaiters - {turnId};
      }
      NothingLeftToFail(View(), message);
    }

    method SetSessionSettings(session: ThreadId, settings: Settings) returns (r: Result<(), string>)
      modifies this
      ensures View() == SettingsStored(old(View()), session, settings)
      ensures r.Err? <==> session in old(activeTurns)
    {
      if session in activeTurns {
        return Err("cannot change Codex settings while a turn is running");
      }
      sessionSettings := sessionSettings[session := settings];
      return Ok(());
    }

    /** `cancel` interrupts the turn recorded for the session, or does nothing. */
    method Cancel(session: ThreadId, c: CallId) returns (interrupted: Option<TurnId>)
      requires Sound(View()) && c !in calls
      modifies this
      ensures interrupted == Lookup(old(activeTurns), session)
      ensures View() == if interrupted.Some? then Begun(old(View()), c, Other) else old(View())
    {
      if session !in activeTurns { return None; }
      interrupted := Some(activeTurns[session]);
      var _ := BeginRequest(c, Other);
    }
  }
}
