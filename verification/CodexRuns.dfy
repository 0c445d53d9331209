/**
 Whole runs of the Codex app-server client: what holds after any interleaving of calls,
 server messages, resumptions and disconnections.
 */
module CodexRuns {
  import opened Integers
  import opened Wrappers
  import opened CodexAppServer

  datatype Event =
    | Begin(c: CallId, purpose: Purpose)
    | Drop(c: CallId)
    | Message(message: Incoming)
    | Resume(c: CallId)
    | Disconnect(text: string)
    | ChangeSettings(session: ThreadId, settings: Settings)

  /** One atomic step. A call id stands for one call, so it begins once. */
  function Step(s: State, e: Event): State
    requires Sound(s)
  {
    match e
    case Begin(c, purpose) => if c in s.calls then s else Begun(s, c, purpose)
    case Drop(c) => Dropped(s, c)
    case Message(message) => Received(s, message)
    case Resume(c) => Resumed(s, c)
    case Disconnect(text) => Disconnected(s, text)
    case ChangeSettings(session, settings) => SettingsStored(s, session, settings)
  }

  // ----- The invariant of every step -----

  lemma BegunKeepsSound(s: State, c: CallId, purpose: Purpose)
    requires Sound(s) && c !in s.calls
    ensures Sound(Begun(s, c, purpose))
  {
  }

  lemma DroppedKeepsSound(s: State, c: CallId)
    requires Sound(s)
    ensures Sound(Dropped(s, c))
  {
  }

  lemma DeactivatedKeepsSound(s: State, threadId: ThreadId, turnId: TurnId)
    requires Sound(s)
    ensures Sound(Deactivated(s, threadId, turnId))
  {
  }

  lemma WokenKeepsSound(s: State, turnId: TurnId, result: TurnResult)
    requires Sound(s) && turnId in s.waiters
    ensures Sound(s.(waiters := s.waiters - {turnId}, calls := s.calls[s.waiters[turnId] := Done(result)]))
  {
    var c := s.waiters[turnId];
    assert s.calls[c] == Waiting(turnId);
    assert forall t <- s.waiters :: s.waiters[t] == c ==> t == turnId;
    assert forall id <- s.pending :: s.pending[id] != c;
  }

  lemma StoredKeepsSound(s: State, turnId: TurnId, result: TurnResult)
    requires Sound(s) && turnId !in s.waiters
    ensures Sound(s.(completed := s.completed[turnId := result]))
  {
  }

  lemma DeliveredKeepsSound(s: State, turnId: TurnId, result: TurnResult)
    requires Sound(s)
    ensures Sound(Delivered(s, turnId, result))
  {
    hide Sound;
    if turnId in s.waiters { WokenKeepsSound(s, turnId, result); } else { StoredKeepsSound(s, turnId, result); }
  }

  lemma FinishedKeepsSound(s: State, r: Report)
    requires Sound(s)
    ensures Sound(Finished(s, r))
  {
    hide Sound, Deactivated, Delivered;
    DeactivatedKeepsSound(s, r.threadId, r.turnId);
    DeliveredKeepsSound(Deactivated(s, r.threadId, r.turnId), r.turnId, r.result);
  }

  lemma NotifiedKeepsSound(s: State, notice: Notice)
    requires Sound(s)
    ensures Sound(Notified(s, notice))
  {
    hide Finished;
    if notice.Ended? { FinishedKeepsSound(s, notice.report); }
  }

  lemma ReceivedKeepsSound(s: State, message: Incoming)
    requires Sound(s)
    ensures Sound(Received(s, message))
  {
    hide Notified, NoticeIn, ResponseOf;
    if message.id.None? { NotifiedKeepsSound(s, NoticeIn(message)); }
  }

  lemma RegisteredKeepsSound(s: State, c: CallId, session: ThreadId, turnId: TurnId)
    requires Sound(s) && c in s.calls && s.calls[c].Answered? && turnId !in s.completed
    ensures Sound(Registered(s, c, session, turnId))
  {
  }

  lemma SettlingKeepsSound(s: State, c: CallId, call: Call, completed: map<TurnId, TurnResult>)
    requires Sound(s) && c in s.calls && s.calls[c].Answered?
    requires call.Settled() && completed.Keys <= s.completed.Keys
    ensures Sound(s.(calls := s.calls[c := call], completed := completed))
  {
  }

  lemma PromptResumedKeepsSound(s: State, c: CallId, session: ThreadId, verdict: Verdict)
    requires Sound(s) && c in s.calls && s.calls[c].Answered?
    ensures Sound(PromptResumed(s, c, session, verdict))
  {
    hide Registered, Sound;
    if verdict.Running? && verdict.turnId !in s.completed {
      RegisteredKeepsSound(s, c, session, verdict.turnId);
    } else {
      var after := PromptResumed(s, c, session, verdict);
      SettlingKeepsSound(s, c, after.calls[c], after.completed);
    }
  }

  lemma UnguardedStaysSound(s: State, c: CallId)
    requires Sound(s) && c in s.calls && s.calls[c].Answered?
    ensures Sound(s.(pending := s.pending - {s.calls[c].id}))
  {
  }

  lemma ResumedKeepsSound(s: State, c: CallId)
    requires Sound(s)
    ensures Sound(Resumed(s, c))
  {
    hide Sound, PromptResumed, VerdictOf;
    if c in s.calls && s.calls[c].Answered? {
      var call := s.calls[c];
      var s' := s.(pending := s.pending - {call.id});
      UnguardedStaysSound(s, c);
      match call.purpose
      case Other => SettlingKeepsSound(s', c, Returned(call.reply), s'.completed);
      case Prompt(session) => PromptResumedKeepsSound(s', c, session, VerdictOf(call.reply));
    }
  }

  lemma RequestsFailedKeepsSound(s: State, text: string)
    requires Sound(s)
    ensures Sound(RequestsFailed(s, text))
  {
  }

  lemma TurnsFailedKeepsSound(s: State, text: string)
    requires Sound(s)
    ensures Sound(TurnsFailed(s, text))
  {
    assert forall c <- s.calls :: s.calls[c].Waiting? ==> s.calls[c].turnId in s.waiters && c in s.waiters.Values;
  }

  lemma DisconnectedKeepsSound(s: State, text: string)
    requires Sound(s)
    ensures Sound(Disconnected(s, text))
  {
    hide RequestsFailed, TurnsFailed;
    RequestsFailedKeepsSound(s, text);
    TurnsFailedKeepsSound(RequestsFailed(s, text), text);
  }

  lemma SettingsStoredKeepsSound(s: State, session: ThreadId, settings: Settings)
    requires Sound(s)
    ensures Sound(SettingsStored(s, session, settings))
  {
  }

  /** In every interleaving: no turn is in both `turn_waiters` and `completed_turns`, and
      the stored senders match the calls that wait on them. */
  lemma StepKeepsSound(s: State, e: Event)
    requires Sound(s)
    ensures Sound(Step(s, e))
  {
    hide Sound, Begun, Dropped, Received, Resumed, Disconnected, SettingsStored;
    match e
    case Begin(c, purpose) => if c !in s.calls { BegunKeepsSound(s, c, purpose); }
    case Drop(c) => DroppedKeepsSound(s, c);
    case Message(message) => ReceivedKeepsSound(s, message);
    case Resume(c) => ResumedKeepsSound(s, c);
    case Disconnect(text) => DisconnectedKeepsSound(s, text);
    case ChangeSettings(session, settings) => SettingsStoredKeepsSound(s, session, settings);
  }

  function Run(tr: seq<Event>): (s: State)
    ensures Sound(s)
  {
    if tr == [] then Initial()
    else
      StepKeepsSound(Run(tr[..|tr|-1]), tr[|tr|-1]);
      Step(Run(tr[..|tr|-1]), tr[|tr|-1])
  }

  lemma RunExtended(tr: seq<Event>, e: Event)
    ensures Run(tr + [e]) == Step(Run(tr), e)
  {
    hide Step, Sound;
    assert (tr + [e])[..|tr|] == tr;
  }

  // ----- What a step makes of the calls -----

  lemma RegisteredCalls(s: State, c: CallId, session: ThreadId, turnId: TurnId)
    requires Sound(s) && c in s.calls && s.calls[c].Answered?
    ensures Registered(s, c, session, turnId).calls.Keys == s.calls.Keys
    ensures forall d <- s.calls :: d != c && s.calls[d] != Waiting(turnId) ==>
                                     Registered(s, c, session, turnId).calls[d] == s.calls[d]
    ensures forall d <- s.calls :: d != c && s.calls[d] == Waiting(turnId) ==>
                                     Registered(s, c, session, turnId).calls[d] == Done(Fail(WAITER_DROPPED))
  {
  }

  /** A resuming call settles or waits; the only other call it may change is the one whose
      waiter it replaces, and that one is settled. */
  lemma ResumedCalls(s: State, c: CallId)
    requires Sound(s)
    ensures Resumed(s, c).calls.Keys == s.calls.Keys
    ensures forall d <- s.calls :: d != c && !s.calls[d].Waiting? ==> Resumed(s, c).calls[d] == s.calls[d]
    ensures forall d <- s.calls :: d != c && s.calls[d].Waiting? ==>
                                     Resumed(s, c).calls[d] == s.calls[d] || Resumed(s, c).calls[d].Done?
    ensures c in s.calls && s.calls[c].Answered? ==> Resumed(s, c).calls[c].Settled() || Resumed(s, c).calls[c].Waiting?
    ensures c in s.calls && !s.calls[c].Answered? ==> Resumed(s, c) == s
  {
    hide PromptResumed, VerdictOf, Sound;
    if c in s.calls && s.calls[c].Answered? && s.calls[c].purpose.Prompt? {
      UnguardedStaysSound(s, c);
      var s' := s.(pending := s.pending - {s.calls[c].id});
      PromptResumedCalls(s', c, s.calls[c].purpose.session, VerdictOf(s.calls[c].reply));
    }
  }

  lemma PromptResumedCalls(s: State, c: CallId, session: ThreadId, verdict: Verdict)
    requires Sound(s) && c in s.calls && s.calls[c].Answered?
    ensures var s' := PromptResumed(s, c, session, verdict);
            && s'.calls.Keys == s.calls.Keys
            && (forall d <- s.calls :: d != c && !s.calls[d].Waiting? ==> s'.calls[d] == s.calls[d])
            && (forall d <- s.calls :: d != c && s.calls[d].Waiting? ==> s'.calls[d] == s.calls[d] || s'.calls[d].Done?)
            && (s'.calls[c].Settled() || s'.calls[c].Waiting?)
  {
    hide Registered, Sound;
    if verdict.Running? && verdict.turnId !in s.completed {
      RegisteredCalls(s, c, session, verdict.turnId);
      RegisteredHere(s, c, session, verdict.turnId);
    }
  }

  lemma RegisteredHere(s: State, c: CallId, session: ThreadId, turnId: TurnId)
    ensures c in Registered(s, c, session, turnId).calls
    ensures Registered(s, c, session, turnId).calls[c] == Waiting(turnId)
    ensures Registered(s, c, session, turnId).pending == s.pending
    ensures Registered(s, c, session, turnId).waiters == s.waiters[turnId := c]
    ensures Registered(s, c, session, turnId).active == s.active[session := turnId]
    ensures Registered(s, c, session, turnId).completed == s.completed
  {
  }

  /** What the reported end of a turn makes of a call. */
  function AfterEnd(call: Call, turnId: TurnId, result: TurnResult): Call {
    if call == Waiting(turnId) then Done(result) else call
  }

  lemma WaiterIsTheOnlyOne(s: State, turnId: TurnId)
    requires Sound(s)
    ensures turnId in s.waiters ==> s.waiters[turnId] in s.calls
    ensures forall c <- s.calls :: s.calls[c] == Waiting(turnId) <==> Lookup(s.waiters, turnId) == Some(c)
  {
  }

  lemma DeliveredCalls(s: State, turnId: TurnId, result: TurnResult)
    requires Sound(s)
    ensures Delivered(s, turnId, result).calls.Keys == s.calls.Keys
    ensures forall c <- s.calls :: Delivered(s, turnId, result).calls[c] == AfterEnd(s.calls[c], turnId, result)
    ensures Delivered(s, turnId, result).pending == s.pending && Delivered(s, turnId, result).nextId == s.nextId
  {
    WaiterIsTheOnlyOne(s, turnId);
    hide Sound;
  }

  lemma FinishedCalls(s: State, r: Report)
    requires Sound(s)
    ensures Finished(s, r).calls.Keys == s.calls.Keys
    ensures forall c <- s.calls :: Finished(s, r).calls[c] == AfterEnd(s.calls[c], r.turnId, r.result)
    ensures Finished(s, r).pending == s.pending && Finished(s, r).nextId == s.nextId
  {
    hide Delivered;
    DeactivatedKeepsSound(s, r.threadId, r.turnId);
    DeliveredCalls(Deactivated(s, r.threadId, r.turnId), r.turnId, r.result);
  }

  /** What a response with this id makes of a call. */
  function AfterResponse(call: Call, id: u64, reply: Reply): Call {
    if call.InFlight? && call.id == id then Answered(id, call.purpose, reply) else call
  }

  /** What a disconnect makes of a call. */
  function AfterDisconnect(call: Call, text: string): Call {
    match call
    case InFlight(id, purpose) => Answered(id, purpose, Failure(text))
    case Waiting(_) => Done(Fail(text))
    case _ => call
  }

  // ----- Requests -----

  predicate HoldsId(call: Call) { call.InFlight? || call.Answered? }

  /** Held ids are distinct, and every call in flight is the one stored under its id. */
  ghost predicate Exact(s: State) {
    && (forall c, d | c in s.calls && d in s.calls ::
          HoldsId(s.calls[c]) && HoldsId(s.calls[d]) && s.calls[c].id == s.calls[d].id ==> c == d)
    && (forall c <- s.calls :: s.calls[c].InFlight? ==> Lookup(s.pending, s.calls[c].id) == Some(c))
  }

  ghost predicate IdIsHeld(s: State, id: u64) {
    exists c <- s.calls :: HoldsId(s.calls[c]) && s.calls[c].id == id
  }

  /** A new call draws an id that an older one still holds. */
  ghost predicate Redraws(s: State, e: Event) {
    e.Begin? && e.c !in s.calls && IdIsHeld(s, s.nextId)
  }

  ghost predicate NeverRedraws(tr: seq<Event>) {
    tr == [] || (NeverRedraws(tr[..|tr|-1]) && !Redraws(Run(tr[..|tr|-1]), tr[|tr|-1]))
  }

  lemma BegunCalls(s: State, c: CallId, purpose: Purpose)
    requires Sound(s) && Exact(s) && c !in s.calls && !IdIsHeld(s, s.nextId)
    ensures s.nextId !in s.pending
    ensures Begun(s, c, purpose) ==
            s.(nextId := ((s.nextId as int + 1) % U64_RANGE) as u64,
               pending := s.pending[s.nextId := c],
               calls := s.calls[c := InFlight(s.nextId, purpose)])
  {
  }

  lemma FreshBeginKeepsExact(s: State, c: CallId, purpose: Purpose)
    requires Sound(s) && Exact(s) && c !in s.calls && !IdIsHeld(s, s.nextId)
    ensures Exact(Begun(s, c, purpose))
  {
    BegunCalls(s, c, purpose);
    hide Sound, Begun;
  }

  /** A new request keeps the ids exact if and only if no call holds the id that it draws. */
  lemma BeginKeepsExact(s: State, c: CallId, purpose: Purpose)
    requires Sound(s) && Exact(s) && c !in s.calls
    ensures Exact(Begun(s, c, purpose)) <==> !IdIsHeld(s, s.nextId)
  {
    if IdIsHeld(s, s.nextId) {
      var d :| d in s.calls && HoldsId(s.calls[d]) && s.calls[d].id == s.nextId;
      var s' := Begun(s, c, purpose);
      assert HoldsId(s'.calls[c]) && HoldsId(s'.calls[d]) && s'.calls[c].id == s'.calls[d].id;
    } else {
      FreshBeginKeepsExact(s, c, purpose);
    }
  }

  /** What a step may do to one call's request: keep it, answer it, or end it. */
  ghost predicate RequestAdvances(before: Call, after: Call) {
    HoldsId(after) ==> HoldsId(before) && after.id == before.id && (after.InFlight? ==> before.InFlight?)
  }

  ghost predicate OnlyAdvances(s: State, s': State) {
    && s'.nextId == s.nextId && s'.calls.Keys == s.calls.Keys
    && (forall c <- s.calls :: RequestAdvances(s.calls[c], s'.calls[c]))
    && (forall c <- s'.calls :: s'.calls[c].InFlight? ==> Lookup(s'.pending, s'.calls[c].id) == Some(c))
  }

  lemma AdvancingKeepsExact(s: State, s': State)
    requires Exact(s) && OnlyAdvances(s, s')
    ensures Exact(s')
  {
  }

  lemma DroppedAdvances(s: State, c: CallId)
    requires Sound(s) && Exact(s)
    ensures OnlyAdvances(s, Dropped(s, c))
  {
    hide Sound;
  }

  lemma FinishedAdvances(s: State, r: Report)
    requires Sound(s) && Exact(s)
    ensures OnlyAdvances(s, Finished(s, r))
  {
    FinishedCalls(s, r);
    hide Finished, Sound;
  }

  lemma NotifiedAdvances(s: State, notice: Notice)
    requires Sound(s) && Exact(s)
    ensures OnlyAdvances(s, Notified(s, notice))
  {
    hide Finished, Sound;
    if notice.Ended? { FinishedAdvances(s, notice.report); }
  }

  lemma Responded(s: State, message: Incoming)
    requires Sound(s) && Exact(s) && message.id.Some? && message.methodName.None?
    ensures Received(s, message).calls.Keys == s.calls.Keys
    ensures forall c <- s.calls ::
              Received(s, message).calls[c] == AfterResponse(s.calls[c], message.id.value, ResponseOf(message))
  {
    hide Notified, NoticeIn, ResponseOf;
    var id, after := message.id.value, Received(s, message);
    forall c <- s.calls
      ensures after.calls[c] == AfterResponse(s.calls[c], id, ResponseOf(message))
    {
      if s.calls[c].InFlight? && s.calls[c].id == id { assert s.pending[id] == c; }
    }
  }

  lemma ReceivedAdvances(s: State, message: Incoming)
    requires Sound(s) && Exact(s)
    ensures OnlyAdvances(s, Received(s, message))
  {
    hide Sound, Notified, NoticeIn, ResponseOf;
    if message.id.None? {
      NotifiedAdvances(s, NoticeIn(message));
    } else if message.methodName.None? {
      Responded(s, message);
    }
  }

  lemma PromptResumedPending(s: State, c: CallId, session: ThreadId, verdict: Verdict)
    ensures PromptResumed(s, c, session, verdict).pending == s.pending
    ensures PromptResumed(s, c, session, verdict).nextId == s.nextId
  {
  }

  lemma ResumedPending(s: State, c: CallId)
    ensures Resumed(s, c).pending
         == if c in s.calls && s.calls[c].Answered? then s.pending - {s.calls[c].id} else s.pending
    ensures Resumed(s, c).nextId == s.nextId
  {
    hide VerdictOf, PromptResumed;
    if c in s.calls && s.calls[c].Answered? && s.calls[c].purpose.Prompt? {
      var call := s.calls[c];
      PromptResumedPending(s.(pending := s.pending - {call.id}), c, call.purpose.session, VerdictOf(call.reply));
    }
  }

  lemma ResumedAdvances(s: State, c: CallId)
    requires Sound(s) && Exact(s)
    ensures OnlyAdvances(s, Resumed(s, c))
  {
    hide Resumed, Sound;
    ResumedPending(s, c);
    ResumedCalls(s, c);
  }

  lemma DisconnectedCalls(s: State, text: string)
    requires Sound(s) && Exact(s)
    ensures Disconnected(s, text).calls.Keys == s.calls.Keys
    ensures forall c <- s.calls :: Disconnected(s, text).calls[c] == AfterDisconnect(s.calls[c], text)
    ensures Disconnected(s, text).nextId == s.nextId
  {
    forall c <- s.calls
      ensures c in s.pending.Values <==> s.calls[c].InFlight?
      ensures c in s.waiters.Values <==> s.calls[c].Waiting?
    {
      if s.calls[c].InFlight? { assert s.calls[c].id in s.pending; }
      if s.calls[c].Waiting? { assert s.calls[c].turnId in s.waiters; }
    }
  }

  lemma DisconnectedAdvances(s: State, text: string)
    requires Sound(s) && Exact(s)
    ensures OnlyAdvances(s, Disconnected(s, text))
  {
    DisconnectedCalls(s, text);
    hide Disconnected, Sound, Exact;
  }

  lemma SettingsStoredAdvances(s: State, session: ThreadId, settings: Settings)
    requires Exact(s)
    ensures OnlyAdvances(s, SettingsStored(s, session, settings))
  {
  }

  lemma StepAdvances(s: State, e: Event)
    requires Sound(s) && Exact(s) && (e.Begin? ==> e.c in s.calls)
    ensures OnlyAdvances(s, Step(s, e))
  {
    hide Sound, Exact, OnlyAdvances, Begun, Dropped, Received, Resumed, Disconnected, SettingsStored;
    match e
    case Begin(_, _) => NothingAdvances(s);
    case Drop(c) => DroppedAdvances(s, c);
    case Message(message) => ReceivedAdvances(s, message);
    case Resume(c) => ResumedAdvances(s, c);
    case Disconnect(text) => DisconnectedAdvances(s, text);
    case ChangeSettings(session, settings) => SettingsStoredAdvances(s, session, settings);
  }

  lemma NothingAdvances(s: State)
    requires Exact(s)
    ensures OnlyAdvances(s, s)
  {
  }

  /** A step keeps the ids exact if and only if it does not redraw a held one. */
  lemma StepKeepsExact(s: State, e: Event)
    requires Sound(s) && Exact(s)
    ensures Exact(Step(s, e)) <==> !Redraws(s, e)
  {
    hide Sound, Exact, OnlyAdvances, Begun, Dropped, Received, Resumed, Disconnected, SettingsStored, IdIsHeld;
    if e.Begin? && e.c !in s.calls {
      BeginKeepsExact(s, e.c, e.purpose);
    } else {
      StepAdvances(s, e);
      AdvancingKeepsExact(s, Step(s, e));
    }
  }

  lemma NeverRedrawsExtended(tr: seq<Event>, e: Event)
    ensures NeverRedraws(tr + [e]) <==> NeverRedraws(tr) && !Redraws(Run(tr), e)
  {
    hide Run, Redraws;
    assert (tr + [e])[..|tr|] == tr;
  }

  lemma InitialIsExact()
    ensures Run([]) == Initial() && Exact(Initial()) && NeverRedraws([])
  {
  }

  lemma RunKeepsExact(tr: seq<Event>)
    requires NeverRedraws(tr)
    ensures Exact(Run(tr))
  {
    hide *;
    if tr == [] {
      InitialIsExact();
    } else {
      var before, e := tr[..|tr|-1], tr[|tr|-1];
      assert tr == before + [e];
      NeverRedrawsExtended(before, e);
      RunExtended(before, e);
      RunKeepsExact(before);
      StepKeepsExact(Run(before), e);
    }
  }

  ghost predicate AlwaysExact(tr: seq<Event>) {
    forall i | 0 <= i <= |tr| :: Exact(Run(tr[..i]))
  }

  lemma AlwaysExactExtended(tr: seq<Event>, e: Event)
    ensures AlwaysExact(tr + [e]) <==> AlwaysExact(tr) && Exact(Run(tr + [e]))
  {
    hide Run, Exact;
    var longer := tr + [e];
    assert forall i | 0 <= i <= |tr| :: longer[..i] == tr[..i];
    assert longer[..|longer|] == longer;
  }

  lemma AlwaysExactAtTheEnd(tr: seq<Event>)
    requires AlwaysExact(tr)
    ensures Exact(Run(tr))
  {
    assert tr[..|tr|] == tr;
    hide Run, Exact;
  }

  lemma NothingIsExact()
    ensures AlwaysExact([]) && NeverRedraws([])
  {
    hide Exact;
    InitialIsExact();
    var tr: seq<Event> := [];
    assert tr[..0] == tr;
  }

  /** The ids stay exact throughout a run if and only if no new call in it ever draws an id
      that an older one still holds. */
  lemma ExactRunsNeverRedraw(tr: seq<Event>)
    ensures AlwaysExact(tr) <==> NeverRedraws(tr)
  {
    hide *;
    if tr == [] {
      NothingIsExact();
    } else {
      var before, e := tr[..|tr|-1], tr[|tr|-1];
      assert tr == before + [e];
      ExactRunsNeverRedraw(before);
      AlwaysExactExtended(before, e);
      NeverRedrawsExtended(before, e);
      RunExtended(before, e);
      if AlwaysExact(before) {
        AlwaysExactAtTheEnd(before);
        StepKeepsExact(Run(before), e);
      }
    }
  }

  /** As long as no held id is drawn again, `pending_requests` holds exactly the calls still
      in flight: neither answered, drained nor ended. */
  lemma PendingIsExact(tr: seq<Event>)
    requires NeverRedraws(tr)
    ensures var s := Run(tr);
            forall id: u64, c: CallId ::
              Lookup(s.pending, id) == Some(c) <==> c in s.calls && s.calls[c].InFlight? && s.calls[c].id == id
  {
    hide Run, NeverRedraws;
    RunKeepsExact(tr);
  }

  /** A response resolves the call that drew its id and no other; a server request that
      reuses the id resolves none. */
  lemma ResponseResolvesItsCall(tr: seq<Event>, message: Incoming)
    requires NeverRedraws(tr) && message.id.Some?
    ensures var s, after := Run(tr), Received(Run(tr), message);
            if message.methodName.Some? then after == s
            else after.calls.Keys == s.calls.Keys
                 && forall c <- s.calls ::
                      after.calls[c] == AfterResponse(s.calls[c], message.id.value, ResponseOf(message))
  {
    hide Run, NeverRedraws, Exact, ResponseOf, AfterResponse;
    RunKeepsExact(tr);
    if message.methodName.None? { Responded(Run(tr), message); }
  }

  function EntriesOfOthers(pending: map<u64, CallId>, c: CallId): map<u64, CallId> {
    map id | id in pending && pending[id] != c :: pending[id]
  }

  lemma GuardTakesOwn(s: State, c: CallId)
    requires Sound(s) && Exact(s)
    ensures c in s.calls && HoldsId(s.calls[c]) ==> s.pending - {s.calls[c].id} == EntriesOfOthers(s.pending, c)
    ensures c !in s.calls || !HoldsId(s.calls[c]) ==> s.pending == EntriesOfOthers(s.pending, c)
  {
    assert c in s.calls && HoldsId(s.calls[c]) ==> forall id <- s.pending :: s.pending[id] == c ==> id == s.calls[c].id;
  }

  lemma DroppedPending(s: State, c: CallId)
    ensures Dropped(s, c).pending
         == if c in s.calls && HoldsId(s.calls[c]) then s.pending - {s.calls[c].id} else s.pending
  {
  }

  /** The drop guard, which runs when a request ends or resumes, removes the entry of its
      own call and no other. */
  lemma GuardTakesOwnEntryOnly(tr: seq<Event>, c: CallId)
    requires NeverRedraws(tr)
    ensures var s := Run(tr);
            && Dropped(s, c).pending == EntriesOfOthers(s.pending, c)
            && EntriesOfOthers(Resumed(s, c).pending, c) == EntriesOfOthers(s.pending, c)
  {
    hide Run, NeverRedraws, Dropped, Resumed, Sound, Exact;
    DroppedPending(Run(tr), c);
    ResumedPending(Run(tr), c);
    RunKeepsExact(tr);
    GuardTakesOwn(Run(tr), c);
  }

  /** A disconnect gives each outstanding request and each waiting prompt one error, and
      touches no other call. */
  lemma DisconnectFailsTheOutstanding(tr: seq<Event>, text: string)
    requires NeverRedraws(tr)
    ensures var after := Disconnected(Run(tr), text);
            && after.pending == map[] && after.waiters == map[] && !after.healthy
            && after.calls.Keys == Run(tr).calls.Keys
            && forall c <- Run(tr).calls :: after.calls[c] == AfterDisconnect(Run(tr).calls[c], text)
  {
    hide Run, NeverRedraws, Exact, AfterDisconnect;
    RunKeepsExact(tr);
    DisconnectedCalls(Run(tr), text);
  }

  // ----- How soon an id comes back -----

  /** How many of the calls have drawn a request id. */
  function Begins(tr: seq<Event>): nat {
    if tr == [] then 0
    else
      var last, before := tr[|tr|-1], tr[..|tr|-1];
      Begins(before) + if last.Begin? && last.c !in Run(before).calls then 1 else 0
  }

  /** The ids are drawn in the order 1, 2, ..., 2^64-1, 0. */
  function DrawIndex(id: u64): int {
    if id == 0 then U64_RANGE - 1 else id as int - 1
  }

  ghost predicate Counted(s: State, drawn: nat) {
    && s.nextId as int == (1 + drawn) % U64_RANGE
    && (forall c <- s.calls :: HoldsId(s.calls[c]) ==> DrawIndex(s.calls[c].id) < drawn)
  }

  lemma CountedIsFresh(s: State, drawn: nat)
    requires Counted(s, drawn) && drawn < U64_RANGE
    ensures DrawIndex(s.nextId) == drawn && !IdIsHeld(s, s.nextId)
  {
  }

  lemma BeginKeepsCounted(s: State, drawn: nat, c: CallId, purpose: Purpose)
    requires Sound(s) && Exact(s) && Counted(s, drawn) && drawn < U64_RANGE && c !in s.calls
    ensures Counted(Begun(s, c, purpose), drawn + 1)
  {
    CountedIsFresh(s, drawn);
    BegunCalls(s, c, purpose);
    hide Sound, Exact, Begun, DrawIndex;
  }

  lemma AdvancingKeepsCounted(s: State, s': State, drawn: nat)
    requires Counted(s, drawn) && OnlyAdvances(s, s')
    ensures Counted(s', drawn)
  {
    hide DrawIndex;
  }

  lemma BeginsExtended(tr: seq<Event>, e: Event)
    ensures Begins(tr + [e]) == Begins(tr) + if e.Begin? && e.c !in Run(tr).calls then 1 else 0
  {
    hide Step, Sound;
    assert (tr + [e])[..|tr|] == tr;
  }

  lemma NothingIsCounted()
    ensures Begins([]) == 0 && Counted(Run([]), 0)
  {
  }

  lemma CountedStep(s: State, drawn: nat, e: Event)
    requires Sound(s) && Exact(s) && Counted(s, drawn)
    requires e.Begin? && e.c !in s.calls ==> drawn < U64_RANGE
    ensures !Redraws(s, e)
    ensures Counted(Step(s, e), drawn + if e.Begin? && e.c !in s.calls then 1 else 0)
  {
    hide Sound, Exact, Counted, OnlyAdvances, IdIsHeld, Begun, Dropped, Received, Resumed, Disconnected, SettingsStored;
    if e.Begin? && e.c !in s.calls {
      CountedIsFresh(s, drawn);
      BeginKeepsCounted(s, drawn, e.c, e.purpose);
    } else {
      StepAdvances(s, e);
      AdvancingKeepsCounted(s, Step(s, e), drawn);
    }
  }

  /** No id comes back within 2^64 requests. */
  lemma FewRequestsNeverRedraw(tr: seq<Event>)
    requires Begins(tr) <= U64_RANGE
    ensures NeverRedraws(tr) && Counted(Run(tr), Begins(tr))
  {
    hide *;
    if tr == [] {
      NothingIsExact();
      NothingIsCounted();
    } else {
      var before, e := tr[..|tr|-1], tr[|tr|-1];
      assert tr == before + [e];
      BeginsExtended(before, e);
      RunExtended(before, e);
      FewRequestsNeverRedraw(before);
      RunKeepsExact(before);
      CountedStep(Run(before), Begins(before), e);
      NeverRedrawsExtended(before, e);
    }
  }

  // ----- A run in which an id comes back -----

  /** Requests that end at once, while the first call stays in flight. */
  function Passing(n: nat): seq<Event> {
    if n == 0 then [Begin(CallId(0), Other)]
    else Passing(n - 1) + [Begin(CallId(n), Other)] + [Drop(CallId(n))]
  }

  ghost predicate Passed(s: State, n: nat) {
    && s.nextId as int == (2 + n) % U64_RANGE
    && s.pending == map[1 := CallId(0)] && CallId(0) in s.calls && s.calls[CallId(0)] == InFlight(1, Other)
    && (forall c <- s.calls :: c.number <= n)
    && (forall c <- s.calls :: c != CallId(0) ==> s.calls[c] == Abandoned)
  }

  lemma PassingBegun(s: State, n: nat)
    requires Sound(s) && Passed(s, n) && n + 1 < U64_RANGE
    ensures var c := CallId(n + 1);
            && c !in s.calls && s.nextId != 1 && !IdIsHeld(s, s.nextId)
            && Begun(s, c, Other) == s.(nextId := ((s.nextId as int + 1) % U64_RANGE) as u64,
                                        pending := s.pending[s.nextId := c],
                                        calls := s.calls[c := InFlight(s.nextId, Other)])
  {
    hide Sound;
  }

  lemma InFlightDropped(s: State, c: CallId)
    requires c in s.calls && s.calls[c].InFlight?
    ensures Dropped(s, c) == s.(pending := s.pending - {s.calls[c].id}, calls := s.calls[c := Abandoned])
  {
  }

  lemma PassingStep(s: State, n: nat)
    requires Sound(s) && Passed(s, n) && n + 1 < U64_RANGE
    ensures var c := CallId(n + 1);
            && c !in s.calls && !IdIsHeld(s, s.nextId)
            && Passed(Dropped(Begun(s, c, Other), c), n + 1)
  {
    PassingBegun(s, n);
    InFlightDropped(Begun(s, CallId(n + 1), Other), CallId(n + 1));
    hide Sound, Begun, Dropped, IdIsHeld;
    assert s.calls[CallId(n + 1) := InFlight(s.nextId, Other)][CallId(n + 1) := Abandoned]
        == s.calls[CallId(n + 1) := Abandoned];
    assert map[1 as u64 := CallId(0)][s.nextId := CallId(n + 1)] - {s.nextId} == map[1 as u64 := CallId(0)];
  }

  lemma AllPassed(s: State)
    requires Passed(s, U64_RANGE - 1)
    ensures s.nextId == 1 && Lookup(s.pending, s.nextId) == Some(CallId(0))
    ensures CallId(U64_RANGE) !in s.calls && IdIsHeld(s, s.nextId)
  {
  }

  lemma FirstCall()
    ensures Passing(0) == [] + [Begin(CallId(0), Other)]
    ensures Passed(Begun(Initial(), CallId(0), Other), 0)
    ensures Step(Initial(), Begin(CallId(0), Other)) == Begun(Initial(), CallId(0), Other)
  {
  }

  lemma PassingIsPassed(n: nat)
    requires n < U64_RANGE
    ensures Passed(Run(Passing(n)), n)
  {
    hide Run, Passed, Sound, Begun, Dropped;
    if n == 0 {
      FirstCall();
      InitialIsExact();
      RunExtended([], Begin(CallId(0), Other));
    } else {
      PassingIsPassed(n - 1);
      var before, c := Passing(n - 1), CallId(n);
      PassingStep(Run(before), n - 1);
      RunExtended(before, Begin(c, Other));
      RunExtended(before + [Begin(c, Other)], Drop(c));
    }
  }

  /** Once an id is drawn again while its first call is in flight, that call is failed and its
      guard then removes the new call. */
  lemma RedrawTakesBothCalls(s: State, c: CallId, d: CallId)
    requires Sound(s) && Lookup(s.pending, s.nextId) == Some(c) && d !in s.calls
    ensures var begun := Begun(s, d, Other);
            && c in begun.calls && begun.calls[c].Answered? && begun.calls[c].reply == Failure(RESPONSE_DROPPED)
            && var dropped := Dropped(begun, c);
               d in dropped.calls && dropped.calls[d].InFlight? && dropped.calls[d].id !in dropped.pending
  {
  }

  /** The bound is sharp: after 2^64 requests, the first still in flight, the next one draws its
      id again; the first call fails, and its guard then removes the entry of the new one. */
  lemma ReusedIdIsTakenByTheOldGuard()
    ensures var tr := Passing(U64_RANGE - 1);
            var begun := tr + [Begin(CallId(U64_RANGE), Other)];
            && NeverRedraws(tr) && !NeverRedraws(begun)
            && var s := Run(begun);
               && CallId(0) in s.calls && s.calls[CallId(0)].Answered?
               && s.calls[CallId(0)].reply == Failure(RESPONSE_DROPPED)
               && var after := Run(begun + [Drop(CallId(0))]);
                  && CallId(U64_RANGE) in after.calls && after.calls[CallId(U64_RANGE)].InFlight?
                  && after.calls[CallId(U64_RANGE)].id !in after.pending
  {
    hide Run, Passing, Begun, Dropped, Passed, Sound, IdIsHeld, NeverRedraws;
    var tr, d := Passing(U64_RANGE - 1), CallId(U64_RANGE);
    PassingIsPassed(U64_RANGE - 1);
    PassingNeverRedraws(U64_RANGE - 1);
    AllPassed(Run(tr));
    RedrawTakesBothCalls(Run(tr), CallId(0), d);
    NeverRedrawsExtended(tr, Begin(d, Other));
    RunExtended(tr, Begin(d, Other));
    RunExtended(tr + [Begin(d, Other)], Drop(CallId(0)));
  }

  lemma PassingNeverRedraws(n: nat)
    requires n < U64_RANGE
    ensures NeverRedraws(Passing(n))
  {
    hide Run, Passed, Sound, Begun, Dropped, NeverRedraws, IdIsHeld;
    if n == 0 {
      FirstCall();
      InitialIsExact();
      NoCallHoldsAnId();
      NeverRedrawsExtended([], Begin(CallId(0), Other));
    } else {
      PassingNeverRedraws(n - 1);
      PassingIsPassed(n - 1);
      var before, c := Passing(n - 1), CallId(n);
      PassingStep(Run(before), n - 1);
      NeverRedrawsExtended(before, Begin(c, Other));
      NeverRedrawsExtended(before + [Begin(c, Other)], Drop(c));
    }
  }

  lemma NoCallHoldsAnId()
    ensures !IdIsHeld(Initial(), Initial().nextId)
  {
  }

  // ----- Every result is final -----

  lemma MessageKeepsSettled(s: State, message: Incoming, c: CallId)
    requires Sound(s) && c in s.calls && s.calls[c].Settled()
    ensures c in Received(s, message).calls && Received(s, message).calls[c] == s.calls[c]
  {
    hide NoticeIn, ResponseOf, Finished;
    if message.id.None? && NoticeIn(message).Ended? { FinishedCalls(s, NoticeIn(message).report); }
  }

  lemma StepKeepsSettled(s: State, e: Event, c: CallId)
    requires Sound(s) && c in s.calls && s.calls[c].Settled()
    ensures c in Step(s, e).calls && Step(s, e).calls[c] == s.calls[c]
  {
    hide Received, Resumed;
    match e
    case Message(message) => MessageKeepsSettled(s, message, c);
    case Resume(d) => ResumedCalls(s, d);
    case _ =>
  }

  /** Nothing is delivered twice: a call that has its result keeps that result. */
  lemma ResultIsFinal(tr: seq<Event>, rest: seq<Event>, c: CallId)
    requires c in Run(tr).calls && Run(tr).calls[c].Settled()
    ensures c in Run(tr + rest).calls && Run(tr + rest).calls[c] == Run(tr).calls[c]
  {
    hide *;
    if rest == [] {
      assert tr + rest == tr;
    } else {
      var before, last := rest[..|rest|-1], rest[|rest|-1];
      ResultIsFinal(tr, before, c);
      RunExtended(tr + before, last);
      assert tr + rest == tr + before + [last];
      StepKeepsSettled(Run(tr + before), last, c);
    }
  }
}
