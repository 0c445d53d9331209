/**
 The active turn of a session over whole runs of the Codex client: which turn is recorded,
 when a recorded turn is one already reported finished, and when settings may change.
 */
module CodexActiveTurns {
  import opened Integers
  import opened Wrappers
  import opened CodexAppServer
  import opened CodexRuns
  import opened CodexTurns

  // ----- The recorded turn, from history -----

  datatype Mark = Recorded(session: ThreadId, turnId: TurnId) | Ended(session: ThreadId, turnId: TurnId)

  /** The turn that a resuming prompt records: one that its response calls running, and whose
      result is not kept. */
  function RecordOf(s: State, c: CallId): seq<Mark> {
    if c in s.calls && s.calls[c].Answered? && s.calls[c].purpose.Prompt? then
      var verdict := VerdictOf(s.calls[c].reply);
      if verdict.Running? && verdict.turnId !in s.completed then
        [Recorded(s.calls[c].purpose.session, verdict.turnId)]
      else []
    else []
  }

  function MarksOf(s: State, e: Event): seq<Mark> {
    match e
    case Message(message) =>
      (match NoticeIn(message)
       case Started(start) => [Recorded(start.threadId, start.turnId)]
       case Ended(report) => [Mark.Ended(report.threadId, report.turnId)]
       case Ignored => [])
    case Resume(c) => RecordOf(s, c)
    case _ => []
  }

  function Marks(tr: seq<Event>): seq<Mark> {
    if tr == [] then [] else Marks(tr[..|tr|-1]) + MarksOf(Run(tr[..|tr|-1]), tr[|tr|-1])
  }

  lemma MarksExtended(tr: seq<Event>, e: Event)
    ensures Marks(tr + [e]) == Marks(tr) + MarksOf(Run(tr), e)
  {
    hide Run, MarksOf;
    assert (tr + [e])[..|tr|] == tr;
  }

  function LastRecord(marks: seq<Mark>, h: ThreadId): (k: Option<nat>)
    ensures k.Some? ==> k.value < |marks| && marks[k.value].Recorded? && marks[k.value].session == h
    ensures forall i | 0 <= i < |marks| && marks[i].Recorded? && marks[i].session == h :: k.Some? && i <= k.value
  {
    if marks == [] then None
    else
      var last := marks[|marks|-1];
      assert forall i | 0 <= i < |marks| - 1 :: marks[..|marks|-1][i] == marks[i];
      if last.Recorded? && last.session == h then Some(|marks| - 1) else LastRecord(marks[..|marks|-1], h)
  }

  /** The last turn recorded for a session, if it has not ended under that session since. */
  function CurrentTurn(marks: seq<Mark>, h: ThreadId): Option<TurnId> {
    var k := LastRecord(marks, h);
    if k.None? || Mark.Ended(h, marks[k.value].turnId) in marks[k.value..] then None
    else Some(marks[k.value].turnId)
  }

  function NextTurn(current: Option<TurnId>, marks: seq<Mark>, h: ThreadId): Option<TurnId> {
    if marks == [] || marks[0].session != h then current
    else
      match marks[0]
      case Recorded(_, t) => Some(t)
      case Ended(_, t) => if current == Some(t) then None else current
  }

  lemma CurrentTurnExtended(marks: seq<Mark>, m: Mark, h: ThreadId)
    ensures CurrentTurn(marks + [m], h) == NextTurn(CurrentTurn(marks, h), [m], h)
  {
    var longer := marks + [m];
    assert longer[..|marks|] == marks;
    var k := LastRecord(marks, h);
    if m.Recorded? && m.session == h {
      assert longer[|marks|..] == [m];
    } else if k.Some? {
      assert longer[k.value..] == marks[k.value..] + [m] && longer[k.value] == marks[k.value];
    }
  }

  // ----- What a step does to it -----

  lemma PromptActive(s: State, c: CallId, session: ThreadId, verdict: Verdict)
    ensures PromptResumed(s, c, session, verdict).active
         == if verdict.Running? && verdict.turnId !in s.completed then s.active[session := verdict.turnId] else s.active
  {
  }

  lemma ResumeActive(s: State, c: CallId, h: ThreadId)
    ensures Lookup(Resumed(s, c).active, h) == NextTurn(Lookup(s.active, h), RecordOf(s, c), h)
  {
    hide VerdictOf, PromptResumed;
    if c in s.calls && s.calls[c].Answered? && s.calls[c].purpose.Prompt? {
      var call := s.calls[c];
      PromptActive(s.(pending := s.pending - {call.id}), c, call.purpose.session, VerdictOf(call.reply));
    }
  }

  lemma FinishedActive(s: State, r: Report)
    ensures Finished(s, r).active
         == if Lookup(s.active, r.threadId) == Some(r.turnId) then s.active - {r.threadId} else s.active
  {
    assert forall s' :: Delivered(s', r.turnId, r.result).active == s'.active;
    hide Delivered;
  }

  lemma MessageActive(s: State, message: Incoming, h: ThreadId)
    requires Sound(s)
    ensures Lookup(Received(s, message).active, h) == NextTurn(Lookup(s.active, h), MarksOf(s, Message(message)), h)
  {
    hide NoticeOf, ResponseOf, Sound, Finished;
    if message.id.None? && NoticeIn(message).Ended? { FinishedActive(s, NoticeIn(message).report); }
  }

  /** One step changes the recorded turn of a session exactly as its mark says. */
  lemma StepActive(s: State, e: Event, h: ThreadId)
    requires Sound(s)
    ensures Lookup(Step(s, e).active, h) == NextTurn(Lookup(s.active, h), MarksOf(s, e), h)
  {
    hide Received, Resumed, NoticeIn, RecordOf;
    match e
    case Message(message) => MessageActive(s, message, h);
    case Resume(c) => ResumeActive(s, c, h);
    case _ =>
  }

  lemma AtMostOneMark(s: State, e: Event)
    ensures MarksOf(s, e) == [] || MarksOf(s, e) == [MarksOf(s, e)[0]]
  {
  }

  /** After any run, the active turn of a session is the last one recorded for it, by an
      announcement or by a resuming prompt, unless that turn has ended under the session since. */
  lemma {:induction false} ActiveTurnIsTheLastRecorded(tr: seq<Event>, h: ThreadId)
    ensures Lookup(Run(tr).active, h) == CurrentTurn(Marks(tr), h)
  {
    if tr != [] {
      hide Run, Step, Sound, Marks, MarksOf, CurrentTurn, NextTurn, Lookup;
      var before, e := tr[..|tr|-1], tr[|tr|-1];
      assert tr == before + [e];
      ActiveTurnIsTheLastRecorded(before, h);
      MarksExtended(before, e);
      RunExtended(before, e);
      StepActive(Run(before), e, h);
      AtMostOneMark(Run(before), e);
      if MarksOf(Run(before), e) == [] {
        assert Marks(before) + [] == Marks(before);
        NoMark(Lookup(Run(before).active, h), h);
      } else {
        CurrentTurnExtended(Marks(before), MarksOf(Run(before), e)[0], h);
      }
    }
  }

  lemma NoMark(current: Option<TurnId>, h: ThreadId)
    ensures NextTurn(current, [], h) == current
  {
  }

  // ----- When the recorded turn is one already reported finished -----

  ghost predicate EndedIn(marks: seq<Mark>, t: TurnId) {
    exists g :: Mark.Ended(g, t) in marks
  }

  lemma EndMarks(s: State, e: Event, t: TurnId)
    ensures Ends(e, t) <==> EndedIn(MarksOf(s, e), t)
  {
    hide RecordOf, NoticeOf;
    if Ends(e, t) {
      assert Mark.Ended(NoticeIn(e.message).report.threadId, t) in MarksOf(s, e);
    }
    assert e.Resume? ==> forall m <- RecordOf(s, e.c) :: m.Recorded? by { RecordsOnly(s, e); }
  }

  lemma RecordsOnly(s: State, e: Event)
    ensures e.Resume? ==> forall m <- RecordOf(s, e.c) :: m.Recorded?
  {
  }

  lemma EndedInBoth(a: seq<Mark>, b: seq<Mark>, t: TurnId)
    ensures EndedIn(a + b, t) <==> EndedIn(a, t) || EndedIn(b, t)
  {
    if EndedIn(a, t) { var g :| Mark.Ended(g, t) in a; assert Mark.Ended(g, t) in a + b; }
    if EndedIn(b, t) { var g :| Mark.Ended(g, t) in b; assert Mark.Ended(g, t) in a + b; }
  }

  lemma {:induction false} ReportsAreMarks(tr: seq<Event>, t: TurnId)
    ensures ReportsOn(tr, t) != [] <==> EndedIn(Marks(tr), t)
  {
    if tr != [] {
      hide Run, Marks, MarksOf, ReportsOn, EndedIn, Ends, NoticeIn;
      var before, e := tr[..|tr|-1], tr[|tr|-1];
      assert tr == before + [e];
      ReportsAreMarks(before, t);
      ReportsExtended(before, e, t);
      MarksExtended(before, e);
      EndMarks(Run(before), e, t);
      EndedInBoth(Marks(before), MarksOf(Run(before), e), t);
    }
  }

  /** A recorded turn is one already reported finished exactly when its report came before it was
      recorded, or came since then, but only under another session. */
  lemma StaleExactly(tr: seq<Event>, h: ThreadId, t: TurnId)
    requires Lookup(Run(tr).active, h) == Some(t)
    ensures var marks := Marks(tr);
            var k := LastRecord(marks, h);
            && k.Some? && marks[k.value] == Recorded(h, t)
            && (ReportsOn(tr, t) != [] <==>
                EndedIn(marks[..k.value], t) || exists g :: g != h && Mark.Ended(g, t) in marks[k.value..])
  {
    ActiveTurnIsTheLastRecorded(tr, h);
    ReportsAreMarks(tr, t);
    hide Run, Marks, ReportsOn;
    var marks := Marks(tr);
    var k := LastRecord(marks, h).value;
    assert marks == marks[..k] + marks[k..];
    EndedInBoth(marks[..k], marks[k..], t);
  }

  // ----- Runs in which that never happens -----

  ghost predicate NoneStale(tr: seq<Event>) {
    forall h <- Run(tr).active :: ReportsOn(tr, Run(tr).active[h]) == []
  }

  ghost predicate NeverStale(tr: seq<Event>) {
    forall i | 0 <= i <= |tr| :: NoneStale(tr[..i])
  }

  /** No reported turn is recorded, and a turn is not reported under one session while it is
      recorded for another. */
  ghost predicate ConsiderateEvent(before: seq<Event>, e: Event) {
    forall m <- MarksOf(Run(before), e) ::
      match m
      case Recorded(_, t) => ReportsOn(before, t) == []
      case Ended(h, t) => forall g | g != h :: Lookup(Run(before).active, g) != Some(t)
  }

  ghost predicate Considerate(tr: seq<Event>) {
    tr == [] || (Considerate(tr[..|tr|-1]) && ConsiderateEvent(tr[..|tr|-1], tr[|tr|-1]))
  }

  lemma ReportsAfter(tr: seq<Event>, e: Event, t: TurnId)
    ensures ReportsOn(tr + [e], t) == [] <==> ReportsOn(tr, t) == [] && !Ends(e, t)
  {
    hide Ends, ReportsOn, NoticeIn;
    ReportsExtended(tr, e, t);
  }

  /** The step form: a run without stale turns goes on without one exactly on such an event. */
  lemma ConsiderateStep(tr: seq<Event>, e: Event)
    requires NoneStale(tr)
    ensures NoneStale(tr + [e]) <==> ConsiderateEvent(tr, e)
  {
    hide Run, Step, Sound, ReportsOn, MarksOf, Ends;
    var s, marks := Run(tr), MarksOf(Run(tr), e);
    RunExtended(tr, e);
    AtMostOneMark(s, e);
    forall h ensures Lookup(Run(tr + [e]).active, h) == NextTurn(Lookup(s.active, h), marks, h) {
      StepActive(s, e, h);
    }
    forall t ensures ReportsOn(tr + [e], t) == [] <==> ReportsOn(tr, t) == [] && !EndedIn(marks, t) {
      ReportsAfter(tr, e, t);
      EndMarks(s, e, t);
    }
    if marks == [] {
      forall t ensures !EndedIn(marks, t) {}
      forall h <- Run(tr + [e]).active ensures ReportsOn(tr + [e], Run(tr + [e]).active[h]) == [] {
        assert Lookup(Run(tr + [e]).active, h) == NextTurn(Lookup(s.active, h), marks, h);
      }
    } else if marks[0].Recorded? {
      RecordedStep(tr, e, marks[0]);
    } else {
      EndedStep(tr, e, marks[0]);
    }
  }

  lemma RecordedStep(tr: seq<Event>, e: Event, m: Mark)
    requires NoneStale(tr) && MarksOf(Run(tr), e) == [m] && m.Recorded?
    requires forall h :: Lookup(Run(tr + [e]).active, h) == NextTurn(Lookup(Run(tr).active, h), [m], h)
    requires forall t :: ReportsOn(tr + [e], t) == [] <==> ReportsOn(tr, t) == [] && !EndedIn([m], t)
    ensures NoneStale(tr + [e]) <==> ConsiderateEvent(tr, e)
  {
    hide Run, ReportsOn, MarksOf;
    var s, s' := Run(tr), Run(tr + [e]);
    forall t ensures !EndedIn([m], t) {}
    assert Lookup(s'.active, m.session) == Some(m.turnId);
    forall h | h != m.session ensures Lookup(s'.active, h) == Lookup(s.active, h) {}
    if ConsiderateEvent(tr, e) {
      assert m in MarksOf(s, e) && ReportsOn(tr, m.turnId) == [];
      forall h <- s'.active ensures ReportsOn(tr + [e], s'.active[h]) == [] {
        assert !EndedIn([m], s'.active[h]);
        assert h != m.session ==> Lookup(s'.active, h) == Lookup(s.active, h);
      }
    }
  }

  lemma EndedStep(tr: seq<Event>, e: Event, m: Mark)
    requires NoneStale(tr) && MarksOf(Run(tr), e) == [m] && m.Ended?
    requires forall h :: Lookup(Run(tr + [e]).active, h) == NextTurn(Lookup(Run(tr).active, h), [m], h)
    requires forall t :: ReportsOn(tr + [e], t) == [] <==> ReportsOn(tr, t) == [] && !EndedIn([m], t)
    ensures NoneStale(tr + [e]) <==> ConsiderateEvent(tr, e)
  {
    hide Run, ReportsOn, MarksOf;
    var s, s' := Run(tr), Run(tr + [e]);
    forall t ensures EndedIn([m], t) <==> t == m.turnId {
      if t == m.turnId { assert Mark.Ended(m.session, t) in [m]; }
    }
    forall h <- s'.active ensures Lookup(s.active, h) == Some(s'.active[h]) {
      assert Lookup(s'.active, h) == NextTurn(Lookup(s.active, h), [m], h);
    }
    if NoneStale(tr + [e]) {
      forall g | g != m.session ensures Lookup(s.active, g) != Some(m.turnId) {
        assert Lookup(s'.active, g) == NextTurn(Lookup(s.active, g), [m], g);
      }
    }
    if ConsiderateEvent(tr, e) {
      forall h <- s'.active ensures ReportsOn(tr + [e], s'.active[h]) == [] {
        assert Lookup(s'.active, h) == NextTurn(Lookup(s.active, h), [m], h);
      }
    }
  }

  lemma ConsiderateExtended(tr: seq<Event>, e: Event)
    ensures Considerate(tr + [e]) <==> Considerate(tr) && ConsiderateEvent(tr, e)
    ensures NeverStale(tr + [e]) <==> NeverStale(tr) && NoneStale(tr + [e])
    ensures NeverStale(tr) ==> NoneStale(tr)
  {
    hide ConsiderateEvent, NoneStale;
    var longer := tr + [e];
    assert longer[..|tr|] == tr && tr[..|tr|] == tr && longer[..|longer|] == longer;
    assert forall i | 0 <= i <= |tr| :: longer[..i] == tr[..i];
  }

  lemma NothingIsStale()
    ensures NeverStale([]) && Considerate([])
  {
    var tr: seq<Event> := [];
    assert tr[..0] == tr;
  }

  /** Throughout a run `active_turns` holds no turn already processed as finished, so that
      `cancel` interrupts only unfinished turns and settings are refused only while one runs, if
      and only if no reported turn is ever recorded and none is reported under one session while
      it is recorded for another. */
  lemma {:induction false} ActiveTurnsAreUnfinished(tr: seq<Event>)
    ensures NeverStale(tr) <==> Considerate(tr)
  {
    hide *;
    if tr == [] {
      NothingIsStale();
    } else {
      var before, e := tr[..|tr|-1], tr[|tr|-1];
      assert tr == before + [e];
      ActiveTurnsAreUnfinished(before);
      ConsiderateExtended(before, e);
      if NeverStale(before) { ConsiderateStep(before, e); }
    }
  }

  // ----- Settings -----

  /** While a turn is recorded for a session its settings cannot change; the event that ends that
      turn under the session releases them. */
  lemma EndReleasesTheSession(tr: seq<Event>, session: ThreadId, t: TurnId, e: Event, settings: Settings)
    requires Lookup(Run(tr).active, session) == Some(t)
    ensures SettingsStored(Run(tr), session, settings) == Run(tr)
    ensures MarksOf(Run(tr), e) == [Mark.Ended(session, t)] ==>
              var s := Run(tr + [e]);
              && session !in s.active
              && Lookup(SettingsStored(s, session, settings).settings, session) == Some(settings)
  {
    hide Run, Step, Sound, MarksOf;
    RunExtended(tr, e);
    StepActive(Run(tr), e, session);
  }

  /** The last settings that were stored for a session while no turn was recorded for it. */
  function LastAccepted(tr: seq<Event>, h: ThreadId): Option<Settings> {
    if tr == [] then None
    else
      var before, e := tr[..|tr|-1], tr[|tr|-1];
      if e.ChangeSettings? && e.session == h && CurrentTurn(Marks(before), h) == None then Some(e.settings)
      else LastAccepted(before, h)
  }

  lemma StepSettings(s: State, e: Event, h: ThreadId)
    requires Sound(s)
    ensures Lookup(Step(s, e).settings, h) ==
            if e.ChangeSettings? && e.session == h && Lookup(s.active, h) == None then Some(e.settings)
            else Lookup(s.settings, h)
  {
    hide Sound, Received, Resumed, Disconnected, Begun, Dropped;
    if e.Message? { ReceivedSettings(s, e.message); }
    if e.Resume? { ResumedSettings(s, e.c); }
    OtherStepsKeepSettings(s, e);
  }

  lemma ReceivedSettings(s: State, message: Incoming)
    requires Sound(s)
    ensures Received(s, message).settings == s.settings
  {
    hide Sound, NoticeIn, ResponseOf, Answer, Notified;
    if message.id.None? { NotifiedSettings(s, NoticeIn(message)); }
  }

  lemma NotifiedSettings(s: State, notice: Notice)
    ensures Notified(s, notice).settings == s.settings
  {
  }

  lemma ResumedSettings(s: State, c: CallId)
    ensures Resumed(s, c).settings == s.settings
  {
    hide VerdictOf, PromptResumed;
    if c in s.calls && s.calls[c].Answered? && s.calls[c].purpose.Prompt? {
      var call := s.calls[c];
      PromptSettings(s.(pending := s.pending - {call.id}), c, call.purpose.session, VerdictOf(call.reply));
    }
  }

  lemma PromptSettings(s: State, c: CallId, session: ThreadId, verdict: Verdict)
    ensures PromptResumed(s, c, session, verdict).settings == s.settings
  {
  }

  lemma OtherStepsKeepSettings(s: State, e: Event)
    requires Sound(s)
    ensures e.Begin? || e.Drop? || e.Disconnect? ==> Step(s, e).settings == s.settings
  {
    hide Sound, Received, Resumed, SettingsStored;
  }

  /** After any run the settings of a session are the last ones stored while it had no turn
      recorded. */
  lemma {:induction false} SettingsAreTheLastAccepted(tr: seq<Event>, h: ThreadId)
    ensures Lookup(Run(tr).settings, h) == LastAccepted(tr, h)
  {
    if tr != [] {
      hide Run, Step, Sound, Marks, CurrentTurn, Lookup;
      var before, e := tr[..|tr|-1], tr[|tr|-1];
      assert tr == before + [e];
      SettingsAreTheLastAccepted(before, h);
      ActiveTurnIsTheLastRecorded(before, h);
      RunExtended(before, e);
      StepSettings(Run(before), e, h);
    } else {
      hide Marks, CurrentTurn;
    }
  }

  // ----- What is expected of a server -----

  /** A turn belongs to one thread, under which it is announced and ended, is not announced after
      its end, and is given to at most one prompt, one for its thread. */
  ghost predicate PoliteEvent(before: seq<Event>, e: Event, home: TurnId -> ThreadId) {
    && (e.Message? && NoticeIn(e.message).Started? ==>
          var start := NoticeIn(e.message).start;
          home(start.turnId) == start.threadId && ReportsOn(before, start.turnId) == [])
    && (e.Message? && NoticeIn(e.message).Ended? ==>
          home(NoticeIn(e.message).report.turnId) == NoticeIn(e.message).report.threadId)
    && (forall t | AnswersPrompt(Run(before), e, t) ::
          PromptsAnswered(before, t) == 0 && SessionAnswered(Run(before), e) == home(t))
  }

  function SessionAnswered(s: State, e: Event): ThreadId
    requires exists t :: AnswersPrompt(s, e, t)
  {
    s.calls[s.pending[e.message.id.value]].purpose.session
  }

  ghost predicate Polite(tr: seq<Event>, home: TurnId -> ThreadId) {
    tr == [] || (Polite(tr[..|tr|-1], home) && PoliteEvent(tr[..|tr|-1], tr[|tr|-1], home))
  }

  /** Recorded turns and answered prompts are at home. */
  ghost predicate AtHome(s: State, home: TurnId -> ThreadId) {
    && (forall h <- s.active :: home(s.active[h]) == h)
    && (forall c, t | PromptAnswered(s, c, t) :: s.calls[c].purpose.session == home(t))
  }

  lemma PoliteExtended(tr: seq<Event>, e: Event, home: TurnId -> ThreadId)
    ensures Polite(tr + [e], home) <==> Polite(tr, home) && PoliteEvent(tr, e, home)
  {
    hide PoliteEvent;
    assert (tr + [e])[..|tr|] == tr;
  }

  lemma {:induction false} PoliteAnswersOnce(tr: seq<Event>, home: TurnId -> ThreadId, t: TurnId)
    requires Polite(tr, home)
    ensures PromptsAnswered(tr, t) <= 1
  {
    if tr != [] {
      hide Run, AnswersPrompt;
      var before, e := tr[..|tr|-1], tr[|tr|-1];
      PoliteAnswersOnce(before, home, t);
    }
  }

  lemma AnsweredCall(s: State, e: Event, t: TurnId)
    requires Sound(s) && AnswersPrompt(s, e, t)
    ensures var c := s.pending[e.message.id.value];
            && c in Step(s, e).calls && Step(s, e).calls[c].Answered?
            && Step(s, e).calls[c].purpose == s.calls[c].purpose
  {
  }

  lemma PromptKept(s: State, e: Event, c: CallId, t: TurnId)
    requires Sound(s) && PromptAnswered(s, c, t) && PromptAnswered(Step(s, e), c, t)
    ensures Step(s, e).calls[c].purpose == s.calls[c].purpose
  {
    hide Received, Resumed, VerdictNames;
    match e
    case Message(message) => PromptKeptByMessage(s, message, c, t);
    case Resume(d) => ResumedCalls(s, d);
    case _ =>
  }

  lemma PromptKeptByMessage(s: State, message: Incoming, c: CallId, t: TurnId)
    requires Sound(s) && PromptAnswered(s, c, t) && PromptAnswered(Received(s, message), c, t)
    ensures Received(s, message).calls[c].purpose == s.calls[c].purpose
  {
    hide VerdictNames, NoticeIn, ResponseOf, Finished;
    if message.id.None? && NoticeIn(message).Ended? { FinishedCalls(s, NoticeIn(message).report); }
  }

  lemma PromptsStayAtHome(s: State, e: Event, home: TurnId -> ThreadId)
    requires Sound(s) && forall c, t | PromptAnswered(s, c, t) :: s.calls[c].purpose.session == home(t)
    requires forall t | AnswersPrompt(s, e, t) :: SessionAnswered(s, e) == home(t)
    ensures forall c, t | PromptAnswered(Step(s, e), c, t) :: Step(s, e).calls[c].purpose.session == home(t)
  {
    hide Step, Sound;
    forall c, t | PromptAnswered(Step(s, e), c, t)
      ensures Step(s, e).calls[c].purpose.session == home(t)
    {
      NamingComesFromAnAnswer(s, e, t, c);
      if PromptAnswered(s, c, t) {
        PromptKept(s, e, c, t);
      } else {
        AnsweredCall(s, e, t);
      }
    }
  }

  /** A prompt that records a turn was given it, and the turn has not been reported. */
  lemma RecordsAreUnreported(tr: seq<Event>, c: CallId, home: TurnId -> ThreadId)
    requires Polite(tr, home) && AtHome(Run(tr), home)
    ensures forall m <- RecordOf(Run(tr), c) ::
              m.Recorded? && home(m.turnId) == m.session && ReportsOn(tr, m.turnId) == []
  {
    hide Polite, Run, ReportsOn, PromptsAnswered, VerdictOf;
    if RecordOf(Run(tr), c) != [] {
      var t := VerdictOf(Run(tr).calls[c].reply).turnId;
      assert PromptAnswered(Run(tr), c, t);
      PoliteAnswersOnce(tr, home, t);
      CompletionAwaitsTheResumption(tr, c, t);
    }
  }

  lemma PoliteMarks(tr: seq<Event>, e: Event, home: TurnId -> ThreadId)
    requires Polite(tr, home) && PoliteEvent(tr, e, home) && AtHome(Run(tr), home)
    ensures forall m <- MarksOf(Run(tr), e) ::
              home(m.turnId) == m.session && (m.Recorded? ==> ReportsOn(tr, m.turnId) == [])
  {
    hide Polite, Run, ReportsOn, AtHome, RecordOf, NoticeIn;
    if e.Resume? { RecordsAreUnreported(tr, e.c, home); }
  }

  lemma PoliteStep(tr: seq<Event>, e: Event, home: TurnId -> ThreadId)
    requires Polite(tr, home) && PoliteEvent(tr, e, home) && AtHome(Run(tr), home)
    ensures ConsiderateEvent(tr, e) && AtHome(Run(tr + [e]), home)
  {
    PoliteMarks(tr, e, home);
    hide Polite, Run, Step, Sound, ReportsOn, MarksOf, NoticeIn, PromptAnswered, AnswersPrompt;
    RunExtended(tr, e);
    PromptsStayAtHome(Run(tr), e, home);
    var s, s' := Run(tr), Run(tr + [e]);
    forall m <- MarksOf(s, e) | m.Ended?
      ensures forall g | g != m.session :: Lookup(s.active, g) != Some(m.turnId)
    {
      assert home(m.turnId) == m.session;
    }
    forall h <- s'.active ensures home(s'.active[h]) == h {
      StepActive(s, e, h);
      AtMostOneMark(s, e);
    }
  }

  /** With a polite server `active_turns` never holds a turn already processed as finished. */
  lemma {:induction false} PoliteServersLeaveNoneStale(tr: seq<Event>, home: TurnId -> ThreadId)
    requires Polite(tr, home)
    ensures NeverStale(tr) && AtHome(Run(tr), home)
  {
    hide *;
    if tr == [] {
      NothingIsStale();
      NobodyIsAway(home);
    } else {
      var before, e := tr[..|tr|-1], tr[|tr|-1];
      assert tr == before + [e];
      PoliteExtended(before, e, home);
      PoliteServersLeaveNoneStale(before, home);
      PoliteStep(before, e, home);
      ConsiderateExtended(before, e);
      ConsiderateStep(before, e);
    }
  }

  lemma NobodyIsAway(home: TurnId -> ThreadId)
    ensures AtHome(Run([]), home)
  {
  }

  // ----- Each expectation is needed -----

  function Completed(thread: ThreadId, t: TurnId): Event {
    Message(Incoming(None, Some("turn/completed"), None, "",
                     Params(Some(thread), Some(Turn(Some(t), Some("completed"), None)), None, None, None)))
  }

  function Announced(thread: ThreadId, t: TurnId): Event {
    Message(Incoming(None, Some("turn/started"), None, "",
                     Params(Some(thread), Some(Turn(Some(t), None, None)), None, None, None)))
  }

  /** A session is blocked by a turn that was reported finished. */
  ghost predicate Stale(tr: seq<Event>, h: ThreadId, t: TurnId) {
    Lookup(Run(tr).active, h) == Some(t) && ReportsOn(tr, t) != []
  }

  lemma NoticeMarks(s: State, thread: ThreadId, t: TurnId)
    ensures MarksOf(s, Completed(thread, t)) == [Mark.Ended(thread, t)] && Ends(Completed(thread, t), t)
    ensures MarksOf(s, Announced(thread, t)) == [Recorded(thread, t)] && !Ends(Announced(thread, t), t)
    ensures TouchesOf(s, Completed(thread, t), t) == [Reported(Stop("EndTurn"))]
  {
  }

  lemma ReportedByCompletion(tr: seq<Event>, thread: ThreadId, t: TurnId)
    ensures ReportsOn(tr + [Completed(thread, t)], t) != []
  {
    hide Run, ReportsOn, MarksOf, Ends, Completed, TouchesOf;
    NoticeMarks(Run(tr), thread, t);
    ReportsAfter(tr, Completed(thread, t), t);
  }

  lemma ReportsStay(tr: seq<Event>, e: Event, t: TurnId)
    requires ReportsOn(tr, t) != []
    ensures ReportsOn(tr + [e], t) != []
  {
    hide ReportsOn, Ends;
    ReportsAfter(tr, e, t);
  }

  lemma LateStart(tr: seq<Event>, h: ThreadId, t: TurnId)
    requires ReportsOn(tr, t) != []
    ensures Stale(tr + [Announced(h, t)], h, t)
  {
    hide Run, Step, Sound, ReportsOn, MarksOf, Announced, Ends, TouchesOf;
    var e := Announced(h, t);
    NoticeMarks(Run(tr), h, t);
    RunExtended(tr, e);
    StepActive(Run(tr), e, h);
    ReportsStay(tr, e, t);
  }

  lemma ForeignEnd(tr: seq<Event>, h: ThreadId, other: ThreadId, t: TurnId)
    requires Lookup(Run(tr).active, h) == Some(t) && other != h
    ensures Stale(tr + [Completed(other, t)], h, t)
  {
    hide Run, Step, Sound, ReportsOn, MarksOf, Completed, Ends, TouchesOf;
    var e := Completed(other, t);
    NoticeMarks(Run(tr), other, t);
    RunExtended(tr, e);
    StepActive(Run(tr), e, h);
    ReportedByCompletion(tr, other, t);
  }

  lemma AnnouncedIsActive(tr: seq<Event>, h: ThreadId, t: TurnId)
    ensures Lookup(Run(tr + [Announced(h, t)]).active, h) == Some(t)
  {
    hide Run, Step, Sound, MarksOf, Announced, Ends, TouchesOf;
    NoticeMarks(Run(tr), h, t);
    RunExtended(tr, Announced(h, t));
    StepActive(Run(tr), Announced(h, t), h);
  }

  /** A prompt of one session is answered with a turn and resumes. */
  function OneStarted(c: CallId, h: ThreadId, t: TurnId): seq<Event> {
    [Begin(c, Prompt(h))] + [Message(TurnResponse(1, t))] + [Resume(c)]
  }

  lemma OneStartedIsActive(c: CallId, h: ThreadId, t: TurnId)
    ensures Lookup(Run(OneStarted(c, h, t)).active, h) == Some(t)
  {
    hide Run, Step, Sound, VerdictOf, ResponseOf, TurnResponse;
    var requested, response := [Begin(c, Prompt(h))], Message(TurnResponse(1, t));
    FirstRequest(c, h);
    ResponseIsTaken(Run(requested), 1, t);
    RunExtended(requested, response);
    RunExtended(requested + [response], Resume(c));
    StepActive(Run(requested + [response]), Resume(c), h);
  }

  /** Two prompts of one session are answered with one turn, which is reported before either
      resumes: the first takes the result, the second records the turn. */
  function TakenAndRecorded(c: CallId, d: CallId, h: ThreadId, t: TurnId): seq<Event> {
    BothAnswered(c, h, d, h, t) + [Completed(h, t)] + [Resume(c)] + [Resume(d)]
  }

  lemma ReportKeepsAnswered(s: State, thread: ThreadId, t: TurnId, c: CallId)
    requires Sound(s) && c in s.calls && s.calls[c].Answered?
    ensures var s' := Step(s, Completed(thread, t)); c in s'.calls && s'.calls[c] == s.calls[c]
  {
    var e := Completed(thread, t);
    hide Finished, Sound;
    FinishedCalls(s, Report(thread, t, Stop("EndTurn")));
    assert NoticeIn(e.message) == Notice.Ended(Report(thread, t, Stop("EndTurn")));
    hide NoticeIn;
  }

  lemma SecondRecords(s: State, d: CallId, h: ThreadId, t: TurnId)
    requires Sound(s) && d in s.calls && s.calls[d].Answered? && s.calls[d].purpose == Prompt(h)
    requires VerdictOf(s.calls[d].reply) == Running(t) && !StandingIn(s, t).Kept?
    ensures Lookup(Step(s, Resume(d)).active, h) == Some(t)
  {
    hide Step, Sound, VerdictOf;
    StepActive(s, Resume(d), h);
  }

  lemma FirstTakes(s: State, c: CallId, d: CallId, t: TurnId)
    requires Sound(s) && c != d && PromptAnswered(s, c, t) && PromptAnswered(s, d, t) && StandingIn(s, t).Kept?
    ensures StandingIn(Step(s, Resume(c)), t) == Free
    ensures PromptAnswered(Step(s, Resume(c)), d, t) && Step(s, Resume(c)).calls[d] == s.calls[d]
  {
    StepStanding(s, Resume(c), t);
    ResumeKeepsOthers(s, c, d, t);
    hide Step, Sound, VerdictOf, NoticeIn, PromptAnswered, StandingIn;
    var touches := TouchesOf(s, Resume(c), t);
    assert touches[..0] == [];
  }

  lemma TakenAndRecordedIsStale(c: CallId, d: CallId, h: ThreadId, t: TurnId)
    requires c != d
    ensures Stale(TakenAndRecorded(c, d, h, t), h, t)
  {
    hide Run, Step, Sound, VerdictOf, ResponseOf, TurnResponse, BothAnswered, Completed, PromptAnswered, ReportsOn,
      TouchesOf, MarksOf, Ends, Lookup, After;
    var tr, e := BothAnswered(c, h, d, h, t), Completed(h, t);
    BothAnsweredState(c, h, d, h, t);
    NoticeMarks(Run(tr), h, t);
    StepStanding(Run(tr), e, t);
    AfterAtMostOne(StandingIn(Run(tr), t), [Reported(Stop("EndTurn"))]);
    ReportKeepsAnswered(Run(tr), h, t, c);
    ReportKeepsAnswered(Run(tr), h, t, d);
    RunExtended(tr, e);
    RunningIsAnswered(Run(tr + [e]), c, t);
    RunningIsAnswered(Run(tr + [e]), d, t);
    FirstTakes(Run(tr + [e]), c, d, t);
    RunExtended(tr + [e], Resume(c));
    RunExtended(tr + [e] + [Resume(c)], Resume(d));
    AnsweredIsACall(Run(tr + [e] + [Resume(c)]), d, t);
    SecondRecords(Run(tr + [e] + [Resume(c)]), d, h, t);
    ReportedByCompletion(tr, h, t);
    ReportsStay(tr + [e], Resume(c), t);
    ReportsStay(tr + [e] + [Resume(c)], Resume(d), t);
  }

  /** Each expectation is needed. A session stays blocked by a finished turn when the turn is
      announced after its end, when it ends under another thread than it was announced under, when
      it is given to a prompt of another thread, and when it is given to two prompts. */
  lemma RudeServersBlockSettings(c: CallId, d: CallId, h: ThreadId, other: ThreadId, t: TurnId)
    requires h != other && c != d
    ensures Stale([Completed(h, t)] + [Announced(h, t)], h, t)
    ensures Stale([Announced(h, t)] + [Completed(other, t)], h, t)
    ensures Stale(OneStarted(c, h, t) + [Completed(other, t)], h, t)
    ensures Stale(TakenAndRecorded(c, d, h, t), h, t)
  {
    hide *;
    assert [] + [Completed(h, t)] == [Completed(h, t)] && [] + [Announced(h, t)] == [Announced(h, t)];
    ReportedByCompletion([], h, t);
    LateStart([Completed(h, t)], h, t);
    AnnouncedIsActive([], h, t);
    ForeignEnd([Announced(h, t)], h, other, t);
    OneStartedIsActive(c, h, t);
    ForeignEnd(OneStarted(c, h, t), h, other, t);
    TakenAndRecordedIsStale(c, d, h, t);
  }

  /** Polite runs exist: a turn is announced and ended under its thread. */
  lemma PoliteRunsExist(h: ThreadId, t: TurnId, home: TurnId -> ThreadId)
    requires home(t) == h
    ensures Polite([Announced(h, t)] + [Completed(h, t)], home)
  {
    var announced, completed := Announced(h, t), Completed(h, t);
    assert [] + [announced] == [announced];
    PoliteExtended([], announced, home);
    PoliteExtended([announced], completed, home);
    hide Run, Sound;
  }
}
