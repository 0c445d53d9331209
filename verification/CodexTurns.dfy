/**
 The rendezvous of prompts with the ends of their turns, over whole runs of the Codex
 client: a completion may be processed before or after the prompt stores its waiter.

 For one turn, the four maps act as a mailbox with room for one thing: a result that no
 prompt has taken yet, or a prompt that waits. A run touches the mailbox when the turn is
 reported finished, when the server is lost, and when a prompt that was answered with the
 turn resumes and claims it. What becomes of a prompt follows from these touches alone.
 */
module CodexTurns {
  import opened Integers
  import opened Wrappers
  import opened CodexAppServer
  import opened CodexRuns

  // ----- What a run does to one turn -----

  predicate Ends(e: Event, t: TurnId) {
    e.Message? && NoticeIn(e.message).Ended? && NoticeIn(e.message).report.turnId == t
  }

  predicate VerdictNames(reply: Reply, t: TurnId) {
    !VerdictOf(reply).Failed? && VerdictOf(reply).turnId == t
  }

  /** A prompt whose response has arrived and names turn `t`, and that has not resumed. */
  predicate PromptAnswered(s: State, c: CallId, t: TurnId) {
    && c in s.calls && s.calls[c].Answered? && s.calls[c].purpose.Prompt?
    && VerdictNames(s.calls[c].reply, t)
  }

  datatype Touch = Reported(result: TurnResult) | Lost(error: string) | Claimed(c: CallId, running: bool)

  /** How an event touches a turn: not at all, or once. */
  function TouchesOf(s: State, e: Event, t: TurnId): seq<Touch> {
    if Ends(e, t) then [Reported(NoticeIn(e.message).report.result)]
    else if e.Disconnect? then [Lost(e.text)]
    else if e.Resume? && PromptAnswered(s, e.c, t) then [Claimed(e.c, VerdictOf(s.calls[e.c].reply).Running?)]
    else []
  }

  /** The touches of a turn during `rest`, which continues the run `tr`. */
  function Story(tr: seq<Event>, rest: seq<Event>, t: TurnId): seq<Touch> {
    if rest == [] then []
    else
      var before := rest[..|rest|-1];
      Story(tr, before, t) + TouchesOf(Run(tr + before), rest[|rest|-1], t)
  }

  lemma StoryExtended(tr: seq<Event>, rest: seq<Event>, e: Event, t: TurnId)
    ensures Story(tr, rest + [e], t) == Story(tr, rest, t) + TouchesOf(Run(tr + rest), e, t)
  {
    hide Run, TouchesOf;
    assert (rest + [e])[..|rest|] == rest;
  }

  lemma {:induction false} StoryConcat(tr: seq<Event>, a: seq<Event>, b: seq<Event>, t: TurnId)
    ensures Story(tr, a + b, t) == Story(tr, a, t) + Story(tr + a, b, t)
  {
    hide Run, TouchesOf;
    if b == [] {
      assert a + b == a;
    } else {
      var before, e := b[..|b|-1], b[|b|-1];
      assert a + b == a + before + [e] && tr + a + before == tr + (a + before);
      StoryConcat(tr, a, before, t);
      StoryExtended(tr, a + before, e, t);
      StoryExtended(tr + a, before, e, t);
      hide Story;
      assert before + [e] == b;
    }
  }

  // ----- The mailbox of a turn -----

  datatype Standing = Free | Kept(result: TurnResult) | Awaited(c: CallId)

  /** A claim takes a kept result; without one, a prompt whose turn is running waits. */
  function Next(standing: Standing, touch: Touch): Standing {
    match touch
    case Reported(result) => if standing.Awaited? then Free else Kept(result)
    case Lost(_) => if standing.Awaited? then Free else standing
    case Claimed(c, running) => if standing.Kept? then Free else if running then Awaited(c) else standing
  }

  function After(standing: Standing, story: seq<Touch>): Standing {
    if story == [] then standing else Next(After(standing, story[..|story|-1]), story[|story|-1])
  }

  function StandingIn(s: State, t: TurnId): Standing {
    if t in s.completed then Kept(s.completed[t])
    else if t in s.waiters then Awaited(s.waiters[t])
    else Free
  }

  lemma DeliveredStanding(s: State, turnId: TurnId, result: TurnResult, t: TurnId)
    requires Sound(s)
    ensures StandingIn(Delivered(s, turnId, result), t)
         == if t == turnId then Next(StandingIn(s, t), Reported(result)) else StandingIn(s, t)
  {
  }

  lemma ReportedStanding(s: State, r: Report, t: TurnId)
    requires Sound(s)
    ensures StandingIn(Finished(s, r), t)
         == if t == r.turnId then Next(StandingIn(s, t), Reported(r.result)) else StandingIn(s, t)
  {
    DeactivatedKeepsSound(s, r.threadId, r.turnId);
    var s' := Deactivated(s, r.threadId, r.turnId);
    assert s'.waiters == s.waiters && s'.completed == s.completed;
    hide Deactivated, Delivered, Sound;
    DeliveredStanding(s', r.turnId, r.result, t);
  }

  lemma MessageStanding(s: State, message: Incoming, t: TurnId)
    requires Sound(s)
    ensures StandingIn(Received(s, message), t) == After(StandingIn(s, t), TouchesOf(s, Message(message), t))
  {
    hide NoticeOf, ResponseOf, Finished, VerdictNames, Sound;
    if message.id.None? && NoticeIn(message).Ended? { ReportedStanding(s, NoticeIn(message).report, t); }
    AfterAtMostOne(StandingIn(s, t), TouchesOf(s, Message(message), t));
  }

  lemma AfterAtMostOne(standing: Standing, story: seq<Touch>)
    ensures story == [] ==> After(standing, story) == standing
    ensures |story| == 1 ==> After(standing, story) == Next(standing, story[0])
  {
    if |story| == 1 { assert story[..0] == []; }
  }

  lemma PromptStanding(s: State, c: CallId, session: ThreadId, verdict: Verdict, t: TurnId)
    requires s.waiters.Keys !! s.completed.Keys
    ensures StandingIn(PromptResumed(s, c, session, verdict), t)
         == if !verdict.Failed? && verdict.turnId == t then Next(StandingIn(s, t), Claimed(c, verdict.Running?))
            else StandingIn(s, t)
  {
  }

  lemma SoundIsDisjoint(s: State)
    requires Sound(s)
    ensures s.waiters.Keys !! s.completed.Keys
  {
  }

  lemma ResumeStanding(s: State, c: CallId, t: TurnId)
    requires Sound(s)
    ensures StandingIn(Resumed(s, c), t) == After(StandingIn(s, t), TouchesOf(s, Resume(c), t))
  {
    hide Sound, VerdictOf, PromptResumed, NoticeIn;
    AfterAtMostOne(StandingIn(s, t), TouchesOf(s, Resume(c), t));
    if c in s.calls && s.calls[c].Answered? && s.calls[c].purpose.Prompt? {
      var call := s.calls[c];
      SoundIsDisjoint(s);
      PromptStanding(s.(pending := s.pending - {call.id}), c, call.purpose.session, VerdictOf(call.reply), t);
    }
  }

  /** Every step moves the mailbox of a turn exactly as its touch says. */
  lemma StepStanding(s: State, e: Event, t: TurnId)
    requires Sound(s)
    ensures StandingIn(Step(s, e), t) == After(StandingIn(s, t), TouchesOf(s, e, t))
  {
    hide Received, Resumed, NoticeIn, PromptAnswered, After;
    AfterAtMostOne(StandingIn(s, t), TouchesOf(s, e, t));
    match e
    case Message(message) => MessageStanding(s, message, t);
    case Resume(c) => ResumeStanding(s, c, t);
    case _ =>
  }

  lemma AfterConcat(standing: Standing, story: seq<Touch>, more: seq<Touch>)
    ensures After(standing, story + more) == After(After(standing, story), more)
  {
    hide Next;
    if more == [] {
      assert story + more == story;
    } else {
      assert (story + more)[..|story + more|-1] == story + more[..|more|-1];
      AfterConcat(standing, story, more[..|more|-1]);
    }
  }

  /** In every run the four maps hold, for each turn, what the mailbox holds after its story: at
      most one of a kept result and a waiting prompt. */
  lemma {:induction false} MapsAreMailboxes(tr: seq<Event>, rest: seq<Event>, t: TurnId)
    ensures StandingIn(Run(tr + rest), t) == After(StandingIn(Run(tr), t), Story(tr, rest, t))
  {
    if rest == [] {
      hide Run, StandingIn;
      assert tr + rest == tr;
    } else {
      hide *;
      var before, e := rest[..|rest|-1], rest[|rest|-1];
      assert rest == before + [e] && tr + rest == tr + before + [e];
      MapsAreMailboxes(tr, before, t);
      StoryExtended(tr, before, e, t);
      RunExtended(tr + before, e);
      StepStanding(Run(tr + before), e, t);
      AfterConcat(StandingIn(Run(tr), t), Story(tr, before, t), TouchesOf(Run(tr + before), e, t));
    }
  }

  lemma MailboxesStartFree(t: TurnId)
    ensures StandingIn(Run([]), t) == Free
  {
  }

  lemma StandingFromTheStart(tr: seq<Event>, t: TurnId)
    ensures StandingIn(Run(tr), t) == After(Free, Story([], tr, t))
  {
    hide *;
    assert [] + tr == tr;
    MailboxesStartFree(t);
    MapsAreMailboxes([], tr, t);
  }

  // ----- Which touch a standing comes from -----

  predicate OnlyLosses(story: seq<Touch>) {
    forall i | 0 <= i < |story| :: story[i].Lost?
  }

  predicate OnlyIdleClaims(story: seq<Touch>) {
    forall i | 0 <= i < |story| :: story[i].Claimed? && !story[i].running
  }

  /** The report whose result is kept at the end. */
  function KeptReport(story: seq<Touch>): Option<nat> {
    if story == [] then None
    else
      var before, last := story[..|story|-1], story[|story|-1];
      match last
      case Reported(_) => if After(Free, before).Awaited? then None else Some(|story| - 1)
      case Lost(_) => KeptReport(before)
      case Claimed(_, _) => None
  }

  lemma OnlyExtended(story: seq<Touch>, last: Touch)
    ensures OnlyLosses(story + [last]) <==> OnlyLosses(story) && last.Lost?
    ensures OnlyIdleClaims(story + [last]) <==> OnlyIdleClaims(story) && last.Claimed? && !last.running
  {
    var longer := story + [last];
    assert longer[|story|] == last;
    assert forall i | 0 <= i < |story| :: longer[i] == story[i];
  }

  /** A kept result is that of one report: one that found nobody waiting and was followed by
      nothing but lost servers. */
  lemma {:induction false} KeptIsTheLastReport(story: seq<Touch>)
    ensures var k := KeptReport(story);
            && (k.Some? ==> k.value < |story| && story[k.value].Reported?)
            && (After(Free, story).Kept? <==> k.Some?)
            && (k.Some? ==> After(Free, story) == Kept(story[k.value].result))
    ensures forall i | 0 <= i < |story| && story[i].Reported? ::
              KeptReport(story) == Some(i) <==> !After(Free, story[..i]).Awaited? && OnlyLosses(story[i+1..])
  {
    if story != [] {
      var before, last := story[..|story|-1], story[|story|-1];
      KeptIsTheLastReport(before);
      hide After, OnlyLosses;
      assert OnlyLosses([]) by { NothingIsOnly(); }
      forall i | 0 <= i < |story| && story[i].Reported?
        ensures KeptReport(story) == Some(i) <==> !After(Free, story[..i]).Awaited? && OnlyLosses(story[i+1..])
      {
        if i < |before| {
          assert story[..i] == before[..i] && story[i+1..] == before[i+1..] + [last];
          OnlyExtended(before[i+1..], last);
        } else {
          assert story[..i] == before && story[i+1..] == [];
        }
      }
      assert After(Free, story) == Next(After(Free, before), last) by { AfterLast(story); }
    }
  }

  lemma NothingIsOnly()
    ensures OnlyLosses([]) && OnlyIdleClaims([])
  {
  }

  lemma AfterLast(story: seq<Touch>)
    requires story != []
    ensures After(Free, story) == Next(After(Free, story[..|story|-1]), story[|story|-1])
  {
  }

  ghost predicate IsWaitingClaim(story: seq<Touch>, i: nat, c: CallId) {
    i < |story| && story[i] == Claimed(c, true) && !After(Free, story[..i]).Kept? && OnlyIdleClaims(story[i+1..])
  }

  lemma WaitingClaimBefore(story: seq<Touch>, i: nat, c: CallId)
    requires i + 1 < |story|
    ensures var before, last := story[..|story|-1], story[|story|-1];
            IsWaitingClaim(story, i, c) <==> IsWaitingClaim(before, i, c) && last.Claimed? && !last.running
  {
    var before, last := story[..|story|-1], story[|story|-1];
    hide After, OnlyIdleClaims;
    assert story[..i] == before[..i] && story[i+1..] == before[i+1..] + [last];
    OnlyExtended(before[i+1..], last);
  }

  /** A prompt waits exactly when it claimed its running turn while nothing was kept, and no
      report, loss or other waiting claim has come since. */
  lemma {:induction false} AwaitedIsTheLastClaim(story: seq<Touch>, c: CallId)
    ensures After(Free, story) == Awaited(c) <==> exists i: nat :: IsWaitingClaim(story, i, c)
  {
    if story != [] {
      var before, last := story[..|story|-1], story[|story|-1];
      AwaitedIsTheLastClaim(before, c);
      AfterLast(story);
      NothingIsOnly();
      hide After, OnlyIdleClaims;
      assert story[..|before|] == before && story[|before|+1..] == [];
      if After(Free, story) == Awaited(c) {
        if last == Claimed(c, true) && !After(Free, before).Kept? {
          assert IsWaitingClaim(story, |before|, c);
        } else {
          var i: nat :| IsWaitingClaim(before, i, c);
          WaitingClaimBefore(story, i, c);
        }
      }
      if i: nat :| IsWaitingClaim(story, i, c) {
        if i < |before| { WaitingClaimBefore(story, i, c); }
      }
    }
  }

  // ----- A prompt that waits -----

  /** What a touch gives to the prompt that waits: the report, the loss, or an error because
      another prompt has taken its place. */
  function Signal(touch: Touch): Option<TurnResult> {
    match touch
    case Reported(result) => Some(result)
    case Lost(error) => Some(Fail(error))
    case Claimed(_, running) => if running then Some(Fail(WAITER_DROPPED)) else None
  }

  function FirstSignal(story: seq<Touch>): (k: Option<nat>)
    ensures k.Some? ==> k.value < |story| && Signal(story[k.value]).Some? && OnlyIdleClaims(story[..k.value])
    ensures k.None? ==> OnlyIdleClaims(story)
  {
    if story == [] then None
    else
      var before := story[..|story|-1];
      var earlier := FirstSignal(before);
      assert earlier.Some? ==> before[..earlier.value] == story[..earlier.value];
      assert forall i | 0 <= i < |before| :: before[i] == story[i];
      if earlier.Some? then earlier
      else if Signal(story[|story|-1]).Some? then Some(|story| - 1)
      else None
  }

  lemma FirstSignalExtended(story: seq<Touch>, last: Touch)
    ensures FirstSignal(story + [last]) ==
            if FirstSignal(story).Some? then FirstSignal(story)
            else if Signal(last).Some? then Some(|story|) else None
  {
    assert (story + [last])[..|story|] == story;
  }

  /** How the future of a waiting prompt stands after these touches. */
  function WaiterAfter(story: seq<Touch>, t: TurnId): Call {
    var k := FirstSignal(story);
    if k.Some? then Done(Signal(story[k.value]).value) else Waiting(t)
  }

  function SignalOf(touches: seq<Touch>): Option<TurnResult> {
    if touches == [] then None else Signal(touches[0])
  }

  lemma WaitingMessage(s: State, message: Incoming, c: CallId, t: TurnId)
    requires Sound(s) && c in s.calls && s.calls[c] == Waiting(t)
    ensures var signal := SignalOf(TouchesOf(s, Message(message), t));
            && c in Received(s, message).calls
            && Received(s, message).calls[c] == if signal.Some? then Done(signal.value) else Waiting(t)
  {
    hide NoticeOf, ResponseOf, Finished, VerdictNames;
    if message.id.None? && NoticeIn(message).Ended? { FinishedCalls(s, NoticeIn(message).report); }
  }

  lemma WaitingPrompt(s: State, d: CallId, session: ThreadId, verdict: Verdict, c: CallId, t: TurnId)
    requires Sound(s) && d in s.calls && s.calls[d].Answered? && c in s.calls && s.calls[c] == Waiting(t)
    ensures var s' := PromptResumed(s, d, session, verdict);
            && c in s'.calls
            && s'.calls[c] == if verdict == Running(t) then Done(Fail(WAITER_DROPPED)) else Waiting(t)
  {
    hide Registered;
    if verdict.Running? && verdict.turnId !in s.completed { RegisteredCalls(s, d, session, verdict.turnId); }
  }

  lemma ResumeSignal(s: State, d: CallId, t: TurnId)
    ensures SignalOf(TouchesOf(s, Resume(d), t)) ==
            if d in s.calls && s.calls[d].Answered? && s.calls[d].purpose.Prompt?
               && VerdictOf(s.calls[d].reply) == Running(t)
            then Some(Fail(WAITER_DROPPED)) else None
  {
    hide VerdictOf, NoticeIn;
  }

  lemma WaitingResume(s: State, d: CallId, c: CallId, t: TurnId)
    requires Sound(s) && c in s.calls && s.calls[c] == Waiting(t)
    ensures var signal := SignalOf(TouchesOf(s, Resume(d), t));
            && c in Resumed(s, d).calls
            && Resumed(s, d).calls[c] == if signal.Some? then Done(signal.value) else Waiting(t)
  {
    hide VerdictOf, PromptResumed, SignalOf, TouchesOf, Sound;
    ResumeSignal(s, d, t);
    if d in s.calls && s.calls[d].Answered? && s.calls[d].purpose.Prompt? {
      UnguardedStaysSound(s, d);
      WaitingPrompt(s.(pending := s.pending - {s.calls[d].id}), d, s.calls[d].purpose.session,
                    VerdictOf(s.calls[d].reply), c, t);
    }
  }

  lemma WaitingDisconnect(s: State, text: string, c: CallId, t: TurnId)
    requires Sound(s) && c in s.calls && s.calls[c] == Waiting(t)
    ensures c in Disconnected(s, text).calls && Disconnected(s, text).calls[c] == Done(Fail(text))
  {
    assert t in s.waiters && s.waiters[t] == c && c in s.waiters.Values;
    assert c !in s.pending.Values;
  }

  /** One step settles a waiting prompt exactly on a report, a disconnection, or the resumption
      of another prompt whose response says that the same turn is running. */
  lemma WaitingStep(s: State, e: Event, c: CallId, t: TurnId)
    requires Sound(s) && c in s.calls && s.calls[c] == Waiting(t)
    ensures c in Step(s, e).calls
    ensures var signal := SignalOf(TouchesOf(s, e, t));
            Step(s, e).calls[c] == if signal.Some? then Done(signal.value) else Waiting(t)
  {
    hide Resumed, Disconnected, Received, NoticeIn, PromptAnswered;
    match e
    case Message(message) => WaitingMessage(s, message, c, t);
    case Resume(d) => WaitingResume(s, d, c, t);
    case Disconnect(text) => WaitingDisconnect(s, text, c, t);
    case _ =>
  }

  lemma WaiterStep(s: State, e: Event, c: CallId, t: TurnId, story: seq<Touch>)
    requires Sound(s) && Lookup(s.calls, c) == Some(WaiterAfter(story, t))
    ensures Lookup(Step(s, e).calls, c) == Some(WaiterAfter(story + TouchesOf(s, e, t), t))
  {
    var touches := TouchesOf(s, e, t);
    hide Step, Sound, TouchesOf, FirstSignal, Signal;
    assert touches == [] || touches == [touches[0]] by { AtMostOneTouch(s, e, t); }
    if touches == [] {
      assert story + touches == story;
    } else {
      FirstSignalExtended(story, touches[0]);
    }
    if FirstSignal(story).Some? {
      StepKeepsSettled(s, e, c);
      assert touches != [] ==> (story + touches)[FirstSignal(story).value] == story[FirstSignal(story).value];
    } else {
      WaitingStep(s, e, c, t);
    }
  }

  lemma AtMostOneTouch(s: State, e: Event, t: TurnId)
    ensures TouchesOf(s, e, t) == [] || TouchesOf(s, e, t) == [TouchesOf(s, e, t)[0]]
  {
  }

  /** Over every continuation of a run, a waiting prompt gets the first of: a report, a
      disconnection, the claim of another prompt. */
  lemma {:induction false} WaitersGetTheFirstSignal(tr: seq<Event>, rest: seq<Event>, c: CallId, t: TurnId)
    requires Lookup(Run(tr).calls, c) == Some(Waiting(t))
    ensures Lookup(Run(tr + rest).calls, c) == Some(WaiterAfter(Story(tr, rest, t), t))
  {
    hide *;
    if rest == [] {
      assert tr + rest == tr;
      NoSignalYet(tr, t);
    } else {
      var before, e := rest[..|rest|-1], rest[|rest|-1];
      assert rest == before + [e] && tr + rest == tr + before + [e];
      WaitersGetTheFirstSignal(tr, before, c, t);
      StoryExtended(tr, before, e, t);
      RunExtended(tr + before, e);
      WaiterStep(Run(tr + before), e, c, t, Story(tr, before, t));
    }
  }

  lemma NoSignalYet(tr: seq<Event>, t: TurnId)
    ensures WaiterAfter(Story(tr, [], t), t) == Waiting(t)
  {
  }

  // ----- The rendezvous -----

  lemma ResumedPrompt(s: State, c: CallId, t: TurnId)
    requires Sound(s) && PromptAnswered(s, c, t)
    ensures var verdict, standing := VerdictOf(s.calls[c].reply), StandingIn(s, t);
            Lookup(Step(s, Resume(c)).calls, c) ==
            Some(if standing.Kept? then Done(standing.result)
                 else if verdict.Over? then Done(verdict.result)
                 else Waiting(t))
  {
    hide Sound, VerdictOf, Registered;
    var verdict := VerdictOf(s.calls[c].reply);
    if verdict.Running? {
      RegisteredHere(s.(pending := s.pending - {s.calls[c].id}), c, s.calls[c].purpose.session, t);
    }
  }

  /** How a prompt ends up: with the result kept for its turn when it resumes, else with what its
      response says, else with the first signal after. */
  function Outcome(kept: Standing, verdict: Verdict, after: seq<Touch>, t: TurnId): Call {
    if kept.Kept? then Done(kept.result)
    else if verdict.Over? then Done(verdict.result)
    else WaiterAfter(after, t)
  }

  /** The rendezvous, for every run: how a prompt ends up follows from the touches of its turn
      before and after it resumes. */
  lemma Rendezvous(before: seq<Event>, c: CallId, after: seq<Event>, t: TurnId)
    requires PromptAnswered(Run(before), c, t)
    ensures var story, later := Story([], before, t), Story(before + [Resume(c)], after, t);
            Lookup(Run(before + [Resume(c)] + after).calls, c) ==
            Some(Outcome(After(Free, story), VerdictOf(Run(before).calls[c].reply), later, t))
  {
    hide Run, Step, Sound, VerdictOf, StandingIn, After, WaiterAfter, TouchesOf, PromptAnswered;
    assert c in Run(before).calls by { AnsweredIsACall(Run(before), c, t); }
    StandingFromTheStart(before, t);
    ResumedPrompt(Run(before), c, t);
    RunExtended(before, Resume(c));
    if Run(before + [Resume(c)]).calls[c].Done? {
      ResultIsFinal(before + [Resume(c)], after, c);
    } else {
      WaitersGetTheFirstSignal(before + [Resume(c)], after, c, t);
    }
  }

  lemma AnsweredIsACall(s: State, c: CallId, t: TurnId)
    requires PromptAnswered(s, c, t)
    ensures c in s.calls && s.calls[c].Answered?
  {
  }

  // ----- Which report reaches which prompt -----

  /** Where the result of a prompt comes from: a touch before or after its resumption, its own
      response, or nowhere yet. */
  datatype Source = Before(i: nat) | OwnResponse | Later(j: nat) | StillWaiting

  function SourceOf(story: seq<Touch>, verdict: Verdict, later: seq<Touch>): Source {
    if KeptReport(story).Some? then Before(KeptReport(story).value)
    else if verdict.Over? then OwnResponse
    else if FirstSignal(later).Some? then Later(FirstSignal(later).value)
    else StillWaiting
  }

  /** The future of the prompt, given where its result comes from. */
  function ServedBy(source: Source, story: seq<Touch>, verdict: Verdict, later: seq<Touch>, t: TurnId): Call {
    match source
    case Before(i) => if i < |story| && story[i].Reported? then Done(story[i].result) else Waiting(t)
    case OwnResponse => if verdict.Over? then Done(verdict.result) else Waiting(t)
    case Later(j) => if j < |later| && Signal(later[j]).Some? then Done(Signal(later[j]).value) else Waiting(t)
    case StillWaiting => Waiting(t)
  }

  lemma OutcomeComesFromItsSource(story: seq<Touch>, verdict: Verdict, later: seq<Touch>, t: TurnId)
    ensures Outcome(After(Free, story), verdict, later, t) ==
            ServedBy(SourceOf(story, verdict, later), story, verdict, later, t)
  {
    hide After, OnlyLosses, OnlyIdleClaims, KeptReport, FirstSignal, Signal;
    KeptIsTheLastReport(story);
  }

  lemma FirstSignalIs(later: seq<Touch>, j: nat)
    requires j < |later| && Signal(later[j]).Some?
    ensures FirstSignal(later) == Some(j) <==> OnlyIdleClaims(later[..j])
  {
    var k := FirstSignal(later);
    if k.Some? && k.value < j { assert later[..j][k.value] == later[k.value]; }
  }

  /** When a report is the source of a prompt's result. */
  ghost predicate ReachesExactly(story: seq<Touch>, verdict: Verdict, later: seq<Touch>) {
    var source := SourceOf(story, verdict, later);
    && (forall i: nat | i < |story| && story[i].Reported? ::
          source == Before(i) <==> !After(Free, story[..i]).Awaited? && OnlyLosses(story[i+1..]))
    && (forall j: nat | j < |later| && later[j].Reported? ::
          source == Later(j) <==> !After(Free, story).Kept? && verdict.Running? && OnlyIdleClaims(later[..j]))
  }

  lemma SourcesAreExact(story: seq<Touch>, verdict: Verdict, later: seq<Touch>)
    requires !verdict.Failed?
    ensures ReachesExactly(story, verdict, later)
  {
    hide After, OnlyLosses, OnlyIdleClaims, KeptReport, FirstSignal;
    KeptIsTheLastReport(story);
    forall j: nat | j < |later| && later[j].Reported?
      ensures FirstSignal(later) == Some(j) <==> OnlyIdleClaims(later[..j])
    {
      FirstSignalIs(later, j);
    }
  }

  lemma AnsweredIsNoFailure(s: State, c: CallId, t: TurnId)
    requires PromptAnswered(s, c, t)
    ensures !VerdictOf(s.calls[c].reply).Failed?
  {
  }

  /** No completion is lost or misdelivered, exactly. A report processed before a prompt of its
      turn resumes reaches that prompt if and only if nobody was waiting for it then and, up to
      the resumption, neither another report nor another claim of the turn comes. A report
      processed after a prompt has resumed reaches it if and only if nothing was kept, its
      response said that the turn is running, and in between come no report, no disconnection
      and no other claim of the running turn. */
  lemma ReportsReachTheirPrompts(before: seq<Event>, c: CallId, after: seq<Event>, t: TurnId)
    requires PromptAnswered(Run(before), c, t)
    ensures var story, later := Story([], before, t), Story(before + [Resume(c)], after, t);
            var verdict := VerdictOf(Run(before).calls[c].reply);
            && ReachesExactly(story, verdict, later)
            && Lookup(Run(before + [Resume(c)] + after).calls, c) ==
               Some(ServedBy(SourceOf(story, verdict, later), story, verdict, later, t))
  {
    hide *;
    var story, later := Story([], before, t), Story(before + [Resume(c)], after, t);
    AnsweredIsACall(Run(before), c, t);
    AnsweredIsNoFailure(Run(before), c, t);
    var verdict := VerdictOf(Run(before).calls[c].reply);
    Rendezvous(before, c, after, t);
    OutcomeComesFromItsSource(story, verdict, later, t);
    SourcesAreExact(story, verdict, later);
  }

  // ----- A server that gives each turn to one prompt -----

  /** A response that names the turn arrives for a prompt in flight. */
  predicate AnswersPrompt(s: State, e: Event, t: TurnId) {
    && e.Message? && e.message.id.Some? && e.message.methodName.None? && VerdictNames(ResponseOf(e.message), t)
    && e.message.id.value in s.pending
    && var c := s.pending[e.message.id.value];
       c in s.calls && HoldsId(s.calls[c]) && s.calls[c].purpose.Prompt?
  }

  /** How many prompts have been answered with the turn; responses that nobody waits for are
      ignored and do not count. */
  function PromptsAnswered(tr: seq<Event>, t: TurnId): nat {
    if tr == [] then 0
    else PromptsAnswered(tr[..|tr|-1], t) + if AnswersPrompt(Run(tr[..|tr|-1]), tr[|tr|-1], t) then 1 else 0
  }

  function ClaimsIn(story: seq<Touch>): nat {
    if story == [] then 0 else ClaimsIn(story[..|story|-1]) + if story[|story|-1].Claimed? then 1 else 0
  }

  function AnsweredWith(s: State, t: TurnId): set<CallId> {
    set c | c in s.calls && PromptAnswered(s, c, t)
  }

  lemma FailureNamesNothing(error: string, t: TurnId)
    ensures !VerdictNames(Failure(error), t)
  {
  }

  lemma NamingAfterMessage(s: State, message: Incoming, t: TurnId, c: CallId)
    requires Sound(s) && PromptAnswered(Received(s, message), c, t)
    ensures || (PromptAnswered(s, c, t) && !AnswersPrompt(s, Message(message), t))
            || (PromptAnswered(s, c, t) && AnswersPrompt(s, Message(message), t))
            || (AnswersPrompt(s, Message(message), t) && s.pending[message.id.value] == c)
  {
    hide VerdictNames, NoticeIn, ResponseOf, Finished;
    if message.id.None? && NoticeIn(message).Ended? { FinishedCalls(s, NoticeIn(message).report); }
  }

  /** A prompt comes to be answered with a turn only when a response that names it arrives. */
  lemma NamingComesFromAnAnswer(s: State, e: Event, t: TurnId, c: CallId)
    requires Sound(s) && PromptAnswered(Step(s, e), c, t)
    ensures || (PromptAnswered(s, c, t) && e != Resume(c))
            || (AnswersPrompt(s, e, t) && s.pending[e.message.id.value] == c)
  {
    hide Received, Resumed, VerdictNames, ResponseOf;
    match e
    case Begin(_, _) => FailureNamesNothing(RESPONSE_DROPPED, t);
    case Drop(_) =>
    case Message(message) => NamingAfterMessage(s, message, t, c);
    case Resume(d) => ResumedCalls(s, d);
    case Disconnect(text) => FailureNamesNothing(text, t);
    case ChangeSettings(_, _) =>
  }

  lemma SmallerSets(a: set<CallId>, b: set<CallId>)
    requires a <= b
    ensures |a| <= |b|
  {
    if a != {} {
      var c :| c in a;
      SmallerSets(a - {c}, b - {c});
    }
  }

  function ClaimedBy(s: State, e: Event, t: TurnId): set<CallId> {
    if e.Resume? && PromptAnswered(s, e.c, t) then {e.c} else {}
  }

  function AnsweredBy(s: State, e: Event, t: TurnId): set<CallId> {
    if AnswersPrompt(s, e, t) then {s.pending[e.message.id.value]} else {}
  }

  /** Each answer makes at most one prompt that can claim the turn, and each claim uses one up. */
  lemma AnsweredWithStep(s: State, e: Event, t: TurnId)
    requires Sound(s)
    ensures |AnsweredWith(Step(s, e), t)| + ClaimsIn(TouchesOf(s, e, t)) <=
            |AnsweredWith(s, t)| + if AnswersPrompt(s, e, t) then 1 else 0
  {
    hide Step, Sound, PromptAnswered, AnswersPrompt;
    var left := AnsweredWith(s, t) - ClaimedBy(s, e, t);
    forall c <- AnsweredWith(Step(s, e), t) ensures c in left + AnsweredBy(s, e, t) {
      NamingComesFromAnAnswer(s, e, t, c);
      ClaimedIsAnswered(s, e, t);
    }
    SmallerSets(AnsweredWith(Step(s, e), t), left + AnsweredBy(s, e, t));
    ClaimsOfTouches(s, e, t);
    ClaimedIsAnswered(s, e, t);
  }

  lemma ClaimedIsAnswered(s: State, e: Event, t: TurnId)
    ensures ClaimedBy(s, e, t) <= AnsweredWith(s, t)
    ensures forall c <- AnsweredWith(s, t) :: c in s.calls && PromptAnswered(s, c, t)
    ensures forall c | PromptAnswered(s, c, t) :: c in AnsweredWith(s, t)
  {
  }

  lemma ClaimsOfTouches(s: State, e: Event, t: TurnId)
    ensures ClaimsIn(TouchesOf(s, e, t)) == |ClaimedBy(s, e, t)|
  {
    hide PromptAnswered, NoticeIn;
    var touches := TouchesOf(s, e, t);
    if touches != [] { assert touches[..0] == []; }
  }

  lemma ClaimsConcat(story: seq<Touch>, more: seq<Touch>)
    ensures ClaimsIn(story + more) == ClaimsIn(story) + ClaimsIn(more)
  {
    if more == [] {
      assert story + more == story;
    } else {
      assert (story + more)[..|story + more|-1] == story + more[..|more|-1];
      ClaimsConcat(story, more[..|more|-1]);
    }
  }

  lemma PromptsAnsweredExtended(tr: seq<Event>, e: Event, t: TurnId)
    ensures PromptsAnswered(tr + [e], t) == PromptsAnswered(tr, t) + if AnswersPrompt(Run(tr), e, t) then 1 else 0
  {
    hide Run, AnswersPrompt;
    assert (tr + [e])[..|tr|] == tr;
  }

  lemma NobodyAnsweredYet(t: TurnId)
    ensures AnsweredWith(Run([]), t) == {} && Story([], [], t) == [] && PromptsAnswered([], t) == 0
  {
  }

  /** Prompts that may still claim a turn and claims already made are covered by the answers. */
  lemma {:induction false} ClaimsNeedAnswers(tr: seq<Event>, t: TurnId)
    ensures |AnsweredWith(Run(tr), t)| + ClaimsIn(Story([], tr, t)) <= PromptsAnswered(tr, t)
  {
    hide *;
    if tr == [] {
      NobodyAnsweredYet(t);
      NoClaimsYet();
    } else {
      var before, e := tr[..|tr|-1], tr[|tr|-1];
      assert tr == before + [e] && [] + before == before;
      ClaimsNeedAnswers(before, t);
      StoryExtended([], before, e, t);
      PromptsAnsweredExtended(before, e, t);
      RunExtended(before, e);
      AnsweredWithStep(Run(before), e, t);
      ClaimsConcat(Story([], before, t), TouchesOf(Run(before), e, t));
    }
  }

  lemma NoClaimsYet()
    ensures ClaimsIn([]) == 0
  {
  }

  // ----- What then becomes simpler -----

  /** The results reported for a turn, in the order they were processed. */
  function ReportsOn(tr: seq<Event>, t: TurnId): seq<TurnResult> {
    if tr == [] then []
    else ReportsOn(tr[..|tr|-1], t) + if Ends(tr[|tr|-1], t) then [NoticeIn(tr[|tr|-1].message).report.result] else []
  }

  function LastOf(reports: seq<TurnResult>): Option<TurnResult> {
    if reports == [] then None else Some(reports[|reports|-1])
  }

  function ResultsIn(story: seq<Touch>): seq<TurnResult> {
    if story == [] then []
    else
      var last := story[|story|-1];
      ResultsIn(story[..|story|-1]) + if last.Reported? then [last.result] else []
  }

  lemma ReportsExtended(tr: seq<Event>, e: Event, t: TurnId)
    ensures ReportsOn(tr + [e], t)
         == ReportsOn(tr, t) + if Ends(e, t) then [NoticeIn(e.message).report.result] else []
  {
    hide Ends, NoticeIn;
    assert (tr + [e])[..|tr|] == tr;
  }

  lemma ResultsExtended(story: seq<Touch>, s: State, e: Event, t: TurnId)
    ensures ResultsIn(story + TouchesOf(s, e, t))
         == ResultsIn(story) + if Ends(e, t) then [NoticeIn(e.message).report.result] else []
  {
    hide NoticeIn, PromptAnswered, VerdictOf;
    var touches := TouchesOf(s, e, t);
    if touches == [] {
      assert story + touches == story;
    } else {
      assert (story + touches)[..|story|] == story;
    }
  }

  lemma {:induction false} StoriesHoldTheReports(tr: seq<Event>, rest: seq<Event>, t: TurnId)
    ensures ResultsIn(Story(tr, rest, t)) == ReportsOn(rest, t)
  {
    if rest == [] {
    } else {
      hide *;
      var before, e := rest[..|rest|-1], rest[|rest|-1];
      assert rest == before + [e];
      StoriesHoldTheReports(tr, before, t);
      StoryExtended(tr, before, e, t);
      ReportsExtended(before, e, t);
      ResultsExtended(Story(tr, before, t), Run(tr + before), e, t);
    }
  }

  /** Without claims, the last report is kept. */
  lemma {:induction false} UnclaimedStanding(story: seq<Touch>)
    requires ClaimsIn(story) == 0
    ensures After(Free, story) == if ResultsIn(story) == [] then Free else Kept(ResultsIn(story)[|ResultsIn(story)|-1])
  {
    if story != [] {
      UnclaimedStanding(story[..|story|-1]);
    }
  }

  lemma OneAnswerNoOtherClaim(tr: seq<Event>, c: CallId, t: TurnId)
    requires PromptsAnswered(tr, t) <= 1 && PromptAnswered(Run(tr), c, t)
    ensures ClaimsIn(Story([], tr, t)) == 0
  {
    hide Run, Story, PromptsAnswered, PromptAnswered;
    ClaimsNeedAnswers(tr, t);
    ClaimedIsAnswered(Run(tr), Resume(c), t);
    assert c in AnsweredWith(Run(tr), t);
    SmallerSets({c}, AnsweredWith(Run(tr), t));
  }

  /** While the only prompt that was answered with a turn has not resumed, the last reported end
      of the turn, if any, waits for it in `completed_turns`. */
  lemma CompletionAwaitsTheResumption(tr: seq<Event>, c: CallId, t: TurnId)
    requires PromptsAnswered(tr, t) <= 1 && PromptAnswered(Run(tr), c, t)
    ensures t !in Run(tr).waiters
    ensures Lookup(Run(tr).completed, t) == LastOf(ReportsOn(tr, t))
  {
    hide Run, Story, PromptsAnswered, PromptAnswered, After, ResultsIn, ReportsOn, Sound;
    OneAnswerNoOtherClaim(tr, c, t);
    UnclaimedStanding(Story([], tr, t));
    StoriesHoldTheReports([], tr, t);
    StandingFromTheStart(tr, t);
    StandingMaps(Run(tr), t);
  }

  lemma StandingMaps(s: State, t: TurnId)
    requires Sound(s)
    ensures t in s.waiters <==> StandingIn(s, t).Awaited?
    ensures Lookup(s.completed, t) == if StandingIn(s, t).Kept? then Some(StandingIn(s, t).result) else None
  {
  }

  lemma PromptsAnsweredOnlyGrow(tr: seq<Event>, rest: seq<Event>, t: TurnId)
    ensures PromptsAnswered(tr, t) <= PromptsAnswered(tr + rest, t)
  {
    hide *;
    if rest == [] {
      assert tr + rest == tr;
    } else {
      var before, e := rest[..|rest|-1], rest[|rest|-1];
      assert tr + rest == tr + before + [e];
      PromptsAnsweredOnlyGrow(tr, before, t);
      PromptsAnsweredExtended(tr + before, e, t);
    }
  }

  /** With one answered prompt, nobody else claims the turn after it has resumed either. */
  lemma NoClaimAfterwards(before: seq<Event>, c: CallId, after: seq<Event>, t: TurnId)
    requires PromptsAnswered(before + [Resume(c)] + after, t) <= 1 && PromptAnswered(Run(before), c, t)
    ensures ClaimsIn(Story(before + [Resume(c)], after, t)) == 0
  {
    hide *;
    var middle := before + [Resume(c)];
    ClaimsNeedAnswers(middle + after, t);
    StoryConcat([], middle, after, t);
    assert [] + middle == middle && [] + before == before;
    StoryExtended([], before, Resume(c), t);
    ClaimsConcat(Story([], middle, t), Story(middle, after, t));
    ClaimsConcat(Story([], before, t), TouchesOf(Run(before), Resume(c), t));
    ClaimIsOne(Run(before), c, t);
  }

  lemma ClaimIsOne(s: State, c: CallId, t: TurnId)
    requires PromptAnswered(s, c, t)
    ensures ClaimsIn(TouchesOf(s, Resume(c), t)) == 1
  {
    hide PromptAnswered;
    ClaimsOfTouches(s, Resume(c), t);
  }

  lemma {:induction false} FirstOfTheReports(later: seq<Touch>)
    requires ClaimsIn(later) == 0 && forall touch <- later :: !touch.Lost?
    ensures FirstSignal(later).Some? <==> ResultsIn(later) != []
    ensures FirstSignal(later).Some? ==> Signal(later[FirstSignal(later).value]) == Some(ResultsIn(later)[0])
  {
    if later != [] {
      var before, last := later[..|later|-1], later[|later|-1];
      assert later == before + [last];
      FirstOfTheReports(before);
      FirstSignalExtended(before, last);
    }
  }

  lemma {:induction false} NoLossesWithoutDisconnects(tr: seq<Event>, rest: seq<Event>, t: TurnId)
    requires forall e <- rest :: !e.Disconnect?
    ensures forall touch <- Story(tr, rest, t) :: !touch.Lost?
  {
    hide Run, NoticeIn, PromptAnswered;
    if rest != [] { NoLossesWithoutDisconnects(tr, rest[..|rest|-1], t); }
  }

  lemma OneReportIsTheOutcome(story: seq<Touch>, later: seq<Touch>, t: TurnId, result: TurnResult)
    requires ClaimsIn(story) == 0 && ClaimsIn(later) == 0 && forall touch <- later :: !touch.Lost?
    requires ResultsIn(story) + ResultsIn(later) == [result]
    ensures Outcome(After(Free, story), Running(t), later, t) == Done(result)
  {
    UnclaimedStanding(story);
    FirstOfTheReports(later);
    hide After, ResultsIn, FirstSignal, Signal, ClaimsIn;
    assert |ResultsIn(story)| + |ResultsIn(later)| == 1;
    if ResultsIn(story) != [] {
      assert (ResultsIn(story) + ResultsIn(later))[0] == ResultsIn(story)[0];
    } else {
      assert (ResultsIn(story) + ResultsIn(later))[0] == ResultsIn(later)[0];
    }
  }

  /** A running turn that was given to one prompt and is reported finished once, on a connection
      that lasts, gives that prompt its result, whichever comes first. */
  lemma TheReportReachesThePrompt(before: seq<Event>, c: CallId, after: seq<Event>, t: TurnId, result: TurnResult)
    requires PromptsAnswered(before + [Resume(c)] + after, t) <= 1 && PromptAnswered(Run(before), c, t)
    requires VerdictOf(Run(before).calls[c].reply) == Running(t)
    requires ReportsOn(before, t) + ReportsOn(after, t) == [result]
    requires forall e <- after :: !e.Disconnect?
    ensures Lookup(Run(before + [Resume(c)] + after).calls, c) == Some(Done(result))
  {
    hide *;
    var middle := before + [Resume(c)];
    assert before + ([Resume(c)] + after) == middle + after;
    PromptsAnsweredOnlyGrow(before, [Resume(c)] + after, t);
    OneAnswerNoOtherClaim(before, c, t);
    NoClaimAfterwards(before, c, after, t);
    StoriesHoldTheReports([], before, t);
    StoriesHoldTheReports(middle, after, t);
    NoLossesWithoutDisconnects(middle, after, t);
    Rendezvous(before, c, after, t);
    OneReportIsTheOutcome(Story([], before, t), Story(middle, after, t), t, result);
  }

  // ----- Two prompts for one turn -----

  /** The response that starts a turn. */
  function TurnResponse(id: u64, t: TurnId): Incoming {
    Incoming(Some(id), None, Some(Some(Turn(Some(t), Some("inProgress"), None))), "",
             Params(None, None, None, None, None))
  }

  /** Two prompts are sent, and both are answered with the same running turn. */
  function BothAnswered(c: CallId, h: ThreadId, d: CallId, g: ThreadId, t: TurnId): seq<Event> {
    [Begin(c, Prompt(h)), Begin(d, Prompt(g)), Message(TurnResponse(1, t)), Message(TurnResponse(2, t))]
  }

  lemma ResponseIsTaken(s: State, id: u64, t: TurnId)
    requires Sound(s) && id in s.pending
    ensures VerdictOf(ResponseOf(TurnResponse(id, t))) == Running(t)
    ensures var c := s.pending[id];
            Step(s, Message(TurnResponse(id, t))) ==
            s.(pending := s.pending - {id}, calls := s.calls[c := Answer(s.calls[c], ResponseOf(TurnResponse(id, t)))])
  {
  }

  lemma FirstRequest(c: CallId, h: ThreadId)
    ensures Run([Begin(c, Prompt(h))]) ==
            Initial().(nextId := 2, pending := map[1 := c], calls := map[c := InFlight(1, Prompt(h))])
  {
    InitialIsExact();
    assert [] + [Begin(c, Prompt(h))] == [Begin(c, Prompt(h))];
    RunExtended([], Begin(c, Prompt(h)));
    hide Run, Sound;
  }

  lemma TwoRequests(c: CallId, h: ThreadId, d: CallId, g: ThreadId)
    requires c != d
    ensures var s := Run([Begin(c, Prompt(h)), Begin(d, Prompt(g))]);
            && s.pending == map[1 := c, 2 := d] && s.waiters == map[] && s.completed == map[] && s.active == map[]
            && s.calls == map[c := InFlight(1, Prompt(h)), d := InFlight(2, Prompt(g))]
  {
    FirstRequest(c, h);
    hide Run, Sound;
    var first, second := Begin(c, Prompt(h)), Begin(d, Prompt(g));
    assert [first] + [second] == [first, second];
    RunExtended([first], second);
  }

  lemma BothAnsweredState(c: CallId, h: ThreadId, d: CallId, g: ThreadId, t: TurnId)
    requires c != d
    ensures var s := Run(BothAnswered(c, h, d, g, t));
            && c in s.calls && s.calls[c] == Answered(1, Prompt(h), ResponseOf(TurnResponse(1, t)))
            && d in s.calls && s.calls[d] == Answered(2, Prompt(g), ResponseOf(TurnResponse(2, t)))
            && VerdictOf(s.calls[c].reply) == Running(t) && VerdictOf(s.calls[d].reply) == Running(t)
            && s.waiters == map[] && s.completed == map[] && s.active == map[]
  {
    hide Step, Run, Sound, VerdictOf, ResponseOf, TurnResponse;
    TwoRequests(c, h, d, g);
    var requests := [Begin(c, Prompt(h)), Begin(d, Prompt(g))];
    var one, two := Message(TurnResponse(1, t)), Message(TurnResponse(2, t));
    ResponseIsTaken(Run(requests), 1, t);
    RunExtended(requests, one);
    ResponseIsTaken(Run(requests + [one]), 2, t);
    RunExtended(requests + [one], two);
    assert requests + [one] + [two] == BothAnswered(c, h, d, g, t);
  }

  lemma RunningIsAnswered(s: State, c: CallId, t: TurnId)
    requires c in s.calls && s.calls[c].Answered? && s.calls[c].purpose.Prompt?
    requires VerdictOf(s.calls[c].reply) == Running(t)
    ensures PromptAnswered(s, c, t)
  {
  }

  /** A run in which a completion misses its prompt: two prompts are answered with the same turn
      and resume; the second takes the place of the first, which fails. */
  lemma SecondPromptDropsTheFirst(c: CallId, h: ThreadId, d: CallId, g: ThreadId, t: TurnId)
    requires c != d
    ensures var s := Run(BothAnswered(c, h, d, g, t) + [Resume(c)] + [Resume(d)]);
            && Lookup(s.calls, c) == Some(Done(Fail(WAITER_DROPPED)))
            && Lookup(s.calls, d) == Some(Waiting(t)) && Lookup(s.waiters, t) == Some(d)
  {
    hide Run, Step, Sound, VerdictOf, ResponseOf, TurnResponse, BothAnswered, PromptAnswered, TouchesOf, SignalOf;
    var tr := BothAnswered(c, h, d, g, t);
    BothAnsweredState(c, h, d, g, t);
    RunningIsAnswered(Run(tr), c, t);
    RunningIsAnswered(Run(tr), d, t);
    RunExtended(tr, Resume(c));
    FirstPromptWaits(Run(tr), c, d, t);
    var s := Run(tr + [Resume(c)]);
    RunExtended(tr + [Resume(c)], Resume(d));
    WaitingStep(s, Resume(d), c, t);
    ClaimTouch(s, d, t);
    SecondPromptWaits(s, c, d, t);
  }

  lemma FirstPromptWaits(s: State, c: CallId, d: CallId, t: TurnId)
    requires Sound(s) && c != d && PromptAnswered(s, c, t) && PromptAnswered(s, d, t) && s.completed == map[]
    requires VerdictOf(s.calls[c].reply) == Running(t) && VerdictOf(s.calls[d].reply) == Running(t)
    ensures var s' := Step(s, Resume(c));
            && c in s'.calls && s'.calls[c] == Waiting(t)
            && PromptAnswered(s', d, t) && VerdictOf(s'.calls[d].reply) == Running(t)
  {
    ResumedPrompt(s, c, t);
    ResumeKeepsOthers(s, c, d, t);
    hide Step, Sound, VerdictOf, PromptAnswered;
  }

  lemma SecondPromptWaits(s: State, c: CallId, d: CallId, t: TurnId)
    requires Sound(s) && c in s.calls && s.calls[c] == Waiting(t)
    requires PromptAnswered(s, d, t) && VerdictOf(s.calls[d].reply) == Running(t)
    ensures Lookup(Step(s, Resume(d)).calls, d) == Some(Waiting(t))
    ensures Lookup(Step(s, Resume(d)).waiters, t) == Some(d)
    ensures SignalOf([Claimed(d, true)]) == Some(Fail(WAITER_DROPPED))
  {
    ResumedPrompt(s, d, t);
    WaiterIsTheOnlyOne(s, t);
    StandingMaps(s, t);
    WaiterIsTheOnlyOne(Step(s, Resume(d)), t);
    hide Step, VerdictOf, PromptAnswered;
  }

  lemma ClaimTouch(s: State, d: CallId, t: TurnId)
    requires PromptAnswered(s, d, t) && VerdictOf(s.calls[d].reply) == Running(t)
    ensures TouchesOf(s, Resume(d), t) == [Claimed(d, true)]
  {
  }

  lemma ResumeKeepsOthers(s: State, c: CallId, d: CallId, t: TurnId)
    requires Sound(s) && c != d && PromptAnswered(s, d, t)
    ensures PromptAnswered(Step(s, Resume(c)), d, t)
    ensures Step(s, Resume(c)).calls[d] == s.calls[d]
  {
    hide Resumed, Sound, VerdictNames;
    ResumedCalls(s, c);
  }

  // ----- Either order -----

  /** The state once an answered prompt has resumed and its turn has ended, in either order. */
  function Met(s: State, c: CallId, result: TurnResult, active: map<ThreadId, TurnId>): State
    requires c in s.calls && s.calls[c].Answered?
  {
    s.(pending := s.pending - {s.calls[c].id}, active := active, calls := s.calls[c := Done(result)])
  }

  lemma ResumedWithStored(s: State, c: CallId, t: TurnId)
    requires PromptAnswered(s, c, t) && t in s.completed
    ensures Resumed(s, c)
         == s.(pending := s.pending - {s.calls[c].id}, completed := s.completed - {t},
               calls := s.calls[c := Done(s.completed[t])])
  {
    hide VerdictOf, Registered;
  }

  lemma UnwaitedEnd(s: State, r: Report)
    requires r.turnId !in s.waiters
    ensures Finished(s, r) == s.(active := Deactivated(s, r.threadId, r.turnId).active,
                                 completed := s.completed[r.turnId := r.result])
  {
  }

  lemma ReportFirst(s: State, c: CallId, r: Report)
    requires PromptAnswered(s, c, r.turnId) && StandingIn(s, r.turnId) == Free
    ensures Resumed(Finished(s, r), c)
         == Met(s, c, r.result, Deactivated(s, r.threadId, r.turnId).active)
  {
    hide VerdictNames, Finished, Resumed, Deactivated;
    UnwaitedEnd(s, r);
    ResumedWithStored(Finished(s, r), c, r.turnId);
    assert s.completed[r.turnId := r.result] - {r.turnId} == s.completed;
  }

  lemma ResumeFirst(s: State, c: CallId, r: Report)
    requires PromptAnswered(s, c, r.turnId) && StandingIn(s, r.turnId) == Free
    requires VerdictOf(s.calls[c].reply).Running? && s.calls[c].purpose.session == r.threadId
    ensures Finished(Resumed(s, c), r) == Met(s, c, r.result, s.active - {r.threadId})
  {
    hide VerdictOf, Finished;
    var resumed := Resumed(s, c);
    assert resumed == s.(pending := s.pending - {s.calls[c].id}, waiters := s.waiters[r.turnId := c],
                         active := s.active[r.threadId := r.turnId], calls := s.calls[c := Waiting(r.turnId)]);
    hide Resumed;
    EndOfWaited(resumed, r, c);
    assert s.waiters[r.turnId := c] - {r.turnId} == s.waiters;
    assert s.active[r.threadId := r.turnId] - {r.threadId} == s.active - {r.threadId};
    assert s.calls[c := Waiting(r.turnId)][c := Done(r.result)] == s.calls[c := Done(r.result)];
  }

  lemma EndOfWaited(s: State, r: Report, c: CallId)
    requires Lookup(s.waiters, r.turnId) == Some(c) && Lookup(s.active, r.threadId) == Some(r.turnId)
    ensures Finished(s, r) == s.(waiters := s.waiters - {r.turnId}, active := s.active - {r.threadId},
                                 calls := s.calls[c := Done(r.result)])
  {
  }

  /** A report and a resumption commute, but for the session's active turn when another
      turn had been recorded for the session meanwhile. */
  lemma ReportAndResumptionCommute(s: State, c: CallId, r: Report)
    requires PromptAnswered(s, c, r.turnId) && StandingIn(s, r.turnId) == Free
    requires VerdictOf(s.calls[c].reply).Running? && s.calls[c].purpose.session == r.threadId
    ensures var reportFirst, resumeFirst := Resumed(Finished(s, r), c), Finished(Resumed(s, c), r);
            && resumeFirst.(active := reportFirst.active) == reportFirst
            && (resumeFirst == reportFirst <==> Lookup(s.active, r.threadId) in {None, Some(r.turnId)})
  {
    hide VerdictOf, Resumed, Finished;
    ReportFirst(s, c, r);
    ResumeFirst(s, c, r);
  }
}
