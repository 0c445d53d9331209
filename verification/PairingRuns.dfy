/**
 The life of pairings over whole runs of the hub: every claim uses up one opening.

 A run leaves a ledger of what was opened, claimed and expired. The ledger says which
 pairings are outstanding, and the hub's pairing records are exactly those.
 */
module PairingRuns {
  import opened DeviceHub
  import opened DeviceHubRecords
  import opened DeviceHubRuns
  import opened HubStorage
  import opened SocketIndex
  import opened Wrappers

  datatype Deed =
    | Opening(record: PairingRecord, now: int)
    | Claiming(id: string, secret: string, now: int)
    | Expiring(id: string, now: int)
  {
    function Pairing(): string { if Opening? then record.pairingId else id }
  }

  /** A complete request with the daemon's secret, and an expiry still to come. */
  predicate OpenSucceeds(m: Memory, payload: Option<OpenPayload>, now: int) {
    && payload.Some? && payload.value.daemonSecret != "" && payload.value.pairingId != ""
    && !NoHash(payload.value.ticketHash)
    && m.daemon.Some? && m.daemon.value.tokenHash == Sha(payload.value.daemonSecret)
    && payload.value.expiresAt.Finite? && Trunc(payload.value.expiresAt.value) > now
  }

  predicate ClaimExpires(m: Memory, payload: Option<ClaimPayload>, now: int) {
    && payload.Some? && payload.value.ticketSecret != "" && payload.value.appInstallationId != ""
    && !NoHash(payload.value.tokenHash) && payload.value.pairingId != "" && payload.value.pairingId in m.pairings
    && m.pairings[payload.value.pairingId].expiresAt <= now
  }

  lemma ResponsesDecide(m: Memory, open: Option<OpenPayload>, claim: Option<ClaimPayload>, now: int)
    ensures OpenResponse(m, open, now) == Done <==> OpenSucceeds(m, open, now)
    ensures ClaimResponse(m, claim, now) == Done <==> ClaimSucceeds(m, claim, now)
    ensures ClaimResponse(m, claim, now) == PairingExpired <==> ClaimExpires(m, claim, now)
  {
  }

  function DeedsOf(s: Hub, e: Event): seq<Deed> {
    match e
    case Open(payload, now, createdAt) =>
      if OpenSucceeds(s.memory, payload, now) then
        var p := payload.value;
        [Opening(PairingRecord(p.pairingId, p.ticketHash, createdAt, Trunc(p.expiresAt.value)), now)]
      else []
    case Claim(payload, now, _) =>
      if ClaimSucceeds(s.memory, payload, now) then
        [Claiming(payload.value.pairingId, payload.value.ticketSecret, now)]
      else if ClaimExpires(s.memory, payload, now) then [Expiring(payload.value.pairingId, now)]
      else []
    case _ => []
  }

  function Ledger(history: seq<Event>): seq<Deed> {
    if history == [] then []
    else Ledger(history[..|history|-1]) + DeedsOf(After(history[..|history|-1]), history[|history|-1])
  }

  /** The pairing that the last deed about an id leaves open. */
  function Outstanding(ledger: seq<Deed>, id: string): Option<PairingRecord> {
    if ledger == [] then None
    else
      var last := ledger[|ledger|-1];
      if last.Pairing() != id then Outstanding(ledger[..|ledger|-1], id)
      else if last.Opening? then Some(last.record)
      else None
  }

  /** A deed that the pairings outstanding before it allow. */
  ghost predicate Justified(before: seq<Deed>, d: Deed) {
    match d
    case Opening(record, now) => record.expiresAt > now
    case Claiming(id, secret, now) =>
      var p := Outstanding(before, id);
      p.Some? && p.value.ticketHash == Sha(secret) && now < p.value.expiresAt
    case Expiring(id, now) =>
      var p := Outstanding(before, id);
      p.Some? && p.value.expiresAt <= now
  }

  ghost predicate AllJustified(ledger: seq<Deed>) {
    forall i | 0 <= i < |ledger| :: Justified(ledger[..i], ledger[i])
  }

  ghost predicate Records(m: Memory, ledger: seq<Deed>) {
    forall id: string :: Lookup(m.pairings, id) == Outstanding(ledger, id)
  }

  lemma OutstandingAfter(ledger: seq<Deed>, d: Deed, id: string)
    ensures Outstanding(ledger + [d], id) ==
            if d.Pairing() != id then Outstanding(ledger, id) else if d.Opening? then Some(d.record) else None
  {
    assert (ledger + [d])[..|ledger|] == ledger;
  }

  lemma DeedKeepsRecords(m: Memory, m': Memory, ledger: seq<Deed>, d: Deed)
    requires Records(m, ledger)
    requires m'.pairings == if d.Opening? then m.pairings[d.Pairing() := d.record] else m.pairings - {d.Pairing()}
    ensures Records(m', ledger + [d])
  {
    hide Outstanding;
    forall id: string ensures Lookup(m'.pairings, id) == Outstanding(ledger + [d], id) {
      OutstandingAfter(ledger, d, id);
    }
  }

  lemma OtherStepsKeepPairings(s: Hub, e: Event)
    requires Sound(s) && Legal(s, e) && DeedsOf(s, e) == []
    ensures Step(s, e).memory.pairings == s.memory.pairings
  {
    if e.Open? { ResponsesDecide(s.memory, e.open, None, e.now); }
    if e.Claim? { ResponsesDecide(s.memory, None, e.claim, e.now); }
    hide Sound, Lists, ListsCurrentLast, FromWorker, ConnectResponse, OpenResponse, Rebuilt, AppKey, PairingKey,
      Loaded, Accepted, Vacated, BootstrapResponse, RegisterResponse, AppRecordFor, DaemonRecordFor,
      ClaimResponse, OpenSucceeds, ClaimSucceeds, ClaimExpires;
    if e.Restart? { RestartChangesNothing(s, e.apps, e.pairings, e.listed); }
    if e.Connect? { hide Connected; ConnectKeepsMemory(s, e.request, e.server, e.connectionId); }
  }

  /** What the one deed of a step is, and what it does to the records. */
  lemma DeedFacts(s: Hub, e: Event)
    requires DeedsOf(s, e) != []
    ensures var d := DeedsOf(s, e)[0];
            && DeedsOf(s, e) == [d]
            && Step(s, e).memory.pairings ==
               (if d.Opening? then s.memory.pairings[d.Pairing() := d.record] else s.memory.pairings - {d.Pairing()})
            && match d
               case Opening(record, now) => record.expiresAt > now
               case Claiming(id, secret, now) =>
                 id in s.memory.pairings && s.memory.pairings[id].ticketHash == Sha(secret)
                 && now < s.memory.pairings[id].expiresAt
               case Expiring(id, now) => id in s.memory.pairings && s.memory.pairings[id].expiresAt <= now
  {
    if e.Open? { ResponsesDecide(s.memory, e.open, None, e.now); }
    if e.Claim? { ResponsesDecide(s.memory, None, e.claim, e.now); }
    hide OpenResponse, ClaimResponse, AppRecordFor, AppKey, PairingKey;
  }

  lemma StepKeepsLedger(s: Hub, e: Event, ledger: seq<Deed>)
    requires Sound(s) && Legal(s, e) && Records(s.memory, ledger) && AllJustified(ledger)
    ensures Records(Step(s, e).memory, ledger + DeedsOf(s, e))
    ensures AllJustified(ledger + DeedsOf(s, e))
  {
    hide Sound, Legal, Step, DeedsOf, Outstanding;
    if DeedsOf(s, e) == [] {
      OtherStepsKeepPairings(s, e);
      assert ledger + [] == ledger;
    } else {
      DeedFacts(s, e);
      var d := DeedsOf(s, e)[0];
      DeedKeepsRecords(s.memory, Step(s, e).memory, ledger, d);
      assert Lookup(s.memory.pairings, d.Pairing()) == Outstanding(ledger, d.Pairing());
      assert Justified(ledger, d);
      JustifiedExtended(ledger, d);
    }
  }

  lemma JustifiedExtended(ledger: seq<Deed>, d: Deed)
    requires AllJustified(ledger) && Justified(ledger, d)
    ensures AllJustified(ledger + [d])
  {
    hide Justified;
    forall i | 0 <= i < |ledger + [d]| ensures Justified((ledger + [d])[..i], (ledger + [d])[i]) {
      assert (ledger + [d])[..i] == ledger[..i];
      assert i == |ledger| ==> ledger[..i] == ledger;
    }
  }

  /** The pairing records are exactly the outstanding openings; a claim succeeds only on one of
      them, with the secret whose hash was opened and before its expiry, and leaves it closed. */
  lemma {:induction false} EveryClaimUsesUpAnOpening(history: seq<Event>)
    requires LegalRun(history)
    ensures Records(After(history).memory, Ledger(history))
    ensures AllJustified(Ledger(history))
  {
    if history == [] {
      assert Records(NEW_HUB.memory, []);
    } else {
      var before := history[..|history|-1];
      EveryClaimUsesUpAnOpening(before);
      EveryRunIsSound(before);
      hide Sound, Legal, Step, DeedsOf, Records, AllJustified;
      StepKeepsLedger(After(before), history[|history|-1], Ledger(before));
    }
  }

  /** Over every legal run the answer to a claim follows from the openings that are outstanding: a
      complete claim succeeds exactly with the secret of an outstanding opening before its expiry. */
  lemma ClaimsAreExact(history: seq<Event>, payload: Option<ClaimPayload>, now: int)
    requires LegalRun(history)
    ensures var complete := payload.Some? && payload.value.pairingId != "" && payload.value.ticketSecret != ""
                            && payload.value.appInstallationId != "" && !NoHash(payload.value.tokenHash);
            ClaimResponse(After(history).memory, payload, now) ==
            if !complete then InvalidRequest
            else
              var opening := Outstanding(Ledger(history), payload.value.pairingId);
              if opening.None? then PairingNotFound
              else if opening.value.expiresAt <= now then PairingExpired
              else if opening.value.ticketHash == Sha(payload.value.ticketSecret) then Done
              else InvalidPairingTicket
  {
    EveryClaimUsesUpAnOpening(history);
    hide After, LegalRun, Ledger, Outstanding, AllJustified;
    if payload.Some? {
      assert Lookup(After(history).memory.pairings, payload.value.pairingId) ==
             Outstanding(Ledger(history), payload.value.pairingId);
    }
  }

  // ----- Counting -----

  /** How often one pairing id was opened, opened while already open, claimed and expired. */
  datatype Tally = Tally(openings: nat, overwritten: nat, claimed: nat, expired: nat)

  function TallyOf(ledger: seq<Deed>, id: string): Tally {
    if ledger == [] then Tally(0, 0, 0, 0)
    else
      var before, last := ledger[..|ledger|-1], ledger[|ledger|-1];
      var t := TallyOf(before, id);
      if last.Pairing() != id then t
      else
        match last
        case Opening(_, _) =>
          t.(openings := t.openings + 1,
             overwritten := if Outstanding(before, id).Some? then t.overwritten + 1 else t.overwritten)
        case Claiming(_, _, _) => t.(claimed := t.claimed + 1)
        case Expiring(_, _) => t.(expired := t.expired + 1)
  }

  lemma {:induction false} OpeningsAreConserved(ledger: seq<Deed>, id: string)
    requires AllJustified(ledger)
    ensures var t := TallyOf(ledger, id);
            t.openings == t.claimed + t.expired + t.overwritten + if Outstanding(ledger, id).Some? then 1 else 0
  {
    if ledger != [] {
      var before := ledger[..|ledger|-1];
      forall i | 0 <= i < |before| ensures Justified(before[..i], before[i]) {
        assert before[..i] == ledger[..i] && Justified(ledger[..i], ledger[i]);
      }
      OpeningsAreConserved(before, id);
      assert Justified(before, ledger[|ledger|-1]);
    }
  }

  /** Openings are conserved: each is claimed, expired, overwritten by an opening of the same
      id, or still on record. With fresh ids a pairing is claimed at most once, and once it is
      claimed or expired it is gone for good. */
  lemma AtMostOneClaimEach(history: seq<Event>, id: string)
    requires LegalRun(history)
    ensures var t, present := TallyOf(Ledger(history), id), id in After(history).memory.pairings;
            && t.openings == t.claimed + t.expired + t.overwritten + (if present then 1 else 0)
            && (t.openings <= 1 ==>
                  t.overwritten == 0 && t.claimed + t.expired <= 1 && (t.claimed + t.expired == 1 ==> !present))
  {
    EveryClaimUsesUpAnOpening(history);
    OpeningsAreConserved(Ledger(history), id);
    OverwritingTakesTwo(Ledger(history), id);
    hide After, Ledger, LegalRun, Outstanding, TallyOf, AllJustified;
    assert Lookup(After(history).memory.pairings, id) == Outstanding(Ledger(history), id);
  }

  /** An id is overwritten less often than it is opened, and only if it is opened. */
  lemma {:induction false} OverwritingTakesTwo(ledger: seq<Deed>, id: string)
    ensures var t := TallyOf(ledger, id);
            && (t.openings > 0 ==> t.overwritten < t.openings)
            && (t.openings == 0 ==> t.overwritten == 0 && Outstanding(ledger, id) == None)
  {
    if ledger != [] { OverwritingTakesTwo(ledger[..|ledger|-1], id); }
  }
}
