/**
 What the history of a hub says about its records, and with them about which requests it
 accepts.
 */
module DeviceHubRecords {
  import opened DeviceHub
  import opened DeviceHubRuns
  import opened HubStorage
  import opened Wrappers

  // ----- Writes -----

  datatype DaemonWrite = DaemonWrite(deviceId: string, deviceName: Option<string>, tokenHash: Digest, time: int)

  datatype AppWrite = AppWrite(appName: Option<string>, tokenHash: Digest, time: int)

  /** The hash field of a request is missing or empty. */
  predicate NoHash(d: Digest) { d == Raw("") }

  /** A claim with all its fields, of a pairing on record, with its secret and before its expiry. */
  predicate ClaimSucceeds(m: Memory, payload: Option<ClaimPayload>, now: int) {
    && payload.Some? && payload.value.ticketSecret != "" && payload.value.appInstallationId != ""
    && !NoHash(payload.value.tokenHash) && payload.value.pairingId != "" && payload.value.pairingId in m.pairings
    && var pairing := m.pairings[payload.value.pairingId];
       now < pairing.expiresAt && pairing.ticketHash == Sha(payload.value.ticketSecret)
  }

  /** What a step writes to the daemon's record. */
  function DaemonWriteOf(e: Event): seq<DaemonWrite> {
    if e.Bootstrap? && e.bootstrap.Some? && e.bootstrap.value.deviceId != ""
       && !NoHash(e.bootstrap.value.tokenHash) then
      [DaemonWrite(e.bootstrap.value.deviceId, e.bootstrap.value.deviceName, e.bootstrap.value.tokenHash, e.now)]
    else []
  }

  /** What a step writes to the record of an app. */
  function AppWriteOf(s: Hub, e: Event, id: string): seq<AppWrite> {
    if e.Register? && e.register.Some? && id != "" && e.register.value.appInstallationId == id
       && !NoHash(e.register.value.tokenHash) then
      [AppWrite(e.register.value.appName, e.register.value.tokenHash, e.now)]
    else if e.Claim? && ClaimSucceeds(s.memory, e.claim, e.now) && e.claim.value.appInstallationId == id then
      [AppWrite(e.claim.value.appName, e.claim.value.tokenHash, e.pairedAt)]
    else []
  }

  function DaemonWrites(history: seq<Event>): seq<DaemonWrite> {
    if history == [] then [] else DaemonWrites(history[..|history|-1]) + DaemonWriteOf(history[|history|-1])
  }

  function AppWrites(history: seq<Event>, id: string): seq<AppWrite> {
    if history == [] then []
    else AppWrites(history[..|history|-1], id) + AppWriteOf(After(history[..|history|-1]), history[|history|-1], id)
  }

  /** A record holds what was written last, and the time of the first write. */
  function DaemonFrom(writes: seq<DaemonWrite>): Option<DaemonRecord> {
    if writes == [] then None
    else
      var last := writes[|writes|-1];
      Some(DaemonRecord(last.deviceId, last.deviceName, last.tokenHash, writes[0].time, last.time))
  }

  function AppFrom(id: string, writes: seq<AppWrite>): Option<AppRecord> {
    if writes == [] then None
    else
      var last := writes[|writes|-1];
      Some(AppRecord(id, last.appName, last.tokenHash, writes[0].time, last.time))
  }

  lemma OtherStepsKeepPeers(s: Hub, e: Event)
    requires Sound(s) && Legal(s, e) && !e.Bootstrap? && !e.Register? && !e.Claim?
    ensures Step(s, e).memory.daemon == s.memory.daemon && Step(s, e).memory.apps == s.memory.apps
  {
    hide Sound, Lists, FromWorker, ConnectResponse, OpenResponse, PairingKey, Loaded, Accepted;
    if e.Restart? { RestartChangesNothing(s, e.apps, e.pairings, e.listed); }
    if e.Connect? { ConnectKeepsMemory(s, e.request, e.server, e.connectionId); }
  }

  lemma DaemonStep(s: Hub, e: Event, writes: seq<DaemonWrite>)
    requires Sound(s) && Legal(s, e) && s.memory.daemon == DaemonFrom(writes)
    ensures Step(s, e).memory.daemon == DaemonFrom(writes + DaemonWriteOf(e))
  {
    assert writes + [] == writes;
    hide Sound, Legal, ClaimResponse;
    if !e.Bootstrap? && !e.Register? && !e.Claim? {
      OtherStepsKeepPeers(s, e);
      hide Step;
    }
  }

  lemma ClaimWrites(s: Hub, payload: Option<ClaimPayload>, now: int, pairedAt: int, id: string)
    ensures ClaimResponse(s.memory, payload, now) == Done <==> ClaimSucceeds(s.memory, payload, now)
    ensures Lookup(Claimed(s, payload, now, pairedAt).memory.apps, id) ==
            if ClaimSucceeds(s.memory, payload, now) && payload.value.appInstallationId == id then
              Some(AppRecordFor(s.memory, id, payload.value.appName, payload.value.tokenHash, pairedAt))
            else Lookup(s.memory.apps, id)
  {
    hide AppKey, PairingKey;
    if ClaimSucceeds(s.memory, payload, now) {
      var p := payload.value;
      var r := AppRecordFor(s.memory, p.appInstallationId, p.appName, p.tokenHash, pairedAt);
      assert r.appInstallationId == p.appInstallationId;
      hide AppRecordFor;
    }
  }

  lemma AppStep(s: Hub, e: Event, id: string, writes: seq<AppWrite>)
    requires Sound(s) && Legal(s, e) && Lookup(s.memory.apps, id) == AppFrom(id, writes)
    ensures Lookup(Step(s, e).memory.apps, id) == AppFrom(id, writes + AppWriteOf(s, e, id))
  {
    assert writes + [] == writes;
    hide Sound, Legal, ClaimResponse, ClaimSucceeds, AppKey;
    if e.Claim? {
      ClaimWrites(s, e.claim, e.now, e.pairedAt, id);
      hide Claimed;
    } else if !e.Bootstrap? && !e.Register? {
      OtherStepsKeepPeers(s, e);
      hide Step;
    }
  }

  /** After any legal run, restarts included, the daemon's record and each app's hold what the last
      accepted bootstrap, registration or claim wrote, and the time of the first; a peer that was
      never written has none. */
  lemma {:induction false} RecordsAreTheWrites(history: seq<Event>, id: string)
    requires LegalRun(history)
    ensures After(history).memory.daemon == DaemonFrom(DaemonWrites(history))
    ensures Lookup(After(history).memory.apps, id) == AppFrom(id, AppWrites(history, id))
  {
    if history != [] {
      var before, e := history[..|history|-1], history[|history|-1];
      RecordsAreTheWrites(before, id);
      EveryRunIsSound(before);
      hide Sound, Legal, Step, DaemonFrom, AppFrom, DaemonWriteOf, AppWriteOf, Lookup;
      DaemonStep(After(before), e, DaemonWrites(before));
      AppStep(After(before), e, id, AppWrites(before, id));
    }
  }

  // ----- Who is let in -----

  /** The secret whose hash the daemon's last accepted bootstrap carried. */
  predicate IsDaemonSecret(history: seq<Event>, secret: string) {
    var writes := DaemonWrites(history);
    writes != [] && writes[|writes|-1].tokenHash == Sha(secret)
  }

  /** The secret whose hash the last accepted registration or claim of an app carried. */
  predicate IsAppSecret(history: seq<Event>, id: string, secret: string) {
    var writes := AppWrites(history, id);
    writes != [] && writes[|writes|-1].tokenHash == Sha(secret)
  }

  predicate MayConnect(history: seq<Event>, r: ConnectRequest) {
    || (r.role == "daemon" && IsDaemonSecret(history, r.secret))
    || (r.role == "app" && r.appInstallationId.Some? && r.appInstallationId.value != ""
        && IsAppSecret(history, r.appInstallationId.value, r.secret))
  }

  /** Over every legal run a connection is accepted exactly when it is complete and presents, as
      the daemon, the secret of the last bootstrap or, as an app, that of the app's last
      registration or claim. */
  lemma ConnectsAreAuthenticated(history: seq<Event>, r: ConnectRequest)
    requires LegalRun(history)
    ensures var complete := r.role != "" && r.deviceId != "" && r.peerId != "" && r.secret != "";
            ConnectResponse(After(history).memory, r) ==
            if !r.upgrade then ExpectedUpgrade
            else if !complete then MissingAuthContext
            else if MayConnect(history, r) then SwitchingProtocols
            else Unauthorized
  {
    RecordsAreTheWrites(history, if r.appInstallationId.Some? then r.appInstallationId.value else "");
    hide After, LegalRun, DaemonWrites, AppWrites;
  }

  /** Over every legal run a pairing is opened exactly when the request is complete, presents the
      secret of the last bootstrap, and expires at a time still to come. */
  lemma OpeningsAreAuthorised(history: seq<Event>, payload: Option<OpenPayload>, now: int)
    requires LegalRun(history)
    ensures var complete := payload.Some? && payload.value.daemonSecret != "" && payload.value.pairingId != ""
                            && !NoHash(payload.value.ticketHash);
            OpenResponse(After(history).memory, payload, now) ==
            if !complete then InvalidRequest
            else if !IsDaemonSecret(history, payload.value.daemonSecret) then Unauthorized
            else if payload.value.expiresAt.Finite? && Trunc(payload.value.expiresAt.value) > now then Done
            else InvalidExpiration
  {
    RecordsAreTheWrites(history, "");
    hide After, LegalRun, DaemonWrites, AppWrites;
  }

  /** Bootstraps and registrations are refused exactly when they are incomplete. */
  lemma IncompleteRequestsAreRefused(bootstrap: Option<BootstrapPayload>, register: Option<RegisterPayload>)
    ensures BootstrapResponse(bootstrap) ==
            if bootstrap.Some? && bootstrap.value.deviceId != "" && !NoHash(bootstrap.value.tokenHash) then Done
            else InvalidRequest
    ensures RegisterResponse(register) ==
            if register.Some? && register.value.appInstallationId != "" && !NoHash(register.value.tokenHash) then Done
            else InvalidRequest
  {
  }

  /** Truncation never moves away from zero, nor by one or more. */
  lemma TruncRoundsTowardZero(x: real)
    ensures x >= 0.0 ==> 0.0 <= Trunc(x) as real <= x < Trunc(x) as real + 1.0
    ensures x <= 0.0 ==> Trunc(x) as real - 1.0 < x <= Trunc(x) as real <= 0.0
  {
  }
}
