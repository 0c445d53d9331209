/**
 Whole runs of the relay hub: what holds after any legal history of requests, messages,
 closed sockets and restarts.
 */
module DeviceHubRuns {
  import opened DeviceHub
  import opened HubStorage
  import opened RelayProtocol
  import opened SocketIndex
  import opened Wrappers

  datatype Event =
    | Bootstrap(bootstrap: Option<BootstrapPayload>, now: int)
    | Register(register: Option<RegisterPayload>, now: int)
    | Open(open: Option<OpenPayload>, now: int, createdAt: int)
    | Claim(claim: Option<ClaimPayload>, now: int, pairedAt: int)
    | Connect(request: ConnectRequest, server: Socket, connectionId: string)
    | Receive(ws: Socket, message: Message)
    | Leave(ws: Socket)
    | Restart(apps: seq<Entry>, pairings: seq<Entry>, listed: seq<Socket>)

  function Step(s: Hub, e: Event): Hub {
    match e
    case Bootstrap(payload, now) => Bootstrapped(s, payload, now)
    case Register(payload, now) => Registered(s, payload, now)
    case Open(payload, now, createdAt) => Opened(s, payload, now, createdAt)
    case Claim(payload, now, pairedAt) => Claimed(s, payload, now, pairedAt)
    case Connect(request, server, connectionId) => Connected(s, request, server, connectionId)
    case Receive(_, _) => s
    case Leave(ws) => Forgotten(s, ws)
    case Restart(apps, pairings, listed) => Restarted(s, apps, pairings, listed)
  }

  /** A request whose headers the Worker wrote: the peer id is the one of the role. */
  ghost predicate FromWorker(r: ConnectRequest) {
    || (r.role == "daemon" && r.peerId == DAEMON_PEER)
    || (r.role == "app" && r.appInstallationId.Some? && r.peerId == AppPeer(r.appInstallationId.value))
  }

  /** What the runtime and the Worker guarantee: a new socket is new, storage lists what it
      holds, and a restart lists the current sockets and none that they replaced after them. */
  ghost predicate Legal(s: Hub, e: Event) {
    match e
    case Connect(request, server, _) => server !in s.attachments && FromWorker(request)
    case Restart(apps, pairings, listed) =>
      && Lists(apps, s.storage, APP_RECORD_PREFIX) && Lists(pairings, s.storage, PAIRING_RECORD_PREFIX)
      && ListsCurrentLast(s.index, s.attachments, listed)
    case _ => true
  }

  function After(history: seq<Event>): Hub {
    if history == [] then NEW_HUB else Step(After(history[..|history|-1]), history[|history|-1])
  }

  ghost predicate LegalRun(history: seq<Event>) {
    history != [] ==>
      LegalRun(history[..|history|-1]) && Legal(After(history[..|history|-1]), history[|history|-1])
  }

  // ----- The invariant of every step -----

  /** An attachment names a peer that is registered, under the peer id of its role. */
  ghost predicate Certified(m: Memory, a: Attachment) {
    match a.role
    case Daemon => m.daemon.Some? && a.peerId == DAEMON_PEER
    case App =>
      && a.appInstallationId.Some? && a.appInstallationId.value != ""
      && a.appInstallationId.value in m.apps && a.peerId == AppPeer(a.appInstallationId.value)
  }

  ghost predicate AllCertified(m: Memory, attachments: Attachments) {
    forall ws <- attachments :: Certified(m, attachments[ws])
  }

  ghost predicate Sound(s: Hub) {
    && Mirrors(s.memory, s.storage)
    && Attached(s.index, s.attachments)
    && AllCertified(s.memory, s.attachments)
  }

  /** Registered peers stay registered. */
  ghost predicate Grows(m: Memory, m': Memory) {
    && (m.daemon.Some? ==> m'.daemon.Some?)
    && (forall id <- m.apps :: id in m'.apps)
  }

  lemma GrowthKeepsCertificates(m: Memory, m': Memory, attachments: Attachments)
    requires Grows(m, m') && AllCertified(m, attachments)
    ensures AllCertified(m', attachments)
  {
    hide AppPeer;
  }

  lemma DaemonKeepsSound(s: Hub, r: DaemonRecord)
    requires Sound(s)
    ensures Sound(WithDaemon(s, r))
  {
    hide Mirrors, Attached, AllCertified;
    DaemonStored(s.memory, s.storage, r);
    GrowthKeepsCertificates(s.memory, WithDaemon(s, r).memory, s.attachments);
  }

  lemma AppKeepsSound(s: Hub, r: AppRecord)
    requires Sound(s)
    ensures Sound(WithApp(s, r))
  {
    hide Mirrors, Attached, AllCertified, AppKey;
    AppStored(s.memory, s.storage, r);
    GrowthKeepsCertificates(s.memory, WithApp(s, r).memory, s.attachments);
  }

  lemma PairingKeepsSound(s: Hub, r: PairingRecord)
    requires Sound(s)
    ensures Sound(WithPairing(s, r))
  {
    hide Mirrors, Attached, AllCertified, PairingKey;
    PairingStored(s.memory, s.storage, r);
    GrowthKeepsCertificates(s.memory, WithPairing(s, r).memory, s.attachments);
  }

  lemma RemovalKeepsSound(s: Hub, id: string)
    requires Sound(s)
    ensures Sound(WithoutPairing(s, id))
  {
    hide Mirrors, Attached, AllCertified, PairingKey;
    PairingDeleted(s.memory, s.storage, id);
    GrowthKeepsCertificates(s.memory, WithoutPairing(s, id).memory, s.attachments);
  }

  lemma ClaimKeepsSound(s: Hub, payload: Option<ClaimPayload>, now: int, pairedAt: int)
    requires Sound(s)
    ensures Sound(Claimed(s, payload, now, pairedAt))
  {
    hide Sound, WithApp, WithoutPairing, AppRecordFor;
    match ClaimResponse(s.memory, payload, now) {
      case PairingExpired => RemovalKeepsSound(s, payload.value.pairingId);
      case Done =>
        var p := payload.value;
        var r := AppRecordFor(s.memory, p.appInstallationId, p.appName, p.tokenHash, pairedAt);
        AppKeepsSound(s, r);
        RemovalKeepsSound(WithApp(s, r), p.pairingId);
      case _ =>
    }
  }

  /** A request that the Worker made and the hub accepts earns a certified attachment. */
  lemma AcceptedIsCertified(m: Memory, r: ConnectRequest, connectionId: string)
    requires FromWorker(r) && ConnectResponse(m, r) == SwitchingProtocols
    ensures Certified(m, AttachmentFor(r, connectionId))
  {
    hide AppPeer;
  }

  lemma SeatingKeepsAttached(s: Hub, a: Attachment, server: Socket)
    requires Attached(s.index, s.attachments) && server !in s.attachments
    ensures Attached(Accepted(s, a, server).index, Accepted(s, a, server).attachments)
  {
    var s' := Accepted(s, a, server);
    forall seat | At(s'.index, seat).Some?
      ensures SocketSeat(s'.attachments, At(s'.index, seat).value) == seat
    {
      SeatsAfter(s.index, SeatOf(a), server, seat);
      hide At, Seated, SeatOf;
    }
  }

  lemma ConnectKeepsSound(s: Hub, r: ConnectRequest, server: Socket, connectionId: string)
    requires Sound(s) && server !in s.attachments && FromWorker(r)
    ensures Sound(Connected(s, r, server, connectionId))
  {
    hide Mirrors, Attached, Certified, FromWorker, AttachmentFor, ConnectResponse;
    if ConnectResponse(s.memory, r) == SwitchingProtocols {
      AcceptedIsCertified(s.memory, r, connectionId);
      SeatingKeepsAttached(s, AttachmentFor(r, connectionId), server);
    }
  }

  lemma ConnectKeepsMemory(s: Hub, r: ConnectRequest, server: Socket, connectionId: string)
    ensures Connected(s, r, server, connectionId).memory == s.memory
  {
  }

  lemma LeaveKeepsSound(s: Hub, ws: Socket)
    requires Sound(s)
    ensures Sound(Forgotten(s, ws))
  {
    hide Mirrors, AllCertified, SocketSeat, At, Vacated;
    var s' := Forgotten(s, ws);
    forall seat | At(s'.index, seat).Some?
      ensures SocketSeat(s'.attachments, At(s'.index, seat).value) == seat
    {
      SeatsAfter(s.index, SocketSeat(s.attachments, ws), ws, seat);
    }
  }

  /** A legal restart is invisible: memory and index come back as they were. */
  lemma RestartChangesNothing(s: Hub, apps: seq<Entry>, pairings: seq<Entry>, listed: seq<Socket>)
    requires Sound(s) && Legal(s, Restart(apps, pairings, listed))
    ensures Restarted(s, apps, pairings, listed) == s
  {
    hide Mirrors, Attached, Lists, ListsCurrentLast, Loaded, Rebuilt;
    RestartRestoresMemory(s.memory, s.storage, apps, pairings);
    RebuildKeepsTheIndex(s.index, s.attachments, listed);
  }

  lemma StepKeepsSound(s: Hub, e: Event)
    requires Sound(s) && Legal(s, e)
    ensures Sound(Step(s, e))
  {
    hide Sound, WithDaemon, WithApp, WithPairing, Claimed, Connected, Forgotten, Restarted,
      DaemonRecordFor, AppRecordFor, OpenResponse, FromWorker, Lists, ListsCurrentLast;
    match e {
      case Bootstrap(payload, now) =>
        if BootstrapResponse(payload) == Done {
          DaemonKeepsSound(s, DaemonRecordFor(s.memory, payload.value, now));
        }
      case Register(payload, now) =>
        if RegisterResponse(payload) == Done {
          var p := payload.value;
          AppKeepsSound(s, AppRecordFor(s.memory, p.appInstallationId, p.appName, p.tokenHash, now));
        }
      case Open(payload, now, createdAt) => OpenKeepsSound(s, payload, now, createdAt);
      case Claim(payload, now, pairedAt) => ClaimKeepsSound(s, payload, now, pairedAt);
      case Connect(request, server, connectionId) => ConnectKeepsSound(s, request, server, connectionId);
      case Receive(_, _) =>
      case Leave(ws) => LeaveKeepsSound(s, ws);
      case Restart(apps, pairings, listed) => RestartChangesNothing(s, apps, pairings, listed);
    }
  }

  lemma OpenKeepsSound(s: Hub, payload: Option<OpenPayload>, now: int, createdAt: int)
    requires Sound(s)
    ensures Sound(Opened(s, payload, now, createdAt))
  {
    hide Sound, WithPairing;
    if OpenResponse(s.memory, payload, now) == Done {
      PairingKeepsSound(s, PairingRecordFor(payload.value, createdAt));
    }
  }

  /** After every handler of every legal run, memory equals storage, indexed app sockets belong
      to paired apps, an indexed daemon socket has a daemon record behind it, and each indexed
      socket carries the peer id under which it is found. */
  lemma {:induction false} EveryRunIsSound(history: seq<Event>)
    requires LegalRun(history)
    ensures Sound(After(history))
    ensures var s := After(history);
            && (s.index.daemon.Some? ==> s.memory.daemon.Some?)
            && (forall id <- s.index.apps :: id in s.memory.apps)
            && (forall peer | LookupSocket(s.index, peer).Some? ::
                  var ws := LookupSocket(s.index, peer).value;
                  ws in s.attachments && s.attachments[ws].peerId == peer)
  {
    if history == [] {
      NewHubIsSound();
    } else {
      EveryRunIsSound(history[..|history|-1]);
      StepKeepsSound(After(history[..|history|-1]), history[|history|-1]);
    }
    hide After, Sound;
    IndexedPeers(After(history));
  }

  lemma NewHubIsSound()
    ensures Sound(NEW_HUB)
  {
    forall key: string ensures Lookup(NEW_HUB.storage, key) == Image(NEW_HUB.memory, SlotOf(key)) {
      hide SlotOf;
    }
  }

  lemma IndexedPeers(s: Hub)
    requires Sound(s)
    ensures s.index.daemon.Some? ==> s.memory.daemon.Some?
    ensures forall id <- s.index.apps :: id in s.memory.apps
    ensures forall peer | LookupSocket(s.index, peer).Some? ::
              var ws := LookupSocket(s.index, peer).value;
              ws in s.attachments && s.attachments[ws].peerId == peer
  {
    hide Mirrors;
    if s.index.daemon.Some? { SeatedSocket(s, DaemonSeat); }
    forall id <- s.index.apps ensures id in s.memory.apps { SeatedSocket(s, AppSeat(id)); }
    forall peer | LookupSocket(s.index, peer).Some?
      ensures var ws := LookupSocket(s.index, peer).value;
              ws in s.attachments && s.attachments[ws].peerId == peer
    {
      if peer == DAEMON_PEER {
        SeatedSocket(s, DaemonSeat);
      } else {
        var id := AppIdOf(peer).value;
        PeerNames(id, peer);
        SeatedSocket(s, AppSeat(id));
      }
    }
  }

  /** Who sits in a seat of a sound hub. */
  lemma SeatedSocket(s: Hub, seat: Seat)
    requires Sound(s) && At(s.index, seat).Some?
    ensures var ws := At(s.index, seat).value;
            && ws in s.attachments && SeatOf(s.attachments[ws]) == seat
            && match seat
               case DaemonSeat =>
                 s.memory.daemon.Some? && s.attachments[ws].role.Daemon? && s.attachments[ws].peerId == DAEMON_PEER
               case AppSeat(id) =>
                 id in s.memory.apps && s.attachments[ws].role.App? && s.attachments[ws].peerId == AppPeer(id)
               case NoSeat => false
  {
    hide Mirrors, AppPeer;
  }
}
