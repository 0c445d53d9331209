/**
 The relay hub of one device: its handlers for requests and for socket events
 (relay/src/device-hub.ts).

 Each handler is one atomic step. A handler is a function on `Hub`; the class `DeviceHub`
 performs the same step on mutable fields. Clocks, new sockets and connection ids come in
 as parameters.
 */
module DeviceHub {
  import opened HubStorage
  import opened RelayProtocol
  import opened SocketIndex
  import opened Wrappers

  // ----- Requests; an empty text stands for a missing or empty field, which are both falsy -----

  /** A JSON number after the coercion that Math.trunc does. */
  datatype Number = Finite(value: real) | NotFinite

  datatype BootstrapPayload = BootstrapPayload(deviceId: string, deviceName: Option<string>, tokenHash: Digest)

  datatype RegisterPayload = RegisterPayload(appInstallationId: string, appName: Option<string>, tokenHash: Digest)

  datatype OpenPayload = OpenPayload(
    daemonSecret: string, pairingId: string, ticketHash: Digest, expiresAt: Number)

  datatype ClaimPayload = ClaimPayload(
    pairingId: string, ticketSecret: string, appInstallationId: string, appName: Option<string>, tokenHash: Digest)

  datatype ConnectRequest = ConnectRequest(
    upgrade: bool,
    role: string,
    deviceId: string,
    peerId: string,
    secret: string,
    appInstallationId: Option<string>)

  datatype Message = Text(raw: string, json: Json) | Binary

  /** Statuses 200 and 101; 400 three times; 403 twice; 404, 410 and 426. */
  datatype Response =
    | Done | SwitchingProtocols
    | InvalidRequest | InvalidExpiration | MissingAuthContext
    | Unauthorized | InvalidPairingTicket
    | PairingNotFound | PairingExpired | ExpectedUpgrade

  /** What a handler does to a socket. */
  datatype Effect =
    | Ready(to: Socket)
    | Close(to: Socket, code: int)
    | Forward(to: Socket, raw: string)
    | Complain(to: Socket, error: ErrorCode, refId: Option<string>)

  const CLOSE_REPLACED := 4001
  const CLOSE_UNAUTHENTICATED := 4401

  const NO_HASH := Raw("")

  // ----- State -----

  datatype Hub = Hub(
    storage: map<string, Record>,
    memory: Memory,
    index: Index,
    attachments: Attachments)

  const NEW_HUB := Hub(map[], EMPTY_MEMORY, EMPTY_INDEX, map[])

  /** Rounds toward zero. */
  function Trunc(x: real): int {
    if x >= 0.0 then x.Floor else -((-x).Floor)
  }

  function HasSecret(m: Memory, role: string, secret: string, appInstallationId: Option<string>): bool {
    if role == "daemon" then m.daemon.Some? && m.daemon.value.tokenHash == Sha(secret)
    else if role == "app" && appInstallationId.Some? && appInstallationId.value != "" then
      appInstallationId.value in m.apps && m.apps[appInstallationId.value].tokenHash == Sha(secret)
    else false
  }

  // ----- Records -----

  function DaemonRecordFor(m: Memory, p: BootstrapPayload, now: int): DaemonRecord {
    DaemonRecord(p.deviceId, p.deviceName, p.tokenHash,
                 if m.daemon.Some? then m.daemon.value.createdAt else now, now)
  }

  function WithDaemon(s: Hub, r: DaemonRecord): Hub {
    s.(storage := s.storage[DAEMON_RECORD_KEY := DaemonEntry(r)], memory := s.memory.(daemon := Some(r)))
  }

  function BootstrapResponse(payload: Option<BootstrapPayload>): Response {
    if payload.None? || payload.value.deviceId == "" || payload.value.tokenHash == NO_HASH then InvalidRequest
    else Done
  }

  function Bootstrapped(s: Hub, payload: Option<BootstrapPayload>, now: int): Hub {
    if BootstrapResponse(payload) != Done then s
    else WithDaemon(s, DaemonRecordFor(s.memory, payload.value, now))
  }

  function AppRecordFor(m: Memory, id: string, name: Option<string>, hash: Digest, now: int): AppRecord {
    AppRecord(id, name, hash, if id in m.apps then m.apps[id].pairedAt else now, now)
  }

  function WithApp(s: Hub, r: AppRecord): Hub {
    s.(storage := s.storage[AppKey(r.appInstallationId) := AppEntry(r)],
       memory := s.memory.(apps := s.memory.apps[r.appInstallationId := r]))
  }

  function RegisterResponse(payload: Option<RegisterPayload>): Response {
    if payload.None? || payload.value.appInstallationId == "" || payload.value.tokenHash == NO_HASH then
      InvalidRequest
    else Done
  }

  function Registered(s: Hub, payload: Option<RegisterPayload>, now: int): Hub {
    if RegisterResponse(payload) != Done then s
    else
      var p := payload.value;
      WithApp(s, AppRecordFor(s.memory, p.appInstallationId, p.appName, p.tokenHash, now))
  }

  // ----- Pairings -----

  function OpenResponse(m: Memory, payload: Option<OpenPayload>, now: int): Response {
    if payload.None? || payload.value.daemonSecret == "" || payload.value.pairingId == ""
       || payload.value.ticketHash == NO_HASH then InvalidRequest
    else if !HasSecret(m, "daemon", payload.value.daemonSecret, None) then Unauthorized
    else if payload.value.expiresAt.NotFinite? || Trunc(payload.value.expiresAt.value) <= now then InvalidExpiration
    else Done
  }

  function PairingRecordFor(p: OpenPayload, createdAt: int): PairingRecord
    requires p.expiresAt.Finite?
  {
    PairingRecord(p.pairingId, p.ticketHash, createdAt, Trunc(p.expiresAt.value))
  }

  function WithPairing(s: Hub, r: PairingRecord): Hub {
    s.(storage := s.storage[PairingKey(r.pairingId) := PairingEntry(r)],
       memory := s.memory.(pairings := s.memory.pairings[r.pairingId := r]))
  }

  /** `now` is the clock at the expiry check, `createdAt` the later reading for the record. */
  function Opened(s: Hub, payload: Option<OpenPayload>, now: int, createdAt: int): Hub {
    if OpenResponse(s.memory, payload, now) != Done then s
    else WithPairing(s, PairingRecordFor(payload.value, createdAt))
  }

  function WithoutPairing(s: Hub, id: string): Hub {
    s.(storage := s.storage - {PairingKey(id)},
       memory := s.memory.(pairings := s.memory.pairings - {id}))
  }

  function ClaimResponse(m: Memory, payload: Option<ClaimPayload>, now: int): Response {
    if payload.None? || payload.value.pairingId == "" || payload.value.ticketSecret == ""
       || payload.value.appInstallationId == "" || payload.value.tokenHash == NO_HASH then InvalidRequest
    else if payload.value.pairingId !in m.pairings then PairingNotFound
    else
      var pairing := m.pairings[payload.value.pairingId];
      if pairing.expiresAt <= now then PairingExpired
      else if Sha(payload.value.ticketSecret) != pairing.ticketHash then InvalidPairingTicket
      else Done
  }

  function Claimed(s: Hub, payload: Option<ClaimPayload>, now: int, pairedAt: int): Hub {
    match ClaimResponse(s.memory, payload, now)
    case PairingExpired => WithoutPairing(s, payload.value.pairingId)
    case Done =>
      var p := payload.value;
      var r := AppRecordFor(s.memory, p.appInstallationId, p.appName, p.tokenHash, pairedAt);
      WithoutPairing(WithApp(s, r), p.pairingId)
    case _ => s
  }

  // ----- Sockets -----

  function ConnectResponse(m: Memory, r: ConnectRequest): Response {
    if !r.upgrade then ExpectedUpgrade
    else if r.role == "" || r.deviceId == "" || r.peerId == "" || r.secret == "" then MissingAuthContext
    else if !HasSecret(m, r.role, r.secret, r.appInstallationId) then Unauthorized
    else SwitchingProtocols
  }

  function AttachmentFor(r: ConnectRequest, connectionId: string): Attachment {
    Attachment(if r.role == "daemon" then Daemon else App, r.deviceId, r.peerId, connectionId,
               if r.appInstallationId == Some("") then None else r.appInstallationId)
  }

  function Accepted(s: Hub, a: Attachment, server: Socket): Hub {
    s.(index := Seated(s.index, SeatOf(a), server), attachments := s.attachments[server := a])
  }

  function Connected(s: Hub, r: ConnectRequest, server: Socket, connectionId: string): Hub {
    if ConnectResponse(s.memory, r) != SwitchingProtocols then s
    else Accepted(s, AttachmentFor(r, connectionId), server)
  }

  function ClosingOf(ws: Option<Socket>): seq<Effect> {
    if ws.Some? then [Close(ws.value, CLOSE_REPLACED)] else []
  }

  function ConnectEffects(s: Hub, r: ConnectRequest, server: Socket, connectionId: string): seq<Effect> {
    if ConnectResponse(s.memory, r) != SwitchingProtocols then []
    else ClosingOf(At(s.index, SeatOf(AttachmentFor(r, connectionId)))) + [Ready(server)]
  }

  function LookupSocket(index: Index, peer: string): Option<Socket> {
    if peer == DAEMON_PEER then index.daemon
    else if AppIdOf(peer).None? then None
    else Lookup(index.apps, AppIdOf(peer).value)
  }

  function MessageEffects(s: Hub, ws: Socket, message: Message): seq<Effect> {
    if ws !in s.attachments then [Close(ws, CLOSE_UNAUTHENTICATED)]
    else if message.Binary? then [Complain(ws, INVALID_SCHEMA, None)]
    else
      var frame := ParseRoutableFrame(message.json);
      if frame.None? then [Complain(ws, INVALID_SCHEMA, None)]
      else
        var route := ValidateRoute(s.attachments[ws], frame.value, s.memory.apps.Keys);
        if route.Err? then [Complain(ws, route.error, frame.value.refId)]
        else
          var target := LookupSocket(s.index, route.value);
          if target.None? then [Complain(ws, PEER_OFFLINE, frame.value.refId)]
          else [Forward(target.value, message.raw)]
  }

  function Forgotten(s: Hub, ws: Socket): Hub {
    s.(index := Vacated(s.index, SocketSeat(s.attachments, ws), ws))
  }

  /** A new hub object over the same storage and the sockets that survived hibernation. */
  function Restarted(s: Hub, apps: seq<Entry>, pairings: seq<Entry>, listed: seq<Socket>): Hub {
    s.(memory := Loaded(s.storage, apps, pairings), index := Rebuilt(s.attachments, listed))
  }

  // ----- The mutable hub -----

  class DeviceHubDO {
    var storage: map<string, Record>
    var daemonRecord: Option<DaemonRecord>
    var pairedApps: map<string, AppRecord>
    var pairingRecords: map<string, PairingRecord>
    var daemonSocket: Option<Socket>
    var appSockets: map<string, Socket>
    var attachments: Attachments

    function View(): Hub
      reads this
    {
      Hub(storage, Memory(daemonRecord, pairedApps, pairingRecords), Index(daemonSocket, appSockets), attachments)
    }

    /** The constructor takes what outlives an object: storage, and sockets with attachments. */
    constructor (storage: map<string, Record>, attachments: Attachments,
                 apps: seq<Entry>, pairings: seq<Entry>, listed: seq<Socket>)
      ensures View() ==
              Restarted(Hub(storage, EMPTY_MEMORY, EMPTY_INDEX, attachments), apps, pairings, listed)
    {
      this.storage, this.attachments := storage, attachments;
      daemonRecord, pairedApps, pairingRecords := None, map[], map[];
      daemonSocket, appSockets := None, map[];
      new;
      LoadState(apps, pairings, listed);
    }

    method LoadState(apps: seq<Entry>, pairings: seq<Entry>, listed: seq<Socket>)
      requires pairedApps == map[] && pairingRecords == map[]
      modifies this
      ensures View() == Restarted(old(View()), apps, pairings, listed)
    {
      var stored := Lookup(storage, DAEMON_RECORD_KEY);
      daemonRecord := if stored.Some? && stored.value.DaemonEntry? then Some(stored.value.daemon) else None;
      for i := 0 to |apps|
        invariant View() == old(View()).(memory := Memory(LoadDaemon(storage), LoadApps(apps[..i]), map[]))
      {
        assert apps[..i+1][..i] == apps[..i];
        if apps[i].record.AppEntry? {
          pairedApps := pairedApps[apps[i].record.app.appInstallationId := apps[i].record.app];
        }
      }
      assert apps[..|apps|] == apps;
      for i := 0 to |pairings|
        invariant View() == old(View()).(
                  memory := Memory(LoadDaemon(storage), LoadApps(apps), LoadPairings(pairings[..i])))
      {
        assert pairings[..i+1][..i] == pairings[..i];
        if pairings[i].record.PairingEntry? {
          pairingRecords :=
            pairingRecords[pairings[i].record.pairing.pairingId := pairings[i].record.pairing];
        }
      }
      assert pairings[..|pairings|] == pairings;
      RebuildSocketIndexes(listed);
    }

    method RebuildSocketIndexes(listed: seq<Socket>)
      modifies this`daemonSocket, this`appSockets
      ensures View() == old(View()).(index := Rebuilt(attachments, listed))
    {
      daemonSocket, appSockets := None, map[];
      for i := 0 to |listed|
        invariant Index(daemonSocket, appSockets) == Rebuilt(attachments, listed[..i])
      {
        assert listed[..i+1][..i] == listed[..i];
        var ws := listed[i];
        if ws in attachments {
          var attachment := attachments[ws];
          if attachment.role == Daemon {
            daemonSocket := Some(ws);
          } else if attachment.appInstallationId.Some? && attachment.appInstallationId.value != "" {
            appSockets := appSockets[attachment.appInstallationId.value := ws];
          }
        }
      }
      assert listed[..|listed|] == listed;
    }

    method HandleBootstrapDaemon(payload: Option<BootstrapPayload>, now: int) returns (response: Response)
      modifies this
      ensures response == BootstrapResponse(payload)
      ensures View() == Bootstrapped(old(View()), payload, now)
    {
      if payload.None? || payload.value.deviceId == "" || payload.value.tokenHash == NO_HASH {
        return InvalidRequest;
      }
      var createdAt := if daemonRecord.Some? then daemonRecord.value.createdAt else now;
      var record := DaemonRecord(payload.value.deviceId, payload.value.deviceName, payload.value.tokenHash,
                                 createdAt, now);
      storage := storage[DAEMON_RECORD_KEY := DaemonEntry(record)];
      daemonRecord := Some(record);
      return Done;
    }

    method UpsertAppRecord(id: string, name: Option<string>, hash: Digest, now: int)
      modifies this
      ensures View() == WithApp(old(View()), AppRecordFor(old(View()).memory, id, name, hash, now))
    {
      var pairedAt := if id in pairedApps then pairedApps[id].pairedAt else now;
      var record := AppRecord(id, name, hash, pairedAt, now);
      storage := storage[AppKey(id) := AppEntry(record)];
      pairedApps := pairedApps[id := record];
    }

    method HandleRegisterApp(payload: Option<RegisterPayload>, now: int) returns (response: Response)
      modifies this
      ensures response == RegisterResponse(payload)
      ensures View() == Registered(old(View()), payload, now)
    {
      if payload.None? || payload.value.appInstallationId == "" || payload.value.tokenHash == NO_HASH {
        return InvalidRequest;
      }
      UpsertAppRecord(payload.value.appInstallationId, payload.value.appName, payload.value.tokenHash, now);
      return Done;
    }

    method HandleOpenPairing(payload: Option<OpenPayload>, now: int, createdAt: int) returns (response: Response)
      modifies this
      ensures response == OpenResponse(old(View()).memory, payload, now)
      ensures View() == Opened(old(View()), payload, now, createdAt)
    {
      if payload.None? || payload.value.daemonSecret == "" || payload.value.pairingId == ""
         || payload.value.ticketHash == NO_HASH {
        return InvalidRequest;
      }
      var p := payload.value;
      if !HasSecret(View().memory, "daemon", p.daemonSecret, None) { return Unauthorized; }
      if p.expiresAt.NotFinite? || Trunc(p.expiresAt.value) <= now { return InvalidExpiration; }
      var record := PairingRecord(p.pairingId, p.ticketHash, createdAt, Trunc(p.expiresAt.value));
      storage := storage[PairingKey(p.pairingId) := PairingEntry(record)];
      pairingRecords := pairingRecords[p.pairingId := record];
      return Done;
    }

    method DeletePairing(id: string)
      modifies this
      ensures View() == WithoutPairing(old(View()), id)
    {
      storage := storage - {PairingKey(id)};
      pairingRecords := pairingRecords - {id};
    }

    method HandleClaimPairing(payload: Option<ClaimPayload>, now: int, pairedAt: int) returns (response: Response)
      modifies this
      ensures response == ClaimResponse(old(View()).memory, payload, now)
      ensures View() == Claimed(old(View()), payload, now, pairedAt)
    {
      if payload.None? || payload.value.pairingId == "" || payload.value.ticketSecret == ""
         || payload.value.appInstallationId == "" || payload.value.tokenHash == NO_HASH {
        return InvalidRequest;
      }
      var p := payload.value;
      if p.pairingId !in pairingRecords { return PairingNotFound; }
      if pairingRecords[p.pairingId].expiresAt <= now {
        DeletePairing(p.pairingId);
        return PairingExpired;
      }
      if Sha(p.ticketSecret) != pairingRecords[p.pairingId].ticketHash { return InvalidPairingTicket; }
      UpsertAppRecord(p.appInstallationId, p.appName, p.tokenHash, pairedAt);
      DeletePairing(p.pairingId);
      return Done;
    }

    method HandleWebSocketConnect(r: ConnectRequest, server: Socket, connectionId: string)
        returns (response: Response, effects: seq<Effect>)
      requires server !in attachments
      modifies this
      ensures response == ConnectResponse(old(View()).memory, r)
      ensures View() == Connected(old(View()), r, server, connectionId)
      ensures effects == ConnectEffects(old(View()), r, server, connectionId)
    {
      if !r.upgrade { return ExpectedUpgrade, []; }
      if r.role == "" || r.deviceId == "" || r.peerId == "" || r.secret == "" { return MissingAuthContext, []; }
      if !HasSecret(View().memory, r.role, r.secret, r.appInstallationId) { return Unauthorized, []; }
      var attachment := AttachmentFor(r, connectionId);
      effects := ReplaceExistingSocket(attachment);
      attachments := attachments[server := attachment];
      if attachment.role == Daemon {
        daemonSocket := Some(server);
      } else if attachment.appInstallationId.Some? {
        appSockets := appSockets[attachment.appInstallationId.value := server];
      }
      return SwitchingProtocols, effects + [Ready(server)];
    }

    method ReplaceExistingSocket(a: Attachment) returns (effects: seq<Effect>)
      ensures effects == ClosingOf(At(View().index, SeatOf(a)))
    {
      if a.role == Daemon { return ClosingOf(daemonSocket); }
      if a.appInstallationId.None? || a.appInstallationId.value == "" { return []; }
      return ClosingOf(Lookup(appSockets, a.appInstallationId.value));
    }

    /** A text frame is forwarded or answered; the state does not change. */
    method WebSocketMessage(ws: Socket, message: Message) returns (effects: seq<Effect>)
      ensures effects == MessageEffects(View(), ws, message)
    {
      if ws !in attachments { return [Close(ws, CLOSE_UNAUTHENTICATED)]; }
      if message.Binary? { return [Complain(ws, INVALID_SCHEMA, None)]; }
      var frame := ParseRoutableFrame(message.json);
      if frame.None? { return [Complain(ws, INVALID_SCHEMA, None)]; }
      var route := ValidateRoute(attachments[ws], frame.value, pairedApps.Keys);
      if route.Err? { return [Complain(ws, route.error, frame.value.refId)]; }
      var target := LookupSocket(Index(daemonSocket, appSockets), route.value);
      if target.None? { return [Complain(ws, PEER_OFFLINE, frame.value.refId)]; }
      return [Forward(target.value, message.raw)];
    }

    /** Both a close event and an error event. */
    method ForgetSocket(ws: Socket)
      modifies this
      ensures View() == Forgotten(old(View()), ws)
    {
      if ws !in attachments { return; }
      var a := attachments[ws];
      if a.role == Daemon {
        if daemonSocket == Some(ws) { daemonSocket := None; }
        return;
      }
      if a.appInstallationId.Some? && a.appInstallationId.value != ""
         && Lookup(appSockets, a.appInstallationId.value) == Some(ws) {
        appSockets := appSockets - {a.appInstallationId.value};
      }
    }
  }
}
