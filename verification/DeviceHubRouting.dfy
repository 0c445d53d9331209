/** What the hub does with each message that a socket sends. */
module DeviceHubRouting {
  import opened DeviceHub
  import opened DeviceHubRuns
  import opened HubStorage
  import opened RelayProtocol
  import opened SocketIndex
  import opened Wrappers

  /** A message from a socket with an attachment has exactly one effect: its own text goes to
      one socket unchanged, or one error goes back to the sender. */
  lemma OneEffectPerMessage(s: Hub, ws: Socket, message: Message)
    requires ws in s.attachments
    ensures var effects := MessageEffects(s, ws, message);
            && |effects| == 1
            && (effects[0].Forward? || effects[0].Complain?)
            && (effects[0].Forward? ==> message.Text? && effects[0].raw == message.raw)
            && (effects[0].Complain? ==> effects[0].to == ws)
            && (message.Binary? ==> effects[0] == Complain(ws, INVALID_SCHEMA, None))
  {
    hide ParseRoutableFrame, ValidateRoute, LookupSocket;
  }

  /** A JSON value that may be routed: an object of one of three types, with a sender and a
      receiver. */
  predicate IsFrame(json: Json) {
    && json.Object?
    && json.frameType in {Str("secure_channel_hello"), Str("secure_channel_accept"), Str("relay_envelope")}
    && json.from.Str? && json.from != Str("") && json.to.Str? && json.to != Str("")
  }

  /** Each field of a frame is read from the JSON field of the same name. */
  lemma FramesAreReadByField(json: Json)
    ensures ParseRoutableFrame(json).Some? <==> IsFrame(json)
    ensures IsFrame(json) ==>
              var frame := ParseRoutableFrame(json).value;
              && Str(frame.from) == json.from && Str(frame.to) == json.to
              && (if frame.refId.Some? then json.id == Str(frame.refId.value) && frame.refId.value != ""
                  else json.id in {NotAString, Str("")})
  {
  }

  /** Each error has one cause, and they are looked for in this order: no frame, a sender that
      names another peer, a route that is not allowed, a receiver that is not indexed. Errors
      about a frame carry its id. */
  lemma ComplaintsSayWhy(s: Hub, ws: Socket, message: Message, error: ErrorCode, refId: Option<string>)
    requires ws in s.attachments && MessageEffects(s, ws, message) == [Complain(ws, error, refId)]
    ensures error == INVALID_SCHEMA <==> message.Binary? || !IsFrame(message.json)
    ensures error == INVALID_SCHEMA ==> refId == None
    ensures error != INVALID_SCHEMA ==>
              var json, sender := message.json, s.attachments[ws];
              && (if refId.Some? then json.id == Str(refId.value) && refId.value != ""
                  else json.id in {NotAString, Str("")})
              && (error == FORBIDDEN_SENDER <==> json.from != Str(sender.peerId))
              && (error == PEER_OFFLINE <==>
                  && json.from == Str(sender.peerId) && LookupSocket(s.index, json.to.text) == None
                  && match sender.role
                     case App => json.to == Str("daemon")
                     case Daemon => exists id <- s.memory.apps :: json.to == Str("app:" + id))
  {
    if message.Text? {
      FramesAreReadByField(message.json);
      if IsFrame(message.json) {
        RoutesJoinDaemonAndPairedApps(s.attachments[ws], ParseRoutableFrame(message.json).value, s.memory.apps.Keys);
      }
    }
    hide ParseRoutableFrame, LookupSocket, AppIdOf, IsFrame;
  }

  /** A message from a socket without an attachment closes it. */
  lemma StrangersAreClosed(s: Hub, ws: Socket, message: Message)
    requires ws !in s.attachments
    ensures MessageEffects(s, ws, message) == [Close(ws, 4401)]
  {
  }

  /** `to` may receive this frame from `ws`: the sender names itself, the receiver is indexed
      and has the peer id that the frame names, and one of the two is the daemon, the other an app. */
  ghost predicate Joins(s: Hub, ws: Socket, frame: Frame, to: Socket)
    requires ws in s.attachments
  {
    && frame.from == s.attachments[ws].peerId
    && to in s.attachments && frame.to == s.attachments[to].peerId
    && At(s.index, SeatOf(s.attachments[to])) == Some(to)
    && s.attachments[ws].role != s.attachments[to].role
  }

  lemma RouteIsJoin(s: Hub, ws: Socket, frame: Frame, to: Socket)
    requires Sound(s) && ws in s.attachments
    ensures ValidateRoute(s.attachments[ws], frame, s.memory.apps.Keys).Ok?
            && LookupSocket(s.index, frame.to) == Some(to)
            <==> Joins(s, ws, frame, to)
  {
    hide Mirrors, AppPeer, ValidateRoute, AppIdOf;
    RoutesJoinDaemonAndPairedApps(s.attachments[ws], frame, s.memory.apps.Keys);
    if LookupSocket(s.index, frame.to) == Some(to) {
      FoundSocket(s, frame.to);
    }
    if Joins(s, ws, frame, to) {
      var seat := SeatOf(s.attachments[to]);
      SeatedSocket(s, seat);
      if seat.AppSeat? { PeerNames(seat.id, frame.to); }
    }
    if ValidateRoute(s.attachments[ws], frame, s.memory.apps.Keys).Ok? && s.attachments[ws].role.Daemon? {
      var id :| id in s.memory.apps.Keys && frame.to == AppPeer(id);
      PeerNames(id, frame.to);
    }
  }

  /** The socket that a peer id finds sits in the seat of that peer. */
  lemma FoundSocket(s: Hub, peer: string)
    requires Sound(s) && LookupSocket(s.index, peer).Some?
    ensures var ws := LookupSocket(s.index, peer).value;
            && ws in s.attachments && s.attachments[ws].peerId == peer
            && At(s.index, SeatOf(s.attachments[ws])) == Some(ws)
            && (s.attachments[ws].role.Daemon? <==> peer == DAEMON_PEER)
  {
    hide Mirrors, AppPeer;
    if peer == DAEMON_PEER {
      SeatedSocket(s, DaemonSeat);
    } else {
      PeerNames(AppIdOf(peer).value, peer);
      SeatedSocket(s, AppSeat(AppIdOf(peer).value));
    }
  }

  lemma ForwardsJoin(s: Hub, ws: Socket, message: Message, to: Socket, raw: string)
    requires Sound(s) && ws in s.attachments
    ensures MessageEffects(s, ws, message) == [Forward(to, raw)] <==>
            && message.Text? && message.raw == raw
            && ParseRoutableFrame(message.json).Some?
            && Joins(s, ws, ParseRoutableFrame(message.json).value, to)
  {
    hide Sound, ParseRoutableFrame, ValidateRoute, LookupSocket, Joins, At;
    if message.Text? && ParseRoutableFrame(message.json).Some? {
      var frame := ParseRoutableFrame(message.json).value;
      RouteIsJoin(s, ws, frame, to);
      RoutesJoinDaemonAndPairedApps(s.attachments[ws], frame, s.memory.apps.Keys);
    }
  }

  lemma CertifiedPeersAreNamed(s: Hub, ws: Socket)
    requires Sound(s) && ws in s.attachments
    ensures s.attachments[ws].peerId != ""
  {
    hide Mirrors, Attached;
    assert Certified(s.memory, s.attachments[ws]);
  }

  /** In every reachable state a message is forwarded to a socket exactly when it is a frame whose
      `from` is the sender's peer id and whose `to` is the receiver's, the receiver is indexed, and
      one of the two is the daemon, the other a paired app. */
  lemma ForwardsJoinDaemonAndPairedApps(history: seq<Event>, ws: Socket, message: Message, to: Socket, raw: string)
    requires LegalRun(history) && ws in After(history).attachments
    ensures var s := After(history);
            MessageEffects(s, ws, message) == [Forward(to, raw)] <==>
            && message.Text? && message.raw == raw && message.json.Object?
            && message.json.frameType in
               {Str("secure_channel_hello"), Str("secure_channel_accept"), Str("relay_envelope")}
            && message.json.from == Str(s.attachments[ws].peerId)
            && to in s.attachments && message.json.to == Str(s.attachments[to].peerId)
            && At(s.index, SeatOf(s.attachments[to])) == Some(to)
            && s.attachments[ws].role != s.attachments[to].role
  {
    EveryRunIsSound(history);
    var s := After(history);
    hide After, LegalRun, Sound, At, SeatOf, ParseRoutableFrame, MessageEffects;
    ForwardsJoin(s, ws, message, to, raw);
    CertifiedPeersAreNamed(s, ws);
    if to in s.attachments { CertifiedPeersAreNamed(s, to); }
    if message.Text? { FramesAreReadByField(message.json); }
  }

  /** Both ends of a forward belong to registered peers. */
  lemma ForwardedEndsAreRegistered(history: seq<Event>, ws: Socket, frame: Frame, to: Socket)
    requires LegalRun(history) && ws in After(history).attachments && Joins(After(history), ws, frame, to)
    ensures var s := After(history);
            && s.memory.daemon.Some?
            && DAEMON_PEER in {frame.from, frame.to}
            && exists id <- s.memory.apps :: AppPeer(id) in {frame.from, frame.to}
  {
    EveryRunIsSound(history);
    var s := After(history);
    hide After, LegalRun, Mirrors, AppPeer, At, Attached;
    var app := if s.attachments[ws].role.App? then ws else to;
    var daemon := if s.attachments[ws].role.App? then to else ws;
    assert Certified(s.memory, s.attachments[app]) && Certified(s.memory, s.attachments[daemon]);
    var id := s.attachments[app].appInstallationId.value;
    assert AppPeer(id) in {frame.from, frame.to};
  }
}
