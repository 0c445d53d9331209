/** What the history of a hub says about its socket index and about who may connect. */
module DeviceHubHistory {
  import opened DeviceHub
  import opened DeviceHubRuns
  import opened HubStorage
  import opened RelayProtocol
  import opened SocketIndex
  import opened Wrappers

  // ----- The index is the last accepted socket that has not closed -----

  function SocketEvents(s: Hub, e: Event): seq<SocketEvent> {
    match e
    case Connect(request, server, connectionId) =>
      if ConnectResponse(s.memory, request) != SwitchingProtocols then []
      else [Took(SeatOf(AttachmentFor(request, connectionId)), server)]
    case Leave(ws) => [Left(ws)]
    case _ => []
  }

  function TraceOf(history: seq<Event>): seq<SocketEvent> {
    if history == [] then []
    else
      TraceOf(history[..|history|-1]) + SocketEvents(After(history[..|history|-1]), history[|history|-1])
  }

  lemma StepFollows(s: Hub, e: Event, trace: seq<SocketEvent>)
    requires Sound(s) && Legal(s, e) && Follows(s.index, trace)
    ensures Follows(Step(s, e).index, trace + SocketEvents(s, e))
  {
    hide Mirrors, AllCertified, Follows, Attached, ConnectResponse, Lists, ListsCurrentLast, FromWorker,
      AttachmentFor, SeatOf, Seated, Vacated, Rebuilt;
    match e {
      case Connect(request, server, connectionId) =>
        if ConnectResponse(s.memory, request) == SwitchingProtocols {
          TakingFollows(s.index, trace, SeatOf(AttachmentFor(request, connectionId)), server);
        } else {
          assert trace + [] == trace;
        }
      case Leave(ws) => LeavingFollows(s.index, trace, s.attachments, ws);
      case Restart(apps, pairings, listed) =>
        RestartChangesNothing(s, apps, pairings, listed);
        assert trace + [] == trace;
      case _ => assert trace + [] == trace;
    }
  }

  /** After any legal history, late closes of replaced sockets and restarts included, the index
      of a peer is its most recently accepted socket if that one has not closed. */
  lemma {:induction false} IndexIsTheLastOpenSocket(history: seq<Event>, seat: Seat)
    requires LegalRun(history)
    ensures Follows(After(history).index, TraceOf(history))
    ensures seat != NoSeat ==> At(After(history).index, seat) == Current(TraceOf(history), seat)
  {
    if history != [] {
      var before := history[..|history|-1];
      IndexIsTheLastOpenSocket(before, seat);
      EveryRunIsSound(before);
      hide Sound, Legal, Follows, Step, SocketEvents, Current, At;
      StepFollows(After(before), history[|history|-1], TraceOf(before));
    }
    assert Follows(After(history).index, TraceOf(history)) && seat != NoSeat ==>
        At(After(history).index, seat) == Current(TraceOf(history), seat) by {
      hide *;
      FollowsAt(After(history).index, TraceOf(history), seat);
    }
  }

  lemma FollowsAt(index: Index, trace: seq<SocketEvent>, seat: Seat)
    ensures Follows(index, trace) && seat != NoSeat ==> At(index, seat) == Current(trace, seat)
  {
  }

  /** The seat that an accepted connection takes. */
  function SeatFor(r: ConnectRequest): Seat {
    if r.role == "daemon" then DaemonSeat
    else if r.appInstallationId.Some? then AppSeat(r.appInstallationId.value)
    else NoSeat
  }

  lemma AcceptedSeat(m: Memory, r: ConnectRequest, connectionId: string)
    requires ConnectResponse(m, r) == SwitchingProtocols
    ensures SeatFor(r) != NoSeat && SeatOf(AttachmentFor(r, connectionId)) == SeatFor(r)
    ensures var a := AttachmentFor(r, connectionId);
            && a.deviceId == r.deviceId && a.peerId == r.peerId && a.connectionId == connectionId
            && (a.role.Daemon? <==> r.role == "daemon")
            && (a.role.App? ==> a.appInstallationId == r.appInstallationId)
  {
  }

  /** An accepted connection closes the most recently accepted socket of its seat that is still
      open, if there is one, and no other; it then gets its ready frame, carries what the request
      said, and is the seat's socket. A refused one does nothing. */
  lemma ConnectsReplaceTheCurrent(history: seq<Event>, r: ConnectRequest, server: Socket, connectionId: string)
    requires LegalRun(history)
    ensures var s := After(history);
            var s' := Connected(s, r, server, connectionId);
            var effects := ConnectEffects(s, r, server, connectionId);
            if ConnectResponse(s.memory, r) == SwitchingProtocols then
              var current := Current(TraceOf(history), SeatFor(r));
              && effects == (if current.Some? then [Close(current.value, 4001)] else []) + [Ready(server)]
              && At(s'.index, SeatFor(r)) == Some(server)
              && (forall seat | seat != SeatFor(r) :: At(s'.index, seat) == At(s.index, seat))
              && server in s'.attachments
              && var a := s'.attachments[server];
                 && a.deviceId == r.deviceId && a.peerId == r.peerId && a.connectionId == connectionId
                 && (a.role.Daemon? <==> r.role == "daemon")
                 && (a.role.App? ==> a.appInstallationId == r.appInstallationId)
            else s' == s && effects == []
  {
    var s := After(history);
    hide After, LegalRun, ConnectResponse, AttachmentFor, SeatOf, Seated, At, Current, TraceOf;
    if ConnectResponse(s.memory, r) == SwitchingProtocols {
      AcceptedSeat(s.memory, r, connectionId);
      IndexIsTheLastOpenSocket(history, SeatFor(r));
      forall seat ensures At(Seated(s.index, SeatFor(r), server), seat) ==
                          if seat == SeatFor(r) then Some(server) else At(s.index, seat)
      {
        SeatsAfter(s.index, SeatFor(r), server, seat);
      }
    }
  }

  // ----- A restart that is not legal -----

  const DAEMON_REQUEST := ConnectRequest(true, "daemon", "device", DAEMON_PEER, "secret", None)

  /** A daemon is registered, connects, and connects again. */
  const RECONNECTED := [
    Bootstrap(Some(BootstrapPayload("device", None, Sha("secret"))), 0),
    Connect(DAEMON_REQUEST, Socket(0), "first"),
    Connect(DAEMON_REQUEST, Socket(1), "second")]

  lemma ReconnectedState()
    ensures LegalRun(RECONNECTED)
    ensures var s := After(RECONNECTED);
            && s.index == Index(Some(Socket(1)), map[])
            && Socket(0) in s.attachments && s.attachments[Socket(0)].role.Daemon?
            && Socket(1) in s.attachments && s.attachments[Socket(1)].role.Daemon?
  {
    var a, b, c := RECONNECTED[0], RECONNECTED[1], RECONNECTED[2];
    assert RECONNECTED[..2] == [a, b] && [a, b][..1] == [a] && [a][..0] == [];
    assert After([a]) == Step(NEW_HUB, a) && LegalRun([a]);
    assert After([a, b]) == Step(After([a]), b);
    assert After(RECONNECTED) == Step(After([a, b]), c);
  }

  lemma TheLastDaemonSits(attachments: Attachments, listed: seq<Socket>, ws: Socket)
    requires ws in attachments && attachments[ws].role.Daemon?
    ensures Rebuilt(attachments, listed + [ws]).daemon == Some(ws)
  {
    assert (listed + [ws])[..|listed|] == listed;
  }

  /** A listing that puts a replaced socket last changes the index: after a run in which socket 1
      replaced socket 0, a restart that still lists 0 after 1 indexes 0 again. */
  lemma StaleListingRevivesAReplacedSocket()
    ensures LegalRun(RECONNECTED) && After(RECONNECTED).index.daemon == Some(Socket(1))
    ensures var s := After(RECONNECTED);
            && Rebuilt(s.attachments, [Socket(0), Socket(1)]).daemon == Some(Socket(1))
            && Rebuilt(s.attachments, [Socket(1), Socket(0)]).daemon == Some(Socket(0))
            && !ListsCurrentLast(s.index, s.attachments, [Socket(1), Socket(0)])
  {
    ReconnectedState();
    EveryRunIsSound(RECONNECTED);
    var s := After(RECONNECTED);
    hide After, LegalRun, Rebuilt, ListsCurrentLast, Attached, Mirrors, AllCertified;
    assert [Socket(0)] + [Socket(1)] == [Socket(0), Socket(1)] && [Socket(1)] + [Socket(0)] == [Socket(1), Socket(0)];
    TheLastDaemonSits(s.attachments, [Socket(0)], Socket(1));
    TheLastDaemonSits(s.attachments, [Socket(1)], Socket(0));
    RebuildKeepsTheIndex(s.index, s.attachments, [Socket(1), Socket(0)]);
  }
}
