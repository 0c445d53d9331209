/**
 Which socket stands for which peer: the index that the hub keeps and rebuilds from the
 attachments of the open sockets (relay/src/device-hub.ts).
 */
module SocketIndex {
  import opened RelayProtocol
  import opened Wrappers

  datatype Socket = Socket(number: int)

  /** The place in the index that an attachment stands for. */
  datatype Seat = DaemonSeat | AppSeat(id: string) | NoSeat

  datatype Index = Index(daemon: Option<Socket>, apps: map<string, Socket>)

  const EMPTY_INDEX := Index(None, map[])

  type Attachments = map<Socket, Attachment>

  function SeatOf(a: Attachment): Seat {
    match a.role
    case Daemon => DaemonSeat
    case App =>
      if a.appInstallationId.Some? && a.appInstallationId.value != "" then AppSeat(a.appInstallationId.value)
      else NoSeat
  }

  /** The seat of a socket; a socket without an attachment has none. */
  function SocketSeat(attachments: Attachments, ws: Socket): Seat {
    if ws in attachments then SeatOf(attachments[ws]) else NoSeat
  }

  function At(index: Index, seat: Seat): Option<Socket> {
    match seat
    case DaemonSeat => index.daemon
    case AppSeat(id) => Lookup(index.apps, id)
    case NoSeat => None
  }

  function Seated(index: Index, seat: Seat, ws: Socket): Index {
    match seat
    case DaemonSeat => index.(daemon := Some(ws))
    case AppSeat(id) => index.(apps := index.apps[id := ws])
    case NoSeat => index
  }

  /** A closed socket leaves its seat, unless a newer one has taken it. */
  function Vacated(index: Index, seat: Seat, ws: Socket): Index {
    if At(index, seat) != Some(ws) then index
    else
      match seat
      case DaemonSeat => index.(daemon := None)
      case AppSeat(id) => index.(apps := index.apps - {id})
      case NoSeat => index
  }

  /** What both operations mean for every seat. */
  lemma SeatsAfter(index: Index, seat: Seat, ws: Socket, other: Seat)
    ensures At(Seated(index, seat, ws), other) ==
            if other == seat && seat != NoSeat then Some(ws) else At(index, other)
    ensures At(Vacated(index, seat, ws), other) ==
            if other == seat && At(index, seat) == Some(ws) then None else At(index, other)
  {
  }

  lemma SameSeats(i: Index, j: Index)
    ensures i == j <==> forall seat :: At(i, seat) == At(j, seat)
  {
    if forall seat :: At(i, seat) == At(j, seat) {
      assert At(i, DaemonSeat) == At(j, DaemonSeat);
      forall id ensures Lookup(i.apps, id) == Lookup(j.apps, id) {
        assert At(i, AppSeat(id)) == At(j, AppSeat(id));
      }
      forall id ensures id in i.apps <==> id in j.apps { assert Lookup(i.apps, id) == Lookup(j.apps, id); }
      forall id <- i.apps ensures i.apps[id] == j.apps[id] { assert Lookup(i.apps, id) == Lookup(j.apps, id); }
    }
  }

  /** Every indexed socket sits where its attachment says. */
  ghost predicate Attached(index: Index, attachments: Attachments) {
    forall seat | At(index, seat).Some? :: SocketSeat(attachments, At(index, seat).value) == seat
  }

  // ----- Rebuilding after hibernation -----

  /** The index after the listed sockets have taken their seats, one by one. */
  function Rebuilt(attachments: Attachments, listed: seq<Socket>): Index {
    if listed == [] then EMPTY_INDEX
    else
      var ws := listed[|listed|-1];
      Seated(Rebuilt(attachments, listed[..|listed|-1]), SocketSeat(attachments, ws), ws)
  }

  /** The position of the last listed socket of a seat. */
  function LastListed(attachments: Attachments, listed: seq<Socket>, seat: Seat): (k: Option<nat>)
    ensures k.Some? ==> k.value < |listed| && SocketSeat(attachments, listed[k.value]) == seat
    ensures forall i | 0 <= i < |listed| && SocketSeat(attachments, listed[i]) == seat :: k.Some? && i <= k.value
  {
    if listed == [] then None
    else if SocketSeat(attachments, listed[|listed|-1]) == seat then Some(|listed| - 1)
    else
      assert forall i | 0 <= i < |listed| - 1 :: listed[..|listed|-1][i] == listed[i];
      LastListed(attachments, listed[..|listed|-1], seat)
  }

  lemma {:induction false} TheLastListedSits(attachments: Attachments, listed: seq<Socket>, seat: Seat)
    requires seat != NoSeat
    ensures var k := LastListed(attachments, listed, seat);
            At(Rebuilt(attachments, listed), seat) == if k.Some? then Some(listed[k.value]) else None
  {
    hide SocketSeat, Seated;
    if listed == [] {
      assert At(EMPTY_INDEX, seat) == None;
    } else {
      var before, ws := listed[..|listed|-1], listed[|listed|-1];
      TheLastListedSits(attachments, before, seat);
      SeatsAfter(Rebuilt(attachments, before), SocketSeat(attachments, ws), ws, seat);
    }
  }

  /** The listed socket `i` has no seat, or the socket now indexed for its seat is listed at
      the same place or later. */
  ghost predicate Outlisted(index: Index, attachments: Attachments, listed: seq<Socket>, i: nat)
    requires i < |listed|
  {
    var seat := SocketSeat(attachments, listed[i]);
    seat != NoSeat ==> At(index, seat).Some? && At(index, seat).value in listed[i..]
  }

  /** All indexed sockets are listed, and no replaced or closed one comes after them. */
  ghost predicate ListsCurrentLast(index: Index, attachments: Attachments, listed: seq<Socket>) {
    && (forall seat | At(index, seat).Some? :: At(index, seat).value in listed)
    && (forall i | 0 <= i < |listed| :: Outlisted(index, attachments, listed, i))
  }

  lemma KeptSeat(index: Index, attachments: Attachments, listed: seq<Socket>, seat: Seat)
    requires Attached(index, attachments) && ListsCurrentLast(index, attachments, listed)
    ensures At(Rebuilt(attachments, listed), seat) == At(index, seat)
  {
    hide SocketSeat, Rebuilt;
    if seat != NoSeat {
      TheLastListedSits(attachments, listed, seat);
      var k := LastListed(attachments, listed, seat);
      if k.Some? {
        assert Outlisted(index, attachments, listed, k.value);
        var j :| 0 <= j < |listed[k.value..]| && listed[k.value..][j] == At(index, seat).value;
        assert listed[k.value + j] == At(index, seat).value;
      }
    }
  }

  /** Rebuilding gives the same index exactly when all indexed sockets are listed and none that
      was replaced or closed is listed after them. */
  lemma RebuildKeepsTheIndex(index: Index, attachments: Attachments, listed: seq<Socket>)
    requires Attached(index, attachments)
    ensures Rebuilt(attachments, listed) == index <==> ListsCurrentLast(index, attachments, listed)
  {
    hide SocketSeat, Rebuilt, At;
    if ListsCurrentLast(index, attachments, listed) {
      forall seat ensures At(Rebuilt(attachments, listed), seat) == At(index, seat) {
        KeptSeat(index, attachments, listed, seat);
      }
      SameSeats(Rebuilt(attachments, listed), index);
    }
    if Rebuilt(attachments, listed) == index {
      forall seat | At(index, seat).Some? ensures At(index, seat).value in listed {
        assert seat != NoSeat by { NobodySits(index); }
        TheLastListedSits(attachments, listed, seat);
      }
      forall i | 0 <= i < |listed| ensures Outlisted(index, attachments, listed, i) {
        var seat := SocketSeat(attachments, listed[i]);
        if seat != NoSeat {
          TheLastListedSits(attachments, listed, seat);
          var k := LastListed(attachments, listed, seat).value;
          assert listed[i..][k - i] == listed[k];
        }
      }
    }
  }

  lemma NobodySits(index: Index)
    ensures At(index, NoSeat) == None
  {
  }

  // ----- The index as history defines it -----

  datatype SocketEvent = Took(seat: Seat, ws: Socket) | Left(ws: Socket)

  /** The position at which a seat was last taken. */
  function LastTaken(trace: seq<SocketEvent>, seat: Seat): (k: Option<nat>)
    ensures k.Some? ==> k.value < |trace| && trace[k.value].Took? && trace[k.value].seat == seat
  {
    if trace == [] then None
    else
      var last := trace[|trace|-1];
      if last.Took? && last.seat == seat then Some(|trace| - 1) else LastTaken(trace[..|trace|-1], seat)
  }

  /** The most recently accepted socket of a seat, if it has not closed since. */
  function Current(trace: seq<SocketEvent>, seat: Seat): Option<Socket> {
    var k := LastTaken(trace, seat);
    if k.None? || Left(trace[k.value].ws) in trace[k.value..] then None else Some(trace[k.value].ws)
  }

  /** The index holds, in every seat, what history says. */
  ghost predicate Follows(index: Index, trace: seq<SocketEvent>) {
    forall seat | seat != NoSeat :: At(index, seat) == Current(trace, seat)
  }

  lemma CurrentAfter(trace: seq<SocketEvent>, e: SocketEvent, seat: Seat)
    ensures e.Took? ==>
              Current(trace + [e], seat) == if seat == e.seat then Some(e.ws) else Current(trace, seat)
    ensures e.Left? ==>
              Current(trace + [e], seat) ==
              if Current(trace, seat) == Some(e.ws) then None else Current(trace, seat)
  {
    var longer := trace + [e];
    assert longer[..|trace|] == trace;
    var k := LastTaken(trace, seat);
    if e.Took? && e.seat == seat {
      assert longer[|trace|..] == [e];
    } else if k.Some? {
      assert longer[k.value..] == trace[k.value..] + [e];
      assert longer[k.value] == trace[k.value];
    }
  }

  lemma TakingFollows(index: Index, trace: seq<SocketEvent>, seat: Seat, ws: Socket)
    requires Follows(index, trace)
    ensures Follows(Seated(index, seat, ws), trace + [Took(seat, ws)])
  {
    hide Current, At, Seated;
    forall other | other != NoSeat
      ensures At(Seated(index, seat, ws), other) == Current(trace + [Took(seat, ws)], other)
    {
      CurrentAfter(trace, Took(seat, ws), other);
      SeatsAfter(index, seat, ws, other);
    }
  }

  lemma LeavingFollows(index: Index, trace: seq<SocketEvent>, attachments: Attachments, ws: Socket)
    requires Follows(index, trace) && Attached(index, attachments)
    ensures Follows(Vacated(index, SocketSeat(attachments, ws), ws), trace + [Left(ws)])
  {
    hide Current, At, Vacated, SocketSeat;
    forall other | other != NoSeat
      ensures At(Vacated(index, SocketSeat(attachments, ws), ws), other) == Current(trace + [Left(ws)], other)
    {
      CurrentAfter(trace, Left(ws), other);
      SeatsAfter(index, SocketSeat(attachments, ws), ws, other);
    }
  }
}
