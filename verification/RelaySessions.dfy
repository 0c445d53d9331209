/**
 An app and a daemon over a network that drops, duplicates, reorders and injects frames,
 during whole runs with any number of handshakes.
 */
module RelaySessions {
  import opened Integers
  import opened Wrappers
  import opened Sequences
  import opened RelayCrypto
  import opened RelayChannel
  import opened RelayClient
  import opened RelayClientRuns
  import RelayLink

  /** Both ends with their histories, and the envelopes that each has accepted. */
  datatype Net = Net(app: World, daemon: World, gotByApp: seq<Envelope>, gotByDaemon: seq<Envelope>)

  datatype NetEvent = ByApp(e: Event) | ByDaemon(e: Event)

  /** What an end has accepted after this event. */
  function Gathered(w: World, e: Event, got: seq<Envelope>): seq<Envelope> {
    if e.Receive? && ReceiveResult(w.client, e.envelope).Some? && ReceiveResult(w.client, e.envelope).value.Plain?
    then got + [e.envelope] else got
  }

  function NetStep(n: Net, e: NetEvent): Net {
    match e
    case ByApp(a) => n.(app := Step(n.app, a), gotByApp := Gathered(n.app, a, n.gotByApp))
    case ByDaemon(d) => n.(daemon := Step(n.daemon, d), gotByDaemon := Gathered(n.daemon, d, n.gotByDaemon))
  }

  ghost predicate OnTheWire(ct: Ciphertext, emitted: seq<Envelope>) {
    exists e <- emitted :: e.ciphertext == ct
  }

  /** The network may hand an end any frame. Only of an envelope under the key that the end
      decrypts with must the ciphertext have been made by one of the two, who alone can. */
  ghost predicate Possible(w: World, other: World, e: Event) {
    && FreshDraw(w, e)
    && (e.Receive? && w.client.active.Some? && e.envelope.ciphertext.Sealed?
        && e.envelope.ciphertext.key == w.client.active.value.inboundKey ==>
          OnTheWire(e.envelope.ciphertext, w.emitted) || OnTheWire(e.envelope.ciphertext, other.emitted))
  }

  ghost predicate PossibleEvent(n: Net, e: NetEvent) {
    match e
    case ByApp(a) => Possible(n.app, n.daemon, a)
    case ByDaemon(d) => Possible(n.daemon, n.app, d)
  }

  function NetRun(start: Net, tr: seq<NetEvent>): Net {
    if tr == [] then start else NetStep(NetRun(start, tr[..|tr|-1]), tr[|tr|-1])
  }

  ghost predicate PossibleNetRun(start: Net, tr: seq<NetEvent>) {
    tr == [] ||
    (PossibleNetRun(start, tr[..|tr|-1]) && PossibleEvent(NetRun(start, tr[..|tr|-1]), tr[|tr|-1]))
  }

  function NetStart(app: PeerId, appConnection: string, appCrypto: Option<Crypto>,
                    daemonConnection: string, daemonCrypto: Option<Crypto>): Net {
    Net(Start(app, appConnection, appCrypto), Start(Daemon, daemonConnection, daemonCrypto), [], [])
  }

  // ----- What was sent and delivered on one channel -----

  function SentOn(emitted: seq<Envelope>, id: ChannelId): seq<Value> {
    if emitted == [] then []
    else
      var last := emitted[|emitted|-1];
      SentOn(emitted[..|emitted|-1], id) +
      if last.channelId == id && last.ciphertext.Sealed? && last.ciphertext.plaintext.Json?
      then [last.ciphertext.plaintext.value] else []
  }

  function GotOn(got: seq<Envelope>, id: ChannelId): seq<RelayLink.Delivery> {
    if got == [] then []
    else
      var last := got[|got|-1];
      GotOn(got[..|got|-1], id) +
      if last.channelId == id && last.ciphertext.Sealed? && last.ciphertext.plaintext.Json?
      then [RelayLink.Delivery(last.seqNo, last.ciphertext.plaintext.value)] else []
  }

  /** The header of an envelope is the one that its ciphertext is bound to. */
  predicate IsBound(e: Envelope) {
    && e.ciphertext.Sealed? && e.ciphertext.plaintext.Json? && e.ciphertext.from == e.from
    && e.ciphertext.channelId == e.channelId && e.ciphertext.seqNo == e.seqNo
  }

  /** An end speaks under its own peer id, to a peer of the other kind. */
  ghost predicate Shaped(w: World) {
    && (w.client.active.Some? ==>
          && w.client.active.value.localPeer == w.client.peer
          && (w.client.active.value.remotePeer.App? <==> w.client.peer == Daemon))
    && (forall e <- w.emitted :: e.from == w.client.peer && IsBound(e))
  }

  lemma TakeShape(s: Client, hello: Hello, accept: Accept)
    requires s.pendingSecret.Some? ==> s.peer.App?
    ensures var t := TakeAccept(s, hello, accept);
            Activation(t.outcome) != [] ==>
              && t.client.active.Some? && s.peer.App?
              && t.client.active.value.localPeer == s.peer && t.client.active.value.remotePeer == Daemon
  {
  }

  lemma AnswerShape(s: Client, hello: Hello, draw: Draw)
    ensures var a := AnswerHello(s, hello, draw);
            Activation(a.outcome) != [] ==>
              && a.client.active.Some? && s.peer == Daemon
              && a.client.active.value.localPeer == s.peer && a.client.active.value.remotePeer.App?
  {
  }

  lemma PendingIsApps(w: World)
    requires Good(w)
    ensures w.client.pendingSecret.Some? ==> w.client.peer.App?
  {
  }

  lemma SendKeepsShaped(w: World, value: Value, wellFormed: bool)
    requires Shaped(w)
    ensures Shaped(Step(w, Send(value, wellFormed)))
  {
  }

  lemma ReceiveKeepsShaped(w: World, e: Envelope)
    requires Shaped(w)
    ensures Shaped(Step(w, Receive(e)))
  {
    hide Received, IsBound;
  }

  lemma HandshakeKeepsShaped(w: World, w': World)
    requires Shaped(w) && w'.client.peer == w.client.peer && w'.emitted == w.emitted
    requires || w'.client.active == w.client.active
             || (&& w'.client.active.Some? && w'.client.active.value.localPeer == w.client.peer
                 && (w'.client.active.value.remotePeer.App? <==> w.client.peer == Daemon))
    ensures Shaped(w')
  {
    hide IsBound;
  }

  lemma StepKeepsShaped(w: World, e: Event)
    requires Good(w) && Shaped(w)
    ensures Shaped(Step(w, e))
  {
    PendingIsApps(w);
    hide Good, Shaped, TakeAccept, AnswerHello, Received, SendResult;
    match e
    case Build(_) => HandshakeKeepsShaped(w, Step(w, e));
    case Take(accept) =>
      if w.latest.Some? {
        TakeFacts(w.client, w.latest.value, accept);
        TakeShape(w.client, w.latest.value, accept);
        HandshakeKeepsShaped(w, Step(w, e));
      }
    case Answer(hello, draw) =>
      AnswerFacts(w.client, hello, draw);
      AnswerShape(w.client, hello, draw);
      HandshakeKeepsShaped(w, Step(w, e));
    case Send(value, wellFormed) => SendKeepsShaped(w, value, wellFormed);
    case Receive(envelope) => ReceiveKeepsShaped(w, envelope);
  }

  // ----- How a receiver's channel moves -----

  /** The channel stays but for its counters, or a channel that was never active before is. */
  ghost predicate ChannelMoves(w: World, w': World) {
    || (&& w'.activated == w.activated
        && (w'.client.active.Some? <==> w.client.active.Some?)
        && (w.client.active.Some? ==>
              && w'.client.active.value.channelId == w.client.active.value.channelId
              && w'.client.active.value.maxInboundSeq == w.client.active.value.maxInboundSeq))
    || (&& w'.client.active.Some? && w'.client.active.value.channelId !in w.activated
        && w'.activated == w.activated + [w'.client.active.value.channelId])
  }

  lemma NewestIsNew(w: World)
    requires Good(w) && w.activated != []
    ensures w.client.active.Some? && w.client.active.value.channelId == w.activated[|w.activated|-1]
    ensures w.activated[|w.activated|-1] !in w.activated[..|w.activated|-1]
  {
    hide OwnKey;
  }

  lemma StepMovesChannel(w: World, e: Event)
    requires Good(w) && FreshDraw(w, e) && !e.Receive?
    ensures ChannelMoves(w, Step(w, e))
  {
    var w' := Step(w, e);
    StepKeepsGood(w, e);
    if w'.activated != w.activated {
      NewestIsNew(w');
    }
    hide Good, TakeAccept, AnswerHello;
    match e
    case Build(_) =>
    case Take(accept) => if w.latest.Some? { TakeFacts(w.client, w.latest.value, accept); }
    case Answer(hello, draw) => AnswerFacts(w.client, hello, draw);
    case Send(_, _) =>
  }

  // ----- One direction -----

  ghost predicate Rising(got: seq<RelayLink.Delivery>) {
    forall j, k | 0 <= j < k < |got| :: got[j].seqNo < got[k].seqNo
  }

  ghost predicate Below(got: seq<RelayLink.Delivery>, mark: u64) {
    forall d <- got :: d.seqNo <= mark
  }

  /** On every channel, what the receiver has accepted are emissions of the sender, in rising
      order, none above the mark of the active channel. */
  ghost predicate Faithful(sender: World, receiver: World, got: seq<Envelope>) {
    forall id :: FaithfulOn(sender, receiver, got, id)
  }

  ghost predicate FaithfulOn(sender: World, receiver: World, got: seq<Envelope>, id: ChannelId) {
    && Rising(GotOn(got, id))
    && (forall d <- GotOn(got, id) :: RelayLink.WasEmitted(d, SentOn(sender.emitted, id)))
    && (GotOn(got, id) != [] ==> id in receiver.activated)
    && (receiver.client.active.Some? && receiver.client.active.value.channelId == id ==>
          Below(GotOn(got, id), receiver.client.active.value.maxInboundSeq))
  }

  lemma SentExtended(emitted: seq<Envelope>, e: Envelope, id: ChannelId)
    ensures SentOn(emitted + [e], id) == SentOn(emitted, id) +
            if e.channelId == id && e.ciphertext.Sealed? && e.ciphertext.plaintext.Json?
            then [e.ciphertext.plaintext.value] else []
  {
    assert (emitted + [e])[..|emitted|] == emitted;
  }

  lemma GotExtended(got: seq<Envelope>, e: Envelope, id: ChannelId)
    ensures GotOn(got + [e], id) == GotOn(got, id) +
            if e.channelId == id && e.ciphertext.Sealed? && e.ciphertext.plaintext.Json?
            then [RelayLink.Delivery(e.seqNo, e.ciphertext.plaintext.value)] else []
  {
    assert (got + [e])[..|got|] == got;
  }

  /** The sender may go on sending. */
  lemma SenderStep(sender: World, receiver: World, got: seq<Envelope>, e: Event)
    requires Faithful(sender, receiver, got)
    ensures Faithful(Step(sender, e), receiver, got)
  {
    var emitted := sender.emitted;
    var emitted' := Step(sender, e).emitted;
    assert emitted' == emitted || exists env :: emitted' == emitted + [env];
    hide Step, RelayLink.WasEmitted, SentOn, GotOn, Rising, Below;
    forall id ensures FaithfulOn(Step(sender, e), receiver, got, id) {
      assert FaithfulOn(sender, receiver, got, id);
      if env :| emitted' == emitted + [env] {
        SentExtended(emitted, env, id);
        if SentOn(emitted', id) != SentOn(emitted, id) {
          RelayLink.EmissionsStay(SentOn(emitted, id), env.ciphertext.plaintext.value);
        }
      }
    }
  }

  /** The receiver may do anything but accept an envelope. */
  lemma IdleStep(sender: World, receiver: World, receiver': World, got: seq<Envelope>)
    requires Faithful(sender, receiver, got) && ChannelMoves(receiver, receiver')
    ensures Faithful(sender, receiver', got)
  {
    hide RelayLink.WasEmitted, SentOn, GotOn, Rising;
    forall id ensures FaithfulOn(sender, receiver', got, id) {
      assert FaithfulOn(sender, receiver, got, id);
    }
  }

  /** Emission number `CountOn` of a channel is the value sent there. */
  lemma {:induction false} EmissionIsSent(emitted: seq<Envelope>, i: nat, id: ChannelId)
    requires i < |emitted| && emitted[i].channelId == id && IsBound(emitted[i])
    requires forall e <- emitted :: IsBound(e)
    ensures |SentOn(emitted, id)| == CountOn(emitted, id)
    ensures CountOn(emitted[..i], id) < CountOn(emitted, id)
    ensures SentOn(emitted, id)[CountOn(emitted[..i], id)] == emitted[i].ciphertext.plaintext.value
  {
    var before := emitted[..|emitted|-1];
    assert IsBound(emitted[|emitted|-1]);
    SentCount(before, id);
    if i < |before| {
      EmissionIsSent(before, i, id);
      assert emitted[..i] == before[..i];
    } else {
      assert emitted[..i] == before;
    }
  }

  lemma {:induction false} SentCount(emitted: seq<Envelope>, id: ChannelId)
    requires forall e <- emitted :: IsBound(e)
    ensures |SentOn(emitted, id)| == CountOn(emitted, id)
  {
    if emitted != [] {
      assert IsBound(emitted[|emitted|-1]);
      SentCount(emitted[..|emitted|-1], id);
    }
  }

  /** What an end accepts was emitted by the other end, on the same channel, with that number. */
  lemma AcceptedWasEmitted(sender: World, receiver: World, e: Envelope)
    requires Good(sender) && Shaped(sender) && Shaped(receiver)
    requires sender.client.peer == Daemon <==> receiver.client.peer.App?
    requires Possible(receiver, sender, Receive(e))
    requires ReceiveResult(receiver.client, e).Some? && ReceiveResult(receiver.client, e).value.Plain?
    ensures receiver.client.active.Some? && e.channelId == receiver.client.active.value.channelId
    ensures e.seqNo > receiver.client.active.value.maxInboundSeq
    ensures e.ciphertext.Sealed? && e.ciphertext.plaintext.Json?
    ensures RelayLink.WasEmitted(RelayLink.Delivery(e.seqNo, e.ciphertext.plaintext.value),
                                 SentOn(sender.emitted, e.channelId))
  {
    hide OwnSecrets, PendingIsLatest, ActiveIsLast, OwnKey, SentOn, CountOn;
    var ct := e.ciphertext;
    assert ct.Sealed? && ct.from == e.from && ct.channelId == e.channelId && ct.seqNo == e.seqNo && ct.plaintext.Json?;
    assert !OnTheWire(ct, receiver.emitted);
    var sent :| sent in sender.emitted && sent.ciphertext == ct;
    var i :| 0 <= i < |sender.emitted| && sender.emitted[i] == sent;
    EmissionIsSent(sender.emitted, i, e.channelId);
    assert RelayLink.IsEmission(RelayLink.Delivery(e.seqNo, ct.plaintext.value), SentOn(sender.emitted, e.channelId),
                      CountOn(sender.emitted[..i], e.channelId));
  }

  /** The receiver accepts an envelope. */
  lemma AcceptStep(sender: World, receiver: World, got: seq<Envelope>, e: Envelope)
    requires Faithful(sender, receiver, got) && ActiveIsLast(receiver)
    requires receiver.client.active.Some? && e.channelId == receiver.client.active.value.channelId
    requires e.seqNo > receiver.client.active.value.maxInboundSeq
    requires e.ciphertext.Sealed? && e.ciphertext.plaintext.Json?
    requires RelayLink.WasEmitted(RelayLink.Delivery(e.seqNo, e.ciphertext.plaintext.value),
                                  SentOn(sender.emitted, e.channelId))
    ensures Faithful(sender, receiver.(client := receiver.client.(
                                         active := Some(receiver.client.active.value.(maxInboundSeq := e.seqNo)))),
                     got + [e])
  {
    var receiver' := receiver.(client := receiver.client.(
                                 active := Some(receiver.client.active.value.(maxInboundSeq := e.seqNo))));
    hide RelayLink.WasEmitted, SentOn, GotOn;
    forall id ensures FaithfulOn(sender, receiver', got + [e], id) {
      assert FaithfulOn(sender, receiver, got, id);
      GotExtended(got, e, id);
    }
  }

  lemma ReceiverStep(sender: World, receiver: World, got: seq<Envelope>, e: Event)
    requires Good(sender) && Shaped(sender) && Good(receiver) && Shaped(receiver)
    requires sender.client.peer == Daemon <==> receiver.client.peer.App?
    requires Faithful(sender, receiver, got) && Possible(receiver, sender, e)
    ensures Faithful(sender, Step(receiver, e), Gathered(receiver, e, got))
  {
    hide Faithful, Shaped, OwnSecrets, PendingIsLatest, Counted, Received, Possible;
    if e.Receive? {
      if Gathered(receiver, e, got) != got {
        AcceptedWasEmitted(sender, receiver, e.envelope);
        AcceptStep(sender, receiver, got, e.envelope);
      }
    } else {
      PossibleIsFresh(receiver, sender, e);
      StepMovesChannel(receiver, e);
      hide Step, Good;
      IdleStep(sender, receiver, Step(receiver, e), got);
    }
  }

  lemma PossibleIsFresh(w: World, other: World, e: Event)
    requires Possible(w, other, e)
    ensures FreshDraw(w, e)
  {
  }

  // ----- Both directions, over whole runs -----

  ghost predicate Sound(n: Net) {
    && Good(n.app) && Good(n.daemon) && Shaped(n.app) && Shaped(n.daemon)
    && n.app.client.peer.App? && n.daemon.client.peer == Daemon
    && Faithful(n.app, n.daemon, n.gotByDaemon) && Faithful(n.daemon, n.app, n.gotByApp)
  }

  lemma NetStepKeepsSound(n: Net, e: NetEvent)
    requires Sound(n) && PossibleEvent(n, e)
    ensures Sound(NetStep(n, e))
  {
    hide Good, Shaped, Faithful, Possible, Step, Gathered;
    match e
    case ByApp(a) =>
      PossibleIsFresh(n.app, n.daemon, a);
      StepKeepsGood(n.app, a);
      StepKeepsShaped(n.app, a);
      StepKeepsPeer(n.app, a);
      SenderStep(n.app, n.daemon, n.gotByDaemon, a);
      ReceiverStep(n.daemon, n.app, n.gotByApp, a);
    case ByDaemon(d) =>
      PossibleIsFresh(n.daemon, n.app, d);
      StepKeepsGood(n.daemon, d);
      StepKeepsShaped(n.daemon, d);
      StepKeepsPeer(n.daemon, d);
      SenderStep(n.daemon, n.app, n.gotByApp, d);
      ReceiverStep(n.app, n.daemon, n.gotByDaemon, d);
  }

  lemma NetStartIsSound(n: Net)
    requires n.app == Start(n.app.client.peer, n.app.client.connectionId, n.app.client.crypto)
    requires n.daemon == Start(Daemon, n.daemon.client.connectionId, n.daemon.client.crypto)
    requires n.app.client.peer.App? && n.gotByApp == [] && n.gotByDaemon == []
    ensures Sound(n)
  {
  }

  lemma {:induction false} NetRunIsSound(start: Net, tr: seq<NetEvent>)
    requires Sound(start) && PossibleNetRun(start, tr)
    ensures Sound(NetRun(start, tr))
  {
    if tr != [] {
      hide Sound, NetStep, PossibleEvent;
      NetRunIsSound(start, tr[..|tr|-1]);
      NetStepKeepsSound(NetRun(start, tr[..|tr|-1]), tr[|tr|-1]);
    }
  }

  lemma RisingIsASubsequence(sender: World, receiver: World, got: seq<Envelope>, id: ChannelId)
    requires Faithful(sender, receiver, got)
    ensures Subsequence(RelayLink.ValuesOf(GotOn(got, id)), SentOn(sender.emitted, id))
  {
    assert FaithfulOn(sender, receiver, got, id);
    var deliveries, sent := GotOn(got, id), SentOn(sender.emitted, id);
    hide GotOn, SentOn, RelayLink.WasEmitted, Faithful, FaithfulOn, Subsequence;
    RelayLink.OrderedAreASubsequence(sent, deliveries);
  }

  /** Over any run with any number of handshakes, whatever the network does: what one end delivers
      on a channel id is an in-order subsequence of what the other end sent on that id, each
      emission at most once. */
  lemma DeliveriesAreInOrderOnEveryChannel(
    app: PeerId, appConnection: string, appCrypto: Option<Crypto>,
    daemonConnection: string, daemonCrypto: Option<Crypto>, tr: seq<NetEvent>, id: ChannelId)
    requires app.App?
    requires PossibleNetRun(NetStart(app, appConnection, appCrypto, daemonConnection, daemonCrypto), tr)
    ensures var n := NetRun(NetStart(app, appConnection, appCrypto, daemonConnection, daemonCrypto), tr);
            && Subsequence(RelayLink.ValuesOf(GotOn(n.gotByDaemon, id)), SentOn(n.app.emitted, id))
            && Subsequence(RelayLink.ValuesOf(GotOn(n.gotByApp, id)), SentOn(n.daemon.emitted, id))
  {
    var start := NetStart(app, appConnection, appCrypto, daemonConnection, daemonCrypto);
    NetStartIsSound(start);
    NetRunIsSound(start, tr);
    hide NetRun, PossibleNetRun, Good, Shaped, Faithful, Subsequence, GotOn, SentOn;
    var n := NetRun(start, tr);
    RisingIsASubsequence(n.app, n.daemon, n.gotByDaemon, id);
    RisingIsASubsequence(n.daemon, n.app, n.gotByApp, id);
  }
}
