/**
 Whole runs of a relay client: any number of handshakes, sends and receives, against
 arbitrary accepts, hellos and envelopes.
 */
module RelayClientRuns {
  import opened Integers
  import opened Wrappers
  import opened Sequences
  import opened RelayCrypto
  import opened RelayChannel
  import opened RelayClient
  import RelayLink

  datatype Event =
    | Build(draw: Draw)
    | Take(accept: Accept)
    | Answer(hello: Hello, draw: Draw)
    | Send(value: Value, wellFormed: bool)
    | Receive(envelope: Envelope)

  /** A client with its history: the latest hello it built, the secrets drawn, the channels
      activated and the envelopes emitted. */
  datatype World = World(
    client: Client,
    latest: Option<Hello>,
    drawn: set<int>,
    activated: seq<ChannelId>,
    emitted: seq<Envelope>)

  /** An accept is taken for the latest hello, as `initiate_hello_to_daemon` does. */
  function Step(w: World, e: Event): World {
    match e
    case Build(draw) =>
      w.(client := AfterHello(w.client, draw),
         latest := if HelloFor(w.client, draw).Validates() then Some(HelloFor(w.client, draw)) else w.latest,
         drawn := w.drawn + {draw.secret})
    case Take(accept) =>
      if w.latest.None? then w
      else
        var t := TakeAccept(w.client, w.latest.value, accept);
        w.(client := t.client, activated := w.activated + Activation(t.outcome))
    case Answer(hello, draw) =>
      var a := AnswerHello(w.client, hello, draw);
      w.(client := a.client, drawn := w.drawn + {draw.secret}, activated := w.activated + Activation(a.outcome))
    case Send(value, wellFormed) =>
      var r := SendResult(w.client, value, wellFormed);
      w.(client := AfterSend(w.client, value, wellFormed),
         emitted := if r.Sent? then w.emitted + [r.envelope] else w.emitted)
    case Receive(envelope) =>
      w.(client := AfterReceive(w.client, envelope))
  }

  function Activation(outcome: Handshake): seq<ChannelId> {
    if outcome.Completed? && outcome.keys.Some? then [outcome.keys.value.channelId] else []
  }

  /** The random source never repeats a secret. */
  predicate FreshDraw(w: World, e: Event) {
    e.Build? || e.Answer? ==> e.draw.secret !in w.drawn
  }

  function Start(peer: PeerId, connectionId: string, crypto: Option<Crypto>): World {
    World(Client(peer, connectionId, crypto, None, None), None, {}, [], [])
  }

  function Run(start: World, tr: seq<Event>): World {
    if tr == [] then start else Step(Run(start, tr[..|tr|-1]), tr[|tr|-1])
  }

  ghost predicate FreshRun(start: World, tr: seq<Event>) {
    tr == [] || (FreshRun(start, tr[..|tr|-1]) && FreshDraw(Run(start, tr[..|tr|-1]), tr[|tr|-1]))
  }

  // ----- What every step keeps -----

  /** The ephemeral key that this client itself put into a channel's transcript. */
  function OwnKey(peer: PeerId, id: ChannelId): EphemeralKey {
    if id.Foreign? then Undecodable(id.text)
    else if peer == Daemon then id.transcript.accept.ephemeralKey
    else id.transcript.hello.ephemeralKey
  }

  /** How many of the envelopes are on a channel. */
  function CountOn(emitted: seq<Envelope>, id: ChannelId): nat {
    if emitted == [] then 0
    else CountOn(emitted[..|emitted|-1], id) + if emitted[|emitted|-1].channelId == id then 1 else 0
  }

  /** Every activation consumed a secret of its own. */
  ghost predicate OwnSecrets(w: World) {
    && (forall id <- w.activated ::
          OwnKey(w.client.peer, id).PublicKeyOf? && OwnKey(w.client.peer, id).secret in w.drawn)
    && (forall i, j | 0 <= i < j < |w.activated| ::
          OwnKey(w.client.peer, w.activated[i]) != OwnKey(w.client.peer, w.activated[j]))
  }

  ghost predicate PendingIsLatest(w: World) {
    w.client.pendingSecret.Some? ==>
      && w.client.crypto.Some? && w.client.peer.App? && w.client.pendingSecret.value in w.drawn
      && w.latest.Some? && w.latest.value.input.ephemeralKey == PublicKeyOf(w.client.pendingSecret.value)
      && (forall id <- w.activated :: OwnKey(w.client.peer, id) != PublicKeyOf(w.client.pendingSecret.value))
  }

  ghost predicate ActiveIsLast(w: World) {
    && (w.client.active.None? <==> w.activated == [])
    && (w.client.active.Some? ==> w.client.active.value.channelId == w.activated[|w.activated|-1])
  }

  /** Emission number `k` of a channel carries sequence number `SeqOf(k)`. */
  ghost predicate Numbered(emitted: seq<Envelope>) {
    forall i | 0 <= i < |emitted| :: emitted[i].seqNo == SeqOf(CountOn(emitted[..i], emitted[i].channelId))
  }

  ghost predicate Counted(w: World) {
    && Numbered(w.emitted)
    && (forall e <- w.emitted :: e.channelId in w.activated)
    && (w.client.active.Some? ==>
          w.client.active.value.nextOutboundSeq == SeqOf(CountOn(w.emitted, w.client.active.value.channelId)))
  }

  ghost predicate Good(w: World) {
    OwnSecrets(w) && PendingIsLatest(w) && ActiveIsLast(w) && Counted(w)
  }

  lemma NothingOnNewChannel(emitted: seq<Envelope>, id: ChannelId)
    requires forall e <- emitted :: e.channelId != id
    ensures CountOn(emitted, id) == 0
  {
  }

  /** A step that activates a channel with a transcript of its own. */
  ghost predicate Activates(s: Client, s': Client, id: ChannelId, secret: int) {
    && s'.peer == s.peer && s'.crypto == s.crypto && OwnKey(s.peer, id) == PublicKeyOf(secret)
    && s'.active.Some? && s'.active.value.channelId == id && s'.active.value.nextOutboundSeq == 1
    && (s'.pendingSecret == None || (s'.pendingSecret == s.pendingSecret && s'.pendingSecret != Some(secret)))
  }

  ghost predicate Unused(w: World, secret: int) {
    forall id <- w.activated :: OwnKey(w.client.peer, id) != PublicKeyOf(secret)
  }

  lemma ActivationKeepsCounts(w: World, client: Client, id: ChannelId, secret: int)
    requires Counted(w) && Activates(w.client, client, id, secret) && Unused(w, secret)
    ensures Counted(w.(client := client, activated := w.activated + [id]))
  {
    assert id !in w.activated;
    NothingOnNewChannel(w.emitted, id);
    assert SeqOf(0) == 1;
    hide Numbered, CountOn;
  }

  lemma ActivationKeepsSecrets(w: World, client: Client, id: ChannelId, secret: int, drawn: set<int>)
    requires OwnSecrets(w) && PendingIsLatest(w) && Activates(w.client, client, id, secret) && Unused(w, secret)
    requires secret in drawn && w.drawn <= drawn
    ensures OwnSecrets(w.(client := client, drawn := drawn, activated := w.activated + [id]))
    ensures PendingIsLatest(w.(client := client, drawn := drawn, activated := w.activated + [id]))
    ensures ActiveIsLast(w.(client := client, drawn := drawn, activated := w.activated + [id]))
  {
    hide OwnKey;
  }

  lemma ActivationKeepsGood(w: World, client: Client, id: ChannelId, secret: int, drawn: set<int>)
    requires Good(w) && Activates(w.client, client, id, secret) && Unused(w, secret)
    requires secret in drawn && w.drawn <= drawn
    ensures Good(w.(client := client, drawn := drawn, activated := w.activated + [id]))
  {
    hide Activates, Unused, OwnSecrets, PendingIsLatest, ActiveIsLast;
    ActivationKeepsCounts(w, client, id, secret);
    ActivationKeepsSecrets(w, client, id, secret, drawn);
  }

  /** Any other step of a handshake keeps the channel, and the pending secret or nothing. */
  lemma OtherwiseKeepsGood(w: World, client: Client, drawn: set<int>)
    requires Good(w) && client.peer == w.client.peer && client.crypto == w.client.crypto
    requires client.active == w.client.active && w.drawn <= drawn
    requires client.pendingSecret == None || client.pendingSecret == w.client.pendingSecret
    ensures Good(w.(client := client, drawn := drawn))
  {
    hide OwnKey, Numbered, CountOn;
  }

  lemma BuildKeepsGood(w: World, draw: Draw)
    requires Good(w) && draw.secret !in w.drawn
    ensures Good(Step(w, Build(draw)))
  {
    hide OwnKey, Numbered, CountOn;
    assert Unused(w, draw.secret);
  }

  lemma TakeFacts(s: Client, hello: Hello, accept: Accept)
    ensures var t := TakeAccept(s, hello, accept);
            && t.client.peer == s.peer && t.client.crypto == s.crypto
            && (t.client.pendingSecret == None || t.client.pendingSecret == s.pendingSecret)
            && (Activation(t.outcome) == [] ==> t.client.active == s.active)
            && (Activation(t.outcome) != [] && s.pendingSecret.Some? && s.peer.App?
                && hello.input.ephemeralKey == PublicKeyOf(s.pendingSecret.value) ==>
                  Activates(s, t.client, t.outcome.keys.value.channelId, s.pendingSecret.value))
            && (Activation(t.outcome) != [] ==> s.pendingSecret.Some?)
  {
  }

  lemma PendingFacts(w: World)
    requires Good(w) && w.client.pendingSecret.Some?
    ensures w.client.peer.App? && w.client.pendingSecret.value in w.drawn && Unused(w, w.client.pendingSecret.value)
    ensures w.latest.Some? && w.latest.value.input.ephemeralKey == PublicKeyOf(w.client.pendingSecret.value)
  {
  }

  lemma TakeKeepsGood(w: World, accept: Accept)
    requires Good(w)
    ensures Good(Step(w, Take(accept)))
  {
    hide Good, TakeAccept, Activates, Unused;
    if w.latest.Some? {
      var t := TakeAccept(w.client, w.latest.value, accept);
      TakeFacts(w.client, w.latest.value, accept);
      if Activation(t.outcome) != [] {
        PendingFacts(w);
        ActivationKeepsGood(w, t.client, t.outcome.keys.value.channelId, w.client.pendingSecret.value, w.drawn);
      } else {
        OtherwiseKeepsGood(w, t.client, w.drawn);
        assert w.activated + [] == w.activated;
      }
    }
  }

  lemma AnswerFacts(s: Client, hello: Hello, draw: Draw)
    ensures var a := AnswerHello(s, hello, draw);
            && a.client.peer == s.peer && a.client.crypto == s.crypto && a.client.pendingSecret == s.pendingSecret
            && (Activation(a.outcome) == [] ==> a.client.active == s.active)
            && (Activation(a.outcome) != [] && s.pendingSecret != Some(draw.secret) ==>
                  Activates(s, a.client, a.outcome.keys.value.channelId, draw.secret))
  {
  }

  lemma DrawnFacts(w: World, secret: int)
    requires Good(w) && secret !in w.drawn
    ensures Unused(w, secret) && w.client.pendingSecret != Some(secret)
  {
  }

  lemma AnswerKeepsGood(w: World, hello: Hello, draw: Draw)
    requires Good(w) && draw.secret !in w.drawn
    ensures Good(Step(w, Answer(hello, draw)))
  {
    hide Good, AnswerHello, Activates, Unused;
    var a := AnswerHello(w.client, hello, draw);
    AnswerFacts(w.client, hello, draw);
    DrawnFacts(w, draw.secret);
    if Activation(a.outcome) != [] {
      ActivationKeepsGood(w, a.client, a.outcome.keys.value.channelId, draw.secret, w.drawn + {draw.secret});
    } else {
      OtherwiseKeepsGood(w, a.client, w.drawn + {draw.secret});
      assert w.activated + [] == w.activated;
    }
  }

  lemma NumberedExtended(emitted: seq<Envelope>, e: Envelope)
    requires Numbered(emitted) && e.seqNo == SeqOf(CountOn(emitted, e.channelId))
    ensures Numbered(emitted + [e])
  {
    var emitted' := emitted + [e];
    assert emitted'[..|emitted|] == emitted;
    forall i | 0 <= i < |emitted'| ensures emitted'[i].seqNo == SeqOf(CountOn(emitted'[..i], emitted'[i].channelId)) {
      if i < |emitted| { assert emitted'[..i] == emitted[..i]; }
    }
  }

  lemma SendKeepsCounts(w: World, value: Value, wellFormed: bool)
    requires ActiveIsLast(w) && Counted(w)
    ensures Counted(Step(w, Send(value, wellFormed)))
  {
    if SendResult(w.client, value, wellFormed).Sent? {
      var e := SendResult(w.client, value, wellFormed).envelope;
      NumberedExtended(w.emitted, e);
      assert (w.emitted + [e])[..|w.emitted|] == w.emitted;
      hide Numbered;
      assert SaturatingIncrement(SeqOf(CountOn(w.emitted, e.channelId))) == SeqOf(CountOn(w.emitted, e.channelId) + 1);
    }
  }

  lemma SendKeepsGood(w: World, value: Value, wellFormed: bool)
    requires Good(w)
    ensures Good(Step(w, Send(value, wellFormed)))
  {
    hide OwnKey, Counted, SendResult;
    SendKeepsCounts(w, value, wellFormed);
  }

  lemma ReceiveKeepsGood(w: World, e: Envelope)
    requires Good(w)
    ensures Good(Step(w, Receive(e)))
  {
    hide OwnKey, Received, Numbered, CountOn;
  }

  lemma StepKeepsGood(w: World, e: Event)
    requires Good(w) && FreshDraw(w, e)
    ensures Good(Step(w, e))
  {
    hide Good, Step;
    match e
    case Build(draw) => BuildKeepsGood(w, draw);
    case Take(accept) => TakeKeepsGood(w, accept);
    case Answer(hello, draw) => AnswerKeepsGood(w, hello, draw);
    case Send(value, wellFormed) => SendKeepsGood(w, value, wellFormed);
    case Receive(envelope) => ReceiveKeepsGood(w, envelope);
  }

  lemma StepKeepsPeer(w: World, e: Event)
    ensures Step(w, e).client.peer == w.client.peer
  {
    hide TakeAccept, AnswerHello;
    if e.Take? && w.latest.Some? { TakeFacts(w.client, w.latest.value, e.accept); }
    if e.Answer? { AnswerFacts(w.client, e.hello, e.draw); }
  }

  lemma RunKeepsGood(peer: PeerId, connectionId: string, crypto: Option<Crypto>, tr: seq<Event>)
    requires FreshRun(Start(peer, connectionId, crypto), tr)
    ensures Good(Run(Start(peer, connectionId, crypto), tr))
    ensures Run(Start(peer, connectionId, crypto), tr).client.peer == peer
  {
    if tr != [] {
      hide Good, FreshDraw, Step;
      RunKeepsGood(peer, connectionId, crypto, tr[..|tr|-1]);
      StepKeepsGood(Run(Start(peer, connectionId, crypto), tr[..|tr|-1]), tr[|tr|-1]);
      StepKeepsPeer(Run(Start(peer, connectionId, crypto), tr[..|tr|-1]), tr[|tr|-1]);
    }
  }

  // ----- What follows for whole runs -----

  /** Each activation has an ephemeral key of its own in its transcript: a hello activates
      at most one channel on the app, an answer at most one on the daemon, and no channel id
      is ever used again. */
  lemma ActivationsAreDistinct(peer: PeerId, connectionId: string, crypto: Option<Crypto>, tr: seq<Event>)
    requires FreshRun(Start(peer, connectionId, crypto), tr)
    ensures var w := Run(Start(peer, connectionId, crypto), tr);
            && NoDuplicates(w.activated)
            && (forall i, j | 0 <= i < j < |w.activated| ::
                  OwnKey(peer, w.activated[i]) != OwnKey(peer, w.activated[j]))
  {
    hide Run, FreshRun;
    RunKeepsGood(peer, connectionId, crypto, tr);
  }

  /** Once a new channel is active, no envelope of an earlier one is accepted, and trying it
      changes nothing. */
  lemma EarlierChannelsAreRejected(
    peer: PeerId, connectionId: string, crypto: Option<Crypto>, tr: seq<Event>, k: nat, e: Envelope)
    requires FreshRun(Start(peer, connectionId, crypto), tr)
    requires k < |Run(Start(peer, connectionId, crypto), tr).activated| - 1
    requires e.channelId == Run(Start(peer, connectionId, crypto), tr).activated[k]
    ensures var w := Run(Start(peer, connectionId, crypto), tr);
            && ReceiveResult(w.client, e).Some? && ReceiveResult(w.client, e).value.Rejected?
            && Step(w, Receive(e)) == w
  {
    hide Run, FreshRun;
    RunKeepsGood(peer, connectionId, crypto, tr);
    ActivationsAreDistinct(peer, connectionId, crypto, tr);
  }

  ghost predicate RepeatsOn(emitted: seq<Envelope>, id: ChannelId) {
    exists i, j :: RepeatsAt(emitted, id, i, j)
  }

  ghost predicate RepeatsAt(emitted: seq<Envelope>, id: ChannelId, i: nat, j: nat) {
    i < j < |emitted| && emitted[i].channelId == emitted[j].channelId == id && emitted[i].seqNo == emitted[j].seqNo
  }

  lemma CountsGrow(emitted: seq<Envelope>, id: ChannelId, i: nat, j: nat)
    requires i < j <= |emitted|
    ensures CountOn(emitted[..i], id) + (if emitted[i].channelId == id then 1 else 0) <= CountOn(emitted[..j], id)
    decreases j
  {
    assert emitted[..j][..j-1] == emitted[..j-1];
    if i < j - 1 { CountsGrow(emitted, id, i, j - 1); }
  }

  lemma EmissionNumber(emitted: seq<Envelope>, id: ChannelId, k: nat) returns (i: nat)
    requires k < CountOn(emitted, id)
    ensures i < |emitted| && emitted[i].channelId == id && CountOn(emitted[..i], id) == k
  {
    var before := emitted[..|emitted|-1];
    if k < CountOn(before, id) {
      i := EmissionNumber(before, id, k);
      assert emitted[..i] == before[..i];
    } else {
      i := |emitted| - 1;
    }
  }

  /** Over any number of handshakes, a sequence number is used twice on a channel in this
      direction exactly when the channel has emitted more than 2^64-1 envelopes. */
  lemma SequenceNumbersAreUnique(
    peer: PeerId, connectionId: string, crypto: Option<Crypto>, tr: seq<Event>, id: ChannelId)
    requires FreshRun(Start(peer, connectionId, crypto), tr)
    ensures var emitted := Run(Start(peer, connectionId, crypto), tr).emitted;
            RepeatsOn(emitted, id) <==> CountOn(emitted, id) > U64_MAX as int
  {
    hide Run, FreshRun;
    RunKeepsGood(peer, connectionId, crypto, tr);
    NumberedRepeats(Run(Start(peer, connectionId, crypto), tr).emitted, id);
  }

  lemma NumberedRepeats(emitted: seq<Envelope>, id: ChannelId)
    requires Numbered(emitted)
    ensures RepeatsOn(emitted, id) <==> CountOn(emitted, id) > U64_MAX as int
  {
    if RepeatsOn(emitted, id) {
      var i, j :| RepeatsAt(emitted, id, i, j);
      CountsGrow(emitted, id, i, j);
      CountsGrow(emitted, id, j, |emitted|);
      assert emitted[..|emitted|] == emitted;
    }
    if CountOn(emitted, id) > U64_MAX as int {
      var i := EmissionNumber(emitted, id, U64_MAX as int - 1);
      var j := EmissionNumber(emitted, id, U64_MAX as int);
      if j < i { CountsGrow(emitted, id, j, i); }
      assert RepeatsAt(emitted, id, i, j);
    }
  }

  /** A completed handshake puts the two ends in the initial state of a link, with distinct
      keys for the two directions. */
  lemma HandshakeStartsALink(app: Client, appDraw: Draw, daemon: Client, draw: Draw)
    requires app.peer.App? && daemon.peer == Daemon && app.crypto.Some? && daemon.crypto.Some?
    requires app.crypto.value.remoteIdentity == daemon.crypto.value.identity
    requires daemon.crypto.value.remoteIdentity == app.crypto.value.identity
    requires appDraw.wellFormed && draw.wellFormed
    ensures var hello := HelloFor(app, appDraw);
            var a := AnswerHello(daemon, hello, draw);
            && a.outcome.Completed? && a.outcome.keys.Some?
            && var t := TakeAccept(AfterHello(app, appDraw), hello, a.sent.value);
               var link := RelayLink.Fresh(app.peer, a.outcome.keys.value);
               && t.client.active == Some(link.app) && a.client.active == Some(link.daemon)
               && a.outcome.keys.value.appToDaemon != a.outcome.keys.value.daemonToApp
  {
    HandshakePairsTheEnds(app, appDraw, daemon, draw);
  }

  /** Waiting on the latest hello matters: an app that has built a second hello and then
      takes the first accept again, for the first hello, activates a channel with the same
      id but with keys the daemon does not have. */
  lemma StaleHelloReusesTheChannelId(app: Client, first: Draw, second: Draw, daemon: Client, draw: Draw)
    requires app.peer.App? && daemon.peer == Daemon && app.crypto.Some? && daemon.crypto.Some?
    requires app.crypto.value.remoteIdentity == daemon.crypto.value.identity
    requires daemon.crypto.value.remoteIdentity == app.crypto.value.identity
    requires first.wellFormed && second.wellFormed && draw.wellFormed && first.secret != second.secret
    ensures var hello := HelloFor(app, first);
            var accept := AnswerHello(daemon, hello, draw).sent;
            && accept.Some?
            && var once := TakeAccept(AfterHello(app, first), hello, accept.value).client;
               var again := TakeAccept(AfterHello(once, second), hello, accept.value).client;
               && once.active.Some? && again.active.Some?
               && once.active.value.channelId == again.active.value.channelId
               && once.active.value.outboundKey != again.active.value.outboundKey
  {
    HandshakePairsTheEnds(app, first, daemon, draw);
    AgreeIsInjective(draw.secret, first.secret, second.secret);
    AgreeIsInjective(draw.secret, first.secret, first.secret);
  }
}
