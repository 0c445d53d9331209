/**
 The relay client: the signed handshake and the channel it activates
 (daemon/core/src/relay_client.rs).
 */
module RelayClient {
  import opened Wrappers
  import opened RelayCrypto
  import opened RelayChannel

  /** `wellFormed` stands for the format checks of `validate` other than those on the peers. */
  datatype Hello = Hello(id: string, input: HelloInput, signature: Signature, wellFormed: bool) {
    predicate Validates() { wellFormed && input.from.App? && input.to == Daemon }

    predicate SignedBy(identity: int) { Validates() && signature == SignedHello(identity, input) }
  }

  datatype Accept = Accept(id: string, input: AcceptInput, signature: Signature, wellFormed: bool) {
    predicate Validates() { wellFormed && input.from == Daemon && input.to.App? }

    predicate SignedBy(identity: int) { Validates() && signature == SignedAccept(identity, input) }
  }

  /** A parsed frame; `Unreadable` is a frame that `next_frame` turns into an error. */
  datatype Frame =
    | ReadyFrame | ErrorFrame | Unreadable
    | HelloFrame(hello: Hello) | AcceptFrame(accept: Accept) | EnvelopeFrame(envelope: Envelope)

  datatype Crypto = Crypto(identity: int, remoteIdentity: int)

  datatype Client = Client(
    peer: PeerId,
    connectionId: string,
    crypto: Option<Crypto>,
    pendingSecret: Option<int>,
    active: Option<Channel>)

  datatype HandshakeError =
    | NotTheDaemon | InvalidFrame | UnexpectedHelloId | BadSignature | MissingSecret | BadEphemeralKey
    | RelayReturnedError | UnreadableFrame | StreamEnded

  datatype Handshake = Completed(channelId: ChannelId, keys: Option<SessionKeys>) | Failed(error: HandshakeError)

  /** What the caller chooses or draws for a frame it builds. */
  datatype Draw = Draw(id: string, expiresAt: int, secret: int, wellFormed: bool)

  /** The configured key that is sent when there is no crypto configuration. */
  const PLACEHOLDER_KEY := Undecodable("placeholder")

  // ----- Building a hello -----

  function HelloFor(s: Client, draw: Draw): Hello {
    var key := if s.crypto.Some? then PublicKeyOf(draw.secret) else PLACEHOLDER_KEY;
    var input := HelloInput(s.peer, Daemon, s.connectionId, key, draw.expiresAt);
    var signature := if s.crypto.Some? then SignedHello(s.crypto.value.identity, input) else Unsigned;
    Hello(draw.id, input, signature, draw.wellFormed)
  }

  /** A hello that cannot be built leaves the pending secret alone. */
  function AfterHello(s: Client, draw: Draw): Client {
    if HelloFor(s, draw).Validates() && s.crypto.Some? then s.(pendingSecret := Some(draw.secret)) else s
  }

  // ----- Taking an accept -----

  datatype Taken = Taken(client: Client, outcome: Handshake)

  /** Once the accept is verified the pending secret is consumed, whatever follows. */
  function TakeAccept(s: Client, hello: Hello, accept: Accept): Taken {
    if accept.input.helloId != hello.id then Taken(s, Failed(UnexpectedHelloId))
    else if s.crypto.Some? then
      if !accept.SignedBy(s.crypto.value.remoteIdentity) then Taken(s, Failed(BadSignature))
      else if s.pendingSecret.None? then Taken(s, Failed(MissingSecret))
      else
        var consumed := s.(pendingSecret := None);
        if !accept.input.ephemeralKey.PublicKeyOf? then Taken(consumed, Failed(BadEphemeralKey))
        else if !hello.Validates() then Taken(consumed, Failed(InvalidFrame))
        else
          var keys := DeriveSessionKeys(Agree(s.pendingSecret.value, accept.input.ephemeralKey.secret),
                                        Transcript(hello.input, accept.input));
          Taken(consumed.(active := Some(Opened(s.peer, Daemon, keys))), Completed(keys.channelId, Some(keys)))
    else if !hello.Validates() || !accept.Validates() then Taken(s, Failed(InvalidFrame))
    else Taken(s, Completed(Derived(Transcript(hello.input, accept.input)), None))
  }

  // ----- Answering a hello -----

  datatype Answered = Answered(client: Client, sent: Option<Accept>, outcome: Handshake)

  function AcceptFor(s: Client, hello: Hello, draw: Draw): Accept {
    var key := if s.crypto.Some? then PublicKeyOf(draw.secret) else PLACEHOLDER_KEY;
    var input := AcceptInput(Daemon, hello.input.from, hello.id, s.connectionId, key, draw.expiresAt);
    var signature := if s.crypto.Some? then SignedAccept(s.crypto.value.identity, input) else Unsigned;
    Accept(draw.id, input, signature, draw.wellFormed)
  }

  /** The accept is sent before the session keys are derived. */
  function AnswerHello(s: Client, hello: Hello, draw: Draw): Answered {
    var accept := AcceptFor(s, hello, draw);
    if !hello.Validates() then Answered(s, None, Failed(InvalidFrame))
    else if s.peer != Daemon then Answered(s, None, Failed(NotTheDaemon))
    else if s.crypto.Some? && !hello.SignedBy(s.crypto.value.remoteIdentity) then
      Answered(s, None, Failed(BadSignature))
    else if !accept.Validates() then Answered(s, None, Failed(InvalidFrame))
    else if s.crypto.None? then
      Answered(s, Some(accept), Completed(Derived(Transcript(hello.input, accept.input)), None))
    else if !hello.input.ephemeralKey.PublicKeyOf? then Answered(s, Some(accept), Failed(BadEphemeralKey))
    else
      var keys := DeriveSessionKeys(Agree(draw.secret, hello.input.ephemeralKey.secret),
                                    Transcript(hello.input, accept.input));
      Answered(s.(active := Some(Opened(s.peer, hello.input.from, keys))), Some(accept),
               Completed(keys.channelId, Some(keys)))
  }

  // ----- The client object -----

  class RelayClient {
    const peer: PeerId
    const connectionId: string
    const crypto: Option<Crypto>
    var pendingHelloSecret: Option<int>
    var activeChannel: ActiveRelayChannel?

    function View(): Client
      reads this, activeChannel
    {
      Client(peer, connectionId, crypto, pendingHelloSecret,
             if activeChannel == null then None else Some(activeChannel.View()))
    }

    constructor (peer: PeerId, connectionId: string, crypto: Option<Crypto>)
      ensures View() == Client(peer, connectionId, crypto, None, None)
    {
      this.peer, this.connectionId, this.crypto := peer, connectionId, crypto;
      pendingHelloSecret, activeChannel := None, null;
    }

    method BuildHelloToDaemon(draw: Draw) returns (r: Option<Hello>)
      modifies this
      ensures r == if HelloFor(old(View()), draw).Validates() then Some(HelloFor(old(View()), draw)) else None
      ensures View() == AfterHello(old(View()), draw)
    {
      if !peer.App? { return None; }
      var input := HelloInput(peer, Daemon, connectionId, PLACEHOLDER_KEY, draw.expiresAt);
      var hello := Hello(draw.id, input, Unsigned, draw.wellFormed);
      if crypto.Some? {
        input := input.(ephemeralKey := PublicKeyOf(draw.secret));
        hello := hello.(input := input, signature := SignedHello(crypto.value.identity, input));
        if !hello.Validates() { return None; }
        pendingHelloSecret := Some(draw.secret);
      }
      if !hello.Validates() { return None; }
      return Some(hello);
    }

    /** The body of the accept branch of `wait_for_accept`. */
    method CompleteHandshake(hello: Hello, accept: Accept) returns (outcome: Handshake)
      modifies this
      ensures Taken(View(), outcome) == TakeAccept(old(View()), hello, accept)
      ensures activeChannel == old(activeChannel) || fresh(activeChannel)
    {
      if accept.input.helloId != hello.id { return Failed(UnexpectedHelloId); }
      if crypto.None? {
        if !hello.Validates() || !accept.Validates() { return Failed(InvalidFrame); }
        return Completed(Derived(Transcript(hello.input, accept.input)), None);
      }
      if !accept.SignedBy(crypto.value.remoteIdentity) { return Failed(BadSignature); }
      var secret := pendingHelloSecret;
      pendingHelloSecret := None;
      if secret.None? { return Failed(MissingSecret); }
      if !accept.input.ephemeralKey.PublicKeyOf? { return Failed(BadEphemeralKey); }
      if !hello.Validates() { return Failed(InvalidFrame); }
      var keys := DeriveSessionKeys(Agree(secret.value, accept.input.ephemeralKey.secret),
                                    Transcript(hello.input, accept.input));
      activeChannel := new ActiveRelayChannel(peer, Daemon, keys);
      return Completed(keys.channelId, Some(keys));
    }

    /** Reads frames until one decides the handshake; `used` counts the frames read. */
    method WaitForAccept(hello: Hello, frames: seq<Frame>) returns (outcome: Handshake, used: nat)
      modifies this
      ensures used <= |frames| && (forall k | 0 <= k < used - 1 :: SkippedByApp(frames[k]))
      ensures used > 0 && frames[used-1].AcceptFrame? ==>
                Taken(View(), outcome) == TakeAccept(old(View()), hello, frames[used-1].accept)
      ensures !(used > 0 && frames[used-1].AcceptFrame?) ==>
                && View() == old(View())
                && outcome == Failed(if used > 0 && frames[used-1].ErrorFrame? then RelayReturnedError
                                     else if used > 0 && frames[used-1].Unreadable? then UnreadableFrame
                                     else StreamEnded)
      ensures used == 0 || SkippedByApp(frames[used-1]) ==> used == |frames|
    {
      used := 0;
      while used < |frames|
        invariant used <= |frames| && (forall k | 0 <= k < used :: SkippedByApp(frames[k]))
        invariant View() == old(View()) && activeChannel == old(activeChannel)
      {
        var frame := frames[used];
        used := used + 1;
        match frame {
          case AcceptFrame(accept) =>
            outcome := CompleteHandshake(hello, accept);
            return;
          case ErrorFrame => return Failed(RelayReturnedError), used;
          case Unreadable => return Failed(UnreadableFrame), used;
          case _ => continue;
        }
      }
      return Failed(StreamEnded), used;
    }

    method SendAcceptForHello(hello: Hello, draw: Draw) returns (sent: Option<Accept>, outcome: Handshake)
      modifies this
      ensures Answered(View(), sent, outcome) == AnswerHello(old(View()), hello, draw)
    {
      if !hello.Validates() { return None, Failed(InvalidFrame); }
      if peer != Daemon { return None, Failed(NotTheDaemon); }
      if crypto.Some? && !hello.SignedBy(crypto.value.remoteIdentity) { return None, Failed(BadSignature); }
      var key := if crypto.Some? then PublicKeyOf(draw.secret) else PLACEHOLDER_KEY;
      var input := AcceptInput(Daemon, hello.input.from, hello.id, connectionId, key, draw.expiresAt);
      var signature := if crypto.Some? then SignedAccept(crypto.value.identity, input) else Unsigned;
      var accept := Accept(draw.id, input, signature, draw.wellFormed);
      if !accept.Validates() { return None, Failed(InvalidFrame); }
      sent := Some(accept);
      if crypto.None? { return sent, Completed(Derived(Transcript(hello.input, input)), None); }
      if !hello.input.ephemeralKey.PublicKeyOf? { return sent, Failed(BadEphemeralKey); }
      var keys := DeriveSessionKeys(Agree(draw.secret, hello.input.ephemeralKey.secret),
                                    Transcript(hello.input, input));
      activeChannel := new ActiveRelayChannel(peer, hello.input.from, keys);
      return sent, Completed(keys.channelId, Some(keys));
    }

    method SendEncryptedJson(value: Value, wellFormed: bool) returns (r: Sending)
      modifies activeChannel
      ensures View() == AfterSend(old(View()), value, wellFormed)
      ensures r == SendResult(old(View()), value, wellFormed)
    {
      if activeChannel == null { return NotSent; }
      r := activeChannel.EncryptJson(value, wellFormed);
    }

    /** None when there is no active channel. */
    method DecryptEnvelopeJson(e: Envelope) returns (r: Option<Receiving>)
      modifies activeChannel
      ensures View() == AfterReceive(old(View()), e)
      ensures r == ReceiveResult(old(View()), e)
    {
      if activeChannel == null { return None; }
      var received := activeChannel.DecryptJson(e);
      return Some(received);
    }
  }

  /** The frames that `wait_for_accept` reads past. */
  predicate SkippedByApp(frame: Frame) {
    frame.ReadyFrame? || frame.HelloFrame? || frame.EnvelopeFrame?
  }

  function AfterSend(s: Client, value: Value, wellFormed: bool): Client {
    if s.active.Some? then s.(active := Some(AfterSending(s.active.value, value, wellFormed))) else s
  }

  function SendResult(s: Client, value: Value, wellFormed: bool): Sending {
    if s.active.Some? then Emitted(s.active.value, value, wellFormed) else NotSent
  }

  function AfterReceive(s: Client, e: Envelope): Client {
    if s.active.Some? then s.(active := Some(AfterReceiving(s.active.value, e))) else s
  }

  function ReceiveResult(s: Client, e: Envelope): Option<Receiving> {
    if s.active.Some? then Some(Received(s.active.value, e)) else None
  }

  // ----- Nobody else's frames -----

  /** A hello of an app to the daemon that this identity signed. */
  predicate HelloFrom(identity: int, hello: Hello) {
    && hello.wellFormed && hello.input.from.App? && hello.input.to == Daemon
    && hello.signature == SignedHello(identity, hello.input)
  }

  /** An accept of the daemon to an app that this identity signed. */
  predicate AcceptFrom(identity: int, accept: Accept) {
    && accept.wellFormed && accept.input.from == Daemon && accept.input.to.App?
    && accept.signature == SignedAccept(identity, accept.input)
  }

  /** With a crypto configuration the daemon answers exactly the hellos that the configured remote
      identity signed; it then sends an accept for that hello, signed by itself over a fresh key.
      The handshake completes if the hello's key can be read, and the channel that becomes active
      is the one of this hello and this accept. Otherwise the client does not change. */
  lemma AnswersNeedASignature(s: Client, hello: Hello, draw: Draw)
    requires s.crypto.Some?
    ensures var a := AnswerHello(s, hello, draw);
            var input := AcceptInput(Daemon, hello.input.from, hello.id, s.connectionId, PublicKeyOf(draw.secret),
                                     draw.expiresAt);
            && (a.sent.Some? <==>
                s.peer == Daemon && HelloFrom(s.crypto.value.remoteIdentity, hello) && draw.wellFormed)
            && (a.sent.Some? ==>
                  a.sent.value == Accept(draw.id, input, SignedAccept(s.crypto.value.identity, input), true))
            && (a.outcome.Completed? <==> a.sent.Some? && hello.input.ephemeralKey.PublicKeyOf?)
            && (a.outcome.Completed? ==>
                  var keys := DeriveSessionKeys(Agree(draw.secret, hello.input.ephemeralKey.secret),
                                                Transcript(hello.input, input));
                  && a.outcome == Completed(keys.channelId, Some(keys))
                  && a.client == s.(active := Some(Opened(Daemon, hello.input.from, keys))))
            && (a.outcome.Failed? ==> a.client == s)
  {
  }

  /** With a crypto configuration a handshake completes on exactly those accepts for the hello that
      the configured remote identity signed, while the secret behind the hello is held; the channel
      that becomes active is the one of this hello and this accept. An accept for another hello, or
      one that this identity did not sign, does not change the client; any other failure only uses
      up the secret. */
  lemma CompletionsNeedASignature(s: Client, hello: Hello, accept: Accept)
    requires s.crypto.Some?
    ensures var t := TakeAccept(s, hello, accept);
            var signed := accept.input.helloId == hello.id && AcceptFrom(s.crypto.value.remoteIdentity, accept);
            && (t.outcome.Completed? <==>
                && signed && s.pendingSecret.Some? && accept.input.ephemeralKey.PublicKeyOf?
                && hello.wellFormed && hello.input.from.App? && hello.input.to == Daemon)
            && (t.outcome.Completed? ==>
                  var keys := DeriveSessionKeys(Agree(s.pendingSecret.value, accept.input.ephemeralKey.secret),
                                                Transcript(hello.input, accept.input));
                  && t.outcome == Completed(keys.channelId, Some(keys))
                  && t.client == s.(pendingSecret := None, active := Some(Opened(s.peer, Daemon, keys))))
            && (!signed ==> t.client == s)
            && (signed && t.outcome.Failed? ==> t.client == s.(pendingSecret := None))
  {
  }

  /** What an app with a crypto configuration sends: a hello under its own connection id, over a
      fresh key, signed by itself; its secret replaces the pending one. */
  lemma HellosAreSigned(s: Client, draw: Draw)
    requires s.crypto.Some?
    ensures var hello := HelloFor(s, draw);
            && (hello.Validates() <==> HelloFrom(s.crypto.value.identity, hello))
            && (hello.Validates() <==> s.peer.App? && draw.wellFormed)
            && hello.id == draw.id
            && hello.input == HelloInput(s.peer, Daemon, s.connectionId, PublicKeyOf(draw.secret), draw.expiresAt)
            && AfterHello(s, draw) == if hello.Validates() then s.(pendingSecret := Some(draw.secret)) else s
  {
  }

  /** Without a crypto configuration no channel is ever activated: an answer or a well-formed accept
      for the hello completes the handshake with nothing but the channel id of its transcript. */
  lemma NoKeysWithoutCrypto(s: Client, hello: Hello, accept: Accept, draw: Draw)
    requires s.crypto.None?
    ensures AfterHello(s, draw) == s
    ensures var a := AnswerHello(s, hello, draw);
            && a.client == s
            && (a.sent.Some? <==> s.peer == Daemon && hello.wellFormed && hello.input.from.App?
                                  && hello.input.to == Daemon && draw.wellFormed)
            && (a.outcome.Completed? <==> a.sent.Some?)
            && (a.sent.Some? ==>
                  && a.sent.value.input.to == hello.input.from && a.sent.value.input.helloId == hello.id
                  && a.outcome == Completed(Derived(Transcript(hello.input, a.sent.value.input)), None))
    ensures var t := TakeAccept(s, hello, accept);
            && t.client == s
            && (t.outcome.Completed? <==>
                && accept.input.helloId == hello.id && hello.wellFormed && accept.wellFormed
                && hello.input.from.App? && hello.input.to == Daemon
                && accept.input.from == Daemon && accept.input.to.App?)
            && (t.outcome.Completed? ==>
                  t.outcome == Completed(Derived(Transcript(hello.input, accept.input)), None))
  {
  }

  // ----- Agreement -----

  /** The handshake agrees exactly when the daemon answered the hello that the app waits on
      and the app still holds the secret behind that hello: then, and only then, do the two
      ends hold the same channel id and each other's keys. */
  lemma HandshakeAgreement(app: Client, hello: Hello, daemon: Client, answered: Hello, draw: Draw)
    requires app.peer.App? && app.crypto.Some? && hello.input.from == app.peer
    requires var a := AnswerHello(daemon, answered, draw);
             a.outcome.Completed? && a.outcome.keys.Some?
             && TakeAccept(app, hello, a.sent.value).outcome.Completed?
    ensures var a := AnswerHello(daemon, answered, draw);
            var appEnd, daemonEnd := TakeAccept(app, hello, a.sent.value).client.active.value, a.client.active.value;
            && (appEnd.channelId == daemonEnd.channelId <==> hello.input == answered.input)
            && (appEnd.outboundKey == daemonEnd.inboundKey && appEnd.inboundKey == daemonEnd.outboundKey
                <==> hello.input == answered.input
                     && PublicKeyOf(app.pendingSecret.value) == hello.input.ephemeralKey)
            && (hello.input == answered.input ==>
                  appEnd.localPeer == daemonEnd.remotePeer && appEnd.remotePeer == daemonEnd.localPeer)
  {
    var a := AnswerHello(daemon, answered, draw);
    assert Transcript(hello.input, a.sent.value.input) == Transcript(answered.input, a.sent.value.input)
      <==> hello.input == answered.input;
    AgreeIsInjective(draw.secret, answered.input.ephemeralKey.secret, app.pendingSecret.value);
  }

  lemma AgreeIsInjective(mine: int, theirs: int, other: int)
    ensures Agree(mine, theirs) == Agree(other, mine) <==> theirs == other
  {
  }

  /** When the app builds a hello, the daemon answers it, and the app takes the answer, both
      succeed, the two ends are paired in both directions, each seals under the key of its own
      direction, and both are at the start. */
  lemma HandshakePairsTheEnds(app: Client, appDraw: Draw, daemon: Client, draw: Draw)
    requires app.peer.App? && daemon.peer == Daemon && app.crypto.Some? && daemon.crypto.Some?
    requires app.crypto.value.remoteIdentity == daemon.crypto.value.identity
    requires daemon.crypto.value.remoteIdentity == app.crypto.value.identity
    requires appDraw.wellFormed && draw.wellFormed
    ensures var hello := HelloFor(app, appDraw);
            var a := AnswerHello(daemon, hello, draw);
            && a.outcome.Completed? && a.outcome.keys.Some?
            && var t := TakeAccept(AfterHello(app, appDraw), hello, a.sent.value);
               && t.outcome == a.outcome && t.client.pendingSecret == None
               && t.client.active == Some(Opened(app.peer, Daemon, a.outcome.keys.value))
               && a.client.active == Some(Opened(Daemon, app.peer, a.outcome.keys.value))
               && Paired(t.client.active.value, a.client.active.value)
               && Paired(a.client.active.value, t.client.active.value)
               && t.client.active.value.outboundKey.toDaemon && !a.client.active.value.outboundKey.toDaemon
  {
    AgreeIsInjective(draw.secret, appDraw.secret, appDraw.secret);
  }
}
