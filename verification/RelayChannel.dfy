/**
 One end of a secure relay channel: crossed keys, an outbound counter and an inbound
 high-water mark (`ActiveRelayChannel` in daemon/core/src/relay_client.rs).
 */
module RelayChannel {
  import opened Integers
  import opened RelayCrypto

  /** `wellFormed` stands for the format checks of `RelayEnvelope::validate` other than the
      one on the sequence number. */
  datatype Envelope = Envelope(
    wellFormed: bool, from: PeerId, to: PeerId, channelId: ChannelId, seqNo: u64, ciphertext: Ciphertext)
  {
    predicate Validates() { wellFormed && seqNo != 0 }
  }

  datatype ChannelError =
    | InvalidEnvelope | InvalidPeerPair | UnknownChannel | SeqReplay | AadAuthFailed | InvalidPlaintextJson

  datatype Sending = Sent(envelope: Envelope) | NotSent

  datatype Receiving = Plain(value: Value) | Rejected(error: ChannelError)

  datatype Channel = Channel(
    localPeer: PeerId,
    remotePeer: PeerId,
    channelId: ChannelId,
    outboundKey: SessionKey,
    inboundKey: SessionKey,
    nextOutboundSeq: u64,
    maxInboundSeq: u64)

  function Opened(localPeer: PeerId, remotePeer: PeerId, keys: SessionKeys): Channel {
    var daemonSide := localPeer == Daemon;
    Channel(localPeer, remotePeer, keys.channelId,
            if daemonSide then keys.daemonToApp else keys.appToDaemon,
            if daemonSide then keys.appToDaemon else keys.daemonToApp,
            1, 0)
  }

  function EnvelopeFor(ch: Channel, value: Value, wellFormed: bool): Envelope {
    Envelope(wellFormed, ch.localPeer, ch.remotePeer, ch.channelId, ch.nextOutboundSeq,
             Sealed(ch.outboundKey, ch.localPeer, ch.remotePeer, ch.channelId, ch.nextOutboundSeq, Json(value)))
  }

  /** The counter moves only when the built envelope validates. */
  function AfterSending(ch: Channel, value: Value, wellFormed: bool): Channel {
    if EnvelopeFor(ch, value, wellFormed).Validates()
    then ch.(nextOutboundSeq := SaturatingIncrement(ch.nextOutboundSeq)) else ch
  }

  function Emitted(ch: Channel, value: Value, wellFormed: bool): Sending {
    if EnvelopeFor(ch, value, wellFormed).Validates() then Sent(EnvelopeFor(ch, value, wellFormed)) else NotSent
  }

  /** The checks of `decrypt_json`, in their order. */
  function Received(ch: Channel, e: Envelope): Receiving {
    if !e.Validates() then Rejected(InvalidEnvelope)
    else if e.from != ch.remotePeer || e.to != ch.localPeer then Rejected(InvalidPeerPair)
    else if e.channelId != ch.channelId then Rejected(UnknownChannel)
    else if e.seqNo <= ch.maxInboundSeq then Rejected(SeqReplay)
    else
      var plaintext := Decrypt(ch.inboundKey, e.from, e.to, e.channelId, e.seqNo, e.ciphertext);
      if plaintext.None? then Rejected(AadAuthFailed)
      else if plaintext.value.NotJson? then Rejected(InvalidPlaintextJson)
      else Plain(plaintext.value.value)
  }

  function AfterReceiving(ch: Channel, e: Envelope): Channel {
    if Received(ch, e).Plain? then ch.(maxInboundSeq := e.seqNo) else ch
  }

  class ActiveRelayChannel {
    const localPeer: PeerId
    const remotePeer: PeerId
    const channelId: ChannelId
    const outboundKey: SessionKey
    const inboundKey: SessionKey
    var nextOutboundSeq: u64
    var maxInboundSeq: u64

    function View(): Channel
      reads this
    {
      Channel(localPeer, remotePeer, channelId, outboundKey, inboundKey, nextOutboundSeq, maxInboundSeq)
    }

    constructor (localPeer: PeerId, remotePeer: PeerId, keys: SessionKeys)
      ensures View() == Opened(localPeer, remotePeer, keys)
    {
      this.localPeer, this.remotePeer, channelId := localPeer, remotePeer, keys.channelId;
      if localPeer == Daemon {
        outboundKey, inboundKey := keys.daemonToApp, keys.appToDaemon;
      } else {
        outboundKey, inboundKey := keys.appToDaemon, keys.daemonToApp;
      }
      nextOutboundSeq, maxInboundSeq := 1, 0;
    }

    method EncryptJson(value: Value, wellFormed: bool) returns (r: Sending)
      modifies this
      ensures r == Emitted(old(View()), value, wellFormed)
      ensures View() == AfterSending(old(View()), value, wellFormed)
    {
      var seqNo := nextOutboundSeq;
      var ciphertext := Sealed(outboundKey, localPeer, remotePeer, channelId, seqNo, Json(value));
      var envelope := Envelope(wellFormed, localPeer, remotePeer, channelId, seqNo, ciphertext);
      if !envelope.Validates() { return NotSent; }
      nextOutboundSeq := SaturatingIncrement(nextOutboundSeq);
      return Sent(envelope);
    }

    method DecryptJson(e: Envelope) returns (r: Receiving)
      modifies this
      ensures r == Received(old(View()), e)
      ensures View() == AfterReceiving(old(View()), e)
    {
      if !e.Validates() { return Rejected(InvalidEnvelope); }
      if e.from != remotePeer || e.to != localPeer { return Rejected(InvalidPeerPair); }
      if e.channelId != channelId { return Rejected(UnknownChannel); }
      if e.seqNo <= maxInboundSeq { return Rejected(SeqReplay); }
      var plaintext := Decrypt(inboundKey, e.from, e.to, e.channelId, e.seqNo, e.ciphertext);
      if plaintext.None? { return Rejected(AadAuthFailed); }
      if plaintext.value.NotJson? { return Rejected(InvalidPlaintextJson); }
      maxInboundSeq := e.seqNo;
      return Plain(plaintext.value.value);
    }
  }

  // ----- Runs of one end -----

  /** The sequence number of emission number `i`, counted from 0. */
  function SeqOf(i: nat): u64 {
    if i < U64_MAX as int then (i + 1) as u64 else U64_MAX
  }

  /** The envelopes that sending these values emits, when they are well formed. */
  function EmitAll(ch: Channel, values: seq<Value>): seq<Envelope>
    decreases |values|
  {
    if values == [] then []
    else [EnvelopeFor(ch, values[0], true)] + EmitAll(AfterSending(ch, values[0], true), values[1..])
  }

  function AfterAll(ch: Channel, envelopes: seq<Envelope>): Channel
    decreases |envelopes|
  {
    if envelopes == [] then ch else AfterAll(AfterReceiving(ch, envelopes[0]), envelopes[1..])
  }

  /** The values that these envelopes, received in this order, deliver. */
  function Deliveries(ch: Channel, envelopes: seq<Envelope>): seq<Value>
    decreases |envelopes|
  {
    if envelopes == [] then []
    else
      (if Received(ch, envelopes[0]).Plain? then [Received(ch, envelopes[0]).value] else []) +
      Deliveries(AfterReceiving(ch, envelopes[0]), envelopes[1..])
  }

  function Accepted(ch: Channel, envelopes: seq<Envelope>): seq<Envelope>
    decreases |envelopes|
  {
    if envelopes == [] then []
    else
      (if Received(ch, envelopes[0]).Plain? then [envelopes[0]] else []) +
      Accepted(AfterReceiving(ch, envelopes[0]), envelopes[1..])
  }

  /** A rejected envelope leaves no trace: without the rejected ones, a run delivers the same
      values and ends in the same state, and nothing is rejected. */
  lemma {:induction false} RejectedEnvelopesLeaveNoTrace(ch: Channel, envelopes: seq<Envelope>)
    ensures var kept := Accepted(ch, envelopes);
            && Deliveries(ch, kept) == Deliveries(ch, envelopes)
            && AfterAll(ch, kept) == AfterAll(ch, envelopes)
            && Accepted(ch, kept) == kept
            && |Deliveries(ch, kept)| == |kept|
    decreases |envelopes|
  {
    if envelopes != [] {
      var e, rest := envelopes[0], envelopes[1..];
      RejectedEnvelopesLeaveNoTrace(AfterReceiving(ch, e), rest);
      var keptRest := Accepted(AfterReceiving(ch, e), rest);
      hide Received, AfterReceiving;
      if Received(ch, e).Plain? {
        assert ([e] + keptRest)[1..] == keptRest;
      } else {
        assert AfterReceiving(ch, e) == ch by { RejectedChangesNothing(ch, e); }
        assert [] + keptRest == keptRest;
      }
    }
  }

  lemma RejectedChangesNothing(ch: Channel, e: Envelope)
    ensures Received(ch, e).Rejected? ==> AfterReceiving(ch, e) == ch
  {
  }

  /** The two ends of one channel: keys and peers are crossed. */
  ghost predicate Paired(sender: Channel, receiver: Channel) {
    && sender.outboundKey == receiver.inboundKey
    && sender.localPeer == receiver.remotePeer && sender.remotePeer == receiver.localPeer
    && sender.channelId == receiver.channelId
  }

  /** A channel delivers a value exactly from the envelope that the other end would emit for it,
      under a number above every one delivered before. */
  lemma AcceptsWhatThePeerEmits(sender: Channel, receiver: Channel, e: Envelope, value: Value)
    requires Paired(sender, receiver)
    ensures Received(receiver, e) == Plain(value) <==>
            && e.seqNo > receiver.maxInboundSeq
            && e == Envelope(true, sender.localPeer, sender.remotePeer, sender.channelId, e.seqNo,
                             Sealed(sender.outboundKey, sender.localPeer, sender.remotePeer, sender.channelId,
                                    e.seqNo, Json(value)))
    ensures Received(receiver, e) == Plain(value) ==> AfterReceiving(receiver, e) == receiver.(maxInboundSeq := e.seqNo)
  {
  }

  /** What a rejection says, in the order of the checks. */
  lemma RejectionsSayWhy(ch: Channel, e: Envelope)
    ensures var bound := Decrypt(ch.inboundKey, e.from, e.to, e.channelId, e.seqNo, e.ciphertext);
            match Received(ch, e)
            case Plain(_) => true
            case Rejected(error) =>
              error == if !e.wellFormed || e.seqNo == 0 then InvalidEnvelope
                       else if (e.from, e.to) != (ch.remotePeer, ch.localPeer) then InvalidPeerPair
                       else if e.channelId != ch.channelId then UnknownChannel
                       else if e.seqNo <= ch.maxInboundSeq then SeqReplay
                       else if bound.None? then AadAuthFailed
                       else InvalidPlaintextJson
  {
  }

  /** A value is sent exactly when its envelope is well formed; otherwise no number is used up. */
  lemma SendingUsesOneNumber(ch: Channel, value: Value, wellFormed: bool)
    requires ch.nextOutboundSeq != 0
    ensures Emitted(ch, value, wellFormed).Sent? <==> wellFormed
    ensures wellFormed ==>
              && Emitted(ch, value, wellFormed).envelope.seqNo == ch.nextOutboundSeq
              && AfterSending(ch, value, wellFormed) ==
                 ch.(nextOutboundSeq := if ch.nextOutboundSeq == 0xFFFF_FFFF_FFFF_FFFF then ch.nextOutboundSeq
                                        else ch.nextOutboundSeq + 1)
    ensures !wellFormed ==> AfterSending(ch, value, wellFormed) == ch
  {
  }

  /** The two ends are connected and `n` values have crossed. */
  ghost predicate InStep(sender: Channel, receiver: Channel, n: nat)
    requires n <= U64_MAX as int
  {
    && Paired(sender, receiver)
    && sender.nextOutboundSeq == SeqOf(n) && receiver.maxInboundSeq as int == n
  }

  lemma OneValueCrosses(sender: Channel, receiver: Channel, n: nat, value: Value)
    requires n < U64_MAX as int && InStep(sender, receiver, n)
    ensures var e := EnvelopeFor(sender, value, true);
            && Received(receiver, e) == Plain(value)
            && InStep(AfterSending(sender, value, true), AfterReceiving(receiver, e), n + 1)
  {
  }

  lemma SaturatedCounterIsRejected(sender: Channel, receiver: Channel, value: Value)
    requires InStep(sender, receiver, U64_MAX as int)
    ensures var e := EnvelopeFor(sender, value, true);
            && Received(receiver, e) == Rejected(SeqReplay)
            && InStep(AfterSending(sender, value, true), AfterReceiving(receiver, e), U64_MAX as int)
  {
  }

  /** On a lossless in-order network everything sent is delivered, as long as the channel
      emits no more than 2^64-1 envelopes; the counter then saturates and the rest is lost. */
  lemma {:induction false} LosslessInOrder(sender: Channel, receiver: Channel, n: nat, values: seq<Value>)
    requires n <= U64_MAX as int && InStep(sender, receiver, n)
    ensures var room := U64_MAX as int - n;
            Deliveries(receiver, EmitAll(sender, values)) == if |values| <= room then values else values[..room]
    decreases |values|
  {
    hide InStep, EnvelopeFor, Received, AfterSending, AfterReceiving;
    if values != [] {
      var e, rest := EnvelopeFor(sender, values[0], true), values[1..];
      var sender', receiver' := AfterSending(sender, values[0], true), AfterReceiving(receiver, e);
      assert EmitAll(sender, values)[0] == e && EmitAll(sender, values)[1..] == EmitAll(sender', rest);
      if n < U64_MAX as int {
        OneValueCrosses(sender, receiver, n, values[0]);
        LosslessInOrder(sender', receiver', n + 1, rest);
        var room := U64_MAX as int - n;
        if |values| > room { assert values[..room] == [values[0]] + rest[..room-1]; }
      } else {
        SaturatedCounterIsRejected(sender, receiver, values[0]);
        LosslessInOrder(sender', receiver', n, rest);
        assert [] + Deliveries(receiver', EmitAll(sender', rest)) == [];
      }
    }
  }
}
