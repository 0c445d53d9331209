/**
 A secure channel between an app and a daemon over a network that drops, duplicates,
 reorders and injects envelopes.
 */
module RelayLink {
  import opened Integers
  import opened RelayCrypto
  import opened RelayChannel
  import opened Sequences

  datatype Delivery = Delivery(seqNo: u64, value: Value)

  /** Both ends, everything that was ever encrypted, and what was sent and delivered. */
  datatype Link = Link(
    app: Channel,
    daemon: Channel,
    wire: set<Ciphertext>,
    sentByApp: seq<Value>,
    sentByDaemon: seq<Value>,
    gotByApp: seq<Delivery>,
    gotByDaemon: seq<Delivery>)

  datatype Event =
    | AppSends(value: Value, wellFormed: bool)
    | DaemonSends(value: Value, wellFormed: bool)
    | AppReceives(envelope: Envelope)
    | DaemonReceives(envelope: Envelope)

  /** The network may deliver any envelope, with any header, whose ciphertext was encrypted
      by an end of this channel or is not under its keys. */
  predicate Possible(l: Link, e: Event) {
    (e.AppReceives? || e.DaemonReceives?) && e.envelope.ciphertext.Sealed?
    && e.envelope.ciphertext.key in {l.app.outboundKey, l.app.inboundKey}
    ==> e.envelope.ciphertext in l.wire
  }

  function Heard(ch: Channel, e: Envelope, got: seq<Delivery>): seq<Delivery> {
    if Received(ch, e).Plain? then got + [Delivery(e.seqNo, Received(ch, e).value)] else got
  }

  function Step(l: Link, e: Event): Link {
    match e
    case AppSends(value, wellFormed) =>
      if Emitted(l.app, value, wellFormed).Sent? then
        l.(app := AfterSending(l.app, value, wellFormed), sentByApp := l.sentByApp + [value],
           wire := l.wire + {EnvelopeFor(l.app, value, wellFormed).ciphertext})
      else l
    case DaemonSends(value, wellFormed) =>
      if Emitted(l.daemon, value, wellFormed).Sent? then
        l.(daemon := AfterSending(l.daemon, value, wellFormed), sentByDaemon := l.sentByDaemon + [value],
           wire := l.wire + {EnvelopeFor(l.daemon, value, wellFormed).ciphertext})
      else l
    case AppReceives(envelope) =>
      l.(app := AfterReceiving(l.app, envelope), gotByApp := Heard(l.app, envelope, l.gotByApp))
    case DaemonReceives(envelope) =>
      l.(daemon := AfterReceiving(l.daemon, envelope), gotByDaemon := Heard(l.daemon, envelope, l.gotByDaemon))
  }

  /** The link right after a handshake gave both ends the same session keys. */
  function Fresh(app: PeerId, keys: SessionKeys): Link {
    Link(Opened(app, Daemon, keys), Opened(Daemon, app, keys), {}, [], [], [], [])
  }

  function Run(start: Link, tr: seq<Event>): Link {
    if tr == [] then start else Step(Run(start, tr[..|tr|-1]), tr[|tr|-1])
  }

  ghost predicate PossibleRun(start: Link, tr: seq<Event>) {
    tr == [] || (PossibleRun(start, tr[..|tr|-1]) && Possible(Run(start, tr[..|tr|-1]), tr[|tr|-1]))
  }

  // ----- One direction -----

  /** Delivery `d` is emission number `i`. */
  predicate IsEmission(d: Delivery, sent: seq<Value>, i: nat) {
    i < |sent| && d == Delivery(SeqOf(i), sent[i])
  }

  ghost predicate WasEmitted(d: Delivery, sent: seq<Value>) {
    exists i: nat :: IsEmission(d, sent, i)
  }

  ghost predicate Honest(sender: Channel, wire: set<Ciphertext>, sent: seq<Value>) {
    && sender.nextOutboundSeq == SeqOf(|sent|)
    && (forall ct <- wire :: ct.Sealed? && ct.key == sender.outboundKey && ct.plaintext.Json? ==>
          WasEmitted(Delivery(ct.seqNo, ct.plaintext.value), sent))
    && (forall ct <- wire :: ct.Sealed?)
  }

  ghost predicate InOrder(receiver: Channel, sent: seq<Value>, got: seq<Delivery>) {
    && (forall j, k | 0 <= j < k < |got| :: got[j].seqNo < got[k].seqNo)
    && (forall j | 0 <= j < |got| :: got[j].seqNo <= receiver.maxInboundSeq)
    && (forall j | 0 <= j < |got| :: WasEmitted(got[j], sent))
  }

  lemma EmissionsStay(sent: seq<Value>, value: Value)
    ensures forall d :: WasEmitted(d, sent) ==> WasEmitted(d, sent + [value])
    ensures WasEmitted(Delivery(SeqOf(|sent|), value), sent + [value])
  {
    forall d | WasEmitted(d, sent) ensures WasEmitted(d, sent + [value]) {
      var i: nat :| IsEmission(d, sent, i);
      assert IsEmission(d, sent + [value], i);
    }
    assert IsEmission(Delivery(SeqOf(|sent|), value), sent + [value], |sent|);
  }

  lemma SendingStaysHonest(sender: Channel, wire: set<Ciphertext>, sent: seq<Value>, value: Value)
    requires Honest(sender, wire, sent)
    ensures Honest(AfterSending(sender, value, true),
                   wire + {EnvelopeFor(sender, value, true).ciphertext}, sent + [value])
  {
    EmissionsStay(sent, value);
    assert EnvelopeFor(sender, value, true).Validates();
    assert SaturatingIncrement(SeqOf(|sent|)) == SeqOf(|sent| + 1);
    hide WasEmitted;
  }

  lemma SendingKeepsOrder(receiver: Channel, sent: seq<Value>, got: seq<Delivery>, value: Value)
    requires InOrder(receiver, sent, got)
    ensures InOrder(receiver, sent + [value], got)
  {
    EmissionsStay(sent, value);
    hide WasEmitted;
  }

  lemma ReceivingKeepsOrder(
    sender: Channel, receiver: Channel, wire: set<Ciphertext>, sent: seq<Value>, got: seq<Delivery>, e: Envelope)
    requires Paired(sender, receiver) && Honest(sender, wire, sent) && InOrder(receiver, sent, got)
    requires e.ciphertext.Sealed? && e.ciphertext.key == sender.outboundKey ==> e.ciphertext in wire
    ensures InOrder(AfterReceiving(receiver, e), sent, Heard(receiver, e, got))
  {
    if Received(receiver, e).Plain? {
      assert e.seqNo > receiver.maxInboundSeq;
      assert e.ciphertext.seqNo == e.seqNo && e.ciphertext.plaintext == Json(Received(receiver, e).value);
      assert WasEmitted(Delivery(e.seqNo, Received(receiver, e).value), sent);
      var got' := Heard(receiver, e, got);
      forall j | 0 <= j < |got'|
        ensures got'[j].seqNo <= e.seqNo && WasEmitted(got'[j], sent)
      {
        if j < |got| { assert got'[j] == got[j]; }
      }
    }
  }

  /** Which emission a delivery is. */
  ghost function EmissionOf(d: Delivery, sent: seq<Value>): (i: nat)
    requires WasEmitted(d, sent)
    ensures IsEmission(d, sent, i)
  {
    var i: nat :| IsEmission(d, sent, i); i
  }

  function ValuesOf(got: seq<Delivery>): seq<Value> {
    seq(|got|, j requires 0 <= j < |got| => got[j].value)
  }

  lemma OrderedAreASubsequence(sent: seq<Value>, got: seq<Delivery>)
    requires forall j, k | 0 <= j < k < |got| :: got[j].seqNo < got[k].seqNo
    requires forall d <- got :: WasEmitted(d, sent)
    ensures Subsequence(ValuesOf(got), sent)
  {
    var idx := seq(|got|, j requires 0 <= j < |got| => EmissionOf(got[j], sent));
    forall j, k | 0 <= j < k < |idx| ensures idx[j] < idx[k] {
      assert SeqOf(idx[j]) < SeqOf(idx[k]);
    }
    assert Picks(idx, ValuesOf(got), sent);
  }

  lemma OrderedDeliveriesAreASubsequence(receiver: Channel, sent: seq<Value>, got: seq<Delivery>)
    requires InOrder(receiver, sent, got)
    ensures Subsequence(ValuesOf(got), sent)
  {
    hide WasEmitted, Subsequence;
    OrderedAreASubsequence(sent, got);
  }

  // ----- Both directions -----

  ghost predicate Good(l: Link) {
    && Paired(l.app, l.daemon) && Paired(l.daemon, l.app)
    && l.app.outboundKey != l.daemon.outboundKey
    && Honest(l.app, l.wire, l.sentByApp) && Honest(l.daemon, l.wire, l.sentByDaemon)
    && InOrder(l.daemon, l.sentByApp, l.gotByDaemon) && InOrder(l.app, l.sentByDaemon, l.gotByApp)
  }

  /** What the other end encrypts is not under this end's key. */
  lemma OtherSendingStaysHonest(sender: Channel, other: Channel, wire: set<Ciphertext>, sent: seq<Value>, value: Value)
    requires Honest(sender, wire, sent) && sender.outboundKey != other.outboundKey
    ensures Honest(sender, wire + {EnvelopeFor(other, value, true).ciphertext}, sent)
  {
  }

  lemma StepKeepsGood(l: Link, e: Event)
    requires Good(l) && Possible(l, e)
    ensures Good(Step(l, e))
  {
    hide Honest, InOrder, Received;
    match e
    case AppSends(value, wellFormed) =>
      if Emitted(l.app, value, wellFormed).Sent? {
        SendingStaysHonest(l.app, l.wire, l.sentByApp, value);
        OtherSendingStaysHonest(l.daemon, l.app, l.wire, l.sentByDaemon, value);
        SendingKeepsOrder(l.daemon, l.sentByApp, l.gotByDaemon, value);
        OrderIgnoresSending(l.app, value, l.sentByDaemon, l.gotByApp);
      }
    case DaemonSends(value, wellFormed) =>
      if Emitted(l.daemon, value, wellFormed).Sent? {
        SendingStaysHonest(l.daemon, l.wire, l.sentByDaemon, value);
        OtherSendingStaysHonest(l.app, l.daemon, l.wire, l.sentByApp, value);
        SendingKeepsOrder(l.app, l.sentByDaemon, l.gotByApp, value);
        OrderIgnoresSending(l.daemon, value, l.sentByApp, l.gotByDaemon);
      }
    case AppReceives(envelope) =>
      ReceivingKeepsOrder(l.daemon, l.app, l.wire, l.sentByDaemon, l.gotByApp, envelope);
      ReceivingStaysHonest(l.app, l.wire, l.sentByApp, envelope);
    case DaemonReceives(envelope) =>
      ReceivingKeepsOrder(l.app, l.daemon, l.wire, l.sentByApp, l.gotByDaemon, envelope);
      ReceivingStaysHonest(l.daemon, l.wire, l.sentByDaemon, envelope);
  }

  lemma OrderIgnoresSending(receiver: Channel, value: Value, sent: seq<Value>, got: seq<Delivery>)
    requires InOrder(receiver, sent, got)
    ensures InOrder(AfterSending(receiver, value, true), sent, got)
  {
  }

  lemma ReceivingStaysHonest(sender: Channel, wire: set<Ciphertext>, sent: seq<Value>, e: Envelope)
    requires Honest(sender, wire, sent)
    ensures Honest(AfterReceiving(sender, e), wire, sent)
  {
  }

  lemma RunKeepsGood(app: PeerId, keys: SessionKeys, tr: seq<Event>)
    requires app != Daemon && keys.appToDaemon != keys.daemonToApp
    requires PossibleRun(Fresh(app, keys), tr)
    ensures Good(Run(Fresh(app, keys), tr))
  {
    if tr != [] {
      hide Good, Step, Possible;
      RunKeepsGood(app, keys, tr[..|tr|-1]);
      StepKeepsGood(Run(Fresh(app, keys), tr[..|tr|-1]), tr[|tr|-1]);
    }
  }

  /** Whatever the network does, what one end delivers is an in-order subsequence of what
      the other end sent, each emission at most once. */
  lemma DeliveriesAreInOrder(app: PeerId, keys: SessionKeys, tr: seq<Event>)
    requires app != Daemon && keys.appToDaemon != keys.daemonToApp
    requires PossibleRun(Fresh(app, keys), tr)
    ensures var l := Run(Fresh(app, keys), tr);
            && Subsequence(ValuesOf(l.gotByDaemon), l.sentByApp)
            && Subsequence(ValuesOf(l.gotByApp), l.sentByDaemon)
  {
    hide Run, Step, PossibleRun, Honest, InOrder, Subsequence;
    RunKeepsGood(app, keys, tr);
    var l := Run(Fresh(app, keys), tr);
    OrderedDeliveriesAreASubsequence(l.daemon, l.sentByApp, l.gotByDaemon);
    OrderedDeliveriesAreASubsequence(l.app, l.sentByDaemon, l.gotByApp);
  }
}
