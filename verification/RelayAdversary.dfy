/**
 An app and a daemon that know each other's identities, against a network that may do anything
 but sign for them, or encrypt under a secret that the two of them share.
 */
module RelayAdversary {
  import opened Integers
  import opened Wrappers
  import opened Sequences
  import opened RelayCrypto
  import opened RelayChannel
  import opened RelayClient
  import opened RelayClientRuns
  import opened RelaySessions
  import RelayLink

  /** Both ends, and what each has signed. */
  datatype Arena = Arena(net: Net, hellos: set<HelloInput>, accepts: set<AcceptInput>)

  function SignedByApp(w: World, e: Event): set<HelloInput> {
    if e.Build? && w.client.crypto.Some? && HelloFor(w.client, e.draw).Validates()
    then {HelloFor(w.client, e.draw).input} else {}
  }

  function SignedByDaemon(w: World, e: Event): set<AcceptInput> {
    if e.Answer? && w.client.crypto.Some? && AnswerHello(w.client, e.hello, e.draw).sent.Some?
    then {AnswerHello(w.client, e.hello, e.draw).sent.value.input} else {}
  }

  function ArenaStep(a: Arena, e: NetEvent): Arena {
    match e
    case ByApp(x) => Arena(NetStep(a.net, e), a.hellos + SignedByApp(a.net.app, x), a.accepts)
    case ByDaemon(x) => Arena(NetStep(a.net, e), a.hellos, a.accepts + SignedByDaemon(a.net.daemon, x))
  }

  /** A shared secret between an ephemeral secret of the app and one of the daemon. */
  ghost predicate BetweenThem(shared: SharedSecret, n: Net) {
    exists x, y :: x in n.app.drawn && y in n.daemon.drawn && shared == Agree(x, y)
  }

  /** What the network can make: no ciphertext under a key that only the two ends can derive, and
      no signature of either identity over anything that end has not signed. */
  ghost predicate CanMake(a: Arena, e: Event, app: int, daemon: int) {
    && (e.Receive? && e.envelope.ciphertext.Sealed? && BetweenThem(e.envelope.ciphertext.key.shared, a.net) ==>
          OnTheWire(e.envelope.ciphertext, a.net.app.emitted) || OnTheWire(e.envelope.ciphertext, a.net.daemon.emitted))
    && (e.Take? && e.accept.signature.SignedAccept? && e.accept.signature.identity == daemon ==>
          e.accept.signature.accept in a.accepts)
    && (e.Answer? && e.hello.signature.SignedHello? && e.hello.signature.identity == app ==>
          e.hello.signature.hello in a.hellos)
  }

  ghost predicate Allowed(a: Arena, e: NetEvent, app: int, daemon: int) {
    match e
    case ByApp(x) => FreshDraw(a.net.app, x) && CanMake(a, x, app, daemon)
    case ByDaemon(x) => FreshDraw(a.net.daemon, x) && CanMake(a, x, app, daemon)
  }

  function ArenaRun(start: Arena, tr: seq<NetEvent>): Arena {
    if tr == [] then start else ArenaStep(ArenaRun(start, tr[..|tr|-1]), tr[|tr|-1])
  }

  ghost predicate AllowedRun(start: Arena, tr: seq<NetEvent>, app: int, daemon: int) {
    tr == [] ||
    (AllowedRun(start, tr[..|tr|-1], app, daemon) && Allowed(ArenaRun(start, tr[..|tr|-1]), tr[|tr|-1], app, daemon))
  }

  /** Each end is configured with its own identity and the other's. */
  function ArenaStart(peer: PeerId, app: int, daemon: int, appConnection: string, daemonConnection: string): Arena {
    Arena(NetStart(peer, appConnection, Some(Crypto(app, daemon)), daemonConnection, Some(Crypto(daemon, app))), {}, {})
  }

  // ----- What every step keeps -----

  ghost predicate Configured(n: Net, app: int, daemon: int) {
    && n.app.client.peer.App? && n.daemon.client.peer == Daemon
    && n.app.client.crypto == Some(Crypto(app, daemon)) && n.daemon.client.crypto == Some(Crypto(daemon, app))
  }

  /** What was signed names a key whose secret the signer drew. */
  ghost predicate OwnKeys(a: Arena) {
    && (forall h <- a.hellos :: h.ephemeralKey.PublicKeyOf? && h.ephemeralKey.secret in a.net.app.drawn)
    && (forall x <- a.accepts :: x.ephemeralKey.PublicKeyOf? && x.ephemeralKey.secret in a.net.daemon.drawn)
  }

  /** Every channel comes from a transcript whose other half the other end signed. */
  ghost predicate SignedTranscripts(a: Arena) {
    && (forall id <- a.net.app.activated :: id.Derived? && id.transcript.accept in a.accepts)
    && (forall id <- a.net.daemon.activated :: id.Derived? && id.transcript.hello in a.hellos)
  }

  ghost predicate SharedKeys(n: Net) {
    && (n.app.client.active.Some? ==> BetweenThem(n.app.client.active.value.inboundKey.shared, n))
    && (n.daemon.client.active.Some? ==> BetweenThem(n.daemon.client.active.value.inboundKey.shared, n))
  }

  ghost predicate Secure(a: Arena, app: int, daemon: int) {
    && RelaySessions.Sound(a.net) && Configured(a.net, app, daemon)
    && OwnKeys(a) && SignedTranscripts(a) && SharedKeys(a.net)
  }

  lemma AllowedIsPossible(a: Arena, e: NetEvent, app: int, daemon: int)
    requires Secure(a, app, daemon) && Allowed(a, e, app, daemon)
    ensures PossibleEvent(a.net, e)
  {
    hide BetweenThem, OnTheWire, OwnKeys, SignedTranscripts, Configured, RelaySessions.Sound;
  }

  /** How a step may change an end: its channel keeps its keys, or it completes a handshake. */
  ghost predicate KeepsChannel(w: World, w': World) {
    && w'.activated == w.activated && w.drawn <= w'.drawn
    && w'.client.peer == w.client.peer && w'.client.crypto == w.client.crypto
    && (w'.client.active.Some? <==> w.client.active.Some?)
    && (w.client.active.Some? ==> w'.client.active.value.inboundKey == w.client.active.value.inboundKey)
  }

  ghost predicate Opens(w: World, w': World, shared: SharedSecret, transcript: Transcript) {
    && w'.activated == w.activated + [Derived(transcript)] && w.drawn <= w'.drawn
    && w'.client.peer == w.client.peer && w'.client.crypto == w.client.crypto
    && w'.client.active.Some? && w'.client.active.value.inboundKey.shared == shared
  }

  lemma TrafficKeepsChannel(w: World, e: Event)
    requires e.Build? || e.Send? || e.Receive?
    ensures KeepsChannel(w, Step(w, e))
  {
    hide Received;
  }

  lemma TakeOpens(w: World, accept: Accept)
    requires Good(w) && w.client.crypto.Some?
    ensures var w' := Step(w, Take(accept));
            || KeepsChannel(w, w')
            || (&& w.latest.Some? && w.client.pendingSecret.Some? && w.client.pendingSecret.value in w.drawn
                && AcceptFrom(w.client.crypto.value.remoteIdentity, accept)
                && accept.input.ephemeralKey.PublicKeyOf?
                && Opens(w, w', Agree(w.client.pendingSecret.value, accept.input.ephemeralKey.secret),
                         Transcript(w.latest.value.input, accept.input)))
  {
    if w.latest.Some? {
      CompletionsNeedASignature(w.client, w.latest.value, accept);
      if w.client.pendingSecret.Some? { PendingFacts(w); }
      assert w.activated + [] == w.activated;
    }
    hide Good, TakeAccept, AcceptFrom;
  }

  lemma AnswerOpens(w: World, hello: Hello, draw: Draw)
    requires w.client.crypto.Some?
    ensures var w' := Step(w, Answer(hello, draw));
            || KeepsChannel(w, w')
            || (&& HelloFrom(w.client.crypto.value.remoteIdentity, hello) && draw.secret in w'.drawn
                && hello.input.ephemeralKey.PublicKeyOf?
                && exists accept :: Opens(w, w', Agree(draw.secret, hello.input.ephemeralKey.secret),
                                          Transcript(hello.input, accept)))
  {
    AnswersNeedASignature(w.client, hello, draw);
    assert w.activated + [] == w.activated;
    var a := AnswerHello(w.client, hello, draw);
    hide AnswerHello, HelloFrom;
    if a.outcome.Completed? {
      assert Opens(w, Step(w, Answer(hello, draw)), Agree(draw.secret, hello.input.ephemeralKey.secret),
                   Transcript(hello.input, a.sent.value.input));
    }
  }

  lemma OnlyDaemonsAnswer(w: World, hello: Hello, draw: Draw)
    requires w.client.crypto.Some? && w.client.peer.App?
    ensures KeepsChannel(w, Step(w, Answer(hello, draw)))
  {
    AnswersNeedASignature(w.client, hello, draw);
    assert w.activated + [] == w.activated;
    hide AnswerHello;
  }

  lemma OnlyAppsTake(w: World, accept: Accept)
    requires Good(w) && w.client.crypto.Some? && w.client.peer == Daemon
    ensures KeepsChannel(w, Step(w, Take(accept)))
  {
    if w.latest.Some? {
      CompletionsNeedASignature(w.client, w.latest.value, accept);
      assert w.client.pendingSecret.None?;
      assert w.activated + [] == w.activated;
    }
    hide Good, TakeAccept, AcceptFrom;
  }

  lemma HonestStaysHonest(n: Net, n': Net)
    requires n.app.drawn <= n'.app.drawn && n.daemon.drawn <= n'.daemon.drawn
    ensures forall shared | BetweenThem(shared, n) :: BetweenThem(shared, n')
  {
    forall shared | BetweenThem(shared, n) ensures BetweenThem(shared, n') {
      var x, y :| x in n.app.drawn && y in n.daemon.drawn && shared == Agree(x, y);
      assert x in n'.app.drawn && y in n'.daemon.drawn;
    }
  }

  lemma SignaturesAreOwn(a: Arena, e: NetEvent)
    requires OwnKeys(a)
    ensures OwnKeys(ArenaStep(a, e))
  {
    if e.ByApp? && e.e.Build? && a.net.app.client.crypto.Some? { HellosAreSigned(a.net.app.client, e.e.draw); }
    if e.ByDaemon? && e.e.Answer? && a.net.daemon.client.crypto.Some? {
      AnswersNeedASignature(a.net.daemon.client, e.e.hello, e.e.draw);
    }
    hide HelloFor, AnswerHello, TakeAccept;
  }

  lemma AppKeepsSecure(a: Arena, e: Event, app: int, daemon: int)
    requires Secure(a, app, daemon) && Allowed(a, ByApp(e), app, daemon)
    ensures var a' := ArenaStep(a, ByApp(e));
            Configured(a'.net, app, daemon) && SignedTranscripts(a') && SharedKeys(a'.net)
  {
    var w, w' := a.net.app, Step(a.net.app, e);
    hide Step, HelloFrom, Shaped, Faithful, Good, SignedByApp, OnTheWire;
    match e {
      case Take(accept) =>
        TakeOpens(w, accept);
        if !KeepsChannel(w, w') {
          assert accept.input in a.accepts;
          assert BetweenThem(w'.client.active.value.inboundKey.shared, NetStep(a.net, ByApp(e)));
        }
      case Answer(hello, draw) => OnlyDaemonsAnswer(w, hello, draw);
      case _ => TrafficKeepsChannel(w, e);
    }
    HonestStaysHonest(a.net, NetStep(a.net, ByApp(e)));
    hide BetweenThem;
  }

  lemma DaemonKeepsSecure(a: Arena, e: Event, app: int, daemon: int)
    requires Secure(a, app, daemon) && Allowed(a, ByDaemon(e), app, daemon)
    ensures var a' := ArenaStep(a, ByDaemon(e));
            Configured(a'.net, app, daemon) && SignedTranscripts(a') && SharedKeys(a'.net)
  {
    var w, w' := a.net.daemon, Step(a.net.daemon, e);
    hide Step, AcceptFrom, Shaped, Faithful, Good, SignedByDaemon, OnTheWire;
    match e {
      case Take(accept) => OnlyAppsTake(w, accept);
      case Answer(hello, draw) =>
        AnswerOpens(w, hello, draw);
        if !KeepsChannel(w, w') {
          assert hello.input in a.hellos;
          var theirs := hello.input.ephemeralKey.secret;
          assert Agree(draw.secret, theirs) == Agree(theirs, draw.secret);
          assert BetweenThem(w'.client.active.value.inboundKey.shared, NetStep(a.net, ByDaemon(e)));
        }
      case _ => TrafficKeepsChannel(w, e);
    }
    HonestStaysHonest(a.net, NetStep(a.net, ByDaemon(e)));
    hide BetweenThem;
  }

  lemma ArenaStepKeepsSecure(a: Arena, e: NetEvent, app: int, daemon: int)
    requires Secure(a, app, daemon) && Allowed(a, e, app, daemon)
    ensures Secure(ArenaStep(a, e), app, daemon)
  {
    AllowedIsPossible(a, e, app, daemon);
    NetStepKeepsSound(a.net, e);
    SignaturesAreOwn(a, e);
    match e {
      case ByApp(x) => AppKeepsSecure(a, x, app, daemon);
      case ByDaemon(x) => DaemonKeepsSecure(a, x, app, daemon);
    }
    hide RelaySessions.Sound, Configured, OwnKeys, SignedTranscripts, SharedKeys, NetStep, PossibleEvent;
  }

  lemma ArenaStartIsSecure(peer: PeerId, app: int, daemon: int, appConnection: string, daemonConnection: string)
    requires peer.App?
    ensures Secure(ArenaStart(peer, app, daemon, appConnection, daemonConnection), app, daemon)
  {
    NetStartIsSound(ArenaStart(peer, app, daemon, appConnection, daemonConnection).net);
    hide RelaySessions.Sound;
  }

  lemma {:induction false} ArenaRunIsSecure(start: Arena, tr: seq<NetEvent>, app: int, daemon: int)
    requires Secure(start, app, daemon) && AllowedRun(start, tr, app, daemon)
    ensures Secure(ArenaRun(start, tr), app, daemon)
  {
    if tr != [] {
      hide Secure, Allowed, ArenaStep;
      ArenaRunIsSecure(start, tr[..|tr|-1], app, daemon);
      ArenaStepKeepsSecure(ArenaRun(start, tr[..|tr|-1]), tr[|tr|-1], app, daemon);
    }
  }

  /** Against a network that can neither sign for the two ends nor use a secret they share, over any
      run with any number of handshakes: every channel that the daemon activates answers a hello
      that the app signed, every channel that the app activates takes an accept that the daemon
      signed, and on each channel id what one end delivers is an in-order subsequence of what the
      other end sent there. */
  lemma SignaturesSecureTheChannels(
    peer: PeerId, app: int, daemon: int, appConnection: string, daemonConnection: string, tr: seq<NetEvent>,
    id: ChannelId)
    requires peer.App?
    requires AllowedRun(ArenaStart(peer, app, daemon, appConnection, daemonConnection), tr, app, daemon)
    ensures var a := ArenaRun(ArenaStart(peer, app, daemon, appConnection, daemonConnection), tr);
            && (id in a.net.daemon.activated ==> id.Derived? && id.transcript.hello in a.hellos)
            && (id in a.net.app.activated ==> id.Derived? && id.transcript.accept in a.accepts)
            && Subsequence(RelayLink.ValuesOf(GotOn(a.net.gotByDaemon, id)), SentOn(a.net.app.emitted, id))
            && Subsequence(RelayLink.ValuesOf(GotOn(a.net.gotByApp, id)), SentOn(a.net.daemon.emitted, id))
  {
    var start := ArenaStart(peer, app, daemon, appConnection, daemonConnection);
    ArenaStartIsSecure(peer, app, daemon, appConnection, daemonConnection);
    ArenaRunIsSecure(start, tr, app, daemon);
    var n := ArenaRun(start, tr).net;
    hide ArenaRun, AllowedRun, Configured, OwnKeys, SharedKeys, Good, Shaped, Faithful, Subsequence, GotOn, SentOn;
    RisingIsASubsequence(n.app, n.daemon, n.gotByDaemon, id);
    RisingIsASubsequence(n.daemon, n.app, n.gotByApp, id);
  }
}
