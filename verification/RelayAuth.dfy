/** Relay tokens and pairing tickets as text (relay/src/auth.ts). */
module RelayAuth {
  import opened Base64Url
  import opened Integers
  import opened Text
  import opened Wrappers

  datatype RelayToken =
    | DaemonToken(deviceId: string, secret: string)
    | AppToken(deviceId: string, appInstallationId: string, secret: string)

  datatype PairingTicket = PairingTicket(deviceId: string, pairingId: string, secret: string)

  predicate AllUrlSafe(s: string) {
    forall i | 0 <= i < |s| :: IsUrlSafe(s[i])
  }

  predicate IsTokenComponent(value: string) {
    1 <= |value| <= 128 && AllUrlSafe(value)
  }

  predicate IsTokenSecret(value: string) {
    16 <= |value| <= 128 && AllUrlSafe(value)
  }

  const DAEMON_PREFIX := "achdm"
  const APP_TOKEN_PREFIX := "achapp"
  const PAIRING_PREFIX := "achpair"

  // ----- Parsing -----

  function ParseRelayToken(token: string): Option<RelayToken> {
    var parts := Split(token, '.');
    if parts[0] == DAEMON_PREFIX && |parts| == 3 then
      if !IsTokenComponent(parts[1]) || !IsTokenSecret(parts[2]) then None
      else Some(DaemonToken(parts[1], parts[2]))
    else if parts[0] == APP_TOKEN_PREFIX && |parts| == 4 then
      if !IsTokenComponent(parts[1]) || !IsTokenComponent(parts[2]) || !IsTokenSecret(parts[3]) then None
      else Some(AppToken(parts[1], parts[2], parts[3]))
    else None
  }

  function ParsePairingTicket(ticket: string): Option<PairingTicket> {
    var parts := Split(ticket, '.');
    if parts[0] != PAIRING_PREFIX || |parts| != 4 then None
    else if !IsTokenComponent(parts[1]) || !IsTokenComponent(parts[2]) || !IsTokenSecret(parts[3]) then None
    else Some(PairingTicket(parts[1], parts[2], parts[3]))
  }

  // ----- Printing -----

  function Dotted(front: string, rest: string): string { front + ['.'] + rest }

  function PrintToken(t: RelayToken): string {
    match t
    case DaemonToken(deviceId, secret) => Dotted(DAEMON_PREFIX, Dotted(deviceId, secret))
    case AppToken(deviceId, appInstallationId, secret) =>
      Dotted(APP_TOKEN_PREFIX, Dotted(deviceId, Dotted(appInstallationId, secret)))
  }

  function PrintTicket(t: PairingTicket): string {
    Dotted(PAIRING_PREFIX, Dotted(t.deviceId, Dotted(t.pairingId, t.secret)))
  }

  predicate ValidToken(t: RelayToken) {
    && IsTokenComponent(t.deviceId) && IsTokenSecret(t.secret)
    && (t.AppToken? ==> IsTokenComponent(t.appInstallationId))
  }

  predicate ValidTicket(t: PairingTicket) {
    IsTokenComponent(t.deviceId) && IsTokenComponent(t.pairingId) && IsTokenSecret(t.secret)
  }

  lemma SafeTextHasNoDot(s: string)
    ensures AllUrlSafe(s) ==> '.' !in s
  {
  }

  lemma Join3(a: string, b: string, c: string)
    ensures Join([a, b, c], '.') == Dotted(a, Dotted(b, c))
  {
    assert [a, b, c][1..] == [b, c] && [b, c][1..] == [c];
    assert Join([b, c], '.') == Dotted(b, c);
  }

  lemma Join4(a: string, b: string, c: string, d: string)
    ensures Join([a, b, c, d], '.') == Dotted(a, Dotted(b, Dotted(c, d)))
  {
    Join3(b, c, d);
    assert [a, b, c, d][1..] == [b, c, d];
    assert Join([a, b, c, d], '.') == a + ['.'] + Join([b, c, d], '.');
  }

  /** A text has these parts exactly when it is their join, given that no part has a dot. */
  lemma PartsOf(text: string, parts: seq<string>)
    requires parts != [] && Free(parts, '.')
    ensures Split(text, '.') == parts <==> text == Join(parts, '.')
  {
    hide Split, Join;
    JoinUndoesSplit(text, '.');
    SplitUndoesJoin(parts, '.');
  }

  lemma PartsOfToken(text: string, t: RelayToken)
    requires ValidToken(t)
    ensures Split(text, '.') ==
            (match t
             case DaemonToken(d, s) => [DAEMON_PREFIX, d, s]
             case AppToken(d, a, s) => [APP_TOKEN_PREFIX, d, a, s])
            <==> text == PrintToken(t)
  {
    hide Split, Join;
    SafeTextHasNoDot(t.deviceId);
    SafeTextHasNoDot(t.secret);
    match t {
      case DaemonToken(d, s) =>
        Join3(DAEMON_PREFIX, d, s);
        PartsOf(text, [DAEMON_PREFIX, d, s]);
      case AppToken(d, a, s) =>
        SafeTextHasNoDot(a);
        Join4(APP_TOKEN_PREFIX, d, a, s);
        PartsOf(text, [APP_TOKEN_PREFIX, d, a, s]);
    }
  }

  /** Parsing and printing are inverse: a text parses to a token exactly when it is the print of
      that token and the token's parts are valid. */
  lemma TokensRoundTrip(text: string, t: RelayToken)
    ensures ParseRelayToken(text) == Some(t) <==> ValidToken(t) && text == PrintToken(t)
  {
    hide Split, IsTokenComponent, IsTokenSecret, PrintToken;
    if ValidToken(t) { PartsOfToken(text, t); }
    var parts := Split(text, '.');
    if ParseRelayToken(text) == Some(t) {
      assert parts == match t case DaemonToken(d, s) => [DAEMON_PREFIX, d, s]
                              case AppToken(d, a, s) => [APP_TOKEN_PREFIX, d, a, s];
    }
  }

  /** The print of an app token whose other parts are valid parses only to that token, so an
      installation id that is no valid component makes the token unusable. */
  lemma InvalidIdsMakeDeadTokens(t: RelayToken)
    requires t.AppToken? && IsTokenComponent(t.deviceId) && IsTokenSecret(t.secret)
    ensures ParseRelayToken(PrintToken(t)) == if IsTokenComponent(t.appInstallationId) then Some(t) else None
  {
    var d, a, s := t.deviceId, t.appInstallationId, t.secret;
    SafeTextHasNoDot(d);
    SafeTextHasNoDot(s);
    SplitWhole(APP_TOKEN_PREFIX, '.');
    SplitWhole(d, '.');
    SplitWhole(a, '.');
    SplitWhole(s, '.');
    hide Split, AllUrlSafe;
    SplitConcat(a, s, '.');
    SplitConcat(d, Dotted(a, s), '.');
    SplitConcat(APP_TOKEN_PREFIX, Dotted(d, Dotted(a, s)), '.');
    assert Split(PrintToken(t), '.') == [APP_TOKEN_PREFIX] + ([d] + (Split(a, '.') + [s]));
    hide Dotted;
    if |Split(a, '.')| == 1 {
      assert Split(a, '.') == [a];
      assert Split(PrintToken(t), '.') == [APP_TOKEN_PREFIX, d, a, s];
    }
  }

  lemma TicketsRoundTrip(text: string, t: PairingTicket)
    ensures ParsePairingTicket(text) == Some(t) <==> ValidTicket(t) && text == PrintTicket(t)
  {
    var expected := [PAIRING_PREFIX, t.deviceId, t.pairingId, t.secret];
    if ValidTicket(t) {
      SafeTextHasNoDot(t.deviceId);
      SafeTextHasNoDot(t.pairingId);
      SafeTextHasNoDot(t.secret);
      hide Split, Join;
      Join4(PAIRING_PREFIX, t.deviceId, t.pairingId, t.secret);
      PartsOf(text, expected);
    }
    hide Split, IsTokenComponent, IsTokenSecret;
    if ParsePairingTicket(text) == Some(t) { assert Split(text, '.') == expected; }
  }

  // ----- The printers with a fresh secret -----

  const SECRET_BYTES := 32

  /** A random secret from the bytes that the random source gave. */
  lemma SecretsAreValid(bytes: seq<u8>)
    requires |bytes| == SECRET_BYTES
    ensures |Encoded(bytes)| == 43 && IsTokenSecret(Encoded(bytes))
  {
    EncodedShape(bytes);
    hide Encoded;
  }

  /** What `crypto.randomUUID()` gives: 36 hexadecimal digits and hyphens. */
  predicate IsUuid(uuid: string) {
    |uuid| == 36 && forall i | 0 <= i < |uuid| :: uuid[i] == '-' || '0' <= uuid[i] <= '9' || 'a' <= uuid[i] <= 'f'
  }

  function WithoutHyphens(s: string): string {
    if s == "" then "" else if s[0] == '-' then WithoutHyphens(s[1..]) else [s[0]] + WithoutHyphens(s[1..])
  }

  function FreshPairingId(uuid: string): string { "pair_" + WithoutHyphens(uuid) }

  lemma {:induction false} HyphensComeOff(s: string)
    requires AllUrlSafe(s)
    ensures |WithoutHyphens(s)| <= |s| && AllUrlSafe(WithoutHyphens(s))
  {
    if s != "" { HyphensComeOff(s[1..]); }
  }

  lemma {:induction false} HyphensComeOffParts(a: string, b: string)
    ensures WithoutHyphens(a + b) == WithoutHyphens(a) + WithoutHyphens(b)
  {
    if a == "" {
      assert a + b == b;
    } else {
      assert (a + b)[1..] == a[1..] + b;
      HyphensComeOffParts(a[1..], b);
    }
  }

  lemma {:induction false} OtherCharactersStay(s: string)
    requires '-' !in s
    ensures WithoutHyphens(s) == s
  {
    if s != "" {
      assert s == [s[0]] + s[1..];
      OtherCharactersStay(s[1..]);
    }
  }

  lemma HyphenComesOff(a: string, b: string)
    requires '-' !in b
    ensures WithoutHyphens(a + "-" + b) == WithoutHyphens(a) + b
  {
    OtherCharactersStay(b);
    HyphensComeOffParts(a + "-", b);
    HyphensComeOffParts(a, "-");
    assert WithoutHyphens("-") == "";
  }

  /** A pairing id is `pair_` and the digit groups of the identifier, without what stands between
      them. */
  lemma PairingIdsHaveTheDigits(a: string, b: string, c: string, d: string, e: string)
    requires '-' !in a && '-' !in b && '-' !in c && '-' !in d && '-' !in e
    ensures FreshPairingId(a + "-" + b + "-" + c + "-" + d + "-" + e) == "pair_" + (a + b + c + d + e)
  {
    OtherCharactersStay(a);
    hide WithoutHyphens;
    HyphenComesOff(a, b);
    HyphenComesOff(a + "-" + b, c);
    HyphenComesOff(a + "-" + b + "-" + c, d);
    HyphenComesOff(a + "-" + b + "-" + c + "-" + d, e);
  }

  lemma PairingIdsAreValid(uuid: string)
    requires IsUuid(uuid)
    ensures IsTokenComponent(FreshPairingId(uuid))
  {
    HyphensComeOff(uuid);
    assert AllUrlSafe("pair_");
  }

  /** What the three printers return parses back to its parts exactly when the ids that the
      caller chose are valid components; the secret and the pairing id always are. */
  lemma BuiltTextsParse(deviceId: string, appInstallationId: string, uuid: string, bytes: seq<u8>)
    requires |bytes| == SECRET_BYTES && IsUuid(uuid)
    ensures var secret := Encoded(bytes);
            var daemon, app := DaemonToken(deviceId, secret), AppToken(deviceId, appInstallationId, secret);
            var ticket := PairingTicket(deviceId, FreshPairingId(uuid), secret);
            && (ParseRelayToken(PrintToken(daemon)) == Some(daemon) <==> IsTokenComponent(deviceId))
            && (ParseRelayToken(PrintToken(app)) == Some(app) <==>
                IsTokenComponent(deviceId) && IsTokenComponent(appInstallationId))
            && (ParsePairingTicket(PrintTicket(ticket)) == Some(ticket) <==> IsTokenComponent(deviceId))
  {
    hide Encoded, FreshPairingId, ParseRelayToken, ParsePairingTicket, PrintToken, PrintTicket, IsTokenComponent,
      IsTokenSecret, IsUuid;
    var secret := Encoded(bytes);
    SecretsAreValid(bytes);
    PairingIdsAreValid(uuid);
    var daemon, app := DaemonToken(deviceId, secret), AppToken(deviceId, appInstallationId, secret);
    TokensRoundTrip(PrintToken(daemon), daemon);
    TokensRoundTrip(PrintToken(app), app);
    var ticket := PairingTicket(deviceId, FreshPairingId(uuid), secret);
    TicketsRoundTrip(PrintTicket(ticket), ticket);
  }
}
