/**
 The Worker in front of the hubs: how it turns tokens and tickets into hub requests
 (relay/src/index.ts), and what the two together guarantee.
 */
module RelayWorker {
  import opened DeviceHub
  import opened DeviceHubRecords
  import opened DeviceHubRuns
  import opened HubStorage
  import opened RelayAuth
  import opened RelayProtocol
  import opened Wrappers

  const DEFAULT_PAIRING_TTL_MS := 5 * 60 * 1000
  const MIN_PAIRING_TTL_MS := 30 * 1000
  const MAX_PAIRING_TTL_MS := 15 * 60 * 1000

  function Min(a: int, b: int): int { if a <= b then a else b }

  function Max(a: int, b: int): int { if a <= b then b else a }

  /** A missing time to live is not finite. The result is always between 30 seconds and 15
      minutes, and follows the request wherever that range allows it. */
  function ClampPairingTTL(value: Number): (ttl: int)
    ensures 30_000 <= ttl <= 900_000
    ensures value.NotFinite? ==> ttl == 300_000
    ensures value.Finite? && 30_000.0 <= value.value <= 900_000.0 ==> ttl == value.value.Floor
    ensures value.Finite? && value.value < 30_000.0 ==> ttl == 30_000
    ensures value.Finite? && value.value > 900_000.0 ==> ttl == 900_000
  {
    if value.NotFinite? then DEFAULT_PAIRING_TTL_MS
    else Min(MAX_PAIRING_TTL_MS, Max(MIN_PAIRING_TTL_MS, Trunc(value.value)))
  }

  /** The request for the hub that a connection with this bearer token becomes. The client's own
      headers are copied first, so that of a daemon may carry an installation id of its own. */
  function UpgradeRequest(token: string, upgrade: bool, clientAppId: Option<string>): Option<ConnectRequest> {
    var parsed := ParseRelayToken(token);
    if !upgrade || parsed.None? then None
    else
      match parsed.value
      case DaemonToken(deviceId, secret) =>
        Some(ConnectRequest(true, "daemon", deviceId, DAEMON_PEER, secret, clientAppId))
      case AppToken(deviceId, id, secret) =>
        Some(ConnectRequest(true, "app", deviceId, AppPeer(id), secret, Some(id)))
  }

  /** What the hub's runs assume of every connection. */
  lemma UpgradesAreFromWorker(token: string, upgrade: bool, clientAppId: Option<string>)
    ensures var r := UpgradeRequest(token, upgrade, clientAppId);
            r.Some? ==> FromWorker(r.value)
  {
    hide ParseRelayToken, AppPeer;
  }

  /** The request that opens a pairing at the Worker's clock `clock`; None when the bearer token
      does not parse or is not a daemon's. */
  function OpenRequest(bearer: string, ttl: Number, clock: int, ticket: PairingTicket): Option<OpenPayload> {
    var parsed := ParseRelayToken(bearer);
    if parsed.None? || !parsed.value.DaemonToken? then None
    else
      Some(OpenPayload(parsed.value.secret, ticket.pairingId, Sha(ticket.secret),
                       Finite((clock + ClampPairingTTL(ttl)) as real)))
  }

  function ClaimRequest(ticket: PairingTicket, appInstallationId: string, name: Option<string>, secret: string)
    : ClaimPayload
  {
    ClaimPayload(ticket.pairingId, ticket.secret, appInstallationId, name, Sha(secret))
  }

  /** A pairing opened through the Worker expires between 30 seconds and 15 minutes after the
      Worker's clock at opening. */
  lemma WorkerPairingsExpireInTime(s: Hub, bearer: string, ttl: Number, clock: int, ticket: PairingTicket,
                                   now: int, createdAt: int)
    ensures var payload := OpenRequest(bearer, ttl, clock, ticket);
            OpenResponse(s.memory, payload, now) == Done ==>
              var s' := Opened(s, payload, now, createdAt);
              && ticket.pairingId in s'.memory.pairings
              && var r := s'.memory.pairings[ticket.pairingId];
                 clock + 30_000 <= r.expiresAt <= clock + 900_000 && r.expiresAt == clock + ClampPairingTTL(ttl)
  {
    TruncOfInt(clock + ClampPairingTTL(ttl));
    hide HasSecret, ClampPairingTTL, PairingKey, Trunc;
  }

  lemma TruncOfInt(n: int)
    ensures Trunc(n as real) == n
  {
  }

  /** The printed ticket of an opened pairing can be claimed, under any non-empty installation
      id, exactly until the pairing expires; at that moment the claim removes it instead. */
  lemma OpenedTicketsCanBeClaimed(s: Hub, bearer: string, ttl: Number, clock: int, ticket: PairingTicket,
                                  now: int, createdAt: int, appId: string, name: Option<string>, secret: string,
                                  later: int)
    requires ValidTicket(ticket) && appId != ""
    requires OpenResponse(s.memory, OpenRequest(bearer, ttl, clock, ticket), now) == Done
    ensures ParsePairingTicket(PrintTicket(ticket)) == Some(ticket)
    ensures var s' := Opened(s, OpenRequest(bearer, ttl, clock, ticket), now, createdAt);
            var response := ClaimResponse(s'.memory, Some(ClaimRequest(ticket, appId, name, secret)), later);
            response == if later < clock + ClampPairingTTL(ttl) then Done else PairingExpired
  {
    TicketsRoundTrip(PrintTicket(ticket), ticket);
    WorkerPairingsExpireInTime(s, bearer, ttl, clock, ticket, now, createdAt);
    assert ticket.pairingId != "" && ticket.secret != "";
    hide HasSecret, ClampPairingTTL, PairingKey, Trunc, PrintTicket, ParsePairingTicket;
  }

  /** A successful claim puts the app on record under the name it gave, and the relay token that it
      returns opens a socket at the hub, under the peer id of the app, exactly when the installation
      id is a valid token component. */
  lemma ClaimedTokensConnect(s: Hub, ticket: PairingTicket, appId: string, name: Option<string>, secret: string,
                             now: int, pairedAt: int, clientAppId: Option<string>)
    requires ValidTicket(ticket) && IsTokenSecret(secret)
    requires ClaimResponse(s.memory, Some(ClaimRequest(ticket, appId, name, secret)), now) == Done
    ensures var s' := Claimed(s, Some(ClaimRequest(ticket, appId, name, secret)), now, pairedAt);
            var token := PrintToken(AppToken(ticket.deviceId, appId, secret));
            var request := UpgradeRequest(token, true, clientAppId);
            && Lookup(s'.memory.apps, appId).Some? && s'.memory.apps[appId].appName == name
            && (request.Some? <==> IsTokenComponent(appId))
            && (request.Some? ==>
                  && ConnectResponse(s'.memory, request.value) == SwitchingProtocols
                  && request.value.peerId == AppPeer(appId))
  {
    InvalidIdsMakeDeadTokens(AppToken(ticket.deviceId, appId, secret));
    assert ticket.deviceId != "" && secret != "" && appId != "";
    hide ParseRelayToken, PrintToken, IsTokenComponent, IsTokenSecret, AppKey, PairingKey;
  }

  /** The print of a daemon token with a valid secret parses exactly when its device id is valid. */
  lemma DaemonTokensParse(deviceId: string, secret: string)
    requires IsTokenSecret(secret)
    ensures var t := DaemonToken(deviceId, secret);
            ParseRelayToken(PrintToken(t)) == Some(t) <==> IsTokenComponent(deviceId)
  {
    var t := DaemonToken(deviceId, secret);
    TokensRoundTrip(PrintToken(t), t);
    hide ParseRelayToken, PrintToken, IsTokenSecret, IsTokenComponent;
  }

  /** Over every legal run of the hub, a daemon token with a valid device id lets its bearer connect
      as the daemon, and open pairings that expire in time, exactly when its secret is the one of
      the last bootstrap. */
  lemma DaemonTokensAuthenticate(history: seq<Event>, deviceId: string, secret: string, clientAppId: Option<string>,
                                 ttl: Number, clock: int, ticket: PairingTicket)
    requires LegalRun(history) && IsTokenComponent(deviceId) && IsTokenSecret(secret) && ValidTicket(ticket)
    ensures var bearer, m := PrintToken(DaemonToken(deviceId, secret)), After(history).memory;
            var connect := UpgradeRequest(bearer, true, clientAppId);
            && connect == Some(ConnectRequest(true, "daemon", deviceId, "daemon", secret, clientAppId))
            && (ConnectResponse(m, connect.value) == SwitchingProtocols <==> IsDaemonSecret(history, secret))
            && OpenRequest(bearer, ttl, clock, ticket).Some?
            && (OpenResponse(m, OpenRequest(bearer, ttl, clock, ticket), clock) == Done <==>
                IsDaemonSecret(history, secret))
  {
    var bearer := PrintToken(DaemonToken(deviceId, secret));
    DaemonTokensParse(deviceId, secret);
    assert deviceId != "" && secret != "" && ticket.pairingId != "";
    hide ParseRelayToken, PrintToken, After, LegalRun, IsDaemonSecret, IsAppSecret, ClampPairingTTL, HasSecret, Trunc,
      IsTokenComponent, IsTokenSecret, ConnectResponse, OpenResponse;
    ConnectsAreAuthenticated(history, UpgradeRequest(bearer, true, clientAppId).value);
    OpeningsAreAuthorised(history, OpenRequest(bearer, ttl, clock, ticket), clock);
    TruncOfInt(clock + ClampPairingTTL(ttl));
  }

  /** An app's token opens no pairing. */
  lemma OnlyDaemonsOpenPairings(bearer: string, ttl: Number, clock: int, ticket: PairingTicket)
    ensures OpenRequest(bearer, ttl, clock, ticket).Some? <==>
            exists deviceId, secret :: ParseRelayToken(bearer) == Some(DaemonToken(deviceId, secret))
  {
    hide ParseRelayToken;
    var parsed := ParseRelayToken(bearer);
    if OpenRequest(bearer, ttl, clock, ticket).Some? {
      assert parsed == Some(DaemonToken(parsed.value.deviceId, parsed.value.secret));
    }
  }
}
