/**
 The relay wire protocol: what a frame must look like to be routed, and which routes an
 authenticated socket may use (relay/src/protocol.ts).
 */
module RelayProtocol {
  import opened Wrappers

  datatype Role = Daemon | App

  datatype Attachment = Attachment(
    role: Role,
    deviceId: string,
    peerId: string,
    connectionId: string,
    appInstallationId: Option<string>)

  /** A field of a JSON object: a string, or anything else (including missing). */
  datatype Field = Str(text: string) | NotAString

  /** What JSON.parse makes of a text frame. */
  datatype Json =
    | Malformed
    | NotAnObject
    | Object(frameType: Field, from: Field, to: Field, id: Field)

  datatype Frame = Frame(from: string, to: string, refId: Option<string>)

  datatype ErrorCode = FORBIDDEN_SENDER | UNPAIRED_PEER | INVALID_SCHEMA | PEER_OFFLINE

  const DAEMON_PEER := "daemon"
  const APP_PREFIX := "app:"

  function AppPeer(appInstallationId: string): string { APP_PREFIX + appInstallationId }

  /** `peer.startsWith("app:")`, and then what follows the prefix. */
  function AppIdOf(peer: string): Option<string> {
    if APP_PREFIX <= peer then Some(peer[|APP_PREFIX|..]) else None
  }

  /** The prefix can be put on and taken off, and no app peer is the daemon. */
  lemma PeerNames(id: string, peer: string)
    ensures AppIdOf(AppPeer(id)) == Some(id)
    ensures AppIdOf(peer) == Some(id) <==> peer == AppPeer(id)
    ensures AppPeer(id) != DAEMON_PEER
  {
    assert AppPeer(id)[|APP_PREFIX|..] == id;
    if APP_PREFIX <= peer { assert peer == APP_PREFIX + peer[|APP_PREFIX|..]; }
    assert AppPeer(id)[0] == 'a' && DAEMON_PEER[0] == 'd';
  }

  predicate IsAllowedType(field: Field) {
    field.Str? && field.text in {"secure_channel_hello", "secure_channel_accept", "relay_envelope"}
  }

  predicate IsNonEmpty(field: Field) {
    field.Str? && field.text != ""
  }

  function ParseRoutableFrame(json: Json): (r: Option<Frame>)
    ensures r.Some? ==> r.value.from != "" && r.value.to != "" && r.value.refId != Some("")
  {
    if !json.Object? then None
    else if !IsAllowedType(json.frameType) then None
    else if !IsNonEmpty(json.from) then None
    else if !IsNonEmpty(json.to) then None
    else Some(Frame(json.from.text, json.to.text, if IsNonEmpty(json.id) then Some(json.id.text) else None))
  }

  function ValidateRoute(sender: Attachment, frame: Frame, paired: set<string>): Result<string, ErrorCode> {
    if frame.from != sender.peerId then Err(FORBIDDEN_SENDER)
    else if sender.role.App? then
      if frame.to != DAEMON_PEER then Err(UNPAIRED_PEER) else Ok(DAEMON_PEER)
    else if AppIdOf(frame.to).None? then Err(UNPAIRED_PEER)
    else if AppIdOf(frame.to).value !in paired then Err(UNPAIRED_PEER)
    else Ok(frame.to)
  }

  /** A route is allowed exactly when the sender names itself, and it runs from an app to the
      daemon or from the daemon to a paired app; it then ends where the frame says. */
  lemma RoutesJoinDaemonAndPairedApps(sender: Attachment, frame: Frame, paired: set<string>)
    ensures var route := ValidateRoute(sender, frame, paired);
            && (route.Ok? ==> route.value == frame.to)
            && (route.Ok? <==>
                && frame.from == sender.peerId
                && match sender.role
                   case App => frame.to == DAEMON_PEER
                   case Daemon => exists id <- paired :: frame.to == AppPeer(id))
  {
    if sender.role.Daemon? {
      if AppIdOf(frame.to).Some? { PeerNames(AppIdOf(frame.to).value, frame.to); }
      if id :| id in paired && frame.to == AppPeer(id) { PeerNames(id, frame.to); }
    }
  }
}
