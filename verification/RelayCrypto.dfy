/**
 The cryptography of the relay wire, idealised: what daemon/protocol/src/relay_crypto.rs
 and daemon/protocol/src/relay.rs are relied on for.

 - An ephemeral public key determines its secret, and two sides agree on the same shared
   secret exactly when they combine the same pair of secrets.
 - Hashes and key derivation are injective: a channel id stands for its transcript, and a
   session key for its shared secret, transcript and direction.
 - A signature verifies only over the input it was made for, by the identity it names.
 - Decryption succeeds only on what was encrypted under the same key, peers, channel id
   and sequence number.
 */
module RelayCrypto {
  import opened Integers
  import opened Wrappers

  /** A peer id on the wire: `daemon`, or `app:` and an installation id. */
  datatype PeerId = Daemon | App(installation: string)

  datatype EphemeralKey = PublicKeyOf(secret: int) | Undecodable(text: string)

  datatype SharedSecret = SharedSecret(low: int, high: int)

  function Agree(local: int, remote: int): SharedSecret {
    if local <= remote then SharedSecret(local, remote) else SharedSecret(remote, local)
  }

  /** The fields of a hello that are signed and hashed; its id is not one of them. */
  datatype HelloInput = HelloInput(
    from: PeerId, to: PeerId, connectionId: string, ephemeralKey: EphemeralKey, expiresAt: int)

  datatype AcceptInput = AcceptInput(
    from: PeerId, to: PeerId, helloId: string, connectionId: string, ephemeralKey: EphemeralKey, expiresAt: int)

  datatype Transcript = Transcript(hello: HelloInput, accept: AcceptInput)

  datatype ChannelId = Derived(transcript: Transcript) | Foreign(text: string)

  datatype SessionKey = SessionKey(shared: SharedSecret, transcript: Transcript, toDaemon: bool)

  datatype SessionKeys = SessionKeys(channelId: ChannelId, appToDaemon: SessionKey, daemonToApp: SessionKey)

  function DeriveSessionKeys(shared: SharedSecret, transcript: Transcript): SessionKeys {
    SessionKeys(Derived(transcript), SessionKey(shared, transcript, true), SessionKey(shared, transcript, false))
  }

  datatype Signature =
    | SignedHello(identity: int, hello: HelloInput) | SignedAccept(identity: int, accept: AcceptInput)
    | Unsigned

  /** A JSON value, which is what gets encrypted. */
  datatype Value = Value(json: string)

  datatype Plaintext = Json(value: Value) | NotJson(bytes: string)

  datatype Ciphertext =
    | Sealed(key: SessionKey, from: PeerId, to: PeerId, channelId: ChannelId, seqNo: u64, plaintext: Plaintext)
    | Noise(text: string)

  function Decrypt(key: SessionKey, from: PeerId, to: PeerId, channelId: ChannelId, seqNo: u64, ct: Ciphertext)
    : Option<Plaintext>
  {
    if ct.Sealed? && ct == Sealed(key, from, to, channelId, seqNo, ct.plaintext) then Some(ct.plaintext) else None
  }
}
