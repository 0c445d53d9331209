# AgentChat: a Dafny model of its protocols

This project models the parts of AgentChat that keep state between messages or undo each
other, and proves what they guarantee over whole runs and all inputs.

- **The Codex app-server client** (`CodexAppServer`, `CodexRuns`, `CodexTurns`,
  `CodexActiveTurns`, `CodexMessages`, `ModelCatalog`): the maps that a reader task shares
  with `prompt`, `cancel` and `send_request`. Everything runs on one thread, so the code
  between two awaits is one step; a run is any sequence of such steps. For each turn the four
  maps are shown to be a mailbox with room for one result or one waiting prompt;
  `CodexMessages` says on the JSON fields which messages fill it. Model discovery is there as
  well: the paging loop and the catalogue built from the pages.
- **The secure relay channel** (`RelayCrypto`, `RelayChannel`, `RelayLink`, `RelayClient`,
  `RelayClientRuns`, `RelaySessions`, `RelayAdversary`): handshake, crossed keys, counters,
  and two ends with any number of handshakes. The network may drop, duplicate, reorder and
  inject; `RelayAdversary` also lets it build every frame that needs no signature of the two
  ends and no secret they share. Cryptography is ideal; `RelayCrypto` lists the assumptions.
- **The relay hub and its Worker** (`RelayProtocol`, `HubStorage`, `SocketIndex`,
  `DeviceHub`, `DeviceHubRuns`, `DeviceHubRecords`, `DeviceHubRouting`, `DeviceHubHistory`,
  `PairingRuns`, `RelayAuth`, `RelayWorker`): requests, sockets, pairings and restarts. Each handler is
  one atomic step, although the source awaits inside handlers (for example at
  relay/src/device-hub.ts:291); the results hold for handlers that run one after another.
- **Codecs and parsers** (`Base64Url`, `Utf8`, `TerminalOutput`, `PercentEncoding`,
  `QrPayload`, `SkillNames`, `SkillBlocks`).

Code that changes state in place is a class or a method with a loop, proved against
functions on values. The methods of `CodexAppServerAgent`, `ActiveRelayChannel`,
`RelayClient` and `DeviceHubDO` each perform one step function on mutable fields
(`View() == F(old(View()))`); what these steps guarantee is stated by the lemmas about
runs (`Step`, `Run`, `After` and the like), and the table below lists those. `Wrappers`,
`Integers`, `Sequences` and `Text` hold what several modules share.

Where a promise is false in general, its exact condition is proved, and a run shows how it
fails:

- Request ids stay exact throughout a run if and only if no new request draws an id that an
  older one still holds (`ExactRunsNeverRedraw`). That cannot happen within 2^64 requests
  (`FewRequestsNeverRedraw`), and it does happen with the next one
  (`ReusedIdIsTakenByTheOldGuard`).
- A report reaches a prompt of its turn if and only if nobody else takes it first: for a
  prompt that has not resumed, no other report or claim of the turn comes before it does; for
  one that waits, no report, disconnection or other claim (`ReportsReachTheirPrompts`). A
  server that gives each turn to one prompt cannot break this (`TheReportReachesThePrompt`);
  one that gives a turn to two can (`SecondPromptDropsTheFirst`).
- `active_turns` never holds a finished turn if and only if no reported turn is recorded and
  none is reported under one session while recorded for another (`ActiveTurnsAreUnfinished`,
  and `StaleExactly` for a single entry). Each expectation on the server is needed
  (`RudeServersBlockSettings`).
- The paging loop is asked for ever by a server whose cursors go round, exactly when
  neighbouring cursors differ and none is empty (`CyclesAreNotNoticed`).
- An app that takes an accept for an earlier hello activates a channel that shares only
  its id with the daemon's; the agreement of both ends is an equivalence
  (`HandshakeAgreement`, `StaleHelloReusesTheChannelId`).
- Rebuilding the socket index gives the same index exactly when no replaced or closed
  socket is listed after the current one (`RebuildKeepsTheIndex`,
  `StaleListingRevivesAReplacedSocket`).
- A claimed relay token works exactly when the installation id is a valid token component
  (`ClaimedTokensConnect`).
- Only a configured identity protects a handshake: with one, every channel comes from frames
  that the other end signed (`SignaturesSecureTheChannels`); without one, any well-formed
  accept completes it, but gives no keys (`NoKeysWithoutCrypto`).
- Two distilled skills are one file exactly when their names have the same home directory
  and the same parts below it, the extension included (`DistilledSkillsShareAFile`).
- Normalising a skill name twice fails exactly when `.md` was appended to a last part that
  ends in a dot (`NormalisingTwice`).

To check everything: `dafny verify dfyconfig.toml`.

## Model

| member | source | states |
|---|---|---|
| CodexAppServer.PromptResultFromTurn | daemon/core/src/codex_app_server.rs:537-551 | a turn object has no result exactly while it is in progress, and is an error exactly when its status is missing or `failed` |
| CodexAppServer.CodexAppServerAgent.FailOutstandingRequests | daemon/core/src/codex_app_server.rs:356-360 | draining in any order fails exactly the stored requests |
| CodexAppServer.CodexAppServerAgent.FailOutstandingTurns | daemon/core/src/codex_app_server.rs:362-366 | draining in any order fails exactly the stored waiters |
| CodexRuns.StepKeepsSound | daemon/core/src/codex_app_server.rs:553-575 | in every interleaving no turn is in both `turn_waiters` and `completed_turns`, and stored senders match the calls that wait on them |
| CodexRuns.StepKeepsExact | daemon/core/src/codex_app_server.rs:1318-1324 | a step keeps held ids distinct and every call in flight stored under its id, exactly when it does not draw a held id again |
| CodexRuns.ExactRunsNeverRedraw | daemon/core/src/codex_app_server.rs:1317-1339 | the ids stay exact throughout a run if and only if no held id is ever drawn again |
| CodexRuns.FewRequestsNeverRedraw | daemon/core/src/codex_app_server.rs:1318-1318 | no id comes back within 2^64 requests |
| CodexRuns.PendingIsExact | daemon/core/src/codex_app_server.rs:1317-1339 | while no held id is redrawn, `pending_requests` holds exactly the calls neither answered, drained nor ended |
| CodexRuns.ResponseResolvesItsCall | daemon/core/src/codex_app_server.rs:1233-1263 | under the same condition a response resolves the call that drew its id and no other; a server request with that id resolves none |
| CodexRuns.GuardTakesOwnEntryOnly | daemon/core/src/codex_app_server.rs:24-33 | under the same condition the drop guard never removes another call's entry |
| CodexRuns.DisconnectFailsTheOutstanding | daemon/core/src/codex_app_server.rs:310-366 | under the same condition a disconnect gives each outstanding request and waiter one error and touches no other call |
| CodexRuns.ReusedIdIsTakenByTheOldGuard | daemon/core/src/codex_app_server.rs:1318-1324 | a run of 2^64 requests, the first still in flight, after which the next one fails the first and loses its own entry to the old guard |
| CodexRuns.ResultIsFinal | daemon/core/src/codex_app_server.rs:553-575 | no run changes the result of a settled call, so nothing is delivered twice |
| CodexTurns.MapsAreMailboxes | daemon/core/src/codex_app_server.rs:553-575 | in every run the maps hold for each turn what a mailbox holds after the touches of that turn: a kept result, a waiting prompt, or nothing |
| CodexTurns.KeptIsTheLastReport | daemon/core/src/codex_app_server.rs:567-575 | a stored completion is the last report, if it found nobody waiting and nobody has claimed the turn since; and only then |
| CodexTurns.AwaitedIsTheLastClaim | daemon/core/src/codex_app_server.rs:1637-1642 | a prompt waits exactly when it claimed its running turn with nothing stored, and no report, loss or other waiting claim has come since |
| CodexTurns.WaitingStep | daemon/core/src/codex_app_server.rs:553-575 | one step settles a waiting prompt exactly on a report, a disconnection, or another prompt's claim of the running turn |
| CodexTurns.WaitersGetTheFirstSignal | daemon/core/src/codex_app_server.rs:1640-1643 | over every continuation a waiting prompt gets the first of these |
| CodexTurns.Rendezvous | daemon/core/src/codex_app_server.rs:1595-1643 | for every run and every answered prompt, its result follows from the touches of its turn before and after it resumes |
| CodexTurns.ReportsReachTheirPrompts | daemon/core/src/codex_app_server.rs:1010-1033 | for every run, which report reaches a prompt: both directions, for reports before and after its resumption |
| CodexTurns.CompletionAwaitsTheResumption | daemon/core/src/codex_app_server.rs:1618-1628 | with one prompt answered with the turn, the last reported end waits in `completed_turns` until it resumes |
| CodexTurns.TheReportReachesThePrompt | daemon/core/src/codex_app_server.rs:1595-1643 | with one prompt answered with the turn and one report, the report reaches the prompt, whichever comes first |
| CodexTurns.SecondPromptDropsTheFirst | daemon/core/src/codex_app_server.rs:1637-1642 | a run from the start in which a second prompt takes the place of a waiting one, which fails |
| CodexTurns.ReportAndResumptionCommute | daemon/core/src/codex_app_server.rs:553-575 | report and resumption give the same state in both orders, except for the recorded turn when another one was recorded meanwhile |
| CodexActiveTurns.ActiveTurnIsTheLastRecorded | daemon/core/src/codex_app_server.rs:561-566 | after any run the active turn of a session is the last one recorded for it, unless it has ended under that session since |
| CodexActiveTurns.StaleExactly | daemon/core/src/codex_app_server.rs:995-1009 | a recorded turn has been reported finished exactly when its report came before the recording, or since then only under another session |
| CodexActiveTurns.ActiveTurnsAreUnfinished | daemon/core/src/codex_app_server.rs:995-1033 | throughout a run `active_turns` holds no finished turn if and only if no reported turn is recorded and none is reported under one session while recorded for another |
| CodexActiveTurns.EndReleasesTheSession | daemon/core/src/codex_app_server.rs:1581-1593 | settings are refused while a turn is recorded, and every event that ends it under the session releases them |
| CodexActiveTurns.SettingsAreTheLastAccepted | daemon/core/src/codex_app_server.rs:1581-1593 | after any run the settings of a session are the last ones stored while no turn was recorded for it |
| CodexActiveTurns.PoliteServersLeaveNoneStale | daemon/core/src/codex_app_server.rs:995-1033 | a server that keeps turns to one thread and one prompt and announces none after its end never leaves a finished turn recorded |
| CodexActiveTurns.RudeServersBlockSettings | daemon/core/src/codex_app_server.rs:561-566 | four runs from the start, one for each expectation, in which a finished turn stays recorded |
| CodexMessages.ReportsOnTheWire | daemon/core/src/codex_app_server.rs:1010-1155 | a message reports a turn finished if and only if it is `turn/completed` with a status other than `inProgress`, or `error` that will not be retried; which result it reports, by the literal status |
| CodexMessages.MarksOnTheWire | daemon/core/src/codex_app_server.rs:995-1033 | on the JSON fields, which messages record a turn for a session and which end it |
| CodexMessages.OtherNotificationsChangeNothing | daemon/core/src/codex_app_server.rs:1117-1158 | an error that will be retried, and every notification about neither start nor end of a turn, leaves the state of every run unchanged |
| CodexMessages.ResponsesOnTheWire | daemon/core/src/codex_app_server.rs:1618-1635 | on the JSON fields, what a `turn/start` response tells its prompt: an error, a running turn, or a result |
| CodexMessages.RequestsReturnTheirResponse | daemon/core/src/codex_app_server.rs:1317-1339 | a request returns the result or the error of the message with its id |
| CodexMessages.FailedResponsesFailThePrompt | daemon/core/src/codex_app_server.rs:1616-1624 | a response without a turn or a turn id fails the prompt with that error and touches no map |
| ModelCatalog.GatherModels | daemon/core/src/codex_app_server.rs:1367-1399 | which cursors are requested, when the loop stops, and that the pages are gathered in order |
| ModelCatalog.CyclesAreNotNoticed | daemon/core/src/codex_app_server.rs:1386-1399 | a server whose cursors go round is asked for ever exactly when neighbouring cursors differ and none is empty |
| ModelCatalog.DistinctEfforts | daemon/core/src/codex_app_server.rs:1401-1497 | the effort list of an entry, without repetitions |
| ModelCatalog.CollectModels | daemon/core/src/codex_app_server.rs:1401-1497 | the loop builds the de-duplicated values, the effort map and the default model together |
| ModelCatalog.BuildCatalogue | daemon/core/src/codex_app_server.rs:1401-1497 | the configured model is selected if it is listed, else the default, else the first; ids are exactly the keys of the effort map, no effort list repeats, the default is in the catalogue, and the efforts shown are those of a selected model in it |
| ModelCatalog.CatalogueIdsAreFirstOccurrences | daemon/core/src/codex_app_server.rs:1401-1440 | the catalogue lists each id once, at the place of its first occurrence |
| ModelCatalog.CatalogueReadsFirstEntries | daemon/core/src/codex_app_server.rs:1401-1440 | name and efforts of each value come from the first entry with that id, under `model` or else `id` |
| ModelCatalog.DefaultIsTheLastMarked | daemon/core/src/codex_app_server.rs:1401-1440 | the default model is the last entry that is marked as default and first with its id; there is none if no such entry exists |
| ModelCatalog.NamesAreTheTexts | daemon/core/src/codex_app_server.rs:1401-1497 | the effort names are the text fields of an entry, in order |
| ModelCatalog.DefaultEffortIsTheFirstNamed | daemon/core/src/codex_app_server.rs:1441-1497 | the effort shown is the one of the first entry with the selected id that names one |
| RelayChannel.RejectedEnvelopesLeaveNoTrace | daemon/core/src/relay_client.rs:534-569 | deleting all rejected envelopes from a run leaves deliveries and final state unchanged |
| RelayChannel.AcceptsWhatThePeerEmits | daemon/core/src/relay_client.rs:534-569 | an envelope is accepted exactly when it validates and its fields and seal are those of the other end under the shared keys, with a number above all accepted ones |
| RelayChannel.RejectionsSayWhy | daemon/core/src/relay_client.rs:534-569 | which condition each rejection stands for |
| RelayChannel.SendingUsesOneNumber | daemon/core/src/relay_client.rs:508-531 | an envelope that validates uses up one number; one that does not uses none |
| RelayChannel.LosslessInOrder | daemon/core/src/relay_client.rs:508-569 | on a lossless network everything sent arrives, up to 2^64-1 envelopes, and nothing after them |
| RelayLink.DeliveriesAreInOrder | daemon/core/src/relay_client.rs:534-569 | with any network, deliveries are an in-order subsequence of what the other end sent, each at most once |
| RelayClient.RelayClient.WaitForAccept | daemon/core/src/relay_client.rs:229-290 | skips ready frames, hellos and envelopes; the first accept or error decides |
| RelayClient.HandshakeAgreement | daemon/core/src/relay_client.rs:235-369 | both ends hold the same channel id exactly when the accept answers the hello waited on, and crossed keys exactly when the app also holds that hello's secret |
| RelayClient.HandshakePairsTheEnds | daemon/core/src/relay_client.rs:188-369 | build, answer and take succeed and leave the ends paired with swapped peers, each sealing under the key of its own direction |
| RelayClient.HellosAreSigned | daemon/core/src/relay_client.rs:188-221 | with crypto configured every hello sent is signed by the client over a fresh key, whose secret is then the pending one |
| RelayClient.AnswersNeedASignature | daemon/core/src/relay_client.rs:297-369 | with crypto configured an accept is sent, and a handshake completed, only for a hello that the configured remote identity signed; the channel is that of these two frames, and otherwise the client is unchanged |
| RelayClient.CompletionsNeedASignature | daemon/core/src/relay_client.rs:229-290 | with crypto configured a handshake completes on exactly those accepts of the pending hello that the remote identity signed; otherwise no channel is activated |
| RelayClient.NoKeysWithoutCrypto | daemon/core/src/relay_client.rs:229-369 | without crypto no channel is activated; which accepts and hellos complete the handshake, with the channel id of their transcript and no keys |
| RelayClientRuns.ActivationsAreDistinct | daemon/core/src/relay_client.rs:211-271 | over any run, no two activations share an ephemeral key or a channel id |
| RelayClientRuns.EarlierChannelsAreRejected | daemon/core/src/relay_client.rs:543-554 | once a new channel is active no envelope of an earlier one is accepted |
| RelayClientRuns.SequenceNumbersAreUnique | daemon/core/src/relay_client.rs:503-531 | a number repeats on a channel exactly when the channel emitted more than 2^64-1 envelopes |
| RelayClientRuns.HandshakeStartsALink | daemon/core/src/relay_client.rs:425-431 | a completed handshake is the initial state of a link |
| RelayClientRuns.StaleHelloReusesTheChannelId | daemon/core/src/relay_client.rs:229-271 | an accept taken for an earlier hello gives the old channel id with other keys |
| RelaySessions.DeliveriesAreInOrderOnEveryChannel | daemon/core/src/relay_client.rs:188-569 | over runs of two ends with any number of handshakes and a hostile network, what one end delivers on a channel id is an in-order subsequence of what the other sent on that id |
| RelayAdversary.SignaturesSecureTheChannels | daemon/core/src/relay_client.rs:188-569 | against a network that can neither sign for the two identities nor use a secret they share, over any run every activated channel comes from a transcript whose other half the other end signed, and deliveries are in order on every channel |
| RelayProtocol.RoutesJoinDaemonAndPairedApps | relay/src/protocol.ts:56-99 | a route is allowed exactly from an app to the daemon or from the daemon to a paired app, by a sender that names itself |
| HubStorage.KeysNeverMix | relay/src/device-hub.ts:18-20 | each key stands for one record of one kind, and a prefix lists one kind only |
| HubStorage.RestartRestoresMemory | relay/src/device-hub.ts:164-183 | loading returns exactly the mirrored memory, in whatever order storage lists records |
| SocketIndex.RebuildKeepsTheIndex | relay/src/device-hub.ts:185-201 | rebuilding gives the same index exactly when all current sockets are listed and no other socket of a seat comes later |
| DeviceHubRuns.StepKeepsSound | relay/src/device-hub.ts:203-436 | every handler keeps memory equal to storage, the index in step with the attachments, and every attachment backed by a record |
| DeviceHubRuns.RestartChangesNothing | relay/src/device-hub.ts:164-201 | a restart between handlers changes neither memory nor index |
| DeviceHubRuns.EveryRunIsSound | relay/src/device-hub.ts:164-436 | after any run: memory equals storage, indexed apps are paired, an indexed daemon has a record, and each indexed socket has the peer id it is found under |
| DeviceHubRecords.RecordsAreTheWrites | relay/src/device-hub.ts:203-237 | after any run the daemon's record and each app's hold what the last accepted write said, with the clock of the first one as `createdAt` or `pairedAt`, over all later upserts and restarts |
| DeviceHubRecords.ConnectsAreAuthenticated | relay/src/device-hub.ts:308-393 | over every run a connection is accepted exactly when it is complete and presents the secret whose hash the last accepted bootstrap carried, or for an app its last registration or claim; each refusal by its cause |
| DeviceHubRecords.OpeningsAreAuthorised | relay/src/device-hub.ts:239-266 | over every run a pairing is opened exactly when the request is complete, presents the daemon's last secret and expires later than now; each refusal by its cause |
| DeviceHubRecords.IncompleteRequestsAreRefused | relay/src/device-hub.ts:203-237 | bootstraps and registrations are refused exactly when a field is missing |
| DeviceHubRecords.TruncRoundsTowardZero | relay/src/device-hub.ts:252 | truncation is toward zero and by less than one |
| DeviceHubRouting.OneEffectPerMessage | relay/src/device-hub.ts:108-151 | a message has one effect: its text unchanged to one socket, or one error to the sender |
| DeviceHubRouting.ComplaintsSayWhy | relay/src/device-hub.ts:108-149 | which JSON fields and which state each error code stands for, and that errors about a frame carry its `id` |
| DeviceHubRouting.FramesAreReadByField | relay/src/protocol.ts:20-54 | a JSON value is a frame exactly when it is an object of one of the three types with non-empty `from` and `to`, and these fields name sender and receiver |
| DeviceHubRouting.StrangersAreClosed | relay/src/device-hub.ts:99-107 | a socket without an attachment is closed with 4401, and nothing else happens |
| DeviceHubRouting.ForwardsJoinDaemonAndPairedApps | relay/src/device-hub.ts:119-151 | in reachable states a message is forwarded to a socket exactly when its JSON is an object of one of the three types whose `from` is the sender's peer id and whose `to` is the peer id the receiver is indexed under, and one of the two is the daemon, the other an app |
| DeviceHubRouting.ForwardedEndsAreRegistered | relay/src/device-hub.ts:377-418 | the two ends of a forward are the registered daemon and a paired app |
| DeviceHubHistory.IndexIsTheLastOpenSocket | relay/src/device-hub.ts:339-436 | after any history the index of a peer is its most recently accepted socket if that has not closed |
| DeviceHubHistory.ConnectsReplaceTheCurrent | relay/src/device-hub.ts:308-356 | over every run an accepted connection closes the current socket of its seat with 4001, is told that it is ready, and takes the seat with the attachment of its headers |
| DeviceHubHistory.StaleListingRevivesAReplacedSocket | relay/src/device-hub.ts:185-201 | after a legal run of two daemon connects, a restart that lists the replaced socket last indexes it again |
| PairingRuns.EveryClaimUsesUpAnOpening | relay/src/device-hub.ts:239-306 | records are exactly the outstanding openings; a claim succeeds only on one of them, with its secret, before its expiry |
| PairingRuns.ClaimsAreExact | relay/src/device-hub.ts:268-306 | over every run a claim succeeds exactly when it is complete and names an outstanding opening, with its secret and before its expiry; each refusal by its cause |
| PairingRuns.OpeningsAreConserved | relay/src/device-hub.ts:262-303 | each opening is claimed, expired, overwritten or still outstanding |
| PairingRuns.AtMostOneClaimEach | relay/src/device-hub.ts:280-303 | with a fresh id there is at most one claim or expiry in any run, and after it the pairing is gone |
| RelayWorker.ClampPairingTTL | relay/src/index.ts:275-281 | a time to live is 30 seconds to 15 minutes, follows the request inside that range, and defaults to 5 minutes |
| RelayWorker.UpgradesAreFromWorker | relay/src/index.ts:76-97 | the headers the Worker writes name the peer of the token's role |
| RelayWorker.WorkerPairingsExpireInTime | relay/src/index.ts:193-209 | a pairing opened through the Worker expires 30 seconds to 15 minutes after the Worker's clock |
| RelayWorker.OpenedTicketsCanBeClaimed | relay/src/index.ts:224-258 | the printed ticket can be claimed until expiry and not from then on |
| RelayWorker.ClaimedTokensConnect | relay/src/index.ts:235-268 | a claim puts the app on record under its name, and the token it returns opens a socket exactly when the installation id is a valid component |
| RelayWorker.DaemonTokensAuthenticate | relay/src/index.ts:179-222 | over every run a daemon token connects, and opens pairings, exactly when its secret is the one of the last bootstrap |
| RelayWorker.OnlyDaemonsOpenPairings | relay/src/index.ts:179-192 | a pairing is requested exactly for a bearer text that parses to a daemon token |
| Base64Url.DecodingUndoesEncoding | relay/src/crypto.ts:7-17 | a text decodes to a byte string exactly when it is its encoding (RFC 4648, sections 3.5, 4 and 5) |
| Base64Url.EncodedShape | relay/src/crypto.ts:7-17 | the encoding of n bytes has ceil(4n/3) characters, all URL safe |
| Base64Url.BytesToBase64Url | relay/src/crypto.ts:7-17 | standard base64 with the padding and alphabet replaced is the URL-safe encoding |
| RelayAuth.TokensRoundTrip | relay/src/auth.ts:22-62 | a text parses to a token exactly when it is the print of that token and its parts are valid |
| RelayAuth.TicketsRoundTrip | relay/src/auth.ts:68-90 | the same for pairing tickets |
| RelayAuth.InvalidIdsMakeDeadTokens | relay/src/auth.ts:117-129 | the print of an app token with an invalid installation id does not parse at all |
| RelayAuth.SecretsAreValid | relay/src/crypto.ts:25-37 | every 32-byte secret has 43 characters and fits the secret pattern |
| RelayAuth.BuiltTextsParse | relay/src/auth.ts:92-129 | built tokens and tickets parse back to their parts exactly when the caller's ids are valid components |
| RelayAuth.PairingIdsHaveTheDigits | relay/src/auth.ts:92-97 | a pairing id is `pair_` and the digit groups of the random identifier in order |
| Utf8.BoundariesSplitText | daemon/core/src/capabilities.rs:40-42 | in valid text a character boundary is exactly where both sides are valid (RFC 3629, section 4) |
| Utf8.DecodingUndoesEncoding | daemon/bin/src/main.rs:1602 | text and its UTF-8 bytes determine each other |
| TerminalOutput.TruncateTerminalOutput | daemon/core/src/capabilities.rs:34-48 | output that fits is unchanged; otherwise the marker is followed by the longest valid suffix within the limit, at most 3 bytes (and loop steps) short of it |
| PercentEncoding.DecodingUndoesEncoding | daemon/bin/src/main.rs:1600-1610 | decoding undoes encoding for every byte string (RFC 3986, sections 2.1 and 2.3) |
| PercentEncoding.EncodedIsSafe | daemon/bin/src/main.rs:1600-1610 | encoded text has only unreserved characters and percent signs, none of the reserved ones (RFC 3986, section 2.2) |
| PercentEncoding.OwnEncodings | daemon/bin/src/main.rs:1600-1610 | letters, digits and the four marks are the only characters that are their own encoding (RFC 3986, section 2.3) |
| PercentEncoding.PercentEncodeComponent | daemon/bin/src/main.rs:1600-1610 | the encoding loop |
| QrPayload.SplitIdsUndoesJoin | daemon/bin/src/main.rs:552-559 | splitting undoes the comma join exactly when ids are trimmed, non-empty and comma-free |
| QrPayload.PayloadSurvives | daemon/bin/src/main.rs:1612-1641 | a reader gets back exactly the fields put into a payload |
| QrPayload.MobilePayloadSurvives | daemon/bin/src/main.rs:1612-1622 | the payload with agents reads back as the URL and the agent list |
| QrPayload.RelayQrPayload | daemon/bin/src/main.rs:1624-1641 | the relay payload reads back as URL, ticket, the two fixed fields and the agents, if any, which split into the list put in exactly when the ids are plain |
| SkillNames.NormalizedMeans | daemon/core/src/skills.rs:188-224 | which names are accepted, and that the result is their parts with `.md` on the last |
| SkillNames.NormalizeRelativeName | daemon/core/src/skills.rs:188-224 | the loop over path components |
| SkillNames.NormalisingTwice | daemon/core/src/skills.rs:188-224 | normalisation is idempotent, except that a last part ending in a dot is rejected the second time |
| SkillNames.NormalNamesStayInside | daemon/core/src/skills.rs:123-126 | an accepted name has only normal components, so it stays below the skills directory |
| SkillNames.SegmentsMean | daemon/core/src/skills.rs:164-186 | which agent ids are accepted, on their path parts, and that the result is the one part |
| SkillNames.SegmentsArePlain | daemon/core/src/skills.rs:164-186 | an accepted agent id is one plain path part |
| SkillNames.DistilledNamesByParts | daemon/core/src/distiller.rs:136-160 | which names distilling refuses: the empty one, and those below `agents` that are not below the directory of the own agent |
| SkillNames.DistilledSkillsKeepTheirNames | daemon/core/src/distiller.rs:136-168 | the parts of a written skill are its home directory and the kept parts of its name below it, the last with `.md`; it is written exactly when none has double dots |
| SkillNames.PlainNamesAreShared | daemon/core/src/distiller.rs:157-167 | a name of one plain part that does not end in a dot is written as `shared/` and that name with `.md` |
| SkillNames.DistilledSkillsShareAFile | daemon/core/src/distiller.rs:136-168 | two distilled skills are one file exactly when home and parts agree |
| SkillNames.DistilledSkillsLandAtHome | daemon/core/src/distiller.rs:136-168 | a distilled name that is written lands under `shared/` or the agent's own directory, not both, and never under another agent's prefix |
| SkillBlocks.ParseSkillBlocks | daemon/core/src/distiller.rs:51-83 | the parsing loop |
| SkillBlocks.HeadersAreMarked | daemon/core/src/distiller.rs:57-64 | a line is a header exactly when it is some text between the two marks, and the name is that text trimmed |
| SkillBlocks.SkillsAreTheBlocks | daemon/core/src/distiller.rs:51-83 | a skill is returned exactly when the text has a block for it with a non-empty trimmed name and non-empty content, which then ends in exactly one line feed |
| SkillBlocks.SkillsComeInOrder | daemon/core/src/distiller.rs:51-83 | for every text the result is the sequence of the skills of its blocks, in order, each once |
| SkillBlocks.ParsingUndoesPrinting | daemon/core/src/distiller.rs:51-83 | printed well-formed skills with any text without headers around them parse back to the same list |

## Left out

- Interleaving inside a hub handler: handlers are atomic here, although the source awaits storage and hashing inside them.
- The inside of ciphers, signatures, hashes and key derivation: ideal functions, as `RelayCrypto` and `HubStorage.Digest` say.
- The format checks of the wire frames' `validate` other than peers and numbers: one opaque flag per frame.
- JSON text, transports, processes, timers, logging and file access: frames and payloads come in parsed, clocks and random values come in as parameters.
- JSON fields of an unexpected type in hub requests: a field is a text, or missing.
- Dropping a prompt that already waits for its turn: its waiter stays in the map, as in the source, and the value sent to it goes nowhere.
- That every prompt resolves after a disconnect: the drains fail only what is registered at that moment, and nothing is promised for a waiter inserted later.
- Text of update notifications and of error messages that no state depends on.
- The loops `accept_next_hello` and `wait_for_next_decrypted_envelope`: they skip frames as `WaitForAccept` does and then take steps that are modelled.
- Reading the bearer token from its header, request paths of the hub and the Worker, and the development endpoints.
- The pairing index object of the relay, and the approval flows of the Codex client: tables without state to relate.
- Session and thread event logs, `agent_manager.rs` and `acp_client.rs`: their consistency rests on callers that are not part of this model.
- Windows path syntax, links and canonical paths: `SkillNames` works on Unix path text.
