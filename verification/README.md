# Verification of the SSH operations proxy

This project models the parts of the proxy whose correctness depends on several
functions, several processes or a whole history, and proves what they keep:

* **Task protocol.** SSH sessions, the hub's frame reader and reconnecting Windows
  agents, joined by FIFO links (`AgentWire`, `JsonText`, `AgentPeers`,
  `AgentClients`, `TaskProtocol`, `TaskSafety`, `TaskAudit`, `TaskRouting`,
  `TaskEndings`, `TaskLinks`, `TaskExample`). A world holds any number of connections
  and sessions, each session with its audit record; every lock acquisition, channel
  operation and frame transfer is one step, and cancellation, time-outs, failing sends
  and closing connections can happen at any step.
* **Agent identity.** Admission of WebSocket connections, rotation, revocation,
  disabling, deletion, enrollment tokens and the shared registration key
  (`Tables`, `Registration`, `AgentIdentity`, `IdentitySafety`, `IdentityRuns`,
  `IdentityResults`, `SharedKeys`, `IdentityRefs`). Each SQL statement or transaction is
  one step, so handlers interleave between the statements of an admission. `AgentHubs.AgentHub` is the
  hub object: every method is proved to take steps of such a run.
* **Tokens.** The enrollment token's printer and parser over base64url (section 5 of
  RFC 4648) and hexadecimal, and the stored registration token that the settings
  handlers print again (`EnrollmentTokens`, `SelfRegistration`).
* **Login routing** (`Decimal`, `Routing`, `Stores.Store.ResolveServer`).
* **The credential relation.** Bulk updates, the start-up migrations and the CSV
  import, whose snapshot must stay equal to the server's relation (`Credentials`,
  `Stores`, `Secrets`, `Import`).
* **Audit capture.** One session's record, its 64 KiB capture and the length-prefixed
  strings of section 5 of RFC 4251 (`Audit`).

Code that updates objects in place is a class here, whose methods are proved against
functions on values (`Db`, `System`, `World`, `State`); the lemmas are about those
functions and about every run of the transition systems.

## What the proofs show about the code

* The server measures a command in the bytes of the SSH request; the agent measures the
  text that arrives, in which JSON has put three bytes for every byte that is not valid
  UTF-8. So the agent refuses an accepted command, and drops the connection, exactly
  when that text is beyond 64 KiB (`AgentRefusesIff`); 21846 bytes 0xFF are enough
  (`AcceptedThenRefused`). A shorter command with such bytes runs in its changed form;
  one that is valid UTF-8 is always started, unchanged (`ValidCommandsAreStarted`).
* The migration that protects plain secrets ends its loop early, without a check, if
  reading its rows breaks off, and commits. Every row is protected afterwards exactly if
  every plain row was read (`MigratedMeans`, `BrokenReadCommits`). No row ever reads
  differently.
* `AgentServerURL` checks the 2048-byte limit before it rewrites an https address. The
  rewritten address is longer by up to four bytes, and by two more for every byte of
  the host outside ASCII, which is printed as a percent escape (`NormalisedLength`). A
  generated or re-printed token therefore reads back exactly when the *normalised*
  address has at most 2048 bytes; with a longer one the stored token cannot be read and
  every later address save fails (`PutIsReadableIff`, `MoveKeepsTheSecret`,
  `LongAddressIsStuck`). 679 bytes of a host outside ASCII are enough
  (`ForeignHostsTriple`).
* The handler that disables a route reads the route again before it disconnects. When
  it is over, no connection from before its write is mapped exactly if that read
  succeeded and found the route still disabled, or none was mapped anyway
  (`DisableLeavesNewPeersIff`); an administrator who enables the route in between makes
  it miss (`DisableCanMissAPeer`). The handler that deletes a route misses exactly if its
  first read failed or did not find the route under the name
  (`DeleteLeavesNewPeersIff`, `DeleteCanMissAPeer`).
* The loop that disconnects registered peers ends early, without a check, if reading
  its rows breaks off. Peers admitted under a replaced key then stay mapped
  (`BrokenReadKeepsAPeer`). Registered peers are current throughout a run exactly if
  every such read reached the rows of all stale peers or failed as a whole
  (`RegisteredPeersAreCurrentIff`).
* Nothing stops an administrator from saving a device's secret as the shared key. A
  replaced key can be accepted again without being saved again exactly if a route still
  holds it or a token with credentials can still claim with it
  (`ReplacedKeyIsAcceptedIff`); a key that was never a device's secret is refused by
  every path (`ReplacedKeyIsRefused`).
* The rules that match a login are scanned by length in characters, up to the first NUL.
  For a login without a NUL that finds the longest matching rule; two matching rules
  with a NUL can tie (`NulNamesTie`). A scan that breaks off is reported as no route
  exactly like a fruitless one (`Stores.Store.ResolveServer`).
* The import page cannot tell a rejected request from one whose answer was lost. Its
  snapshot is the server's relation exactly if no credential's last effective update
  went unanswered (`AgreesIff`). A later row then removes the grant the page does not
  know of (`PairSurvivesIff`, `LostAnswerDropsAGrant`).
* The import always asks for an insert, so a row for a login that already exists always
  fails; the message that says a row was updated is never shown. Such a row changes
  nothing (`Import.ImportPage.Run`).
* An audit flag is set although nothing was dropped when an empty write follows
  exactly 64 KiB (`EmptyWriteSetsTheFlag`, `FlagIsExactIff`). Agents send no empty
  frame, so the flag of an agent's command is exact (`RecordIsWhatWasWritten`).
* `parseSSHString` adds 4 to the length in 32 bits. From a length of 2^32 - 4 on, the
  sum wraps and the slice is out of range (`ParseReadsTheString`).

In the table below the rows that begin with **Result** are the main theorems; the others
are the specifications they are about, single steps, and facts they build on.

## Model

| member | source | states |
|---|---|---|
| AgentPeers.AgentPeer.Claim | agent.go:242-251 | a session takes the slot with a fresh channel exactly when it is free, and a taken slot is left as it is |
| AgentPeers.AgentPeer.Route | agent.go:120-132 | a frame is handed on exactly when its type, size and code are valid and it names the job that holds the slot; it goes to that job's channel |
| AgentPeers.AgentPeer.Release | agent.go:258-263 | the deferred clean-up empties the slot only if it still names this session's job |
| AgentClients.Connection.Receive | internal/winagent/client.go:198-255 | what one order does: exactly a well-formed, named exec without a running task starts one, a cancel stops only the task it names, everything else ends the loop |
| AgentClients.Connection.FinishTask | internal/winagent/client.go:233-239 | clearing the job and sending its exit are one step; a failed send closes the connection |
| AgentClients.TaskOutput.Write | internal/winagent/client.go:273-297 | a write sends exactly its chunks in order, up to the first failing send; one that would pass 8 MiB sends nothing and cancels the task |
| AgentClients.ChunksCarryData | internal/winagent/client.go:282-295 | the chunks of a write concatenate to its data, on its stream |
| AgentClients.FramesCarryAcceptedData | internal/winagent/client.go:217-221 | **Result.** Over any history of writes, refused and failing ones and the error trailer included, the frames sent concatenate to the accepted data in order, each is non-empty and at most 8 KiB, and all together at most 8 MiB |
| AgentClients.SentWithinAllowance | internal/winagent/client.go:277-295 | every frame fitted what earlier frames left of 8 MiB |
| TaskSafety.StepKeeps | agent.go:105-140 | every step of hub, agents and sessions, in any order, keeps the protocol invariant |
| TaskSafety.AgentRefusesIff | internal/winagent/client.go:198-255 | **Result.** In every world of every run the next order on a live link is a cancel or the exec of the session that claimed the connection, and arrives while the agent has no task if it is an exec; the agent never refuses one as concurrent or unsupported, and one as invalid exactly if its arriving text is beyond the limit |
| TaskSafety.ValidCommandsAreStarted | internal/winagent/client.go:199-218 | **Result.** A command that is valid UTF-8 is always started, and arrives unchanged |
| JsonText.CoercedLength | internal/agentwire/wire.go:35-40 | a text grows by two bytes for each byte outside valid UTF-8, and arrives unchanged exactly if it has none |
| JsonText.RecognisedIff | internal/agentwire/wire.go:35-40 | a sequence counts as valid at the front of a text exactly if the text starts with the UTF-8 form of a Unicode scalar value |
| JsonText.CoercedIsUtf8 | internal/agentwire/wire.go:35-40 | what arrives is valid UTF-8 and would not change again |
| JsonText.CoercionCanExceedTheLimit | internal/winagent/client.go:200 | a text within 64 KiB whose arriving form is beyond it |
| TaskSafety.OutputIsFaithful | agent.go:302-336 | **Result.** What an SSH client got is an in-order prefix of what the agent emitted for this very job, and all of it, ending in the agent's exit, once that code is forwarded |
| TaskSafety.OneTaskPerAgent | internal/winagent/client.go:103-126 | **Result.** Over all its connections an agent process runs at most one task, for a session that claimed that connection |
| TaskSafety.NoJobStartsTwice | internal/winagent/client.go:208-213 | **Result.** A job is started at most once in any run |
| TaskSafety.SlotIsExclusive | agent.go:243-251 | **Result.** Two sessions never hold the slot of one connection at the same time |
| TaskSafety.SlotIsOnlyGivenUp | agent.go:253-264 | **Result.** Only its holder frees a slot, and only after the agent's exit or after the server closed the connection |
| TaskSafety.HubNeverRefusesAFrame | agent.go:120-130 | **Result.** Against this agent the hub's checks on type, size and code always pass, and the job check passes while the server's end is open |
| TaskSafety.OutputLimitNeverReached | agent.go:324-328 | **Result.** The server's own 8 MiB cutoff never fires against this agent |
| TaskAudit.RecordIsWhatWasWritten | agent.go:218-229 | **Result.** In every world of every run a session's record holds the first 64 KiB of what was written whole to the SSH channel, agent output and own message, never a frame written in part, and its flag is exact |
| TaskAudit.EndingIsRecorded | agent.go:222-229 | **Result.** A session that is over has recorded the agent's code in 32 bits if it was forwarded, 130 if it was cancelled, 124 if it timed out, nothing if a write to the channel failed, and 125 for every other ending |
| TaskAudit.RecordedCodeTells | agent.go:222-229 | **Result.** At any moment a recorded 130 means a cancelled task or that very agent code, a recorded 124 a time-out or that very code, and any number but 124, 125 and 130 the agent's own code |
| TaskAudit.CompletedRecordIsExact | agent.go:314-335 | **Result.** Once the agent's code is forwarded, the record holds that code and the first 64 KiB of all the agent emitted |
| TaskExample.ACommandCompletes | agent.go:315-322 | the model does reach a completed command: a run that prints and forwards exit code 7 |
| TaskRouting.TasksServeTheirServer | agent.go:235-243 | **Result.** In every world of every run a task runs only on a connection that was admitted for the server its SSH session was opened for |
| TaskRouting.GivenUpIsClosed | agent.go:252-264 | **Result.** A session that claimed a connection and ended without the agent's exit has closed it |
| TaskRouting.CancelsAreMeant | internal/winagent/client.go:242-252 | **Result.** A cancel that an agent reads stops the task it names if that one runs, and no other; its session has given the task up |
| TaskRouting.OrdersAreCarriedOut | internal/winagent/client.go:198-255 | **Result.** In every world of every run: the exec an agent reads next is started, as the connection's only task and for the first time, if its command arrives within the limit, and ends the loop if not; a cancel leaves job and tasks as they are |
| TaskRouting.GivingUpSendsACancel | agent.go:254-256 | the first act of giving up is a cancel for the session's own job |
| TaskRouting.MappingIsKept | agent.go:105-113 | a mapped connection leaves the map exactly when its server is disconnected or its own reader tears it down |
| TaskRouting.DisconnectedIsNeverUsed | agent.go:46-56 | **Result.** A connection that a handler has disconnected stays closed and out of the map, and no session that looks up later ever uses it |
| TaskRouting.CommandsIff | agent.go:213-217 | an exec request is accepted exactly if its payload starts with a length-prefixed text of 1 to 65536 bytes |
| TaskEndings.EverySessionCanMove | agent.go:230-338 | **Result.** In every world of every run a session that is not over has a step, whatever hub, agent and network did |
| TaskEndings.RefusalTells | agent.go:235-248 | before dispatch a session ends as offline exactly if no connection is mapped for its server, and as busy exactly if the slot is held |
| TaskEndings.StreamingCanEnd | agent.go:304-313 | **Result.** Every run with a streaming session goes on to one in which it is cancelled or timed out, or disconnected if the reader has stopped, and 130, 124 or 125 is recorded |
| TaskEndings.EndingsAreAnnounced | agent.go:222-229 | in every run a session that ends shows and records its own message last, if there is one and the write succeeds; a forwarded exit and a failed write come without one |
| TaskLinks.ClosedEndsStayShut | agent.go:46-56 | **Result.** An end of a connection that is closed, by whichever step of either side or a failing send, stays closed, and nothing is added to its link for the rest of the run |
| TaskLinks.AgentCanReconnect | internal/winagent/client.go:103-126 | **Result.** Every run goes on to a world in which a given agent process has a fresh connection |
| TaskExample.DispatchRun | agent.go:265 | every command the server accepts can reach the agent; if its arriving text is too long the agent stops reading |
| TaskExample.AcceptedThenRefused | internal/winagent/client.go:200-202 | a run in which an accepted command of 21846 bytes is refused by the agent |
| EnrollmentTokens.DecodeEncode | internal/agentwire/enrollment.go:34 | **Result.** Base64url decoding undoes encoding for every byte string |
| EnrollmentTokens.BreaksDoNotMatter | internal/agentwire/enrollment.go:42 | line breaks anywhere in an encoded text do not change what is decoded |
| EnrollmentTokens.NormalisedIsFixedPoint | internal/agentwire/enrollment.go:18-29 | **Result.** A normalised address normalises to itself if it has at most 2048 bytes and is refused otherwise |
| EnrollmentTokens.AcceptedAddresses | internal/agentwire/enrollment.go:12-29 | **Result.** Accepted are exactly the WSS endpoints and the HTTPS origins, in the spellings given, of at most 2048 bytes; an endpoint is kept as written and an origin becomes the endpoint at its authority |
| EnrollmentTokens.NormalisedLength | internal/agentwire/enrollment.go:26-28 | a rewritten address has twelve bytes more than its authority, and two more for each byte of the host outside ASCII |
| EnrollmentTokens.UnescapeEscape | internal/agentwire/enrollment.go:22-28 | a printed host reads back |
| EnrollmentTokens.HostCharMeans | internal/agentwire/enrollment.go:13-22 | the printable ASCII characters a host may hold are all but the delimiters of other parts and those always escaped |
| EnrollmentTokens.ForeignHostsTriple | internal/agentwire/enrollment.go:22-28 | an accepted address whose host is outside ASCII is refused once normalised, exactly from 679 bytes on |
| EnrollmentTokens.NormalisationCanExceedTheLimit | internal/agentwire/enrollment.go:18-29 | an accepted address whose normal form is refused |
| EnrollmentTokens.TokenRoundTrip | internal/agentwire/enrollment.go:33-49 | **Result.** Parsing a printed token gives the normal form of the address and the same secret for every address and 64-digit secret, and the 4096-byte limit is never reached |
| EnrollmentTokens.NormalisedTokenRoundTrip | internal/agentwire/enrollment.go:33-49 | **Result.** A token printed with a normalised address reads back exactly when that address has at most 2048 bytes |
| EnrollmentTokens.TokenParts | internal/agentwire/enrollment.go:37-41 | a printed token splits into exactly its three parts |
| EnrollmentTokens.ParsedTokenIsSound | internal/agentwire/enrollment.go:37-49 | whatever parses has a 64-digit secret and a normalised address |
| EnrollmentTokens.AcceptedTokens | internal/agentwire/enrollment.go:37-49 | **Result.** Read as tokens are exactly the texts of at most 4096 bytes made of the tag, a code that decodes to an accepted address, and 64 hexadecimal digits, and that is what is read |
| EnrollmentTokens.HostnameMeans | internal/agentwire/enrollment.go:51-53 | a host name is a letter or digit followed by at most 252 letters, digits, dots, hyphens and underscores |
| SelfRegistration.PutIsReadableIff | self_registration.go:129-168 | **Result.** After a save the stored token reads back as stored address and hash, exactly when it was supplied or its address has at most 2048 bytes |
| SelfRegistration.PutStoresTheToken | self_registration.go:129-168 | a save is accepted exactly if the address is one and a supplied token was made for it; it enables the key and stores the supplied token and its secret, or a new token and the secret just drawn |
| SelfRegistration.MoveKeepsTheSecret | self_registration.go:62-104 | **Result.** An address save keeps secret, hash and enabled flag, and leaves a readable token exactly under the length condition |
| SelfRegistration.StoredTokenStaysReadable | self_registration.go:62-215 | **Result.** After any sequence of saves, address saves and disables the token is empty without a hash or reads back as the stored address and a secret with the stored hash, for addresses of at most 2048 bytes |
| SelfRegistration.LongAddressIsStuck | self_registration.go:84-91 | with a longer address the stored token is unreadable and every address save is refused |
| Tables.FoldMeans | self_registration.go:25 | two names fold alike exactly if they are equal but for the case of ASCII letters, and the folded name is the spelling without capitals |
| Registration.FreeNameMeans | self_registration.go:293-299 | a name is free exactly if no route has it in any spelling |
| Registration.PeerHashMeans | self_registration.go:256-257 | derived hashes agree exactly for one key and one name in any spelling, and are never the key's own |
| Registration.SharedRegistrationIs | self_registration.go:261-311 | **Result.** Under the stored, enabled key only: a new host name gets a new enabled route of that name, free in every spelling; a known one keeps its enabled agent route, whose hash is renewed; nothing else changes |
| Registration.SharedNamesIdentifyRoutes | self_registration.go:256-311 | **Result.** A second registration under one key reaches the first one's route and changes nothing if its host name differs at most in letter case; any other gets another route and another hash |
| Registration.LeastFreeIsLeast | enrollment.go:233-247 | the suffix loop stops with the first free candidate, or all thousand are taken |
| Registration.ClaimIsAtomicAndOnce | enrollment.go:208-263 | **Result.** A claim creates one enabled agent route under the first free candidate name, touches no other, grants exactly the token's credentials, binds token, host name and route together, and cannot succeed twice |
| IdentitySafety.StepKeeps | self_registration.go:169-312 | every step of admissions, handlers and settings keeps the identity invariant |
| IdentitySafety.RunExtends | enrollment.go:178-263 | along every run keys are not reused, claims and first routes of host names are never rewritten, and no deleted route comes back |
| IdentityResults.RegisteredPeersAreCurrent | self_registration.go:169-237 | unless a settings handler is part-way, a peer the shared key admitted and that is still linked was admitted under the key stored and enabled now, if no broken-off read passed it over |
| IdentityResults.RegisteredPeersAreCurrentIff | self_registration.go:218-237 | **Result.** Over a run no stale registered peer is mapped between settings handlers exactly if every membership read reached all stale rows or failed as a whole |
| IdentityResults.BrokenReadKeepsAPeer | self_registration.go:228-236 | a run in which a read breaks off and a peer of the replaced key stays mapped |
| IdentityResults.ReplacedKeyIsRefused | self_registration.go:242-260 | in every run a secret once saved as shared key, and never a device's, gets a route only while it is the stored, enabled key |
| IdentityResults.SharedDeviceSecretStays | self_registration.go:249-252 | a run in which a device's secret, saved as shared key and replaced, is accepted for its own route |
| SharedKeys.ReplacedKeyIsAcceptedIff | self_registration.go:242-251 | **Result.** A key that is no longer stored is accepted, and its connection mapped, in some continuation of the run that does not save it again, exactly if a route holds it or a token with credentials can claim with it; else no later admission with it is resolved |
| SharedKeys.SharedOnlyIsDead | self_registration.go:256-257 | no route holds and no token can claim with a shared key that was never a device's secret |
| SharedKeys.RunKeepsHeld | enrollment.go:144-166 | in no world of any run does a route hold the hash of a disabled token |
| SharedKeys.StoredMeansSaved | self_registration.go:169-197 | a key that becomes the stored one was saved in between |
| IdentityResults.RoutesNeverHoldSharedKeys | self_registration.go:256-257 | no route of any kind and no enrollment token stores the hash of a shared key that is no device's secret |
| IdentityResults.ReturnedHandlersLeaveNewPeers | agent.go:46-56 | **Result.** Once a handler's disconnect is done, a peer mapped to that route was resolved wholly after the handler's write |
| IdentityResults.DisableLeavesNewPeersIff | api.go:359-382 | **Result.** In every run, when the handler that sets a route's flag is over, no peer from before its write is mapped exactly if its second read succeeded and found the route still disabled, or none was mapped anyway |
| IdentityResults.DisabledRouteIsLeft | api.go:367-378 | after that read finds it disabled, at every later moment the handler still has to disconnect the route or no older peer is mapped to it |
| IdentityResults.DeleteLeavesNewPeersIff | api.go:314-325 | **Result.** In every run, when the handler that deletes a route is over, no peer from before the deletion is mapped exactly if its first read succeeded and found the route under the name, or none was mapped anyway |
| IdentityResults.DeleteCanMissAPeer | api.go:316-324 | a run in which deleting returns with the deleted route's peer still mapped |
| IdentityResults.DisableCanMissAPeer | api.go:367-378 | in every run in which an enabled route has a peer, disabling can return with that peer still mapped |
| IdentityResults.TeardownSparesSuccessors | agent.go:105-113 | a late teardown unmaps no connection but its own |
| IdentityResults.HostHasOneRouteForever | self_registration.go:275-308 | **Result.** The first route of a folded host name is its only one for the rest of the run |
| IdentityResults.DifferentHostsDifferentRoutes | self_registration.go:300-308 | host names that fold differently have different first routes |
| IdentityResults.DeletedRowsStayDeleted | enrollment.go:248-255 | a deleted route's key never holds a route again |
| IdentityResults.RegistrationsAgreeIff | self_registration.go:275-311 | **Result.** Over a run, whatever happens between and whatever keys are stored, two registrations reach one route exactly if their host names differ at most in letter case |
| IdentityResults.DeletedHostIsNeverRegistered | self_registration.go:275-279 | **Result.** After the route that a host name was registered on is deleted, every later registration fails, under any key, of that name in any spelling |
| IdentityResults.TokenCreatesOneRoute | enrollment.go:214-259 | **Result.** Over a run a token creates at most one route; used, host name and route stand or fall together |
| IdentityResults.ReconnectReachesTheSameRoute | enrollment.go:181-192 | **Result.** An accepted enrollment token reaches the route it created, under the host name it was bound to, unless it is accepted as the current shared key |
| IdentityResults.RotateKills | agent.go:154-159 | after rotation no route and no token accepts the old secret |
| IdentityResults.RevokeKills | enrollment.go:144-166 | after revocation no route and no claim accepts the token |
| IdentityResults.DeleteKills | store.go:962-965 | deleting a route cannot be undone by the token that created it |
| IdentityResults.DeadSecretIsNeverAccepted | agent.go:93-103 | **Result.** A device secret that no route or token accepts is never accepted as one again: later admissions with it fail, or use it as the stored shared key |
| IdentityResults.RotatedSecretIsGone | agent.go:143-160 | **Result.** Once a rotation returned, no mapped peer of the route and no route runs on the old secret, for the rest of the run |
| IdentityResults.NoDispatchOnADeadSecret | agent.go:230-241 | a session that reads its row after a device secret died, by rotation, revocation or deletion, never dispatches to a peer admitted under it |
| IdentityRefs.ReferencesStaySound | store.go:298-302 | **Result.** In every world of every run each link, token and host name refers to rows that exist, tokens only to credentials that exist, and no login name is given twice |
| IdentityRefs.DeletedCredentialIsGone | enrollment.go:38-41 | a deleted credential is gone from every route and token at once; a token's other credentials stay |
| IdentityRuns.AdmissionIsRun | self_registration.go:242-312 | **Result.** Resolving and mapping a connection under the hub's lock is a sequence of steps of the transition system with the same outcome |
| IdentityRuns.ClaimRun | enrollment.go:208-262 | runs in which a token is claimed exist, for every valid host name |
| AgentHubs.AgentHub.Serve | agent.go:58-104 | the checks before the upgrade change nothing, and exactly a request that passes them reaches the locked part |
| AgentHubs.AgentHub.Connect | agent.go:93-104 | a connection is mapped exactly when its token resolves to a route without a peer; table, lock and peers move along a run |
| AgentHubs.AgentHub.Teardown | agent.go:105-113 | removes exactly this connection's entry |
| AgentHubs.AgentHub.HandleRotate | agent.go:143-163 | exactly an agent route gets the new hash, and nothing else of it or of any other row changes; it loses its peer |
| AgentHubs.AgentHub.HandleRevoke | enrollment.go:132-174 | the token is disabled, and its route is cleared and disconnected exactly if it still held the token's hash |
| AgentHubs.AgentHub.HandleUpsert | api.go:228-312 | exactly an acceptable request for a free login name, a known route or none, and an existing credential is saved, as the row that follows from the request alone, and its route disconnected; any refusal changes nothing |
| AgentHubs.AgentHub.HandleSetEnabled | api.go:359-382 | without interference the flag is written and disabling disconnects the route |
| AgentHubs.AgentHub.HandleDelete | api.go:314-325 | **Result.** Without interference exactly the named route, its links and its peer go; exactly the token and host rows that referred to it refer to none; every other row, link and setting stays |
| Stores.DeletionForgetsTheLogin | store.go:298-302 | **Result.** A deletion takes the deleted login, and no other, from every credential, and references stay sound |
| AgentHubs.AgentHub.HandleCreateEnrollment | enrollment.go:51-107 | exactly a valid request creates a token row with exactly the listed credentials, and the token it returns reads back |
| AgentHubs.AgentHub.DisconnectRegistered | self_registration.go:218-237 | exactly the peers whose rows are read go, or all of them if the query fails |
| AgentHubs.AgentHub.HandlePut | self_registration.go:129-203 | accepted exactly if the address is one and a supplied token was made for it; enables that key and stores that token; exactly if the hash changed, the registered peers whose rows are read go |
| AgentHubs.AgentHub.HandleSaveAddress | self_registration.go:62-104 | rewrites the address only, keeps every peer, and says exactly when it is refused |
| AgentHubs.AgentHub.HandleDisable | self_registration.go:205-215 | afterwards no key and host name can register, and the registered peers whose rows are read are gone |
| AgentHubs.MappedPeersAreCurrent | self_registration.go:198-213 | at any moment of a hub's life its registered peers run on the stored, enabled key, if no broken-off read passed them over |
| AgentHubs.SharedSecretResolvesIff | self_registration.go:242-312 | **Result.** A once shared secret that is no device's resolves exactly when it is the stored, enabled key and the host name can register |
| Decimal.AtoiItoa | store.go:706-707 | reading back a printed 64-bit integer gives that integer |
| Decimal.AtoiReads | agent.go:74-79 | besides canonical prints, a plus sign and leading zeros are read and do not matter |
| Decimal.AtoiNeedsDigits | agent.go:74-79 | nothing but an optional sign and digits is read |
| Routing.TryRuleMeans | store.go:702-709 | a rule's scan test accepts a port exactly when the login is the prefix and that allowed port's canonical print |
| Routing.MatchesOrdered | store.go:694 | of two rules that match a login without a NUL the longer is also longer as LENGTH counts |
| Routing.NulNamesTie | store.go:694 | two matching rules with a NUL in their prefix tie, and a scan may yield the shorter first |
| Routing.ResolutionIsUnique | store.go:694-713 | **Result.** A valid table gives a login one answer, so ties of ORDER BY LENGTH do not matter |
| Routing.CountedIff | api.go:264 | a text is counted at least once exactly if it occurs somewhere |
| Routing.MarkedIff | api.go:275 | counted once and a suffix, the port marker stands at the end and nowhere else, and conversely |
| Routing.TrimMeans | api.go:233 | trimming removes white space characters at both ends until none is left, and nothing else |
| Routing.AcceptedIff | api.go:233-295 | **Result.** Exactly which requests for a route pass validation: kind, mode, marker, ports, ownership, host and fingerprint |
| Routing.AcceptedRowIs | store.go:756-791 | the row saved for an accepted request: host, default port 22, port range, mode, credential and kind |
| Routing.StoredRowIs | store.go:756-791 | whatever request the store is given, an agent's row is fixed, without port and credential, and no port bound is 0 |
| Routing.UpsertKeepsRoutes | api.go:262-290 | saving an accepted request keeps the table valid, writes exactly the row that follows from it, and keeps every other row and the flag and token hash of the row it replaces |
| Stores.Store.ResolveServer | store.go:683-716 | **Result.** For a login without a NUL the scan returns the fixed route of that name, else the longest matching rule with its port; none is the right answer exactly if no matching rule was left unread |
| Stores.UniquePositiveIDs | store.go:832-849 | refuses exactly empty lists and non-positive keys, else keeps the first occurrences |
| Stores.DistinctMeans | store.go:836-848 | the kept list has the same elements and no duplicates |
| Stores.Store.BulkUpdateServerCredential | store.go:852-902 | succeeds exactly under the stated conditions and then sets the credential of exactly the listed routes for "replace" and clears it for "remove"; else changes nothing |
| Stores.Store.BulkUpdateClientCredentials | store.go:905-960 | **Result.** Exactly "replace", "add" and "remove" are accepted; every listed server ends with the listed credentials, the union or the difference, whatever the order and duplicates, and every other keeps its own; on any error nothing changes |
| Credentials.LinksAreDetermined | store.go:938-958 | the per-server description of the result determines the whole relation |
| Credentials.BulkTwice | store.go:938-958 | repeating a bulk operation changes nothing more |
| Credentials.ReplaceForgets | store.go:938-958 | a replacement makes earlier bulk operations on the same servers irrelevant |
| Credentials.RemoveUndoesAddIff | store.go:938-958 | removing what was just added restores the relation exactly if none of it was there before |
| Stores.Store.UpdateClientCredential | store.go:1313-1375 | **Result.** The row gets the caption and type sent; what was sent for that type, else what was stored for it; and nothing for the other type. All of it commits, exactly if the credential and type exist, a password has at most 72 bytes and no known name is listed twice; else nothing |
| Credentials.UpdateCredentialMeans | store.go:1313-1350 | **Result.** Afterwards the credential is linked to exactly the known listed names; every other credential's row and names stay |
| Credentials.StoredRowsAreCanonical | store.go:1352-1375 | columns a type does not use are null and no column is empty, after any update |
| Credentials.EchoKeepsSecrets | store.go:1352-1375 | sending back a stored row without a password keeps its key and password hash |
| Stores.Store.SetServerEnabled | store.go:806-815 | writes the flag of the named route and nothing else, or fails if there is none |
| Stores.Store.AuthenticateAgent | enrollment.go:178-263 | answers for a route holding the hash, else claims; says exactly when it fails, and failing changes nothing |
| Stores.Store.ResolveAgent | self_registration.go:242-312 | the stored shared hash registers a host name, any other hash takes the device path; failing changes nothing |
| Secrets.DecryptEncrypt | store.go:129-160 | a protected text reads back |
| Secrets.CredentialTable.ProtectAll | store.go:361-413 | **Result.** If every row read can be opened and no statement fails, exactly the rows read are protected; else nothing changes |
| Secrets.MigratedMeans | store.go:361-413 | **Result.** After the migration every row reads as before, protected rows are untouched, and every row is protected exactly if every unprotected one was read |
| Secrets.MigratedTwice | store.go:415-424 | running the migration again changes nothing more |
| Secrets.BrokenReadCommits | store.go:378-411 | a read that breaks off after the first of two plain rows: success is reported and the second stays plain |
| Secrets.ServerTables.Rebuild | store.go:164-242 | rebuilds a legacy table once, all or nothing, with each row's login, host, port, flag, credential, notes and time stamps; a rebuilt one is left alone |
| Secrets.RebuildKeepsTheRelation | store.go:230-232 | **Result.** Distinct keys for distinct logins, the same logins, and for each the same credentials as before |
| Import.ImportPage.Reconcile | webui/src/ServersPage.tsx:87-108 | **Result.** It succeeds exactly if every entry that has to change is answered with success. Then the login has exactly the selected credentials in the snapshot, and on the server exactly where no edit of this login is lost; otherwise entries only move towards the selection; no other login, key or hash in the snapshot changes |
| Import.ImportPage.ImportRow | webui/src/ServersPage.tsx:1060-1090 | exactly when a row creates its route and which one, and exactly when it succeeds; whether or not it does, only its own login changes |
| Import.ImportPage.Run | webui/src/ServersPage.tsx:1053-1091 | **Result.** Whatever answers are lost: exactly the first acceptable row of each new login creates the route it describes, and succeeds exactly if every answer it needs arrives; every successful row ends with exactly its credentials, existing routes, logins and all secrets stay, nothing unlisted is granted; snapshot and relation agree exactly if no edit is lost, so always if no answer is |
| Import.SaveTracks | webui/src/ServersPage.tsx:96-106 | one update keeps the page's invariant; if it takes effect, the credential gets the page's list with this one change and no other credential changes |
| Import.AgreesIff | webui/src/ServersPage.tsx:1053-1056 | **Result.** Under that invariant the snapshot is the server's relation exactly if no credential's last effective update went unanswered |
| Import.PairSurvivesIff | webui/src/ServersPage.tsx:102-106 | **Result.** Another login's pair with the credential survives an update exactly if the update has no effect or that login's last edit of it was not lost |
| Import.LostAnswerDropsAGrant | webui/src/ServersPage.tsx:1060-1090 | two rows in which the first one's committed grant, whose answer was lost, is removed by the second |
| Import.InsertKeepsRelation | webui/src/ServersPage.tsx:1063-1071 | creating a route leaves the relation by login name as it was |
| Audit.ParseReadsTheString | audit.go:170-179 | parsing reads exactly the leading string for lengths below 2^32 - 4, and exactly from there on the slice is out of range |
| Audit.ParseMarshal | audit.go:170-179 | a marshalled string reads back whatever follows it |
| Audit.CaptureIsPrefix | audit.go:126-144 | **Result.** Whatever the writes, the capture is the first 64 KiB of them |
| Audit.FlagIsExactIff | audit.go:132-141 | **Result.** The flag says that bytes were dropped, except after an empty write at exactly 64 KiB |
| Audit.EmptyWriteSetsTheFlag | audit.go:134-136 | such a write sets the flag although nothing was dropped |
| Audit.AtMostOneInsert | audit.go:75-93 | **Result.** Over any interleaving a session inserts at most one row and keeps its key |
| Audit.ExecRecordsOutput | audit.go:126-144 | an exec session's output is the first 64 KiB of what its writer was given, in order |
| Audit.ExecFlagIsExact | audit.go:132-141 | with non-empty writes its flag is set exactly when bytes were dropped |
| Audit.DetailRecordsTyping | audit.go:99-116 | **Result.** Over any interleaving the recorded detail is the first 64 KiB of what the client typed, in order, and its flag exact but after an empty write at exactly 64 KiB |
| Audit.OthersRecordNoOutput | audit.go:129-131 | a session without a readable exec request records no output |
| Audit.AuditSession.NoteRequest | audit.go:53-96 | how each request changes the session, that a row is inserted exactly with the first event, and that exactly a wrapping length prefix stops the program |
| Audit.AuditSession.WriteOutput | audit.go:126-144 | one write captures up to the limit, for exec sessions only |
| Audit.AuditSession.Finish | audit.go:151-166 | completes exactly the session's own row with what was captured |

## Left out

- Text: a string stands for a byte string, one character per byte. UTF-8 is modelled where the program depends on it: commands in JSON frames, LENGTH, and white space around an ownership. The bodies of requests to the management interface are taken as they are after decoding.
- TaskProtocol: the 512 KiB read limit of a frame and the escaping inside JSON strings are not modelled.
- TaskProtocol: job identifiers are numbered, so they are distinct and never empty; the program draws them at random.
- TaskProtocol: WebSocket framing, heartbeats, TLS and clocks are arbitrary closes, time-outs and failing sends; signal requests and the watchdog that closes a stalled SSH channel are arbitrary interrupts and failing writes.
- TaskProtocol: the session's second read of the route and the comparison of hashes are an arbitrary refusal there; what that comparison guarantees is `IdentityResults.NoDispatchOnADeadSecret`.
- TaskProtocol: the texts of the session's own messages are arbitrary.
- TaskProtocol: the command runner makes its writes before it returns and returns a code that is not negative.
- AgentClients.TaskOutput.Write: reports to the event handler are not modelled.
- AgentIdentity: random secrets of devices are fresh; SHA-256 is an injective function.
- AgentIdentity: the saved token's text is arbitrary in runs; `SelfRegistration` says what it is.
- AgentIdentity: the handlers for credentials and bulk updates are one step that changes credentials and links arbitrarily.
- AgentHubs.AgentHub.HandleUpsert: whether a host key fingerprint has the right form is given with the request.
- EnrollmentTokens.TokenRoundTrip: bracketed hosts, that is IPv6 literals, are refused by the model.
- EnrollmentTokens.NormalisedIsFixedPoint: the same.
- EnrollmentTokens.AcceptedAddresses: the same.
- Stores.Store.ResolveServer: the two queries see one table; edits between them are not modelled.
- Secrets.DecryptEncrypt: AES-GCM is abstract: a sealed text opens to what was sealed, and a damaged one does not open. Failing random draws are not modelled.
- Secrets.ServerTables.Rebuild: which statement of the transaction fails is one flag.
- Import.ImportPage.Run: parsing of the CSV text is left out, and nobody else edits routes or credentials meanwhile.
- Audit: failing writes to the audit table other than the insert, and listing and filtering of records.
- Proxy listeners, connection counters, sessions and cookies, bcrypt, certificate generation, upgrades, settings pages and everything else in the web interface: short branch arguments or foreign calls.
- Creating and deleting credentials, and setting all servers of a server credential: easy members of the same shape as the updates above.
