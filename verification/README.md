# Verification of transport-lib

A Dafny model of the two parts of this library that hold state: the sidecar bridge (`pkg/bridge`, with the
normaliser of `pkg/envelope`) and the token lifecycles over Redis (`pkg/auth`).

## The bridge

`Protocol.dfy` models client and server as one transition system. A step is one access to shared state, and
steps of all goroutines interleave freely: the reconnect loop and `connect`, one consume loop and one heartbeat
loop per successful connect, any number of `PublishIngress` and `Ack` calls, the subscribers, and on the server
one session loop per stream and any number of `SendX` calls. A stream is a pair of FIFO wires that can be cut
anywhere; connect can fail at any point; streams are numbered, so a frame, a delivery or an error can be traced
to its generation. A call through a nil stream, or a send on a closed channel, is a crash and ends the run.

- `ProtocolLife`, `ProtocolLock`, `ProtocolFlow`, `ProtocolShape`, `ProtocolCount`, `ProtocolOpening` each hold one
  invariant and the proof that every step keeps it; `ProtocolRuns` puts them together for every reachable state.
- `BridgeTheorems` states what follows: conservation of acknowledgements across reconnects, lossless ordered
  demultiplexing, the generation discipline, at-most-once ordered ingress, backpressure, write-once acks.
- `BridgeLimits` states where the guarantees end, as exact conditions or as concrete runs.
- `Session`, `Client`, `Backoff` and `Envelope` hold the sequential code as methods over heap objects: the session
  loop, the consume loop, connect/cleanup/Close, publishing with its semaphore, `sendAck`, `Delivery.Ack`, the
  reconnect loop with its int64 waits, and the in-place normaliser.
- `ClientSteps` connects the two: a connect, Close, publish, slot or ack call, made on a client that a protocol state
  describes, is a run of the protocol from that state, and the state it leads to describes the client afterwards.
  `ServerSteps` does the same for the session loop and the session's senders.

Findings about the code:

- Registration is sure to be the first frame of a stream exactly when no earlier connect has succeeded, because the
  stream field is set before Register is sent, outside the send lock, and `started` is never reset
  (`RegisterFirstExactly`).
- A publish or heartbeat that finds a nil stream under the lock crashes. Some interleaving leads there from every
  state, also for a call that began while the stream was set, except once the run loop has exited either without a
  cleanup, so that its last stream stays in the field, or without ever having connected (`SendCrashesExactly`). An
  ordinary reconnect is enough (`ReconnectCanCrashPublish`).
- The next Recv of the consume loop crashes exactly when the run loop has exited; from anywhere between two receives
  a cancellation can make it so (`RecvCrashesExactly`, `CancelCanCrashConsume`). No step other than these two and a
  push after Close crashes (`StepCrashesExactly`).
- `Drain` waits for the run loop and every heartbeat loop, but not for the consume loop (`DrainLeavesConsume`). An
  exit of the run loop leaves one running exactly when it is the one on a done context while serving, and the latest
  consume loop has not ended by itself (`ExitLeavesConsumeExactly`).
- The repository's README says a broadcast frame carries a broadcast id; `SendBroadcast` never sets one, so a
  broadcast's `Ack` never sends a frame (`AckPromises`).
- The waits double up to the maximum exactly when the maximum is at most the largest doubling of the base that
  an int64 holds; above that a wait becomes negative (`LawExactly`).

## Tokens

`Redis.dfy` is a keyed database with expiry and a clock, `Stores.dfy` the four stores over it, `Tokens.dfy` the
issuing and verifying operations. `AuthSystem.dfy` runs all lifecycles at once over one database: a login is two
steps (advance the version, then read the clock and sign), so is redeeming a refresh token (check it, then take the
key) and revoking an access token (measure the time left, then write). `AuthPrograms.dfy` shows that the operations
of `Tokens`, called on a database and clock that a state describes, do those steps and answer what the state accepts.
`AuthTheorems.dfy` states the results.

- The comment on `GenerateSimpleToken` says old tokens are invalid at once. That holds in every run exactly when the
  version key has no expiry, or lives at least token lifetime + leeway + signing delay + verification lag
  (`SingleSessionExactly`); below that bound, by however little, an old token is accepted beside a newer login.
- A revoked access token is rejected up to its expiry. It stays rejected for ever exactly when the leeway is zero and
  no time passes between a verification's expiry check and its reading of the blocklist; otherwise it is accepted
  again within the leeway after its expiry, or by a verification that straddles the expiry (`RevocationExactly`).

## Model

| member | source | states |
|---|---|---|
| Envelopes.NormalizeMessage | pkg/envelope/envelope.go:30-46 | in place, a missing id becomes the generated one, a missing timestamp the clock reading, the rest their defaults; set fields and nil are left alone |
| Envelopes.NormalizeEnvelope | pkg/envelope/envelope.go:67-81 | in place, the envelope becomes its normalised value and keeps its message pointer |
| Envelopes.NormalizedCompletes | pkg/envelope/envelope.go:66-81 | every defaulted field ends set, no set field is overwritten, and exactly the normal envelopes are fixed points |
| Envelopes.MessageDefaults | pkg/envelope/envelope.go:34-45 | what each missing field of a message becomes |
| Envelopes.EnvelopeDefaults | pkg/envelope/envelope.go:71-80 | what each missing field of an envelope becomes |
| Envelopes.GeneratedIdsDiffer | pkg/envelope/envelope.go:37-39 | two messages without an id end with different ones |
| Envelopes.NormalizedIdempotent | pkg/envelope/envelope.go:66-81 | a second normalisation with any other uuid and clock changes nothing |
| Envelopes.NormalizedRequestId | pkg/envelope/envelope.go:37-39 | a set request id survives; afterwards it is empty exactly when there is no message |
| Envelopes.TrimSpaceEmpty | pkg/envelope/envelope.go:56-58 | an action counts as missing exactly when every character is white space |
| Envelopes.IsSpaceExactly | pkg/envelope/envelope.go:56-58 | which characters are white space |
| Envelopes.ValidateIngressExactly | pkg/envelope/envelope.go:49-64 | exactly which messages pass, which fault each other one gets, and that normalising does not change the verdict |
| Envelopes.StampTrace | pkg/envelope/envelope.go:84-93 | in place, both trace fields are set, the map entry also for copies that share the map; an empty id or nil envelope changes nothing |
| Envelopes.StampSurvivesNormalization | pkg/envelope/envelope.go:84-93 | the trace id and its attribute agree and survive normalisation; the message and the other attributes are not affected |
| Sessions.Stream | pkg/bridge/server.go:118-169 | the callbacks are the registration's data, then every non-nil ingress and ack and every heartbeat read, in order; it ends for its reason, at the first refused callback if there is one |
| Sessions.Loop | pkg/bridge/server.go:138-168 | the registered part refines the specification for any frames and any handler verdicts |
| Sessions.ServeShaped | pkg/bridge/server.go:134-168 | one frame keeps the trace: registration, reactions in order, and OnClose exactly at the end |
| Sessions.HangupShaped | pkg/bridge/server.go:137-142 | a receive error ends a registered session with OnClose and an unregistered one with nothing |
| Sessions.PlayShaped | pkg/bridge/server.go:118-169 | a whole session against any script of frames and verdicts ends in such a trace |
| Sessions.PlayHeeds | pkg/bridge/server.go:134-168 | the session goes on past every accepted callback and ends at the first refused one |
| Sessions.CallsBracketed | pkg/bridge/server.go:134-137 | OnRegister first and once, OnClose last and at most once, none after a refused registration |
| Sessions.SessionHandsIngressInOrder | pkg/bridge/server.go:144-149 | the handler gets exactly the non-nil ingress envelopes read, in order |
| Sessions.SessionHandsAcksInOrder | pkg/bridge/server.go:150-157 | the handler gets exactly the non-nil acks read, in order |
| Sessions.SessionHandsOn | pkg/bridge/server.go:123-165 | the callbacks in terms of the frames, for each kind and across kinds |
| ServerSteps.StreamRuns | pkg/bridge/server.go:118-169 | a session against any frames and handler is a run of the protocol's server steps |
| Sessions.ServerSession.SendDeliver | pkg/bridge/server.go:87-91 | the frame carries the normalised envelope; only the caller's message is written to |
| Sessions.ServerSession.SendBroadcast | pkg/bridge/server.go:93-97 | likewise, with an empty broadcast id |
| Sessions.ServerSession.SendHeartbeat | pkg/bridge/server.go:99-102 | the frame carries the nonce |
| ServerSteps.DeliverAsStep | pkg/bridge/server.go:87-91 | the call is the protocol's delivery step |
| ServerSteps.BroadcastAsStep | pkg/bridge/server.go:93-97 | the call is the protocol's broadcast step |
| Sessions.FanOut | pkg/bridge/server.go:87-97 | one message sent in any envelopes to any sessions, with repeats and failures: every frame carries the form, and so the request id, of its first normalisation |
| Clients.Reader.Consume | pkg/bridge/client.go:194-244 | both channels receive the envelopes of their non-nil frames in order, each with its own id, all of them unless the context stops the loop with one in hand |
| Protocol.ArrivalsWrap | pkg/bridge/client.go:205-236 | what a channel is given in terms of the frames' envelopes and ids |
| Clients.Client.Connect | pkg/bridge/client.go:137-192 | the fields, the connection and the Register frame after an attempt that fails to dial, to open, to register, or succeeds |
| ClientSteps.ConnectIsItsSteps | pkg/bridge/client.go:137-192 | the protocol's connect steps leave the fields of each outcome |
| ClientSteps.ConnectAsSteps | pkg/bridge/client.go:137-192 | an attempt is a run of the protocol's connect steps, up to the frame it puts on the new stream |
| Clients.Client.CleanUp | pkg/bridge/client.go:314-327 | stream and connection are shut down and forgotten; started is not reset |
| Clients.Client.Close | pkg/bridge/client.go:292-312 | the first Close cancels both contexts and shuts down what the fields hold, later ones do nothing |
| ClientSteps.CloseAsStep | pkg/bridge/client.go:292-312 | the first Close is the protocol's step, later ones are none |
| Clients.Client.PublishIngress | pkg/bridge/client.go:246-267 | result, frame and semaphore of every outcome; only the shared message is written to, once admitted |
| ClientSteps.PublishAsSteps | pkg/bridge/client.go:246-267 | a call is exactly its steps of the protocol, with the same crash |
| ClientSteps.SentRuns | pkg/bridge/client.go:254-266 | a whole call puts one normalised frame at most on the stream and gives its slot back |
| Clients.Republish | pkg/bridge/client.go:246-254 | one message published any number of times, over reconnects and failures: every frame carries the form that the first admitted call, and no other, gave it |
| ClientSteps.AcquireAsStep | pkg/bridge/client.go:382-392 | waiting for a slot is the protocol's admission or refusal; refusal needs a done context |
| ClientSteps.ReleaseAsStep | pkg/bridge/client.go:394-402 | giving back is the protocol's release, and in a reachable state always gives one back |
| Clients.Client.SendAck | pkg/bridge/client.go:357-380 | the result in each case, and a frame exactly when there is an id and no error |
| Clients.Delivery.Ack | pkg/bridge/delivery.go:28-39 | the first call decides, later calls send nothing and return the same result |
| ClientSteps.AckAsSteps | pkg/bridge/delivery.go:28-39 | a call is exactly its steps of the protocol's promise, and the answer recorded is the one returned |
| Clients.AckRepeatedly | pkg/bridge/delivery.go:28-68 | any number of calls send at most one frame and all return one result |
| Backoff.Reconnector.Run | pkg/bridge/client.go:95-135 | the history of waits and cleanups, turn by turn: a failure waits as owed after the failures in a row before it, a success is cleaned up, also when cancelled |
| Backoff.LawHolds | pkg/bridge/client.go:110-116 | while the doubling fits, the i-th wait is min(base * 2^i, max), and base when base >= max |
| Backoff.LawFails | pkg/bridge/client.go:111-115 | when the maximum exceeds the top doubling, a wait wraps to a negative duration |
| Backoff.LawExactly | pkg/bridge/client.go:95-134 | the law holds for every failure count exactly under that bound; 2^62 is always within it |
| Backoff.LawNeverDecreases | pkg/bridge/client.go:110-116 | waits never decrease and never exceed the maximum |
| Backoff.TotalWaitClosed | pkg/bridge/client.go:106-119 | the total wait of n failures: a geometric sum, then a line |
| ProtocolLife.LifeKept | pkg/bridge/client.go:95-192 | every step keeps streams, contexts, loops, errors and the wait group tied to their generation |
| ProtocolLock.LockKept | pkg/bridge/client.go:347-380 | every step keeps the lock with exactly the sender inside it |
| ProtocolFlow.FlowKept | pkg/bridge/client.go:194-244 | every step keeps taken, buffered, held and dropped equal to received |
| ProtocolShape.ShapeKept | pkg/bridge/client.go:212-267 | every step keeps frames, deliveries, calls and sessions well formed |
| ProtocolCount.CountKept | pkg/bridge/client.go:246-267 | every step keeps frames on all wires equal to what calls and deliveries have sent, and slots to calls |
| ProtocolOpening.OpeningKept | pkg/bridge/client.go:171-191 | every step keeps Register first up to the first success |
| ProtocolRuns.ReachableInv | pkg/bridge/client.go:84-192 | all of it in every reachable state |
| BridgeTheorems.AckConservation | pkg/bridge/client.go:194-244 | per id, over all sessions: OnAck calls are the ack frames read, those at most the frames sent, which are the acknowledged deliveries, those at most the SendDeliver calls |
| BridgeTheorems.AckPromises | pkg/bridge/delivery.go:28-68 | a promise runs once, sends one frame at most, answers all callers alike; which deliveries are ackable; the shape of ack frames |
| BridgeTheorems.LosslessDemux | pkg/bridge/client.go:194-244 | taken + buffered + held + dropped is every envelope received for the channel, in order, each with its own id, across reconnects; capacity; at most one drop |
| BridgeTheorems.Generations | pkg/bridge/client.go:120-201 | connects and cleanups alternate, one live consume loop, one live heartbeat context, errors only from the current stream |
| BridgeTheorems.IngressAtMostOnce | pkg/bridge/client.go:246-267 | one frame at most per publish, OnIngress a prefix of the frames handed to the stream, all normalised |
| BridgeTheorems.Backpressure | pkg/bridge/client.go:382-402 | occupancy equals the calls holding a slot, within capacity, and the empty release never happens |
| BridgeLimits.SendCrashesExactly | pkg/bridge/client.go:260-262 | from which states some interleaving crashes a publish or heartbeat |
| BridgeLimits.StepCrashesExactly | pkg/bridge/client.go:194-262 | which steps of a reachable state crash |
| BridgeLimits.RecvCrashesExactly | pkg/bridge/client.go:196-196 | the next Recv crashes exactly after the run loop's exit, and can always be made to |
| BridgeLimits.RegisterFirst | pkg/bridge/client.go:171-191 | Register first and no overlapping Sends up to the first success |
| BridgeLimits.RegisterFirstExactly | pkg/bridge/client.go:175-186 | for a stream about to be registered: another frame can come first exactly when a connect succeeded before |
| BridgeLimits.WaitGroup | pkg/bridge/client.go:84-96 | the wait group is the run loop plus live heartbeat loops, and zero exactly when all are gone |
| BridgeLimits.DrainIsFinal | pkg/bridge/client.go:277-290 | once gone they stay gone in every continuation |
| BridgeLimits.DrainLeavesConsume | pkg/bridge/client.go:188-190 | a reachable state with an empty wait group and a live consume loop |
| BridgeLimits.ExitLeavesConsumeExactly | pkg/bridge/client.go:125-134 | which exits of the run loop leave a consume loop running |
| BridgeLimits.CancelCanCrashConsume | pkg/bridge/client.go:196-196 | a reachable receive through a nil stream |
| BridgeLimits.ReconnectCanCrashPublish | pkg/bridge/client.go:261-261 | a reachable publish through a nil stream without cancellation |
| Keys.DecimalInjective | pkg/auth/redis_store.go:203-205 | decimal user ids are distinct for distinct users |
| Keys.DecimalReads | pkg/auth/redis_store.go:203-205 | a printed user id reads back as the number, with a sign exactly when negative and no leading zero |
| Keys.KeysApart | pkg/auth/config.go:5-15 | under the default prefixes two keys are equal only for the same store and the same id |
| Stores.RefreshStore.Save | pkg/auth/redis_store.go:28-37 | the key is written with its metadata and ttl, or nothing changes |
| Stores.RefreshStore.Consume | pkg/auth/redis_store.go:39-56 | a hit returns the metadata and removes the key; a miss is not found |
| Stores.Blocklist.Block | pkg/auth/redis_store.go:78-83 | the id is blocked for the ttl, or nothing changes |
| Stores.Blocklist.IsBlocked | pkg/auth/redis_store.go:85-94 | whether the block key is live; an empty id is not blocked |
| Stores.SessionVersions.Get | pkg/auth/redis_store.go:121-126 | the counter, or missing |
| Stores.SessionVersions.Increment | pkg/auth/redis_store.go:128-133 | the counter advances by one and keeps its expiry |
| Stores.TokenVersions.IncrVersion | pkg/auth/redis_store.go:174-188 | the version advances and its ttl starts again |
| Stores.TokenVersions.GetVersion | pkg/auth/redis_store.go:192-201 | the version, 0 when there is none |
| Stores.IncrementedReads | pkg/auth/redis_store.go:174-201 | the new version is readable until its ttl, no other key changes |
| Stores.SetReads | pkg/auth/redis_store.go:78-83 | a set key reads back until its ttl, and no other key changes |
| Tokens.Config.Defaults | pkg/auth/config.go:31-50 | in place, each unset field gets its own default and each set one stays |
| Tokens.DefaultedCompletes | pkg/auth/config.go:31-50 | the result is complete and stable, and complete records are unchanged |
| Tokens.VerifyAccessToken | pkg/auth/token.go:128-159 | the verdict and its reason, check by check, down to a failed blocklist lookup |
| Tokens.AccessAcceptedExactly | pkg/auth/token.go:128-159 | exactly when an access token is accepted |
| Tokens.VerifyAccessTokenWithVersion | pkg/auth/token.go:162-177 | additionally accepted exactly when the lookup succeeds and the counter is missing, not positive or the token's; a failed lookup is its own refusal |
| Tokens.RevokeTtl | pkg/auth/token.go:228-234 | the ttl is positive and reaches the expiry |
| Tokens.RevokeAccessToken | pkg/auth/token.go:221-236 | the block key is written for exactly the remaining time, but at least a second, or nothing changes |
| Tokens.GenerateTokenPairWithVersion | pkg/auth/token.go:69-125 | both tokens field by field, each with its own lifetime; a pair handed out with a store was saved with matching metadata |
| Tokens.ConsumeRefreshToken | pkg/auth/token.go:180-218 | the verdict and its reason, check by check; only a live stored key is used up, also by a mismatch |
| Tokens.GenerateSimpleToken | pkg/auth/simple_token.go:58-100 | the version is advanced before signing and the token carries it |
| Tokens.VerifySimpleToken | pkg/auth/simple_token.go:104-139 | exactly when a simple token is accepted, and the reason when it is not |
| Tokens.RevokeSimpleToken | pkg/auth/simple_token.go:143-149 | a revocation advances the version |
| AuthPrograms.Login | pkg/auth/simple_token.go:58-100 | a login is the version advance and the signing of the system |
| AuthPrograms.VerifySimple | pkg/auth/simple_token.go:104-139 | verification answers what the system accepts |
| AuthPrograms.IssuePair | pkg/auth/token.go:69-125 | issuing with a store is minting and saving |
| AuthPrograms.Redeem | pkg/auth/token.go:180-218 | redeeming is the check and the taking, and succeeds exactly when a redemption is recorded |
| AuthPrograms.Revoke | pkg/auth/token.go:221-236 | revoking is the measuring and the writing |
| AuthPrograms.VerifyAccess | pkg/auth/token.go:162-177 | verification with blocklist and session version answers what the system accepts |
| AuthSystem.OneKey | pkg/auth/redis_store.go:58-60 | every step changes at most one key, of its own store, user or id |
| AuthSystem.SimpleKept | pkg/auth/simple_token.go:58-100 | every step keeps version keys as the latest advance left them, and older advances outdated |
| AuthInvariants.RefreshKept | pkg/auth/token.go:109-114 | every step keeps refresh keys present exactly from saving to taking |
| AuthInvariants.BlockKept | pkg/auth/token.go:221-236 | every step keeps each written revocation lasting to the expiry |
| AuthInvariants.SessionKept | pkg/auth/redis_store.go:121-133 | every step keeps session counters positive and unexpiring |
| AuthTheorems.OnlyLatestAccepted | pkg/auth/simple_token.go:104-139 | under the bound only the latest login's token is accepted |
| AuthTheorems.OneTokenPerUser | pkg/auth/simple_token.go:56-58 | at most one accepted token per user |
| AuthTheorems.RejectedForever | pkg/auth/simple_token.go:134-136 | a token rejected on its version is never accepted again |
| AuthTheorems.RevokeLeavesNone | pkg/auth/simple_token.go:141-149 | after a revocation no earlier token or login under way is accepted |
| AuthTheorems.OutlivedCounter | pkg/auth/redis_store.go:183-186 | below the bound, a run in which an old token is accepted after a newer login |
| AuthTheorems.SingleSessionExactly | pkg/auth/simple_token.go:56-149 | the promise holds in every run exactly under the bound |
| AuthTheorems.LifetimesKept | pkg/auth/token.go:79-99 | access, refresh and simple tokens each live their own lifetime, up to the leeway and the precision of the encoding |
| AuthTheorems.RefreshOnce | pkg/auth/token.go:180-218 | each pair redeemed at most once, in time, saved first; mismatches unreachable |
| AuthTheorems.TakenNeverReturns | pkg/auth/redis_store.go:39-56 | exactly when taking a checked token succeeds |
| AuthTheorems.RevokedUntilExpiry | pkg/auth/token.go:128-159 | a revocation covers the token to its expiry through any further steps |
| AuthTheorems.RevokedReturns | pkg/auth/token.go:139-154 | with a leeway or a lag between check and blocklist read, a run in which a revoked token is accepted again |
| AuthTheorems.RevocationExactly | pkg/auth/token.go:128-159 | a revocation is permanent in every run exactly when the leeway and that lag are zero |
| AuthTheorems.SupersededForever | pkg/auth/token.go:162-177 | a token below the session counter is never accepted again |
| AuthTheorems.SessionConstraint | pkg/auth/token.go:167-175 | exactly when the session version admits a token; none before the first increment |

## Left out

- gRPC dialling, TLS, the network and `Serve`: connect succeeds or fails, wires are FIFO and may be cut off.
- The `Metadata` option, whose stream context derives from the dial context that is already cancelled.
- Data races on fields written outside the lock: a field access is one atomic step. The fields that cleanup and
  Close assign change in one step each, and the last assignments of a successful connect are one step.
- Serialisation of envelopes: a frame holds the envelope's value, and a nil and an empty map stay different.
- Message fields the normaliser and validator do not touch (conversation id, error, extras), and SetSlot and GetSlot.
- Clients.Reader.Consume: models the channels as unbounded and blocking as the choice of the context; capacities and interleaving with the subscriber are in the protocol.
- Clients.AckRepeatedly: calls one after another; concurrent callers of one promise are in the protocol, with sync.Once taken as one atomic start.
- Clients.Client.Connect: the outcomes of dialling, opening and sending are arguments; options, TLS and timeouts are left out.
- Clients.Client.Close: the closing of the two channels is one flag, and a CloseSend error only whether there is one.
- ClientSteps.PublishAsSteps: for a call that finds the send lock free; calls that wait for it are in the protocol.
- ClientSteps.AckAsSteps: likewise.
- JWT encoding, HMAC and JSON: a token is its claims with the signing secret, and only minted tokens parse; the subject and issued-at claims are not read back.
- Uuids are fresh and not empty; one clock serves the service and Redis.
- Rounding of key lifetimes by the Redis client; key lifetimes and instants are whole ticks. Token expiries are rounded down to an arbitrary precision.
- A Redis command that fails has no effect, and the EXPIRE after a successful INCR succeeds.
- A failed session-version lookup whose message contains "nil" other than the missing key.
- ParseSimpleTokenUnverified, the Kafka manager, logging, tracing, bootstrap, configuration loading and error codes: wrappers and constants.
