# A model of the act-web-server gateway

The web server sits between browsers and the API. A caller is authenticated, takes one of 64 permits, and is served
in one of four modes: a direct database read, a stateless HTTP read, a framed read over one shared mTLS connection,
or an asynchronous submission to JetStream whose progress is polled. This project models that gateway and proves what
it promises, from the container's entrypoint script to the bytes on the wire.

The core is `Machine.dfy`: any number of concurrent callers, the permits, the operation counter, the FIFO mutex around
the connection slot, every connection with the authenticated operations and frames that crossed it, the queries and
HTTP requests made, the broker, and a clock. A step is the code of one caller between two points where another may run;
each await can also fail, time out or be cancelled, and a dropped caller gives up its connection, the lock and the
permit in that order. The peer of a connection may send any frame at any time; where a theorem needs more, it asks that
the peer of the connection in question has so far conformed (one answer a request, in order) or lagged (the same, with
surplus replies slipped in). A theorem about the gateway is a statement about every state any run can reach; runs,
callers and interleavings are not bounded.

| file | content |
|---|---|
| `Prelude.dfy`, `Text.dfy`, `Gateway.dfy` | option and result types, Rust's string operations, the gateway's vocabulary |
| `OperationIds.dfy` | decimal rendering, `web-{now}-{seq}` identifiers, the wrapping counter |
| `Authorization.dfy` | the two bearer parsers and the introspection gate |
| `Peer.dfy` | one connection: conforming and lagging peers, which exchange a frame answers |
| `Machine.dfy` | the concurrent machine |
| `Connections.dfy`, `Correlation.dfy`, `Permits.dfy`, `Outbound.dfy`, `Broker.dfy`, `Latency.dfy` | the invariants, each kept by every step |
| `Safety.dfy` | the invariants together, and the theorems about reachable states |
| `Lag.dfy` | connections whose peer lags or conforms |
| `Progress.dfy` | time can always go on |
| `Reuse.dfy`, `Delivery.dfy` | how often a connection is opened; its frames as bytes |
| `Forwarding.dfy` | from a web request through the gate to all that leaves the process |
| `TwoRuns.dfy` | two runs that differ in bearers |
| `Runs.dfy`, `Witness.dfy` | runs that exist, so that the theorems are not empty |
| `Runtime.dfy` | a TCP read on the gateway object, its fields updated in place, with the rest of the world running at every await |
| `Framing.dfy`, `BodyReader.dfy` | the length-delimited codec and the bounded body loop |
| `Config.dfy`, `Wiring.dfy` | accepted environments, start-up wiring, readiness, polling |
| `Endpoint.dfy` | where a status poll goes |
| `Flags.dfy`, `Redaction.dfy`, `Entrypoint.dfy` | configuration layers, what their errors reveal, and the dotenv loop of the entrypoint |

`dafny verify dfyconfig.toml` checks everything.

## What the proofs showed about the code

- **Reply lag.** `request` parks the connection on any decoded reply, and the operation id is compared only afterwards,
  in `tcp_read`. One surplus reply therefore never yields wrong data, but it spoils its own exchange and every later
  one on that connection, whatever it names: an operation answered long ago, one of an earlier connection or of another
  replica, or none. The one exception is a surplus reply that names the very request at its own place, which passes for
  its answer; `Peer.LagLawExact` shows that the law holds exactly when there is none. `Lag.LagTheorem` states which
  exchanges succeed; `Witness.SurplusReplyCanFail` gives a run.
- **Padded base64 in the entrypoint.** The comment in `scripts/sops-entrypoint.sh` says that splitting on the first `=`
  keeps base64 intact. Under POSIX field splitting (section 2.6.5 of XCU) it does, except for a value whose only `=`
  is its last character: that `=` is lost. `Entrypoint.ReadLineExact` is the exact condition and
  `Entrypoint.PaddingLost` an example.
- **The entrypoint's own variables.** `key`, `value` and `secrets` cannot come from the file, and the rule that a
  variable already set in the container wins fails for exactly these three: the loop leaves `key` and `value` empty and
  unsets `secrets`, whatever they held.
- **Redaction.** An error about unknown options reveals none of their values, nor whether they had any
  (`Redaction.ErrorsRedacted`). What its text does reveal is exactly the sorted names, cut at every `, `
  (`Redaction.MessageExactly`). So two command lines rejected with the same text had the same unknown options as long
  as no name contains `, ` (`Redaction.MessageReveals`); `Redaction.CommaConfuses` is a pair where one does.
- **Status endpoint.** `validate_identifier` admits slashes, `?`, `#` and dot segments, and `Url::join` gives them their
  meaning. `Endpoint.OwnExactly` says which identifiers are polled at their own resource, `Endpoint.StaysBelowExactly`
  which stay inside `v1/operations/`; all minted ones do both, and `Endpoint.DotsLeave` shows one that passes the check
  and does neither.
- **Identifiers.** They are unique for 2^64 mints of one process, whatever the wall clock does, and two mints collide
  exactly when they read the same millisecond and lie a multiple of 2^64 apart (`OperationIds.MintsCollideExactly`).

## Modelling assumptions

- tokio's `Mutex` is FIFO, and its permit passes to the first waiter at release.
- Code between two awaits takes no time; timers fire when they are due. `Progress.NoTimelock` shows that this never
  stops the clock: from every reachable state at most five steps a caller, none of them an arrival, let time pass.
- `now + 10_000` does not overflow 64 bits.
- The stage timeout, the header cap and the frame cap belong to another crate and stay parameters.
- The attestation HMAC is symbolic: it is determined by its key and the envelope. JSON stays opaque.
- The broker's deduplication window covers the run.
- Whether an operation passes `validate` and encodes within the cap is a function of the operation. Bearers that replace
  one another are of the same validity and make no difference to that function.
- Introspection answers for each call on its own; a token may be vouched for once and not the next time.
- Introspection, typed coercion, URL, socket and port parsing are parameters.

## Model

| member | source | states |
|---|---|---|
| Safety.Always | src/data_plane.rs:130-161 | every reachable state of the gateway, under any interleaving, failure, timeout and cancellation, satisfies all invariants |
| Safety.OneConnection | src/data_plane.rs:138-160 | at most one mTLS connection is open; while a caller holds it the slot is empty and that caller owns the lock |
| Safety.ParkedExactly | src/data_plane.rs:157-160 | when the lock is released, the connection is back in the slot if and only if a reply was decoded from it; otherwise nothing is open |
| Safety.PermitsConserved | src/data_plane.rs:201-216 | free permits plus reads in flight is 64 in every reachable state |
| Safety.BackpressureExactly | src/data_plane.rs:211-233 | a read is refused for backpressure exactly when its header is valid and 64 reads are in flight; polls never touch the permits |
| Safety.OutcomesByMode | src/data_plane.rs:205-350 | over any run each mode ends with a reply of its own kind or an error of its own code |
| Safety.PollsExactly | src/data_plane.rs:225-233 | a poll ends as an invalid request exactly for an identifier not valid for 128 bytes, as not configured exactly without the API, and has its HTTP request made exactly otherwise |
| Safety.SentIfEntered | src/data_plane.rs:205-233 | nothing is sent or stored for a read with an invalid header, a poll of an invalid identifier, or a mode that is not configured |
| Safety.EnvelopesStamped | src/data_plane.rs:398-413 | every operation sent or stored is version 1 of `youtube_status`, named after its own mint, expires ten seconds after the clock reading in its name, speaks for a subject valid for 256 bytes, passes its checks, and has a dedupe key, its own name, in the stream only |
| Safety.IdentifiersDistinct | src/data_plane.rs:398-413 | the identifiers of all calls differ over any interleaving of at most 2^64 mints |
| Safety.ProjectionsAreOwn | src/data_plane.rs:262-274 | with an arbitrary peer, a TCP projection is the content of the error-free reply at the place of the call's own request that names its own operation |
| Safety.RepliesNotShared | src/data_plane.rs:262-274 | no two calls are satisfied by replies with the same operation id |
| Lag.LagTheorem | src/data_plane.rs:153-160 | on a lagging connection, a call got its own reply exactly when no surplus frame had come up to it, and otherwise failed as an invalid response |
| Lag.LagSurvives | src/data_plane.rs:264-267 | park a connection that has fallen behind and run on in any way: its lag never shrinks, and every read that sends its request from then on and is answered on it is an invalid response |
| Lag.ParkedLag | src/data_plane.rs:138-160 | frames unread plus requests unanswered on a parked connection are the surplus frames ever sent on it |
| Lag.ParkedQuiescent | src/data_plane.rs:138-160 | a parked connection whose peer conformed has no request unanswered and no frame unread, after any error, timeout or cancellation |
| Delivery.ParkedBufferEmpty | src/data_plane.rs:143-160 | and no part of a frame: however its bytes were cut, all the peer sent has arrived and been handed out, and the codec holds nothing |
| Delivery.FramesInOrder | src/data_plane.rs:135-150 | of any beginning of a peer's bytes, however cut, the codec hands out its first frames in order and holds the rest |
| Lag.MismatchNeverFires | src/data_plane.rs:263-274 | where the peer conformed every decoded reply names the call's own operation, and its error and result alone decide the outcome |
| Safety.LatencyBound | src/data_plane.rs:114-156 | a TCP read is over within 64 * 4 stage timeouts of asking for the lock |
| Safety.NoEarlyTimeout | src/data_plane.rs:118-151 | a TCP read that timed out had taken the mutex at least one stage timeout before |
| Latency.PatienceStep | src/data_plane.rs:118-151 | every step keeps: a TCP read that timed out waited a whole stage timeout with the mutex, and an operation refused without it fails its checks |
| Safety.RefusedIfUnfit | src/data_plane.rs:133-137 | a minted operation refused as invalid before it had the mutex fails its checks |
| Progress.NoTimelock | src/data_plane.rs:143-156 | from every reachable state a run without arrivals and without time passing, of at most five steps a caller, leads to a state where time can pass |
| Progress.NoCallerStuck | src/data_plane.rs:205-311 | in every reachable state a call that is not over has a step of its own to take |
| Safety.AcceptedStoredOnce | src/data_plane.rs:277-311 | an accepted submission has exactly one stored message under its dedupe id, its own, with its subject and an attestation over its envelope |
| Safety.AcceptedStoredAttempted | src/data_plane.rs:289-306 | accepted <= stored <= attempted over any run, as sets of callers and as counts |
| Peer.Correlates | src/data_plane.rs:143-160 | on a lagging connection frame j names request j exactly when no surplus frame came up to j |
| Peer.LagLawExact | src/data_plane.rs:143-160 | of a peer that answers in order, that law holds exactly when no surplus frame names the request at its own place |
| Connections.LockStep | src/data_plane.rs:138-142 | every step keeps the queue of the mutex: each caller listed once, only its head owns the lock |
| Connections.SlotStep | src/data_plane.rs:138-160 | every step keeps one open connection, in the slot or with the lock owner |
| Correlation.IdStep | src/data_plane.rs:400-402 | every step keeps the counter in step with the mints and every identifier with its mint |
| Correlation.WireStep | src/data_plane.rs:143-160 | every step keeps each exchange at its place: one request, then one frame, per tenure |
| Permits.PermitStep | src/data_plane.rs:212-216 | every step conserves permits |
| Permits.FitStep | src/data_plane.rs:217-282 | each phase and each way of ending belongs to the mode and request whose code leads there |
| Permits.DoorStep | src/data_plane.rs:205-282 | every step keeps: a read is unauthorized exactly for an invalid header, meets no backpressure past the door and nothing but refusal in a mode that is not configured; a poll is invalid exactly for an invalid identifier and not configured exactly without the API |
| Outbound.OutboundStep | src/data_plane.rs:143-156 | every step keeps: all that leaves the process was sent for a call past the door that passed its checks, as that call's own request, and once |
| Safety.SentAtMostOnce | src/data_plane.rs:138-156 | no call has its request on two connections or twice on one, or makes two queries or HTTP requests |
| Reuse.ReuseStep | src/data_plane.rs:138-160 | every step keeps: each dropped connection is paid for by an owner of the mutex that ended without a decoded reply, and who never owned it never wrote |
| Safety.ConnectionReused | src/data_plane.rs:138-160 | over any run at most one more connection is opened than there were owners of the mutex that ended without a decoded reply |
| Lag.DroppedStays | src/data_plane.rs:153-160 | a dropped connection is never written, read or opened again |
| Broker.BrokerStep | src/data_plane.rs:289-310 | every step keeps the stream free of duplicates and every acceptance backed by a stored message |
| Latency.LatencyStep | src/data_plane.rs:143-156 | every step keeps each queued caller within the time of the tenures before it |
| TwoRuns.BearersDoNotInterfere | src/data_plane.rs:277-288 | replacing bearers by others of the same validity and fit leaves a run a run; stored messages, identifiers and outcomes stay the same, and so does all that crossed a connection or went to the API but for the bearers, each its own call's |
| Witness.ReadCanSucceed | src/data_plane.rs:256-275 | some run ends in a TCP projection of the peer's data, all permits back and the connection parked |
| Witness.SurplusReplyCanFail | src/data_plane.rs:157-160 | for any surplus reply that names another operation, or none, some run fails a read on it and parks the connection all the same |
| Witness.InquiryCanEnd | src/data_plane.rs:225-254 | where they are configured, some run of a direct read, an HTTP read or a poll ends in any data and any error their code has |
| Witness.SubmissionCanBeAccepted | src/data_plane.rs:277-311 | with the broker some run accepts a submission under the identifier it minted |
| Witness.FailedSubmissionCanBeStored | src/data_plane.rs:289-302 | some run stores the message of a submission that failed |
| Witness.AwaitCanEnd | src/data_plane.rs:115-160 | at every await of every reachable state the caller can be dropped and its stage can fail as its code says, and its own steps then close its connection, leave the mutex and give the permit back |
| Runtime.TransportGateway.TcpRead | src/data_plane.rs:205-275 | whatever the world does at the awaits: who is turned away, not configured or invalid, exactly; with the mutex, the first await that does not deliver decides the end, and if all do, the frame at the place of the request does, judged by its id, error and result; permit and mutex are given up, the slot is full exactly when a reply was decoded, and the latency bound was kept |
| Runtime.TransportGateway.Request | src/data_plane.rs:130-161 | the caller gets the mutex exactly when its wait delivers at its turn, and is dropped otherwise; with it the exchange ends as its awaits and the frame at its place say, and leaves the slot full exactly when a reply was decoded |
| Runtime.TransportGateway.Suspend | src/data_plane.rs:138-156 | during an await the others take exactly the steps they can, and the future of the suspended caller stays as it is |
| Runtime.AnyRunRan | src/data_plane.rs:138-156 | every run of the others can happen during an await |
| Runtime.TransportGateway.Stage | src/data_plane.rs:115-151 | an await delivers exactly if that is its fate and what it waits for is there; otherwise the caller unwinds with the error named, if it can be at that time, or as dropped |
| Runtime.TransportGateway.AwaitReply | src/data_plane.rs:148-155 | if the reply comes it is read, and decides the end by whether it decodes |
| Runtime.TransportGateway.OperationEnvelope | src/data_plane.rs:398-413 | the identifier is the clock reading and the counter value fetched, the counter is bumped, and no other call has that identifier |
| Runtime.TransportGateway.Abort | src/data_plane.rs:138-156 | a failed, timed-out or dropped await unwinds what the caller owns, in order, and ends with its error exactly if that error can be at the time |
| Runtime.TransportGateway.DropConnection | src/data_plane.rs:143-160 | afterwards no connection is open |
| Runtime.TransportGateway.Unlock | src/data_plane.rs:160-161 | the owner leaves the head of the queue, everyone else moves up, and the slot is as the exchange decided |
| OperationIds.OperationIdInjective | src/data_plane.rs:402 | an identifier determines its clock reading and sequence number |
| OperationIds.MintsCollideExactly | src/data_plane.rs:39 | two mints share an identifier exactly when the clock readings agree and 2^64 divides their distance |
| OperationIds.MintedIdIsValid | src/data_plane.rs:429-438 | every minted identifier is ASCII of at most 45 bytes and passes `validate_identifier(_, 128)` |
| OperationIds.ValidIdentifierExact | src/data_plane.rs:429-438 | a valid identifier is some text within the bytes allowed, with no white space at its ends and no control character |
| OperationIds.ForExample | src/data_plane.rs:402 | the clock reading comes before the counter, both in decimal |
| Authorization.ParseBearerExact | src/auth.rs:92-106 | the introspection parser accepts exactly the credentials of the grammar and returns their token |
| Authorization.ParsersAgree | src/data_plane.rs:415-427 | the gateway's parser accepts exactly when `bearer_token` does, the scheme is `Bearer` and the length within the cap, with the same token |
| Authorization.GateExact | src/auth.rs:54-90 | a handler runs for a subject exactly when introspection of the presented token vouches for it |
| Authorization.RawExact | src/auth.rs:92-96 | the header read is the first of its name, if it is visible ASCII, spaces and tabs |
| Authorization.RefusalExact | src/auth.rs:59-89 | a refusal is 503 without a verifier or when introspection of a well-formed credential fails for another reason than the token, and 401 otherwise |
| Forwarding.HandleExact | src/routes.rs:67-102 | a handler asks of the gateway exactly what its route says, with the raw header, for a subject that introspection of that header's token vouched for |
| Forwarding.RefusedAtGate | src/routes.rs:104-109 | past the gate the header is always there, so a handler refuses exactly as the gate does |
| Forwarding.ForwardedIntrospected | src/data_plane.rs:245-328 | over any run entered through the gate, every operation on a connection, HTTP request, query and stored message speaks for a vouched subject, and every bearer sent is its own call's, with the introspected token |
| Framing.RoundTrip | src/data_plane.rs:449-454 | payloads within the cap, framed and fragmented anywhere, decode to themselves and leave nothing behind |
| Framing.HeaderExact | src/data_plane.rs:449-454 | a payload is delivered by, and encoded with, exactly the four bytes that are its length, most significant first |
| Framing.Lossless | src/data_plane.rs:449-454 | on any bytes no frame exceeds the cap, and re-framing the frames plus the leftover gives the bytes back |
| Framing.OversizedRejected | src/data_plane.rs:449-454 | a header above the cap delivers the frames before it and nothing after |
| BodyReader.ReadBody | src/data_plane.rs:340-348 | the loop's outcome depends only on the bytes delivered and whether an error follows; the buffer, also when the read fails, is a prefix of those bytes and within 256 KiB |
| BodyReader.BoundedGet | src/data_plane.rs:313-350 | a GET succeeds exactly on a success status with a parsable, error-free body within the cap, times out exactly when the request did, and which failures are upstream is exact; a truthful length header changes nothing |
| Config.AcceptedExactly | src/config.rs:41-145 | an environment is accepted exactly when it meets every cross-variable rule |
| Config.AcceptedShape | src/config.rs:174-193 | an accepted configuration with NATS has a strong key and the API URL; any transport has Shared Auth |
| Config.ConfiguredValues | src/config.rs:41-145 | each field of an accepted configuration is the trimmed value of its own variable or its default; the read-only database URL is preferred |
| Config.FirstFault | src/config.rs:41-145 | the error of a rejected environment is that of the first rule it breaks, in the source's order |
| Wiring.StartupExact | src/main.rs:85-142 | the process runs exactly if the configured clients can be built, and serves exactly the transports that are configured and, for database and broker, were reached |
| Wiring.ReadinessExact | src/routes.rs:50-61 | over any run, a read that got its permit is refused as not configured if and only if `/ready` reports its mode false |
| Wiring.AcceptedIsPollable | src/data_plane.rs:225-233 | an accepted id of any run from any accepted environment is valid, finds URL and client and is polled at its own resource, so polls fail only by timeout, upstream or invalid response |
| Wiring.StatusExact | src/data_plane.rs:225-233 | a poll is refused for an invalid identifier, then for want of the API, and is otherwise the outcome of one GET |
| Endpoint.OwnExactly | src/data_plane.rs:225-232 | a status poll goes to the identifier's own resource, with no query or fragment, exactly when the identifier has no slash, `?` or `#` and is no dot segment |
| Endpoint.StaysBelowExactly | src/data_plane.rs:352-358 | it goes inside `v1/operations/` exactly when the identifier's dot segments never leave it, or lead back by spelling it out again |
| Endpoint.MintedOwn | src/data_plane.rs:402 | a minted identifier is polled at its own resource |
| Endpoint.DotsLeave | src/data_plane.rs:429-438 | an identifier that passes the check of the route and is not polled inside `v1/operations/` |
| Endpoint.QueryStays | src/data_plane.rs:352-358 | what follows a question mark is a query, not a part of the path |
| Flags.MergeLayers | src/flags.rs:135-143 | the in-place merge is the pointwise precedence law |
| Flags.Overlay | src/flags.rs:147-153 | it succeeds exactly when every typed value is a scalar, and then each typed scalar stands over the untouched environment; it fails naming the first value that is not |
| Flags.ResolveFrom | src/flags.rs:111-153 | errors in the source's order, otherwise the overlay of the coerced layered map |
| Flags.RawUnique | src/flags.rs:135-143 | the precedence law determines the raw map |
| Flags.Precedence | src/flags.rs:135-143 | the layers, name by name: flag, dotenv override, environment, dotenv; the command variable from a flag only |
| Flags.OrderIrrelevant | src/flags.rs:148-152 | iteration order changes neither success nor the resolved map |
| Redaction.ValueNotRepeated | src/flags.rs:167-172 | the text after `=` of an unknown option is not repeated |
| Redaction.SameNameExactly | src/flags.rs:167-172 | two options are named alike exactly when they differ at most in their values |
| Redaction.NamesInOrder | src/flags.rs:112-120 | the names reported are those of the unknown options, sorted and without repetition |
| Redaction.ErrorsRedacted | src/flags.rs:111-133 | two command lines whose unknown options agree but for values and, with none, whose counts of invalid values or of stray arguments agree, are rejected with the same message |
| Redaction.MessageExactly | src/flags.rs:111-133 | two messages are the same text exactly when they report names that agree once cut at every `, `, or the same count of the same kind |
| Redaction.VerdictText | src/flags.rs:111-133 | unknown options are reported by name, then invalid values and then stray arguments by their number alone |
| Redaction.MessageReveals | src/flags.rs:111-121 | where no reported name contains `, `, two messages are the same text exactly when the command lines agree in that way |
| Redaction.CommaConfuses | src/flags.rs:119 | with `, ` in a name two command lines that do not agree get the same message |
| Redaction.ResolutionRedacted | src/flags.rs:89-133 | two such resolutions return the same error whatever values, environments and files hold |
| Entrypoint.ReadLineExact | scripts/sops-entrypoint.sh:46 | `key=value` is read back exactly unless the value's only `=` is its last character |
| Entrypoint.PaddingLost | scripts/sops-entrypoint.sh:42-46 | a padded base64 value loses its `=` |
| Entrypoint.FirstLineWins | scripts/sops-entrypoint.sh:46-54 | the first line for a name gives it its value |
| Entrypoint.ValidNameExact | scripts/sops-entrypoint.sh:47-50 | the names taken are portable variable names, but for those of the sops metadata |
| Entrypoint.Shell.LoadSecrets | scripts/sops-entrypoint.sh:37-57 | the loop is a first-wins merge on every name but the script's own three |

## Left out

- Runtime.TransportGateway.TcpRead: only TCP reads run on the object in place; the other modes and the polls are steps of the machine, which the object takes as interference.
- Endpoint.OwnExactly: characters are not percent-encoded, which `Url::join` does after splitting into segments and which changes no separator.
- Delivery.ParkedBufferEmpty: the machine itself sees whole frames; a frame read in part is never parked because every such path drops the connection.
- BodyReader.BoundedGet: redirects are off in the client and a redirect status is not a success status, so both are one check.
- Redaction.ErrorsRedacted: messages of the flags-2-env library, which the source appends verbatim, are not covered.
- TLS handshakes, certificates, sockets, reqwest, async-nats, HMAC and JSON internals: outcomes of steps or symbolic values.
- SQL behind the direct read, and its two-second deadline: the read ends in any way the code allows, after any time.
- Time limits of HTTP reads and polls: only the stages behind `OPERATION_TIMEOUT` are timed.
- Uniqueness of identifiers across processes or restarts: the code does not promise it.
- `validate_https_or_loopback` and number parsing: parameters of the configuration.
- Help and version output, the UI, telemetry, migrations, Docker files and the middleware stack file.
- HTTP status and error-code tables: one branch each.
- Shell variables are modelled by value and export flag; read-only variables and locale are not.
