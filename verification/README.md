# A verified model of the moltssh.v1 tunnel

`moltssh` carries one SSH byte stream over WebSocket connections that come and go. Each end numbers its bytes by absolute
offset, keeps what is not acknowledged in a replay buffer, and accepts data only at exactly its receive offset; every
accepted connection gets a new epoch that fences off the older ones. This project models that protocol (`internal/tunnel`)
and the state machines around it, and proves what they promise. `dafny verify dfyconfig.toml` checks all of it.

## How the model is built

* **Objects.** `ClientRuntime`, `ServerSession`, `WsServer` and `HeartbeatTracker` are classes with the fields of the source's
  structs; their methods are proved equal to operations on values. `Link`, `Writer` and `Sockets` stand for the connections
  and streams they act on, and count what failed, so that no contract can blame a failure that did not happen.
* **Values.** `Stream`, `ClientModel` and `ServerModel` hold those operations: replay buffer, receive-offset rule, commit,
  resume, replay, dispatch of one received frame.
* **Net.** A transition system over one client, every session the server ever created (also those of abandoned first
  handshakes), and a network that may deliver any frame ever sent on a connection, on that connection, at any time, in any
  order, any number of times, or never. Its invariant (`NetInvariant.Inv`) ties both machines, all frames in flight, stale
  hellos and accepts and abandoned activations together. All safety results are proved here.
* **Fifo.** On top of it, connections that keep their order and can be cut at any point. Every run of it is a run of `Net`
  (`FifoRefinement.FifoRefinesNet`). The resynchronisation, recovery and loss results are here.
* **Around it.** Cooldown and supersession of the switch loop (a layer over `Net`), ownership of probed sockets, heartbeat,
  reconnect loop and backoff, ranking and hysteresis, the frame envelope.

Grain of a step, and what is assumed:

* One call of a receive handler is one step. The handlers release the lock between the offset check and the write
  (`internal/tunnel/server_io.go:15-31`, `internal/tunnel/client_io.go:73-89`); a handler of an old connection that overlaps
  one of its successor is outside the model.
* In `Net`, a resume or commit and its replay are observed in any interleaving the network allows. In `Fifo`, a resume
  with its accept, replay and fin is one step, and so is a commit with its replay.
* `stdinLoop` picks its connection, waits for buffer space, and reads, in three steps, so a chunk may go out on a
  connection that has been replaced meanwhile.
* `Net` keeps closed sessions where the server deletes them; a hello finds no difference (`NetSafety.ClosedIsUnknown`).
* Session identifiers, connections and nonces are never used twice. Stream offsets and epochs are unbounded; the one place
  where the source subtracts unsigned numbers is modelled with its wrap-around (`Stream.Sub64`).
* Outcomes of sockets, dials, timers and clocks are parameters or free choices. Clocks do not go back.

Where the code and `docs/mvp.md` differ, the model follows the code:

* `docs/mvp.md:303-304` has protocol violations terminate the connection with `error`. Error frames carry no epoch and are
  filtered at both ends, so on the server such a violation is a disconnect that can be resumed.
* `docs/mvp.md:281-282` wants an ack before a reconnect handoff. The code sends none; a switch that starts while the old
  connection still delivers carries an old offset in its hello, and the replay may then straddle the client's receive
  offset, which ends the client (`Witness.StraddledCommitIsFatal`). `FifoDownstream.CommitGivesDownIff` says exactly when.
* `docs/mvp.md:271-272` lets a sender send only the next offset. A chunk read for a replaced connection goes there, and
  the next chunk on the live one is a gap for the server (`Witness.GapIsReachable`).
  `FifoUpstream.StdinReadKeepsSyncIff` says exactly when.
* `docs/mvp.md:283-284` has unacknowledged bytes sent again on reconnect, and `docs/mvp.md:295-297` lets a lost connection
  be resumed until the timeout. The end of the target closes the session at once (`internal/tunnel/server_io.go:89-99`),
  so the tail buffered for a client that has no connection then is lost (`Witness.LostTailIsReachable`), and so is what
  lies on a connection the client has left (`Witness.DeadTailIsReachable`). `Loss.StdoutReachesIff` says how far stdout
  can still get, `Loss.RecoverableIff` when everything can arrive; after an orderly end it can (`Loss.FinBringsAll`).
* The latency decision accepts a difference of exactly the minimum delta both ways, and a path that measured zero is left
  for any higher priority. So two paths can make the client switch back and forth for ever: 40 ms against a preferred
  70 ms with the thresholds 30 ms and 0.25, two equal paths without thresholds, or 0 ms against a preferred slow one.
  `NoFlapping.SettlesIffNotCritical` gives the exact condition for every policy that passes validation.

## Main results

1. *Exact prefixes.* In every reachable state the target holds the first `c2sRx` bytes of stdin and stdout the first
   `s2cRx` bytes of the target: `NetSafety.StreamsAreExactPrefixes`, `NetSafety.Conservation`, `NetSafety.HalfCloseIsExact`.
2. *Fencing.* `NetFencing.ServerFencing`, `NetFencing.ClientFencing`, `NetSafety.EpochsAgree`,
   `NetFencing.CommittedEpochsIncrease`, `NetSafety.NothingIsAhead`.
3. *Resynchronisation, both directions.* `FifoTheorems.UpstreamResynchronises`, `FifoTheorems.DownstreamResynchronises`,
   `FifoTheorems.ColdCommitsAreNeverStraddled`.
4. *Recovery and loss.* Whatever was cut, stale or abandoned before: `Recovery.OneReconnectDelivers` while the session is
   open; once it has closed, exactly what the queues carry: `Loss.StdoutReachesIff`, `Loss.RecoverableIff`,
   `Loss.FinBringsAll`.
5. *Switching.* `Cooldown.LatencySwitchesAreSpaced`, `Cooldown.PromotionsAreNeverSuperseded`,
   `NoFlapping.AtMostTwoSwitches`, `NoFlapping.SettlesIffNotCritical`, `SwitchPolicy.SwitchLoop`.
6. *No leaked socket, and the right one.* `Ownership.ConnectAny`, `Ownership.SwitchCycle`.
7. *Heartbeat, outage budget, envelope.* `Heartbeat.ExactlyOneResult`, `Heartbeat.ActiveHeartbeat`,
   `Reconnect.OneDeadlinePerOutage`, `Reconnect.OneWaitBetweenAttempts`, `Pings.PongsAnswerPings`,
   `Codec.RoundTrip`, `Codec.ReadAcceptsExactly`.

## Model

| member | source | states |
|---|---|---|
| Stream.AdvanceTracks | internal/tunnel/client_state.go:43-58 | on a buffer that holds exactly the unacknowledged bytes, an ack is refused if and only if it exceeds what was sent; the outside-buffer test and its unsigned difference never fire; the buffer stays exact and the ack never falls |
| Stream.PushTracks | internal/tunnel/client_state.go:9-16 | appending what was read keeps the buffer exactly the unacknowledged part of the stream |
| Stream.FreshKeepsPrefix | internal/tunnel/server_io.go:27-31 | writing any part of a piece that starts at the receive offset leaves the sink a prefix of the source, also on a short write |
| Stream.ChunksArePieces | internal/tunnel/util.go:13-22 | every replay chunk carries the piece of the stream that its offset names |
| Stream.ChunksAreFull | internal/tunnel/util.go:13-22 | every chunk but the last carries 1048576 bytes, and none is empty or longer |
| Transport.WriteAll | internal/tunnel/util.go:50-64 | the count returned is exactly what the writer took, in order; without an error that is everything; with one, exactly one write failed or took nothing |
| Transport.SendDataChunks | internal/tunnel/util.go:13-22 | on success exactly the chunks of the data were sent, otherwise a proper prefix of them |
| Transport.Link.Send | internal/tunnel/server_session.go:20-30 | a frame goes out at most once, with missing session and epoch filled in, error, ping and pong excepted |
| ClientRuntime.ClientRuntime.AppendClientBytes | internal/tunnel/client_state.go:9-16 | the bytes join stream and buffer at the returned offset |
| ClientRuntime.ClientRuntime.MarkClientFin | internal/tunnel/client_state.go:18-23 | the fin offset is the end of everything read |
| ClientRuntime.ClientRuntime.AdvanceC2SAck | internal/tunnel/client_state.go:43-58 | equals the value operation of `Stream.AdvanceTracks`, error cases included |
| ClientRuntime.ClientRuntime.DropActive | internal/tunnel/client_state.go:100-116 | takes the connection away only if it is still the active one |
| ClientRuntime.ClientRuntime.Finish | internal/tunnel/client_state.go:118-132 | ends the client once and leaves no active connection |
| ClientRuntime.ClientRuntime.SayHello | internal/tunnel/client_session.go:26-38 | a hello carries session, ack and receive offset of one moment and changes nothing else |
| ClientRuntime.ClientRuntime.CommitActivation | internal/tunnel/client_connect.go:213-243 | commits exactly when not finished, the session matches and the accept is not ahead; then buffer, connection, session and epoch move together, and otherwise nothing does |
| ClientRuntime.ClientRuntime.ReplayClientBytes | internal/tunnel/client_io.go:42-67 | sends exactly the buffer in chunks and the fin behind it; a failed send leaves a proper prefix and drops the connection |
| ClientRuntime.ClientRuntime.HandleServerData | internal/tunnel/client_io.go:69-92 | duplicate, partial, gap and fresh data, short writes and failed acks, with the frames sent in each case; a frame of the value operation is missing only for a send that failed, a byte only for a write that stalled |
| ClientRuntime.ClientRuntime.TakeServerData | internal/tunnel/client_io.go:85-91 | the fresh case alone |
| ClientRuntime.ClientRuntime.HandleServerFin | internal/tunnel/client_io.go:94-107 | closes stdout's write side only for a fin at exactly the receive offset |
| ClientRuntime.ClientRuntime.Receive | internal/tunnel/client_receive.go:8-65 | one round of the receive loop: filter, dispatch, state and replies; a ping is answered with its nonce and changes nothing; a pong resolves its heartbeat, whatever connection is active, and nothing else does; it ends exactly with the client |
| NetClientSteps.ReceiveReplies | internal/tunnel/client_io.go:78-90 | every reply of the client is an error, the pong of the ping it read, or an ack of exactly what stdout has taken by then |
| Server.WsServer.AcceptNew | internal/tunnel/server.go:85-116 | a first hello makes one new session at epoch 1 with empty streams, files it under its identifier and touches no other; without an identifier the dialled target is closed again; a failed accept frame closes the session with its target and takes it out of the table again |
| Server.WsServer.AcceptResume | internal/tunnel/server.go:118-131 | an empty or unknown session is refused without effect, a known one is resumed, an expired one leaves the table |
| Server.WsServer.Accept | internal/tunnel/server.go:78-132 | a wrong version or an empty name is refused without effect; a resume ends a known session exactly if it was open, disconnected and past its timeout, opens the next epoch exactly if it was open, not that, and both offsets fit, and otherwise changes nothing; after an admission nothing is returned only if a send failed; whatever is returned is open and in the table under the identifier asked for; a target dialled in vain is closed |
| ServerSession.ServerSession.AdvanceS2CAck | internal/tunnel/server_io.go:151-166 | equals the value operation of `Stream.AdvanceTracks`, error cases included |
| ServerSession.ServerSession.Disconnect | internal/tunnel/server_io.go:104-109 | acts only for the active connection of an open session |
| ServerSession.ServerSession.CloseTerminal | internal/tunnel/server_io.go:124-149 | closes once; the close frame goes to the connection that was active, whose WebSocket is closed, the target is shut and the session leaves the table |
| ServerSession.ServerSession.HandleClientData | internal/tunnel/server_io.go:11-38 | duplicate, partial, gap and fresh data; a write error ends the session after the ack; frames and bytes are missing only for sends that failed and writes that stalled |
| ServerSession.ServerSession.TakeClientData | internal/tunnel/server_io.go:27-37 | the fresh case alone |
| ServerSession.ServerSession.HandleClientFin | internal/tunnel/server_io.go:40-59 | shuts the target's write side for the first fin at exactly the receive offset and for no other |
| ServerSession.ServerSession.Receive | internal/tunnel/server_session.go:120-177 | one round of the session loop: filter, dispatch, state and replies; protocol errors disconnect; a ping is answered with its nonce and changes nothing |
| ServerSession.ServerSession.HandleAck | internal/tunnel/server_session.go:144-158 | an ack of the right direction moves the buffer, any other disconnects |
| ServerSession.ServerSession.Admit | internal/tunnel/server_session.go:61-104 | the critical section of a resume: refused, expired, or the next epoch with this connection active and the WebSocket of the one before closed |
| ServerSession.ServerSession.SendReplay | internal/tunnel/server_session.go:106-117 | the accept, the buffered bytes and the fin go out in this order; a failure leaves a prefix and disconnects, a failed fin alone does not |
| ServerSession.ServerSession.Resume | internal/tunnel/server_session.go:61-118 | the two parts together, against the value operation |
| ServerSession.ServerSession.TargetRead | internal/tunnel/server_io.go:74-88 | bytes join the buffer whether or not a connection is active, and go out at their offset if one is |
| ServerSession.ServerSession.TargetEnd | internal/tunnel/server_io.go:89-99 | the fin carries the exact end of the stream; the session closes at once |
| NetServerSteps.ReceiveReplies | internal/tunnel/server_io.go:18-36 | every reply of the server is an error, the pong of the ping it read, a close, or an ack of exactly what the target has taken by then |
| Pings.ServerAnswersPing | internal/tunnel/server_session.go:130-132 | reading a ping on any bound connection puts exactly the pong with its nonce on that connection, if it can be sent, and changes nothing else in the whole system |
| Pings.ClientAnswersPing | internal/tunnel/client_receive.go:56-57 | the same for the client |
| Pings.HeartbeatSendsPing | internal/tunnel/client_heartbeat.go:26 | a heartbeat puts a ping with its own nonce on its connection |
| Pings.PongsAnswerPings | internal/tunnel/server_session.go:130-132 | in every reachable state every pong in flight, either way, carries the nonce of a ping that was sent the other way on the same connection |
| Answers.ServerIgnores | internal/tunnel/server_session.go:125-183 | pings are answered always; pongs, errors, hellos, and frames of another connection, session or epoch do nothing |
| Answers.ServerTakesData | internal/tunnel/server_io.go:11-38 | for every offset, direction, write outcome and send outcome: the new value of every field, and the frames sent |
| Answers.ServerTakesFin | internal/tunnel/server_io.go:40-59 | the same for a fin |
| Answers.ServerTakesRest | internal/tunnel/server_session.go:144-174 | the same for acks, in terms of the stream they acknowledge, for closes and for unknown frames |
| Answers.ServerResumes | internal/tunnel/server_session.go:61-117 | for any hello: the end of an expired session; the next epoch, the accept and the rest of the stream behind it if both offsets fit; otherwise nothing |
| Answers.ClientIgnores | internal/tunnel/client_receive.go:15-20 | pings are answered always; pongs, errors, hellos, and frames of another connection, epoch or session do nothing |
| Answers.ClientTakesData | internal/tunnel/client_io.go:69-92 | for every offset, direction, write outcome and send outcome: the new value of every field, and the frames sent |
| Answers.ClientTakesRest | internal/tunnel/client_receive.go:21-63 | the same for fins, acks, closes and unknown frames |
| Answers.ClientCommits | internal/tunnel/client_connect.go:213-238 | an accept is taken exactly if the client has not ended, a resume names its session, and it is not ahead of the stream; then the buffer is the rest of the stream |
| NetServerSteps.DataOutcome | internal/tunnel/server_io.go:11-38 | a data frame leaves the session alone, disconnects it, or, if it is fresh, moves offset and target by exactly the bytes written |
| NetSafety.StepKeepsInv | internal/tunnel/server_session.go:61-118 | every step of either machine and of the network keeps the global invariant |
| NetSafety.StreamsAreExactPrefixes | internal/tunnel/server_io.go:11-38 | in every reachable state the target holds exactly the first c2sRx bytes read from stdin, and stdout exactly the first s2cRx bytes read from the target |
| NetSafety.OrphansStayUntouched | internal/tunnel/server.go:85-116 | a session whose accept the client never committed gets no byte and no half-close |
| NetSafety.Conservation | internal/tunnel/client_state.go:9-16 | each buffer is exactly the bytes from bufFrom to next, bufFrom == ack <= peer rx <= next, and delivered bytes plus the undelivered tail are everything read |
| NetSafety.NothingIsAhead | internal/tunnel/server_session.go:72-79 | against a peer running this code no ack, resume hello or accept, however delayed, meets an ahead-of or outside-buffer rejection |
| NetSafety.HalfCloseIsExact | internal/tunnel/server_io.go:40-59 | the target's write side is shut at most once and only when it has all of stdin; stdout's only when it has all the target produced |
| NetSafety.BuffersAreBounded | internal/tunnel/client_state.go:80-98 | neither replay buffer ever holds more than buffer_bytes - 1 + 32768 bytes |
| NetSafety.ReadsAreBounded | internal/tunnel/server_io.go:9 | either loop takes any read of up to 32768 bytes and no longer one |
| NetSafety.LastReadOfStdin | internal/tunnel/client_io.go:13-40 | after a read that ends stdin nothing can follow in its loop but that end |
| NetSafety.LastReadOfTarget | internal/tunnel/server_io.go:61-99 | the same for the target |
| NetSafety.RefusalIsTold | internal/tunnel/server.go:63-67 | a hello that binds nothing is answered with an error, if that can be sent; a first hello binds exactly if the target was dialled, an unknown session never |
| NetSafety.TimeoutRunsWhileDisconnected | internal/tunnel/server_session.go:67-71 | the resume timeout runs exactly while an open session has no connection; a resume expires if and only if it does so in that state |
| NetSafety.EpochsAgree | internal/tunnel/server_session.go:80-83 | the client is never ahead of the session's epoch, an epoch names one connection, and with equal epochs two active connections are ends of the same one |
| NetFencing.ServerFencing | internal/tunnel/server_session.go:134-183 | only a data, fin or ack frame read on the active connection with the current epoch moves c2sRx, c2sFin or the ack, except that a resume, which opens the next epoch, may move the ack |
| NetFencing.ClientFencing | internal/tunnel/client_receive.go:15-20 | only a frame of the current connection, epoch and session moves what stdout has taken; session and epoch move only with a commit |
| NetFencing.SessionReceiveDelta | internal/tunnel/server_session.go:120-177 | one received frame moves at most the counters its type stands for, and never the epoch |
| NetFencing.ReceiveDelta | internal/tunnel/client_receive.go:15-63 | the same for the client |
| NetFencing.StaleLossIsHarmless | internal/tunnel/server_io.go:104-109 | losing or reading a replaced connection does not change the session |
| NetFencing.StaleDropIsHarmless | internal/tunnel/client_state.go:100-109 | dropping a replaced connection does not change the client |
| NetFencing.HelloOffsetsStayGood | internal/tunnel/client_connect.go:259-263 | the offsets of a resume hello, however late it is read, are refused only by a closed session, and the replay they lead to starts between what the client had then and what it has by now |
| NetFencing.CommitRaisesEpoch | internal/tunnel/client_connect.go:225-238 | every commit takes a strictly later epoch and trims the buffer to exactly the session's receive offset |
| NetFencing.CommittedEpochsIncrease | internal/tunnel/client_connect.go:235-238 | epochs of successive commits strictly increase within one session, whatever hellos were abandoned between them |
| NetFencing.RunIsLater | internal/tunnel/server_session.go:80 | over any stretch of any run streams only grow, epochs never fall, a closed session stays closed |
| NetFencing.NothingAfterHalfClose | internal/tunnel/server_io.go:54-57 | after the half-close the target gets no further byte and no second half-close, in the rest of the run |
| FifoRefinement.MoveIsNetSteps | internal/tunnel/client_connect.go:213-257 | a move over ordered connections is a sequence of steps of the unordered system |
| FifoRefinement.FifoRefinesNet | internal/tunnel/client_receive.go:8-13 | every state reached over ordered connections is reached by the unordered system, so all of its safety results hold there |
| Reading.WalkChunks | internal/tunnel/client_io.go:51-59 | a receiver at the start of a chunked buffer reads all of it and ends exactly at its end |
| Reading.WalkOverChain | internal/tunnel/client_io.go:76-84 | a receiver inside an unbroken chain of frames reads it without an error if and only if no frame straddles its offset |
| FifoUpstream.CommitGivesSync | internal/tunnel/client_connect.go:225-256 | after a commit with its replay the server reads the new connection from its first frame to the last byte read and the fin without a gap, overlap or misplaced fin |
| FifoUpstream.StdinReadKeepsSyncIff | internal/tunnel/client_io.go:13-28 | a chunk of stdin keeps both ends in step if and only if it is not sent on a connection that the client has left while the server reads another |
| FifoUpstream.NextReadLeavesGap | internal/tunnel/server_io.go:24-26 | after such a chunk the next one on the live connection is a gap |
| FifoUpstream.MoveKeepsSync | internal/tunnel/client_io.go:10-67 | every other move, cuts included, keeps the ends in step |
| FifoDownstream.CommitGivesDownIff | internal/tunnel/client_connect.go:225-256 | after a commit the client reads the server's replay and everything behind it without an error if and only if no queued frame straddles its receive offset; without an active connection at the start of the handshake none does |
| FifoDownstream.ReplayStart | internal/tunnel/server_session.go:96-116 | where the replay of a resume starts: at or below the client's receive offset, and exactly there if the handshake began cold |
| FifoDownstream.MoveKeepsDown | internal/tunnel/client_io.go:69-107 | every move but a straddled commit keeps the client in step |
| FifoDownstream.MoveKeepsHand | internal/tunnel/server_session.go:76-116 | what waits for a client that has not committed yet stays one unbroken chain from the replay start |
| FifoTheorems.UpstreamStaysInStep | internal/tunnel/client_io.go:10-67 | from the start or from any commit on, until a stale read |
| FifoTheorems.UpstreamResynchronises | internal/tunnel/server_io.go:11-59 | in that stretch the server never meets a gap, partial overlap or misplaced fin, and at the end of the queue the target holds all of stdin |
| FifoTheorems.DownstreamStaysInStep | internal/tunnel/client_io.go:69-107 | from the start or from any unstraddled commit on, until a straddled one |
| FifoTheorems.DownstreamResynchronises | internal/tunnel/client_io.go:69-107 | in that stretch the client never meets a gap, partial overlap or misplaced fin, and at the end of the queue, if the session still sends on it or the fin was read, stdout holds all the target produced |
| FifoTheorems.ColdCommitsAreNeverStraddled | internal/tunnel/client_connect.go:171-178 | in every run a commit is straddled only if a connection was active when its handshake began, and the client is in step after it exactly if it is not straddled |
| FifoTheorems.ReplayNeverOpensGap | internal/tunnel/server_session.go:96-116 | in every run the replay start is never above the client's s2cRx, and equals it for a handshake that began cold |
| Recovery.ServerTakes | internal/tunnel/server_io.go:11-59 | a fresh or duplicate data frame or a fin in its place is taken without loss of the connection and answered by exactly one ack, of the new receive offset |
| Recovery.ClientTakes | internal/tunnel/client_io.go:69-107 | the same for the client, with acks of its own data |
| Recovery.Reconnects | internal/tunnel/client_connect.go:109-129 | from any reachable state with an open session, a new hello leads to both ends on one whole connection, each with its full replay ahead |
| Recovery.DrainUp | internal/tunnel/server_session.go:120-177 | reading that queue to its end leaves all of stdin at the target, and its write side shut if the fin was there |
| Recovery.DrainDown | internal/tunnel/client_receive.go:8-65 | reading the other queue leaves all the target produced on stdout, and its write side shut if the fin was there |
| Recovery.OneReconnectDelivers | internal/tunnel/client_connect.go:213-257 | from every state of every run with an open session and a client that has not ended, some continuation delivers in both directions everything that was read, half-closes included |
| Witness.StaleReadIsReachable | internal/tunnel/client_io.go:13-28 | a run of eight moves to a state in which both ends are in step, and the read of stdin that takes them out of step |
| Witness.GapIsReachable | internal/tunnel/server_io.go:24-26 | and on to the server dropping the connection over a gap, with nothing received |
| Witness.StraddledCommitIsReachable | internal/tunnel/client_connect.go:171-178 | a run to a commit whose replay straddles the receive offset |
| Witness.StraddledCommitIsFatal | internal/tunnel/client_io.go:76-81 | and on to the end of the client over a partial overlap |
| Witness.LostTailIsReachable | internal/tunnel/server_io.go:89-99 | a run in which the target says its last byte and ends while the client is disconnected; the byte reaches stdout in no continuation |
| Witness.DeadTailIsReachable | internal/tunnel/server_io.go:124-149 | a run in which the session ends while its byte lies on a connection that only the client has left; the byte reaches stdout in no continuation |
| Outlook.ReadBack | internal/tunnel/client_io.go:69-107 | reading one frame, however its write and its reply go, makes nothing reachable for stdout that was not before |
| Loss.StdoutReachesIff | internal/tunnel/client_io.go:69-92 | once the session has closed, stdout can come to hold exactly m bytes if and only if the frames that wait on the active connection, or behind the accept of the pending handshake, can be read that far |
| Loss.NothingArrivesAnyMore | internal/tunnel/server_session.go:61-66 | if no data waits there, neither sink gets a byte in any continuation |
| Loss.RecoverableIff | internal/tunnel/server_io.go:89-99 | in every run: some continuation delivers all that was read, if and only if the session is open, or the target has all of stdin and those frames can be read to the end of what the target said |
| Loss.FinBringsAll | internal/tunnel/server_io.go:89-99 | a client in step whose connection carries the fin ahead of any close can still get all the target said, whether or not the session has closed |
| Cooldown.SourceIsLastCommit | internal/tunnel/client_connect.go:194-204 | the check before a promotion holds if and only if the client is not finished, nothing committed since the snapshot, and the connection is up or its loss allowed |
| Cooldown.PromotionsAreNeverSuperseded | internal/tunnel/client_connect.go:159-166 | in every run a promotion starts exactly under that condition; otherwise the cycle ends without effect |
| Cooldown.CommittedPromotionIsNext | internal/tunnel/client_switch.go:25-69 | a promotion that commits is the first commit of any kind after its cycle's snapshot |
| Cooldown.LatencySwitchesAreSpaced | internal/tunnel/client_switch.go:134-137 | every latency-driven commit is at least the cooldown after the commit before it, whatever loop made that one |
| SwitchPolicy.BeforeIsStrictOrder | internal/tunnel/probe.go:183-196 | the comparator is a strict total order on candidates with distinct places |
| SwitchPolicy.RankedMeans | internal/tunnel/probe.go:183-196 | answered paths come first, by RTT, then priority, then place; the others follow by priority, then place |
| SwitchPolicy.RankingIsUnique | internal/tunnel/probe.go:182-197 | a batch has exactly one ranking, whatever order its probes finished in |
| Probing.RankProbes | internal/tunnel/probe.go:182-197 | in place: ranked, a permutation, with every socket still at one candidate |
| SwitchPolicy.CountersAreRuns | internal/tunnel/client_switch.go:95-104 | success and failure counters are the lengths of the runs at the end of the history, the stored RTT is that of the last success |
| SwitchPolicy.UpdateCandidateStats | internal/tunnel/client_switch.go:106-124 | each outcome is recorded once under its path, others stay, and the first successful candidate at the threshold is chosen |
| SwitchPolicy.RecordCycle | internal/tunnel/client_switch.go:43-46 | one cycle adds the heartbeat to the active path's history and each probe to its path's, in one map, and leaves the counters of every path equal to its history |
| SwitchPolicy.LatencyRule | internal/tunnel/client_switch.go:134-146 | a switch pays exactly after the cooldown, to a path faster by both thresholds or to a preferred one no further than the minimum delta away |
| SwitchPolicy.VerdictFollowsHistory | internal/tunnel/client_switch.go:43-69 | with counters that follow the cycles, the verdict is the one due: the path is given up after the threshold of consecutive failures and not before; a promotion goes to the first candidate with enough consecutive successes and, without failure, needs a healthy heartbeat, the cooldown and a gain |
| SwitchPolicy.SwitchLoop | internal/tunnel/client_switch.go:9-69 | from empty statistics and over any sequence of cycles, every verdict is the one its whole history calls for |
| SwitchPolicy.OneVerdictIsDue | internal/tunnel/client_switch.go:43-69 | a history calls for no more than one verdict |
| NoFlapping.AtMostTwoSwitches | internal/tunnel/client_switch.go:134-146 | with constant RTTs, zero included, any thresholds that are not negative, and the cooldown elapsed, outside the critical case at most two switches are made from any path |
| NoFlapping.MutualIsCritical | internal/tunnel/client_switch.go:134-146 | the case is critical if and only if the best path and the runner-up each pass the latency test against the other |
| NoFlapping.CriticalFlaps | internal/tunnel/client_switch.go:134-146 | in the critical case the client alternates for ever |
| NoFlapping.SettlesIffNotCritical | internal/tunnel/client_switch.go:134-146 | switching settles from every path if and only if the case is not critical: best two paths exactly the minimum delta apart, the slower one preferred unless they are equal, and the ratio met; or a best RTT of zero, a preferred runner-up at least the minimum delta behind, and a ratio of at most 1 |
| NoFlapping.DistinctGapsSettle | internal/tunnel/client_switch.go:142-145 | with positive RTTs of which no two are exactly the minimum delta apart, the client makes at most two switches from any path |
| NoFlapping.FlappingExample | internal/tunnel/client_switch.go:142-145 | 40 ms and a preferred 70 ms at the thresholds 30 ms and 0.25 alternate for ever |
| NoFlapping.ZeroDeltaExample | internal/tunnel/config.go:171-173 | with both thresholds zero, which validation accepts, two equal paths alternate for ever |
| NoFlapping.ZeroRttExample | internal/tunnel/client_switch.go:138-140 | 0 ms and a preferred 500 ms alternate for ever at the same thresholds |
| Probing.CloseProbe | internal/tunnel/probe.go:29-36 | closes the socket the candidate still owns, if any, and then owns none |
| Probing.Transfer | internal/tunnel/probe.go:38-42 | gives the socket away; a later close or transfer finds none |
| Probing.PingPong | internal/tunnel/probe.go:78-119 | an RTT is reported if and only if the asked pong arrives and every step around it succeeds, and it is that of the first such pong |
| Probing.ProbePath | internal/tunnel/probe.go:53-121 | the result owns a socket if and only if the probe was answered; a socket of a failed probe is closed |
| Probing.StreamProbes | internal/tunnel/probe.go:151-180 | exactly one outcome per job in any order, each with its path, priority and place, and as its probe was answered, all sockets new and apart |
| Ownership.StartSession | internal/tunnel/client_session.go:20-75 | leading pings are answered, the first other frame decides: the accept is returned if and only if it comes in time and all writes before it succeed, and otherwise the socket is closed |
| Ownership.AcceptedWhen | internal/tunnel/client_session.go:44-75 | an accept comes of the frames exactly if it arrives in time, behind nothing but pings, and hello and pongs before it can be written |
| Ownership.WorksWhen | internal/tunnel/client_connect.go:171-191 | with that accept an activation works exactly if a resume gets its own session, the accept is not ahead of the client, and the replay goes through |
| Ownership.ActivateSocket | internal/tunnel/client_connect.go:171-191 | succeeds if and only if the accept comes, the client can commit it and replays, and it has not ended; the socket becomes the active connection or is closed, and the connection it replaces is closed |
| Ownership.ActivateDirect | internal/tunnel/client_connect.go:109-129 | the same for a socket of its own |
| Ownership.ActivateCandidate | internal/tunnel/client_connect.go:142-192 | a superseded candidate keeps its socket, any other successful one hands it over for good |
| Ownership.CloseProbes | internal/tunnel/probe.go:199-207 | no candidate keeps a socket |
| Ownership.TryInTurn | internal/tunnel/client_connect.go:75-89 | the candidates that own a socket are activated in order until the first that works; without success none works or the client has ended, every successful one has handed its socket over, and the others are set aside in order |
| Ownership.TryProbed | internal/tunnel/client_connect_first.go:14-40 | the same for candidates in the order their probes finish; the rest is drained |
| Ownership.ActivateRanked | internal/tunnel/client_connect.go:68-101 | on every way out no candidate keeps a socket; the activations begun are those of the candidates in order and then those of the failed paths in order, up to the first that works; it succeeds if and only if some candidate, or some redial of a failed one, works, unless the client ends |
| Ownership.Redial | internal/tunnel/client_connect.go:90-96 | failed paths are dialled in their order until one works |
| Ownership.ActivateFirst | internal/tunnel/client_connect_first.go:8-52 | cold connect with its drain: candidates are activated in the order their probes finish, then the failed paths by rank; the set of sockets that are neither closed nor active is what it was before, and it succeeds if and only if some enabled path works, unless the client ends |
| Ownership.ProbeBatch | internal/tunnel/probe.go:134-149 | one ranked outcome per path, or, when cancelled, every socket closed |
| Ownership.ConnectAny | internal/tunnel/client_connect.go:15-66 | the last known good path is tried first, then the ranked batch, then its failed paths directly, up to the first that works, and in no other order; no socket stays pending, and it succeeds if and only if some path it may use works, unless the client ends |
| Ownership.PromoteBest | internal/tunnel/client_switch.go:37-69 | exactly the chosen candidate is handed over, and only if its source is current; all others are closed; it succeeds exactly when that activation works |
| Ownership.SwitchCycle | internal/tunnel/client_switch.go:25-69 | a whole cycle: its batch is ranked and complete, the statistics follow its history, the verdict is the one that history calls for; the socket handed over is that of the candidate the verdict names, and it is handed over exactly if at that moment the client has not ended and is still on the connection of the snapshot, or has lost it after enough failures without another commit; a path given up without a successor is dropped; no socket is left pending |
| Heartbeat.CallKeepsValid | internal/tunnel/heartbeat.go:36-91 | every call keeps the channel of the pending heartbeat empty and every other one at exactly one result |
| Heartbeat.CallSays | internal/tunnel/heartbeat.go:36-91 | every call on the tracker field by field: when it takes effect, what it leaves pending, and what it puts into which channel |
| Heartbeat.ExactlyOneResult | internal/tunnel/heartbeat.go:36-91 | over any interleaving a begun heartbeat gets exactly one result, that of the first matching pong, timeout or close |
| Heartbeat.ResultStays | internal/tunnel/heartbeat.go:50-91 | no later call adds to a result or takes it back |
| Heartbeat.DecidedByFirst | internal/tunnel/heartbeat.go:36-91 | the first matching pong, matching timeout or close decides a heartbeat, with the time since the ping, never below zero, or the timeout or the close as its result; nothing else does |
| Heartbeat.ActiveHeartbeat | internal/tunnel/client_heartbeat.go:15-61 | if the first deciding call is a pong, the RTT it returns is the time since the ping, never below zero; if a close, it reports that; if none, a timeout or cancellation; the receive after a failed timeout always finds a result |
| Heartbeat.HeartbeatTracker.Begin | internal/tunnel/heartbeat.go:36-48 | equals the value call; refused when closed or pending |
| Heartbeat.HeartbeatTracker.ResolvePong | internal/tunnel/heartbeat.go:50-64 | equals the value call; the send always finds room |
| Heartbeat.HeartbeatTracker.Timeout | internal/tunnel/heartbeat.go:66-76 | equals the value call; the send always finds room |
| Heartbeat.HeartbeatTracker.Close | internal/tunnel/heartbeat.go:78-91 | equals the value call; the send always finds room |
| Retry.RetryCap | internal/tunnel/retry.go:39-48 | the doubling loop ends with min(200 ms * 2^(n-1), 5 s) for every attempt n >= 1, with 200 ms for any lower one |
| Retry.BackoffInNumbers | internal/tunnel/retry.go:39-48 | 200 ms, 400 ms, 800 ms, 1.6 s, 3.2 s, and 5 s from then on |
| Retry.BackoffMonotone | internal/tunnel/retry.go:39-48 | that law is monotone between 200 ms and 5 s |
| Retry.BackoffSaturates | internal/tunnel/retry.go:39-48 | it reaches 5 s with the sixth attempt and not before |
| Retry.Jitter | internal/tunnel/retry.go:50-69 | for any sample, also infinities and not-a-number, and whatever the machine makes of the product, the delay lies in [0, cap), and is the product with the sample, or with the largest double below one, where that lies there |
| Retry.JitterReachesAll | internal/tunnel/retry.go:63-68 | every whole delay below the cap comes from some sample in [0, 1) |
| Retry.DelayInNumbers | internal/tunnel/retry.go:21-69 | for a sample in (0, 1) the delay is the rounded product of the sample and the lesser of the backoff in numbers and the time left, cut to whole nanoseconds |
| Retry.Next | internal/tunnel/retry.go:21-37 | exhausted exactly without time left; otherwise a delay below the time left and below min(cap, time left) for a retry |
| Reconnect.TryOnce | internal/tunnel/client_reconnect.go:84-107 | one attempt: give up at the deadline, or make exactly the wait the policy decides on, and try strictly before the deadline; a wait that is cut off is the end |
| Reconnect.RunReconnectLoop | internal/tunnel/client_reconnect.go:60-109 | for any answers of the environment each round is accounted for by exactly the events it calls for, every attempt follows on its wait, and the loop ends only when told to, between rounds or in a wait, or after the timeout |
| Reconnect.DeadlineStays | internal/tunnel/client_reconnect.go:81-83 | between two recoveries the deadline does not move and failures only add up |
| Reconnect.OneDeadlinePerOutage | internal/tunnel/client_reconnect.go:73-108 | all attempts of an outage start strictly before one deadline, are numbered through, and the timeout is reported only once it is reached; success resets both |
| Reconnect.DelayFitsBudget | internal/tunnel/client_reconnect.go:84-94 | every chosen delay ends before the deadline of its outage |
| Reconnect.OneWaitBetweenAttempts | internal/tunnel/client_reconnect.go:84-107 | from one attempt of an outage to the next there is exactly one round and, unless it is for no time, exactly one wait, not cut off, as long as sample, failures and time left determine |
| Codec.WriteFrame | internal/tunnel/protocol.go:56-79 | the array that is filled in place is the envelope, with the checks in their order |
| Codec.WritesExactly | internal/tunnel/protocol.go:56-79 | every byte of what is written: two lengths, most significant byte first, header bytes, payload; and which error for which input |
| Codec.ReadsExactly | internal/tunnel/protocol.go:81-113 | which part of a message is header and which payload, and which error for which message |
| Codec.ReadFrame | internal/tunnel/protocol.go:81-113 | equals the value decoder, with the checks in their order |
| Codec.DigitsRoundTrip | internal/tunnel/protocol.go:74-75 | a number below 256^k survives its k big-endian bytes |
| Codec.NumberRoundTrip | internal/tunnel/protocol.go:89-90 | and k bytes survive their number, which is below 256^k |
| Codec.RoundTrip | internal/tunnel/protocol.go:56-113 | whatever is written is accepted and yields the same header and payload, given a header codec that inverts itself on that header |
| Codec.ReadAcceptsExactly | internal/tunnel/protocol.go:86-112 | a message is accepted with a header and payload if and only if it is the envelope, within the limits, of bytes that decode to that typed header, with a payload only on data |
| Codec.EnvelopeIsInjective | internal/tunnel/protocol.go:89-100 | a message has one split |
| Codec.RewriteIsIdentity | internal/tunnel/protocol.go:56-113 | an accepted message can be written again if and only if the bytes the codec writes for its header are within the limit, and comes out the same exactly if those are its header bytes |
| Codec.AcceptedIsPrefixFree | internal/tunnel/protocol.go:97-100 | no accepted message is a proper beginning of another |

## Left out

- Sockets, TLS, DNS, racing dials and the WebSocket upgrade (`internal/tunnel/dial.go`): an attempt is a free choice of outcomes.
- JSON header text and WebSocket framing: the header codec is an abstract pair of functions, a message is a byte sequence.
- The loop before the hello on a new server connection (`internal/tunnel/server.go:51-76`): pings are answered and anything else refused there.
- Goroutine scheduling below the step grain above, condition-variable wakeups, the race of a fired timer with a resume: no liveness or eventual delivery is claimed (`Recovery.OneReconnectDelivers` says that delivery is always possible, not that it happens).
- Overlapping handler calls: an old connection's handler that passed its offset check before a newer one writes is not modelled.
- 64-bit wrap-around of stream offsets and epochs: they are unbounded naturals; only the difference in the ack advance wraps.
- Codec.RoundTrip: assumes `decode(encode(h)) == h`, which Go's JSON gives for headers of valid UTF-8 strings only.
- SwitchPolicy.VerdictFollowsHistory: the RTT ratio is a real quotient, without rounding.
- Probing.RankProbes: sorts by insertion, which the library's stable sort does for short slices; its merging of longer ones is not modelled, the result is the same by `SwitchPolicy.RankingIsUnique`.
- Probing.StreamProbes: the workers run one after the other in any order; the bound of eight at a time is not modelled.
- Loss.RecoverableIff: a client that has ended beside an open session is not covered; it reads nothing more, and only the server's queue could still deliver.
- Heartbeat.ActiveHeartbeat: the other goroutines' calls are given as a sequence; nonces are assumed fresh.
- Reconnect.RunReconnectLoop: the two waits are answers of the environment, a wake-up before the timer included.
- Terminal `close` sent by a client: this client never sends one; the server's handling of it is modelled.
- Configuration, its validation, last-known-good files, logging, redaction, command line: presentation and plumbing.
