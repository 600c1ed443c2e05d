# A model of Hawal in Dafny

Hawal carries user connections through a tunnel between two servers, and keeps the tunnels of many servers in
step with a panel. This project models its three cores that have state worth reasoning about, and proves what
they promise.

**The multiplexer** (`core/mux`, `core/transport`, and the client and server on top). Many streams share one TCP
connection.

- `Bytes`, `Crypto`, `Frame`, `FrameIO`: the wire format as a printer and a parser, and `WriteFrame` and
  `ReadFrame` filling buffers and reading a connection step by step. The cipher is a parameter; `Crypto.Correct`
  states what sections 5.1 and 5.2 of RFC 5116 promise of it, `Crypto.Rejects` that another key opens nothing, and
  `Crypto.ToyIsCorrect` shows that both can be met.
- `MuxCore`, `Mux`: the session as a labelled transition system, one step for each lock-held region or channel
  operation, with two endpoints joined by two queues of frames. The lookup of a stream for a data frame and the
  send into its channel are separate steps, and so are the three parts of `Close`. A Go panic ends an endpoint;
  every safety property holds up to and including that state, and `MuxPanic` says exactly when it is reached.
- `MuxInvariant`, `MuxLocal`, `MuxEnter`, `MuxLink`, `MuxSteps`, `MuxFlow`, `MuxHistory`: the inductive invariant
  and its proof; `MuxTheorems`, `MuxCloses`, `MuxEof`, `MuxPipes`: what follows for every run. `MuxReach`, with
  `MuxPanic` and `MuxEofRuns`: concrete runs in which a promise fails.
- `ByteWire`: the same two sessions over byte streams, with arbitrary padding, nonces and a torn last frame; every
  such run is a run of `Mux`.
- `Chunks`, `SessionClass`, `MuxTurn`, `MuxCalls`: `Session` and `Stream` as objects, and for each of their calls the
  sequence of steps of the transition system that has its effect on the session and on the wire.
- `Handshake`, `Routing`: what happens before the session, and which address is dialled.

**The agent** (`app/static/js/agent.py`). It drives processes, tables and firewall rules towards a list.

- `Decimal`, `Firewall`, `Chains`, `Agent`, `Templates`, `AgentClass`: the operations, on values and as objects. Every
  outside call (binaries, files, the network, `iptables`, process launches) gets its outcome from an argument, so that
  the theorems range over all failures.
- `Reconcile`, `Ownership`, `Processes`: convergence, idempotence, relaunching, and, over whole runs, who owns which
  firewall rule and that no process is lost.
- `Nonce`, `Traffic`, `Counters`: the restart nonce between panel and agent, with torn writes of the nonce file; the
  traffic totals of the panel; and the counter lookup.

**The dashboard socket** (`app/server.py`): `WebSocket`, after sections 5.2 and 5.3 of RFC 6455.

`dafny verify dfyconfig.toml` (Dafny 4.11) checks the whole project.

## Where the code does not keep the promise

- A process panics when a stream's user closes it while readLoop holds a chunk for it
  (`MuxPanic.CloseWhileDelivering`, `MuxPanic.StreamCloseCanPanic`), and when a session is closed while a StreamOpen
  arrives (`MuxPanic.PanicIsReachable`). The exact condition is `MuxPanic.PanicsExactly`.
- EOF does not always mean that all was read. Whatever shut the stream, it does exactly if readLoop then held no chunk
  for it and all the peer's data frames on its ID had been read off the wire (`MuxEof.EofIsCompleteIff`); what is
  missing otherwise is that chunk and the data of those frames (`MuxEof.EofAccounts`). Bytes reported as written are
  missing even after a close by the peer, when a Write races with it (`MuxEofRuns.EofAfterPeerCloseCanBeShort`), and
  after the five-second timeout (`MuxCloses.DropTruncates`, `MuxEofRuns.EofAfterTimeoutIsShort`).
- A frame whose payload and padding exceed 33764 bytes is written but always rejected (`Frame.EncodeParse`).
- A paqet server that fails to launch leaves its firewall rules without an owner (`Ownership.FailedLaunchLeavesRules`).
  With `iptables` calls that work that is the only way in which an item can orphan rules
  (`Ownership.HandleExactIff`); over whole runs every rule is there once if its port is owned or orphaned, and not at
  all otherwise (`Ownership.FirewallOwnership`), and the final stops leave those of the orphans
  (`Ownership.ShutdownClears`).
- An agent that cannot read its nonce file starts from 0 and may restart a second time for the same nonce.
  `Nonce.FailedLoadHarmlessIff` says exactly in which states such a start can lead to a repeated restart,
  `Nonce.RepeatsBounded` that each accounts for one repeat at most, and `Nonce.RepeatIsReachable` shows it happen.
- The counter lookup is described in the code as exact for one port (app/static/js/agent.py:560), but is a substring
  test: it stops at an earlier NOTRACK line than that of the port's own rule exactly if this names, after `dpt:` or
  `spt:`, digits that the port's digits start (`Counters.ReadsOwnIff`, `Counters.ReadsAnother`). The model follows the
  code.
- A tunnel that moves to a port whose rules have counted more than the last reading has the difference added to its
  traffic (`Traffic.MoveOvercounts`).

## Model

| member | source | states |
|---|---|---|
| Bytes.PutBE | core/transport/frame.go:57-69 | a field is written at its offset, and no other byte of the buffer changes |
| Bytes.BERoundTrip | core/transport/frame.go:84-98 | a number that fits its field is read back from it |
| Bytes.BytesRoundTrip | core/transport/frame.go:84-98 | any bytes are the encoding of the number read from them |
| Bytes.BigEndian | core/transport/frame.go:57-69 | the 2-byte and 4-byte fields, byte by byte: the first one counts most |
| Crypto.DecryptEncrypt | core/transport/crypto.go:31-50 | decrypting inverts encrypting, which adds 28 bytes, for any nonce and text |
| Frame.EncodeParse | core/transport/frame.go:33-122 | a written frame is read back unchanged, with exactly its bytes consumed, if and only if payload and padding are at most 33764 bytes; otherwise it is rejected for its length, never read as something else |
| Frame.EncodedBytes | core/transport/frame.go:33-75 | the bytes written for any frame: HWL1, kind, ID, payload length modulo 2^16, padding length, body length, and nonce and sealed body |
| Frame.ParsedIff | core/transport/frame.go:78-122 | ReadFrame accepts a stream iff it starts with HWL1, fields of this layout, and a body of at most 33792 bytes that decrypts to the payload and at least the padding; it leaves exactly what follows |
| Frame.ParseFails | core/transport/frame.go:78-122 | every other stream is rejected: each of the five errors has its own cause, iff |
| Frame.PrefixNeverParses | core/transport/frame.go:78-122 | a strict prefix of a frame is never read as a frame |
| Frame.ConnectionRoundTrip | core/transport/frame.go:33-122 | any list of frames, with any paddings and nonces, is read back as the same list, and what follows is untouched |
| FrameIO.BuildHeader | core/transport/frame.go:55-62 | the header buffer filled in place is the header of the wire format, with its truncated length |
| FrameIO.BuildBody | core/transport/frame.go:41-48 | the body buffer is the payload followed by the padding |
| FrameIO.WriteFrame | core/transport/frame.go:33-75 | the whole frame reaches the wire, or the connection is down after a strict prefix of it |
| FrameIO.ReadFrame | core/transport/frame.go:78-122 | reading step by step gives what the parser says, with every error in its place, and leaves the rest of the stream |
| MuxCore.ReadTakesFront | core/mux/stream.go:40-57 | Read returns the front of the buffered bytes: what was left over, or else of the first chunk, exactly as many bytes as there are and the buffer takes; it loses none, and says EOF only when the channel is closed and nothing is left |
| MuxCore.DataEffect | core/mux/session.go:171-183 | what a data frame does in each case: ignored, appended to what its stream has buffered, or, with 128 chunks waiting, its stream dropped after the timeout and a StreamClose sent |
| MuxCore.OpenEffect | core/mux/session.go:157-169 | what a StreamOpen does: a stream with its ID and target, in the map and at the end of the accept queue, or, with 256 waiting there, answered by a StreamClose |
| MuxCore.OtherEffect | core/mux/session.go:185-200 | a StreamClose drops its stream without an answer and with what it has buffered, a Ping is answered by a Pong, and other frames do nothing |
| MuxInvariant.IdsDistinct | core/mux/session.go:46-66 | with wrapping addition the IDs of a side repeat with period 2^31 and no sooner, are odd on the server, from 3 on, and even on the client, from 4 on |
| MuxFlow.StepKeeps | core/mux/session.go:60-233 | every step of either side, under every interleaving and every failure, keeps the invariant |
| MuxFlow.RunInvariant | core/mux/session.go:37-233 | the invariant holds in every state of every run |
| MuxTheorems.EndToEnd | core/mux/session.go:96-202 | at all times what Read returned on a stream is a prefix of what the peer's Write framed on its ID; while the stream is in the map, what is missing is exactly what is buffered, in readLoop's hand or in flight |
| MuxTheorems.Conservation | core/mux/session.go:171-183 | the same conservation from the invariant of one state, with the prefix also for what is still buffered |
| MuxTheorems.DrainedMeansDelivered | core/mux/session.go:147-183 | once the wire, readLoop and the stream's buffers are drained, everything written has been returned |
| MuxTheorems.ReadsDeliver | core/mux/stream.go:40-57 | once everything written was read off the wire and delivered, as many reads as there are bytes and chunks, none of them with an empty buffer, complete what was written |
| MuxTheorems.ChannelLifecycle | core/mux/session.go:127-233 | a stream is in its map iff its channel is open, IDs are unique within a session, and no channel is closed twice |
| MuxTheorems.OpenNeverOverwrites | core/mux/session.go:157-162 | a StreamOpen from a conforming peer is for an ID that no stream of the receiver ever had |
| MuxTheorems.ClosedIsFinal | core/mux/session.go:127-191 | after a drop or a close, by either side or with the session, a stream never returns to the map and gets no further byte |
| MuxTheorems.EofIsFinal | core/mux/stream.go:47-50 | after EOF nothing more is ever returned |
| MuxTheorems.AtMostOneClose | core/mux/session.go:127-145 | at most one StreamClose per ID is sent by each side |
| MuxTheorems.NoCloseAfterPeerClose | core/mux/session.go:185-191 | none is ever sent for a stream that was in the map when the peer's StreamClose was processed |
| MuxCloses.PeerCloseLosesNothing | core/mux/session.go:185-191 | a stream closed by the peer has got, for good, exactly the data framed on its ID before the StreamClose, and has returned it once Read says EOF |
| MuxCloses.DropTruncates | core/mux/session.go:177-182 | after a timeout drop of a stream in the map, what Read returns stays short of what was written by at least the chunk given up |
| MuxEof.ShuttingKeepsGot | core/mux/session.go:127-233 | whichever step shuts a stream, the stream has got after it what it had got before |
| MuxEof.ShutAccounts | core/mux/session.go:127-233 | for a stream shut in any way, by its user, its peer, the timeout or with its session: at all later times, what it has got, the chunk in readLoop's hand and the data frames unread when it was shut are together what the peer has written on its ID |
| MuxEof.EofIsCompleteIff | core/mux/stream.go:47-50 | so when Read says EOF, all that the peer has written was returned, iff there was no such chunk and no such frame |
| MuxEof.EofAccounts | core/mux/stream.go:47-50 | whenever Read says EOF, a step of the run has shut the stream, so that what was returned is what the peer has written but for what was lost at that step |
| MuxEof.LostAfterPeerClose | core/mux/session.go:185-191 | after a close by the peer, what is missing is exactly what the peer wrote after its StreamClose |
| MuxEofRuns.EofAfterPeerCloseCanBeShort | core/mux/stream.go:59-68 | a reachable state in which a byte of a Write that raced with the Close is missing at EOF |
| MuxEofRuns.EofAfterTimeoutIsShort | core/mux/session.go:177-182 | a reachable state in which the last of 129 bytes is missing at EOF, after one timeout |
| MuxCloses.NoMoreCloses | core/mux/session.go:127-145 | once a stream is out of the map, no StreamClose is sent on its ID beyond those that a closeStream still had to send |
| MuxCloses.ClosesAfterRemoval | core/mux/session.go:136-144 | so their number never rises again if none is pending, and a pending one is sent when its goroutine gets the write lock on a connection that is up |
| MuxTheorems.AcceptOrder | core/mux/session.go:88-94 | AcceptStream returns the peer's streams in the order of their StreamOpen frames, each once and with its target; one that was not queued is out of the map |
| MuxHistory.RunFollows | core/mux/session.go:127-233 | between any two states of a run, what a stream has got only grows, and stays as it is once its channel is closed |
| MuxPipes.StepBytes | core/mux/session.go:96-125 | a step puts into a pipe only the chunk it framed and takes out only what Read returned |
| MuxPipes.EndIsFinal | core/mux/session.go:127-233 | where a pipe ends, because the reader's stream left its map, never changes |
| MuxPipes.EofAtEnd | core/mux/stream.go:47-50 | Read says EOF only when everything up to that end was returned |
| MuxPipes.StepRefinesPipes | core/mux/session.go:60-233 | two joined sessions refine independent FIFO byte pipes with an end, one for each ID and direction |
| MuxPanic.PanicsExactly | core/mux/session.go:164-178 | a step panics iff it sends to a stream that left the map since its lookup, or offers a stream after the accept queue was closed |
| MuxPanic.PanicIsReachable | core/mux/session.go:219-231 | a reachable state in which closing a session while a StreamOpen was on its way has ended in a panic |
| MuxPanic.CloseWhileDelivering | core/mux/session.go:172-178 | whenever readLoop holds a chunk for a stream whose user has not closed it, the user's Close in between leads to the panic |
| MuxPanic.StreamCloseCanPanic | core/mux/session.go:172-178 | a reachable state in which this has happened, after one open, one write and one close |
| ByteWire.ChunksFit | core/mux/session.go:107-117 | every chunk of writeStreamData is below the limit of ReadFrame with any padding |
| ByteWire.ReadsNextFrame | core/transport/frame.go:78-122 | a reader at a frame boundary gets exactly the next frame the peer wrote, or fails; never anything else |
| ByteWire.ByteStepRefines | core/mux/session.go:147-202 | a step over byte streams is a step over frame queues and keeps both readers on frame boundaries |
| ByteWire.ByteRunRefines | core/mux/session.go:96-202 | every run over byte streams is a run over frame queues |
| ByteWire.EndToEndOverBytes | core/mux/session.go:96-202 | over byte streams, what Read returned on an ID is a prefix of what the peer's Write framed on it |
| Chunks.SplitSound | core/mux/session.go:104-124 | the chunks of a write are its bytes, none is empty or above 32768 bytes, and only the last is not full |
| Chunks.DataFramesCarry | core/mux/session.go:113-117 | the data frames of a write carry exactly its bytes on its ID and nothing on any other |
| Chunks.SplitAllSound | core/mux/session.go:104-124 | the chunks of any number of writes, one after the other, are their bytes |
| Chunks.Rechunking | core/mux/stream.go:40-57 | splitting any number of writes and reading with buffers of any sizes, zero included, is the identity on bytes, after what an earlier read left over |
| Chunks.ReadsDrain | core/mux/stream.go:40-57 | such reads return all that is buffered and leave nothing for a further one but to wait or to say EOF |
| SessionClass.StreamObj.Read | core/mux/stream.go:40-57 | the fields change as the step of the model says |
| SessionClass.Session.constructor | core/mux/session.go:37-55 | a new session has no streams, and the ID seed of its side |
| SessionClass.Session.Register | core/mux/session.go:61-69 | a stream with the next ID enters the map, unless the session is closed |
| SessionClass.Session.OpenStream | core/mux/session.go:60-86 | the stream is registered and announced; if the frame cannot be written, it is taken back and its channel closed |
| SessionClass.Session.AcceptStream | core/mux/session.go:88-94 | the oldest queued stream is returned, or EOF when the queue is closed and empty |
| SessionClass.Session.WriteStreamData | core/mux/session.go:96-125 | the count returned is exactly the bytes framed whole; on a failure a strict prefix of the next frame may follow them on the wire |
| SessionClass.Session.CloseStream | core/mux/session.go:127-145 | the stream leaves the map, its channel is closed, and one StreamClose is sent, if and only if it was in the map |
| SessionClass.Session.Insert | core/mux/session.go:159-162 | a new stream is in the map under its ID, and every other stream is as it was |
| SessionClass.Session.Remove | core/mux/session.go:127-134 | the locked region of a close: out of the map, channel closed, and a panic iff it was closed already |
| SessionClass.Session.OfferAccept | core/mux/session.go:164-169 | the stream is queued, or the queue is full, or the send panics because the queue is closed |
| SessionClass.Session.Lookup | core/mux/session.go:172-174 | the stream in the map under the ID, if any |
| SessionClass.Session.Deliver | core/mux/session.go:176-183 | the chunk goes to the end of the channel, or has to wait, or the send panics because the channel is closed |
| SessionClass.Session.TurnOpen | core/mux/session.go:157-169 | the StreamOpen branch: effect on the session, and the StreamClose it answers with when the queue is full |
| SessionClass.Session.TurnData | core/mux/session.go:171-183 | the data branch: delivery, waiting, or giving the stream up with a StreamClose |
| SessionClass.Session.Turn | core/mux/session.go:156-200 | one turn of the readLoop switch: its effect on the session, the frame it answers with, and whether it waits or panics |
| SessionClass.Session.RemoveEach | core/mux/session.go:221-227 | closing a session closes every channel in the map once, in any order |
| SessionClass.Session.Close | core/mux/session.go:219-233 | the map is emptied, the accept queue closed and the connection down |
| SessionClass.Session.StreamWrite | core/mux/stream.go:59-68 | nothing is sent on a closed stream; otherwise as writeStreamData |
| SessionClass.Session.StreamClose | core/mux/stream.go:70-78 | only the first call closes, and only it can send a StreamClose |
| MuxTurn.TurnIsSteps | core/mux/session.go:156-200 | the turn that the object runs in one go is a sequence of steps, each ready when it comes, with the same effect, the same outcome, and exactly the object's answer left to be sent |
| MuxCalls.AnswerIsSent | core/mux/session.go:136-144 | that answer is the frame then put into the log |
| MuxCalls.WriteIsSteps | core/mux/session.go:96-125 | a Write is a sequence of steps that puts into the log exactly the data frames of its chunks, or of those before the one that fails; on a connection that is down already, none |
| MuxCalls.WriteClosedIsStep | core/mux/session.go:100-102 | on a closed session it is one step without effect |
| MuxCalls.SplitPrefix | core/mux/session.go:107-124 | the chunks written before a failure are the chunks of the bytes counted |
| MuxCalls.OpenIsSteps | core/mux/session.go:60-86 | OpenStream is a sequence of steps with the object's effect, whether its frame is written or not |
| MuxCalls.CloseIsSteps | core/mux/session.go:127-145 | so is closeStream, with one StreamClose iff the stream was in the map |
| MuxCalls.StreamCloseIsSteps | core/mux/stream.go:70-78 | so is the Close of a stream |
| MuxCalls.SessionCloseIsSteps | core/mux/session.go:219-233 | so is the Close of a session, in three steps |
| Handshake.PerformClientHandshake | core/transport/stealth.go:30-48 | what is sent, the verdict on the answer, and that exactly one frame is consumed |
| Handshake.PerformServerHandshake | core/transport/stealth.go:51-71 | the same for the server, which answers only a valid greeting |
| Handshake.HandshakeAligns | core/transport/stealth.go:30-71 | with equal tokens the handshake succeeds, for any padding and nonces, iff the greeting fits, and each side consumes exactly one frame |
| Handshake.ServerAcceptsIff | core/transport/stealth.go:51-63 | the server accepts a stream iff it starts with a frame of kind 1 that holds HWL_HS: and its token; one that does not start with HWL1 is no frame |
| Handshake.ClientAcceptsIff | core/transport/stealth.go:40-46 | the client accepts one iff it starts with a frame of kind 2; any other kind is rejected |
| Handshake.HandshakeBytes | core/transport/stealth.go:30-70 | the bytes that both sides send |
| Handshake.WrongTokenRejected | core/transport/stealth.go:53-63 | with the key of each side taken from its token: a greeting that does not fit is too long, one of the same token is accepted, and one of another token cannot be decrypted |
| Handshake.GreetingNamesToken | core/transport/stealth.go:60-63 | even under the same key a greeting is accepted iff it names the server's token |
| Handshake.SessionAfterHandshake | core/transport/stealth.go:30-71 | the session that follows reads exactly the frames the peer's session wrote |
| Routing.SplitSound | core/client/client.go:39-39 | the parts of a rule, joined by =, are the rule, and none has an = in it |
| Routing.SplitUnique | core/client/client.go:39-39 | no other list of parts does that |
| Routing.BuildPortMap | core/client/client.go:37-45 | the loop builds the map that the rules define |
| Routing.LastRuleDecides | core/client/client.go:37-45 | the last rule for a port with at most one = decides where it is dialled |
| Routing.NoRuleMeansLoopback | core/client/client.go:99-106 | without a rule it is the same port on loopback |
| Routing.RuleText | core/client/client.go:38-45 | a rule port=target means the target, and a rule port the same port on 127.0.0.1 |
| Routing.TwoEqualsIgnored | core/client/client.go:39-44 | a rule with more than one = means nothing |
| Routing.Listens | core/server/server.go:97-116 | a port is listened on iff it is the left part of a rule that could be bound |
| Routing.ListensInOrder | core/server/server.go:97-116 | there are as many listeners as rules that could be bound, and they are in the order of these |
| Routing.StartForwardedListeners | core/server/server.go:97-116 | the loop opens these listeners, in the order of the rules |
| Routing.TargetCarried | core/server/server.go:135-141 | in every run an accepted stream has the port its opener gave to OpenStream |
| Routing.RouteEndToEnd | core/server/server.go:97-141 | so the address dialled at the far end is that of the last rule for the opener's port, or loopback |
| Decimal.StrInjective | app/static/js/agent.py:271-273 | str of a port or nonce determines it |
| Decimal.DigitsOfNumber | app/static/js/agent.py:271-273 | a number is written in the digits 0 to 9 without a leading 0, and read from the left |
| Decimal.MarkersDiffer | app/static/js/agent.py:376-376 | markers are equal iff content and nonce are, for all contents, even with NUL characters |
| Firewall.Iptables.IptablesRule | app/static/js/agent.py:261-266 | the effect and answer of one call that works, fails or raises |
| Firewall.Iptables.ConfigurePaqetIptables | app/static/js/agent.py:268-290 | the loop does what the rule lists say, cleaning up on any failure |
| Firewall.Iptables.CleanupPaqetIptables | app/static/js/agent.py:292-306 | the delete loops do what the rule lists say; each ends because the count of its rule falls |
| Firewall.DeleteLoopEffect | app/static/js/agent.py:303-304 | only the count of the rule named falls, to zero if all calls work |
| Firewall.ConfigureEffect | app/static/js/agent.py:268-290 | success means that every rule of the port is there; with calls that work none is added twice; and no other rule changes its count |
| Chains.ConfigureInRules | app/static/js/agent.py:268-290 | chain by chain: success means the NOTRACK rules for packets into and out of the port and the rule that drops RST; with calls that work each was there or has been appended and nothing else changed; and after a failure by a single call every copy of the three is gone |
| Chains.CleanupInRules | app/static/js/agent.py:292-306 | with calls that work every copy of these three rules goes, and nothing else |
| Chains.CleanupUndoes | app/static/js/agent.py:268-306 | so that cleanup undoes configure where none of the three was there |
| Chains.BadFirstCall | app/static/js/agent.py:281-306 | a call that raises ends a cleanup and makes configure clean up; a delete that fails ends the loop of its own rule only |
| Chains.OtherRoles | app/static/js/agent.py:275-280 | for any role but server both do nothing |
| Firewall.CleanupEffect | app/static/js/agent.py:292-306 | no rule is added, rules of other ports keep their count, and with calls that work those of the port are gone |
| Firewall.PortsApart | app/static/js/agent.py:270-274 | different ports share no rule |
| Firewall.OthersKept | app/static/js/agent.py:268-306 | whatever the calls do for a port, every rule but the three of this port stays in place and in order |
| Agent.HandleKeepsTables | app/static/js/agent.py:373-483 | the three tables keep equal key sets on every path |
| Agent.HandleFrame | app/static/js/agent.py:373-448 | handling an item leaves the entries of all other tunnels alone |
| AgentClass.HawalAgent.StopTunnelProcess | app/static/js/agent.py:470-483 | the tunnel's entries go, and a paqet tunnel's rules are cleaned up |
| AgentClass.HawalAgent.RestartTunnelProcess | app/static/js/agent.py:456-468 | stop, then the three entries if the launch works and none if it fails |
| AgentClass.HawalAgent.IsCurrent | app/static/js/agent.py:379-390 | a tunnel is current iff its process lives and its marker is the one asked for |
| AgentClass.HawalAgent.StopUnlisted | app/static/js/agent.py:450-454 | the second loop stops what is not listed, in the order given |
| AgentClass.HawalAgent.HandleItem | app/static/js/agent.py:373-448 | the branches of the loop over the items, with every early exit |
| AgentClass.HawalAgent.HandlePaqetItem | app/static/js/agent.py:405-433 | the paqet branch, with its stop, file, firewall and launch in order |
| AgentClass.HawalAgent.ApplyConfigs | app/static/js/agent.py:370-454 | both loops, and that an exception skips the second one |
| AgentClass.HawalAgent.Shutdown | app/static/js/agent.py:585-595 | every running tunnel is stopped |
| Reconcile.HandleMeets | app/static/js/agent.py:373-468 | with calls that succeed, a tunnel whose process lives and was launched under its content and nonce is untouched; any other one is stopped if it has a process and launched, with this text and its metadata, and nothing else is stopped or launched |
| Reconcile.DeadIsRelaunched | app/static/js/agent.py:379-394 | in particular a tunnel whose process has died |
| Reconcile.ErrorPaths | app/static/js/agent.py:373-468 | what each failure leaves behind: nothing changed, the tunnel gone from all tables, or the sync ended, the last exactly when a file or a binary cannot be put in place where it is needed |
| Reconcile.ExceptionEnds | app/static/js/agent.py:370-454 | where the sync ends with an exception, one item has raised it, those before it were handled, and every other tunnel, listed or not, keeps its entries |
| Reconcile.UnlistedGo | app/static/js/agent.py:450-454 | where it does not, whatever else has failed, every tunnel that is not listed is gone and the listed ones are as the first loop left them |
| Templates.ReplaceLeftmost | app/static/js/agent.py:419-419 | str.replace replaces the leftmost occurrence and then does the same with what follows it |
| Templates.FillsIn | app/static/js/agent.py:419-419 | a paqet template with any number of the placeholders in any order is filled in with interface, address and MAC in their places |
| Processes.HandleAccounted | app/static/js/agent.py:456-483 | an item never replaces a process without stopping it, and stops only what runs |
| Processes.NoOrphans | app/static/js/agent.py:370-483 | after any run of syncs, whatever fails, the processes launched and not stopped are exactly those of the table, and the three tables agree |
| Processes.ShutdownStopsAll | app/static/js/agent.py:592-594 | after the final stops nothing that was launched runs |
| Reconcile.RelaunchedIffChanged | app/static/js/agent.py:376-446 | a live tunnel is launched anew exactly when its content or its nonce changed |
| Reconcile.StopRemovedEffect | app/static/js/agent.py:450-454 | exactly the tunnels no longer listed are stopped |
| Reconcile.Converges | app/static/js/agent.py:370-454 | apply_configs ends with exactly the listed tunnels, each under its content and nonce, in its old process iff that lived and ran under them already |
| Reconcile.Idempotent | app/static/js/agent.py:370-454 | a repeat with live processes and the same network changes nothing, launches nothing and stops nothing, and ends normally unless putting a binary in place raises |
| Ownership.HandleGuarded | app/static/js/agent.py:405-433 | if a server port belongs to one tunnel for good, every running paqet server has its three rules after every item, whatever fails |
| Ownership.HandleExact | app/static/js/agent.py:405-433 | with iptables calls that work, each rule is there once if its port is owned or orphaned and not at all otherwise; a server that fails to launch adds its port to the orphans, one that is launched takes it out |
| Ownership.OrphansAreCounted | app/static/js/agent.py:405-433 | the counts determine which ports are orphans |
| Ownership.HandleExactIff | app/static/js/agent.py:405-433 | from a state without orphans an item leads to one without, iff it is not a server that fails to launch |
| Ownership.FailedLaunchLeavesRules | app/static/js/agent.py:424-433 | a concrete such item, after which the three rules have no owner |
| Ownership.HandleInv | app/static/js/agent.py:373-448 | all that the run theorem claims is kept by each single item |
| Ownership.FirewallOwnership | app/static/js/agent.py:268-483 | the same after any run of syncs, failed launches and rules found at the start included, with the tables in agreement and the rules of others in order |
| Ownership.NoOrphansIfAllLaunch | app/static/js/agent.py:456-468 | without failed launches and rules found at the start there are never orphans |
| Ownership.ShutdownClears | app/static/js/agent.py:470-483 | after the final stops the tables are empty, of the paqet rules exactly those of the orphans are left, once each, and those of others are as they were |
| Nonce.SyncEffect | app/static/js/agent.py:326-345 | a sync restarts the agent iff apply_configs did not raise, the nonce is above the agent's and it could be saved; otherwise only the file may change, and that only if the nonce was to be saved |
| Nonce.BootEffect | app/static/js/agent.py:45-50 | a start takes the nonce from the file, and 0 where that cannot be read or is no number |
| Nonce.FetchEffect | app/static/js/agent.py:586-591 | an agent that is to stop starts no further sync |
| Nonce.StepKeepsInv | app/static/js/agent.py:326-345 | every event, torn writes and crashes included, keeps what makes restarts unique, but for a start that cannot read the nonce file after a restart and with no newer request waiting |
| Nonce.AtMostOncePerNonce | app/static/js/agent.py:326-345 | in runs without such starts: at most one self-restart per nonce, only for nonces the panel reached, and never more than it asked for |
| Nonce.RepeatsBounded | app/static/js/agent.py:326-345 | in any run: the nonces of the restarts never fall, and a restart repeats the one before at most once per such start |
| Nonce.CompletedSyncCatchesUp | app/static/js/agent.py:337-343 | after a completed sync the agent's nonce is at least the reported one, and survives the restart |
| Nonce.FailedLoadHarmlessIff | app/static/js/agent.py:45-50 | after a start that cannot read the nonce file, no continuation in which it can be read again restarts the agent twice for one nonce, iff there was no restart yet or a newer request waits |
| Nonce.FailedLoadRepeats | app/static/js/agent.py:45-50 | otherwise the next sync that works restarts it a second time for the same nonce |
| Nonce.RepeatIsReachable | app/static/js/agent.py:45-50 | a run in which that happens |
| Decimal.ValOfStr | app/static/js/agent.py:45-54 | the nonce written to the file is the nonce read from it |
| Decimal.ValOfPrefix | app/static/js/agent.py:45-54 | a torn file never reads as more than was being written |
| Nonce.NonceKeeper.SaveAgentRestartNonce | app/static/js/agent.py:52-54 | what is in the file after a write that succeeds, cannot open the file, or stops part way |
| Nonce.NonceKeeper.FinishSync | app/static/js/agent.py:337-345 | the agent's fields change as the protocol step says |
| Traffic.Agent.TrackTraffic | app/static/js/agent.py:485-517 | the loop over the tunnels remembers each reading and reports each increment |
| Traffic.Panel.PostTraffic | app/server.py:418-424 | every report is added to the total of its tunnel |
| Traffic.Panel.UpdateTunnelTraffic | app/db.py:328-336 | one tunnel's totals grow by the two numbers; an unknown one changes nothing |
| Traffic.RoundAt | app/static/js/agent.py:485-517 | one round, for one tunnel among many: a reading is remembered, each direction's total grows by what it is above the one before, if anything, and a first reading or a failed lookup adds nothing |
| Traffic.StepByMeter | app/static/js/agent.py:485-557 | the tunnels do not disturb one another |
| Traffic.NeverOvercounts | app/static/js/agent.py:485-557 | in any run of traffic, resets, moves to other ports, samples, failed lookups, lost reports and restarts, a total grows by at most the bytes since the first sample and what rules moved to had counted already |
| Traffic.NothingCarried | app/static/js/agent.py:485-557 | the second part is nothing if the rules are always new ones |
| Traffic.MoveOvercounts | app/static/js/agent.py:498-511 | after a move the difference of the two counters is added although nothing passed |
| Traffic.NeverShrinks | app/db.py:328-336 | and no event makes it smaller |
| Traffic.ExactWhenSmooth | app/static/js/agent.py:498-515 | with the same rules all along, no losses and no restarts it grows by exactly the last sampled counter minus the first |
| Counters.IptablesBytes | app/static/js/agent.py:559-575 | the counter of the first line that has the needle, NOTRACK and two leading numbers, or an error if there is none |
| Counters.CounterIsPrinted | app/static/js/agent.py:572-574 | the number printed in the second column is the number read from it |
| Counters.CounterOf | app/static/js/agent.py:572-574 | for any line: the number in the second column, if that and the first are made of digits, and none otherwise |
| Counters.NeedleIff | app/static/js/agent.py:568-571 | any line has the needle in it iff the digits looked for start those that follow one of its kind and colon |
| Counters.StartsIff | app/static/js/agent.py:568-568 | the digits of p start those of q iff p is q with some of its last digits cut off |
| Counters.PrintedIsOwn | app/static/js/agent.py:569-574 | a rule as iptables prints it is the port's own line, with its counter |
| Counters.ReadsOwnIff | app/static/js/agent.py:559-575 | in any listing the line read is that of the port's own rule iff no earlier NOTRACK line with two leading numbers names digits that the port's digits start |
| Counters.ReadsAnother | app/static/js/agent.py:559-575 | port 80 reads the counter of port 8080 where that rule comes first |
| WebSocket.EncodeWsFrame | app/server.py:52-64 | the buffer grown step by step is the frame, for every payload below 2^64 bytes |
| WebSocket.ShortestForm | app/server.py:52-64 | the shortest of the three length forms is used, with the length itself, 126 or 127 in the second byte, and length and payload can be read back |
| WebSocket.TakeFrame | app/server.py:710-723 | one turn of the dashboard loop |
| WebSocket.TurnInBytes | app/server.py:710-723 | one turn in the bytes of any stream, cut off or not: where the mask and the payload are, each bit of the payload, and what is left |
| WebSocket.MaskInBits | app/server.py:723-723 | bit j of byte i is inverted iff bit j of byte i % 4 of the mask is set |
| WebSocket.HandleWsDashboard | app/server.py:706-728 | the loop goes through the whole stream |
| WebSocket.MaskTwice | app/server.py:723-723 | the XOR with the mask restores what was masked with it |
| WebSocket.ReadsOneFrame | app/server.py:710-723 | one turn consumes exactly one masked client frame and restores its payload |
| WebSocket.LoopReadsAllFrames | app/server.py:706-728 | the loop takes any concatenation of masked client frames apart frame by frame |

## Left out

- AES-GCM, SHA-256 and the random generator: the cipher is a parameter with a correctness hypothesis (and, for a wrong token, the hypothesis that one key does not open what another has sealed), paddings and nonces are arbitrary, and a failing random generator is not modelled.
- Deadlines, keepalive and timers: the five-second timeout of readLoop may fire at any time while the channel it sends to is open and full, and a write may fail at any time, which allows more runs than the program has.
- Waiting: readLoop does not wait for the StreamClose frame that it sends itself when it drops a stream, so `Mux` allows more interleavings than the program has; liveness is not claimed.
- More than 2^31 streams opened by one side of one session: IDs then repeat (`MuxInvariant.IdsDistinct`), and `Mux` has no such step.
- Several readers of one stream at the same time: `Stream.Read` has no lock, and each Read is one step here.
- Frame.EncodeParse: payloads of 2^32 - 76 bytes and more are excluded, because the 32-bit length of the encrypted body would wrap around.
- Handshake.PerformClientHandshake: tokens of nearly 2^32 bytes are excluded for the same reason.
- SessionClass: each method runs without interruption; interleavings are the subject of `Mux`, and `MuxTurn` and `MuxCalls` connect the two.
- pingLoop and Pong: frames without effect on streams; they only share the write lock and the wire.
- HandleActiveProbe, dialling, copying between sockets, and the replacement of one server session by the next: plumbing around the modelled parts, and the listeners are started outside the server's lock, so only one transport at a time is modelled.
- The texts of configurations: `Agent.Item` holds what json.dumps and the templates come to; only the replacement of the three paqet placeholders is modelled.
- Agent.Item: every key that the code reads without a default is there; a missing one would raise like a file that cannot be written.
- Counters.IptablesBytes: digits and blanks are those of ASCII, while str.isdigit and str.split know more characters, none of which iptables prints.
- Ownership.FirewallOwnership: the rules that a killed agent leaves to the next one are among those found at the start; but for the exact count the rules of a port must be found all or none, once each, so that a kill between two iptables calls is not covered.
- Ports given to paqet clients, and the list of forwarded ports in the metadata: they have no effect on rules or tables.
- Installing binaries, network discovery, heartbeat, log upload and system metrics: input and output only.
- Traffic of other tunnel types: the panel's collector sets absolute values, which no conservation law survives; it skips paqet tunnels (app/server.py:101-105), so that it never overwrites the totals modelled here.
- Traffic.NeverOvercounts: a sample reads the tunnel's own counter; when the lookup does is `Counters.ReadsOwnIff`.
- WebSocket.HandleWsDashboard: reads return all bytes asked for except at the end of the stream.
- agent/agent.py: an older copy of the agent without nonces and GOST.
- The panel's database schema, HTTP routing, user interface and installers: only easy claims.
