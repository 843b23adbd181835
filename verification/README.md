# Verification of chisel's protocols and parsers

A Dafny model of the parts of this repository where the order of events or the number of cases
is the difficulty, with proofs over all inputs, all interleavings and all runs. Verify it with
`dafny verify dfyconfig.toml`.

| file | models |
|---|---|
| `RemoteGrammar.dfy` | the tokenizer, decoder and encoder of remotes (`share/settings/remote.go`) |
| `RemoteTokens.dfy`, `RemoteRoundTrip.dfy`, `RemoteSockets.dfy`, `RemoteShorthand.dfy`, `RemoteErrors.dfy`, `RemoteFields.dfy` | proofs about them: the tokenizer inverts the colon-join, which remotes survive encoding and decoding, what each accepted string decodes to and whether that survives, and which strings are refused with which error |
| `WaitGroup.dfy` | the guarded wait group (`share/tunnel/wg.go`), step by step, for any number of goroutines |
| `ConnectionGate.dfy`, `GateHistory.dfy` | `BindSSH`, `getSSH` and the context watcher around that group (`share/tunnel/tunnel.go`), and why its gate can be open without a connection |
| `GatedTunnel.dfy` | the tunnel as an object, each of whose methods is a run of that system |
| `PairRegistry.dfy` | the rendezvous of socket-pair participants (`share/tunnel/tunnel_in_proxy_uds_pair.go`) |
| `UdpExit.dfy`, `UdpFullTable.dfy`, `UdpSockets.dfy` | the source-keyed table of UDP sockets and its readers (`share/tunnel/tunnel_out_ssh_udp.go`), a run that fills it, and the sockets it never closes |
| `UdpHandler.dfy` | the loop and the table as an object, each of whose methods takes steps of that system |
| `UdpEntry.dfy` | the cached UDP channel and its invalidation (`share/tunnel/tunnel_in_proxy_udp.go`) |
| `Monitor.dfy`, `Sorting.dfy` | the session and endpoint store with its ordered snapshot (`server/monitor_state.go`) |
| `SessionLifecycle.dfy` | any number of server handlers on that store, in any interleaving (`server/server_handler.go`, `share/tunnel/tunnel.go`, `share/tunnel/tunnel_in_proxy.go`) |
| `SessionProgress.dfy` | which handlers can still move, how many moves they have left, and what a panic leaves |
| `ServerTunnel.dfy`, `TunnelEnd.dfy`, `TunnelRace.dfy` | the one bind of a server session's tunnel beside `BindRemotes`, the two ways in which its wait group ends the process, and when that can happen (`share/tunnel/tunnel.go`, `server/server_handler.go`) |
| `ServerWorld.dfy`, `ServerEnd.dfy` | all handlers, their tunnels and the process they share; which sessions can end it, and which handlers can complete |
| `SharedEndpoints.dfy` | when an endpoint record shows its proxy although others have the same descriptor |
| `ServerHandler.dfy` | one handler as a sequential program: validation, panic, `BindRemotes` beside a given run of its tunnel, disconnect |
| `Streams.dfy` | the stream events of the connections on one proxy (`share/tunnel/tunnel_in_proxy.go`) |
| `MessageStream.dfy` | the websocket-to-stream adapter (`share/cnet/conn_ws.go`) |
| `DetermRand.dfy`, `FieldElement.dfy` | the deterministic reader and the private scalar drawn from it (`share/ccrypto`) |
| `Common.dfy`, `Text.dfy` | shared datatypes, weighted sums, runs of a transition system, strings |

Concurrent code is a transition system: `Step` gives the next state of one action or `None` when
that action is not enabled, `Run` folds a schedule over it, and a theorem "over all runs" speaks
of every schedule for which `Run` succeeds. Code that updates an object in place is also a class,
whose methods are proved to compute the functions, or to take the runs, that the theorems are about.

## What the proofs found

- A remote survives `Encode` and `DecodeRemote` exactly when it is canonical
  (`RemoteSockets.RoundTrip`). The conditions are not all met by what the decoder itself accepts:
  `53/UDP` keeps its upper-case protocol, which the encoder does not print
  (`RemoteSockets.CapitalProtocolIsLost`), and the lone token `stdio` decodes to a remote without
  ports (`RemoteShorthand.LoneStdioIsLost`).
- An accepted socket remote encodes to a string that decodes back, unless the text of its target has
  white space behind an opening bracket and no colon in the brackets
  (`RemoteSockets.AcceptedSocketRoundTrip`). A no-break space does it
  (`RemoteSockets.SpacedHostIsLost`): the brackets are dropped by the first decoding, and the space
  is trimmed by the second.
- For accepted strings that are not for a socket, `RemoteFields.AcceptedRoundTrip` says on the tokens
  which survive: not the lone word `stdio`, no upper-case protocol behind a last port, no host with a
  second protocol suffix behind the one cut off, no local host that the decoder takes for something
  else, and with `stdio` no local side of its own.
- A server handler panics when its client hangs up between the handshake and the first request, when
  it reads a null among the remotes, and when no user was stored for the connection; the HTTP server
  goes on and the session is shown as pending in every later snapshot
  (`ServerHandler.ClientsThatPanic`, `SessionProgress.CrashedStaysPending`).
- An accepted session with reversed remotes can end the whole process, in two ways. When
  `BindRemotes` fails (a second remote on one port does it), the watcher of the bind's context drains
  the wait group while the loss of the connection is being added, and the counter becomes negative
  (`ConnectionGate.UnderflowFromTheStart`). And when a `getSSH` call waits before the bind is
  published, its goroutine, released by `Done`, may go on only after the next `Add`, which the library
  reports as reuse (`TunnelEnd.WaiterCanReuse`). One of the two can happen to a session if and only if
  it has reversed remotes, and `BindRemotes` fails or a `getSSH` call comes (`TunnelRaces.RaceCanEnd`);
  in a running server the first can still happen if and only if `BindRemotes` has not returned in
  order, the loss is not yet added and the drain is not over (`ServerEnd.SessionCanUnderflow`).
- So a session ends failed, or disconnected with its endpoints settled, if and only if its client is
  answerable and the process is not ended by its tunnel (`ServerHandler.Server.HandleWebsocket`), and in
  every run a handler can still complete if and only if it has, or it has not panicked and the process
  lives (`ServerEnd.HandlerCanComplete`).
- The wait group's two counters are not updated together: a `Done` that overtakes the second half
  of an `Add` drives the inner counter below zero, and this is reachable
  (`WaitGroups.UnderflowIsReachable`, and for a tunnel `ConnectionGate.LostWhileCancelledUnderflows`).
  It happens if and only if the adds half done outweigh the rest (`WaitGroups.InnerUnderflow`).
- After a context is cancelled before its connection is published, the gate lets waiters through
  to no connection (`ConnectionGate.CancelledGateIsFree`); without cancellation this never happens.
  While there is no connection, the gate is open exactly when a drain has taken from `n` since the
  last connection was lost and none is half done (`GateHistory.GateIsFree`).
- A source that is dialled while the UDP table already holds 100 entries gets no reader, and none
  later: its packets are sent but no reply ever carries its name (`UdpExit.UnreadForever`,
  `UdpFullTable.NextIsNeverAnswered`).
- A reader that ends takes its entry out of the table and does not close its socket; what is not in
  the table when the loop ends is never closed by the program (`UdpSockets.LeftOpen`).
- Proxies of one session with the same descriptor share one endpoint record, which is right for all
  of them exactly when they look alike (`SharedEndpoints.EndpointMirrorsProxy`): when one of two
  returns, the record reads closed while the other runs on (`SharedEndpoints.TwinIsHidden`).
- Reading a deterministic reader in two pieces gives the bytes of one read exactly when the first
  piece ends on a 32-byte block, or the second is empty (`DetermRandom.SplitReadsAgree`).
- The comment at `share/settings/remote.go:15-17` names 127.0.0.1 as the default local host; the
  code uses 0.0.0.0, and so does the model (`RemoteShorthand.PortAlone`).

## Model

| member | source | states |
|---|---|---|
| `RemoteGrammar.MatchLength` | share/settings/remote.go:63 | a match of the token pattern lies within the text |
| `RemoteTokens.MatchToken` | share/settings/remote.go:63 | a well-formed token followed by nothing or a colon is matched whole |
| `RemoteTokens.TokensOfJoin` | share/settings/remote.go:63 | the tokenizer gives back every list of well-formed tokens from its colon-join |
| `RemoteTokens.TokensAreTokens` | share/settings/remote.go:63 | it never produces anything but well-formed tokens |
| `RemoteGrammar.AbsorbToken` | share/settings/remote.go:72-82 | one turn of the scan has exactly the effect of the token's piece: the words socks and stdio count only in their places |
| `RemoteGrammar.AbsorbValue` | share/settings/remote.go:83-109 | protocol, port and host assignments and the two errors of a turn, as the piece prescribes |
| `RemoteGrammar.ApplyDefaults` | share/settings/remote.go:110-146 | the defaults and the three final checks, in order |
| `RemoteGrammar.DecodeTokens` | share/settings/remote.go:64-146 | the back-to-front loop computes the recursive scan of the pieces, for every token list |
| `RemoteGrammar.DecodeRemote` | share/settings/remote.go:51-147 | the decoder as a program equals the decoding function on every string |
| `RemoteRoundTrip.ScanKeeps` | share/settings/remote.go:71-109 | loop invariant of the scan: which fields are set, by well-formed texts, after each turn |
| `RemoteRoundTrip.DecodedIsWellFormed` | share/settings/remote.go:71-146 | apart from the lone token stdio, whatever is accepted has equal protocols, tcp if socks, never both stdio and reverse, a token as local host, a valid local port, and a remote host and valid remote port exactly unless socks |
| `RemoteSockets.AcceptedOutput` | share/settings/remote.go:51-147 | the same guarantee for every accepted string that is not a socket remote; reverse exactly for the prefix `R:` |
| `RemoteShorthand.LoneStdioIsLost` | share/settings/remote.go:79-82 | the word stdio alone is accepted as a remote without ports, which encoding and decoding do not give back |
| `RemoteErrors.ScanErrors` | share/settings/remote.go:98-103 | the scan fails for missing ports if and only if the last token is a host, and for an invalid host if and only if it is not and some host is refused |
| `RemoteErrors.DecodeErrors` | share/settings/remote.go:64-146 | for every string not for a socket: exactly when the count of tokens, a host in last place and a refused host are reported; all other failures are the three final checks |
| `RemoteFields.ScanRest` | share/settings/remote.go:71-97 | behind the last token the first port is the local one, and the remote is stdio if and only if the first token is that word |
| `RemoteFields.ScanProtos` | share/settings/remote.go:85-91 | behind a last port the last protocol in front of it is the local one, behind socks the first protocol is the remote one |
| `RemoteFields.ScanHosts` | share/settings/remote.go:98-108 | behind a last port the last host with a text is the remote host and the first host before it the local one; behind socks the first host is the local one |
| `RemoteFields.DecodesTo` | share/settings/remote.go:71-146 | for every scannable token list the result is what the final checks say of the remote whose fields are the first or the last of each kind among the tokens, or the defaults |
| `RemoteFields.DecodesExactly` | share/settings/remote.go:51-147 | for every string not for a socket: when each of the three final checks fails, and with them exactly which strings are accepted and as what |
| `RemoteFields.AcceptedRoundTrip` | share/settings/remote.go:51-294 | for every accepted string not for a socket: the result survives encoding and decoding if and only if its tokens meet the conditions on protocol case, second suffixes, stdio and the local host |
| `RemoteRoundTrip.EncodeSpells` | share/settings/remote.go:252-294 | for a well-formed remote the encoder prints the colon-join of its spelling |
| `RemoteRoundTrip.RouteOfEncoding` | share/settings/remote.go:53-63 | that text reaches the tokenizer with its tokens and direction intact if and only if its first token is not mistaken for a prefix |
| `RemoteRoundTrip.DecodeSpelling` | share/settings/remote.go:71-146 | decoding the tokens of the spelling gives the remote back if and only if protocols, hosts and stdio fields are canonical |
| `RemoteRoundTrip.AcceptedIsWellFormed` | share/settings/remote.go:51-147 | a remote without socket that survives the round trip is well-formed |
| `RemoteRoundTrip.PlainRoundTrip` | share/settings/remote.go:51-294 | a remote without socket survives encoding and decoding if and only if it is canonical |
| `RemoteSockets.SplitFacts` | share/settings/remote.go:169-172 | what splitting host and port accepts is the host and the port joined, bracketed or not |
| `RemoteSockets.AcceptedSocket` | share/settings/remote.go:149-194 | every accepted socket string gives a trimmed, colon-free, non-empty path, an accepted host with its brackets, a valid port and the fixed other fields |
| `RemoteSockets.SocketRoundTrip` | share/settings/remote.go:149-194 | a socket remote survives encoding and decoding if and only if it is canonical |
| `RemoteSockets.RoundTrip` | share/settings/remote.go:51-294 | for all remotes: decoding the encoding gives the remote back if and only if it is canonical |
| `RemoteSockets.AcceptedSocketRoundTrip` | share/settings/remote.go:149-194 | for all accepted socket strings, re-bracketed targets included: the result survives if and only if the text of the target has no white space behind an opening bracket, or a colon in the brackets |
| `RemoteSockets.SpacedHostIsLost` | share/settings/remote.go:168-175 | an accepted string whose bracketed host starts with a no-break space does not survive |
| `RemoteSockets.CapitalProtocolIsLost` | share/settings/remote.go:215-224 | an upper-case protocol is accepted and lost by encoding |
| `RemoteShorthand.PortAlone` | share/settings/remote.go:15-17 | a port alone forwards that port of all local addresses to the same port of the remote side's own host |
| `RemoteShorthand.HostAndPort` | share/settings/remote.go:18-20 | host and port forward the same local port to it |
| `RemoteShorthand.PortHostAndPort` | share/settings/remote.go:21-23 | the local port may differ |
| `RemoteShorthand.SocksAlone` | share/settings/remote.go:111-118 | socks alone listens on 127.0.0.1:1080 |
| `WaitGroups.AlwaysBalanced` | share/tunnel/wg.go:13-28 | in every interleaving of any number of goroutines n is not negative and inner is n less the adds half done plus the dones half done |
| `WaitGroups.InnerNotNegative` | share/tunnel/wg.go:13-28 | with no add half done inner is at least n |
| `WaitGroups.InnerUnderflow` | share/tunnel/wg.go:18-22 | the step that takes from inner drives it negative if and only if the adds half done reach n plus the dones half done |
| `WaitGroups.UnderflowIsReachable` | share/tunnel/wg.go:13-22 | a Done between the halves of an Add makes inner -1 |
| `WaitGroups.AloneAdd` | share/tunnel/wg.go:13-16 | run alone, the steps of Add have the effect of the sequential method |
| `WaitGroups.AloneDone` | share/tunnel/wg.go:18-22 | run alone, the steps of Done have the effect of the sequential method |
| `WaitGroups.AloneDoneAll` | share/tunnel/wg.go:24-28 | run alone, the steps of DoneAll terminate with the effect of the sequential method |
| `WaitGroups.DoneAllEmpties` | share/tunnel/wg.go:24-28 | after any schedule that leaves nothing half done, DoneAll leaves both counters at zero |
| `WaitGroups.WaitGroup.Add` | share/tunnel/wg.go:13-16 | adds to both counters |
| `WaitGroups.WaitGroup.Done` | share/tunnel/wg.go:18-22 | takes one from both when n is positive, else nothing |
| `WaitGroups.WaitGroup.DoneAll` | share/tunnel/wg.go:24-28 | takes n from both when n is positive |
| `ConnectionGate.AlwaysSafe` | share/tunnel/tunnel.go:110-178 | every run keeps the invariant that ties binders, watchers, counters and connection together, and the promise about waiters while nothing was cancelled |
| `ConnectionGate.MirrorStaysSmall` | share/tunnel/tunnel.go:94-141 | with or without cancellation n is 0 or 1, at most one binder owns the connection, and inner is negative exactly while that owner is between the halves of its Add, n is zero and no done is half done |
| `ConnectionGate.OpenGateHasConnection` | share/tunnel/tunnel.go:119-126 | while nothing was cancelled, an inner counter of zero means there is a connection |
| `ConnectionGate.GateWithoutCancellation` | share/tunnel/tunnel.go:145-178 | in every run without cancellation inner is not negative, zero implies a connection, and no waiter that passed the gate reads nothing, unless the connection was lost in between |
| `ConnectionGate.GateWithoutConnection` | share/tunnel/tunnel.go:110-141 | without a connection the gate is open if and only if n is zero and no done is half done |
| `GateHistory.GateIsFree` | share/tunnel/tunnel.go:110-141 | in every run, while there is no connection: n is zero if and only if a drain has taken from it since the last connection was lost or since the start, and the gate is open if and only if in addition no drain is half done |
| `ConnectionGate.CancelledGateIsFree` | share/tunnel/tunnel.go:112-118 | after a cancellation before publication a waiter passes the gate to no connection |
| `ConnectionGate.LostWhileCancelledUnderflows` | share/tunnel/tunnel.go:137-141 | a connection lost while its context is cancelled can drive inner to -1 |
| `ConnectionGate.ConnectedIsReachable` | share/tunnel/tunnel.go:119-126 | the state that witness starts from is reached by binding and publishing |
| `ConnectionGate.UnderflowFromTheStart` | share/tunnel/tunnel.go:110-141 | a run from the start of a tunnel with one bind to an inner counter of -1 |
| `ServerTunnel.NegativeMeans` | share/tunnel/tunnel.go:112-138 | with one bind the inner counter is negative only while the loss is half added and the drain of the context has begun |
| `ServerTunnel.AlwaysInv` | server/server_handler.go:190-204 | every run of a server tunnel beside BindRemotes keeps the invariant: the drain begins only when a goroutine of the group has returned an error, and the process ends only by a negative counter after BindRemotes has failed or by a released waiter that finds the counter in use |
| `TunnelEnd.EndingStep` | share/tunnel/wg.go:18-32 | in every reachable state a step ends the process if and only if it takes from the library's counter what the loss has not added, or lets a released waiter go on while the counter is in use |
| `TunnelEnd.BindCanReturn` | share/tunnel/tunnel.go:110-143 | from every reachable state the bind can return with the process alive |
| `TunnelEnd.CanUnderflow` | share/tunnel/tunnel.go:110-143 | in every reachable state the counter can still become negative if and only if BindRemotes has not returned in order, the loss is not yet added, and the drain is not over |
| `TunnelEnd.WaiterCanReuse` | share/tunnel/tunnel.go:145-178 | one getSSH call is enough for a run that ends the process without any return of BindRemotes |
| `TunnelRaces.RaceCanEnd` | server/server_handler.go:190-204 | an accepted session can end the process if and only if it has reversed remotes, and BindRemotes fails or a getSSH call is made |
| `GatedTunnels.Tunnel.constructor` | share/tunnel/tunnel.go:89-107 | a new tunnel is in the initial state of the transition system |
| `GatedTunnels.Tunnel.Connect` | share/tunnel/tunnel.go:119-126 | is the run of a bind, its publication and its Done, whether the gate was shut or drained; a second bind is the run to the panic |
| `GatedTunnels.Tunnel.Disconnect` | share/tunnel/tunnel.go:137-141 | is the run of the loss, the Add and the clearing of the connection |
| `GatedTunnels.Tunnel.Drain` | share/tunnel/tunnel.go:112-118 | is the run of a cancelled context through the whole of DoneAll, and leaves n at zero |
| `GatedTunnels.Tunnel.GetSSH` | share/tunnel/tunnel.go:146-170 | is the run of a caller alone: it is given the connection, gives up at the shut gate, or passes the drained gate and is given nothing |
| `PairRegistry.AlwaysSafe` | share/tunnel/tunnel_in_proxy_uds_pair.go:30-78 | every run of any number of participants and paths keeps the registry's invariant, the conservation law and first-in-first-out order on every path |
| `PairRegistry.PairingIsSound` | share/tunnel/tunnel_in_proxy_uds_pair.go:30-78 | on each path arrivals are twice the pairs plus waiting plus withdrawn; partners share the path; nobody is in two pairs; a queue holds at most one participant, which has not returned and was sent nothing |
| `PairRegistry.PairedWithOldest` | share/tunnel/tunnel_in_proxy_uds_pair.go:37-49 | an arrival is paired with the oldest arrival on its path that is neither paired nor withdrawn, and waits if and only if there is none |
| `PairRegistry.NeverStuck` | share/tunnel/tunnel_in_proxy_uds_pair.go:37-46 | the send under the lock never blocks, and a done channel is never closed twice |
| `PairRegistry.RelayReleasesPeer` | share/tunnel/tunnel_in_proxy_uds_pair.go:45-58 | the done channel a waiter was handed is closed, once, exactly when the participant that relays has returned |
| `PairRegistry.Position` | share/tunnel/tunnel_in_proxy_uds_pair.go:69-70 | the search finds the first entry of the waiter, or the end when there is none |
| `PairRegistry.Registry.Join` | share/tunnel/tunnel_in_proxy_uds_pair.go:37-49 | the arrival's critical section on the registry's maps: it pops and sends, or appends |
| `PairRegistry.Registry.RemoveWaiter` | share/tunnel/tunnel_in_proxy_uds_pair.go:65-78 | the search loop cuts out the waiter's first entry and deletes an empty queue |
| `UdpExit.AlwaysInv` | share/tunnel/tunnel_out_ssh_udp.go:33-104 | every run keeps the invariant of table, readers and sockets |
| `UdpExit.ReadersAreBounded` | share/tunnel/tunnel_out_ssh_udp.go:49-82 | at most 100 readers are under way, their ids are distinct, and while the loop runs each finds its own connection in the table |
| `UdpExit.SourcesDoNotMix` | share/tunnel/tunnel_out_ssh_udp.go:49-104 | no socket ever carries packets of two sources, and a reply is tagged with the source whose packets its socket was sent |
| `UdpExit.RemoveIsOwn` | share/tunnel/tunnel_out_ssh_udp.go:137-141 | while the loop runs, a reader that ends removes its own entry and no other |
| `UdpExit.ReaderIffRoom` | share/tunnel/tunnel_out_ssh_udp.go:66-72 | a newly dialled source gets a reader if and only if the table holds at most 100 entries |
| `UdpExit.UnreadForever` | share/tunnel/tunnel_out_ssh_udp.go:66-72 | a source without a reader stays without one in every continuation, and no later reply carries it |
| `UdpFullTable.NextIsNeverAnswered` | share/tunnel/tunnel_out_ssh_udp.go:65-72 | after one packet of each of 100 sources the next source is written to, and in every continuation never answered |
| `UdpSockets.LeftOpen` | share/tunnel/tunnel_out_ssh_udp.go:80-150 | once the loop has stopped, a dialled socket is never closed by the program if and only if its reader had ended before |
| `UdpHandlers.UdpConns.Dial` | share/tunnel/tunnel_out_ssh_udp.go:112-128 | takes the dial step of the transition system, or the failing one when a socket is needed and the address does not answer |
| `UdpHandlers.UdpConns.Delete` | share/tunnel/tunnel_out_ssh_udp.go:137-141 | takes the removing step of the reader that calls it |
| `UdpHandlers.UdpConns.Shut` | share/tunnel/tunnel_out_ssh_udp.go:143-150 | takes the closing step: every socket in the table is closed, in any order, and the table is emptied |
| `UdpHandlers.UdpConns.HandleWrite` | share/tunnel/tunnel_out_ssh_udp.go:49-78 | is the run of receiving, dialling, starting a reader or not, and writing, with each of its failures |
| `UdpHandlers.UdpConns.HandleUDP` | share/tunnel/tunnel_out_ssh_udp.go:15-39 | for every list of packets: takes the steps of each packet in order up to the first that is refused, or of all and then of the end of the channel, and closes; the table is empty after it |
| `UdpEntry.InvalidationsAreOwn` | share/tunnel/tunnel_in_proxy_udp.go:152-191 | in every run the channel is set exactly while one invalidation is pending, each invalidation cleared the channel it was started for, and only after its connection had ended |
| `UdpEntry.CachedUntilUnset` | share/tunnel/tunnel_in_proxy_udp.go:155-158 | a cached channel stays until the invalidation started for it runs |
| `UdpEntry.UdpListener.GetUdpChan` | share/tunnel/tunnel_in_proxy_udp.go:152-183 | returns the cached channel or binds and caches a new one with its invalidation, nothing on either failure |
| `UdpEntry.UdpListener.UnsetUdpChan` | share/tunnel/tunnel_in_proxy_udp.go:185-191 | clears the channel and uses up the invalidation |
| `Monitor.MonitorState.MarkSessionPending` | server/monitor_state.go:126-144 | sets address, status and error of the record and its start time once, and nothing else in the store |
| `Monitor.MonitorState.MarkSessionConnected` | server/monitor_state.go:146-164 | sets status and error, and start and connection time once |
| `Monitor.MonitorState.MarkSessionFailed` | server/monitor_state.go:166-181 | sets status and message, and start time once |
| `Monitor.MonitorState.MarkSessionDisconnected` | server/monitor_state.go:183-204 | sets the status and closes exactly the pending and active endpoints of the session, in whatever order the map is walked |
| `Monitor.MonitorState.UpdateEndpointStatus` | server/monitor_state.go:206-222 | creates or updates the one record under the joined key |
| `Monitor.MonitorState.TakeSnapshot` | server/monitor_state.go:78-124 | gives the records of both maps, each once, strictly ordered, with the tally of each status, from any iteration order |
| `Monitor.MonitorState.CollectSessions` | server/monitor_state.go:86-99 | the loop collects each session once and counts each status |
| `Monitor.MonitorState.CollectEndpoints` | server/monitor_state.go:100-113 | the loop collects each endpoint once and counts each status |
| `Monitor.SnapshotIsDetermined` | server/monitor_state.go:78-124 | two snapshots of one store are equal: map order shows nowhere |
| `Monitor.CountersAddUp` | server/monitor_state.go:90-113 | the four counters of each kind add up to the length of its list |
| `Monitor.SortedSnapshot` | server/monitor_state.go:114-122 | sorting the collected records of a store whose records sit under their own keys gives a snapshot |
| `Sorting.SortSorts` | server/monitor_state.go:114-122 | sorting pairwise comparable elements gives a strictly ordered list |
| `Sorting.SortedUnique` | server/monitor_state.go:114-122 | a strictly ordered list is determined by its elements |
| `SessionLifecycle.KeyInjective` | server/monitor_state.go:208 | joined keys of ids without a bar are equal only for equal ids and descriptors |
| `SessionLifecycle.UpdateIsOwn` | server/monitor_state.go:206-222 | an endpoint event changes one record of its session and nothing that another session has |
| `SessionLifecycle.DisconnectIsOwn` | server/monitor_state.go:183-204 | a disconnect settles the endpoints of its session and leaves every other session's records alone |
| `SessionLifecycle.MoveFits` | server/server_handler.go:55-211 | each move of a handler keeps the monitor showing that handler and its proxies exactly, and keeps all other views |
| `SessionLifecycle.AlwaysFits` | server/server_handler.go:55-211 | in every run of any number of handlers the monitor shows where each handler and each of its proxies stands, with address and error texts, and nothing for ids not yet given out |
| `SessionLifecycle.LiveEndpointIsConnected` | server/monitor_state.go:183-222 | in every snapshot of every run a pending or active endpoint belongs to a session shown as connected |
| `SessionLifecycle.CompletedStaysSettled` | server/server_handler.go:191-211 | once a handler has completed, no later step of the server changes its records, and in every later snapshot each of its endpoints is failed or closed, also those of proxies built but never run |
| `SharedEndpoints.EndpointMirrorsProxy` | share/tunnel/tunnel_in_proxy.go:45-126 | in every run the record of a descriptor has the presence, status and error of all its proxies if and only if these look alike; so it always has for a descriptor that one proxy has alone |
| `SharedEndpoints.EventMirrors` | share/tunnel/tunnel_in_proxy.go:59-126 | after every event of a proxy its record is right, and that of another proxy is right if and only if it has another descriptor and was right, or it is there and looks like the first |
| `SharedEndpoints.TwinIsHidden` | share/tunnel/tunnel_in_proxy.go:121-126 | a run in which two proxies of one descriptor are built, one returns, and the record of the other is wrong |
| `SessionProgress.HandlerCanMove` | server/server_handler.go:55-211 | in every run of the handlers alone a handler has a next move if and only if it has not completed or panicked |
| `ServerWorld.RunsProject` | server/server_handler.go:55-211 | every run of the server with its tunnels is, of the handlers and the monitor, a run of `SessionLifecycle` |
| `ServerWorld.AlwaysInv` | server/server_handler.go:179-211 | in every run exactly the accepted sessions have a tunnel, whose BindRemotes is at work while the handler builds or runs proxies, and the process lives if and only if no tunnel has ended it |
| `ServerEnd.HandlerCanComplete` | server/server_handler.go:55-211 | in every run of the server some continuation completes a handler if and only if it has completed, or the process lives and the handler has not panicked |
| `ServerEnd.EndedBySession` | server/server_handler.go:190-204 | a process that has ended was ended by the tunnel of a session with reversed remotes, in one of the two ways |
| `ServerEnd.SessionCanUnderflow` | server/server_handler.go:190-204 | in every run of a live server an accepted session can still make its counter negative if and only if its tunnel is exposed as in `TunnelEnd.CanUnderflow` |
| `ServerEnd.FirstSessionEndsProcess` | server/server_handler.go:190-204 | for every non-empty list of reversed remotes, a run in which the first session of a server is accepted and ends the process, shown as connected |
| `SessionProgress.MovesAreBounded` | server/server_handler.go:168-211 | a handler whose remotes are known makes at most three moves for each of them and two more |
| `SessionProgress.CrashedStaysPending` | server/server_handler.go:95-161 | the session of a handler that has panicked is pending, without endpoints, in every continuation |
| `SessionProgress.CrashIsReachable` | server/server_handler.go:113-127 | a run in which the first handler of a server panics |
| `SessionLifecycle.SessionMovesForward` | server/monitor_state.go:126-204 | along every run a session only goes from pending to failed or to connected and then disconnected; address, start and connection time are set once |
| `ServerHandler.CheckRemotes` | server/server_handler.go:145-167 | the loop reports the refusal of the first remote that does not pass, or panics if that one is null |
| `ServerHandler.PanicsUnlessAnswerable` | server/server_handler.go:95-161 | for every client: the handler panics if and only if its user is missing, it hangs up before a request, or a null is read before a refused remote |
| `ServerHandler.ClientsThatPanic` | server/server_handler.go:95-161 | three such clients |
| `ServerHandler.Tunnel.NewProxy` | share/tunnel/tunnel_in_proxy.go:45-67 | ends built with an active record, or refused with a failed one that holds the listen error |
| `ServerHandler.Tunnel.BindRemotes` | share/tunnel/tunnel.go:183-214 | returns the first listen error with the proxies before it built and those after it untouched, or has run them all to their end with the error of one of them, if any has one; the session's records show just that |
| `ServerHandler.Tunnel.RunAll` | share/tunnel/tunnel.go:202-213 | whatever the order in which the proxies return, all end closed, and the error is that of one of them, or none when none has one |
| `ServerHandler.Server.Negotiate` | server/server_handler.go:79-167 | how the checks end for every client, the panics included; when they pass, a tunnel without inbound rights has nothing to bind |
| `ServerHandler.Server.HandleWebsocket` | server/server_handler.go:55-211 | takes the next id; the session ends failed for the first reason there is, or disconnected with the endpoints of its proxies settled, if and only if the client is answerable and its tunnel does not end the process; otherwise it is left pending or connected; every other session's records are as they were |
| `Streams.AlwaysInv` | share/tunnel/tunnel_in_proxy.go:182-204 | in every interleaving numbers are given out once each from 1 on, and the log holds of each number what its stream has reported |
| `Streams.EveryNumberHasOneTrace` | share/tunnel/tunnel_in_proxy.go:182-204 | each of 1 to count belongs to one stream, whose events in order are nothing, open, or open and then one of error and closed; no other number is in the log |
| `Streams.FinishedLogIsExact` | share/tunnel/tunnel_in_proxy.go:182-204 | when all streams have finished, each of 1 to count is opened once and ended once |
| `Streams.Proxy.PipeRemote` | share/tunnel/tunnel_in_proxy.go:182-204 | one connection takes the next number and logs its open and its end, and the log stays exact |
| `MessageStream.ReadsAreAStream` | share/cnet/conn_ws.go:25-53 | for any messages and read sizes, the bytes returned followed by the leftover buffer are the messages consumed so far |
| `MessageStream.ReadsConserve` | share/cnet/conn_ws.go:25-53 | bytes returned, leftover and still to come are together what there was at the start |
| `MessageStream.ReadsWhatWasWritten` | share/cnet/conn_ws.go:25-61 | reading what Write sent loses, repeats and reorders nothing, and enough reads return all of it |
| `MessageStream.WsConn.Read` | share/cnet/conn_ws.go:25-53 | fills the start of the caller's array as the stream function says and leaves the rest of it |
| `MessageStream.WsConn.Write` | share/cnet/conn_ws.go:55-61 | adds one message with all bytes to what the other side reads, or reports the failure |
| `DetermRandom.Output` | share/ccrypto/determ_rand.go:31-45 | each block of the chain gives 32 bytes |
| `DetermRandom.ChainSplits` | share/ccrypto/determ_rand.go:31-40 | the chain and its output of i + j blocks are those of i blocks and then of j |
| `DetermRandom.AlignedReads` | share/ccrypto/determ_rand.go:31-40 | reading 32k bytes and then m is reading 32k + m |
| `DetermRandom.SplitReadsAgree` | share/ccrypto/determ_rand.go:31-40 | two reads give the bytes of one, for all hashes and states, if and only if the first is whole blocks or the second is empty |
| `DetermRandom.DetermRand.constructor` | share/ccrypto/determ_rand.go:14-25 | the seed is hashed forward 2048 times |
| `DetermRandom.DetermRand.Read` | share/ccrypto/determ_rand.go:31-40 | always fills the whole array, with the truncated output of the next blocks |
| `FieldElements.PreimagesAre` | share/ccrypto/generate_key_go119.go:37-41 | the counted set is exactly the byte strings that give the value |
| `FieldElements.PreimageCount` | share/ccrypto/generate_key_go119.go:37-41 | each value of 1 to N-1 has the quotient of 256^L by N-1 many preimages, or one more |
| `FieldElements.EnoughBytes` | share/ccrypto/generate_key_go119.go:31 | that quotient is at least two to the number of bits by which the drawn bytes are longer than the modulus, which is 57 to 64 |
| `FieldElements.ScalarsAreNearlyUniform` | share/ccrypto/generate_key_go119.go:27-42 | results lie in 1 to N-1, and each is hit by the quotient or one more, at least 2^57 in both cases, as appendix B.4.1 of FIPS 186-4 intends |
| `FieldElements.RandFieldElement` | share/ccrypto/generate_key_go119.go:27-42 | the scalar is that of the next L bytes of the reader, and lies in 1 to N-1 |

## Left out

- Sockets, listeners, stale-socket cleanup, TLS, websocket upgrade, the SSH library and SOCKS: outcomes of these are parameters or steps that may go either way.
- `server/otel.go`: exporter plumbing; the monitor calls are modelled without it.
- Byte relays (`cio.Pipe`, `pipeBidirectional`) and gob encoding: a relay is a step that ends at some point, a gob channel delivers packets of source and payload in order.
- The number in the `accepted` stream event: it is read without the lock and promises nothing.
- `String`, `UserAddr`, `CanListen`, `HasAccess`, `Users`: display, input/output or look-ups; validation takes their results as parameters.
- Backoff, keepalive, signals, meters, logging, flags and key files. Timeouts are steps that may be taken at any time.
- The loops of `runInbound` and `runOutbound` and their byte counters: thin loops around the modelled channel cache.
- Elliptic-curve arithmetic, and SHA-512 beyond splitting its digest into two halves of 32 bytes.
- Integer widths: `n`, the session counter and connection numbers are unbounded.
- `WaitGroups.WaitGroup.Add`: is one call after the other; that the library panics when inner goes negative is seen as the negative number itself, and in `ServerTunnel` as the end of the process; only counts above zero are added in the transition system, as in the program.
- The panic of a second bind is a state the binder does not leave; in the program it ends the process. A server tunnel has one bind (`ServerTunnel.NoDoubleBind`); what the many binds of a client's tunnel do to its process is not modelled beyond `ConnectionGate`.
- `ServerTunnel.AlwaysInv`: Wait and Add of the library are single steps; the panics it has for calls that overlap inside them are not modelled.
- Strings are sequences of characters: invalid UTF-8 is not modelled. Whether `url.Parse` takes a host, and the lower case of letters outside ASCII, are parameters.
- Records of the monitor are values in maps, not shared pointers: all access is under one lock. The clock is a parameter of each operation.
- `ServerHandler.Server.HandleWebsocket`: reads the clock once for the whole handler, and is given the run of its tunnel, one for each outcome of `BindRemotes`; a process that ends is seen with the records that `BindRemotes` leaves. `ServerWorld` takes all these steps one by one, with a time for each.
- `Sorting.SortSorts`: stands for `sort.Slice`, as an insertion sort; the result is determined by its input's elements in any case.
- `PairRegistry.Registry.Join`: waits for nothing; the two selects after it are steps of the transition system.
- `FieldElements.RandFieldElement`: draws from the deterministic reader, which never fails; other readers may.
