# A model of the Expose relay

Expose publishes local services through a relay: a client keeps one websocket to the relay, and the relay carries
HTTP requests and TCP connections from the internet over it. This project models the state the relay and the client
keep about that traffic, and the frames between them, and proves what holds over every run.

- `Protocol.dfy`: the frames and the size gate every frame passes.
- `PendingOps.dfy`, `PendingStore.dfy`: the store of requests in flight. Its map, per-tunnel index and gauge, first
  with every method running alone, as a class and as runs of events.
- `Interleaving.dfy`: the same store when every single map or counter operation of registrations, responses, closings
  and sweeps may interleave. `InterleavedCounts.dfy`, `InterleavedExactness.dfy` and `InterleavedExpiry.dfy` say what
  the gauge, the index, the limits and the expiry counter then mean and exactly when they stay exact,
  `InterleavedCollections.dfy` what a closing or a sweep has achieved when it returns, and
  `InterleavingWitnesses.dfy` shows by concrete interleavings what does not survive and which bounds are reached.
- `Registry.dfy`, `RegistryRace.dfy`: the tunnel registry, the session that owns an entry, and racing registrations.
- `Streaming.dfy`, `LocalProxy.dfy`: cutting a request into frames on the relay and putting it together again in the
  client, for any number of requests whose frames interleave.
- `MultiClient.dfy`: the client that serves several tunnels, and its request index.
- `TcpRelay.dfy`: TCP connections in both directions, with failing reads, writes and sends.
- `Reconnect.dfy`: the reconnect loop and its backoff.
- `Names.dfy`, `Versions.dfy`, `Text.dfy`: names, hosts, URLs and version messages, where relay and client must agree.
- `Counting.dfy`: counting the entries of a map.

Two models meet where the source has one operation: a class whose methods update fields as the source does, and a
function on values that the class is proved to compute. The theorems about runs are about the functions. An event of a
run carries what the source takes from outside: the clock, random text, what a socket gives, whether a send succeeds.
Request, tunnel and connection ids are fresh, as the UUIDs they are.

## What the model shows about the code

- A response that overtakes the bookkeeping of its own registration leaves gauge and index one too high for good
  (`CountsCanStick`); a registration counted between an index entry reaching zero and its removal is forgotten, so a
  tunnel's limit can be passed even when registrations never overlap (`TunnelLimitCanBreak`). Something is lost exactly
  at a decrement that finds every present request still uncounted, or at the removal of an entry that counts one
  (`NothingLostExactly`). If no request is removed while its registration is still counting, and no registration
  counts in an entry about to be removed, nothing is ever lost (`OrderlyExact`).
- `expired_total` counts the ids a sweep collected, not the requests it answered (`ExpiryCanOvercount`). It is never
  below the number of 504 answers, and equals it exactly when no sweep found a collected id gone (`ExpiryExact`).
- A session that ends removes its registry entry by name, and so can remove a later tunnel of that name
  (`ReusedNameLosesNewTunnel`); it spares everyone else exactly when its name was not reused (`SessionEndSparesOthers`).
- Two concurrent registrations can both be granted one name (`NameCanBeGrantedTwice`), exactly when one inserts between
  the other's check and insert (`ReplacesExactly`); one at a time they never do (`SerialNeverReplaces`).
- A disconnection searches by id and removes by name, and can close a tunnel it was not asked for
  (`WrongTunnelCanClose`), exactly when the name was granted again in between (`ClosesOtherExactly`).
- Data for a TCP connection that is not in the receiving end's table ends the whole tunnel session; apart from faults
  outside, nothing else does (`SurvivesExactly`). It happens without any fault when a public peer half-closes while its
  client still has data on the way (`HalfCloseArises`, `HalfCloseStopsEveryConnection`), and when the relay forwards
  data before the client has dialled (`EarlyDataArises`).
- A failed read on the client's local socket is not announced to the relay, unlike every other end of a read loop
  (`EndIsAnnounced`).
- The overflow branch of the backoff is never taken with a base in 64-bit milliseconds (`NeverOverflows`), and would
  not change the delay (`DelayAfterHistory`).
- A client that received neither URL nor scheme shows the right address exactly when the tunnel is not served over TLS
  (`DisplayUrlRecovers`).

## Model

| member | source | states |
|---|---|---|
| PendingStores.RunGood | expose-server/src/tunnel_manager.rs:454-487 | In every state reached by whole methods the index has an entry n > 0 for a tunnel exactly when n pending requests are its own, keys equal request ids, the gauge is the map size, both limits hold, each registered request is pending or answered once and never both, every answer is a client response, a 502 or a 504 with its own id, and expired_total is the number of 504 answers |
| PendingStores.AddConsistent | expose-server/src/tunnel_manager.rs:121-127 | Inserting a fresh request keeps map, index and gauge in agreement |
| PendingStores.RemoveConsistent | expose-server/src/tunnel_manager.rs:136-154 | Removing any id, present or not, keeps map, index and gauge in agreement |
| PendingStores.ConsistentDetermined | expose-server/src/tunnel_manager.rs:100-134 | Index and gauge carry no information of their own: the request map determines both |
| PendingStores.RegisterExact | expose-server/src/tunnel_manager.rs:454-487 | A registration is refused exactly when the true number of pending requests, in all or of its tunnel, has reached its limit, although the per-tunnel check reads only the index; otherwise the request is pending with its deadline and counted once, for its tunnel |
| PendingStores.FulfilExact | expose-server/src/tunnel_manager.rs:521-535 | A response to a pending request takes it out, is its one answer, and uncounts it for its tunnel alone; a late, unknown or other message changes nothing |
| PendingStores.SweepExact | expose-server/src/tunnel_manager.rs:612-637 | A sweep answers exactly the requests due at its clock reading, each with a 504 on its own channel, counts them, and leaves exactly those with a later deadline |
| PendingStores.SweepGood | expose-server/src/tunnel_manager.rs:603-640 | A sweep keeps the whole invariant: index, limits, one answer each, nothing overdue, and the expiry counter |
| PendingStores.NeverPendingPastSweep | expose-server/src/tunnel_manager.rs:603-640 | While sweeps are at most one interval apart no request is pending later than its deadline plus one interval |
| PendingStores.CloseExact | expose-server/src/tunnel_manager.rs:537-547 | Closing a tunnel answers exactly its pending requests, each with a 502 on its own channel, and leaves every other request, count and answer alone |
| PendingStores.PendingStore.Increment | expose-server/src/tunnel_manager.rs:76-79 | The gauge goes up by one, nothing else changes |
| PendingStores.PendingStore.Decrement | expose-server/src/tunnel_manager.rs:81-88 | The gauge goes down by one but never below zero, nothing else changes |
| PendingStores.PendingStore.Insert | expose-server/src/tunnel_manager.rs:121-127 | Gauge and index both count one more request of the tunnel |
| PendingStores.PendingStore.Take | expose-server/src/tunnel_manager.rs:136-154 | Returns the request and undoes its count in map, gauge and index; an unknown id changes nothing |
| PendingStores.PendingStore.DrainForTunnel | expose-server/src/tunnel_manager.rs:156-170 | Whatever the iteration order, all and only the tunnel's requests are removed, and they are what is returned |
| PendingStores.PendingStore.RegisterPending | expose-server/src/tunnel_manager.rs:454-487 | The whole new state of one registration, accepted exactly when both limits leave room |
| PendingStores.PendingStore.Fulfill | expose-server/src/tunnel_manager.rs:521-535 | The whole new state after one message: only a response is delivered, by its id alone |
| PendingStores.PendingStore.CloseTunnel | expose-server/src/tunnel_manager.rs:537-547 | The whole new state after closing a tunnel, for some order of its requests |
| PendingStores.PendingStore.Tick | expose-server/src/tunnel_manager.rs:612-639 | The whole new state after one tick of the sweeper, for some order of the expired ids |
| Interleavings.RunSafe | expose-server/src/tunnel_manager.rs:136-170 | Every interleaving keeps what each running method holds, where each request is, and what was answered consistent with each other |
| Interleavings.OnePlaceEach | expose-server/src/tunnel_manager.rs:521-547 | Under every interleaving a registered request is pending, held by one remover, or answered: always one of the three, never two; answered at most once, with its own id, by a client response, a 502 or a 504 |
| Interleavings.QuiescentAnswered | expose-server/src/tunnel_manager.rs:606-640 | When no method is running, a registered request is pending exactly when it is unanswered |
| InterleavedCounts.RunCounts | expose-server/src/tunnel_manager.rs:121-154 | Every interleaving keeps two ledgers: gauge and index differ from the map by the updates still owed, the decrements that found zero and the counts thrown away with an entry |
| InterleavedCounts.GaugeNeverUndercounts | expose-server/src/tunnel_manager.rs:76-88 | The gauge plus increments still owed is never below the map size plus decrements still owed |
| InterleavedCounts.PendingBounded | expose-server/src/tunnel_manager.rs:460-484 | With at most n registrations in flight there are at most max_global + n - 1 pending requests, and for one tunnel at most max_per_tunnel + n - 1 and the counts dropped with its entry |
| InterleavedCounts.QuiescentDrift | expose-server/src/tunnel_manager.rs:136-154 | When no method is running, gauge and index are off by exactly the lost decrements and the dropped counts |
| InterleavedExactness.NothingLostExactly | expose-server/src/tunnel_manager.rs:81-88 | Under every interleaving the gauge, and the index of each tunnel, have lost nothing exactly when no step overtook: no decrement found all present requests still uncounted, no entry removal happened with more requests present than uncounted |
| InterleavedExactness.QuiescentExact | expose-server/src/tunnel_manager.rs:121-154 | When no method is running the gauge is exact if and only if no gauge decrement overtook, and a tunnel's index is exact if none of its steps did |
| InterleavedExactness.OrderlyLosesNothing | expose-server/src/tunnel_manager.rs:136-151 | If no removal takes a request whose registration is still counting it, and no registration counts in an entry about to be removed, nothing is lost in any reachable state |
| InterleavedExactness.OrderlyExact | expose-server/src/tunnel_manager.rs:460-484 | In such runs gauge and index are exact whenever nothing runs, and a tunnel never has more than max_per_tunnel + n - 1 requests pending |
| InterleavedExpiry.RunExpiry | expose-server/src/tunnel_manager.rs:612-637 | Every interleaving balances the expiry counter and the ids running sweeps are done with against the 504 answers and the collected ids found gone |
| InterleavedExpiry.ExpiryExact | expose-server/src/tunnel_manager.rs:623-637 | Whenever no sweep is at work expired_total is at least the number of 504 answers, and equal to it if and only if no sweep ever found a collected id gone |
| InterleavedExpiry.MissedWasTaken | expose-server/src/tunnel_manager.rs:623-624 | An id a sweep finds gone belongs to an overdue request that is answered or in the hands of another remover |
| InterleavedCollections.WalkLeavesNone | expose-server/src/tunnel_manager.rs:156-170 | When a closing or a sweep is about to return, every request pending at its start that it may answer is answered or held by another remover, whatever ran beside it |
| InterleavingWitnesses.GlobalBoundIsReached | expose-server/src/tunnel_manager.rs:460-483 | For every limit and every n an interleaving reaches exactly max_global + n - 1, so the bound is exact |
| InterleavingWitnesses.CountsCanStick | expose-server/src/tunnel_manager.rs:483-484 | A response between the map insert and the count insert leaves gauge and index at one with nothing pending and nothing running |
| InterleavingWitnesses.TunnelLimitCanBreak | expose-server/src/tunnel_manager.rs:141-151 | A registration between the decrement and the entry removal lets a tunnel pass its limit although registrations never overlap |
| InterleavingWitnesses.ExpiryCanOvercount | expose-server/src/tunnel_manager.rs:615-637 | A sweep that loses an id to a response counts an expiry although no request was answered 504 |
| Registries.AllocateExact | expose-server/src/tunnel_manager.rs:395-419 | A subdomain is handed out exactly when the wish, reduced to label characters, is a free valid label, or one of five random labels is free; it is then that free label, of the random ones the first |
| Registries.AllocateRefuses | expose-server/src/tunnel_manager.rs:395-419 | A refused allocation says capacity when all five random labels are taken, taken when the wish is a valid label in use, invalid when it reduces to no valid label |
| Registries.ConnectExact | expose-server/src/tunnel_manager.rs:286-338 | A client is registered exactly when both limits leave room and a name for it is free, and then under that name with nothing else changed |
| Registries.RefusalExact | expose-server/src/tunnel_manager.rs:294-335 | A registration is refused for capacity exactly when a limit is reached, and for its name exactly when only the name is in the way |
| Registries.RunGood | expose-server/src/tunnel_manager.rs:286-343 | In every run of connect, remove, disconnect, session ends and requests, keys equal subdomains, ids are distinct, and the tunnels in all and for each API-key hash stay within their limits |
| Registries.DisconnectExact | expose-server/src/tunnel_manager.rs:489-502 | Disconnecting removes that entry alone, answers all its pending requests with 502, and changes no other entry, request or count |
| Registries.RemovedNameIsFree | expose-server/src/tunnel_manager.rs:340-343 | A removed name can be granted to the next client that wishes for it, and the removal touches nothing else |
| Registries.SessionExit | expose-server/src/server.rs:334-391 | A session is aborted, and so skips its cleanup, exactly when a frame that cannot be read, decoded or written comes before any close, disconnect or error; pings and other frames never end it |
| Registries.SessionDelivers | expose-server/src/server.rs:334-351 | A session delivers exactly the HTTP responses before the first frame that ends it, in order |
| Registries.SessionAnswers | expose-server/src/server.rs:342-343 | A pending request whose response is heard before the session ends is answered by the client with the first such response; one without is neither answered nor removed by the loop |
| Registries.SessionEndSparesOthers | expose-server/src/server.rs:393-395 | After a clean session end nothing of its tunnel is left, and every other tunnel survives exactly when the name was not reused |
| Registries.ReusedNameLosesNewTunnel | expose-server/src/server.rs:395 | A run in which an old session's end removes a newer tunnel of the same name |
| Registries.TunnelManager.CountTunnelsForKey | expose-server/src/tunnel_manager.rs:447-452 | The number of registry entries of one API-key hash |
| Registries.TunnelManager.AllocateSubdomain | expose-server/src/tunnel_manager.rs:395-419 | The sanitized wish if it is valid and free, else the first free of five random labels, else the matching refusal |
| Registries.TunnelManager.RegisterTunnel | expose-server/src/tunnel_manager.rs:286-338 | Registers unless a limit or the name forbids it, in the order total, key, name, and says which |
| Registries.TunnelManager.RemoveName | expose-server/src/tunnel_manager.rs:340-343 | Removes the entry of that name, whoever owns it |
| Registries.TunnelManager.Disconnect | expose-server/src/tunnel_manager.rs:489-502 | The whole new state, and true exactly when a tunnel had that id |
| Registries.TunnelManager.HandleSession | expose-server/src/server.rs:334-395 | The session delivers every response up to its exit; a break runs the cleanup of store and registry, an error exit skips it |
| RegistryRaces.TunnelsBounded | expose-server/src/tunnel_manager.rs:294-335 | Under every interleaving of checks and inserts at most max_tunnels + n - 1 tunnels live, entries keep their names, and no id is shared |
| RegistryRaces.ChecksExact | expose-server/src/tunnel_manager.rs:294-333 | A registration goes on exactly when it passes the check it makes; a refused one leaves no trace |
| RegistryRaces.TunnelBoundIsReached | expose-server/src/tunnel_manager.rs:294-335 | For every limit and every n an interleaving reaches exactly max_tunnels + n - 1 live tunnels |
| RegistryRaces.ReplacesExactly | expose-server/src/tunnel_manager.rs:330-335 | An admitted registration would replace a live tunnel if and only if another one inserted its name since it was checked and that entry was not removed |
| RegistryRaces.SerialNeverReplaces | expose-server/src/tunnel_manager.rs:330-335 | Registrations made one at a time never replace a live tunnel |
| RegistryRaces.ClosesOtherExactly | expose-server/src/tunnel_manager.rs:490-497 | A disconnection that has found its tunnel would close another one if and only if a registration inserted the name since and that entry was not removed |
| RegistryRaces.WrongTunnelCanClose | expose-server/src/tunnel_manager.rs:490-497 | A run in which a disconnection of tunnel 1 closes tunnel 2 |
| RegistryRaces.NameCanBeGrantedTwice | expose-server/src/tunnel_manager.rs:330-335 | For every limit and every n of at least two, an interleaving in which two registrations of one name are both admitted and the second replaces the first |
| Streaming.ChunksConcat | expose-server/src/proxy/streaming.rs:80 | Cutting data into chunks loses, adds and reorders nothing |
| Streaming.NumberedAt | expose-server/src/proxy/streaming.rs:80-89 | One frame per chunk, in order; the k-th carries sequence k modulo 2^32 |
| Streaming.StopExact | expose-server/src/proxy/streaming.rs:67-78 | The streamer finishes exactly when no frame breaks and the body is within the cap, or no 64-bit total can pass it |
| Streaming.StopReports | expose-server/src/proxy/streaming.rs:69-78 | At the first failing frame a broken body is reported as such and a large one with the size counted so far, sticking at 2^64 - 1, and exactly the bytes before that frame have been sent |
| Streaming.PayloadsExact | expose-server/src/proxy/streaming.rs:69-91 | The chunks sent are non-empty pieces of the body in order, within the chunk size, and the whole body when the streamer finishes |
| Streaming.CollectExact | expose-server/src/proxy/body.rs:16-41 | A body is collected exactly when announced and actual size are within the limit and no frame breaks, and then whole |
| Streaming.CollectReports | expose-server/src/proxy/body.rs:16-41 | A body that announces too much is rejected with that size unread; any other is refused at its first failing frame, as broken or with the size it brings |
| Streaming.VisibleHeadersExact | expose-server/src/proxy/streaming.rs:53-62 | What is forwarded of a header list is exactly its printable headers: each name with its own value, at the place the printable headers before it give it, and nothing else |
| Streaming.FormExact | expose-server/src/proxy/mod.rs:82-90 | A request is streamed exactly when streaming is on and its declared length, or without one the body's upper bound, reaches the threshold; its start frame carries method, address, printable headers and declared length |
| Streaming.BufferedExact | expose-server/src/proxy/encoder.rs:11-31 | Any other request is one whole frame, sent exactly when the body can be collected and fits 10 MiB |
| Streaming.ChunksFull | expose-server/src/proxy/streaming.rs:80-86 | Every chunk of a data frame but its last is full |
| Streaming.SendChunks | expose-server/src/proxy/streaming.rs:80-89 | The queue receives the numbered chunks up to its room, and the counter ends behind them |
| Streaming.SendBody | expose-server/src/proxy/streaming.rs:67-98 | The queue receives all chunks and, if the body finished, the end frame, up to its room; the result says what stopped it |
| Streaming.StreamRequest | expose-server/src/proxy/streaming.rs:46-98 | The queue receives the request's whole frame script up to its room, whatever stops the body |
| Streaming.CollectBody | expose-server/src/proxy/body.rs:16-41 | The loop computes the collection that CollectExact characterises |
| LocalProxies.Independent | expose-client/src/tunnel.rs:475-529 | What the client holds and calls for one request depends on that request's frames alone |
| LocalProxies.FailsExactly | expose-client/src/proxy.rs:77-92 | A session ends exactly at a disconnect, an error, a frame over 10 MiB, a chunk of no open stream, or one with which its stream would hold over 50 MiB, and changes nothing else then; frames of no request change nothing |
| LocalProxies.StartsAfresh | expose-client/src/proxy.rs:59-75 | A start frame forgets whatever was open under its id |
| LocalProxies.ShareOutcome | expose-client/src/proxy.rs:59-103 | For any prefix of one relayed request the client fails exactly when asked to buffer over 50 MiB, and otherwise calls the local service once if the prefix is complete and not at all if it is not; the call has the request's method, its path and query or bare path, exactly its printable headers with name and value in order, and its bytes |
| LocalProxies.RequestsReassemble | expose-client/src/tunnel.rs:477-529 | For every set of requests and every interleaving of their frames: the client fails exactly when a stream outgrows its buffer, and otherwise every complete request is called exactly once as itself and no incomplete one ever |
| LocalProxies.OnlyOwnCalls | expose-client/src/tunnel.rs:491-529 | Every call the client makes, even in a run that fails later, is the complete request of its id |
| LocalProxies.ThresholdTransparent | expose-server/src/proxy/mod.rs:79-109 | Within both limits, streaming and buffering make the client do the same single call, under any two configurations |
| LocalProxies.WholeScript | expose-server/src/proxy/encoder.rs:11-31 | A request within the limits, streamed or encoded in one frame, arrives as one call with its method, path, headers and body |
| LocalProxies.LocalProxy.BeginStreamingRequest | expose-client/src/proxy.rs:59-75 | A start frame opens an empty stream with its parts, replacing any stream of that id |
| LocalProxies.LocalProxy.PushStreamingChunk | expose-client/src/proxy.rs:77-92 | A chunk is appended to its open stream, or refused when there is none or the buffer would exceed its limit |
| LocalProxies.LocalProxy.FinishStreamingRequest | expose-client/src/proxy.rs:94-103 | An end frame takes the stream out and returns it |
| LocalProxies.LocalProxy.HandleFrame | expose-client/src/tunnel.rs:476-529 | The whole new state of an HTTP tunnel's client after one binary frame |
| MultiClients.RunMatches | expose-client/src/multi.rs:394-407 | Over every run the request index sends an id to a tunnel exactly when that tunnel's proxy holds an open stream for it |
| MultiClients.ChunksReachStart | expose-client/src/multi.rs:463-468 | While a stream is open every chunk of it is appended in the context chosen at its start, whatever else arrives |
| MultiClients.CallInChosenContext | expose-client/src/multi.rs:449-489 | The end frame makes that context call its service with the start's parts and all the chunks |
| MultiClients.HostHeaderExact | expose-client/src/multi.rs:374-377 | The host looked up is the value of the first header named host in any capitals, and there is none exactly when no header is so named |
| MultiClients.RouteExact | expose-client/src/multi.rs:373-392 | A request whose first Host header reads as a registered label goes to that label's HTTP tunnel or nowhere; any other goes to the HTTP tunnel the lookup falls back to |
| MultiClients.FailsExactly | expose-client/src/multi.rs:431-545 | A session of several tunnels ends exactly at a disconnect, an error, a frame over 10 MiB, a chunk its tracked tunnel has no stream or no room for, or TCP data that did not reach its connection, and changes nothing else then |
| MultiClients.LabelIndexExact | expose-client/src/multi.rs:368-370 | Over every run a label stands for the tunnel last registered under it, in any capitals |
| MultiClients.TcpIndexExact | expose-client/src/multi.rs:493-532 | Over every run a connection is indexed to a tunnel exactly when the last frame about it to reach the living session was its connect, with that tunnel found |
| MultiClients.RunProtocols | expose-client/src/multi.rs:409-429 | Over every run requests are called in registered HTTP tunnels only and connections indexed to registered TCP tunnels only |
| MultiClients.RoutesToLabel | expose-client/src/multi.rs:373-387 | Whenever the relay resolves the first Host header of a request to a label, the client picks the HTTP tunnel registered under that label |
| MultiClients.MultiReassembles | expose-client/src/multi.rs:431-489 | The multi client refines the single one: over any interleaving of routed requests it fails exactly when some stream outgrows its buffer, makes the same calls, and calls every complete request exactly once, as itself |
| MultiClients.EachInItsTunnel | expose-client/src/multi.rs:373-489 | Whenever the relay resolves the first Host header of a call to a registered label, the call was made in the tunnel registered under it, is the request of its id itself, and is that request's only call in any tunnel |
| MultiClients.MultiTunnelManager.Register | expose-client/src/multi.rs:339-371 | The whole new state after a tunnel is registered |
| MultiClients.MultiTunnelManager.HttpContextByHeaders | expose-client/src/multi.rs:373-392 | The tunnel of the host's first label, else some HTTP tunnel |
| MultiClients.MultiTunnelManager.HandleFrame | expose-client/src/multi.rs:431-489 | The whole new state of request index, contexts and calls after one binary frame |
| TcpRelays.RunGood | expose-server/src/tcp_proxy.rs:205-252 | Every step of both ends keeps, for every connection and both directions: bytes sent are a prefix of bytes read, bytes written are what arrived, frames are numbered in order, and nothing follows a close |
| TcpRelays.WrittenIsPrefixOfRead | expose-server/src/tcp_proxy.rs:87-109 | In every run and both directions the bytes written at one end are a prefix of the bytes read at the other, also when reads, writes or sends fail midway |
| TcpRelays.NumberedInOrder | expose-server/src/tcp_proxy.rs:225-238 | The k-th data frame of a connection carries sequence k modulo 2^64 |
| TcpRelays.CloseArrivesLast | expose-server/src/tcp_proxy.rs:214-224 | When a living session has processed a connection's close frame, every byte read at the other end has been written |
| TcpRelays.CaughtUpIsWhole | expose-client/src/tcp_proxy.rs:83-95 | A living session that has processed every frame has written everything a running read loop read |
| TcpRelays.SurvivesExactly | expose-server/src/server.rs:334-391 | Over every run an end's session survives if and only if it is not stopped from outside, no write fails, and every data frame it dispatches finds its connection in its table |
| TcpRelays.WindowDecides | expose-client/src/tunnel.rs:548-557 | While a connection is missing from an end's table, the session survives exactly until data of it is dispatched, unless something else ends it |
| TcpRelays.HalfCloseDecides | expose-server/src/tcp_proxy.rs:215-224 | After a half-close at the relay and until the entry returns, the session survives exactly as long as no data of that connection is dispatched, wherever on its way that data was |
| TcpRelays.HalfCloseStopsEveryConnection | expose-server/src/server.rs:364-373 | With data of the connection anywhere in the queue at the half-close, the session is over once the relay has dispatched that far, and no connection of the tunnel is written to again |
| TcpRelays.HalfCloseArises | expose-server/src/tcp_proxy.rs:215-224 | A run without any fault in which such a half-close ends the session while a second connection is open |
| TcpRelays.EarlyDataArises | expose-client/src/tunnel.rs:530-557 | A run without any fault in which data the relay read before the client had dialled ends the client's session |
| TcpRelays.ReadReachesOtherEnd | expose-client/src/tcp_proxy.rs:83-139 | After any continuation, a living end that has dispatched the frame of a read has written everything read up to and with it, in order |
| TcpRelays.ReadIsWritten | expose-client/src/tcp_proxy.rs:83-95 | In any drained state with an established connection one end can read and the other write the bytes, to that connection and to no other |
| TcpRelays.Announce | expose-server/src/tcp_proxy.rs:184-201 | From any drained state the relay can open a fresh connection up to the client's dial |
| TcpRelays.Acknowledge | expose-client/src/tcp_proxy.rs:43-68 | A successful dial establishes the connection at both ends |
| TcpRelays.RefusedDial | expose-server/src/tcp_proxy.rs:119-135 | A dial the local service refuses takes exactly that connection out of the relay's table and stops its reader; every other connection is untouched |
| TcpRelays.RefusedDialSilences | expose-server/src/tcp_proxy.rs:119-135 | After that, in any continuation, the relay sends no further frame of the connection |
| TcpRelays.AsksNothing | expose-server/src/server.rs:352-379 | A successful acknowledgement at the relay, any at the client, an announcement at the relay and every frame that is neither about TCP nor ends the session leave an end as it was |
| TcpRelays.CleanupSilences | expose-server/src/tcp_proxy.rs:80-85 | The relay's cleanup empties its table and stops exactly the readers it aborts; in any continuation no frame of those connections follows |
| TcpRelays.WriterGone | expose-server/src/tcp_proxy.rs:184-201 | With the writer gone an accepted socket leaves no trace, a failed dial only ends, a finished one still opens, and nothing is sent |
| TcpRelays.EndArrivesBehindLastByte | expose-client/src/tcp_proxy.rs:97-123 | After any continuation, when a living end dispatches an announced end it has written exactly the bytes read before it, and drops the connection |
| TcpRelays.EndIsAnnounced | expose-client/src/tcp_proxy.rs:103-139 | A read loop that ends says so with its reason, except a failed read in the client; the relay then drops the writer and the client keeps it |
| TcpRelays.FailedLocalReadKeepsWriting | expose-client/src/tcp_proxy.rs:103-139 | After a failed read in the client the other direction still works: what the relay reads is written to that connection |
| TcpRelays.CloseDrops | expose-server/src/tcp_proxy.rs:111-117 | A dispatched close drops writer and reader of a known connection, ends no session and touches nothing else |
| TcpRelays.ReadLoopIsRun | expose-client/src/tcp_proxy.rs:103-139 | A whole read loop is a run of single reads, so the run theorems cover it |
| TcpRelays.ConnectionTable.HandleConnection | expose-server/src/tcp_proxy.rs:170-203 | The whole new state after a public connection: announced, reading, in the table, or untouched when the channel is gone |
| TcpRelays.ConnectionTable.HandleConnect | expose-client/src/tcp_proxy.rs:36-81 | The whole new state after the client dialled, for success and failure |
| TcpRelays.ConnectionTable.HandleData | expose-client/src/tcp_proxy.rs:83-95 | Data is written to its connection; an unknown connection or a failing write is an error |
| TcpRelays.ConnectionTable.HandleClose | expose-client/src/tcp_proxy.rs:97-101 | A close drops the writer and the reader of a known connection and ignores others |
| TcpRelays.ConnectionTable.HandleFrame | expose-server/src/server.rs:352-378 | The whole new state of one end after one frame; a data error ends its session |
| TcpRelays.ConnectionTable.ReadLoop | expose-server/src/tcp_proxy.rs:205-252 | The read loop with its running counter computes what ReadLoopIsRun describes |
| Reconnects.DelayAfterHistory | expose-client/src/tunnel.rs:72-90 | After any history of failures and resets, failure k since the last reset is granted min(base * 2^min(k,5), 32 s), overflow or not, for exactly the allowed number of failures, and refused from then on |
| Reconnects.DelaysDouble | expose-client/src/tunnel.rs:78-88 | The first five delays double the base, all later ones stay at 32 times it, each capped at 32 s |
| Reconnects.DelaysGrow | expose-client/src/tunnel.rs:78-88 | Delays never decrease and never exceed 32 s |
| Reconnects.NeverOverflows | expose-client/src/tunnel.rs:63 | With a base of 64-bit milliseconds the multiplication never overflows |
| Reconnects.RunWithToken | expose-client/src/tunnel.rs:205-262 | The loop returns an error exactly at the first round that ends m > 0 unconnected retries in a row, stops at the first cancellation or shutdown, and otherwise tries again after the delay its streak earns |
| Reconnects.OwedOnce | expose-client/src/tunnel.rs:213-261 | The conditions on the loop's outcome admit one outcome only, so they are exact |
| Reconnects.ReconnectBackoff.Next | expose-client/src/tunnel.rs:72-90 | The delay and the whole new state of one call |
| Reconnects.ReconnectBackoff.Reset | expose-client/src/tunnel.rs:67-69 | Only the attempt counter returns to zero |
| Names.SanitizeExact | expose-common/src/utils.rs:16-34 | Sanitizing yields a name exactly when that name is a lower-case letter-digit-hyphen label of 1 to 63 characters without edge hyphens (section 2.3.1 of RFC 1035, section 2.1 of RFC 1123) and is what the filter leaves |
| Names.SanitizeFixesLabels | expose-common/src/utils.rs:16-34 | The labels sanitizing leaves alone are exactly the valid ones, and sanitizing is idempotent |
| Names.FilterExact | expose-common/src/utils.rs:16-34 | The filter keeps ASCII letters, digits and hyphens in order and drops everything else |
| Names.ResolveExact | expose-server/src/proxy/host.rs:15-41 | A Host header resolves to a name exactly when, up to its port, it is that non-empty name, a dot and the domain |
| Names.ResolveRefuses | expose-server/src/proxy/host.rs:15-41 | Missing, foreign and empty are answered exactly for no header, a host outside the domain, and the bare dot and domain |
| Names.DisplayUrlRecovers | expose-client/src/tunnel.rs:131-156 | The client shows the advertised URL, recomputes it when it is missing, and without a scheme does so exactly when the tunnel is not served over TLS |
| Names.DisplayUrlShows | expose-client/src/tunnel.rs:131-156 | Any URL received is shown as it is; without one a port shows exactly when the scheme is known and it is not the scheme's own |
| Names.AdvertisedPort | expose-common/src/protocol.rs:161-216 | The advertised URL leads to the public port: it names the port unless it is the scheme's own, and the advertised port says the same |
| Names.AdvertisedResolves | expose-common/src/protocol.rs:161-216 | The host part of every advertised URL, with or without port, resolves to the label it was advertised for |
| Names.LookupsAgree | expose-client/src/multi.rs:373-387 | Whatever Host header the relay resolves to a label, the client's first-label lookup reads the same label |
| Names.FirstLabelExact | expose-client/src/multi.rs:378-382 | The label looked up is exactly the lower-cased host up to its first dot or colon |
| Names.RandomLabelValid | expose-server/src/tunnel_manager.rs:644-650 | Eight lower-cased alphanumerics are always a valid label |
| Versions.ParserInvertsPrinter | expose-client/src/tunnel.rs:637-649 | There is a message exactly for incompatible versions, and from it the client reads back exactly the relay's version |
| Versions.MessageNamesClient | expose-common/src/protocol.rs:72-89 | Every mismatch message names the client's own version first |
| Versions.MessageAdvises | expose-common/src/protocol.rs:72-89 | An outdated client is advised to upgrade to the least version of the relay's major |
| Versions.ParseNumbers | expose-client/src/tunnel.rs:637-649 | Behind the words it looks for the parser reads any decimal number below 65536 and refuses larger ones, and finds nothing in a text without the words or without a digit behind them |
| Versions.VerdictMeaning | expose-common/src/protocol.rs:49-64 | Too old means exactly a smaller major, too new a larger one, and min_supported is the least version the relay accepts |

## Left out

- The pending gauge and `expired_total` are unbounded here instead of 64-bit; the gauge never exceeds the limits by more
  than the registrations in flight, and the total would need 2^64 expiries to wrap. Adding a timeout to the clock does not
  overflow here.
- The byte layout of messages: encoding and decoding is an ordered, lossless channel gated by the size check.
- Rate limiting, API-key hashing and authentication: a key hash is an opaque value, and the limiter is not modelled.
- Sockets, TLS, socket tuning and task scheduling: what a socket gives, whether a send succeeds, and who runs next are
  arbitrary. Channel capacity is a room after which the writer is gone.
- The receiving half of a pending request: a caller that stops waiting, by timeout or by a failed body, leaves its
  request to the sweeper, and an answer to it goes nowhere.
- TunnelsBounded: bounds the tunnels in all, not those of each API key: the key count walks a map that changes under
  it, so racing registrations take its verdict as arbitrary. Sweeping and draining are modelled closer: their walk may or
  may not meet what is inserted meanwhile, and meets what stays in the map throughout.
- QuiescentExact: for the index only that no loss means exact, not the converse, because a skipped decrement and a
  dropped count of one tunnel can cancel out; `NothingLostExactly` states the losses themselves exactly.
- Registries.TunnelManager.HandleSession: whether a TCP payload could be written is an input here, and the cleanup of the
  TCP registry is the event `Clearing` of `TcpRelay.dfy`, where TCP dispatch is modelled in full.
- LocalProxies.LocalProxy.HandleFrame: leaves out the TCP frames, which `TcpRelay.dfy` models, and the websocket's own
  ping and close frames.
- MultiClients.MultiTunnelManager.HandleFrame: of TCP frames only the map from connections to tunnels is kept, and
  whether a payload could be written is an input; contexts are values in a map rather than shared references.
- RoutesToLabel: when no tunnel is registered under the label, the HTTP context picked (`RouteExact`) depends on the
  iteration order of a hash map and is arbitrary in the model, as is the choice among TCP tunnels.
- Lower-casing of labels and hosts is ASCII lower-casing, which agrees with the source on valid labels and on visible
  ASCII headers.
- The reconnect loop of the multi client, which reports a lost handshake as a connection once it has connected: the
  give-up theorem is about the single client.
- Streaming of responses: the frames for it exist and nothing sends or accepts them.
- A chunk size of zero, on which the source panics: the streamer requires at least one byte.
- Parsing Content-Length, header maps and URIs; building HTTP responses; the call to the local service itself.
- The admin interface, health figures, metrics, logging, command line, configuration and banners.
