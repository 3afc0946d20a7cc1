# RevDial: a verified model

RevDial turns an accepted connection into a dialer: a listener registers with a dialer over a
control connection, the dialer asks it for connections over that channel, and the listener binds
new connections, or streams of a multiplexed session, to the identifiers it was asked for.

This project models the parts of RevDial that hold state, and proves what they are for. Every
main result speaks of all inputs, all configurations or all runs.

| layer | modules |
|---|---|
| wire vocabulary, connections | `Wire`, `Connection` |
| the two halves of the handshake as step machines | `ServerMachine`, `ClientMachine` |
| the code of the two halves, proved to do what the machines do | `Server`, `Client` |
| what either half accepts, for arbitrary bytes | `Negotiation`, `Credentials`, `ClientReplies` |
| both halves over one connection, in every interleaving | `Handshake`, `HandshakeProof`, `HandshakeTheorems` |
| commands, events and the control channel | `Frames`, `CommandChannel` |
| dials and bound connections | `RequestMap`, `Rendezvous`, `Dialer`, `Listener` |
| the connections of a dialer | `ConnManager` |
| the scaling pool | `Scaling`, `Streams`, `Pool`, `PoolRuns` |

Objects whose methods change their fields are classes; each method is proved against a function
or predicate on values, and the theorems are about that function. The methods of `Server.Server`
and `Client.Client` are tied to the machines by `Ran`: what the method read and wrote is what the
machine reads and writes between the two named states. Protocols are transition systems whose
steps are the lock sections and channel operations of the code, and a run is any sequence of
enabled steps.

## What the proofs assume

- A connection delivers bytes reliably and in order, cut into reads of any size. The sites that
  call the connection's own `Read` for more than one byte and ignore the count are modelled by
  `Connection.Conn.ReadWhole`, which assumes that one read returns the whole request or the stream
  ends: `proto/server.go:289`, `proto/server.go:304`, `proto/server.go:347`,
  `proto/server.go:379`, `proto/client.go:325`, `proto/server_v2.go:150`, `dialer.go:335`,
  `dialer.go:362`, `listener.go:256`.
  `Credentials.DecodesIffWhole` shows that the assumption is needed. The sites that use
  `io.ReadFull` are proved for every chunking.
- A mux session is a reliable set of streams whose start may fail (`muxUsable`); the control stream
  is the first one opened on it.
- The JSON encoder is a partial function and the decoder inverts it (`Frames.Invertible`).
- A new identifier has been issued to no dial and asked for by nobody (`Rendezvous.Fresh`).
- Each section under a lock and each channel or atomic operation is one step. In `Streams` the two
  atomic additions of an increment (`pool/metrics.go:32-35`) are two steps, and so is each load of the
  selection loop (`pool/selector.go:21-38`), which holds the pool's lock for reading.
- The goroutine that watches a connection during the handshake (`dialer.go:213-219`) has ended by
  the time the handler hands the connection over.

## What the proofs found

- Removing a connection or closing the manager leaves the rotation cursor where it was, so that a
  later `GetConn` can index past the end. `ConnManager.WhatKeepsTheCursor` says exactly when it stays
  usable, and `ConnManager.UnusableCursorPanics` that the condition cannot be weaker.
- `Disconnected` is final unless the client registers over V2 and the two configurations fit.
  `processV2AfterAuth` sets Registered without looking at the state again
  (`proto/server_v2.go:159-162`), so every such pair has a run in which the server is closed and
  reports afterwards that it is registered; with every other pair no run leaves Disconnected.
- A bound connection can be left in the channel of a request whose context was never cancelled:
  when the send of the command reports an error although the command was acted on
  (`dialer.go:139-144`). `Rendezvous.Conservation` therefore names two causes, not one.
- A send holds the server's lock while the client waits for room on its ten-place command channel:
  with nothing closed and nobody cancelled a send under way is blocked exactly when that channel is
  full, it then stays blocked whatever other callers do, and a dial whose own context is cancelled
  cannot leave it (`dialer.go:139`, `proto/client.go:335-339`). The comment at `proto/client.go:46` says
  that the buffer prevents deadlocks; it bounds the number of commands that can be outstanding.
- `Pool.Close` waits for the monitor while it holds the lock. It can never return exactly when the
  monitor's next step is a lock section of its own, and a run gets there: a connection is being made
  when the pool is closed (`pool/pool.go:234-239`, `pool/pool.go:316`).
- `scaleUp` looks at the size, makes a connection and adds it in three separate steps; if the pool
  has filled up in between, the connection stays open outside the pool (`pool/pool.go:295-317`).
- The threshold order that `Validate` asks for does not stop the pool from growing and shrinking in
  turn for ever. It never does so exactly when the scaling thresholds are spread for the minimum
  size: `ScaleDownThreshold * (Min + 1) <= (ScaleUpThreshold + 1) * Min`, or the size is fixed, or the
  latency threshold rules shrinking out.
- The capacity computed for the credentials token wraps at 256 (`proto/client.go:406`); the token does
  not depend on it.

## Model

| member | source | states |
|---|---|---|
| Connection.Conn.ReadFull | proto/conn.go:28-40 | However the network cuts the stream into reads, the bytes read are exactly the next ones, and it fails exactly when the stream is too short |
| Connection.Conn.ReadMsg | proto/conn.go:28-40 | The next message of the stream, the end of the stream or a wrong version, and what is left unread |
| Connection.Conn.SendRequest | proto/conn.go:12-24 | Either nothing was written, or the framed request was and the reply is the next message |
| Negotiation.SelectFirst | proto/server.go:230-242 | The method acted on is the first in the client's order that the server can act on, in both directions |
| Negotiation.SelectNone | proto/server.go:244-248 | The list is refused exactly when no method in it can be acted on |
| Negotiation.CredentialsRun | proto/server.go:278-321 | Credentials are checked as sent and nothing behind them is read, whether they are valid or not |
| Negotiation.OpeningAccepted | proto/server.go:217-401 | A well-formed opening of an authenticated client is accepted with the command and identifier sent, and what follows it is unread |
| Negotiation.MuxOpeningAccepted | proto/server_v2.go:92-117 | An authenticated client that asks for a mux session is answered with ready and the server's own configuration, and nothing behind its own is read |
| Negotiation.ControlAcceptedIff | proto/server_v2.go:138-173 | The control stream registers an identifier exactly when it begins with the request to |
| ClientReplies.V1Succeeds | proto/client.go:196-288 | For arbitrary server bytes a V1 client succeeds exactly on the success replies to its login and command, having written exactly its requests, and reads nothing further |
| ClientReplies.V2Upgrades | proto/client_v2.go:90-119 | A V2 client starts its session exactly on the replies to its login and mux request with twelve bytes behind them |
| ClientReplies.V2Registers | proto/client_v2.go:139-154 | On the control stream it is registered exactly when the first reply is success |
| Negotiation.OnlyOpeningsAccepted | proto/server_v2.go:46-87 | For arbitrary client bytes: whoever is registered, bound or upgraded sent an opening whose first usable method it satisfied; a failed login never falls through to a later method |
| Credentials.WithUserPass | proto/client.go:398-420 | Refuses exactly over-long input; otherwise builds the length-prefixed pair although the requested capacity wraps |
| Credentials.TokenRoundTrip | proto/server.go:278-321 | The token is decoded to exactly its pair with nothing left over; an empty part is refused as such |
| Credentials.DecodesIffWhole | proto/server.go:288-306 | Decoding with single reads is right exactly when both reads were whole |
| Server.Server.HandleUserPassAuth | proto/server.go:278-321 | The sub-negotiation reads and writes what the machine does from the offer of the method on |
| Server.Server.HandleAuth | proto/server.go:253-274 | A method is unsupported exactly when it is not acceptable, and then nothing was read or written |
| Server.Server.TryMethods | proto/server.go:230-248 | The loop over the methods ends where the machine does on the selected method |
| Server.Server.HandleInit | proto/server.go:217-249 | The whole method negotiation is a run of the machine from the greeting to the command or to a failure |
| Server.Server.HandleId | proto/server.go:345-401 | Stores the identifier, answers, and reports Registered or Bound only from Processing |
| Server.Server.AnswerMuxInit | proto/server_v2.go:92-117 | Reads the client's configuration and answers with ready and its own, as the machine does |
| Server.Server.RegisterOnControl | proto/server_v2.go:138-173 | The registration on the control stream is a run of the machine; an answer that cannot be written is an error that leaves Registered set |
| Server.Server.ProcessV2AfterAuth | proto/server_v2.go:92-173 | The upgrade and the registration are the machine's two runs, over the connection and over the control stream |
| Server.Server.constructor | proto/server.go:40-54 | Without a credentials callback every client is let in; with one, clients without credentials only if that was asked for |
| Server.Server.ReadCommand | proto/server_v2.go:57-69 | Negotiation and command are a run of the machine; the connection is closed exactly when that fails |
| Server.Server.Process | proto/server_v2.go:46-87 | Outcome, identifier, output and unread input of the whole handshake are those of the machine, for every input; it succeeds exactly when the machine does over the connection or over a usable session; on success the connection is open as before |
| Server.Server.Close | proto/server_v2.go:264-276 | Leaves the server disconnected with its connection, and the session it may run on, closed |
| Server.Server.Request | proto/server.go:110-123 | Succeeds exactly when the whole frame went out and the next two bytes in were the success reply |
| Server.Server.SendConnectCommand | proto/server.go:102-124 | Only a registered server sends; it succeeds exactly on one connect frame out and one success reply in |
| Server.Server.SendPingCommand | proto/server.go:129-148 | Only a registered server sends; it succeeds exactly on one ping frame out and one success reply in |
| Server.Server.SendCustomEvent | proto/server.go:155-198 | Reserved names, unencodable and over-long events put nothing on the wire; any other event succeeds exactly on one event frame out and one success reply in |
| Client.Client.Establish | proto/client.go:196-208 | Login is a run of the client machine from the start to the command |
| Client.Client.HandleAuth | proto/client.go:213-241 | Every offered method ends as the machine says, the mismatches included |
| Client.Client.SendToken | proto/client.go:226-235 | Sends the token and takes success and nothing else for success |
| Client.Client.HandleId | proto/client.go:250-288 | The command exchange is a run of the machine |
| Client.Client.RunV1 | proto/client_v2.go:189-233 | Login and command together are a run of the machine from start to end |
| Client.Client.Bind | proto/client.go:131-163 | Bound exactly on success of the machine's run; a failed write is an error; an unexpected state touches nothing |
| Client.Client.BindV2Stream | proto/client_v2.go:252-289 | Bound exactly when the bind request went out and the success reply came in; a refused stream is closed and the client unchanged |
| Client.Client.Upgrade | proto/client_v2.go:90-119 | Login and mux negotiation are a run of the machine up to the session; a failed write is an error |
| Client.Client.TryV2Registration | proto/client_v2.go:90-186 | Upgrade and registration are the machine's two runs; it succeeds exactly when both do and the session is usable; on failure state and connection are as before |
| Client.Client.Register | proto/client_v2.go:47-87 | Registered exactly on success, on the V1 or the V2 path as configured; a failed write is an error; a failed V1 registration closes the connection |
| Client.Client.Forward | proto/client.go:334-346 | A command is handed on before it is acknowledged; only a cancelled context lets both be skipped |
| Client.Client.HandleConnect | proto/client.go:323-346 | Hands on the identifier of the frame on the connection, whatever follows it, and answers unless the write fails |
| Client.Client.HandleCustomEvent | proto/client.go:362-392 | Hands on the very event of the frame and answers unless the write fails; without a frame ends the loop |
| Client.Client.HandleCommand | proto/client.go:299-316 | One turn of the loop treats the connection as the frame parser does: a whole frame is answered unless the write fails or a cancelled command is skipped |
| HandshakeProof.ClientJoint | proto/client.go:196-288 | Every client step leads from one joint state to another, with the exact bytes then in transit |
| HandshakeProof.ServerJoint | proto/server.go:217-401 | Every server step leads from one joint state to another, with the exact bytes then in transit |
| HandshakeProof.StepKeeps | proto/server_v2.go:46-173 | Every step of either side, every close and all session traffic keep the handshake invariant |
| HandshakeTheorems.Agreement | proto/client.go:196-288 | In every interleaving client success implies that the server finished the same command with the same identifier and that neither left handshake bytes unread |
| HandshakeTheorems.CleanUpgrade | proto/client_v2.go:96-126 | For all configurations a session sees exactly a prefix of what the peer's session wrote |
| HandshakeTheorems.NoDeadlock | proto/server.go:244-248 | Until all is settled some step without outside help is possible |
| HandshakeTheorems.HandshakeTerminates | proto/client.go:213-241 | Every run takes at most 63 handshake steps |
| HandshakeTheorems.Outcome | proto/server.go:284-301 | A settled run ends in success on both sides or in a closed connection; without a close of a healthy side it succeeds exactly when the configurations fit |
| HandshakeTheorems.CanSettle | dialer.go:222-225 | Every reachable state leads on to a settled one by steps of the two sides alone |
| HandshakeTheorems.LeavesDisconnected | proto/server_v2.go:159-162 | The only step out of Disconnected is the commit of a V2 registration |
| HandshakeTheorems.DisconnectedIsFinalIff | proto/server_v2.go:159-162 | Over all runs Disconnected is final if and only if the client does not register over V2 or the configurations do not fit |
| HandshakeTheorems.DisconnectedStays | proto/server.go:362-366 | On the V1 path, and on the V2 path when the configurations do not fit, Disconnected is absorbing, with Close at any moment |
| HandshakeTheorems.V2DisconnectedIsNotFinal | proto/server_v2.go:159-162 | Every fitting V2 setup has a run where the closed server becomes registered |
| HandshakeTheorems.ReportedStateIsEarned | proto/server.go:345-401 | Registered or Bound is reported only for an authenticated client whose very command was carried out |
| Frames.NewCommandType | proto/commands.go:99-125 | Refused are exactly the empty and the three reserved names |
| Frames.NewCustomEvent | proto/commands.go:61-76 | An event exists exactly for a permitted name and an encodable payload |
| Frames.FrameRoundTrip | proto/client.go:299-392 | Every frame is read back as sent and nothing after it is touched |
| Frames.OnlyFramesParsed | proto/client.go:299-392 | Whatever is taken for a frame has the bytes of one |
| Frames.PartialFrameWaits | proto/client.go:362-392 | No proper prefix of a frame is taken for a frame or for an error |
| Frames.FramesRoundTrip | proto/server.go:155-198 | Every sequence of frames parses back to itself |
| Frames.ForwardedMeans | proto/client.go:323-392 | A command is handed on for a connect and an event frame with what the frame carries, and for no ping |
| Frames.ConnectsHandedOn | proto/client.go:323-346 | Of any sequence of frames the connection requests are handed on, all of them, in order |
| Frames.DispatchedAsConnect | listener.go:158-181 | A command dispatched as a connection request was sent as one |
| CommandChannel.CommandsInOrder | proto/server.go:102-198 | Commands handed on are those of a prefix of the frames sent, it contains every send that returned nil, and one command at most is outstanding |
| CommandChannel.AckAnswersItsRequest | proto/client.go:332-357 | The reply a send takes in answers that very command and is success |
| CommandChannel.DispatchIsSound | listener.go:158-181 | Over every run, what is dispatched as a connection request was sent as one |
| CommandChannel.DialsInOrder | listener.go:158-173 | In every run the connection requests taken off the channel are a prefix of those sent, in order |
| CommandChannel.BlockedIffChannelFull | proto/client.go:334-346 | In every run a send under way is blocked, with nothing closed or cancelled, exactly when the client holds its command and the channel is full |
| CommandChannel.StaysBlocked | proto/server.go:102-124 | A blocked send stays blocked whatever other callers do, until a command is taken, the client is cancelled or the connection closed |
| CommandChannel.ASendCanBlock | proto/client.go:334-346 | One caller whose ten earlier sends all succeeded can be blocked by the eleventh |
| Rendezvous.StepKeeps | dialer.go:127-152 | Every lock section and channel operation of dials and handlers keeps the rendezvous invariant |
| Rendezvous.ExclusiveDelivery | dialer.go:415-443 | A dial returns only a connection bound with its own identifier, and no two dials return the same one |
| Rendezvous.SendNeverBlocks | dialer.go:248-254 | The send into a request's channel never waits, and no two handlers hold the same request |
| Rendezvous.NoLostMatch | dialer.go:241-246 | The first connection to ask for an issued identifier finds its request exactly when that dial has not returned; all others are closed |
| Rendezvous.RequestStaysUntilServed | dialer.go:136-151 | A dial's request is in the map exactly until it is asked for or the dial returns |
| Rendezvous.MapHygiene | dialer.go:431-443 | Every identifier in the map belongs to a dial still running |
| Rendezvous.FinalPlaces | dialer.go:398-409 | A connection that was closed or delivered stays so |
| Rendezvous.MatchedIsKept | dialer.go:248-254 | In every run a connection that found its request is kept for that dial; it is closed only if the dial was cancelled or, for a stream, the dialer stopped |
| Rendezvous.GivesUpForAReason | dialer.go:139-151 | A dial returns without a connection only if it was cancelled or its command could not be sent |
| Rendezvous.Conservation | dialer.go:388-409 | At rest every bound connection is closed, returned by its dial, or parked at a dial that was cancelled or could not send |
| Rendezvous.ParkedWithLiveContext | dialer.go:139-144 | The last case is real: a run that parks a connection at a dial whose context is alive |
| Dialer.BindRoundTrip | dialer.go:326-375 | The dialer reads the identifier the listener bound, whatever follows |
| Dialer.BindRequestIff | dialer.go:326-375 | A stream is taken for bound to an identifier exactly when it begins with the bytes that say so |
| Dialer.FirstForMeans | dialer.go:431-443 | The connection for an identifier is the first one that arrived for it |
| Dialer.Dialer.AddRequest | dialer.go:415-428 | The map with a fresh, empty request under the identifier |
| Dialer.Dialer.RemoveRequest | dialer.go:431-443 | Finds the request and withdraws it for everybody else |
| Dialer.Dialer.HandleV2Stream | dialer.go:326-410 | A stream ends in the channel of the request it names or is closed; with the request present only if the dial was cancelled or the dialer stops |
| Dialer.Dialer.HandleConnection | dialer.go:207-260 | A connection is open at the end exactly when it is registered or delivered. It ends registered, delivered to the request of the identifier it sent, or closed: rejected exactly when the machine does not accept its bytes, given up only when that dial was cancelled |
| Dialer.Dialer.Meanwhile | dialer.go:388-409 | Each arriving connection takes the request of its own identifier and no other; each channel then holds nothing or the first connection for its identifier, and that connection if its context is alive |
| Dialer.Dialer.DialOver | dialer.go:134-151 | However a dial ends its request is gone; it returns the first connection bound to its identifier after exactly one connect command, and gives up with a live context only when none arrived |
| Dialer.Dialer.DialContext | dialer.go:127-152 | The command goes out on the connection whose turn it is and on no other; a send fails only without a success reply, and takes exactly that connection out of the manager |
| Listener.Listener.Accept | listener.go:148-184 | Runs exactly the handled events before the first other command, in order; returns the identifier of a connection request and the very event otherwise; requests are taken one at a time, in order, none lost |
| Listener.RequestsAreThoseSent | listener.go:158-181 | The requests on a channel fed by a server are those it sent, in order, and no event goes by a reserved name |
| Listener.Listener.AcceptV2Stream | listener.go:187-222 | Returns the stream exactly when it was bound, and closes it otherwise |
| Listener.Listener.AcceptV1Connection | listener.go:225-241 | Returns the connection exactly when the client's bind succeeded on it, and closes it otherwise; a failed dial stops the listener |
| Listener.BindStream | listener.go:244-265 | Succeeds exactly when the bind request went out and the success reply came in |
| ConnManager.IdsStayDistinct | connmng/manager.go:37-114 | Identifiers stay distinct under every history |
| ConnManager.AddReplacesInPlace | connmng/manager.go:37-51 | An added connection takes the place of its namesake or goes last; all others stay |
| ConnManager.RemovedAt | connmng/manager.go:57-70 | Removing takes out one place and leaves the order of the others |
| ConnManager.RemoveTakesNamesake | connmng/manager.go:57-70 | The named connection is gone and all others are still there |
| ConnManager.WhatKeepsTheCursor | connmng/manager.go:57-70 | Exactly which operations keep the cursor usable |
| ConnManager.UsableCursorIsSafe | connmng/manager.go:76-88 | From a usable cursor no history of additions and calls panics |
| ConnManager.UnusableCursorPanics | connmng/manager.go:76-88 | From an unusable one a panic is at most one addition away |
| ConnManager.RemovalCanBreakTheCursor | connmng/manager.go:57-70 | A four-step history after which `GetConn` panics |
| ConnManager.RoundsRepeat | connmng/manager.go:76-88 | `k` rounds of calls return the rotated list `k` times and restore the cursor |
| ConnManager.RoundRobinIsFair | connmng/manager.go:76-88 | Each connection is returned exactly `k` times in `k` rounds |
| ConnManager.ConnManager.AddConnection | connmng/manager.go:37-51 | Does what the value model does and closes exactly the connection replaced |
| ConnManager.ConnManager.RemoveConnection | connmng/manager.go:57-70 | Does what the value model does and closes exactly the connection removed |
| ConnManager.ConnManager.GetConn | connmng/manager.go:76-88 | Returns the connection at the cursor and moves on, round the list; nothing for an empty list |
| ConnManager.ConnManager.Close | connmng/manager.go:94-114 | Empties the list and closes every connection in it |
| Scaling.Validate | pool/pool.go:52-82 | Refuses exactly thresholds out of order; otherwise keeps what is given in range and yields ordered bounds and thresholds and non-zero intervals |
| Scaling.AutoScaler.Evaluate | pool/scaler.go:42-95 | The decision is the specified function of configuration, time since the last action and metrics |
| Scaling.DecisionMeans | pool/scaler.go:42-95 | At any time and any latency: exactly when the decision is to grow and when to shrink, as inequalities without division |
| Scaling.ChoiceMeans | pool/scaler.go:61-93 | What the truncated average means for the number of streams, both thresholds |
| Scaling.NeverReversesIff | pool/scaler.go:61-93 | Scaling never reverses at any constant load if and only if the thresholds are spread for the minimum size |
| Scaling.TwiceIsEnough | pool/pool.go:69-71 | Twice the lower threshold within one of the upper is enough for every minimum and needed for a minimum of one |
| Scaling.ValidatedCanFlap | pool/pool.go:69-71 | A configuration that `Validate` accepts and that flaps for ever |
| Scaling.Converges | pool/pool.go:270-365 | With spread thresholds scaling is monotone and at rest after at most max(Max - n, n - Min) decisions |
| Scaling.RecordsAreSpaced | pool/scaler.go:46-49 | Recorded actions lie a cooldown apart, however many evaluations fail in between |
| Scaling.WindowBound | pool/scaler.go:98-103 | A window of length T holds at most 1 + T/C of them |
| Streams.CountersConserve | pool/mux_conn.go:130-140 | In every run, between any two atomic additions, no active count is negative, total minus active is what was closed less the half-counted, and the connections' counts exceed the pool's by the streams between their two updates |
| Streams.GreedyBalance | pool/pool.go:193-214 | With at most c callers at once two connections' counts never differ by more than c, although every load of the selection loops interleaves with every update |
| Streams.BalanceIsTight | pool/selector.go:21-38 | For every c there is a run that reaches the bound |
| Pool.Select | pool/selector.go:21-38 | The first connection with the fewest streams |
| Pool.FirstLeastIsUnique | pool/selector.go:21-38 | That place is unique, so selection and scaling down agree on it |
| Pool.TrackedStream.Close | pool/mux_conn.go:130-140 | However often it is called the counter goes down once |
| Pool.PoolTrackedStream.Close | pool/pool.go:368-378 | Both counters go down once, however often either stream is closed |
| Pool.MuxConn.OpenStream | pool/mux_conn.go:36-56 | Opens a stream exactly when the connection is open and its session opens one, and only that counts |
| Pool.Pool.AddConnection | pool/pool.go:142-158 | Added exactly when there is room; size within the maximum and equal to the metric |
| Pool.Pool.RemoveConnection | pool/pool.go:163-188 | Closes and takes out the first occurrence, or changes nothing |
| Pool.Pool.OpenStream | pool/pool.go:193-214 | A stream on a least loaded open connection exactly when its session opens one, with its counters and the pool's raised and no others; otherwise none raised at all |
| Pool.Pool.Close | pool/pool.go:233-252 | On return the pool is empty and every connection it held is closed |
| Pool.Pool.ScaleUp | pool/pool.go:295-317 | Adds the connection exactly when there is room and one was made |
| Pool.Pool.ScaleDown | pool/pool.go:320-365 | Closes and takes out the first least loaded connection exactly above the minimum, and touches no other |
| Pool.Pool.EvaluateScaling | pool/pool.go:270-292 | Acts on the decision: adds the made connection or drops the first least loaded one, and restarts the cooldown exactly when that succeeded |
| PoolRuns.PoolBounds | pool/pool.go:142-188 | In every run the size is within the maximum, the metric is the size, and what was removed is closed |
| PoolRuns.ScalingKeepsMinimum | pool/pool.go:320-365 | No run without removals from outside and closes takes the pool below its minimum |
| PoolRuns.MadeIsKeptUnlessFull | pool/pool.go:295-317 | A connection made for growth ends in the pool exactly when the pool is not full by then; its turn comes unless a close holds the lock |
| PoolRuns.MadeCanBeLost | pool/pool.go:295-317 | A run after which such a connection is open outside the pool |
| PoolRuns.CloseBlockedIff | pool/pool.go:233-252 | In every run a close that holds the lock can still end if and only if the monitor's next step is not a lock section |
| PoolRuns.BlockedForGood | pool/pool.go:233-252 | Otherwise nothing at all can happen any more |
| PoolRuns.CloseCanBlock | pool/pool.go:295-317 | For every positive maximum a run reaches such a state |
| PoolRuns.CloseWithoutMonitor | pool/pool.go:237-240 | Without a monitor a close ends and leaves the pool empty and its connections closed |

## Left out

- TCP, TLS, address resolution, keep-alive options, logging and the functional options: foreign I/O and plumbing without logic.
- The multiplexer's own protocol, and `mux/config.go`: defaults only.
- Byte and latency counters: accumulation only; the average latency is an input of the scaling decision.
- `SendEvent` and the accept loop as methods: they compose `GetConn`, the send operations and the handlers.
- Dialer.Dialer.DialContext: sees the connections that arrive handled one after the other, between its send and its wait; all interleavings of dials and handlers are the subject of `Rendezvous`, where `ExclusiveDelivery` shows that no two dials return the same connection and which leaves out the choice of the control connection.
- The lifetime of registered connections (`dialer.go:267-320`): entering them in the manager, accepting their streams and taking them out compose operations that are modelled.
- `Server.Process` of the base type: its V1 path is that of `ServerV2.Process`, which is the one the dialer calls.
- `Client.Close` as a method: it is the step `ClientClose` of the handshake system, together with the goroutines that close on cancellation.
- `MuxConn.AcceptStream`, `Pool.Connections`, `Listen` and `createPoolConnection`: the counting is that of `OpenStream`, the rest composes modelled calls.
- Pool.Pool.Close: states the pool on return; whether a close returns is the subject of `PoolRuns`.
- Data races of the Go memory model, such as writing the cursor under a read lock (`connmng/manager.go:76-88`).
- Handshake: fields that the peer cannot observe, such as the error texts, are not part of a state.
- Streams: within one run a scheduled operation that is not possible does nothing.
- CommandChannel: an I/O error on a connection is final, and a client whose context is cancelled may leave its loop before it acknowledges.
- Connection.Conn.Write: fails at any time; after that the methods promise an error and nothing about what the peer received.
- Connection.Conn.ReadWhole: assumes whole reads at the sites listed above instead of modelling their short reads.
