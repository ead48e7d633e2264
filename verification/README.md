# AeRO-GO reverse proxy: a verified model

AeRO-GO lets a client behind NAT publish local services. The client logs in to a server and registers
named proxies; the server opens one listening port per proxy. Each user connection is carried over a
"pipe", a stream that the client opens when the server asks for one. This project models that protocol
and the algorithms around it in Dafny and proves what they keep over all runs and all inputs.
`dafny verify dfyconfig.toml` checks everything.

## The protocol

`ManagerMachine` is one server-side manager with every goroutine that touches it: `Run`,
`awaitReceive`, `awaitSend`, both callers of `Close`, any number of user handlers, pushes of incoming
pipes, and pings. A step (`ManagerMachine.Step`) is one atomic action: one test of the flag, one
setting of it, one send, receive or close of a channel, one map update. A test and the action that
relies on it are two steps, so every interleaving is a run (`ManagerMachine.Exec`). A blocked action is
a step that is not enabled. Connection errors, timeouts, incoming messages and listen failures may
happen at any time.

`ProxySystem` puts any number of managers and client processes together: the server's table, the login
exchange, the control connections as ordered queues of frames, the agent's dispatch loop, and
`awaitWork` from the pipe request to the local dial (`ProxySystem.SystemStep`). A manager's own steps
there are exactly those of `ManagerMachine`. Every pipe request has an identity, and `place` records
where it is; that record is proved to agree with the channels, pools, wires and goroutines themselves
(`Conservation.EachRequestInOnePlace`), so counts over places are counts over the real state.

`ManagerObject` is the same manager, with its proxies and the server's table, as the objects of the
program. Its methods are calls that nobody interrupts, and each is tied to the machine: `Close` and
`PushPipeConn` are proved equal to the uninterrupted run of their steps (`CloseIsARun`, `PushIsARun`).

`Dialogue` records what a manager takes and answers over a run, `Control` what passes over its control
connection, and `LocalEnd` what a client finds out about one pipe. `Progress` says exactly when each
goroutine is blocked, and `Delivery` builds a whole run from login to a connection with the local service.

Four things the code does that a reader might not expect, all modelled as they are:

- A push that panics because the pool was closed in between returns no error, so the stream is
  neither pooled nor closed (`Abandoned`); a recovered panic in `SendMassage` also returns no error.
- A pipe request can be written on the control connection before the login response; the client then
  takes it for the response and its login fails.
- A new id is only compared with the ids of live managers, and a client opens a pipe under the id it
  holds at that moment, whichever of its logins the request came over. So an id given to two clients
  can join a user of one with a pipe of the other (`IdReuse.ReusedIdMisroutes`), and a client that logs
  in twice can fill the pool of its second manager with pipes requested by the first
  (`Supply.LoginAgainOversupplies`). Routing is therefore stated manager by manager: users are always
  joined with pipes opened under the manager's own id, and with pipes of its own client exactly when no
  other client may be given that id (`IdReuse.RoutesOwnIff`). The supply of pipes is stated as an exact
  balance that counts pipes exchanged between managers, and it comes out even, with nothing lost or timed
  out, exactly when no two logins share a client or an id (`Supply.SuppliesAllIff`).
- A manager starts to run before it is put in the table, and the check of its id comes before both. So
  overlapping logins can be given one id, and a manager that fails at once can be forgotten before it is
  listed, after which its entry stays and its id is never given again (`Overlap`).

## The other parts

- `Framing` and `Messages`: the frame format byte for byte, over a stream of arbitrary chunks, and the
  eight message kinds as key/value objects with zero fields omitted. The JSON text itself is a
  parameter that is only assumed to read back what it wrote.
- `Rotation`: the rotating log file as a class renaming files in place over a map of file contents. It
  refines an unbounded queue of chunks of which the files hold the newest.
- `PortSearch`, `Socktab`, `PortTables`: the search over a stream of random permutations, the two
  parsers of the kernel's socket tables, and the three ways of gathering ports.
- `Heartbeat`: the agent's ticker, its one-place channel and the age check, in nanoseconds.
- `Join`, `JoinScripts`, `CloseGuard`: two concurrent copy loops with their deferred calls, and what
  their reads and writes make of them; a close guard under concurrent calls.
- `RoundRobin`, `Uid`: load balancing and identifiers.

Where the code and its documentation disagree the code is followed. The repository's README promises
round robin over the clients with the same tag. One `RoundRobin` object does that, but `GetRobin` never
stores the object it makes, so every request starts a new one and takes the first available port
(`RoundRobin.FrontDoesNotRotate`).

## Model

| member | source | states |
|---|---|---|
| ManagerProofs.CloseHappensOnce | server/manager.go:213-321 | In every interleaving at most one call of `Close` gets past its test, although test and set are separate; each channel is closed at most once and exactly once when `Close` has returned; awaitReceive never sends on a closed channel; the server's call always finds the flag set. |
| ManagerProofs.ClosingIsBounded | server/manager.go:84-149 | Once the flag is set `Run` takes at most one more message that needs a reply and inserts at most one more proxy, with any messages still buffered; after the sweep the map holds at most one proxy. |
| ManagerProofs.EventAtMostOnce | server/manager.go:84-120 | From any state satisfying the closing invariant, each of the three events (close test passed, reply taken, proxy inserted) happens at most as often as it is still possible, once or not at all. |
| ManagerProofs.StepKeepsInv | server/manager.go:73-321 | Every step of every goroutine keeps the whole invariant: closing order, sweep, buffer bounds, ledger of requests, retry bounds, and that an "ok" answer exists only for an inserted proxy. |
| ManagerProofs.RequestsAreAccountedFor | server/manager.go:80-82 | Until a manager is closed the requests it issued are the initial ones sent so far plus one per pop begun, whether the pop is waiting, succeeded or timed out. |
| ManagerProofs.HandlerUsesEachPipeOnce | server/proxy.go:64-92 | Over any run a handler pops at most three pipes and joins at most one; the pipes it popped are, in order, those it closed, then the one joined or still held. |
| ManagerProofs.RunBooks | server/proxy.go:64-92 | The same books from any state: held plus popped equals closed plus joined plus held now, and the retry count grows by the pipes closed. |
| ManagerProofs.HandlerGivesUpIff | server/proxy.go:64-92 | Over any run a handler has given up if and only if one of its pops timed out or found the pool closed, or it closed three pipes. |
| Dialogue.RepliesAnswerRequests | server/manager.go:84-120 | Over every run the replies queued are, in order, those the requests taken call for: a beat per heartbeat request, and per registration its name and port, or an error exactly if nothing could listen; short only of replies dropped at closing and the one under way. |
| Dialogue.ProxiesFollowRequests | server/manager.go:123-164 | Until the sweep the map of proxies is what the registrations and removals taken leave, but for the change about to be made. |
| Dialogue.RequestsInOrder | server/manager.go:213-238 | The requests taken are those read from the connection, in order, but for those still waiting and at most one lost at closing. |
| Dialogue.NoticesInOrder | server/manager.go:240-253 | What was written to the client is what was queued, in order, but for what still waits and at most one failed write, after which nothing is written. |
| Dialogue.ClosingStopsSends | server/manager.go:280-291 | From any state with the flag set, any further run queues no more notices than there were goroutines between their test of the flag and their send. |
| Dialogue.UsersComeWhereListening | server/proxy.go:48-57 | Over every run users are accepted, and proxies inserted, only for names whose registration was taken and opened a listener. |
| Control.ControlIsInOrder | client/agent.go:201-242 | Over every run, what a control connection delivered in either direction, followed by what is under way on it, is exactly what the other side wrote, in order. |
| Progress.RunGoesOnIff | server/manager.go:73-121 | The dispatch loop is blocked exactly when it sends to a full open channel or receives from an empty open one, or has told the server that it is done. |
| Progress.RecvGoesOnIff | server/manager.go:213-238 | awaitReceive takes any message and any error, and is blocked exactly when it hands on a message to a full open channel, or has ended. |
| Progress.SendGoesOnIff | server/manager.go:240-253 | awaitSend is blocked exactly when the channel is open and empty, or it has ended; its write may succeed or fail. |
| Progress.ServerGoesOnIff | server/server.go:182-191 | The server goes on with every manager that is done until its `Close` has returned. |
| Progress.HandlerGoesOnIff | server/manager.go:194-211 | A handler is blocked exactly when it sends its request to a full open channel, or has joined or given up; a waiting pop can always time out, and takes a pipe exactly if there is one or the pool is closed. |
| Progress.AcceptsIff | server/proxy.go:48-57 | A user is accepted exactly on a name with a listener, and its handler starts from the beginning. |
| Progress.AgentReads | client/agent.go:94-136 | The agent reads exactly when there is a frame, takes the oldest, and stays the agent of the same manager. |
| Progress.OneLoginAtATime | client/client.go:44-73 | In every run a client process never has both a login being answered and a running agent. |
| ManagerMachine.PoolSizeFor | server/manager.go:56-68 | The pool size is the one asked for if it lies in 1..8, 2 if none is asked for, 8 if more. |
| Conservation.EachRequestInOnePlace | server/manager.go:166-211 | In every reachable state a request has a place if and only if some manager issued it, and it is at exactly that one among all queues, wires, clients, pushes, pools and handlers. |
| Conservation.PipesHaveOneOwner | server/manager.go:175-211 | In every reachable state a pipe is in at most one pool, once, and in the hands of at most one handler, never both; no pool exceeds twice its pool size. |
| Lifecycle.PipesAreUsedOnce | server/manager.go:175-211 | Over any run a pipe is stored at most once, in one pool, then popped at most once, by a handler of that pool's manager, then joined or closed at most once, by that handler; nothing else is done with it in any order. |
| Lifecycle.PlacesMoveForward | server/manager.go:166-211 | Between any two states of a run a request stays or moves strictly forward; from a pool only to a handler of the same manager, from a handler only into its join or away. |
| Lifecycle.StepLeads | server/server.go:131-139 | Every step of the system, by whomever, leaves each request where it is or moves it strictly forward. |
| Conservation.RequestsConserved | server/manager.go:166-211 | Requests issued are the sum of those coming, pooled, used and lost; until closing they are the initial requests plus the pops begun. |
| Supply.SupplyBalance | server/manager.go:80-82 | For every open manager past its initial requests, pooled plus coming plus lost plus exported pipes equal the pool size plus waiting handlers plus timeouts plus imported pipes. |
| Supply.SuppliedIff | server/manager.go:194-211 | Pooled plus coming pipes equal the pool size plus the waiting handlers if and only if lost and exported pipes together are as many as timeouts and imported pipes. |
| Supply.LoginAgainOversupplies | client/client.go:94-110 | For any client and any two ids, a run with just these two logins and without loss or timeout, whose second manager has two pipes pooled or coming although it asked for one. |
| Supply.SharedIdOversupplies | server/server.go:170-180 | For any two clients, or one twice, and any id, a run with just the two logins under that id that oversupplies the second manager in the same way. |
| Supply.SuppliesAllIff | server/manager.go:80-82 | For any rule of which logins may occur together: every run that obeys it keeps each open manager past its initial requests, with nothing lost and no timeout, supplied exactly, if and only if no two logins that the rule lets occur together share a client or an id. |
| Supply.SuppliesOwnIff | server/manager.go:80-82 | If each client logs in once, the same holds of the managers with one id if and only if at most one configured client may be given that id. |
| Supply.AloneExchangesNothing | client/client.go:112-147 | A manager whose login shares neither client nor id with another one neither exports nor imports pipes, in any run. |
| Supply.PoolStaysSupplied | server/manager.go:80-82 | For such a manager, open and past its initial requests, the supply is exact if and only if as many pipes were lost as handlers timed out, so in particular if neither happened. |
| SystemProofs.StepKeepsPlaces | server/server.go:131-139 | Every step of the whole system moves a request from the place where the channels had it to the place where they now have it, and touches no other. |
| SystemProofs.StepKeepsManagers | server/server.go:158-191 | Every step of the system keeps the invariant of every manager, old and new. |
| Routing.ConnectionsFollowIds | client/agent.go:141-175 | In every state of every run, whatever ids were given, a user connection on proxy n of a manager is joined only with a pipe opened under that manager's id by a client that was given it, and carrying n; if dialled, then to the address that client configured under n, after it marked n started and a manager of that client had inserted n. |
| Routing.ConnectionsAreRouted | server/proxy.go:64-92 | If no other client was given the id of this manager, whatever happened to other ids, that client is the one that logged in to it. |
| Routing.DialedPipesAreJoined | client/agent.go:141-175 | A client dials a local address only for a pipe on which some handler has written its request and which that handler has not closed; delivery of the request and the return of `Send` are one step, so the dial may come before the handler's call of `Join`. |
| LocalEnd.FarEndFollowsEvents | client/agent.go:141-175 | In every state of every run the client end of a pipe is joined exactly after a known name, a started proxy and a dial that succeeded, closed exactly after the first of these that did not hold, and otherwise still on the way; joined only if the run took a successful dial. |
| Delivery.ConnectionsCanBeDelivered | client/agent.go:67-175 | For every client, every proxy it is configured with, every id and every port: a run in which the client logs in, registers the proxy and gets its "ok", a user is accepted, and the connection is joined with a pipe whose client end is joined with the configured address. |
| Routing.StepKeepsRoutes | client/client.go:94-144 | The routing invariant (ids given, pipes, client ends, started flags) is kept by every step of the system. |
| IdReuse.RoutesOwnIff | server/server.go:170-180 | For any rule of which client may be given which id, the users of managers with an id are joined only with pipes of the managers' own client, in every run that obeys the rule, if and only if the rule allows the id to at most one configured client. |
| Overlap.OverlappingLoginsShareAnId | server/server.go:158-180 | For any two clients and any id, a run in which both are given the id while both managers are open, and the table has only the second. |
| Overlap.ForgottenBeforeListed | server/server.go:158-191 | For any client and any id, a run in which the server is done with the manager before it is listed, so the table gives the id to a closed manager. |
| Overlap.StaleForever | server/server.go:158-191 | From then on, in every run, the entry stays, its manager stays closed, and no later login is given the id. |
| IdReuse.ReusedIdMisroutes | server/server.go:170-180 | For any two clients and any id, a run in which the id is given to the second after the first manager is gone, and a connection accepted for the second is joined with a pipe of the first. |
| IdReuse.ConflictMisroutes | client/client.go:94-110 | From every state in which a client waits to open a stream under an id that now stands for another client's manager, a pipe of the wrong client can be joined there if the manager can take a pipe and has a user waiting. |
| ManagerObject.Manager.constructor | server/manager.go:50-71 | A new manager is the initial state of the machine, with defaulted and clamped pool size. |
| ManagerObject.Manager.Close | server/manager.go:299-321 | The new state is that after the machine's closing steps; every listener in the map is closed and the map empty; a second call changes nothing. |
| ManagerObject.CloseIsARun | server/manager.go:299-321 | `Close` from any of its points equals the uninterrupted run of the remaining steps of the machine, each of them enabled. |
| ManagerObject.CloseAllAtOnce | server/manager.go:299-321 | The steps together set the flag, close the connection and each channel once more, and empty the map; nothing changes if the flag was set. |
| ManagerObject.PushIsARun | server/manager.go:175-192 | An uninterrupted push stores the pipe exactly if the manager is open and the pool has room, and is done. |
| ManagerObject.Manager.PushPipeConn | server/manager.go:175-192 | No error exactly if open and not full; "closed" exactly if closed; otherwise nothing changes. |
| ManagerObject.Manager.RegisterProxy | server/manager.go:139-148 | The entry under the proxy's name is this proxy, all others are unchanged, and the answer names it. |
| ManagerObject.Manager.RemoveProxy | server/manager.go:151-164 | Exactly the named entry goes and exactly its listener is closed; an unknown name changes nothing. |
| ManagerObject.Handle | server/proxy.go:64-92 | The retry loop closes the pipes of the failed rounds in order, at most three, and joins the pipe of the first round that succeeds; it gives up exactly on a failed pop or after three failures. |
| ManagerObject.Server.GenId | server/server.go:170-180 | The first drawn key that no live manager has; none only if all drawn keys are live. |
| ManagerObject.Server.RegisterManager | server/server.go:158-168 | A new initial manager is added under an unused id, each manager standing under its own id, and no entry is replaced. |
| ManagerObject.Server.ManagerDone | server/server.go:182-191 | The manager leaves the table and is closed. |
| Heartbeat.Agent.Run | client/agent.go:79-136 | The event loop over any trace ends in the state of the timed machine, and times out exactly when it does. |
| Heartbeat.NeverTimesOut | client/agent.go:79-131 | No timeout in any run in which ticks are handled within a second and a beat is processed between every two handled ticks. |
| Heartbeat.LatenessIsTight | client/agent.go:85-88 | One nanosecond more of lateness admits a run that times out, for every interval. |
| Heartbeat.SilenceIsDetected | client/agent.go:85-88 | After a beat and then silence, with ticks handled on time, the clock cannot pass 2H seconds (3 s for H = 1), at most 2H+1, without the timeout, and the timeout comes exactly then. |
| Heartbeat.SilenceFromStart | client/agent.go:79-88 | If no beat ever comes, with ticks handled on time, the agent gives up exactly at its second tick, or at its third if the interval is at most two seconds. |
| Framing.ReadFullIsPrefix | util/message/message.go:128-134 | A full read succeeds if and only if enough bytes are there, and gives the prefix, whatever the chunks. |
| Framing.Int32OfBigEndian | util/message/message.go:105 | The length field keeps the low 32 bits and is read as a signed number. |
| Framing.BigEndianDigits | util/message/message.go:105 | The four bytes of the length, read from the first on, are its base-256 digits. |
| Framing.WholeHeaderFrame | util/message/message.go:101-135 | A frame at the head of a stream whose header comes in one read is read back, leaving the rest, if and only if its data is shorter than 2^31 bytes. |
| Framing.FrameReadBackIff | util/message/message.go:112-118 | A frame of non-zero type is read back if and only if the first chunk holds both header bytes. |
| Framing.PrefixIsNotAFrame | util/message/message.go:111-135 | A strict prefix of a frame, in any chunks, fails to read or is seen with type zero. |
| Framing.StreamRoundTrip | util/message/message.go:101-135 | Repeated `Read` undoes repeated `Write` for every chunking with whole headers. |
| Framing.StreamReadBackIff | util/message/message.go:101-135 | A stream of frames of non-zero type is read back if and only if every header comes in one read. |
| Framing.MergeKeepsOrder | client/agent.go:229-240 | Any interleaving of whole-frame writes keeps each sender's frames in their order. |
| Framing.InterleavingRoundTrip | util/message/message.go:101-135 | The reader gets exactly the interleaving that the senders wrote, and from it each sender's sequence. |
| Framing.Conn.Read | util/message/message.go:111-135 | The reading loop consumes and returns what the specification says, including each error. |
| Framing.Conn.ReadExactly | util/message/message.go:129-134 | io.ReadFull over chunks equals the specification of a full read. |
| Framing.Conn.Write | util/message/message.go:101-109 | The bytes appended are one whole frame. |
| Messages.TablesInverse | util/message/message.go:172-202 | The two type tables and the case analysis of getMsgInfo are inverse to each other, for all flag and type bytes. |
| Messages.ObjectRoundTrip | util/message/message.go:26-93 | Omitting zero fields loses nothing: unmarshalling gives back all field values. |
| Messages.ValuesRoundTrip | util/message/message.go:26-93 | Each of the eight structs is determined by its fields, all of which fit their types. |
| Messages.MessageRoundTrip | util/message/message.go:137-170 | `Get` after `Send` returns the same message and leaves the rest of the stream, for every kind and all values. |
| Messages.TruncatedMessageFails | util/message/message.go:137-158 | Every strict prefix of a message's frame, in any chunks, is an error and never a message. |
| Rotation.RotatingFile.Write | util/zlog/writer.go:88-118 | Whatever queue of chunks the files held, they now hold it with the write added; files outside the log are untouched. |
| Rotation.RotatingFile.Rotating | util/zlog/writer.go:97-118 | The renaming loop is one rotation if the write does not fit and backups are on, and nothing otherwise. |
| Rotation.RotatingFile.WriteAll | util/zlog/writer.go:88-91 | From a fresh log, after any writes, the files hold the newest min(rotations, B)+1 chunks and no other backup exists. |
| Rotation.NewRotatingFile | util/zlog/writer.go:67-86 | Refused exactly if the size is not positive; on a fresh log the queue is one empty chunk. |
| Rotation.RotationRefines | util/zlog/writer.go:106-117 | Renaming from the oldest down moves every kept chunk to the next file, drops the oldest and starts an empty one. |
| Rotation.FileNamesDiffer | util/zlog/writer.go:108-109 | Different backup numbers give different file names. |
| Rotation.QueueIsEverything | util/zlog/writer.go:88-91 | The queue's chunks together are all writes, once and in order. |
| Rotation.LogIsSuffix | util/zlog/writer.go:88-118 | The files, oldest first, hold exactly the bytes of all writes from some write on. |
| Rotation.LargeFileIsOneWrite | util/zlog/writer.go:97-104 | With backups a file at or above the limit holds exactly one write. |
| Rotation.ClosedWhenFull | util/zlog/writer.go:97-104 | For all writes, a file is closed only when the next write does not fit below the limit, and that write begins the next file. |
| Rotation.FittingWritesStay | util/zlog/writer.go:97-104 | Writes that together stay below the limit all go to one file, and no backup is made. |
| Rotation.LogSizeBound | util/zlog/writer.go:97-118 | With at least one backup, if every write is below the limit, every file is, and the log stays below (B+1) times the limit. |
| Rotation.StaysShortIff | util/zlog/writer.go:97-104 | Writes below the limit keep every file below it, whatever they are, if and only if there is at least one backup or the limit is one byte. |
| PortSearch.EachPortAtMostTwice | netstat/netstat.go:225-239 | Any at most L+1 consecutive draws, wherever the stream stands, hit each port at most twice. |
| PortSearch.SearchSucceeds | netstat/netstat.go:264-273 | A search of any number w of draws finds a free port of the range if there is one and twice the busy ports are fewer than w. |
| PortSearch.SearchBoundIsExact | netstat/netstat.go:264-273 | It succeeds on every stream if and only if some port of the range is free and twice the busy ports are fewer than w. |
| PortSearch.HalfFreeSuffices | netstat/netstat.go:248-274 | Without a wish, or with one outside a forced range, `FindAvailablePort` always succeeds if and only if at most half the range is busy. |
| PortSearch.BusyWishIff | netstat/netstat.go:248-274 | With any other wish that turns out busy it always succeeds if and only if some port of the range is free and twice the busy ports are at most the distance from the wish to the end. |
| PortSearch.PortFinder.FindAvailablePort | netstat/netstat.go:248-274 | The wished port if it is free, else the outcome of a search over the budget of draws that follows from the wish and the forced range. |
| PortSearch.PortFinder.Draw | netstat/netstat.go:225-239 | One receive gives the next port of the endless stream of permutations and keeps the stream valid. |
| Socktab.ParseIPv6 | netstat/netstat_linux.go:75-90 | The in-place loop stays inside its 16 bytes and equals the word-by-word parse. |
| Socktab.AddressRoundTrip | netstat/netstat_linux.go:65-128 | For every IPv4 or IPv6 address and 16-bit port, parsing what the kernel prints gives them back, in both parsers. |
| Socktab.LineRoundTrip | netstat/netstat_linux.go:139-172 | A line that describes an entry, however spaced and whatever its other words, parses back to that entry, all fields included, and to its port. |
| Socktab.TableRoundTrip | netstat/netstat_linux.go:130-175 | A title and one line per entry parse back to exactly the entries that the filter accepts, in order. |
| Socktab.CommentIgnored | netstat/netstat_linux.go:140-143 | What follows a '#' is not looked at. |
| Socktab.ShortLineFails | netstat/netstat_linux.go:144-147 | A line of fewer than twelve words is an error for both parsers. |
| Socktab.ParsedInRange | netstat/netstat_linux.go:92-115 | An address that parses had 8 or 32 digits before the colon, twice its bytes, and a 16-bit port. |
| Socktab.ParsePortAgrees | netstat/netstat_linux.go:92-128 | Whenever the full address parses, the fast parser finds its port. |
| Socktab.ParseSocktab | netstat/netstat_linux.go:130-175 | The loop gives the accepted entries of all lines, or an error if some line does not parse or the scan failed. |
| Socktab.ParseSockPort | netstat/netstat_linux.go:177-201 | The loop gives the ports of all lines, or an error. |
| Socktab.FastParserRefines | netstat/netstat_linux.go:130-201 | Whenever the full parser accepts every line, the fast parser succeeds with exactly its local ports in order. |
| PortTables.DeDuplicate | util/util.go:52-62 | The loop with its map of seen keys keeps the first occurrences. |
| PortTables.DeDupKeepsElements | util/util.go:52-62 | The result has no repetitions and exactly the same elements. |
| PortTables.GetAllSocks | netstat/netstat.go:93-116 | The entries of the tables before the first failure, and an error if there was one. |
| PortTables.GetAllPorts | netstat/netstat.go:158-193 | The de-duplicated ports of the tables before the first failure. |
| PortTables.AllPortsListed | netstat/netstat.go:158-193 | When all tables can be read, a port is listed if and only if it is in one of the four. |
| PortTables.ToPorts | netstat/netstat.go:195-202 | The de-duplicated local ports of the entries. |
| PortTables.GetAllPortSet | netstat/netstat.go:121-156 | A strictly increasing list with exactly the ports of the tables before the first failure. |
| PortTables.PortSetIsSortedPorts | netstat/netstat.go:121-193 | At every failure point such a list is a permutation of the result of `GetAllPorts`. |
| PortTables.FastPortsAgree | netstat/netstat.go:93-202 | When all four tables parse fully, `GetAllPorts` equals `ToPorts` of `GetAllSocks`, order included. |
| Join.JoinDeliversPrefixes | util/pipe/pipe.go:27-45 | In every interleaving the bytes accepted by each side are a prefix of those read from the other; the reported counts are their lengths; without an error nothing read was lost. |
| JoinScripts.LoopFollowsScript | util/pipe/pipe.go:27-36 | In every interleaving a loop has read and delivered exactly the bytes of its own reads and writes, goes on while reads say more and writes are full, and ends with exactly the error that its last read or write means, without one only at the end of the stream. |
| JoinScripts.TransferRuns | util/pipe/pipe.go:27-36 | While both connections are open, a loop that is reading can deliver any bytes and end without an error. |
| Join.JoinClosesBoth | util/pipe/pipe.go:27-45 | Each connection is closed at most twice, and twice exactly when both loops have ended; one ended loop suffices to close both. |
| Join.EndedIsFinal | util/pipe/pipe.go:27-36 | Once one loop has ended no further byte is read or delivered in either direction. |
| Join.ReturnPrecedesClose | util/pipe/pipe.go:27-45 | `Join` can return while both connections are still open. |
| CloseGuard.ClosedAtMostOnce | util/pipe/pipe.go:93-106 | Under any concurrent calls the underlying stream is closed at most once, and once no call is in progress exactly if there is a stream and somebody called. |
| CloseGuard.ReadWriteCloser.Close | util/pipe/pipe.go:93-106 | A call alone closes the stream if and only if none did before. |
| RoundRobin.RoundRobin.Update | server/mux.go:37-51 | An empty pool gives nothing and keeps the cursor; otherwise the entry at the wrapped cursor is given and the cursor moves on. |
| RoundRobin.CountExact | server/mux.go:37-51 | From any state over any k calls, how often each entry is chosen: once per full round and once more if the last round reached it. |
| RoundRobin.EachOncePerRound | server/mux.go:37-51 | Any n calls in a row with an n-entry pool choose every entry exactly once. |
| RoundRobin.CountsDifferByOne | server/mux.go:37-51 | Over any number of calls no entry is chosen twice more often than another. |
| RoundRobin.AnswersComeFromPool | server/mux.go:37-51 | With pools of changing size every answer is an entry of its own pool, or empty if that pool is. |
| RoundRobin.Mux.SelectPort | server/mux.go:53-74 | The port chosen is the client's own for a tag ending in '@', and else the first available one, on every call. |
| RoundRobin.SelectedServes | server/mux.go:53-74 | A port is chosen by tag only if some manager with the tag serves the name there, and none only if none does. |
| RoundRobin.SelectedById | server/mux.go:53-60 | An id followed by '@' selects the port of that client's proxy of the name, however the map is listed, and nothing if there is none. |
| RoundRobin.SamePoolRun | server/mux.go:37-51 | While the pool is the same the answers are its entries at the counted places. |
| RoundRobin.SelectedIsFirst | server/mux.go:53-74 | For a tag, the port chosen is that of the manager listed first among those that serve the tag and name. |
| RoundRobin.FirstsAreServed | server/mux.go:24-74 | Over any requests, each listing the map in its own order, the ports chosen are exactly those of the managers listed first for the tag and name in some of them. |
| RoundRobin.AnyCanBeFirst | server/mux.go:53-74 | Every manager that serves the tag and name is first in some listing, and its port is then chosen. |
| RoundRobin.FrontDoesNotRotate | server/mux.go:24-34 | While requests find the same listing each goes to the same port, although one shared balancer called at least once per available port would have given every one of them. |
| Uid.RandStr | util/uid.go:23-39 | The string is the reverse of the first n accepted six-bit digits of the stream, from the fewest draws holding them but at least one; it does not end exactly if the stream holds too few. |
| Uid.RandStr8Base62 | util/uid.go:44-62 | All eight places are filled in 8 to 10 steps with the identifier that the draw's ten digits determine. |
| Uid.Id8IsBase62 | util/uid.go:44-62 | For every draw the identifier has eight base-62 characters. |
| Uid.Id8UsesSixtyBits | util/uid.go:44-62 | The identifier depends on the lowest 60 bits of the draw alone. |
| Uid.FewLargeDigits | util/uid.go:44-62 | If at most two of a draw's ten digits are 62 or 63, they are left out and the identifier is the first eight others, last first. |
| Uid.Alphabet | util/uid.go:8-15 | Identifiers are written in digits, then small letters, then capitals, each in ASCII order, and words in the letters alone. |
| Uid.EveryIdHasADraw | util/uid.go:44-62 | Every string of eight base-62 characters is the identifier of some 63-bit draw. |

## Left out

- Liveness: channels can stay full after `awaitSend` has ended, so nothing is claimed to happen eventually.
- Login checks (`CheckLogin`, `CheckLegal`) and the server's HTTP interface: a login that is modelled has passed them.
- The client agent's own `Close`: three goroutines can all get past its test, so the argument for the manager does not carry over, and no such claim is made.
- Foreign libraries (yamux, TCP, fiber, snappy, buffer pools): only their effects as steps. The chunk size of the copy loops is not bounded, and the WriterTo and ReaderFrom shortcuts of io.Copy are not modelled.
- Unicode in socket tables: white space is the ASCII white space, and field lengths count characters, where Go splits at Unicode spaces too and counts bytes.
- JSON text: escaping, case-insensitive keys and unknown fields belong to the library, which is a parameter; strings are taken to be valid UTF-8.
- util/ema.go and the latency it averages.
- netstat/netstat_windows.go and the process lookup in netstat/netstat_linux.go.
- PortSearch.PortFinder.FindAvailablePort: the set of busy ports is fixed during one search and there is one caller; an empty range, on which the program waits for ever, is excluded.
- Uid.RandStr: the source holds finitely many draws; an endless source is covered through its prefixes. A negative length, which panics, is excluded.
- ManagerObject.Manager.Close: the calls of this module run alone; interleavings are the subject of the transition system. Sends that may block have no method here, only steps.
- RoundRobin.Mux.SelectPort: the order in which a map is listed is a parameter, since the language leaves it open.
- Rotation.RotatingFile.Write: stat, open, rename and write succeed, and renaming a missing file does nothing.
