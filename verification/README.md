# RootlessKit, modelled in Dafny

RootlessKit runs a command as a fake root. A parent process starts a child in a new user namespace,
writes its ID maps, configures its network and forwards ports into it. This project models four of
its cores and proves what they are for, over every input, every run and every interleaving.

* **Port forwarding.** The builtin driver's `AddPort` and `RemovePort` as any number of concurrent
  calls over shared tables and one mutex, with the goroutines each call leaves behind
  (`PortManager`, `PortManagerProofs`, `PortManagerProgress`), and that they have the outcome of calls made one after the
  other (`DriverCalls`); the UDP proxy with its receive loop, reply loops and `Close`
  (`ConnTrack`, `UdpProxy`, `UdpProxyProofs`, `UdpProxyProgress`, `UdpProxyTable`); the copying between two TCP connections (`Bicopy`,
  `BicopyProofs`); both drivers as objects (`Drivers`).
* **Start-up.** Parent and child as two processes over two byte pipes, with writes that become visible
  in pieces, reads that may be short, the child's re-execution in the middle, and the readiness
  handshake of the builtin driver (`Framing`, `Messages`, `Channel`, `Endpoint`, `Bootstrap` and the
  five modules that prove things about it); the child's reaper (`Reaper`) and the exit code on its way
  out (`ExitStatus`).
* **Port specs.** The scanner that parses them and the documented text form (`Ports`, `PortParser`,
  `PortParserProofs`, with Go's decimal conversions in `Decimal`).
* **ID maps.** Removing duplicate ranges and laying the others out (`IdMap`, `IdMapProofs`).

Concurrent code is a function from a state and an action to the next state; one action is what one
goroutine or process does between two points where another can run, and `Run` folds a list of actions,
so a lemma about `Run` is about every interleaving. Code that runs alone, or as a whole under a lock,
is a method or a class with the source's fields.

What is assumed of the surroundings is a guard of the steps or a precondition:

* binds are exclusive: no two listening sockets have the same protocol, address and port;
* Accept fails only on a closed listener (`NeverBreaks`); `BrokenAcceptConflicts` shows why;
* the child has no capabilities on its first execution and has them on a re-execution that follows the
  ID maps (`CapsAsExpected`); `CompletionNeedsCaps` shows why;
* for progress of the start-up only: a frame's single write becomes visible at once, a read gets what
  is there, and no opaque operation fails (`Sound`). Safety needs none of it;
* a child's process ID is not used again while the reaper runs;
* a UDP datagram is written in one piece;
* JSON is an injective encoding of messages (`Codec.Faithful`), and `net.ParseIP` some predicate.

The model follows the code, and the proofs bring out where it differs from its documentation or
comments, or from what one would expect:

* the documented four or five components of a port spec are not enforced, with brackets or without
  (`ParseComponents`): one component too many is read as the last digits of the child port
  (`ExtraComponentAccepted`);
* `child_pid` is said to be written after the child is fully configured, which holds with the builtin
  port driver (`ReadyBeforePublished`) and not with others (`NotReadyWithoutBuiltin`);
* the retries that `gainCaps` counts up to ten cannot happen (`AtMostOneReexec`);
* the token after a closing bracket is dropped whatever it is (`ScanShape`), so a text without the
  colon there is accepted (`SeparatorUnchecked`);
* UDP clients that differ in nothing but the zones of their addresses share a session, and no others
  do: a socket gives addresses of one length (`CrossingIff`);
* a parent that waits for a message of a child that has failed waits forever, because it keeps the
  write end of the pipe it reads (`ParentHangsIff`); and one that waits for the builtin port driver
  does so forever if the child's driver never opens the FIFO, for example because the child has failed
  before (`DriverHangsIff`);
* a RemovePort that times out leaves a routine that can never end (`RemovedMeans`);
* neither the parser of getsubids output nor the layout refuses a range of negative length; then the map can lead back to
  inside IDs already used (`NegativeLengthLeadsBack`), exactly when a range with IDs follows (`MapTiles`).

The steps, and what each of them models; the lemmas about them are in the table below.

* `PortManager.AddStep` (pkg/port/builtin/parent/parent.go:139-187): AddPort between the points where other calls run: check and registration are separate critical sections
* `PortManager.RemoveStep` (pkg/port/builtin/parent/parent.go:199-215): RemovePort around the stop function; the entry goes whatever the stop function returns
* `PortManager.StopStep` (pkg/port/builtin/parent/parent.go:150-161): the stop function: close the stop channel, then a value, a closed channel or a timeout
* `PortManager.RoutineStep` (pkg/port/builtin/parent/tcp/tcp.go:21-54): the accept goroutine and the select loop, with their unbuffered channel
* `UdpProxy.RunStep` (pkg/port/builtin/parent/udp/udpproxy/udp_proxy.go:92-130): the receive loop: receive, look up or dial under the lock, forward
* `UdpProxy.ReplyStep` (pkg/port/builtin/parent/udp/udpproxy/udp_proxy.go:57-89): a reply loop and its deferred function: delete under the lock, then close
* `UdpProxy.CloseStep` (pkg/port/builtin/parent/udp/udpproxy/udp_proxy.go:133-140): Close: the listener first, then every connection in the table under the lock
* `Bootstrap.ParentOp` (pkg/parent/parent.go:219-346): the parent's operations in order
* `Bootstrap.ChildOp` (pkg/child/child.go:381-474): the child's operations in order, from the start again after re-execution
* `Bootstrap.ParentDriverStep` (pkg/port/builtin/parent/parent.go:81-103): the parent's driver: open the FIFO, read to its end, init over the socket, signal
* `Bootstrap.ChildDriverStep` (pkg/port/builtin/child/child.go:39-90): the child's driver: open the FIFO, listen, close the FIFO, serve
* `Bicopy.BrokerStep` (pkg/port/builtin/parent/tcp/tcp.go:81-90): one broker: copy, half-close both connections, leave
* `Bicopy.MainStep` (pkg/port/builtin/parent/tcp/tcp.go:101-107): the caller: select, two closes, the receive from finish
* `Channel.Read` (pkg/lowlevelmsgutil/lowlevelmsgutil.go:29-50): one read of a frame from a pipe
* `Reaper.Step` (pkg/child/child.go:553-598): the reaper goroutine, its caller, and the children around it
* `PortParser.Scan` (pkg/port/portutil/portutil.go:69-91): the scan loop

## Model

| member | source | states |
|---|---|---|
| PortManagerProofs.NoTwoPortsConflict | pkg/port/builtin/parent/parent.go:140-186 | in every interleaving no two registered ports share protocol, parent IP and parent port, if Accept fails only on a closed listener |
| PortManagerProofs.PutPortNoConflict | pkg/port/builtin/parent/parent.go:176-185 | when a call registers its port, the bound sockets guarantee that no registered port conflicts, although the check was made earlier |
| PortManagerProofs.BrokenAcceptConflicts | pkg/port/builtin/parent/tcp/tcp.go:24-28 | if Accept fails on an open listener, there is a run that registers one spec twice |
| PortManagerProofs.TablesAgree | pkg/port/builtin/parent/parent.go:176-185 | with mu free, ports and stoppers have the same keys, each the ID of its status and below nextID; IDs are issued in increasing order, so none twice |
| PortManagerProofs.EntriesServed | pkg/port/builtin/parent/parent.go:182-183 | with mu free, each entry has a routine of its own spec that was not told to stop, and that is listening if Accept fails only on a closed listener |
| PortManagerProofs.StopsOnce | pkg/port/builtin/parent/parent.go:148-161 | over all runs a stop channel is closed at most once, stoppedCh carries one value before it is closed, the closed-without-sending branch is never taken, and at most one accepted connection is undispatched |
| PortManagerProofs.WaitingIsNotStuck | pkg/port/builtin/parent/parent.go:199-215 | a RemovePort waiting with mu held always has a step of its routine, which needs no mu, or the report to receive, and each step brings the report nearer |
| PortManagerProofs.StepRefines | pkg/port/port.go:31-36 | each step of each interleaving leaves the ports alone, adds one under an unused ID without a conflict, or removes one |
| PortManagerProgress.UnknownExactly | pkg/port/builtin/parent/parent.go:199-205 | in every interleaving RemovePort answers that an ID is unknown exactly when, at the step that decides it and with mu free, no port of that ID is registered |
| PortManagerProgress.RefusedExactly | pkg/port/builtin/parent/parent.go:139-175 | AddPort is refused exactly by its check, for a spec that is not well-formed or shares its parent side with a registered port, or because nothing could be started |
| PortManagerProgress.RemoveCompletes | pkg/port/builtin/parent/parent.go:199-215 | from any state with mu free, removing a registered port can go on to the report: its entries are gone, no others, and its socket is closed |
| PortManagerProgress.RemovedMeans | pkg/port/builtin/parent/parent.go:150-161 | after every removal the ID is not registered; the result is Reported exactly if the routine's report was received, and then its socket is closed; after a timeout the routine never ends |
| PortManagerProgress.RemoveTimesOut | pkg/port/builtin/parent/parent.go:158-213 | a removal that waits can time out instead, and its entries are deleted all the same |
| PortManagerProgress.CallGoesOn | pkg/port/builtin/parent/parent.go:139-215 | with mu free every call that has not finished has a step |
| PortManagerProgress.AddCompletes | pkg/port/builtin/parent/parent.go:139-187 | from any state with mu free, a valid spec of one of the six TCP and UDP protocols that conflicts with nothing and can be bound can go on to be registered under the next ID with a listening routine |
| PortManagerProgress.SCTPIsRefused | pkg/port/builtin/parent/parent.go:162-169 | an SCTP spec that has passed the check can only be refused |
| PortManagerProgress.Dispatches | pkg/port/builtin/parent/tcp/tcp.go:22-49 | a connection that comes while the listener is open and not told to stop can be dispatched |
| PortManagerProgress.RoutineEnds | pkg/port/builtin/parent/tcp/tcp.go:22-37 | a routine whose report was received ends altogether, unless it holds an accepted connection nobody takes |
| PortManagerProgress.NothingAfterStop | pkg/port/builtin/parent/tcp/tcp.go:22-54 | a closed listener accepts nothing more, and once the select loop has ended nothing more is dispatched |
| PortManagerProgress.ServedIs | pkg/port/builtin/parent/parent.go:162-169 | which protocols are served as TCP, as UDP, or known and not served |
| Drivers.Builtin.constructor | pkg/port/builtin/parent/parent.go:38-47 | empty tables, the first ID is 1 |
| Drivers.Builtin.AddPort | pkg/port/builtin/parent/parent.go:139-187 | a call with no other in between succeeds exactly for a valid, conflict-free TCP or UDP spec whose routine started, and then adds it under the next ID as the interface says; otherwise nothing changes, and the ports stay named by their IDs and free of conflicts |
| Drivers.Builtin.ListPorts | pkg/port/builtin/parent/parent.go:189-197 | each entry once and nothing else |
| Drivers.Builtin.RemovePort | pkg/port/builtin/parent/parent.go:199-215 | a call with no other in between refuses exactly an unknown ID; otherwise the entry goes, whatever the stop function returns, and that is the result |
| DriverCalls.Linearizes | pkg/port/builtin/parent/parent.go:139-215 | with mu free, the tables of every interleaving are those of the successful calls made one after the other in the order in which they took effect, and each of them succeeds there too |
| DriverCalls.PutStopperSettles | pkg/port/builtin/parent/parent.go:176-185 | an AddPort takes effect in its second critical section, is still free of conflicts there, and returns the ID it has among the calls made one after the other |
| DriverCalls.RefusalsAgree | pkg/port/builtin/parent/parent.go:139-205 | a call of an interleaving is refused exactly when it would be after the calls so far, made one after the other |
| Drivers.Slirp4netns.AddPort | pkg/port/slirp4netns/slirp4netns.go:65-122 | which request is made, with which protocol and guest address, and when; the entry is the backend's answer, and it refines adding a port exactly when the backend's ID is fresh; the ports stay free of conflicts either way |
| Drivers.Slirp4netns.ListPorts | pkg/port/slirp4netns/slirp4netns.go:124-132 | each entry once and nothing else |
| Drivers.Slirp4netns.RemovePort | pkg/port/slirp4netns/slirp4netns.go:134-152 | the entry goes exactly if the backend removed the forward |
| Drivers.InterfaceKeeps | pkg/port/port.go:31-36 | whatever adds and removes as the interface says keeps the ports free of conflicts and named by their IDs |
| Ports.FindConflict | pkg/port/portutil/portutil.go:141-148 | finds an entry with the same protocol, parent IP and parent port exactly when there is one |
| Ports.ValidatePortSpec | pkg/port/portutil/portutil.go:119-150 | accepts exactly the well-formed specs without a conflict, and otherwise reports the first failing check |
| Ports.KnownProtoIs | pkg/port/portutil/portutil.go:152-162 | the accepted protocols are tcp, udp and sctp, each alone or with 4 or 6 |
| ConnTrack.KeysAgree | pkg/port/builtin/parent/udp/udpproxy/udp_proxy.go:30-43 | two client addresses share a key exactly when their ports agree and their IPs agree, up to the IPv4-compatible form of section 2.5.5.1 of RFC 4291 |
| ConnTrack.KeyIdentifiesClient | pkg/port/builtin/parent/udp/udpproxy/udp_proxy.go:30-43 | for clients of one address length that do not differ in their zones only, the key identifies the client |
| UdpProxyTable.StepsAreOperations | pkg/port/builtin/parent/udp/udpproxy/udp_proxy.go:57-140 | in every run the table and the live reply loops correspond one to one, and change only as beginning a session or ending a live one changes them |
| UdpProxyTable.Proxy.Session | pkg/port/builtin/parent/udp/udpproxy/udp_proxy.go:107-120 | gives the connection of the one live session of the sender's key, begins one on the dialed connection if there is none, and keeps entries and live reply loops one to one |
| UdpProxyTable.Proxy.EndSession | pkg/port/builtin/parent/udp/udpproxy/udp_proxy.go:58-63 | for a live session: its own entry goes and no other, its connection is closed, and the one-to-one correspondence is kept |
| UdpProxyTable.Proxy.CloseAll | pkg/port/builtin/parent/udp/udpproxy/udp_proxy.go:135-139 | the connections of all live sessions are closed, and no others |
| UdpProxyProofs.SessionOwnership | pkg/port/builtin/parent/udp/udpproxy/udp_proxy.go:57-63 | in every reachable state table entries and reply loops that have not deleted theirs correspond one to one |
| UdpProxyProofs.DeleteIsOwn | pkg/port/builtin/parent/udp/udpproxy/udp_proxy.go:60 | a reply loop's delete removes its own entry and no other session |
| UdpProxyProofs.RepliesStayWithClient | pkg/port/builtin/parent/udp/udpproxy/udp_proxy.go:69-128 | over whole runs datagrams are forwarded in arrival order to a session of the sender's key, and what a session has sent back is, to its own client and in order, the first of the non-empty datagrams that came in on its connection |
| UdpProxyProgress.Relays | pkg/port/builtin/parent/udp/udpproxy/udp_proxy.go:66-88 | on an open session the loop's own steps send the next datagram from the backend to the client, unless it is empty, and change nothing else |
| UdpProxyProgress.AnswerReachesClient | pkg/port/builtin/parent/udp/udpproxy/udp_proxy.go:66-88 | so an answer to an idle session is what its client is sent next |
| UdpProxyProgress.EmptyIsSkipped | pkg/port/builtin/parent/udp/udpproxy/udp_proxy.go:81-87 | an empty datagram is not sent at all |
| UdpProxyProgress.Forwards | pkg/port/builtin/parent/udp/udpproxy/udp_proxy.go:95-128 | with the listener open the receive loop's own steps take the next datagram to the connection of its sender's session, or of a new one if dialing succeeds |
| UdpProxyProgress.FailureDrops | pkg/port/builtin/parent/udp/udpproxy/udp_proxy.go:110-126 | a dial or a write that fails drops the datagram and nothing else, and only a sender without a session is dialed for |
| UdpProxyProgress.SessionEnds | pkg/port/builtin/parent/udp/udpproxy/udp_proxy.go:57-63 | with the lock free a session's own steps end it: its entry goes, its connection is closed, and no other session is touched |
| UdpProxyProgress.CloseCompletes | pkg/port/builtin/parent/udp/udpproxy/udp_proxy.go:133-140 | with the lock free Close can go through and has then closed exactly the connections in the table |
| UdpProxyProgress.OnlyTheEnd | pkg/port/builtin/parent/udp/udpproxy/udp_proxy.go:69-106 | after the listener is closed the receive loop can only stop, and on a closed connection a reply loop can only end |
| UdpProxyProgress.StoppedStays | pkg/port/builtin/parent/udp/udpproxy/udp_proxy.go:96-106 | when receiving fails the receive loop stops for good |
| UdpProxyProgress.WindsDown | pkg/port/builtin/parent/udp/udpproxy/udp_proxy.go:57-140 | from any state with the lock free all sessions can end, and then the table is empty and every connection closed |
| UdpProxyProofs.NoCrossing | pkg/port/builtin/parent/udp/udpproxy/udp_proxy.go:107-128 | when no two senders differ in their zones only, every datagram goes to a connection dialed for its own sender |
| UdpProxyProofs.CrossingIff | pkg/port/builtin/parent/udp/udpproxy/udp_proxy.go:30-43 | on a socket of either family, some run forwards a datagram of one client on another's connection exactly when their ports and IPs agree |
| UdpProxyProofs.SharedKeyCrosses | pkg/port/builtin/parent/udp/udpproxy/udp_proxy.go:107-119 | the run that does it, for any two clients of one socket with one key |
| UdpProxyProofs.BoundedLeftovers | pkg/port/builtin/parent/udp/udpproxy/udp_proxy.go:133-140 | Close closes every connection in the table when it took the lock; at most one session is inserted later, and no other entry is open |
| UdpProxyProofs.NothingLeft | pkg/port/builtin/parent/udp/udpproxy/udp_proxy.go:58-63 | when every reply loop has ended, the table is empty and every connection ever dialed is closed |
| UdpProxyProofs.HolderGoesOn | pkg/port/builtin/parent/udp/udpproxy/udp_proxy.go:108-120 | whoever holds the lock can take its next step |
| UdpProxyProofs.HolderReleases | pkg/port/builtin/parent/udp/udpproxy/udp_proxy.go:108-140 | each step of the holder releases the lock or brings the release nearer, and no other step touches either |
| Bicopy.StepInv | pkg/port/builtin/parent/tcp/tcp.go:79-108 | every step of the brokers, the caller and the peers keeps what each direction has delivered and shut down |
| BicopyProofs.ReturnsLast | pkg/port/builtin/parent/tcp/tcp.go:101-108 | bicopy returns only after both brokers have ended, with both connections closed |
| BicopyProofs.DeliversPrefix | pkg/port/builtin/parent/tcp/tcp.go:81-82 | at any time each side was sent a prefix of what arrived from the other |
| BicopyProofs.DeliversAll | pkg/port/builtin/parent/tcp/tcp.go:81-90 | without quit and I/O errors a direction ends only with its whole source delivered |
| BicopyProofs.HalfCloses | pkg/port/builtin/parent/tcp/tcp.go:83-88 | in every state each broker has half-closed exactly what it should have by then: its source when it has ended copying, then its destination, where they are TCP |
| BicopyProofs.PassesOnXY | pkg/port/builtin/parent/tcp/tcp.go:81-90 | until the connections are closed, steps of this direction alone deliver everything that has arrived, and pass on the end of the source by half-closing, whether or not the other side has ended |
| BicopyProofs.PassesOnYX | pkg/port/builtin/parent/tcp/tcp.go:81-90 | the same from y to x |
| BicopyProofs.ClosedIsQuiet | pkg/port/builtin/parent/tcp/tcp.go:82-88 | on a connection closed or half-closed that way a broker's next step fails, and only a failure elsewhere is a fault |
| BicopyProofs.HalfCloseLeavesOther | pkg/port/builtin/parent/tcp/tcp.go:83-88 | until bicopy closes the connections, a broker that has not ended can read and write, however far the other one is |
| BicopyProofs.XYLeavesYX | pkg/port/builtin/parent/tcp/tcp.go:93-94 | no step of the x-to-y direction, half-closes included, changes what the other one depends on |
| BicopyProofs.YXLeavesXY | pkg/port/builtin/parent/tcp/tcp.go:93-94 | nor any step of the y-to-x direction |
| BicopyProofs.Returns | pkg/port/builtin/parent/tcp/tcp.go:101-107 | once quit has fired or both sides have ended, bicopy can return by its own steps, at most Left of them, and without quit or error everything is delivered then |
| BicopyProofs.Exchanges | pkg/port/builtin/parent/tcp/tcp.go:79-108 | for any two streams there is a run that exchanges them as a whole, passes on both ends and returns |
| BicopyProofs.QuitReturns | pkg/port/builtin/parent/tcp/tcp.go:101-107 | when the stop channel is closed, at whatever point, bicopy's own steps lead to its return with both connections closed |
| Framing.MarshalToWriter | pkg/lowlevelmsgutil/lowlevelmsgutil.go:16-27 | writes exactly one frame, or nothing and an error when the payload is too long |
| Framing.UnmarshalFromReader | pkg/lowlevelmsgutil/lowlevelmsgutil.go:29-51 | success means exactly the first frame was consumed, however short reads may come; with whole reads it succeeds whenever there is one; which error is returned when |
| Framing.HeaderIs | pkg/lowlevelmsgutil/lowlevelmsgutil.go:24-40 | the length is four bytes, lowest first, and a frame decodes exactly if it is from 1 to 65536 |
| Framing.Unmarshal | pkg/lowlevelmsgutil/lowlevelmsgutil.go:59-65 | accepts exactly one frame with nothing after it |
| Framing.DecodeFrame | pkg/lowlevelmsgutil/lowlevelmsgutil.go:24-50 | decoding gives back the payload of a frame and everything after it untouched |
| Framing.DecodeInverts | pkg/lowlevelmsgutil/lowlevelmsgutil.go:38-50 | whatever is decoded was the first frame of the stream |
| Framing.DecodeAllFrames | pkg/lowlevelmsgutil/lowlevelmsgutil.go:16-51 | any list of frames with payloads of 1 to 65536 bytes decodes to that list |
| Framing.TruncatedFrame | pkg/lowlevelmsgutil/lowlevelmsgutil.go:35-49 | a frame cut anywhere does not decode |
| Messages.FulfillName | pkg/messages/messages.go:19-32 | the name of the first field that is set, in declaration order, or an error |
| Messages.NameIdentifiesField | pkg/messages/messages.go:19-42 | with exactly one field set the name identifies that field |
| Messages.Send | pkg/messages/messages.go:74-85 | writes one frame with the named message exactly when it has a name and fits, else nothing |
| Messages.HeadSent | pkg/messages/messages.go:74-97 | what was sent is at the head of the stream, and taking it leaves the rest |
| Messages.Recv | pkg/messages/messages.go:87-97 | success is the stream's head message and consumes its frame only |
| Messages.WaitFor | pkg/messages/messages.go:99-108 | refuses the head message exactly when its name is not the expected one |
| Channel.ReadInv | pkg/lowlevelmsgutil/lowlevelmsgutil.go:29-50 | however a read of a pipe comes out, it is a short-read error or the next part of the next frame sent |
| Channel.WholeReadSucceeds | pkg/lowlevelmsgutil/lowlevelmsgutil.go:26-50 | with atomic writes a reader that is behind finds all the bytes it asks for |
| Endpoint.AwaitedReads | pkg/messages/messages.go:87-108 | a read of an expected message fails short, takes the header, or takes the message under its own name |
| Endpoint.SendRefused | pkg/messages/messages.go:74-85 | a message without a name or too long fails its sender, and nothing of it is written |
| Endpoint.TakenIs | pkg/messages/messages.go:87-108 | what a payload makes of the one who waits for a name: on, or failed by a payload that does not decode, has no name or has another one |
| BootstrapSafety.ReceivedIsPrefix | pkg/child/child.go:381-441 | for any codec, capabilities, partial writes and short reads, what each side received is the first so many messages the other began to send, across re-execution |
| BootstrapSafety.HandshakeSafe | docs/internal.md:17-27 | under the capability assumption no message is ever refused, the child is re-executed at most once, and it passes mountProcfs only after the ID maps are written |
| BootstrapSafety.UnsendableFails | pkg/parent/parent.go:224-226 | a process that comes to a message it cannot send fails there and writes nothing |
| BootstrapProgress.SoundStep | pkg/parent/parent.go:219-346 | each sound step keeps both processes healthy and uses up a measure |
| BootstrapProgress.NotStuck | pkg/child/child.go:381-474 | a healthy state before the end has a sound step |
| BootstrapProgress.StartupCompletes | docs/internal.md:17-27 | no sound run is longer than 139 steps plus the number of ports, and it can go on until everything is done: maps, procfs, network, every port asked for published, both files, and every documented message received once, in order and with the drivers' data |
| BootstrapProgress.StartsUp | docs/internal.md:17-27 | so there is such a run, with every driver and any number of ports |
| BootstrapProgress.NetworkBeforeSetup | pkg/child/child.go:431-463 | the child sets up its network only after the parent has configured it |
| BootstrapProgress.NotReadyWithoutBuiltin | pkg/parent/parent.go:331-346 | with any other port driver a fault-free run writes child_pid and opens the API before the child has set up its network |
| BootstrapReady.ReadyBeforePublished | pkg/parent/parent.go:314-346 | with the builtin driver, once a port is published, child_pid is written or the API is open, the child has finished setupNet and listens on its socket |
| BootstrapReady.PublishedBeforeAnnounced | pkg/parent/parent.go:314-346 | whenever child_pid is written or the API is open, exactly the ports asked for are published, none without a port driver; the API opens after child_pid is written |
| BootstrapReady.AwaitsDriver | pkg/parent/parent.go:316-320 | a parent that waits for its driver goes on exactly when it signals and fails exactly when it has failed |
| BootstrapReady.DeadDriverIsNoticed | pkg/port/builtin/parent/parent.go:86-99 | a child's driver that died after opening the FIFO makes the parent's driver fail |
| BootstrapReady.FaultsAre | pkg/child/child.go:464-474 | either process or either goroutine of the driver can fail at any point, and a child takes its driver with it |
| BootstrapHang.ParentHangsIff | pkg/parent/parent.go:227-242 | under the capability assumption a waiting parent can never move again, whatever the others do, exactly when the child has failed and the pipe is empty |
| BootstrapHang.DriverHangsIff | pkg/parent/parent.go:314-320 | under the capability assumption a parent that waits for the builtin driver can never move again exactly when the FIFO is not open and the child's driver will not open it |
| BootstrapHang.ChildNeverHangs | pkg/child/child.go:384-440 | a waiting child whose parent has failed always has a step: what is left in the pipe, then its end |
| BootstrapHang.EndMeansParentFailed | pkg/parent/parent.go:306-313 | under the capability assumption the child sees the end of its pipe only if the parent has failed |
| BootstrapCaps.CompletionNeedsCaps | pkg/child/child.go:381-406 | if capabilities come at any other time, no run gets the parent past ChildInitUserNSCompleted |
| BootstrapCaps.AtMostOneReexec | pkg/child/child.go:317-351 | whenever capabilities come, the child is re-executed at most once, so the retry limit is never reached |
| Reaper.Reap | pkg/child/child.go:584-598 | leaves no child that had ended, and returns the target's status exactly if it was among them |
| Reaper.NoneForgotten | pkg/child/child.go:553-580 | an ended child not waited for has a SIGCHLD pending or queued or a reap in progress, although notifications coalesce and a full channel drops them |
| Reaper.NotifyQueues | pkg/child/child.go:554-555 | up to 32 notifications are queued, and one more is dropped |
| Reaper.ReturnsOwnStatus | pkg/child/child.go:563-581 | runAndReap returns the target's own status, and the reaper never sends without a receiver |
| Reaper.ReturnsOnce | pkg/child/child.go:581 | after it has returned nothing is delivered to it again |
| Reaper.TargetIsDelivered | pkg/child/child.go:553-582 | once the target has ended, the process's own steps in any order return its status within a bound |
| Reaper.Returns | pkg/child/child.go:553-582 | so its own steps lead to the return of that status |
| Reaper.ExampleRuns | pkg/child/child.go:584-598 | a run with an orphan that ends, one that had ended before it was adopted, and the target |
| Reaper.ReapedExitCode | pkg/child/child.go:568-577 | the status the reaper delivers becomes the outer process's exit code, exactly unless it is 0 and a port driver fails |
| ExitStatus.ExitCodePropagates | cmd/rootlesskit/main.go:322-334 | with or without the reaper the outer process exits with the target's code, or with 255 if a signal ended it; if that is 0, the error of a port driver that fails on shutting down decides, the child's first |
| ExitStatus.CodeIs | pkg/common/exec.go:18-32 | the exit code for any error: 0 for none, the status's code if it is wrapped once, 255 for a signal, and otherwise 1 |
| ExitStatus.StatusesAre | pkg/common/exec.go:27-31 | which wait statuses are exits with a code, and which ends by a signal |
| ExitStatus.WrappedOnce | pkg/common/exec.go:18-32 | the code survives exactly when the error that bears it is wrapped once |
| PortParser.ParsePortSpec | pkg/port/portutil/portutil.go:26-117 | for any text and any tokens no index or slice is out of range, and the result is that of the function the results below are about |
| PortParserProofs.ParseSound | pkg/port/portutil/portutil.go:49-116 | for any text and any tokens, an accepted text ends in its protocol, which is known, and both addresses are empty or valid |
| PortParserProofs.ParseRefuses | pkg/port/portutil/portutil.go:49-63 | for any text, a missing or unknown protocol is refused as such exactly, and a text without a colon is refused |
| PortParserProofs.ScanShape | pkg/port/portutil/portutil.go:69-91 | what the loop makes of the first component of any list of tokens: where its text goes, what ends it, and what is dropped |
| PortParserProofs.SomeShape | pkg/port/portutil/portutil.go:69-91 | every list of tokens begins in one of the ways that covers |
| PortParserProofs.ScanFull | pkg/port/portutil/portutil.go:70-72 | beyond the fourth part anything more is refused |
| PortParser.ColonBeforeSlash | pkg/port/portutil/portutil.go:49-64 | accepting the protocol puts the last colon before the last slash |
| PortParserProofs.RoundTrip | pkg/port/portutil/portutil.go:13-25 | parsing a printed spec returns it, with four or five components, bracketed or not, however the tokenizer cuts its head |
| PortParserProofs.PrintForm | pkg/port/portutil/portutil.go:17-25 | the printed form is the documented one |
| PortParserProofs.PrintInjective | pkg/port/portutil/portutil.go:17-25 | no two specs share a printed form |
| PortParserProofs.ScanComponents | pkg/port/portutil/portutil.go:69-91 | a head of components, bracketed or not, is refused exactly when something is scanned beyond the fourth part, and otherwise each is appended to its part |
| PortParserProofs.ParseComponents | pkg/port/portutil/portutil.go:64-116 | a text of components, bracketed or not, is accepted exactly when there are not too many, the first and third are empty or valid addresses and the second and last 64-bit decimals; with which fields, and otherwise with which error |
| PortParserProofs.ExtraComponentAccepted | pkg/port/portutil/portutil.go:70-89 | a text with a component too many that is accepted with another child port |
| PortParserProofs.SeparatorUnchecked | pkg/port/portutil/portutil.go:79-87 | a text with another character than the colon after the bracket that is accepted |
| Decimal.AtoiItoa | pkg/parent/parent.go:416-418 | every 64-bit int is read back from its decimal form |
| Decimal.AtoiIs | pkg/port/portutil/portutil.go:106-114 | exactly the texts that are read as a number: digits, with a sign or without, in the 64-bit range |
| IdMap.WithoutDuplicates | pkg/parent/dynidtools/dynidtools.go:17-27 | the method with its map of seen keys computes Dedupe |
| IdMap.DedupeIs | pkg/parent/dynidtools/dynidtools.go:17-27 | the same set of ranges, none twice, in the order of first occurrence |
| IdMap.GetSubIDRanges | pkg/parent/dynidtools/dynidtools.go:39-69 | fails exactly when both lookups of a kind fail, else both lists are deduplicated, by name first |
| IdMap.NewugidmapArgsFromSubIDRanges | pkg/parent/parent.go:401-433 | both argument lists are the user's own triple followed by the laid-out ranges |
| IdMap.ArgsDenoteMap | pkg/parent/parent.go:401-433 | read back three at a time, the arguments are exactly the map |
| IdMapProofs.LayoutExact | pkg/parent/parent.go:413-421 | the 64-bit loop gives the unbounded prefix sums exactly when the emitted starts fit an int |
| IdMapProofs.MapTiles | pkg/parent/parent.go:401-433 | the triples follow one another from inside ID 0; they are a legal map, without overlap or negative inside IDs, and cover exactly the inside IDs from 0 up to the number of IDs, each exactly when no range with IDs follows one of negative length; that number is 1 + the sum of the lengths exactly when none is negative |
| IdMapProofs.NegativeLengthLeadsBack | pkg/parent/parent.go:413-421 | three ranges for which the map is not legal |
| IdMapProofs.MapDenotes | pkg/parent/parent.go:401-433 | inside ID 0 is the user, n is the (n-1)th ID of the concatenated ranges and nothing else is mapped, exactly when no range with IDs follows one of negative length |
| IdMapProofs.MapInjectiveIff | pkg/parent/parent.go:401-433 | the map is legal and injective exactly when no range with IDs follows one of negative length and the ranges and the user's own ID are pairwise disjoint |
| IdMapProofs.DedupedMapInjectiveIff | pkg/parent/dynidtools/dynidtools.go:67-68 | after deduplication the map is legal and injective exactly when no range with IDs follows one of negative length, overlapping ranges are equal and none contains the user's own ID |

## Left out

- PortManager.RoutineStep: the connections that are dispatched are counted, not followed; each one's copying is `Bicopy`, and the stop channel reaches it as `Quit`. For UDP the stop goroutine closes the proxy in one step, whose parts are in `UdpProxy`.
- Drivers.Builtin.AddPort: one call with no other in between; calls that overlap are the step system `PortManager`, where update in place is a step on a value, and `DriverCalls.Linearizes` leads from there to the class. Calls that fail change nothing and are not in that order.
- Framing.UnmarshalFromReader: the payload is returned as bytes; decoding it is the codec of `Messages`.
- UdpProxy.RunStep: a datagram of the operating system is forwarded whole or not at all; the loop that continues a partial write has nothing to do for UDP sockets. Port and IP are those the kernel reports: 4 or 16 bytes.
- Bootstrap.ParentOp: cgroup evacuation, signal forwarding and starting the child have no step of their own; like every opaque operation they may abort the process.
- Bootstrap.ChildOp: detaching the network namespace, mount propagation, copy-up and sysfs have no step of their own; they may abort the process as well.
- Reaper.Reap: an interrupted wait4 ends the loop in the source just as having no child does; here it never happens with WNOHANG.
- JSON and reflection: a message is a tagged value and the codec any injective one.
- Tokens that text/scanner makes of characters outside the port-spec alphabet: `ParsePortSpec` is in range for any token list; the round trip is about tokens that cut the text.
- The hand-shake that shuts the port drivers down after the command has ended (only what they return is modelled), and the order in which the parent closes the API socket and its driver.
- Connect requests to the child driver, descriptor passing and transparent source addresses: branches over what the kernel does.
- Choice of the subordinate-ID source and parsing of getsubids output and of /etc/subuid.
- Network drivers, the gvisor-tap-vsock port driver, the HTTP API, command lines, logging and warnings.
- Clocks: the 90-second read deadline is a failing read at any time, the 5-second timeout of RemovePort a step at any time.
