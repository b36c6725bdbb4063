# A model of the TCP/UDP proxy, with proofs

The program forwards TCP connections and UDP datagrams between clients and configured servers, holds traffic back to
simulate a delay, and limits bandwidth. This project models the parts of it that carry state: the mutexes that check the
order of acquisition, a proxied TCP connection, the table of UDP endpoints, the budgets shared by all traffic of one client
address, and two groups of helpers (configuration strings, random numbers). `dafny verify dfyconfig.toml` checks all of it.

## How it is organised

Each stateful part is modelled twice, in the same terms. A *machine* gives the state as a value and every handler or loop
turn as a function from state to state; `Run` executes a list of events, so a statement about every list of events is a
statement about every interleaving. *Objects* have the fields of the program's classes and update them in place; their
methods are proved to change the object's value exactly as the machine's functions say, and the turns of the two routine
threads, with other threads at work between any two of their steps, are proved to be runs of their machine.

| part | machine and invariants | theorems | objects |
|---|---|---|---|
| mutexes and condition variable | `Locks`, `LockOrder` | `LockOrder`, `Deadlock` | `LockObjects` |
| TCP connection | `Tcp`, `TcpInvariants`, `TcpFlags`, `TcpStream`, `TcpTiming` | `TcpTheorems`, `TcpExact`, `TcpBalances`, `TcpCharges`, `TcpLosses` | `TcpObjects` |
| UDP endpoint table | `Udp`, `UdpInvariants`, `UdpSteps`, `UdpTable`, `UdpBudgets`, `UdpBuffers`, `UdpJourney` | `UdpTheorems`, `UdpExact`, `UdpBalances`, `UdpIntegrity`, `UdpDanger`, `UdpSessions`, `UdpCharges`, `UdpNull`, `UdpNullRuns`, `UdpExamples` | `UdpObjects` |
| budgets per client address | `TokenBucket`, `IpBuckets` | `IpTheorems`, `IpBalances` | `IpObjects` |
| all traffic with the shared budgets | `SharedTraffic` | `SharedTraffic` | |
| configuration strings, random numbers | | `Tokens`, `Random` | (methods in the same modules) |

Some fields record history: what was read from and written to a socket, what became of each accepted datagram, what was
refilled and charged, which life of a budget a pointer is to. History decides nothing; where a step mentions it in a guard,
the invariants show that the guard holds in every reachable state.

## What is assumed of the surroundings

- The clock does not go back and is positive. Times in milliseconds are mathematical integers.
- A read or receive returns at most the buffer size. Bytes may reach a TCP buffer at any moment while its read is
  outstanding; a datagram reaches its buffer, and its sender's address the endpoint, at one moment, and the handler runs at
  any later one.
- Each asynchronous operation completes once. A TCP operation completes as aborted only after its socket was closed, and a
  write that was started on a closed socket does not succeed. Closing a UDP socket ends the receives that wait, whose
  handlers then do nothing, but not those that have ended and whose handlers have yet to run; a receive started on a closed
  socket fails. Nothing completes for a connection or an endpoint that was destroyed.
- A buffer that was handed out is not handed out again.
- The handlers of one TCP connection do not overlap. UDP handlers, but for those that only start a receive again, wait while
  the routine thread is inside the moving or the sending loop for their endpoint, whose mutex it holds. A charge to a shared
  budget, a change of its count, and each turn of the refill loop are atomic.
- `interval * bandwidth` fits in 32 bits; `TokenBucket.BalanceFits` shows that balances then do, too.
- A datagram's sender is not the default address 0.0.0.0:0, nor the address that the endpoint it comes in on stands for.
- A connection or an endpoint that pays out of a shared budget holds the pointer that its constructor took and its
  destructor gives back; what it finds and pays in one step happens at one moment.
- Answers of the outside (whether a bind or a send works, which random number is drawn, what other traffic leaves of a
  client's budget, in which order a map is walked) are parameters or arbitrary choices.

## What the proofs found

- `lock` blocks before it compares levels (src/xthread.cpp:49, 61). Deadlock freedom therefore needs every request to be in
  order when it is made; `Deadlock.OutOfOrderRequestDeadlocks` shows two threads stuck for good although the second
  request would have been rejected.
- A TCP connection does not always drain. When a read ends and nothing is queued the other way, the connection closes, and
  what is queued for the ended side is lost for good unless it is one chunk whose write is already under way:
  `TcpLosses.ReadEndLosesIff` gives the exact condition and `TcpLosses.AnswerLost` a run in which a client that stops
  sending never gets the answer, whatever follows. A connection that is idle for longer than the timeout, as a half-closed
  one comes to count even while it delivers, is erased with whatever is queued (`TcpLosses.TickLosesIff`).
- Due times are computed from the time of the proxy's last tick (src/tcp_proxy.cpp:182-187, 312), so a chunk waits less than
  the configured delay by the time since that tick; after half-close the activity time is frozen, and chunks are due earlier
  still. `TcpTheorems.DelayIff` gives the shortfall exactly.
- A UDP socket may have two receives at once. They share one message buffer and one sender address (src/udp_proxy.cpp:71,
  107-110), so a datagram can leave with another one's bytes. There are two ways to get there, and `UdpDanger.TwoWays`
  shows that there are no others: a server's socket is reopened after a failed send while a receive that has ended waits
  for its handler; or it is reopened while receiving is off, and the moving loop then starts another receive. Both do harm
  (`UdpExamples.WrongBytesLeave`, `UdpExamples.SecondReceiveHarms`). `UdpDanger.IntegrityIff` tells for every reachable state
  whether the records of a socket's datagrams are in danger.
- After such a reopening a receive queue may hold 52 datagrams (`UdpExamples.QueueOverfull`). If the reopening fails instead,
  the waiting handler marks the stopped endpoint as active again although its socket is closed
  (`UdpExamples.RevivedWithoutSocket`).
- Two datagrams from one unknown sender in one pass: the second creates the sender's endpoint again and the first is lost
  with the endpoint it was waiting at (`UdpExamples.FirstIsLost`), because line 214 does not search `new_epts`.
- A configured UDP line with source port 0 makes an endpoint that counts as a client but has no budget. With limits per
  address the routine thread can come to follow a null pointer there; `UdpNullRuns.NullIff` says for exactly which
  configurations, among them some with a limit for sending only.
- Erasing a shared budget forgives its debt, so the bound on its charges needs one largest charge per life
  (`IpTheorems.SharedRateBound`, `IpTheorems.DebtForgiven`).
- A pass of the UDP thread sets an endpoint's activity time to the start of the pass, which may be before its last datagram;
  `UdpSessions.SessionLasts` states how long a session lasts in these terms.

## Model

| member | source | states |
|---|---|---|
| Locks.LockRejectedIff | src/xthread.cpp:47-70 | a lock is rejected exactly for a first acquisition of a prioritised mutex whose level is not above the caller's top level, and then mutex and stack are as before |
| Locks.UnlockExact | src/xthread.cpp:72-91 | an unlock releases the native mutex once, takes the level off the stack exactly when the last lock of a prioritised mutex goes and its level is on top, and is an error exactly when another level is there |
| Locks.WaitRestores | src/xthread.cpp:103-117 | for every recursion depth, going to sleep frees the mutex, and the series of re-locks succeeds and restores depth and stack |
| Locks.StackNeverOverflows | src/xthread.cpp:28-42 | element i of a strictly increasing stack of levels is at least i, so with levels below 1024 there are at most 1024 elements |
| LockOrder.StackIsExact | src/xthread.cpp:47-90 | in every run each thread's stack is strictly increasing and equals the levels of the prioritised mutexes it holds in first-acquisition order, and no error branch of unlock, wait or re-lock is taken |
| LockOrder.StackFits | src/xthread.cpp:40-42 | with levels below 1024 no stack outgrows its array in any run |
| LockOrder.RejectedLockChangesNothing | src/xthread.cpp:61-66 | a request is rejected exactly when out of order, and a rejected one changes no mutex, stack or scoped lock |
| LockOrder.StepInv | src/xthread.cpp:47-117 | every step of every thread keeps: a mutex is owned by exactly the thread inside a scoped lock on it, depths equal the number of scoped locks, stacks are exact |
| LockOrder.WaitAdmittedIff | src/xthread.cpp:93-117 | in every reachable state a thread inside a scoped lock on a mutex that waits on it goes to sleep, with the mutex free, iff the mutex has no level or its level is the greatest the thread holds; otherwise nothing changes |
| LockOrder.OthersLeaveThreadAlone | src/xthread.cpp:45 | whatever other threads do, a thread's own stack and scoped locks stay as they are |
| LockOrder.WaitUnderInterference | src/xthread.cpp:103-136 | a whole wait with arbitrary steps of others in between: the mutex is free while the thread sleeps, and afterwards depth, stack and scoped locks are the same |
| Deadlock.NoCycle | src/xthread.h:28-46 | with pending first acquisitions in order, the wait-for graph has no cycle of any length |
| Deadlock.SomeHolderNotBlocked | src/xthread.h:28-46 | with pending first acquisitions in order, if some thread is blocked on a prioritised mutex then some holder of such a mutex is not |
| Deadlock.OrderlyKeepsPendingInOrder | src/xthread.cpp:47-117 | re-entrant locks, waiting for admission and the re-lock inside wait keep pending requests in order |
| Deadlock.DeadlockFreedom | src/xthread.cpp:47-117 | both of the above in every reachable state, for any number of threads and mutexes |
| Deadlock.OutOfOrderRequestDeadlocks | src/xthread.cpp:49-66 | one request out of order can deadlock two threads, since lock blocks before it checks |
| LockObjects.QuickIntStack.Push | src/xthread.cpp:28-31 | the array's contents grow by the element |
| LockObjects.QuickIntStack.Pop | src/xthread.cpp:33-36 | the last element goes |
| LockObjects.XRecursiveMutex.Lock | src/xthread.cpp:47-70 | for every level, as long as a push finds a free slot, fields and array change as AfterLock says, and the stack stays in order |
| LockObjects.XRecursiveMutex.Unlock | src/xthread.cpp:72-91 | fields and array change as AfterUnlock says |
| LockObjects.ConditionVariable.Check | src/xthread.cpp:93-101 | true exactly when the mutex has no level or its level is the caller's top one |
| LockObjects.ConditionVariable.Wait | src/xthread.cpp:103-117 | throws exactly when check fails; otherwise sleeps once, with the mutex free; either way leaves mutex and stack as they were, whatever other threads do with the mutex in between |
| LockObjects.ConditionVariable.TimedWait | src/xthread.cpp:120-136 | the same, and reports whether the thread was notified |
| TokenBucket.RefillSound | src/tcp_proxy.cpp:72-75 | a refill keeps conservation and the quota of the time passed, although every refill is rounded down |
| TokenBucket.ChargeSound | src/tcp_proxy.cpp:112-136 | a charge allowed by a balance that is not negative keeps conservation and the lower bound |
| TokenBucket.RateBound | src/tcp_proxy.cpp:312-333 | whoever keeps these charges at most the quota of the time since the first charge plus one largest charge |
| TokenBucket.BalanceFits | src/ip_proxy.cpp:63-86 | balances stay in 32 bits when single refills do |
| TcpTheorems.StepInv | src/tcp_proxy.cpp:53-195 | every handler keeps the flags, buffers, streams, stamps, budgets and life-cycle invariants |
| TcpTheorems.StreamIntegrity | src/tcp_proxy.cpp:85-195 | in every run, written chunks followed by queued ones are exactly the chunks read from the opposite socket, byte for byte; the output is always a prefix of the input |
| TcpTheorems.DrainDelivers | src/tcp_proxy.cpp:101-105 | a connection that closes because a write completed has delivered both directions completely |
| TcpExact.OpenExact | src/tcp_proxy.cpp:146-187 | while not closed, a connection is fully open exactly if its connect has succeeded and no read of either socket has failed, and its activity time is the tick time of the connect or of the last chunk read while fully open |
| TcpExact.ClosesIff | src/tcp_proxy.cpp:53-181 | an open connection is closed exactly by a stop of the server, a failed connect or write, a failed read with nothing queued the other way, the write completion that empties both queues after a read has failed, and an effective tick more than the timeout after the last activity |
| TcpExact.HalfClosedDrains | src/tcp_proxy.cpp:101-105 | once a read has failed on an open connection, the write completion that empties both queues closes it with everything delivered in both directions |
| TcpExact.ErasedIff | src/tcp_proxy.cpp:321-329 | a connection is erased exactly by an effective tick that finds it closed or closes it |
| TcpExact.WriteExact | src/tcp_proxy.cpp:97-142 | a completed write removes the chunk, and the next one is started, and charged with 54 more to the connection and to the client's budget where these are limited, exactly if it is due and neither is overdrawn |
| TcpExact.TickExact | src/tcp_proxy.cpp:70-82 | an effective tick adds to each overdrawn direction exactly the bandwidth times the time since the tick before, and then starts and charges the head of an idle socket exactly if it is due and nothing is overdrawn |
| TcpLosses.ReadEndLosesIff | src/tcp_proxy.cpp:171-181 | when a read ends, the connection closes at once iff the opposite queue is empty; then some continuation still delivers everything read so far iff the socket's own queue is empty or holds one chunk whose write is under way |
| TcpLosses.AnswerLost | src/tcp_proxy.cpp:175-178 | a run after which, whatever follows, data already read is never delivered |
| TcpLosses.TickLosesIff | src/tcp_proxy.cpp:53-63 | a tick closes an open connection iff it was last active longer ago than the timeout; it is then erased, and everything read has been written, then or ever, iff both queues are empty |
| TcpLosses.ClosedBounds | src/tcp_proxy.cpp:85-105 | after a close an output grows by at most the one chunk whose write was under way, in every continuation |
| TcpTheorems.Backpressure | src/tcp_proxy.cpp:85-195 | at most one read and one write per socket, at most two chunks per queue; reading is switched off exactly while the opposite queue holds two; an outstanding write is of the queue's head; no queued chunk is in a buffer being read into; no assertion fails |
| TcpTheorems.TcpRateBound | src/tcp_proxy.cpp:72-75 | per direction, bytes charged are at most bandwidth times time since the first charge plus 4150; the balance is refills minus charges and at least -4150 |
| TcpCharges.ThroughputBound | src/tcp_proxy.cpp:112-137 | while open, the bytes charged are exactly those written and being written, with 54 for each chunk, so these keep the rate bound |
| TcpBalances.ChargesOnlyThen | src/tcp_proxy.cpp:112-137 | no other step changes a balance or starts a chunk |
| TcpBalances.DebtShrinks | src/tcp_proxy.cpp:72-75 | a debt is paid off by ticks only: in any continuation whose ticks allow less than the debt, the balance is the old one plus exactly what they allow |
| TcpBalances.DebtPaid | src/tcp_proxy.cpp:72-80 | the tick that pays it off leaves what is over, and an idle socket's due head is started at that tick |
| TcpTheorems.HeadDueFirst | src/tcp_proxy.cpp:112-114 | when a queue's head is not due nothing behind it is |
| TcpTheorems.NeverEarly | src/tcp_proxy.cpp:112-132 | nothing is being written before its stamp, and what was read while fully open has waited at least the delay, less the time since the last tick when it was read |
| TcpTheorems.DelayIff | src/tcp_proxy.cpp:182-187 | by how much a chunk is due too early, exactly: the time since the last tick, or since the last activity after half-close; so the delay is kept iff it is read at tick time and the connection is fully open or was active at that tick |
| TcpTheorems.NeverStranded | src/tcp_proxy.cpp:97-111 | after the connect, an unclosed connection with empty queues is fully open |
| TcpTheorems.HalfClosedForGood | src/tcp_proxy.cpp:175-185 | a half-closed connection never reopens and its activity time never changes |
| TcpTheorems.HalfClosedTimesOut | src/tcp_proxy.cpp:59-63 | it is closed and erased by the first effective tick more than the timeout after its activity time |
| TcpTheorems.NothingForgotten | src/tcp_proxy.cpp:70-82 | after an effective tick every idle socket of a surviving connection has a reason: empty queue, head not due, or an overdrawn budget |
| TcpTheorems.StepCharges | src/tcp_proxy.cpp:117-129 | a step takes from the client's shared budget nothing, or one chunk with overhead out of a limited direction whose balance was not negative |
| TcpObjects.TcpConnection.HandleWrite | src/tcp_proxy.cpp:85-144 | the connection changes as WriteHandler says, whichever socket it is for |
| TcpObjects.TcpConnection.HandleConnect | src/tcp_proxy.cpp:146-160 | the connection changes as HandleConnect of the machine says |
| TcpObjects.TcpConnection.HandleRead | src/tcp_proxy.cpp:169-195 | the connection changes as ReadHandler says |
| TcpObjects.TcpConnection.AsyncRead | src/tcp_proxy.cpp:162-167 | a new buffer replaces the old one and becomes the target of one more read |
| TcpObjects.TcpConnection.FlushMsgs | src/tcp_proxy.cpp:53-83 | result and connection are those of FlushMsgs of the machine |
| TcpObjects.TcpConnection.Tick | src/tcp_proxy.cpp:312-331 | the connection changes as HandleTick says |
| TcpObjects.TcpProxy.HandleWait | src/tcp_proxy.cpp:311-331 | every connection takes one tick; exactly those whose flush fails leave the list and the others keep their order |
| UdpTheorems.StepInv | src/udp_proxy.cpp:74-301 | every arrival, handler and loop turn keeps the invariants of the table, its passes, queues, stamps, budgets, buffers and datagrams; in particular no two endpoints share a buffer |
| UdpExact.StartExact | src/shared_data.cpp:96-122 | at the start there is one endpoint for every configured destination, under the rule of the last line for it, a server exactly if that line has a source port, working exactly if its socket was opened |
| UdpExact.MoveExact | src/udp_proxy.cpp:192-250 | a turn of the moving loop takes the head exactly if it is due and no budget is overdrawn, charges its bytes and 42 more to each limited budget, and receives again; otherwise it only ends the loop |
| UdpExact.SenderExact | src/udp_proxy.cpp:214-240 | the sender's endpoint, if found and not stopped, is marked active at the pass time and gets the datagram if it has room; one that is not found is made new, under the same rule, if its socket opens |
| UdpExact.SendExact | src/udp_proxy.cpp:264-300 | a turn of the sending loop sends the head exactly if no budget is overdrawn, and charges it; after a failed send it stays queued, with the client's budget charged |
| UdpExact.FailedSendExact | src/udp_proxy.cpp:286-293 | a failed send stops the endpoint, and a server is opened again |
| UdpExact.ReceiveExact | src/udp_proxy.cpp:96-118 | a datagram's handler marks the endpoint active; the datagram is dropped exactly if the random number is at most the rule's setting, and otherwise queued, due the rule's delay later |
| UdpExact.DropsAsCounted | src/udp_proxy.cpp:100 | for a raw random value it is dropped exactly as Random.DropCount and Random.DropRate count |
| UdpExact.ErrorExact | src/udp_proxy.cpp:76-94 | a refused receive is only started again; any other error stops the endpoint, and a server is opened again |
| UdpExact.VisitExact | src/udp_proxy.cpp:170-190 | in every run a visit erases exactly stopped endpoints and idle clients, and adds to each overdrawn direction of a client exactly its bandwidth times the time between the last two passes |
| UdpIntegrity.Translation | src/udp_proxy.cpp:192-251 | what leaves endpoint X's socket for Y was recorded on endpoint Y's socket as coming from X, and was due; if no socket ever had two receives at once, it did come from X, with the same bytes |
| UdpDanger.IntegrityIff | src/udp_proxy.cpp:69-119 | in every reachable state, for every endpoint: what is recorded of its datagrams stays what arrived, however its socket, its handlers and the loops inside it go on without a failed send, iff it is so now and not (its rule accepts something, and its receives are out of order or the next turn of the moving loop adds a second one); otherwise some such run, which the program survives, queues a datagram with a false record |
| UdpDanger.FirstDanger | src/udp_proxy.cpp:69-119 | up to the first step that may leave a socket with two receives everything recorded is true, and after it a socket is in danger iff its rule accepts something and it has two receives or gets the second at the next turn |
| UdpDanger.TwoWays | src/udp_proxy.cpp:241-293 | a step leaves a socket that had at most one receive with two iff it reopens a server while its receive has ended, or takes a datagram while receiving counts as off although there is a receive |
| UdpIntegrity.CleanIsSingle | src/udp_proxy.cpp:69-119 | when no socket is reopened at a wrong moment, no socket ever has two receives at once |
| UdpIntegrity.NoClash | src/udp_proxy.cpp:196 | the assertion does not fail as long as no socket has two receives at once |
| UdpIntegrity.RunClientFlags | src/udp_proxy.cpp:62-94 | on every run client endpoints have at most one receive and exact flags: what goes wrong, goes wrong at servers |
| UdpExamples.WrongBytesLeave | src/udp_proxy.cpp:96-118 | a run from the start after which one client's datagram has left with the bytes of another's |
| UdpTheorems.OrderAndAtMostOnce | src/udp_proxy.cpp:192-301 | for every pair of endpoint and receiver datagrams leave in the order they were accepted, across eviction and re-creation, and none leaves twice |
| UdpTheorems.Conservation | src/udp_proxy.cpp:106-301 | every accepted datagram is in a receive queue, in a send queue, sent or lost, exactly as recorded, and never in two places |
| UdpTheorems.QueuedOnce | src/udp_proxy.cpp:109-245 | no datagram is queued twice, at one endpoint or at two |
| UdpTheorems.LostIff | src/udp_proxy.cpp:166-257 | a step loses a datagram for a cause iff that cause's condition holds: send queue full, socket not opened, endpoint overwritten, endpoint erased; sent and lost are final |
| UdpExamples.FirstIsLost | src/udp_proxy.cpp:214-225 | a run from the start with two datagrams of one unknown sender in one pass: the first is lost, the second queued |
| UdpTheorems.HeadDueFirst | src/udp_proxy.cpp:197-200 | when a receive queue's head is not due nothing behind it is |
| UdpTheorems.SendQueueBound | src/udp_proxy.cpp:236-240 | send queues never exceed 50 |
| UdpTheorems.ReceivingExactIff | src/udp_proxy.cpp:98-119 | throughout a run receive queues hold at most 51, receiving is off exactly at 51, and otherwise a live endpoint has one receive, iff no server is reopened while receiving is off or while a receive that has ended waits for its handler |
| UdpExamples.QueueOverfull | src/udp_proxy.cpp:286-293 | a run from the start after which a receive queue holds 52 |
| UdpExamples.SecondReceive | src/udp_proxy.cpp:246-250 | a run from the start after which a socket has two receives waiting while the routine thread holds its mutex |
| UdpExamples.SecondReceiveHarms | src/udp_proxy.cpp:246-250 | that run goes on to queue a datagram with a false record, without a failed assertion or a null pointer before |
| UdpExamples.RevivedWithoutSocket | src/udp_proxy.cpp:96-98 | a run from the start after which a stopped endpoint counts as active although its socket is closed |
| UdpTheorems.UdpRateBound | src/udp_proxy.cpp:179-190 | both budgets of a client keep bandwidth times time since the first charge plus 1542 |
| UdpBalances.BalanceExact | src/udp_proxy.cpp:179-190 | on every run a limited client's balances are exactly what the visits have owed it since it was made less the traffic since then, with 42 for each datagram |
| UdpCharges.TrafficBound | src/udp_proxy.cpp:241-300 | on every run a client's budgets were charged exactly for what left its socket and its receive queue since it was made, so these keep bandwidth times time since the first charge plus 1542 |
| UdpCharges.TakenOnce | src/udp_proxy.cpp:241-245 | what was taken from receive queues are accepted datagrams, each taken once and from the queue it was accepted in |
| UdpCharges.StepCharges | src/udp_proxy.cpp:201-294 | a step takes from the client's shared budget nothing, or one datagram with overhead, at most 1542, out of a balance that was not negative; a send that then fails is charged too |
| UdpNullRuns.NullIff | src/udp_proxy.cpp:201-280 | under any limits, timeouts, rules and openings: some run follows a null budget, without a failed assertion before, iff a working endpoint without source port exists and either there is a receive limit and it accepts datagrams, or there is a send limit and some endpoint does |
| UdpNull.NeverNull | src/udp_proxy.cpp:18-21 | one half of it: no run of a configuration outside that condition follows a null budget |
| UdpTheorems.RoutineNeverStuck | src/udp_proxy.cpp:166-302 | in every reachable state the routine thread has a next step: the keys it still has to visit are in the table |
| UdpSessions.DelayRespected | src/udp_proxy.cpp:106-109 | when all lines ask for a delay of at least d, no datagram leaves earlier than d after its arrival, through whatever client endpoints |
| UdpSessions.RunRuled | src/udp_proxy.cpp:218-221 | every endpoint ever created follows the rule of a configured line |
| UdpSessions.LeavesIff | src/udp_proxy.cpp:170-176 | an endpoint leaves the table iff it is visited while stopped, or idle beyond the timeout and no server |
| UdpSessions.SessionLasts | src/udp_proxy.cpp:227-235 | an endpoint in use stays in the table within the timeout, whatever happens, as long as sockets do not fail |
| UdpSessions.MovesKeepSession | src/udp_proxy.cpp:227-234 | once a datagram of a client has been moved, its endpoint is in the table in every later pass up to the timeout after that pass, as long as sockets do not fail |
| UdpSessions.ReceivesKeepSession | src/udp_proxy.cpp:98 | so it is once a datagram has come in on it |
| UdpObjects.UdpProxyServer.Configure | src/shared_data.cpp:96-122 | adding the configured lines one after the other gives the machine's start, whatever the lines and however their sockets open |
| UdpObjects.UdpEndpointProxy.constructor | src/udp_proxy.cpp:12-24 | the new endpoint is NewEpt |
| UdpObjects.UdpEndpointProxy.HandleRecv | src/udp_proxy.cpp:96-119 | the endpoint changes as Handled says: what is queued is the shared message buffer and address as they are when the handler runs |
| UdpObjects.UdpEndpointProxy.HandleRecvError | src/udp_proxy.cpp:76-94 | the endpoint changes as Errored says: a refused or reset connection only restarts the receive; any other error stops the endpoint and reopens a server's |
| UdpObjects.UdpProxyServer.AddServerProxy | src/udp_proxy.cpp:128-131 | the table changes as WithLine says |
| UdpObjects.UdpProxyServer.Receive | src/udp_proxy.cpp:96-119 | table, memory and log change as HandleRecv says, for endpoints of both maps |
| UdpObjects.UdpProxyServer.Visit | src/udp_proxy.cpp:170-190 | the table changes as EnterEpt says |
| UdpObjects.UdpProxyServer.MoveOne | src/udp_proxy.cpp:192-251 | table, new endpoints and log change as MoveHead says, and the queue gets shorter when a datagram moves |
| UdpObjects.UdpProxyServer.GiveOne | src/udp_proxy.cpp:264-301 | the state changes as SendOne says, and the queue gets shorter when a datagram is sent; a failed send leaves receives that have ended |
| UdpObjects.UdpProxyServer.Merge | src/udp_proxy.cpp:257 | the new endpoints join the table, and no key is in both maps |
| UdpObjects.UdpProxyServer.RoutinePass | src/udp_proxy.cpp:156-302 | a whole turn of the routine thread, with any arrivals, handlers and charges of others between its steps, is a run of the machine from rest to rest, takes the time that it read if the clock has gone on, and keeps the invariant |
| IpTheorems.ReferenceSafety | src/ip_proxy.cpp:32-43 | in every run each count equals the number of holders, every holder's pointer is to a budget of the map, and none to an erased budget is followed |
| IpTheorems.ErasedUnheld | src/ip_proxy.cpp:71-91 | a budget that is erased has no holder at that moment, although charges and returns fall between the turns of the loop |
| IpBalances.VisitExact | src/ip_proxy.cpp:73-86 | in every run a visit adds to each overdrawn direction of a budget with a holder exactly the limit times the time between the last two passes, marks a budget without one to be erased, and changes nothing else |
| IpBalances.EraseExact | src/ip_proxy.cpp:88-91 | the end of a pass erases exactly the marked budgets |
| IpBalances.BalanceExact | src/ip_proxy.cpp:61-94 | on every run a balance is exactly what the visits have owed the budget since it was made less what was charged to it since |
| IpTheorems.BalanceBound | src/ip_proxy.cpp:80-86 | no shared balance falls below -4150 |
| IpTheorems.SharedRateBound | src/ip_proxy.cpp:61-94 | over k lives of an address's budget, charges are at most bandwidth times the time since the last pass before the first plus 4150 times k, under every interleaving |
| IpTheorems.ChargesCounted | src/tcp_proxy.cpp:117-129 | the charges so bounded are exactly those made against a limit with a balance that was not negative |
| IpTheorems.DebtForgiven | src/ip_proxy.cpp:75-91 | a run that charges twice the largest amount within a millisecond, so the factor k is needed |
| SharedTraffic.TotalRateBound | src/ip_proxy.cpp:61-94 | what all UDP endpoints and TCP connections of an address pay together keeps that bound, under every interleaving of all of them with the routine thread, and is nothing without a limit |
| SharedTraffic.RunBudgets | src/tcp_proxy.cpp:117-129 | in a run of everything the shared budgets take a run of their own machine, in which exactly what the traffic pays is charged |
| SharedTraffic.UdpBilled | src/udp_proxy.cpp:201-213 | a step of the UDP table is charged in full, and leaves the shared balances it has worked with |
| SharedTraffic.TcpBilled | src/tcp_proxy.cpp:117-129 | so is a step of a connection, for either direction |
| SharedTraffic.UdpPart | src/udp_proxy.cpp:156-302 | the UDP table takes a run of its own machine, so that what is proved of it alone holds here |
| SharedTraffic.TcpPart | src/tcp_proxy.cpp:53-195 | so does every connection, from its start |
| IpObjects.IPProxies.GetIPProxy | src/ip_proxy.cpp:32-43 | null exactly without limits; otherwise the map's entry for the address, made if missing, counted once more |
| IpObjects.IPProxies.GiveBack | src/udp_proxy.cpp:53-60 | the count changes as GivenBack says |
| IpObjects.IPProxies.MayCharge | src/tcp_proxy.cpp:117-129 | the balance changes as ChargedBy says; refused exactly when limited and overdrawn |
| IpObjects.IPProxies.RoutinePass | src/ip_proxy.cpp:54-93 | a whole turn of the routine thread, with budgets taken, given back and charged by others between its steps, is a run of the machine from idle to idle, takes the time that it read if the clock has gone on, and keeps the invariant |
| Tokens.RoundTripIff | src/xtokens.h:39-87 | parsing an assembled string returns exactly its leader and list iff they are well formed: leader not empty, without blanks and '='; list not empty; tokens not empty, without blanks, none starting with '#', the first without '=' |
| Tokens.FixedPointIff | src/xtokens.h:39-87 | what a successful parse returns survives assembling and parsing iff its list is not empty |
| Tokens.ParseExact | src/xtokens.h:39-82 | a parse succeeds exactly if the first token is two parts joined by '='; these are the leader and the first value, and the list goes on up to the first comment; a failed parse returns nothing |
| Tokens.SeparateKeeps | src/xtokens.h:14-20 | separated parts are not empty, contain no separator, and together are the string without its separators |
| Tokens.SeparateExact | src/xtokens.h:14-20 | a string without separators is one token, or none if empty, and a separator anywhere parts what is before it from what is after it |
| Tokens.SeparateAssembleIff | src/xtokens.h:14-37 | separating undoes assembling iff all tokens are not empty and without separators |
| Tokens.SeparateTokens | src/xtokens.h:14-20 | the list is Separate's |
| Tokens.AssembleTokens | src/xtokens.h:22-37 | the string is Assemble's |
| Tokens.ParseConfigstring | src/xtokens.h:39-82 | success, leader and list are Parse's; both are empty on failure |
| Random.ComposeInjective | src/xrandom.cpp:99-104 | different triples of a bit and two 15-bit numbers give different values, all below 2^31 |
| Random.ComposeSurjective | src/xrandom.cpp:99-104 | every value below 2^31 is composed from a triple |
| Random.Int32Range | src/xrandom.cpp:58-67 | the result is in the range, and is its minimum when the bounds are in the wrong order |
| Random.RangeCycles | src/xrandom.cpp:58-67 | raw values from 0 on give the range upwards from its minimum, and one range length further the same again; bounds in the wrong order give the minimum |
| Random.DropCount | src/udp_proxy.cpp:100 | for any setting, with k the setting cut to 0..10000: of the first n raw values exactly (n div 10000) * k + min(n mod 10000, k) cause a drop |
| Random.DropRate | src/common.h:43 | over all raw values the number of drops is exactly 214748 * k + min(3648, k): never fewer than k in 10000 of them, and at most 3648 * 6352 / 10000 more |
| Random.UniqueAssign | src/xrandom.cpp:117-144 | the buffer gets the first occurrences among the draws, in order, distinct and in range, and for a full-size request a permutation of the range; rejected exactly when the range is too small; otherwise it ends exactly when the draws have given enough different values; the rest of the buffer is untouched |
| Random.AssignedUnique | src/xrandom.cpp:117-144 | these values are distinct and in range |
| Random.FreeValueExists | src/xrandom.cpp:123-141 | inside the retry loop some raw value always ends it |
| Random.CanStillFinish | src/xrandom.cpp:123-141 | whatever was drawn so far, some further draws end the call |

## Left out

- Sockets, the scheduling of handlers, accept, bind, listen, name and address parsing: completions are arbitrary events.
- Handlers that run for a connection or endpoint already destroyed, and data races inside the steps named as atomic.
- The reader of `proxy.conf` (src/shared_data.cpp): only that limits are set before any handler runs, and endpoints of
  configured UDP lines are made before limits are set, is used.
- TcpProxy::start, handleAccept and close, what the UDP thread does after its loop, the joins in the stop functions, and the
  thread pool: start and stop only. Closing all connections is the event ServerStop of the TCP machine.
- Random.UniqueAssign: the draws are a finite list, and the method reports when they run out where the program would go on
  drawing; that it ends with probability one is not stated. Ranges of 2^31 values or more overflow an int32 in the program
  and are excluded.
- UdpNullRuns.NullIff: no configured destination is the default address 0.0.0.0:0.
- TcpObjects.TcpConnection.HandleWrite: for a failed write the message at src/tcp_proxy.cpp:91 asks for the peer's address,
  which can throw before stop() is reached; nothing catches that, and the program ends. The model goes on to stop().
- Tokens.SeparateTokens: stands for the boost tokenizer with dropped separators and no empty tokens, which is not part of
  this model.
- The seeding and the quality of the random numbers, the floating-point helpers, `arrange` and `uint32_range`.
- Logging, stack traces, daemonising, arguments, file statistics.
