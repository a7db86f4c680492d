# Nunya core: verified model of its concurrency, ownership and framing

Nunya core drives two proxy engines, sing-box and Xray, for a desktop and a mobile front end. The engines
are libraries. What the repository adds is the code around them: a gate that keeps Xray's ports open while
Xray itself sleeps, a probe engine that measures many outbounds at once, a framed RPC server, wait-for-change
loops, a log queue, a reversible change to Windows' DNS settings, and the bookkeeping of what Start and Stop
own. This project models that code in Dafny and proves what it promises.

Each concurrent component is a transition system. Every goroutine has a program counter, a step is one
access to shared state (a lock section, an atomic operation, a channel operation or an external call), and
an event that is not enabled changes nothing. A run is therefore *any* finite sequence of events, and the
theorems hold for every run: all interleavings, any number of goroutines, every outcome of every external
call. Code that changes an object step by step is a class with methods proved against specification
functions; where an object is shared by goroutines, its methods are stated with the transition functions of
the concurrent model.

| module | models |
|---|---|
| `GateProtocol`, `GateSafety`, `GateInstances`, `GateDrain`, `GateSweep`, `GateIdle`, `GateUse`, `GateObject`, `GateRemap` | `internal/xray/gate.go` |
| `ResultBuffer`, `BatchRunner`, `BatchOutcomes`, `BatchSafety`, `BatchDuplicates`, `ProbeDialer`, `TunnelGraph` | `internal/probe/probe.go`, `internal/probe/urltest.go` |
| `Reporter`, `ReporterProgress` | `mobile/test.go` |
| `Framing`, `Dispatch` | `internal/rpc/dispatch.go` |
| `WaitLoop` | `internal/probe/probe.go`, `internal/rpc/vpnstatus.go` |
| `LogPump` | `mobile/log.go` |
| `SystemDns`, `DnsRecovery` | `internal/boxdns/dns_manager_windows.go` |
| `Lifecycle`, `LifecycleOwnership` | `internal/rpc/lifecycle.go`, `internal/rpc/state.go`, `internal/rpc/xray.go` |
| `FanOut`, `TestEnv` | `internal/rpc/xray.go`, `internal/rpc/testenv.go` |
| `Resources` | what Start and the test environment create and close, with the record of every creation and close |
| `Common` | the optional value, counting and slices |

Where the code does not do what one might expect, the code is modelled as it is and the exact condition is
proved, with a lemma that shows what happens outside it:

- Start clears the published box even when it refuses because a box is already up, and an Xray failure
  leaves the extra process running (`internal/rpc/lifecycle.go:29-36`, `50-112`). What runs equals what the
  slots hold if and only if every Start was issued with no box published and replaced no running process:
  `LiveMatchesSlots`, `RefusedStartOrphansBox`, `XrayFailureLeavesProcess`.
- Batch results are keyed by tag, so a batch leaves none of its own results buffered if and only if the tags
  are distinct: `LeavesNothingIffDistinct`, `OlderTwinStays`.
- The sweeper reads the counter and takes the instance in separate steps, so a handler arriving in between
  loses its instance. A handler is counted at the take if and only if its increment came after the read and
  its decrement has not: `TakeHitsLateArrivals`, with a run that shows the loss, `LateArrivalLosesInstance`.
- The DHCP check treats an error as "not DHCP" and an unreadable registry value as "DHCP", so a set can lose
  the original configuration. One restore undoes one set if and only if `SetIsReversibleIff`'s condition
  holds, and over a whole run every interface stays recoverable if and only if every set was harmless where
  it happened: `AlwaysReversible`. `UnreadableErasesList` shows the loss of a static list.
- `lastIfc` moves only in SetSystemDNS, so two interfaces can be marked at once. What each event does to the
  set of marked interfaces, and that there are never two if and only if every event passes a guard, are
  `MarksAfter` and `NeverTwoIff`; `TwoInterfacesMarked` shows the failure on every manager with three
  interfaces.
- A Stop that fails to give the system resolver back forgets it: `ResolverIsGivenBack` has the exact condition,
  `FailedUnsetForgetsResolver` the loss.
- A response survives the wire if and only if its length fits the u32 field: `ResponseRoundTrip`.
- The comment at `internal/xray/gate.go:99` says outbounds reach Xray byte for byte. The JSON encoder
  rewrites white space, so the model claims that every value is preserved.
- The comment at `internal/rpc/state.go:24` says exactly one of two Xray slots is set while a profile runs.
  Neither is when the profile needs no Xray; the proved statement is that both never are.

Assumptions about the outside: no two open listeners share a host and port; SetDNS keeps only IPv4 servers
for the IPv4 family, an empty list means DHCP, and DNS lists IPv4 servers before IPv6 ones; a DHCP lease
contains no marker address; an endpoint's change channel is closed by the next change of its status.

## Model

| member | source | states |
|---|---|---|
| GateSafety.InvAlways | internal/xray/gate.go:158-329 | the inductive invariant of the gate (lock, close, tracking, ownership and counter parts) holds after every run |
| GateSafety.NoConnectionLeaks | internal/xray/gate.go:194-245 | in every reachable state the map, while not nil, is exactly the tracked connections; every open connection has a handler that still owes its close; when all handlers are done everything accepted or dialed is closed |
| GateSafety.CloseLeavesNothingToWaitFor | internal/xray/gate.go:165-192 | when the winning Close is finished no listener accepts, nothing can be tracked, and both ends of every running relay are closed |
| GateInstances.InstancesConserved | internal/xray/gate.go:256-308 | every instance ever created is in exactly one of five places (installed, being built, with one closer, with the sweeper, closed) and is closed at most once |
| GateInstances.ClosedForGood | internal/xray/gate.go:165-174 | once closed, on every continuation: nothing installed, no instance created, the mutex free |
| GateInstances.EveryInstanceClosedOnce | internal/xray/gate.go:165-192 | after the winning Close, all handlers and the sweeper, every instance ever created has been closed exactly once |
| GateDrain.TornDownProgress | internal/xray/gate.go:204-245 | after teardown every unfinished handler can move without a peer's help, and no event undoes progress |
| GateDrain.TeardownIsBounded | internal/xray/gate.go:204-245 | after teardown the handlers take a bounded number of steps between them, whatever the schedule |
| GateDrain.HandlersFinish | internal/xray/gate.go:204-245 | from a torn-down gate, handler steps alone bring every handler to its end |
| GateDrain.GateEmpties | internal/xray/gate.go:165-245 | from any reachable state with Close finished, handler steps alone reach a state in which everything ever opened is closed |
| GateDrain.GateEnds | internal/xray/gate.go:165-308 | from any reachable state with Close finished, handler and sweeper steps alone reach a state in which all of them have ended, everything ever opened is closed and every instance ever created was closed exactly once |
| GateSweep.SweepIntervalFor | internal/xray/gate.go:23-31 | 2 seconds for idle limits under 4 seconds, 15 seconds from 30 seconds on and without a limit, half the idle limit, rounded down, in between |
| GateSweep.ReadSawNobody | internal/xray/gate.go:284-297 | a sweeper on its way to taking an instance got there by a tick that read the counter when no handler was between its increment and decrement |
| GateSweep.TakeHitsLateArrivals | internal/xray/gate.go:291-301 | when the sweeper takes an instance, a handler is counted if and only if its increment is among the events since that tick's counter read and its decrement is not |
| GateIdle.TickSweeps | internal/xray/gate.go:284-306 | whatever is interleaved, short of counting a handler or closing the gate, a tick that reads the clock at or after last use plus idle and makes two more steps leaves the instance closed exactly once |
| GateIdle.NotSweptEarly | internal/xray/gate.go:292-297 | under the same interleavings, without such a tick the instance stays installed |
| GateIdle.UnusedInstanceIsSwept | internal/xray/gate.go:284-308 | with timely ticks, under the same interleavings, the instance is closed once by a tick that reads the clock no later than last use plus idle plus one sweep interval |
| GateIdle.ReachableIsUnused | internal/xray/gate.go:284-312 | every reachable open gate with an idle limit, an installed instance and no counted handler is one these results speak of |
| GateUse.LastUseIsLastTouch | internal/xray/gate.go:310-312 | in every run the last use is the clock at the latest touch, and a handler touches right after it is counted and right after it is uncounted |
| GateUse.DepartureIsAUse | internal/xray/gate.go:217-220 | in every run, once a departed handler has touched, the last use is no earlier than the clock at its decrement |
| GateUse.SweepWaitsOutDepartures | internal/xray/gate.go:292-297 | a clock read that finds the gate expired comes at least the idle limit after the decrement of every handler that has left and touched |
| GateUse.NoLimitNoSweep | internal/xray/gate.go:292-294 | without a positive idle limit the sweeper never gets past its tick, in any run |
| GateUse.OpenGateAccepts | internal/xray/gate.go:194-202 | an open gate accepts on every bridge in every reachable state, with a handler for each connection |
| GateSweep.LateArrivalLosesInstance | internal/xray/gate.go:292-301 | a run in which a counted handler, told the instance is up, has lost it to the sweeper |
| GateObject.Gate.constructor | internal/xray/gate.go:72-79 | a new gate's fields are the transition system's initial state |
| GateObject.Gate.Track | internal/xray/gate.go:315-323 | tracks on an open gate, refuses on a closed one |
| GateObject.Gate.Forget | internal/xray/gate.go:325-329 | removes the connection if there is a map |
| GateObject.Gate.Ensure | internal/xray/gate.go:256-282 | the installed instance afterwards, the instances created and closed on the way, and success or failure |
| GateObject.Gate.Handle | internal/xray/gate.go:204-245 | a handler leaves the tracked set and the counter as it found them, closes its client, opens an upstream only to close it, and leaves the moment it left as the last use |
| GateObject.Gate.Relay | internal/xray/gate.go:226-245 | the upstream is opened and closed and the tracked set is as before |
| GateObject.Gate.Close | internal/xray/gate.go:165-192 | the first call closes the listeners, every tracked connection and the installed instance once; any later call changes nothing |
| GateObject.Gate.SweepTick | internal/xray/gate.go:291-305 | a tick takes and closes the instance exactly when there is one, idle is positive, nobody is counted and it is unused for idle |
| GateObject.EnsureRuns | internal/xray/gate.go:256-282 | the transition system has a run of one handler that does to the state what Ensure does to the fields |
| GateObject.HandleRuns | internal/xray/gate.go:204-245 | the transition system has a run of one handler from accept to its end, with time passing while it relays, that does to the state what Handle does to the fields |
| GateObject.CloseRuns | internal/xray/gate.go:165-192 | the transition system has a run of one closer that does to the state what Close does to the fields |
| GateRemap.DecodesExactly | internal/xray/gate.go:105-110 | decoding yields exactly the config's inbounds, item by item, and fails exactly when there is no such list |
| GateRemap.GateableExactly | internal/xray/gate.go:111-132 | a config can be gated exactly when it lists inbounds, at least one, each with a positive number as its port |
| GateRemap.ChoosePorts | internal/xray/gate.go:115-144 | chosen targets are pairwise distinct, were free, and are on the host each inbound asks for; every rewritten inbound has the new port and all other fields as they were; it stops early only at an inbound without a positive numeric port or when the OS turns a request down |
| GateRemap.RemapInbounds | internal/xray/gate.go:100-156 | every top-level value but inbounds and every inbound field but port is kept and nothing is added, pair i joins the address inbound i asks for (its listen string or 127.0.0.1, its port cut to a whole number) to its new port, all probe listeners are released, and it fails only on configs it never accepts or when the OS turned a request down |
| GateRemap.CloseAll | internal/xray/gate.go:117-121 | the clean-up loops return the OS to the listeners it had before |
| GateRemap.StartGate | internal/xray/gate.go:63-97 | the gate has a rewriting that passes the check and listens on every address its inbounds ask for, all distinct and previously free, or nothing has changed and the config could not be gated, its rewriting failed the check, or the OS turned a request down |
| Framing.ReadBack | internal/rpc/dispatch.go:35-39 | reading what was written little-endian gives the value modulo the field width |
| Framing.WriteBack | internal/rpc/dispatch.go:52-75 | every byte string is the encoding of the number it reads as |
| Framing.ByteOrder | internal/rpc/dispatch.go:28 | byte k of an encoded number is its k-th digit to the base 256 |
| Framing.RequestLayout | README.md:39-42 | where each field of a request frame is |
| Framing.ResponseLayout | README.md:39-42 | where each field of a response frame is |
| Framing.FrameIsEncoding | internal/rpc/dispatch.go:51-75 | a frame is found if and only if the bytes begin with the encoding of a request that fits the field widths |
| Framing.ParseSplits | internal/rpc/dispatch.go:51-75 | any byte stream is the encodings of the requests parsed plus a rest with no whole frame at its head |
| Framing.EncodedParses | internal/rpc/dispatch.go:51-75 | encodings followed by such a rest parse back to what was encoded |
| Framing.ParseInvertsEncode | README.md:39-42 | the parser yields rs and stops at rest if and only if the stream is the encodings of fitting rs followed by a rest without a whole frame |
| Framing.CutFrameIsNone | internal/rpc/dispatch.go:51-75 | a frame cut short anywhere is no frame |
| Framing.RoundTrip | internal/rpc/dispatch.go:51-75 | with or without a truncated tail exactly the complete requests come out |
| Framing.ResponseRoundTrip | internal/rpc/dispatch.go:35-49 | a peer reads the response back if and only if its data length fits 32 bits |
| Framing.CutResponseIsNone | internal/rpc/dispatch.go:35-49 | part of a response is not mistaken for one |
| Framing.Conn.ReadFull | internal/rpc/dispatch.go:62-65 | succeeds exactly when enough bytes are left and returns the next n, however the stream is cut |
| Framing.ReadRequest | internal/rpc/dispatch.go:52-75 | five reads yield exactly the frame at the head of the stream and consume exactly its bytes |
| Framing.Serve | internal/rpc/dispatch.go:51-92 | the requests started depend on the bytes alone and are all complete frames in order |
| Dispatch.RunExplains | internal/rpc/dispatch.go:33-49 | while writes succeed the output is the frames of the finished goroutines in some order plus what the lock holder has written |
| Dispatch.AnswersAreTheHandlers | internal/rpc/dispatch.go:77-91 | every response was fixed by the end of its own request's handler: status 0 and the reply exactly for a known method that replied, otherwise status 1 and the error, panic or unknown-method text, always under the request's id |
| Dispatch.ResponsesStayWhole | internal/rpc/dispatch.go:33-91 | every finished request has exactly one complete frame in the output, holding the answer its handler's end calls for, and a peer decodes exactly those |
| Dispatch.AnswersGetOut | internal/rpc/dispatch.go:35-49 | from every reachable state, after failed writes too, a request that has its answer can get it out |
| Dispatch.PeerReads | internal/rpc/dispatch.go:35-49 | a peer reading concatenated response frames gets exactly those responses |
| Dispatch.FinishedOnce | internal/rpc/dispatch.go:77-91 | a finished request keeps its one response on every continuation |
| Dispatch.AnswersTheFrames | internal/rpc/dispatch.go:51-92 | from bytes to bytes: with the complete frames of the input handed out in order, the output is one whole frame per finished request, holding under that frame's id the answer its handler's end calls for; a peer decodes exactly those, and every frame is answered once all are finished |
| LogPump.Pump.Push | mobile/log.go:64-80 | ignores lines without a sink, drops the oldest line at the limit, keeps the order, leaves a token |
| LogPump.Pump.SetSink | mobile/log.go:54-62 | sets the sink, starts the consumer at most once and leaves a token for a non-nil sink |
| LogPump.Pump.Deliver | mobile/log.go:89-105 | one pass hands the sink exactly the queued lines in order and empties the queue; without a sink it drops them |
| LogPump.NoLineIsStuck | mobile/log.go:54-105 | lines pending with a sink set always have a token, a caller yet to wake, or a consumer that will swap again |
| LogPump.DeliveredInOrder | mobile/log.go:64-105 | delivered lines are an order-preserving, duplicate-free selection of the accepted ones |
| LogPump.LostOnlyByOverflowOrNoSink | mobile/log.go:64-105 | no accepted line is lost if and only if no push overflowed and no swap found the sink gone |
| LogPump.QueueIsBounded | mobile/log.go:70-77 | the queue stays within the largest limit in force so far |
| LogPump.QueueWithinLimit | mobile/log.go:70-77 | an unchanged limit bounds the queue, by itself if positive and by 1024 if not |
| LogPump.PushKeepsNewest | mobile/log.go:70-77 | a push at the limit costs exactly one line, below it none, and keeps the newest |
| LogPump.QueueHoldsNewest | mobile/log.go:64-80 | in every run the queue is the newest of the accepted lines, so what was dropped was older |
| LogPump.SinkAndLines | mobile/log.go:48-80 | in every run the sink and the limit in force are those set last, and the accepted lines are those pushed while there was a sink |
| LogPump.DeliveredToTheSink | mobile/log.go:89-105 | every line went to the sink that was set when the queue holding it was swapped out |
| WaitLoop.InvAlways | internal/rpc/vpnstatus.go:219-282 | the invariant of both loops and of the fan-out holds after every run |
| WaitLoop.NoLostWakeUp | internal/probe/probe.go:300-319 | a blocked loop can wake if the endpoint has changed since it subscribed, and otherwise holds the endpoint's current status; and that status is none of those the loop returns for |
| WaitLoop.BlocksOnlyUndecided | internal/rpc/vpnstatus.go:219-242 | the status loop blocks only with a positive timeout on a status that is not up, not an error and has no challenge; the handshake loop only on one that is not connected, error or waiting for authentication |
| WaitLoop.DecidedStatusReturns | internal/rpc/vpnstatus.go:231-235 | a subscribed loop whose endpoint's current status is one of those gives that status with its next move |
| WaitLoop.ChangeWakes | internal/rpc/vpnstatus.go:230-237 | a change of the endpoint wakes every loop blocked on it and is what the endpoint then shows |
| WaitLoop.StopReleases | internal/rpc/vpnstatus.go:238-241 | a blocked loop whose timer has fired or whose context is cancelled can return the status it holds |
| WaitLoop.StatusesAreSnapshots | internal/rpc/vpnstatus.go:223-244 | whatever a loop blocks on or returns was the endpoint's current status when the loop read it |
| WaitLoop.SettledEndpointReleases | internal/rpc/vpnstatus.go:229-243 | once an endpoint is up, in error or challenged (connected, error or waiting for authentication for the handshake), three moves of its own take a blocked loop to that status |
| WaitLoop.UnsettledOnlyIfStopped | internal/rpc/vpnstatus.go:223-244 | a waiting loop returns a status that is none of those if and only if it returned through its timer case, with the timer fired, or its context case, with the context cancelled |
| WaitLoop.NilIffConnected | internal/probe/probe.go:300-319 | await returns nil if and only if the status it last saw is connected, the endpoint's own text for an error, and the waiting text for pending authentication; and that status really occurred |
| WaitLoop.AnswersPositionByPosition | internal/rpc/vpnstatus.go:265-282 | answer i carries tag i and is, for an unresolvable tag, not up with the reason it did not resolve, or else a status that endpoint really had |
| SystemDns.SetIsReversibleIff | internal/boxdns/dns_manager_windows.go:84-225 | the exact condition under which one restore undoes one set, for every interface and every way the DHCP check can go, including errors and an unreadable registry value |
| SystemDns.UnreadableErasesList | internal/boxdns/dns_manager_windows.go:119-125 | on every interface with a static list, a set with an unreadable registry value followed by a restore erases the list |
| SystemDns.RestoreDecodes | internal/boxdns/dns_manager_windows.go:141-166 | restoring a marked interface gives DHCP for the DHCP marker and the carried list for the other |
| SystemDns.MarkedFormIs | internal/boxdns/dns_manager_windows.go:17-22 | the marked form address by address: 127.1.1.1, the servers in force, then 127.3.2.1 for a static list or 127.1.2.3 for DHCP |
| DnsRecovery.OneRestoreRecovers | internal/boxdns/dns_manager_windows.go:128-174 | one restore brings back the original from any recoverable configuration |
| DnsRecovery.SetMarksOnce | internal/boxdns/dns_manager_windows.go:176-225 | a set with a working check gives the marked form with the local resolver first, stays recoverable, and is idempotent |
| DnsRecovery.SetKeepsIff | internal/boxdns/dns_manager_windows.go:176-225 | a set keeps the original recoverable if and only if the check's outcome is harmless: an unreadable value only without a static list, an error only on a marked or static interface or one without leased servers |
| DnsRecovery.AlwaysReversible | internal/boxdns/dns_manager_windows.go:26-41 | over any sequence of sets, clears, interface changes, OS errors and lease renewals every interface is at every moment its original or a marked form of it if and only if every set was harmless, and then one restore returns the original |
| DnsRecovery.MarksAfter | internal/boxdns/dns_manager_windows.go:26-41 | the exact effect of every event on the set of marked interfaces, in any state, OS errors included |
| DnsRecovery.OneMarkIff | internal/boxdns/dns_manager_windows.go:26-41 | an event leaves at most one interface marked if and only if whatever is marked and not being restored is what is being set |
| DnsRecovery.ChangeGuard | internal/boxdns/dns_manager_windows.go:31-39 | for a change of interface while set, that guard says every marked interface other than the last set one is the new one |
| DnsRecovery.NeverTwoIff | internal/boxdns/dns_manager_windows.go:227-252 | over every run two interfaces are never marked at once if and only if every event passes the guard where it happens |
| DnsRecovery.TwoInterfacesMarked | internal/boxdns/dns_manager_windows.go:242-250 | on every manager with three interfaces, a run after which exactly two are marked |
| DnsRecovery.SetAsLastAsked | internal/boxdns/dns_manager_windows.go:242-250 | in every run DNS counts as set exactly if the latest call that found an interface set it, and the last interface is that of the latest set |
| DnsRecovery.ClearedStaysClear | internal/boxdns/dns_manager_windows.go:31-39 | after a clear and until the next set no event marks anything |
| SystemDns.DnsManager.Scan | internal/boxdns/dns_manager_windows.go:189-199 | the loop keeps the unmarked servers in order and remembers the last marker |
| SystemDns.DnsManager.RestoreOn | internal/boxdns/dns_manager_windows.go:128-174 | writes exactly the decoded configuration, or nothing without a marker or on an OS error |
| SystemDns.DnsManager.SetOn | internal/boxdns/dns_manager_windows.go:176-225 | writes exactly the marked configuration for every outcome of the DHCP check, or nothing on an OS error |
| SystemDns.DnsManager.HandleSystemDNS | internal/boxdns/dns_manager_windows.go:26-41 | re-marks or restores the new interface and restores the last set one if it differs |
| SystemDns.DnsManager.SetSystemDNS | internal/boxdns/dns_manager_windows.go:227-252 | sets or clears the given or default interface, remembers it on set, fails exactly when there is none |
| ResultBuffer.WithoutMembers | internal/probe/probe.go:99-105 | the filter keeps exactly the results that are not the batch's own |
| ResultBuffer.WithoutWithin | internal/probe/probe.go:96-105 | kept plus reclaimed are what was there |
| ResultBuffer.EveryResultAccountedFor | internal/probe/probe.go:71-106 | over any history each published result is in exactly one of buffered, drained and reclaimed |
| ResultBuffer.Buffer.AddResult | internal/probe/probe.go:71-75 | appends, whether in place or into a larger array |
| ResultBuffer.Buffer.Results | internal/probe/probe.go:77-83 | hands over the whole contents and starts from a fresh array |
| ResultBuffer.Buffer.Reclaim | internal/probe/probe.go:86-106 | the in-place filter equals the order-preserving filter |
| ResultBuffer.Buffer.Perform | internal/probe/probe.go:66-106 | after any history the contents are as accounted, and every slice ever handed out still reads what it read then |
| BatchRunner.NormalizeConcurrency | internal/probe/probe.go:114-119 | the requested limit when it lies in 1 to 499, else 100 |
| BatchRunner.CollectResults | internal/probe/probe.go:168-176 | one result per tag in order, the stored one wherever there is one |
| BatchOutcomes.ResultsCarryOutcomes | internal/probe/probe.go:137-163 | on every schedule a skipped position's result says aborted, and any other's is what its own probe returned, or not found |
| BatchOutcomes.CancelAbortsTheRest | internal/probe/probe.go:136-147 | once the context is cancelled every position the loop has not committed to is aborted |
| BatchOutcomes.StartedIsNotSkipped | internal/probe/probe.go:137-148 | a position that has been started is never aborted by the loop |
| BatchOutcomes.BookIsLedger | internal/probe/urltest.go:42-45 | on every schedule the shared buffer, what readers got and what was reclaimed are what the result buffer's ledger makes of the operations in order |
| BatchSafety.InvAlways | internal/probe/probe.go:122-177 | the invariant of the batch holds on every schedule |
| BatchSafety.BatchRunsWithinBounds | internal/probe/probe.go:122-166 | probes in flight never exceed the limit, aborted positions are a suffix, each position is published at most once and only by its own worker, and every published result is accounted for |
| BatchSafety.BatchAnswersEveryTag | internal/probe/urltest.go:21-46 | one result per tag in order, each found in the result map so that the fallback is never taken, saying aborted for a skipped position and otherwise what its probe came to; aborted positions published never and all others once; with distinct tags result i is position i's and none stays buffered |
| BatchSafety.BatchAlwaysProgresses | internal/probe/probe.go:122-177 | no schedule wedges the batch: until it returns something can move, and every move lowers a bound nothing else raises |
| BatchDuplicates.LeavesNothingIffDistinct | internal/probe/probe.go:128-132 | no schedule leaves one of the batch's own results buffered if and only if the tags are distinct |
| BatchDuplicates.OlderTwinStays | internal/probe/probe.go:128-132 | for any two equal tags, a schedule after which the older result stays buffered |
| Reporter.UrlTestReporter.Report | mobile/test.go:195-207 | passes a result on exactly when its tag was requested and not yet reported |
| Reporter.UrlTestReporter.ReportAll | mobile/test.go:209-213 | the drain loop reports a whole slice in order |
| Reporter.EachTagReportedOnce | mobile/test.go:177-238 | under every interleaving no tag is reported twice and no foreign one at all, and at the end each requested tag was reported exactly once |
| Reporter.ReportsTheBatchResult | mobile/test.go:215-238 | with distinct tags nobody else uses, what the handler gets for a tag is the very result the batch returns for it, and says aborted or what that tag's probe came to |
| Reporter.TicksReport | mobile/test.go:209-230 | a drained slice reaches the handler as the ticker goes through it: n ticker steps later its first n results have been reported if requested, whatever else happened |
| Reporter.DrainsTakeAll | mobile/test.go:209-234 | a tick and the last drain take everything buffered |
| Reporter.LastDrainReports | mobile/test.go:234-237 | the last drain reaches the handler result by result, before the batch's return value is looked at |
| ReporterProgress.ReporterFinishes | mobile/test.go:215-238 | from every reachable state moves of the batch, the ticker and the reporter alone lead to the reporter's end, with every requested tag reported exactly once |
| ProbeDialer.EveryConnInOnePlace | internal/probe/probe.go:181-221 | each connection ever dialed is in exactly one place: with its dial, handed out and tracked, given to a close goroutine, or closed once |
| ProbeDialer.ClosedHandsOutNothing | internal/probe/probe.go:199-208 | after Close no dial hands out its connection, however far along it was |
| ProbeDialer.AllClosedOnce | internal/probe/probe.go:181-221 | at the end every connection made has been closed exactly once |
| ProbeDialer.DialsEndAsTheyFound | internal/probe/probe.go:188-209 | in every run a dial is refused only if it found the dialer closed before dialing, and its connection is handed out if it found it open afterwards and withdrawn if closed |
| ProbeDialer.ClosedIffCalled | internal/probe/probe.go:212-217 | the dialer is closed exactly once Close has been called |
| ProbeDialer.Dialer.Refuses | internal/probe/probe.go:189-194 | the first lock section is the transition of a dial that asks |
| ProbeDialer.Dialer.Keep | internal/probe/probe.go:199-208 | the second lock section is the transition of a dial whose connection exists |
| ProbeDialer.Dialer.Close | internal/probe/probe.go:212-221 | takes every tracked connection for closing and closes the dialer |
| TunnelGraph.TunnelEndpoints | internal/probe/probe.go:246-269 | terminates on any graph and returns each endpoint reachable through found outbounds exactly once and nothing else |
| TunnelGraph.VisitedIsReached | internal/probe/probe.go:249-268 | when the stack is empty the visited outbounds are exactly the reachable ones |
| TunnelGraph.ClosedHoldsPath | internal/probe/probe.go:252-267 | a set closed under dependencies holds the end of every path that starts in it |
| TunnelGraph.FirstRequestTimeout | internal/probe/probe.go:336-347 | adds the startup allowance exactly when cold and some reachable tunnel has no handshake |
| Lifecycle.Core.Start | internal/rpc/lifecycle.go:23-170 | the new slots, resources, mark and DNS state, and success, are those of the specification the ownership theorems are about |
| Lifecycle.Core.StartProcess | internal/rpc/lifecycle.go:50-77 | the process slot and what runs after each way the extra process can go |
| Lifecycle.Core.StartXray | internal/rpc/lifecycle.go:85-112 | a gate, an instance or a failure that leaves no instance up |
| Lifecycle.Core.StartFullGates | internal/rpc/lifecycle.go:114-123 | all full gates in the slot, or all Xray slots closed |
| Lifecycle.Core.CloseXray | internal/rpc/xray.go:43-59 | empties the three slots and closes what they held, gate first and instance last |
| Lifecycle.Core.StopProcess | internal/rpc/lifecycle.go:127-130 | empties the slot and ends the process if it runs |
| Lifecycle.Core.Stop | internal/rpc/lifecycle.go:172-211 | without a box nothing changes; otherwise DNS, box, process, Xray and mark are given up in that order |
| LifecycleOwnership.StartKeeps | internal/rpc/lifecycle.go:23-170 | in any state of any run, exactly what Start stops owning without closing, and exactly when it succeeds |
| LifecycleOwnership.StopKeeps | internal/rpc/lifecycle.go:172-211 | Stop never stops owning anything without closing it, and holds nothing afterwards if a box was up |
| LifecycleOwnership.NothingClosedTwice | internal/rpc/lifecycle.go:23-211 | over every run whatever was created is live or closed, nothing is closed twice, eager instance and sidecar gate are never both held, slots hold live things, no box means mark 0 |
| LifecycleOwnership.LiveMatchesSlots | internal/rpc/state.go:15-68 | what runs is exactly what the slots hold if and only if every Start was safe |
| LifecycleOwnership.StartAllOrNothing | internal/rpc/lifecycle.go:45-169 | a safe Start succeeds exactly when every step does and then runs exactly what was asked, with the mark and the resolver as asked; a failed one leaves nothing, or exactly the extra process under the stated condition |
| LifecycleOwnership.StopLeavesNothing | internal/rpc/lifecycle.go:172-211 | after Stop the mark is 0 and nothing runs, unless no box was up and a failed Start had left its process |
| LifecycleOwnership.StopCloses | internal/rpc/lifecycle.go:190-208 | the order in which Stop closes: box, extra process, sidecar gate, full gates, eager instance; and the resolver is given back if the unset call works |
| LifecycleOwnership.IdleMeansNothingLive | internal/rpc/lifecycle.go:23-211 | in safe runs without extra processes, no published box means nothing is live and the mark is 0 |
| LifecycleOwnership.ResolverIsGivenBack | internal/rpc/lifecycle.go:162-196 | in every run a resolver taken over is never forgotten if and only if no Stop fails to give it back; in safe runs without such a failure it is back whenever no box is up |
| LifecycleOwnership.FailedUnsetForgetsResolver | internal/rpc/lifecycle.go:190-198 | a Stop whose unset call fails leaves the resolver taken and unmarked |
| LifecycleOwnership.RefusedStartOrphansBox | internal/rpc/lifecycle.go:29-48 | a run in which a refused Start leaves a live box that Stop does not reach |
| LifecycleOwnership.XrayFailureLeavesProcess | internal/rpc/lifecycle.go:71-112 | a run in which an Xray failure leaves the extra process running after Stop |
| FanOut.InvAlways | internal/rpc/xray.go:62-108 | the invariant of the gate fan-out holds on every schedule |
| FanOut.AllGatesOrNone | internal/rpc/xray.go:62-108 | every gate open in config order and none closed, or none open, each opened one closed once, and the first failed config's error returned; at most one start per CPU runs behind the limiter |
| FanOut.ResultFollowsOutcomes | internal/rpc/xray.go:79-107 | on every schedule gates are returned only if every config can start, the error is that of the first config that cannot, and the gates opened on the way are none if that is the first config and otherwise every one that can start |
| FanOut.AlwaysReturns | internal/rpc/xray.go:86-107 | no schedule wedges the fan-out: until it returns something can move, and every move lowers a bound |
| TestEnv.ReleasesEach | internal/rpc/testenv.go:44-91 | whatever fails and wherever, what is closed is exactly what was created, each once: two lists without repeats over the same resources |
| TestEnv.NothingIsLeft | internal/rpc/testenv.go:44-91 | after a failure or after the environment's close exactly what was live before is live, and everything created since has been closed since, once |
| TestEnv.HoldsWhatWasAsked | internal/rpc/testenv.go:55-91 | a successful environment holds sidecar, full instances and box, created in that order and released box first and sidecar last |
| TestEnv.FailureCloses | internal/rpc/testenv.go:55-82 | what each failure closes, in order: the failed sidecar; or the failed full instance, the started ones in config order and the sidecar; or all full instances in config order and the sidecar |
| TestEnv.CurrentAcquiresNothing | internal/rpc/testenv.go:27-42 | measuring the running box succeeds exactly when there is one and acquires nothing |
| TestEnv.CloseInstances | internal/rpc/xray.go:143-147 | closes each given instance once, in order |
| TestEnv.StartInstance | internal/rpc/testenv.go:55-71 | an instance up, or none and a created one closed again |
| TestEnv.StartFullConfigs | internal/rpc/xray.go:19-40 | all instances up in config order and nothing closed, or the failed one closed first and then the started ones in config order |
| TestEnv.Unwind | internal/rpc/testenv.go:49-53 | closes exactly what the clean-ups hold, each once, in reverse order of registration |
| TestEnv.PrepareTestEnv | internal/rpc/testenv.go:18-91 | exactly what is created and in which order; success exactly when every step works, with clean-ups that close exactly the release list; on failure exactly that list has been closed: failed instance, started full instances, sidecar |
| TestEnv.UseTestEnv | internal/rpc/testenv.go:18-91 | on every path, failure included, what was acquired is closed in the stated order and nothing of it is live afterwards |

## Left out

- The sing-box, Xray, speed-test and protobuf libraries: they are abstract resources or opaque handlers with create, start, answer and close outcomes.
- The goroutine-crossing code of gate, batch, reporter, dialer, dispatcher, wait loops, log consumer and gate fan-out is modelled as transition systems on values, which is what the interleaving theorems need; Go's memory model below the level of lock sections and atomics is not modelled, and unfair schedulers are covered only by the progress lemmas stated.
- GateObject.Gate.Handle: runs the handler by itself; the bytes relayed and the half-close on EOF are not modelled. What other goroutines do in between is the subject of the transition system.
- GateRemap.RemapInbounds: works on abstract JSON values; white space, number spelling and duplicate keys are not modelled, and re-encoding is assumed not to fail.
- Dispatch.ResponsesStayWhole: says nothing about the output after a failed write, where the code gives up on the frame and waits for the next read to fail.
- DnsRecovery.AlwaysReversible: assumes that no lease contains a marker address; nothing is assumed of the DHCP check.
- BatchRunner.CollectResults: a probe returning nil is not modelled; the probes of the repository never do.
- Lifecycle.Core.StartFullGates: takes the result of the fan-out as one step with gates numbered in config order; its schedules are FanOut's.
- Lifecycle.Core.Stop: an extra process that exits by itself, and the removal of its temporary files, are not modelled.
- TestEnv.PrepareTestEnv: the choice of outbound tags is not modelled, only what is acquired and released.
- liveXrayInstances, status-to-proto conversion, iterators, config mark lookup and stubs: easy members.
- internal/boxbox and internal/boxmain: long wiring of library managers with fixed, finite stage lists.
- HTTP probing, speed-test sampling, bitrate strings, diagnostics archives, dashboard unzip, WARP registration and rule-set updates: I/O or library calls with easy loops around them.
- internal/winipcfg, process spawning, parent checks and IPC sockets: foreign calls, present only through the contracts listed above.
- The mobile copies of the gate fan-out and the test environment: duplicates of the rpc versions.
