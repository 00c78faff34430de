# A Dafny model of tun-over-ws

tun-over-ws is a layer-3 overlay VPN whose packets travel over WebSocket connections. This project models its two packet
schedulers (the relay and the client's connection pool), its two address allocators with the device table behind them,
and the smaller stateful algorithms around them, and proves what they keep over every run.

## How the model is built

- **Concurrent parts are state machines.** `RelayModel` and `PoolModel` take every lock-protected body as one step. An
  enqueue call advances through control points, one for each channel operation or unlocked read, and connections may
  close, die, drain, register, leave, or be built between any two of them. A write loop takes a packet in one step and
  ends its write in another. A connection of the relay has at most one enqueue call in flight, because its read loop
  forwards one packet before it reads the next. A run is any sequence of such steps.
- **Every step is also pinned from outside.** `RelayDelivery.Goes` and `PoolDelivery.Goes` say by protocol number, flag
  bits and queue lengths on which queues a packet may end up; the steps of a call reach exactly those. `RelayExpiry`,
  `PoolExpiry`, `PoolAge`, `PoolUdp`, `RelayEvents` and `PoolEvents` do the same for the flow table over time, for
  rotation by age, load and latency, for the order in which UDP is offered, and for the events around the calls. They
  state thresholds as numbers and outcomes on the fields of the states before and after.
- **Both schedulers are judged by one history.** `EventLog` records which queue accepted which packet and when
  connections went away or bindings expired. `Standing` reads off that history the connection the next packet of a flow
  has to use, `Stretch` the packets since the flow was last released; both know nothing of the flow table.
- **Objects that methods update are classes.** `RelayServer`, `PoolClient`, `VipAllocator`, `Devices`, `LoginLimiter`,
  `ConnState` and `TimeoutDetector` hold the fields of the originals. The contracts of the first three equate the new
  state with the very functions the state machines step by, so the theorems about runs speak about those bodies. Methods
  that only make that link (`ScheduleBuild`, `PromoteStandby`, `FinishBuild`, `WatchPressure`, `WatchLatency`,
  `WatchCritical`) have no row in the table. In-place algorithms (`removeConn`, the compaction in
  `loginLimiter.Allow`, `nextAddr`, `broadcastAddr`, the ring buffer) work on arrays.
- **Pure parts are functions.** `Packet` parses, and is compared with an encoder of the header formats of section 3.1 of
  RFC 791 and section 3.1 of RFC 9293.

Conventions: addresses are integers below 2^32 with explicit wrap-around; octets are integers below 256; times and
durations are nanoseconds and the clock never goes backwards; rates and weights are real numbers; "at least four fifths
full" is written `5 * len >= 4 * cap`.

## What turned out to need a condition

- **Relay flow order needs a single sender connection.** `handleConn` lets several connections share one virtual
  address, each with its own read loop, so two calls of one flow can overlap. `RelayOverlap.OverlapSplitsAFlow` gives,
  for every overlay, every usable pair of addresses and every queue capacity, a run from the empty relay in which two
  connections send the same SYN and the copies end up on two open clients with nothing released in between.
  `RelaySenders.OrderHoldsIffOneSender`: flow order holds in every run with at most n registered connections of the
  sender's address exactly for n <= 1. `RelayRetries.BoundHoldsIffOneSender` says the same of the number of `continue`s;
  `RelayRetries.RetriesWithoutBound` is the run for two connections. The pool has a single pump, so its flow order needs
  no such condition.
- **The critical latency counter can run ahead.** `monitorTick` reads the smoothed write latency twice, and
  `RecordWrite` does not hold the pool's lock. When a write completes between the two readings the latency stage may see
  a low value and the critical stage a high one. `PoolLatency.CriticalRunsAhead` is a run, with a tick every second and
  one packet that takes six seconds to write, in which the critical counter exceeds the latency counter and the primary
  is rotated out without having been marked degraded. `PoolTheorems.CountersAreRuns` and
  `PoolTheorems.CriticalPrimaryHandsOver` give the exact conditions; `PoolTheorems.CountersAreOrderedWithoutJumps` and
  `PoolTheorems.DegradedWithoutJumps` cover runs in which no such write lifts an average from below two to five seconds,
  which `PoolTheorems.EvenReadingsAreOrdered` derives from conditions on the single ticks.
- **The two allocators agree exactly under `VipScan.SameAnswers`** (`VipScan.AllocatorsAgreeIff`). On 1 to 30 bits the
  relay's scan, which starts behind the unmasked prefix address, must skip no address the admin handler could give out.
  On /0 the scan goes round the whole space, so all host addresses but the server's must lie on one side of the prefix
  address. On /31 and /32 the relay never finds an address, so the admin handler must not either. Every masked prefix of
  at most 30 bits qualifies. On /0 the relay's scan returns exactly when an address is free (`VipScan.ScanEndsIff`).
- `allocateVIP` counts a `uint32` up to the end of its range. When the range ends at 255.255.255.255, which happens only
  for a /31 or /32 at the top of the address space, and has no free address, the counter wraps and the loop goes on from
  0.0.0.0; `VipScan.AdminYieldsIff` says what comes out in every case. So devices keep addresses of the overlay in every
  run exactly when the range ends below that address (`Devices.RunsStayInsideIff`), and a single run keeps them exactly
  as long as no registration finds such a range full (`Devices.RunStaysInsideIff`). On 255.255.255.254/31 with the
  server at 255.255.255.254 the second device gets 0.0.0.0 (`Devices.SecondDeviceGetsZero`).
- Effective device addresses stay distinct exactly under `Devices.Safe`, a condition on the table before the call
  (`Devices.StepKeepsDistinctIff`). Revoking a device, or storing an empty override, hides its address from the pool
  while the device keeps it (`Devices.RevocationReusesAddress`, `Devices.EmptyOverrideReusesAddress`).
- A comment in `internal/conn/connstate.go` calls the peak the maximum of two-second averages; the code keeps the
  running maximum of ten-second averages, and so does the model.

## Model

| member | source | states |
|---|---|---|
| Addr.ContainsIsABlock | internal/relay/allocator.go:53 | a prefix contains exactly the addresses of one aligned block of 2^(32-bits) |
| AddrBytes.NextAddr | internal/relay/allocator.go:95-104 | the octet-wise increment with carry is +1 modulo 2^32 |
| AddrBytes.CarryFrom | internal/relay/allocator.go:97-102 | the loop on the array computes the carry function |
| AddrBytes.CarryValue | internal/relay/allocator.go:96-102 | carrying through the octets adds one to the value they spell, wrapping at the end |
| AddrBytes.BroadcastAddr | internal/relay/allocator.go:110-119 | setting the host bits in place yields network + 2^(32-bits) - 1, also for unmasked prefixes |
| AddrBytes.SetHostBit | internal/relay/allocator.go:114-116 | or-ing bit 7 - i % 8 into octet i / 8 sets bit 31 - i of the address |
| Addr.FromAs4 | internal/admin/handler.go:757-764 | uint32ToIPv4 followed by ipv4ToUint32 is the identity |
| Addr.AsFrom4 | internal/admin/handler.go:757-764 | ipv4ToUint32 followed by uint32ToIPv4 is the identity |
| VipScan.ScanEndsIff | internal/relay/allocator.go:51-74 | the relay's scan returns on every prefix but /0, and on /0 exactly when an address is free |
| VipScan.ScanIsDeterministic | internal/relay/allocator.go:51-74 | the scan has one outcome for one set of taken addresses |
| VipScan.ScanYieldsLowest | internal/relay/allocator.go:45-74 | from one bit on, the scan yields the lowest free usable address above the prefix address, and an error exactly when there is none |
| VipScan.RangeIsHostRange | internal/admin/handler.go:735-755 | ipv4Range is never empty and holds exactly the addresses of the block without network and broadcast, or the whole block for /31 and /32 |
| VipScan.CountUp | internal/admin/handler.go:688-698 | the wrapping uint32 loop stops at the first address that is past the end or free |
| VipScan.AllocateVIP | internal/admin/handler.go:670-699 | allocateVIP runs that loop over ipv4Range |
| VipScan.AdminYieldsIff | internal/admin/handler.go:688-698 | the loop returns when the range ends below the largest uint32 or any address is free, and gives the lowest free address of its range, or of the whole space when it wraps |
| VipScan.AdminYieldsLowest | internal/admin/handler.go:688-698 | the loop gives the lowest free address of its range, or an error if there is none, exactly when the range ends below the largest uint32 or has a free address |
| VipScan.AdminPicksLowest | internal/admin/handler.go:670-699 | on /0 to /30 allocateVIP offers the lowest free host address of the block |
| VipScan.AdminPicksIff | internal/admin/handler.go:670-699 | which address allocateVIP offers, read off the prefix and the taken addresses |
| VipScan.AllocatorsAgreeIff | internal/admin/handler.go:670-699 | on every prefix the relay and the admin allocator agree for every set of taken addresses exactly under SameAnswers; masked prefixes of at most 30 bits satisfy it |
| VipScan.DisagreeWhenSkipped | internal/relay/allocator.go:47-54 | when the scan skips a host address other than the server's, the two disagree already with nothing taken |
| VipScan.RelayRefusesNarrowPrefixes | internal/relay/allocator.go:51-67 | on /31 and /32 the relay never gives an address |
| VipScan.AllocatorsAgreeOnNarrowPrefixes | internal/admin/handler.go:735-755 | so for one set of taken addresses they agree there exactly when the admin range has no free address and ends below the largest uint32 |
| VipScan.WholeSpaceYieldsLowest | internal/relay/allocator.go:51-74 | on /0, masked or not, the relay's scan gives the lowest free address behind the prefix address, else the lowest of all |
| VipScan.AllocatorsAgreeOnWholeSpace | internal/relay/allocator.go:51-74 | for one set of taken addresses they agree on /0 exactly when free addresses lie on one side of the prefix address only |
| VipAllocator.RunKeepsConsistent | internal/relay/allocator.go:37-93 | over every Allocate/Release sequence the two maps are inverse and hold only usable addresses: inside the prefix, not server, network or broadcast |
| VipAllocator.AllocationIsStable | internal/relay/allocator.go:41-43 | a device keeps its address until it is released |
| VipAllocator.AllocationsAreExclusive | internal/relay/allocator.go:68-73 | until then every later Allocate answers that address to that device and to no other |
| VipAllocator.AllocateIsCompleteOnMaskedPrefixes | internal/relay/allocator.go:45-74 | on masked prefixes of 1 to 30 bits Allocate fails exactly when every usable address is held and otherwise returns the lowest free one |
| VipAllocator.ReleaseFrees | internal/relay/allocator.go:78-85 | after a Release the device has no address, the one it had is held by nobody, and everybody else keeps theirs |
| VipAllocator.ReleasedIsFree | internal/relay/allocator.go:37-85 | on masked prefixes of 1 to 30 bits an Allocate right after it succeeds with an address no higher than the released one |
| VipAllocator.Allocator.Scan | internal/relay/allocator.go:51-74 | the scanning loop yields the first stop of the scan |
| VipAllocator.Allocator.Allocate | internal/relay/allocator.go:37-75 | Allocate is the Allocate step of the run model and keeps the maps consistent |
| VipAllocator.Allocator.Release | internal/relay/allocator.go:78-85 | the device loses its address, nobody holds that address afterwards, and everybody else's entries are what they were |
| VipAllocator.Allocator.GetIP | internal/relay/allocator.go:88-93 | an answer exists exactly when some address is held by the device, and is held by it |
| Devices.StepKeepsDistinctIff | internal/admin/handler.go:346-456 | one handler call keeps effective addresses distinct exactly when it is safe, a condition on the table before the call |
| Devices.InitKeepsDistinctIff | internal/admin/handler.go:436-456 | registration keeps them distinct exactly when no hidden device has the next address of the pool, computed from the shown rows |
| Devices.InitIsSafeIff | internal/admin/handler.go:670-699 | on /0 to /30 that is: no hidden device has the lowest host address that is neither shown nor the server's |
| Devices.AskKeepsDistinctIff | internal/admin/handler.go:701-724 | an override keeps them distinct exactly when no empty override hides the asked address |
| Devices.RestrainedRunsStayClean | internal/admin/handler.go:371-456 | on every prefix, over every run without revocation and empty overrides effective addresses are pairwise distinct and not the server's |
| Devices.StepKeepsInsideIff | internal/admin/handler.go:346-456 | a handler call keeps addresses in the overlay exactly unless it registers a new device while the range ends at the largest uint32 and has no free address |
| Devices.RunStaysInsideIff | internal/admin/handler.go:371-456 | a run stays in the overlay exactly as long as no registration does that |
| Devices.RunsStayInsideIff | internal/admin/handler.go:688-698 | every run stays in the overlay exactly when the range ends below the largest uint32 |
| Devices.SecondDeviceGetsZero | internal/admin/handler.go:688-698 | on 255.255.255.254/31 with the server on its first address the second device to register gets 0.0.0.0 |
| Devices.RevocationReusesAddress | internal/store/sqlite.go:347-365 | register, revoke, register puts two devices on one address |
| Devices.EmptyOverrideReusesAddress | internal/store/sqlite.go:347-365 | so does register, empty override, register |
| Devices.StepTouchesOneRow | internal/admin/handler.go:306-456 | a handler call changes no row but its device's, deletion removes that one, and no other call removes a row or rewrites an automatic address |
| Devices.DeletionFreesAddress | internal/store/sqlite.go:190-195 | register, delete and register of another device on an otherwise unchanged table gives the second the address of the first |
| Devices.Store.GetAllocatedVIPs | internal/store/sqlite.go:347-365 | the query yields COALESCE(virtual_ip, auto_vip) of the devices that are not revoked |
| Devices.Store.GetDeviceByVIP | internal/store/sqlite.go:242-261 | the query yields a row whose override, or automatic address without an override, is the asked one, and none only if there is none |
| Devices.Store.HandleAuthInit | internal/admin/handler.go:408-456 | a known device is left alone; a new one gets a pending row with the address allocateVIP offers, and fails without a row if there is none |
| Devices.Store.HandleSetDeviceStatus | internal/admin/handler.go:306-329 | the status of a known device becomes the given one; addresses and all other rows stay |
| Devices.Store.HandleUpdateDevice | internal/admin/handler.go:346-395 | an override is stored only if it is in the overlay, not the server's and not found for another device, and is stored if no other device matches it; status and override become the given ones, other rows stay; any refusal leaves the table as it was |
| Devices.Store.HandleDeleteDevice | internal/admin/handler.go:397-405 | the row is gone and every other row is what it was |
| LoginLimiter.SpacedLimitsEveryWindow | internal/admin/handler.go:206-225 | when limit + 1 consecutive grants span at least the window, no half-open window anywhere holds more than the limit |
| LoginLimiter.CurrentWindow | internal/admin/handler.go:211-218 | the entries behind the cutoff are the grants in the window that ends now |
| LoginLimiter.Compact | internal/admin/handler.go:213-218 | compacting through attempts[:0] in one array equals filtering by the cutoff |
| LoginLimiter.Limiter.NoWindowExceedsLimit | internal/admin/handler.go:206-225 | in every reachable state no window of the configured length holds more than the limit of a key's grants since its reset |
| LoginLimiter.Limiter.Allow | internal/admin/handler.go:206-225 | a login is let through exactly when fewer than the limit of grants lie in the current window; other keys are untouched |
| LoginLimiter.Limiter.Reset | internal/admin/handler.go:227-231 | the key's grants are forgotten, other keys are untouched |
| TimeoutDetector.LearnedIsLatestVerdict | internal/conn/timeout.go:73-98 | the limit is the smallest sample of the latest window of five with three samples within five seconds of its minimum |
| TimeoutDetector.VerdictIff | internal/conn/timeout.go:73-98 | a verdict is m exactly when m is the smallest of the last five lifetimes and three of them lie within five seconds of it |
| TimeoutDetector.LearnedIff | internal/conn/timeout.go:73-98 | the limit is m exactly when some prefix of the history ends in such a cluster at m and no longer prefix ends in any |
| TimeoutDetector.LearnedIsNeverForgotten | internal/conn/timeout.go:95-97 | a learned limit never returns to zero |
| TimeoutDetector.FiveSimilarForceTheLimit | internal/conn/timeout.go:73-98 | any five consecutive lifetimes within the tolerance force the limit to their minimum |
| TimeoutDetector.IntervalIsBelowTheWindow | internal/conn/timeout.go:58-60 | the learned rotation interval is positive and below every lifetime of that window |
| TimeoutDetector.LearnedIsBelow | internal/conn/timeout.go:51-62 | an interval is learned exactly when some window clustered |
| TimeoutDetector.Detector.RecordDisconnect | internal/conn/timeout.go:32-46 | lifetimes below five seconds are ignored; otherwise samples and limit are those of the extended history |
| TimeoutDetector.Detector.TryDetect | internal/conn/timeout.go:73-98 | the minimum and counting loops set the limit exactly when the window clusters |
| TimeoutDetector.Detector.RotationInterval | internal/conn/timeout.go:51-62 | the configured interval, else four fifths, rounded down, of the learned limit if there is one, else none |
| ConnState.SlotIsRemainder | internal/conn/connstate.go:227 | the slot of value number j is j modulo 50 |
| ConnState.RingRotates | internal/conn/connstate.go:226-227 | writing one slot and advancing keeps the ring the last fifty values of the history |
| ConnState.RingBackwards | internal/conn/connstate.go:312-319 | stepping back from the write position, with wrap-around, reads the history backwards and zeros before its start |
| ConnState.SumOfRing | internal/conn/connstate.go:323-329 | the sum in slot order is the sum over the window in time order |
| ConnState.State.SumRecentBuckets | internal/conn/connstate.go:312-320 | the loop sums the last min(n, 50) rotated values |
| ConnState.State.SumAllBuckets | internal/conn/connstate.go:323-329 | the loop sums the last 50 rotated values |
| ConnState.State.RecordWrite | internal/conn/connstate.go:74-87 | bytes written stay all rotated values plus the current bucket; the smoothed latency moves towards the sample |
| ConnState.State.RecordQueue | internal/conn/connstate.go:101-114 | the first moment of a full queue is kept until the queue is not full |
| ConnState.State.MarkDegraded | internal/conn/connstate.go:173-183 | the first reason sticks |
| ConnState.State.Rotate | internal/conn/connstate.go:226-229 | the current bucket becomes the newest value of the history |
| ConnState.State.Update | internal/conn/connstate.go:215-276 | an update within 200 ms changes nothing; current and peak rates are those of the last 10 and 50 values, the peak never falls, throttled sets in exactly past five seconds with a peak above 1 MB/s and less than half of it left, never clears, and leaves a weight of at least 0.1 |
| ConnState.State.Recalculate | internal/conn/connstate.go:231-275 | weight is current over peak, at most one, with the floor for throttled connections |
| ConnState.UpdateEWMA | internal/conn/connstate.go:206-211 | the first sample is taken as it is; later the average moves a fifth of the way to the sample, rounded down, and stays between the two |
| Packet.ParserAcceptsWellFormed | internal/packet/packet.go:87-131 | accepted are exactly the byte strings with version 4, at least five header words and a total length between header and data length |
| Packet.ParserErrors | internal/packet/packet.go:87-116 | each of the four errors occurs exactly under its condition, and there is no other |
| Packet.ParseInvertsEncode | internal/packet/packet.go:87-131 | parsing an encoded datagram with any padding behind it returns its fields and exactly its bytes |
| Packet.EncodeInvertsDecode | internal/packet/packet.go:107-130 | encoding what the format reads from an accepted packet gives back its raw bytes |
| Packet.ParseIgnoresPadding | internal/packet/packet.go:129 | trailing bytes, and parsing Raw again, do not change the result |
| Packet.TCPHeaderInvertsEncode | internal/packet/packet.go:169-199 | a datagram that carries an encoded segment yields that segment's flow, offset and flags |
| Packet.TCPHeaderAccepts | internal/packet/packet.go:169-199 | accepted are exactly the TCP packets whose raw bytes hold the announced header, and all that is reported lies inside them |
| Packet.ClassByProtocol | internal/packet/packet.go:134-166 | every class, read off protocol number and destination: noise is IGMP, multicast and 255.255.255.255, the rest goes by 6, 17, 1 and others |
| Packet.FlagsAreRead | internal/packet/packet.go:202-209 | a segment closes its flow exactly when FIN or RST is set and opens it exactly when SYN is set and ACK is not, for every choice of the eight flags |
| Packet.EveryOctetIsFlags | internal/packet/packet.go:188-199 | every flag octet is such a choice |
| EventLog.SameQueueUntilReleased | internal/relay/server.go:475-524 | what following the history means: the next packet of a flow goes to the queue of the one before unless a FIN, RST, expiry, clearing or the end of the connection lies between |
| EventLog.StretchIsInOneQueue | internal/relay/server.go:475-524 | the packets since the last release are, in order, the last ones of the flow in one queue |
| EventLog.TakenIsPrefixOfStretch | internal/relay/server.go:686-707 | those the write loop took are a prefix of them and the rest is still queued in order |
| EventLog.StandingIsNotGone | internal/relay/server.go:531-533 | the connection a flow stands on has not gone away |
| FlowTable.TakingIsGood | internal/relay/server.go:688-694 | receiving from the channel keeps accepted == taken + queued, the capacity, and what was sent a prefix of what was taken |
| FlowTable.WritingIsGood | internal/relay/server.go:695-705 | so does the end of the write, which may fail and stops the loop then |
| Registry.AddKeepsIndex | internal/relay/server.go:283-284 | appending keeps an index the per-key lists of the registration log |
| Registry.RemoveKeepsIndex | internal/relay/server.go:298-306 | so does removing and dropping empty keys |
| Registry.RegisteredIffListedOnce | internal/relay/server.go:279-314 | a member is registered exactly when it is in the list of its key, once, and in no other list |
| Registry.RemoveConn | internal/relay/server.go:316-323 | the shift on the backing array removes the first occurrence and leaves the place behind the shorter list |
| Registry.AliasedSnapshot | internal/relay/server.go:417 | after a removal a reader of the same array would see the last entry twice and lose the removed one; the copy is unaffected |
| RelayServer.SelectPrimary | internal/relay/server.go:325-332 | the first client of the list that is not closed, none if all are |
| RelayServer.SelectBestStandby | internal/relay/server.go:334-348 | the open client other than the primary with most free places, the earliest on a tie |
| RelayServer.Client.TryEnqueue | internal/relay/server.go:599-611 | one copy is appended exactly when the client is open and has room |
| RelayServer.Server.RegisterClient | internal/relay/server.go:279-291 | both indices are those of the extended registration log |
| RelayServer.Server.UnregisterClient | internal/relay/server.go:293-314 | the client is closed and gone from both indices, and exactly the bindings to it are dropped |
| RelayServer.Server.RemoveTCPFlowsForClient | internal/relay/server.go:560-566 | exactly the bindings to that client are dropped |
| RelayServer.Server.BoundTCPClient | internal/relay/server.go:526-535 | the bound client, unless it is closed |
| RelayServer.Server.AfterTCPEnqueue | internal/relay/server.go:537-552 | the flow is bound to the client at that time unless FIN or RST is set, and unbound otherwise; other flows are untouched |
| RelayServer.Server.ExpireTCPFlows | internal/relay/server.go:568-581 | a binding stays exactly when its client is open and it is at most 120 seconds old, and stays what it was |
| RelaySafety.EnvKeepsReg | internal/relay/server.go:279-314 | registrations, removals, closes, drains and expiries keep both indices those of the registration log and every open connection registered |
| RelaySafety.MoveKeepsPc | internal/relay/server.go:475-524 | every control step of a call holds on only to clients that serve the packet's destination |
| RelaySafety.AdmitIsGood | internal/relay/server.go:390-418 | a call begins only with a packet that parses, carries its sender's address and is destined into the overlay, and its snapshot holds only clients of that destination |
| RelaySafety.RunIsSafe | internal/relay/server.go:279-707 | every reachable state has consistent indices, bindings that point at clients of the flow's destination, and queues and calls that match the history |
| RelaySafety.QueuedPacketsAreAddressedRight | internal/relay/server.go:390-443 | every packet ever queued for a client has that client's address as destination, its sender's address as source, and lies in the overlay |
| RelaySafety.AcceptedExactlyOnce | internal/relay/server.go:460-684 | a true result means one copy on one queue, a false one none; no queue exceeds its capacity |
| RelaySafety.SentIsPrefixOfAccepted | internal/relay/server.go:686-707 | what a client was sent is a prefix of what its queue accepted |
| RelaySafety.ListsFollowRegistrations | internal/relay/server.go:279-314 | in every reachable state a connection is registered exactly when it is once under its device and once under its address; lists are never empty and keep registration order |
| RelaySafety.FreshPrimaryIsOldestOpen | internal/relay/server.go:416-418 | selectPrimary on a fresh snapshot is the oldest registered open connection of the destination |
| RelayDelivery.AdmittedIff | internal/relay/server.go:390-473 | a packet starts a call exactly when it parses, carries its sender's address and goes to an overlay address with a client; the call fails at once exactly for multicast, broadcast, IGMP and TCP without a valid header |
| RelayDelivery.PacketGoesExactly | internal/relay/server.go:460-684 | while nothing else happens the steps of a call can put its packet on exactly the queues that protocol number, flags, binding, order of registration and queue lengths allow |
| RelayDelivery.DeliveryHappens | internal/relay/server.go:460-684 | whatever a call can reach it reaches in a run of its own steps, at whose end its packet is last in that queue |
| RelayDelivery.DropsExactlyWhen | internal/relay/server.go:475-684 | the control points and conditions under which a call can give up |
| RelayDelivery.ClosedMeansAgain | internal/relay/server.go:485-523 | a call whose client has closed can go back to the top of its loop, and a bound flow loses its binding |
| RelayDelivery.FailedBurstGoesToPrimary | internal/relay/server.go:499-512 | a standby that closes or fills up after it was chosen does not cost the packet: it can still go to the primary |
| RelayDelivery.UdpComesBack | internal/relay/server.go:620-658 | UDP that no standby takes can still go to the client it was offered to first once that has room |
| RelayExpiry.BindWrites | internal/relay/server.go:537-581 | the bind of a flow writes its client and the time, or removes the binding on FIN and RST; every other step leaves a binding alone or removes it |
| RelayExpiry.BoundSince | internal/relay/server.go:537-552 | in every run a binding carries the client and the time of the last bind of its flow |
| RelayExpiry.SweepDropsIffIdle | internal/relay/server.go:568-581 | in every run a sweep drops a binding exactly when its client has closed or the flow's last bind is more than 120 seconds back, and notes exactly the latter as expired |
| RelayExpiry.IdleFor | internal/relay/server.go:568-581 | a binding left alone for d and then swept stays exactly when its client is open and d has not carried it past two minutes |
| RelayEvents.UnregisterForgets | internal/relay/server.go:293-314 | in every run a removed connection is closed, done, registered no more and bound to no flow, and everybody else is as before |
| RelayEvents.ClosedForGood | internal/relay/server.go:709-723 | closing and signalling the end are never taken back |
| RelayEvents.EndsIffClosed | internal/relay/server.go:713-723 | a connection can signal its end exactly when it is closed |
| RelayEvents.FailedWriteEnds | internal/relay/server.go:686-707 | after a failed write the connection is closed, and nothing is taken from its queue or sent on it ever after |
| RelayEvents.QueueDrains | internal/relay/server.go:686-707 | while no write fails the write loop sends all that is queued, in order, and touches nothing else |
| RelayEvents.EventsHappen | internal/relay/server.go:168-206 | registration, removal after the read loop has returned, closing, signalling the end and sweeping can happen in every consistent state |
| RelayEvents.PacketsAreRead | internal/relay/server.go:376-409 | a registered connection whose read loop is idle can read any packet |
| RelayOrder.EnvKeepsOrder | internal/relay/server.go:526-581 | whatever happens around the calls, the flow table names the connection the history pins the flow to |
| RelayOrder.OwnCallEffect | internal/relay/server.go:475-524 | every step of a flow's only call keeps that, and pushes only where the flow stands |
| RelayOrder.MoveFacts | internal/relay/server.go:485-523 | a control step stays within the clients the call can reach and never brings a retry closer |
| RelayOrder.ClosingPays | internal/relay/server.go:713-723 | a client that closes pays for the one retry it causes |
| RelayTheorems.RunKeepsOrder | internal/relay/server.go:475-581 | flow order holds in every reachable state for flows without overlapping calls |
| RelayTheorems.FlowStaysOnOneClient | internal/relay/server.go:475-581 | consecutive packets of such a flow go to one client unless FIN, RST, expiry or its closing lies between |
| RelayTheorems.StretchIsDeliveredInOrder | internal/relay/server.go:686-707 | the packets its write loop took are a prefix of the current stretch, the rest is queued in order |
| RelayTheorems.RunKeepsSteps | internal/relay/server.go:475-684 | between two continues a call makes at most ten steps of its own, in every reachable state |
| RelayTheorems.RetriesAreBounded | internal/relay/server.go:485-523 | without overlapping calls of its flow a TCP call continues at most once per client of its snapshot and once for the bound client, an ICMP call at most once per client; either makes at most 10 * (clients + 2) steps |
| RelayTheorems.CallIsNeverStuck | internal/relay/server.go:475-684 | a call in flight always has a step of its own |
| RelayOverlap.OverlapSplitsAFlow | internal/relay/server.go:168-180 | for every overlay, sender, usable destination and queue capacity: two connections of one address that send one SYN at the same time reach two open clients with nothing released in between |
| RelaySenders.OneSenderNeverOverlaps | internal/relay/server.go:376-409 | as long as at most one registered connection carries a flow's source address, calls of the flow never overlap |
| RelaySenders.OneSenderKeepsOrder | internal/relay/server.go:475-581 | then consecutive packets of the flow go to one client unless FIN, RST, expiry or its closing lies between |
| RelaySenders.OneSenderIsDeliveredInOrder | internal/relay/server.go:686-707 | and the packets its write loop took are a prefix of the current stretch, the rest is queued in order |
| RelaySenders.OrderHoldsIffOneSender | internal/relay/server.go:168-181 | on every overlay with a unicast destination flow order holds in every run exactly for at most one sender connection, whatever the capacity |
| RelayRetries.RetriesWithoutBound | internal/relay/server.go:485-497 | with two sender connections, on every overlay with a usable pair, a call with one client in its snapshot continues as often as one likes |
| RelayRetries.OneSenderCallsEnd | internal/relay/server.go:485-523 | with one it continues at most once per client and once more and makes at most 10 * (clients + 2) steps |
| RelayRetries.BoundHoldsIffOneSender | internal/relay/server.go:168-181 | on every overlay with a unicast destination the bound on continues holds in every run exactly for at most one sender connection, whatever the capacity |
| PoolRoles.DemotionKeepsFirst | internal/conn/pool.go:560-571 | the first live primary stays, the others become standbys, nobody else changes |
| PoolRoles.FallbackIsIdle | internal/conn/pool.go:582-596 | when promoteStandbyLocked runs its second loop, that loop finds nobody |
| PoolRoles.FirstWithIsFirst | internal/conn/pool.go:749-756 | a search finds k exactly when k lives with the role at a place before which nobody does |
| PoolRoles.NormalizeIs | internal/conn/pool.go:560-596 | with one live primary nothing changes; with none the first live standby becomes primary, from now on |
| PoolRoles.NormalizeLeavesOnePrimary | internal/conn/pool.go:560-596 | one live primary afterwards exactly when a live connection is not draining; a live primary that was first stays; dead and draining ones keep their role |
| PoolRoles.RotateHandsOver | internal/conn/pool.go:598-632 | the primary is demoted only when a live standby takes over, so a live primary remains, and only one |
| PoolRoles.ScheduleKeepsLedger | internal/conn/pool.go:768-774 | a build is counted, and connections plus builders that may still add one stay within the maximum |
| PoolRoles.EnsureBuildsFills | internal/conn/pool.go:782-789 | the loop ends with every place taken or being built |
| PoolMonitor.PruneKeepsRoles | internal/conn/pool.go:674-687 | exactly the dead connections leave, and the ledger holds |
| PoolMonitor.EnsurePrimaryEnsures | internal/conn/pool.go:550-558 | one live primary if any live connection is not draining; otherwise, with a live context, a build is scheduled or the pool is full; in all other cases none is |
| PoolMonitor.RotatePrimaryKeeps | internal/conn/pool.go:598-632 | the demoted connection was the primary, its close is planned, and another live primary is there |
| PoolTick.TickKeepsRoles | internal/conn/pool.go:674-747 | a tick during which connections may die between stages keeps one live primary and the ledger, plans exactly the closes of those it demotes, and leaves the pool full or being filled |
| PoolTick.TickLeavesPrimary | internal/conn/pool.go:674-747 | if nobody dies during it, a tick that starts with a usable connection ends with a live primary |
| PoolTick.TrailingRunIsMaximal | internal/conn/pool.go:704-736 | the trailing run is the longest run of latest ticks that met the threshold |
| PoolTick.CriticalTicksAreFewerIff | internal/conn/pool.go:716-736 | criticalLatencyTicks <= latencyTicks exactly when each tick of the critical run read at least two seconds at its latency stage |
| PoolTick.OnlyJumpsDiffer | internal/conn/pool.go:716-736 | a tick that is critical without being high saw an average rise from below two to at least five seconds between its readings |
| PoolTick.EvenReadingsDoNotJump | internal/conn/connstate.go:74-87 | no average does when none rises between the readings or every write between them took less than five seconds |
| PoolTick.TickCounts | internal/conn/pool.go:704-744 | counters are trailing runs; a connection rotated out for critical latency ends a critical run of at least three, and is marked degraded exactly when it was before or the latest three ticks were high |
| PoolTick.TickHandsOver | internal/conn/pool.go:737-744 | it hands over to another connection, live at the critical stage, that is primary afterwards |
| PoolTick.UnplannedAre | internal/conn/pool.go:677-686 | reported are exactly the dead members that were not planned to close, each once, with its age |
| PoolTick.TickReports | internal/conn/pool.go:677-686 | a tick reports exactly those and nobody it reported before |
| PoolAge.IntervalIs | internal/conn/timeout.go:51-62 | the interval is the configured one, else four fifths of the smallest lifetime of the latest cluster, and positive |
| PoolAge.TickRotatesByAgeIff | internal/conn/pool.go:691-702 | a tick rotates p out by age exactly when p lives at the age check, has been primary for longer than the interval, and a standby lives |
| PoolAge.TickHandsOverTo | internal/conn/pool.go:598-632 | then p drains and the first live standby is primary from now on, unless critical latency rotates that one out in the same tick |
| PoolAge.LoadStages | internal/conn/pool.go:704-720 | a tick counts pressure exactly when a live primary's queue is at least four fifths full, and high latency exactly when a live primary's average is at least two seconds |
| PoolAge.LoadStagesAct | internal/conn/pool.go:709-727 | from the third such tick in a row the slow primary is marked degraded and each stage starts a build while there is room |
| PoolAge.CriticalStage | internal/conn/pool.go:729-744 | the last check counts a primary of at least five seconds, and from the third such tick in a row rotates it out exactly when a standby lives |
| PoolAge.CriticalTickRotates | internal/conn/pool.go:729-744 | after a third critical tick without rotation no standby lives |
| PoolAge.RotationBuilds | internal/conn/pool.go:598-632 | rotation starts a build if there is room, whether a standby could take over or not |
| PoolSafety.BuilderHasRoom | internal/conn/pool.go:805-810 | the overflow check of buildStandby never fires |
| PoolSafety.AppendKeepsCore | internal/conn/pool.go:805-823 | a builder that appends keeps roles, membership and the ledger |
| PoolSafety.FinishKeepsLedger | internal/conn/pool.go:793-797 | so does one that signs off, under its separate lock |
| PoolSafety.CloseAllKeepsCore | internal/conn/pool.go:899-907 | dropping all connections and the flow table keeps the invariants |
| PoolSafety.EnvKeepsCore | internal/conn/pool.go:1038-1049 | deaths, drains and expiries at any time keep them |
| PoolSafety.RunIsSafe | internal/conn/pool.go:118-1049 | every reachable state has consistent roles, ledger and membership, and queues and calls that match the history |
| PoolTheorems.OneLivePrimary | internal/conn/pool.go:550-632 | at most one live connection is primary, whatever dies and whenever |
| PoolTheorems.PrimaryIsEnsured | internal/conn/pool.go:507-558 | when primaryOrWait calls ensurePrimaryLocked there is a live primary afterwards exactly when a live connection is not draining; else, with a live context, a build or a full pool, and no build otherwise |
| PoolTheorems.PoolNeverOverflows | internal/conn/pool.go:768-826 | pendingBuilds counts the builders, connections plus dialling builders stay within maxTotal, and a built connection is always appended |
| PoolTheorems.PoolIsRefilled | internal/conn/pool.go:746-789 | ensureStandbys and each tick end with all places taken or being built while the context is live |
| PoolTheorems.LiveTargetsAreMembers | internal/conn/pool.go:674-687 | an alive connection in tcpFlows is still in conns |
| PoolTheorems.RetiredForGood | internal/conn/pool.go:1038-1049 | a dead or draining connection keeps its role for good, and a dead one stays dead |
| PoolTheorems.DrainingIsForGood | internal/conn/pool.go:623-624 | draining is absorbing and holds exactly for planned closes |
| PoolTheorems.CountersAreRuns | internal/conn/pool.go:704-736 | in every reachable state the three counters are the trailing runs, and the critical one is not the longer exactly when each of its ticks was high |
| PoolTheorems.CountersAreOrderedWithoutJumps | internal/conn/pool.go:716-736 | it is not the longer one in runs without jumps |
| PoolTheorems.CriticalPrimaryHandsOver | internal/conn/pool.go:737-744 | in every run a primary rotated out for critical latency was critical for three ticks, another primary took over, and it is degraded exactly when it was before or the latest three ticks were high |
| PoolTheorems.DegradedWithoutJumps | internal/conn/pool.go:716-744 | it is degraded in runs without jumps |
| PoolTheorems.EvenReadingsAreOrdered | internal/conn/pool.go:716-736 | a run has no jumps, and ordered counters, if in each of its ticks no average rises between the readings or the writes between them were short |
| PoolLatency.CriticalRunsAhead | internal/conn/pool.go:716-744 | a run, one packet of which is taken, written for six seconds and recorded between two readings: the critical counter exceeds the latency counter, and two ticks later the primary is rotated out undegraded |
| PoolTheorems.ReportsAreUnplannedDeaths | internal/conn/pool.go:677-686 | the detector hears of each connection at most once, only of dead ones never planned to close |
| PoolRotation.OverduePrimaryIsRotated | internal/conn/pool.go:691-702 | in every run an overdue primary starts draining in the next tick in which a standby lives, and the first live standby takes over |
| PoolRotation.RotatedPrimaryWasOverdue | internal/conn/pool.go:691-744 | a connection that starts draining in a tick was overdue while a standby lived, or the tick is at least the third critical one in a row |
| PoolDelivery.BegunIs | internal/conn/pool.go:209-272 | a packet starts a call exactly when it parses; the call fails at once exactly for multicast, broadcast, IGMP and TCP without a valid header |
| PoolDelivery.PacketGoesExactly | internal/conn/pool.go:259-412 | while nothing else happens the steps of a call can put its packet on exactly the queues that protocol number, flags, binding, roles and queue lengths allow |
| PoolDelivery.DeliveryHappens | internal/conn/pool.go:259-412 | whatever a call can reach it reaches in a run of its own steps, at whose end its packet is last in that queue |
| PoolDelivery.EnsureIsReached | internal/conn/pool.go:507-530 | without a live primary a call that needs one comes to ensurePrimaryLocked |
| PoolDelivery.EnsureMakesPrimary | internal/conn/pool.go:550-596 | which makes the first live standby primary, from now on, and leaves queues and bindings alone |
| PoolDelivery.DropsExactlyWhen | internal/conn/pool.go:274-344 | the control points and conditions under which a call can give up: TCP only once the context is cancelled |
| PoolDelivery.ClosedMeansAgain | internal/conn/pool.go:284-318 | a TCP call whose connection has closed starts over, and a bound flow loses its binding |
| PoolDelivery.FailedBurstGoesToPrimary | internal/conn/pool.go:299-318 | a standby that dies or fills up after it was chosen does not cost the packet: it can still go to the primary |
| PoolDelivery.UdpPassesOver | internal/conn/pool.go:321-328 | UDP passes over a candidate that is dead, done or full |
| PoolDelivery.UdpComesBack | internal/conn/pool.go:329-335 | and, when all were passed over, can still go to the primary once that has room |
| PoolCandidates.CandidatesAreInOrder | internal/conn/pool.go:532-548 | the list holds exactly the live primaries and standbys, each once, no standby before a primary and otherwise in pool order |
| PoolUdp.TriesInOrder | internal/conn/pool.go:321-335 | in every run a UDP call has passed over all entries of its list before the one it tries, each dead, done or full at that time |
| PoolUdp.StandbyComesLast | internal/conn/pool.go:321-335 | so a standby is tried only after every live primary of the list was dead, done or full when tried |
| PoolExpiry.BindWrites | internal/conn/pool.go:357-378 | the bind of a flow writes its connection and the time, or removes the binding on FIN and RST; every other step leaves a binding alone or removes it |
| PoolExpiry.BoundSince | internal/conn/pool.go:357-372 | in every run a binding carries the connection and the time of the last bind of its flow |
| PoolExpiry.SweepDropsIffIdle | internal/conn/pool.go:930-943 | in every run a sweep drops a binding exactly when its connection is dead or draining or the flow's last bind is more than 120 seconds back, and notes exactly the latter as expired |
| PoolExpiry.IdleFor | internal/conn/pool.go:930-943 | a binding left alone for d and then swept stays exactly when its connection is usable and d has not carried it past two minutes |
| PoolEvents.TickBuries | internal/conn/pool.go:674-687 | in every run a member found dead by a tick has signalled its end afterwards and is a member no more, and everybody else stays one |
| PoolEvents.TickTellsLifetimes | internal/conn/pool.go:677-686 | in every run a tick tells the detector the lifetime, from creation to now, of each member that died unplanned, which keeps it exactly from five seconds on |
| PoolEvents.FailedWriteEnds | internal/conn/pool.go:455-474 | after a failed write the connection is dead, and nothing is taken from its queue or sent on it ever after |
| PoolEvents.QueueDrains | internal/conn/pool.go:455-474 | while no write fails the write loop sends all that is queued, in order, and touches nothing else |
| PoolEvents.NewcomerIsStandby | internal/conn/pool.go:805-823 | in every run a built connection enters last, alive, as a standby with an empty queue, and everybody else stays as they are |
| PoolEvents.FillUpIs | internal/conn/pool.go:776-789 | ensureStandbys starts as many builds as there are places neither taken nor being built, and none once the context is cancelled |
| PoolEvents.BuildsEnd | internal/conn/pool.go:792-803 | a failed build stays counted until its builder signs off, which takes exactly one off the count |
| PoolEvents.EmptiedIff | internal/conn/pool.go:899-907 | the pool can be emptied exactly when its context is cancelled and its members are dead, and then has neither members nor bindings |
| PoolEvents.CancelledForGood | internal/conn/pool.go:166-207 | a cancelled context stays cancelled |
| PoolEvents.MeasureIs | internal/conn/connstate.go:74-87 | a measured write sets its connection's average, or moves it a fifth of the way, and nobody else's |
| PoolEvents.EventsHappen | internal/conn/pool.go:658-672 | deaths, their signals, measurements, cancelling, filling up, sweeps and ticks can happen at any time |
| PoolEvents.PacketsAreRead | internal/conn/pool.go:209-257 | the pump can read any packet once its latest call is done |
| PoolTheorems.AcceptedExactlyOnce | internal/conn/pool.go:259-344 | a true result means one copy on one queue, a false one none; capacity is kept and what was sent is a prefix of what was accepted |
| PoolTheorems.FlowStaysOnOneConnection | internal/conn/pool.go:274-378 | a bound flow moves only when its connection died or started draining, it idled out, the table was dropped, or FIN or RST retired it; a full queue makes it wait |
| PoolTheorems.StretchIsDeliveredInOrder | internal/conn/pool.go:455-474 | the packets taken by the write loop are a prefix of the current stretch, the rest is queued in order |
| PoolOrder.RunKeepsOrder | internal/conn/pool.go:274-378 | the flow table names the connection the history pins a flow to, in every reachable state |
| PoolOrder.MoveKeepsStage | internal/conn/pool.go:274-378 | each control step of enqueueTCP leaves the bound connection only when the history released it |
| PoolClient.PooledConn.TryEnqueue | internal/conn/pool.go:971-988 | one copy is appended exactly when the connection is alive, not done and has room |
| PoolClient.Pool.Find | internal/conn/pool.go:749-756 | the first live connection of the list with that role |
| PoolClient.Pool.DemoteOthers | internal/conn/pool.go:560-571 | the loop leaves the first live primary and demotes the others |
| PoolClient.Pool.NormalizePrimary | internal/conn/pool.go:560-580 | the objects' roles become Normalize of what they were |
| PoolClient.Pool.EnsureStandbys | internal/conn/pool.go:782-789 | the loop terminates with the builds of EnsureBuilds |
| PoolClient.Pool.EnsurePrimary | internal/conn/pool.go:550-558 | the objects end in the state EnsurePrimary computes |
| PoolClient.Pool.RotatePrimary | internal/conn/pool.go:598-632 | the objects end in the state RotatePrimary computes |
| PoolClient.Pool.SplitDead | internal/conn/pool.go:676-687 | the loop keeps the live connections in order and reports the others as Prune does |
| PoolClient.Pool.RotateByAge | internal/conn/pool.go:691-702 | the loop rotates as the age stage does, whose effect PoolAge.TickRotatesByAgeIff and PoolAge.TickHandsOverTo state |
| PoolClient.Pool.MonitorTick | internal/conn/pool.go:674-747 | monitorTick on objects that hold still computes Tick: its stages in this order, each on what the one before left |
| PoolClient.Pool.AddStandby | internal/conn/pool.go:805-823 | a built connection joins as a standby if there is room and is closed otherwise |
| PoolClient.Pool.CloseAll | internal/conn/pool.go:899-907 | all members are closed, the list and the flow table are empty |
| PoolClient.Pool.FindCandidates | internal/conn/pool.go:532-548 | the result holds exactly the live primaries and live standbys, each once, no standby before a primary and otherwise in pool order |
| PoolClient.Pool.TcpBurstStandby | internal/conn/pool.go:380-412 | nobody unless the primary is degraded or under pressure; then the live standby with most room, the earliest on a tie |
| PoolClient.Pool.BoundTCPConn | internal/conn/pool.go:346-355 | the bound connection, unless it is dead or draining |
| PoolClient.Pool.AfterTCPEnqueue | internal/conn/pool.go:357-372 | the flow is bound to the connection at that time unless FIN or RST is set, and unbound otherwise; other flows are untouched |
| PoolClient.Pool.ExpireTCPFlows | internal/conn/pool.go:930-943 | a binding stays exactly when its connection lives, is not draining and it is at most 120 seconds old, and stays what it was |

## Left out

- RelayDelivery.PacketGoesExactly: about a call during which nothing else happens; what other steps may do meanwhile is
  the subject of RelayOrder and RelaySafety.
- PoolDelivery.PacketGoesExactly: the same; PoolUdp.TriesInOrder holds whatever happens meanwhile.
- RelayEvents.QueueDrains: such a run exists; that the write loop gets to run is not modelled.
- PoolEvents.QueueDrains: the same.
- The enqueue functions of relay and pool as methods: they exist only as control points of the state machines, because
  other goroutines act between their channel operations; the lock-protected bodies they call are also methods.
- The choice of `selectBestStandby` and `tcpBurstStandby` inside the state machines: queue lengths move while they
  compare, so any open standby may come out; the methods `RelayServer.SelectBestStandby` and
  `PoolClient.Pool.TcpBurstStandby` are exact for queues that hold still.
- Deaths inside one stage of a monitor tick, and a second reading of queue depths: connections may die between the
  stages and writes may complete between the two latency readings.
- PoolTick.TickHandsOver: the successor is live when the critical stage looks for it; that it may die before its role is
  written is not modelled, only that it may die right after the tick.
- The link between a write of the pool and its recorded duration: the model lets any sample be recorded for any
  connection at any time, which covers the real ones; PoolLatency.CriticalRunsAhead is a run with a real one.
- PoolClient.Pool.MonitorTick: the objects hold still during the method, so it is the tick in which nobody dies and no
  write completes; ticks with deaths and writes in between are those of PoolTick.
- The address check of `buildStandby`: a connection with another virtual address counts as a failed build.
- RelayTheorems.RunKeepsOrder: about flows whose calls never overlapped, which a single sender connection guarantees; an
  overlap may break the order but need not.
- RelayTheorems.FlowStaysOnOneClient: the same; RelaySenders.OneSenderKeepsOrder is the form without it.
- RelayTheorems.StretchIsDeliveredInOrder: the same; RelaySenders.OneSenderIsDeliveredInOrder is the form without it.
- RelayTheorems.RetriesAreBounded: the same for TCP; RelayRetries.OneSenderCallsEnd is the form without it.
- VipAllocator.Allocator.Allocate: asks that the scan ends, because on a /0 without a free address the original loops
  for ever.
- VipScan.CountUp: asks that the counter reaches an end or a free address, for the same reason.
- Lost wake-ups, fairness and liveness: a full queue may block a flow for as long as nobody drains it.
- Addresses other than IPv4, and the textual forms of addresses: a stored override is the empty string or an address.
- Concurrent admin handlers, SQL errors, and uniqueness constraints of the database; storing new keys is a status change
  to approved.
- `validateDeviceVIP` admits the network and broadcast address of the overlay; nothing is claimed about those.
- int64 overflow of byte counters and the rounding of floating point: counters are unbounded, `0.8 * d` is `d * 4 / 5`,
  the smoothed latency is an integer quotient.
- Timers, heartbeats and the five-second drain: they appear as closes and deaths that may happen at any time.
- WebSocket, TUN, HTTP, JSON, YAML, logging, sessions, tokens, password hashing, exit traffic, platform address setup,
  configuration and the web front end: input and output around the parts modelled here.
- `internal/conn/ratelimit.go`: declared deprecated and unused on the packet path.
