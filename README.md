# PlacePod API core, modelled in Dafny

This project models the core of the PlacePod parking API and proves properties of that model:

- the vehicle-counting engine, which turns the cyclic 7-bit counters of a lane's front and back sensors into a lane count. It has three layers:
  - the pure delta algorithm;
  - the per-event lane state machine (`Service`);
  - the registry that keeps one service per lane (`VehicleCounting`).
- the grouping of a decoded uplink payload into packets (`Packet.trySet` and `PacketFactory.create`);
- the scope rules of the OAuth2 layer;
- the clamping of a parking lot's displayed occupancy.

Modules, one per source file:

| file | module | source |
|---|---|---|
| `wrappers.dfy` | `Wrappers` | `Option`, which stands for JavaScript's `null`/`undefined` |
| `algorithm.dfy` | `CountingAlgorithm` | `lib/pni-vehicle-counting/Algorithm.js` |
| `service.dfy` | `LaneService` | `lib/pni-vehicle-counting/Service.js` |
| `registry.dfy` | `CountingRegistry` | `lib/pni-vehicle-counting/index.js` |
| `scenarios.dfy` | `CountingScenarios` | end-to-end expectations of `test/pni-vehicle-counting.test.js` |
| `packets.dfy` | `Packets` | `models/Packet.js` |
| `packet_factory.dfy` | `PacketGrouping` | `lib/PacketFactory.js` |
| `scopes.dfy` | `Scopes` | `lib/ScopeManager.js` |
| `parking_lot.dfy` | `ParkingLots` | `models/ParkingLot.js` |

The algorithm, the scope rules and the parking-lot view are side-effect free: functions, except `Scopes.DoesScopeExist`, which is a method whose loop mirrors the source's search of the scope table. The rest is written the way the source is written:

- `Service`, `VehicleCounting` and `Packet` are classes whose methods update their fields in place.
- `PacketFactory.create` is a method with nested loops that builds a sequence of fresh `Packet` objects.

Each lane-engine method is proved to leave exactly the state that a specification function gives, for example `Snapshot() == AfterEvent(old(Snapshot()), ev)`. The lemmas then state what those functions promise.

Three modelling choices:

- **Timers.** The debounce timer is an `armed` flag plus the sensor position that the timer's closure captured. Its expiry is the explicit step `Fire`, or `FireTimer` on the registry.
- **Replies.** Everything passed to the completion callback is collected in the sequence `replies`.
- **Timer cancellation.** The registry keeps a ghost set of all services it built. Its invariant `Valid` says that only the service cached under a lane's id can be armed. So at most one timer per lane is pending, and a replaced service never fires.

## Model

| member | source | states |
|---|---|---|
| CountingAlgorithm.Difference | lib/pni-vehicle-counting/Algorithm.js:31-35 | for counters in 0..127 the difference lies in 0..127 and equals (current - previous) mod 128; it is 0 exactly when the readings agree, up to one full wrap |
| CountingAlgorithm.InactiveCount | lib/pni-vehicle-counting/Algorithm.js:39-42 | the streak grows by one and saturates at 127 |
| CountingAlgorithm.Process | lib/pni-vehicle-counting/Algorithm.js:48-94 | the lane delta is the larger of the two recorded sensor changes, never their sum; each recorded change is that sensor's contribution (its raw difference, suppressed by an incoming inactivity streak), except in a stalled cycle, where both sensors are credited 1 |
| CountingAlgorithm.InactiveSensorSuppressed | lib/pni-vehicle-counting/Algorithm.js:62-73 | a sensor entering with a positive streak is credited 0, or only the forced unit |
| CountingAlgorithm.InactivityStreaks | lib/pni-vehicle-counting/Algorithm.js:55-85 | a nonzero difference leaves the streak at 0; a zero difference extends it, saturating |
| CountingAlgorithm.ResultsInRange | lib/pni-vehicle-counting/Algorithm.js:48-94 | for counters in range every output lies in 0..127; a zero difference leaves a streak of at least 1 |
| CountingAlgorithm.ForcedCreditNotTwice | lib/pni-vehicle-counting/Algorithm.js:65-76 | after a forced credit, a further cycle without contributions adds nothing |
| CountingAlgorithm.TestVectors | test/pni-vehicle-counting.Algorithm.test.js:48-228 | the unit tests' input/output pairs, including the wrap-around and all-zero cases, plus the all-zero cycle fed by a forced credit |
| LaneService.StringCompare | lib/pni-vehicle-counting/Service.js:31-33 | two ids agree exactly when they have the same length and agree letter by letter up to case; equal ids always agree |
| LaneService.NumberValue | lib/pni-vehicle-counting/Service.js:58-60 | a stored number is returned as it is; an unset one reads as 0 |
| LaneService.InitialState | lib/pni-vehicle-counting/Service.js:38-53 | unseen, readings unset, streak 0, previous change 0 |
| LaneService.StartState | lib/pni-vehicle-counting/Service.js:86-106 | the stored state is kept only when present and its id matches the configured sensor case-insensitively; otherwise the initial state is used |
| LaneService.Initial | lib/pni-vehicle-counting/Service.js:70-108 | lane id and count come from the record; the timeout defaults to 10 when not numeric; both positions start from `StartState`; nothing is armed or replied |
| LaneService.Service.constructor | lib/pni-vehicle-counting/Service.js:70-108 | the fields are exactly `Initial(info)` |
| LaneService.AfterEvent | lib/pni-vehicle-counting/Service.js:114-130 | every event keeps the lane id and interval and produces exactly one reply |
| LaneService.AfterFire | lib/pni-vehicle-counting/Service.js:294-301 | a timer expiry disarms the service and produces exactly one reply |
| LaneService.ResetPath | lib/pni-vehicle-counting/Service.js:121-127 | count 128: the sensor's streak, previous change and seen flag are cleared and a reading of 0 is rolled in; the other sensor, the count and the timer are untouched; the reply repeats the count |
| LaneService.SinglePath | lib/pni-vehicle-counting/Service.js:220-238 | neither sensor seen: the sensor is marked seen and rolled; the count is unchanged; a timer for this position is armed exactly when the interval is positive |
| LaneService.BothPath | lib/pni-vehicle-counting/Service.js:267-272 | counterpart seen: the event is rolled in and reconciled with the counterpart's readings; the count grows by the algorithm's delta; both leave unseen; nothing is armed |
| LaneService.RepeatPath | lib/pni-vehicle-counting/Service.js:247-259 | same sensor twice: the counterpart is resubmitted unchanged and reconciled, then the event is rolled in, the sensor stays seen and the timer is re-armed |
| LaneService.TimeoutPath | lib/pni-vehicle-counting/Service.js:294-301 | on expiry the silent counterpart is resubmitted unchanged and reconciled; the count grows by the delta; nothing is re-armed |
| LaneService.ArmsIff | lib/pni-vehicle-counting/Service.js:281-287 | an idle service arms a timer exactly when the event is not a reset, the interval is positive and the event does not complete a cycle |
| LaneService.CancelIdempotent | lib/pni-vehicle-counting/Service.js:136-141 | cancelling is idempotent, changes nothing when no timer is pending, and always disarms |
| LaneService.EventKeepsCountMonotone | lib/pni-vehicle-counting/Service.js:166-184 | handling an event in range keeps stored counters in range and never lowers the total; every reply's count is at most every later reply's |
| LaneService.FireKeepsCountMonotone | lib/pni-vehicle-counting/Service.js:294-301 | the same for a timer expiry |
| LaneService.InitialSound | lib/pni-vehicle-counting/Service.js:70-108 | a new service is in range whenever the stored states it adopts are |
| LaneService.Service.Handle | lib/pni-vehicle-counting/Service.js:114-130 | the new fields are `AfterEvent` of the old ones |
| LaneService.Service.CancelTimeout | lib/pni-vehicle-counting/Service.js:136-141 | the new fields are `Cancelled` of the old ones |
| LaneService.Service.Fire | lib/pni-vehicle-counting/Service.js:283-285 | only while armed; the new fields are `AfterFire` of the old ones |
| LaneService.Service.UpdateState | lib/pni-vehicle-counting/Service.js:156-160 | previous := current and current := the reading, for the chosen position only |
| LaneService.Service.Calculate | lib/pni-vehicle-counting/Service.js:166-193 | the fields become `Calculated` of the old ones: the total grows by the algorithm's delta and both sensors take its streaks and changes and leave unseen |
| LaneService.Service.SendResponse | lib/pni-vehicle-counting/Service.js:198-210 | exactly one reply carrying the current fields is appended |
| LaneService.Service.StateSingle | lib/pni-vehicle-counting/Service.js:220-238 | the new fields are `AfterSingle` of the old ones |
| LaneService.Service.StateRepeat | lib/pni-vehicle-counting/Service.js:247-259 | the new fields are `AfterRepeat` of the old ones |
| LaneService.Service.StateBoth | lib/pni-vehicle-counting/Service.js:267-272 | the new fields are `AfterBoth` of the old ones |
| LaneService.Service.StateStartTimeout | lib/pni-vehicle-counting/Service.js:281-287 | arms the timer for the position only when the interval is positive |
| LaneService.Service.StateTimeout | lib/pni-vehicle-counting/Service.js:294-301 | the new fields are `AfterTimeout` of the old ones |
| LaneService.Service.StateReset | lib/pni-vehicle-counting/Service.js:309-318 | the new fields are `AfterReset` of the old ones |
| CountingRegistry.VehicleCounting.constructor | lib/pni-vehicle-counting/index.js:30-36 | an empty cache |
| CountingRegistry.VehicleCounting.HandleEvent | lib/pni-vehicle-counting/index.js:44-54 | a fresh service is stored under the lane id, replacing any previous entry; only that entry changes; the previous one is disarmed; the new service's fields are `AfterEvent(Initial(info), ev)`; `Valid` is kept |
| CountingRegistry.VehicleCounting.FireTimer | lib/pni-vehicle-counting/Service.js:283-285 | only the cached, armed service of a lane can fire; `Valid` is kept |
| CountingRegistry.VehicleCounting.ClearState | lib/pni-vehicle-counting/index.js:60-65 | only that lane's entry is removed and disarmed, and nothing happens when it is absent |
| CountingRegistry.VehicleCounting.ClearCache | lib/pni-vehicle-counting/index.js:70-72 | the cache ends empty; no service ever built is armed; every formerly cached service is only disarmed |
| CountingRegistry.AtMostOneTimerPerLane | lib/pni-vehicle-counting/index.js:44-54 | two armed services of the same lane are the same service |
| CountingScenarios.BothSeen | test/pni-vehicle-counting.test.js:38-74 | front 1, then back 1 within the window: count 1 |
| CountingScenarios.LoneTimeout | test/pni-vehicle-counting.test.js:76-110 | front 1, then the window elapses: count 1 |
| CountingScenarios.TimeoutThenBoth | test/pni-vehicle-counting.test.js:112-150 | front 1, timeout, front 2, back 1: count 2 |
| CountingScenarios.RepeatBothTimeout | test/pni-vehicle-counting.test.js:152-192 | front 1, front 2, back 1, back 2, timeout: count 3 |
| CountingScenarios.BothReset | test/pni-vehicle-counting.test.js:194-229 | front 128, back 128: count 0 and no pending timer |
| Packets.NewPacket | models/Packet.js:25-64 | status -1, mode empty, not keep-alive, readings and error fields null |
| Packets.Packet.constructor | models/Packet.js:25-64 | the fields are exactly `NewPacket()` |
| Packets.Put | models/Packet.js:72-130 | the setter fails exactly for a status key once the status is set, in which case nothing changes; the status only changes when a status key fills an unset slot |
| Packets.Packet.TrySet | models/Packet.js:72-130 | the result and the new fields are `Put` of the old fields |
| Packets.StatusKeyEffects | models/Packet.js:74-106 | a status key on an unset packet sets the status, the mode (Presence or Counter) and, for the _55 keys, keep-alive; the readings stay |
| Packets.ReadingKeyEffects | models/Packet.js:108-122 | a reading key always succeeds and overwrites exactly its own field |
| Packets.UnknownKeyIgnored | models/Packet.js:124-129 | any other key succeeds and changes nothing |
| Packets.FreshAcceptsEveryKey | models/Packet.js:74-106 | a new packet accepts every key |
| Packets.StatusWrittenAtMostOnce | models/Packet.js:75-102 | over any series of setter calls the status changes at most once, and never once it is set |
| Packets.MinusOneLeavesUnset | models/Packet.js:75-79 | a status key carrying -1 is accepted by an unset packet but leaves it unset, so the next status key still fills it |
| PacketGrouping.Group | lib/PacketFactory.js:31-50 | no decoded object gives no packet; otherwise at least one packet |
| PacketGrouping.FlattenAppend | lib/PacketFactory.js:34-47 | the pairs of two lists of decoded objects are the pairs of the first followed by those of the second |
| PacketGrouping.Create | lib/PacketFactory.js:31-50 | the values of the returned fresh packets are `Group(results)` |
| PacketGrouping.FeedObject | lib/PacketFactory.js:39-46 | the pairs of one decoded object are fed in order |
| PacketGrouping.TryLast | lib/PacketFactory.js:40-45 | the pair goes to the last packet, or to a new one appended when the last refuses it |
| PacketGrouping.Step | lib/PacketFactory.js:40-45 | one step grows the list by at most one packet and never changes the packets before the last |
| PacketGrouping.Feed | lib/PacketFactory.js:38-47 | feeding never shrinks the list |
| PacketGrouping.FeedAppend | lib/PacketFactory.js:38-47 | feeding two series one after the other is feeding their concatenation |
| PacketGrouping.FeedShape | lib/PacketFactory.js:37-47 | without status keys a single unset packet; otherwise one packet per status key, with the statuses in input order |
| PacketGrouping.UnsetStatusSharesPacket | lib/PacketFactory.js:40-45 | a status key carrying -1 followed by another status key gives one packet for two status values |
| PacketGrouping.GroupCount | lib/PacketFactory.js:34-47 | empty input gives no packet; otherwise the number of packets is max(1, number of status keys) |
| PacketGrouping.ClosedPacketsStay | lib/PacketFactory.js:38-47 | later pairs never change a packet before the last one |
| PacketGrouping.RefusedKeyStartsPacket | lib/PacketFactory.js:40-45 | a refused key is applied to the new packet, where it succeeds and sets the status |
| PacketGrouping.OtherKeyGoesToLast | lib/PacketFactory.js:40-45 | a non-status key is accepted by the last packet and applied there; no packet is added and the earlier ones stay |
| Scopes.DoesScopeExist | lib/ScopeManager.js:42-49 | true exactly when the scope is one of the table's values, that is 'admin' or 'user' |
| Scopes.IsScopeValid | lib/ScopeManager.js:56-62 | admin satisfies every requirement; any other scope satisfies exactly its own requirement |
| Scopes.ValidityOrder | lib/ScopeManager.js:56-62 | the relation is reflexive and transitive |
| Scopes.UserNotAdmin | lib/ScopeManager.js:56-62 | user does not satisfy an admin requirement |
| ParkingLots.PublicInstance | models/ParkingLot.js:63-76 | id, name and capacity pass through; a negative count shows as 0; a count in [0, capacity] shows unchanged; a larger one shows as the capacity |
| ParkingLots.ShownCountInRange | models/ParkingLot.js:64-69 | with a non-negative capacity the shown count lies in [0, capacity] and is the nearest value in that range |
| ParkingLots.ClampIdempotent | models/ParkingLot.js:63-76 | showing an already clamped lot changes nothing |

## Left out

- Real `setTimeout`/`clearTimeout` and the millisecond delay. They become the `armed` flag and the explicit `Fire` step. The order in which timers and events interleave is the caller's choice.
- The event's `time` and `frameCount`, and the `wasReset` flag. They are carried but never interpreted; only the count is modelled.
- The callback's error argument, which is always `null`. The callback itself becomes the `replies` sequence.
- `LaneService.Service.Handle`: a service handles exactly one event, as the registry builds a fresh one per event (lib/pni-vehicle-counting/index.js:44-54). When the source re-arms a service that already has a pending timer, it overwrites the timer handle without clearing the earlier timer, so two timers are live and cancelling clears only the newer one. The model's single `armed` flag merges the two; `SinglePath`, `RepeatPath` and `AfterEvent` carry the same simplification.
- `LaneService.EventKeepsCountMonotone`: requires counters in 0..128, the device's counter domain. The source does not enforce it: out-of-range counters (previous 200, current 5) give a negative change and lower the count.
- Object aliasing. The source hands out references to its sensor-state objects and later mutates them in place. The model uses value semantics: each reply holds a copy.
- `LaneService.StringCompare`: lower-cases ASCII letters only; full Unicode `toLowerCase` is not modelled.
- `LaneService.Initial`: a timeout that is a number is modelled as a `real`; NaN and infinities are not modelled.
- Counts, streaks and previous changes are integers or unset; other JavaScript values that `numberValue` would map to 0 are not modelled.
- Fractional counter values are not modelled: the algorithm works on `int`.
- `PacketGrouping.FeedShape`: requires that no status key carries the value -1. Such a key is counted among the status values but fills no slot, so the one-packet-per-status shape fails: `("presence_21", -1)` then `("presence_21", 5)` gives one packet for two status values (`PacketGrouping.UnsetStatusSharesPacket`).
- `PacketGrouping.GroupCount`: requires the same, for the same reason; the count max(1, status keys) does not hold when a status key carries -1.
- Packet values are opaque `real`s; NaN (which never equals -1) is not modelled.
- A decoded object is a sequence of key/value pairs in the order its keys are listed. A model sequence may repeat a key, which a JavaScript object cannot.
- The `cayenne-lpp` decoder and `lib/UplinkService.js` are not part of this model: database lookups, persistence, and the caller's sign rule for a change.
- Database access, HTTP controllers and routers, and the OAuth2 server and middleware are not part of this model.
- `ParkingLots.ShownCountInRange`: requires a non-negative capacity. The API validates `totalSpaces` as a positive integer; with a negative capacity and a non-negative count the source shows that capacity, while a negative count still shows 0 (both are stated by `ParkingLots.PublicInstance`).
- The parking lot's `createdAt` date; null or missing counts and capacities.
