# QNX lab programs: air defence and power station logistics

This project models the decision logic of two groups of QNX real-time lab
programs and proves properties of it in Dafny.

**Air defence (Lab4).** Plates fly across the screen in horizontal lanes. Two
locators on each side (LEFT-1/LEFT-2, RIGHT-1/RIGHT-2) raise an interrupt
when a plate passes.

- `cur.cpp` tracks up to 30 plates in a slot table. It pairs the two
  timestamps of a side to get the plate's speed and direction. A fast plate
  gets one of 15 guided interceptors (RUS), steered head-on or in pursuit.
  A slow plate gets a rocket, timed to hit above the centre.
- `air_defense.cpp` is the single-target predecessor: a few globals and a
  rocket shot after LEFT-1 and LEFT-2 have both seen the plate.

**Power station (Lab3).** Trucks carry fuel units from a FIFO store to four
boilers. A boiler burns one unit per tick.

- `two_trucks.cpp` has two trucks. Boilers running low are served first, and
  a `targeted` flag keeps two trucks from choosing the same boiler.
- `boiler_server.cpp` is the same plant, but it fetches each unit from
  `storage_server.cpp` over a socket with a "POP" request and decodes the
  decimal reply with `atoi`.
- `electrostation.cpp` has a single truck. It has no flags, and a unit fills
  a boiler for two half-second ticks.

How the C is mapped:

- Each mutex-protected critical section is one atomic method of a class.
- Parallel C arrays are one array of records.
- The clock is a `now` parameter, and `rand()` is a parameter with the range
  the program draws from.
- Hardware register writes are appended to a `trace` of `Write` values.
- The floating-point arithmetic is replaced by exact integer forms of the
  same real numbers:
  - speed ≥ 100 becomes `100 * dt <= 10^7`;
  - the rocket delay becomes `38*dt − 10000*max(0, 570 − y)` µs;
  - the meeting test becomes `max(0, 570 − y) * speed < 95000`;
  - `(int)round(10^7/dt)` becomes the nearest integer, with halves rounded up.

Each class method is specified by a function of the old state. The pure
functions carry the first-fit, "nothing else changes" and round-trip
properties. The classes keep these invariants:

- `Tidy`: at most 30 used slots, unused slots free, no slot with both a left
  and a right timestamp, and at most one live track per lane.
- `Dispatched`: a boiler is flagged targeted exactly when some truck heads to
  it, and no two trucks head to the same boiler.
- `Stocked`: the store holds at most 20 units, each in 1..10.

One behaviour of the two-truck plants is kept as written. A truck that loads
a unit when no boiler can be chosen keeps the unit and goes back to the
store. Its next load overwrites that unit (`AfterLoad`).

## Model

| member | source | states |
|---|---|---|
| Tracks.Latest | Lab4/cur.cpp:120-125 | the latest sighting is at least every timestamp and 0, and is one of them or 0 |
| Tracks.Swept | Lab4/cur.cpp:116-142 | cleanup keeps the table length and rewrites slot i exactly as the reclamation rule says: a used slot seen more than 3 s ago, or processed and seen more than 1 s ago, becomes the all-zero free slot; every other slot is unchanged |
| Tracks.SweepIdempotent | Lab4/cur.cpp:116-142 | a second cleanup with the same clock changes nothing |
| Tracks.ActiveFrom | Lab4/cur.cpp:147-156 | gives the lowest used index holding a live track of the lane, or -1 when there is none |
| Tracks.FreeFrom | Lab4/cur.cpp:157-172 | gives the lowest used index holding a processed slot, or -1 when there is none |
| Tracks.Place | Lab4/cur.cpp:145-187 | find_or_create_plate: an existing live track is returned first (lowest index, nothing changes); otherwise the lowest processed slot is re-initialised for the lane; otherwise a slot is appended and the count rises by one while it is below 30; -1 exactly when all 30 slots are used and live with other lanes, and then nothing changes; no other slot changes |
| Tracks.PlaceIsStable | Lab4/cur.cpp:145-187 | asking again for the same lane returns the same slot and changes nothing |
| Tracks.Admitted | Lab4/cur.cpp:538-545 | a successful first lookup is the result; after a failed one the table is swept once and the result is the second lookup on the swept table, and a second failure leaves the swept table |
| Tracks.Sensed | Lab4/cur.cpp:548-592 | a left sensor is ignored when a right timestamp is set, and vice versa; otherwise it stores `now` and sets the direction to +1 or -1; processing starts exactly when the same-side partner timestamp is nonzero; unknown locators change nothing; the lane, speed and processed flag never change; one-sidedness is preserved |
| Tracks.Handled | Lab4/cur.cpp:538-592 | a locator event either finds no slot, leaving the swept table, or lands in the admitted slot of its own lane, which becomes Sensed of that slot (and the thread started is Sensed's), while every other slot is as Admitted left it |
| Tracks.InitiallyTidy | Lab4/cur.cpp:598-610 | the initial table (30 free slots, none used) satisfies the table invariant |
| Tracks.PlaceKeepsTidy | Lab4/cur.cpp:145-187 | find_or_create_plate keeps the invariant: at most 30 used slots, unused slots free, at most one live track per lane |
| Tracks.SweepKeepsTidy | Lab4/cur.cpp:116-142 | cleanup keeps the table invariant |
| Tracks.HandledKeepsTidy | Lab4/cur.cpp:538-592 | every locator event keeps the table invariant, so no slot ever holds both a left and a right timestamp |
| Tracks.Closed | Lab4/cur.cpp:284-294 | marking a slot processed keeps its lane, its four timestamps, its speed and its direction |
| Intercept.Gap | Lab4/cur.cpp:315-317 | late − early is non-negative and is the difference of the two timestamps in one order or the other |
| Intercept.RoundedSpeed | Lab4/cur.cpp:328-333 | the stored speed is the integer nearest to 10^7/dt, halves rounded up |
| Intercept.Climb | Lab4/cur.cpp:227-228 | the vertical distance is 570 − y clamped at 0 |
| Intercept.RocketDelay | Lab4/cur.cpp:373-379 | for dt > 0 the delay in µs equals 10^6 × (380/speed − climb/100) seconds over reals, with speed = 10^7/dt, and the same identity holds cross-multiplied for every dt |
| Intercept.Meets | Lab4/cur.cpp:226-236 | with a positive speed, head-on exactly when the climb time climb/250 s is less than the target's time to the centre 380/speed s; with no speed, compared with the 10^9-second sentinel |
| Intercept.Heading | Lab4/cur.cpp:243-252 | for direction ±1 the interceptor flies against the target exactly when it meets, and with it exactly when it pursues |
| Intercept.Decide | Lab4/cur.cpp:319-400 | a gap outside (500, 2·10^7) is discarded; otherwise a RUS is wanted exactly when the plate is fast, and is granted exactly when a unit is free; a slow plate gets a rocket with the positive RocketDelay, or is too late when that delay is ≤ 0 |
| Intercept.FastIffShortGap | Lab4/cur.cpp:340 | for dt > 0 the integer test holds exactly when the speed 10^7/dt is at least 100, and exactly when dt ≤ 100000 µs |
| Intercept.TruncatedSpeed | Lab4/air_defense.cpp:152-155 | the single-target speed is 10^7/dt truncated |
| Intercept.UnclampedDelay | Lab4/air_defense.cpp:159-169 | the single-target delay is 10^6 × (380/speed − (570 − y)/100) µs with speed = 10^7/dt; it equals RocketDelay at or above row 570, and below it is RocketDelay + 10000 × (y − 570), because the climb is not clamped |
| Intercept.Classify | Lab4/air_defense.cpp:176-194 | fire after the delay exactly when it is > 1000; fire at once exactly when it is in [−10^6, 1000]; hold fire exactly when it is < −10^6 |
| MultiTarget.FirstIdleFrom | Lab4/cur.cpp:75-86 | gives the lowest idle unit, or -1 when all are active |
| MultiTarget.AcquisitionsDiffer | Lab4/cur.cpp:75-86 | two acquisitions with no release in between never return the same unit |
| MultiTarget.Commanded | Lab4/cur.cpp:97-113 | the RCMN/RCMC pair is written exactly for an in-range, active unit, and nothing otherwise |
| MultiTarget.PairGap | Lab4/cur.cpp:307-317 | the gap is the non-negative difference of the LEFT-1/LEFT-2 timestamps for the left-to-right thread and of the RIGHT-1/RIGHT-2 timestamps for the right-to-left one |
| MultiTarget.AfterProcessing | Lab4/cur.cpp:319-335 | a discarded pair only sets processed; otherwise the rounded speed and the direction are stored, and a too-late rocket also closes the slot; the lane and timestamps never change |
| MultiTarget.AirDefense.constructor | Lab4/cur.cpp:598-612 | 30 free slots, none used, 15 idle units, no hits, no register writes |
| MultiTarget.AirDefense.InitRusArray | Lab4/cur.cpp:64-72 | every unit idle |
| MultiTarget.AirDefense.GetAvailableRus | Lab4/cur.cpp:75-86 | returns the lowest idle unit and marks only it active; -1 and no change when all 15 are busy |
| MultiTarget.AirDefense.ReleaseRus | Lab4/cur.cpp:89-94 | clears one flag; ids outside 0..14 change nothing |
| MultiTarget.AirDefense.SendRusCommand | Lab4/cur.cpp:97-113 | appends the Commanded writes to the trace |
| MultiTarget.AirDefense.CleanupOldPlates | Lab4/cur.cpp:116-142 | the table becomes Swept of the old one; the invariant is kept |
| MultiTarget.AirDefense.FindOrCreatePlate | Lab4/cur.cpp:145-187 | table, count and returned index are Place of the old table |
| MultiTarget.AirDefense.LocatorHandler | Lab4/cur.cpp:522-595 | with 25 hits or a width other than 3 nothing changes; otherwise table, count, slot and start are Handled of the old table |
| MultiTarget.AirDefense.ProcessTrack | Lab4/cur.cpp:302-403 | the plan is Decide of the slot's pair gap, lane and the first idle unit; only that slot changes, to AfterProcessing; the unit is taken only on a Guided plan |
| MultiTarget.AirDefense.RusShoot | Lab4/cur.cpp:213-269 | writes START, then the Heading command, to an active unit; closes the slot, counts one hit and frees the unit |
| MultiTarget.AirDefense.Shoot | Lab4/cur.cpp:272-299 | a positive delay writes GUNS and counts a hit; either way only the slot is closed |
| SingleTarget.OnEvent | Lab4/air_defense.cpp:102-221 | non-plates and sensors 3/4 change nothing; LEFT-1 restarts the pair for a new lane and always stores `now` and the lane; LEFT-2 acts only after LEFT-1 in the same lane and then always disarms; a gap in (1000, 10^7) sets direction 1 and the truncated speed and yields the Classify decision |
| SingleTarget.PairShootsOnce | Lab4/air_defense.cpp:122-203 | LEFT-1 then LEFT-2 in one lane shoots exactly when the gap is in the window and the delay is ≥ −10^6; a repeated LEFT-2 then does nothing |
| SingleTarget.Tracker.constructor | Lab4/air_defense.cpp:228-234 | all tracking globals zero |
| SingleTarget.Tracker.LocatorHandler | Lab4/air_defense.cpp:102-221 | the globals and decision are OnEvent of the old globals; GUNS is written exactly when the decision is to fire |
| Wire.FormatInt | Lab3/storage_server.cpp:50 | `%d` text: a minus sign exactly for negatives, then digits |
| Wire.AtoiFormatInt | Lab3/boiler_server.cpp:129-130 | `atoi` recovers exactly the integer printed with `%d`, negatives included |
| Wire.ShortFormat | Lab3/boiler_server.cpp:125-126 | replies from −9 to 99 are at most 3 bytes, well inside the 31-byte read |
| FuelStore.Produced | Lab3/two_trucks.cpp:341-345 | the producer appends its mark only while the store holds fewer than 20, and keeps the store within 20 units of 1..10 |
| FuelStore.ProducedKeepsPrefix | Lab3/storage_server.cpp:74-81 | any run of producer rounds keeps the stored units in order and never takes the store past 20 |
| StorageServer.Serve | Lab3/storage_server.cpp:32-62 | POP on a non-empty store replies with the front unit and removes exactly it; POP on an empty store replies -1 and changes nothing; SIZE replies the length; anything else gets no reply; the store stays within 20 units of 1..10 and a POP reply is a mark or -1 |
| StorageServer.DrainInOrder | Lab3/storage_server.cpp:32-52 | popping the whole store returns the units in FIFO order, then -1 |
| StorageServer.Encoded | Lab3/storage_server.cpp:49-61 | a reply is sent exactly when there is one, and `atoi` of its bytes is the replied integer |
| StorageServer.Server.constructor | Lab3/storage_server.cpp:93-96 | ten initial units of 1..10 |
| StorageServer.Server.Produce | Lab3/storage_server.cpp:70-85 | the store becomes Produced of the old one |
| StorageServer.Server.HandleRequest | Lab3/storage_server.cpp:20-67 | the store and reply bytes are Serve and Encoded of the old store |
| TwoTruckPlant.FirstLowFrom | Lab3/two_trucks.cpp:157-164 | gives the lowest low-fuel, untargeted boiler, or -1 |
| TwoTruckPlant.FirstWaitingFrom | Lab3/two_trucks.cpp:167-174 | gives the lowest waiting, untargeted boiler, or -1 |
| TwoTruckPlant.Selection | Lab3/two_trucks.cpp:154-178 | low-fuel untargeted boilers first, then waiting untargeted ones, lowest index first; never a targeted boiler; -1 exactly when none qualifies |
| TwoTruckPlant.SelectionsDiffer | Lab3/two_trucks.cpp:154-178 | two selections with no unload between them pick different boilers |
| TwoTruckPlant.Ticked | Lab3/two_trucks.cpp:585-613 | a burning boiler with fuel loses one unit and is flagged low once at ≤ 2; at 0 it waits again with mark 0 and no low flag; a waiting boiler is untouched; the targeted flag and boiler coherence are kept |
| TwoTruckPlant.BurnsOut | Lab3/two_trucks.cpp:579-619 | a boiler filled to level L burns for L ticks and waits, unmarked, on the next one |
| TwoTruckPlant.Refuelled | Lab3/two_trucks.cpp:429-441 | unloading sets burning with level = mark = fuel, and clears the low and targeted flags |
| TwoTruckPlant.AfterLoad | Lab3/two_trucks.cpp:377-403 | a truck not at the store or without a unit changes nothing; with a unit it carries it towards Selection of the boilers, which is flagged targeted, or back to the store when none is free; other trucks are unchanged |
| TwoTruckPlant.AfterUnload | Lab3/two_trucks.cpp:428-457 | only a truck bound for a boiler unloads, and it turns back to the store; with fuel it parks empty and its boiler becomes Refuelled, no other boiler changing; without fuel no boiler changes; other trucks are unchanged |
| TwoTruckPlant.InitiallyDispatched | Lab3/two_trucks.cpp:30-45 | the initial boilers and trucks satisfy the plant invariant |
| TwoTruckPlant.LoadKeepsDispatched | Lab3/two_trucks.cpp:377-403 | loading a positive unit keeps the plant invariant: the loading truck becomes the only one heading to its new boiler |
| TwoTruckPlant.UnloadKeepsDispatched | Lab3/two_trucks.cpp:428-457 | unloading keeps the plant invariant |
| TwoTruckPlant.TickKeepsDispatched | Lab3/two_trucks.cpp:585-613 | a boiler tick keeps the plant invariant |
| TwoTruckPlant.SelectAvailableBoiler | Lab3/two_trucks.cpp:154-178 | returns Selection of the old boilers and flags only that boiler |
| TwoTruckPlant.DispatchTruck | Lab3/two_trucks.cpp:385-394 | boilers and trucks become AfterLoad with the unit in hand |
| TwoTruckPlant.UnloadTruck | Lab3/two_trucks.cpp:428-457 | boilers and trucks become AfterUnload |
| TwoTruckPlant.BoilerTick | Lab3/two_trucks.cpp:585-613 | only boiler `id` changes, to Ticked |
| TwoTrucks.Station.constructor | Lab3/two_trucks.cpp:629-632 | ten initial units, cold boilers, parked trucks, invariant established |
| TwoTrucks.Station.Produce | Lab3/two_trucks.cpp:336-350 | the store becomes Produced of the old one |
| TwoTrucks.Station.Load | Lab3/two_trucks.cpp:377-403 | a parked truck at a non-empty store pops the front unit (FIFO) and the plant becomes AfterLoad; an empty store pops nothing |
| TwoTrucks.Station.Unload | Lab3/two_trucks.cpp:428-457 | the plant becomes AfterUnload and the invariant is kept |
| TwoTrucks.Station.Tick | Lab3/two_trucks.cpp:579-619 | the plant becomes AfterTick and the invariant is kept |
| BoilerServer.RequestFuelFromStorage | Lab3/boiler_server.cpp:113-134 | -1 with no socket, a failed write or nothing read; otherwise `atoi` of the bytes read, of which at most 31 are kept |
| BoilerServer.FetchRoundTrip | Lab3/boiler_server.cpp:113-134 | over a working connection the client decodes exactly the unit the server popped, or -1 for an empty store; the value is positive exactly when the store was not empty |
| BoilerServer.Station.constructor | Lab3/boiler_server.cpp:35-54 | cold boilers, parked trucks, invariant established |
| BoilerServer.Station.Load | Lab3/boiler_server.cpp:378-399 | only a positive reply is loaded, and the plant becomes AfterLoad with it; otherwise the truck stays at the store with no boiler claimed |
| BoilerServer.Station.Unload | Lab3/boiler_server.cpp:420-437 | the plant becomes AfterUnload and the invariant is kept |
| BoilerServer.Station.Tick | Lab3/boiler_server.cpp:535-570 | the plant becomes AfterTick and the invariant is kept |
| Electrostation.FirstWaitingFrom | Lab3/electrostation.cpp:304-312 | gives the lowest waiting boiler, or -1 |
| Electrostation.Target | Lab3/electrostation.cpp:304-318 | the lowest waiting boiler when there is one, otherwise the random choice; always a real boiler |
| Electrostation.Fired | Lab3/electrostation.cpp:353-364 | unloading sets burning with level = 2 × fuel and mark = fuel |
| Electrostation.Ticked | Lab3/electrostation.cpp:388-411 | a burning boiler with fuel loses one unit; at 0 it waits with mark 0; a waiting boiler is untouched; coherence is kept |
| Electrostation.BurnsFor | Lab3/electrostation.cpp:383-416 | a boiler filled with level L burns for L half-second ticks and waits, unmarked, on the next |
| Electrostation.Station.constructor | Lab3/electrostation.cpp:426-429 | ten initial units, cold boilers, a parked truck |
| Electrostation.Station.Produce | Lab3/electrostation.cpp:255-269 | the store becomes Produced of the old one |
| Electrostation.Station.Load | Lab3/electrostation.cpp:297-327 | a parked truck at a non-empty store pops the front unit and always heads for Target; an empty store pops nothing |
| Electrostation.Station.Unload | Lab3/electrostation.cpp:352-374 | the target boiler becomes Fired with the truck's unit, and the truck is parked and empty |
| Electrostation.Station.Tick | Lab3/electrostation.cpp:383-416 | only boiler `id` changes, to Ticked |

## Left out

- Threads and mutexes: each critical section is one atomic step. The interleavings, the unlocked read of `destroyed_plates` and the hazard of a detached shooter thread writing a slot that cleanup has meanwhile reset and reused are not modelled.
- MultiTarget.AirDefense.ProcessTrack: makes one acquisition attempt where the program polls `get_available_rus` forever, with cleanup and a 50 ms sleep between attempts (Lab4/cur.cpp:350-354); "none free" surfaces as `NoUnitFree`, and no rocket fallback is invented.
- Timing: `usleep`/`sleep`, the shooter's wait before firing, the 2-second periodic cleanup and the 5-minute limit of the main loop, and the animation delays are not modelled; the clock is the `now` parameter, and a cleanup inside the handler uses the handler's `now`.
- Hardware: `getreg` values are parameters, `putreg` writes are `trace` entries, and `InterruptAttach`/`InterruptDetach` are not modelled.
- Floating point: speeds, delays and times are exact integers or exact rational comparisons, and `double` rounding error is not modelled.
- Integer width: `int` and `long long` are unbounded here; C overflow, and `atoi` on out-of-range text, are not modelled.
- Allocation and thread creation failures (`malloc`, `pthread_create`) that drop a track or free a unit are not modelled.
- Sockets: connecting, accepting and the byte transport are not modelled; the write's success, the descriptor and the bytes read are parameters, and a request is served as one whole read.
- `rand()`: each draw is a parameter in the range the program draws from.
- Graphics, terminal raw mode and `printf` logging, including `log_detection`, are not modelled; the hit counter incremented by the logging functions is.
- `step0` of air_defense.cpp, myprog.cpp and the `main` functions beyond their initial state are not part of this model; nor are the Lab1/Lab2 animation programs, the RGR and Lexa microbenchmarks, or vingraph.h.
- The LOADING and UNLOADING truck states: each is set in a critical section of its own, shown by the display during the loading or unloading animation, and overwritten by the next critical section. Only the display reads them, so the model has no such states and no step for setting them.
