# Troon network simulation

This project models the per-tick engine of a train ("troon") simulation in
Dafny. The engine exists in two variants: `main.cc` and `bonus.cc`.

A network of stations is joined by directed links. Each link has a length in
ticks and the popularity of its source station. Three lines run across the
network: green, yellow and blue. Each line is an ordered list of stations, and
its troons shuttle along it, turning back at either terminus.

Every link holds three things:
- a *holding area* of troons waiting at its source station;
- at most one *loading* troon, which is boarding;
- at most one *transiting* troon, which is on its way to the destination.

Each tick of the simulation has four phases:
1. **Spawn.** Each line, while its budget lasts, spawns one troon forward and
   one backward onto its two terminal links.
2. **Run.** Every link delivers its due transiting troon into the holding area
   of the link the troon takes next. It then promotes its due loading troon to
   transiting, with timer `tick + len`.
3. **Flush.** Every link whose loading slot is empty takes the first waiting
   troon. The order is earliest arrival first, then lowest id. The troon
   departs one tick after both its boarding time and the arrival of the troon
   ahead of it.
4. **Report.** In the last `num_lines` ticks, the descriptors of all troons
   are reported, sorted. Descriptors look like `g3-A#`, `y4-B%` and `b5-C->D`.

The two variants differ as follows:

| | `main.cc` | `bonus.cc` |
|---|---|---|
| holding area | binary heap (`std::priority_queue`) | double-ended queue; `flush_buffers` sorts only the entries added since its last call (the suffix after `prev_sz`) and takes the front |
| `INVALID_TROON` timer | `INT_MAX` | `-1` |
| report | one sorted list of all troons | one sorted list per line |
| input | `std::ifstream` | a hand-written tokenizer (`read_int`, `read_string`, `read_line`) over a memory-mapped file |

A single functional specification covers both variants. It is parameterised
by `Variant`: `PriorityQueue` for `main.cc` and `SortedSuffix` for `bonus.cc`.

- **Pure parts.** Troons and their order, descriptor strings, and link
  operations on `LinkState` values are datatypes and functions, with lemmas
  about them.
- **Imperative parts.** `Engine.Link` is a class whose methods update its
  fields and are proved against those functions. `Engine.Simulate` and the
  table builders in `Routes` are loops proved against the functional
  simulation. `Tokenizer` is loops over a character buffer.
- **Whole-run properties.** These are proved about the functional simulation
  `Simulation.Simulate`. The imperative `Engine.Simulate` is proved equal to
  it. The properties are:
  - the network invariant;
  - conservation of troons;
  - spawn budgets;
  - report timing and sortedness.

Files:

| file | contents |
|---|---|
| `text.dfy` | digits, decimal strings, string order |
| `sorting.dfy` | `std::sort` modelled as insertion sort |
| `troons.dfy` | `Troon`, `WaitingTroon`, their orders, `to_string` |
| `holding.dfy` | both holding areas |
| `network.dfy` | link operations (`run`, `enqueue_troon`, `flush_buffers`, `current_troons`) on values |
| `invariants.dfy` | the network invariant and its preservation |
| `conservation.dfy` | troon-id bookkeeping |
| `worlds.dfy` | the simulation state |
| `simulation.dfy` | the functional tick and simulation |
| `tick_facts.dfy` | properties of ticks and whole runs |
| `routes.dfy` | link-table and station-list construction |
| `tokenizer.dfy` | `bonus.cc`'s reader |
| `engine.dfy` | the `Link` class and the imperative simulation |

## Model

| member | source | states |
|---|---|---|
| Troons.LineColor | main.cc:25 | the line of index i < 3 is a real line whose table row is i |
| Troons.AfterIsBeforeSwapped | main.cc:59-63 | main.cc's `operator>` on waiting troons is bonus.cc's `operator<` with the arguments swapped, so both variants order the holding area the same way |
| Troons.WaitingOrder | bonus.cc:57-61 | the waiting-troon order is irreflexive and transitive; two entries are unordered exactly when they share arrival tick and id; "not after" is a total preorder |
| Troons.DescriptorInjective | main.cc:43-48 | at one station, two troons with non-negative ids have the same descriptor only if they have the same id and line letter |
| Text.DigitChar | main.cc:47 | the digit character of d < 10 is a digit whose value is d |
| Text.NatToDecimal | main.cc:47 | `std::to_string` of a non-negative id is a non-empty digit string with no leading zero |
| Text.DecimalRoundTrip | main.cc:47 | reading back the decimal string of n gives n |
| Text.NatToDecimalInjective | main.cc:47 | distinct ids have distinct decimal strings |
| Text.StrLessIrreflexive | main.cc:190-191 | no string is lexicographically less than itself |
| Text.StrLessTransitive | main.cc:190-191 | the lexicographic order of `std::string` is transitive |
| Text.StrLessTotal | main.cc:190-191 | any two different strings are ordered one way or the other |
| Text.StrLeTotalPreorder | main.cc:190-191 | the string order the report is sorted by is total and transitive |
| Text.StrLeAntisymmetric | main.cc:190-191 | strings ordered both ways are equal, so the sorted report is unique |
| Sorting.InsertPermutes | main.cc:190-191 | inserting into a sorted list adds exactly that element |
| Sorting.InsertSorted | main.cc:190-191 | inserting into a sorted list keeps it sorted, for any total preorder |
| Sorting.SortCorrect | main.cc:190-191 | `std::sort` yields a sorted permutation of its input |
| Sorting.SortOfSorted | bonus.cc:111 | sorting an already sorted range leaves it unchanged |
| Sorting.SortedHeadIsLeast | bonus.cc:111-112 | the front of a sorted range is no greater than any of its elements |
| Holding.MinIndex | main.cc:73-75 | the heap top is an entry no later than every entry in the heap, and strictly earlier than every entry before it in the sequence |
| Holding.RemoveAt | main.cc:120 | `pop` removes exactly the top entry |
| Holding.DrainPermutation | main.cc:127-133 | popping the heap until it is empty yields exactly its entries |
| Holding.DrainSorted | main.cc:127-133 | the entries come out of the heap in (time, id) order |
| Holding.DrainSortedPermutation | main.cc:127-136 | popping everything gives a sorted permutation of the heap |
| Holding.PrefixPrecedes | bonus.cc:109-116 | every entry of the sorted prefix precedes every entry of the unsorted suffix |
| Holding.JoinSorted | bonus.cc:111 | a sorted prefix followed by a sorted suffix that it precedes is sorted as a whole |
| Holding.ArrangeSorted | bonus.cc:111 | sorting the suffix after `prev_sz` makes the whole holding area a sorted permutation of itself |
| Holding.ArrangePermutes | bonus.cc:111 | sorting the suffix changes the order of entries, not the entries themselves |
| Holding.SplitFirst | bonus.cc:114 | `pop_front` removes exactly the front entry |
| Holding.Pick | main.cc:113-120 | the variant's choice from the holding area leaves one entry fewer; in main.cc no sorted prefix remains |
| Holding.PickPermutes | bonus.cc:111-115 | the chosen entry plus the rest is exactly the old holding area, in both variants |
| Holding.PickIsLeast | bonus.cc:111-115 | the chosen entry is in the holding area and no later than any other; bonus.cc's rest is again sorted up to the new `prev_sz` |
| Holding.SameChoice | bonus.cc:109-117 | with the same entries and distinct ids, bonus.cc's sort-suffix-and-take-front picks the same troon as main.cc's heap top and leaves the same entries |
| Holding.AppendKeepsOrder | bonus.cc:104-107 | appending an entry that arrives after the sorted prefix keeps that prefix ordered before the rest |
| Network.InvalidTroon | main.cc:51 | `INVALID_TROON` is unoccupied, on the invalid line, and its timer (INT_MAX in main.cc, -1 in bonus.cc at bonus.cc:49) is no tick the simulation reaches |
| Network.RunLinkArrival | main.cc:83-104 | a due transiting troon joins the next link's holding area at this tick, turning back at a terminus; it leaves its slot, which the due loading troon takes with timer tick + len, emptying the loading slot; the next link gains only that entry, link i keeps its segment and (when it is not the next link) its holding area, and no other link changes |
| Network.RunLinkQuiet | main.cc:83-104 | with no arrival due, run only promotes the due loading troon, and only on this link |
| Network.InvalidNeverFires | main.cc:86-103 | on a link with both slots `INVALID_TROON`, run changes nothing at any tick below INT_MAX (bonus.cc:84-101 likewise) |
| Network.FlushSpec | main.cc:111-122 | with a waiting troon and a free loading slot, flush takes the least waiting troon; its departure timer is at least tick + popularity + 2 and, when there is a transiting troon, later than that troon's arrival; otherwise nothing changes (bonus.cc:109-117 likewise) |
| Network.HeldStringsConcat | main.cc:129-131 | the held descriptors of two holding areas, one after the other, are their descriptors concatenated |
| Network.HeldStringsPush | main.cc:129-131 | pushing one entry adds exactly its descriptor |
| Network.HeldStringsRemove | main.cc:129-132 | removing one entry removes exactly its descriptor |
| Network.HeldStringsPermutation | main.cc:127-136 | holding areas with the same entries give the same multiset of descriptors, whatever the heap's order |
| Network.CurrentTroonsCounts | main.cc:124-145 | current_troons writes each waiting troon once (`#`), the loading troon if any (`%`) and the transiting troon if any (`->` destination), and nothing else |
| Invariants.EnqueueOk | main.cc:106-109 | enqueueing a troon that runs along the link keeps the link invariant |
| Invariants.ArrivalPlaced | main.cc:86-93 | a due troon has a station-list entry; the link it moves to exists in the link table, and the troon runs along it |
| Invariants.PromoteOk | main.cc:99-103 | promotion keeps the invariant and leaves no pending timer at this tick |
| Invariants.ArrivalOk | main.cc:86-95 | the arrival step keeps the invariant on every link and never touches a link's segment |
| Invariants.ClearTransitOk | main.cc:94 | emptying the transiting slot keeps the invariant |
| Invariants.OthersOk | main.cc:175-177 | links untouched by link i's run keep their invariant while the run loop moves past i |
| Invariants.ArriveOk | main.cc:86-95 | arrival is defined, keeps the segments, and keeps every link's invariant |
| Invariants.RunLinkOk | main.cc:83-104 | a link's run is defined, keeps the segments, and advances the invariant of every link from "due this tick" to "due after link i" |
| Invariants.SubHoldingOk | main.cc:111-122 | entries left after flushing still run along the link and arrived no later than now |
| Invariants.FlushOk | main.cc:111-122 | flushing keeps the segment and moves every link's invariant on to the next tick |
| Invariants.FlushTakesOk | main.cc:112-120 | a flush that takes a troon gives it a timer later than this tick and later than the transiting troon's |
| Invariants.TakenOk | main.cc:112-120 | the troon taken by a flush and every entry left behind are real troons running along the link; bonus.cc's sorted prefix stays ordered, main.cc's stays empty |
| Invariants.DepartureAfter | main.cc:114-119 | the departure timer is at least two ticks after now and later than the transiting troon's timer |
| Invariants.DepartureFits | main.cc:114-119 | under the headroom bound, 1 + popularity + tick and the departure timer fit in an int |
| Conservation.UptoCount | main.cc:152 | the ids issued so far are each issued exactly once |
| Conservation.HoldIdsConcat | main.cc:106-109 | the ids in two holding areas together are the ids of each |
| Conservation.HoldIdsPermutation | main.cc:127-136 | reordering a holding area keeps its ids |
| Conservation.IdsUpdate | main.cc:175-177 | replacing one link changes the network's ids by exactly that link's change |
| Conservation.LinkIdsIncluded | main.cc:175-177 | one link's ids are among the network's |
| Conservation.EnqueueIds | main.cc:106-109 | enqueueing adds exactly the troon's id |
| Conservation.EnqueueNetIds | main.cc:93 | enqueueing on link k adds exactly the troon's id to the network |
| Conservation.ClearNetIds | main.cc:94 | emptying a transiting slot removes exactly its troon's id |
| Conservation.ArriveIds | main.cc:86-95 | an arrival moves a troon between links without creating or losing one |
| Conservation.PromoteIds | main.cc:99-103 | promotion moves a troon between slots without creating or losing one |
| Conservation.RunLinkIds | main.cc:83-104 | running a link keeps the network's troon ids |
| Conservation.DueSlots | main.cc:86-99 | a slot whose timer is this tick holds a real troon, and a due loading troon never finds a transiting troon that is not also due |
| Conservation.TakeIds | main.cc:113-120 | the taken entry plus the rest carries the holding area's ids |
| Conservation.FlushIds | main.cc:111-122 | flushing keeps the link's troon ids (bonus.cc:109-117 likewise) |
| Conservation.DrainIds | main.cc:127-136 | draining and refilling the heap keeps the link's troon ids |
| Conservation.HoldIdsTwice | main.cc:152 | a holding area with two entries of the same troon counts that id twice |
| Conservation.ConservedCounts | main.cc:152 | in a conserved network every issued id is held exactly once and no other id is held |
| Conservation.ConservedDistinct | main.cc:73-75 | in a conserved network no holding area holds a troon twice |
| Simulation.RunFrom | main.cc:175-177 | running links i.. in order keeps the segments and leaves every link's invariant due at the next tick |
| Simulation.RunDone | main.cc:175-177 | once every link has run, every link's pending timers are later than this tick |
| Simulation.RunLinkReady | main.cc:175-177 | link i can run, and after it the loop's invariant holds for i + 1 |
| Simulation.Phases | main.cc:165-183 | spawn, run and flush take a state ready at `tick` to one ready at `tick + 1`, keep the links and reports, and leave the spawn phase's budgets and next id |
| Simulation.SpawnedRunnable | main.cc:166-177 | after spawning, the run loop can start |
| Simulation.FlushedReady | main.cc:179-183 | after running and flushing every link, the state is ready for the next tick |
| Simulation.FlushFits | main.cc:179-183 | after the spawn and run phases, every departure timer the flush loop may assign fits in an int |
| Simulation.Tick | main.cc:165-199 | a tick keeps the state ready; it appends exactly one report, stamped with this tick, when tick + num_lines >= ticks, and none otherwise; earlier reports are unchanged |
| Simulation.SpawnPlaced | main.cc:168-169 | a troon spawned on line i in direction j runs along its spawn link |
| Simulation.SpawnDirectionsOk | main.cc:167-171 | spawning keeps every link's invariant and a non-negative next id |
| Simulation.SpawnLinesOk | main.cc:166-172 | the spawn phase keeps every link's invariant and a non-negative next id |
| Simulation.FlushUpToOk | main.cc:181-183 | the flush loop keeps the segments and moves every link's invariant to the next tick |
| Simulation.TakeReportOk | main.cc:185-198 | taking a report keeps the links, the budgets, the next id and the invariant |
| Routes.BuildLinks | main.cc:241-253 | one link per nonzero matrix entry, in row-major order, with that length and the source's popularity; the table maps (src, dst) to it exactly when the entry is nonzero (bonus.cc:272-283 likewise) |
| Routes.BuildLine | main.cc:275-284 | a line's next and prev tables give, for every station, its neighbour on the line in that direction, or -1 |
| Routes.NextOfPair | main.cc:279-283 | a next station is always the successor of an adjacent pair on the line |
| Routes.PrevOfPair | main.cc:279-283 | a prev station is always the predecessor of an adjacent pair on the line |
| Routes.NextOfAt | main.cc:279-283 | on a line without repeats, the next of station j is station j + 1, or -1 at the end |
| Routes.PrevOfAt | main.cc:279-283 | on a line without repeats, the prev of station j is station j - 1, or -1 at the start |
| Routes.NextOfAbsent | main.cc:277 | a station that is not followed on the line has no next |
| Routes.NextPrevInverse | main.cc:275-284 | on a line without repeats, b follows a going forward exactly when a follows b going backward |
| Routes.BuildRoutes | main.cc:257-285 | all three lines' station lists are built; spawn links are found for all of them exactly when each line has both terminal links (bonus.cc:285-313 likewise) |
| Routes.NewLinks | main.cc:249 | every link starts empty, with both slots `INVALID_TROON` |
| Routes.LoadedRoutes | main.cc:257-285 | from well-formed input, the station lists are consistent with the link table and inverse to each other |
| Routes.LineRoutes | main.cc:279-284 | a line's next and prev tables are inverse to each other and follow existing links |
| Routes.LoadedSpawn | main.cc:271-273 | the spawn links run forward from the first station and backward from the last |
| Routes.SpawnSegs | main.cc:271-273 | each of the six spawn links starts at a terminus and leads to its neighbour on the line |
| Routes.SpawnOkOfSegs | main.cc:271-273 | spawn links at the termini make the spawn part of the invariant hold |
| Routes.SpawnEnds | main.cc:271-273 | the first spawn link leads from the first station to its next, the second from the last station to its prev |
| Routes.LoadedWired | main.cc:241-285 | from well-formed input, the loaded tables satisfy the static invariant |
| Routes.InitialReady | main.cc:241-285 | from well-formed input, the empty network is ready for tick 0 |
| Routes.FreshLinks | main.cc:249 | fresh links satisfy the per-link invariant and, when lengths leave headroom, never overflow |
| TickFacts.SpawnLineRules | main.cc:166-172 | a line with a nonzero budget spawns 2 troons, or 1 when its budget is 1; the forward one has the next id and goes on the line's first spawn link, the backward one goes on its second; when the two spawn links differ each holding area gains exactly its own troon; the budget drops by the number spawned, and no other link changes |
| TickFacts.SpawnLineCounts | main.cc:167-171 | a line's spawn advances the next id by exactly the amount its budget drops |
| TickFacts.SpawnLinesRules | main.cc:166-172 | the spawn phase spends budget on each line up to the first line with budget 0, and on no later line; the next id grows by the total budget spent |
| TickFacts.IdsPointwise | main.cc:181-183 | links with the same ids one by one make networks with the same ids |
| TickFacts.SpawnOneIds | main.cc:168-170 | spawning troon `next_troon_id` and then incrementing it keeps the ids 0..next-1, each held once |
| TickFacts.SpawnOneConserves | main.cc:168-170 | one spawn keeps every issued id held exactly once |
| TickFacts.SpawnDirectionsIds | main.cc:167-171 | a line's spawns keep every issued id held exactly once |
| TickFacts.SpawnLinesIds | main.cc:166-172 | the spawn phase keeps every issued id held exactly once, and never reuses an id |
| TickFacts.RunFromIds | main.cc:175-177 | the run phase keeps the network's ids |
| TickFacts.FlushUpToLinkIds | main.cc:181-183 | the flush phase keeps every link's ids |
| TickFacts.FlushUpToIds | main.cc:181-183 | the flush phase keeps the network's ids |
| TickFacts.DrainUpToIds | main.cc:187-189 | the report phase's drain and refill keeps the network's ids |
| TickFacts.PhasesConserve | main.cc:165-183 | spawn, run and flush keep every issued id held exactly once |
| TickFacts.RanOccupied | main.cc:175-177 | after the run phase, every waiting entry holds a real troon |
| TickFacts.TickConserves | main.cc:165-199 | a whole tick keeps every issued id held exactly once |
| TickFacts.SpawnBudgets | main.cc:166-172 | the next id plus the remaining budgets is unchanged by spawning, and no non-negative budget goes negative or grows |
| TickFacts.SimulateConserves | main.cc:159-200 | after the whole simulation, the troons on the network are exactly ids 0..next_troon_id-1, each once |
| TickFacts.TickBudgets | main.cc:165-199 | a tick keeps the next id plus the remaining budgets, and no non-negative budget goes negative or grows |
| TickFacts.SimulateBudgets | main.cc:159-200 | the simulation spawns exactly as many troons as the budgets drop, and no non-negative budget goes negative |
| TickFacts.SimulateDistinct | main.cc:159-200 | at the end, no holding area holds the same troon twice |
| TickFacts.WindowStep | main.cc:185 | one tick's report extends the window of reported ticks by exactly that tick |
| TickFacts.TickWindow | main.cc:185 | a tick reports exactly when it is among the last `num_lines` ticks |
| TickFacts.SimulateReports | main.cc:165-199 | the simulation reports exactly the ticks from max(0, ticks - num_lines) to ticks - 1, one each and in order, after the reports it started with |
| TickFacts.ReportSorted | main.cc:185-198 | each report is stamped with its tick; in main.cc it is one sorted permutation of all links' current_troons strings; in bonus.cc it is three lists, each a sorted permutation of that line's strings (bonus.cc:183-207) |
| TickFacts.LineTroonsParts | bonus.cc:119-142 | bonus.cc's per-line strings are the line's waiting troons, then its loading troon, then its transiting troon |
| TickFacts.LineHeldLast | bonus.cc:121-127 | the per-line waiting strings grow by the last entry's string when it is on that line |
| TickFacts.HeldLast | main.cc:127-133 | the waiting strings grow by the last entry's string |
| TickFacts.LineHeldSplit | bonus.cc:121-127 | each waiting troon on a real line is written for exactly one line |
| TickFacts.LinkSplit | bonus.cc:119-142 | a link's strings across the three lines are exactly main.cc's current_troons strings for that link |
| TickFacts.ConcatSplit | bonus.cc:187-192 | splitting each link's strings by line splits the concatenation by line |
| TickFacts.SnapshotSplit | bonus.cc:186-192 | the three per-line lists together hold exactly the strings of main.cc's single report |
| Tokenizer.DecimalValueSnoc | bonus.cc:215 | appending a digit multiplies the value by ten and adds the digit |
| Tokenizer.ReadInt | bonus.cc:211-218 | read_int consumes the longest run of digits and the one character after it, and returns the run's decimal value |
| Tokenizer.ReadString | bonus.cc:220-225 | read_string returns everything up to the first whitespace and consumes that whitespace |
| Tokenizer.ReadLine | bonus.cc:227-232 | read_line returns everything up to the first newline and consumes the newline |
| Tokenizer.ReadIntOfNumeral | bonus.cc:211-218 | reading the decimal string of n, followed by a separator, gives back n and stops after the separator |
| Tokenizer.ReadStringOfWord | bonus.cc:220-225 | reading a word followed by whitespace gives back the word |
| Tokenizer.ReadLineOfLine | bonus.cc:227-232 | reading a line followed by a newline gives back the line |
| Engine.Net | main.cc:242 | the network's state is each link's state, in order |
| Engine.Link.constructor | main.cc:78-81 | a new link has the given ends, length and popularity, both slots `INVALID_TROON` and an empty holding area |
| Engine.Link.EnqueueTroon | main.cc:106-109 | the troon is added to the holding area with this tick as its arrival time, and nothing else changes |
| Engine.Link.SpawnTroon | main.cc:147-149 | a spawned troon is added like an arriving one |
| Engine.Link.Arrival | main.cc:86-95 | the network after the arrival half of run is `Arrive` of the old network |
| Engine.Link.Run | main.cc:83-104 | the network after run is `RunLink` of the old network |
| Engine.Link.Departure | main.cc:99-103 | only this link changes, and it becomes `Promote` of its old state |
| Engine.Link.FlushBuffers | main.cc:111-122 | the link becomes `Flush` of its old state (bonus.cc:109-117 likewise) |
| Engine.Link.PopMin | main.cc:128-132 | top and pop: returns the least entry and removes exactly it; the slots are unchanged |
| Engine.Link.PopAll | main.cc:127-133 | empties the heap, returning its entries in pop order and their `#` descriptors |
| Engine.Link.PushAll | main.cc:134-136 | refills the holding area with the popped entries |
| Engine.Link.CurrentTroons | main.cc:124-145 | writes the link's `CurrentTroons` strings; the heap keeps its entries, now in pop order |
| Engine.Link.LineTroons | bonus.cc:119-142 | writes the strings of line idx's troons on this link, changing nothing |
| Engine.SpawnLine | main.cc:167-171 | one line's spawn loop on the links and budget array is `SpawnDirections` |
| Engine.SpawnPhase | main.cc:166-172 | the spawn loop on the links and budget array is `SpawnLines` |
| Engine.SpawnOnce | main.cc:168-170 | spawning on link `at` enqueues the troon there and decrements line i's budget |
| Engine.SpawnInto | main.cc:168-169 | spawning on link `at` enqueues the troon there only |
| Engine.SpawnStep | main.cc:167-171 | one pass of the spawn loop is one spawn followed by the rest of the loop |
| Engine.RunPhase | main.cc:174-177 | running every link in order leaves the network `RunFrom` of the old one |
| Engine.FlushPhase | main.cc:180-183 | flushing every link in order leaves the network `FlushUpTo` of the old one |
| Engine.CurrentTroonsAt | main.cc:188 | current_troons on link j writes its strings and reorders only its heap |
| Engine.ReportAll | main.cc:185-191 | the report is all links' strings, sorted; each heap is left holding the same entries |
| Engine.ReportLines | bonus.cc:183-198 | three lists, list idx being line idx's strings from all links, sorted; the links are unchanged |
| Engine.Ran | main.cc:165-177 | the state after spawn and run is one the flush loop can take to the next tick |
| Engine.SpawnRunStep | main.cc:165-177 | the spawn and run loops on the links and budget array match the functional phases |
| Engine.PhasesStep | main.cc:165-183 | spawn, run and flush on the links and budget array is `Phases` |
| Engine.ReportStep | main.cc:185-198 | taking a report on the links matches `TakeReport` |
| Engine.TickStep | main.cc:165-199 | one iteration of simulate's tick loop is `Tick` |
| Engine.Simulate | main.cc:159-200 | the links, the budget array and the reports after simulate are those of the functional simulation, for which conservation, budgets and report timing and order are proved (bonus.cc:156-209 likewise) |
| Engine.BuildNetwork | main.cc:242-250 | the links are fresh, distinct objects, one per segment, each starting empty |

## Left out

- OpenMP and the per-link mutex. The run and flush loops are modelled
  sequentially, in link order. The source's result is independent of the
  order only up to the order of entries in a holding area. Both holding areas
  are ordered by (arrival tick, id), so the troon that leaves is the same.
- I/O. The input file, `mmap`, `ifstream`, `std::cout` and the command-line
  arguments are left out. A report is a value: the tick and its sorted string
  lists.
- The print order of bonus.cc's lines (blue, green, yellow at bonus.cc:201)
  is not modelled. Reports keep the three lists in line order.
- The global buffers `troon_strings` and `troon_strs`. Their contents are
  modelled as the sequences the report loops build.
- `std::priority_queue`'s heap layout is not modelled. It is modelled by its
  interface: `top` is the (time, id)-least entry (`MinIndex`), and `pop`
  removes it (`RemoveAt`).
- `std::sort` is modelled by insertion sort (`Sort`). Only its result matters
  here: a sorted permutation.
- `veque` and `robin_hood` maps are modelled as `seq` and `map`.
- `std::stringstream` tokenizing of a line and the station-name lookup
  (main.cc:262-270, bonus.cc:290-298) are left out. The lines are given as
  sequences of station indices.
- `std::string` comparison is modelled as lexicographic order on `char`.
  Locale and signedness of `char` are not modelled.
- Tokenizer.ReadInt: the value is a `nat`, without 32-bit overflow. Negative
  numbers are not read, as the source also assumes.
- Tokenizer.ReadInt, Tokenizer.ReadString, Tokenizer.ReadLine: these require
  a terminator in the buffer. The source reads past the end of the mapping
  otherwise.
- Engine.Simulate: `next_troon_id` and the budgets are unbounded integers.
  Timers are kept in range by `Headroom`: at every tick, tick + len (main.cc:101,
  bonus.cc:99) stays below `INT_MAX` and 1 + popularity + tick + 1
  (main.cc:114-119, bonus.cc:113) stays at most `INT_MAX`.
  `Routes.InitialReady` requires these bounds of the input for the last tick.
  The source assumes them silently.
- Simulation.Tick: the report test `tick + num_lines >= ticks` (main.cc:185,
  bonus.cc:183) is compared on unbounded integers. The source's `int` sum
  could overflow when `ticks` is close to `INT_MAX`.
- Engine.Link.SpawnTroon: a spawned troon's timer is uninitialised in the
  source and is modelled as 0. It is overwritten before it is read.
- Routes.InitialReady: this requires well-formed input (`WellFormed`) and
  the timer bounds above. The requirements are: lines of at least two
  stations with no station repeated within a line, consecutive
  stations linked both ways, positive lengths, non-negative popularities. The
  source dereferences null links when consecutive stations are not linked.
  A line that repeats a station also runs in the source: the later write to
  the station lists wins. The model does not cover such lines.
- Engine.Link.Run: a missing next link is undefined behaviour in the source.
  The model requires the link to exist (`CanArrive`), and the network
  invariant guarantees it.
- TickFacts.SpawnLinesRules: the spawn loop stops at the first line whose
  budget is 0, as the code does at main.cc:166. A description of "every line
  with budget left" would differ when an earlier line is exhausted.
