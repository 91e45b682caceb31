/**
 * simulate: the ticks of the network, each a spawn phase, a run phase over
 * every link, a flush phase over every link and, in the last num_lines
 * ticks, a report. The phases run over the links in their creation order;
 * the programs run them in parallel, which the model does not capture.
 */
module Simulation {
  import opened Text
  import opened Sorting
  import opened Troons
  import opened Holding
  import opened Network
  import opened Invariants
  import opened Conservation
  import opened Worlds

  /** How many troons the inner spawn loop issues from a budget of b. */
  function Spawned(b: int): nat {
    if b == 0 then 0 else if b == 1 then 1 else 2
  }

  /** One pass of the inner spawn loop: spawn_troon on spawn link 2i+j, next_troon_id++ and --num_troons[i]. */
  function SpawnOne(w: World, i: nat, j: nat, tick: int, env: Env): (r: World)
    requires i < 3 && j < 2 && |w.budgets| == 3 && SpawnIndexed(w.net, env)
    ensures SameSegs(w.net, r.net) && |r.budgets| == 3 && r.reports == w.reports
  {
    var at := env.spawnLocs[i * 2 + j];
    w.(net := w.net[at := Enqueue(w.net[at], tick, Troon(w.nextId, 0, LineColor(i), j == 0))],
       nextId := w.nextId + 1,
       budgets := w.budgets[i := w.budgets[i] - 1])
  }

  /** The inner spawn loop for line i from direction j on: forward at spawn link 2i, backward at 2i+1. */
  function SpawnDirections(w: World, i: nat, j: nat, tick: int, env: Env): (r: World)
    requires i < 3 && j <= 2 && |w.budgets| == 3 && SpawnIndexed(w.net, env)
    ensures SameSegs(w.net, r.net) && |r.budgets| == 3 && r.reports == w.reports
    decreases 2 - j
  {
    if j < 2 && w.budgets[i] != 0 then
      var w' := SpawnOne(w, i, j, tick, env);
      SpawnDirections(w', i, j + 1, tick, env)
    else
      w
  }

  /** The outer spawn loop from line i on; it stops at the first line whose budget is exhausted. */
  function SpawnLines(w: World, i: nat, tick: int, env: Env): (r: World)
    requires i <= 3 && |w.budgets| == 3 && SpawnIndexed(w.net, env)
    ensures SameSegs(w.net, r.net) && |r.budgets| == 3 && r.reports == w.reports
    decreases 3 - i
  {
    if i < 3 && w.budgets[i] != 0 then
      var w' := SpawnDirections(w, i, 0, tick, env);
      SpawnLines(w', i + 1, tick, env)
    else
      w
  }

  /** The run phase from link i on. */
  function RunFrom(v: Variant, net: seq<LinkState>, i: nat, tick: int, env: Env): (r: seq<LinkState>)
    requires RunPre(v, net, i, tick, env)
    ensures SameSegs(net, r)
    ensures forall j :: 0 <= j < |r| ==> LinkOk(v, r[j], env, tick, tick + 1)
    decreases |net| - i
  {
    if i == |net| then
      RunDone(v, net, tick, env);
      net
    else
      RunLinkReady(v, net, i, tick, env);
      var n := RunLink(v, net, i, tick, env);
      var r := RunFrom(v, n, i + 1, tick, env);
      SameSegsTrans(net, n, r);
      r
  }

  /** Once every link has run, every link is due at the next tick. */
  lemma RunDone(v: Variant, net: seq<LinkState>, tick: int, env: Env)
    requires RunPre(v, net, |net|, tick, env)
    ensures forall j :: 0 <= j < |net| ==> LinkOk(v, net[j], env, tick, tick + 1)
  {
    forall j | 0 <= j < |net| ensures LinkOk(v, net[j], env, tick, tick + 1) {
      assert Due(j, |net|, tick) == tick + 1;
    }
  }

  /** Running link i leaves the run loop ready for link i + 1, over the same links. */
  lemma RunLinkReady(v: Variant, net: seq<LinkState>, i: nat, tick: int, env: Env)
    requires RunPre(v, net, i, tick, env) && i < |net|
    ensures CanArrive(net, i, tick, env)
    ensures SameSegs(net, RunLink(v, net, i, tick, env))
    ensures RunPre(v, RunLink(v, net, i, tick, env), i + 1, tick, env)
  {
    RunLinkOk(v, net, i, tick, env);
    var next := RunLink(v, net, i, tick, env);
    WiredSameSegs(net, next, env);
    HeadroomSameSegs(net, next, tick);
  }

  /** Running link i is the first step of the run phase from link i on, and leaves the loop ready for link i + 1. */
  lemma RunFromStep(v: Variant, net: seq<LinkState>, i: nat, tick: int, env: Env)
    requires RunPre(v, net, i, tick, env) && i < |net|
    ensures CanArrive(net, i, tick, env)
    ensures RunPre(v, RunLink(v, net, i, tick, env), i + 1, tick, env)
    ensures RunFrom(v, net, i, tick, env) == RunFrom(v, RunLink(v, net, i, tick, env), i + 1, tick, env)
  {
    RunLinkReady(v, net, i, tick, env);
  }

  /** Every link's sorted prefix lies within its holding area, as flush_buffers needs. */
  predicate Flushable(net: seq<LinkState>) {
    forall j :: 0 <= j < |net| ==> net[j].prevSz <= |net[j].holding|
  }

  /** The flush phase after links 0 .. n-1 have flushed. */
  function FlushUpTo(v: Variant, net: seq<LinkState>, n: nat, tick: int): (r: seq<LinkState>)
    requires n <= |net| && Flushable(net)
    ensures |r| == |net|
  {
    seq(|net|, j requires 0 <= j < |net| => if j < n then Flush(v, net[j], tick) else net[j])
  }

  /** main.cc's report leaves each holding area in the order current_troons drained it. */
  function DrainUpTo(net: seq<LinkState>, n: nat): (r: seq<LinkState>)
    requires n <= |net|
    ensures |r| == |net|
  {
    seq(|net|, j requires 0 <= j < |net| => if j < n then net[j].(holding := Drain(net[j].holding)) else net[j])
  }

  predicate AllNamed(net: seq<LinkState>, names: seq<string>) {
    forall j :: 0 <= j < |net| ==> Named(net[j], names)
  }

  /** The lists one after another. */
  function Concat(parts: seq<seq<string>>): seq<string> {
    if |parts| == 0 then [] else Concat(parts[..|parts| - 1]) + parts[|parts| - 1]
  }

  /** main.cc's troon_strings after current_troons has run on links 0 .. n-1. */
  function Snapshot(net: seq<LinkState>, names: seq<string>, n: nat): seq<string>
    requires n <= |net| && AllNamed(net, names)
  {
    Concat(seq(n, j requires 0 <= j < n => CurrentTroons(net[j], names)))
  }

  /** bonus.cc's troon_strs[idx] after current_troons(idx) has run on links 0 .. n-1. */
  function LineSnapshot(net: seq<LinkState>, idx: nat, names: seq<string>, n: nat): seq<string>
    requires n <= |net| && AllNamed(net, names)
  {
    Concat(seq(n, j requires 0 <= j < n => LineTroons(net[j], idx, names)))
  }

  /** The report phase: main.cc sorts all descriptors together, bonus.cc sorts each line's. */
  function TakeReport(v: Variant, w: World, tick: int, env: Env): World
    requires AllNamed(w.net, env.names)
  {
    match v
    case PriorityQueue =>
      w.(net := DrainUpTo(w.net, |w.net|),
         reports := w.reports + [Report(tick, [Sort(StrLe, Snapshot(w.net, env.names, |w.net|))])])
    case SortedSuffix =>
      w.(reports := w.reports + [Report(tick, seq(3, idx requires 0 <= idx < 3 =>
                                   Sort(StrLe, LineSnapshot(w.net, idx, env.names, |w.net|))))])
  }

  /** The spawn, run and flush phases of a tick: afterwards every link is ready for the next tick. */
  function Phases(v: Variant, w: World, tick: int, ticks: int, env: Env): (r: World)
    requires Ready(v, w, env, tick, ticks) && tick < ticks
    ensures Ready(v, r, env, tick + 1, ticks)
    ensures SameSegs(w.net, r.net) && r.reports == w.reports
    ensures var s := SpawnLines(w, 0, tick, env); r.budgets == s.budgets && r.nextId == s.nextId
  {
    SpawnedRunnable(v, w, tick, ticks, env);
    var w1 := SpawnLines(w, 0, tick, env);
    var n2 := RunFrom(v, w1.net, 0, tick, env);
    FlushedReady(v, w, w1, n2, tick, ticks, env);
    w1.(net := FlushUpTo(v, n2, |n2|, tick))
  }

  /** Phases unfolded into the three loops' own contracts, with each loop's precondition met. */
  lemma PhasesUnfold(v: Variant, w: World, tick: int, ticks: int, env: Env)
    requires Ready(v, w, env, tick, ticks) && tick < ticks
    ensures SpawnIndexed(w.net, env)
    ensures RunPre(v, SpawnLines(w, 0, tick, env).net, 0, tick, env)
    ensures var s := SpawnLines(w, 0, tick, env);
            var n2 := RunFrom(v, s.net, 0, tick, env);
            && Flushable(n2)
            && Phases(v, w, tick, ticks, env) == s.(net := FlushUpTo(v, n2, |n2|, tick))
  {
    SpawnedRunnable(v, w, tick, ticks, env);
    var s := SpawnLines(w, 0, tick, env);
    FlushedReady(v, w, s, RunFrom(v, s.net, 0, tick, env), tick, ticks, env);
  }

  /** After the spawn phase the run loop may start: spawning keeps the invariant and the tables. */
  lemma SpawnedRunnable(v: Variant, w: World, tick: int, ticks: int, env: Env)
    requires Ready(v, w, env, tick, ticks) && tick < ticks
    ensures SpawnIndexed(w.net, env)
    ensures var s := SpawnLines(w, 0, tick, env);
            && RunPre(v, s.net, 0, tick, env) && SameSegs(w.net, s.net)
            && Headroom(s.net, ticks - 1) && s.nextId >= 0 && |s.budgets| == 3
  {
    SpawnLinesOk(v, w, 0, tick, env);
    var s := SpawnLines(w, 0, tick, env);
    WiredSameSegs(w.net, s.net, env);
    HeadroomSameSegs(w.net, s.net, ticks - 1);
  }

  /** After the run loop, flushing every link leaves a world ready for the next tick. */
  lemma FlushedReady(v: Variant, w: World, w1: World, n2: seq<LinkState>, tick: int, ticks: int, env: Env)
    requires Wired(w1.net, env) && SameSegs(w.net, w1.net) && SameSegs(w1.net, n2)
    requires Headroom(w1.net, ticks - 1) && |w1.budgets| == 3 && w1.nextId >= 0
    requires 0 <= tick < ticks <= INT_MAX
    requires forall j :: 0 <= j < |n2| ==> LinkOk(v, n2[j], env, tick, tick + 1)
    ensures Flushable(n2)
    ensures var n3 := FlushUpTo(v, n2, |n2|, tick);
            SameSegs(w.net, n3) && Ready(v, w1.(net := n3), env, tick + 1, ticks)
  {
    WiredSameSegs(w1.net, n2, env);
    var n3 := FlushUpTo(v, n2, |n2|, tick);
    FlushUpToOk(v, n2, tick, env);
    SameSegsTrans(w1.net, n2, n3);
    SameSegsTrans(w.net, w1.net, n3);
    WiredSameSegs(w1.net, n3, env);
    HeadroomSameSegs(w1.net, n3, ticks - 1);
  }

  /**
   * At every tick of the run, the departure timers the flush phase computes
   * from the state the run loop leaves fit in an int.
   */
  lemma FlushFits(v: Variant, w: World, tick: int, ticks: int, env: Env)
    requires Ready(v, w, env, tick, ticks) && tick < ticks
    ensures SpawnIndexed(w.net, env)
    ensures RunPre(v, SpawnLines(w, 0, tick, env).net, 0, tick, env)
    ensures var n2 := RunFrom(v, SpawnLines(w, 0, tick, env).net, 0, tick, env);
            forall j :: 0 <= j < |n2| ==> DepartureTimer(v, n2[j], tick) <= INT_MAX
  {
    SpawnedRunnable(v, w, tick, ticks, env);
    var s := SpawnLines(w, 0, tick, env);
    var n2 := RunFrom(v, s.net, 0, tick, env);
    forall j | 0 <= j < |n2| ensures DepartureTimer(v, n2[j], tick) <= INT_MAX {
      assert n2[j].seg == s.net[j].seg;
      assert tick + s.net[j].seg.popularity + 2 <= INT_MAX;
      DepartureFits(v, n2[j], env, tick);
    }
  }

  /** One tick of simulate: the phases, then a report in the last num_lines ticks. */
  function Tick(v: Variant, w: World, tick: int, ticks: int, numLines: int, env: Env): (r: World)
    requires Ready(v, w, env, tick, ticks) && tick < ticks
    ensures Ready(v, r, env, tick + 1, ticks)
    ensures var s := SpawnLines(w, 0, tick, env); r.budgets == s.budgets && r.nextId == s.nextId
    ensures |r.reports| == |w.reports| + (if tick + numLines >= ticks then 1 else 0)
    ensures r.reports[..|w.reports|] == w.reports
    ensures tick + numLines >= ticks ==> r.reports[|w.reports|].tick == tick
  {
    var p := Phases(v, w, tick, ticks, env);
    if tick + numLines >= ticks then
      TakeReportOk(v, p, tick, env);
      var r := TakeReport(v, p, tick, env);
      WiredSameSegs(p.net, r.net, env);
      HeadroomSameSegs(p.net, r.net, ticks - 1);
      r
    else
      p
  }

  /** simulate from tick `tick` on. */
  function Simulate(v: Variant, w: World, tick: int, ticks: int, numLines: int, env: Env): World
    requires Ready(v, w, env, tick, ticks)
    decreases ticks - tick
  {
    if tick == ticks then w else Simulate(v, Tick(v, w, tick, ticks, numLines, env), tick + 1, ticks, numLines, env)
  }

  /** A spawned troon runs along its spawn link. */
  lemma SpawnPlaced(w: World, i: nat, j: nat, env: Env)
    requires i < 3 && j < 2 && SpawnOk(w.net, env)
    ensures Placed(env, Troon(w.nextId, 0, LineColor(i), j == 0), w.net[env.spawnLocs[i * 2 + j]].seg)
  {
    var x := i * 2 + j;
    assert x % 2 == j && x / 2 == i;
  }

  /** Spawning keeps the invariant. */
  lemma {:induction false} SpawnDirectionsOk(v: Variant, w: World, i: nat, j: nat, tick: int, env: Env)
    requires i < 3 && j <= 2 && |w.budgets| == 3 && SpawnOk(w.net, env) && w.nextId >= 0
    requires forall k :: 0 <= k < |w.net| ==> LinkOk(v, w.net[k], env, tick, tick)
    ensures var r := SpawnDirections(w, i, j, tick, env);
            r.nextId >= 0 && forall k :: 0 <= k < |r.net| ==> LinkOk(v, r.net[k], env, tick, tick)
    decreases 2 - j
  {
    if j < 2 && w.budgets[i] != 0 {
      var at := env.spawnLocs[i * 2 + j];
      SpawnPlaced(w, i, j, env);
      EnqueueOk(v, w.net[at], env, tick, tick, Troon(w.nextId, 0, LineColor(i), j == 0));
      var w' := SpawnOne(w, i, j, tick, env);
      WiredSpawn(w.net, w'.net, env);
      SpawnDirectionsOk(v, w', i, j + 1, tick, env);
    }
  }

  lemma {:induction false} SpawnLinesOk(v: Variant, w: World, i: nat, tick: int, env: Env)
    requires i <= 3 && |w.budgets| == 3 && SpawnOk(w.net, env) && w.nextId >= 0
    requires forall k :: 0 <= k < |w.net| ==> LinkOk(v, w.net[k], env, tick, tick)
    ensures var r := SpawnLines(w, i, tick, env);
            r.nextId >= 0 && forall k :: 0 <= k < |r.net| ==> LinkOk(v, r.net[k], env, tick, tick)
    decreases 3 - i
  {
    if i < 3 && w.budgets[i] != 0 {
      SpawnDirectionsOk(v, w, i, 0, tick, env);
      var w' := SpawnDirections(w, i, 0, tick, env);
      WiredSpawn(w.net, w'.net, env);
      SpawnLinesOk(v, w', i + 1, tick, env);
    }
  }

  lemma WiredSpawn(a: seq<LinkState>, b: seq<LinkState>, env: Env)
    requires SpawnOk(a, env) && SameSegs(a, b)
    ensures SpawnOk(b, env)
  {
  }

  /** The flush phase keeps the invariant and moves every link to the next tick. */
  lemma FlushUpToOk(v: Variant, net: seq<LinkState>, tick: int, env: Env)
    requires SegsOk(net, |env.names|)
    requires forall j :: 0 <= j < |net| ==> LinkOk(v, net[j], env, tick, tick + 1)
    requires Flushable(net)
    ensures var r := FlushUpTo(v, net, |net|, tick);
            && SameSegs(net, r)
            && forall j :: 0 <= j < |r| ==> LinkOk(v, r[j], env, tick + 1, tick + 1)
  {
    forall j | 0 <= j < |net| ensures LinkOk(v, Flush(v, net[j], tick), env, tick + 1, tick + 1) && Flush(v, net[j], tick).seg == net[j].seg {
      FlushOk(v, net[j], env, tick);
    }
  }

  /** The report phase keeps the invariant: main.cc only reorders holding areas. */
  lemma TakeReportOk(v: Variant, w: World, tick: int, env: Env)
    requires Wired(w.net, env)
    requires forall j :: 0 <= j < |w.net| ==> LinkOk(v, w.net[j], env, tick + 1, tick + 1)
    ensures AllNamed(w.net, env.names)
    ensures var r := TakeReport(v, w, tick, env);
            && SameSegs(w.net, r.net) && r.budgets == w.budgets && r.nextId == w.nextId
            && forall j :: 0 <= j < |r.net| ==> LinkOk(v, r.net[j], env, tick + 1, tick + 1)
  {
    if v == PriorityQueue {
      var r := TakeReport(v, w, tick, env);
      forall j | 0 <= j < |w.net| ensures LinkOk(v, r.net[j], env, tick + 1, tick + 1) {
        var h := w.net[j].holding;
        DrainSortedPermutation(h);
        SubHoldingOk(env, w.net[j].seg, h, Drain(h), tick + 1);
      }
    }
  }
}
