/**
 * What a tick, and a whole run of simulate, does: the spawn loops follow the
 * per-line budgets, no troon is lost or duplicated, a report is taken in
 * exactly the last num_lines ticks, and every report is a sorted list of the
 * descriptors current_troons wrote.
 */
module TickFacts {
  import opened Text
  import opened Sorting
  import opened Troons
  import opened Holding
  import opened Network
  import opened Invariants
  import opened Conservation
  import opened Worlds
  import opened Simulation

  function Sum3(b: seq<int>): int
    requires |b| == 3
  {
    b[0] + b[1] + b[2]
  }

  /**
   * The inner spawn loop of a line with budget left: its first troon takes
   * next_troon_id and runs forward from spawn link 2i; a second troon, if
   * the budget allows, takes the next id and runs backward from spawn link
   * 2i+1; each spawn costs one unit of budget; when the two spawn links
   * differ, each gains exactly its own troon, and no other link changes.
   */
  lemma SpawnLineRules(w: World, i: nat, tick: int, env: Env)
    requires i < 3 && |w.budgets| == 3 && SpawnIndexed(w.net, env) && w.budgets[i] != 0
    ensures var b := w.budgets[i];
            var r := SpawnDirections(w, i, 0, tick, env);
            var fwd := env.spawnLocs[2 * i];
            var bwd := env.spawnLocs[2 * i + 1];
            && 1 <= Spawned(b) <= 2
            && (b > 1 || b < 0 ==> Spawned(b) == 2)
            && (b > 0 ==> 0 <= b - Spawned(b) < b)
            && r.nextId == w.nextId + Spawned(b)
            && r.budgets == w.budgets[i := b - Spawned(b)]
            && WaitingTroon(tick, Troon(w.nextId, 0, LineColor(i), true)) in r.net[fwd].holding
            && (Spawned(b) == 2 ==> WaitingTroon(tick, Troon(w.nextId + 1, 0, LineColor(i), false)) in r.net[bwd].holding)
            && (fwd != bwd ==> r.net[fwd] == Enqueue(w.net[fwd], tick, Troon(w.nextId, 0, LineColor(i), true)))
            && (fwd != bwd ==> r.net[bwd] == if Spawned(b) == 2 then Enqueue(w.net[bwd], tick, Troon(w.nextId + 1, 0, LineColor(i), false)) else w.net[bwd])
            && (forall k :: 0 <= k < |w.net| && k != fwd && k != bwd ==> r.net[k] == w.net[k])
  {
    SpawnLineCounts(w, i, tick, env);
    var b := w.budgets[i];
    var fwd := env.spawnLocs[2 * i];
    var bwd := env.spawnLocs[2 * i + 1];
    assert i * 2 == 2 * i && i * 2 + 1 == 2 * i + 1;
    var t0 := Troon(w.nextId, 0, LineColor(i), true);
    var w1 := SpawnOne(w, i, 0, tick, env);
    if b - 1 != 0 {
      var t1 := Troon(w.nextId + 1, 0, LineColor(i), false);
      var w2 := SpawnOne(w1, i, 1, tick, env);
      assert SpawnDirections(w1, i, 1, tick, env) == SpawnDirections(w2, i, 2, tick, env) == w2;
      assert WaitingTroon(tick, t0) in w1.net[fwd].holding;
      if fwd == bwd {
        assert w2.net[fwd].holding == w1.net[fwd].holding + [WaitingTroon(tick, t1)];
      }
    } else {
      assert SpawnDirections(w1, i, 1, tick, env) == w1;
    }
  }

  /** Line m spawns in a tick exactly when it and every line from i up to it have budget left. */
  predicate Reached(b: seq<int>, i: nat, m: nat)
    requires m < |b|
  {
    forall n :: i <= n <= m ==> b[n] != 0
  }

  /** Past a line with budget left, being reached from it is being reached from the next line. */
  lemma ReachedShift(b: seq<int>, b': seq<int>, i: nat)
    requires |b| == |b'| == 3 && i < 3 && b[i] != 0
    requires forall n :: i < n < 3 ==> b'[n] == b[n]
    ensures forall m :: i < m < 3 ==> Reached(b', i + 1, m) == Reached(b, i, m)
  {
    forall m | i < m < 3 ensures Reached(b', i + 1, m) == Reached(b, i, m) {
      if Reached(b', i + 1, m) {
        forall n | i <= n <= m ensures b[n] != 0 {
          if n > i {
            assert b'[n] != 0;
          }
        }
      }
    }
  }

  /** The counts alone: a line's spawning takes Spawned(b) from its budget and issues as many ids. */
  lemma SpawnLineCounts(w: World, i: nat, tick: int, env: Env)
    requires i < 3 && |w.budgets| == 3 && SpawnIndexed(w.net, env) && w.budgets[i] != 0
    ensures var b := w.budgets[i];
            var r := SpawnDirections(w, i, 0, tick, env);
            && r.nextId == w.nextId + Spawned(b)
            && r.budgets == w.budgets[i := b - Spawned(b)]
  {
    var b := w.budgets[i];
    var w1 := SpawnOne(w, i, 0, tick, env);
    if b - 1 != 0 {
      var w2 := SpawnOne(w1, i, 1, tick, env);
      assert SpawnDirections(w1, i, 1, tick, env) == SpawnDirections(w2, i, 2, tick, env) == w2;
      assert w2.budgets == w.budgets[i := b - 2];
    } else {
      assert SpawnDirections(w1, i, 1, tick, env) == w1;
    }
  }

  /**
   * The outer spawn loop from line i on: a line's budget drops by what it
   * spawned exactly when the loop reaches it (the loop stops at the first
   * line with no budget), and the ids issued are the budget spent.
   */
  lemma {:induction false} SpawnLinesRules(w: World, i: nat, tick: int, env: Env)
    requires i <= 3 && |w.budgets| == 3 && SpawnIndexed(w.net, env)
    ensures var r := SpawnLines(w, i, tick, env);
            && (forall m :: 0 <= m < 3 ==>
                  r.budgets[m] == if i <= m && Reached(w.budgets, i, m) then w.budgets[m] - Spawned(w.budgets[m]) else w.budgets[m])
            && r.nextId - w.nextId == Sum3(w.budgets) - Sum3(r.budgets)
    decreases 3 - i
  {
    if i < 3 && w.budgets[i] != 0 {
      SpawnLineCounts(w, i, tick, env);
      var w' := SpawnDirections(w, i, 0, tick, env);
      SpawnLinesRules(w', i + 1, tick, env);
      ReachedShift(w.budgets, w'.budgets, i);
    }
  }

  /** Reordering links' contents without changing what each holds keeps the network's ids. */
  lemma {:induction false} IdsPointwise(a: seq<LinkState>, b: seq<LinkState>)
    requires |a| == |b| && forall j :: 0 <= j < |a| ==> LinkIds(a[j]) == LinkIds(b[j])
    ensures Ids(a) == Ids(b)
    decreases |a|
  {
    if |a| > 0 {
      IdsPointwise(a[..|a| - 1], b[..|b| - 1]);
    }
  }

  /** A troon spawned with the next id joins the troons issued so far. */
  lemma SpawnOneIds(net: seq<LinkState>, at: nat, tick: int, t: Troon)
    requires at < |net| && Conserved(net, t.id) && t.id >= 0
    ensures Conserved(net[at := Enqueue(net[at], tick, t)], t.id + 1)
  {
    EnqueueNetIds(net, at, tick, t);
  }

  /** One spawn keeps the network's ids equal to the ids issued. */
  lemma SpawnOneConserves(w: World, i: nat, j: nat, tick: int, env: Env)
    requires i < 3 && j < 2 && |w.budgets| == 3 && SpawnIndexed(w.net, env)
    requires Conserved(w.net, w.nextId) && w.nextId >= 0
    ensures var r := SpawnOne(w, i, j, tick, env);
            Conserved(r.net, r.nextId) && r.nextId >= 0 && SpawnIndexed(r.net, env)
  {
    SpawnOneIds(w.net, env.spawnLocs[i * 2 + j], tick, Troon(w.nextId, 0, LineColor(i), j == 0));
  }

  /** Each spawn issues next_troon_id and adds exactly that troon to the network. */
  lemma {:induction false} SpawnDirectionsIds(w: World, i: nat, j: nat, tick: int, env: Env)
    requires i < 3 && j <= 2 && |w.budgets| == 3 && SpawnIndexed(w.net, env)
    requires Conserved(w.net, w.nextId) && w.nextId >= 0
    ensures var r := SpawnDirections(w, i, j, tick, env);
            Conserved(r.net, r.nextId)
    decreases 2 - j
  {
    if j < 2 && w.budgets[i] != 0 {
      SpawnOneConserves(w, i, j, tick, env);
      SpawnDirectionsIds(SpawnOne(w, i, j, tick, env), i, j + 1, tick, env);
    }
  }

  lemma {:induction false} SpawnLinesIds(w: World, i: nat, tick: int, env: Env)
    requires i <= 3 && |w.budgets| == 3 && SpawnIndexed(w.net, env)
    requires Conserved(w.net, w.nextId) && w.nextId >= 0
    ensures var r := SpawnLines(w, i, tick, env);
            Conserved(r.net, r.nextId) && r.nextId >= w.nextId
    decreases 3 - i
  {
    if i < 3 && w.budgets[i] != 0 {
      SpawnDirectionsIds(w, i, 0, tick, env);
      SpawnLineRules(w, i, tick, env);
      var w' := SpawnDirections(w, i, 0, tick, env);
      SpawnLinesIds(w', i + 1, tick, env);
    }
  }

  /** The run phase only moves troons. */
  lemma {:induction false} RunFromIds(v: Variant, net: seq<LinkState>, i: nat, tick: int, env: Env)
    requires RunPre(v, net, i, tick, env)
    ensures Ids(RunFrom(v, net, i, tick, env)) == Ids(net)
    decreases |net| - i
  {
    if i < |net| {
      RunLinkIds(v, net, i, tick, env);
      RunFromStep(v, net, i, tick, env);
      RunFromIds(v, RunLink(v, net, i, tick, env), i + 1, tick, env);
    }
  }

  /** Every entry of the holding area is a troon. */
  predicate HeldOccupied(l: LinkState) {
    forall k :: 0 <= k < |l.holding| ==> Occupied(l.holding[k].troon)
  }

  lemma FlushUpToLinkIds(v: Variant, net: seq<LinkState>, tick: int)
    requires forall j :: 0 <= j < |net| ==> net[j].prevSz <= |net[j].holding| && HeldOccupied(net[j])
    ensures var r := FlushUpTo(v, net, |net|, tick);
            forall j :: 0 <= j < |net| ==> LinkIds(r[j]) == LinkIds(net[j])
  {
    forall j | 0 <= j < |net| ensures LinkIds(Flush(v, net[j], tick)) == LinkIds(net[j]) {
      FlushIds(v, net[j], tick);
    }
  }

  /** The flush phase only moves troons from holding areas into loading slots. */
  lemma FlushUpToIds(v: Variant, net: seq<LinkState>, tick: int)
    requires forall j :: 0 <= j < |net| ==> net[j].prevSz <= |net[j].holding| && HeldOccupied(net[j])
    ensures Ids(FlushUpTo(v, net, |net|, tick)) == Ids(net)
  {
    FlushUpToLinkIds(v, net, tick);
    IdsPointwise(FlushUpTo(v, net, |net|, tick), net);
  }

  /** main.cc's report pops every holding area and pushes it back. */
  lemma DrainUpToIds(net: seq<LinkState>)
    ensures Ids(DrainUpTo(net, |net|)) == Ids(net)
  {
    var r := DrainUpTo(net, |net|);
    forall j | 0 <= j < |net| ensures LinkIds(r[j]) == LinkIds(net[j]) {
      DrainIds(net[j]);
    }
    IdsPointwise(r, net);
  }

  /** Spawning adds the troons issued; running and flushing only move troons. */
  lemma PhasesConserve(v: Variant, w: World, tick: int, ticks: int, env: Env)
    requires Ready(v, w, env, tick, ticks) && tick < ticks
    requires Conserved(w.net, w.nextId)
    ensures var r := Phases(v, w, tick, ticks, env);
            Conserved(r.net, r.nextId)
  {
    PhasesUnfold(v, w, tick, ticks, env);
    var s := SpawnLines(w, 0, tick, env);
    SpawnLinesIds(w, 0, tick, env);
    RunFromIds(v, s.net, 0, tick, env);
    var n2 := RunFrom(v, s.net, 0, tick, env);
    RanOccupied(v, n2, tick, env);
    FlushUpToIds(v, n2, tick);
  }

  /** After the run phase every holding area holds troons and covers its sorted prefix. */
  lemma RanOccupied(v: Variant, net: seq<LinkState>, tick: int, env: Env)
    requires forall j :: 0 <= j < |net| ==> LinkOk(v, net[j], env, tick, tick + 1)
    ensures forall j :: 0 <= j < |net| ==> net[j].prevSz <= |net[j].holding| && HeldOccupied(net[j])
  {
    forall j | 0 <= j < |net| ensures net[j].prevSz <= |net[j].holding| && HeldOccupied(net[j]) {
      assert LinkOk(v, net[j], env, tick, tick + 1);
    }
  }

  /** A tick keeps every issued troon in the network exactly once. */
  lemma TickConserves(v: Variant, w: World, tick: int, ticks: int, numLines: int, env: Env)
    requires Ready(v, w, env, tick, ticks) && tick < ticks
    requires Conserved(w.net, w.nextId)
    ensures var r := Tick(v, w, tick, ticks, numLines, env);
            Conserved(r.net, r.nextId)
  {
    PhasesConserve(v, w, tick, ticks, env);
    var p := Phases(v, w, tick, ticks, env);
    if tick + numLines >= ticks {
      TakeReportOk(v, p, tick, env);
      DrainUpToIds(p.net);
    }
  }

  /**
   * The spawn phase spends budget only on the troons it issues, and a
   * budget that is not negative never becomes negative.
   */
  lemma SpawnBudgets(w: World, tick: int, env: Env)
    requires |w.budgets| == 3 && SpawnIndexed(w.net, env)
    ensures var r := SpawnLines(w, 0, tick, env);
            && r.nextId + Sum3(r.budgets) == w.nextId + Sum3(w.budgets)
            && forall m :: 0 <= m < 3 && w.budgets[m] >= 0 ==> 0 <= r.budgets[m] <= w.budgets[m]
  {
    SpawnLinesRules(w, 0, tick, env);
  }

  /** Over a run, the network always holds exactly the troons issued. */
  lemma {:induction false} SimulateConserves(v: Variant, w: World, tick: int, ticks: int, numLines: int, env: Env)
    requires Ready(v, w, env, tick, ticks) && Conserved(w.net, w.nextId)
    ensures var r := Simulate(v, w, tick, ticks, numLines, env);
            Conserved(r.net, r.nextId)
    decreases ticks - tick
  {
    if tick < ticks {
      TickConserves(v, w, tick, ticks, numLines, env);
      SimulateConserves(v, Tick(v, w, tick, ticks, numLines, env), tick + 1, ticks, numLines, env);
    }
  }

  /** One tick spends budget only on the troons it issues. */
  lemma TickBudgets(v: Variant, w: World, tick: int, ticks: int, numLines: int, env: Env)
    requires Ready(v, w, env, tick, ticks) && tick < ticks
    ensures var r := Tick(v, w, tick, ticks, numLines, env);
            && |r.budgets| == 3
            && r.nextId + Sum3(r.budgets) == w.nextId + Sum3(w.budgets)
            && (forall m :: 0 <= m < 3 && w.budgets[m] >= 0 ==> 0 <= r.budgets[m] <= w.budgets[m])
  {
    SpawnBudgets(w, tick, env);
  }

  /** Over a run, troons issued plus budget left is constant, and budgets stay non-negative. */
  lemma {:induction false} SimulateBudgets(v: Variant, w: World, tick: int, ticks: int, numLines: int, env: Env)
    requires Ready(v, w, env, tick, ticks)
    ensures var r := Simulate(v, w, tick, ticks, numLines, env);
            && |r.budgets| == 3
            && r.nextId + Sum3(r.budgets) == w.nextId + Sum3(w.budgets)
            && (forall m :: 0 <= m < 3 && w.budgets[m] >= 0 ==> 0 <= r.budgets[m] <= w.budgets[m])
    decreases ticks - tick
  {
    if tick < ticks {
      TickBudgets(v, w, tick, ticks, numLines, env);
      SimulateBudgets(v, Tick(v, w, tick, ticks, numLines, env), tick + 1, ticks, numLines, env);
    }
  }

  /** Since every issued troon is held once, no holding area ever waits on one troon twice. */
  lemma SimulateDistinct(v: Variant, w: World, tick: int, ticks: int, numLines: int, env: Env)
    requires Ready(v, w, env, tick, ticks) && Conserved(w.net, w.nextId)
    ensures var r := Simulate(v, w, tick, ticks, numLines, env);
            forall j :: 0 <= j < |r.net| ==> DistinctIds(r.net[j].holding)
  {
    SimulateConserves(v, w, tick, ticks, numLines, env);
    var r := Simulate(v, w, tick, ticks, numLines, env);
    forall j | 0 <= j < |r.net| ensures DistinctIds(r.net[j].holding) {
      ConservedDistinct(r.net, r.nextId, j);
    }
  }

  function Min(a: int, b: int): int {
    if a < b then a else b
  }

  /** The first reporting tick of a run from `tick`: the last num_lines ticks, clipped to the run. */
  function FirstReport(tick: int, ticks: int, numLines: int): int {
    Min(ticks, Max(tick, ticks - numLines))
  }

  /** After its first n reports, rs holds one report for each tick lo .. hi-1, in order. */
  predicate Window(rs: seq<Report>, n: nat, lo: int, hi: int) {
    && n <= |rs|
    && |rs| == n + (hi - lo)
    && forall k :: n <= k < |rs| ==> rs[k].tick == lo + (k - n)
  }

  /** Prepending this tick's report, if any, to the window of the later ticks. */
  lemma WindowStep(rs: seq<Report>, a: seq<Report>, b: seq<Report>, tick: int, lo: int, lo': int, hi: int)
    requires |a| <= |b| <= |a| + 1 && b[..|a|] == a
    requires |b| == |a| + 1 ==> b[|a|].tick == tick && lo == tick && lo' == tick + 1
    requires |b| == |a| ==> lo == lo'
    requires |b| <= |rs| && rs[..|b|] == b && Window(rs, |b|, lo', hi)
    ensures rs[..|a|] == a && Window(rs, |a|, lo, hi)
  {
    assert rs[..|a|] == rs[..|b|][..|a|];
    if |b| == |a| + 1 {
      assert rs[|a|] == rs[..|b|][|a|];
    }
  }

  /** One tick adds a report exactly when the report window starts at or before it. */
  lemma TickWindow(v: Variant, w: World, tick: int, ticks: int, numLines: int, env: Env)
    requires Ready(v, w, env, tick, ticks) && tick < ticks
    ensures var a, b := w.reports, Tick(v, w, tick, ticks, numLines, env).reports;
            && |a| <= |b| <= |a| + 1 && b[..|a|] == a
            && (|b| == |a| + 1 ==> b[|a|].tick == tick && FirstReport(tick, ticks, numLines) == tick
                                   && FirstReport(tick + 1, ticks, numLines) == tick + 1)
            && (|b| == |a| ==> FirstReport(tick, ticks, numLines) == FirstReport(tick + 1, ticks, numLines))
  {
    if tick + numLines >= ticks {
      assert FirstReport(tick, ticks, numLines) == tick && FirstReport(tick + 1, ticks, numLines) == tick + 1;
    } else {
      assert Max(tick, ticks - numLines) == ticks - numLines == Max(tick + 1, ticks - numLines);
    }
  }

  /** A run from `tick` reports at the ticks FirstReport .. ticks-1, in order, and nowhere else. */
  lemma {:induction false} SimulateReports(v: Variant, w: World, tick: int, ticks: int, numLines: int, env: Env)
    requires Ready(v, w, env, tick, ticks)
    ensures var r := Simulate(v, w, tick, ticks, numLines, env);
            && |w.reports| <= |r.reports|
            && r.reports[..|w.reports|] == w.reports
            && Window(r.reports, |w.reports|, FirstReport(tick, ticks, numLines), ticks)
    decreases ticks - tick
  {
    if tick < ticks {
      var w' := Tick(v, w, tick, ticks, numLines, env);
      TickWindow(v, w, tick, ticks, numLines, env);
      SimulateReports(v, w', tick + 1, ticks, numLines, env);
      var r := Simulate(v, w', tick + 1, ticks, numLines, env);
      assert Simulate(v, w, tick, ticks, numLines, env) == r;
      WindowStep(r.reports, w.reports, w'.reports, tick, FirstReport(tick, ticks, numLines), FirstReport(tick + 1, ticks, numLines), ticks);
    } else {
      assert FirstReport(tick, ticks, numLines) == ticks;
    }
  }

  /**
   * A report is one sorted group holding every descriptor current_troons
   * wrote (main.cc), or three sorted groups, group idx holding the
   * descriptors of line idx (bonus.cc).
   */
  lemma ReportSorted(v: Variant, w: World, tick: int, env: Env)
    requires AllNamed(w.net, env.names)
    ensures var r := TakeReport(v, w, tick, env);
            && |r.reports| == |w.reports| + 1
            && var rep := r.reports[|w.reports|];
            && rep.tick == tick
            && (v == PriorityQueue ==>
                  && |rep.groups| == 1
                  && SortedBy(StrLe, rep.groups[0])
                  && multiset(rep.groups[0]) == multiset(Snapshot(w.net, env.names, |w.net|)))
            && (v == SortedSuffix ==>
                  && |rep.groups| == 3
                  && forall idx :: 0 <= idx < 3 ==>
                       && SortedBy(StrLe, rep.groups[idx])
                       && multiset(rep.groups[idx]) == multiset(LineSnapshot(w.net, idx, env.names, |w.net|)))
  {
    StrLeTotalPreorder();
    assert TotalPreorder(StrLe);
    if v == PriorityQueue {
      SortCorrect(StrLe, Snapshot(w.net, env.names, |w.net|));
    } else {
      forall idx | 0 <= idx < 3
        ensures SortedBy(StrLe, Sort(StrLe, LineSnapshot(w.net, idx, env.names, |w.net|)))
        ensures multiset(Sort(StrLe, LineSnapshot(w.net, idx, env.names, |w.net|))) == multiset(LineSnapshot(w.net, idx, env.names, |w.net|))
      {
        SortCorrect(StrLe, LineSnapshot(w.net, idx, env.names, |w.net|));
      }
    }
  }

  /** Every troon of the link is on one of the three lines. */
  predicate OnSomeLine(l: LinkState) {
    && (Occupied(l.loading) ==> l.loading.line != Invalid)
    && (Occupied(l.transiting) ==> l.transiting.line != Invalid)
    && forall k :: 0 <= k < |l.holding| ==> l.holding[k].troon.line != Invalid
  }

  /** The line a slot's troon contributes to; an empty slot contributes nothing, so any line will do. */
  function SlotLine(t: Troon): (r: nat)
    ensures r <= 3 && (t.line != Invalid ==> r < 3)
    ensures Occupied(t) ==> r == LineIndex(t.line)
  {
    if Occupied(t) then LineIndex(t.line) else 0
  }

  /** One line's share of a link: its held troons, then the loading and transit descriptors if they are on it. */
  lemma LineTroonsParts(l: LinkState, names: seq<string>, idx: nat)
    requires Named(l, names)
    ensures var a := names[l.seg.from];
            LineTroons(l, idx, names)
            == LineHeldStrings(l.holding, a, idx)
               + Part(SlotLine(l.loading), idx, LoadingStrings(l, a))
               + Part(SlotLine(l.transiting), idx, TransitStrings(l, a, names[l.seg.to]))
  {
    var a := names[l.seg.from];
    if Occupied(l.loading) {
      assert OnLine(l.loading, idx) <==> SlotLine(l.loading) == idx;
    } else {
      assert LoadingStrings(l, a) == [];
    }
    if Occupied(l.transiting) {
      assert OnLine(l.transiting, idx) <==> SlotLine(l.transiting) == idx;
    } else {
      assert TransitStrings(l, a, names[l.seg.to]) == [];
    }
  }

  /** A whole made of held, loading and transit parts splits three ways when each part does. */
  lemma SplitThree(whole: seq<string>, held: seq<string>, load: seq<string>, tr: seq<string>,
                   h0: seq<string>, h1: seq<string>, h2: seq<string>,
                   g0: seq<string>, g1: seq<string>, g2: seq<string>, ld: nat, td: nat)
    requires ld < 3 && td < 3
    requires multiset(whole) == multiset(held) + multiset(load) + multiset(tr)
    requires multiset(held) == multiset(h0) + multiset(h1) + multiset(h2)
    requires g0 == h0 + Part(ld, 0, load) + Part(td, 0, tr)
    requires g1 == h1 + Part(ld, 1, load) + Part(td, 1, tr)
    requires g2 == h2 + Part(ld, 2, load) + Part(td, 2, tr)
    ensures multiset(whole) == multiset(g0) + multiset(g1) + multiset(g2)
  {
    PartsSum(ld, load);
    PartsSum(td, tr);
    Regroup(multiset(h0), multiset(h1), multiset(h2), multiset(Part(ld, 0, load)), multiset(Part(ld, 1, load)), multiset(Part(ld, 2, load)));
    Regroup(multiset(h0) + multiset(Part(ld, 0, load)), multiset(h1) + multiset(Part(ld, 1, load)), multiset(h2) + multiset(Part(ld, 2, load)),
            multiset(Part(td, 0, tr)), multiset(Part(td, 1, tr)), multiset(Part(td, 2, tr)));
  }

  /** Adding one part to each of three multisets adds the parts' sum to theirs. */
  lemma Regroup(p0: multiset<string>, p1: multiset<string>, p2: multiset<string>,
                e0: multiset<string>, e1: multiset<string>, e2: multiset<string>)
    ensures (p0 + e0) + (p1 + e1) + (p2 + e2) == (p0 + p1 + p2) + (e0 + e1 + e2)
  {
    forall x ensures ((p0 + e0) + (p1 + e1) + (p2 + e2))[x] == ((p0 + p1 + p2) + (e0 + e1 + e2))[x] {
    }
  }

  /** The part of one string that goes to line idx: all of it for its own line, nothing for the others. */
  function Part(on: nat, idx: nat, s: seq<string>): seq<string> {
    if on == idx then s else []
  }

  lemma PartsSum(on: nat, s: seq<string>)
    requires on < 3
    ensures multiset(Part(on, 0, s)) + multiset(Part(on, 1, s)) + multiset(Part(on, 2, s)) == multiset(s)
  {
  }

  /** The last waiting troon's "#" descriptor goes to its own line's share only. */
  lemma LineHeldLast(h: seq<WaitingTroon>, station: string, idx: nat)
    requires |h| > 0
    ensures LineHeldStrings(h, station, idx)
         == LineHeldStrings(h[..|h| - 1], station, idx) + Part(LineIndex(h[|h| - 1].troon.line), idx, HeldStrings([h[|h| - 1]], station))
  {
  }

  lemma HeldLast(h: seq<WaitingTroon>, station: string)
    requires |h| > 0
    ensures HeldStrings(h, station) == HeldStrings(h[..|h| - 1], station) + HeldStrings([h[|h| - 1]], station)
  {
    assert h == h[..|h| - 1] + [h[|h| - 1]];
    HeldStringsConcat(h[..|h| - 1], [h[|h| - 1]], station);
  }

  /** The "#" descriptors of a holding area are those of its three lines together. */
  lemma {:induction false} LineHeldSplit(h: seq<WaitingTroon>, station: string)
    requires forall k :: 0 <= k < |h| ==> h[k].troon.line != Invalid
    ensures multiset(HeldStrings(h, station))
         == multiset(LineHeldStrings(h, station, 0)) + multiset(LineHeldStrings(h, station, 1)) + multiset(LineHeldStrings(h, station, 2))
    decreases |h|
  {
    if |h| > 0 {
      var m := |h| - 1;
      var prev := h[..m];
      LineHeldSplit(prev, station);
      var on := LineIndex(h[m].troon.line);
      var d := HeldStrings([h[m]], station);
      HeldLast(h, station);
      LineHeldLast(h, station, 0);
      LineHeldLast(h, station, 1);
      LineHeldLast(h, station, 2);
      PartsSum(on, d);
      Assemble(HeldStrings(h, station), HeldStrings(prev, station), d,
               LineHeldStrings(h, station, 0), LineHeldStrings(h, station, 1), LineHeldStrings(h, station, 2),
               LineHeldStrings(prev, station, 0), LineHeldStrings(prev, station, 1), LineHeldStrings(prev, station, 2),
               Part(on, 0, d), Part(on, 1, d), Part(on, 2, d));
    }
  }

  /** main.cc's current_troons writes for a link exactly what bonus.cc's writes for the three lines together. */
  lemma LinkSplit(l: LinkState, names: seq<string>)
    requires Named(l, names) && OnSomeLine(l)
    ensures multiset(CurrentTroons(l, names))
         == multiset(LineTroons(l, 0, names)) + multiset(LineTroons(l, 1, names)) + multiset(LineTroons(l, 2, names))
  {
    CurrentTroonsCounts(l, names);
    var a := names[l.seg.from];
    LineHeldSplit(l.holding, a);
    var load := LoadingStrings(l, a);
    var tr := TransitStrings(l, a, names[l.seg.to]);
    var ld, td := SlotLine(l.loading), SlotLine(l.transiting);
    LineTroonsParts(l, names, 0);
    LineTroonsParts(l, names, 1);
    LineTroonsParts(l, names, 2);
    SplitThree(CurrentTroons(l, names), HeldStrings(l.holding, a), load, tr,
               LineHeldStrings(l.holding, a, 0), LineHeldStrings(l.holding, a, 1), LineHeldStrings(l.holding, a, 2),
               LineTroons(l, 0, names), LineTroons(l, 1, names), LineTroons(l, 2, names), ld, td);
  }

  /** Appending one link's strings to the list of all lines and to each line's list keeps them split. */
  lemma Assemble(whole: seq<string>, prev: seq<string>, cur: seq<string>,
                 a0: seq<string>, a1: seq<string>, a2: seq<string>,
                 b0: seq<string>, b1: seq<string>, b2: seq<string>,
                 c0: seq<string>, c1: seq<string>, c2: seq<string>)
    requires whole == prev + cur && a0 == b0 + c0 && a1 == b1 + c1 && a2 == b2 + c2
    requires multiset(prev) == multiset(b0) + multiset(b1) + multiset(b2)
    requires multiset(cur) == multiset(c0) + multiset(c1) + multiset(c2)
    ensures multiset(whole) == multiset(a0) + multiset(a1) + multiset(a2)
  {
    Regroup(multiset(b0), multiset(b1), multiset(b2), multiset(c0), multiset(c1), multiset(c2));
  }

  /** If each part splits into three, so do the parts one after another. */
  lemma {:induction false} ConcatSplit(parts: seq<seq<string>>, p0: seq<seq<string>>, p1: seq<seq<string>>, p2: seq<seq<string>>)
    requires |p0| == |parts| && |p1| == |parts| && |p2| == |parts|
    requires forall j :: 0 <= j < |parts| ==> multiset(parts[j]) == multiset(p0[j]) + multiset(p1[j]) + multiset(p2[j])
    ensures multiset(Concat(parts)) == multiset(Concat(p0)) + multiset(Concat(p1)) + multiset(Concat(p2))
    decreases |parts|
  {
    if |parts| > 0 {
      var m := |parts| - 1;
      ConcatSplit(parts[..m], p0[..m], p1[..m], p2[..m]);
      Assemble(Concat(parts), Concat(parts[..m]), parts[m],
               Concat(p0), Concat(p1), Concat(p2),
               Concat(p0[..m]), Concat(p1[..m]), Concat(p2[..m]),
               p0[m], p1[m], p2[m]);
    }
  }

  /** The descriptors main.cc's report sorts are those of bonus.cc's three groups together. */
  lemma SnapshotSplit(net: seq<LinkState>, names: seq<string>, n: nat)
    requires n <= |net| && AllNamed(net, names)
    requires forall j :: 0 <= j < |net| ==> OnSomeLine(net[j])
    ensures multiset(Snapshot(net, names, n))
         == multiset(LineSnapshot(net, 0, names, n)) + multiset(LineSnapshot(net, 1, names, n)) + multiset(LineSnapshot(net, 2, names, n))
  {
    var parts := seq(n, j requires 0 <= j < n => CurrentTroons(net[j], names));
    var p0 := seq(n, j requires 0 <= j < n => LineTroons(net[j], 0, names));
    var p1 := seq(n, j requires 0 <= j < n => LineTroons(net[j], 1, names));
    var p2 := seq(n, j requires 0 <= j < n => LineTroons(net[j], 2, names));
    forall j | 0 <= j < n ensures multiset(parts[j]) == multiset(p0[j]) + multiset(p1[j]) + multiset(p2[j]) {
      LinkSplit(net[j], names);
    }
    ConcatSplit(parts, p0, p1, p2);
  }
}
