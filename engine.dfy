/**
 * The programs' own objects: a Link whose fields run, enqueue_troon,
 * spawn_troon, flush_buffers and current_troons update in place, and
 * simulate's loops over the links. Each method is proved to do to the link
 * (or to the vector of links) what the matching function of Network or
 * Simulation says, so everything proved about those functions holds of the
 * objects. main.cc's Link and bonus.cc's differ only in their holding area
 * and in current_troons; `v` says which program a link belongs to.
 */
module Engine {
  import opened Text
  import opened Sorting
  import opened Troons
  import opened Holding
  import opened Network
  import opened Invariants
  import opened Worlds
  import opened Simulation

  class Link {
    const v: Variant
    const seg: Segment
    var transiting: Troon
    var loading: Troon
    var holding: seq<WaitingTroon>
    var prevSz: nat

    /** The link's fields as a value. */
    function State(): LinkState
      reads this
    {
      LinkState(seg, transiting, loading, holding, prevSz)
    }

    /** Link(from, to, len, popularity): both slots INVALID_TROON, nothing waiting. */
    constructor(v: Variant, seg: Segment)
      ensures this.v == v && State() == NewLink(v, seg)
    {
      this.v := v;
      this.seg := seg;
      transiting := InvalidTroon(v);
      loading := InvalidTroon(v);
      holding := [];
      prevSz := 0;
    }

    /** enqueue_troon: the troon joins the holding area at this tick. */
    method EnqueueTroon(tick: int, t: Troon)
      modifies this
      ensures State() == Enqueue(old(State()), tick, t)
    {
      holding := holding + [WaitingTroon(tick, t)];
    }

    /** spawn_troon: a new troon joins the holding area at this tick. */
    method SpawnTroon(tick: int, t: Troon)
      modifies this
      ensures State() == Enqueue(old(State()), tick, t)
    {
      holding := holding + [WaitingTroon(tick, t)];
    }

    /** The first half of run: a due transiting troon moves on to its next link and leaves the slot. */
    method Arrival(tick: int, links: seq<Link>, i: nat, env: Env)
      requires i < |links| && links[i] == this && DistinctLinks(links)
      requires CanArrive(Net(links), i, tick, env)
      modifies links
      ensures Net(links) == Arrive(v, old(Net(links)), i, tick, env)
    {
      ghost var n0 := Net(links);
      if transiting.timer == tick {
        var t := transiting;
        var next := NextStation(env.lists, t, seg.to);
        if next == -1 {
          t := t.(forward := !t.forward);
          next := seg.from;
        }
        var k := env.table[(seg.to, next)];
        assert t == Destination(env.lists, n0[i].transiting, n0[i].seg).0 && k == ArrivalLink(n0, i, tick, env);
        links[k].EnqueueTroon(tick, t);
        ghost var n1 := n0[k := Enqueue(n0[k], tick, t)];
        assert forall j :: 0 <= j < |links| ==> links[j].State() == n1[j];
        transiting := InvalidTroon(v);
        assert forall j :: 0 <= j < |links| ==> links[j].State() == n1[i := n1[i].(transiting := InvalidTroon(v))][j];
      }
    }

    /**
     * run: a due transiting troon moves on to the link from `to` to its next
     * station (back to `from`, reversed, at a terminus) and leaves the slot;
     * then a due loading troon starts its transit.
     */
    method Run(tick: int, links: seq<Link>, i: nat, env: Env)
      requires i < |links| && links[i] == this && DistinctLinks(links)
      requires CanArrive(Net(links), i, tick, env)
      modifies links
      ensures Net(links) == RunLink(v, old(Net(links)), i, tick, env)
    {
      Arrival(tick, links, i, env);
      Departure(tick, links, i);
    }

    /** The second half of run: a due loading troon starts its transit, due len ticks from now. */
    method Departure(tick: int, links: seq<Link>, i: nat)
      requires i < |links| && links[i] == this && DistinctLinks(links)
      modifies this
      ensures Net(links) == old(Net(links))[i := Promote(v, old(State()), tick)]
    {
      if loading.timer == tick {
        transiting := loading.(timer := tick + seg.len);
        loading := InvalidTroon(v);
      }
      assert forall j :: 0 <= j < |links| ==> links[j].State() == old(Net(links))[i := Promote(v, old(State()), tick)][j];
    }

    /** flush_buffers: with the loading slot free, the first waiting troon is taken and given its departure tick. */
    method FlushBuffers(tick: int)
      requires prevSz <= |holding|
      modifies this
      ensures State() == Flush(v, old(State()), tick)
    {
      if |holding| > 0 && !Occupied(loading) {
        var p := Pick(v, holding, prevSz);
        loading := p.0.troon.(timer := DepartureTimer(v, State(), tick));
        holding := p.1;
        prevSz := p.2;
      }
    }

    /** top() then pop() on main.cc's heap: the (time, id)-least entry leaves the holding area. */
    method PopMin() returns (w: WaitingTroon)
      requires |holding| > 0
      modifies this
      ensures w == old(holding)[MinIndex(old(holding))] && holding == RemoveAt(old(holding), MinIndex(old(holding)))
      ensures transiting == old(transiting) && loading == old(loading) && prevSz == old(prevSz)
    {
      var k := MinIndex(holding);
      w := holding[k];
      holding := RemoveAt(holding, k);
    }

    /** The popping half of main.cc's current_troons: the heap handed out entry by entry, each entry's descriptor written. */
    method PopAll(station: string) returns (buf: seq<WaitingTroon>, out: seq<string>)
      modifies this
      ensures buf == Drain(old(holding)) && out == HeldStrings(buf, station)
      ensures holding == [] && transiting == old(transiting) && loading == old(loading) && prevSz == old(prevSz)
    {
      buf, out := [], [];
      while |holding| > 0
        invariant buf + Drain(holding) == Drain(old(holding))
        invariant out == HeldStrings(buf, station)
        invariant transiting == old(transiting) && loading == old(loading) && prevSz == old(prevSz)
        decreases |holding|
      {
        DrainStep(buf, holding);
        var w := PopMin();
        out := out + [Descriptor(w.troon, station) + "#"];
        HeldStringsPush(buf, w, station);
        buf := buf + [w];
      }
    }

    /** The pushing half of main.cc's current_troons: the popped entries pushed back in the order they came out. */
    method PushAll(buf: seq<WaitingTroon>)
      requires holding == []
      modifies this
      ensures holding == buf && transiting == old(transiting) && loading == old(loading) && prevSz == old(prevSz)
    {
      for x := 0 to |buf|
        invariant |holding| == x && forall i :: 0 <= i < x ==> holding[i] == buf[i]
        invariant transiting == old(transiting) && loading == old(loading) && prevSz == old(prevSz)
      {
        holding := holding + [buf[x]];
      }
    }

    /**
     * main.cc's current_troons: pops the heap empty, writing each entry's
     * descriptor, pushes the entries back, then writes the loading and the
     * transiting troon.
     */
    method CurrentTroons(names: seq<string>) returns (out: seq<string>)
      requires v == PriorityQueue && Named(State(), names)
      modifies this
      ensures out == Network.CurrentTroons(old(State()), names)
      ensures State() == old(State()).(holding := Drain(old(holding)))
    {
      var station := names[seg.from];
      var buf;
      buf, out := PopAll(station);
      PushAll(buf);
      if Occupied(loading) {
        out := out + [Descriptor(loading, station) + "%"];
      }
      assert out == HeldStrings(buf, station) + LoadingStrings(State(), station);
      if Occupied(transiting) {
        out := out + [Descriptor(transiting, station) + "->" + names[seg.to]];
      }
      assert out == HeldStrings(buf, station) + LoadingStrings(State(), station)
                    + TransitStrings(State(), station, names[seg.to]);
    }

    /** bonus.cc's current_troons(idx): the descriptors of this link's troons on line idx, holding area first. */
    method LineTroons(idx: nat, names: seq<string>) returns (out: seq<string>)
      requires Named(State(), names)
      ensures out == Network.LineTroons(State(), idx, names)
    {
      var station := names[seg.from];
      out := [];
      for k := 0 to |holding|
        invariant out == LineHeldStrings(holding[..k], station, idx)
      {
        var cur := holding[k];
        assert holding[..k + 1][..k] == holding[..k];
        if LineIndex(cur.troon.line) == idx {
          out := out + [Descriptor(cur.troon, station) + "#"];
        }
      }
      assert holding[..|holding|] == holding;
      if Occupied(loading) && LineIndex(loading.line) == idx {
        out := out + [Descriptor(loading, station) + "%"];
      }
      if Occupied(transiting) && LineIndex(transiting.line) == idx {
        out := out + [Descriptor(transiting, station) + "->" + names[seg.to]];
      }
    }
  }

  /** Popping the heap's top moves the first entry of the drain order to the output. */
  lemma DrainStep(buf: seq<WaitingTroon>, h: seq<WaitingTroon>)
    requires |h| > 0
    ensures buf + Drain(h) == (buf + [h[MinIndex(h)]]) + Drain(RemoveAt(h, MinIndex(h)))
  {
  }

  /** flattened_links holds each link once. */
  predicate DistinctLinks(links: seq<Link>) {
    forall a, b :: 0 <= a < b < |links| ==> links[a] != links[b]
  }

  /** Every link belongs to the same program. */
  predicate Uniform(links: seq<Link>, v: Variant) {
    forall j :: 0 <= j < |links| ==> links[j].v == v
  }

  /** The links' fields as a network value. */
  function Net(links: seq<Link>): (r: seq<LinkState>)
    reads links
    ensures |r| == |links| && forall j :: 0 <= j < |links| ==> r[j] == links[j].State()
  {
    if |links| == 0 then [] else Net(links[..|links| - 1]) + [links[|links| - 1].State()]
  }

  /** The simulation state the model's functions speak of. */
  function WorldOf(links: seq<Link>, budgets: array<int>, nextId: int, reports: seq<Report>): World
    reads links, budgets
  {
    World(Net(links), budgets[..], nextId, reports)
  }

  /**
   * The inner spawn loop for line i: while the line's budget lasts, a
   * forward troon at spawn link 2i, then a backward troon at 2i+1, each
   * taking next_troon_id and one unit of the budget.
   */
  method SpawnLine(links: seq<Link>, budgets: array<int>, i: nat, nextId: int, tick: int, env: Env, ghost reports: seq<Report>)
    returns (nextId': int)
    requires i < 3 && DistinctLinks(links) && budgets.Length == 3 && SpawnIndexed(Net(links), env)
    modifies links, budgets
    ensures WorldOf(links, budgets, nextId', reports) == SpawnDirections(old(WorldOf(links, budgets, nextId, reports)), i, 0, tick, env)
  {
    ghost var w := WorldOf(links, budgets, nextId, reports);
    ghost var target := SpawnDirections(w, i, 0, tick, env);
    nextId' := nextId;
    var j := 0;
    while budgets[i] != 0 && j < 2
      invariant 0 <= j <= 2
      invariant Net(links) == w.net && budgets[..] == w.budgets && nextId' == w.nextId && w.reports == reports
      invariant SpawnIndexed(w.net, env)
      invariant SpawnDirections(w, i, j, tick, env) == target
      decreases 2 - j
    {
      var at := env.spawnLocs[i * 2 + j];
      var t := Troon(nextId', 0, LineColor(i), j == 0);
      SpawnStep(w, i, j, tick, env);
      SpawnOnce(links, budgets, i, at, tick, t);
      nextId' := nextId' + 1;
      w := World(w.net[at := Enqueue(w.net[at], tick, t)], w.budgets[i := w.budgets[i] - 1], w.nextId + 1, w.reports);
      j := j + 1;
    }
  }

  /** The outer spawn loop: line after line, stopping at the first line whose budget is exhausted. */
  method SpawnPhase(links: seq<Link>, budgets: array<int>, nextId: int, tick: int, env: Env, ghost reports: seq<Report>)
    returns (nextId': int)
    requires DistinctLinks(links) && budgets.Length == 3 && SpawnIndexed(Net(links), env)
    modifies links, budgets
    ensures WorldOf(links, budgets, nextId', reports) == SpawnLines(old(WorldOf(links, budgets, nextId, reports)), 0, tick, env)
  {
    ghost var cur := WorldOf(links, budgets, nextId, reports);
    ghost var target := SpawnLines(cur, 0, tick, env);
    nextId' := nextId;
    var i := 0;
    while i < 3 && budgets[i] != 0
      invariant 0 <= i <= 3 && WorldOf(links, budgets, nextId', reports) == cur
      invariant |cur.budgets| == 3 && SpawnIndexed(cur.net, env) && SpawnLines(cur, i, tick, env) == target
    {
      nextId' := SpawnLine(links, budgets, i, nextId', tick, env, reports);
      cur := SpawnDirections(cur, i, 0, tick, env);
      i := i + 1;
    }
  }

  /** One pass of the inner spawn loop on the objects: spawn_troon on link `at`, then --num_troons[i]. */
  method SpawnOnce(links: seq<Link>, budgets: array<int>, i: nat, at: nat, tick: int, t: Troon)
    requires at < |links| && DistinctLinks(links) && i < budgets.Length
    modifies links[at], budgets
    ensures Net(links) == old(Net(links))[at := Enqueue(old(Net(links))[at], tick, t)]
    ensures budgets[..] == old(budgets[..])[i := old(budgets[i]) - 1]
  {
    SpawnInto(links, at, tick, t);
    budgets[i] := budgets[i] - 1;
  }

  /** spawn_troon on link `at` of the vector: only that link changes. */
  method SpawnInto(links: seq<Link>, at: nat, tick: int, t: Troon)
    requires at < |links| && DistinctLinks(links)
    modifies links[at]
    ensures Net(links) == old(Net(links))[at := Enqueue(old(Net(links))[at], tick, t)]
  {
    ghost var n0 := Net(links);
    links[at].SpawnTroon(tick, t);
    assert forall x :: 0 <= x < |links| && x != at ==> links[x].State() == n0[x];
    assert Net(links) == n0[at := Enqueue(n0[at], tick, t)];
  }

  /** One pass of the inner spawn loop, written out: the rest of the loop continues from the world it leaves. */
  lemma SpawnStep(w: World, i: nat, j: nat, tick: int, env: Env)
    requires i < 3 && j < 2 && |w.budgets| == 3 && SpawnIndexed(w.net, env) && w.budgets[i] != 0
    ensures var at := env.spawnLocs[i * 2 + j];
            var r := World(w.net[at := Enqueue(w.net[at], tick, Troon(w.nextId, 0, LineColor(i), j == 0))],
                           w.budgets[i := w.budgets[i] - 1], w.nextId + 1, w.reports);
            && SpawnIndexed(r.net, env)
            && SpawnDirections(w, i, j, tick, env) == SpawnDirections(r, i, j + 1, tick, env)
  {
    var r := SpawnOne(w, i, j, tick, env);
  }

  /** The run loop over the links in creation order. */
  method RunPhase(v: Variant, links: seq<Link>, tick: int, env: Env)
    requires DistinctLinks(links) && Uniform(links, v)
    requires RunPre(v, Net(links), 0, tick, env)
    modifies links
    ensures Net(links) == RunFrom(v, old(Net(links)), 0, tick, env)
  {
    ghost var final := RunFrom(v, Net(links), 0, tick, env);
    for i := 0 to |links|
      invariant RunPre(v, Net(links), i, tick, env)
      invariant RunFrom(v, Net(links), i, tick, env) == final
    {
      RunStep(v, links, i, tick, env);
    }
  }

  /** One iteration of the run loop: link i runs and the rest of the phase is unchanged. */
  method RunStep(v: Variant, links: seq<Link>, i: nat, tick: int, env: Env)
    requires DistinctLinks(links) && Uniform(links, v) && i < |links|
    requires RunPre(v, Net(links), i, tick, env)
    modifies links
    ensures RunPre(v, Net(links), i + 1, tick, env)
    ensures RunFrom(v, Net(links), i + 1, tick, env) == RunFrom(v, old(Net(links)), i, tick, env)
  {
    RunFromStep(v, Net(links), i, tick, env);
    links[i].Run(tick, links, i, env);
  }

  /** The flush loop over the links in creation order. */
  method FlushPhase(v: Variant, links: seq<Link>, tick: int)
    requires DistinctLinks(links) && Uniform(links, v)
    requires Flushable(Net(links))
    modifies links
    ensures Net(links) == FlushUpTo(v, old(Net(links)), |links|, tick)
  {
    ghost var start := Net(links);
    for i := 0 to |links|
      invariant forall j :: 0 <= j < |links| ==> links[j].State() == if j < i then Flush(v, start[j], tick) else start[j]
    {
      links[i].FlushBuffers(tick);
    }
    assert Net(links) == FlushUpTo(v, start, |links|, tick);
  }

  /** Appending link n's descriptors extends the report by them. */
  lemma SnapshotStep(net: seq<LinkState>, names: seq<string>, n: nat)
    requires n < |net| && AllNamed(net, names)
    ensures Snapshot(net, names, n + 1) == Snapshot(net, names, n) + CurrentTroons(net[n], names)
  {
    var parts := seq(n + 1, j requires 0 <= j < n + 1 => CurrentTroons(net[j], names));
    assert parts[..n] == seq(n, j requires 0 <= j < n => CurrentTroons(net[j], names));
  }

  lemma LineSnapshotStep(net: seq<LinkState>, idx: nat, names: seq<string>, n: nat)
    requires n < |net| && AllNamed(net, names)
    ensures LineSnapshot(net, idx, names, n + 1) == LineSnapshot(net, idx, names, n) + LineTroons(net[n], idx, names)
  {
    var parts := seq(n + 1, j requires 0 <= j < n + 1 => LineTroons(net[j], idx, names));
    assert parts[..n] == seq(n, j requires 0 <= j < n => LineTroons(net[j], idx, names));
  }

  /** current_troons on link j: its descriptors, and its heap drained and refilled in drained order. */
  method CurrentTroonsAt(links: seq<Link>, j: nat, names: seq<string>) returns (s: seq<string>)
    requires j < |links| && DistinctLinks(links) && links[j].v == PriorityQueue && Named(Net(links)[j], names)
    modifies links[j]
    ensures s == CurrentTroons(old(Net(links))[j], names)
    ensures Net(links) == old(Net(links))[j := old(Net(links))[j].(holding := Drain(old(Net(links))[j].holding))]
  {
    ghost var after := Net(links)[j := Net(links)[j].(holding := Drain(Net(links)[j].holding))];
    s := links[j].CurrentTroons(names);
    assert forall k :: 0 <= k < |links| ==> links[k].State() == after[k];
  }

  /** Draining one more link's holding area. */
  lemma DrainUpToStep(net: seq<LinkState>, n: nat)
    requires n < |net|
    ensures DrainUpTo(net, n + 1) == DrainUpTo(net, n)[n := net[n].(holding := Drain(net[n].holding))]
  {
  }

  /** main.cc's report: current_troons on every link in order, then std::sort of what they wrote. */
  method ReportAll(links: seq<Link>, names: seq<string>) returns (sorted: seq<string>)
    requires DistinctLinks(links) && Uniform(links, PriorityQueue) && AllNamed(Net(links), names)
    modifies links
    ensures sorted == Sort(StrLe, Snapshot(old(Net(links)), names, |links|))
    ensures Net(links) == DrainUpTo(old(Net(links)), |links|)
  {
    ghost var start := Net(links);
    ghost var cur := start;
    assert cur == DrainUpTo(start, 0);
    var strs: seq<string> := [];
    for j := 0 to |links|
      invariant Net(links) == cur && cur == DrainUpTo(start, j)
      invariant strs == Snapshot(start, names, j)
    {
      assert cur[j] == start[j];
      var s := CurrentTroonsAt(links, j, names);
      SnapshotStep(start, names, j);
      DrainUpToStep(start, j);
      cur := cur[j := cur[j].(holding := Drain(cur[j].holding))];
      strs := strs + s;
    }
    sorted := Sort(StrLe, strs);
  }

  /** bonus.cc's report: for each line, current_troons(line) on every link in order; then each line's strings sorted. */
  method ReportLines(links: seq<Link>, names: seq<string>) returns (groups: seq<seq<string>>)
    requires AllNamed(Net(links), names)
    ensures |groups| == 3
    ensures forall idx :: 0 <= idx < 3 ==> groups[idx] == Sort(StrLe, LineSnapshot(Net(links), idx, names, |links|))
  {
    ghost var net := Net(links);
    var strs: seq<seq<string>> := [];
    for idx := 0 to 3
      invariant |strs| == idx
      invariant forall x :: 0 <= x < idx ==> strs[x] == LineSnapshot(net, x, names, |links|)
    {
      var line: seq<string> := [];
      for j := 0 to |links|
        invariant line == LineSnapshot(net, idx, names, j)
      {
        var s := links[j].LineTroons(idx, names);
        LineSnapshotStep(net, idx, names, j);
        line := line + s;
      }
      strs := strs + [line];
    }
    groups := [];
    for idx := 0 to 3
      invariant |groups| == idx
      invariant forall x :: 0 <= x < idx ==> groups[x] == Sort(StrLe, strs[x])
    {
      groups := groups + [Sort(StrLe, strs[idx])];
    }
  }

  /** The world after the spawn and run phases of a tick; flushing it gives Phases. */
  ghost function Ran(v: Variant, w: World, tick: int, ticks: int, env: Env): (r: World)
    requires Ready(v, w, env, tick, ticks) && tick < ticks
    ensures Flushable(r.net)
    ensures Phases(v, w, tick, ticks, env) == r.(net := FlushUpTo(v, r.net, |r.net|, tick))
  {
    PhasesUnfold(v, w, tick, ticks, env);
    var s := SpawnLines(w, 0, tick, env);
    s.(net := RunFrom(v, s.net, 0, tick, env))
  }

  /** The spawn and run phases of a tick on the objects. */
  method SpawnRunStep(v: Variant, links: seq<Link>, budgets: array<int>, nextId: int, ghost reports: seq<Report>,
                      tick: int, ticks: int, env: Env)
    returns (nextId': int)
    requires DistinctLinks(links) && Uniform(links, v) && budgets.Length == 3
    requires Ready(v, WorldOf(links, budgets, nextId, reports), env, tick, ticks) && tick < ticks
    modifies links, budgets
    ensures WorldOf(links, budgets, nextId', reports) == Ran(v, old(WorldOf(links, budgets, nextId, reports)), tick, ticks, env)
  {
    ghost var w := WorldOf(links, budgets, nextId, reports);
    PhasesUnfold(v, w, tick, ticks, env);
    nextId' := SpawnPhase(links, budgets, nextId, tick, env, reports);
    RunPhase(v, links, tick, env);
  }

  /** The spawn, run and flush phases of a tick on the objects. */
  method PhasesStep(v: Variant, links: seq<Link>, budgets: array<int>, nextId: int, ghost reports: seq<Report>,
                    tick: int, ticks: int, env: Env)
    returns (nextId': int)
    requires DistinctLinks(links) && Uniform(links, v) && budgets.Length == 3
    requires Ready(v, WorldOf(links, budgets, nextId, reports), env, tick, ticks) && tick < ticks
    modifies links, budgets
    ensures WorldOf(links, budgets, nextId', reports) == Phases(v, old(WorldOf(links, budgets, nextId, reports)), tick, ticks, env)
  {
    nextId' := SpawnRunStep(v, links, budgets, nextId, reports, tick, ticks, env);
    FlushPhase(v, links, tick);
  }

  /** The report of a tick on the objects: main.cc's over all links, bonus.cc's per line. */
  method ReportStep(v: Variant, links: seq<Link>, budgets: array<int>, nextId: int, reports: seq<Report>,
                    tick: int, env: Env)
    returns (reports': seq<Report>)
    requires DistinctLinks(links) && Uniform(links, v)
    requires AllNamed(Net(links), env.names)
    modifies links
    ensures WorldOf(links, budgets, nextId, reports') == TakeReport(v, old(WorldOf(links, budgets, nextId, reports)), tick, env)
  {
    if v == PriorityQueue {
      var sorted := ReportAll(links, env.names);
      reports' := reports + [Report(tick, [sorted])];
    } else {
      ghost var net := Net(links);
      var groups := ReportLines(links, env.names);
      reports' := reports + [Report(tick, groups)];
      assert groups == seq(3, idx requires 0 <= idx < 3 => Sort(StrLe, LineSnapshot(net, idx, env.names, |net|)));
    }
  }

  /** One pass of simulate's tick loop: the phases, then a report in the last num_lines ticks. */
  method TickStep(v: Variant, links: seq<Link>, budgets: array<int>, nextId: int, reports: seq<Report>,
                  tick: int, ticks: int, numLines: int, env: Env)
    returns (nextId': int, reports': seq<Report>)
    requires DistinctLinks(links) && Uniform(links, v) && budgets.Length == 3
    requires Ready(v, WorldOf(links, budgets, nextId, reports), env, tick, ticks) && tick < ticks
    modifies links, budgets
    ensures WorldOf(links, budgets, nextId', reports') == Tick(v, old(WorldOf(links, budgets, nextId, reports)), tick, ticks, numLines, env)
  {
    ghost var w := WorldOf(links, budgets, nextId, reports);
    nextId' := PhasesStep(v, links, budgets, nextId, reports, tick, ticks, env);
    ghost var p := Phases(v, w, tick, ticks, env);
    reports' := reports;
    if tick + numLines >= ticks {
      TakeReportOk(v, p, tick, env);
      reports' := ReportStep(v, links, budgets, nextId', reports, tick, env);
    }
  }

  /**
   * simulate: ticks 0 .. ticks-1, next_troon_id starting at 0. The links
   * and num_troons end as the model's simulation leaves them, and the
   * reports are the lines it prints.
   */
  method Simulate(v: Variant, links: seq<Link>, budgets: array<int>, ticks: int, numLines: int, env: Env)
    returns (reports: seq<Report>)
    requires DistinctLinks(links) && Uniform(links, v) && budgets.Length == 3
    requires Ready(v, WorldOf(links, budgets, 0, []), env, 0, ticks)
    modifies links, budgets
    ensures var w := Simulation.Simulate(v, old(WorldOf(links, budgets, 0, [])), 0, ticks, numLines, env);
            Net(links) == w.net && budgets[..] == w.budgets && reports == w.reports
  {
    ghost var target := Simulation.Simulate(v, WorldOf(links, budgets, 0, []), 0, ticks, numLines, env);
    var nextId := 0;
    reports := [];
    var tick := 0;
    while tick < ticks
      invariant Ready(v, WorldOf(links, budgets, nextId, reports), env, tick, ticks)
      invariant Simulation.Simulate(v, WorldOf(links, budgets, nextId, reports), tick, ticks, numLines, env) == target
      decreases ticks - tick
    {
      nextId, reports := TickStep(v, links, budgets, nextId, reports, tick, ticks, numLines, env);
      tick := tick + 1;
    }
  }

  /** The flattened_links construction: one new Link per segment, in creation order. */
  method BuildNetwork(v: Variant, segs: seq<Segment>) returns (links: seq<Link>)
    ensures DistinctLinks(links) && Uniform(links, v)
    ensures forall j :: 0 <= j < |links| ==> fresh(links[j])
    ensures |links| == |segs| && forall j :: 0 <= j < |segs| ==> links[j].State() == NewLink(v, segs[j])
  {
    links := [];
    for j := 0 to |segs|
      invariant |links| == j && DistinctLinks(links) && Uniform(links, v)
      invariant forall k :: 0 <= k < j ==> fresh(links[k]) && links[k].State() == NewLink(v, segs[k])
    {
      var l := new Link(v, segs[j]);
      links := links + [l];
    }
  }
}
