/**
 * What holds of the network between the steps of a tick, and why each step
 * keeps it: the loaded tables agree with the links, every troon sits on a
 * link of its own line's route, a slot that holds no troon holds exactly
 * INVALID_TROON, no pending timer has been missed, and the loading troon
 * never departs before the transiting one arrives.
 */
module Invariants {
  import opened Troons
  import opened Holding
  import opened Network

  /** The station lists: two directions, three lines, one entry per station. */
  predicate ListsShape(lists: seq<seq<seq<int>>>, s: nat) {
    && |lists| == 2
    && (forall d :: 0 <= d < 2 ==> |lists[d]| == 3)
    && (forall d, line :: 0 <= d < 2 && 0 <= line < 3 ==> |lists[d][line]| == s)
  }

  /**
   * Every next station is -1 or a station reached by a link, and the two
   * directions are inverse: if b follows a going one way, a follows b going
   * the other way.
   */
  predicate RoutesOk(env: Env) {
    var s := |env.names|;
    && ListsShape(env.lists, s)
    && (forall d, line, a {:trigger env.lists[d][line][a]} :: 0 <= d < 2 && 0 <= line < 3 && 0 <= a < s ==>
          var b := env.lists[d][line][a];
          b == -1 || (0 <= b < s && (a, b) in env.table && env.lists[1 - d][line][b] == a))
  }

  /** The link table maps (from, to) to the index of the link with those end stations. */
  predicate TableOk(net: seq<LinkState>, env: Env) {
    forall key :: key in env.table ==>
      env.table[key] < |net| && net[env.table[key]].seg.from == key.0 && net[env.table[key]].seg.to == key.1
  }

  /** Link ends are stations, lengths positive and popularities non-negative. */
  predicate SegsOk(net: seq<LinkState>, s: nat) {
    forall j :: 0 <= j < |net| ==>
      var g := net[j].seg;
      0 <= g.from < s && 0 <= g.to < s && g.len >= 1 && g.popularity >= 0
  }

  /** The six spawn links are links of the network. */
  predicate SpawnIndexed(net: seq<LinkState>, env: Env) {
    |env.spawnLocs| == 6 && forall x :: 0 <= x < 6 ==> env.spawnLocs[x] < |net|
  }

  /** Spawn link 2i runs forward on line i, spawn link 2i+1 backward. */
  predicate SpawnOk(net: seq<LinkState>, env: Env) {
    && ListsShape(env.lists, |env.names|)
    && SpawnIndexed(net, env)
    && forall x :: 0 <= x < 6 ==>
         && var g := net[env.spawnLocs[x]].seg;
         && 0 <= g.from < |env.names|
         && env.lists[if x % 2 == 0 then 1 else 0][x / 2][g.from] == g.to
  }

  /** The static part of the invariant: tables loaded consistently. */
  predicate Wired(net: seq<LinkState>, env: Env) {
    && RoutesOk(env)
    && TableOk(net, env)
    && SegsOk(net, |env.names|)
    && SpawnOk(net, env)
  }

  /** Two networks with the same links, whatever their troons. */
  predicate SameSegs(a: seq<LinkState>, b: seq<LinkState>) {
    |a| == |b| && forall j :: 0 <= j < |a| ==> a[j].seg == b[j].seg
  }

  lemma WiredSameSegs(a: seq<LinkState>, b: seq<LinkState>, env: Env)
    requires Wired(a, env) && SameSegs(a, b)
    ensures Wired(b, env)
  {
  }

  lemma SameSegsTrans(a: seq<LinkState>, b: seq<LinkState>, c: seq<LinkState>)
    requires SameSegs(a, b) && SameSegs(b, c)
    ensures SameSegs(a, c)
  {
  }

  /**
   * The int arithmetic of run and flush_buffers fits at every tick up to
   * `tick`: tick + len stays below INT_MAX (main.cc's "no timer" sentinel),
   * and so does the departure timer max(1 + popularity + tick, ...) + 1.
   */
  predicate Headroom(net: seq<LinkState>, tick: int) {
    forall j :: 0 <= j < |net| ==> tick + net[j].seg.len < INT_MAX && tick + net[j].seg.popularity + 2 <= INT_MAX
  }

  lemma HeadroomSameSegs(a: seq<LinkState>, b: seq<LinkState>, tick: int)
    requires Headroom(a, tick) && SameSegs(a, b)
    ensures Headroom(b, tick)
  {
  }

  /** The troon runs along the link: the link's destination follows its source on the troon's line, in its direction. */
  predicate Placed(env: Env, t: Troon, g: Segment) {
    && t.line != Invalid
    && HasRoute(env.lists, t, g.from)
    && NextStation(env.lists, t, g.from) == g.to
  }

  /** A slot is INVALID_TROON or holds a troon running along the link. */
  predicate SlotOk(v: Variant, t: Troon, g: Segment, env: Env) {
    t == InvalidTroon(v) || (Occupied(t) && Placed(env, t, g))
  }

  /**
   * The per-link invariant. `now` bounds the arrival ticks in the holding
   * area (strictly, for bonus.cc's sorted prefix); `due` bounds the pending
   * timers from below.
   */
  predicate LinkOk(v: Variant, l: LinkState, env: Env, now: int, due: int) {
    && SlotOk(v, l.transiting, l.seg, env)
    && SlotOk(v, l.loading, l.seg, env)
    && (forall k :: 0 <= k < |l.holding| ==>
          var e := l.holding[k];
          Occupied(e.troon) && Placed(env, e.troon, l.seg) && e.time <= now)
    && l.prevSz <= |l.holding|
    && (v == PriorityQueue ==> l.prevSz == 0)
    && (v == SortedSuffix ==>
          && SuffixOrdered(l.holding, l.prevSz)
          && forall k :: 0 <= k < l.prevSz ==> l.holding[k].time < now)
    && (Occupied(l.transiting) ==> due <= l.transiting.timer < INT_MAX)
    && (Occupied(l.loading) ==> l.loading.timer >= due)
    && (Occupied(l.transiting) && Occupied(l.loading) ==> l.loading.timer > l.transiting.timer)
  }

  /** During the run phase of a tick, links before i have run. */
  function Due(j: nat, i: nat, tick: int): int {
    if j < i then tick + 1 else tick
  }

  /** A troon placed on a link and arriving now may join its holding area. */
  lemma EnqueueOk(v: Variant, l: LinkState, env: Env, now: int, due: int, t: Troon)
    requires LinkOk(v, l, env, now, due)
    requires Occupied(t) && Placed(env, t, l.seg)
    ensures LinkOk(v, Enqueue(l, now, t), env, now, due)
  {
    if v == SortedSuffix {
      AppendKeepsOrder(l.holding, l.prevSz, WaitingTroon(now, t));
    }
  }

  /** Where a line continues from station a, a link leads there, and the line leads back. */
  lemma RouteStep(env: Env, d: nat, line: nat, a: int)
    requires RoutesOk(env) && d < 2 && line < 3 && 0 <= a < |env.names|
    ensures var b := env.lists[d][line][a];
            b == -1 || (0 <= b < |env.names| && (a, b) in env.table && env.lists[1 - d][line][b] == a)
  {
  }

  /**
   * A due troon can always move on, and where it goes it runs along the
   * link: onward on its line, or back the way it came after reversing.
   */
  lemma ArrivalPlaced(v: Variant, net: seq<LinkState>, i: nat, tick: int, env: Env)
    requires Wired(net, env) && i < |net|
    requires Occupied(net[i].transiting) && Placed(env, net[i].transiting, net[i].seg)
    ensures HasRoute(env.lists, net[i].transiting, net[i].seg.to)
    ensures net[i].transiting.timer == tick ==> CanArrive(net, i, tick, env)
    ensures var dst := Destination(env.lists, net[i].transiting, net[i].seg);
            && (net[i].seg.to, dst.1) in env.table
            && var k := env.table[(net[i].seg.to, dst.1)];
            && k < |net| && Occupied(dst.0) && Placed(env, dst.0, net[k].seg)
  {
    var t, g := net[i].transiting, net[i].seg;
    var d, line := Direction(t.forward), LineIndex(t.line);
    assert env.lists[d][line][g.from] == g.to;
    assert HasRoute(env.lists, t, g.to);
    var next := NextStation(env.lists, t, g.to);
    RouteStep(env, d, line, g.from);
    if next == -1 {
      assert env.lists[Direction(!t.forward)][line][g.to] == g.from;
    } else {
      RouteStep(env, d, line, g.to);
    }
  }

  /**
   * Promoting the loading troon at this tick keeps the invariant and moves
   * the link's due bound past the tick: a loading troon is due only once the
   * transiting one has arrived, and a fresh transit ends len >= 1 ticks on.
   */
  lemma PromoteOk(v: Variant, l: LinkState, env: Env, tick: int)
    requires LinkOk(v, l, env, tick, tick) && l.transiting.timer != tick
    requires 0 <= tick < INT_MAX && l.seg.len >= 1
    requires tick + l.seg.len < INT_MAX
    ensures LinkOk(v, Promote(v, l, tick), env, tick, tick + 1)
  {
  }

  /** A due transiting troon joins the holding area of its next link; the invariant holds with link i run. */
  lemma ArrivalOk(v: Variant, net: seq<LinkState>, i: nat, tick: int, env: Env)
    requires Wired(net, env) && i < |net| && 0 <= tick < INT_MAX && net[i].transiting.timer == tick
    requires forall j :: 0 <= j < |net| ==> LinkOk(v, net[j], env, tick, Due(j, i, tick))
    ensures CanArrive(net, i, tick, env)
    ensures var n := Arrive(v, net, i, tick, env);
            && SameSegs(net, n)
            && LinkOk(v, n[i], env, tick, tick)
            && forall j :: 0 <= j < |n| && j != i ==> LinkOk(v, n[j], env, tick, Due(j, i + 1, tick))
  {
    var l := net[i];
    assert LinkOk(v, l, env, tick, Due(i, i, tick));
    ArrivalPlaced(v, net, i, tick, env);
    var t := Destination(env.lists, l.transiting, l.seg).0;
    var k := ArrivalLink(net, i, tick, env);
    var n1 := net[k := Enqueue(net[k], tick, t)];
    EnqueueOk(v, net[k], env, tick, Due(k, i, tick), t);
    var n := Arrive(v, net, i, tick, env);
    assert n == n1[i := n1[i].(transiting := InvalidTroon(v))];
    assert LinkOk(v, n1[i], env, tick, tick);
    ClearTransitOk(v, n1[i], env, tick, tick);
    OthersOk(v, net, n, i, k, tick, env);
  }

  /** Emptying the transit slot keeps the invariant. */
  lemma ClearTransitOk(v: Variant, l: LinkState, env: Env, now: int, due: int)
    requires LinkOk(v, l, env, now, due)
    ensures LinkOk(v, l.(transiting := InvalidTroon(v)), env, now, due)
  {
  }

  /** Links other than i and k are untouched, and link k keeps the invariant: all but i now count as run. */
  lemma OthersOk(v: Variant, net: seq<LinkState>, n: seq<LinkState>, i: nat, k: nat, tick: int, env: Env)
    requires |n| == |net| && i < |net| && k < |net|
    requires forall j :: 0 <= j < |net| && j != i && j != k ==> n[j] == net[j]
    requires forall j :: 0 <= j < |net| ==> LinkOk(v, net[j], env, tick, Due(j, i, tick))
    requires k != i ==> LinkOk(v, n[k], env, tick, Due(k, i, tick))
    ensures forall j :: 0 <= j < |n| && j != i ==> LinkOk(v, n[j], env, tick, Due(j, i + 1, tick))
  {
    forall j | 0 <= j < |n| && j != i ensures LinkOk(v, n[j], env, tick, Due(j, i + 1, tick)) {
      assert Due(j, i + 1, tick) == Due(j, i, tick);
      if j != k {
        assert n[j] == net[j];
      }
    }
  }

  /** The arrival half of link i's run keeps the invariant; link i is left ready to promote. */
  lemma ArriveOk(v: Variant, net: seq<LinkState>, i: nat, tick: int, env: Env)
    requires Wired(net, env) && i < |net| && 0 <= tick < INT_MAX
    requires forall j :: 0 <= j < |net| ==> LinkOk(v, net[j], env, tick, Due(j, i, tick))
    ensures CanArrive(net, i, tick, env)
    ensures var n := Arrive(v, net, i, tick, env);
            && SameSegs(net, n)
            && LinkOk(v, n[i], env, tick, tick)
            && forall j :: 0 <= j < |n| && j != i ==> LinkOk(v, n[j], env, tick, Due(j, i + 1, tick))
  {
    if net[i].transiting.timer == tick {
      ArrivalOk(v, net, i, tick, env);
    } else {
      assert LinkOk(v, net[i], env, tick, Due(i, i, tick));
    }
  }

  /** One step of the run phase keeps the invariant: link i has now run. */
  lemma RunLinkOk(v: Variant, net: seq<LinkState>, i: nat, tick: int, env: Env)
    requires Wired(net, env) && i < |net|
    requires 0 <= tick < INT_MAX && Headroom(net, tick)
    requires forall j :: 0 <= j < |net| ==> LinkOk(v, net[j], env, tick, Due(j, i, tick))
    ensures CanArrive(net, i, tick, env)
    ensures var r := RunLink(v, net, i, tick, env);
            && SameSegs(net, r)
            && forall j :: 0 <= j < |r| ==> LinkOk(v, r[j], env, tick, Due(j, i + 1, tick))
  {
    ArriveOk(v, net, i, tick, env);
    var n := Arrive(v, net, i, tick, env);
    assert n[i].seg == net[i].seg;
    PromoteOk(v, n[i], env, tick);
  }

  /** Entries taken from a holding area that satisfies the invariant satisfy it too. */
  lemma SubHoldingOk(env: Env, g: Segment, h: seq<WaitingTroon>, sub: seq<WaitingTroon>, now: int)
    requires forall k :: 0 <= k < |h| ==> Occupied(h[k].troon) && Placed(env, h[k].troon, g) && h[k].time <= now
    requires multiset(sub) <= multiset(h)
    ensures forall k :: 0 <= k < |sub| ==> Occupied(sub[k].troon) && Placed(env, sub[k].troon, g) && sub[k].time <= now
  {
    forall k | 0 <= k < |sub|
      ensures Occupied(sub[k].troon) && Placed(env, sub[k].troon, g) && sub[k].time <= now
    {
      assert sub[k] in multiset(h);
    }
  }

  /**
   * A flush keeps the invariant, and once every link has flushed at this
   * tick the holding areas' arrival ticks are all before the next tick.
   */
  lemma FlushOk(v: Variant, l: LinkState, env: Env, tick: int)
    requires LinkOk(v, l, env, tick, tick + 1) && l.seg.popularity >= 0
    ensures LinkOk(v, Flush(v, l, tick), env, tick + 1, tick + 1)
    ensures Flush(v, l, tick).seg == l.seg
  {
    if |l.holding| > 0 && !Occupied(l.loading) {
      FlushTakesOk(v, l, env, tick);
    }
  }

  lemma FlushTakesOk(v: Variant, l: LinkState, env: Env, tick: int)
    requires LinkOk(v, l, env, tick, tick + 1) && l.seg.popularity >= 0
    requires |l.holding| > 0 && !Occupied(l.loading)
    ensures LinkOk(v, Flush(v, l, tick), env, tick + 1, tick + 1)
  {
    var p := Pick(v, l.holding, l.prevSz);
    TakenOk(v, l, env, tick);
    DepartureAfter(v, l, env, tick);
    var r := Flush(v, l, tick);
    assert r == l.(loading := p.0.troon.(timer := DepartureTimer(v, l, tick)), holding := p.1, prevSz := p.2);
  }

  /** The troon flush takes runs along the link, and what it leaves waiting is a good holding area for the next tick. */
  lemma TakenOk(v: Variant, l: LinkState, env: Env, tick: int)
    requires LinkOk(v, l, env, tick, tick + 1) && |l.holding| > 0
    ensures var p := Pick(v, l.holding, l.prevSz);
            && Occupied(p.0.troon) && Placed(env, p.0.troon, l.seg)
            && (forall k :: 0 <= k < |p.1| ==>
                  Occupied(p.1[k].troon) && Placed(env, p.1[k].troon, l.seg) && p.1[k].time <= tick + 1)
            && p.2 <= |p.1|
            && (v == PriorityQueue ==> p.2 == 0)
            && (v == SortedSuffix ==> SuffixOrdered(p.1, p.2) && forall k :: 0 <= k < p.2 ==> p.1[k].time < tick + 1)
  {
    var p := Pick(v, l.holding, l.prevSz);
    PickPermutes(v, l.holding, l.prevSz);
    PickIsLeast(v, l.holding, l.prevSz);
    SubHoldingOk(env, l.seg, l.holding, p.1, tick);
    SubHoldingOk(env, l.seg, l.holding, [p.0], tick);
  }

  /** The departure timer flush sets is past this tick and past the arrival of the transiting troon ahead. */
  lemma DepartureAfter(v: Variant, l: LinkState, env: Env, tick: int)
    requires LinkOk(v, l, env, tick, tick + 1) && l.seg.popularity >= 0
    ensures DepartureTimer(v, l, tick) >= tick + 2
    ensures Occupied(l.transiting) ==> DepartureTimer(v, l, tick) > l.transiting.timer
  {
  }

  /**
   * With headroom at this tick, flush_buffers' 1 + popularity + tick and the
   * departure timer it computes from it both fit in an int: the transiting
   * troon ahead is due before INT_MAX, and main.cc reads an empty slot's
   * INT_MAX as 0.
   */
  lemma DepartureFits(v: Variant, l: LinkState, env: Env, tick: int)
    requires LinkOk(v, l, env, tick, tick + 1) && tick + l.seg.popularity + 2 <= INT_MAX
    ensures 1 + l.seg.popularity + tick < INT_MAX
    ensures DepartureTimer(v, l, tick) <= INT_MAX
  {
  }
}
