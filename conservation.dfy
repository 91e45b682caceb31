/**
 * Troons are never lost or duplicated: the ids held anywhere in the network
 * (holding areas, loading and transiting slots) are exactly the ids issued
 * so far, 0 .. next_troon_id - 1, each once.
 */
module Conservation {
  import opened Troons
  import opened Holding
  import opened Network
  import opened Invariants

  /** The ids waiting in a holding area. */
  function HoldIds(h: seq<WaitingTroon>): multiset<int> {
    if |h| == 0 then multiset{} else multiset{h[0].troon.id} + HoldIds(h[1..])
  }

  /** The id in a slot, if it holds a troon. */
  function SlotIds(t: Troon): multiset<int> {
    if Occupied(t) then multiset{t.id} else multiset{}
  }

  function LinkIds(l: LinkState): multiset<int> {
    HoldIds(l.holding) + SlotIds(l.loading) + SlotIds(l.transiting)
  }

  /** Every id held anywhere in the network. */
  function Ids(net: seq<LinkState>): multiset<int> {
    if |net| == 0 then multiset{} else Ids(net[..|net| - 1]) + LinkIds(net[|net| - 1])
  }

  /** The ids issued before n: 0, 1, ..., n - 1. */
  function Upto(n: int): multiset<int>
    decreases n
  {
    if n <= 0 then multiset{} else Upto(n - 1) + multiset{n - 1}
  }

  /** Each issued id once, nothing else. */
  lemma {:induction false} UptoCount(n: int, x: int)
    ensures Upto(n)[x] == if 0 <= x < n then 1 else 0
    decreases n
  {
    if n > 0 {
      UptoCount(n - 1, x);
    }
  }

  /** The troons in the network are exactly those spawned so far. */
  predicate Conserved(net: seq<LinkState>, nextId: int) {
    Ids(net) == Upto(nextId)
  }

  lemma {:induction false} HoldIdsConcat(a: seq<WaitingTroon>, b: seq<WaitingTroon>)
    ensures HoldIds(a + b) == HoldIds(a) + HoldIds(b)
    decreases |a|
  {
    if |a| == 0 {
      assert a + b == b;
    } else {
      assert (a + b)[1..] == a[1..] + b;
      HoldIdsConcat(a[1..], b);
    }
  }

  /** Rearranging a holding area keeps its ids. */
  lemma {:induction false} HoldIdsPermutation(a: seq<WaitingTroon>, b: seq<WaitingTroon>)
    requires multiset(a) == multiset(b)
    ensures HoldIds(a) == HoldIds(b)
    decreases |a|
  {
    if |a| > 0 {
      assert a[0] in multiset(b);
      var m :| 0 <= m < |b| && b[m] == a[0];
      RemovedSame(a, b, m);
      HoldIdsPermutation(a[1..], RemoveAt(b, m));
      assert b == b[..m] + [b[m]] + b[m + 1..];
      HoldIdsConcat(b[..m] + [b[m]], b[m + 1..]);
      HoldIdsConcat(b[..m], [b[m]]);
      HoldIdsConcat(b[..m], b[m + 1..]);
    }
  }

  /** Replacing one link's state changes the network's ids by exactly that link's. */
  lemma {:induction false} IdsUpdate(net: seq<LinkState>, j: nat, l: LinkState)
    requires j < |net|
    ensures Ids(net[j := l]) + LinkIds(net[j]) == Ids(net) + LinkIds(l)
    decreases |net|
  {
    var last := |net| - 1;
    var updated := net[j := l];
    IdsLast(updated);
    IdsLast(net);
    if j == last {
      assert updated[..last] == net[..last];
      Swap(Ids(net[..last]), LinkIds(l), LinkIds(net[j]));
    } else {
      assert updated[..last] == net[..last][j := l];
      assert updated[last] == net[last] && net[..last][j] == net[j];
      IdsUpdate(net[..last], j, l);
      AddBoth(Ids(updated[..last]), LinkIds(net[last]), LinkIds(net[j]), Ids(net[..last]), LinkIds(l));
    }
  }

  /** The last link's ids split off the network's. */
  lemma IdsLast(net: seq<LinkState>)
    requires |net| > 0
    ensures Ids(net) == Ids(net[..|net| - 1]) + LinkIds(net[|net| - 1])
  {
  }

  /** The order in which two links' ids are added does not matter. */
  lemma Swap(p: multiset<int>, a: multiset<int>, b: multiset<int>)
    ensures p + a + b == p + b + a
  {
    forall x ensures (p + a + b)[x] == (p + b + a)[x] {
    }
  }

  /** A link gaining ids s makes the network gain exactly s. */
  lemma Gain(a: multiset<int>, b: multiset<int>, c: multiset<int>, e: multiset<int>, s: multiset<int>)
    requires a + c == b + e && e == c + s
    ensures a == b + s
  {
    forall x ensures a[x] == (b + s)[x] {
      assert (a + c)[x] == (b + e)[x];
    }
  }

  /** Adding the same ids to both sides of a multiset equation. */
  lemma AddBoth(a: multiset<int>, b: multiset<int>, c: multiset<int>, d: multiset<int>, e: multiset<int>)
    requires a + c == d + e
    ensures a + b + c == d + b + e
  {
    forall x ensures (a + b + c)[x] == (d + b + e)[x] {
      assert (a + c)[x] == (d + e)[x];
    }
  }

  /** A link's ids are among the network's. */
  lemma {:induction false} LinkIdsIncluded(net: seq<LinkState>, j: nat)
    requires j < |net|
    ensures LinkIds(net[j]) <= Ids(net)
    decreases |net|
  {
    if j < |net| - 1 {
      LinkIdsIncluded(net[..|net| - 1], j);
    }
  }

  /** Enqueueing or spawning a troon adds its id to the link. */
  lemma EnqueueIds(l: LinkState, tick: int, t: Troon)
    ensures LinkIds(Enqueue(l, tick, t)) == LinkIds(l) + multiset{t.id}
  {
    HoldIdsConcat(l.holding, [WaitingTroon(tick, t)]);
    assert HoldIds([WaitingTroon(tick, t)]) == multiset{t.id};
  }

  /** Enqueueing a troon on link k adds its id to the network. */
  lemma EnqueueNetIds(net: seq<LinkState>, k: nat, tick: int, t: Troon)
    requires k < |net|
    ensures Ids(net[k := Enqueue(net[k], tick, t)]) == Ids(net) + multiset{t.id}
  {
    IdsUpdate(net, k, Enqueue(net[k], tick, t));
    EnqueueIds(net[k], tick, t);
    Gain(Ids(net[k := Enqueue(net[k], tick, t)]), Ids(net), LinkIds(net[k]), LinkIds(Enqueue(net[k], tick, t)), multiset{t.id});
  }

  /** Emptying an occupied transiting slot takes its id out of the network. */
  lemma ClearNetIds(v: Variant, net: seq<LinkState>, i: nat)
    requires i < |net| && Occupied(net[i].transiting)
    ensures Ids(net[i := net[i].(transiting := InvalidTroon(v))]) + multiset{net[i].transiting.id} == Ids(net)
  {
    var cleared := net[i].(transiting := InvalidTroon(v));
    IdsUpdate(net, i, cleared);
    assert LinkIds(net[i]) == LinkIds(cleared) + multiset{net[i].transiting.id};
    Gain(Ids(net), Ids(net[i := cleared]), LinkIds(cleared), LinkIds(net[i]), multiset{net[i].transiting.id});
  }

  /** The arrival moves the due troon's id from link i's slot to link k's holding area. */
  lemma ArriveIds(v: Variant, net: seq<LinkState>, i: nat, tick: int, env: Env)
    requires CanArrive(net, i, tick, env)
    requires net[i].transiting.timer == tick ==> Occupied(net[i].transiting)
    ensures Ids(Arrive(v, net, i, tick, env)) == Ids(net)
  {
    var l := net[i];
    if l.transiting.timer == tick {
      var t := Destination(env.lists, l.transiting, l.seg).0;
      var k := ArrivalLink(net, i, tick, env);
      var n1 := net[k := Enqueue(net[k], tick, t)];
      EnqueueNetIds(net, k, tick, t);
      assert n1[i].transiting == l.transiting;
      ClearNetIds(v, n1, i);
      var n2 := n1[i := n1[i].(transiting := InvalidTroon(v))];
      assert multiset{t.id} == multiset{t.id} + multiset{};
      Gain(Ids(n2), Ids(net), multiset{t.id}, multiset{t.id}, multiset{});
      assert Arrive(v, net, i, tick, env) == n2;
    }
  }

  /** A loading troon promoted into a free transiting slot keeps its id. */
  lemma PromoteIds(v: Variant, n: seq<LinkState>, i: nat, tick: int)
    requires i < |n|
    requires n[i].loading.timer == tick ==> Occupied(n[i].loading) && !Occupied(n[i].transiting)
    ensures Ids(n[i := Promote(v, n[i], tick)]) == Ids(n)
  {
    var pr := Promote(v, n[i], tick);
    IdsUpdate(n, i, pr);
    assert LinkIds(pr) == LinkIds(n[i]) + multiset{};
    Gain(Ids(n[i := pr]), Ids(n), LinkIds(n[i]), LinkIds(pr), multiset{});
  }

  /**
   * Run moves troons between slots and links but keeps every id: the due
   * troon leaves its slot for exactly one holding area, and a promoted
   * loading troon lands in a free transiting slot.
   */
  lemma RunLinkIds(v: Variant, net: seq<LinkState>, i: nat, tick: int, env: Env)
    requires Wired(net, env) && i < |net|
    requires 0 <= tick < INT_MAX && Headroom(net, tick)
    requires forall j :: 0 <= j < |net| ==> LinkOk(v, net[j], env, tick, Due(j, i, tick))
    ensures CanArrive(net, i, tick, env)
    ensures Ids(RunLink(v, net, i, tick, env)) == Ids(net)
  {
    var l := net[i];
    assert LinkOk(v, l, env, tick, Due(i, i, tick));
    DueSlots(v, l, env, tick);
    if l.transiting.timer == tick {
      ArrivalPlaced(v, net, i, tick, env);
    }
    ArriveIds(v, net, i, tick, env);
    var n := Arrive(v, net, i, tick, env);
    assert n[i].loading == l.loading;
    assert n[i].transiting == l.transiting || !Occupied(n[i].transiting);
    PromoteIds(v, n, i, tick);
  }

  /**
   * A slot due at this tick holds a troon, and a due loading troon finds the
   * transiting slot empty or about to empty: its departure was set after the
   * transiting troon's arrival.
   */
  lemma DueSlots(v: Variant, l: LinkState, env: Env, tick: int)
    requires LinkOk(v, l, env, tick, tick) && 0 <= tick < INT_MAX
    ensures l.transiting.timer == tick ==> Occupied(l.transiting)
    ensures l.loading.timer == tick ==> Occupied(l.loading) && (!Occupied(l.transiting) || l.transiting.timer == tick)
  {
  }

  /** Taking one entry out of a holding area takes exactly its id out. */
  lemma TakeIds(h: seq<WaitingTroon>, rest: seq<WaitingTroon>, e: WaitingTroon)
    requires multiset(rest) + multiset{e} == multiset(h)
    ensures HoldIds(rest) + multiset{e.troon.id} == HoldIds(h)
  {
    assert multiset(rest + [e]) == multiset(h);
    HoldIdsPermutation(rest + [e], h);
    HoldIdsConcat(rest, [e]);
    assert HoldIds([e]) == multiset{e.troon.id};
  }

  /** Flushing moves one troon from the holding area into the free loading slot. */
  lemma FlushIds(v: Variant, l: LinkState, tick: int)
    requires l.prevSz <= |l.holding|
    requires forall k :: 0 <= k < |l.holding| ==> Occupied(l.holding[k].troon)
    ensures LinkIds(Flush(v, l, tick)) == LinkIds(l)
  {
    if |l.holding| > 0 && !Occupied(l.loading) {
      var p := Pick(v, l.holding, l.prevSz);
      PickPermutes(v, l.holding, l.prevSz);
      assert p.0 in multiset(l.holding);
      TakeIds(l.holding, p.1, p.0);
      var r := Flush(v, l, tick);
      assert r.holding == p.1 && r.loading.id == p.0.troon.id && r.transiting == l.transiting;
      assert Occupied(p.0.troon);
      assert SlotIds(r.loading) == multiset{p.0.troon.id};
    }
  }

  /** main.cc's current_troons puts back what it drained: the ids stay. */
  lemma DrainIds(l: LinkState)
    ensures LinkIds(l.(holding := Drain(l.holding))) == LinkIds(l)
  {
    DrainSortedPermutation(l.holding);
    HoldIdsPermutation(Drain(l.holding), l.holding);
  }

  /** Two entries of one holding area with the same id count twice. */
  lemma HoldIdsTwice(h: seq<WaitingTroon>, a: nat, b: nat)
    requires a < b < |h| && h[a].troon.id == h[b].troon.id
    ensures HoldIds(h)[h[a].troon.id] >= 2
  {
    assert h == h[..a] + [h[a]] + h[a + 1..b] + [h[b]] + h[b + 1..];
    HoldIdsConcat(h[..a] + [h[a]] + h[a + 1..b] + [h[b]], h[b + 1..]);
    HoldIdsConcat(h[..a] + [h[a]] + h[a + 1..b], [h[b]]);
    HoldIdsConcat(h[..a] + [h[a]], h[a + 1..b]);
    HoldIdsConcat(h[..a], [h[a]]);
    assert HoldIds([h[a]]) == multiset{h[a].troon.id};
    assert HoldIds([h[b]]) == multiset{h[a].troon.id};
  }

  /** In a network holding each issued id once, every id is held exactly once. */
  lemma ConservedCounts(net: seq<LinkState>, nextId: int)
    requires Conserved(net, nextId)
    ensures forall x :: Ids(net)[x] == if 0 <= x < nextId then 1 else 0
  {
    forall x ensures Ids(net)[x] == if 0 <= x < nextId then 1 else 0 {
      UptoCount(nextId, x);
    }
  }

  /** In a network holding each issued id once, no holding area has two entries for one troon. */
  lemma ConservedDistinct(net: seq<LinkState>, nextId: int, j: nat)
    requires Conserved(net, nextId) && j < |net|
    ensures DistinctIds(net[j].holding)
  {
    var h := net[j].holding;
    LinkIdsIncluded(net, j);
    forall a, b | 0 <= a < b < |h| ensures h[a].troon.id != h[b].troon.id {
      if h[a].troon.id == h[b].troon.id {
        HoldIdsTwice(h, a, b);
        UptoCount(nextId, h[a].troon.id);
      }
    }
  }
}
