/**
 * One link of the rail network as a value, and what the per-tick operations
 * of main.cc's and bonus.cc's Link do to it: Link::run (the arrival of the
 * transiting troon and the promotion of the loading one), enqueue_troon,
 * spawn_troon, flush_buffers and the descriptor strings of current_troons.
 * The network is the sequence of links in their creation order.
 */
module Network {
  import opened Text
  import opened Troons
  import opened Holding

  /**
   * INVALID_TROON: id -1 on the invalid line. main.cc's timer is INT_MAX,
   * bonus.cc's is -1; neither is a tick the simulation reaches.
   */
  function InvalidTroon(v: Variant): (t: Troon)
    ensures !Occupied(t) && t.line == Invalid
    ensures t.timer < 0 || t.timer == INT_MAX
  {
    Troon(-1, if v == PriorityQueue then INT_MAX else -1, Invalid, false)
  }

  /** A slot holds a troon unless it compares equal to INVALID_TROON (Troon::operator== compares ids). */
  predicate Occupied(t: Troon) {
    t.id != -1
  }

  /** The constant part of a Link: its end stations, its length in ticks and its source's popularity. */
  datatype Segment = Segment(from: int, to: int, len: int, popularity: int)

  /**
   * The mutable part of a Link: the troon on its way to `to`, the troon
   * about to depart, the holding area and (bonus.cc only) prev_sz, the
   * length of the holding area's sorted prefix.
   */
  datatype LinkState = LinkState(
    seg: Segment,
    transiting: Troon,
    loading: Troon,
    holding: seq<WaitingTroon>,
    prevSz: nat)

  /** A freshly constructed Link: both slots INVALID_TROON, nothing waiting. */
  function NewLink(v: Variant, seg: Segment): LinkState {
    LinkState(seg, InvalidTroon(v), InvalidTroon(v), [], 0)
  }

  /**
   * The tables a tick reads: the (from, to) -> link index table, the
   * station lists indexed [forward ? 1 : 0][line][station] (-1 where the
   * line has no next station), the six spawn links and the station names.
   */
  datatype Env = Env(
    table: map<(int, int), nat>,
    lists: seq<seq<seq<int>>>,
    spawnLocs: seq<nat>,
    names: seq<string>)

  /** The first index of station_lists: 1 going forward, 0 going backward. */
  function Direction(forward: bool): nat {
    if forward then 1 else 0
  }

  /** station_lists[t.forward][line][at] can be read. */
  predicate HasRoute(lists: seq<seq<seq<int>>>, t: Troon, at: int) {
    && |lists| == 2
    && LineIndex(t.line) < |lists[Direction(t.forward)]|
    && 0 <= at < |lists[Direction(t.forward)][LineIndex(t.line)]|
  }

  /** The station after `at` on t's line in t's direction, or -1. */
  function NextStation(lists: seq<seq<seq<int>>>, t: Troon, at: int): int
    requires HasRoute(lists, t, at)
  {
    lists[Direction(t.forward)][LineIndex(t.line)][at]
  }

  /**
   * The troon as it enters its next link, and that link's destination: the
   * next station of its line, or, at a terminus, the station it came from
   * with its direction reversed.
   */
  function Destination(lists: seq<seq<seq<int>>>, t: Troon, seg: Segment): (Troon, int)
    requires HasRoute(lists, t, seg.to)
  {
    var next := NextStation(lists, t, seg.to);
    if next == -1 then (t.(forward := !t.forward), seg.from) else (t, next)
  }

  /** enqueue_troon and spawn_troon: append (tick, troon) to the holding area. */
  function Enqueue(l: LinkState, tick: int, t: Troon): LinkState {
    l.(holding := l.holding + [WaitingTroon(tick, t)])
  }

  /**
   * What run needs to be defined on link i: when its transiting troon is due,
   * the station list can be read and the link the troon moves on to exists.
   */
  predicate CanArrive(net: seq<LinkState>, i: nat, tick: int, env: Env) {
    && i < |net|
    && (net[i].transiting.timer == tick ==>
          && HasRoute(env.lists, net[i].transiting, net[i].seg.to)
          && var next := Destination(env.lists, net[i].transiting, net[i].seg).1;
          && (net[i].seg.to, next) in env.table
          && env.table[(net[i].seg.to, next)] < |net|)
  }

  /** The index of the link the due troon of link i moves on to. */
  function ArrivalLink(net: seq<LinkState>, i: nat, tick: int, env: Env): nat
    requires CanArrive(net, i, tick, env) && net[i].transiting.timer == tick
  {
    env.table[(net[i].seg.to, Destination(env.lists, net[i].transiting, net[i].seg).1)]
  }

  /** The first half of run: a due troon is enqueued on its next link at this tick and leaves the slot. */
  function Arrive(v: Variant, net: seq<LinkState>, i: nat, tick: int, env: Env): (r: seq<LinkState>)
    requires CanArrive(net, i, tick, env)
    ensures |r| == |net|
  {
    if net[i].transiting.timer == tick then
      var t := Destination(env.lists, net[i].transiting, net[i].seg).0;
      var k := ArrivalLink(net, i, tick, env);
      var n1 := net[k := Enqueue(net[k], tick, t)];
      n1[i := n1[i].(transiting := InvalidTroon(v))]
    else
      net
  }

  /** The second half of run: a due loading troon starts its transit of len ticks. */
  function Promote(v: Variant, l: LinkState, tick: int): LinkState {
    if l.loading.timer == tick then
      l.(transiting := l.loading.(timer := tick + l.seg.len), loading := InvalidTroon(v))
    else
      l
  }

  /** Link::run on link i of the network. */
  function RunLink(v: Variant, net: seq<LinkState>, i: nat, tick: int, env: Env): (r: seq<LinkState>)
    requires CanArrive(net, i, tick, env)
    ensures |r| == |net|
  {
    var n := Arrive(v, net, i, tick, env);
    n[i := Promote(v, n[i], tick)]
  }

  function Max(a: int, b: int): int {
    if a < b then b else a
  }

  /**
   * The tick a troon taken from the holding area departs: one tick after
   * both its boarding time (1 + popularity ticks from now) and the arrival
   * of the troon ahead of it. main.cc reads its INT_MAX sentinel as 0.
   */
  function DepartureTimer(v: Variant, l: LinkState, tick: int): int {
    var ahead := if v == PriorityQueue && l.transiting.timer == INT_MAX then 0 else l.transiting.timer;
    Max(1 + l.seg.popularity + tick, ahead) + 1
  }

  /** flush_buffers: with the loading slot free, the first waiting troon moves into it. */
  function Flush(v: Variant, l: LinkState, tick: int): LinkState
    requires l.prevSz <= |l.holding|
  {
    if |l.holding| > 0 && !Occupied(l.loading) then
      var p := Pick(v, l.holding, l.prevSz);
      l.(loading := p.0.troon.(timer := DepartureTimer(v, l, tick)), holding := p.1, prevSz := p.2)
    else
      l
  }

  /** The descriptors of waiting troons, in holding-area order, marked "#". */
  function HeldStrings(h: seq<WaitingTroon>, station: string): (r: seq<string>)
    ensures |r| == |h|
    ensures forall k :: 0 <= k < |h| ==> r[k] == Descriptor(h[k].troon, station) + "#"
  {
    seq(|h|, k requires 0 <= k < |h| => Descriptor(h[k].troon, station) + "#")
  }

  /** The descriptor of the loading troon, marked "%", if there is one. */
  function LoadingStrings(l: LinkState, station: string): seq<string> {
    if Occupied(l.loading) then [Descriptor(l.loading, station) + "%"] else []
  }

  /** The descriptor of the transiting troon, marked "->" and the destination's name, if there is one. */
  function TransitStrings(l: LinkState, station: string, dest: string): seq<string> {
    if Occupied(l.transiting) then [Descriptor(l.transiting, station) + "->" + dest] else []
  }

  /** The link's stations have names. */
  predicate Named(l: LinkState, names: seq<string>) {
    0 <= l.seg.from < |names| && 0 <= l.seg.to < |names|
  }

  /** main.cc's current_troons: the holding area in pop order, then the loading and transiting troons. */
  function CurrentTroons(l: LinkState, names: seq<string>): seq<string>
    requires Named(l, names)
  {
    HeldStrings(Drain(l.holding), names[l.seg.from])
      + LoadingStrings(l, names[l.seg.from])
      + TransitStrings(l, names[l.seg.from], names[l.seg.to])
  }

  /** The troon is on line idx. */
  predicate OnLine(t: Troon, idx: nat) {
    LineIndex(t.line) == idx
  }

  /** The waiting troons of line idx, in holding-area order, marked "#". */
  function LineHeldStrings(h: seq<WaitingTroon>, station: string, idx: nat): seq<string> {
    if |h| == 0 then []
    else
      LineHeldStrings(h[..|h| - 1], station, idx)
        + (if OnLine(h[|h| - 1].troon, idx) then [Descriptor(h[|h| - 1].troon, station) + "#"] else [])
  }

  /** bonus.cc's current_troons(idx): what current_troons writes, restricted to line idx. */
  function LineTroons(l: LinkState, idx: nat, names: seq<string>): seq<string>
    requires Named(l, names)
  {
    LineHeldStrings(l.holding, names[l.seg.from], idx)
      + (if OnLine(l.loading, idx) then LoadingStrings(l, names[l.seg.from]) else [])
      + (if OnLine(l.transiting, idx) then TransitStrings(l, names[l.seg.from], names[l.seg.to]) else [])
  }

  /**
   * A due transiting troon is appended, at this tick, to the holding area of
   * the link from its arrival station to its next station (at a terminus:
   * back to where it came from, its direction reversed), and leaves its slot
   * unless the loading troon takes it over, emptying the loading slot; link
   * k gains only that entry, link i changes only in its slots (and, when it
   * is link k, by that entry), and no other link changes.
   */
  lemma RunLinkArrival(v: Variant, net: seq<LinkState>, i: nat, tick: int, env: Env)
    requires CanArrive(net, i, tick, env) && net[i].transiting.timer == tick
    ensures var t := net[i].transiting;
            var next := NextStation(env.lists, t, net[i].seg.to);
            var k := ArrivalLink(net, i, tick, env);
            var r := RunLink(v, net, i, tick, env);
            && (next == -1 ==> k == env.table[(net[i].seg.to, net[i].seg.from)])
            && (next != -1 ==> k == env.table[(net[i].seg.to, next)])
            && r[k].holding == net[k].holding + [WaitingTroon(tick, t.(forward := if next == -1 then !t.forward else t.forward))]
            && r[k].prevSz == net[k].prevSz
            && r[i].transiting == (if net[i].loading.timer == tick then net[i].loading.(timer := tick + net[i].seg.len) else InvalidTroon(v))
            && r[i].loading == (if net[i].loading.timer == tick then InvalidTroon(v) else net[i].loading)
            && r[i].seg == net[i].seg
            && (k != i ==> r[i].holding == net[i].holding && r[i].prevSz == net[i].prevSz)
            && (k != i ==> r[k] == net[k].(holding := r[k].holding))
            && (forall j :: 0 <= j < |net| && j != i && j != k ==> r[j] == net[j])
  {
  }

  /** Without a due transiting troon, run changes link i only, and only by promoting its loading troon. */
  lemma RunLinkQuiet(v: Variant, net: seq<LinkState>, i: nat, tick: int, env: Env)
    requires CanArrive(net, i, tick, env) && net[i].transiting.timer != tick
    ensures var r := RunLink(v, net, i, tick, env);
            && r[i] == Promote(v, net[i], tick)
            && (forall j :: 0 <= j < |net| && j != i ==> r[j] == net[j])
  {
  }

  /** A link whose slots both hold INVALID_TROON is left alone by run at every tick the simulation reaches. */
  lemma InvalidNeverFires(v: Variant, net: seq<LinkState>, i: nat, tick: int, env: Env)
    requires i < |net| && 0 <= tick < INT_MAX
    requires net[i].transiting == InvalidTroon(v) && net[i].loading == InvalidTroon(v)
    ensures CanArrive(net, i, tick, env)
    ensures RunLink(v, net, i, tick, env) == net
  {
    assert net[i := net[i]] == net;
  }

  /**
   * flush_buffers does nothing unless the holding area is non-empty and the
   * loading slot is free. Otherwise exactly one entry, a (time, id)-least
   * one, leaves the holding area; its troon is loading and departs no
   * earlier than tick + popularity + 2 and after the transiting troon
   * arrives; the transiting slot is unchanged.
   */
  lemma FlushSpec(v: Variant, l: LinkState, tick: int)
    requires l.prevSz <= |l.holding|
    requires v == SortedSuffix ==> SuffixOrdered(l.holding, l.prevSz)
    ensures var r := Flush(v, l, tick);
            && r.seg == l.seg && r.transiting == l.transiting
            && (|l.holding| == 0 || Occupied(l.loading) ==> r == l)
            && (|l.holding| > 0 && !Occupied(l.loading) ==>
                  && |r.holding| == |l.holding| - 1
                  && r.loading.timer >= tick + l.seg.popularity + 2
                  && (Occupied(l.transiting) && (v == SortedSuffix || l.transiting.timer != INT_MAX) ==>
                        r.loading.timer > l.transiting.timer)
                  && (exists e :: e in l.holding
                       && (forall x :: x in l.holding ==> WaitingLe(e, x))
                       && r.loading == e.troon.(timer := r.loading.timer)
                       && multiset(r.holding) + multiset{e} == multiset(l.holding))
                  && (v == SortedSuffix ==> SuffixOrdered(r.holding, r.prevSz)))
  {
    if |l.holding| > 0 && !Occupied(l.loading) {
      PickPermutes(v, l.holding, l.prevSz);
      PickIsLeast(v, l.holding, l.prevSz);
      var e := Pick(v, l.holding, l.prevSz).0;
      assert e in l.holding;
    }
  }

  lemma HeldStringsConcat(x: seq<WaitingTroon>, y: seq<WaitingTroon>, station: string)
    ensures HeldStrings(x + y, station) == HeldStrings(x, station) + HeldStrings(y, station)
  {
  }

  lemma HeldStringsPush(h: seq<WaitingTroon>, w: WaitingTroon, station: string)
    ensures HeldStrings(h + [w], station) == HeldStrings(h, station) + [Descriptor(w.troon, station) + "#"]
  {
    HeldStringsConcat(h, [w], station);
  }

  lemma HeldStringsRemove(b: seq<WaitingTroon>, m: nat, station: string)
    requires m < |b|
    ensures multiset(HeldStrings(b, station))
         == multiset(HeldStrings([b[m]], station)) + multiset(HeldStrings(RemoveAt(b, m), station))
  {
    assert b == b[..m] + [b[m]] + b[m + 1..];
    HeldStringsConcat(b[..m] + [b[m]], b[m + 1..], station);
    HeldStringsConcat(b[..m], [b[m]], station);
    HeldStringsConcat(b[..m], b[m + 1..], station);
  }

  /** The descriptors of two holding areas with the same entries are the same strings. */
  lemma {:induction false} HeldStringsPermutation(a: seq<WaitingTroon>, b: seq<WaitingTroon>, station: string)
    requires multiset(a) == multiset(b)
    ensures multiset(HeldStrings(a, station)) == multiset(HeldStrings(b, station))
    decreases |a|
  {
    if |a| > 0 {
      assert a[0] in multiset(b);
      var m :| 0 <= m < |b| && b[m] == a[0];
      RemovedSame(a, b, m);
      HeldStringsPermutation(a[1..], RemoveAt(b, m), station);
      HeldStringsRemove(b, m, station);
      HeldStringsRemove(a, 0, station);
      assert RemoveAt(a, 0) == a[1..];
    }
  }

  /** Taking the same entry out of two holding areas with the same entries leaves the same entries. */
  lemma RemovedSame(a: seq<WaitingTroon>, b: seq<WaitingTroon>, m: nat)
    requires |a| > 0 && m < |b| && b[m] == a[0] && multiset(a) == multiset(b)
    ensures multiset(a[1..]) == multiset(RemoveAt(b, m))
  {
    assert a == [a[0]] + a[1..];
    assert multiset(a[1..]) == multiset(a) - multiset{a[0]};
    assert multiset(RemoveAt(b, m)) == multiset(b) - multiset{a[0]};
  }

  /**
   * main.cc's current_troons writes one "#" string per waiting troon, one
   * "%" string for a loading troon and one "->" string for a transiting one,
   * and nothing else.
   */
  lemma CurrentTroonsCounts(l: LinkState, names: seq<string>)
    requires Named(l, names)
    ensures multiset(CurrentTroons(l, names))
         == multiset(HeldStrings(l.holding, names[l.seg.from]))
          + multiset(LoadingStrings(l, names[l.seg.from]))
          + multiset(TransitStrings(l, names[l.seg.from], names[l.seg.to]))
    ensures |CurrentTroons(l, names)| == |l.holding| + (if Occupied(l.loading) then 1 else 0) + (if Occupied(l.transiting) then 1 else 0)
  {
    DrainSortedPermutation(l.holding);
    HeldStringsPermutation(Drain(l.holding), l.holding, names[l.seg.from]);
  }
}
