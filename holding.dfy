/**
 * The holding area of a link, in the two forms the programs keep it:
 * main.cc's std::priority_queue ordered by WaitingTroon::operator> (a
 * min-heap, modelled by its interface: the top is the (time, id)-least
 * entry), and bonus.cc's double-ended queue whose prefix of length prev_sz is
 * sorted and whose newer suffix is sorted on demand.
 */
module Holding {
  import opened Troons
  import opened Sorting

  /** Which program's holding area a link uses. */
  datatype Variant =
    | PriorityQueue  // main.cc
    | SortedSuffix   // bonus.cc

  /** No two entries carry the same troon id. */
  predicate DistinctIds(h: seq<WaitingTroon>) {
    forall i, j :: 0 <= i < j < |h| ==> h[i].troon.id != h[j].troon.id
  }

  /** The position of the heap's top: the first entry that no other entry precedes. */
  function MinIndex(h: seq<WaitingTroon>): (k: nat)
    requires |h| > 0
    ensures k < |h|
    ensures forall j :: 0 <= j < |h| ==> WaitingLe(h[k], h[j])
    ensures forall j :: 0 <= j < k ==> Before(h[k], h[j])
    decreases |h|
  {
    if |h| == 1 then 0
    else
      var k := MinIndex(h[..|h| - 1]);
      if Before(h[|h| - 1], h[k]) then |h| - 1 else k
  }

  /** The holding area once one entry is taken out. */
  function RemoveAt(h: seq<WaitingTroon>, k: nat): (r: seq<WaitingTroon>)
    requires k < |h|
    ensures |r| == |h| - 1
    ensures multiset(r) + multiset{h[k]} == multiset(h)
  {
    assert h == h[..k] + [h[k]] + h[k + 1..];
    h[..k] + h[k + 1..]
  }

  /**
   * The entries in the order repeated top()/pop() hands them out; main.cc's
   * current_troons drains its heap this way and pushes the entries back.
   */
  function Drain(h: seq<WaitingTroon>): (r: seq<WaitingTroon>)
    ensures |r| == |h|
    decreases |h|
  {
    if |h| == 0 then [] else var k := MinIndex(h); [h[k]] + Drain(RemoveAt(h, k))
  }

  /** Draining yields every entry once, in (time, id) order. */
  lemma DrainSortedPermutation(h: seq<WaitingTroon>)
    ensures multiset(Drain(h)) == multiset(h)
    ensures SortedBy(WaitingLe, Drain(h))
  {
    DrainPermutation(h);
    DrainSorted(h);
  }

  /** Draining hands out every entry once. */
  lemma {:induction false} DrainPermutation(h: seq<WaitingTroon>)
    ensures multiset(Drain(h)) == multiset(h)
    decreases |h|
  {
    if |h| > 0 {
      DrainPermutation(RemoveAt(h, MinIndex(h)));
    }
  }

  /** Draining hands the entries out in (time, id) order. */
  lemma {:induction false} DrainSorted(h: seq<WaitingTroon>)
    ensures SortedBy(WaitingLe, Drain(h))
    decreases |h|
  {
    if |h| > 0 {
      var k := MinIndex(h);
      var rest := RemoveAt(h, k);
      var d := Drain(rest);
      DrainSorted(rest);
      DrainPermutation(rest);
      forall i | 0 <= i < |d| ensures WaitingLe(h[k], d[i]) {
        assert d[i] in multiset(rest);
      }
      assert Drain(h) == [h[k]] + d;
    }
  }

  /** bonus.cc's invariant: a sorted prefix of length p, each of whose entries precedes every later one. */
  predicate SuffixOrdered(h: seq<WaitingTroon>, p: nat) {
    && p <= |h|
    && SortedBy(WaitingLe, h[..p])
    && forall i, j :: 0 <= i < p <= j < |h| ==> Before(h[i], h[j])
  }

  /** std::sort(holding_area.begin() + prev_sz, holding_area.end()). */
  function Arrange(h: seq<WaitingTroon>, p: nat): seq<WaitingTroon>
    requires p <= |h|
  {
    h[..p] + Sort(WaitingLe, h[p..])
  }

  /** Every entry of the sorted prefix precedes every entry of any rearrangement of the suffix. */
  lemma PrefixPrecedes(h: seq<WaitingTroon>, p: nat, s: seq<WaitingTroon>)
    requires SuffixOrdered(h, p) && multiset(s) == multiset(h[p..])
    ensures forall i, k :: 0 <= i < p && 0 <= k < |s| ==> Before(h[..p][i], s[k])
  {
    forall i, k | 0 <= i < p && 0 <= k < |s| ensures Before(h[..p][i], s[k]) {
      assert s[k] in multiset(h[p..]);
      var m :| 0 <= m < |h| - p && h[p..][m] == s[k];
      assert h[p + m] == s[k];
    }
  }

  /** Two sorted runs, the first wholly before the second, make a sorted run. */
  lemma JoinSorted(x: seq<WaitingTroon>, y: seq<WaitingTroon>)
    requires SortedBy(WaitingLe, x) && SortedBy(WaitingLe, y)
    requires forall i, k :: 0 <= i < |x| && 0 <= k < |y| ==> Before(x[i], y[k])
    ensures SortedBy(WaitingLe, x + y)
  {
    var a := x + y;
    forall i, j | 0 <= i < j < |a| ensures WaitingLe(a[i], a[j]) {
      if i >= |x| {
        assert a[i] == y[i - |x|] && a[j] == y[j - |x|];
      } else if j >= |x| {
        assert a[i] == x[i] && a[j] == y[j - |x|];
      } else {
        assert a[i] == x[i] && a[j] == x[j];
      }
    }
  }

  /** With the suffix sorted, the whole holding area is sorted; nothing is lost or added. */
  lemma ArrangeSorted(h: seq<WaitingTroon>, p: nat)
    requires SuffixOrdered(h, p)
    ensures multiset(Arrange(h, p)) == multiset(h)
    ensures |Arrange(h, p)| == |h|
    ensures SortedBy(WaitingLe, Arrange(h, p))
  {
    WaitingLeTotalPreorder();
    var s := Sort(WaitingLe, h[p..]);
    SortCorrect(WaitingLe, h[p..]);
    PrefixPrecedes(h, p, s);
    JoinSorted(h[..p], s);
    ArrangePermutes(h, p);
  }

  /**
   * flush_buffers' choice: the chosen entry, the remaining holding area and
   * the new prev_sz. main.cc pops its heap's top (and keeps no prev_sz);
   * bonus.cc sorts the suffix, takes the front and sets prev_sz to the new size.
   */
  function Pick(v: Variant, h: seq<WaitingTroon>, p: nat): (r: (WaitingTroon, seq<WaitingTroon>, nat))
    requires |h| > 0 && p <= |h|
    ensures |r.1| == |h| - 1 && r.2 <= |r.1|
    ensures v == PriorityQueue ==> r.2 == 0
  {
    match v
    case PriorityQueue =>
      var k := MinIndex(h);
      (h[k], RemoveAt(h, k), 0)
    case SortedSuffix =>
      var a := Arrange(h, p);
      SortCorrect(WaitingLe, h[p..]);
      (a[0], a[1..], |a| - 1)
  }

  /** The chosen entry comes out of the holding area and is the only one that leaves it. */
  lemma PickPermutes(v: Variant, h: seq<WaitingTroon>, p: nat)
    requires |h| > 0 && p <= |h|
    ensures multiset(Pick(v, h, p).1) + multiset{Pick(v, h, p).0} == multiset(h)
  {
    if v == SortedSuffix {
      ArrangePermutes(h, p);
      SplitFirst(Arrange(h, p));
    }
  }

  /** Sorting the suffix only reorders the holding area. */
  lemma ArrangePermutes(h: seq<WaitingTroon>, p: nat)
    requires p <= |h|
    ensures multiset(Arrange(h, p)) == multiset(h) && |Arrange(h, p)| == |h|
  {
    WaitingLeTotalPreorder();
    SortCorrect(WaitingLe, h[p..]);
    assert h == h[..p] + h[p..];
  }

  lemma SplitFirst(a: seq<WaitingTroon>)
    requires |a| > 0
    ensures multiset(a[1..]) + multiset{a[0]} == multiset(a)
  {
    assert a == [a[0]] + a[1..];
  }

  /**
   * Both variants take the earliest-arrived, lowest-id entry (bonus.cc
   * provided its prefix invariant holds), and bonus.cc keeps its invariant.
   */
  lemma PickIsLeast(v: Variant, h: seq<WaitingTroon>, p: nat)
    requires |h| > 0 && p <= |h|
    requires v == SortedSuffix ==> SuffixOrdered(h, p)
    ensures Pick(v, h, p).0 in h
    ensures forall x :: x in h ==> WaitingLe(Pick(v, h, p).0, x)
    ensures v == SortedSuffix ==> SuffixOrdered(Pick(v, h, p).1, Pick(v, h, p).2)
  {
    PickPermutes(v, h, p);
    var r := Pick(v, h, p);
    assert r.0 in multiset(h);
    if v == SortedSuffix {
      var a := Arrange(h, p);
      ArrangeSorted(h, p);
      forall x | x in h ensures WaitingLe(r.0, x) {
        assert x in multiset(a);
        var m :| 0 <= m < |a| && a[m] == x;
        if m > 0 { assert WaitingLe(a[0], a[m]); }
      }
      assert a[1..][..|a| - 1] == a[1..];
    }
  }

  /**
   * The refinement between the two programs: holding the same entries, with
   * distinct troon ids, main.cc's heap and bonus.cc's sorted deque choose the
   * same troon and keep the same remaining entries.
   */
  lemma SameChoice(hq: seq<WaitingTroon>, hs: seq<WaitingTroon>, p: nat)
    requires |hs| > 0 && multiset(hq) == multiset(hs)
    requires SuffixOrdered(hs, p) && DistinctIds(hs)
    ensures |hq| == |hs|
    ensures Pick(PriorityQueue, hq, 0).0 == Pick(SortedSuffix, hs, p).0
    ensures multiset(Pick(PriorityQueue, hq, 0).1) == multiset(Pick(SortedSuffix, hs, p).1)
  {
    assert |multiset(hq)| == |multiset(hs)|;
    assert hs[0] in multiset(hq);
    PickIsLeast(PriorityQueue, hq, 0);
    PickIsLeast(SortedSuffix, hs, p);
    PickPermutes(PriorityQueue, hq, 0);
    PickPermutes(SortedSuffix, hs, p);
    var a, b := Pick(PriorityQueue, hq, 0).0, Pick(SortedSuffix, hs, p).0;
    assert a in multiset(hs) && b in multiset(hq);
    assert WaitingLe(a, b) && WaitingLe(b, a);
    var i :| 0 <= i < |hs| && hs[i] == a;
    var j :| 0 <= j < |hs| && hs[j] == b;
    assert i == j;
    assert multiset(Pick(PriorityQueue, hq, 0).1) == multiset(hq) - multiset{a};
  }

  /** An entry later than the whole sorted prefix can be appended without breaking bonus.cc's invariant. */
  lemma AppendKeepsOrder(h: seq<WaitingTroon>, p: nat, e: WaitingTroon)
    requires SuffixOrdered(h, p)
    requires forall i :: 0 <= i < p ==> h[i].time < e.time
    ensures SuffixOrdered(h + [e], p)
  {
    assert (h + [e])[..p] == h[..p];
  }
}
