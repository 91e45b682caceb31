/**
 * Loading the network: the link table built from the S x S length matrix,
 * each line's next- and previous-station tables built from its station list,
 * and the six spawn links. main.cc and bonus.cc build them the same way;
 * main.cc keeps the link table as an S x S matrix of Link* (nullptr where
 * there is no link), bonus.cc as one hash map per source station. Both are
 * modelled as a map from (from, to) to the link's index in creation order.
 */
module Routes {
  import opened Troons
  import opened Holding
  import opened Network
  import opened Invariants
  import opened Worlds
  import opened Simulation

  datatype Option<T> = None | Some(value: T)

  /** The length matrix has a nonzero entry at (a, b): a link from a to b is created. */
  predicate Linked(lens: seq<seq<int>>, a: int, b: int) {
    0 <= a < |lens| && 0 <= b < |lens[a]| && lens[a][b] != 0
  }

  /** (src, dst) has been visited when the nested loops stand at (row, col). */
  predicate Visited(key: (int, int), row: int, col: int) {
    key.0 < row || (key.0 == row && key.1 < col)
  }

  /** Links are created row by row, each row in column order. */
  predicate RowMajor(segs: seq<Segment>) {
    forall j, k :: 0 <= j < k < |segs| ==> Visited((segs[j].from, segs[j].to), segs[k].from, segs[k].to)
  }

  /**
   * What the link table is: one link per nonzero matrix entry, carrying the
   * entry as its length and its source station's popularity, found in the
   * table under its end stations, created in row-major order.
   */
  ghost predicate LinkTable(pops: seq<int>, lens: seq<seq<int>>, segs: seq<Segment>, table: map<(int, int), nat>)
    requires |lens| == |pops|
  {
    && (forall key :: key in table <==> Linked(lens, key.0, key.1))
    && (forall key :: key in table ==>
          table[key] < |segs| && segs[table[key]] == Segment(key.0, key.1, lens[key.0][key.1], pops[key.0]))
    && (forall j :: 0 <= j < |segs| ==> (segs[j].from, segs[j].to) in table && table[(segs[j].from, segs[j].to)] == j)
    && RowMajor(segs)
  }

  /** The nested src/dst loops over the length matrix that create the links. */
  method BuildLinks(pops: seq<int>, lens: seq<seq<int>>) returns (segs: seq<Segment>, table: map<(int, int), nat>)
    requires |lens| == |pops|
    requires forall src :: 0 <= src < |lens| ==> |lens[src]| == |pops|
    ensures LinkTable(pops, lens, segs, table)
  {
    var s := |pops|;
    segs, table := [], map[];
    var src := 0;
    while src < s
      invariant 0 <= src <= s && Built(pops, lens, segs, table, src, 0)
    {
      var dst := 0;
      while dst < s
        invariant 0 <= dst <= s && Built(pops, lens, segs, table, src, dst)
      {
        var len := lens[src][dst];
        BuildStep(pops, lens, segs, table, src, dst);
        if len != 0 {
          table := table[(src, dst) := |segs|];
          segs := segs + [Segment(src, dst, len, pops[src])];
        }
        dst := dst + 1;
      }
      RowDone(pops, lens, segs, table, src);
      src := src + 1;
    }
    assert forall key: (int, int) :: Linked(lens, key.0, key.1) ==> Visited(key, s, 0);
  }

  /** The nested loops' invariant at (row, col): exactly the links visited so far, in row-major order. */
  ghost predicate Built(pops: seq<int>, lens: seq<seq<int>>, segs: seq<Segment>, table: map<(int, int), nat>, row: int, col: int)
    requires |lens| == |pops|
  {
    && (forall key :: key in table <==> Linked(lens, key.0, key.1) && Visited(key, row, col))
    && (forall key :: key in table ==>
          table[key] < |segs| && segs[table[key]] == Segment(key.0, key.1, lens[key.0][key.1], pops[key.0]))
    && (forall j :: 0 <= j < |segs| ==> (segs[j].from, segs[j].to) in table && table[(segs[j].from, segs[j].to)] == j)
    && RowMajor(segs)
  }

  /** One step of the inner loop: link (src, dst) is created when its length is nonzero. */
  lemma BuildStep(pops: seq<int>, lens: seq<seq<int>>, segs: seq<Segment>, table: map<(int, int), nat>, src: int, dst: int)
    requires |lens| == |pops| && 0 <= src < |pops| && 0 <= dst < |pops| && |lens[src]| == |pops|
    requires Built(pops, lens, segs, table, src, dst)
    ensures lens[src][dst] != 0 ==>
              Built(pops, lens, segs + [Segment(src, dst, lens[src][dst], pops[src])], table[(src, dst) := |segs|], src, dst + 1)
    ensures lens[src][dst] == 0 ==> Built(pops, lens, segs, table, src, dst + 1)
  {
    if lens[src][dst] != 0 {
      var segs', table' := segs + [Segment(src, dst, lens[src][dst], pops[src])], table[(src, dst) := |segs|];
      assert (src, dst) !in table;
      forall j | 0 <= j < |segs'| ensures (segs'[j].from, segs'[j].to) in table' && table'[(segs'[j].from, segs'[j].to)] == j {
        if j < |segs| {
          assert segs'[j] == segs[j];
          assert Visited((segs[j].from, segs[j].to), src, dst);
        }
      }
      forall j, k | 0 <= j < k < |segs'| ensures Visited((segs'[j].from, segs'[j].to), segs'[k].from, segs'[k].to) {
        if k == |segs| {
          assert Visited((segs[j].from, segs[j].to), src, dst);
        }
      }
    }
  }

  /** The end of a row is the start of the next. */
  lemma RowDone(pops: seq<int>, lens: seq<seq<int>>, segs: seq<Segment>, table: map<(int, int), nat>, src: int)
    requires |lens| == |pops| && 0 <= src < |pops|
    requires forall a :: 0 <= a < |lens| ==> |lens[a]| == |pops|
    requires Built(pops, lens, segs, table, src, |pops|)
    ensures Built(pops, lens, segs, table, src + 1, 0)
  {
  }


  /** _next_station[a] of a line: the station written after a by the last pair (a, b) of the list, or -1. */
  function NextOf(ids: seq<int>, a: int): int {
    if |ids| < 2 then -1
    else if ids[|ids| - 2] == a then ids[|ids| - 1]
    else NextOf(ids[..|ids| - 1], a)
  }

  /** _prev_station[b] of a line: the station written before b by the last pair (a, b) of the list, or -1. */
  function PrevOf(ids: seq<int>, b: int): int {
    if |ids| < 2 then -1
    else if ids[|ids| - 1] == b then ids[|ids| - 2]
    else PrevOf(ids[..|ids| - 1], b)
  }

  /**
   * The per-line loop: both tables are assigned S entries of -1, then every
   * consecutive pair (a, b) of the list sets next[a] := b and prev[b] := a.
   */
  method BuildLine(s: nat, ids: seq<int>) returns (next: seq<int>, prev: seq<int>)
    requires |ids| <= s
    requires forall j :: 0 <= j < |ids| ==> 0 <= ids[j] < s
    ensures |next| == s && |prev| == s
    ensures forall a :: 0 <= a < s ==> next[a] == NextOf(ids, a) && prev[a] == PrevOf(ids, a)
  {
    var nx := new int[s](_ => -1);
    var pv := new int[s](_ => -1);
    if |ids| < 2 {
      return nx[..], pv[..];
    }
    var j := 0;
    while j + 1 < |ids|
      invariant 0 <= j < |ids|
      invariant forall a :: 0 <= a < s ==> nx[a] == NextOf(ids[..j + 1], a) && pv[a] == PrevOf(ids[..j + 1], a)
    {
      assert ids[..j + 2][..j + 1] == ids[..j + 1];
      nx[ids[j]] := ids[j + 1];
      pv[ids[j + 1]] := ids[j];
      j := j + 1;
    }
    assert ids[..j + 1] == ids;
    return nx[..], pv[..];
  }

  /** No station appears twice on the list. */
  predicate Distinct(ids: seq<int>) {
    forall j, k :: 0 <= j < k < |ids| ==> ids[j] != ids[k]
  }

  /** A next station other than -1 is the successor of a on the list. */
  lemma {:induction false} NextOfPair(ids: seq<int>, a: int)
    requires NextOf(ids, a) != -1
    ensures exists j :: 0 <= j < |ids| - 1 && ids[j] == a && ids[j + 1] == NextOf(ids, a)
    decreases |ids|
  {
    if ids[|ids| - 2] != a {
      var p := ids[..|ids| - 1];
      NextOfPair(p, a);
      var j :| 0 <= j < |p| - 1 && p[j] == a && p[j + 1] == NextOf(p, a);
      assert ids[j] == a && ids[j + 1] == NextOf(ids, a);
    }
  }

  /** A previous station other than -1 is the predecessor of b on the list. */
  lemma {:induction false} PrevOfPair(ids: seq<int>, b: int)
    requires PrevOf(ids, b) != -1
    ensures exists j :: 0 <= j < |ids| - 1 && ids[j + 1] == b && ids[j] == PrevOf(ids, b)
    decreases |ids|
  {
    if ids[|ids| - 1] != b {
      var p := ids[..|ids| - 1];
      PrevOfPair(p, b);
      var j :| 0 <= j < |p| - 1 && p[j + 1] == b && p[j] == PrevOf(p, b);
      assert ids[j + 1] == b && ids[j] == PrevOf(ids, b);
    }
  }

  /** On a list without repeats, the station after the j-th is the (j+1)-th; after the terminus there is none. */
  lemma {:induction false} NextOfAt(ids: seq<int>, j: nat)
    requires Distinct(ids) && j < |ids|
    ensures NextOf(ids, ids[j]) == if j + 1 < |ids| then ids[j + 1] else -1
    decreases |ids|
  {
    if |ids| >= 2 && j + 2 != |ids| {
      var p := ids[..|ids| - 1];
      if j + 1 < |ids| {
        NextOfAt(p, j);
        assert p[j] == ids[j];
      } else {
        NextOfAbsent(p, ids[j]);
      }
    }
  }

  /** On a list without repeats, the station before the (j+1)-th is the j-th; before the first there is none. */
  lemma {:induction false} PrevOfAt(ids: seq<int>, j: nat)
    requires Distinct(ids) && j < |ids|
    ensures PrevOf(ids, ids[j]) == if j > 0 then ids[j - 1] else -1
    decreases |ids|
  {
    if |ids| >= 2 && j + 1 != |ids| {
      var p := ids[..|ids| - 1];
      PrevOfAt(p, j);
      assert p[j] == ids[j];
    }
  }

  /** A station that is not on the list, or is its terminus, has no next station. */
  lemma {:induction false} NextOfAbsent(ids: seq<int>, a: int)
    requires forall j :: 0 <= j < |ids| - 1 ==> ids[j] != a
    ensures NextOf(ids, a) == -1
    decreases |ids|
  {
    if |ids| >= 2 {
      NextOfAbsent(ids[..|ids| - 1], a);
    }
  }

  /** Going forward from a to b and backward from b to a are the same step of a list without repeats. */
  lemma NextPrevInverse(ids: seq<int>, a: int, b: int)
    requires Distinct(ids) && forall j :: 0 <= j < |ids| ==> ids[j] != -1
    ensures (NextOf(ids, a) == b && b != -1) <==> (PrevOf(ids, b) == a && a != -1)
  {
    if NextOf(ids, a) == b && b != -1 {
      NextOfPair(ids, a);
      var j :| 0 <= j < |ids| - 1 && ids[j] == a && ids[j + 1] == b;
      PrevOfAt(ids, j + 1);
    }
    if PrevOf(ids, b) == a && a != -1 {
      PrevOfPair(ids, b);
      var j :| 0 <= j < |ids| - 1 && ids[j + 1] == b && ids[j] == a;
      NextOfAt(ids, j);
    }
  }

  /**
   * spawn_locations[2i] and [2i+1]: the link from the first station to the
   * second and the link from the last station to the one before it; None
   * where the table has no such link (nullptr in the programs).
   */
  function SpawnLinks(table: map<(int, int), nat>, ids: seq<int>): (r: Option<(nat, nat)>)
    requires |ids| >= 2
    ensures r.Some? <==> (ids[0], ids[1]) in table && (ids[|ids| - 1], ids[|ids| - 2]) in table
    ensures r.Some? ==> r.value == (table[(ids[0], ids[1])], table[(ids[|ids| - 1], ids[|ids| - 2])])
  {
    var first, last := (ids[0], ids[1]), (ids[|ids| - 1], ids[|ids| - 2]);
    if first in table && last in table then Some((table[first], table[last])) else None
  }

  /** The three station lists, each a list of station indices in range, at least two and at most S long. */
  predicate LinesOk(s: nat, lines: seq<seq<int>>) {
    && |lines| == 3
    && forall i :: 0 <= i < 3 ==>
         && 2 <= |lines[i]| <= s
         && forall j :: 0 <= j < |lines[i]| ==> 0 <= lines[i][j] < s
  }

  /** station_lists as the network reads it: [backward][line] holds the prev tables, [forward][line] the next tables. */
  predicate ListsOf(s: nat, lines: seq<seq<int>>, lists: seq<seq<seq<int>>>)
    requires |lines| == 3
  {
    && ListsShape(lists, s)
    && forall line, a :: 0 <= line < 3 && 0 <= a < s ==>
         lists[1][line][a] == NextOf(lines[line], a) && lists[0][line][a] == PrevOf(lines[line], a)
  }

  /** The loop over the three lines: each line's tables and its two spawn links. */
  method BuildRoutes(s: nat, table: map<(int, int), nat>, lines: seq<seq<int>>)
    returns (lists: seq<seq<seq<int>>>, spawn: Option<seq<nat>>)
    requires LinesOk(s, lines)
    ensures ListsOf(s, lines, lists)
    ensures spawn.Some? <==> forall i :: 0 <= i < 3 ==> SpawnLinks(table, lines[i]).Some?
    ensures spawn.Some? ==> |spawn.value| == 6 && forall i :: 0 <= i < 3 ==>
              SpawnLinks(table, lines[i]) == Some((spawn.value[2 * i], spawn.value[2 * i + 1]))
  {
    var nexts: seq<seq<int>> := [];
    var prevs: seq<seq<int>> := [];
    var locs: seq<nat> := [];
    var found := true;
    var i := 0;
    while i < 3
      invariant 0 <= i <= 3 && |nexts| == i && |prevs| == i
      invariant forall k :: 0 <= k < i ==> |nexts[k]| == s && |prevs[k]| == s
      invariant forall k, a :: 0 <= k < i && 0 <= a < s ==>
                  nexts[k][a] == NextOf(lines[k], a) && prevs[k][a] == PrevOf(lines[k], a)
      invariant found <==> forall k :: 0 <= k < i ==> SpawnLinks(table, lines[k]).Some?
      invariant found ==> |locs| == 2 * i && forall k :: 0 <= k < i ==>
                  SpawnLinks(table, lines[k]) == Some((locs[2 * k], locs[2 * k + 1]))
    {
      var next, prev := BuildLine(s, lines[i]);
      match SpawnLinks(table, lines[i]) {
        case Some(pair) =>
          locs := locs + [pair.0, pair.1];
        case None =>
          found := false;
      }
      nexts := nexts + [next];
      prevs := prevs + [prev];
      i := i + 1;
    }
    lists := [prevs, nexts];
    spawn := if found then Some(locs) else None;
  }

  /** Freshly constructed links, one per segment, in creation order. */
  function NewLinks(v: Variant, segs: seq<Segment>): (net: seq<LinkState>)
    ensures |net| == |segs| && forall j :: 0 <= j < |segs| ==> net[j] == NewLink(v, segs[j])
  {
    if |segs| == 0 then [] else NewLinks(v, segs[..|segs| - 1]) + [NewLink(v, segs[|segs| - 1])]
  }

  /**
   * What well-formed input provides: non-negative lengths and popularities,
   * lines without repeated stations, and a link in each direction between
   * consecutive stations of a line.
   */
  predicate WellFormed(pops: seq<int>, lens: seq<seq<int>>, lines: seq<seq<int>>) {
    && |lens| == |pops|
    && (forall a :: 0 <= a < |pops| ==> pops[a] >= 0)
    && (forall a :: 0 <= a < |lens| ==> |lens[a]| == |pops| && forall b :: 0 <= b < |lens[a]| ==> lens[a][b] >= 0)
    && LinesOk(|pops|, lines)
    && forall i :: 0 <= i < 3 ==>
         && Distinct(lines[i])
         && forall j :: 0 <= j < |lines[i]| - 1 ==>
              Linked(lens, lines[i][j], lines[i][j + 1]) && Linked(lens, lines[i][j + 1], lines[i][j])
  }

  /** The loaded station lists follow links of the table, and the two directions are inverse: RoutesOk. */
  lemma LoadedRoutes(pops: seq<int>, lens: seq<seq<int>>, lines: seq<seq<int>>, names: seq<string>,
                     segs: seq<Segment>, table: map<(int, int), nat>, lists: seq<seq<seq<int>>>, spawn: seq<nat>)
    requires WellFormed(pops, lens, lines) && |names| == |pops|
    requires LinkTable(pops, lens, segs, table)
    requires ListsOf(|pops|, lines, lists)
    ensures RoutesOk(Env(table, lists, spawn, names))
  {
    var s := |pops|;
    var env := Env(table, lists, spawn, names);
    forall line | 0 <= line < 3
      ensures LineInverse(lens, s, lists[1][line], lists[0][line])
      ensures LineInverse(lens, s, lists[0][line], lists[1][line])
    {
      LineRoutes(lens, s, lines[line], lists[1][line], lists[0][line]);
    }
    forall d, line, a {:trigger env.lists[d][line][a]} | 0 <= d < 2 && 0 <= line < 3 && 0 <= a < s
      ensures var b := env.lists[d][line][a];
              b == -1 || (0 <= b < s && (a, b) in env.table && env.lists[1 - d][line][b] == a)
    {
      assert LineInverse(lens, s, lists[d][line], lists[1 - d][line]);
    }
  }

  /** Each station's entry in `there` is -1 or a linked station whose entry in `back` leads back to it. */
  predicate LineInverse(lens: seq<seq<int>>, s: nat, there: seq<int>, back: seq<int>) {
    && |there| == s && |back| == s
    && forall a :: 0 <= a < s ==>
         there[a] == -1 || (0 <= there[a] < s && Linked(lens, a, there[a]) && back[there[a]] == a)
  }

  /** One line's next and prev tables lead along links of the line and undo each other. */
  lemma LineRoutes(lens: seq<seq<int>>, s: nat, ids: seq<int>, next: seq<int>, prev: seq<int>)
    requires Distinct(ids) && forall j :: 0 <= j < |ids| ==> 0 <= ids[j] < s
    requires forall j :: 0 <= j < |ids| - 1 ==> Linked(lens, ids[j], ids[j + 1]) && Linked(lens, ids[j + 1], ids[j])
    requires |next| == s && |prev| == s
    requires forall a :: 0 <= a < s ==> next[a] == NextOf(ids, a) && prev[a] == PrevOf(ids, a)
    ensures LineInverse(lens, s, next, prev) && LineInverse(lens, s, prev, next)
  {
    forall a | 0 <= a < s && next[a] != -1 ensures 0 <= next[a] < s && Linked(lens, a, next[a]) && prev[next[a]] == a {
      var b := next[a];
      NextOfPair(ids, a);
      var j :| 0 <= j < |ids| - 1 && ids[j] == a && ids[j + 1] == b;
      NextPrevInverse(ids, a, b);
    }
    forall a | 0 <= a < s && prev[a] != -1 ensures 0 <= prev[a] < s && Linked(lens, a, prev[a]) && next[prev[a]] == a {
      var b := prev[a];
      PrevOfPair(ids, a);
      var j :| 0 <= j < |ids| - 1 && ids[j + 1] == a && ids[j] == b;
      NextPrevInverse(ids, b, a);
    }
  }

  /** Each line's two spawn links start at its first and last station and run along the line: SpawnOk. */
  lemma LoadedSpawn(v: Variant, pops: seq<int>, lens: seq<seq<int>>, lines: seq<seq<int>>, names: seq<string>,
                    segs: seq<Segment>, table: map<(int, int), nat>, lists: seq<seq<seq<int>>>, spawn: seq<nat>)
    requires WellFormed(pops, lens, lines) && |names| == |pops|
    requires LinkTable(pops, lens, segs, table)
    requires ListsOf(|pops|, lines, lists)
    requires |spawn| == 6 && forall i :: 0 <= i < 3 ==> SpawnLinks(table, lines[i]) == Some((spawn[2 * i], spawn[2 * i + 1]))
    ensures SpawnOk(NewLinks(v, segs), Env(table, lists, spawn, names))
  {
    SpawnSegs(pops, lens, lines, segs, table, spawn);
    SpawnOkOfSegs(v, |pops|, lines, segs, Env(table, lists, spawn, names));
  }

  /** The spawn link of slot x (line x / 2; forwards when x is even) follows its line from its source station. */
  predicate SpawnSeg(s: nat, lines: seq<seq<int>>, segs: seq<Segment>, spawn: seq<nat>, x: nat)
    requires |lines| == 3 && |spawn| == 6 && x < 6
  {
    && spawn[x] < |segs|
    && 0 <= segs[spawn[x]].from < s
    && segs[spawn[x]].to == if x % 2 == 0 then NextOf(lines[x / 2], segs[spawn[x]].from)
                           else PrevOf(lines[x / 2], segs[spawn[x]].from)
  }

  lemma SpawnSegs(pops: seq<int>, lens: seq<seq<int>>, lines: seq<seq<int>>, segs: seq<Segment>,
                  table: map<(int, int), nat>, spawn: seq<nat>)
    requires WellFormed(pops, lens, lines)
    requires LinkTable(pops, lens, segs, table)
    requires |spawn| == 6 && forall i :: 0 <= i < 3 ==> SpawnLinks(table, lines[i]) == Some((spawn[2 * i], spawn[2 * i + 1]))
    ensures forall x :: 0 <= x < 6 ==> SpawnSeg(|pops|, lines, segs, spawn, x)
  {
    forall x | 0 <= x < 6 ensures SpawnSeg(|pops|, lines, segs, spawn, x) {
      var i := x / 2;
      SpawnEnds(pops, lens, segs, table, lines[i], spawn[2 * i], spawn[2 * i + 1]);
      if x % 2 == 0 {
        assert x == 2 * i;
      } else {
        assert x == 2 * i + 1;
      }
    }
  }

  lemma SpawnOkOfSegs(v: Variant, s: nat, lines: seq<seq<int>>, segs: seq<Segment>, env: Env)
    requires |lines| == 3 && |env.names| == s && ListsOf(s, lines, env.lists)
    requires |env.spawnLocs| == 6 && forall x :: 0 <= x < 6 ==> SpawnSeg(s, lines, segs, env.spawnLocs, x)
    ensures SpawnOk(NewLinks(v, segs), env)
  {
    var net := NewLinks(v, segs);
    forall x | 0 <= x < 6
      ensures env.spawnLocs[x] < |net|
      ensures 0 <= net[env.spawnLocs[x]].seg.from < s
      ensures env.lists[if x % 2 == 0 then 1 else 0][x / 2][net[env.spawnLocs[x]].seg.from] == net[env.spawnLocs[x]].seg.to
    {
      assert SpawnSeg(s, lines, segs, env.spawnLocs, x);
      assert net[env.spawnLocs[x]].seg == segs[env.spawnLocs[x]];
    }
  }

  /** A line's spawn links leave its first station forwards and its last station backwards. */
  lemma SpawnEnds(pops: seq<int>, lens: seq<seq<int>>, segs: seq<Segment>, table: map<(int, int), nat>,
                  ids: seq<int>, first: nat, last: nat)
    requires |lens| == |pops| && LinkTable(pops, lens, segs, table)
    requires |ids| >= 2 && Distinct(ids) && forall j :: 0 <= j < |ids| ==> 0 <= ids[j] < |pops|
    requires SpawnLinks(table, ids) == Some((first, last))
    ensures first < |segs| && 0 <= segs[first].from < |pops| && NextOf(ids, segs[first].from) == segs[first].to
    ensures last < |segs| && 0 <= segs[last].from < |pops| && PrevOf(ids, segs[last].from) == segs[last].to
  {
    assert first == table[(ids[0], ids[1])];
    NextOfAt(ids, 0);
    assert last == table[(ids[|ids| - 1], ids[|ids| - 2])];
    PrevOfAt(ids, |ids| - 1);
  }

  /** The loaded tables are consistent with the links they describe: the network is Wired. */
  lemma LoadedWired(v: Variant, pops: seq<int>, lens: seq<seq<int>>, lines: seq<seq<int>>, names: seq<string>,
                    segs: seq<Segment>, table: map<(int, int), nat>, lists: seq<seq<seq<int>>>, spawn: seq<nat>)
    requires WellFormed(pops, lens, lines) && |names| == |pops|
    requires LinkTable(pops, lens, segs, table)
    requires ListsOf(|pops|, lines, lists)
    requires |spawn| == 6 && forall i :: 0 <= i < 3 ==> SpawnLinks(table, lines[i]) == Some((spawn[2 * i], spawn[2 * i + 1]))
    ensures Wired(NewLinks(v, segs), Env(table, lists, spawn, names))
  {
    LoadedRoutes(pops, lens, lines, names, segs, table, lists, spawn);
    LoadedSpawn(v, pops, lens, lines, names, segs, table, lists, spawn);
  }

  /** Before the first tick every link is freshly constructed, no troon exists and the tables are wired: Ready holds. */
  lemma InitialReady(v: Variant, pops: seq<int>, lens: seq<seq<int>>, lines: seq<seq<int>>, names: seq<string>,
                     segs: seq<Segment>, table: map<(int, int), nat>, lists: seq<seq<seq<int>>>, spawn: seq<nat>,
                     budgets: seq<int>, ticks: int)
    requires WellFormed(pops, lens, lines) && |names| == |pops|
    requires LinkTable(pops, lens, segs, table)
    requires ListsOf(|pops|, lines, lists)
    requires |spawn| == 6 && forall i :: 0 <= i < 3 ==> SpawnLinks(table, lines[i]) == Some((spawn[2 * i], spawn[2 * i + 1]))
    requires |budgets| == 3 && 0 <= ticks <= INT_MAX
    requires forall j :: 0 <= j < |segs| ==> ticks - 1 + segs[j].len < INT_MAX && ticks + segs[j].popularity + 1 <= INT_MAX
    ensures Ready(v, World(NewLinks(v, segs), budgets, 0, []), Env(table, lists, spawn, names), 0, ticks)
  {
    LoadedWired(v, pops, lens, lines, names, segs, table, lists, spawn);
    FreshLinks(v, segs, Env(table, lists, spawn, names), ticks);
  }

  /** Freshly constructed links hold no troon, and the timers have room for the whole run. */
  lemma FreshLinks(v: Variant, segs: seq<Segment>, env: Env, ticks: int)
    requires forall j :: 0 <= j < |segs| ==> ticks - 1 + segs[j].len < INT_MAX && ticks + segs[j].popularity + 1 <= INT_MAX
    ensures Headroom(NewLinks(v, segs), ticks - 1)
    ensures forall j :: 0 <= j < |segs| ==> LinkOk(v, NewLinks(v, segs)[j], env, 0, 0)
  {
    var net := NewLinks(v, segs);
    forall j | 0 <= j < |segs| ensures LinkOk(v, net[j], env, 0, 0) {
      assert net[j] == NewLink(v, segs[j]);
      assert SuffixOrdered(net[j].holding, 0);
    }
  }
}
