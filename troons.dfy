/**
 * Troons, the order of troons waiting at a link and the descriptor strings of
 * the report: the value types main.cc and bonus.cc share.
 */
module Troons {
  import opened Text
  import opened Sorting

  /** std::numeric_limits<int>::max(), main.cc's "no timer" sentinel. */
  const INT_MAX: int := 0x7fff_ffff

  /** The lines, in the order of the source's enum: green, yellow, blue, invalid. */
  datatype Color = Green | Yellow | Blue | Invalid

  /** to_underlying(line): the line's row in the per-line tables. */
  function LineIndex(c: Color): nat {
    match c
    case Green => 0
    case Yellow => 1
    case Blue => 2
    case Invalid => 3
  }

  /** static_cast<Color>(i) for a line index. */
  function LineColor(i: nat): (c: Color)
    requires i < 3
    ensures c != Invalid && LineIndex(c) == i
  {
    if i == 0 then Green else if i == 1 then Yellow else Blue
  }

  /**
   * A troon: its id, the tick its pending transition is due, its line and
   * whether it runs forward along the line's station order.
   */
  datatype Troon = Troon(id: int, timer: int, line: Color, forward: bool)

  /** A holding-area entry: the tick the troon arrived, and the troon. */
  datatype WaitingTroon = WaitingTroon(time: int, troon: Troon)

  /** bonus.cc's WaitingTroon::operator<: earlier arrival first, then lower id. */
  predicate Before(a: WaitingTroon, b: WaitingTroon) {
    if a.time != b.time then a.time < b.time else a.troon.id < b.troon.id
  }

  /** main.cc's WaitingTroon::operator>, the comparison its min-heap is built on. */
  predicate After(a: WaitingTroon, b: WaitingTroon) {
    if a.time != b.time then a.time > b.time else a.troon.id > b.troon.id
  }

  /** "Not after": the order both holding areas are kept in. */
  predicate WaitingLe(a: WaitingTroon, b: WaitingTroon) {
    !Before(b, a)
  }

  /** Two entries with the same arrival tick and troon id. */
  predicate SameKey(a: WaitingTroon, b: WaitingTroon) {
    a.time == b.time && a.troon.id == b.troon.id
  }

  /** main.cc's operator> is bonus.cc's operator< with its arguments swapped. */
  lemma AfterIsBeforeSwapped(a: WaitingTroon, b: WaitingTroon)
    ensures After(a, b) <==> Before(b, a)
  {
  }

  /**
   * Before is a strict order, and two entries are unordered by it exactly
   * when they share their key; so WaitingLe is a total preorder.
   */
  lemma WaitingOrder()
    ensures forall a :: !Before(a, a)
    ensures forall a, b, c :: Before(a, b) && Before(b, c) ==> Before(a, c)
    ensures forall a, b :: !Before(a, b) && !Before(b, a) <==> SameKey(a, b)
    ensures TotalPreorder(WaitingLe)
  {
  }

  /** The form in which sorting needs the order. */
  lemma WaitingLeTotalPreorder()
    ensures TotalPreorder(WaitingLe)
  {
  }

  /** Troon::to_string: the line letter, the id and the station name. */
  function LineLetter(c: Color): char {
    match c
    case Green => 'g'
    case Yellow => 'y'
    case _ => 'b'
  }

  function Descriptor(t: Troon, station: string): string {
    [LineLetter(t.line)] + IntToDecimal(t.id) + "-" + station
  }

  /**
   * At one station, troons with different ids, or on lines with different
   * letters, have different descriptors: the report never merges two troons.
   */
  lemma DescriptorInjective(a: Troon, b: Troon, station: string)
    requires a.id >= 0 && b.id >= 0
    requires Descriptor(a, station) == Descriptor(b, station)
    ensures a.id == b.id && LineLetter(a.line) == LineLetter(b.line)
  {
    var s := Descriptor(a, station);
    var da, db := NatToDecimal(a.id), NatToDecimal(b.id);
    assert s[0] == LineLetter(a.line) && Descriptor(b, station)[0] == LineLetter(b.line);
    assert da == s[1..1 + |da|];
    assert db == Descriptor(b, station)[1..1 + |db|];
    NatToDecimalInjective(a.id, b.id);
  }
}
