/**
 * bonus.cc's hand-written tokenizers over the mapped input file. Each reads
 * from a cursor up to a terminating character, returns what came before it
 * and leaves the cursor just past the terminator. The source reads past the
 * end of the mapping when no terminator follows; here the caller must supply
 * one.
 */
module Tokenizer {
  import opened Text

  /** What read_int returns: the value of the digit run at pos; next is past the non-digit after it. */
  predicate ReadIntResult(buf: seq<char>, pos: nat, value: nat, next: nat) {
    && pos < next <= |buf|
    && (forall k :: pos <= k < next - 1 ==> IsDigit(buf[k]))
    && !IsDigit(buf[next - 1])
    && value == DecimalValue(buf[pos..next - 1])
  }

  /** What read_string returns: the characters before the first whitespace; next is past it. */
  predicate ReadStringResult(buf: seq<char>, pos: nat, word: string, next: nat) {
    && pos < next <= |buf|
    && IsSpace(buf[next - 1])
    && (forall k :: pos <= k < next - 1 ==> !IsSpace(buf[k]))
    && word == buf[pos..next - 1]
  }

  /** What read_line returns: the characters before the first newline; next is past it. */
  predicate ReadLineResult(buf: seq<char>, pos: nat, line: string, next: nat) {
    && pos < next <= |buf|
    && buf[next - 1] == '\n'
    && (forall k :: pos <= k < next - 1 ==> buf[k] != '\n')
    && line == buf[pos..next - 1]
  }

  lemma DecimalValueSnoc(s: string, c: char)
    requires AllDigits(s) && IsDigit(c)
    ensures AllDigits(s + [c]) && DecimalValue(s + [c]) == DecimalValue(s) * 10 + DigitValue(c)
  {
    assert (s + [c])[..|s|] == s;
  }

  /** read_int (bonus.cc:211-218). */
  method ReadInt(buf: seq<char>, pos: nat) returns (value: nat, next: nat)
    requires exists k :: pos <= k < |buf| && !IsDigit(buf[k])
    ensures ReadIntResult(buf, pos, value, next)
  {
    var it := pos;
    var res := 0;
    var c := buf[it];
    it := it + 1;
    while IsDigit(c)
      invariant pos < it <= |buf| && c == buf[it - 1]
      invariant forall k :: pos <= k < it - 1 ==> IsDigit(buf[k])
      invariant res == DecimalValue(buf[pos..it - 1])
      invariant exists k :: it - 1 <= k < |buf| && !IsDigit(buf[k])
      decreases |buf| - it
    {
      DecimalValueSnoc(buf[pos..it - 1], c);
      assert buf[pos..it] == buf[pos..it - 1] + [c];
      res := res * 10 + DigitValue(c);
      c := buf[it];
      it := it + 1;
    }
    value, next := res, it;
  }

  /** read_string (bonus.cc:220-225). */
  method ReadString(buf: seq<char>, pos: nat) returns (word: string, next: nat)
    requires exists k :: pos <= k < |buf| && IsSpace(buf[k])
    ensures ReadStringResult(buf, pos, word, next)
  {
    var it := pos;
    var c := buf[it];
    it := it + 1;
    while !IsSpace(c)
      invariant pos < it <= |buf| && c == buf[it - 1]
      invariant forall k :: pos <= k < it - 1 ==> !IsSpace(buf[k])
      invariant exists k :: it - 1 <= k < |buf| && IsSpace(buf[k])
      decreases |buf| - it
    {
      c := buf[it];
      it := it + 1;
    }
    word, next := buf[pos..it - 1], it;
  }

  /** read_line (bonus.cc:227-232). */
  method ReadLine(buf: seq<char>, pos: nat) returns (line: string, next: nat)
    requires exists k :: pos <= k < |buf| && buf[k] == '\n'
    ensures ReadLineResult(buf, pos, line, next)
  {
    var it := pos;
    var c := buf[it];
    it := it + 1;
    while c != '\n'
      invariant pos < it <= |buf| && c == buf[it - 1]
      invariant forall k :: pos <= k < it - 1 ==> buf[k] != '\n'
      invariant exists k :: it - 1 <= k < |buf| && buf[k] == '\n'
      decreases |buf| - it
    {
      c := buf[it];
      it := it + 1;
    }
    line, next := buf[pos..it - 1], it;
  }

  /** read_int reads back a numeral written by std::to_string, consuming one separator. */
  lemma ReadIntOfNumeral(n: nat, sep: char, rest: seq<char>, value: nat, next: nat)
    requires !IsDigit(sep)
    requires ReadIntResult(NatToDecimal(n) + [sep] + rest, 0, value, next)
    ensures value == n && next == |NatToDecimal(n)| + 1
  {
    var d := NatToDecimal(n);
    var buf := d + [sep] + rest;
    assert buf[|d|] == sep;
    assert buf[0..next - 1] == d;
    DecimalRoundTrip(n);
  }

  /** read_string returns a whitespace-free word written before a whitespace separator. */
  lemma ReadStringOfWord(w: string, sep: char, rest: seq<char>, word: string, next: nat)
    requires forall k :: 0 <= k < |w| ==> !IsSpace(w[k])
    requires IsSpace(sep)
    requires ReadStringResult(w + [sep] + rest, 0, word, next)
    ensures word == w && next == |w| + 1
  {
    var buf := w + [sep] + rest;
    assert buf[|w|] == sep;
  }

  /** read_line returns a newline-free line written before a newline. */
  lemma ReadLineOfLine(l: string, rest: seq<char>, line: string, next: nat)
    requires forall k :: 0 <= k < |l| ==> l[k] != '\n'
    requires ReadLineResult(l + ['\n'] + rest, 0, line, next)
    ensures line == l && next == |l| + 1
  {
    var buf := l + ['\n'] + rest;
    assert buf[|l|] == '\n';
  }
}
