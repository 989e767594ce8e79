/** Text written by the analyzer and read back by the scan parser, one
    whitespace-separated field at a time. The digits of a number are not
    modelled: a field is an integer, a real, or text that is neither. */
module Streams {

  /** One field of a line. `OtherText` is a field that no number parser
      accepts. */
  datatype Token = IntText(i: int) | RealText(x: real) | OtherText

  /** A line of text, as its fields. */
  type Line = seq<Token>

  /** What an output stream receives: a field, or the end of the line. */
  datatype Item = Put(t: Token) | EndLine

  /** Reals written one field each. */
  function RealTexts(xs: seq<real>): (l: Line)
    ensures |l| == |xs|
    ensures forall i :: 0 <= i < |xs| ==> l[i] == RealText(xs[i])
  {
    seq(|xs|, i requires 0 <= i < |xs| => RealText(xs[i]))
  }

  /** Fields written onto the current line. */
  function Puts(l: Line): (s: seq<Item>)
    ensures |s| == |l|
    ensures forall i :: 0 <= i < |l| ==> s[i] == Put(l[i])
  {
    seq(|l|, i requires 0 <= i < |l| => Put(l[i]))
  }

  /** Writing two runs of fields is writing them together. */
  lemma PutsAppend(a: Line, b: Line)
    ensures Puts(a + b) == Puts(a) + Puts(b)
  {
  }

  /** The fields of items that end no line. */
  function Fields(s: seq<Item>): (l: Line)
    requires forall i :: 0 <= i < |s| ==> s[i].Put?
    ensures |l| == |s|
    ensures forall i :: 0 <= i < |s| ==> l[i] == s[i].t
    ensures Puts(l) == s
  {
    seq(|s|, i requires 0 <= i < |s| => s[i].t)
  }

  /** Whole lines written one after the other. */
  function WriteLines(ls: seq<Line>): seq<Item>
  {
    if ls == [] then [] else Puts(ls[0]) + [EndLine] + WriteLines(ls[1..])
  }

  /** Index of the first end of line in `s`, or `|s|` when there is none. */
  function LineEnd(s: seq<Item>): (k: nat)
    ensures k <= |s|
    ensures k < |s| ==> s[k] == EndLine
    ensures forall i :: 0 <= i < k ==> s[i].Put?
  {
    if s == [] || s[0] == EndLine then 0 else 1 + LineEnd(s[1..])
  }

  /** The lines a reader sees in a stream: every end of line closes one, and
      fields after the last end of line form a last, unterminated one. */
  function Lines(s: seq<Item>): seq<Line>
    decreases |s|
  {
    if s == [] then []
    else
      var k := LineEnd(s);
      [Fields(s[..k])] + (if k < |s| then Lines(s[k + 1..]) else [])
  }

  /** Reading back what was written line by line gives those lines. */
  lemma {:induction false} ReadWrittenLines(ls: seq<Line>)
    ensures Lines(WriteLines(ls)) == ls
  {
    if ls != [] {
      ReadFirstLine(ls[0], WriteLines(ls[1..]));
      ReadWrittenLines(ls[1..]);
    }
  }

  /** The first line read back is the first line written. */
  lemma ReadFirstLine(l: Line, rest: seq<Item>)
    ensures Lines(Puts(l) + [EndLine] + rest) == [l] + Lines(rest)
  {
    var s := Puts(l) + [EndLine] + rest;
    FirstLineEnd(l, rest);
    assert s[..|l|] == Puts(l);
    assert Fields(s[..|l|]) == l;
    assert s[|l| + 1..] == rest;
  }

  /** A written line ends where its end-of-line item is. */
  lemma {:induction false} FirstLineEnd(l: Line, rest: seq<Item>)
    ensures LineEnd(Puts(l) + [EndLine] + rest) == |l|
  {
    var s := Puts(l) + [EndLine] + rest;
    if l != [] {
      assert s[0] == Put(l[0]);
      assert s[1..] == Puts(l[1..]) + [EndLine] + rest;
      FirstLineEnd(l[1..], rest);
    }
  }

  /** Writing lines one after another is writing them all at once. */
  lemma {:induction false} WriteLinesAppend(ls: seq<Line>, l: Line)
    ensures WriteLines(ls + [l]) == WriteLines(ls) + Puts(l) + [EndLine]
  {
    if ls == [] {
      assert [l][1..] == [];
    } else {
      assert (ls + [l])[1..] == ls[1..] + [l];
      WriteLinesAppend(ls[1..], l);
    }
  }
}
