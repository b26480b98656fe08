/** A byte stream read line by line, as `bufio.Reader.ReadBytes('\n')` does,
    and the substring test `bytes.Contains`. A stream is the bytes its
    reader delivers, how it ends (end of file or a read error) and what its
    `Close` returns. */
module LineReader {
  import opened Failure

  newtype byte = x: int | 0 <= x < 256

  const Newline: byte := 10

  /** How a stream ends once its bytes are exhausted: `io.EOF`, or another read error. */
  datatype Termination = Eof | Broken(failure: Failure)

  datatype Stream = Stream(data: seq<byte>, end: Termination, closeResult: Outcome)

  /** What one `ReadBytes('\n')` call returns: the bytes read, the reader's
      new position, and the error (None for a nil error). */
  datatype Read = Read(line: seq<byte>, next: nat, err: Option<Termination>)

  predicate NoNewline(s: seq<byte>) { forall i :: 0 <= i < |s| ==> s[i] != Newline }

  /** A complete line: ends with the delimiter and holds no other. */
  predicate IsLine(l: seq<byte>) { |l| > 0 && l[|l| - 1] == Newline && NoNewline(l[..|l| - 1]) }

  predicate AllLines(ls: seq<seq<byte>>) { forall i :: 0 <= i < |ls| ==> IsLine(ls[i]) }

  function Concat(ls: seq<seq<byte>>): seq<byte>
  {
    if ls == [] then [] else Concat(ls[..|ls| - 1]) + ls[|ls| - 1]
  }

  lemma ConcatAppend(ls: seq<seq<byte>>, l: seq<byte>)
    ensures Concat(ls + [l]) == Concat(ls) + l
  {
    assert (ls + [l])[..|ls|] == ls;
  }

  /** The position of the first delimiter at or after `from`, if any. */
  function IndexOfNewline(data: seq<byte>, from: nat): (r: Option<nat>)
    requires from <= |data|
    ensures r.Some? ==> from <= r.value < |data| && data[r.value] == Newline && NoNewline(data[from..r.value])
    ensures r.None? ==> NoNewline(data[from..])
    decreases |data| - from
  {
    if from == |data| then None
    else if data[from] == Newline then Some(from)
    else IndexOfNewline(data, from + 1)
  }

  /** One `ReadBytes('\n')` at position `pos`: up to and including the next
      delimiter with a nil error, or, when no delimiter is left, everything
      that remains together with the error that ends the stream. */
  function ReadBytes(s: Stream, pos: nat): (r: Read)
    requires pos <= |s.data|
    ensures pos <= r.next <= |s.data| && r.line == s.data[pos..r.next]
    ensures r.err.None? ==> IsLine(r.line)
    ensures r.err.Some? ==> r.err.value == s.end && r.next == |s.data| && NoNewline(r.line)
  {
    match IndexOfNewline(s.data, pos)
    case Some(i) =>
      assert s.data[pos..i + 1][..i - pos] == s.data[pos..i];
      Read(s.data[pos..i + 1], i + 1, None)
    case None => Read(s.data[pos..], |s.data|, Some(s.end))
  }

  /** A stream's bytes cut into its complete lines and the fragment after the last delimiter. */
  datatype Split = Split(lines: seq<seq<byte>>, fragment: seq<byte>)

  predicate Decomposes(data: seq<byte>, lines: seq<seq<byte>>, fragment: seq<byte>)
  {
    AllLines(lines) && NoNewline(fragment) && Concat(lines) + fragment == data
  }

  /** Cuts `data` into lines byte by byte, from the back: the reference
      definition of what line-by-line reading must see. */
  function SplitLines(data: seq<byte>): (r: Split)
    ensures Decomposes(data, r.lines, r.fragment)
  {
    if data == [] then Split([], [])
    else
      var r := SplitLines(data[..|data| - 1]);
      var b := data[|data| - 1];
      if b == Newline then
        EndLine(data, r.lines, r.fragment);
        Split(r.lines + [r.fragment + [b]], [])
      else
        ExtendFragment(data, r.lines, r.fragment);
        Split(r.lines, r.fragment + [b])
  }

  /** A newline ends the fragment, which becomes a complete line. */
  lemma EndLine(data: seq<byte>, lines: seq<seq<byte>>, fragment: seq<byte>)
    requires data != [] && data[|data| - 1] == Newline
    requires Decomposes(data[..|data| - 1], lines, fragment)
    ensures Decomposes(data, lines + [fragment + [Newline]], [])
  {
    var l := fragment + [Newline];
    assert l[..|l| - 1] == fragment;
    ConcatAppend(lines, l);
    AllLinesJoin(lines, [l]);
    assert data == data[..|data| - 1] + [Newline];
  }

  /** Any other byte extends the fragment. */
  lemma ExtendFragment(data: seq<byte>, lines: seq<seq<byte>>, fragment: seq<byte>)
    requires data != [] && data[|data| - 1] != Newline
    requires Decomposes(data[..|data| - 1], lines, fragment)
    ensures Decomposes(data, lines, fragment + [data[|data| - 1]])
  {
    assert data == data[..|data| - 1] + [data[|data| - 1]];
  }

  /** Only one way of cutting bytes into complete lines and a fragment exists. */
  lemma {:induction false} DecompositionUnique(data: seq<byte>, lines1: seq<seq<byte>>, frag1: seq<byte>,
                                               lines2: seq<seq<byte>>, frag2: seq<byte>)
    requires Decomposes(data, lines1, frag1) && Decomposes(data, lines2, frag2)
    ensures lines1 == lines2 && frag1 == frag2
    decreases |lines1|
  {
    if lines1 == [] && lines2 == [] {
      assert data == frag1 && data == frag2;
    } else if lines1 == [] {
      FirstLine(data, lines2, frag2);
      assert false;
    } else if lines2 == [] {
      FirstLine(data, lines1, frag1);
      assert false;
    } else {
      FirstLine(data, lines1, frag1);
      FirstLine(data, lines2, frag2);
      var a, b := lines1[0], lines2[0];
      if |a| != |b| {
        assert false;
      }
      assert a == b;
      DecompositionUnique(data[|a|..], lines1[1..], frag1, lines2[1..], frag2);
      assert lines1 == [a] + lines1[1..];
      assert lines2 == [b] + lines2[1..];
    }
  }

  /** The first complete line of a decomposition is a prefix of the bytes, and the rest decomposes the remainder. */
  lemma {:induction false} FirstLine(data: seq<byte>, lines: seq<seq<byte>>, frag: seq<byte>)
    requires Decomposes(data, lines, frag) && lines != []
    ensures |lines[0]| <= |data| && data[..|lines[0]|] == lines[0]
    ensures Decomposes(data[|lines[0]|..], lines[1..], frag)
    decreases |lines|
  {
    ConcatFront(lines);
    assert data == lines[0] + (Concat(lines[1..]) + frag);
  }

  lemma {:induction false} ConcatFront(ls: seq<seq<byte>>)
    requires ls != []
    ensures Concat(ls) == ls[0] + Concat(ls[1..])
    decreases |ls|
  {
    if |ls| > 1 {
      ConcatFront(ls[..|ls| - 1]);
      assert ls[..|ls| - 1][1..] == ls[1..][..|ls| - 2];
    } else {
      assert ls[..0] == [];
    }
  }

  /** Every decomposition of the bytes is the one SplitLines gives. */
  lemma SplitLinesUnique(data: seq<byte>, lines: seq<seq<byte>>, frag: seq<byte>)
    requires Decomposes(data, lines, frag)
    ensures SplitLines(data) == Split(lines, frag)
  {
    var r := SplitLines(data);
    DecompositionUnique(data, lines, frag, r.lines, r.fragment);
  }

  lemma {:induction false} ConcatJoin(xs: seq<seq<byte>>, ys: seq<seq<byte>>)
    ensures Concat(xs + ys) == Concat(xs) + Concat(ys)
    decreases |ys|
  {
    if ys == [] {
      assert xs + ys == xs;
    } else {
      var init, last := ys[..|ys| - 1], ys[|ys| - 1];
      ConcatJoin(xs, init);
      assert (xs + ys)[..|xs + ys| - 1] == xs + init;
      assert Concat(xs + ys) == Concat(xs + init) + last;
      assert Concat(ys) == Concat(init) + last;
    }
  }

  lemma AllLinesJoin(xs: seq<seq<byte>>, ys: seq<seq<byte>>)
    requires AllLines(xs) && AllLines(ys)
    ensures AllLines(xs + ys)
  {
    forall i | 0 <= i < |xs + ys| ensures IsLine((xs + ys)[i]) {
      if i < |xs| { assert (xs + ys)[i] == xs[i]; } else { assert (xs + ys)[i] == ys[i - |xs|]; }
    }
  }

  lemma TakeOfJoin<T>(xs: seq<T>, ys: seq<T>)
    ensures (xs + ys)[..|xs|] == xs
    ensures forall j :: 0 <= j < |xs| ==> (xs + ys)[j] == xs[j]
  {
    assert (xs + ys)[..|xs|] == xs;
  }

  /** Complete lines already read from the front of the bytes are the first
      lines of their split, and the rest of the split is that of the remainder. */
  lemma SplitAfterPrefix(data: seq<byte>, seen: seq<seq<byte>>, pos: nat)
    requires pos <= |data| && AllLines(seen) && Concat(seen) == data[..pos]
    ensures var rest := SplitLines(data[pos..]);
            SplitLines(data) == Split(seen + rest.lines, rest.fragment)
  {
    var rest := SplitLines(data[pos..]);
    AllLinesJoin(seen, rest.lines);
    ConcatAtPrefix(data, pos, seen, rest.lines, rest.fragment);
    SplitLinesUnique(data, seen + rest.lines, rest.fragment);
  }

  lemma ConcatAtPrefix(data: seq<byte>, pos: nat, seen: seq<seq<byte>>, more: seq<seq<byte>>, frag: seq<byte>)
    requires pos <= |data| && Concat(seen) == data[..pos] && Concat(more) + frag == data[pos..]
    ensures Concat(seen + more) + frag == data
  {
    ConcatJoin(seen, more);
    assert data == data[..pos] + data[pos..];
  }

  ghost predicate OccursAt(hay: seq<byte>, needle: seq<byte>, i: int)
  {
    0 <= i && i + |needle| <= |hay| && hay[i..i + |needle|] == needle
  }

  /** `bytes.Contains`: whether `needle` occurs in `hay`, tried at each offset from the front. */
  function Contains(hay: seq<byte>, needle: seq<byte>): bool
    decreases |hay|
  {
    if |hay| < |needle| then false
    else if hay[..|needle|] == needle then true
    else Contains(hay[1..], needle)
  }

  /** `Contains` holds exactly when the needle occurs at some offset of the hay. */
  lemma {:induction false} ContainsIffOccurs(hay: seq<byte>, needle: seq<byte>)
    ensures Contains(hay, needle) <==> exists i :: OccursAt(hay, needle, i)
    decreases |hay|
  {
    if |hay| < |needle| {
      assert forall i :: !OccursAt(hay, needle, i);
    } else if hay[..|needle|] == needle {
      assert OccursAt(hay, needle, 0);
    } else {
      ContainsIffOccurs(hay[1..], needle);
      forall i | OccursAt(hay[1..], needle, i)
        ensures OccursAt(hay, needle, i + 1)
      {
        assert hay[1..][i..i + |needle|] == hay[i + 1..i + 1 + |needle|];
      }
      forall i | OccursAt(hay, needle, i)
        ensures OccursAt(hay[1..], needle, i - 1)
      {
        assert i != 0;
        assert hay[1..][i - 1..i - 1 + |needle|] == hay[i..i + |needle|];
      }
    }
  }
}
