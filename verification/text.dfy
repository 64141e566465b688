/** The text layer of the loader: a member file is read as bytes and split
    into physical lines the way iterating a binary file object splits it
    (each line keeps its trailing LF), and a decoded line is trimmed with
    Python's `str.strip()`. */
module Text {

  newtype byte = b: int | 0 <= b < 0x100

  const Newline: byte := 10

  // ------------------------------------------------------------ physical lines

  function Flatten(ls: seq<seq<byte>>): seq<byte>
  {
    if |ls| == 0 then [] else ls[0] + Flatten(ls[1..])
  }

  /** `ls` is a split into physical lines: no line is empty, LF occurs in a
      line only as its last byte, and every line but the last ends in LF. */
  ghost predicate PhysicalLines(ls: seq<seq<byte>>)
  {
    && (forall i :: 0 <= i < |ls| ==> |ls[i]| > 0)
    && (forall i, j :: 0 <= i < |ls| && 0 <= j < |ls[i]| - 1 ==> ls[i][j] != Newline)
    && (forall i :: 0 <= i < |ls| - 1 ==> ls[i][|ls[i]| - 1] == Newline)
  }

  /** The length of the first physical line of `d`: up to and including the
      first LF, or all of `d` when it has none. */
  function LineEnd(d: seq<byte>): (k: nat)
    requires |d| > 0
    ensures 0 < k <= |d|
    ensures forall j :: 0 <= j < k - 1 ==> d[j] != Newline
    ensures k < |d| ==> d[k - 1] == Newline
    decreases |d|
  {
    if d[0] == Newline || |d| == 1 then 1 else 1 + LineEnd(d[1..])
  }

  /** The physical lines of a member file, in order. */
  function SplitLines(d: seq<byte>): (ls: seq<seq<byte>>)
    ensures Flatten(ls) == d
    ensures PhysicalLines(ls)
    decreases |d|
  {
    if |d| == 0 then []
    else
      var k := LineEnd(d);
      var rest := SplitLines(d[k..]);
      assert d[..k] + d[k..] == d;
      [d[..k]] + rest
  }

  /** The first physical line of `first + rest` is `first` when `first`
      holds no LF before its last byte and either ends in LF or is all
      there is. */
  lemma {:induction false} LineEndOf(first: seq<byte>, rest: seq<byte>)
    requires |first| > 0
    requires forall j :: 0 <= j < |first| - 1 ==> first[j] != Newline
    requires first[|first| - 1] == Newline || rest == []
    ensures LineEnd(first + rest) == |first|
    decreases |first|
  {
    var d := first + rest;
    if |first| > 1 {
      assert d[0] == first[0] != Newline;
      assert d[1..] == first[1..] + rest;
      LineEndOf(first[1..], rest);
    }
  }

  /** Splitting is the only way to cut a file into physical lines: any such
      cut is what `SplitLines` returns for the joined bytes. */
  lemma {:induction false} SplitLinesUnique(ls: seq<seq<byte>>)
    requires PhysicalLines(ls)
    ensures SplitLines(Flatten(ls)) == ls
    decreases |ls|
  {
    if |ls| > 0 {
      var first, rest := ls[0], Flatten(ls[1..]);
      var d := Flatten(ls);
      assert d == first + rest;
      assert |ls| == 1 ==> rest == [];
      LineEndOf(first, rest);
      assert d[..|first|] == first;
      assert d[|first|..] == rest;
      assert PhysicalLines(ls[1..]) by {
        forall i | 0 <= i < |ls| - 1
          ensures ls[1..][i] == ls[i + 1]
        {
        }
      }
      SplitLinesUnique(ls[1..]);
      assert [first] + ls[1..] == ls;
    }
  }

  // ------------------------------------------------------------- str.strip()

  /** The characters Python's `str.isspace()` accepts, which `str.strip()`
      with no argument removes. */
  predicate IsSpace(c: char)
  {
    var n := c as int;
    || (0x09 <= n <= 0x0D) || (0x1C <= n <= 0x20) || n == 0x85 || n == 0xA0
    || n == 0x1680 || (0x2000 <= n <= 0x200A) || n == 0x2028 || n == 0x2029
    || n == 0x202F || n == 0x205F || n == 0x3000
  }

  /** Among ASCII characters, whitespace is exactly tab, LF, vertical tab,
      form feed, CR, the four separators 0x1C..0x1F and the space; LF and CR
      are among them, so the line terminator a physical line keeps is
      stripped with it. */
  lemma AsciiSpace(c: char)
    requires c as int < 0x80
    ensures IsSpace(c) <==> c as int in {0x09, 0x0A, 0x0B, 0x0C, 0x0D, 0x1C, 0x1D, 0x1E, 0x1F, 0x20}
  {
  }

  ghost predicate AllSpace(s: string)
  {
    forall i :: 0 <= i < |s| ==> IsSpace(s[i])
  }

  /** Whitespace fills `s[lo..hi]`. */
  ghost predicate SpaceIn(s: string, lo: int, hi: int)
  {
    forall i :: lo <= i < hi && 0 <= i < |s| ==> IsSpace(s[i])
  }

  /** The length of the whitespace prefix of `s`. */
  function LeadingSpace(s: string): (n: nat)
    ensures n <= |s|
    ensures SpaceIn(s, 0, n)
    ensures n < |s| ==> !IsSpace(s[n])
    decreases |s|
  {
    if |s| == 0 || !IsSpace(s[0]) then 0
    else
      var n := 1 + LeadingSpace(s[1..]);
      assert forall i :: 1 <= i < n ==> s[i] == s[1..][i - 1];
      n
  }

  /** The length of the whitespace suffix of `s`. */
  function TrailingSpace(s: string): (n: nat)
    ensures n <= |s|
    ensures SpaceIn(s, |s| - n, |s|)
    ensures n < |s| ==> !IsSpace(s[|s| - n - 1])
    decreases |s|
  {
    if |s| == 0 || !IsSpace(s[|s| - 1]) then 0
    else 1 + TrailingSpace(s[..|s| - 1])
  }

  /** `str.strip()`: the infix left after removing leading and trailing
      whitespace. */
  function Strip(s: string): (r: string)
    ensures exists a :: 0 <= a <= a + |r| <= |s| && r == s[a..a + |r|]
                        && SpaceIn(s, 0, a) && SpaceIn(s, a + |r|, |s|)
    ensures |r| > 0 ==> !IsSpace(r[0]) && !IsSpace(r[|r| - 1])
    ensures |r| == 0 <==> AllSpace(s)
  {
    var a := LeadingSpace(s);
    var t := s[a..];
    var b := TrailingSpace(t);
    var r := t[..|t| - b];
    assert r == s[a..a + |r|];
    assert SpaceIn(s, a + |r|, |s|) by {
      forall i | a + |r| <= i < |s|
        ensures IsSpace(s[i])
      {
        assert s[i] == t[i - a];
      }
    }
    assert |r| == 0 ==> AllSpace(s);
    assert AllSpace(s) ==> a == |s|;
    assert |r| > 0 ==> r[0] == s[a] && r[|r| - 1] == t[|t| - b - 1];
    r
  }

  lemma {:induction false} LeadingSpaceOf(p: string, rest: string)
    requires AllSpace(p)
    requires |rest| > 0 ==> !IsSpace(rest[0])
    ensures LeadingSpace(p + rest) == |p|
    decreases |p|
  {
    if |p| > 0 {
      assert (p + rest)[1..] == p[1..] + rest;
      LeadingSpaceOf(p[1..], rest);
    }
  }

  lemma {:induction false} TrailingSpaceOf(rest: string, q: string)
    requires AllSpace(q)
    requires |rest| > 0 ==> !IsSpace(rest[|rest| - 1])
    ensures TrailingSpace(rest + q) == |q|
    decreases |q|
  {
    if |q| > 0 {
      var s := rest + q;
      assert s[..|s| - 1] == rest + q[..|q| - 1];
      TrailingSpaceOf(rest, q[..|q| - 1]);
    }
  }

  /** `Strip` is characterised by its result alone: whatever whitespace
      surrounds an infix that neither starts nor ends with whitespace,
      stripping gives back that infix. */
  lemma StripUnique(p: string, m: string, q: string)
    requires AllSpace(p) && AllSpace(q)
    requires |m| > 0 ==> !IsSpace(m[0]) && !IsSpace(m[|m| - 1])
    ensures Strip(p + m + q) == m
  {
    var s := p + m + q;
    if |m| == 0 {
      assert s == p + q;
      assert AllSpace(s) by {
        forall i | 0 <= i < |s| ensures IsSpace(s[i]) {
          if i < |p| { assert s[i] == p[i]; } else { assert s[i] == q[i - |p|]; }
        }
      }
    } else {
      assert s == p + (m + q);
      LeadingSpaceOf(p, m + q);
      assert s[|p|..] == m + q;
      TrailingSpaceOf(m, q);
    }
  }
}
