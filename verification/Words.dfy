/** Splitting text into words and into lines, and why the two agree. */
module Words {
  import opened Text

  /** Length of the leading run without whitespace. */
  function WordLength(s: string): (n: nat)
    ensures n <= |s| && (n < |s| ==> IsSpace(s[n]))
    ensures forall i :: 0 <= i < n ==> !IsSpace(s[i])
  {
    if s == [] || IsSpace(s[0]) then 0 else 1 + WordLength(s[1..])
  }

  predicate IsWord(w: string) {
    w != [] && WordLength(w) == |w|
  }

  /** `s.split()` */
  function WordsOf(s: string): (ws: seq<string>)
    ensures forall i :: 0 <= i < |ws| ==> IsWord(ws[i])
    decreases |s|
  {
    if s == [] then []
    else if IsSpace(s[0]) then WordsOf(s[1..])
    else
      var n := WordLength(s);
      WordPrefix(s);
      [s[..n]] + WordsOf(s[n..])
  }

  lemma {:induction false} WordPrefix(s: string)
    ensures WordLength(s[..WordLength(s)]) == WordLength(s)
    decreases |s|
  {
    if WordLength(s) > 0 {
      WordPrefix(s[1..]);
      assert s[..WordLength(s)][1..] == s[1..][..WordLength(s[1..])];
    }
  }

  /** A space between two texts keeps their words apart. */
  lemma {:induction false} WordsOfConcat(a: string, b: string)
    requires b == [] || IsSpace(b[0])
    ensures WordsOf(a + b) == WordsOf(a) + WordsOf(b)
    decreases |a|
  {
    hide WordsOf, WordLength, IsSpace;
    if a == [] {
      assert a + b == b;
      NoWords();
    } else if IsSpace(a[0]) {
      SpaceSkipped(a);
      SpaceSkipped(a + b);
      assert (a + b)[1..] == a[1..] + b;
      WordsOfConcat(a[1..], b);
    } else {
      var n := WordLength(a);
      FirstWord(a);
      FirstWord(a + b);
      WordLengthOfConcat(a, b);
      CutWithin(a, b, n);
      WordsOfConcat(a[n..], b);
      assert [a[..n]] + (WordsOf(a[n..]) + WordsOf(b)) == ([a[..n]] + WordsOf(a[n..])) + WordsOf(b);
    }
  }

  lemma NoWords()
    ensures WordsOf("") == []
  {}

  lemma SpaceSkipped(s: string)
    requires s != [] && IsSpace(s[0])
    ensures WordsOf(s) == WordsOf(s[1..])
  {}

  lemma FirstWord(s: string)
    requires s != [] && !IsSpace(s[0])
    ensures var n := WordLength(s); 1 <= n <= |s| && WordsOf(s) == [s[..n]] + WordsOf(s[n..])
  {}

  lemma CutWithin(a: string, b: string, n: nat)
    requires n <= |a|
    ensures (a + b)[..n] == a[..n] && (a + b)[n..] == a[n..] + b
  {}

  lemma {:induction false} WordLengthOfConcat(a: string, b: string)
    requires b == [] || IsSpace(b[0])
    ensures WordLength(a + b) == WordLength(a)
    decreases |a|
  {
    if a == [] {
      assert a + b == b;
    } else if !IsSpace(a[0]) {
      assert (a + b)[1..] == a[1..] + b;
      WordLengthOfConcat(a[1..], b);
    }
  }

  // ----- lines -----

  /** The text up to its first line break. */
  function FirstLine(s: string): (line: string)
    ensures line <= s && (|line| < |s| ==> IsLineBreak(s[|line|]))
    ensures forall i :: 0 <= i < |line| ==> !IsLineBreak(line[i])
  {
    if s == [] || IsLineBreak(s[0]) then [] else [s[0]] + FirstLine(s[1..])
  }

  /** The boundary at the start: a carriage return and line feed count as one. */
  function FirstBreak(s: string): (b: string)
    ensures b <= s && (b == "" <==> s == "")
  {
    if s == [] then [] else if |s| >= 2 && s[0] == '\r' && s[1] == '\n' then s[..2] else s[..1]
  }

  /** The boundary behind the first line, and the text behind that boundary. */
  function Boundary(s: string): (b: string)
    ensures FirstLine(s) + b <= s && (b == "" <==> FirstLine(s) == s)
  {
    var b := FirstBreak(s[|FirstLine(s)|..]);
    Glue(FirstLine(s), s[|FirstLine(s)|..], b);
    b
  }

  function Behind(s: string): (r: string)
    ensures s == FirstLine(s) + Boundary(s) + r && (s != "" ==> |r| < |s|)
  {
    s[|FirstLine(s) + Boundary(s)|..]
  }

  lemma Glue(a: string, b: string, c: string)
    requires c <= b
    ensures a + c <= a + b
  {}

  /** `s.splitlines()` */
  function LinesOf(s: string): seq<string>
    decreases |s|
  {
    if s == [] then [] else [FirstLine(s)] + LinesOf(Behind(s))
  }

  // ----- what a split into lines is -----

  /** A boundary: one line break, or a carriage return with its line feed. */
  predicate IsBoundary(b: string) {
    b == "\r\n" || (|b| == 1 && IsLineBreak(b[0]))
  }

  /** A carriage return and the line feed of one boundary. */
  predicate Torn(before: string, after: string) {
    before != "" && after != "" && before[|before| - 1] == '\r' && after[0] == '\n'
  }

  /** The text is these lines, none with a line break in it, with one of these boundaries after each, the last perhaps
      without; no boundary is a carriage return that its line feed follows, and no empty line follows the last one. */
  predicate SplitsInto(s: string, lines: seq<string>, boundaries: seq<string>)
    decreases |lines|
  {
    if lines == [] then s == "" && boundaries == []
    else
      && (forall i :: 0 <= i < |lines[0]| ==> !IsLineBreak(lines[0][i]))
      && if boundaries == [] then lines == [s] && s != ""
         else
           && IsBoundary(boundaries[0]) && lines[0] + boundaries[0] <= s
           && !Torn(boundaries[0], s[|lines[0] + boundaries[0]|..])
           && SplitsInto(s[|lines[0] + boundaries[0]|..], lines[1..], boundaries[1..])
  }

  function BoundariesOf(s: string): seq<string>
    decreases |s|
  {
    if FirstLine(s) == s then [] else [Boundary(s)] + BoundariesOf(Behind(s))
  }

  /** `LinesOf` splits every text, */
  lemma {:induction false} LinesSplit(s: string)
    ensures SplitsInto(s, LinesOf(s), BoundariesOf(s))
    decreases |s|
  {
    if s != [] {
      if FirstLine(s) == s {
        assert Behind(s) == "";
      } else {
        BoundaryShape(s);
        assert s[|FirstLine(s) + Boundary(s)|..] == Behind(s);
        LinesSplit(Behind(s));
      }
    }
  }

  lemma BoundaryShape(s: string)
    requires FirstLine(s) != s
    ensures IsBoundary(Boundary(s)) && !Torn(Boundary(s), Behind(s))
  {
    var n, b := |FirstLine(s)|, Boundary(s);
    var rest := s[n..];
    assert b == FirstBreak(rest) && b[0] == rest[0] == s[n];
    assert |b| == 1 ==> Behind(s) == rest[1..];
    assert |b| == 2 ==> b == "\r\n";
  }

  /** and there is no other way to split it. */
  lemma {:induction false} OnlyOneSplit(s: string, lines: seq<string>, boundaries: seq<string>)
    requires SplitsInto(s, lines, boundaries)
    ensures lines == LinesOf(s) && boundaries == BoundariesOf(s)
    decreases |lines|
  {
    if lines != [] {
      if boundaries == [] {
        assert lines[0] == s;
        NoBreakNoBoundary(s);
      } else {
        var tail := s[|lines[0] + boundaries[0]|..];
        OnlyOneCut(s, lines[0], boundaries[0], tail);
        OnlyOneSplit(tail, lines[1..], boundaries[1..]);
        assert lines == [lines[0]] + lines[1..] && boundaries == [boundaries[0]] + boundaries[1..];
      }
    }
  }

  lemma NoBreakNoBoundary(s: string)
    requires s != "" && forall i :: 0 <= i < |s| ==> !IsLineBreak(s[i])
    ensures LinesOf(s) == [s] && BoundariesOf(s) == []
  {
    assert |FirstLine(s)| == |s| && FirstLine(s) == s && Behind(s) == "";
  }

  lemma OnlyOneCut(s: string, line: string, boundary: string, tail: string)
    requires s == line + boundary + tail && IsBoundary(boundary) && !Torn(boundary, tail)
    requires forall i :: 0 <= i < |line| ==> !IsLineBreak(line[i])
    ensures FirstLine(s) == line != s && Boundary(s) == boundary && Behind(s) == tail
  {
    var rest := boundary + tail;
    assert s == line + rest && FirstBreak(rest) == boundary;
    FirstLineEnds(line, rest);
    assert s[|line|..] == rest && (line + boundary) + tail == s;
  }

  lemma {:induction false} FirstLineEnds(line: string, rest: string)
    requires rest != "" && IsLineBreak(rest[0])
    requires forall i :: 0 <= i < |line| ==> !IsLineBreak(line[i])
    ensures FirstLine(line + rest) == line
  {
    if line != "" {
      FirstLineEnds(line[1..], rest);
      assert (line + rest)[1..] == line[1..] + rest && [line[0]] + line[1..] == line;
    }
  }

  // ----- where a word stands -----

  /** The position of word `j` in the text. */
  function WordStart(s: string, j: nat): (p: nat)
    requires j < |WordsOf(s)|
    ensures p < |s|
    decreases |s|
  {
    if IsSpace(s[0]) then 1 + WordStart(s[1..], j)
    else if j == 0 then 0
    else WordLength(s) + WordStart(s[WordLength(s)..], j - 1)
  }

  /** It stands there, between spaces or the ends of the text. */
  lemma {:induction false} WordStandsThere(s: string, j: nat)
    requires j < |WordsOf(s)|
    ensures StandsAt(s, WordStart(s, j), WordsOf(s)[j])
    decreases |s|
  {
    hide StandsAt, IsSpace;
    if IsSpace(s[0]) {
      WordStandsThere(s[1..], j);
      StandsBehind(s, 1, WordStart(s[1..], j), WordsOf(s)[j]);
    } else if j > 0 {
      var n := WordLength(s);
      WordStandsThere(s[n..], j - 1);
      StandsBehind(s, n, WordStart(s[n..], j - 1), WordsOf(s)[j]);
    } else {
      FirstStands(s);
    }
  }

  lemma FirstStands(s: string)
    requires s != "" && !IsSpace(s[0])
    ensures StandsAt(s, 0, s[..WordLength(s)])
  {}

  predicate StandsAt(s: string, p: nat, w: string) {
    && w != "" && p + |w| <= |s| && s[p..p + |w|] == w
    && (p > 0 ==> IsSpace(s[p - 1])) && (p + |w| < |s| ==> IsSpace(s[p + |w|]))
  }

  lemma StandsBehind(s: string, n: nat, p: nat, w: string)
    requires 0 < n <= |s| && StandsAt(s[n..], p, w) && (IsSpace(s[n - 1]) || (n < |s| && IsSpace(s[n])))
    requires IsWord(w)
    ensures StandsAt(s, n + p, w)
  {
    assert s[n..][p..p + |w|] == s[n + p..n + p + |w|];
    assert s[n + p] == w[0];
  }

  lemma {:induction false} WordStartOfConcat(a: string, b: string, j: nat)
    requires b == [] || IsSpace(b[0])
    requires j < |WordsOf(a)| + |WordsOf(b)|
    ensures j < |WordsOf(a + b)|
    ensures WordStart(a + b, j) == if j < |WordsOf(a)| then WordStart(a, j) else |a| + WordStart(b, j - |WordsOf(a)|)
    decreases |a|
  {
    hide IsSpace;
    WordsOfConcat(a, b);
    if a == [] {
      assert a + b == b;
    } else if IsSpace(a[0]) {
      assert (a + b)[1..] == a[1..] + b;
      WordStartOfConcat(a[1..], b, j);
    } else if j > 0 {
      var n := WordLength(a);
      WordLengthOfConcat(a, b);
      CutWithin(a, b, n);
      WordStartOfConcat(a[n..], b, j - 1);
    }
  }

  /** Spaces in front of a text move its words. */
  lemma {:induction false} WordStartBehindSpaces(gap: string, s: string)
    requires Blank(gap)
    ensures WordsOf(gap + s) == WordsOf(s)
    ensures forall j :: 0 <= j < |WordsOf(s)| ==> WordStart(gap + s, j) == |gap| + WordStart(s, j)
    decreases |gap|
  {
    if gap == "" {
      assert gap + s == s;
    } else {
      WordStartBehindSpaces(gap[1..], s);
      assert (gap + s)[1..] == gap[1..] + s;
    }
  }

  // ----- counting boundaries -----

  /** The number of boundaries in a text: its line breaks, a line feed right after a carriage return not counted. */
  function Boundaries(s: string): nat {
    if s == [] then 0
    else
      var n := |s| - 1;
      Boundaries(s[..n]) + if IsLineBreak(s[n]) && !(s[n] == '\n' && n > 0 && s[n - 1] == '\r') then 1 else 0
  }

  lemma {:induction false} BoundariesOfConcat(a: string, b: string)
    requires !Torn(a, b)
    ensures Boundaries(a + b) == Boundaries(a) + Boundaries(b)
    decreases |b|
  {
    if b == [] {
      assert a + b == a;
    } else {
      var n := |b| - 1;
      BoundariesOfConcat(a, b[..n]);
      assert (a + b)[..|a| + n] == a + b[..n];
    }
  }

  lemma {:induction false} NoBoundaries(s: string)
    requires forall i :: 0 <= i < |s| ==> !IsLineBreak(s[i])
    ensures Boundaries(s) == 0
  {
    if s != [] {
      NoBoundaries(s[..|s| - 1]);
    }
  }

  lemma OneBoundary(boundary: string)
    requires IsBoundary(boundary)
    ensures Boundaries(boundary) == 1
  {
    assert boundary[..0] == [];
    if |boundary| == 2 {
      assert boundary[..1] == ['\r'] && boundary[..1][..0] == [];
      assert Boundaries(['\r']) == 1;
    }
  }

  /** A line, its boundary and more text: one boundary more than in that text. */
  lemma LineCounts(line: string, boundary: string, more: string)
    requires forall i :: 0 <= i < |line| ==> !IsLineBreak(line[i])
    requires IsBoundary(boundary) && !Torn(boundary, more)
    ensures Boundaries(line + boundary + more) == 1 + Boundaries(more)
  {
    NoBoundaries(line);
    OneBoundary(boundary);
    assert line != "" ==> !IsLineBreak(line[|line| - 1]);
    BoundariesOfConcat(line, boundary);
    BoundariesOfConcat(line + boundary, more);
  }

  /** The number of words in the first `n` lines. */
  function Offset(lines: seq<string>, n: nat): nat
    requires n <= |lines|
  {
    if n == 0 then 0 else Offset(lines, n - 1) + |WordsOf(lines[n - 1])|
  }

  function WordsOfLines(lines: seq<string>): seq<string> {
    if lines == [] then [] else WordsOf(lines[0]) + WordsOfLines(lines[1..])
  }

  /** The words of a text: those of its first line, then those behind its boundary, each moved by as much. */
  lemma WordsByLine(s: string)
    requires s != ""
    ensures WordsOf(s) == WordsOf(FirstLine(s)) + WordsOf(Behind(s))
    ensures forall j :: 0 <= j < |WordsOf(FirstLine(s))| ==> WordStart(s, j) == WordStart(FirstLine(s), j)
    ensures forall i :: 0 <= i < |WordsOf(Behind(s))| ==>
              WordStart(s, |WordsOf(FirstLine(s))| + i) == |FirstLine(s) + Boundary(s)| + WordStart(Behind(s), i)
  {
    hide WordsOf, WordStart, FirstLine, Boundary, Behind, IsSpace;
    var line, rest := FirstLine(s), Boundary(s) + Behind(s);
    assert s == line + rest;
    BoundaryIsBlank(s);
    WordStartBehindSpaces(Boundary(s), Behind(s));
    WordsOfConcat(line, rest);
    forall j | 0 <= j < |WordsOf(line)| ensures WordStart(s, j) == WordStart(line, j) {
      WordStartOfConcat(line, rest, j);
    }
    forall i | 0 <= i < |WordsOf(rest)|
      ensures WordStart(s, |WordsOf(line)| + i) == |line| + WordStart(rest, i)
    {
      WordStartOfConcat(line, rest, |WordsOf(line)| + i);
    }
  }

  lemma BoundaryIsBlank(s: string)
    requires s != ""
    ensures Blank(Boundary(s)) && (Boundary(s) + Behind(s) != "" ==> IsSpace((Boundary(s) + Behind(s))[0]))
  {
    if Boundary(s) != "" {
      BoundaryShape(s);
    }
  }

  /** Reading a text line by line loses and merges no word. */
  lemma {:induction false} LinesKeepWords(s: string)
    ensures WordsOfLines(LinesOf(s)) == WordsOf(s)
    decreases |s|
  {
    if s != [] {
      WordsByLine(s);
      LinesKeepWords(Behind(s));
    }
  }

  /** Word `i` of line `n` is word `Offset(n) + i` of the text. */
  lemma {:induction false} WordPosition(lines: seq<string>, n: nat, i: nat)
    requires n < |lines| && i < |WordsOf(lines[n])|
    ensures Offset(lines, n) + i < |WordsOfLines(lines)|
    ensures WordsOfLines(lines)[Offset(lines, n) + i] == WordsOf(lines[n])[i]
    decreases |lines|
  {
    if n > 0 {
      WordPosition(lines[1..], n - 1, i);
      OffsetOfTail(lines, n);
    }
  }

  lemma {:induction false} OffsetOfTail(lines: seq<string>, n: nat)
    requires 0 < n <= |lines|
    ensures Offset(lines, n) == |WordsOf(lines[0])| + Offset(lines[1..], n - 1)
    decreases n
  {
    if n > 1 {
      OffsetOfTail(lines, n - 1);
    }
  }

  lemma {:induction false} OffsetOfAll(lines: seq<string>)
    ensures Offset(lines, |lines|) == |WordsOfLines(lines)|
    decreases |lines|
  {
    if lines != [] {
      OffsetOfTail(lines, |lines|);
      OffsetOfAll(lines[1..]);
    }
  }

  lemma {:induction false} OffsetGrows(lines: seq<string>, m: nat, n: nat)
    requires m <= n <= |lines|
    ensures Offset(lines, m) <= Offset(lines, n)
    decreases n
  {
    if m < n {
      OffsetGrows(lines, m, n - 1);
    }
  }

  /** The lines before the one a word is in are the boundaries before the word. */
  lemma {:induction false} LineOfWord(s: string, n: nat, j: nat)
    requires n < |LinesOf(s)| && Offset(LinesOf(s), n) <= j < Offset(LinesOf(s), n + 1)
    ensures j < |WordsOf(s)| && n == Boundaries(s[..WordStart(s, j)])
    decreases |s|
  {
    hide WordsOf, WordStart, Boundaries, FirstLine, Boundary, Behind;
    var lines := LinesOf(s);
    OffsetOfTail(lines, n + 1);
    if n == 0 {
      WordOnFirstLine(s, j);
    } else {
      OffsetOfTail(lines, n);
      var i := j - |WordsOf(FirstLine(s))|;
      LineOfWord(Behind(s), n - 1, i);
      WordOnLaterLine(s, i);
    }
  }

  lemma WordOnFirstLine(s: string, j: nat)
    requires j < |WordsOf(FirstLine(s))|
    ensures j < |WordsOf(s)| && Boundaries(s[..WordStart(s, j)]) == 0
  {
    hide WordsOf, WordStart, Boundaries, Boundary, Behind;
    NoWords();
    WordsByLine(s);
    NoBoundaries(s[..WordStart(s, j)]);
  }

  lemma WordOnLaterLine(s: string, i: nat)
    requires i < |WordsOf(Behind(s))|
    ensures var j := |WordsOf(FirstLine(s))| + i;
      && j < |WordsOf(s)|
      && Boundaries(s[..WordStart(s, j)]) == 1 + Boundaries(Behind(s)[..WordStart(Behind(s), i)])
  {
    hide WordsOf, WordStart, Boundaries, FirstLine, Boundary, Behind, IsBoundary;
    NoWords();
    BoundaryShape(s);
    WordsByLine(s);
    var line, boundary, behind := FirstLine(s), Boundary(s), Behind(s);
    var more := behind[..WordStart(behind, i)];
    assert s[..WordStart(s, |WordsOf(line)| + i)] == line + boundary + more;
    LineCounts(line, boundary, more);
  }

  // ----- joining words -----

  /** `" ".join(ws)` */
  function Spaced(ws: seq<string>): string {
    if ws == [] then "" else if |ws| == 1 then ws[0] else ws[0] + " " + Spaced(ws[1..])
  }

  /** Two lists of words are joined by one space between them. */
  lemma {:induction false} SpacedConcat(a: seq<string>, b: seq<string>)
    requires a != [] && b != []
    ensures Spaced(a + b) == Spaced(a) + " " + Spaced(b)
  {
    if |a| == 1 {
      assert (a + b)[1..] == b;
    } else {
      SpacedConcat(a[1..], b);
      assert (a + b)[1..] == a[1..] + b;
    }
  }

  /** Joining words with spaces and splitting again gives the words back. */
  lemma {:induction false} SpacedRoundTrip(ws: seq<string>)
    requires forall i :: 0 <= i < |ws| ==> IsWord(ws[i])
    ensures WordsOf(Spaced(ws)) == ws
  {
    if |ws| == 1 {
      OneWord(ws[0]);
    } else if |ws| > 1 {
      OneWord(ws[0]);
      var tail := " " + Spaced(ws[1..]);
      WordsOfConcat(ws[0], tail);
      assert ws[0] + " " + Spaced(ws[1..]) == ws[0] + tail && tail[1..] == Spaced(ws[1..]);
      SpacedRoundTrip(ws[1..]);
    }
  }

  lemma OneWord(w: string)
    requires IsWord(w)
    ensures WordsOf(w) == [w]
  {
    assert w[..|w|] == w && w[|w|..] == [];
  }
}
