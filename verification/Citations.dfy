/** Citations of the form `filename:line`, and the loop that cites the lines a summary uses. */
module Citations {
  import opened Wrappers
  import opened Text
  import opened Words

  datatype Citation = Citation(filename: string, line: nat, excerpt: Option<string>)

  /** Malformed: a validation error. Ungrounded: the guardrail violation. Empty: nothing to summarize or cite. */
  datatype CitationError = Malformed | Ungrounded | Empty

  const MAX_FILENAME: nat := 260
  const MAX_EXCERPT: nat := 160
  const SUMMARY_WORD_LIMIT: nat := 60

  // ----- stripping -----

  function StripLeft(s: string): (r: string)
    ensures r == [] || !IsSpace(r[0])
  {
    if s == [] || !IsSpace(s[0]) then s else StripLeft(s[1..])
  }

  function StripRight(s: string): (r: string)
    ensures r == [] || !IsSpace(r[|r| - 1])
    ensures r != [] ==> s != [] && r[0] == s[0]
  {
    if s == [] || !IsSpace(s[|s| - 1]) then s else StripRight(s[..|s| - 1])
  }

  /** `s.strip()` */
  function Strip(s: string): (r: string)
    ensures Stripped(r)
  {
    StripRight(StripLeft(s))
  }

  predicate Stripped(s: string) {
    s != [] ==> !IsSpace(s[0]) && !IsSpace(s[|s| - 1])
  }

  /** `part in whole` */
  predicate Within(part: string, whole: string) {
    exists i :: 0 <= i <= |whole| && OccursAt(part, whole, i)
  }

  predicate OccursAt(part: string, whole: string, i: nat) {
    i + |part| <= |whole| && whole[i..i + |part|] == part
  }

  lemma WithinTransitive(a: string, b: string, c: string)
    requires Within(a, b) && Within(b, c)
    ensures Within(a, c)
  {
    var i :| 0 <= i <= |b| && OccursAt(a, b, i);
    var j :| 0 <= j <= |c| && OccursAt(b, c, j);
    forall k | 0 <= k < |a| ensures c[j + i..j + i + |a|][k] == a[k] {
      assert a[k] == b[i..i + |a|][k] == b[i + k] == c[j..j + |b|][i + k];
    }
    assert OccursAt(a, c, j + i);
  }

  lemma {:induction false} StripLeftIsSuffix(s: string)
    ensures |StripLeft(s)| <= |s| && StripLeft(s) == s[|s| - |StripLeft(s)|..]
  {
    if s != [] && IsSpace(s[0]) {
      StripLeftIsSuffix(s[1..]);
    }
  }

  lemma {:induction false} StripRightIsPrefix(s: string)
    ensures |StripRight(s)| <= |s| && StripRight(s) == s[..|StripRight(s)|]
  {
    if s != [] && IsSpace(s[|s| - 1]) {
      StripRightIsPrefix(s[..|s| - 1]);
    }
  }

  lemma StripIsWithin(s: string)
    ensures |Strip(s)| <= |s| && Within(Strip(s), s)
  {
    StripLeftIsSuffix(s);
    StripRightIsPrefix(StripLeft(s));
    assert OccursAt(StripLeft(s), s, |s| - |StripLeft(s)|);
    assert OccursAt(Strip(s), StripLeft(s), 0);
    WithinTransitive(Strip(s), StripLeft(s), s);
  }

  lemma StripOfStripped(s: string)
    requires Stripped(s)
    ensures Strip(s) == s
  {
  }

  /** Stripping takes the spaces at both ends and nothing else: what is left without them can only be this. */
  lemma {:induction false} StripIsExact(left: string, s: string, right: string)
    requires Blank(left) && Blank(right) && Stripped(s)
    ensures Strip(left + s + right) == s
    decreases |left| + |right|
  {
    var whole := left + s + right;
    if left != "" {
      StripIsExact(left[1..], s, right);
      assert whole[1..] == left[1..] + s + right;
    } else if s == "" {
      assert whole == right;
      BlankStrips(right);
    } else {
      assert whole == s + right && StripLeft(whole) == whole;
      StripRightOfSuffix(s, right);
    }
  }

  lemma {:induction false} BlankStrips(s: string)
    requires Blank(s)
    ensures StripLeft(s) == ""
  {
    if s != "" {
      BlankStrips(s[1..]);
    }
  }

  lemma {:induction false} StripRightOfSuffix(s: string, right: string)
    requires s != "" && !IsSpace(s[|s| - 1]) && Blank(right)
    ensures StripRight(s + right) == s
    decreases |right|
  {
    if right == "" {
      assert s + right == s;
    } else {
      StripRightOfSuffix(s, right[..|right| - 1]);
      assert (s + right)[..|s + right| - 1] == s + right[..|right| - 1];
    }
  }

  // ----- the citation model -----

  /** Building the model strips text fields and checks their bounds. */
  function MakeCitation(filename: string, line: nat, excerpt: Option<string>): Result<Citation, CitationError> {
    var name := Strip(filename);
    var cut := if excerpt.Some? then Some(Strip(excerpt.value)) else None;
    if 1 <= |name| <= MAX_FILENAME && line >= 1 && (cut.Some? ==> |cut.value| <= MAX_EXCERPT)
    then Success(Citation(name, line, cut))
    else Failure(Malformed)
  }

  function Canonical(c: Citation): string {
    c.filename + ":" + Decimal(c.line)
  }

  function LastColon(s: string): (i: int)
    ensures -1 <= i < |s| && (i >= 0 ==> s[i] == ':')
    ensures forall j :: i < j < |s| ==> s[j] != ':'
  {
    if s == [] then -1 else if s[|s| - 1] == ':' then |s| - 1 else LastColon(s[..|s| - 1])
  }

  /** The pattern `(.+):(\d+)` on the stripped text; the greedy name ends at the last colon, and the dot
      stands for anything but a line feed. */
  function ParseCitation(raw: string): Result<Citation, CitationError> {
    var s := Strip(raw);
    var i := LastColon(s);
    if i < 1 || '\n' in s[..i] || i + 1 == |s| || !AllDigits(s[i + 1..]) then Failure(Malformed)
    else MakeCitation(s[..i], Numeral(s[i + 1..]), None)
  }

  /** A filename the citation format can carry. */
  predicate Citable(filename: string) {
    1 <= |Strip(filename)| <= MAX_FILENAME && '\n' !in Strip(filename)
  }

  /** In `name:digits` stripping changes nothing and the last colon is the separator. */
  lemma PrintedShape(name: string, digits: string)
    requires name != [] && Stripped(name) && digits != [] && AllDigits(digits)
    ensures var s := name + ":" + digits;
      Strip(s) == s && LastColon(s) == |name| && s[..|name|] == name && s[|name| + 1..] == digits
  {
    var s := name + ":" + digits;
    assert s[0] == name[0] && s[|s| - 1] == digits[|digits| - 1];
    StripOfStripped(s);
    LastColonOf(name, digits);
  }

  /** A printed citation reads back as itself, without the excerpt, exactly when its filename has no line feed. */
  lemma CanonicalRoundTrip(name: string, line: nat)
    requires 1 <= |name| <= MAX_FILENAME && Stripped(name) && line >= 1
    ensures ParseCitation(Canonical(Citation(name, line, None))) ==
            if '\n' in name then Failure(Malformed) else Success(Citation(name, line, None))
  {
    PrintedShape(name, Decimal(line));
    StripOfStripped(name);
  }

  /** A text is read as a citation exactly when it is, up to spaces around it, a name without a line feed, a colon and
      digits, with a name of 1 to 260 characters after stripping and a line number from 1; and then as these. */
  lemma ParsesExactly(raw: string, c: Citation)
    ensures ParseCitation(raw) == Success(c) <==> exists name, digits :: IsCitationOf(Strip(raw), name, digits, c)
  {
    var s := Strip(raw);
    var i := LastColon(s);
    if ParseCitation(raw) == Success(c) {
      assert s == s[..i] + ":" + s[i + 1..] && IsCitationOf(s, s[..i], s[i + 1..], c);
    }
    forall name, digits | IsCitationOf(s, name, digits, c) ensures ParseCitation(raw) == Success(c) {
      LastColonOf(name, digits);
    }
  }

  predicate IsCitationOf(s: string, name: string, digits: string, c: Citation) {
    && s == name + ":" + digits && '\n' !in name && digits != "" && AllDigits(digits)
    && c.filename == Strip(name) && 1 <= |Strip(name)| <= 260
    && c.line == Numeral(digits) >= 1 && c.excerpt == None
  }

  lemma LastColonOf(name: string, digits: string)
    requires AllDigits(digits)
    ensures var s := name + ":" + digits; LastColon(s) == |name| && s[..|name|] == name && s[|name| + 1..] == digits
  {
    var s := name + ":" + digits;
    forall j | |name| < j < |s| ensures s[j] != ':' {
      assert s[j] == digits[j - |name| - 1];
    }
    assert s[|name|] == ':';
  }

  /** `verify_grounding` */
  predicate Grounded(text: string, c: Citation) {
    var lines := LinesOf(text);
    1 <= c.line <= |lines| && (c.excerpt.Some? ==> Within(c.excerpt.value, lines[c.line - 1]))
  }

  // ----- the lines a summary uses -----

  /** Some of the first `limit` words of the text stand on line `n` (from 0). */
  ghost predicate Contributes(lines: seq<string>, n: nat, limit: nat)
    requires n < |lines|
  {
    exists j :: 0 <= j < limit && StandsOn(lines, n, j)
  }

  /** Word `j` of the text stands on line `n`. */
  predicate StandsOn(lines: seq<string>, n: nat, j: nat)
    requires n < |lines|
  {
    Offset(lines, n) <= j < Offset(lines, n + 1)
  }

  ghost predicate CitesExactly(cited: seq<nat>, lines: seq<string>, upTo: nat, limit: nat)
    requires upTo <= |lines|
  {
    && (forall i :: 0 <= i < |cited| ==> 1 <= cited[i] <= upTo)
    && (forall i, j :: 0 <= i < j < |cited| ==> cited[i] < cited[j])
    && (forall n {:trigger CitedIfContributes(cited, lines, n, limit)} ::
         0 <= n < upTo ==> CitedIfContributes(cited, lines, n, limit))
  }

  ghost predicate CitedIfContributes(cited: seq<nat>, lines: seq<string>, n: nat, limit: nat)
    requires n < |lines|
  {
    n + 1 in cited <==> Contributes(lines, n, limit)
  }

  function Printed(filename: string, cited: seq<nat>): seq<string> {
    seq(|cited|, i requires 0 <= i < |cited| => Canonical(Citation(Strip(filename), cited[i], None)))
  }

  lemma PrintedAppend(filename: string, cited: seq<nat>, line: nat)
    ensures Printed(filename, cited + [line]) ==
            Printed(filename, cited) + [Canonical(Citation(Strip(filename), line, None))]
  {
  }

  lemma LaterLineContributesNothing(lines: seq<string>, upTo: nat, n: nat, limit: nat)
    requires upTo <= n < |lines| && Offset(lines, upTo) >= limit
    ensures !Contributes(lines, n, limit)
  {
    OffsetGrows(lines, upTo, n);
  }

  /** The longest part of the stripped line, from its start, that a citation may quote. */
  function Excerpt(lineText: string): (e: string)
    ensures e <= Strip(lineText) && |e| <= 160 && (|e| < 160 ==> e == Strip(lineText))
  {
    var stripped := Strip(lineText);
    stripped[..if |stripped| < MAX_EXCERPT then |stripped| else MAX_EXCERPT]
  }

  lemma ExcerptIsWithin(lineText: string)
    ensures |Strip(Excerpt(lineText))| <= MAX_EXCERPT && Within(Strip(Excerpt(lineText)), lineText)
  {
    var stripped, excerpt := Strip(lineText), Excerpt(lineText);
    StripIsWithin(lineText);
    StripIsWithin(excerpt);
    assert OccursAt(excerpt, stripped, 0);
    WithinTransitive(excerpt, stripped, lineText);
    WithinTransitive(Strip(excerpt), excerpt, lineText);
  }

  lemma ExcerptIsGrounded(text: string, c: Citation)
    requires 1 <= c.line <= |LinesOf(text)| && c.excerpt == Some(Strip(Excerpt(LinesOf(text)[c.line - 1])))
    ensures Grounded(text, c)
  {
    ExcerptIsWithin(LinesOf(text)[c.line - 1]);
  }

  lemma CitationOfLine(filename: string, line: nat, lineText: string)
    requires line >= 1
    ensures MakeCitation(filename, line, Some(Excerpt(lineText))) ==
            if 1 <= |Strip(filename)| <= MAX_FILENAME
            then Success(Citation(Strip(filename), line, Some(Strip(Excerpt(lineText)))))
            else Failure(Malformed)
  {
    ExcerptIsWithin(lineText);
  }

  /** One line of the loop: build, verify, print, parse and verify again. */
  method CiteLine(filename: string, text: string, line: nat, lineText: string)
    returns (r: Result<string, CitationError>)
    requires 1 <= line <= |LinesOf(text)| && lineText == LinesOf(text)[line - 1]
    ensures r.Success? <==> Citable(filename)
    ensures r.Success? ==> r.value == Canonical(Citation(Strip(filename), line, None))
  {
    hide LinesOf, Decimal, Excerpt, MakeCitation, ParseCitation, Within;
    var citation := MakeCitation(filename, line, Some(Excerpt(lineText)));
    CitationOfLine(filename, line, lineText);
    if citation.Failure? {
      return Failure(citation.error);
    }
    ExcerptIsGrounded(text, citation.value);
    if !Grounded(text, citation.value) {
      return Failure(Ungrounded);
    }
    var printed := Canonical(citation.value);
    assert printed == Canonical(Citation(Strip(filename), line, None));
    CanonicalRoundTrip(Strip(filename), line);
    var validated := ParseCitation(printed);
    if validated.Failure? {
      return Failure(validated.error);
    }
    assert validated.value == Citation(Strip(filename), line, None);
    if !Grounded(text, validated.value) {
      return Failure(Ungrounded);
    }
    r := Success(Canonical(validated.value));
  }

  /** `_grounded_citations`: succeeds exactly when the text has a word and the filename is citable, and then
      cites, in order, exactly the lines that contribute a word to the summary. */
  method GroundedCitations(filename: string, text: string)
    returns (r: Result<seq<string>, CitationError>, ghost cited: seq<nat>)
    ensures r.Success? <==> WordsOf(text) != [] && 1 <= |Strip(filename)| <= 260 && '\n' !in Strip(filename)
    ensures r.Failure? && WordsOf(text) == [] ==> r.error == Empty
    ensures r.Success? ==>
              && CitesExactly(cited, LinesOf(text), |LinesOf(text)|, SUMMARY_WORD_LIMIT)
              && CitesWords(text, cited) && PrintedAs(filename, cited, r.value)
  {
    LinesKeepWords(text);
    OffsetOfAll(LinesOf(text));
    ghost var n;
    r, cited, n := CiteLines(filename, text, LinesOf(text));
    OffsetGrows(LinesOf(text), n, |LinesOf(text)|);
    if r.Success? {
      AllLinesSeen(cited, LinesOf(text), n, SUMMARY_WORD_LIMIT);
      CitedByBoundaries(text, cited);
    }
    if r.Success? && |r.value| == 0 {
      return Failure(Empty), [];
    }
  }

  /** Its loop over the lines. */
  method CiteLines(filename: string, text: string, lines: seq<string>)
    returns (r: Result<seq<string>, CitationError>, ghost cited: seq<nat>, ghost n: nat)
    requires lines == LinesOf(text)
    ensures n <= |lines| && (r.Failure? ==> Offset(lines, n) > 0 && !Citable(filename))
    ensures r.Success? ==>
              && (n == |lines| || Offset(lines, n) >= SUMMARY_WORD_LIMIT)
              && CitesExactly(cited, lines, n, SUMMARY_WORD_LIMIT) && r.value == Printed(filename, cited)
              && (|r.value| == 0 <==> Offset(lines, n) == 0) && (|r.value| > 0 ==> Citable(filename))
  {
    hide CitesExactly, Printed, Citable, LinesOf;
    NothingCited(filename, lines);
    var citations: seq<string> := [];
    cited := [];
    var remaining: int := SUMMARY_WORD_LIMIT;
    var k := 0;
    while k < |lines| && remaining > 0
      invariant 0 <= k <= |lines| && remaining == SUMMARY_WORD_LIMIT - Offset(lines, k)
      invariant CitedSoFar(filename, lines, k, citations, cited)
    {
      var next, words;
      next, words, cited := CiteNext(filename, text, lines, k, citations, cited);
      k := k + 1;
      if next.Failure? {
        return Failure(next.error), [], k;
      }
      citations, remaining := next.value, remaining - words;
    }
    r, n := Success(citations), k;
  }

  /** The loop after `k` lines. */
  ghost predicate CitedSoFar(filename: string, lines: seq<string>, k: nat, citations: seq<string>, cited: seq<nat>) {
    && k <= |lines| && CitesExactly(cited, lines, k, SUMMARY_WORD_LIMIT) && citations == Printed(filename, cited)
    && (|citations| == 0 <==> Offset(lines, k) == 0)
    && (|citations| > 0 ==> Citable(filename))
  }

  lemma NothingCited(filename: string, lines: seq<string>)
    ensures CitedSoFar(filename, lines, 0, [], [])
  {}

  /** The loop body: the citations with the next line's, if it has words, and how many words it uses up. */
  method CiteNext(filename: string, text: string, lines: seq<string>, k: nat, citations: seq<string>,
                  ghost cited: seq<nat>)
    returns (r: Result<seq<string>, CitationError>, words: nat, ghost cited': seq<nat>)
    requires lines == LinesOf(text) && k < |lines| && Offset(lines, k) < SUMMARY_WORD_LIMIT
    requires CitedSoFar(filename, lines, k, citations, cited)
    ensures Offset(lines, k + 1) == Offset(lines, k) + words
    ensures r.Failure? ==> words > 0 && !Citable(filename)
    ensures r.Success? ==> CitedSoFar(filename, lines, k + 1, r.value, cited')
  {
    var lineWords := WordsOf(lines[k]);
    words, cited' := |lineWords|, cited;
    NextLine(cited, lines, k, SUMMARY_WORD_LIMIT);
    if words == 0 {
      return Success(citations), words, cited';
    }
    var citation := CiteLine(filename, text, k + 1, lines[k]);
    if citation.Failure? {
      return Failure(citation.error), words, cited';
    }
    PrintedAppend(filename, cited, k + 1);
    cited' := cited + [k + 1];
    r := Success(citations + [citation.value]);
  }

  /** While words remain, the next line contributes exactly when it has words. */
  lemma NextLine(cited: seq<nat>, lines: seq<string>, k: nat, limit: nat)
    requires k < |lines| && CitesExactly(cited, lines, k, limit) && Offset(lines, k) < limit
    ensures WordsOf(lines[k]) == [] ==> CitesExactly(cited, lines, k + 1, limit)
    ensures WordsOf(lines[k]) != [] ==> CitesExactly(cited + [k + 1], lines, k + 1, limit)
  {
    if WordsOf(lines[k]) != [] {
      assert StandsOn(lines, k, Offset(lines, k));
      var longer := cited + [k + 1];
      forall n | 0 <= n < k + 1 ensures CitedIfContributes(longer, lines, n, limit) {
        assert n < k ==> CitedIfContributes(cited, lines, n, limit);
        assert n + 1 in longer <==> n + 1 in cited || n == k;
      }
    }
  }

  /** Once the words are used up, or the lines, no further line contributes. */
  lemma AllLinesSeen(cited: seq<nat>, lines: seq<string>, k: nat, limit: nat)
    requires k <= |lines| && CitesExactly(cited, lines, k, limit)
    requires k == |lines| || Offset(lines, k) >= limit
    ensures CitesExactly(cited, lines, |lines|, limit)
  {
    forall n | k <= n < |lines| ensures !Contributes(lines, n, limit) && n + 1 !in cited {
      LaterLineContributesNothing(lines, k, n, limit);
    }
  }

  // ----- what the citations mean -----

  /** The lines cited, in order and each once, are those of the first sixty words; a word's line is one plus the
      number of line boundaries before it in the text. */
  ghost predicate CitesWords(text: string, cited: seq<nat>) {
    && (forall i, j :: 0 <= i < j < |cited| ==> cited[i] < cited[j])
    && (forall j :: 0 <= j < 60 && j < |WordsOf(text)| ==> WordIsCited(text, cited, j))
    && (forall i :: 0 <= i < |cited| ==> HasSummaryWord(text, cited[i]))
  }

  ghost predicate WordIsCited(text: string, cited: seq<nat>, j: nat) {
    exists i :: 0 <= i < |cited| && WordOnLine(text, cited[i], j)
  }

  ghost predicate HasSummaryWord(text: string, line: nat) {
    exists j :: 0 <= j < 60 && WordOnLine(text, line, j)
  }

  predicate WordOnLine(text: string, line: nat, j: nat) {
    j < |WordsOf(text)| && line == 1 + Boundaries(text[..WordStart(text, j)])
  }

  /** One string a line: the name without the spaces around it, a colon and the number. */
  predicate PrintedAs(filename: string, cited: seq<nat>, printed: seq<string>) {
    |printed| == |cited| && forall i :: 0 <= i < |cited| ==> printed[i] == Strip(filename) + ":" + Decimal(cited[i])
  }

  lemma CitedByBoundaries(text: string, cited: seq<nat>)
    requires CitesExactly(cited, LinesOf(text), |LinesOf(text)|, SUMMARY_WORD_LIMIT)
    ensures CitesWords(text, cited)
  {
    hide WordOnLine, WordsOf, LinesOf;
    forall j | 0 <= j < 60 && j < |WordsOf(text)| ensures WordIsCited(text, cited, j) {
      var n := CitedLineOf(text, cited, j);
      StandsOnItsLine(text, n, j);
      var i :| 0 <= i < |cited| && cited[i] == n + 1;
    }
    forall i | 0 <= i < |cited| ensures HasSummaryWord(text, cited[i]) {
      var j := WordOfCited(text, cited, i);
      StandsOnItsLine(text, cited[i] - 1, j);
    }
  }

  lemma StandsOnItsLine(text: string, n: nat, j: nat)
    requires n < |LinesOf(text)| && StandsOn(LinesOf(text), n, j)
    ensures WordOnLine(text, n + 1, j)
  {
    Words.LineOfWord(text, n, j);
  }

  lemma WordOfCited(text: string, cited: seq<nat>, i: nat) returns (j: nat)
    requires CitesExactly(cited, LinesOf(text), |LinesOf(text)|, SUMMARY_WORD_LIMIT) && i < |cited|
    ensures 1 <= cited[i] <= |LinesOf(text)|
    ensures j < SUMMARY_WORD_LIMIT && StandsOn(LinesOf(text), cited[i] - 1, j)
  {
    hide LinesOf;
    var lines := LinesOf(text);
    assert (cited[i] - 1) + 1 in cited && CitedIfContributes(cited, lines, cited[i] - 1, SUMMARY_WORD_LIMIT);
    j :| 0 <= j < SUMMARY_WORD_LIMIT && StandsOn(lines, cited[i] - 1, j);
  }

  lemma CitedLineOf(text: string, cited: seq<nat>, j: nat) returns (n: nat)
    requires CitesExactly(cited, LinesOf(text), |LinesOf(text)|, SUMMARY_WORD_LIMIT)
    requires j < |WordsOf(text)| && j < SUMMARY_WORD_LIMIT
    ensures n < |LinesOf(text)| && StandsOn(LinesOf(text), n, j) && n + 1 in cited
  {
    var lines := LinesOf(text);
    LinesKeepWords(text);
    OffsetOfAll(lines);
    n := FindLine(lines, j, |lines|);
    assert StandsOn(lines, n, j) && CitedIfContributes(cited, lines, n, SUMMARY_WORD_LIMIT);
  }

  /** Every word of the summary stands on a cited line, and every cited line holds a word of the summary. */
  lemma SummaryWordsAreCited(text: string, cited: seq<nat>, j: nat) returns (n: nat, i: nat)
    requires CitesExactly(cited, LinesOf(text), |LinesOf(text)|, SUMMARY_WORD_LIMIT)
    requires j < |WordsOf(text)| && j < SUMMARY_WORD_LIMIT
    ensures n + 1 in cited && n < |LinesOf(text)| && i < |WordsOf(LinesOf(text)[n])|
    ensures WordsOf(text)[j] == WordsOf(LinesOf(text)[n])[i]
  {
    LinesKeepWords(text);
    n := CitedLineOf(text, cited, j);
    i := j - Offset(LinesOf(text), n);
    WordPosition(LinesOf(text), n, i);
  }

  lemma {:induction false} FindLine(lines: seq<string>, j: nat, upTo: nat) returns (n: nat)
    requires upTo <= |lines| && j < Offset(lines, upTo)
    ensures n < upTo && Offset(lines, n) <= j < Offset(lines, n + 1)
    decreases upTo
  {
    if Offset(lines, upTo - 1) <= j {
      n := upTo - 1;
    } else {
      n := FindLine(lines, j, upTo - 1);
    }
  }

  lemma CitedLinesContribute(text: string, cited: seq<nat>, c: nat) returns (j: nat)
    requires CitesExactly(cited, LinesOf(text), |LinesOf(text)|, SUMMARY_WORD_LIMIT) && c in cited
    ensures 1 <= c <= |LinesOf(text)| && j < |WordsOf(text)| && j < SUMMARY_WORD_LIMIT
    ensures WordsOf(text)[j] in WordsOf(LinesOf(text)[c - 1])
  {
    hide LinesOf, WordsOf, CitesExactly;
    var lines := LinesOf(text);
    LinesKeepWords(text);
    var i :| 0 <= i < |cited| && cited[i] == c;
    j := WordOfCited(text, cited, i);
    WordPosition(lines, c - 1, j - Offset(lines, c - 1));
  }

  /** Every emitted string parses back to the file and line it cites, and the line exists. */
  lemma PrintedCitationsParse(filename: string, text: string, cited: seq<nat>, i: nat)
    requires CitesExactly(cited, LinesOf(text), |LinesOf(text)|, SUMMARY_WORD_LIMIT)
    requires Citable(filename) && i < |cited|
    ensures ParseCitation(Printed(filename, cited)[i]) == Success(Citation(Strip(filename), cited[i], None))
    ensures 1 <= cited[i] <= |LinesOf(text)| && Grounded(text, Citation(Strip(filename), cited[i], None))
  {
    CanonicalRoundTrip(Strip(filename), cited[i]);
  }

  // ----- the summary -----

  function SummaryWords(text: string): seq<string> {
    var words := WordsOf(text);
    words[..if |words| < SUMMARY_WORD_LIMIT then |words| else SUMMARY_WORD_LIMIT]
  }

  /** The first 60 words, with an ellipsis when there are more. */
  function Summary(text: string): string {
    Spaced(SummaryWords(text)) + if |WordsOf(text)| > SUMMARY_WORD_LIMIT then "..." else ""
  }

  /** Splitting the summary gives back the words it was made of, the ellipsis stuck to the last. */
  lemma SummaryRoundTrip(text: string)
    ensures WordsOf(Summary(text)) ==
            if |WordsOf(text)| <= 60 then WordsOf(text)
            else WordsOf(text)[..59] + [WordsOf(text)[59] + "..."]
  {
    hide WordsOf, Spaced;
    var words := SummaryWords(text);
    if |WordsOf(text)| <= SUMMARY_WORD_LIMIT {
      assert words == WordsOf(text) && Spaced(words) + "" == Spaced(words);
      SpacedRoundTrip(words);
    } else {
      var last := words[|words| - 1];
      var dotted := words[..|words| - 1] + [last + "..."];
      SpacedSuffix(words, "...");
      LongerWord(last, "...");
      forall i | 0 <= i < |dotted| ensures IsWord(dotted[i]) {
        assert i < |words| - 1 ==> dotted[i] == WordsOf(text)[i];
      }
      SpacedRoundTrip(dotted);
    }
  }

  lemma {:induction false} SpacedSuffix(ws: seq<string>, suffix: string)
    requires ws != []
    ensures Spaced(ws) + suffix == Spaced(ws[..|ws| - 1] + [ws[|ws| - 1] + suffix])
    decreases |ws|
  {
    var longer := ws[..|ws| - 1] + [ws[|ws| - 1] + suffix];
    if |ws| > 1 {
      SpacedSuffix(ws[1..], suffix);
      assert longer[1..] == ws[1..][..|ws| - 2] + [ws[|ws| - 1] + suffix];
      assert (ws[0] + " " + Spaced(ws[1..])) + suffix == ws[0] + " " + (Spaced(ws[1..]) + suffix);
    }
  }

  lemma {:induction false} LongerWord(w: string, suffix: string)
    requires IsWord(w) && forall i :: 0 <= i < |suffix| ==> !IsSpace(suffix[i])
    ensures WordLength(w + suffix) == |w + suffix|
    decreases |w|
  {
    if |w| > 1 {
      assert (w + suffix)[1..] == w[1..] + suffix;
      LongerWord(w[1..], suffix);
    } else {
      assert (w + suffix)[1..] == suffix;
      NoSpaces(suffix);
    }
  }

  lemma {:induction false} NoSpaces(s: string)
    requires forall i :: 0 <= i < |s| ==> !IsSpace(s[i])
    ensures WordLength(s) == |s|
  {
    if s != [] {
      NoSpaces(s[1..]);
    }
  }

  /** `summarize`, from the decoded text on. */
  method Summarize(filename: string, text: string)
    returns (r: Result<(string, seq<string>), CitationError>, ghost cited: seq<nat>)
    ensures r.Success? <==> WordsOf(text) != [] && 1 <= |Strip(filename)| <= 260 && '\n' !in Strip(filename)
    ensures r.Success? ==>
              && r.value.0 == Summary(text)
              && CitesExactly(cited, LinesOf(text), |LinesOf(text)|, SUMMARY_WORD_LIMIT)
              && CitesWords(text, cited) && PrintedAs(filename, cited, r.value.1)
  {
    var summary := Summary(text);
    SummaryRoundTrip(text);
    if summary == "" {
      return Failure(Empty), [];
    }
    var citations;
    citations, cited := GroundedCitations(filename, text);
    r := if citations.Success? then Success((summary, citations.value)) else Failure(citations.error);
  }
}
