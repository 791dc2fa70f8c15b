/** From the bytes of a stream to the scanner's lines and to the standard's (internal/api/sse.go). */
module SseLines {
  import opened Wrappers
  import opened SseForwarder
  import opened SseStandard
  import opened SseReading

  // ---------------------------------------------------------------- from the bytes to both kinds of lines

  /** What the scanner leaves after its first line. */
  function AfterLF(s: string): (rest: string)
    ensures s != "" ==> |rest| < |s|
  {
    if LineEnd(s) < |s| then s[LineEnd(s) + 1..] else ""
  }

  lemma ScanStep(s: string, limit: nat)
    requires s != "" && !Scan(s, limit).1
    ensures LineEnd(s) < limit && !Scan(AfterLF(s), limit).1
    ensures Scan(s, limit).0 == [StripCR(s[..LineEnd(s)])] + Scan(AfterLF(s), limit).0
  {
  }

  function Flat(lines: seq<string>): seq<string> { if lines == [] then [] else Pieces(lines[0]) + Flat(lines[1..]) }

  lemma {:induction false} FlatAdds(lines: seq<string>, line: string)
    ensures Flat(lines + [line]) == Flat(lines) + Pieces(line)
  {
    if lines == [] {
      assert [line][1..] == [];
    } else {
      assert (lines + [line])[1..] == lines[1..] + [line];
      FlatAdds(lines[1..], line);
    }
  }

  lemma ReadAdds(lines: seq<string>, line: string)
    ensures ReadLines(lines + [line]) == ReadLines(lines) + Reading(line, lines == [])
  {
    assert (lines + [line])[..|lines|] == lines;
  }

  lemma LastOf(a: seq<string>, more: seq<string>)
    requires more != []
    ensures a + more == (a + more[..|more| - 1]) + [more[|more| - 1]] && more == more[..|more| - 1] + [more[|more| - 1]]
  {
  }

  lemma ReadOne(line: string)
    ensures ReadLines([line]) == Reading(line, true) && Flat([]) == []
  {
    ReadAdds([], line);
    assert [] + [line] == [line];
  }

  lemma ReadNext(line: string, front: seq<string>, last: string)
    requires ReadLines([line] + front) == Reading(line, true) + Flat(front)
    ensures ReadLines([line] + front + [last]) == Reading(line, true) + Flat(front + [last])
  {
    var before := [line] + front;
    ReadAdds(before, last);
    FlatAdds(front, last);
    assert before != [] && Reading(last, false) == Pieces(last);
    hide ReadLines, Flat, Pieces, Reading;
    Regroup(Reading(line, true), Flat(front), Pieces(last));
  }

  lemma {:induction false} ReadHead(line: string, more: seq<string>)
    ensures ReadLines([line] + more) == Reading(line, true) + Flat(more)
  {
    hide ReadLines, Flat, Pieces, Reading;
    if more == [] {
      ReadOne(line);
      assert [line] + more == [line];
    } else {
      LastOf([line], more);
      ReadHead(line, more[..|more| - 1]);
      ReadNext(line, more[..|more| - 1], more[|more| - 1]);
    }
  }

  lemma FirstCRIs(line: string, n: nat)
    requires n <= |line| && '\r' !in line[..n] && (n < |line| ==> line[n] == '\r')
    ensures FirstCR(line) == n
  {
    var m := FirstCR(line);
    assert forall i :: 0 <= i < n ==> line[i] in line[..n];
    assert forall i :: 0 <= i < m ==> line[i] in line[..m];
  }

  lemma LineEndIs(s: string, n: nat)
    requires n <= |s| && '\n' !in s[..n] && (n < |s| ==> s[n] == '\n')
    ensures LineEnd(s) == n
  {
    var m := LineEnd(s);
    assert forall i :: 0 <= i < n ==> s[i] in s[..n];
    assert forall i :: 0 <= i < m ==> s[i] in s[..m];
  }

  lemma LineLengthIs(s: string, n: nat)
    requires n <= |s| && '\n' !in s[..n] && '\r' !in s[..n] && (n < |s| ==> s[n] == '\n' || s[n] == '\r')
    ensures LineLength(s) == n
  {
    var m := LineLength(s);
    assert forall i :: 0 <= i < n ==> s[i] in s[..n];
    assert forall i :: 0 <= i < m ==> s[i] in s[..m];
  }

  lemma PiecesOfNone(line: string)
    requires '\r' !in line
    ensures Pieces(line) == [line]
  {
    assert line[..|line|] == line;
    FirstCRIs(line, |line|);
  }

  lemma PiecesAtCR(line: string, m: nat)
    requires m < |line| && '\r' !in line[..m] && line[m] == '\r'
    ensures Pieces(line) == [line[..m]] + Pieces(line[m + 1..])
  {
    FirstCRIs(line, m);
  }

  /** The rest of a line ends where the line does. */
  lemma RestOfLine(s: string, k: nat)
    requires k <= LineEnd(s)
    ensures LineEnd(s[k..]) == LineEnd(s) - k && s[k..][..LineEnd(s) - k] == s[k..LineEnd(s)]
    ensures AfterLF(s[k..]) == AfterLF(s)
  {
    var n, t := LineEnd(s), s[k..];
    assert t[..n - k] == s[..n][k..];
    LineEndIs(t, n - k);
    if n < |s| { assert t[n - k + 1..] == s[n + 1..]; }
  }

  lemma StripRest(line: string, m: nat)
    requires m + 1 < |line|
    ensures StripCR(line)[..m] == line[..m] && StripCR(line)[m] == line[m] && StripCR(line)[m + 1..] == StripCR(line[m + 1..])
  {
  }

  /** Where the scanned line and the standard's line first end. */
  lemma LineEnds(s: string)
    requires s != ""
    ensures LineLength(s) <= LineEnd(s)
    ensures LineLength(s) < LineEnd(s) ==> s[LineLength(s)] == '\r'
    ensures LineLength(s) + 1 < LineEnd(s) ==> s[LineLength(s) + 1] != '\n'
  {
    var n, m := LineEnd(s), LineLength(s);
    assert forall i :: 0 <= i < n ==> s[i] in s[..n];
    assert forall i :: 0 <= i < m ==> s[i] in s[..m];
  }

  lemma OnePieceCut(s: string)
    requires s != "" && LineLength(s) + 1 >= LineEnd(s)
    ensures CutLines(s) == Pieces(StripCR(s[..LineEnd(s)])) + CutLines(AfterLF(s))
  {
    var n, m := LineEnd(s), LineLength(s);
    LineEnds(s);
    assert StripCR(s[..n]) == s[..m];
    PiecesOfNone(s[..m]);
    hide Pieces, StripCR;
  }

  lemma FirstPiece(s: string)
    requires s != "" && LineLength(s) + 1 < LineEnd(s)
    ensures var m := LineLength(s);
            && Pieces(StripCR(s[..LineEnd(s)])) == [s[..m]] + Pieces(StripCR(s[m + 1..LineEnd(s)]))
            && CutLines(s) == [s[..m]] + CutLines(s[m + 1..])
  {
    var n, m := LineEnd(s), LineLength(s);
    var segment := s[..n];
    LineEnds(s);
    assert segment[..m] == s[..m] && segment[m + 1..] == s[m + 1..n];
    StripRest(segment, m);
    PiecesAtCR(StripCR(segment), m);
    hide Pieces, StripCR;
    assert AfterLine(s) == s[m + 1..];
  }

  /** The standard's lines in the bytes of one scanned line are its pieces. */
  lemma {:induction false} OneLineCut(s: string)
    requires s != ""
    ensures CutLines(s) == Pieces(StripCR(s[..LineEnd(s)])) + CutLines(AfterLF(s))
    decreases |s|
  {
    if LineLength(s) + 1 >= LineEnd(s) {
      OnePieceCut(s);
    } else {
      var n, m := LineEnd(s), LineLength(s);
      var t := s[m + 1..];
      FirstPiece(s);
      RestOfLine(s, m + 1);
      hide Pieces, StripCR, AfterLF, CutLines, LineEnd, LineLength;
      OneLineCut(t);
      assert t[..LineEnd(t)] == s[m + 1..n];
      Regroup([s[..m]], Pieces(StripCR(s[m + 1..n])), CutLines(AfterLF(s)));
    }
  }

  lemma Regroup(a: seq<string>, b: seq<string>, c: seq<string>)
    ensures a + (b + c) == a + b + c
  {
  }

  lemma {:induction false} CutIsFlat(s: string, limit: nat)
    requires !Scan(s, limit).1
    ensures CutLines(s) == Flat(Scan(s, limit).0)
    decreases |s|
  {
    if s != "" {
      ScanStep(s, limit);
      OneLineCut(s);
      CutIsFlat(AfterLF(s), limit);
      var line, more := StripCR(s[..LineEnd(s)]), Scan(AfterLF(s), limit).0;
      assert ([line] + more)[1..] == more;
    }
  }

  /** A line that begins with p. */
  lemma PrefixedEnd(p: string, t: string)
    requires OneLine(p)
    ensures LineEnd(p + t) == |p| + LineEnd(t)
  {
    var n := LineEnd(t);
    assert (p + t)[..|p| + n] == p + t[..n];
    LineEndIs(p + t, |p| + n);
  }

  lemma PrefixedStrip(p: string, line: string)
    requires OneLine(p) && p != ""
    ensures StripCR(p + line) == p + StripCR(line)
  {
    assert p[|p| - 1] in p;
    if line == "" { assert p + line == p; } else { assert (p + line)[..|p + line| - 1] == p + line[..|line| - 1]; }
  }

  lemma PrefixedLine(p: string, t: string)
    requires OneLine(p) && p != ""
    ensures LineEnd(p + t) == |p| + LineEnd(t) && AfterLF(p + t) == AfterLF(t)
    ensures StripCR((p + t)[..LineEnd(p + t)]) == p + StripCR(t[..LineEnd(t)])
  {
    PrefixedEnd(p, t);
    PrefixedStrip(p, t[..LineEnd(t)]);
    RestOfLine(p + t, |p|);
    assert (p + t)[|p|..] == t;
    hide LineEnd, AfterLF, StripCR, OneLine;
    assert (p + t)[..LineEnd(p + t)] == p + t[..LineEnd(t)];
  }

  predicate OneLine(s: string) { '\r' !in s && '\n' !in s }

  lemma MarkedLine(s: string)
    requires BOM <= s
    ensures LineEnd(s) == |BOM| + LineEnd(s[|BOM|..]) && AfterLF(s) == AfterLF(s[|BOM|..])
    ensures StripCR(s[..LineEnd(s)]) == BOM + StripCR(s[|BOM|..][..LineEnd(s[|BOM|..])])
  {
    assert s == BOM + s[|BOM|..];
    PrefixedLine(BOM, s[|BOM|..]);
    hide StripCR, AfterLF, LineEnd;
  }

  /** Reading the scanned lines piece by piece and reading the standard's lines come to the same. */
  lemma StandardRead(input: string, limit: nat)
    requires !Scan(input, limit).1
    ensures Cuts(StandardLines(input)) == Cuts(ReadLines(Scan(input, limit).0))
  {
    var lines := Scan(input, limit).0;
    if input != "" {
      ScanStep(input, limit);
      var line, more := StripCR(input[..LineEnd(input)]), Scan(AfterLF(input), limit).0;
      ReadHead(line, more);
      if BOM <= input {
        var rest := input[|BOM|..];
        MarkedLine(input);
        CutIsFlat(AfterLF(input), limit);
        if rest == "" {
          assert Scan("", limit) == ([], false);
          assert Reading(line, true) == [""] by { assert line[|BOM|..] == ""; PiecesOfNone(""); }
          assert ReadLines(lines) == [""] && [""][..0] == [];
          assert Cuts([""]) == NOTHING;
        } else {
          OneLineCut(rest);
          assert line[|BOM|..] == StripCR(rest[..LineEnd(rest)]);
        }
      } else {
        assert line <= input;
        CutIsFlat(input, limit);
        assert ([line] + more)[1..] == more;
      }
    }
  }

  lemma {:induction false} CutLinesAreClean(s: string)
    ensures Clean(CutLines(s))
    decreases |s|
  {
    if s != "" { CutLinesAreClean(AfterLine(s)); }
  }

  // ---------------------------------------------------------------- when both cut the same lines

  /** There is no leading byte order mark, and every CR stands before an LF or at the end. */
  predicate TidyInput(input: string) { !(BOM <= input) && CRsAtEnds(input) }

  predicate CRsAtEnds(s: string) { forall i :: 0 <= i < |s| && s[i] == '\r' ==> i + 1 == |s| || s[i + 1] == '\n' }

  predicate NoCRs(lines: seq<string>) { forall i :: 0 <= i < |lines| ==> '\r' !in lines[i] }

  /** A CR inside the first line stands before no LF; one at its end does. */
  lemma SegmentCRs(s: string)
    requires s != ""
    ensures '\r' !in StripCR(s[..LineEnd(s)]) <==> forall i :: 0 <= i && i + 1 < LineEnd(s) ==> s[i] != '\r'
  {
    var n := LineEnd(s);
    var segment := s[..n];
    var line := StripCR(segment);
    assert forall i :: 0 <= i < n ==> segment[i] == s[i];
    assert forall i :: 0 <= i < |line| ==> line[i] == segment[i];
    assert forall i :: 0 <= i < |line| ==> line[i] in line;
  }

  /** Where the bytes of the first line and of the rest are. */
  lemma Places(s: string, n: nat, rest: string)
    requires n == LineEnd(s) && rest == AfterLF(s)
    ensures n <= |s| && forall i :: 0 <= i < n ==> s[i] != '\n'
    ensures if n < |s| then s[n] == '\n' && rest == s[n + 1..] else rest == ""
  {
    assert forall i :: 0 <= i < n ==> s[i] in s[..n];
  }

  lemma CRsInParts(s: string, n: nat, rest: string)
    requires n <= |s| && (if n < |s| then s[n] == '\n' && rest == s[n + 1..] else rest == "")
    requires forall i :: 0 <= i < n ==> s[i] != '\n'
    ensures CRsAtEnds(s) <==> (forall i :: 0 <= i && i + 1 < n ==> s[i] != '\r') && CRsAtEnds(rest)
  {
    if CRsAtEnds(s) {
      forall i | 0 <= i < |rest| && rest[i] == '\r' ensures i + 1 == |rest| || rest[i + 1] == '\n' {
        assert s[i + n + 1] == '\r';
      }
      forall i | 0 <= i && i + 1 < n ensures s[i] != '\r' {
        assert s[i + 1] != '\n';
      }
    } else {
      var i :| 0 <= i < |s| && s[i] == '\r' && i + 1 != |s| && s[i + 1] != '\n';
      if i > n { assert rest[i - n - 1] == '\r' && rest[i - n] == s[i + 1]; }
    }
  }

  lemma SegmentHasNoCR(s: string)
    requires s != ""
    ensures CRsAtEnds(s) <==> '\r' !in StripCR(s[..LineEnd(s)]) && CRsAtEnds(AfterLF(s))
  {
    SegmentCRs(s);
    Places(s, LineEnd(s), AfterLF(s));
    CRsInParts(s, LineEnd(s), AfterLF(s));
    hide CRsAtEnds, StripCR, AfterLF;
  }

  lemma {:induction false} ScannedCRs(s: string, limit: nat)
    requires !Scan(s, limit).1
    ensures NoCRs(Scan(s, limit).0) <==> CRsAtEnds(s)
    decreases |s|
  {
    if s != "" {
      ScanStep(s, limit);
      SegmentHasNoCR(s);
      ScannedCRs(AfterLF(s), limit);
      var line, more := StripCR(s[..LineEnd(s)]), Scan(AfterLF(s), limit).0;
      assert forall i :: 0 <= i < |more| ==> ([line] + more)[i + 1] == more[i];
      assert ([line] + more)[0] == line;
      hide CRsAtEnds;
    }
  }

  lemma {:induction false} FlatOfPlain(lines: seq<string>)
    ensures |Flat(lines)| >= |lines| && (NoCRs(lines) <==> Flat(lines) == lines)
  {
    if lines != [] {
      FlatOfPlain(lines[1..]);
      OnePiece(lines[0]);
      assert lines == [lines[0]] + lines[1..];
      assert forall i :: 0 <= i < |lines| - 1 ==> lines[1..][i] == lines[i + 1];
      if Flat(lines) == lines {
        assert |Pieces(lines[0])| == 1;
        assert Pieces(lines[0]) == [Flat(lines)[0]];
        assert Flat(lines)[1..] == Flat(lines[1..]);
      }
    }
  }

  /** The scanner and the standard cut a stream into the same lines exactly when there is no leading byte
      order mark and no CR but at the end of a line. */
  lemma SameLinesExactly(input: string, limit: nat)
    requires !Scan(input, limit).1
    ensures Scan(input, limit).0 == StandardLines(input) <==> TidyInput(input)
  {
    var lines := Scan(input, limit).0;
    ScannedCRs(input, limit);
    FlatOfPlain(lines);
    if BOM <= input {
      ScanStep(input, limit);
      MarkedLine(input);
      if input[|BOM|..] != "" { MarkedFirst(input); }
    } else {
      CutIsFlat(input, limit);
    }
  }

  /** The standard's first line is shorter than the scanned one by the byte order mark at least. */
  lemma MarkedFirst(input: string)
    requires BOM <= input && input[|BOM|..] != ""
    ensures |StandardLines(input)| > 0 && |StandardLines(input)[0]| < |StripCR(input[..LineEnd(input)])|
  {
    var rest := input[|BOM|..];
    MarkedLine(input);
    LineEnds(rest);
    assert CutLines(rest)[0] == rest[..LineLength(rest)];
  }
}
