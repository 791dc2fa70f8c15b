/** The lines of the scanner as the standard reads them, and what the two make of the same stream: data
    values in the same groups, or not (internal/api/sse.go). */
module SseReading {
  import opened Wrappers
  import opened SseForwarder
  import opened SseStandard

  // ---------------------------------------------------------------- how the standard reads a scanned line

  /** A line cut at its CRs. */
  function Pieces(line: string): (pieces: seq<string>)
    ensures |pieces| > 0
    decreases |line|
  {
    var n := FirstCR(line);
    if n == |line| then [line] else [line[..n]] + Pieces(line[n + 1..])
  }

  function FirstCR(line: string): (n: nat)
    ensures n <= |line| && '\r' !in line[..n] && (n < |line| ==> line[n] == '\r')
  {
    if line == "" || line[0] == '\r' then 0 else 1 + FirstCR(line[1..])
  }

  /** The standard's lines within a scanned line; before the first one there may be a byte order mark. */
  function Reading(line: string, first: bool): seq<string> {
    Pieces(if first && BOM <= line then line[|BOM|..] else line)
  }

  /** The standard reads the line as the scanner does: it holds no CR and, if it is the first one, does
      not begin with a byte order mark. */
  predicate ReadAlike(line: string, first: bool) { Reading(line, first) == [line] }

  function ReadLines(lines: seq<string>): seq<string> {
    if lines == [] then []
    else ReadLines(lines[..|lines| - 1]) + Reading(lines[|lines| - 1], |lines| == 1)
  }

  /** No data line is hidden behind a CR or a byte order mark. */
  predicate Plain(lines: seq<string>) {
    forall i :: 0 <= i < |lines| ==> PlainLine(lines[i], i == 0)
  }

  predicate PlainLine(line: string, first: bool) {
    ReadAlike(line, first) || forall p :: p in Reading(line, first) ==> !Carries(p)
  }

  /** In the unfinished group, a blank line that only the standard sees has followed a data line. */
  predicate Parted(lines: seq<string>) {
    lines != []
    && (var front, last := lines[..|lines| - 1], lines[|lines| - 1];
        && last != ""
        && (Parted(front)
            || (Cuts(front).open != [] && !ReadAlike(last, |lines| == 1) && "" in Reading(last, |lines| == 1))))
  }

  /** A blank line that only the standard sees stands between two data lines of one group. */
  predicate Split(lines: seq<string>) {
    lines != []
    && (var front, last := lines[..|lines| - 1], lines[|lines| - 1];
        Split(front) || (Parted(front) && Carries(last)))
  }

  lemma {:induction false} PieceOfLine(line: string)
    ensures forall p :: p in Pieces(line) ==> '\r' !in p && ('\n' !in line ==> '\n' !in p)
    decreases |line|
  {
    var n := FirstCR(line);
    if n < |line| { PieceOfLine(line[n + 1..]); }
  }

  lemma OnePiece(line: string)
    ensures Pieces(line) == [line] <==> '\r' !in line
  {
    PieceOfLine(line);
    var n := FirstCR(line);
    if n == |line| { assert line[..n] == line; } else { assert line in [line]; }
  }

  /** If the code reads data in a line, so does the standard in its first piece. */
  lemma CarriesFirst(line: string)
    requires Carries(line)
    ensures Carries(Pieces(line)[0]) && !(BOM <= line)
  {
    var n := FirstCR(line);
    assert line[0] == 'd';
    if n < |line| {
      assert line[n] == '\r';
      assert line[1] == 'a' && line[2] == 't' && line[3] == 'a' && line[4] == ':';
      assert "data" <= line[..n];
    } else {
      assert line[..n] == line;
    }
  }

  /** A line read otherwise is not blank, and if no piece of it carries data, neither does it. */
  lemma OddLine(line: string, first: bool)
    requires !ReadAlike(line, first)
    ensures line != ""
    ensures Carries(line) ==> '\r' in line && exists p :: p in Reading(line, first) && Carries(p)
  {
    OnePiece(line);
    if Carries(line) {
      CarriesFirst(line);
      assert Pieces(line)[0] in Reading(line, first);
    }
  }

  /** A CR in a data line is in its value. */
  lemma CRInValue(line: string)
    requires Carries(line) && '\r' in line
    ensures '\r' in DataField(line).value
  {
    var i :| 0 <= i < |line| && line[i] == '\r';
    assert "data"[0] == line[0] && "data"[1] == line[1] && "data"[2] == line[2] && "data"[3] == line[3];
    var v := DataField(line).value;
    if |line| > 5 && line[5] == ' ' { assert v[i - 6] == '\r'; } else { assert v[i - 5] == '\r'; }
  }

  // ---------------------------------------------------------------- how many values are read

  function Carriers(lines: seq<string>): nat {
    if lines == [] then 0 else Carriers(lines[..|lines| - 1]) + if Carries(lines[|lines| - 1]) then 1 else 0
  }

  function Count(groups: seq<seq<string>>): nat {
    if groups == [] then 0 else Count(groups[..|groups| - 1]) + |groups[|groups| - 1]|
  }

  lemma CountGrows(groups: seq<seq<string>>, more: seq<string>)
    ensures Count(groups + OneOrNone(more)) == Count(groups) + |more|
  {
    if more == [] { assert groups + [] == groups; } else { assert (groups + [more])[..|groups|] == groups; }
  }

  lemma {:induction false} CarriersAdd(a: seq<string>, b: seq<string>)
    ensures Carriers(a + b) == Carriers(a) + Carriers(b)
  {
    if b == [] {
      assert a + b == a;
    } else {
      assert (a + b)[..|a + b| - 1] == a + b[..|b| - 1];
      CarriersAdd(a, b[..|b| - 1]);
    }
  }

  lemma {:induction false} NoCarriers(lines: seq<string>)
    ensures Carriers(lines) == 0 <==> forall p :: p in lines ==> !Carries(p)
  {
    if lines != [] {
      NoCarriers(lines[..|lines| - 1]);
      assert lines == lines[..|lines| - 1] + [lines[|lines| - 1]];
    }
  }

  /** Every data line's value is in the cut. */
  lemma {:induction false} AllValues(lines: seq<string>)
    ensures Count(Cuts(lines).done) + |Cuts(lines).open| == Carriers(lines)
  {
    if lines != [] {
      AllValues(lines[..|lines| - 1]);
      CountGrows(Cuts(lines[..|lines| - 1]).done, Cuts(lines[..|lines| - 1]).open);
    }
  }

  lemma LineReadsAtLeast(line: string, first: bool)
    requires Carries(line) ==> '\r' !in line
    ensures Carriers(Reading(line, first)) >= (if Carries(line) then 1 else 0) + if PlainLine(line, first) then 0 else 1
  {
    NoCarriers(Reading(line, first));
    if ReadAlike(line, first) {
      assert [line][..0] == [];
      assert Carriers([line]) == if Carries(line) then 1 else 0;
    } else {
      OddLine(line, first);
    }
  }

  lemma PlainGrows(lines: seq<string>)
    requires lines != []
    ensures Plain(lines) <==> Plain(lines[..|lines| - 1]) && PlainLine(lines[|lines| - 1], |lines| == 1)
  {
    hide PlainLine;
    var front := lines[..|lines| - 1];
    assert forall i :: 0 <= i < |front| ==> front[i] == lines[i];
  }

  /** If no data line the code reads holds a CR, the standard reads all of them, and more if one is hidden. */
  lemma {:induction false} ReadsAtLeast(lines: seq<string>)
    requires forall l :: l in lines && Carries(l) ==> '\r' !in l
    ensures Carriers(ReadLines(lines)) >= Carriers(lines) + if Plain(lines) then 0 else 1
  {
    if lines != [] {
      var front, last := lines[..|lines| - 1], lines[|lines| - 1];
      var first := |lines| == 1;
      assert last in lines && forall l :: l in front ==> l in lines;
      ReadsAtLeast(front);
      CarriersAdd(ReadLines(front), Reading(last, first));
      LineReadsAtLeast(last, first);
      PlainGrows(lines);
      hide Carries, PlainLine, Plain, Reading;
    }
  }

  // ---------------------------------------------------------------- the two cuts side by side

  predicate HasEmptyStart(groups: seq<seq<string>>) { exists g :: g in groups && g != [] && g[0] == "" }

  predicate Nonempty(values: seq<string>) { values != [] }

  function Groupings(c: Cut): nat { |c.done| + if c.open == [] then 0 else 1 }

  /** What the code's cut d and the standard's cut s of the same plain lines have to do with each other. */
  predicate Related(split: bool, parted: bool, d: Cut, s: Cut) {
    && (forall i :: 0 <= i < |d.done| ==> Nonempty(d.done[i]))
    && (d.open == [] ==> s.open == []) && |s.open| <= |d.open| && (|s.open| == |d.open| ==> s.open == d.open)
    && (d.open != s.open && d.open[0] == "" ==> HasEmptyStart(s.done))
    && (HasEmptyStart(d.done) ==> HasEmptyStart(s.done))
    && (split ==> Groupings(s) > Groupings(d))
    && (!split && !parted ==> s == d)
    && (!split && parted ==> d.open != [] && s == Cut(d.done + [d.open], []))
  }

  lemma EmptyStartGrows(groups: seq<seq<string>>, more: seq<string>)
    ensures HasEmptyStart(groups + OneOrNone(more)) <==> HasEmptyStart(groups) || (more != [] && more[0] == "")
  {
    var after := groups + OneOrNone(more);
    assert more != [] ==> after[|groups|] == more;
    if HasEmptyStart(groups) {
      var g :| g in groups && g != [] && g[0] == "";
      assert g in after;
    }
  }

  lemma {:induction false} TakeQuiet(c: Cut, pieces: seq<string>)
    requires forall p :: p in pieces ==> !Carries(p)
    ensures TakeAll(c, pieces) == if "" in pieces then Take(c, "") else c
  {
    if pieces != [] {
      var front, last := pieces[..|pieces| - 1], pieces[|pieces| - 1];
      assert pieces == front + [last];
      TakeQuiet(c, front);
    }
  }

  /** A blank line that both see. */
  lemma BlankRelated(split: bool, parted: bool, d: Cut, s: Cut)
    requires Related(split, parted, d, s)
    ensures Related(split, false, Take(d, ""), Take(s, ""))
  {
    EmptyStartGrows(d.done, d.open);
    EmptyStartGrows(s.done, s.open);
    hide HasEmptyStart;
  }

  /** A data line that both see. */
  lemma DataRelated(split: bool, parted: bool, d: Cut, s: Cut, line: string)
    requires Related(split, parted, d, s) && line != "" && Carries(line)
    ensures Related(split || parted, parted, Take(d, line), Take(s, line))
  {
    hide HasEmptyStart, Carries;
  }

  /** A blank line that only the standard sees. */
  lemma GapRelated(split: bool, parted: bool, d: Cut, s: Cut)
    requires Related(split, parted, d, s)
    ensures Related(split, parted || d.open != [], d, Take(s, ""))
  {
    EmptyStartGrows(s.done, s.open);
    hide HasEmptyStart;
  }

  lemma LineRelated(split: bool, parted: bool, d: Cut, s: Cut, line: string, first: bool)
    requires Related(split, parted, d, s) && PlainLine(line, first)
    ensures Related(split || (parted && Carries(line)),
                    line != "" && (parted || (d.open != [] && !ReadAlike(line, first) && "" in Reading(line, first))),
                    Take(d, line), TakeAll(s, Reading(line, first)))
  {
    hide Related;
    if ReadAlike(line, first) {
      assert [line][..0] == [] && TakeAll(s, [line]) == Take(s, line);
      if line == "" { BlankRelated(split, parted, d, s); }
      else if Carries(line) { DataRelated(split, parted, d, s, line); }
    } else {
      OddLine(line, first);
      TakeQuiet(s, Reading(line, first));
      if "" in Reading(line, first) { GapRelated(split, parted, d, s); }
    }
  }

  lemma {:induction false} AlwaysRelated(lines: seq<string>)
    requires Plain(lines)
    ensures Related(Split(lines), Parted(lines), Cuts(lines), Cuts(ReadLines(lines)))
  {
    if lines != [] {
      var front, last := lines[..|lines| - 1], lines[|lines| - 1];
      PlainGrows(lines);
      AlwaysRelated(front);
      TakeMore(NOTHING, ReadLines(front), Reading(last, |lines| == 1));
      LineRelated(Split(front), Parted(front), Cuts(front), Cuts(ReadLines(front)), last, |lines| == 1);
      hide Related, Reading, Carries, Take, PlainLine, ReadAlike, Plain;
    }
  }

  // ---------------------------------------------------------------- the verdict

  lemma {:induction false} KeptStarts(groups: seq<seq<string>>)
    ensures !HasEmptyStart(Kept(groups))
  {
    if groups != [] {
      var front, last := groups[..|groups| - 1], groups[|groups| - 1];
      KeptStarts(front);
      DropEmptyHead(last);
      EmptyStartGrows(Kept(front), DropEmpty(last));
    }
  }

  lemma {:induction false} KeptIsSmaller(groups: seq<seq<string>>)
    ensures Count(Kept(groups)) <= Count(groups) && |Kept(groups)| <= |groups|
  {
    if groups != [] {
      var front, last := groups[..|groups| - 1], groups[|groups| - 1];
      KeptIsSmaller(front);
      DropKeepsTail(last);
      CountGrows(Kept(front), DropEmpty(last));
    }
  }

  lemma {:induction false} KeptIsAll(groups: seq<seq<string>>)
    requires !HasEmptyStart(groups) && forall i :: 0 <= i < |groups| ==> Nonempty(groups[i])
    ensures Kept(groups) == groups
  {
    if groups != [] {
      var front, last := groups[..|groups| - 1], groups[|groups| - 1];
      assert groups == front + OneOrNone(last) by { assert Nonempty(last); }
      EmptyStartGrows(front, last);
      assert DropEmpty(last) == last;
      KeptIsAll(front);
    }
  }

  /** What decides over the open group: if the standard has nothing open, the code must keep all of its
      own; otherwise the code must have nothing to hand on. */
  predicate OpenAgrees(d: Cut, s: Cut) {
    if s.open == [] then !(d.open != [] && d.open[0] == "") else DropEmpty(d.open) == []
  }

  lemma KeptAll(d: Cut)
    ensures Kept(All(d)) == Kept(d.done) + if d.open == [] then [] else OneOrNone(DropEmpty(d.open))
  {
    if d.open != [] { KeptGrows(d.done, d.open); } else { assert d.done + [] == d.done; }
  }

  lemma VerdictUnsplit(parted: bool, d: Cut, s: Cut)
    requires Related(false, parted, d, s) && !HasEmptyStart(d.done)
    ensures Kept(All(d)) == s.done <==> OpenAgrees(d, s)
  {
    KeptAll(d);
    KeptIsAll(d.done);
    DropEmptyHead(d.open);
    hide HasEmptyStart;
    if d.open != [] {
      var kept := DropEmpty(d.open);
      assert d.done + OneOrNone(kept) == d.done <==> kept == [];
      assert d.done + OneOrNone(kept) == d.done + [d.open] <==> kept == d.open by {
        if kept != d.open && kept != [] { assert (d.done + [kept])[|d.done|] != (d.done + [d.open])[|d.done|]; }
      }
    }
  }

  lemma VerdictSplit(parted: bool, d: Cut, s: Cut)
    requires Related(true, parted, d, s) && !HasEmptyStart(d.done)
    requires Count(d.done) + |d.open| == Count(s.done) + |s.open|
    ensures Kept(All(d)) != s.done
  {
    KeptAll(d);
    KeptIsAll(d.done);
    KeptStarts(All(d));
    CountGrows(d.done, DropEmpty(d.open));
    hide HasEmptyStart, Count;
    if d.open != [] && d.open[0] != "" { assert DropEmpty(d.open) == d.open; }
  }

  /** The code keeps what the standard gives exactly when no group is split, no finished group starts with
      an empty value, and the open group agrees. */
  lemma Verdict(split: bool, parted: bool, d: Cut, s: Cut)
    requires Related(split, parted, d, s) && Count(d.done) + |d.open| == Count(s.done) + |s.open|
    ensures Kept(All(d)) == s.done <==> !split && !HasEmptyStart(d.done) && OpenAgrees(d, s)
  {
    if HasEmptyStart(d.done) { KeptStarts(All(d)); }
    else if split { VerdictSplit(parted, d, s); }
    else { VerdictUnsplit(parted, d, s); }
  }

  // ---------------------------------------------------------------- hidden data lines

  predicate HasCR(groups: seq<seq<string>>) { exists g, v :: g in groups && v in g && '\r' in v }

  lemma {:induction false} DropKeepsFull(values: seq<string>)
    ensures forall v :: v in values && v != "" ==> v in DropEmpty(values)
  {
    if values != [] && values[0] == "" { DropKeepsFull(values[1..]); }
  }

  lemma CRGrows(groups: seq<seq<string>>, more: seq<string>)
    ensures HasCR(groups + OneOrNone(more)) <==> HasCR(groups) || exists v :: v in more && '\r' in v
  {
    var after := groups + OneOrNone(more);
    assert more != [] ==> after[|groups|] == more;
    assert forall g :: g in groups ==> g in after;
  }

  lemma {:induction false} KeptHasCR(groups: seq<seq<string>>)
    requires HasCR(groups)
    ensures HasCR(Kept(groups))
  {
    var front, last := groups[..|groups| - 1], groups[|groups| - 1];
    CRGrows(Kept(front), DropEmpty(last));
    DropKeepsFull(last);
    if exists v :: v in last && '\r' in v {
      var v :| v in last && '\r' in v;
      assert v in DropEmpty(last);
    } else {
      assert groups == front + [last];
      KeptHasCR(front);
    }
  }

  /** The values of the cut hold a CR if and only if one of the data lines does. */
  lemma {:induction false} CutsCR(lines: seq<string>)
    ensures HasCR(All(Cuts(lines))) <==> exists l :: l in lines && Carries(l) && '\r' in l
  {
    if lines != [] {
      var front, last := lines[..|lines| - 1], lines[|lines| - 1];
      assert lines == front + [last];
      CutsCR(front);
      var c := Cuts(front);
      CRGrows(c.done, c.open);
      if last == "" {
        assert c.done + OneOrNone(c.open) + OneOrNone([]) == All(c);
      } else if Carries(last) {
        CRGrows(c.done, Take(c, last).open);
        if '\r' in last { CRInValue(last); } else { ValueHasNoCR(last); }
      }
    }
  }

  lemma ValueHasNoCR(line: string)
    requires Carries(line) && '\r' !in line
    ensures '\r' !in DataField(line).value
  {
  }

  lemma {:induction false} ReadLinesHaveNoCR(lines: seq<string>)
    ensures forall l :: l in ReadLines(lines) ==> '\r' !in l
    ensures Clean(lines) ==> Clean(ReadLines(lines))
  {
    if lines != [] {
      var front, last := lines[..|lines| - 1], lines[|lines| - 1];
      ReadLinesHaveNoCR(front);
      PieceOfLine(if |lines| == 1 && BOM <= last then last[|BOM|..] else last);
    }
  }

  /** Where a data line is hidden and the standard leaves nothing open, the events differ. */
  lemma HiddenDeparts(lines: seq<string>)
    requires !Plain(lines) && Cuts(ReadLines(lines)).open == []
    ensures Kept(All(Cuts(lines))) != Cuts(ReadLines(lines)).done
  {
    var d, s := Cuts(lines), Cuts(ReadLines(lines));
    CutsCR(lines);
    CutsCR(ReadLines(lines));
    ReadLinesHaveNoCR(lines);
    assert All(s) == s.done;
    if HasCR(All(d)) {
      KeptHasCR(All(d));
    } else {
      ReadsAtLeast(lines);
      AllValues(lines);
      AllValues(ReadLines(lines));
      CountGrows(d.done, d.open);
      KeptIsSmaller(All(d));
    }
  }
}
