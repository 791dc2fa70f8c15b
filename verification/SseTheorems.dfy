/** When the events handed on are those of the WHATWG HTML Standard, for streams of bytes
    (internal/api/sse.go). */
module SseTheorems {
  import opened Wrappers
  import opened SseForwarder
  import opened SseStandard
  import opened SseReading
  import opened SseLines

  // ---------------------------------------------------------------- the theorem

  /** The standard's last group, which it discards, holds no data. */
  predicate Complete(input: string) { Data(Unfinished(Groups(StandardLines(input)))) == [] }

  /** The code and the standard hand on the same events. complete: the standard discards no data. */
  predicate Agrees(lines: seq<string>, complete: bool) {
    && Plain(lines) && !Split(lines)
    && (forall g :: g in Finished(Groups(lines)) ==> !StartsEmpty(g))
    && (if complete then !StartsEmpty(Unfinished(Groups(lines))) else Event(Unfinished(Groups(lines))) == "")
  }

  lemma {:induction false} EmptyStarts(groups: seq<seq<string>>)
    ensures HasEmptyStart(Given(groups)) <==> exists g :: g in groups && StartsEmpty(g)
  {
    if groups != [] {
      var front, last := groups[..|groups| - 1], groups[|groups| - 1];
      EmptyStarts(front);
      EmptyStartGrows(Given(front), Data(last));
      assert groups == front + [last] && last in groups;
      hide HasEmptyStart;
      if g :| g in front && StartsEmpty(g) { assert g in groups; }
      assert (exists g :: g in groups && StartsEmpty(g)) <==> (exists g :: g in front && StartsEmpty(g)) || StartsEmpty(last);
    }
  }

  /** The condition in terms of the code's cut. */
  lemma AgreesIs(lines: seq<string>, complete: bool)
    ensures var d := Cuts(lines);
            Agrees(lines, complete) <==>
              && Plain(lines) && !Split(lines) && !HasEmptyStart(d.done)
              && (if complete then !(d.open != [] && d.open[0] == "") else DropEmpty(d.open) == [])
  {
    CutsAreGroups(lines);
    EmptyStarts(Finished(Groups(lines)));
    EventIsEmpty(Unfinished(Groups(lines)));
    hide Plain, Split, HasEmptyStart, Given, Groups, Data, Cuts, Event, DropEmpty;
  }

  lemma CutsDepart(lines: seq<string>)
    requires Plain(lines) || Cuts(ReadLines(lines)).open == []
    ensures var d, s := Cuts(lines), Cuts(ReadLines(lines));
            Kept(All(d)) == s.done <==> Plain(lines) && !Split(lines) && !HasEmptyStart(d.done) && OpenAgrees(d, s)
  {
    if Plain(lines) {
      AlwaysRelated(lines);
      SameNumber(lines);
      Verdict(Split(lines), Parted(lines), Cuts(lines), Cuts(ReadLines(lines)));
    } else {
      HiddenDeparts(lines);
    }
    hide Plain, Split, HasEmptyStart, Cuts, Kept, All, OpenAgrees;
  }

  /** For every stream within the limits that hides no data line behind a CR or a byte order mark, or that
      the standard does not break off within a group: the events handed on are the standard's if and only
      if no data line is hidden, no group is split by a blank line that only the standard sees, no
      finished group starts with an empty data value, and neither does the last group, if the standard has
      finished its data, while otherwise it has no event. */
  lemma StreamDepartsExactly(input: string, cap: nat)
    requires !Scan(input, LineLimit(cap)).1 && !TooLarge(Groups(Scan(input, LineLimit(cap)).0), cap)
    requires Plain(Scan(input, LineLimit(cap)).0) || Complete(input)
    ensures var lines := Scan(input, LineLimit(cap)).0;
            Events(Groups(lines), cap) == StandardStream(input) <==> Agrees(lines, Complete(input))
  {
    var lines := Scan(input, LineLimit(cap)).0;
    ScannedIsClean(input, LineLimit(cap));
    CutLinesAreClean(if BOM <= input then input[|BOM|..] else input);
    StandardRead(input, LineLimit(cap));
    CutsAreGroups(StandardLines(input));
    hide Scan, Groups, Plain, Clean, TooLarge, Cuts, ReadLines, StandardLines, Agrees, Data, Kept, All;
    SameEventsExactly(lines, StandardLines(input), cap);
    CutsDepart(lines);
    AgreesIs(lines, Complete(input));
    hide Split, HasEmptyStart, DropEmpty, Events, StandardEvents;
  }

  /** Of plain lines both read equally many values. */
  lemma SameNumber(lines: seq<string>)
    requires Plain(lines)
    ensures var d, s := Cuts(lines), Cuts(ReadLines(lines));
            Count(d.done) + |d.open| == Count(s.done) + |s.open|
  {
    AllValues(lines);
    AllValues(ReadLines(lines));
    PlainReadsAll(lines);
  }

  lemma PlainLineReads(line: string, first: bool)
    requires PlainLine(line, first)
    ensures Carriers(Reading(line, first)) == if Carries(line) then 1 else 0
  {
    NoCarriers(Reading(line, first));
    if ReadAlike(line, first) {
      assert [line][..0] == [];
      assert Carriers([line]) == if Carries(line) then 1 else 0;
    } else {
      OddLine(line, first);
    }
  }

  lemma {:induction false} PlainReadsAll(lines: seq<string>)
    requires Plain(lines)
    ensures Carriers(ReadLines(lines)) == Carriers(lines)
  {
    if lines != [] {
      var front, last := lines[..|lines| - 1], lines[|lines| - 1];
      var first := |lines| == 1;
      PlainGrows(lines);
      PlainReadsAll(front);
      CarriersAdd(ReadLines(front), Reading(last, first));
      PlainLineReads(last, first);
      hide Carries, Plain, PlainLine, Reading;
    }
  }

  /** In a stream that both cut into the same lines nothing is hidden or split, so that the condition is
      the one on the first values of the groups and on the unfinished one. */
  lemma SameLinesAreFine(lines: seq<string>)
    requires NoCRs(lines) && (lines != [] ==> !(BOM <= lines[0]))
    ensures Plain(lines) && !Split(lines) && ReadLines(lines) == lines
    ensures Agrees(lines, Data(Unfinished(Groups(lines))) == []) <==>
            (forall g :: g in Finished(Groups(lines)) ==> !StartsEmpty(g)) && Event(Unfinished(Groups(lines))) == ""
  {
    NeverSplit(lines);
    EventIsEmpty(Unfinished(Groups(lines)));
  }

  lemma {:induction false} NeverSplit(lines: seq<string>)
    requires NoCRs(lines) && (lines != [] ==> !(BOM <= lines[0]))
    ensures Plain(lines) && !Split(lines) && !Parted(lines) && ReadLines(lines) == lines
  {
    if lines != [] {
      var front, last := lines[..|lines| - 1], lines[|lines| - 1];
      NeverSplit(front);
      OnePiece(last);
      assert lines == front + [last];
      assert ReadAlike(last, |lines| == 1);
      PlainGrows(lines);
    }
  }

  // ---------------------------------------------------------------- streams that depart

  lemma ScanLine(line: string, rest: string, limit: nat)
    requires '\n' !in line && |line| < limit
    ensures Scan(line + "\n" + rest, limit) == ([StripCR(line)] + Scan(rest, limit).0, Scan(rest, limit).1)
  {
    var s := line + "\n" + rest;
    assert s[..|line|] == line && s[|line| + 1..] == rest;
    LineEndIs(s, |line|);
  }

  lemma CutLine(line: string, end: char, rest: string)
    requires '\n' !in line && '\r' !in line && (end == '\n' || (end == '\r' && (rest != "" ==> rest[0] != '\n')))
    ensures CutLines(line + [end] + rest) == [line] + CutLines(rest)
  {
    var s := line + [end] + rest;
    assert s[..|line|] == line && s[|line| + 1..] == rest && s[|line|] == end;
    LineLengthIs(s, |line|);
  }

  lemma DataLine(v: string)
    ensures Carries("data: " + v) && DataField("data: " + v).value == v
  {
    var line := "data: " + v;
    assert line[..4] == "data" && line[0] == 'd' && line[4] == ':' && line[5] == ' ' && line[6..] == v;
  }

  /** Reading one more line. */
  lemma CutsAdd(lines: seq<string>, line: string)
    ensures Cuts(lines + [line]) == Take(Cuts(lines), line)
  {
    assert (lines + [line])[..|lines|] == lines;
  }

  lemma GroupsOfLine(line: string)
    requires line != ""
    ensures Groups([line]) == [[line]] && Groups([line, ""]) == [[line], []]
  {
    var none: seq<string> := [];
    assert Groups(none) == [none] && none + [line] == [line] && [none][0 := [line]] == [[line]];
    LineGrows(none, line);
    LineGrows([line], "");
    hide Groups;
    assert [line] + [""] == [line, ""] && [[line]] + [[]] == [[line], []];
  }

  /** The code on a stream of two lines, the second of which is blank. */
  lemma CodeOnOne(line: string, cap: nat)
    requires line != "" && (Carries(line) ==> 0 < |DataField(line).value| <= cap)
    ensures !TooLarge(Groups([line, ""]), cap)
    ensures Events(Groups([line, ""]), cap) == if Carries(line) then [DataField(line).value] else []
  {
    GroupsOfLine(line);
    assert [line][..0] == [] && Data([]) == [] && Event([]) == "";
    var e := if Carries(line) then DataField(line).value else "";
    assert Data([line]) == if Carries(line) then [e] else [];
    assert Event([line]) == e;
    assert [[line], []][..1] == [[line]] && [[line]][..0] == [];
    hide Event, Groups, Data;
    assert Events([], cap) == [] && Events([[line]], cap) == if e == "" then [] else [e];
  }

  /** The standard on a stream whose data lines a blank line ends. */
  lemma StandardOnTwo(v: string, w: string)
    ensures StandardEvents(Finished(Groups(["data: " + v, "data: " + w, ""]))) == [v + "\n" + w]
  {
    var x, y := "data: " + v, "data: " + w;
    DataLine(v);
    DataLine(w);
    TwoInOne(x, y);
    assert Join([v, w]) == v + "\n" + w by { assert [v, w][..1] == [v]; }
    hide Carries, DataField, Groups, StandardEvents;
  }

  lemma TwoInOne(x: string, y: string)
    requires Carries(x) && Carries(y)
    ensures StandardEvents(Finished(Groups([x, y, ""]))) == [Join([DataField(x).value, DataField(y).value])]
  {
    var v, w := DataField(x).value, DataField(y).value;
    assert x != "" && y != "";
    hide Carries, DataField;
    CutsAdd([], x);
    CutsAdd([x], y);
    CutsAdd([x, y], "");
    assert [] + [x] == [x] && [x] + [y] == [x, y] && [x, y] + [""] == [x, y, ""];
    assert Cuts([]) == NOTHING && [] + [v] == [v] && [v] + [w] == [v, w] && [] + [[v, w]] == [[v, w]];
    CutsAreGroups([x, y, ""]);
    StandardEventsAre(Finished(Groups([x, y, ""])));
    hide Groups, StandardEvents, Cuts, Given;
    assert [[v, w]][..0] == [];
  }

  lemma StandardOnOne(v: string)
    ensures StandardEvents(Finished(Groups(["data: " + v, ""]))) == [v]
  {
    var x := "data: " + v;
    DataLine(v);
    assert x != "";
    hide Carries, DataField;
    assert [] + [x] == [x] && [x] + [""] == [x, ""];
    CutsAdd([], x);
    CutsAdd([x], "");
    assert Cuts([]) == NOTHING && [] + [v] == [v];
    CutsAreGroups([x, ""]);
    StandardEventsAre(Finished(Groups([x, ""])));
    hide Groups;
    assert [[v]][..0] == [];
  }

  lemma BlankLast(limit: nat)
    requires limit > 0
    ensures Scan("\n", limit) == ([""], false) && CutLines("\n") == [""]
  {
    assert "\n" == "" + "\n" + "" && "\n" == "" + ['\n'] + "";
    ScanLine("", "", limit);
    CutLine("", '\n', "");
    assert Scan("", limit) == ([], false) && CutLines("") == [];
    assert [""] + Scan("", limit).0 == [""] && [""] + CutLines("") == [""];
  }

  /** One data line and a blank one, as the scanner sees them. */
  lemma ScanOne(line: string, limit: nat)
    requires NoLineFeed(line) && line != "" && line[|line| - 1] != '\r' && |line| < limit
    ensures Scan(line + "\n\n", limit) == ([line, ""], false)
  {
    BlankLast(limit);
    assert line + "\n\n" == line + "\n" + "\n";
    ScanLine(line, "\n", limit);
    assert [line] + [""] == [line, ""];
  }

  lemma CutOne(line: string)
    requires OneLine(line)
    ensures CutLines(line + "\n\n") == [line, ""]
  {
    BlankLast(1);
    assert line + "\n\n" == line + ['\n'] + "\n";
    CutLine(line, '\n', "\n");
  }

  /** A CR alone: the scanner sees one data line, the standard two. */
  lemma BareCRDeparts(v: string, w: string, cap: nat)
    requires OneLine(v) && OneLine(w) && |v| + |w| + 7 <= cap
    ensures var input := "data: " + v + "\r" + "data: " + w + "\n\n";
            var (lines, tooLong) := Scan(input, LineLimit(cap));
            && !tooLong && !TooLarge(Groups(lines), cap)
            && Events(Groups(lines), cap) == [v + "\r" + "data: " + w] && StandardStream(input) == [v + "\n" + w]
  {
    var input, value := "data: " + v + "\r" + "data: " + w + "\n\n", v + "\r" + "data: " + w;
    var line := "data: " + value;
    assert input == line + "\n\n";
    assert line[|line| - 1] == if w == "" then ' ' else w[|w| - 1];
    ScanOne(line, LineLimit(cap));
    DataLine(value);
    CodeOnOne(line, cap);
    BareCRCut(v, w);
    StandardOnTwo(v, w);
  }

  lemma BareCRCut(v: string, w: string)
    requires OneLine(v) && OneLine(w)
    ensures StandardLines("data: " + v + "\r" + "data: " + w + "\n\n") == ["data: " + v, "data: " + w, ""]
  {
    var x, y := "data: " + v, "data: " + w;
    var input := "data: " + v + "\r" + "data: " + w + "\n\n";
    assert input == x + ['\r'] + (y + "\n\n");
    CutLine(x, '\r', y + "\n\n");
    CutOne(y);
    assert !(BOM <= input) by { assert input[0] == 'd'; }
    assert [x] + [y, ""] == [x, y, ""];
  }

  /** A leading byte order mark: the scanner sees no data line, the standard one. */
  lemma MarkDeparts(v: string, cap: nat)
    requires OneLine(v) && |v| + 2 <= cap
    ensures var input := BOM + "data: " + v + "\n\n";
            var (lines, tooLong) := Scan(input, LineLimit(cap));
            && !tooLong && !TooLarge(Groups(lines), cap)
            && Events(Groups(lines), cap) == [] && StandardStream(input) == [v]
  {
    var input, line := BOM + "data: " + v + "\n\n", BOM + "data: " + v;
    MarkedData(v);
    ScanOne(line, LineLimit(cap));
    CodeOnOne(line, cap);
    CutOne("data: " + v);
    StandardOnOne(v);
    hide Scan, Groups, Events, TooLarge, CutLines, StandardEvents, Carries;
  }

  lemma MarkedData(v: string)
    ensures var input, line := BOM + "data: " + v + "\n\n", BOM + "data: " + v;
            && input == line + "\n\n" && BOM <= input && input[|BOM|..] == "data: " + v + "\n\n"
            && line[|line| - 1] == (if v == "" then ' ' else v[|v| - 1]) && !Carries(line)
    ensures OneLine(v) ==> OneLine("data: " + v) && NoLineFeed(BOM + "data: " + v)
  {
    var line := BOM + "data: " + v;
    assert line[0] == BOM[0] == '\U{EF}';
  }

  /** Why the theorem leaves out streams that hide a data line and are broken off: there the events agree
      or not as the values happen to be the same. Here the standard hands on y, which the scanner does not
      see, and the code hands on z, which the standard discards. */
  lemma BrokenOffTurnsOnValues(y: string, z: string, cap: nat)
    requires OneLine(y) && OneLine(z) && z != ""
    requires var lines := [":\r" + "data: " + y, "", "data: " + z];
             |y| + 8 < LineLimit(cap) && |z| + 6 < LineLimit(cap) && !TooLarge(Groups(lines), cap)
    ensures var input := ":\r" + "data: " + y + "\n\n" + "data: " + z;
            var (lines, tooLong) := Scan(input, LineLimit(cap));
            && !tooLong && !TooLarge(Groups(lines), cap) && !Plain(lines) && !Complete(input)
            && (Events(Groups(lines), cap) == StandardStream(input) <==> y == z)
  {
    var x, last := "data: " + y, "data: " + z;
    var lines, standard := [":\r" + x, "", last], [":", x, "", last];
    var input := ":\r" + x + "\n\n" + last;
    assert input == ":\r" + "data: " + y + "\n\n" + "data: " + z && lines[0] == ":\r" + "data: " + y;
    BrokenOffLines(x, last, LineLimit(cap));
    HiddenPiece(y, lines);
    hide Scan, Groups, Plain, TooLarge, Events, CutLines, StandardEvents, Cuts, Data, Kept;
    BrokenOffEvents(y, z, lines, standard, cap);
    ScannedIsClean(input, LineLimit(cap));
    CutLinesAreClean(input);
    CutsOfFour(y, z);
    CutsAreGroups(standard);
  }

  lemma BrokenOffEvents(y: string, z: string, lines: seq<string>, standard: seq<string>, cap: nat)
    requires lines == [":\r" + "data: " + y, "", "data: " + z] && standard == [":", "data: " + y, "", "data: " + z]
    requires OneLine(y) && OneLine(z) && z != "" && !TooLarge(Groups(lines), cap)
    ensures Events(Groups(lines), cap) == StandardEvents(Finished(Groups(standard))) <==> y == z
  {
    assert Clean(lines) && Clean(standard);
    CutsOfThree(lines[0], z);
    CutsOfFour(y, z);
    hide Groups, TooLarge, Events, StandardEvents, Cuts, Clean;
    SameEventsExactly(lines, standard, cap);
    var kept: seq<seq<string>> := [];
    KeptGrows(kept, [z]);
    assert kept + [[z]] == [[z]] && DropEmpty([z]) == [z] && Kept(kept) == kept;
    assert [[z]] == [[y]] <==> z == y by { assert [[z]][0][0] == z && [[y]][0][0] == y; }
  }

  lemma HiddenPiece(y: string, lines: seq<string>)
    requires |lines| > 0 && lines[0] == ":\r" + "data: " + y && OneLine(y)
    ensures !Plain(lines) && !Carries(lines[0])
  {
    var line := lines[0];
    DataLine(y);
    PiecesAtCR(line, 1);
    assert line[2..] == "data: " + y && line[..1] == ":" && line[0] == ':';
    PiecesOfNone("data: " + y);
    assert "data: " + y in Reading(line, true);
    assert !PlainLine(line, true);
  }

  lemma CutsOfThree(line: string, z: string)
    requires line != "" && line[0] == ':'
    ensures Cuts([line, "", "data: " + z]) == Cut([], [z])
  {
    var last := "data: " + z;
    DataLine(z);
    assert last != "" && !Carries(line);
    hide Carries, DataField;
    assert [] + [line] == [line] && [line] + [""] == [line, ""] && [line, ""] + [last] == [line, "", last];
    CutsAdd([], line);
    CutsAdd([line], "");
    CutsAdd([line, ""], last);
    assert Cuts([]) == NOTHING;
  }

  lemma CutsOfFour(y: string, z: string)
    ensures Cuts([":", "data: " + y, "", "data: " + z]) == Cut([[y]], [z])
  {
    var x, last := "data: " + y, "data: " + z;
    DataLine(y);
    DataLine(z);
    assert x != "" && last != "" && !Carries(":");
    hide Carries, DataField;
    assert [] + [":"] == [":"] && [":"] + [x] == [":", x] && [":", x] + [""] == [":", x, ""];
    assert [":", x, ""] + [last] == [":", x, "", last];
    CutsAdd([], ":");
    CutsAdd([":"], x);
    CutsAdd([":", x], "");
    CutsAdd([":", x, ""], last);
    assert Cuts([]) == NOTHING && Cuts([":"]) == NOTHING && [] + [y] == [y] && [] + [[y]] == [[y]] && [] + [z] == [z];
    assert Cuts([":", x]) == Cut([], [y]) && Cuts([":", x, ""]) == Cut([[y]], []);
  }

  lemma ScanLast(line: string, limit: nat)
    requires OneLine(line) && line != "" && |line| < limit
    ensures Scan(line, limit) == ([line], false) && CutLines(line) == [line]
  {
    LineEndIs(line, |line|);
    LineLengthIs(line, |line|);
    assert line[..|line|] == line && StripCR(line) == line by { assert line[|line| - 1] in line; }
    assert Scan("", limit) == ([], false) && CutLines("") == [];
    assert [line] + Scan("", limit).0 == [line] && [line] + CutLines("") == [line];
  }

  lemma BrokenOffLines(x: string, last: string, limit: nat)
    requires OneLine(x) && OneLine(last) && x != "" && last != "" && |x| + 2 < limit && |last| < limit
    ensures var input := ":\r" + x + "\n\n" + last;
            && !(BOM <= input)
            && Scan(input, limit) == ([":\r" + x, "", last], false)
            && CutLines(input) == [":", x, "", last]
  {
    var line := ":\r" + x;
    assert (line + "\n\n" + last)[0] == ':';
    assert line[|line| - 1] == x[|x| - 1];
    BrokenOffScan(line, last, limit);
    BrokenOffCut(x, last);
    hide Scan, CutLines;
  }

  lemma BrokenOffScan(line: string, last: string, limit: nat)
    requires NoLineFeed(line) && line != "" && line[|line| - 1] != '\r' && |line| < limit
    requires OneLine(last) && last != "" && |last| < limit
    ensures Scan(line + "\n\n" + last, limit) == ([line, "", last], false)
  {
    assert line + "\n\n" + last == line + "\n" + ("" + "\n" + last);
    ScanLine(line, "" + "\n" + last, limit);
    ScanLine("", last, limit);
    ScanLast(last, limit);
    hide Scan;
    assert [line] + ([""] + [last]) == [line, "", last];
  }

  lemma BrokenOffCut(x: string, last: string)
    requires OneLine(x) && OneLine(last) && last != "" && x != ""
    ensures CutLines(":\r" + x + "\n\n" + last) == [":", x, "", last]
  {
    var tail := "" + ['\n'] + last;
    var middle := x + ['\n'] + tail;
    BrokenOffText(x, last);
    assert middle[0] == x[0] && x[0] in x;
    hide CutLines;
    CutLine(":", '\r', middle);
    CutLine(x, '\n', tail);
    CutLine("", '\n', last);
    ScanLast(last, |last| + 1);
    Regroup([":"], [x], CutLines(tail));
    Regroup([":"] + [x], [""], [last]);
  }

  lemma BrokenOffText(x: string, last: string)
    ensures ":\r" + x + "\n\n" + last == ":" + ['\r'] + (x + ['\n'] + ("" + ['\n'] + last))
  {
  }

  datatype StreamError = NoError | EventTooLarge | LineTooLong

  /** ForwardSSE over the upstream's bytes: forwards and collects the lines the scanner yields; a line
      that is too long ends the stream and is the error reported. */
  method ForwardStream(input: string, cap: nat, usageOf: string -> Option<string>) returns (r: Result, err: StreamError)
    ensures var (lines, tooLong) := Scan(input, LineLimit(cap));
            && r.output == Output(lines) && r.events == Events(Groups(lines), cap)
            && r.usage == LastUsage(r.events, usageOf)
            && (err.LineTooLong? <==> tooLong)
            && (err.NoError? <==> !tooLong && !TooLarge(Groups(lines), cap))
            && (err.NoError? && (Plain(lines) || Complete(input)) ==>
                  (r.events == StandardStream(input) <==> Agrees(lines, Complete(input))))
  {
    hide Scan, Output, Events, Groups, LastUsage, TooLarge, Agrees, StandardStream, Plain, Complete;
    var scanned := Scan(input, LineLimit(cap));
    r := ForwardSSE(scanned.0, cap, usageOf);
    err := if scanned.1 then LineTooLong else if r.tooLarge then EventTooLarge else NoError;
    if err.NoError? && (Plain(scanned.0) || Complete(input)) { StreamDepartsExactly(input, cap); }
  }
}
