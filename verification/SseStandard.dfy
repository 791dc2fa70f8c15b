/** The events handed on against section 9.2.6 of the WHATWG HTML Standard, from the upstream's bytes on
    (internal/api/sse.go). A character stands for one byte of well-formed UTF-8. */
module SseStandard {
  import opened Wrappers
  import opened SseForwarder

  // ---------------------------------------------------------------- the standard's lines

  /** U+FEFF in UTF-8. */
  const BOM := "\U{EF}\U{BB}\U{BF}"

  /** The length of the first line: up to a CR or an LF. */
  function LineLength(s: string): (n: nat)
    ensures n <= |s| && (n < |s| ==> s[n] == '\r' || s[n] == '\n')
    ensures '\r' !in s[..n] && '\n' !in s[..n]
  {
    if s == "" || s[0] == '\r' || s[0] == '\n' then 0 else 1 + LineLength(s[1..])
  }

  /** What follows the first line and its end, which is CRLF, LF or CR. */
  function AfterLine(s: string): (rest: string)
    ensures s != "" ==> |rest| < |s|
  {
    var n := LineLength(s);
    if n == |s| then ""
    else if s[n] == '\r' && n + 1 < |s| && s[n + 1] == '\n' then s[n + 2..]
    else s[n + 1..]
  }

  function CutLines(s: string): seq<string>
    decreases |s|
  {
    if s == "" then [] else [s[..LineLength(s)]] + CutLines(AfterLine(s))
  }

  /** The standard's lines: one leading byte order mark is not part of the stream. */
  function StandardLines(input: string): seq<string> {
    CutLines(if BOM <= input then input[|BOM|..] else input)
  }

  // ---------------------------------------------------------------- one group

  /** What the code hands on for a group; a group's text is empty when it has no data to hand on. */
  function CodeDispatch(group: seq<string>): Option<string> {
    if Event(group) == "" then None else Some(Event(group))
  }

  /** What the standard dispatches for a group of its lines that a blank line ends: the data values joined
      by LF, as soon as there is one data line, even an empty one. */
  function StandardDispatch(group: seq<string>): Option<string> {
    if Data(group) == [] then None else Some(Join(Data(group)))
  }

  predicate StartsEmpty(group: seq<string>) { Data(group) != [] && Data(group)[0] == "" }

  /** On a finished group of the standard's lines the code departs from the standard exactly when the first
      data value is empty: an event of one empty line is not dispatched, and otherwise the leading empty
      lines are lost. */
  lemma DepartsExactly(group: seq<string>)
    ensures CodeDispatch(group) != StandardDispatch(group) <==> StartsEmpty(group)
  {
    var values := Data(group);
    if values != [] {
      if values[0] != "" {
        JoinNotEmpty(values);
      } else if |values| == 1 {
        assert values[1..] == [];
      } else {
        Shorter(values);
      }
    }
  }

  lemma {:induction false} JoinTail(values: seq<string>)
    requires |values| > 1
    ensures Join(values) == values[0] + "\n" + Join(values[1..])
  {
    var front, last := values[..|values| - 1], values[|values| - 1];
    if |values| == 2 {
      assert values[1..] == [last] && front == [values[0]];
    } else {
      JoinTail(front);
      assert values[1..][..|values| - 2] == front[1..];
    }
  }

  lemma {:induction false} DropIsShorter(values: seq<string>)
    ensures |Join(DropEmpty(values))| <= |Join(values)|
  {
    if values != [] && values[0] == "" {
      DropIsShorter(values[1..]);
      if |values| > 1 { JoinTail(values); } else { assert values[1..] == []; }
    }
  }

  lemma Shorter(values: seq<string>)
    requires |values| > 1 && values[0] == ""
    ensures |Join(DropEmpty(values))| < |Join(values)|
  {
    JoinTail(values);
    DropIsShorter(values[1..]);
  }

  /** The standard's events: those of the finished groups; an unfinished last one is discarded. */
  function StandardEvents(groups: seq<seq<string>>): seq<string> {
    if groups == [] then []
    else
      var d := StandardDispatch(groups[|groups| - 1]);
      StandardEvents(groups[..|groups| - 1]) + if d.Some? then [d.value] else []
  }

  function Finished(groups: seq<seq<string>>): seq<seq<string>>
    requires groups != []
  {
    groups[..|groups| - 1]
  }

  function Unfinished(groups: seq<seq<string>>): seq<string>
    requires groups != []
  {
    groups[|groups| - 1]
  }

  /** What the standard dispatches for the whole stream. */
  function StandardStream(input: string): seq<string> { StandardEvents(Finished(Groups(StandardLines(input)))) }

  // ---------------------------------------------------------------- data values, group by group

  predicate Carries(line: string) { !Comment(line) && DataField(line).Some? }

  /** The data values read so far: those of each finished group that has any, and those of the open one. */
  datatype Cut = Cut(done: seq<seq<string>>, open: seq<string>)

  const NOTHING := Cut([], [])

  function Take(c: Cut, line: string): Cut {
    if line == "" then Cut(c.done + OneOrNone(c.open), [])
    else if Carries(line) then c.(open := c.open + [DataField(line).value])
    else c
  }

  function TakeAll(c: Cut, lines: seq<string>): Cut {
    if lines == [] then c else Take(TakeAll(c, lines[..|lines| - 1]), lines[|lines| - 1])
  }

  function Cuts(lines: seq<string>): Cut { TakeAll(NOTHING, lines) }

  lemma {:induction false} TakeMore(c: Cut, a: seq<string>, b: seq<string>)
    ensures TakeAll(c, a + b) == TakeAll(TakeAll(c, a), b)
  {
    if b == [] {
      assert a + b == a;
    } else {
      assert (a + b)[..|a + b| - 1] == a + b[..|b| - 1];
      TakeMore(c, a, b[..|b| - 1]);
    }
  }

  /** The data values of the groups that have any. */
  function Given(groups: seq<seq<string>>): seq<seq<string>> {
    if groups == [] then []
    else
      var values := Data(groups[|groups| - 1]);
      Given(groups[..|groups| - 1]) + OneOrNone(values)
  }

  function OneOrNone(values: seq<string>): seq<seq<string>> { if values == [] then [] else [values] }

  function All(c: Cut): seq<seq<string>> { c.done + OneOrNone(c.open) }

  lemma DataGrows(group: seq<string>, line: string)
    ensures Data(group + [line]) == Data(group) + if Carries(line) then [DataField(line).value] else []
  {
    assert (group + [line])[..|group|] == group;
  }

  lemma GivenGrows(groups: seq<seq<string>>)
    requires groups != []
    ensures Given(groups) == Given(Finished(groups)) + OneOrNone(Data(Unfinished(groups)))
  {
  }

  /** The data values of groups, as a cut. */
  function CutOf(groups: seq<seq<string>>): Cut
    requires groups != []
  {
    Cut(Given(Finished(groups)), Data(Unfinished(groups)))
  }

  lemma BlankCut(before: seq<seq<string>>)
    requires before != []
    ensures Take(CutOf(before), "") == CutOf(before + [[]])
  {
    GivenGrows(before);
    assert Finished(before + [[]]) == before && Unfinished(before + [[]]) == [];
    hide Given;
  }

  lemma LineCut(before: seq<seq<string>>, line: string)
    requires before != [] && line != ""
    ensures Take(CutOf(before), line) == CutOf(before[|before| - 1 := before[|before| - 1] + [line]])
  {
    var after := before[|before| - 1 := before[|before| - 1] + [line]];
    DataGrows(Unfinished(before), line);
    assert Finished(after) == Finished(before) && Unfinished(after) == Unfinished(before) + [line];
    hide Given, Data, Carries, DataField;
  }

  /** Reading line by line yields the groups' data values. */
  lemma {:induction false} CutsAreGroups(lines: seq<string>)
    ensures Cuts(lines) == CutOf(Groups(lines)) && All(Cuts(lines)) == Given(Groups(lines))
  {
    GivenGrows(Groups(lines));
    if lines != [] {
      var front, last := lines[..|lines| - 1], lines[|lines| - 1];
      CutsAreGroups(front);
      if last == "" { BlankCut(Groups(front)); } else { LineCut(Groups(front), last); }
      assert Cuts(lines) == Take(Cuts(front), last);
      hide CutOf, Take, Given, Cuts, All;
    }
  }

  /** What the code keeps of each group's values: leading empty ones go. */
  function Kept(groups: seq<seq<string>>): seq<seq<string>> {
    if groups == [] then []
    else
      var values := DropEmpty(groups[|groups| - 1]);
      Kept(groups[..|groups| - 1]) + OneOrNone(values)
  }

  function Joined(groups: seq<seq<string>>): seq<string> {
    if groups == [] then [] else Joined(groups[..|groups| - 1]) + [Join(groups[|groups| - 1])]
  }

  lemma JoinedGrows(groups: seq<seq<string>>, more: seq<string>)
    ensures Joined(groups + [more]) == Joined(groups) + [Join(more)]
  {
    assert (groups + [more])[..|groups|] == groups;
  }

  lemma KeptGrows(groups: seq<seq<string>>, more: seq<string>)
    ensures Kept(groups + [more]) == Kept(groups) + OneOrNone(DropEmpty(more))
  {
    assert (groups + [more])[..|groups|] == groups;
  }

  lemma EventIsEmpty(group: seq<string>)
    ensures Event(group) == "" <==> DropEmpty(Data(group)) == []
  {
    var kept := DropEmpty(Data(group));
    DropEmptyHead(Data(group));
    if kept != [] { JoinNotEmpty(kept); }
  }

  lemma KeptJoined(before: seq<seq<string>>, values: seq<string>)
    ensures Joined(Kept(before + OneOrNone(values))) ==
            Joined(Kept(before)) + if DropEmpty(values) == [] then [] else [Join(DropEmpty(values))]
  {
    hide Join;
    if values == [] {
      assert before + [] == before;
    } else {
      KeptGrows(before, values);
      JoinedGrows(Kept(before), DropEmpty(values));
      assert Kept(before) + [] == Kept(before);
    }
  }

  lemma GivenJoined(before: seq<seq<string>>, values: seq<string>)
    ensures Joined(before + OneOrNone(values)) == Joined(before) + if values == [] then [] else [Join(values)]
  {
    if values == [] { assert before + [] == before; } else { JoinedGrows(before, values); }
  }

  /** Within the cap, the code's events are the kept values of each group, joined. */
  lemma {:induction false} CodeEvents(groups: seq<seq<string>>, cap: nat)
    requires !TooLarge(groups, cap)
    ensures Events(groups, cap) == Joined(Kept(Given(groups)))
  {
    if groups != [] {
      var front, last := groups[..|groups| - 1], groups[|groups| - 1];
      assert forall i :: 0 <= i < |front| ==> front[i] == groups[i];
      assert |Event(last)| <= cap;
      CodeEvents(front, cap);
      EventIsEmpty(last);
      KeptJoined(Given(front), Data(last));
      assert Event(last) == Join(DropEmpty(Data(last)));
      hide TooLarge, Event, Data, DropEmpty, Kept, Joined, Join;
    }
  }

  lemma {:induction false} StandardEventsAre(groups: seq<seq<string>>)
    ensures StandardEvents(groups) == Joined(Given(groups))
  {
    if groups != [] {
      var front, last := groups[..|groups| - 1], groups[|groups| - 1];
      StandardEventsAre(front);
      GivenJoined(Given(front), Data(last));
      hide Data, Join, Joined;
    }
  }

  // ---------------------------------------------------------------- a text fixes its values

  predicate NoFeeds(values: seq<string>) { forall i :: 0 <= i < |values| ==> NoLineFeed(values[i]) }

  lemma {:induction false} JoinSplits(a: seq<string>, b: seq<string>)
    requires a != [] && b != [] && NoFeeds(a) && NoFeeds(b) && Join(a) == Join(b)
    ensures a == b
  {
    if |a| > 1 { JoinTail(a); assert Join(a)[|a[0]|] == '\n'; }
    if |b| > 1 { JoinTail(b); assert Join(b)[|b[0]|] == '\n'; }
    if |a| > 1 && |b| > 1 {
      SameHead(a[0], Join(a[1..]), b[0], Join(b[1..]));
      JoinSplits(a[1..], b[1..]);
      assert a == [a[0]] + a[1..] && b == [b[0]] + b[1..];
    }
  }

  lemma SameHead(x: string, restX: string, y: string, restY: string)
    requires NoLineFeed(x) && NoLineFeed(y) && x + "\n" + restX == y + "\n" + restY
    ensures x == y && restX == restY
  {
    var s := x + "\n" + restX;
    assert s[|x|] == '\n' && s[|y|] == '\n';
    assert forall i :: 0 <= i < |x| ==> s[i] == x[i] && s[i] != '\n';
    assert forall i :: 0 <= i < |y| ==> s[i] == y[i] && s[i] != '\n';
    assert s[..|x|] == x && s[..|y|] == y;
    assert s[|x| + 1..] == restX && s[|y| + 1..] == restY;
  }

  /** Groups of values as they are read: none is empty and no value holds an LF. */
  predicate Tidy(groups: seq<seq<string>>) { forall i :: 0 <= i < |groups| ==> groups[i] != [] && NoFeeds(groups[i]) }

  lemma {:induction false} JoinedSplits(a: seq<seq<string>>, b: seq<seq<string>>)
    requires Tidy(a) && Tidy(b)
    ensures Joined(a) == Joined(b) <==> a == b
  {
    hide NoFeeds;
    JoinedLength(a);
    JoinedLength(b);
    if a != [] && b != [] {
      var fa, la, fb, lb := a[..|a| - 1], a[|a| - 1], b[..|b| - 1], b[|b| - 1];
      JoinedSplits(fa, fb);
      if Joined(a) == Joined(b) {
        assert Joined(a)[|a| - 1] == Join(la) && Joined(b)[|b| - 1] == Join(lb);
        assert Joined(fa) == Joined(a)[..|a| - 1] && Joined(fb) == Joined(b)[..|b| - 1];
        JoinSplits(la, lb);
        assert a == fa + [la] && b == fb + [lb];
      }
    }
  }

  lemma {:induction false} JoinedLength(groups: seq<seq<string>>)
    ensures |Joined(groups)| == |groups|
  {
    if groups != [] { JoinedLength(groups[..|groups| - 1]); }
  }

  lemma {:induction false} CutsAreTidy(lines: seq<string>)
    requires Clean(lines)
    ensures Tidy(Cuts(lines).done) && NoFeeds(Cuts(lines).open)
  {
    if lines != [] {
      CutsAreTidy(lines[..|lines| - 1]);
      FieldHasNoLineFeed(lines[|lines| - 1]);
    }
  }

  lemma AllIsTidy(c: Cut)
    requires Tidy(c.done) && NoFeeds(c.open)
    ensures Tidy(All(c))
  {
    hide NoFeeds;
  }

  lemma FieldHasNoLineFeed(line: string)
    requires NoLineFeed(line)
    ensures DataField(line).Some? ==> NoLineFeed(DataField(line).value)
  {
  }

  lemma {:induction false} DropKeepsTail(values: seq<string>)
    ensures exists n :: 0 <= n <= |values| && DropEmpty(values) == values[n..]
  {
    if values != [] && values[0] == "" {
      DropKeepsTail(values[1..]);
      var n :| 0 <= n <= |values| - 1 && DropEmpty(values[1..]) == values[1..][n..];
      assert values[1..][n..] == values[n + 1..];
    } else {
      assert values[0..] == values;
    }
  }

  lemma {:induction false} KeptIsTidy(groups: seq<seq<string>>)
    requires Tidy(groups)
    ensures Tidy(Kept(groups))
  {
    if groups != [] {
      KeptIsTidy(groups[..|groups| - 1]);
      DropKeepsTail(groups[|groups| - 1]);
    }
  }

  // ---------------------------------------------------------------- every stream, value by value

  /** For every stream within the cap, whatever bytes it holds: the events handed on are the standard's if
      and only if, with leading empty values gone and the last group included, the code has read the same
      data values in the same groups. */
  lemma SameEventsExactly(lines: seq<string>, standard: seq<string>, cap: nat)
    requires Clean(lines) && Clean(standard) && !TooLarge(Groups(lines), cap)
    ensures Events(Groups(lines), cap) == StandardEvents(Finished(Groups(standard)))
            <==> Kept(All(Cuts(lines))) == Cuts(standard).done
  {
    hide Groups, TooLarge, Events, StandardEvents, Given, Kept, Joined, Clean, Data, Tidy, Cuts, All, NoFeeds;
    CutsAreGroups(lines);
    CutsAreGroups(standard);
    CodeEvents(Groups(lines), cap);
    StandardEventsAre(Finished(Groups(standard)));
    CutsAreTidy(lines);
    CutsAreTidy(standard);
    AllIsTidy(Cuts(lines));
    KeptIsTidy(All(Cuts(lines)));
    JoinedSplits(Kept(All(Cuts(lines))), Cuts(standard).done);
  }
}
