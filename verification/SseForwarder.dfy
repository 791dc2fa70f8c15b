/** Forwarding a server-sent event stream line by line while collecting its events
    (internal/api/sse.go). */
module SseForwarder {
  import opened Wrappers

  // ---------------------------------------------------------------- one line

  /** sseField(line, "data"): the value after "data:" and one optional space. */
  function DataField(line: string): Option<string> {
    if !("data" <= line) then None
    else if line == "data" then Some("")
    else if line[4] != ':' then None
    else if |line| > 5 && line[5] == ' ' then Some(line[6..])
    else Some(line[5..])
  }

  predicate Comment(line: string) { line != "" && line[0] == ':' }

  // ---------------------------------------------------------------- the batch specification

  /** The stream cut at its blank lines; the last group is unfinished. */
  function Groups(lines: seq<string>): (groups: seq<seq<string>>)
    ensures |groups| > 0
  {
    if lines == [] then [[]]
    else
      var before, last := Groups(lines[..|lines| - 1]), lines[|lines| - 1];
      if last == "" then before + [[]]
      else before[|before| - 1 := before[|before| - 1] + [last]]
  }

  /** Puts the blank lines back. */
  function Unsplit(groups: seq<seq<string>>): seq<string> {
    if |groups| == 0 then []
    else if |groups| == 1 then groups[0]
    else Unsplit(groups[..|groups| - 1]) + [""] + groups[|groups| - 1]
  }

  /** Groups is the cut at blank lines: no group contains one and nothing is lost. */
  lemma {:induction false} GroupsAreTheCut(lines: seq<string>)
    ensures Unsplit(Groups(lines)) == lines
    ensures forall g :: g in Groups(lines) ==> "" !in g
  {
    if lines != [] {
      var front, last := lines[..|lines| - 1], lines[|lines| - 1];
      GroupsAreTheCut(front);
      var before := Groups(front);
      assert lines == front + [last];
      if last == "" {
        assert (before + [[]])[..|before|] == before;
      } else {
        var after := before[|before| - 1 := before[|before| - 1] + [last]];
        assert after[..|before| - 1] == before[..|before| - 1];
      }
    }
  }

  /** The data values of a group, in order; comments and other fields carry none. */
  function Data(group: seq<string>): seq<string> {
    if group == [] then []
    else
      var line := group[|group| - 1];
      Data(group[..|group| - 1])
      + if !Comment(line) && DataField(line).Some? then [DataField(line).value] else []
  }

  function Join(values: seq<string>): string {
    if values == [] then ""
    else if |values| == 1 then values[0]
    else Join(values[..|values| - 1]) + "\n" + values[|values| - 1]
  }

  function DropEmpty(values: seq<string>): seq<string> {
    if values != [] && values[0] == "" then DropEmpty(values[1..]) else values
  }

  /** The text of a group's event: its data values from the first non-empty one on, joined by LF. */
  function Event(group: seq<string>): string { Join(DropEmpty(Data(group))) }

  /** The events handed on: the texts that are not empty and not longer than the cap. */
  function Events(groups: seq<seq<string>>, cap: nat): seq<string> {
    if groups == [] then []
    else
      var e := Event(groups[|groups| - 1]);
      Events(groups[..|groups| - 1], cap) + if 0 < |e| <= cap then [e] else []
  }

  predicate TooLarge(groups: seq<seq<string>>, cap: nat) {
    exists i :: 0 <= i < |groups| && |Event(groups[i])| > cap
  }

  function LastUsage(events: seq<string>, usageOf: string -> Option<string>): Option<string> {
    if events == [] then None
    else
      var u := usageOf(events[|events| - 1]);
      if u.Some? then u else LastUsage(events[..|events| - 1], usageOf)
  }

  function Output(lines: seq<string>): string {
    if lines == [] then "" else Output(lines[..|lines| - 1]) + lines[|lines| - 1] + "\n"
  }

  // ---------------------------------------------------------------- joining step by step

  /** The buffer after one more data line: a separator only once it is not empty. */
  function Append(buffer: string, value: string): string {
    if buffer == "" then value else buffer + "\n" + value
  }

  lemma {:induction false} DropEmptyGrows(values: seq<string>, v: string)
    ensures DropEmpty(values + [v]) ==
            if DropEmpty(values) == [] then (if v == "" then [] else [v]) else DropEmpty(values) + [v]
  {
    if values == [] {
      assert values + [v] == [v] && [v][1..] == [];
    } else if values[0] == "" {
      assert (values + [v])[1..] == values[1..] + [v];
      DropEmptyGrows(values[1..], v);
    }
  }

  lemma {:induction false} DropEmptyHead(values: seq<string>)
    ensures DropEmpty(values) != [] ==> DropEmpty(values)[0] != ""
  {
    if values != [] && values[0] == "" { DropEmptyHead(values[1..]); }
  }

  lemma {:induction false} JoinNotEmpty(values: seq<string>)
    requires values != [] && values[0] != ""
    ensures Join(values) != ""
  {
    if |values| > 1 { JoinNotEmpty(values[..|values| - 1]); }
  }

  /** Appending one line at a time yields the batch text. */
  lemma JoinGrows(values: seq<string>, v: string)
    ensures Join(DropEmpty(values + [v])) == Append(Join(DropEmpty(values)), v)
  {
    DropEmptyGrows(values, v);
    DropEmptyHead(values);
    var kept := DropEmpty(values);
    if kept != [] {
      JoinNotEmpty(kept);
      assert (kept + [v])[..|kept|] == kept;
    }
  }

  // ---------------------------------------------------------------- the streaming loop

  datatype Result = Result(
    output: string,
    events: seq<string>,
    usage: Option<string>,
    tooLarge: bool,
    firstChunk: bool,   // TTFTMs is set
    flushes: nat)

  function Blanks(lines: seq<string>): nat {
    if lines == [] then 0 else Blanks(lines[..|lines| - 1]) + if lines[|lines| - 1] == "" then 1 else 0
  }

  /** The loop's state after the lines so far: buffer and dropping describe the unfinished group. */
  ghost predicate Partial(lines: seq<string>, cap: nat, usageOf: string -> Option<string>,
                          buffer: string, dropping: bool, r: Result) {
    var groups := Groups(lines);
    var open := Event(groups[|groups| - 1]);
    && dropping == (|open| > cap) && buffer == (if dropping then "" else open)
    && r.output == Output(lines) && r.flushes == Blanks(lines)
    && r.events == Events(groups[..|groups| - 1], cap)
    && r.usage == LastUsage(r.events, usageOf) && r.firstChunk == (r.events != [])
    && r.tooLarge == TooLarge(groups, cap)
  }

  function Dispatched(r: Result, e: string, usageOf: string -> Option<string>): Result {
    var u := usageOf(e);
    r.(events := r.events + [e], usage := if u.Some? then u else r.usage, firstChunk := true)
  }

  lemma DispatchKeeps(r: Result, e: string, usageOf: string -> Option<string>)
    requires r.usage == LastUsage(r.events, usageOf)
    ensures Dispatched(r, e, usageOf).usage == LastUsage(r.events + [e], usageOf)
  {
    assert (r.events + [e])[..|r.events|] == r.events;
  }

  lemma LineGrows(lines: seq<string>, line: string)
    ensures var before, after := Groups(lines), Groups(lines + [line]);
            var n := |before| - 1;
            && Output(lines + [line]) == Output(lines) + line + "\n"
            && Blanks(lines + [line]) == Blanks(lines) + (if line == "" then 1 else 0)
            && (line == "" ==> after == before + [[]] && Event([]) == "")
            && (line != "" ==> after == before[n := before[n] + [line]] && after[..n] == before[..n])
  {
    assert (lines + [line])[..|lines|] == lines;
  }

  /** A data line extends the unfinished event; any other line that is not blank leaves it alone. */
  lemma EventGrows(group: seq<string>, line: string)
    ensures Event(group + [line]) ==
            if !Comment(line) && DataField(line).Some? then Append(Event(group), DataField(line).value) else Event(group)
  {
    assert (group + [line])[..|group|] == group;
    if !Comment(line) && DataField(line).Some? {
      JoinGrows(Data(group), DataField(line).value);
    } else {
      assert Data(group + [line]) == Data(group);
    }
  }

  lemma OneGroupChanged(before: seq<seq<string>>, after: seq<seq<string>>, cap: nat)
    requires before != [] && |after| == |before| && after[..|before| - 1] == before[..|before| - 1]
    requires |Event(before[|before| - 1])| <= |Event(after[|before| - 1])|
    ensures TooLarge(after, cap) <==> TooLarge(before, cap) || |Event(after[|before| - 1])| > cap
  {
    hide Event;
    var n := |before| - 1;
    assert forall i :: 0 <= i < n ==> after[i] == after[..n][i] && before[i] == before[..n][i];
  }

  lemma NewGroup(before: seq<seq<string>>, cap: nat)
    requires before != [] && Event([]) == ""
    ensures TooLarge(before + [[]], cap) <==> TooLarge(before, cap)
    ensures (before + [[]])[..|before|] == before
    ensures var e := Event(before[|before| - 1]);
            Events(before, cap) == Events(before[..|before| - 1], cap) + (if 0 < |e| <= cap then [e] else [])
  {
    hide Event;
    var after := before + [[]];
    assert forall i :: 0 <= i < |before| ==> after[i] == before[i];
  }

  /** A line that is not blank. */
  lemma LineKeeps(lines: seq<string>, line: string, cap: nat, usageOf: string -> Option<string>,
                  buffer: string, dropping: bool, r: Result)
    requires Partial(lines, cap, usageOf, buffer, dropping, r) && line != ""
    ensures var value := if Comment(line) then None else DataField(line);
            var next := if value.Some? && !dropping then Append(buffer, value.value) else buffer;
            var full := |next| > cap;
            Partial(lines + [line], cap, usageOf, if full then "" else next, dropping || full,
                    r.(output := r.output + line + "\n", tooLarge := r.tooLarge || full))
  {
    hide Event, Events, Groups, Output, Blanks, LastUsage, DataField, Comment, TooLarge;
    var before, after := Groups(lines), Groups(lines + [line]);
    var n := |before| - 1;
    LineGrows(lines, line);
    EventGrows(before[n], line);
    OneGroupChanged(before, after, cap);
    OpenTooLarge(before, cap);
  }

  lemma OpenTooLarge(groups: seq<seq<string>>, cap: nat)
    requires groups != []
    ensures |Event(groups[|groups| - 1])| > cap ==> TooLarge(groups, cap)
  {
  }

  /** A blank line: dispatches the finished event, if it is not empty and was not dropped. */
  lemma BlankKeeps(lines: seq<string>, cap: nat, usageOf: string -> Option<string>,
                   buffer: string, dropping: bool, r: Result)
    requires Partial(lines, cap, usageOf, buffer, dropping, r)
    ensures var flushed := r.(output := r.output + "" + "\n", flushes := r.flushes + 1);
            Partial(lines + [""], cap, usageOf, "", false,
                    if !dropping && |buffer| > 0 then Dispatched(flushed, buffer, usageOf) else flushed)
  {
    hide Event, Events, Groups, Output, Blanks, LastUsage, TooLarge;
    LineGrows(lines, "");
    NewGroup(Groups(lines), cap);
    DispatchKeeps(r, buffer, usageOf);
  }

  lemma NothingYet(cap: nat, usageOf: string -> Option<string>)
    ensures Partial([], cap, usageOf, "", false, Result("", [], None, false, false, 0))
  {
    assert Groups([])[..0] == [];
    assert Event([]) == "";
  }

  /** For every stream: the client gets every scanned line and a line feed; the events handed on, in
      order, are the texts of all groups between blank lines, the unfinished last one included,
      except the empty ones and those longer than the cap; an event too long is dropped whole,
      changes no other event, and is reported; the usage is that of the last event that carries one. */
  method ForwardSSE(lines: seq<string>, cap: nat, usageOf: string -> Option<string>) returns (r: Result)
    ensures r.output == Output(lines) && r.flushes == Blanks(lines) + 1
    ensures r.events == Events(Groups(lines), cap)
    ensures r.tooLarge <==> TooLarge(Groups(lines), cap)
    ensures r.usage == LastUsage(r.events, usageOf) && (r.firstChunk <==> r.events != [])
  {
    hide Event, Events, Groups, Output, Blanks, LastUsage, TooLarge, Partial;
    r := Result("", [], None, false, false, 0);
    var eventData, eventTooLarge := "", false;
    NothingYet(cap, usageOf);
    for n := 0 to |lines|
      invariant Partial(lines[..n], cap, usageOf, eventData, eventTooLarge, r)
    {
      var line := lines[n];
      assert lines[..n + 1] == lines[..n] + [line];
      if line == "" {
        BlankKeeps(lines[..n], cap, usageOf, eventData, eventTooLarge, r);
        r := r.(output := r.output + line + "\n", flushes := r.flushes + 1);
        if !eventTooLarge && |eventData| > 0 { r := Dispatched(r, eventData, usageOf); }
        eventData, eventTooLarge := "", false;
      } else {
        LineKeeps(lines[..n], line, cap, usageOf, eventData, eventTooLarge, r);
        BufferFits(lines[..n], cap, usageOf, eventData, eventTooLarge, r);
        r := r.(output := r.output + line + "\n");
        if Comment(line) { continue; }
        var data := DataField(line);
        if data.Some? && !eventTooLarge {
          var nextLen := |eventData| + |data.value| + if |eventData| > 0 then 1 else 0;
          if nextLen > cap {
            eventData, eventTooLarge := "", true;
            r := r.(tooLarge := true);
          } else {
            eventData := Append(eventData, data.value);
          }
        }
      }
    }
    assert lines[..|lines|] == lines;
    LastEvent(lines, cap, usageOf, eventData, eventTooLarge, r);
    if !eventTooLarge && |eventData| > 0 { r := Dispatched(r, eventData, usageOf); }
    r := r.(flushes := r.flushes + 1);
  }

  lemma BufferFits(lines: seq<string>, cap: nat, usageOf: string -> Option<string>, buffer: string, dropping: bool, r: Result)
    requires Partial(lines, cap, usageOf, buffer, dropping, r)
    ensures |buffer| <= cap && (dropping ==> buffer == "" && r.tooLarge)
  {
    hide Event, Events, Groups, Output, Blanks, LastUsage, TooLarge;
    OpenTooLarge(Groups(lines), cap);
  }

  lemma LastEvent(lines: seq<string>, cap: nat, usageOf: string -> Option<string>, buffer: string, dropping: bool, r: Result)
    requires Partial(lines, cap, usageOf, buffer, dropping, r)
    ensures var after := if !dropping && |buffer| > 0 then Dispatched(r, buffer, usageOf) else r;
            && after.events == Events(Groups(lines), cap) && after.usage == LastUsage(after.events, usageOf)
            && (after.firstChunk <==> after.events != [])
    ensures r.output == Output(lines) && r.flushes == Blanks(lines) && (r.tooLarge <==> TooLarge(Groups(lines), cap))
  {
    hide Event, Groups, Output, Blanks, LastUsage, TooLarge;
    DispatchKeeps(r, buffer, usageOf);
  }

  // ---------------------------------------------------------------- the line scanner

  const INITIAL_BUFFER := 256 * 1024

  /** A line of this many bytes, or more, fills the scanner's buffer before its end is seen. */
  function LineLimit(cap: nat): nat {
    if cap + 8 < INITIAL_BUFFER then INITIAL_BUFFER else cap + 8
  }

  /** The length of the first line, without its LF. */
  function LineEnd(input: string): (n: nat)
    ensures n <= |input| && '\n' !in input[..n] && (n < |input| ==> input[n] == '\n')
  {
    if input == "" || input[0] == '\n' then 0 else 1 + LineEnd(input[1..])
  }

  function StripCR(line: string): string {
    if line != "" && line[|line| - 1] == '\r' then line[..|line| - 1] else line
  }

  /** bufio.ScanLines over the whole stream: the lines up to the first one that is too long, and whether
      there is such a line. */
  function Scan(input: string, limit: nat): (seq<string>, bool)
    decreases |input|
  {
    if input == "" then ([], false)
    else
      var n := LineEnd(input);
      if n >= limit then ([], true)
      else
        var (rest, tooLong) := Scan(if n < |input| then input[n + 1..] else "", limit);
        ([StripCR(input[..n])] + rest, tooLong)
  }

  predicate NoLineFeed(s: string) { '\n' !in s }

  predicate Clean(group: seq<string>) { forall i :: 0 <= i < |group| ==> NoLineFeed(group[i]) }

  lemma {:induction false} ScannedIsClean(input: string, limit: nat)
    ensures Clean(Scan(input, limit).0)
    decreases |input|
  {
    if input != "" && LineEnd(input) < limit {
      var n := LineEnd(input);
      ScannedIsClean(if n < |input| then input[n + 1..] else "", limit);
    }
  }

  /** The limit leaves room for the field name, the space and the CR: the data value of a line that is
      too long for the scanner is too long for an event, so no event within the cap is lost to it. */
  lemma LongLineIsTooLarge(line: string, cap: nat)
    requires |line| >= LineLimit(cap) && DataField(StripCR(line)).Some?
    ensures |DataField(StripCR(line)).value| > cap
  {
  }
}
