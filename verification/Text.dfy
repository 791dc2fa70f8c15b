/** White space and letter case, over the ASCII characters. */
module Text {
  predicate Space(c: char) { c == ' ' || ('\t' <= c <= '\r') }

  predicate Blank(s: string) { forall i :: 0 <= i < |s| ==> Space(s[i]) }

  function TrimLeft(s: string): string { if s != "" && Space(s[0]) then TrimLeft(s[1..]) else s }

  function TrimRight(s: string): string {
    if s != "" && Space(s[|s| - 1]) then TrimRight(s[..|s| - 1]) else s
  }

  function Trim(s: string): string { TrimRight(TrimLeft(s)) }

  function LowerChar(c: char): char { if 'A' <= c <= 'Z' then (c as int + 32) as char else c }

  function Lower(s: string): string { seq(|s|, i requires 0 <= i < |s| => LowerChar(s[i])) }
}
