/** Substring search through SQL LIKE (internal/store/records.go, likePattern). */
module LikePattern {
  import opened Text

  /** text LIKE pattern ESCAPE '!', section 8.5 of SQL-92. */
  predicate Like(text: string, pattern: string)
    decreases |pattern|, |text|
  {
    if pattern == "" then text == ""
    else if pattern[0] == '!' then
      |pattern| > 1 && text != "" && text[0] == pattern[1] && Like(text[1..], pattern[2..])
    else if pattern[0] == '%' then Like(text, pattern[1..]) || (text != "" && Like(text[1..], pattern))
    else if pattern[0] == '_' then text != "" && Like(text[1..], pattern[1..])
    else text != "" && text[0] == pattern[0] && Like(text[1..], pattern[1..])
  }

  predicate Special(c: char) { c == '!' || c == '%' || c == '_' }

  function Escape(s: string): string {
    if s == "" then "" else (if Special(s[0]) then ['!', s[0]] else [s[0]]) + Escape(s[1..])
  }

  /** likePattern */
  function PatternOf(search: string): string { "%" + Escape(Lower(Trim(search))) + "%" }

  ghost predicate Contains(text: string, s: string) {
    exists k :: 0 <= k <= |text| && s <= text[k..]
  }

  lemma {:induction false} AnythingMatches(text: string)
    ensures Like(text, "%")
  {
    if text == "" {
      assert Like("", "%"[1..]);
    } else {
      AnythingMatches(text[1..]);
    }
  }

  /** An escaped text followed by % matches exactly the texts it is a prefix of. */
  lemma {:induction false} EscapedIsPrefix(text: string, s: string)
    ensures Like(text, Escape(s) + "%") <==> s <= text
  {
    if s == "" {
      assert Escape(s) + "%" == "%";
      AnythingMatches(text);
    } else {
      var pattern := Escape(s) + "%";
      var rest := Escape(s[1..]) + "%";
      if Special(s[0]) {
        assert pattern[0] == '!' && pattern[1] == s[0] && pattern[2..] == rest;
      } else {
        assert pattern[0] == s[0] && pattern[1..] == rest;
      }
      if text != "" {
        EscapedIsPrefix(text[1..], s[1..]);
        assert s <= text <==> s[0] == text[0] && s[1..] <= text[1..] by {
          assert s == [s[0]] + s[1..] && text == [text[0]] + text[1..];
        }
      }
    }
  }

  /** A leading % tries every start. */
  lemma {:induction false} PercentTriesAll(text: string, pattern: string)
    ensures Like(text, "%" + pattern) <==> exists k :: 0 <= k <= |text| && Like(text[k..], pattern)
  {
    assert ("%" + pattern)[1..] == pattern;
    assert text[0..] == text;
    if text == "" {
      if Like(text, "%" + pattern) { assert Like(text[0..], pattern); }
    } else {
      PercentTriesAll(text[1..], pattern);
      if Like(text[1..], "%" + pattern) {
        var k :| 0 <= k <= |text[1..]| && Like(text[1..][k..], pattern);
        assert text[1..][k..] == text[k + 1..];
      }
      if exists k :: 0 <= k <= |text| && Like(text[k..], pattern) {
        var k :| 0 <= k <= |text| && Like(text[k..], pattern);
        if k > 0 { assert text[1..][k - 1..] == text[k..]; }
      }
    }
  }

  /** The search pattern matches a text exactly when the trimmed, lower-cased search occurs in it;
      %, _ and ! in the search stand for themselves. */
  lemma PatternIsSubstring(text: string, search: string)
    ensures Like(text, PatternOf(search)) <==> Contains(text, Lower(Trim(search)))
  {
    var s := Lower(Trim(search));
    assert PatternOf(search) == "%" + (Escape(s) + "%");
    PercentTriesAll(text, Escape(s) + "%");
    forall k | 0 <= k <= |text| ensures Like(text[k..], Escape(s) + "%") <==> s <= text[k..] {
      EscapedIsPrefix(text[k..], s);
    }
  }
}
