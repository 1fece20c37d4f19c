/**
 The string operations the state machine document generator is built on
 (scripts/generate_state_machine_docs.py), over the ASCII classes of its regular expressions.
 */
module Text {

  /** `\s` and str.strip: blank, tab to carriage return, and the separators 0x1C to 0x1F. */
  predicate IsSpace(c: char) { c == ' ' || '\t' <= c <= '\r' || '\U{1C}' <= c <= '\U{1F}' }

  /** `\w` */
  predicate IsWord(c: char) {
    'a' <= c <= 'z' || 'A' <= c <= 'Z' || '0' <= c <= '9' || c == '_'
  }

  predicate AllWord(s: string) { forall c <- s :: IsWord(c) }

  function LStrip(s: string): (r: string)
    ensures |r| <= |s| && (r != [] ==> !IsSpace(r[0]))
  {
    if s != [] && IsSpace(s[0]) then LStrip(s[1..]) else s
  }

  function RStrip(s: string): (r: string)
    ensures |r| <= |s|
  {
    if s != [] && IsSpace(s[|s| - 1]) then RStrip(s[..|s| - 1]) else s
  }

  function Strip(s: string): (r: string)
    ensures |r| <= |s|
  {
    RStrip(LStrip(s))
  }

  /** str.rstrip(",") */
  function RStripCommas(s: string): (r: string)
    ensures |r| <= |s|
  {
    if s != [] && s[|s| - 1] == ',' then RStripCommas(s[..|s| - 1]) else s
  }

  predicate StartsWith(s: string, p: string) { |p| <= |s| && s[..|p|] == p }

  predicate Trimmed(s: string) { s != [] && !IsSpace(s[0]) && !IsSpace(s[|s| - 1]) }

  lemma StripTrimmed(s: string)
    requires Trimmed(s)
    ensures Strip(s) == s && Strip(" " + s) == s
  {
    assert (" " + s)[1..] == s;
    assert LStrip(" " + s) == LStrip(s) == s;
  }

  lemma StartsWithSelf(p: string, rest: string)
    ensures StartsWith(p + rest, p) && (p + rest)[|p|..] == rest
  {
  }

  /** sep.join(parts) */
  function Join(parts: seq<string>, sep: string): (s: string) {
    if parts == [] then "" else if |parts| == 1 then parts[0] else parts[0] + sep + Join(parts[1..], sep)
  }

  /** The word characters a string starts with (`\w*`). */
  function LeadingWord(s: string): (w: string)
    ensures |w| <= |s| && w == s[..|w|] && AllWord(w) && (|w| < |s| ==> !IsWord(s[|w|]))
  {
    if s == [] || !IsWord(s[0]) then ""
    else
      var w := LeadingWord(s[1..]);
      assert s[..1 + |w|] == [s[0]] + s[1..][..|w|];
      [s[0]] + w
  }

  lemma {:induction false} LeadingWordOf(w: string, rest: string)
    requires AllWord(w) && (rest == [] || !IsWord(rest[0]))
    ensures LeadingWord(w + rest) == w
  {
    if w == [] {
      assert w + rest == rest;
    } else {
      assert w[0] in w;
      assert (w + rest)[1..] == w[1..] + rest;
      LeadingWordOf(w[1..], rest);
      assert w == [w[0]] + w[1..];
    }
  }
}
