/** String helpers shared by the engine layer: substring search, ASCII
    lower-casing, quote replacement, space-joining and newline trimming. */
module Text {

  /** `pat` occurs in `s` starting at index `i`. */
  predicate OccursAt(s: string, pat: string, i: int)
  {
    0 <= i && i + |pat| <= |s| && s[i..i + |pat|] == pat
  }

  /** Substring test, scanning `s` from the left: true exactly when `pat`
      occurs at some index of `s`. */
  function Contains(s: string, pat: string): (b: bool)
    ensures b <==> exists i :: OccursAt(s, pat, i)
    decreases |s|
  {
    if |s| < |pat| then false
    else if s[..|pat|] == pat then assert OccursAt(s, pat, 0); true
    else
      var b := Contains(s[1..], pat);
      assert b <==> exists i :: OccursAt(s, pat, i) by { OccursInTail(s, pat); }
      b
  }

  /** When `pat` is not a prefix of `s`, its occurrences in `s` are those
      in `s[1..]`, shifted by one. */
  lemma OccursInTail(s: string, pat: string)
    requires |s| >= |pat| && s[..|pat|] != pat
    ensures (exists i :: OccursAt(s, pat, i)) <==> exists i :: OccursAt(s[1..], pat, i)
  {
    if exists i :: OccursAt(s, pat, i) {
      var i :| OccursAt(s, pat, i);
      assert i != 0;
      assert s[1..][i - 1..i - 1 + |pat|] == s[i..i + |pat|];
      assert OccursAt(s[1..], pat, i - 1);
    }
    if exists i :: OccursAt(s[1..], pat, i) {
      var i :| OccursAt(s[1..], pat, i);
      assert s[1..][i..i + |pat|] == s[i + 1..i + 1 + |pat|];
      assert OccursAt(s, pat, i + 1);
    }
  }

  /** Surrounding text never hides an occurrence. */
  lemma ContainsInContext(x: string, s: string, y: string, pat: string)
    requires Contains(s, pat)
    ensures Contains(x + s + y, pat)
  {
    var i :| OccursAt(s, pat, i);
    assert (x + s + y)[|x| + i..|x| + i + |pat|] == s[i..i + |pat|];
    assert OccursAt(x + s + y, pat, |x| + i);
  }

  predicate IsUpper(c: char)
  {
    'A' <= c <= 'Z'
  }

  function LowerChar(c: char): char
  {
    if IsUpper(c) then (c as int + 32) as char else c
  }

  /** Lower-cases the ASCII letters of `s`; every other character is kept. */
  function Lower(s: string): (r: string)
    ensures |r| == |s|
    ensures forall i :: 0 <= i < |s| ==> r[i] == LowerChar(s[i])
  {
    if s == [] then [] else [LowerChar(s[0])] + Lower(s[1..])
  }

  /** A lower-cased string holds no upper-case letter ... */
  lemma LowerHasNoUpper(s: string)
    ensures forall i :: 0 <= i < |s| ==> !IsUpper(Lower(s)[i])
  {
  }

  /** ... so lower-casing twice is lower-casing once. */
  lemma LowerIdempotent(s: string)
    ensures Lower(Lower(s)) == Lower(s)
  {
  }

  /** Replaces every double quote of `s` by a single quote. */
  function ReplaceQuotes(s: string): (r: string)
    ensures |r| == |s|
    ensures forall i :: 0 <= i < |s| ==> r[i] == (if s[i] == '"' then '\'' else s[i])
  {
    if s == [] then [] else [if s[0] == '"' then '\'' else s[0]] + ReplaceQuotes(s[1..])
  }

  /** The replacement leaves no double quote behind and is the identity
      on quote-free text; hence applying it twice changes nothing more. */
  lemma ReplaceQuotesProperties(s: string)
    ensures '"' !in ReplaceQuotes(s)
    ensures '"' !in s ==> ReplaceQuotes(s) == s
    ensures ReplaceQuotes(ReplaceQuotes(s)) == ReplaceQuotes(s)
  {
  }

  /** The tokens of `ts` separated by single spaces. */
  function Join(ts: seq<string>): (r: string)
    ensures |ts| == 0 ==> r == ""
    ensures |ts| == 1 ==> r == ts[0]
  {
    if |ts| == 0 then ""
    else if |ts| == 1 then ts[0]
    else ts[0] + " " + Join(ts[1..])
  }

  /** Appending a token to a non-empty list appends a space and the token
      to the joined text. */
  lemma {:induction false} JoinAppend(ts: seq<string>, t: string)
    requires |ts| > 0
    ensures Join(ts + [t]) == Join(ts) + " " + t
  {
    if |ts| > 1 {
      assert (ts + [t])[1..] == ts[1..] + [t];
      JoinAppend(ts[1..], t);
    }
  }

  predicate EndsWithNewline(s: string)
  {
    |s| > 0 && s[|s| - 1] == '\n'
  }

  /** `s` without its maximal run of trailing newlines: a prefix of `s`
      that does not end in a newline, and everything cut off is a newline. */
  function TrimTrailingNewlines(s: string): (r: string)
    ensures |r| <= |s| && r == s[..|r|]
    ensures !EndsWithNewline(r)
    ensures forall i :: |r| <= i < |s| ==> s[i] == '\n'
    decreases |s|
  {
    if EndsWithNewline(s) then TrimTrailingNewlines(s[..|s| - 1]) else s
  }

  /** Trimming an already trimmed message returns it unchanged. */
  lemma TrimIdempotent(s: string)
    ensures TrimTrailingNewlines(TrimTrailingNewlines(s)) == TrimTrailingNewlines(s)
  {
  }

  /** The trimmed form is the only prefix with the three properties above:
      exactly the maximal run of trailing newlines is removed. */
  lemma TrimUnique(s: string, t: string)
    requires |t| <= |s| && t == s[..|t|]
    requires !EndsWithNewline(t)
    requires forall i :: |t| <= i < |s| ==> s[i] == '\n'
    ensures TrimTrailingNewlines(s) == t
  {
  }

  function Newlines(k: nat): (r: string)
    ensures |r| == k && forall i :: 0 <= i < k ==> r[i] == '\n'
  {
    seq(k, _ => '\n')
  }

  /** A message with k appended newlines loses exactly those k. */
  lemma TrimRemovesAppendedNewlines(s: string, k: nat)
    requires !EndsWithNewline(s)
    ensures TrimTrailingNewlines(s + Newlines(k)) == s
  {
    var u := s + Newlines(k);
    assert s == u[..|s|];
    TrimUnique(u, s);
  }
}
