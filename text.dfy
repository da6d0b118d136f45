/**
 * String helpers shared by the model: JavaScript's `trim`, the `/<[^>]*>/g` tag
 * stripper, the `/\n/g` newline replacement, `slice(0, n)` and the scanning that
 * stands in for the two cookie regular expressions.
 */
module Text {
  import opened Wrappers

  /** The characters `String.prototype.trim` removes: ECMAScript WhiteSpace and LineTerminator. */
  predicate IsWhitespace(c: char) {
    c == ' ' || c == '\t' || c == '\n' || c == '\r' || c == '\U{000B}' || c == '\U{000C}'
    || c == '\U{00A0}' || c == '\U{1680}' || ('\U{2000}' <= c <= '\U{200A}')
    || c == '\U{2028}' || c == '\U{2029}' || c == '\U{202F}' || c == '\U{205F}'
    || c == '\U{3000}' || c == '\U{FEFF}'
  }

  /** Empty or made only of whitespace: exactly the strings whose `trim()` is `''`. */
  predicate IsBlank(s: string) {
    forall i :: 0 <= i < |s| ==> IsWhitespace(s[i])
  }

  predicate StartsWith(s: string, prefix: string) {
    |prefix| <= |s| && s[..|prefix|] == prefix
  }

  /** Number of leading whitespace characters. */
  function LeadingWhitespace(s: string): (n: nat)
    ensures n <= |s|
    ensures forall i :: 0 <= i < n ==> IsWhitespace(s[i])
    ensures n < |s| ==> !IsWhitespace(s[n])
  {
    if s != [] && IsWhitespace(s[0]) then 1 + LeadingWhitespace(s[1..]) else 0
  }

  /** Number of trailing whitespace characters. */
  function TrailingWhitespace(s: string): (n: nat)
    ensures n <= |s|
    ensures forall i :: |s| - n <= i < |s| ==> IsWhitespace(s[i])
    ensures n < |s| ==> !IsWhitespace(s[|s| - 1 - n])
  {
    if s != [] && IsWhitespace(s[|s| - 1]) then 1 + TrailingWhitespace(s[..|s| - 1]) else 0
  }

  /** `s.trim()`: the infix of `s` left after dropping whitespace at both ends. */
  function Trim(s: string): (r: string)
    ensures |r| <= |s| && LeadingWhitespace(s) + |r| <= |s|
    ensures r == s[LeadingWhitespace(s)..LeadingWhitespace(s) + |r|]
    ensures r == [] <==> IsBlank(s)
    ensures r != [] ==> !IsWhitespace(r[0]) && !IsWhitespace(r[|r| - 1])
    ensures forall i :: 0 <= i < LeadingWhitespace(s) ==> IsWhitespace(s[i])
    ensures forall i :: LeadingWhitespace(s) + |r| <= i < |s| ==> IsWhitespace(s[i])
  {
    var front := s[LeadingWhitespace(s)..];
    front[..|front| - TrailingWhitespace(front)]
  }

  /** `s.slice(0, n)`. */
  function Take(s: string, n: nat): (r: string)
    ensures |r| == if n < |s| then n else |s|
    ensures StartsWith(s, r)
  {
    if n < |s| then s[..n] else s
  }

  /** Position of the first `c` in `s`, if any. */
  function IndexOf(s: string, c: char): (r: Option<nat>)
    ensures r.Some? ==> r.value < |s| && s[r.value] == c
    ensures r.Some? ==> forall i :: 0 <= i < r.value ==> s[i] != c
    ensures r.None? <==> c !in s
  {
    if s == [] then None
    else if s[0] == c then Some(0)
    else match IndexOf(s[1..], c)
      case None => None
      case Some(k) => Some(k + 1)
  }

  /** Some `<` is followed, somewhere later, by a `>`: the text still holds a match of `/<[^>]*>/`. */
  predicate HasTag(s: string) {
    exists i, j :: 0 <= i < j < |s| && s[i] == '<' && s[j] == '>'
  }

  /**
   * `s.replace(/<[^>]*>/g, '')`. Scanning left to right, a `<` that has a `>` somewhere after it
   * opens a match that ends at the first such `>`, and the whole run is dropped; a `<` with no
   * later `>` is kept, like every other character.
   */
  function StripTags(s: string): (r: string)
    ensures |r| <= |s|
    decreases |s|
  {
    if s == [] then []
    else if s[0] == '<' && IndexOf(s, '>').Some? then StripTags(s[IndexOf(s, '>').value + 1..])
    else [s[0]] + StripTags(s[1..])
  }

  /** `s.replace(/\n/g, ' ')`. */
  function ReplaceNewlines(s: string): (r: string)
    ensures |r| == |s|
    ensures forall i :: 0 <= i < |s| ==> r[i] == if s[i] == '\n' then ' ' else s[i]
    ensures '\n' !in r
  {
    if s == [] then [] else [if s[0] == '\n' then ' ' else s[0]] + ReplaceNewlines(s[1..])
  }

  /** Every character StripTags keeps comes from its input. */
  lemma {:induction false} StripTagsKeepsCharacters(s: string, c: char)
    requires c in StripTags(s)
    ensures c in s
    decreases |s|
  {
    if s == [] {
    } else if s[0] == '<' && IndexOf(s, '>').Some? {
      var k := IndexOf(s, '>').value;
      StripTagsKeepsCharacters(s[k + 1..], c);
    } else if c != s[0] {
      assert c in StripTags(s[1..]);
      StripTagsKeepsCharacters(s[1..], c);
    }
  }

  /** StripTags leaves no `<` followed later by a `>`: nothing the regular expression could match again. */
  lemma {:induction false} StripTagsRemovesAllTags(s: string)
    ensures !HasTag(StripTags(s))
    decreases |s|
  {
    if s == [] {
    } else if s[0] == '<' && IndexOf(s, '>').Some? {
      StripTagsRemovesAllTags(s[IndexOf(s, '>').value + 1..]);
    } else {
      var tail := StripTags(s[1..]);
      var r := StripTags(s);
      StripTagsRemovesAllTags(s[1..]);
      assert r == [s[0]] + tail;
      if HasTag(r) {
        var i, j :| 0 <= i < j < |r| && r[i] == '<' && r[j] == '>';
        if i == 0 {
          assert s[0] == '<' && '>' !in s;
          assert tail[j - 1] == '>';
          StripTagsKeepsCharacters(s[1..], '>');
          assert false;
        }
      }
    }
  }

  /** Text without a tag is left as it is, so StripTags is idempotent. */
  lemma {:induction false} StripTagsFixesTagFreeText(s: string)
    requires !HasTag(s)
    ensures StripTags(s) == s
    decreases |s|
  {
    if s != [] {
      if s[0] == '<' && IndexOf(s, '>').Some? {
        assert false;
      }
      assert !HasTag(s[1..]);
      StripTagsFixesTagFreeText(s[1..]);
    }
  }

  /** Text before the first `<` is kept as it is. */
  lemma {:induction false} StripTagsKeepsPlainPrefix(x: string, y: string)
    requires '<' !in x
    ensures StripTags(x + y) == x + StripTags(y)
    decreases |x|
  {
    if x != [] {
      assert (x + y)[0] == x[0] != '<';
      assert (x + y)[1..] == x[1..] + y;
      assert '<' !in x[1..];
      StripTagsKeepsPlainPrefix(x[1..], y);
      assert StripTags(x + y) == [x[0]] + (x[1..] + StripTags(y));
      assert [x[0]] + (x[1..] + StripTags(y)) == x + StripTags(y);
    } else {
      assert x + y == y;
    }
  }

  /** Text without a `<` is left unchanged. */
  lemma StripTagsKeepsPlainText(x: string)
    requires '<' !in x
    ensures StripTags(x) == x
  {
    StripTagsKeepsPlainPrefix(x, []);
    assert x + [] == x;
  }

  /**
   * One tag `<t>` (no `>` inside) is dropped whole, and the text before it and after it is kept:
   * what `/<[^>]*>/g` removes is exactly the tags, nothing between them.
   */
  lemma StripTagsDropsTag(x: string, t: string, y: string)
    requires '<' !in x && '>' !in t
    ensures StripTags(x + ['<'] + t + ['>'] + y) == x + StripTags(y)
  {
    var tag := ['<'] + t + ['>'] + y;
    assert x + ['<'] + t + ['>'] + y == x + tag;
    StripTagsKeepsPlainPrefix(x, tag);
    TagClosesAfterName(t, y);
    assert tag[|t| + 2..] == y;
  }

  /** In `<t>y`, with no `>` in `t`, the first `>` is the one closing the tag. */
  lemma TagClosesAfterName(t: string, y: string)
    requires '>' !in t
    ensures IndexOf(['<'] + t + ['>'] + y, '>') == Some(|t| + 1)
  {
    var tag := ['<'] + t + ['>'] + y;
    assert tag[|t| + 1] == '>';
    forall i | 0 <= i < |t| + 1
      ensures tag[i] != '>'
    {
      if i > 0 {
        assert tag[i] == t[i - 1];
      }
    }
  }

  lemma StripTagsIdempotent(s: string)
    ensures StripTags(StripTags(s)) == StripTags(s)
  {
    StripTagsRemovesAllTags(s);
    StripTagsFixesTagFreeText(StripTags(s));
  }

  /** A tag in an infix of `s` is a tag in `s`: trimming or cutting a prefix never creates one. */
  lemma InfixHasNoTag(s: string, lo: nat, hi: nat)
    requires lo <= hi <= |s| && !HasTag(s)
    ensures !HasTag(s[lo..hi])
  {
  }

  /** Trimming never creates a tag. */
  lemma TrimHasNoTag(s: string)
    requires !HasTag(s)
    ensures !HasTag(Trim(s))
  {
    InfixHasNoTag(s, LeadingWhitespace(s), LeadingWhitespace(s) + |Trim(s)|);
  }

  /** Trimming keeps a newline-free text newline-free. */
  lemma TrimKeepsNoNewline(s: string)
    requires '\n' !in s
    ensures '\n' !in Trim(s)
  {
    var r := Trim(s);
    forall i | 0 <= i < |r| ensures r[i] != '\n' {
      assert r[i] == s[LeadingWhitespace(s) + i];
    }
  }

  /** Replacing newlines by spaces never creates a tag. */
  lemma ReplaceNewlinesHasNoTag(s: string)
    requires !HasTag(s)
    ensures !HasTag(ReplaceNewlines(s))
  {
  }

  // ----- Scanning that stands in for the cookie regular expressions -----

  /** `key` occurs at position `k` and is followed by at least one character other than `;`. */
  predicate KeyWithValueAt(s: string, key: string, k: nat) {
    k + |key| < |s| && s[k..k + |key|] == key && s[k + |key|] != ';'
  }

  /**
   * A match position of `key([^;]+)`; with `atBoundary` the key must also open the string or
   * follow a space, as in `(^| )key([^;]+)`.
   */
  predicate MatchAt(s: string, key: string, k: nat, atBoundary: bool) {
    KeyWithValueAt(s, key, k) && (atBoundary ==> k == 0 || s[k - 1] == ' ')
  }

  /** The leftmost match position at or after `from`, as a regular-expression search finds it. */
  function FirstMatch(s: string, key: string, from: nat, atBoundary: bool): (r: Option<nat>)
    ensures r.Some? ==> from <= r.value && MatchAt(s, key, r.value, atBoundary)
    ensures r.Some? ==> forall k :: from <= k < r.value ==> !MatchAt(s, key, k, atBoundary)
    ensures r.None? ==> forall k :: from <= k ==> !MatchAt(s, key, k, atBoundary)
    decreases |s| - from
  {
    if from >= |s| then None
    else if MatchAt(s, key, from, atBoundary) then Some(from)
    else FirstMatch(s, key, from + 1, atBoundary)
  }

  /** The greedy `[^;]+` run: the longest `;`-free text starting at `i`. */
  function ValueRun(s: string, i: nat): (r: string)
    requires i <= |s|
    ensures i + |r| <= |s| && r == s[i..i + |r|]
    ensures ';' !in r
    ensures i + |r| == |s| || s[i + |r|] == ';'
    decreases |s| - i
  {
    if i == |s| || s[i] == ';' then [] else [s[i]] + ValueRun(s, i + 1)
  }

  /** The run after a fixed prefix is the run at the start of what follows it. */
  lemma {:induction false} ValueRunShift(prefix: string, s: string)
    ensures ValueRun(prefix + s, |prefix|) == ValueRun(s, 0)
  {
    assert (prefix + s)[|prefix|..] == s;
    RunDeterminedBySuffix(prefix + s, |prefix|, s);
  }

  /** ValueRun only looks at the text from `i` on. */
  lemma {:induction false} RunDeterminedBySuffix(s: string, i: nat, t: string)
    requires i <= |s| && s[i..] == t
    ensures ValueRun(s, i) == ValueRun(t, 0)
    decreases |s| - i
  {
    if i < |s| && s[i] != ';' {
      assert t[0] == s[i];
      assert s[i + 1..] == t[1..];
      RunDeterminedBySuffix(s, i + 1, t[1..]);
      RunDeterminedBySuffix(t, 1, t[1..]);
    }
  }

  /** A `;`-free token followed by the end of text or a `;` is read back whole. */
  lemma {:induction false} ValueRunOfSemicolonFree(token: string, rest: string)
    requires ';' !in token
    requires rest == [] || rest[0] == ';'
    ensures ValueRun(token + rest, 0) == token
    decreases |token|
  {
    if token != [] {
      assert (token + rest)[0] == token[0];
      RunDeterminedBySuffix(token + rest, 1, token[1..] + rest);
      ValueRunOfSemicolonFree(token[1..], rest);
    }
  }
}
