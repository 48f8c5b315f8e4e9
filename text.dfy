/**
 * The string primitives the source relies on: `toLowerCase`, `trim`,
 * `includes`, `startsWith`, and the regular-expression replacement of runs
 * of separator characters by a single '-'.
 *
 * Lowercasing is modelled for ASCII letters only. Whitespace is the set
 * JavaScript uses both for `trim` and for the `\s` class.
 */
module Text {

  predicate IsAsciiUpper(c: char) { 'A' <= c <= 'Z' }
  predicate IsAsciiLower(c: char) { 'a' <= c <= 'z' }
  predicate IsDigit(c: char) { '0' <= c <= '9' }

  /** Characters of the regular-expression class `\w`. */
  predicate IsWordChar(c: char)
  {
    IsAsciiLower(c) || IsAsciiUpper(c) || IsDigit(c) || c == '_'
  }

  /** JavaScript WhiteSpace and LineTerminator characters (`\s`, `trim`). */
  predicate IsSpace(c: char)
  {
    c == '\t' || c == '\n' || c == '\U{B}' || c == '\U{C}' || c == '\r' || c == ' ' ||
    c == '\U{A0}' || c == '\U{1680}' || ('\U{2000}' <= c <= '\U{200A}') ||
    c == '\U{2028}' || c == '\U{2029}' || c == '\U{202F}' || c == '\U{205F}' ||
    c == '\U{3000}' || c == '\U{FEFF}'
  }

  function LowerChar(c: char): (d: char)
    ensures !IsAsciiUpper(d)
    ensures IsAsciiUpper(c) ==> IsAsciiLower(d) && d as int == c as int + 32
    ensures !IsAsciiUpper(c) ==> d == c
  {
    if IsAsciiUpper(c) then (c as int + 32) as char else c
  }

  /** `toLowerCase`, restricted to ASCII letters. */
  function Lower(s: string): (r: string)
    ensures |r| == |s|
    ensures forall i :: 0 <= i < |s| ==> r[i] == LowerChar(s[i])
  {
    if s == [] then [] else [LowerChar(s[0])] + Lower(s[1..])
  }

  /** Lowercasing a string without upper-case ASCII letters changes nothing. */
  lemma {:induction false} LowerNoUpper(s: string)
    requires forall i :: 0 <= i < |s| ==> !IsAsciiUpper(s[i])
    ensures Lower(s) == s
  {
    if s != [] {
      LowerNoUpper(s[1..]);
    }
  }

  /** Lowercasing twice is lowercasing once. */
  lemma LowerIdempotent(s: string)
    ensures Lower(Lower(s)) == Lower(s)
  {
    LowerNoUpper(Lower(s));
  }

  /** The longest suffix of `s` that does not start with a `p` character. */
  function DropWhile(s: string, p: char -> bool): (r: string)
    ensures |r| <= |s| && r == s[|s| - |r|..]
    ensures r != [] ==> !p(r[0])
  {
    if s != [] && p(s[0]) then DropWhile(s[1..], p) else s
  }

  /** What `DropWhile` drops are `p` characters. */
  lemma {:induction false} DropWhileDropsOnly(s: string, p: char -> bool)
    ensures forall i :: 0 <= i < |s| - |DropWhile(s, p)| ==> p(s[i])
  {
    if s != [] && p(s[0]) {
      DropWhileDropsOnly(s[1..], p);
    }
  }

  /** The longest prefix of `s` that does not end with a `p` character. */
  function DropLastWhile(s: string, p: char -> bool): (r: string)
    ensures |r| <= |s| && r == s[..|r|]
    ensures r != [] ==> !p(r[|r| - 1])
  {
    if s != [] && p(s[|s| - 1]) then DropLastWhile(s[..|s| - 1], p) else s
  }

  /** What `DropLastWhile` drops are `p` characters. */
  lemma {:induction false} DropLastWhileDropsOnly(s: string, p: char -> bool)
    ensures forall i :: |DropLastWhile(s, p)| <= i < |s| ==> p(s[i])
  {
    if s != [] && p(s[|s| - 1]) {
      DropLastWhileDropsOnly(s[..|s| - 1], p);
    }
  }

  /** Number of leading `p` characters of `s`. */
  function LeadCount(s: string, p: char -> bool): (n: nat)
    ensures n <= |s|
  {
    |s| - |DropWhile(s, p)|
  }

  /** Removes leading and trailing `p` characters: the result is a slice of `s`. */
  function TrimBy(s: string, p: char -> bool): (r: string)
    ensures LeadCount(s, p) + |r| <= |s|
    ensures r == s[LeadCount(s, p)..LeadCount(s, p) + |r|]
    ensures r != [] ==> !p(r[0]) && !p(r[|r| - 1])
  {
    DropLastWhile(DropWhile(s, p), p)
  }

  /** Trimming removes `p` characters only. */
  lemma TrimByRemovesOnly(s: string, p: char -> bool)
    ensures forall i :: 0 <= i < LeadCount(s, p) ==> p(s[i])
    ensures forall i :: LeadCount(s, p) + |TrimBy(s, p)| <= i < |s| ==> p(s[i])
  {
    var d := DropWhile(s, p);
    DropWhileDropsOnly(s, p);
    DropLastWhileDropsOnly(d, p);
    assert forall i :: LeadCount(s, p) <= i < |s| ==> s[i] == d[i - LeadCount(s, p)];
  }

  /** Trimming a string that neither starts nor ends with a trimmed character changes nothing. */
  lemma TrimByUntouched(s: string, p: char -> bool)
    requires s != [] ==> !p(s[0]) && !p(s[|s| - 1])
    ensures TrimBy(s, p) == s
  {
    assert DropWhile(s, p) == s;
  }

  /** A slice of a string without "--" has no "--" either. */
  lemma NoDoubleDashSlice(s: string, a: nat, b: nat)
    requires a <= b <= |s|
    requires NoDoubleDash(s)
    ensures NoDoubleDash(s[a..b])
  {
    forall i | 0 <= i < b - a - 1
      ensures !(s[a..b][i] == '-' && s[a..b][i + 1] == '-')
    {
      assert s[a..b][i] == s[a + i] && s[a..b][i + 1] == s[a + i + 1];
    }
  }

  /** Collapsing changes nothing when every separator is a lone '-'. */
  lemma {:induction false} CollapseSingleDashes(s: string, isSep: char -> bool)
    requires isSep('-')
    requires forall i :: 0 <= i < |s| ==> s[i] == '-' || !isSep(s[i])
    requires NoDoubleDash(s)
    ensures CollapseRuns(s, isSep) == s
  {
    if s != [] {
      NoDoubleDashSlice(s, 1, |s|);
      if isSep(s[0]) {
        assert s[1..] == [] || !isSep(s[1..][0]);
        assert DropWhile(s, isSep) == s[1..];
      }
      CollapseSingleDashes(s[1..], isSep);
    }
  }

  /** `trim`: whitespace at both ends is removed, nothing else. */
  function Trim(s: string): string
  {
    TrimBy(s, IsSpace)
  }

  /** Trimming keeps any property every character of the string has. */
  lemma TrimByKeeps(s: string, p: char -> bool, q: char -> bool)
    requires forall i :: 0 <= i < |s| ==> q(s[i])
    ensures forall i :: 0 <= i < |TrimBy(s, p)| ==> q(TrimBy(s, p)[i])
  {
    var d := DropWhile(s, p);
    forall i | 0 <= i < |d| ensures q(d[i]) {
      assert d[i] == s[|s| - |d| + i];
    }
    var r := DropLastWhile(d, p);
    forall i | 0 <= i < |r| ensures q(r[i]) {
      assert r[i] == d[i];
    }
  }

  /** Trimming leaves nothing exactly when every character is trimmed. */
  lemma TrimByEmpty(s: string, p: char -> bool)
    ensures TrimBy(s, p) == [] <==> forall i :: 0 <= i < |s| ==> p(s[i])
  {
    var r := TrimBy(s, p);
    TrimByRemovesOnly(s, p);
    if r != [] {
      assert !p(s[LeadCount(s, p)]);
    }
  }

  /** Trimming a string none of whose characters is trimmed changes nothing. */
  lemma TrimByNothing(s: string, p: char -> bool)
    requires forall i :: 0 <= i < |s| ==> !p(s[i])
    ensures TrimBy(s, p) == s
  {
    assert DropWhile(s, p) == s;
  }

  /** `s.includes(sub)`. */
  function Contains(s: string, sub: string): bool
  {
    if sub <= s then true
    else if s == [] then false
    else Contains(s[1..], sub)
  }

  /** `Contains` holds exactly when `sub` occurs in `s` at some position. */
  lemma {:induction false} ContainsAt(s: string, sub: string)
    ensures Contains(s, sub) <==> exists i :: 0 <= i <= |s| && sub <= s[i..]
  {
    if sub <= s {
      assert s[0..] == s;
    } else if s != [] {
      ContainsAt(s[1..], sub);
      forall i | 1 <= i <= |s| ensures s[i..] == s[1..][i - 1..] { }
      if Contains(s[1..], sub) {
        var i :| 0 <= i <= |s| - 1 && sub <= s[1..][i..];
        assert s[1..][i..] == s[i + 1..];
      }
    }
  }

  /** The empty string occurs in every string, so an empty query matches everything. */
  lemma ContainsEmpty(s: string)
    ensures Contains(s, "")
  {
  }

  /**
   * `s.replace(/[sep]+/g, "-")`: every maximal run of `isSep` characters
   * becomes one '-'; all other characters are kept in order.
   */
  function CollapseRuns(s: string, isSep: char -> bool): (r: string)
    ensures |r| <= |s|
    ensures forall i :: 0 <= i < |r| ==> r[i] == '-' || (!isSep(r[i]) && r[i] in s)
    ensures (r == []) == (s == [])
    ensures s != [] ==> r[0] == if isSep(s[0]) then '-' else s[0]
    ensures isSep('-') ==> NoDoubleDash(r)
    decreases |s|
  {
    if s == [] then []
    else if isSep(s[0]) then "-" + CollapseRuns(DropWhile(s, isSep), isSep)
    else [s[0]] + CollapseRuns(s[1..], isSep)
  }

  /** Collapsing turns separators into '-' and keeps every other character. */
  lemma CollapseKeeps(s: string, isSep: char -> bool, q: char -> bool)
    requires forall i :: 0 <= i < |s| ==> isSep(s[i]) || q(s[i])
    ensures forall i :: 0 <= i < |CollapseRuns(s, isSep)| ==>
              CollapseRuns(s, isSep)[i] == '-' || q(CollapseRuns(s, isSep)[i])
  {
  }

  /** No two adjacent characters of `s` are both '-'. */
  predicate NoDoubleDash(s: string)
  {
    forall i :: 0 <= i < |s| - 1 ==> !(s[i] == '-' && s[i + 1] == '-')
  }
}
