/**
  The string built-ins the sources rely on, with the semantics of Python and
  JavaScript spelled out: `in`, `split`, `join`, `replace`, `strip`/`trim`,
  `startswith` and `lower`.
 */
module Strings {

  type String = seq<char>

  predicate IsPrefix(p: String, s: String) {
    |p| <= |s| && s[..|p|] == p
  }

  /** `pat in s` (Python) / `s.includes(pat)` (JavaScript). */
  predicate Contains(s: String, pat: String)
    decreases |s|
  {
    IsPrefix(pat, s) || (|s| > 0 && Contains(s[1..], pat))
  }

  lemma {:induction false} ContainsSuffix(s: String, i: nat, pat: String)
    requires i <= |s|
    requires Contains(s[i..], pat)
    ensures Contains(s, pat)
    decreases i
  {
    if i > 0 {
      assert s[1..][i - 1..] == s[i..];
      ContainsSuffix(s[1..], i - 1, pat);
    }
  }

  lemma {:induction false} ContainsPrefix(s: String, j: nat, pat: String)
    requires j <= |s|
    requires Contains(s[..j], pat)
    ensures Contains(s, pat)
    decreases j
  {
    if IsPrefix(pat, s[..j]) {
      assert s[..j][..|pat|] == s[..|pat|];
    } else {
      assert s[..j][1..] == s[1..][..j - 1];
      ContainsPrefix(s[1..], j - 1, pat);
    }
  }

  /** An occurrence inside a slice is an occurrence in the whole string. */
  lemma ContainsInfix(s: String, i: nat, j: nat, pat: String)
    requires i <= j <= |s|
    requires Contains(s[i..j], pat)
    ensures Contains(s, pat)
  {
    assert s[i..j] == s[i..][..j - i];
    ContainsPrefix(s[i..], j - i, pat);
    ContainsSuffix(s, i, pat);
  }

  /**
    `s.split(sep)` in Python and JavaScript: scan left to right, cut at every
    non-overlapping occurrence of `sep`.
   */
  function Split(s: String, sep: String): (r: seq<String>)
    requires |sep| > 0
    ensures |r| >= 1
    decreases |s|
  {
    if IsPrefix(sep, s) then [[]] + Split(s[|sep|..], sep)
    else if |s| == 0 then [[]]
    else
      var rest := Split(s[1..], sep);
      [[s[0]] + rest[0]] + rest[1..]
  }

  /** `sep.join(parts)` (Python) / `parts.join(sep)` (JavaScript). */
  function Join(parts: seq<String>, sep: String): String
    decreases |parts|
  {
    if |parts| == 0 then []
    else if |parts| == 1 then parts[0]
    else parts[0] + sep + Join(parts[1..], sep)
  }

  /** Prepending a character to the first piece prepends it to the joined string. */
  lemma JoinConsHead(c: char, parts: seq<String>, sep: String)
    requires |parts| >= 1
    ensures Join([[c] + parts[0]] + parts[1..], sep) == [c] + Join(parts, sep)
  {
    var p := [[c] + parts[0]] + parts[1..];
    if |parts| > 1 {
      assert p[1..] == parts[1..];
    }
  }

  /** Joining the pieces of a split with the same separator gives the string back. */
  lemma {:induction false} JoinSplit(s: String, sep: String)
    requires |sep| > 0
    ensures Join(Split(s, sep), sep) == s
    decreases |s|
  {
    if IsPrefix(sep, s) {
      JoinSplit(s[|sep|..], sep);
      assert s == sep + s[|sep|..];
    } else if |s| > 0 {
      JoinSplit(s[1..], sep);
      JoinConsHead(s[0], Split(s[1..], sep), sep);
      assert s == [s[0]] + s[1..];
    }
  }

  /** The first piece of a split is a prefix of the string. */
  lemma {:induction false} SplitHeadIsPrefix(s: String, sep: String)
    requires |sep| > 0
    ensures IsPrefix(Split(s, sep)[0], s)
    decreases |s|
  {
    if !IsPrefix(sep, s) && |s| > 0 {
      SplitHeadIsPrefix(s[1..], sep);
    }
  }

  /** A string that starts with `pat` and is a prefix of `s` makes `s` start with `pat`. */
  lemma PrefixOfPrefix(pat: String, t: String, s: String)
    requires IsPrefix(pat, t) && IsPrefix(t, s)
    ensures IsPrefix(pat, s)
  {
    assert s[..|t|][..|pat|] == s[..|pat|];
  }

  /** No piece of a split contains the separator. */
  lemma {:induction false} SplitPiecesFree(s: String, sep: String)
    requires |sep| > 0
    ensures forall k :: 0 <= k < |Split(s, sep)| ==> !Contains(Split(s, sep)[k], sep)
    decreases |s|
  {
    var r := Split(s, sep);
    if IsPrefix(sep, s) {
      SplitPiecesFree(s[|sep|..], sep);
      assert !Contains([], sep);
      assert forall k :: 1 <= k < |r| ==> r[k] == Split(s[|sep|..], sep)[k - 1];
    } else if |s| > 0 {
      var rest := Split(s[1..], sep);
      SplitPiecesFree(s[1..], sep);
      var head := [s[0]] + rest[0];
      assert head[1..] == rest[0];
      SplitHeadIsPrefix(s[1..], sep);
      assert IsPrefix(head, s);
      if IsPrefix(sep, head) {
        PrefixOfPrefix(sep, head, s);
        assert false;
      }
      assert !Contains(head, sep);
      assert forall k :: 1 <= k < |r| ==> r[k] == rest[k];
    }
  }

  /** A split yields more than one piece exactly when the separator occurs. */
  lemma {:induction false} SplitSeveralIffContains(s: String, sep: String)
    requires |sep| > 0
    ensures |Split(s, sep)| > 1 <==> Contains(s, sep)
    decreases |s|
  {
    if !IsPrefix(sep, s) && |s| > 0 {
      SplitSeveralIffContains(s[1..], sep);
    }
  }

  /** Python's `seq[-1]`. */
  function Last<T>(s: seq<T>): T
    requires |s| > 0
  {
    s[|s| - 1]
  }

  /** `s.split(sep)[-1]`: the text after the last separator the split cut at. */
  function AfterLast(s: String, sep: String): (r: String)
    requires |sep| > 0
    ensures !Contains(r, sep)
    ensures Contains(s, sep) ==> |r| + |sep| <= |s| && s[|s| - |r| - |sep|..] == sep + r
    ensures !Contains(s, sep) ==> r == s
  {
    var parts := Split(s, sep);
    SplitPiecesFree(s, sep);
    SplitSeveralIffContains(s, sep);
    JoinSplit(s, sep);
    if |parts| > 1 then
      JoinEndsWithLast(parts, sep);
      Last(parts)
    else
      Last(parts)
  }

  lemma {:induction false} JoinEndsWithLast(parts: seq<String>, sep: String)
    requires |parts| > 1
    ensures var j := Join(parts, sep); var l := Last(parts);
            |l| + |sep| <= |j| && j[|j| - |l| - |sep|..] == sep + l
    decreases |parts|
  {
    if |parts| > 2 {
      JoinEndsWithLast(parts[1..], sep);
      assert Last(parts[1..]) == Last(parts);
    }
  }

  /** Python's `s.replace(pat, rep)`: every non-overlapping occurrence, left to right. */
  function ReplaceAll(s: String, pat: String, rep: String): String
    requires |pat| > 0
    decreases |s|
  {
    if IsPrefix(pat, s) then rep + ReplaceAll(s[|pat|..], pat, rep)
    else if |s| == 0 then []
    else [s[0]] + ReplaceAll(s[1..], pat, rep)
  }

  /** `replace` cuts where `split` cuts: it is `rep.join(s.split(pat))`. */
  lemma {:induction false} ReplaceAllIsJoinSplit(s: String, pat: String, rep: String)
    requires |pat| > 0
    ensures ReplaceAll(s, pat, rep) == Join(Split(s, pat), rep)
    decreases |s|
  {
    if IsPrefix(pat, s) {
      ReplaceAllIsJoinSplit(s[|pat|..], pat, rep);
    } else if |s| > 0 {
      var rest := Split(s[1..], pat);
      ReplaceAllIsJoinSplit(s[1..], pat, rep);
      if |rest| > 1 {
        assert ([[s[0]] + rest[0]] + rest[1..])[1..] == rest[1..];
      }
    }
  }

  /** Removing every occurrence of a one-character pattern leaves none of that character. */
  lemma {:induction false} ReplaceAllRemovesChar(s: String, c: char)
    ensures c !in ReplaceAll(s, [c], [])
    decreases |s|
  {
    if |s| > 0 {
      if IsPrefix([c], s) {
        ReplaceAllRemovesChar(s[1..], c);
      } else {
        assert s[0] != c;
        ReplaceAllRemovesChar(s[1..], c);
      }
    }
  }

  /** Strips the leading characters that `drop` selects (`lstrip`). */
  function DropLeading(s: String, drop: char -> bool): (r: String)
    ensures |r| <= |s| && r == s[|s| - |r|..]
    ensures |r| == 0 || !drop(r[0])
    ensures forall k :: 0 <= k < |s| - |r| ==> drop(s[k])
    decreases |s|
  {
    if |s| > 0 && drop(s[0]) then DropLeading(s[1..], drop) else s
  }

  /** Strips the trailing characters that `drop` selects (`rstrip`). */
  function DropTrailing(s: String, drop: char -> bool): (r: String)
    ensures |r| <= |s| && r == s[..|r|]
    ensures |r| == 0 || !drop(r[|r| - 1])
    ensures forall k :: |r| <= k < |s| ==> drop(s[k])
    decreases |s|
  {
    if |s| > 0 && drop(s[|s| - 1]) then DropTrailing(s[..|s| - 1], drop) else s
  }

  /** `strip`: both ends; the result is a slice of `s` that neither starts nor ends with a dropped character. */
  function Strip(s: String, drop: char -> bool): (r: String)
    ensures |r| == 0 || (!drop(r[0]) && !drop(r[|r| - 1]))
    ensures var i := |s| - |DropLeading(s, drop)|; i + |r| <= |s| && r == s[i..i + |r|]
  {
    var l := DropLeading(s, drop);
    var r := DropTrailing(l, drop);
    assert r == s[|s| - |l|..][..|r|] == s[|s| - |l|..|s| - |l| + |r|];
    r
  }

  /** A string that neither starts nor ends with a dropped character is left as it is. */
  lemma StripUnchanged(s: String, drop: char -> bool)
    requires |s| == 0 || (!drop(s[0]) && !drop(s[|s| - 1]))
    ensures Strip(s, drop) == s
  {
  }

  /** Python's `str.isspace()` for one character: the characters `str.strip()` removes. */
  predicate IsPySpace(c: char) {
    ('\t' <= c <= '\r') || ('\U{1C}' <= c <= ' ') || c == '\U{85}' || c == '\U{A0}' || c == '\U{1680}'
    || ('\U{2000}' <= c <= '\U{200A}') || c == '\U{2028}' || c == '\U{2029}' || c == '\U{202F}'
    || c == '\U{205F}' || c == '\U{3000}'
  }

  /** The characters JavaScript's `String.prototype.trim()` removes (WhiteSpace and LineTerminator). */
  predicate IsJsSpace(c: char) {
    ('\t' <= c <= '\r') || c == ' ' || c == '\U{A0}' || c == '\U{1680}'
    || ('\U{2000}' <= c <= '\U{200A}') || c == '\U{2028}' || c == '\U{2029}' || c == '\U{202F}'
    || c == '\U{205F}' || c == '\U{3000}' || c == '\U{FEFF}'
  }

  /** `lower()` restricted to ASCII letters. */
  function AsciiLower(s: String): (r: String)
    ensures |r| == |s|
    ensures forall k :: 0 <= k < |s| ==> r[k] == if 'A' <= s[k] <= 'Z' then (s[k] as int + 32) as char else s[k]
  {
    seq(|s|, k requires 0 <= k < |s| => if 'A' <= s[k] <= 'Z' then (s[k] as int + 32) as char else s[k])
  }
}
