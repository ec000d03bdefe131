/**
 * The .NET string operations the extensions rely on. Every comparison here is
 * character by character, and a length counts characters.
 */
module Text {

  /** Char.IsWhiteSpace, which is also the class `\s` of .NET regular expressions:
      U+0009..U+000D, U+0085 and the Unicode separator categories Zs, Zl and Zp. */
  predicate IsWhiteSpace(c: char) {
    var n := c as int;
    (0x09 <= n <= 0x0D) || n == 0x20 || n == 0x85 || n == 0xA0 || n == 0x1680
    || (0x2000 <= n <= 0x200A) || n == 0x2028 || n == 0x2029 || n == 0x202F
    || n == 0x205F || n == 0x3000
  }

  /** String.IndexOf(char): the first position holding c, or -1. */
  function IndexOf(s: string, c: char): (r: int)
    ensures -1 <= r < |s|
    ensures r == -1 <==> c !in s
    ensures r >= 0 ==> s[r] == c && c !in s[..r]
  {
    if s == [] then -1
    else if s[0] == c then 0
    else
      var k := IndexOf(s[1..], c);
      assert s == [s[0]] + s[1..];
      if k < 0 then -1
      else
        assert s[..k + 1] == [s[0]] + s[1..][..k];
        k + 1
  }

  /** A position holding c with no c before it is where IndexOf finds c. */
  lemma {:induction false} IndexOfAt(s: string, c: char, k: nat)
    requires k < |s| && s[k] == c && c !in s[..k]
    ensures IndexOf(s, c) == k
    decreases k
  {
    if k > 0 {
      assert s[0] == s[..k][0];
      assert s[1..][..k - 1] == s[1..k];
      IndexOfAt(s[1..], c, k - 1);
    }
  }

  /** String.LastIndexOf(char): the last position holding c, or -1. */
  function LastIndexOf(s: string, c: char): (r: int)
    ensures -1 <= r < |s|
    ensures r == -1 <==> c !in s
    ensures r >= 0 ==> s[r] == c && c !in s[r + 1..]
  {
    if s == [] then -1
    else if s[|s| - 1] == c then |s| - 1
    else
      var k := LastIndexOf(s[..|s| - 1], c);
      assert s == s[..|s| - 1] + [s[|s| - 1]];
      if k >= 0 then assert s[k + 1..] == s[..|s| - 1][k + 1..] + [s[|s| - 1]]; k
      else k
  }

  /** A position holding c with no c after it is where LastIndexOf finds c. */
  lemma {:induction false} LastIndexOfAt(s: string, c: char, k: nat)
    requires k < |s| && s[k] == c && c !in s[k + 1..]
    ensures LastIndexOf(s, c) == k
    decreases |s|
  {
    if k < |s| - 1 {
      assert s[|s| - 1] == s[k + 1..][|s| - k - 2];
      assert s[..|s| - 1][k + 1..] == s[k + 1..|s| - 1];
      LastIndexOfAt(s[..|s| - 1], c, k);
    }
  }

  /** String.StartsWith(string), compared ordinally. */
  predicate StartsWith(s: string, prefix: string) {
    |prefix| <= |s| && s[..|prefix|] == prefix
  }

  /** String.Contains(string): `t` occurs somewhere in `s`. */
  predicate Contains(s: string, t: string)
    decreases |s|
  {
    |t| <= |s| && (s[..|t|] == t || Contains(s[1..], t))
  }

  /** String.Split(char): the pieces between the occurrences of `c`; never an empty list. */
  function Split(s: string, c: char): (parts: seq<string>)
    ensures |parts| >= 1
    ensures forall i :: 0 <= i < |parts| ==> c !in parts[i]
    decreases |s|
  {
    var k := IndexOf(s, c);
    if k < 0 then [s] else [s[..k]] + Split(s[k + 1..], c)
  }

  /** String.Join(separator, parts). */
  function Join(sep: string, parts: seq<string>): string
    decreases |parts|
  {
    if parts == [] then ""
    else if |parts| == 1 then parts[0]
    else parts[0] + sep + Join(sep, parts[1..])
  }

  lemma JoinCons(head: string, tail: seq<string>, sep: string)
    requires tail != []
    ensures Join(sep, [head] + tail) == head + sep + Join(sep, tail)
  {
    assert ([head] + tail)[1..] == tail;
  }

  lemma {:induction false} JoinSnoc(parts: seq<string>, last: string, sep: string)
    requires parts != []
    ensures Join(sep, parts + [last]) == Join(sep, parts) + sep + last
    decreases |parts|
  {
    if |parts| == 1 {
      assert parts + [last] == [parts[0], last];
    } else {
      JoinSnoc(parts[1..], last, sep);
      assert (parts + [last])[1..] == parts[1..] + [last];
    }
  }

  /** Joining the pieces of a split with the same character gives the text back. */
  lemma {:induction false} JoinSplit(s: string, c: char)
    ensures Join([c], Split(s, c)) == s
    decreases |s|
  {
    var k := IndexOf(s, c);
    if k >= 0 {
      var rest := s[k + 1..];
      var tail := Split(rest, c);
      JoinSplit(rest, c);
      JoinCons(s[..k], tail, [c]);
      assert s == s[..k] + [c] + rest;
    }
  }

  /** Splitting a joined list gives the list back when no part holds the separator. */
  lemma {:induction false} SplitJoin(parts: seq<string>, c: char)
    requires |parts| >= 1
    requires forall i :: 0 <= i < |parts| ==> c !in parts[i]
    ensures Split(Join([c], parts), c) == parts
    decreases |parts|
  {
    if |parts| > 1 {
      var head, tail := parts[0], parts[1..];
      var rest := Join([c], tail);
      var s := Join([c], parts);
      assert s[..|head|] == head && s[|head|] == c && s[|head| + 1..] == rest by {
        assert s == head + [c] + rest;
      }
      IndexOfAt(s, c, |head|);
      assert forall i :: 0 <= i < |tail| ==> tail[i] == parts[i + 1];
      SplitJoin(tail, c);
    } else {
      assert Join([c], parts) == parts[0];
    }
  }

  /** The first piece of a split is the text before the first separator. */
  lemma SplitFirst(s: string, c: char)
    ensures Split(s, c)[0] == if c in s then s[..IndexOf(s, c)] else s
  {
  }

  /** Without its first piece, a split rejoined is the text after the first separator. */
  lemma SplitRest(s: string, c: char)
    requires c in s
    ensures Join([c], Split(s, c)[1..]) == s[IndexOf(s, c) + 1..]
  {
    var k := IndexOf(s, c);
    assert Split(s, c)[1..] == Split(s[k + 1..], c);
    JoinSplit(s[k + 1..], c);
  }

  /** String.TrimStart(): drops the leading white space. */
  function TrimStart(s: string): (r: string)
    ensures |r| <= |s| && r == s[|s| - |r|..]
    ensures r == [] || !IsWhiteSpace(r[0])
    ensures forall i :: 0 <= i < |s| - |r| ==> IsWhiteSpace(s[i])
    decreases |s|
  {
    if s != [] && IsWhiteSpace(s[0]) then TrimStart(s[1..]) else s
  }

  /** String.TrimEnd(): drops the trailing white space. */
  function TrimEnd(s: string): (r: string)
    ensures |r| <= |s| && r == s[..|r|]
    ensures r == [] || !IsWhiteSpace(r[|r| - 1])
    ensures forall i :: |r| <= i < |s| ==> IsWhiteSpace(s[i])
    decreases |s|
  {
    if s != [] && IsWhiteSpace(s[|s| - 1]) then TrimEnd(s[..|s| - 1]) else s
  }

  /** `r` is found in `s` at `start` with nothing but white space before and after it. */
  predicate WhiteAround(s: string, r: string, start: int) {
    0 <= start <= |s| - |r| && r == s[start..start + |r|]
    && (forall i :: 0 <= i < start ==> IsWhiteSpace(s[i]))
    && (forall i :: start + |r| <= i < |s| ==> IsWhiteSpace(s[i]))
  }

  /** String.Trim(): drops the leading and the trailing white space. */
  function Trim(s: string): (r: string)
    ensures r == [] || (!IsWhiteSpace(r[0]) && !IsWhiteSpace(r[|r| - 1]))
    ensures exists start :: WhiteAround(s, r, start)
  {
    TrimAround(s);
    TrimEnd(TrimStart(s))
  }

  /** What TrimStart and then TrimEnd leave sits in s with only white space around it. */
  lemma TrimAround(s: string)
    ensures WhiteAround(s, TrimEnd(TrimStart(s)), |s| - |TrimStart(s)|)
  {
    var t := TrimStart(s);
    var start := |s| - |t|;
    InnerSlice(s, t, TrimEnd(t), start);
  }

  /** A text t found at `start` in s, with only white space before it, and its TrimEnd r. */
  lemma InnerSlice(s: string, t: string, r: string, start: int)
    requires 0 <= start <= |s| && t == s[start..]
    requires forall i :: 0 <= i < start ==> IsWhiteSpace(s[i])
    requires |r| <= |t| && r == t[..|r|] && forall i :: |r| <= i < |t| ==> IsWhiteSpace(t[i])
    ensures WhiteAround(s, r, start)
  {
    assert r == s[start..start + |r|];
    forall i | start + |r| <= i < |s| ensures IsWhiteSpace(s[i]) {
      assert s[i] == t[i - start];
    }
  }

  /** String.Replace(pattern, ""): every occurrence of `pattern`, scanned from the
      left without overlap, is removed; an empty pattern makes .NET throw. */
  function RemoveAll(s: string, pattern: string): (r: string)
    requires pattern != ""
    ensures |r| <= |s|
    ensures |r| < |s| <==> Contains(s, pattern)
    decreases |s|
  {
    if |s| < |pattern| then s
    else if s[..|pattern|] == pattern then RemoveAll(s[|pattern|..], pattern)
    else [s[0]] + RemoveAll(s[1..], pattern)
  }

  /** The pattern occurs in `s` at `k`. */
  predicate OccursAt(s: string, pattern: string, k: int) {
    0 <= k && k + |pattern| <= |s| && s[k..k + |pattern|] == pattern
  }

  /** A text without the pattern is left as it is. */
  lemma {:induction false} RemoveAllAbsent(s: string, pattern: string)
    requires pattern != "" && !Contains(s, pattern)
    ensures RemoveAll(s, pattern) == s
    decreases |s|
  {
    if |s| >= |pattern| {
      RemoveAllAbsent(s[1..], pattern);
      assert [s[0]] + s[1..] == s;
    }
  }

  /** Everything before the first occurrence is kept, the occurrence is dropped and the
      scan goes on after it. */
  lemma {:induction false} RemoveAllFirst(pre: string, pattern: string, post: string)
    requires pattern != ""
    requires forall j :: 0 <= j < |pre| ==> !OccursAt(pre + pattern + post, pattern, j)
    ensures RemoveAll(pre + pattern + post, pattern) == pre + RemoveAll(post, pattern)
    decreases |pre|
  {
    var s := pre + pattern + post;
    if pre == [] {
      assert s == pattern + post;
      RemoveAllLeading(pattern, post);
    } else {
      RemoveAllHead(s, pattern);
      assert !OccursAt(s, pattern, 0);
      NoneEarlierInTail(pre, pattern, post);
      RemoveAllFirst(pre[1..], pattern, post);
      var rest := RemoveAll(post, pattern);
      assert RemoveAll(s, pattern) == [pre[0]] + (pre[1..] + rest);
      assert [pre[0]] + (pre[1..] + rest) == pre + rest;
    }
  }

  /** An occurrence at the very start is dropped. */
  lemma RemoveAllLeading(pattern: string, post: string)
    requires pattern != ""
    ensures RemoveAll(pattern + post, pattern) == RemoveAll(post, pattern)
  {
    var s := pattern + post;
    assert s[..|pattern|] == pattern && s[|pattern|..] == post;
  }

  /** No occurrence before the pattern in pre + pattern + post means none before it
      once the first character is dropped. */
  lemma NoneEarlierInTail(pre: string, pattern: string, post: string)
    requires pre != []
    requires forall j :: 0 <= j < |pre| ==> !OccursAt(pre + pattern + post, pattern, j)
    ensures (pre + pattern + post)[1..] == pre[1..] + pattern + post
    ensures forall j :: 0 <= j < |pre| - 1 ==> !OccursAt(pre[1..] + pattern + post, pattern, j)
  {
    var s := pre + pattern + post;
    assert s[1..] == pre[1..] + pattern + post;
    forall j | 0 <= j < |pre| - 1 ensures !OccursAt(s[1..], pattern, j) {
      assert !OccursAt(s, pattern, j + 1);
      ShiftOccurs(s, pattern, j);
    }
  }

  /** The same, for the first occurrence found at k in s. */
  lemma RemoveAllAt(s: string, pattern: string, k: nat)
    requires pattern != "" && OccursAt(s, pattern, k)
    requires forall j :: 0 <= j < k ==> !OccursAt(s, pattern, j)
    ensures RemoveAll(s, pattern) == s[..k] + RemoveAll(s[k + |pattern|..], pattern)
  {
    var pre, post := s[..k], s[k + |pattern|..];
    assert s == pre + pattern + post;
    RemoveAllFirst(pre, pattern, post);
  }

  /** An occurrence one place further in s is an occurrence in its tail. */
  lemma ShiftOccurs(s: string, pattern: string, j: nat)
    requires 0 < |s|
    ensures OccursAt(s[1..], pattern, j) <==> OccursAt(s, pattern, j + 1)
  {
    if j + 1 + |pattern| <= |s| {
      assert s[1..][j..j + |pattern|] == s[j + 1..j + 1 + |pattern|];
    }
  }

  /** One step of the scan: an occurrence at the start is dropped, any other first
      character is kept. */
  lemma RemoveAllHead(s: string, pattern: string)
    requires pattern != "" && |pattern| <= |s|
    ensures OccursAt(s, pattern, 0) ==> RemoveAll(s, pattern) == RemoveAll(s[|pattern|..], pattern)
    ensures !OccursAt(s, pattern, 0) ==> RemoveAll(s, pattern) == [s[0]] + RemoveAll(s[1..], pattern)
  {
    assert s[..|pattern|] == s[0..0 + |pattern|];
  }

  /** Removing a pattern that starts with a character absent from `text` leaves
      `text` alone and drops the one occurrence that follows it. */
  lemma {:induction false} RemoveTrailingOccurrence(text: string, pattern: string)
    requires pattern != "" && pattern[0] !in text
    ensures RemoveAll(text + pattern, pattern) == text
    decreases |text|
  {
    var s := text + pattern;
    if text == [] {
      assert s[..|pattern|] == pattern;
      assert s[|pattern|..] == [];
    } else {
      assert s[0] == text[0] != pattern[0];
      assert s[1..] == text[1..] + pattern;
      RemoveTrailingOccurrence(text[1..], pattern);
      assert [text[0]] + text[1..] == text;
    }
  }
}
