/** The string functions of Go's standard library that the plugin leans on, as functions
    on sequences of characters: Split, SplitN, Join, TrimSpace and HasSuffix. */
module Strings {
  /** The first index of c in s, or |s| when there is none. */
  function IndexOf(s: string, c: char): (i: nat)
    ensures i <= |s|
    ensures c !in s[..i]
    ensures i < |s| ==> s[i] == c
  {
    if s == "" || s[0] == c then 0 else 1 + IndexOf(s[1..], c)
  }

  /** At most n pieces, cut at the first separators; the last piece is not cut further. */
  function SplitN(s: string, sep: char, n: nat): (parts: seq<string>)
    requires n > 0
    ensures 1 <= |parts| <= n
    decreases n
  {
    var i := IndexOf(s, sep);
    if n == 1 || i == |s| then [s] else [s[..i]] + SplitN(s[i + 1..], sep, n - 1)
  }

  function Split(s: string, sep: char): (parts: seq<string>)
    ensures |parts| > 0
    decreases |s|
  {
    var i := IndexOf(s, sep);
    if i == |s| then [s] else [s[..i]] + Split(s[i + 1..], sep)
  }

  function Join(parts: seq<string>, sep: char): string
  {
    if parts == [] then ""
    else if |parts| == 1 then parts[0]
    else parts[0] + [sep] + Join(parts[1..], sep)
  }

  lemma {:induction false} IndexAfter(head: string, c: char, rest: string)
    requires c !in head
    ensures IndexOf(head + [c] + rest, c) == |head|
  {
    if head == "" {
    } else {
      assert (head + [c] + rest)[1..] == head[1..] + [c] + rest;
      IndexAfter(head[1..], c, rest);
    }
  }

  lemma {:induction false} IndexWhenAbsent(s: string, c: char)
    requires c !in s
    ensures IndexOf(s, c) == |s|
  {}

  lemma {:induction false} JoinCons(head: string, rest: seq<string>, sep: char)
    requires rest != []
    ensures Join([head] + rest, sep) == head + [sep] + Join(rest, sep)
  {
    assert ([head] + rest)[1..] == rest;
  }

  lemma {:induction false} CutAt(s: string, i: nat)
    requires i < |s|
    ensures s == s[..i] + [s[i]] + s[i + 1..]
  {}

  /** Splitting forgets nothing, and its pieces hold no separator. */
  lemma {:induction false} JoinSplit(s: string, sep: char)
    ensures Join(Split(s, sep), sep) == s
    ensures forall p :: p in Split(s, sep) ==> sep !in p
    decreases |s|
  {
    var i := IndexOf(s, sep);
    if i == |s| {
      assert s[..i] == s;
    } else {
      JoinSplit(s[i + 1..], sep);
      JoinCons(s[..i], Split(s[i + 1..], sep), sep);
      CutAt(s, i);
    }
  }

  lemma {:induction false} SplitHead(head: string, rest: string, sep: char)
    requires sep !in head
    ensures Split(head + [sep] + rest, sep) == [head] + Split(rest, sep)
  {
    var s := head + [sep] + rest;
    IndexAfter(head, sep, rest);
    assert s[..|head|] == head;
    assert s[|head| + 1..] == rest;
  }

  /** Lines that hold no separator survive being joined and split again. */
  lemma {:induction false} SplitJoin(parts: seq<string>, sep: char)
    requires parts != []
    requires forall p :: p in parts ==> sep !in p
    ensures Split(Join(parts, sep), sep) == parts
  {
    var head, s := parts[0], Join(parts, sep);
    assert head in parts;
    if |parts| == 1 {
      IndexWhenAbsent(s, sep);
    } else {
      var rest := Join(parts[1..], sep);
      SplitJoin(parts[1..], sep);
      SplitHead(head, rest, sep);
      assert s == head + [sep] + rest;
      assert parts == [head] + parts[1..];
    }
  }

  /** Go's unicode.IsSpace. */
  predicate IsSpace(c: char) {
    || '\t' <= c <= '\r' || c == ' ' || c == '\U{85}' || c == '\U{A0}' || c == '\U{1680}'
    || '\U{2000}' <= c <= '\U{200A}' || c == '\U{2028}' || c == '\U{2029}'
    || c == '\U{202F}' || c == '\U{205F}' || c == '\U{3000}'
  }

  function TrimLeft(s: string): string
  {
    if s != "" && IsSpace(s[0]) then TrimLeft(s[1..]) else s
  }

  function TrimRight(s: string): string
  {
    if s != "" && IsSpace(s[|s| - 1]) then TrimRight(s[..|s| - 1]) else s
  }

  function TrimSpace(s: string): string
  {
    TrimLeft(TrimRight(s))
  }

  predicate HasSuffix(s: string, suffix: string)
  {
    |suffix| <= |s| && s[|s| - |suffix|..] == suffix
  }

  /** The last character of s that is not white space exists and is c. */
  ghost predicate LastInkIs(s: string, c: char)
  {
    exists k :: 0 <= k < |s| && s[k] == c && !IsSpace(c) && forall m :: k < m < |s| ==> IsSpace(s[m])
  }

  lemma {:induction false} TrimLeftSuffix(s: string, c: char)
    requires !IsSpace(c)
    ensures HasSuffix(TrimLeft(s), [c]) <==> HasSuffix(s, [c])
  {
    if s == "" || !IsSpace(s[0]) {
    } else {
      TrimLeftSuffix(s[1..], c);
      if |s| > 1 {
        assert s[|s| - 1..] == s[1..][|s| - 2..];
      }
    }
  }

  lemma {:induction false} TrimRightSuffix(s: string, c: char)
    requires !IsSpace(c)
    ensures HasSuffix(TrimRight(s), [c]) <==> LastInkIs(s, c)
  {
    if s == "" {
    } else if IsSpace(s[|s| - 1]) {
      var t := s[..|s| - 1];
      TrimRightSuffix(t, c);
      if LastInkIs(t, c) {
        var k :| 0 <= k < |t| && t[k] == c && forall m :: k < m < |t| ==> IsSpace(t[m]);
        assert s[k] == c && forall m :: k < m < |s| ==> IsSpace(if m < |t| then t[m] else s[m]);
        assert LastInkIs(s, c);
      }
      if LastInkIs(s, c) {
        var k :| 0 <= k < |s| && s[k] == c && forall m :: k < m < |s| ==> IsSpace(s[m]);
        assert t[k] == c;
        assert LastInkIs(t, c);
      }
    } else {
      if HasSuffix(s, [c]) {
        assert s[|s| - 1] == s[|s| - 1..][0] == c;
        assert LastInkIs(s, c);
      }
      if LastInkIs(s, c) {
        assert s[|s| - 1..] == [s[|s| - 1]];
      }
    }
  }

  /** Trimming a line and testing its last character asks for the last non-blank character. */
  lemma {:induction false} TrimSpaceSuffix(s: string, c: char)
    requires !IsSpace(c)
    ensures HasSuffix(TrimSpace(s), [c]) <==> LastInkIs(s, c)
  {
    TrimLeftSuffix(TrimRight(s), c);
    TrimRightSuffix(s, c);
  }
  /** What blanks follow a line does not matter: not spaces or tabs, and not the carriage return
      that a log with other line ends leaves. */
  lemma {:induction false} BlanksDoNotMatter(s: string, blanks: string, c: char)
    requires !IsSpace(c) && forall k :: 0 <= k < |blanks| ==> blanks[k] in {' ', '\t', '\r', '\n'}
    ensures LastInkIs(s + blanks, c) <==> LastInkIs(s, c)
    ensures HasSuffix(TrimSpace(s + blanks), [c]) <==> HasSuffix(TrimSpace(s), [c])
  {
    var t := s + blanks;
    if LastInkIs(s, c) {
      var k :| 0 <= k < |s| && s[k] == c && forall m :: k < m < |s| ==> IsSpace(s[m]);
      forall m | k < m < |t| ensures IsSpace(t[m]) {
        assert t[m] == if m < |s| then s[m] else blanks[m - |s|];
      }
      assert t[k] == c;
    }
    if LastInkIs(t, c) {
      var k :| 0 <= k < |t| && t[k] == c && forall m :: k < m < |t| ==> IsSpace(t[m]);
      forall m | |s| <= m < |t| ensures t[m] != c {
        assert t[m] == blanks[m - |s|];
      }
      assert s[k] == c && forall m :: k < m < |s| ==> s[m] == t[m];
    }
    TrimSpaceSuffix(t, c);
    TrimSpaceSuffix(s, c);
  }
}
