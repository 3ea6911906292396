/** Logs that are cut off at their end, as a limit on the bytes read cuts them: what
    findSummaryJSON makes of a printed object whose last lines are missing. */
module CutEnd {
  import opened Wrappers
  import opened Strings
  import opened Scanner
  import opened Printer
  import opened PrintScan

  // ---------- Every closing line of a print has its opening line ----------

  /** The tail after line e: the next one, or what follows the lines. */
  function NextTail(ts: seq<int>, e: nat, below: int): int {
    if e + 1 < |ts| then ts[e + 1] else below
  }

  ghost predicate OpenedWithin(ts: seq<int>, e: nat, below: int) {
    exists m: nat :: m <= e < |ts| && ts[m] == NextTail(ts, e, below)
  }

  /** From some line on, the braces down to each closing line balance. */
  ghost predicate Paired(lines: seq<string>, ts: seq<int>, below: int)
  {
    |ts| == |lines| && forall e: nat :: e < |lines| && Closes(lines[e]) ==> OpenedWithin(ts, e, below)
  }

  lemma {:induction false} PairedConcat(a: seq<string>, ta: seq<int>, b: seq<string>, tb: seq<int>, below: int)
    requires |tb| == |b| && Paired(a, ta, if b == [] then below else tb[0]) && Paired(b, tb, below)
    ensures Paired(a + b, ta + tb, below)
  {
    forall e: nat | e < |a + b| && Closes((a + b)[e]) ensures OpenedWithin(ta + tb, e, below) {
      if e < |a| {
        var m: nat :| m <= e < |ta| && ta[m] == NextTail(ta, e, if b == [] then below else tb[0]);
        assert (ta + tb)[m] == NextTail(ta + tb, e, below);
      } else {
        var f: nat := e - |a|;
        assert Closes(b[f]);
        var m: nat :| m <= f < |tb| && tb[m] == NextTail(tb, f, below);
        assert (ta + tb)[|a| + m] == NextTail(ta + tb, e, below);
      }
    }
  }

  lemma {:induction false} InkBefore(s: string, c: char)
    requires !IsSpace(c) && c != '}'
    ensures !Closes(s + [c])
  {
    assert (s + [c])[|s|] == c;
  }

  lemma {:induction false} ClosesAtEnd(a: string, b: string)
    requires Closes(a + b)
    ensures Closes(a) || Closes(b)
  {
    var s := a + b;
    var k :| 0 <= k < |s| && s[k] == '}' && !IsSpace('}') && forall m :: k < m < |s| ==> IsSpace(s[m]);
    if k < |a| {
      assert a[k] == '}' && forall m :: k < m < |a| ==> s[m] == a[m];
    } else {
      assert b[k - |a|] == '}' && forall m :: k - |a| < m < |b| ==> s[|a| + m] == b[m];
    }
  }

  lemma {:induction false} NoBraceNoClose(s: string)
    requires '}' !in s
    ensures !Closes(s)
  {}

  lemma {:induction false} SpacesHoldNoBrace(n: nat)
    ensures '}' !in Spaces(n)
  {
    if n == 0 {
    } else {
      SpacesHoldNoBrace(n - 1);
    }
  }

  lemma {:induction false} PrefixesDoNotClose(indent: nat, key: string)
    ensures !Closes(Spaces(indent)) && !Closes(KeyPrefix(indent, key))
  {
    SpacesHoldNoBrace(indent);
    NoBraceNoClose(Spaces(indent));
    var prefix := KeyPrefix(indent, key);
    assert prefix[|prefix| - 2] == ':' && !IsSpace(':');
  }

  /** Attaching indentation, a key and a comma makes no line close. */
  lemma {:induction false} AttachClosesNothing(prefix: string, lines: seq<string>, last: bool, k: nat)
    requires lines != [] && !Closes(prefix) && k < |lines| && Closes(Attach(prefix, lines, Comma(last))[k])
    ensures Closes(lines[k])
  {
    var line := if k == 0 then prefix + lines[0] else lines[k];
    if k == |lines| - 1 {
      if last {
        assert line + "" == line;
      } else {
        InkBefore(line, ',');
      }
    }
    if k == 0 {
      ClosesAtEnd(prefix, lines[0]);
    }
  }

  lemma {:induction false} PairedAttach(
    prefix: string, lines: seq<string>, last: bool, ts: seq<int>, below: int)
    requires lines != [] && !Closes(prefix) && Paired(lines, ts, below)
    ensures Paired(Attach(prefix, lines, Comma(last)), ts, below)
  {
    var r := Attach(prefix, lines, Comma(last));
    forall e: nat | e < |r| && Closes(r[e]) ensures OpenedWithin(ts, e, below) {
      AttachClosesNothing(prefix, lines, last, e);
    }
  }

  lemma {:induction false} PairedOne(line: string, below: int)
    ensures Paired([line], [below], below)
  {
    assert [below][0] == NextTail([below], 0, below);
  }

  lemma {:induction false} PairedBetween(
    open: string, body: seq<string>, tb: seq<int>, close: string, t: int, below: int)
    requires !Closes(open) && !Closes(close) && Paired(body, tb, below)
    ensures Paired([open] + body + [close], [t] + tb + [below], below)
  {
    var lines, ts := [open] + body + [close], [t] + tb + [below];
    forall e: nat | e < |lines| && Closes(lines[e]) ensures OpenedWithin(ts, e, below) {
      var f: nat := e - 1;
      assert lines[e] == body[f];
      var m: nat :| m <= f < |tb| && tb[m] == NextTail(tb, f, below);
      assert ts[m + 1] == NextTail(ts, e, below);
    }
  }

  lemma {:induction false} PairedArray(items: Items, indent: nat, below: int)
    requires items.Items? && Paired(PrettyItems(items, indent + 2), ItemTails(items, below), below)
    ensures Paired(Pretty(Arr(items), indent), Tails(Arr(items), below), below)
  {
    NoBraceNoClose("[");
    InkBefore(Spaces(indent), ']');
    PairedBetween("[", PrettyItems(items, indent + 2), ItemTails(items, below), Spaces(indent) + "]",
                  StringNetItems(items) + below, below);
  }

  /** The last line closes what the first one opens. */
  lemma {:induction false} PairedAround(open: string, body: seq<string>, tb: seq<int>, close: string, below: int)
    requires !Closes(open) && Paired(body, tb, below + 1)
    ensures Paired([open] + body + [close], [below] + tb + [below + 1], below)
  {
    var lines, ts := [open] + body + [close], [below] + tb + [below + 1];
    forall e: nat | e < |lines| && Closes(lines[e]) ensures OpenedWithin(ts, e, below) {
      if e == |lines| - 1 {
        assert ts[0] == NextTail(ts, e, below);
      } else {
        var f: nat := e - 1;
        assert lines[e] == body[f];
        var m: nat :| m <= f < |tb| && tb[m] == NextTail(tb, f, below + 1);
        assert ts[m + 1] == NextTail(ts, e, below);
      }
    }
  }

  lemma {:induction false} PairedObject(members: Members, indent: nat, below: int)
    requires members.Members? && StringNetMembers(members) == 0
    requires Paired(PrettyMembers(members, indent + 2), MemberTails(members, below + 1), below + 1)
    ensures Paired(Pretty(Obj(members), indent), Tails(Obj(members), below), below)
  {
    NoBraceNoClose("{");
    PairedAround("{", PrettyMembers(members, indent + 2), MemberTails(members, below + 1), Spaces(indent) + "}", below);
  }

  lemma {:induction false} PairedLeaf(v: Json, indent: nat, below: int)
    requires Printable(v) && Balanced(v) && (v.Atom? || v.Str? || v == Arr(NoItems) || v == Obj(NoMembers))
    ensures Paired(Pretty(v, indent), Tails(v, below), below)
  {
    match v
    case Atom(text) => PairedOne(text, below);
    case Str(s) => PairedOne(Quote(s), below);
    case Arr(_) => PairedOne("[]", below);
    case Obj(_) => PairedOne("{}", below);
  }

  lemma {:induction false} PrettyIsPaired(v: Json, indent: nat, below: int)
    requires Printable(v) && Balanced(v)
    ensures Paired(Pretty(v, indent), Tails(v, below), below)
  {
    if v.Arr? && v.items.Items? {
      ItemsArePaired(v.items, indent + 2, below);
      PairedArray(v.items, indent, below);
    } else if v.Obj? && v.members.Members? {
      MembersArePaired(v.members, indent + 2, below + 1);
      BalancedMemberTails(v.members, below + 1);
      PairedObject(v.members, indent, below);
    } else {
      PairedLeaf(v, indent, below);
    }
  }

  lemma {:induction false} ItemsArePaired(items: Items, indent: nat, below: int)
    requires PrintableItems(items) && BalancedItems(items)
    ensures Paired(PrettyItems(items, indent), ItemTails(items, below), below)
    ensures items.Items? ==> ItemTails(items, below)[0] == below
  {
    match items
    case NoItems =>
    case Items(v, rest) =>
      ItemsArePaired(rest, indent, below);
      BalancedItemTails(rest, below);
      BalancedTails(v, below);
      PrettyIsPaired(v, indent, below);
      PrefixesDoNotClose(indent, "");
      PairedAttach(Spaces(indent), Pretty(v, indent), rest.NoItems?, Tails(v, below), below);
      PairedConcat(Attach(Spaces(indent), Pretty(v, indent), Comma(rest.NoItems?)), Tails(v, below),
                   PrettyItems(rest, indent), ItemTails(rest, below), below);
  }

  lemma {:induction false} MembersArePaired(members: Members, indent: nat, below: int)
    requires PrintableMembers(members) && BalancedMembers(members)
    ensures Paired(PrettyMembers(members, indent), MemberTails(members, below), below)
    ensures members.Members? ==> MemberTails(members, below)[0] == below
  {
    match members
    case NoMembers =>
    case Members(k, v, rest) =>
      var prefix := KeyPrefix(indent, k);
      MembersArePaired(rest, indent, below);
      BalancedMemberTails(rest, below);
      BalancedTails(v, below);
      PrettyIsPaired(v, indent, below);
      PrefixesDoNotClose(indent, k);
      PairedAttach(prefix, Pretty(v, indent), rest.NoMembers?, Tails(v, below), below);
      assert AddToFirst(0, Tails(v, below)) == Tails(v, below);
      PairedConcat(Attach(prefix, Pretty(v, indent), Comma(rest.NoMembers?)), Tails(v, below),
                   PrettyMembers(rest, indent), MemberTails(rest, below), below);
  }

  // ---------- The blocks of a print without its end ----------

  /** The braces from line m down to line e of a print, from its tails. */
  lemma {:induction false} SpanOfTails(p: seq<string>, ts: seq<int>, lines: seq<string>, front: nat, m: nat, e: nat)
    requires TailsAre(p, ts, 0) && m <= e < |p| && front + e < |lines|
    requires lines[front..front + e + 1] == p[..e + 1]
    ensures Span(lines, front + m, front + e) == ts[m] - NextTail(ts, e, 0)
  {
    assert lines[front + m..front + e + 1] == p[m..e + 1];
    assert p[m..] == p[m..e + 1] + p[e + 1..];
    BalanceConcat(p[m..e + 1], p[e + 1..]);
    assert ts[m] == TailNet(p, m);
    if e + 1 < |p| {
      assert ts[e + 1] == TailNet(p, e + 1);
    }
  }

  ghost predicate NoneOpensAt(c: Cutting, k: nat) {
    c.Cut? ==> c.block.first != k && NoneOpensAt(c.rest, k)
  }

  lemma {:induction false} NotZero(ts: seq<int>, e: nat)
    requires e + 1 < |ts| && 0 !in ts[1..]
    ensures ts[e + 1] != 0
  {
    assert ts[e + 1] == ts[1..][e];
  }

  lemma {:induction false} PrintInLog(before: seq<string>, p: seq<string>, t: nat, rest: seq<string>, e: nat)
    requires e < t <= |p|
    ensures |before| + e < |before + p[..t] + rest|
    ensures (before + p[..t] + rest)[|before|..|before| + e + 1] == p[..e + 1]
  {
    var part := (before + p[..t] + rest)[|before|..|before| + e + 1];
    forall k | 0 <= k <= e ensures part[k] == p[k] {}
  }

  lemma {:induction false} NoBlockHoldsStart(
    before: seq<string>, p: seq<string>, ts: seq<int>, t: nat, rest: seq<string>, n: nat)
    requires TailsAre(p, ts, 0) && t < |p| && ts[0] == 0 && 0 !in ts[1..] && NothingCloses(rest)
    requires n <= |before + p[..t] + rest|
    ensures NoneOpensAt(CutBlocks(before + p[..t] + rest, n), |before|)
    decreases n
  {
    var lines := before + p[..t] + rest;
    QuietTail(before + p[..t], rest);
    if n == 0 {
    } else if !Closes(lines[n - 1]) {
      NoBlockHoldsStart(before, p, ts, t, rest, n - 1);
    } else {
      var open := OpenFrom(lines, n - 1, n - 1);
      if open.Some? {
        NoBlockHoldsStart(before, p, ts, t, rest, open.value);
        if |before| < n {
          var e: nat := n - 1 - |before|;
          PrintInLog(before, p, t, rest, e);
          SpanOfTails(p, ts, lines, |before|, 0, e);
          NotZero(ts, e);
        }
      }
    }
  }

  /** Whatever precedes it: when the end of a printed object is missing, none of what the parser
      gets starts at its first line. */
  lemma {:induction false} CutObjectIsNeverParsed(before: seq<string>, v: Json, t: nat, rest: seq<string>)
    requires IsObjectPrint(v) && t < |Pretty(v, 0)| && NothingCloses(rest)
    ensures var lines := before + Pretty(v, 0)[..t] + rest;
            NoneOpensAt(CutBlocks(lines, |lines|), |before|)
  {
    var p, ts := Pretty(v, 0), Tails(v, 0);
    PrettyTails(v, 0, 0);
    assert ts[0] == TailNet(p, 0) == 0 by {
      assert p[0..] == p;
    }
    NoBlockHoldsStart(before, p, ts, t, rest, |before + p[..t] + rest|);
  }

  /** The block parses to this summary. */
  ghost predicate ParsesTo(lines: seq<string>, b: Block, parse: Unmarshal, summary: K6Summary) {
    b.first <= b.last < |lines| && Closes(lines[b.last]) && parse(Text(lines, b)) == Some(summary)
  }

  lemma {:induction false} FoundInBlock(lines: seq<string>, parse: Unmarshal, n: nat, k: nat) returns (b: Block)
    requires n <= |lines| && InLog(CutBlocks(lines, n), |lines|) && NoneOpensAt(CutBlocks(lines, n), k)
    requires FirstSummary(lines, parse, CutBlocks(lines, n)).Some?
    ensures b.first != k && b.last < n
    ensures ParsesTo(lines, b, parse, FirstSummary(lines, parse, CutBlocks(lines, n)).value)
    decreases n
  {
    var c := CutBlocks(lines, n);
    if !Closes(lines[n - 1]) {
      b := FoundInBlock(lines, parse, n - 1, k);
    } else {
      var parsed := parse(Text(lines, c.block));
      if parsed.Some? && parsed.value.HasBothKeys() {
        b := c.block;
      } else {
        InLogWeakens(c.rest, c.block.first, |lines|);
        b := FoundInBlock(lines, parse, c.block.first, k);
      }
    }
  }

  lemma {:induction false} SameBlockInWhole(
    p: seq<string>, t: nat, rest: seq<string>, b: Block, parse: Unmarshal, summary: K6Summary)
    requires t <= |p| && NothingCloses(rest) && ParsesTo(p[..t] + rest, b, parse, summary)
    ensures b.last < t && ParsesTo(p, b, parse, summary)
  {
    var lines := p[..t] + rest;
    QuietTail(p[..t], rest);
    assert lines[b.first..b.last + 1] == p[b.first..b.last + 1];
  }

  /** A printed object whose end is missing is never read as a whole: what is found, if anything,
      is the text of a nested part that starts below its first line. */
  lemma {:induction false} OnlyNestedPartsAreFound(v: Json, t: nat, rest: seq<string>, parse: Unmarshal)
    requires IsObjectPrint(v) && t < |Pretty(v, 0)| && NothingCloses(rest)
    ensures var found := Outcome(Pretty(v, 0)[..t] + rest, parse);
            found.Found? ==>
              exists b: Block :: 0 < b.first && b.last < t && ParsesTo(Pretty(v, 0), b, parse, found.summary)
  {
    var p := Pretty(v, 0);
    var lines := p[..t] + rest;
    CutObjectIsNeverParsed([], v, t, rest);
    assert [] + p[..t] + rest == lines;
    CutStaysInLog(lines, |lines|);
    if Outcome(lines, parse).Found? {
      var b := FoundInBlock(lines, parse, |lines|, 0);
      SameBlockInWhole(p, t, rest, b, parse, Outcome(lines, parse).summary);
    }
  }

  // ---------- When the cut is noticed ----------

  lemma {:induction false} LineOpens(p: seq<string>, ts: seq<int>, lines: seq<string>, e: nat)
    requires TailsAre(p, ts, 0) && e < |p| && e < |lines| && lines[..e + 1] == p[..e + 1]
    requires OpenedWithin(ts, e, 0)
    ensures OpenFrom(lines, e, e).Some?
  {
    var m: nat :| m <= e < |ts| && ts[m] == NextTail(ts, e, 0);
    assert lines[0..0 + e + 1] == p[..e + 1];
    SpanOfTails(p, ts, lines, 0, m, e);
  }

  lemma {:induction false} EveryBlockOpens(p: seq<string>, ts: seq<int>, t: nat, rest: seq<string>, n: nat)
    requires TailsAre(p, ts, 0) && Paired(p, ts, 0) && t <= |p| && NothingCloses(rest) && n <= |p[..t] + rest|
    ensures !EndsUnbalanced(CutBlocks(p[..t] + rest, n))
    decreases n
  {
    var lines := p[..t] + rest;
    QuietTail(p[..t], rest);
    if n == 0 {
    } else if !Closes(lines[n - 1]) {
      EveryBlockOpens(p, ts, t, rest, n - 1);
    } else {
      assert lines[..n] == p[..n] && Closes(p[n - 1]);
      LineOpens(p, ts, lines, n - 1);
      EveryBlockOpens(p, ts, t, rest, OpenFrom(lines, n - 1, n - 1).value);
    }
  }

  lemma {:induction false} ClosesInFront(front: seq<string>, rest: seq<string>)
    requires NothingCloses(rest)
    ensures NothingCloses(front) <==> forall k :: 0 <= k < |front + rest| ==> !Closes((front + rest)[k])
  {
    var lines := front + rest;
    QuietTail(front, rest);
    if NothingCloses(front) {
      forall k | 0 <= k < |lines| ensures !Closes(lines[k]) {
        assert k < |front| ==> lines[k] == front[k] && front[k] in front;
      }
    } else {
      var l :| l in front && Closes(l);
      var k :| 0 <= k < |front| && front[k] == l;
      assert Closes(lines[k]);
    }
  }

  /** A log that opens something and all of whose closing lines have their opening lines. */
  lemma {:induction false} CompleteOutcome(lines: seq<string>, parse: Unmarshal)
    requires !EndsUnbalanced(CutBlocks(lines, |lines|))
    ensures Outcome(lines, parse) == Truncated <==> CutBlocks(lines, |lines|).Done? && SomeOpener(lines)
  {
    CutStaysInLog(lines, |lines|);
  }

  /** When all strings balance, the missing end is noticed if and only if nothing that is left
      closes: one complete nested object at the end of its parent is enough to miss it. */
  lemma {:induction false} CutEndIsTruncatedIff(v: Json, t: nat, rest: seq<string>, parse: Unmarshal)
    requires v.Obj? && Printable(v) && Balanced(v) && 0 < t < |Pretty(v, 0)| && NothingCloses(rest)
    ensures Outcome(Pretty(v, 0)[..t] + rest, parse) == Truncated <==> NothingCloses(Pretty(v, 0)[..t])
  {
    var p, ts := Pretty(v, 0), Tails(v, 0);
    var lines := p[..t] + rest;
    PrettyTails(v, 0, 0);
    PrettyIsPaired(v, 0, 0);
    EveryBlockOpens(p, ts, t, rest, |lines|);
    QuietIsDone(lines, |lines|);
    CompleteOutcome(lines, parse);
    ClosesInFront(p[..t], rest);
    assert Pretty(v, 0)[0][0] == '{' && lines[0] == Pretty(v, 0)[0];
  }
}
