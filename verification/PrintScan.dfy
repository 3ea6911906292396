/** The scanner undoes the printer: what findSummaryJSON makes of a log that holds a printed
    JSON object, whole or cut off by the log tail. */
module PrintScan {
  import opened Wrappers
  import opened Strings
  import opened Scanner
  import opened Printer

  ghost predicate NothingCloses(lines: seq<string>) {
    forall l :: l in lines ==> !Closes(l)
  }

  // ---------- The block that is found ----------

  /** The lines balance, and none of their proper tails does. */
  ghost predicate SingleBlock(p: seq<string>)
  {
    TailNet(p, 0) == 0 && forall t: nat :: 0 < t < |p| ==> TailNet(p, t) != 0
  }

  lemma {:induction false} QuietTail(front: seq<string>, after: seq<string>)
    requires NothingCloses(after)
    ensures forall k :: |front| <= k < |front + after| ==> !Closes((front + after)[k])
  {
    forall k | |front| <= k < |front + after| ensures !Closes((front + after)[k]) {
      assert (front + after)[k] == after[k - |front|] && after[k - |front|] in after;
    }
  }

  lemma {:induction false} SpansAreTails(before: seq<string>, p: seq<string>, after: seq<string>, t: nat)
    requires t < |p|
    ensures Span(before + p + after, |before| + t, |before| + |p| - 1) == TailNet(p, t)
  {
    var lines, last := before + p + after, |before| + |p| - 1;
    assert lines[|before| + t..last + 1] == p[t..];
  }

  /** The lines of p are where the walk back from the last of them stops exactly when they
      are a single block. */
  lemma {:induction false} OpensAtFirstLineIff(before: seq<string>, p: seq<string>, after: seq<string>)
    requires p != []
    ensures var last := |before| + |p| - 1;
            OpenFrom(before + p + after, last, last) == Some(|before|) <==> SingleBlock(p)
  {
    var lines, last := before + p + after, |before| + |p| - 1;
    var open := OpenFrom(lines, last, last);
    forall t: nat | t < |p| ensures Span(lines, |before| + t, last) == TailNet(p, t) {
      SpansAreTails(before, p, after, t);
    }
    if open == Some(|before|) {
      forall t: nat | 0 < t < |p| ensures TailNet(p, t) != 0 {
        assert Span(lines, |before| + t, last) != 0;
      }
    }
    if SingleBlock(p) {
      forall m: nat | |before| < m <= last ensures Span(lines, m, last) != 0 {
        assert TailNet(p, m - |before|) != 0;
      }
    }
  }

  lemma {:induction false} FrontIsCutAlone(before: seq<string>, p: seq<string>, after: seq<string>)
    requires p != []
    ensures CutBlocks(before + p + after, |before|) == CutBlocks(before, |before|)
    ensures Text(before + p + after, Block(|before|, |before| + |p| - 1)) == Join(p, '\n')
  {
    var lines := before + p + after;
    assert lines[..|before|] == before[..|before|];
    assert lines[|before|..|before| + |p| - 1 + 1] == p;
    CutIsLocal(lines, before, |before|);
  }

  /** Lines that end in a closing line, before lines that close nothing, are the first block
      of the log exactly when they are a single block. */
  lemma {:induction false} FirstBlockIff(before: seq<string>, p: seq<string>, after: seq<string>)
    requires p != [] && Closes(p[|p| - 1]) && NothingCloses(after)
    ensures var lines := before + p + after;
            var c := CutBlocks(lines, |lines|);
            (c.Cut? && c.block == Block(|before|, |before| + |p| - 1)) <==> SingleBlock(p)
  {
    var lines, last := before + p + after, |before| + |p| - 1;
    QuietTail(before + p, after);
    SkipQuietTail(lines, last + 1, |lines|);
    OpensAtFirstLineIff(before, p, after);
    assert lines[last] == p[|p| - 1];
  }

  /** Then the parser gets their text, and the scan goes on above them. */
  lemma {:induction false} FirstBlockIs(before: seq<string>, p: seq<string>, after: seq<string>)
    requires p != [] && SingleBlock(p) && Closes(p[|p| - 1]) && NothingCloses(after)
    ensures var lines := before + p + after;
            var b := Block(|before|, |before| + |p| - 1);
            && CutBlocks(lines, |lines|) == Cut(b, CutBlocks(before, |before|))
            && Text(lines, b) == Join(p, '\n')
  {
    var lines, last := before + p + after, |before| + |p| - 1;
    QuietTail(before + p, after);
    SkipQuietTail(lines, last + 1, |lines|);
    OpensAtFirstLineIff(before, p, after);
    assert lines[last] == p[|p| - 1];
    FrontIsCutAlone(before, p, after);
  }

  /** Lines none of whose tails balances never balance. */
  lemma {:induction false} NothingBalances(p: seq<string>, ts: seq<int>, after: seq<string>)
    requires p != [] && Closes(p[|p| - 1]) && NothingCloses(after)
    requires TailsAre(p, ts, 0) && 0 !in ts
    ensures CutBlocks(p + after, |p + after|) == Unbalanced
  {
    var lines, last := p + after, |p| - 1;
    QuietTail(p, after);
    SkipQuietTail(lines, |p|, |lines|);
    assert lines[last] == p[last];
    forall m: nat | m <= last ensures Span(lines, m, last) != 0 {
      assert lines[m..last + 1] == p[m..];
      assert ts[m] == TailNet(p, m);
    }
  }

  lemma {:induction false} SingleBlockIff(p: seq<string>, ts: seq<int>)
    requires p != [] && TailsAre(p, ts, 0)
    ensures SingleBlock(p) <==> ts[0] == 0 && 0 !in ts[1..]
  {
    if 0 in ts[1..] {
      var k: nat :| k < |ts[1..]| && ts[1..][k] == 0;
      assert ts[k + 1] == TailNet(p, k + 1);
    } else {
      forall t: nat | 0 < t < |p| ensures TailNet(p, t) != 0 {
        assert ts[1..][t - 1] == ts[t] == TailNet(p, t);
      }
    }
  }

  // ---------- Printed objects ----------

  /** The braces in the strings of v cancel in total, and at no line after the first do the
      braces from there on cancel. */
  ghost predicate Recoverable(v: Json) {
    StringNet(v) == 0 && 0 !in Tails(v, 0)[1..]
  }

  lemma {:induction false} PrettyIsSingleBlockIff(v: Json)
    requires Printable(v)
    ensures SingleBlock(Pretty(v, 0)) <==> Recoverable(v)
  {
    var p := Pretty(v, 0);
    PrettyTails(v, 0, 0);
    SingleBlockIff(p, Tails(v, 0));
    assert p[0..] == p;
  }

  /** For any object tree, pretty-printed after arbitrary lines and followed by lines that
      close nothing, the printed lines are the first block if and only if the braces in its
      strings cancel in total and no proper tail of its lines balances, which the tree tells. */
  lemma {:induction false} PrettyPrintIsFirstBlockIff(before: seq<string>, v: Json, after: seq<string>)
    requires v.Obj? && Printable(v) && NothingCloses(after)
    ensures var p := Pretty(v, 0);
            var lines := before + p + after;
            var c := CutBlocks(lines, |lines|);
            (c.Cut? && c.block == Block(|before|, |before| + |p| - 1)) <==> Recoverable(v)
  {
    ObjectPrintCloses(v);
    PrettyIsSingleBlockIff(v);
    FirstBlockIff(before, Pretty(v, 0), after);
  }

  /** Objects whose strings each hold as many opening as closing braces qualify. */
  lemma {:induction false} BalancedIsRecoverable(v: Json)
    requires v.Obj? && Balanced(v)
    ensures Recoverable(v)
  {
    BalancedTails(v, 0);
  }

  /** For any object tree whose strings hold balanced braces, pretty-printed after arbitrary
      lines and followed by lines that close nothing, the first block handed to the parser
      is exactly the printed lines. */
  lemma {:induction false} PrettyPrintIsFirstBlock(before: seq<string>, v: Json, after: seq<string>)
    requires v.Obj? && Printable(v) && Balanced(v) && NothingCloses(after)
    ensures var p := Pretty(v, 0);
            var lines := before + p + after;
            var b := Block(|before|, |before| + |p| - 1);
            && CutBlocks(lines, |lines|) == Cut(b, CutBlocks(before, |before|))
            && Text(lines, b) == Join(p, '\n')
  {
    BalancedIsRecoverable(v);
    PrettyIsSingleBlockIff(v);
    ObjectPrintCloses(v);
    FirstBlockIs(before, Pretty(v, 0), after);
  }

  /** For a one-line print the first half of the condition is all: the line is the first block
      if and only if the braces inside its strings cancel in total. */
  lemma {:induction false} CompactPrintIsFirstBlockIff(before: seq<string>, v: Json, after: seq<string>)
    requires v.Obj? && Printable(v) && NothingCloses(after)
    ensures var lines := before + [Compact(v)] + after;
            var c := CutBlocks(lines, |lines|);
            (c.Cut? && c.block == Block(|before|, |before|)) <==> StringNet(v) == 0
  {
    CompactNet(v);
    TailsOfOne(Compact(v), 0);
    ObjectPrintCloses(v);
    FirstBlockIff(before, [Compact(v)], after);
  }

  // ---------- Whole logs ----------

  ghost predicate ParsesAsSummary(text: string, parse: Unmarshal) {
    IsSummary(parse(text))
  }

  ghost predicate ParsesAsOther(text: string, parse: Unmarshal) {
    parse(text).Some? && !IsSummary(parse(text))
  }

  function PrettyText(v: Json): string {
    Join(Pretty(v, 0), '\n')
  }

  ghost predicate IsObjectPrint(v: Json) {
    v.Obj? && Printable(v) && Recoverable(v)
  }

  /** A recoverable printed summary is found and parsed from its own text, whatever precedes it. */
  lemma {:induction false} PrintedSummaryIsFound(before: seq<string>, v: Json, after: seq<string>, parse: Unmarshal)
    requires IsObjectPrint(v) && NothingCloses(after) && ParsesAsSummary(PrettyText(v), parse)
    ensures Outcome(before + Pretty(v, 0) + after, parse) == Found(parse(PrettyText(v)).value)
  {
    var lines := before + Pretty(v, 0) + after;
    PrettyIsSingleBlockIff(v);
    ObjectPrintCloses(v);
    FirstBlockIs(before, Pretty(v, 0), after);
    CutStaysInLog(lines, |lines|);
    OutcomeStep(lines, parse, CutBlocks(lines, |lines|), None, false);
  }

  /** The same for a summary printed on one line, when its strings' braces cancel in total. */
  lemma {:induction false} CompactSummaryIsFound(before: seq<string>, v: Json, after: seq<string>, parse: Unmarshal)
    requires v.Obj? && Printable(v) && StringNet(v) == 0 && NothingCloses(after)
    requires ParsesAsSummary(Compact(v), parse)
    ensures Outcome(before + [Compact(v)] + after, parse) == Found(parse(Compact(v)).value)
  {
    var p := [Compact(v)];
    var lines := before + p + after;
    CompactNet(v);
    TailsOfOne(Compact(v), 0);
    ObjectPrintCloses(v);
    FirstBlockIs(before, p, after);
    CutStaysInLog(lines, |lines|);
    OutcomeStep(lines, parse, CutBlocks(lines, |lines|), None, false);
  }

  lemma {:induction false} TextOfFront(front: seq<string>, q: seq<string>, after: seq<string>, b: Block)
    requires b.first <= b.last < |front|
    ensures Text(front + q + after, b) == Text(front, b)
  {
    assert (front + q + after)[b.first..b.last + 1] == front[b.first..b.last + 1];
  }

  lemma {:induction false} SecondBlockDecides(lines: seq<string>, parse: Unmarshal)
    requires var c := CutBlocks(lines, |lines|);
             && c.Cut? && c.block.first <= c.block.last < |lines|
             && c.rest.Cut? && c.rest.block.first <= c.rest.block.last < |lines|
             && ParsesAsOther(Text(lines, c.block), parse) && ParsesAsSummary(Text(lines, c.rest.block), parse)
    ensures Outcome(lines, parse) == Found(parse(Text(lines, CutBlocks(lines, |lines|).rest.block)).value)
  {
    var c := CutBlocks(lines, |lines|);
    CutStaysInLog(lines, |lines|);
    OutcomeStep(lines, parse, c, None, false);
    OutcomeStep(lines, parse, c.rest, None, true);
  }

  lemma {:induction false} SecondBlockIsFound(
    before: seq<string>, p: seq<string>, between: seq<string>, q: seq<string>, after: seq<string>, parse: Unmarshal)
    requires p != [] && SingleBlock(p) && Closes(p[|p| - 1]) && NothingCloses(between)
    requires q != [] && SingleBlock(q) && Closes(q[|q| - 1]) && NothingCloses(after)
    requires ParsesAsSummary(Join(p, '\n'), parse) && ParsesAsOther(Join(q, '\n'), parse)
    ensures Outcome(before + p + between + q + after, parse) == Found(parse(Join(p, '\n')).value)
  {
    var front := before + p + between;
    FirstBlockIs(front, q, after);
    FirstBlockIs(before, p, between);
    TextOfFront(front, q, after, Block(|before|, |before| + |p| - 1));
    SecondBlockDecides(front + q + after, parse);
  }

  /** Objects printed later that are not summaries do not hide the summary. */
  lemma {:induction false} LaterObjectsDoNotHideSummary(
    before: seq<string>, v: Json, between: seq<string>, w: Json, after: seq<string>, parse: Unmarshal)
    requires IsObjectPrint(v) && IsObjectPrint(w) && NothingCloses(between) && NothingCloses(after)
    requires ParsesAsSummary(PrettyText(v), parse) && ParsesAsOther(PrettyText(w), parse)
    ensures Outcome(before + Pretty(v, 0) + between + Pretty(w, 0) + after, parse) == Found(parse(PrettyText(v)).value)
  {
    PrettyIsSingleBlockIff(v);
    PrettyIsSingleBlockIff(w);
    ObjectPrintCloses(v);
    ObjectPrintCloses(w);
    SecondBlockIsFound(before, Pretty(v, 0), between, Pretty(w, 0), after, parse);
  }

  /** The same on the log text: printing, joining into one string and scanning it again. */
  lemma {:induction false} PrintedSummaryIsFoundInText(
    before: seq<string>, v: Json, after: seq<string>, parse: Unmarshal)
    requires IsObjectPrint(v) && NothingCloses(after) && ParsesAsSummary(PrettyText(v), parse)
    requires AllPlain(before) && AllPlain(after)
    ensures var logs := Join(before + Pretty(v, 0) + after, '\n');
            Outcome(Split(logs, '\n'), parse) == Found(parse(PrettyText(v)).value)
  {
    PrettyIsPlain(v, 0);
    SplitJoin(before + Pretty(v, 0) + after, '\n');
    PrintedSummaryIsFound(before, v, after, parse);
  }

  // ---------- Logs cut by the tail ----------

  lemma {:induction false} TailsOfTail(lines: seq<string>, ts: seq<int>, t: nat)
    requires TailsAre(lines, ts, 0) && t <= |lines|
    ensures TailsAre(lines[t..], ts[t..], 0)
  {
    forall m: nat | m < |lines[t..]| ensures ts[t..][m] == TailNet(lines[t..], m) {
      assert lines[t..][m..] == lines[t + m..];
    }
  }

  lemma {:induction false} NoZeroLater(ts: seq<int>, t: nat)
    requires 0 < t <= |ts| && 0 !in ts[1..]
    ensures 0 !in ts[t..]
  {
    assert ts[t..] == ts[1..][t - 1..];
  }

  /** A log that starts strictly inside a pretty-printed object and closes nothing after it
      is reported as truncated; no nested object is ever taken for the summary. */
  lemma {:induction false} CutPrintIsTruncated(v: Json, t: nat, after: seq<string>, parse: Unmarshal)
    requires v.Obj? && Printable(v) && 0 !in Tails(v, 0)[1..]
    requires 0 < t < |Pretty(v, 0)| && NothingCloses(after)
    ensures Outcome(Pretty(v, 0)[t..] + after, parse) == Truncated
  {
    var whole, ts := Pretty(v, 0), Tails(v, 0);
    PrettyTails(v, 0, 0);
    ObjectPrintCloses(v);
    TailsOfTail(whole, ts, t);
    NoZeroLater(ts, t);
    NothingBalances(whole[t..], ts[t..], after);
  }

  /** A log of one block and lines that close nothing is never reported as truncated. */
  lemma {:induction false} OneBlockIsNotTruncated(p: seq<string>, after: seq<string>, parse: Unmarshal)
    requires p != [] && SingleBlock(p) && Closes(p[|p| - 1]) && NothingCloses(after)
    ensures Outcome(p + after, parse) != Truncated
  {
    var lines := p + after;
    FirstBlockIs([], p, after);
    assert [] + p + after == lines;
    CutStaysInLog(lines, |lines|);
    var c := CutBlocks(lines, |lines|);
    OutcomeStep(lines, parse, c, None, false);
    OutcomeAtTop(lines, parse, None, true);
    OutcomeAtTop(lines, parse, Some(Text(lines, c.block)), true);
  }

  lemma {:induction false} LastZero(ts: seq<int>) returns (t: nat)
    requires 0 in ts
    ensures t < |ts| && ts[t] == 0 && 0 !in ts[t + 1..]
  {
    if 0 in ts[1..] {
      var m := LastZero(ts[1..]);
      t := m + 1;
      assert ts[t + 1..] == ts[1..][m + 1..];
    } else {
      t := 0;
    }
  }

  /** A print some proper tail of which balances is misread when the log starts there. */
  lemma {:induction false} CutPrintIsMisread(v: Json, after: seq<string>, parse: Unmarshal) returns (t: nat)
    requires v.Obj? && Printable(v) && 0 in Tails(v, 0)[1..] && NothingCloses(after)
    ensures 0 < t < |Pretty(v, 0)| && Outcome(Pretty(v, 0)[t..] + after, parse) != Truncated
  {
    var whole, ts := Pretty(v, 0), Tails(v, 0);
    PrettyTails(v, 0, 0);
    ObjectPrintCloses(v);
    var k := LastZero(ts[1..]);
    t := k + 1;
    TailsOfTail(whole, ts, t);
    assert ts[t..][1..] == ts[1..][k + 1..];
    SingleBlockIff(whole[t..], ts[t..]);
    OneBlockIsNotTruncated(whole[t..], after, parse);
  }

  /** The condition on the tails is exact here too: every log that starts strictly inside the
      print is reported as truncated if and only if no proper tail of the print balances. */
  lemma {:induction false} CutPrintsAreTruncatedIff(v: Json, after: seq<string>, parse: Unmarshal)
    requires v.Obj? && Printable(v) && NothingCloses(after)
    ensures (forall t: nat :: 0 < t < |Pretty(v, 0)| ==> Outcome(Pretty(v, 0)[t..] + after, parse) == Truncated)
            <==> 0 !in Tails(v, 0)[1..]
  {
    if 0 in Tails(v, 0)[1..] {
      var t := CutPrintIsMisread(v, after, parse);
    } else {
      forall t: nat | 0 < t < |Pretty(v, 0)| ensures Outcome(Pretty(v, 0)[t..] + after, parse) == Truncated {
        CutPrintIsTruncated(v, t, after, parse);
      }
    }
  }

  /** The last k lines of a log, as a bounded log read returns them. */
  function Tail(lines: seq<string>, k: nat): seq<string>
  {
    if k >= |lines| then lines else lines[|lines| - k..]
  }

  /** What the last k lines keep of the lines before p, when they hold all of p. */
  function FrontOf(before: seq<string>, p: seq<string>, after: seq<string>, k: nat): seq<string>
    requires k >= |p| + |after|
  {
    if k >= |before| + |p| + |after| then before else before[|before| + |p| + |after| - k..]
  }

  /** Where the tail starts: before, inside or after the lines p. */
  lemma {:induction false} TailCuts(before: seq<string>, p: seq<string>, after: seq<string>, k: nat)
    ensures var tail := Tail(before + p + after, k);
            && (k >= |p| + |after| ==> tail == FrontOf(before, p, after, k) + p + after)
            && (|after| < k < |p| + |after| ==> tail == p[|p| + |after| - k..] + after)
            && (k <= |after| && p != [] ==> tail == after[|after| - k..])
  {}

  lemma {:induction false} QuietLogHasNoSummary(lines: seq<string>, parse: Unmarshal)
    requires NothingCloses(lines)
    ensures Outcome(lines, parse) in {Nothing, Truncated}
  {
    QuietTail([], lines);
    assert [] + lines == lines;
    SkipQuietTail(lines, 0, |lines|);
  }

  /** A bounded read never misreads a pretty-printed summary: it is found when the tail holds
      all its lines, reported as truncated when the tail starts inside it, and not found
      otherwise. */
  lemma {:induction false} TailNeverMisreads(before: seq<string>, v: Json, after: seq<string>, k: nat, parse: Unmarshal)
    requires IsObjectPrint(v) && NothingCloses(after) && ParsesAsSummary(PrettyText(v), parse)
    ensures k >= |Pretty(v, 0)| + |after| ==>
              Outcome(Tail(before + Pretty(v, 0) + after, k), parse) == Found(parse(PrettyText(v)).value)
    ensures |after| < k < |Pretty(v, 0)| + |after| ==>
              Outcome(Tail(before + Pretty(v, 0) + after, k), parse) == Truncated
    ensures k <= |after| ==>
              Outcome(Tail(before + Pretty(v, 0) + after, k), parse) in {Nothing, Truncated}
  {
    var p := Pretty(v, 0);
    TailCuts(before, p, after, k);
    if k >= |p| + |after| {
      PrintedSummaryIsFound(FrontOf(before, p, after, k), v, after, parse);
    } else if k > |after| {
      CutPrintIsTruncated(v, |p| + |after| - k, after, parse);
    } else {
      QuietLogHasNoSummary(after[|after| - k..], parse);
    }
  }

  // ---------- Where the condition fails ----------

  function OneString(content: string): Json {
    Obj(Members("a", Str(content), NoMembers))
  }

  function TwoStrings(first: string, second: string): Json {
    Obj(Members("a", Str(first), Members("b", Str(second), NoMembers)))
  }

  lemma {:induction false} NetOfTwoStrings(first: string, second: string)
    ensures StringNet(TwoStrings(first, second)) == Net(first) + Net(second)
  {
    var rest := Members("b", Str(second), NoMembers);
    var members := Members("a", Str(first), rest);
    NoBraces("a");
    NoBraces("b");
    assert StringNetMembers(NoMembers) == 0;
    assert StringNetMembers(rest) == Net(second);
    assert StringNetMembers(members) == Net(first) + Net(second);
  }

  lemma {:induction false} TailsOfOneString(content: string)
    ensures Tails(OneString(content), 0) == [Net(content), Net(content) + 1, 1]
  {
    var members := Members("a", Str(content), NoMembers);
    NoBraces("a");
    assert StringNetMembers(NoMembers) == 0 && StringNetMembers(members) == Net(content);
    assert MemberTails(NoMembers, 1) == [] && Tails(Str(content), 0 + 1) == [Net(content) + 1];
    assert AddToFirst(0, [Net(content) + 1]) == [Net(content) + 1];
    assert MemberTails(members, 1) == [Net(content) + 1];
  }

  lemma {:induction false} TailsOfTwoStrings(first: string, second: string)
    ensures Tails(TwoStrings(first, second), 0)
            == [Net(first) + Net(second), Net(first) + Net(second) + 1, Net(second) + 1, 1]
  {
    var rest := Members("b", Str(second), NoMembers);
    var members := Members("a", Str(first), rest);
    NoBraces("a");
    NoBraces("b");
    NetOfTwoStrings(first, second);
    assert StringNetMembers(NoMembers) == 0 && StringNetMembers(rest) == Net(second);
    assert MemberTails(NoMembers, 1) == [] && Tails(Str(second), 0 + 1) == [Net(second) + 1];
    assert AddToFirst(0, [Net(second) + 1]) == [Net(second) + 1];
    assert MemberTails(rest, 1) == [Net(second) + 1];
    assert Tails(Str(first), Net(second) + 1) == [Net(first) + (Net(second) + 1)];
    assert AddToFirst(0, [Net(first) + (Net(second) + 1)]) == [Net(first) + Net(second) + 1];
    assert MemberTails(members, 1) == [Net(first) + Net(second) + 1, Net(second) + 1];
  }

  lemma {:induction false} EverythingUnbalanced(p: seq<string>, ts: seq<int>, parse: Unmarshal)
    requires p != [] && Closes(p[|p| - 1]) && TailsAre(p, ts, 0) && 0 !in ts
    ensures Outcome(p, parse) == Truncated
  {
    NothingBalances(p, ts, []);
    assert p + [] == p;
  }

  lemma {:induction false} ClosingStringHidesObject(parse: Unmarshal)
    ensures Outcome(Pretty(OneString("}"), 0), parse) == Truncated
  {
    var v := OneString("}");
    NetOfOne('}');
    TailsOfOneString("}");
    PrettyTails(v, 0, 0);
    ObjectPrintCloses(v);
    EverythingUnbalanced(Pretty(v, 0), Tails(v, 0), parse);
  }

  lemma {:induction false} SecondLineOpensBlock(p: seq<string>, ts: seq<int>)
    requires |p| > 1 && Closes(p[|p| - 1]) && TailsAre(p, ts, 0) && ts[1] == 0 && 0 !in ts[2..]
    ensures var c := CutBlocks(p, |p|);
            c.Cut? && c.block == Block(1, |p| - 1)
  {
    var front, q := [p[0]], p[1..];
    TailsOfTail(p, ts, 1);
    assert ts[1..][1..] == ts[2..];
    SingleBlockIff(q, ts[1..]);
    FirstBlockIs(front, q, []);
    assert p == front + q + [];
  }

  lemma {:induction false} OpeningStringCutsObject()
    ensures var lines := Pretty(OneString("{"), 0);
            var c := CutBlocks(lines, |lines|);
            c.Cut? && c.block == Block(1, 2) && |lines| == 3
  {
    var v := OneString("{");
    NetOfOne('{');
    TailsOfOneString("{");
    PrettyTails(v, 0, 0);
    ObjectPrintCloses(v);
    assert Tails(v, 0)[2..] == [1];
    SecondLineOpensBlock(Pretty(v, 0), Tails(v, 0));
  }

  /** Braces are counted inside strings too: a complete pretty-printed object holding the one
      string "}" is reported as truncated, whatever the parser would make of it, and one
      holding "{" is cut short, so that its first line never reaches the parser. */
  lemma {:induction false} UnbalancedStringHidesObject(parse: Unmarshal)
    ensures Outcome(Pretty(OneString("}"), 0), parse) == Truncated
    ensures var lines := Pretty(OneString("{"), 0);
            var c := CutBlocks(lines, |lines|);
            c.Cut? && c.block == Block(1, 2) && |lines| == 3
  {
    ClosingStringHidesObject(parse);
    OpeningStringCutsObject();
  }

  /** Strings that do not balance one by one may still cancel, but then their order matters:
      a "{" on an earlier line than a "}" does no harm, the other way round the object is lost. */
  lemma {:induction false} CancellingStringsDependOnOrder()
    ensures Recoverable(TwoStrings("{", "}")) && !Balanced(TwoStrings("{", "}"))
    ensures StringNet(TwoStrings("}", "{")) == 0 && !Recoverable(TwoStrings("}", "{"))
  {
    NetOfOne('}');
    NetOfOne('{');
    TailsOfTwoStrings("{", "}");
    TailsOfTwoStrings("}", "{");
    var v, w := TwoStrings("{", "}"), TwoStrings("}", "{");
    NetOfTwoStrings("{", "}");
    NetOfTwoStrings("}", "{");
    assert Tails(v, 0)[1..] == [1, 2, 1];
    assert Tails(w, 0)[1..] == [1, 0, 1] && [1, 0, 1][1] == 0;
    assert !BalancedMembers(v.members);
  }
}
