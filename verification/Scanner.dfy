/** Finding the k6 summary in a pod log (findSummaryJSON, internal/provider/operator/summary.go).

    The specification cuts the log, from its end, into shortest blocks of lines whose braces
    balance (CutBlocks) and then says which block is the answer (Outcome). The method is the
    source's nested backward scan; it is proved to compute Outcome while visiting each line
    at most twice. */
module Scanner {
  import opened Wrappers
  import opened Strings

  datatype K6Metric = K6Metric(values: map<string, real>)

  /** The two top-level keys the detection looks at; None stands for an absent key. */
  datatype K6Summary = K6Summary(metrics: Option<map<string, K6Metric>>, rootGroup: Option<string>)
  {
    predicate HasBothKeys() {
      metrics.Some? && rootGroup.Some?
    }
  }

  /** json.Unmarshal into a summary; None is a parse error. */
  type Unmarshal = string -> Option<K6Summary>

  datatype Scan = Found(summary: K6Summary) | Truncated | Malformed(text: string) | Nothing

  // ---------- Braces ----------

  function Weight(c: char): int
  {
    if c == '}' then 1 else if c == '{' then -1 else 0
  }

  /** Closing braces minus opening braces in one line. */
  function Net(line: string): int
  {
    if line == "" then 0 else Net(line[..|line| - 1]) + Weight(line[|line| - 1])
  }

  /** Closing braces minus opening braces in a run of lines. */
  function Balance(lines: seq<string>): int
  {
    if lines == [] then 0 else Net(lines[0]) + Balance(lines[1..])
  }

  /** The balance of lines m to e, both included. */
  function Span(lines: seq<string>, m: nat, e: nat): int
    requires m <= e < |lines|
  {
    Balance(lines[m..e + 1])
  }

  ghost predicate Closes(line: string) {
    LastInkIs(line, '}')
  }

  // ---------- Specification ----------

  datatype Block = Block(first: nat, last: nat)

  /** The blocks of a log, last one first; the cut may end in lines that never balance. */
  datatype Cutting = Done | Unbalanced | Cut(block: Block, rest: Cutting)

  /** The nearest line at or above j from which the braces down to line i balance. */
  function OpenFrom(lines: seq<string>, i: nat, j: int): (open: Option<nat>)
    requires -1 <= j <= i < |lines|
    ensures open.Some? ==> open.value <= j && Span(lines, open.value, i) == 0
    ensures forall m: nat :: m <= j && (open.Some? ==> open.value < m) ==> Span(lines, m, i) != 0
    decreases j + 1
  {
    if j < 0 then None
    else if Span(lines, j, i) == 0 then Some(j)
    else OpenFrom(lines, i, j - 1)
  }

  /** Cuts the first n lines, from the end. */
  ghost function CutBlocks(lines: seq<string>, n: nat): Cutting
    requires n <= |lines|
  {
    if n == 0 then Done
    else if !Closes(lines[n - 1]) then CutBlocks(lines, n - 1)
    else
      match OpenFrom(lines, n - 1, n - 1)
      case None => Unbalanced
      case Some(j) => Cut(Block(j, n - 1), CutBlocks(lines, j))
  }

  ghost predicate InLog(c: Cutting, n: nat)
  {
    c.Cut? ==> c.block.first <= c.block.last < n && InLog(c.rest, c.block.first)
  }

  function Text(lines: seq<string>, b: Block): string
    requires b.first <= b.last < |lines|
  {
    Join(lines[b.first..b.last + 1], '\n')
  }

  lemma {:induction false} InLogWeakens(c: Cutting, m: nat, n: nat)
    requires InLog(c, m) && m <= n
    ensures InLog(c, n)
  {}

  /** The first block, from the end of the log, that parses with both keys. */
  ghost function FirstSummary(lines: seq<string>, parse: Unmarshal, c: Cutting): Option<K6Summary>
    requires InLog(c, |lines|)
    decreases c
  {
    if !c.Cut? then None
    else
      InLogWeakens(c.rest, c.block.first, |lines|);
      var p := parse(Text(lines, c.block));
      if p.Some? && p.value.HasBothKeys() then p else FirstSummary(lines, parse, c.rest)
  }

  /** The text of the unparseable block nearest to the start of the log. */
  ghost function TopmostMalformed(lines: seq<string>, parse: Unmarshal, c: Cutting): Option<string>
    requires InLog(c, |lines|)
    decreases c
  {
    if !c.Cut? then None
    else
      InLogWeakens(c.rest, c.block.first, |lines|);
      var above := TopmostMalformed(lines, parse, c.rest);
      if above.Some? then above
      else if parse(Text(lines, c.block)).None? then Some(Text(lines, c.block)) else None
  }

  ghost predicate EndsUnbalanced(c: Cutting)
  {
    match c
    case Done => false
    case Unbalanced => true
    case Cut(_, rest) => EndsUnbalanced(rest)
  }

  ghost predicate SomeOpener(lines: seq<string>)
  {
    exists k :: 0 <= k < |lines| && '{' in lines[k]
  }

  lemma {:induction false} CutStaysInLog(lines: seq<string>, n: nat)
    requires n <= |lines|
    ensures InLog(CutBlocks(lines, n), n)
  {
    if n == 0 {
    } else {
      if !Closes(lines[n - 1]) {
        CutStaysInLog(lines, n - 1);
        InLogWeakens(CutBlocks(lines, n - 1), n - 1, n);
      } else if OpenFrom(lines, n - 1, n - 1).Some? {
        CutStaysInLog(lines, OpenFrom(lines, n - 1, n - 1).value);
      }
    }
  }

  /** The result findSummaryJSON is meant to give for a log of these lines. */
  ghost function Outcome(lines: seq<string>, parse: Unmarshal): Scan
  {
    CutStaysInLog(lines, |lines|);
    var c := CutBlocks(lines, |lines|);
    var summary := FirstSummary(lines, parse, c);
    var malformed := TopmostMalformed(lines, parse, c);
    if summary.Some? then Found(summary.value)
    else if EndsUnbalanced(c) then Truncated
    else if malformed.Some? then Malformed(malformed.value)
    else if c.Done? && SomeOpener(lines) then Truncated
    else Nothing
  }

  /** The same result part-way through a scan: the cutting left to look at, the last parse
      error so far, and whether any closing line has been seen. */
  ghost function OutcomeFrom(lines: seq<string>, parse: Unmarshal, c: Cutting, err: Option<string>, found: bool): Scan
    requires InLog(c, |lines|)
  {
    var summary := FirstSummary(lines, parse, c);
    var above := TopmostMalformed(lines, parse, c);
    var malformed := if above.Some? then above else err;
    if summary.Some? then Found(summary.value)
    else if EndsUnbalanced(c) then Truncated
    else if malformed.Some? then Malformed(malformed.value)
    else if c.Done? && !found && SomeOpener(lines) then Truncated
    else Nothing
  }

  /** One block further up the log. */
  lemma {:induction false} OutcomeStep(
    lines: seq<string>, parse: Unmarshal, c: Cutting, err: Option<string>, found: bool)
    requires InLog(c, |lines|) && c.Cut?
    ensures InLog(c.rest, |lines|)
    ensures OutcomeFrom(lines, parse, c, err, found) ==
            var p := parse(Text(lines, c.block));
            if p.None? then OutcomeFrom(lines, parse, c.rest, Some(Text(lines, c.block)), true)
            else if p.value.metrics.Some? && p.value.rootGroup.Some? then Found(p.value)
            else OutcomeFrom(lines, parse, c.rest, err, true)
  {
    InLogWeakens(c.rest, c.block.first, |lines|);
  }

  lemma {:induction false} OutcomeAtTop(lines: seq<string>, parse: Unmarshal, err: Option<string>, found: bool)
    ensures OutcomeFrom(lines, parse, Done, err, found) ==
            if err.Some? then Malformed(err.value)
            else if !found && SomeOpener(lines) then Truncated else Nothing
    ensures OutcomeFrom(lines, parse, Unbalanced, err, found) == Truncated
  {}

  /** The result as it stands when the first n lines are still to be looked at. */
  ghost function Pending(lines: seq<string>, parse: Unmarshal, n: nat, err: Option<string>, found: bool): Scan
    requires n <= |lines|
  {
    CutStaysInLog(lines, n);
    InLogWeakens(CutBlocks(lines, n), n, |lines|);
    OutcomeFrom(lines, parse, CutBlocks(lines, n), err, found)
  }

  lemma {:induction false} PendingAll(lines: seq<string>, parse: Unmarshal)
    ensures Pending(lines, parse, |lines|, None, false) == Outcome(lines, parse)
  {}

  lemma {:induction false} PendingNone(lines: seq<string>, parse: Unmarshal, err: Option<string>, found: bool)
    ensures Pending(lines, parse, 0, err, found) ==
            if err.Some? then Malformed(err.value)
            else if !found && SomeOpener(lines) then Truncated else Nothing
  {
    OutcomeAtTop(lines, parse, err, found);
  }

  lemma {:induction false} PendingQuiet(lines: seq<string>, parse: Unmarshal, i: nat, err: Option<string>, found: bool)
    requires i < |lines| && !Closes(lines[i])
    ensures Pending(lines, parse, i + 1, err, found) == Pending(lines, parse, i, err, found)
  {}

  lemma {:induction false} PendingUnbalanced(
    lines: seq<string>, parse: Unmarshal, i: nat, err: Option<string>, found: bool)
    requires i < |lines| && Closes(lines[i]) && OpenFrom(lines, i, i).None?
    ensures Pending(lines, parse, i + 1, err, found) == Truncated
  {
    OutcomeAtTop(lines, parse, err, found);
  }

  lemma {:induction false} PendingBlock(
    lines: seq<string>, parse: Unmarshal, i: nat, j: nat, err: Option<string>, found: bool)
    requires i < |lines| && Closes(lines[i]) && OpenFrom(lines, i, i) == Some(j)
    ensures var text := Join(lines[j..i + 1], '\n');
            Pending(lines, parse, i + 1, err, found) ==
            if parse(text).None? then Pending(lines, parse, j, Some(text), true)
            else if parse(text).value.HasBothKeys() then Found(parse(text).value)
            else Pending(lines, parse, j, err, true)
  {
    var c := CutBlocks(lines, i + 1);
    assert c == Cut(Block(j, i), CutBlocks(lines, j));
    CutStaysInLog(lines, i + 1);
    InLogWeakens(c, i + 1, |lines|);
    OutcomeStep(lines, parse, c, err, found);
  }

  // ---------- The scan ----------

  /** The innermost loop: counts the braces of one line. */
  method CountBraces(line: string, start: int) returns (depth: int)
    ensures depth == start + Net(line)
  {
    depth := start;
    for k := 0 to |line|
      invariant depth == start + Net(line[..k])
    {
      assert line[..k + 1][..k] == line[..k];
      if line[k] == '{' {
        depth := depth - 1;
      } else if line[k] == '}' {
        depth := depth + 1;
      }
    }
    assert line[..|line|] == line;
  }

  /** The middle loop: walks back from line i until the braces balance. */
  method WalkBack(lines: seq<string>, i: nat) returns (foundOpen: bool, j: int, block: seq<string>, ghost visits: nat)
    requires i < |lines|
    ensures foundOpen <==> OpenFrom(lines, i, i).Some?
    ensures foundOpen ==> 0 <= j <= i && j == OpenFrom(lines, i, i).value && block == lines[j..i + 1]
    ensures visits <= if foundOpen then i - j + 1 else i + 1
  {
    visits := 0;
    var depth := 0;
    block := [];
    j := i;
    foundOpen := false;
    while j >= 0
      invariant -1 <= j <= i
      invariant block == lines[j + 1..i + 1]
      invariant depth == Balance(block)
      invariant OpenFrom(lines, i, i) == OpenFrom(lines, i, j)
      invariant visits == i - j
    {
      visits := visits + 1;
      block := [lines[j]] + block;
      assert block == lines[j..i + 1];
      assert block[1..] == lines[j + 1..i + 1];
      depth := CountBraces(lines[j], depth);
      if depth == 0 {
        foundOpen := true;
        return;
      }
      j := j - 1;
    }
  }

  /** What is reported when the scan has reached the top without a summary. */
  method NoSummary(lines: seq<string>, lastParseErr: Option<string>, foundCandidate: bool)
    returns (r: Scan, ghost visits: nat)
    ensures r == if lastParseErr.Some? then Malformed(lastParseErr.value)
                 else if !foundCandidate && SomeOpener(lines) then Truncated else Nothing
    ensures visits <= if foundCandidate then 0 else |lines|
  {
    visits := 0;
    if lastParseErr.Some? {
      return Malformed(lastParseErr.value), visits;
    }
    if !foundCandidate {
      for k := 0 to |lines|
        invariant forall m :: 0 <= m < k ==> '{' !in lines[m]
        invariant visits == k
      {
        visits := visits + 1;
        if '{' in lines[k] {
          return Truncated, visits;
        }
      }
    }
    return Nothing, visits;
  }

  lemma {:induction false} EmptyLog(parse: Unmarshal)
    ensures Outcome(Split("", '\n'), parse) == Nothing
  {
    assert CutBlocks([""], 1) == CutBlocks([""], 0);
  }

  /** The outer backward loop over the log. Every line is visited at most once by it (or by
      the closing check) and at most once by the brace-counting walk. */
  method FindSummaryJSON(logs: string, parse: Unmarshal) returns (r: Scan, ghost visits: nat)
    ensures r == Outcome(Split(logs, '\n'), parse)
    ensures visits <= 2 * |Split(logs, '\n')|
  {
    visits := 0;
    if logs == "" {
      EmptyLog(parse);
      return Nothing, visits;
    }
    var lines := Split(logs, '\n');
    var i := |lines| - 1;
    var lastParseErr: Option<string> := None;
    var foundCandidate := false;
    PendingAll(lines, parse);

    while i >= 0
      invariant -1 <= i < |lines|
      invariant Outcome(lines, parse) == Pending(lines, parse, i + 1, lastParseErr, foundCandidate)
      invariant visits <= 2 * (|lines| - 1 - i)
      invariant !foundCandidate ==> visits == |lines| - 1 - i
    {
      visits := visits + 1;
      var line := TrimSpace(lines[i]);
      TrimSpaceSuffix(lines[i], '}');
      if line == "" {
        PendingQuiet(lines, parse, i, lastParseErr, foundCandidate);
        i := i - 1;
        continue;
      }
      if !HasSuffix(line, "}") {
        PendingQuiet(lines, parse, i, lastParseErr, foundCandidate);
        i := i - 1;
        continue;
      }
      var foundOpen, j, block, walked := WalkBack(lines, i);
      visits := visits + walked;
      if !foundOpen {
        PendingUnbalanced(lines, parse, i, lastParseErr, foundCandidate);
        return Truncated, visits;
      }
      PendingBlock(lines, parse, i, j, lastParseErr, foundCandidate);
      foundCandidate := true;
      var candidate := Join(block, '\n');
      var parsed := parse(candidate);
      if parsed.None? {
        lastParseErr := Some(candidate);
        i := j - 1;
        continue;
      }
      if parsed.value.metrics.Some? && parsed.value.rootGroup.Some? {
        return Found(parsed.value), visits;
      }
      i := j - 1;
    }

    PendingNone(lines, parse, lastParseErr, foundCandidate);
    ghost var more;
    r, more := NoSummary(lines, lastParseErr, foundCandidate);
    visits := visits + more;
  }

  // ---------- What the cutting is ----------

  /** No line from m up to n (excluded) closes anything. */
  ghost predicate Quiet(lines: seq<string>, m: nat, n: nat)
    requires n <= |lines|
  {
    forall k :: m <= k < n ==> !Closes(lines[k])
  }

  /** The last closing line below n is e, and nothing above it balances it. */
  ghost predicate NeverBalances(lines: seq<string>, n: nat, e: nat)
    requires n <= |lines|
  {
    && e < n && Closes(lines[e]) && Quiet(lines, e + 1, n)
    && forall m: nat :: m <= e ==> Span(lines, m, e) != 0
  }

  /** Block b is a shortest balanced run of lines, ends in a closing brace, and the lines
      after it, up to line n, do not close anything. */
  ghost predicate IsCut(lines: seq<string>, n: nat, b: Block)
    requires n <= |lines|
  {
    && b.first <= b.last < n
    && Closes(lines[b.last])
    && Span(lines, b.first, b.last) == 0
    && (forall m: nat :: b.first < m <= b.last ==> Span(lines, m, b.last) != 0)
    && Quiet(lines, b.last + 1, n)
  }

  ghost predicate WellCut(lines: seq<string>, n: nat, c: Cutting)
    requires n <= |lines|
    decreases c
  {
    match c
    case Done => Quiet(lines, 0, n)
    case Unbalanced => exists e :: NeverBalances(lines, n, e)
    case Cut(b, rest) => IsCut(lines, n, b) && WellCut(lines, b.first, rest)
  }

  /** When the last line closes a block, every cutting starts with that block. */
  lemma {:induction false} LastBlock(lines: seq<string>, n: nat, c: Cutting)
    requires 0 < n <= |lines| && Closes(lines[n - 1]) && WellCut(lines, n, c)
    requires OpenFrom(lines, n - 1, n - 1).Some?
    ensures c.Cut? && c.block == Block(OpenFrom(lines, n - 1, n - 1).value, n - 1)
  {
    var open := OpenFrom(lines, n - 1, n - 1).value;
    assert Span(lines, open, n - 1) == 0;
    assert forall m: nat :: m < n ==> !Quiet(lines, m, n);
    assert forall e: nat :: !NeverBalances(lines, n, e);
    if c.Cut? {
      assert c.block.last == n - 1;
    }
  }

  lemma {:induction false} WellCutGrows(lines: seq<string>, n: nat, c: Cutting)
    requires 0 < n <= |lines| && !Closes(lines[n - 1])
    ensures WellCut(lines, n, c) <==> WellCut(lines, n - 1, c)
  {
    forall m: nat | m <= n - 1 ensures Quiet(lines, m, n) <==> Quiet(lines, m, n - 1) {}
    if c.Unbalanced? {
      forall e: nat ensures NeverBalances(lines, n, e) <==> NeverBalances(lines, n - 1, e) {}
      if WellCut(lines, n, c) {
        var e :| NeverBalances(lines, n, e);
        assert NeverBalances(lines, n - 1, e);
      }
      if WellCut(lines, n - 1, c) {
        var e :| NeverBalances(lines, n - 1, e);
        assert NeverBalances(lines, n, e);
      }
    }
  }

  /** The cut consists of disjoint shortest balanced blocks that together hold every closing
      line, down to the first tail that does not balance; no other cutting does. */
  lemma {:induction false} CuttingIsUnique(lines: seq<string>, n: nat, c: Cutting)
    requires n <= |lines|
    ensures WellCut(lines, n, c) <==> c == CutBlocks(lines, n)
    decreases n
  {
    if n == 0 {
    } else if !Closes(lines[n - 1]) {
      CuttingIsUnique(lines, n - 1, c);
      WellCutGrows(lines, n, c);
    } else if OpenFrom(lines, n - 1, n - 1).Some? {
      var b := Block(OpenFrom(lines, n - 1, n - 1).value, n - 1);
      assert IsCut(lines, n, b);
      CuttingIsUnique(lines, b.first, CutBlocks(lines, b.first));
      if WellCut(lines, n, c) {
        LastBlock(lines, n, c);
        CuttingIsUnique(lines, b.first, c.rest);
      }
    } else {
      assert NeverBalances(lines, n, n - 1);
      if WellCut(lines, n, c) && c.Cut? {
        assert false;
      }
    }
  }

  // ---------- What the outcome is ----------

  /** The blocks of a cutting, from the end of the log. */
  function Blocks(c: Cutting): seq<Block> {
    if c.Cut? then [c.block] + Blocks(c.rest) else []
  }

  /** What the parser makes of the lines of a block. */
  ghost function Parsed(lines: seq<string>, b: Block, parse: Unmarshal): Option<K6Summary> {
    if b.first <= b.last < |lines| then parse(Join(lines[b.first..b.last + 1], '\n')) else None
  }

  /** An object with a "metrics" and a "root_group" key. */
  ghost predicate IsSummary(p: Option<K6Summary>) {
    p.Some? && p.value.metrics.Some? && p.value.rootGroup.Some?
  }

  /** The block at i holds this summary, and no block nearer to the end holds one. */
  ghost predicate FirstAt(lines: seq<string>, bs: seq<Block>, parse: Unmarshal, i: int, summary: K6Summary)
  {
    && 0 <= i < |bs| && Parsed(lines, bs[i], parse) == Some(summary) && IsSummary(Some(summary))
    && forall j :: 0 <= j < i ==> !IsSummary(Parsed(lines, bs[j], parse))
  }

  lemma {:induction false} FirstSummaryIs(lines: seq<string>, parse: Unmarshal, c: Cutting) returns (i: int)
    requires InLog(c, |lines|)
    ensures var bs, first := Blocks(c), FirstSummary(lines, parse, c);
            && (first.None? ==> forall i :: 0 <= i < |bs| ==> !IsSummary(Parsed(lines, bs[i], parse)))
            && (first.Some? ==> FirstAt(lines, bs, parse, i, first.value))
    decreases c
  {
    i := 0;
    if !c.Cut? {
    } else {
      InLogWeakens(c.rest, c.block.first, |lines|);
      var above := FirstSummaryIs(lines, parse, c.rest);
      var bs, rest, first := Blocks(c), Blocks(c.rest), FirstSummary(lines, parse, c);
      assert bs[0] == c.block && bs[1..] == rest;
      assert forall j :: 0 < j < |bs| ==> bs[j] == rest[j - 1];
      if !IsSummary(Parsed(lines, c.block, parse)) {
        i := above + 1;
      }
    }
  }

  /** The block at i has this text and does not parse, while all blocks above it do. */
  ghost predicate LastBadAt(lines: seq<string>, bs: seq<Block>, parse: Unmarshal, i: int, text: string)
  {
    && 0 <= i < |bs| && Parsed(lines, bs[i], parse).None?
    && (forall j :: i < j < |bs| ==> Parsed(lines, bs[j], parse).Some?)
    && bs[i].first <= bs[i].last < |lines| && text == Join(lines[bs[i].first..bs[i].last + 1], '\n')
  }

  lemma {:induction false} TopmostMalformedIs(lines: seq<string>, parse: Unmarshal, c: Cutting) returns (i: int)
    requires InLog(c, |lines|)
    ensures var bs, bad := Blocks(c), TopmostMalformed(lines, parse, c);
            && (bad.None? ==> forall i :: 0 <= i < |bs| ==> Parsed(lines, bs[i], parse).Some?)
            && (bad.Some? ==> LastBadAt(lines, bs, parse, i, bad.value))
    decreases c
  {
    i := 0;
    if !c.Cut? {
    } else {
      InLogWeakens(c.rest, c.block.first, |lines|);
      var above := TopmostMalformedIs(lines, parse, c.rest);
      var bs, rest := Blocks(c), Blocks(c.rest);
      assert bs[0] == c.block && bs[1..] == rest;
      assert forall j :: 0 < j < |bs| ==> bs[j] == rest[j - 1];
      if TopmostMalformed(lines, parse, c.rest).Some? {
        i := above + 1;
      }
    }
  }

  lemma {:induction false} QuietIsDone(lines: seq<string>, n: nat)
    requires n <= |lines|
    ensures CutBlocks(lines, n).Done? <==> forall k :: 0 <= k < n ==> !Closes(lines[k])
  {
    if n == 0 {
    } else {
      QuietIsDone(lines, n - 1);
    }
  }

  /** The answer for a log, from what the parser makes of its blocks: the summary nearest to the
      end, and without one, truncation before parse errors before absence. */
  lemma {:induction false} OutcomeMeaning(lines: seq<string>, parse: Unmarshal)
    ensures var c, r := CutBlocks(lines, |lines|), Outcome(lines, parse);
            var bs := Blocks(c);
            && (r.Found? <==> exists i :: 0 <= i < |bs| && IsSummary(Parsed(lines, bs[i], parse)))
            && (r.Found? ==> exists i :: FirstAt(lines, bs, parse, i, r.summary))
            && (r.Truncated? <==>
                && !r.Found?
                && (EndsUnbalanced(c)
                    || ((forall l :: l in lines ==> !Closes(l)) && exists k :: 0 <= k < |lines| && '{' in lines[k])))
            && (r.Malformed? <==>
                !r.Found? && !EndsUnbalanced(c) && exists i :: 0 <= i < |bs| && Parsed(lines, bs[i], parse).None?)
            && (r.Malformed? ==> exists i :: LastBadAt(lines, bs, parse, i, r.text))
  {
    var c := CutBlocks(lines, |lines|);
    CutStaysInLog(lines, |lines|);
    var first := FirstSummaryIs(lines, parse, c);
    var bad := TopmostMalformedIs(lines, parse, c);
    QuietIsDone(lines, |lines|);
    assert (forall l :: l in lines ==> !Closes(l)) <==> (forall k :: 0 <= k < |lines| ==> !Closes(lines[k]));
  }

  // ---------- Locality ----------

  lemma {:induction false} BalanceConcat(a: seq<string>, b: seq<string>)
    ensures Balance(a + b) == Balance(a) + Balance(b)
  {
    if a == [] {
      assert a + b == b;
    } else {
      assert (a + b)[1..] == a[1..] + b;
      BalanceConcat(a[1..], b);
    }
  }

  lemma {:induction false} NetConcat(a: string, b: string)
    ensures Net(a + b) == Net(a) + Net(b)
  {
    if b == "" {
      assert a + b == a;
    } else {
      assert (a + b)[..|a + b| - 1] == a + b[..|b| - 1];
      NetConcat(a, b[..|b| - 1]);
    }
  }

  lemma {:induction false} OpenIsLocal(lines: seq<string>, lines': seq<string>, i: nat, j: int)
    requires -1 <= j <= i < |lines| && i < |lines'| && lines[..i + 1] == lines'[..i + 1]
    ensures OpenFrom(lines, i, j) == OpenFrom(lines', i, j)
    decreases j + 1
  {
    if j == -1 {
    } else {
      assert lines[j..i + 1] == lines[..i + 1][j..] == lines'[j..i + 1];
      OpenIsLocal(lines, lines', i, j - 1);
    }
  }

  /** Cutting the first n lines looks at those lines only. */
  lemma {:induction false} CutIsLocal(lines: seq<string>, lines': seq<string>, n: nat)
    requires n <= |lines| && n <= |lines'| && lines[..n] == lines'[..n]
    ensures CutBlocks(lines, n) == CutBlocks(lines', n)
    decreases n
  {
    if n == 0 {
    } else {
      assert lines[n - 1] == lines[..n][n - 1] == lines'[n - 1];
      if !Closes(lines[n - 1]) {
        assert lines[..n - 1] == lines[..n][..n - 1] == lines'[..n - 1];
        CutIsLocal(lines, lines', n - 1);
      } else {
        OpenIsLocal(lines, lines', n - 1, n - 1);
        var open := OpenFrom(lines, n - 1, n - 1);
        if open.Some? {
          assert lines[..open.value] == lines[..n][..open.value] == lines'[..open.value];
          CutIsLocal(lines, lines', open.value);
        }
      }
    }
  }

  /** Lines that close nothing are skipped at the end of a log. */
  lemma {:induction false} SkipQuietTail(lines: seq<string>, n: nat, m: nat)
    requires n <= m <= |lines|
    requires forall k :: n <= k < m ==> !Closes(lines[k])
    ensures CutBlocks(lines, m) == CutBlocks(lines, n)
    decreases m
  {
    if n == m {
    } else {
      SkipQuietTail(lines, n, m - 1);
    }
  }
}
