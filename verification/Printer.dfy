/** JSON trees as handleSummary prints them, on one line or one item per line, and the proof
    that the log scanner finds exactly the printed lines again.

    The reason is a property of the printed form alone: the braces in every tail of its lines
    are known from the tree (Tails), and when all strings balance every proper tail of an
    object's lines holds more closing than opening braces. */
module Printer {
  import opened Strings
  import opened Scanner

  /** Strings and keys carry their contents in escaped form, as they stand between the quotes. */
  datatype Json = Atom(text: string) | Str(content: string) | Arr(items: Items) | Obj(members: Members)
  datatype Items = NoItems | Items(item: Json, rest: Items)
  datatype Members = NoMembers | Members(key: string, value: Json, rest: Members)

  function Quote(s: string): string {
    "\"" + s + "\""
  }

  // ---------- One line ----------

  function Comma(last: bool): string {
    if last then "" else ","
  }

  function Compact(v: Json): string
  {
    match v
    case Atom(text) => text
    case Str(s) => Quote(s)
    case Arr(items) => "[" + (CompactItems(items) + "]")
    case Obj(members) => "{" + (CompactMembers(members) + "}")
  }

  function CompactItems(items: Items): string
  {
    match items
    case NoItems => ""
    case Items(v, rest) => Compact(v) + (Comma(rest.NoItems?) + CompactItems(rest))
  }

  function CompactMembers(members: Members): string
  {
    match members
    case NoMembers => ""
    case Members(k, v, rest) => Quote(k) + (":" + (Compact(v) + (Comma(rest.NoMembers?) + CompactMembers(rest))))
  }

  // ---------- One item per line, indented by two ----------

  function Spaces(n: nat): string
  {
    if n == 0 then "" else Spaces(n - 1) + " "
  }

  function KeyPrefix(indent: nat, key: string): string {
    Spaces(indent) + (Quote(key) + ": ")
  }

  /** Puts a prefix before the first line and a suffix after the last. */
  function Attach(prefix: string, lines: seq<string>, suffix: string): (r: seq<string>)
    requires lines != []
    ensures |r| == |lines|
  {
    var l := [prefix + lines[0]] + lines[1..];
    l[..|l| - 1] + [l[|l| - 1] + suffix]
  }

  /** The lines of v; the first carries no indentation, it follows its key or bracket. */
  function Pretty(v: Json, indent: nat): (lines: seq<string>)
    ensures lines != []
  {
    match v
    case Atom(text) => [text]
    case Str(s) => [Quote(s)]
    case Arr(NoItems) => ["[]"]
    case Arr(items) => ["["] + PrettyItems(items, indent + 2) + [Spaces(indent) + "]"]
    case Obj(NoMembers) => ["{}"]
    case Obj(members) => ["{"] + PrettyMembers(members, indent + 2) + [Spaces(indent) + "}"]
  }

  function PrettyItems(items: Items, indent: nat): seq<string>
  {
    match items
    case NoItems => []
    case Items(v, rest) =>
      Attach(Spaces(indent), Pretty(v, indent), Comma(rest.NoItems?)) + PrettyItems(rest, indent)
  }

  function PrettyMembers(members: Members, indent: nat): seq<string>
  {
    match members
    case NoMembers => []
    case Members(k, v, rest) =>
      Attach(KeyPrefix(indent, k), Pretty(v, indent), Comma(rest.NoMembers?))
      + PrettyMembers(rest, indent)
  }

  // ---------- Which trees ----------

  predicate PlainText(s: string) {
    '\n' !in s
  }

  /** No raw line breaks anywhere, no braces in numbers and literals: any well-formed JSON. */
  predicate Printable(v: Json)
  {
    match v
    case Atom(text) => PlainText(text) && '{' !in text && '}' !in text
    case Str(s) => PlainText(s)
    case Arr(items) => PrintableItems(items)
    case Obj(members) => PrintableMembers(members)
  }

  predicate PrintableItems(items: Items)
  {
    items.Items? ==> Printable(items.item) && PrintableItems(items.rest)
  }

  predicate PrintableMembers(members: Members)
  {
    members.Members? ==> PlainText(members.key) && Printable(members.value) && PrintableMembers(members.rest)
  }

  /** Every string and every key holds as many '{' as '}'. */
  predicate Balanced(v: Json)
  {
    match v
    case Atom(_) => true
    case Str(s) => Net(s) == 0
    case Arr(items) => BalancedItems(items)
    case Obj(members) => BalancedMembers(members)
  }

  predicate BalancedItems(items: Items)
  {
    items.Items? ==> Balanced(items.item) && BalancedItems(items.rest)
  }

  predicate BalancedMembers(members: Members)
  {
    members.Members? ==> Net(members.key) == 0 && Balanced(members.value) && BalancedMembers(members.rest)
  }

  /** Closing minus opening braces over all strings and keys of v. */
  function StringNet(v: Json): int
  {
    match v
    case Atom(_) => 0
    case Str(s) => Net(s)
    case Arr(items) => StringNetItems(items)
    case Obj(members) => StringNetMembers(members)
  }

  function StringNetItems(items: Items): int
  {
    if items.NoItems? then 0 else StringNet(items.item) + StringNetItems(items.rest)
  }

  function StringNetMembers(members: Members): int
  {
    if members.NoMembers? then 0
    else Net(members.key) + StringNet(members.value) + StringNetMembers(members.rest)
  }

  // ---------- Braces of a print ----------

  lemma {:induction false} NoBraces(s: string)
    requires '{' !in s && '}' !in s
    ensures Net(s) == 0
  {
    if s == "" {
    } else {
      NoBraces(s[..|s| - 1]);
    }
  }

  lemma {:induction false} SpacesArePlain(n: nat)
    ensures Net(Spaces(n)) == 0 && PlainText(Spaces(n))
  {
    if n == 0 {
    } else {
      SpacesArePlain(n - 1);
      NetConcat(Spaces(n - 1), " ");
      NoBraces(" ");
    }
  }

  lemma {:induction false} NetOfOne(c: char)
    ensures Net([c]) == Weight(c)
  {
    assert [c][..0] == "";
  }

  lemma {:induction false} QuoteNet(s: string)
    ensures Net(Quote(s)) == Net(s)
  {
    NetConcat("\"", s);
    NetConcat("\"" + s, "\"");
    NetOfOne('"');
  }

  lemma {:induction false} BracketNet(open: char, s: string, close: char)
    ensures Net([open] + (s + [close])) == Weight(open) + Net(s) + Weight(close)
  {
    NetConcat([open], s + [close]);
    NetConcat(s, [close]);
    NetOfOne(open);
    NetOfOne(close);
  }

  lemma {:induction false} CommaNet(last: bool)
    ensures Net(Comma(last)) == 0
  {
    NoBraces(Comma(last));
  }

  /** The braces of a one-line print that do not cancel are those in its strings. */
  lemma {:induction false} CompactNet(v: Json)
    requires Printable(v)
    ensures Net(Compact(v)) == StringNet(v)
  {
    match v
    case Atom(text) => NoBraces(text);
    case Str(s) => QuoteNet(s);
    case Arr(items) =>
      CompactItemsNet(items);
      BracketNet('[', CompactItems(items), ']');
    case Obj(members) =>
      CompactMembersNet(members);
      BracketNet('{', CompactMembers(members), '}');
  }

  lemma {:induction false} CompactItemsNet(items: Items)
    requires PrintableItems(items)
    ensures Net(CompactItems(items)) == StringNetItems(items)
  {
    match items
    case NoItems =>
    case Items(v, rest) =>
      CompactNet(v);
      CompactItemsNet(rest);
      var comma := Comma(rest.NoItems?);
      CommaNet(rest.NoItems?);
      NetConcat(comma, CompactItems(rest));
      NetConcat(Compact(v), comma + CompactItems(rest));
  }

  lemma {:induction false} CompactMembersNet(members: Members)
    requires PrintableMembers(members)
    ensures Net(CompactMembers(members)) == StringNetMembers(members)
  {
    match members
    case NoMembers =>
    case Members(k, v, rest) =>
      CompactNet(v);
      CompactMembersNet(rest);
      var tail := CompactMembers(rest);
      var comma := Comma(rest.NoMembers?);
      CommaNet(rest.NoMembers?);
      NetOfOne(':');
      QuoteNet(k);
      NetConcat(comma, tail);
      NetConcat(Compact(v), comma + tail);
      NetConcat(":", Compact(v) + (comma + tail));
      NetConcat(Quote(k), ":" + (Compact(v) + (comma + tail)));
  }

  // ---------- Tails of a print ----------

  function AddToFirst(n: int, ts: seq<int>): seq<int>
    requires ts != []
  {
    [n + ts[0]] + ts[1..]
  }

  /** The balance of the lines of a pretty print from each of its lines on, over what follows
      the print, computed from the tree: braces in keys and strings, and one for every object
      that is still open there. */
  function Tails(v: Json, below: int): (ts: seq<int>)
    ensures ts != []
  {
    match v
    case Atom(_) => [below]
    case Str(s) => [Net(s) + below]
    case Arr(NoItems) => [below]
    case Arr(items) => [StringNetItems(items) + below] + ItemTails(items, below) + [below]
    case Obj(NoMembers) => [below]
    case Obj(members) => [StringNetMembers(members) + below] + MemberTails(members, below + 1) + [below + 1]
  }

  function ItemTails(items: Items, below: int): seq<int>
  {
    match items
    case NoItems => []
    case Items(v, rest) => Tails(v, StringNetItems(rest) + below) + ItemTails(rest, below)
  }

  function MemberTails(members: Members, below: int): seq<int>
  {
    match members
    case NoMembers => []
    case Members(k, v, rest) => AddToFirst(Net(k), Tails(v, StringNetMembers(rest) + below)) + MemberTails(rest, below)
  }

  /** The balance of the lines from line t on. */
  function TailNet(lines: seq<string>, t: nat): int
    requires t <= |lines|
  {
    Balance(lines[t..])
  }

  /** ts are the balances of all nonempty tails of the lines, over what follows them. */
  ghost predicate TailsAre(lines: seq<string>, ts: seq<int>, below: int)
  {
    |ts| == |lines| && forall t: nat :: t < |lines| ==> ts[t] == TailNet(lines, t) + below
  }

  lemma {:induction false} TailsConcat(a: seq<string>, ta: seq<int>, b: seq<string>, tb: seq<int>, below: int)
    requires TailsAre(a, ta, Balance(b) + below) && TailsAre(b, tb, below)
    ensures TailsAre(a + b, ta + tb, below) && Balance(a + b) == Balance(a) + Balance(b)
  {
    BalanceConcat(a, b);
    forall t: nat | t < |a + b| ensures (ta + tb)[t] == TailNet(a + b, t) + below {
      if t < |a| {
        assert (a + b)[t..] == a[t..] + b;
        BalanceConcat(a[t..], b);
        assert ta[t] == TailNet(a, t) + (Balance(b) + below);
      } else {
        assert (a + b)[t..] == b[t - |a|..];
        assert tb[t - |a|] == TailNet(b, t - |a|) + below;
      }
    }
  }

  lemma {:induction false} TailsOfOne(line: string, below: int)
    ensures TailsAre([line], [Net(line) + below], below) && Balance([line]) == Net(line)
  {
    assert [line][1..] == [] && [line][0..] == [line];
    assert Balance([line]) == Net([line][0]) + Balance([line][1..]);
  }

  lemma {:induction false} TailsOfCons(line: string, rest: seq<string>, tr: seq<int>, below: int)
    requires TailsAre(rest, tr, below)
    ensures TailsAre([line] + rest, [Net(line) + Balance(rest) + below] + tr, below)
    ensures Balance([line] + rest) == Net(line) + Balance(rest)
  {
    TailsOfOne(line, Balance(rest) + below);
    TailsConcat([line], [Net(line) + (Balance(rest) + below)], rest, tr, below);
  }

  /** A bracket line, a body and the matching bracket line. */
  lemma {:induction false} TailsOfBracketed(open: string, body: seq<string>, tb: seq<int>, close: string, below: int)
    requires TailsAre(body, tb, Net(close) + below) && Net(open) == -Net(close)
    ensures TailsAre([open] + body + [close], [Balance(body) + below] + tb + [Net(close) + below], below)
    ensures Balance([open] + body + [close]) == Balance(body)
  {
    TailsOfOne(close, below);
    TailsConcat(body, tb, [close], [Net(close) + below], below);
    TailsOfCons(open, body + [close], tb + [Net(close) + below], below);
    assert [open] + (body + [close]) == [open] + body + [close];
    assert [Balance(body) + below] + (tb + [Net(close) + below]) == [Balance(body) + below] + tb + [Net(close) + below];
  }

  lemma {:induction false} SameNetsSameBalance(a: seq<string>, b: seq<string>)
    requires |a| == |b| && forall k :: 0 <= k < |a| ==> Net(a[k]) == Net(b[k])
    ensures Balance(a) == Balance(b)
  {
    if a == [] {
    } else {
      SameNetsSameBalance(a[1..], b[1..]);
    }
  }

  lemma {:induction false} AttachNets(prefix: string, lines: seq<string>, suffix: string)
    requires lines != [] && Net(suffix) == 0
    ensures var r := Attach(prefix, lines, suffix);
            && Net(r[0]) == Net(prefix) + Net(lines[0])
            && forall k :: 0 < k < |lines| ==> Net(r[k]) == Net(lines[k])
  {
    NetConcat(prefix, lines[0]);
    NetConcat(prefix + lines[0], suffix);
    forall k | 0 < k < |lines| ensures Net(Attach(prefix, lines, suffix)[k]) == Net(lines[k]) {
      NetConcat(lines[k], suffix);
    }
  }

  lemma {:induction false} AttachTails(prefix: string, lines: seq<string>, suffix: string, ts: seq<int>, below: int)
    requires lines != [] && Net(suffix) == 0 && TailsAre(lines, ts, below)
    ensures TailsAre(Attach(prefix, lines, suffix), AddToFirst(Net(prefix), ts), below)
    ensures Balance(Attach(prefix, lines, suffix)) == Net(prefix) + Balance(lines)
  {
    var r := Attach(prefix, lines, suffix);
    AttachNets(prefix, lines, suffix);
    forall t: nat | 0 < t < |r| ensures TailNet(r, t) == TailNet(lines, t) {
      SameNetsSameBalance(r[t..], lines[t..]);
    }
    SameNetsSameBalance(r[1..], lines[1..]);
    assert r[0..] == r && lines[0..] == lines;
  }

  /** Attached lines followed by others. */
  lemma {:induction false} AttachedTails(
    prefix: string, lines: seq<string>, suffix: string, ts: seq<int>, rest: seq<string>, tr: seq<int>, below: int)
    requires lines != [] && Net(suffix) == 0
    requires TailsAre(lines, ts, Balance(rest) + below) && TailsAre(rest, tr, below)
    ensures var all := Attach(prefix, lines, suffix) + rest;
            && TailsAre(all, AddToFirst(Net(prefix), ts) + tr, below)
            && Balance(all) == Net(prefix) + Balance(lines) + Balance(rest)
  {
    AttachTails(prefix, lines, suffix, ts, Balance(rest) + below);
    TailsConcat(Attach(prefix, lines, suffix), AddToFirst(Net(prefix), ts), rest, tr, below);
  }

  lemma {:induction false} IndentedTails(
    indent: nat, lines: seq<string>, last: bool, ts: seq<int>, rest: seq<string>, tr: seq<int>, below: int)
    requires lines != [] && TailsAre(lines, ts, Balance(rest) + below) && TailsAre(rest, tr, below)
    ensures var all := Attach(Spaces(indent), lines, Comma(last)) + rest;
            TailsAre(all, ts + tr, below) && Balance(all) == Balance(lines) + Balance(rest)
  {
    SpacesArePlain(indent);
    CommaNet(last);
    AttachedTails(Spaces(indent), lines, Comma(last), ts, rest, tr, below);
    assert AddToFirst(0, ts) == ts;
  }

  lemma {:induction false} KeyPrefixNet(indent: nat, key: string)
    ensures Net(KeyPrefix(indent, key)) == Net(key)
  {
    SpacesArePlain(indent);
    QuoteNet(key);
    NoBraces(": ");
    NetConcat(Quote(key), ": ");
    NetConcat(Spaces(indent), Quote(key) + ": ");
  }

  lemma {:induction false} KeyedTails(
    indent: nat, key: string, lines: seq<string>, last: bool, ts: seq<int>, rest: seq<string>, tr: seq<int>, below: int,
    all: seq<string>, ta: seq<int>)
    requires lines != [] && TailsAre(lines, ts, Balance(rest) + below) && TailsAre(rest, tr, below)
    requires all == Attach(KeyPrefix(indent, key), lines, Comma(last)) + rest && ta == AddToFirst(Net(key), ts) + tr
    ensures TailsAre(all, ta, below) && Balance(all) == Net(key) + Balance(lines) + Balance(rest)
  {
    KeyPrefixNet(indent, key);
    CommaNet(last);
    AttachedTails(KeyPrefix(indent, key), lines, Comma(last), ts, rest, tr, below);
  }

  lemma {:induction false} ClosingLineNet(indent: nat, close: char)
    ensures Net(Spaces(indent) + [close]) == Weight(close)
  {
    SpacesArePlain(indent);
    NetConcat(Spaces(indent), [close]);
    NetOfOne(close);
  }

  lemma {:induction false} PrettyLeafTails(v: Json, indent: nat, below: int)
    requires Printable(v) && (v.Atom? || v.Str? || v == Arr(NoItems) || v == Obj(NoMembers))
    ensures TailsAre(Pretty(v, indent), Tails(v, below), below) && Balance(Pretty(v, indent)) == StringNet(v)
  {
    match v
    case Atom(text) =>
      NoBraces(text);
      TailsOfOne(text, below);
    case Str(s) =>
      QuoteNet(s);
      TailsOfOne(Quote(s), below);
    case Arr(_) =>
      NoBraces("[]");
      TailsOfOne("[]", below);
    case Obj(_) =>
      NetOfOne('{');
      NetOfOne('}');
      NetConcat("{", "}");
      assert "{}" == "{" + "}";
      TailsOfOne("{}", below);
  }

  /** A body between bracket lines whose braces cancel. */
  lemma {:induction false} NestedTails(
    open: char, body: seq<string>, tb: seq<int>, indent: nat, close: char, net: int, below: int)
    requires Weight(open) == -Weight(close) && Balance(body) == net
    requires TailsAre(body, tb, Weight(close) + below)
    ensures var lines := [[open]] + body + [Spaces(indent) + [close]];
            && TailsAre(lines, [net + below] + tb + [Weight(close) + below], below)
            && Balance(lines) == net
  {
    NetOfOne(open);
    ClosingLineNet(indent, close);
    TailsOfBracketed([open], body, tb, Spaces(indent) + [close], below);
  }

  lemma {:induction false} ArrayTails(items: Items, indent: nat, below: int)
    requires items.Items? && Balance(PrettyItems(items, indent + 2)) == StringNetItems(items)
    requires TailsAre(PrettyItems(items, indent + 2), ItemTails(items, below), below)
    ensures TailsAre(Pretty(Arr(items), indent), Tails(Arr(items), below), below)
    ensures Balance(Pretty(Arr(items), indent)) == StringNetItems(items)
  {
    var tb := ItemTails(items, below);
    NestedTails('[', PrettyItems(items, indent + 2), tb, indent, ']', StringNetItems(items), below);
  }

  lemma {:induction false} ObjectTails(members: Members, indent: nat, below: int)
    requires members.Members? && Balance(PrettyMembers(members, indent + 2)) == StringNetMembers(members)
    requires TailsAre(PrettyMembers(members, indent + 2), MemberTails(members, below + 1), below + 1)
    ensures TailsAre(Pretty(Obj(members), indent), Tails(Obj(members), below), below)
    ensures Balance(Pretty(Obj(members), indent)) == StringNetMembers(members)
  {
    var tb := MemberTails(members, below + 1);
    NestedTails('{', PrettyMembers(members, indent + 2), tb, indent, '}', StringNetMembers(members), below);
  }

  lemma {:induction false} MemberStep(key: string, v: Json, rest: Members, indent: nat, below: int)
    requires var over := StringNetMembers(rest) + below;
             && TailsAre(Pretty(v, indent), Tails(v, over), over) && Balance(Pretty(v, indent)) == StringNet(v)
    requires TailsAre(PrettyMembers(rest, indent), MemberTails(rest, below), below)
    requires Balance(PrettyMembers(rest, indent)) == StringNetMembers(rest)
    ensures var all := Members(key, v, rest);
            && TailsAre(PrettyMembers(all, indent), MemberTails(all, below), below)
            && Balance(PrettyMembers(all, indent)) == StringNetMembers(all)
  {
    KeyedTails(indent, key, Pretty(v, indent), rest.NoMembers?, Tails(v, StringNetMembers(rest) + below),
               PrettyMembers(rest, indent), MemberTails(rest, below), below,
               PrettyMembers(Members(key, v, rest), indent), MemberTails(Members(key, v, rest), below));
  }

  /** The exact braces of every tail of a pretty print; in total they are those in its strings. */
  lemma {:induction false} PrettyTails(v: Json, indent: nat, below: int)
    requires Printable(v)
    ensures TailsAre(Pretty(v, indent), Tails(v, below), below)
    ensures Balance(Pretty(v, indent)) == StringNet(v)
  {
    if v.Arr? && v.items.Items? {
      PrettyItemsTails(v.items, indent + 2, below);
      ArrayTails(v.items, indent, below);
    } else if v.Obj? && v.members.Members? {
      PrettyMembersTails(v.members, indent + 2, below + 1);
      ObjectTails(v.members, indent, below);
    } else {
      PrettyLeafTails(v, indent, below);
    }
  }

  lemma {:induction false} PrettyItemsTails(items: Items, indent: nat, below: int)
    requires PrintableItems(items)
    ensures TailsAre(PrettyItems(items, indent), ItemTails(items, below), below)
    ensures Balance(PrettyItems(items, indent)) == StringNetItems(items)
  {
    match items
    case NoItems =>
    case Items(v, rest) =>
      var over := StringNetItems(rest) + below;
      PrettyTails(v, indent, over);
      PrettyItemsTails(rest, indent, below);
      IndentedTails(indent, Pretty(v, indent), rest.NoItems?, Tails(v, over),
                    PrettyItems(rest, indent), ItemTails(rest, below), below);
  }

  lemma {:induction false} PrettyMembersTails(members: Members, indent: nat, below: int)
    requires PrintableMembers(members)
    ensures TailsAre(PrettyMembers(members, indent), MemberTails(members, below), below)
    ensures Balance(PrettyMembers(members, indent)) == StringNetMembers(members)
  {
    match members
    case NoMembers =>
    case Members(k, v, rest) =>
      var over := StringNetMembers(rest) + below;
      PrettyTails(v, indent, over);
      PrettyMembersTails(rest, indent, below);
      MemberStep(k, v, rest, indent, below);
  }

  // ---------- Balanced strings ----------

  ghost predicate AtLeast(ts: seq<int>, bound: int) {
    forall t :: 0 <= t < |ts| ==> ts[t] >= bound
  }

  /** When every string balances, no tail of a print goes below what follows it, and every
      proper tail of an object's print closes more than it opens. */
  lemma {:induction false} BalancedTails(v: Json, below: int)
    requires Balanced(v)
    ensures AtLeast(Tails(v, below), below) && Tails(v, below)[0] == below && StringNet(v) == 0
    ensures v.Obj? ==> AtLeast(Tails(v, below)[1..], below + 1)
  {
    match v
    case Atom(_) =>
    case Str(_) =>
    case Arr(items) => BalancedItemTails(items, below);
    case Obj(members) =>
      BalancedMemberTails(members, below + 1);
      if members.Members? {
        assert Tails(v, below)[1..] == MemberTails(members, below + 1) + [below + 1];
      }
  }

  lemma {:induction false} BalancedItemTails(items: Items, below: int)
    requires BalancedItems(items)
    ensures AtLeast(ItemTails(items, below), below) && StringNetItems(items) == 0
  {
    match items
    case NoItems =>
    case Items(v, rest) =>
      BalancedItemTails(rest, below);
      BalancedTails(v, StringNetItems(rest) + below);
  }

  lemma {:induction false} BalancedMemberTails(members: Members, below: int)
    requires BalancedMembers(members)
    ensures AtLeast(MemberTails(members, below), below) && StringNetMembers(members) == 0
  {
    match members
    case NoMembers =>
    case Members(k, v, rest) =>
      BalancedMemberTails(rest, below);
      BalancedTails(v, StringNetMembers(rest) + below);
  }

  // ---------- Lines of a print ----------

  ghost predicate AllPlain(lines: seq<string>) {
    forall l :: l in lines ==> PlainText(l)
  }

  lemma {:induction false} BracketedIsPlain(open: string, body: seq<string>, close: string)
    requires PlainText(open) && AllPlain(body) && PlainText(close)
    ensures AllPlain([open] + body + [close])
  {}

  lemma {:induction false} AttachIsPlain(prefix: string, lines: seq<string>, suffix: string)
    requires lines != [] && PlainText(prefix) && PlainText(suffix) && AllPlain(lines)
    ensures AllPlain(Attach(prefix, lines, suffix))
  {
    var r := Attach(prefix, lines, suffix);
    forall k | 0 <= k < |r| ensures PlainText(r[k]) {
      assert lines[k] in lines && lines[0] in lines;
    }
  }

  lemma {:induction false} ConcatIsPlain(a: seq<string>, b: seq<string>)
    requires AllPlain(a) && AllPlain(b)
    ensures AllPlain(a + b)
  {}

  lemma {:induction false} KeyPrefixIsPlain(indent: nat, key: string)
    requires PlainText(key)
    ensures PlainText(KeyPrefix(indent, key))
  {
    SpacesArePlain(indent);
  }

  lemma {:induction false} PrettyIsPlain(v: Json, indent: nat)
    requires Printable(v)
    ensures AllPlain(Pretty(v, indent))
  {
    SpacesArePlain(indent);
    match v
    case Atom(_) =>
    case Str(_) =>
    case Arr(items) =>
      if items.Items? {
        PrettyItemsArePlain(items, indent + 2);
        BracketedIsPlain("[", PrettyItems(items, indent + 2), Spaces(indent) + "]");
      }
    case Obj(members) =>
      if members.Members? {
        PrettyMembersArePlain(members, indent + 2);
        BracketedIsPlain("{", PrettyMembers(members, indent + 2), Spaces(indent) + "}");
      }
  }

  lemma {:induction false} PrettyItemsArePlain(items: Items, indent: nat)
    requires PrintableItems(items)
    ensures AllPlain(PrettyItems(items, indent))
  {
    SpacesArePlain(indent);
    match items
    case NoItems =>
    case Items(v, rest) =>
      PrettyIsPlain(v, indent);
      PrettyItemsArePlain(rest, indent);
      AttachIsPlain(Spaces(indent), Pretty(v, indent), Comma(rest.NoItems?));
      ConcatIsPlain(Attach(Spaces(indent), Pretty(v, indent), Comma(rest.NoItems?)), PrettyItems(rest, indent));
  }

  lemma {:induction false} PrettyMembersArePlain(members: Members, indent: nat)
    requires PrintableMembers(members)
    ensures AllPlain(PrettyMembers(members, indent))
  {
    match members
    case NoMembers =>
    case Members(k, v, rest) =>
      PrettyIsPlain(v, indent);
      PrettyMembersArePlain(rest, indent);
      KeyPrefixIsPlain(indent, k);
      var prefix := KeyPrefix(indent, k);
      AttachIsPlain(prefix, Pretty(v, indent), Comma(rest.NoMembers?));
      ConcatIsPlain(Attach(prefix, Pretty(v, indent), Comma(rest.NoMembers?)), PrettyMembers(rest, indent));
  }

  lemma {:induction false} ObjectPrintCloses(v: Json)
    requires v.Obj?
    ensures Closes(Compact(v))
    ensures var p := Pretty(v, 0); Closes(p[|p| - 1])
  {
    var c := Compact(v);
    assert c[|c| - 1] == '}' && !IsSpace('}');
    var p := Pretty(v, 0);
    var last := p[|p| - 1];
    assert last[|last| - 1] == '}';
  }
}
