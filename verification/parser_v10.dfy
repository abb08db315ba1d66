/**
 Record extraction of the v1.10 parser (ospf_parser.py): every block the
 segmenter hands on is turned into Router, Network or Summary LSA records, and
 every malformed block or row is reported through a skip/abort decision.
 */
module ParserV10 {
  import opened Wrappers
  import opened Text
  import opened SegmenterV10
  import opened JsonValue

  datatype Link = Link(linkId: string, metric: int)
  datatype RouterLsa = RouterLsa(routerId: string, areaId: string, links: seq<Link>)
  datatype NetworkLsa = NetworkLsa(networkId: string, attachedRouters: seq<string>, areaId: string)
  datatype SummaryLsa = SummaryLsa(advRouter: string, prefix: string, metric: int, areaId: string)

  /** A malformed LSA as it is reported: its type name, the lines shown with it, the reason. */
  datatype Report = Report(kind: string, lines: seq<NumberedLine>, reason: string)

  /**
   The interactive prompt: when `interactive` is set, the k-th report (counting
   from 0) is answered with `reply(k)`.
   */
  datatype Prompt = Prompt(interactive: bool, reply: nat -> string)

  /**
   The parser's accumulated state. `aborted` records that an answer asked to
   abort; the process then exits and nothing further happens.
   */
  datatype Parsed = Parsed(
    routers: seq<RouterLsa>,
    networks: seq<NetworkLsa>,
    summaries: seq<SummaryLsa>,
    reports: seq<Report>,
    aborted: bool)

  const Initial := Parsed([], [], [], [], false)

  // ---------------------------------------------------------------------------
  // The two router regular expressions, as direct matchers
  // ---------------------------------------------------------------------------

  predicate IsDigitOrDot(c: char) {
    IsDigitChar(c) || c == '.'
  }

  /** What the router-id group can capture: a non-empty run of digits and dots. */
  predicate IsIdentifier(s: string) {
    |s| > 0 && forall k | 0 <= k < |s| :: IsDigitOrDot(s[k])
  }

  /** The end of the run of whitespace starting at `i` (a greedy `\s*`). */
  function SkipSpaces(s: string, i: nat): (j: nat)
    requires i <= |s|
    ensures i <= j <= |s|
    ensures forall k | i <= k < j :: IsSpace(s[k])
    ensures j < |s| ==> !IsSpace(s[j])
    decreases |s| - i
  {
    if i < |s| && IsSpace(s[i]) then SkipSpaces(s, i + 1) else i
  }

  /** The end of the run starting at `i` of digits, or of digits and dots when `dots` is set. */
  function RunEnd(s: string, i: nat, dots: bool): (j: nat)
    requires i <= |s|
    ensures i <= j <= |s|
    ensures forall k | i <= k < j :: if dots then IsDigitOrDot(s[k]) else IsDigitChar(s[k])
    ensures j < |s| ==> !(if dots then IsDigitOrDot(s[j]) else IsDigitChar(s[j]))
    decreases |s| - i
  {
    if i < |s| && (if dots then IsDigitOrDot(s[i]) else IsDigitChar(s[i])) then RunEnd(s, i + 1, dots) else i
  }

  /**
   The router-id pattern `OSPF Router with ID\s*\(?([\d.]+)\)?` and the area
   pattern `Router Link States\s*\(Area (\d+)\)`, both case-insensitive.
   */
  datatype Pattern = RouterIdPattern | AreaPattern

  /**
   The group captured by a match of `re` starting exactly at `i`. After the
   literal, the greedy `\s*` takes all whitespace; for the router id an opening
   parenthesis is then taken when present, and the group is the maximal run of
   digits and dots, which must be non-empty (giving the parenthesis back never
   helps, since it is not a digit or dot). For the area the text must continue
   with `(area ` in any case, a non-empty maximal digit run and `)`.
   */
  function MatchAt(re: Pattern, s: string, i: nat): Option<string>
    requires i <= |s|
  {
    match re
    case RouterIdPattern =>
      if !MatchesAt(Lower(s), "ospf router with id", i) then None
      else
        var j := SkipSpaces(s, i + 19);
        var k := if j < |s| && s[j] == '(' then j + 1 else j;
        var e := RunEnd(s, k, true);
        if k < e then Some(s[k..e]) else None
    case AreaPattern =>
      if !MatchesAt(Lower(s), "router link states", i) then None
      else
        var j := SkipSpaces(s, i + 18);
        if !MatchesAt(Lower(s), "(area ", j) then None
        else
          var e := RunEnd(s, j + 6, false);
          if j + 6 < e < |s| && s[e] == ')' then Some(s[j + 6..e]) else None
  }

  /** re.search: the group of the leftmost match at or after position `i`. */
  function Search(re: Pattern, s: string, i: nat): Option<string>
    requires i <= |s|
    decreases |s| - i
  {
    var m := MatchAt(re, s, i);
    if m.Some? then m else if i == |s| then None else Search(re, s, i + 1)
  }

  /** Search finds nothing exactly when no position from `i` on matches. */
  lemma {:induction false} SearchNone(re: Pattern, s: string, i: nat)
    requires i <= |s|
    ensures Search(re, s, i).None? <==> forall k | i <= k <= |s| :: MatchAt(re, s, k).None?
    decreases |s| - i
  {
    var m := MatchAt(re, s, i);
    if m.Some? {
      assert Search(re, s, i) == m;
    } else if i == |s| {
      assert Search(re, s, i).None?;
    } else {
      assert Search(re, s, i) == Search(re, s, i + 1);
      SearchNone(re, s, i + 1);
      assert (forall k | i <= k <= |s| :: MatchAt(re, s, k).None?) <==> (forall k | i + 1 <= k <= |s| :: MatchAt(re, s, k).None?);
    }
  }

  /** What Search finds is the match at the leftmost matching position. */
  lemma {:induction false} SearchLeftmost(re: Pattern, s: string, i: nat)
    requires i <= |s| && Search(re, s, i).Some?
    ensures exists k | i <= k <= |s| ::
      && MatchAt(re, s, k) == Search(re, s, i)
      && forall j | i <= j < k :: MatchAt(re, s, j).None?
    decreases |s| - i
  {
    var m := MatchAt(re, s, i);
    if m.Some? {
      assert MatchAt(re, s, i) == Search(re, s, i);
    } else {
      SearchLeftmost(re, s, i + 1);
      var k :| i + 1 <= k <= |s| && MatchAt(re, s, k) == Search(re, s, i + 1)
        && forall j | i + 1 <= j < k :: MatchAt(re, s, j).None?;
      assert forall j | i <= j < k :: MatchAt(re, s, j).None?;
    }
  }

  /** A router id is a non-empty run of digits and dots; an area is a non-empty run of digits. */
  lemma MatchAtGroup(re: Pattern, s: string, i: nat)
    requires i <= |s| && MatchAt(re, s, i).Some?
    ensures re == RouterIdPattern ==> IsIdentifier(MatchAt(re, s, i).value)
    ensures re == AreaPattern ==> IsDigits(MatchAt(re, s, i).value)
  {
  }

  lemma {:induction false} SearchGroup(re: Pattern, s: string, i: nat)
    requires i <= |s| && Search(re, s, i).Some?
    ensures re == RouterIdPattern ==> IsIdentifier(Search(re, s, i).value)
    ensures re == AreaPattern ==> IsDigits(Search(re, s, i).value)
    decreases |s| - i
  {
    if MatchAt(re, s, i).Some? {
      MatchAtGroup(re, s, i);
    } else {
      SearchGroup(re, s, i + 1);
    }
  }

  // ---------------------------------------------------------------------------
  // Router blocks
  // ---------------------------------------------------------------------------

  /** The group of the first line of the block that `re` matches, if any line does. */
  function FirstCapture(re: Pattern, lines: seq<NumberedLine>): Option<string> {
    if |lines| == 0 then None
    else
      var m := Search(re, lines[0].text, 0);
      if m.Some? then m else FirstCapture(re, lines[1..])
  }

  /** The captured area number, and "0" when no line carries one. */
  function BlockArea(lines: seq<NumberedLine>): string {
    match FirstCapture(AreaPattern, lines)
    case Some(a) => a
    case None => "0"
  }

  /** A row that yields a router link: two or more tokens, neither "Link ID" nor "Link connected" in it. */
  predicate IsLinkRow(text: string) {
    !Contains(text, "Link ID") && !Contains(text, "Link connected") && |Split(text)| >= 2
  }

  /** The link of a row: the first token, and the last token's value if it is all digits, else 0. */
  function LinkOf(text: string): Link
    requires |Split(text)| > 0
  {
    var parts := Split(text);
    var last := parts[|parts| - 1];
    Link(parts[0], if IsDigits(last) then DigitsValue(last) else 0)
  }

  function Links(lines: seq<NumberedLine>): seq<Link> {
    if |lines| == 0 then []
    else (if IsLinkRow(lines[0].text) then [LinkOf(lines[0].text)] else []) + Links(lines[1..])
  }

  /** Appends the block's record when it names a router, and reports it otherwise. */
  function RouterBlock(p: Parsed, pr: Prompt, lines: seq<NumberedLine>): Parsed {
    match FirstCapture(RouterIdPattern, lines)
    case None => Skip(p, pr, Report("Router", lines, "Missing router ID"))
    case Some(id) => p.(routers := p.routers + [RouterLsa(id, BlockArea(lines), Links(lines))])
  }

  // ---------------------------------------------------------------------------
  // Skip / abort decisions
  // ---------------------------------------------------------------------------

  /** The answer as the prompt reads it: stripped, lower-cased, and "s" when empty. */
  function Choice(reply: string): string {
    var c := Lower(Strip(reply));
    if c == "" then "s" else c
  }

  /** Whether the answer to the k-th report aborts the run. */
  predicate AbortsAt(pr: Prompt, k: nat) {
    pr.interactive && Choice(pr.reply(k)) == "a"
  }

  /** Counts one more malformed LSA and asks whether to go on. */
  function Skip(p: Parsed, pr: Prompt, r: Report): Parsed {
    p.(reports := p.reports + [r], aborted := AbortsAt(pr, |p.reports|))
  }

  /** Only "a" or "A", with any surrounding whitespace, aborts; an empty answer means skip. */
  lemma ChoiceAbortIff(reply: string)
    ensures Choice(reply) == "a" <==> Strip(reply) == "a" || Strip(reply) == "A"
  {
    var t := Strip(reply);
    if Choice(reply) == "a" {
      assert Lower(t) == "a";
      assert |t| == 1 && LowerChar(t[0]) == Lower(t)[0];
      assert t == [t[0]];
    }
  }

  // ---------------------------------------------------------------------------
  // Network and summary blocks
  // ---------------------------------------------------------------------------

  datatype RowKind = NetworkRows | SummaryRows

  /** A row that is looked at at all: non-blank and without "Link ID". */
  predicate IsDataRow(text: string) {
    Strip(text) != "" && !Contains(text, "Link ID")
  }

  /** Minimum number of columns a row of each kind needs. */
  function MinColumns(kind: RowKind): nat {
    match kind
    case NetworkRows => 2
    case SummaryRows => 3
  }

  function KindName(kind: RowKind): string {
    match kind
    case NetworkRows => "Network"
    case SummaryRows => "Summary"
  }

  /** The value of the first all-digit token, or 0 when there is none. */
  function FirstNumber(ts: seq<string>): nat {
    if |ts| == 0 then 0 else if IsDigits(ts[0]) then DigitsValue(ts[0]) else FirstNumber(ts[1..])
  }

  /** One row of a Network or Summary block. */
  function Row(kind: RowKind, p: Parsed, pr: Prompt, text: string): Parsed {
    if !IsDataRow(text) then p
    else
      var parts := Split(text);
      if |parts| < MinColumns(kind) then
        Skip(p, pr, Report(KindName(kind), [NumberedLine(0, text)], "Insufficient columns"))
      else
        match kind
        case NetworkRows => p.(networks := p.networks + [NetworkLsa(parts[0], [parts[1]], "0")])
        case SummaryRows => p.(summaries := p.summaries + [SummaryLsa(parts[1], parts[0], FirstNumber(parts[2..]), "0")])
  }

  /** The rows in order, stopping as soon as an answer aborts. */
  function Rows(kind: RowKind, p: Parsed, pr: Prompt, rows: seq<string>): Parsed
    decreases |rows|
  {
    if |rows| == 0 || p.aborted then p else Rows(kind, Row(kind, p, pr, rows[0]), pr, rows[1..])
  }

  function Texts(lines: seq<NumberedLine>): seq<string> {
    seq(|lines|, i requires 0 <= i < |lines| => lines[i].text)
  }

  /** The lines after the header (`block_lines[1:]`). */
  function Body(lines: seq<NumberedLine>): seq<string> {
    if |lines| == 0 then [] else Texts(lines[1..])
  }

  // ---------------------------------------------------------------------------
  // The whole run
  // ---------------------------------------------------------------------------

  function ProcessBlock(p: Parsed, pr: Prompt, b: Block): Parsed {
    match b.kind
    case Router => RouterBlock(p, pr, b.lines)
    case Network => Rows(NetworkRows, p, pr, Body(b.lines))
    case Summary => Rows(SummaryRows, p, pr, Body(b.lines))
  }

  function ProcessBlocks(p: Parsed, pr: Prompt, bs: seq<Block>): Parsed
    decreases |bs|
  {
    if |bs| == 0 || p.aborted then p else ProcessBlocks(ProcessBlock(p, pr, bs[0]), pr, bs[1..])
  }

  /** Segments the dump and extracts every block, in input order. */
  function Parse(lines: seq<string>, pr: Prompt): Parsed {
    ProcessBlocks(Initial, pr, Segment(lines))
  }

  // ---------------------------------------------------------------------------
  // The exported document (dataclasses.asdict of every record)
  // ---------------------------------------------------------------------------

  function LinkJson(l: Link): Value {
    Obj([Field("link_id", Str(l.linkId)), Field("metric", Int(l.metric))])
  }

  function RouterJson(r: RouterLsa): Value {
    Obj([
      Field("router_id", Str(r.routerId)),
      Field("area_id", Str(r.areaId)),
      Field("links", List(seq(|r.links|, i requires 0 <= i < |r.links| => LinkJson(r.links[i]))))
    ])
  }

  function NetworkJson(n: NetworkLsa): Value {
    Obj([
      Field("network_id", Str(n.networkId)),
      Field("attached_routers", List(seq(|n.attachedRouters|, i requires 0 <= i < |n.attachedRouters| => Str(n.attachedRouters[i])))),
      Field("area_id", Str(n.areaId))
    ])
  }

  function SummaryJson(s: SummaryLsa): Value {
    Obj([
      Field("adv_router", Str(s.advRouter)),
      Field("prefix", Str(s.prefix)),
      Field("metric", Int(s.metric)),
      Field("area_id", Str(s.areaId))
    ])
  }

  /** The output document; an aborted run exits before writing anything. */
  function Export(p: Parsed): Option<Value> {
    if p.aborted then None
    else Some(Obj([
      Field("router_lsas", List(seq(|p.routers|, i requires 0 <= i < |p.routers| => RouterJson(p.routers[i])))),
      Field("network_lsas", List(seq(|p.networks|, i requires 0 <= i < |p.networks| => NetworkJson(p.networks[i])))),
      Field("summary_lsas", List(seq(|p.summaries|, i requires 0 <= i < |p.summaries| => SummaryJson(p.summaries[i]))))
    ]))
  }
}

/**
 Properties of the v1.10 extraction.
 */
module ParserV10Facts {
  import opened Wrappers
  import opened Text
  import opened SegmenterV10
  import opened ParserV10

  // ---------------------------------------------------------------------------
  // Router blocks
  // ---------------------------------------------------------------------------

  /** FirstCapture answers the group of the first line the pattern matches, or nothing if none does. */
  lemma {:induction false} FirstCaptureSpec(re: Pattern, lines: seq<NumberedLine>)
    ensures FirstCapture(re, lines).None? <==> forall i | 0 <= i < |lines| :: Search(re, lines[i].text, 0).None?
    ensures FirstCapture(re, lines).Some? ==> exists i | 0 <= i < |lines| ::
      && Search(re, lines[i].text, 0) == FirstCapture(re, lines)
      && forall j | 0 <= j < i :: Search(re, lines[j].text, 0).None?
  {
    if |lines| > 0 && Search(re, lines[0].text, 0).None? {
      FirstCaptureSpec(re, lines[1..]);
      assert forall i | 1 <= i < |lines| :: lines[i] == lines[1..][i - 1];
      if FirstCapture(re, lines).Some? {
        var i :| 0 <= i < |lines[1..]| && Search(re, lines[1..][i].text, 0) == FirstCapture(re, lines)
          && forall j | 0 <= j < i :: Search(re, lines[1..][j].text, 0).None?;
        assert lines[i + 1] == lines[1..][i];
      }
    }
  }

  lemma {:induction false} FirstCaptureGroup(re: Pattern, lines: seq<NumberedLine>)
    requires FirstCapture(re, lines).Some?
    ensures re == RouterIdPattern ==> IsIdentifier(FirstCapture(re, lines).value)
    ensures re == AreaPattern ==> IsDigits(FirstCapture(re, lines).value)
  {
    if Search(re, lines[0].text, 0).Some? {
      SearchGroup(re, lines[0].text, 0);
    } else {
      FirstCaptureGroup(re, lines[1..]);
    }
  }

  /** The area is always a digit string: the captured number, or "0" when no line has one. */
  lemma BlockAreaSpec(lines: seq<NumberedLine>)
    ensures IsDigits(BlockArea(lines))
    ensures BlockArea(lines) == "0" <== forall i | 0 <= i < |lines| :: Search(AreaPattern, lines[i].text, 0).None?
  {
    FirstCaptureSpec(AreaPattern, lines);
    if FirstCapture(AreaPattern, lines).Some? {
      FirstCaptureGroup(AreaPattern, lines);
    }
  }

  /**
   A router block without a router-id line is counted as skipped exactly once and
   yields no record; a block with one yields exactly one record, with that id, and
   no report.
   */
  lemma RouterBlockOutcome(p: Parsed, pr: Prompt, lines: seq<NumberedLine>)
    ensures var q := RouterBlock(p, pr, lines);
      && q.networks == p.networks && q.summaries == p.summaries
      && (FirstCapture(RouterIdPattern, lines).None? <==> |q.reports| == |p.reports| + 1)
      && (FirstCapture(RouterIdPattern, lines).None? ==>
            q.routers == p.routers && q.reports[|p.reports|] == Report("Router", lines, "Missing router ID"))
      && (FirstCapture(RouterIdPattern, lines).Some? ==>
            && q.reports == p.reports && q.aborted == p.aborted
            && q.routers == p.routers + [RouterLsa(FirstCapture(RouterIdPattern, lines).value, BlockArea(lines), Links(lines))])
  {
  }

  /** Neither "Link ID" nor "Link connected" can occur in a token followed by a space and a number. */
  lemma PhraseNotInTokenAndNumber(id: string, d: string, phrase: string)
    requires IsToken(id) && IsDigits(d)
    requires |phrase| > 5 && phrase[4] == ' ' && !IsDigitChar(phrase[5])
    ensures !Contains(id + " " + d, phrase)
  {
    var row := id + " " + d;
    forall i | 0 <= i <= |row| - |phrase| ensures !MatchesAt(row, phrase, i) {
      if i + 4 < |id| {
        assert row[i + 4] == id[i + 4];
        assert row[i..i + |phrase|][4] == row[i + 4];
      } else if i + 4 > |id| {
        assert row[i + 4] == d[i + 4 - |id| - 1];
        assert row[i..i + |phrase|][4] == row[i + 4];
      } else {
        assert row[i + 5] == d[0];
        assert row[i..i + |phrase|][5] == row[i + 5];
      }
    }
  }

  /** A row rendered from a link id and a metric is read back as that very link. */
  lemma LinkRowRoundTrip(id: string, m: nat)
    requires IsToken(id)
    ensures IsLinkRow(id + " " + NatToString(m))
    ensures LinkOf(id + " " + NatToString(m)) == Link(id, m)
  {
    var d := NatToString(m);
    NatToStringRoundTrip(m);
    PhraseNotInTokenAndNumber(id, d, "Link ID");
    PhraseNotInTokenAndNumber(id, d, "Link connected");
    DigitsNoSpace(d);
    SplitJoin([id, d]);
    assert Join([id, d]) == id + " " + d;
  }

  /** RunEnd stops exactly at the end of a run followed by a character outside the class (or the end of the text). */
  lemma RunEndAt(s: string, i: nat, e: nat, dots: bool)
    requires i <= e <= |s|
    requires forall k | i <= k < e :: if dots then IsDigitOrDot(s[k]) else IsDigitChar(s[k])
    requires e < |s| ==> !(if dots then IsDigitOrDot(s[e]) else IsDigitChar(s[e]))
    ensures RunEnd(s, i, dots) == e
  {
  }

  /** A router header line starts with the pattern's literal, in any case. */
  lemma RouterHeadLower(t: string)
    ensures MatchesAt(Lower("OSPF Router with ID" + t), "ospf router with id", 0)
  {
    LowerAppend("OSPF Router with ID", t);
    assert Lower("OSPF Router with ID") == "ospf router with id";
  }

  /** Where the id sits in a router header line, and what follows it. */
  lemma RouterIdLineParts(id: string, rest: string)
    ensures var s := "OSPF Router with ID" + " (" + id + rest;
      && |s| == 21 + |id| + |rest|
      && s[19] == ' ' && s[20] == '('
      && s[21..21 + |id|] == id
      && (forall k | 21 <= k < 21 + |id| :: s[k] == id[k - 21])
      && (|rest| > 0 ==> s[21 + |id|] == rest[0])
  {
  }

  /** The router-id pattern matches at the start of a router header line. */
  lemma RouterIdLineMatch(id: string, rest: string)
    requires IsIdentifier(id)
    requires |rest| > 0 ==> !IsDigitOrDot(rest[0])
    ensures MatchAt(RouterIdPattern, "OSPF Router with ID (" + id + rest, 0) == Some(id)
  {
    var head := "OSPF Router with ID";
    var s := head + " (" + id + rest;
    assert "OSPF Router with ID (" + id + rest == s;
    assert MatchesAt(Lower(s), "ospf router with id", 0) by {
      assert s == head + (" (" + id + rest);
      RouterHeadLower(" (" + id + rest);
    }
    RouterIdLineParts(id, rest);
    assert SkipSpaces(s, 19) == 20 by {
      assert SkipSpaces(s, 20) == 20;
    }
    assert RunEnd(s, 21, true) == 21 + |id| by {
      RunEndAt(s, 21, 21 + |id|, true);
    }
    RouterMatchAt(s, 0, 20, 21 + |id|);
  }

  /** The router-id pattern at `i`, given where the spaces end (`j`, at an opening parenthesis) and where the id ends (`e`). */
  lemma RouterMatchAt(s: string, i: nat, j: nat, e: nat)
    requires i + 19 <= j && j + 1 < e <= |s|
    requires MatchesAt(Lower(s), "ospf router with id", i)
    requires SkipSpaces(s, i + 19) == j && s[j] == '('
    requires RunEnd(s, j + 1, true) == e
    ensures MatchAt(RouterIdPattern, s, i) == Some(s[j + 1..e])
  {
  }

  /**
   The router-id pattern reads back the id from the header line a router prints,
   "OSPF Router with ID (<id>)" followed by anything that does not continue the id.
   */
  lemma RouterIdLineRoundTrip(id: string, rest: string)
    requires IsIdentifier(id)
    requires |rest| > 0 ==> !IsDigitOrDot(rest[0])
    ensures Search(RouterIdPattern, "OSPF Router with ID (" + id + rest, 0) == Some(id)
  {
    RouterIdLineMatch(id, rest);
  }

  /** The area pattern reads back the number from "Router Link States (Area <n>)". */
  lemma AreaLineRoundTrip(n: nat, rest: string)
    ensures Search(AreaPattern, "Router Link States (Area " + NatToString(n) + ")" + rest, 0) == Some(NatToString(n))
  {
    var d := NatToString(n);
    var s := "Router Link States (Area " + d + ")" + rest;
    NatToStringRoundTrip(n);
    AreaLineMatch(d, rest);
    assert MatchAt(AreaPattern, s, 0) == Some(d);
  }

  lemma AreaLineMatch(d: string, rest: string)
    requires IsDigits(d)
    ensures MatchAt(AreaPattern, "Router Link States (Area " + d + ")" + rest, 0) == Some(d)
  {
    var s := "Router Link States (Area " + d + ")" + rest;
    AreaLineParts(d, rest);
    assert SkipSpaces(s, 18) == 19 by {
      assert s[18] == ' ' && s[19] == '(';
      assert SkipSpaces(s, 19) == 19;
    }
    assert RunEnd(s, 25, false) == 25 + |d| by {
      assert s[25..25 + |d|] == d;
      assert s[25 + |d|] == ')';
      RunEndAt(s, 25, 25 + |d|, false);
    }
    assert s[25..25 + |d|] == d;
  }

  lemma AreaLineParts(d: string, rest: string)
    ensures MatchesAt(Lower("Router Link States (Area " + d + ")" + rest), "router link states", 0)
    ensures MatchesAt(Lower("Router Link States (Area " + d + ")" + rest), "(area ", 19)
  {
    var s := "Router Link States (Area " + d + ")" + rest;
    assert s == "Router Link States" + (" (Area " + d + ")" + rest);
    AreaHeadLower(" (Area " + d + ")" + rest);
    assert s == "Router Link States " + ("(Area " + d + ")" + rest);
    AreaParenLower("Router Link States ", d + ")" + rest);
  }

  /** An area header line starts with the pattern's literal, in any case. */
  lemma AreaHeadLower(t: string)
    ensures MatchesAt(Lower("Router Link States" + t), "router link states", 0)
  {
    LowerAppend("Router Link States", t);
    assert Lower("Router Link States") == "router link states";
  }

  /** "(Area " after a 19-character prefix matches "(area " in any case. */
  lemma AreaParenLower(h: string, t: string)
    requires |h| == 19
    ensures MatchesAt(Lower(h + "(Area " + t), "(area ", 19)
  {
    var s := h + "(Area " + t;
    assert s == h + ("(Area " + t);
    LowerAppend(h, "(Area " + t);
    LowerAppend("(Area ", t);
    assert Lower("(Area ") == "(area ";
    assert Lower(s)[19..25] == Lower("(Area " + t)[..6];
  }

  /** Every link has a token as id and a non-negative metric; the metric is never negative. */
  lemma LinkOfSpec(text: string)
    requires |Split(text)| > 0
    ensures IsToken(LinkOf(text).linkId) && LinkOf(text).linkId == Split(text)[0]
    ensures LinkOf(text).metric >= 0
  {
    SplitTokens(text);
  }

  /** One link per link row, rows kept in order: the link list splits along any split of the block. */
  lemma {:induction false} LinksAppend(a: seq<NumberedLine>, b: seq<NumberedLine>)
    ensures Links(a + b) == Links(a) + Links(b)
  {
    if |a| > 0 {
      LinksAppend(a[1..], b);
      assert (a + b)[1..] == a[1..] + b;
    } else {
      assert a + b == b;
    }
  }

  /** The number of link rows in a block. */
  function LinkRowCount(lines: seq<NumberedLine>): nat {
    if |lines| == 0 then 0 else (if IsLinkRow(lines[0].text) then 1 else 0) + LinkRowCount(lines[1..])
  }

  /** The texts of the link rows, in order. */
  function LinkRows(lines: seq<NumberedLine>): seq<string> {
    if |lines| == 0 then [] else (if IsLinkRow(lines[0].text) then [lines[0].text] else []) + LinkRows(lines[1..])
  }

  /** Exactly one link per link row, each with a token id and a non-negative metric. */
  lemma {:induction false} LinksSpec(lines: seq<NumberedLine>)
    ensures |Links(lines)| == LinkRowCount(lines) <= |lines|
    ensures forall k | 0 <= k < |Links(lines)| :: IsToken(Links(lines)[k].linkId) && Links(lines)[k].metric >= 0
  {
    if |lines| > 0 {
      LinksSpec(lines[1..]);
      if IsLinkRow(lines[0].text) {
        LinkOfSpec(lines[0].text);
      }
    }
  }

  /** The k-th link is read from the k-th link row: other rows are passed over and no link row is. */
  lemma {:induction false} LinksByRow(lines: seq<NumberedLine>)
    ensures |Links(lines)| == |LinkRows(lines)|
    ensures forall k | 0 <= k < |Links(lines)| ::
      |Split(LinkRows(lines)[k])| >= 2 && Links(lines)[k] == LinkOf(LinkRows(lines)[k])
  {
    if |lines| > 0 {
      var r := lines[1..];
      LinksByRow(r);
      LinksByRowCons(lines[0], r);
    }
  }

  lemma LinksByRowCons(l: NumberedLine, r: seq<NumberedLine>)
    requires |Links(r)| == |LinkRows(r)|
    requires forall k | 0 <= k < |Links(r)| :: |Split(LinkRows(r)[k])| >= 2 && Links(r)[k] == LinkOf(LinkRows(r)[k])
    ensures |Links([l] + r)| == |LinkRows([l] + r)|
    ensures forall k | 0 <= k < |Links([l] + r)| ::
      |Split(LinkRows([l] + r)[k])| >= 2 && Links([l] + r)[k] == LinkOf(LinkRows([l] + r)[k])
  {
    var lines := [l] + r;
    assert lines[0] == l && lines[1..] == r;
    var out, kept := Links(r), LinkRows(r);
    if IsLinkRow(l.text) {
      assert |Split(l.text)| >= 2;
      assert Links(lines) == [LinkOf(l.text)] + out;
      assert LinkRows(lines) == [l.text] + kept;
    } else {
      assert Links(lines) == out && LinkRows(lines) == kept;
    }
  }

  // ---------------------------------------------------------------------------
  // Network and summary rows
  // ---------------------------------------------------------------------------

  function DataRowCount(rows: seq<string>): nat {
    if |rows| == 0 then 0 else (if IsDataRow(rows[0]) then 1 else 0) + DataRowCount(rows[1..])
  }

  /** Records and reports produced by network and summary rows so far. */
  function RowOutcomes(p: Parsed): nat {
    |p.networks| + |p.summaries| + |p.reports|
  }

  /** A row without data changes nothing; a data row yields exactly one record or one report of its own kind. */
  lemma RowOutcome(kind: RowKind, p: Parsed, pr: Prompt, text: string)
    ensures var q := Row(kind, p, pr, text);
      && q.routers == p.routers
      && RowOutcomes(q) == RowOutcomes(p) + (if IsDataRow(text) then 1 else 0)
      && (kind == NetworkRows ==> q.summaries == p.summaries)
      && (kind == SummaryRows ==> q.networks == p.networks)
      && (!IsDataRow(text) ==> q == p)
  {
  }

  /**
   What a data row yields: a row with too few columns gives exactly one
   "Insufficient columns" report of its block's kind and no record; a longer
   row gives exactly one record read from its first columns, and no report.
   */
  lemma RowByColumns(kind: RowKind, p: Parsed, pr: Prompt, text: string)
    requires IsDataRow(text)
    ensures var q := Row(kind, p, pr, text); var parts := Split(text);
      && (|parts| < MinColumns(kind) <==> |q.reports| == |p.reports| + 1)
      && (|parts| < MinColumns(kind) ==>
            q == p.(reports := p.reports + [Report(KindName(kind), [NumberedLine(0, text)], "Insufficient columns")],
                    aborted := AbortsAt(pr, |p.reports|)))
      && (|parts| >= MinColumns(kind) ==>
            q.reports == p.reports && q.aborted == p.aborted && q.routers == p.routers)
      && (|parts| >= MinColumns(kind) && kind == NetworkRows ==>
            q.summaries == p.summaries && q.networks == p.networks + [NetworkLsa(parts[0], [parts[1]], "0")])
      && (|parts| >= MinColumns(kind) && kind == SummaryRows ==>
            q.networks == p.networks && q.summaries == p.summaries + [SummaryLsa(parts[1], parts[0], FirstNumber(parts[2..]), "0")])
  {
  }

  /** `ts[i]` is the first all-digit token. */
  predicate FirstDigitsAt(ts: seq<string>, i: int) {
    0 <= i < |ts| && IsDigits(ts[i]) && forall j | 0 <= j < i :: !IsDigits(ts[j])
  }

  /**
   The summary metric: the value of the first all-digit token, and 0 when no
   token is all digits.
   */
  lemma {:induction false} FirstNumberSpec(ts: seq<string>)
    ensures (forall i | 0 <= i < |ts| :: !IsDigits(ts[i])) ==> FirstNumber(ts) == 0
    ensures forall i | FirstDigitsAt(ts, i) :: FirstNumber(ts) == DigitsValue(ts[i])
    decreases |ts|
  {
    if |ts| > 0 {
      FirstNumberSpec(ts[1..]);
      if !IsDigits(ts[0]) {
        forall i | FirstDigitsAt(ts, i) ensures FirstNumber(ts) == DigitsValue(ts[i]) {
          assert i > 0;
          assert FirstDigitsAt(ts[1..], i - 1) by {
            forall j | 0 <= j < i - 1 ensures !IsDigits(ts[1..][j]) {
              assert ts[1..][j] == ts[j + 1];
            }
          }
        }
        if forall i | 0 <= i < |ts| :: !IsDigits(ts[i]) {
          forall i | 0 <= i < |ts[1..]| ensures !IsDigits(ts[1..][i]) {
            assert ts[1..][i] == ts[i + 1];
          }
        }
      }
    }
  }

  /** Tokens joined by single spaces form a data row that splits back into them. */
  lemma JoinedRow(ts: seq<string>)
    requires |ts| > 0 && forall k | 0 <= k < |ts| :: IsToken(ts[k])
    requires !Contains(Join(ts), "Link ID")
    ensures IsDataRow(Join(ts)) && Split(Join(ts)) == ts
  {
    SplitJoin(ts);
    SplitEmptyIffBlank(Join(ts));
    StripSpec(Join(ts));
  }

  /** A network row of two or more columns, extra columns ignored, reads as its first two. */
  lemma NetworkRowColumns(p: Parsed, pr: Prompt, ts: seq<string>)
    requires |ts| >= 2 && forall k | 0 <= k < |ts| :: IsToken(ts[k])
    requires !Contains(Join(ts), "Link ID")
    ensures Row(NetworkRows, p, pr, Join(ts)) == p.(networks := p.networks + [NetworkLsa(ts[0], [ts[1]], "0")])
  {
    JoinedRow(ts);
  }

  /**
   A summary row of three or more columns reads as prefix, advertising router,
   and the first all-digit column from the third on (0 when there is none).
   */
  lemma SummaryRowColumns(p: Parsed, pr: Prompt, ts: seq<string>)
    requires |ts| >= 3 && forall k | 0 <= k < |ts| :: IsToken(ts[k])
    requires !Contains(Join(ts), "Link ID")
    ensures Row(SummaryRows, p, pr, Join(ts)) == p.(summaries := p.summaries + [SummaryLsa(ts[1], ts[0], FirstNumber(ts[2..]), "0")])
  {
    JoinedRow(ts);
  }

  /**
   A five-column summary row as the router prints it (prefix, advertising
   router, metric, sequence number, checksum): the metric is its third column.
   */
  lemma SummaryFiveColumns(p: Parsed, pr: Prompt)
    ensures Row(SummaryRows, p, pr, "10.1.1.0" + " " + "1.1.1.1" + " " + "123" + " " + "0x80000001" + " " + "0x00ABCD")
      == p.(summaries := p.summaries + [SummaryLsa("1.1.1.1", "10.1.1.0", 123, "0")])
  {
    var ts := FiveColumns();
    JoinFive(ts[0], ts[1], ts[2], ts[3], ts[4]);
    assert ts == [ts[0], ts[1], ts[2], ts[3], ts[4]];
    FiveColumnsTokens();
    assert 'L' in "Link ID";
    MissingCharNotContained(Join(ts), "Link ID", 'L');
    SummaryRowColumns(p, pr, ts);
    FiveColumnsMetric();
  }

  function FiveColumns(): seq<string> {
    ["10.1.1.0", "1.1.1.1", "123", "0x80000001", "0x00ABCD"]
  }

  lemma JoinFive(a: string, b: string, c: string, d: string, e: string)
    ensures Join([a, b, c, d, e]) == a + " " + b + " " + c + " " + d + " " + e
  {
    JoinCons(d, [e]);
    assert [d, e] == [d] + [e];
    JoinCons(c, [d, e]);
    assert [c, d, e] == [c] + [d, e];
    JoinCons(b, [c, d, e]);
    assert [b, c, d, e] == [b] + [c, d, e];
    JoinCons(a, [b, c, d, e]);
    assert [a, b, c, d, e] == [a] + [b, c, d, e];
  }

  lemma FiveColumnsTokens()
    ensures |FiveColumns()| == 5 && forall k | 0 <= k < 5 :: IsToken(FiveColumns()[k])
  {
    PrintableToken("10.1.1.0");
    PrintableToken("1.1.1.1");
    PrintableToken("123");
    PrintableToken("0x80000001");
    PrintableToken("0x00ABCD");
  }

  /** A non-empty word of visible ASCII characters is a token. */
  lemma PrintableToken(w: string)
    requires |w| > 0 && forall i | 0 <= i < |w| :: '!' <= w[i] <= '~'
    ensures IsToken(w)
  {
  }

  lemma FiveColumnsMetric()
    ensures FirstNumber(FiveColumns()[2..]) == 123
  {
    var ts := FiveColumns()[2..];
    assert ts[0] == "123";
    assert IsDigits("123");
    assert DigitsValue("123") == 123 by {
      assert "123"[..2] == "12" && "12"[..1] == "1" && "1"[..0] == "";
    }
  }

  /**
   Unless an answer aborts, every data row of a Network or Summary block yields
   exactly one outcome (a record or a report) and processing goes on after a
   report; router records are never touched.
   */
  lemma {:induction false} RowsOutcome(kind: RowKind, p: Parsed, pr: Prompt, rows: seq<string>)
    requires !p.aborted
    ensures Rows(kind, p, pr, rows).routers == p.routers
    ensures !Rows(kind, p, pr, rows).aborted ==> RowOutcomes(Rows(kind, p, pr, rows)) == RowOutcomes(p) + DataRowCount(rows)
    decreases |rows|
  {
    if |rows| > 0 {
      var q := Row(kind, p, pr, rows[0]);
      RowOutcome(kind, p, pr, rows[0]);
      if !q.aborted {
        RowsOutcome(kind, q, pr, rows[1..]);
      }
    }
  }

  /** The header line of a Network or Summary block is never read: only the lines after it matter. */
  lemma BlockHeaderIgnored(p: Parsed, pr: Prompt, kind: LsaType, h1: NumberedLine, h2: NumberedLine, rest: seq<NumberedLine>)
    requires kind != Router
    ensures ProcessBlock(p, pr, Block(kind, [h1] + rest)) == ProcessBlock(p, pr, Block(kind, [h2] + rest))
  {
    assert ([h1] + rest)[1..] == rest == ([h2] + rest)[1..];
  }

  /** A data row rendered from a network id and one attached router reads back as that network. */
  lemma NetworkRowRoundTrip(p: Parsed, pr: Prompt, net: string, attached: string)
    requires IsToken(net) && IsToken(attached)
    requires !Contains(net + " " + attached, "Link ID")
    ensures Row(NetworkRows, p, pr, net + " " + attached) == p.(networks := p.networks + [NetworkLsa(net, [attached], "0")])
  {
    var row := net + " " + attached;
    SplitJoin([net, attached]);
    assert Join([net, attached]) == row;
    SplitEmptyIffBlank(row);
    StripSpec(row);
  }

  /** A data row rendered from a prefix, an advertising router and a metric reads back as that summary. */
  lemma SummaryRowRoundTrip(p: Parsed, pr: Prompt, prefix: string, adv: string, m: nat)
    requires IsToken(prefix) && IsToken(adv)
    requires !Contains(prefix + " " + adv + " " + NatToString(m), "Link ID")
    ensures Row(SummaryRows, p, pr, prefix + " " + adv + " " + NatToString(m))
      == p.(summaries := p.summaries + [SummaryLsa(adv, prefix, m, "0")])
  {
    var d := NatToString(m);
    var row := prefix + " " + adv + " " + d;
    NatToStringRoundTrip(m);
    ThreeTokenRow(prefix, adv, d);
    assert Split(row)[2..] == [d];
    assert FirstNumber([d]) == m;
  }

  /** Three tokens joined by single spaces form a data row that splits back into them. */
  lemma ThreeTokenRow(a: string, b: string, c: string)
    requires IsToken(a) && IsToken(b) && IsToken(c)
    requires !Contains(a + " " + b + " " + c, "Link ID")
    ensures IsDataRow(a + " " + b + " " + c)
    ensures Split(a + " " + b + " " + c) == [a, b, c]
  {
    var row := a + " " + b + " " + c;
    assert Join([a, b, c]) == row by {
      assert [a, b, c][1..] == [b, c];
      assert Join([b, c]) == b + " " + c;
    }
    assert Split(row) == [a, b, c] by {
      SplitJoin([a, b, c]);
    }
    assert !AllSpace(row) by {
      SplitEmptyIffBlank(row);
    }
    StripSpec(row);
  }

  // ---------------------------------------------------------------------------
  // Skip / abort
  // ---------------------------------------------------------------------------

  /**
   The run's reports agree with the answers given: no answer before the last one
   asked to abort, and the run is aborted exactly when the last one did.
   */
  predicate AnswersConsistent(pr: Prompt, p: Parsed) {
    && (forall k: nat | k + 1 < |p.reports| :: !AbortsAt(pr, k))
    && (p.aborted <==> |p.reports| > 0 && AbortsAt(pr, |p.reports| - 1))
  }

  /** One more report keeps the answers consistent when the run had not been aborted. */
  lemma SkipConsistent(p: Parsed, pr: Prompt, r: Report)
    requires AnswersConsistent(pr, p) && !p.aborted
    ensures AnswersConsistent(pr, Skip(p, pr, r))
  {
    var q := Skip(p, pr, r);
    assert |q.reports| == |p.reports| + 1;
    forall k: nat | k + 1 < |q.reports| ensures !AbortsAt(pr, k) {
      if k + 1 < |p.reports| {
      } else {
        assert k == |p.reports| - 1;
      }
    }
  }

  /** A record stored without a report changes nothing the answers are checked against. */
  lemma SameReportsConsistent(p: Parsed, q: Parsed, pr: Prompt)
    requires AnswersConsistent(pr, p) && q.reports == p.reports && q.aborted == p.aborted
    ensures AnswersConsistent(pr, q)
  {
  }

  lemma RowConsistent(kind: RowKind, p: Parsed, pr: Prompt, text: string)
    requires AnswersConsistent(pr, p) && !p.aborted
    ensures AnswersConsistent(pr, Row(kind, p, pr, text))
  {
    var q := Row(kind, p, pr, text);
    if IsDataRow(text) && |Split(text)| < MinColumns(kind) {
      SkipConsistent(p, pr, Report(KindName(kind), [NumberedLine(0, text)], "Insufficient columns"));
    } else {
      assert q.reports == p.reports && q.aborted == p.aborted;
      SameReportsConsistent(p, q, pr);
    }
  }

  lemma {:induction false} RowsConsistent(kind: RowKind, p: Parsed, pr: Prompt, rows: seq<string>)
    requires AnswersConsistent(pr, p)
    ensures AnswersConsistent(pr, Rows(kind, p, pr, rows))
    decreases |rows|
  {
    if |rows| > 0 && !p.aborted {
      RowConsistent(kind, p, pr, rows[0]);
      RowsConsistent(kind, Row(kind, p, pr, rows[0]), pr, rows[1..]);
    }
  }

  lemma ProcessBlockConsistent(p: Parsed, pr: Prompt, b: Block)
    requires AnswersConsistent(pr, p) && !p.aborted
    ensures AnswersConsistent(pr, ProcessBlock(p, pr, b))
  {
    match b.kind
    case Router =>
      var q := RouterBlock(p, pr, b.lines);
      if FirstCapture(RouterIdPattern, b.lines).None? {
        SkipConsistent(p, pr, Report("Router", b.lines, "Missing router ID"));
      } else {
        assert q.reports == p.reports && q.aborted == p.aborted;
        SameReportsConsistent(p, q, pr);
      }
    case Network => RowsConsistent(NetworkRows, p, pr, Body(b.lines));
    case Summary => RowsConsistent(SummaryRows, p, pr, Body(b.lines));
  }

  lemma {:induction false} ProcessBlocksConsistent(p: Parsed, pr: Prompt, bs: seq<Block>)
    requires AnswersConsistent(pr, p)
    ensures AnswersConsistent(pr, ProcessBlocks(p, pr, bs))
    decreases |bs|
  {
    if |bs| > 0 && !p.aborted {
      ProcessBlockConsistent(p, pr, bs[0]);
      ProcessBlocksConsistent(ProcessBlock(p, pr, bs[0]), pr, bs[1..]);
    }
  }

  /**
   A run stops only on an abort answer: it is aborted exactly when the answer to
   its last report was "a", every earlier answer was a skip, and a run that does
   not prompt never aborts.
   */
  lemma ParseAnswers(lines: seq<string>, pr: Prompt)
    ensures AnswersConsistent(pr, Parse(lines, pr))
    ensures !pr.interactive ==> !Parse(lines, pr).aborted
  {
    ProcessBlocksConsistent(Initial, pr, Segment(lines));
  }

  // ---------------------------------------------------------------------------
  // Shape of the records
  // ---------------------------------------------------------------------------

  predicate WellFormedRouter(r: RouterLsa) {
    && IsIdentifier(r.routerId)
    && IsDigits(r.areaId)
    && forall k | 0 <= k < |r.links| :: IsToken(r.links[k].linkId) && r.links[k].metric >= 0
  }

  predicate WellFormedNetwork(n: NetworkLsa) {
    IsToken(n.networkId) && |n.attachedRouters| == 1 && IsToken(n.attachedRouters[0]) && n.areaId == "0"
  }

  predicate WellFormedSummary(s: SummaryLsa) {
    IsToken(s.prefix) && IsToken(s.advRouter) && s.metric >= 0 && s.areaId == "0"
  }

  predicate WellFormedParsed(p: Parsed) {
    && (forall i | 0 <= i < |p.routers| :: WellFormedRouter(p.routers[i]))
    && (forall i | 0 <= i < |p.networks| :: WellFormedNetwork(p.networks[i]))
    && (forall i | 0 <= i < |p.summaries| :: WellFormedSummary(p.summaries[i]))
  }

  lemma RouterBlockWellFormed(p: Parsed, pr: Prompt, lines: seq<NumberedLine>)
    requires WellFormedParsed(p)
    ensures WellFormedParsed(RouterBlock(p, pr, lines))
  {
    if FirstCapture(RouterIdPattern, lines).Some? {
      FirstCaptureGroup(RouterIdPattern, lines);
      BlockAreaSpec(lines);
      LinksSpec(lines);
    }
  }

  lemma RowWellFormed(kind: RowKind, p: Parsed, pr: Prompt, text: string)
    requires WellFormedParsed(p)
    ensures WellFormedParsed(Row(kind, p, pr, text))
  {
    SplitTokens(text);
  }

  lemma {:induction false} RowsWellFormed(kind: RowKind, p: Parsed, pr: Prompt, rows: seq<string>)
    requires WellFormedParsed(p)
    ensures WellFormedParsed(Rows(kind, p, pr, rows))
    decreases |rows|
  {
    if |rows| > 0 && !p.aborted {
      RowWellFormed(kind, p, pr, rows[0]);
      RowsWellFormed(kind, Row(kind, p, pr, rows[0]), pr, rows[1..]);
    }
  }

  lemma {:induction false} ProcessBlocksWellFormed(p: Parsed, pr: Prompt, bs: seq<Block>)
    requires WellFormedParsed(p)
    ensures WellFormedParsed(ProcessBlocks(p, pr, bs))
    decreases |bs|
  {
    if |bs| > 0 && !p.aborted {
      var b := bs[0];
      match b.kind {
        case Router => RouterBlockWellFormed(p, pr, b.lines);
        case Network => RowsWellFormed(NetworkRows, p, pr, Body(b.lines));
        case Summary => RowsWellFormed(SummaryRows, p, pr, Body(b.lines));
      }
      ProcessBlocksWellFormed(ProcessBlock(p, pr, b), pr, bs[1..]);
    }
  }

  /**
   Every record of a run is well formed: router ids are runs of digits and dots,
   areas are digit strings, ids and link ids are single tokens, a network has
   exactly one attached router, metrics are never negative.
   */
  lemma ParseWellFormed(lines: seq<string>, pr: Prompt)
    ensures WellFormedParsed(Parse(lines, pr))
  {
    ProcessBlocksWellFormed(Initial, pr, Segment(lines));
  }

  // ---------------------------------------------------------------------------
  // A dump that starts with a router header and its link-states header
  // ---------------------------------------------------------------------------

  /** The header a router prints before its link states. */
  function RouterHeader(id: string): string {
    "OSPF Router with ID (" + id + ")"
  }

  const LinkStatesHeader := "Router Link States (Area 0)"

  lemma NoLetterInHeader(id: string, c: char)
    requires IsIdentifier(id)
    requires c == 'k' || c == 'K'
    ensures c !in RouterHeader(id)
  {
    var l := RouterHeader(id);
    forall j | 0 <= j < |l| ensures l[j] != c {
      if j < 21 {
        assert l[j] == "OSPF Router with ID ("[j];
      } else if j < 21 + |id| {
        assert l[j] == id[j - 21];
      }
    }
  }

  /** No window of a text lacking both cases of a letter spells a lower-case pattern holding that letter. */
  lemma NoMatchWithoutLetter(t: string, pat: string, lo: char, up: char, i: nat)
    requires lo in pat && lo !in t && up !in t
    requires forall c: char :: LowerChar(c) == lo ==> c == lo || c == up
    ensures !MatchesAt(Lower(t), pat, i)
  {
    if i + |pat| <= |t| {
      var k :| 0 <= k < |pat| && pat[k] == lo;
      assert t[i + k] in t;
      assert Lower(t)[i..i + |pat|][k] == LowerChar(t[i + k]) != lo;
    }
  }

  lemma RouterHeaderClassified(id: string)
    ensures Strip(RouterHeader(id)) == RouterHeader(id)
    ensures Classify(RouterHeader(id)) == Some(Router)
  {
    var l1 := RouterHeader(id);
    StripUnpadded(l1);
    assert Contains(Lower(l1), RouterKeys[0]) by {
      LowerAppend("OSPF Router with ID", " (" + id + ")");
      assert l1 == "OSPF Router with ID" + (" (" + id + ")");
      assert Lower("OSPF Router with ID") == RouterKeys[0];
    }
    ClassifySpec(l1);
  }

  lemma LinkStatesClassified()
    ensures Strip(LinkStatesHeader) == LinkStatesHeader
    ensures Classify(LinkStatesHeader) == Some(Router)
  {
    var l2 := LinkStatesHeader;
    StripUnpadded(l2);
    assert Contains(Lower(l2), RouterKeys[1]) by {
      assert Lower(l2) == "router link states (area 0)";
      assert MatchesAt(Lower(l2), RouterKeys[1], 0);
    }
    ClassifySpec(l2);
  }

  /** Both lines open router blocks, so the segmenter makes two blocks of them. */
  lemma HeadersSegment(id: string)
    ensures Segment([RouterHeader(id), LinkStatesHeader]) == [
      Block(Router, [NumberedLine(1, RouterHeader(id))]),
      Block(Router, [NumberedLine(2, LinkStatesHeader)])
    ]
  {
    var l1 := RouterHeader(id);
    var l2 := LinkStatesHeader;
    var lines := [l1, l2];
    RouterHeaderClassified(id);
    LinkStatesClassified();
    var st1 := ScanState(Some(Block(Router, [NumberedLine(1, l1)])), []);
    assert ScanTo(lines, 1) == st1;
    assert ScanTo(lines, 2) == ScanState(Some(Block(Router, [NumberedLine(2, l2)])), [st1.open.value]);
  }

  /** A line without any 'f' has no router-id match, and one without any 'k' has no area match. */
  lemma NoSearchWithoutLetter(re: Pattern, t: string)
    requires re == RouterIdPattern ==> 'f' !in t && 'F' !in t
    requires re == AreaPattern ==> 'k' !in t && 'K' !in t
    ensures Search(re, t, 0).None?
  {
    forall i: nat | i <= |t| ensures MatchAt(re, t, i).None? {
      match re {
        case RouterIdPattern => NoMatchWithoutLetter(t, "ospf router with id", 'f', 'F', i);
        case AreaPattern => NoMatchWithoutLetter(t, "router link states", 'k', 'K', i);
      }
    }
    SearchNone(re, t, 0);
  }

  /** The router header yields the router id, no area, and is itself read as a link named "OSPF". */
  lemma HeaderBlockRecord(id: string)
    requires IsIdentifier(id)
    ensures FirstCapture(RouterIdPattern, [NumberedLine(1, RouterHeader(id))]) == Some(id)
    ensures BlockArea([NumberedLine(1, RouterHeader(id))]) == "0"
    ensures Links([NumberedLine(1, RouterHeader(id))]) == [Link("OSPF", 0)]
  {
    var l1 := RouterHeader(id);
    var b := [NumberedLine(1, l1)];
    assert b[1..] == [];
    assert Search(RouterIdPattern, l1, 0) == Some(id) by {
      RouterIdLineRoundTrip(id, ")");
    }
    assert Search(AreaPattern, l1, 0).None? by {
      NoLetterInHeader(id, 'k');
      NoLetterInHeader(id, 'K');
      NoSearchWithoutLetter(AreaPattern, l1);
    }
    assert IsLinkRow(l1) && LinkOf(l1) == Link("OSPF", 0) by {
      HeaderIsLinkRow(id);
    }
    assert FirstCapture(AreaPattern, b[1..]) == None;
    assert FirstCapture(AreaPattern, b) == None;
  }

  lemma HeaderIsLinkRow(id: string)
    requires IsIdentifier(id)
    ensures IsLinkRow(RouterHeader(id)) && LinkOf(RouterHeader(id)) == Link("OSPF", 0)
  {
    var l1 := RouterHeader(id);
    var last := "(" + id + ")";
    var ws := ["OSPF", "Router", "with", "ID", last];
    assert !Contains(l1, "Link ID") && !Contains(l1, "Link connected") by {
      NoLetterInHeader(id, 'k');
      MissingCharNotContained(l1, "Link ID", 'k');
      MissingCharNotContained(l1, "Link connected", 'k');
    }
    assert Split(l1) == ws by {
      HeaderTokens(id);
    }
    assert !IsDigits(last) by {
      assert last[0] == '(';
    }
  }

  lemma HeaderTokens(id: string)
    requires IsIdentifier(id)
    ensures Split(RouterHeader(id)) == ["OSPF", "Router", "with", "ID", "(" + id + ")"]
  {
    var ws := ["OSPF", "Router", "with", "ID", "(" + id + ")"];
    ParenthesisedIsToken(id);
    HeaderAsJoin(id);
    SplitJoin(ws);
  }

  lemma ParenthesisedIsToken(id: string)
    requires IsIdentifier(id)
    ensures IsToken("(" + id + ")")
  {
    var last := "(" + id + ")";
    forall j | 0 <= j < |last| ensures !IsSpace(last[j]) {
      if 0 < j < |last| - 1 {
        assert last[j] == id[j - 1];
      }
    }
  }

  lemma HeaderAsJoin(id: string)
    ensures Join(["OSPF", "Router", "with", "ID", "(" + id + ")"]) == RouterHeader(id)
  {
    var last := "(" + id + ")";
    JoinCons("ID", [last]);
    JoinCons("with", ["ID", last]);
    JoinCons("Router", ["with", "ID", last]);
    JoinCons("OSPF", ["Router", "with", "ID", last]);
  }

  /** The link-states header alone carries no router id. */
  lemma LinkStatesBlockHasNoId()
    ensures FirstCapture(RouterIdPattern, [NumberedLine(2, LinkStatesHeader)]).None?
  {
    NoSearchWithoutLetter(RouterIdPattern, LinkStatesHeader);
  }

  /**
   A router header followed by its "Router Link States" header gives two router
   blocks, since both lines match a router pattern: the first becomes the record
   (with the header itself read as a link named "OSPF"), the second is reported
   as missing its router id.
   */
  lemma RouterHeaderThenLinkStates(id: string, pr: Prompt)
    requires IsIdentifier(id)
    ensures var p := Parse([RouterHeader(id), LinkStatesHeader], pr);
      && p.routers == [RouterLsa(id, "0", [Link("OSPF", 0)])]
      && p.networks == [] && p.summaries == []
      && p.reports == [Report("Router", [NumberedLine(2, LinkStatesHeader)], "Missing router ID")]
  {
    var b1 := Block(Router, [NumberedLine(1, RouterHeader(id))]);
    var b2 := Block(Router, [NumberedLine(2, LinkStatesHeader)]);
    var r := RouterLsa(id, "0", [Link("OSPF", 0)]);
    var p1 := Initial.(routers := [r]);
    var rep := Report("Router", [NumberedLine(2, LinkStatesHeader)], "Missing router ID");
    var p2 := Skip(p1, pr, rep);
    assert Segment([RouterHeader(id), LinkStatesHeader]) == [b1, b2] by {
      HeadersSegment(id);
    }
    assert ProcessBlock(Initial, pr, b1) == p1 by {
      HeaderBlockRecord(id);
    }
    assert ProcessBlock(p1, pr, b2) == p2 by {
      LinkStatesBlockHasNoId();
    }
    assert [b1, b2][1..] == [b2];
    assert ProcessBlocks(p1, pr, [b2]) == p2 by {
      assert [b2][1..] == [];
    }
  }
}
