/**
 The older v1.11 parser (ospf_parser_v1.11.py): a prefix-driven state machine
 cuts the raw lines into typed blocks, and each block type is read with fixed
 fallback values. Output records are plain dicts.
 */
module ParserV11 {
  import opened Wrappers
  import opened Text
  import opened JsonValue

  datatype BlockType = RouterType | NetworkType | SummaryType

  /**
   A block as collected: its type (None for the lines before the first header),
   the 1-based number of its first line (0 for the typeless block), and its raw
   lines, headers and blank lines included.
   */
  datatype RawBlock = RawBlock(kind: Option<BlockType>, start: nat, lines: seq<string>)

  /** The type a stripped line opens, given the type of the block being collected. */
  function Opens(stripped: string, current: Option<BlockType>): Option<BlockType> {
    if StartsWith(stripped, "OSPF Router") || StartsWith(stripped, "Router Link States") then Some(RouterType)
    else if StartsWith(stripped, "Summary Net Link States") then Some(SummaryType)
    else if StartsWith(stripped, "Link ID") && current != Some(RouterType) then Some(NetworkType)
    else None
  }

  datatype SegState = SegState(kind: Option<BlockType>, start: nat, pending: seq<string>, done: seq<RawBlock>)

  /** Line `i` (0-based): a header flushes the pending lines and starts a block; every line is then collected. */
  function Step(st: SegState, i: nat, line: string): SegState {
    match Opens(Strip(line), st.kind)
    case Some(t) =>
      var done := if |st.pending| > 0 then st.done + [RawBlock(st.kind, st.start, st.pending)] else st.done;
      SegState(Some(t), i + 1, [line], done)
    case None => st.(pending := st.pending + [line])
  }

  function ScanTo(lines: seq<string>, n: nat): SegState
    requires n <= |lines|
  {
    if n == 0 then SegState(None, 0, [], []) else Step(ScanTo(lines, n - 1), n - 1, lines[n - 1])
  }

  function Close(st: SegState): seq<RawBlock> {
    st.done + (if |st.pending| > 0 then [RawBlock(st.kind, st.start, st.pending)] else [])
  }

  /** The blocks in the order they are handed to block processing. */
  function Blocks(lines: seq<string>): seq<RawBlock> {
    Close(ScanTo(lines, |lines|))
  }

  // ---------------------------------------------------------------------------
  // Records
  // ---------------------------------------------------------------------------

  datatype RouterRecord = RouterRecord(routerId: string, areaId: string, links: seq<string>)
  datatype NetworkRecord = NetworkRecord(networkId: string, attached: string)
  datatype SummaryRecord = SummaryRecord(linkId: string, advRouter: string, metric: int)
  datatype SkippedRecord = SkippedRecord(kind: string, lines: seq<nat>, reason: string)

  datatype Output = Output(
    routers: seq<RouterRecord>,
    networks: seq<NetworkRecord>,
    summaries: seq<SummaryRecord>,
    skipped: seq<SkippedRecord>)

  function TrimParensLeft(s: string): string
    decreases |s|
  {
    if |s| > 0 && (s[0] == '(' || s[0] == ')') then TrimParensLeft(s[1..]) else s
  }

  function TrimParensRight(s: string): string
    decreases |s|
  {
    if |s| > 0 && (s[|s| - 1] == '(' || s[|s| - 1] == ')') then TrimParensRight(s[..|s| - 1]) else s
  }

  /** s.strip("()"): parentheses removed from both ends. */
  function StripParens(s: string): string {
    TrimParensRight(TrimParensLeft(s))
  }

  predicate IsIdLine(l: string) {
    Contains(l, "Router with ID")
  }

  /** An id line can be read: it has a fourth token. */
  predicate IdLinesReadable(lines: seq<string>) {
    forall k | 0 <= k < |lines| :: IsIdLine(lines[k]) ==> |Split(Strip(lines[k]))| >= 4
  }

  /** The fourth token of the last id line, without parentheses; None when no line names a router. */
  function LastRouterId(lines: seq<string>): Option<string>
    requires IdLinesReadable(lines)
  {
    if |lines| == 0 then None
    else
      var l := lines[|lines| - 1];
      if IsIdLine(l) then Some(StripParens(Split(Strip(l))[3]))
      else LastRouterId(lines[..|lines| - 1])
  }

  /** The stripped lines mentioning "Link connected to", in order. */
  function ConnectedLinks(lines: seq<string>): seq<string> {
    if |lines| == 0 then []
    else (if Contains(lines[0], "Link connected to") then [Strip(lines[0])] else []) + ConnectedLinks(lines[1..])
  }

  /** The consecutive line numbers a block of `n` lines starting at `start` covers. */
  function LineRange(start: nat, n: nat): seq<nat> {
    seq(n, i requires 0 <= i < n => start + i)
  }

  function RouterOutcome(out: Output, b: RawBlock): Output
    requires IdLinesReadable(b.lines)
  {
    var id := LastRouterId(b.lines);
    if id.Some? && id.value != "" then out.(routers := out.routers + [RouterRecord(id.value, "unknown", ConnectedLinks(b.lines))])
    else out.(skipped := out.skipped + [SkippedRecord("Router", LineRange(b.start, |b.lines|), "Missing router ID")])
  }

  function NetworkOf(l: string): NetworkRecord {
    var parts := Split(Strip(l));
    if |parts| >= 2 then NetworkRecord(parts[0], parts[1]) else NetworkRecord("Network", "unknown")
  }

  /** A summary row can be read: when it has six or more tokens, int() accepts the last. */
  predicate SummaryRowReadable(l: string) {
    var parts := Split(Strip(l));
    |parts| >= 6 ==> ParseInt(parts[|parts| - 1]).Some?
  }

  function SummaryOf(l: string): SummaryRecord
    requires SummaryRowReadable(l)
  {
    var parts := Split(Strip(l));
    if |parts| >= 6 then SummaryRecord(parts[0], parts[1], ParseInt(parts[|parts| - 1]).value)
    else SummaryRecord("Link", "ID", 20)
  }

  predicate IsBlank(l: string) {
    Strip(l) == ""
  }

  function NetworkRows(rows: seq<string>): seq<NetworkRecord> {
    if |rows| == 0 then []
    else (if IsBlank(rows[0]) then [] else [NetworkOf(rows[0])]) + NetworkRows(rows[1..])
  }

  predicate SummaryRowsReadable(rows: seq<string>) {
    forall k | 0 <= k < |rows| :: !IsBlank(rows[k]) ==> SummaryRowReadable(rows[k])
  }

  function SummaryRows(rows: seq<string>): seq<SummaryRecord>
    requires SummaryRowsReadable(rows)
  {
    if |rows| == 0 then []
    else (if IsBlank(rows[0]) then [] else [SummaryOf(rows[0])]) + SummaryRows(rows[1..])
  }

  function Tail(lines: seq<string>): seq<string> {
    if |lines| == 0 then [] else lines[1..]
  }

  /** A block the processor gets through without an exception. */
  predicate BlockReadable(b: RawBlock) {
    && (b.kind == Some(RouterType) ==> IdLinesReadable(b.lines))
    && (b.kind == Some(SummaryType) ==> SummaryRowsReadable(Tail(b.lines)))
  }

  function ProcessBlock(out: Output, b: RawBlock): Output
    requires BlockReadable(b)
  {
    match b.kind
    case Some(RouterType) => RouterOutcome(out, b)
    case Some(NetworkType) => out.(networks := out.networks + NetworkRows(Tail(b.lines)))
    case Some(SummaryType) => out.(summaries := out.summaries + SummaryRows(Tail(b.lines)))
    case None => out
  }

  function ProcessBlocks(out: Output, bs: seq<RawBlock>): Output
    requires forall k | 0 <= k < |bs| :: BlockReadable(bs[k])
    decreases |bs|
  {
    if |bs| == 0 then out else ProcessBlocks(ProcessBlock(out, bs[0]), bs[1..])
  }

  /** A dump the parser reads to the end without an exception. */
  predicate Readable(lines: seq<string>) {
    forall k | 0 <= k < |Blocks(lines)| :: BlockReadable(Blocks(lines)[k])
  }

  function Parse(lines: seq<string>): Output
    requires Readable(lines)
  {
    ProcessBlocks(Output([], [], [], []), Blocks(lines))
  }

  // ---------------------------------------------------------------------------
  // The output document
  // ---------------------------------------------------------------------------

  function StrList(xs: seq<string>): Value {
    List(seq(|xs|, i requires 0 <= i < |xs| => Str(xs[i])))
  }

  function RouterJson(r: RouterRecord): Value {
    Obj([Field("router_id", Str(r.routerId)), Field("area_id", Str(r.areaId)), Field("links", StrList(r.links))])
  }

  function NetworkJson(n: NetworkRecord): Value {
    Obj([Field("network_id", Str(n.networkId)), Field("attached", Str(n.attached))])
  }

  function SummaryJson(s: SummaryRecord): Value {
    Obj([Field("link_id", Str(s.linkId)), Field("adv_router", Str(s.advRouter)), Field("metric", Int(s.metric))])
  }

  function SkippedJson(s: SkippedRecord): Value {
    Obj([
      Field("type", Str(s.kind)),
      Field("lines", List(seq(|s.lines|, i requires 0 <= i < |s.lines| => Int(s.lines[i])))),
      Field("reason", Str(s.reason))
    ])
  }

  function ToJson(out: Output): Value {
    Obj([
      Field("router_lsas", List(seq(|out.routers|, i requires 0 <= i < |out.routers| => RouterJson(out.routers[i])))),
      Field("network_lsas", List(seq(|out.networks|, i requires 0 <= i < |out.networks| => NetworkJson(out.networks[i])))),
      Field("summary_lsas", List(seq(|out.summaries|, i requires 0 <= i < |out.summaries| => SummaryJson(out.summaries[i])))),
      Field("skipped_lsas", List(seq(|out.skipped|, i requires 0 <= i < |out.skipped| => SkippedJson(out.skipped[i]))))
    ])
  }
}

/**
 Properties of the v1.11 segmentation and extraction.
 */
module ParserV11Facts {
  import opened Wrappers
  import opened Text
  import opened JsonValue
  import opened ParserV11

  // ---------------------------------------------------------------------------
  // Segmentation
  // ---------------------------------------------------------------------------

  function FlattenRaw(bs: seq<RawBlock>): seq<string> {
    if |bs| == 0 then [] else FlattenRaw(bs[..|bs| - 1]) + bs[|bs| - 1].lines
  }

  function PrevKind(bs: seq<RawBlock>, k: nat): Option<BlockType>
    requires k <= |bs|
  {
    if k == 0 then None else bs[k - 1].kind
  }

  /**
   The shape of the k-th block: it is non-empty; a typeless block can only come
   first, numbered 0, and holds no header; a typed block is numbered with the
   1-based position of its first line, and that line is a header of its type
   (read in the state the previous block left); no later line of a block opens
   another block.
   */
  predicate BlockShape(bs: seq<RawBlock>, k: nat)
    requires k < |bs|
  {
    var b := bs[k];
    && |b.lines| > 0
    && (b.kind.None? ==> k == 0 && b.start == 0 && Opens(Strip(b.lines[0]), None).None?)
    && (b.kind.Some? ==> b.start == |FlattenRaw(bs[..k])| + 1 && Opens(Strip(b.lines[0]), PrevKind(bs, k)) == b.kind)
    && forall j | 1 <= j < |b.lines| :: Opens(Strip(b.lines[j]), b.kind).None?
  }

  predicate Segmentation(bs: seq<RawBlock>) {
    forall k | 0 <= k < |bs| :: BlockShape(bs, k)
  }

  /** What holds of the state after the first n lines. */
  predicate ScanInv(lines: seq<string>, n: nat, st: SegState)
    requires n <= |lines|
  {
    && FlattenRaw(st.done) + st.pending == lines[..n]
    && (n > 0 <==> |st.pending| > 0)
    && (n == 0 ==> st == SegState(None, 0, [], []))
    && (st.kind.None? ==> st.done == [] && st.start == 0)
    && (|st.pending| > 0 ==> BlockShape(st.done + [RawBlock(st.kind, st.start, st.pending)], |st.done|))
    && Segmentation(st.done)
  }

  lemma BlockShapePrefix(bs: seq<RawBlock>, x: RawBlock, k: nat)
    requires k < |bs| && BlockShape(bs, k)
    ensures BlockShape(bs + [x], k)
  {
    assert (bs + [x])[..k] == bs[..k];
  }

  lemma BlockShapeLast(bs: seq<RawBlock>, x: RawBlock, y: RawBlock)
    requires BlockShape(bs + [x], |bs|)
    requires y.kind == x.kind && y.start == x.start && |y.lines| > |x.lines| && y.lines[..|x.lines|] == x.lines
    requires forall j | |x.lines| <= j < |y.lines| :: Opens(Strip(y.lines[j]), y.kind).None?
    requires y.kind.None? ==> forall j | 0 <= j < |y.lines| :: Opens(Strip(y.lines[j]), None).None?
    ensures BlockShape(bs + [y], |bs|)
  {
    assert (bs + [x])[..|bs|] == bs == (bs + [y])[..|bs|];
    assert y.lines[0] == x.lines[0];
    forall j | 1 <= j < |y.lines| ensures Opens(Strip(y.lines[j]), y.kind).None? {
      if j < |x.lines| {
        assert y.lines[j] == x.lines[j];
      }
    }
  }

  lemma FlattenRawAppend(bs: seq<RawBlock>, x: RawBlock)
    ensures FlattenRaw(bs + [x]) == FlattenRaw(bs) + x.lines
  {
    assert (bs + [x])[..|bs|] == bs;
  }

  /** A header line: the pending block is closed and a new one-line block begins. */
  lemma StepOpens(lines: seq<string>, n: nat, st: SegState, t: BlockType)
    requires 0 < n <= |lines| && ScanInv(lines, n - 1, st)
    requires Opens(Strip(lines[n - 1]), st.kind) == Some(t)
    ensures ScanInv(lines, n, Step(st, n - 1, lines[n - 1]))
  {
    var line := lines[n - 1];
    assert lines[..n] == lines[..n - 1] + [line];
    var nb := RawBlock(Some(t), n, [line]);
    if |st.pending| > 0 {
      var cur := RawBlock(st.kind, st.start, st.pending);
      var done := st.done + [cur];
      forall k | 0 <= k < |done| ensures BlockShape(done, k) {
        if k < |st.done| {
          BlockShapePrefix(st.done, cur, k);
        }
      }
      FlattenRawAppend(st.done, cur);
      assert (done + [nb])[..|done|] == done;
      assert Step(st, n - 1, line) == SegState(Some(t), n, [line], done);
    } else {
      assert st.done == [];
      assert ([] + [nb])[..0] == [];
    }
  }

  /** Any other line joins the pending block. */
  lemma StepJoins(lines: seq<string>, n: nat, st: SegState)
    requires 0 < n <= |lines| && ScanInv(lines, n - 1, st)
    requires Opens(Strip(lines[n - 1]), st.kind).None?
    ensures ScanInv(lines, n, Step(st, n - 1, lines[n - 1]))
  {
    var line := lines[n - 1];
    assert lines[..n] == lines[..n - 1] + [line];
    var nxt := RawBlock(st.kind, st.start, st.pending + [line]);
    if |st.pending| > 0 {
      var cur := RawBlock(st.kind, st.start, st.pending);
      if st.kind.None? {
        assert forall j | 0 <= j < |st.pending| :: Opens(Strip(st.pending[j]), None).None? by {
          assert Opens(Strip(st.pending[0]), None).None?;
        }
      }
      BlockShapeLast(st.done, cur, nxt);
    } else {
      assert st.kind.None? && st.done == [];
      assert ([] + [nxt])[..0] == [];
    }
  }

  lemma {:induction false} ScanInvHolds(lines: seq<string>, n: nat)
    requires n <= |lines|
    ensures ScanInv(lines, n, ScanTo(lines, n))
    decreases n
  {
    if n > 0 {
      ScanInvHolds(lines, n - 1);
      var st := ScanTo(lines, n - 1);
      match Opens(Strip(lines[n - 1]), st.kind) {
        case Some(t) => StepOpens(lines, n, st, t);
        case None => StepJoins(lines, n, st);
      }
    }
  }

  /**
   The blocks partition the input: together they hold every line, blank lines
   and headers included, in order; and each block has the shape BlockShape
   describes.
   */
  lemma BlocksSpec(lines: seq<string>)
    ensures FlattenRaw(Blocks(lines)) == lines
    ensures Segmentation(Blocks(lines))
  {
    var st := ScanTo(lines, |lines|);
    ScanInvHolds(lines, |lines|);
    assert lines[..|lines|] == lines;
    if |st.pending| > 0 {
      FlattenRawAppend(st.done, RawBlock(st.kind, st.start, st.pending));
      forall k | 0 <= k < |Blocks(lines)| ensures BlockShape(Blocks(lines), k) {
        if k < |st.done| {
          BlockShapePrefix(st.done, RawBlock(st.kind, st.start, st.pending), k);
        }
      }
    } else {
      assert Blocks(lines) == st.done;
    }
  }

  lemma {:induction false} FlattenRawPrefix(bs: seq<RawBlock>, m: nat)
    requires m <= |bs|
    ensures |FlattenRaw(bs[..m])| <= |FlattenRaw(bs)|
    ensures FlattenRaw(bs)[..|FlattenRaw(bs[..m])|] == FlattenRaw(bs[..m])
    decreases |bs|
  {
    if m < |bs| {
      var init := bs[..|bs| - 1];
      FlattenRawPrefix(init, m);
      assert init[..m] == bs[..m];
    } else {
      assert bs[..m] == bs;
    }
  }

  /**
   A typed block is the run of input lines that begins at its start number: its
   first line is input line `start` (1-based) and its lines follow on from there.
   */
  lemma BlockIsInputSlice(lines: seq<string>, k: nat)
    requires k < |Blocks(lines)| && Blocks(lines)[k].kind.Some?
    ensures var b := Blocks(lines)[k];
      && 1 <= b.start && b.start - 1 + |b.lines| <= |lines|
      && lines[b.start - 1..b.start - 1 + |b.lines|] == b.lines
  {
    var bs := Blocks(lines);
    BlocksSpec(lines);
    assert BlockShape(bs, k);
    var b := bs[k];
    FlattenRawPrefix(bs, k + 1);
    assert bs[..k + 1][..k] == bs[..k];
    var pre := FlattenRaw(bs[..k]);
    assert FlattenRaw(bs[..k + 1]) == pre + b.lines;
    assert lines[..|pre| + |b.lines|] == pre + b.lines;
    assert lines[|pre|..|pre| + |b.lines|] == (pre + b.lines)[|pre|..];
  }

  /**
   Headers always begin a block: after the first line of a block no line starts
   with "OSPF Router", "Router Link States" or "Summary Net Link States", and a
   later "Link ID" line is only possible inside a ROUTER block. In particular a
   "Router Link States" line starts a fresh ROUTER block even right after another
   router header.
   */
  lemma HeadersBeginBlocks(lines: seq<string>, k: nat, j: nat)
    requires k < |Blocks(lines)| && 1 <= j < |Blocks(lines)[k].lines|
    ensures var t := Strip(Blocks(lines)[k].lines[j]);
      && !StartsWith(t, "OSPF Router") && !StartsWith(t, "Router Link States")
      && !StartsWith(t, "Summary Net Link States")
      && (StartsWith(t, "Link ID") ==> Blocks(lines)[k].kind == Some(RouterType))
  {
    BlocksSpec(lines);
    assert BlockShape(Blocks(lines), k);
  }

  // ---------------------------------------------------------------------------
  // Router blocks
  // ---------------------------------------------------------------------------

  /** There is no router id exactly when no line names a router. */
  lemma {:induction false} LastRouterIdNone(lines: seq<string>)
    requires IdLinesReadable(lines)
    ensures LastRouterId(lines).None? <==> forall k | 0 <= k < |lines| :: !IsIdLine(lines[k])
  {
    if |lines| > 0 && !IsIdLine(lines[|lines| - 1]) {
      var init := lines[..|lines| - 1];
      assert LastRouterId(lines) == LastRouterId(init);
      assert forall k | 0 <= k < |init| :: init[k] == lines[k];
      LastRouterIdNone(init);
    }
  }

  /** The last id line wins: a found id comes from a line naming a router with no such line after it. */
  lemma {:induction false} LastRouterIdLast(lines: seq<string>)
    requires IdLinesReadable(lines)
    ensures LastRouterId(lines).Some? ==> exists k | 0 <= k < |lines| ::
      && IsIdLine(lines[k])
      && LastRouterId(lines).value == StripParens(Split(Strip(lines[k]))[3])
      && forall j | k < j < |lines| :: !IsIdLine(lines[j])
  {
    if |lines| == 0 {
    } else if IsIdLine(lines[|lines| - 1]) {
      var k := |lines| - 1;
      assert LastRouterId(lines).value == StripParens(Split(Strip(lines[k]))[3]);
    } else {
      var init := lines[..|lines| - 1];
      assert LastRouterId(lines) == LastRouterId(init);
      assert forall k | 0 <= k < |init| :: init[k] == lines[k];
      LastRouterIdLast(init);
      if LastRouterId(init).Some? {
        var k :| 0 <= k < |init| && IsIdLine(init[k])
          && LastRouterId(init).value == StripParens(Split(Strip(init[k]))[3])
          && forall j | k < j < |init| :: !IsIdLine(init[j]);
        assert IsIdLine(lines[k]) && forall j | k < j < |lines| :: !IsIdLine(lines[j]);
      }
    }
  }

  lemma {:induction false} TrimParensLeftSpec(s: string)
    ensures |TrimParensLeft(s)| <= |s| && TrimParensLeft(s) == s[|s| - |TrimParensLeft(s)|..]
    ensures |TrimParensLeft(s)| > 0 ==> TrimParensLeft(s)[0] != '(' && TrimParensLeft(s)[0] != ')'
    decreases |s|
  {
    if |s| > 0 && (s[0] == '(' || s[0] == ')') {
      TrimParensLeftSpec(s[1..]);
    }
  }

  lemma {:induction false} TrimParensRightSpec(s: string)
    ensures |TrimParensRight(s)| <= |s| && TrimParensRight(s) == s[..|TrimParensRight(s)|]
    ensures |TrimParensRight(s)| > 0 ==>
      TrimParensRight(s)[|TrimParensRight(s)| - 1] != '(' && TrimParensRight(s)[|TrimParensRight(s)| - 1] != ')'
    decreases |s|
  {
    if |s| > 0 && (s[|s| - 1] == '(' || s[|s| - 1] == ')') {
      TrimParensRightSpec(s[..|s| - 1]);
    }
  }

  /** strip("()") keeps a middle slice of the token, with no parenthesis at either end. */
  lemma StripParensSpec(s: string)
    ensures Contains(s, StripParens(s))
    ensures |StripParens(s)| > 0 ==> StripParens(s)[0] !in "()" && StripParens(s)[|StripParens(s)| - 1] !in "()"
  {
    var l := TrimParensLeft(s);
    TrimParensLeftSpec(s);
    TrimParensRightSpec(l);
    var r := StripParens(s);
    var i := |s| - |l|;
    assert s[i..i + |r|] == l[..|r|] == r;
    assert MatchesAt(s, r, i);
    if |r| > 0 {
      assert r[0] == l[0];
    }
  }

  /** A parenthesised id, as routers print it, comes back without its parentheses. */
  lemma StripParensOfParenthesised(id: string)
    requires |id| > 0 && id[0] !in "()" && id[|id| - 1] !in "()"
    ensures StripParens("(" + id + ")") == id
  {
    var s := "(" + id + ")";
    assert s[1..] == id + ")";
    assert TrimParensLeft(id + ")") == id + ")";
    assert TrimParensLeft(s) == id + ")";
    assert (id + ")")[..|id|] == id;
    assert TrimParensRight(id) == id;
  }

  /** Only lines mentioning "Link connected to" contribute, each once, stripped, in order. */
  lemma {:induction false} ConnectedLinksAppend(a: seq<string>, b: seq<string>)
    ensures ConnectedLinks(a + b) == ConnectedLinks(a) + ConnectedLinks(b)
  {
    if |a| > 0 {
      ConnectedLinksAppend(a[1..], b);
      assert (a + b)[1..] == a[1..] + b;
    } else {
      assert a + b == b;
    }
  }

  /** The number of lines mentioning "Link connected to". */
  function ConnectedCount(lines: seq<string>): nat {
    if |lines| == 0 then 0 else (if Contains(lines[0], "Link connected to") then 1 else 0) + ConnectedCount(lines[1..])
  }

  /** `x` is the strip of some line of `lines` mentioning "Link connected to". */
  predicate FromConnectedLine(lines: seq<string>, x: string) {
    exists j | 0 <= j < |lines| :: Contains(lines[j], "Link connected to") && x == Strip(lines[j])
  }

  /**
   The links are exactly the stripped lines mentioning "Link connected to": one per
   such line, each taken from such a line, and every such line contributes.
   */
  lemma {:induction false} ConnectedLinksSpec(lines: seq<string>)
    ensures |ConnectedLinks(lines)| == ConnectedCount(lines) <= |lines|
    ensures forall k | 0 <= k < |ConnectedLinks(lines)| :: FromConnectedLine(lines, ConnectedLinks(lines)[k])
    ensures forall j | 0 <= j < |lines| :: Contains(lines[j], "Link connected to") ==> Strip(lines[j]) in ConnectedLinks(lines)
  {
    if |lines| > 0 {
      var r := lines[1..];
      ConnectedLinksSpec(r);
      assert lines == [lines[0]] + r;
      ConnectedLinksCons(lines[0], r);
    }
  }

  lemma ConnectedLinksCons(l: string, r: seq<string>)
    requires |ConnectedLinks(r)| == ConnectedCount(r) <= |r|
    requires forall k | 0 <= k < |ConnectedLinks(r)| :: FromConnectedLine(r, ConnectedLinks(r)[k])
    requires forall j | 0 <= j < |r| :: Contains(r[j], "Link connected to") ==> Strip(r[j]) in ConnectedLinks(r)
    ensures var lines := [l] + r;
      && |ConnectedLinks(lines)| == ConnectedCount(lines) <= |lines|
      && (forall k | 0 <= k < |ConnectedLinks(lines)| :: FromConnectedLine(lines, ConnectedLinks(lines)[k]))
      && (forall j | 0 <= j < |lines| :: Contains(lines[j], "Link connected to") ==> Strip(lines[j]) in ConnectedLinks(lines))
  {
    var lines := [l] + r;
    assert lines[0] == l && lines[1..] == r;
    var rest := ConnectedLinks(r);
    var head := if Contains(l, "Link connected to") then [Strip(l)] else [];
    assert ConnectedLinks(lines) == head + rest;
    forall k | 0 <= k < |ConnectedLinks(lines)| ensures FromConnectedLine(lines, ConnectedLinks(lines)[k]) {
      if k < |head| {
        assert ConnectedLinks(lines)[k] == Strip(lines[0]);
      } else {
        assert ConnectedLinks(lines)[k] == rest[k - |head|];
        assert FromConnectedLine(r, rest[k - |head|]);
        var j :| 0 <= j < |r| && Contains(r[j], "Link connected to") && rest[k - |head|] == Strip(r[j]);
        assert lines[j + 1] == r[j];
      }
    }
    forall j | 0 <= j < |lines| && Contains(lines[j], "Link connected to")
      ensures Strip(lines[j]) in ConnectedLinks(lines)
    {
      if j > 0 {
        assert lines[j] == r[j - 1];
        assert Strip(r[j - 1]) in rest;
      }
    }
  }

  /**
   A ROUTER block whose id lines give no truthy id adds exactly one skipped entry
   and no router record; the entry is typed "Router", gives the reason "Missing
   router ID" and lists the block's line numbers from its start, one per line.
   Otherwise exactly one record is added, with area "unknown".
   */
  lemma RouterOutcomeSpec(out: Output, b: RawBlock)
    requires IdLinesReadable(b.lines)
    ensures var o := RouterOutcome(out, b);
      && o.networks == out.networks && o.summaries == out.summaries
      && (|o.skipped| == |out.skipped| + 1 <==> LastRouterId(b.lines).None? || LastRouterId(b.lines) == Some(""))
      && (|o.routers| == |out.routers| + 1 <==> !(LastRouterId(b.lines).None? || LastRouterId(b.lines) == Some("")))
      && (|o.skipped| == |out.skipped| + 1 ==>
            && o.routers == out.routers
            && o.skipped[|out.skipped|].kind == "Router"
            && o.skipped[|out.skipped|].reason == "Missing router ID"
            && |o.skipped[|out.skipped|].lines| == |b.lines|
            && forall i | 0 <= i < |b.lines| :: o.skipped[|out.skipped|].lines[i] == b.start + i)
      && (|o.routers| == |out.routers| + 1 ==>
            && o.skipped == out.skipped
            && o.routers[|out.routers|] == RouterRecord(LastRouterId(b.lines).value, "unknown", ConnectedLinks(b.lines)))
  {
  }

  /** The numbers a skipped ROUTER block lists are its own lines' positions in the input. */
  lemma SkippedLinesAreBlockLines(lines: seq<string>, k: nat)
    requires k < |Blocks(lines)| && Blocks(lines)[k].kind == Some(RouterType)
    ensures var b := Blocks(lines)[k];
      forall i | 0 <= i < |b.lines| :: 1 <= LineRange(b.start, |b.lines|)[i] <= |lines|
        && lines[LineRange(b.start, |b.lines|)[i] - 1] == b.lines[i]
  {
    var b := Blocks(lines)[k];
    BlockIsInputSlice(lines, k);
    forall i | 0 <= i < |b.lines| ensures lines[b.start + i - 1] == b.lines[i] {
      assert lines[b.start - 1..b.start - 1 + |b.lines|][i] == lines[b.start - 1 + i];
    }
  }

  // ---------------------------------------------------------------------------
  // Network and summary blocks
  // ---------------------------------------------------------------------------

  function NonBlankCount(rows: seq<string>): nat {
    if |rows| == 0 then 0 else (if IsBlank(rows[0]) then 0 else 1) + NonBlankCount(rows[1..])
  }

  /** Every non-blank row yields exactly one network record; none is ever skipped. */
  lemma {:induction false} NetworkRowsCount(rows: seq<string>)
    ensures |NetworkRows(rows)| == NonBlankCount(rows)
  {
    if |rows| > 0 {
      NetworkRowsCount(rows[1..]);
    }
  }

  /** Every non-blank row yields exactly one summary record. */
  lemma {:induction false} SummaryRowsCount(rows: seq<string>)
    requires SummaryRowsReadable(rows)
    ensures |SummaryRows(rows)| == NonBlankCount(rows)
  {
    if |rows| > 0 {
      assert SummaryRowsReadable(rows[1..]) by {
        assert forall k | 0 <= k < |rows[1..]| :: rows[1..][k] == rows[k + 1];
      }
      SummaryRowsCount(rows[1..]);
    }
  }

  /** The non-blank rows of a section, in order. */
  function NonBlankRows(rows: seq<string>): seq<string> {
    if |rows| == 0 then [] else (if IsBlank(rows[0]) then [] else [rows[0]]) + NonBlankRows(rows[1..])
  }

  /** The kept rows are non-blank rows of the section, as many as it has. */
  lemma {:induction false} NonBlankRowsSpec(rows: seq<string>)
    ensures |NonBlankRows(rows)| == NonBlankCount(rows)
    ensures forall i | 0 <= i < |NonBlankRows(rows)| :: !IsBlank(NonBlankRows(rows)[i]) && NonBlankRows(rows)[i] in rows
  {
    if |rows| > 0 {
      NonBlankRowsSpec(rows[1..]);
      var head := if IsBlank(rows[0]) then [] else [rows[0]];
      var rest := NonBlankRows(rows[1..]);
      forall i | 0 <= i < |NonBlankRows(rows)|
        ensures !IsBlank(NonBlankRows(rows)[i]) && NonBlankRows(rows)[i] in rows
      {
        if i >= |head| {
          assert NonBlankRows(rows)[i] == rest[i - |head|];
          assert rest[i - |head|] in rows[1..];
        }
      }
    }
  }

  /** The i-th network record is read from the i-th non-blank row: blank rows are skipped and nothing else is. */
  lemma {:induction false} NetworkRowsByRow(rows: seq<string>)
    ensures |NetworkRows(rows)| == |NonBlankRows(rows)|
    ensures forall i | 0 <= i < |NetworkRows(rows)| :: NetworkRows(rows)[i] == NetworkOf(NonBlankRows(rows)[i])
  {
    if |rows| > 0 {
      var r := rows[1..];
      NetworkRowsByRow(r);
      var out, kept := NetworkRows(r), NonBlankRows(r);
      if IsBlank(rows[0]) {
        assert NetworkRows(rows) == out && NonBlankRows(rows) == kept;
      } else {
        assert NetworkRows(rows) == [NetworkOf(rows[0])] + out;
        assert NonBlankRows(rows) == [rows[0]] + kept;
        forall i | 1 <= i < |NetworkRows(rows)| ensures NetworkRows(rows)[i] == NetworkOf(NonBlankRows(rows)[i]) {
          assert NetworkRows(rows)[i] == out[i - 1];
          assert NonBlankRows(rows)[i] == kept[i - 1];
        }
      }
    }
  }

  /** The i-th summary record is read from the i-th non-blank row. */
  lemma {:induction false} SummaryRowsByRow(rows: seq<string>)
    requires SummaryRowsReadable(rows)
    ensures forall i | 0 <= i < |NonBlankRows(rows)| :: SummaryRowReadable(NonBlankRows(rows)[i])
    ensures |SummaryRows(rows)| == |NonBlankRows(rows)|
    ensures forall i | 0 <= i < |SummaryRows(rows)| :: SummaryRows(rows)[i] == SummaryOf(NonBlankRows(rows)[i])
  {
    NonBlankRowsSpec(rows);
    if |rows| > 0 {
      var r := rows[1..];
      assert SummaryRowsReadable(r) by {
        assert forall k | 0 <= k < |r| :: r[k] == rows[k + 1];
      }
      SummaryRowsByRow(r);
      var out, kept := SummaryRows(r), NonBlankRows(r);
      if IsBlank(rows[0]) {
        assert SummaryRows(rows) == out && NonBlankRows(rows) == kept;
      } else {
        assert SummaryRows(rows) == [SummaryOf(rows[0])] + out;
        assert NonBlankRows(rows) == [rows[0]] + kept;
        forall i | 1 <= i < |SummaryRows(rows)| ensures SummaryRows(rows)[i] == SummaryOf(NonBlankRows(rows)[i]) {
          assert SummaryRows(rows)[i] == out[i - 1];
          assert NonBlankRows(rows)[i] == kept[i - 1];
        }
      }
    }
  }

  /**
   A summary section whose rows all have fewer than six tokens reads as one
   ("Link", "ID", 20) placeholder per non-blank row.
   */
  lemma {:induction false} SummaryFallbackRows(rows: seq<string>)
    requires forall k | 0 <= k < |rows| :: !IsBlank(rows[k]) ==> |Split(Strip(rows[k]))| < 6
    ensures SummaryRowsReadable(rows)
    ensures SummaryRows(rows) == seq(NonBlankCount(rows), i => SummaryRecord("Link", "ID", 20))
  {
    if |rows| > 0 {
      assert forall k | 0 <= k < |rows[1..]| :: rows[1..][k] == rows[k + 1];
      SummaryFallbackRows(rows[1..]);
    }
  }

  /** Two tokens written on a row read back as that network record. */
  lemma NetworkRowRoundTrip(net: string, attached: string)
    requires IsToken(net) && IsToken(attached)
    ensures NetworkOf(net + " " + attached) == NetworkRecord(net, attached)
  {
    var row := net + " " + attached;
    JoinCons(net, [attached]);
    SplitJoin([net, attached]);
    StripUnpadded(row);
  }

  /**
   A summary row with six or more tokens reads back its first two tokens and the
   integer written last; with fewer it reads ("Link", "ID", 20).
   */
  lemma SummaryRowRoundTrip(ts: seq<string>, metric: int)
    requires forall k | 0 <= k < |ts| :: IsToken(ts[k])
    requires |ts| >= 5
    ensures SummaryRowReadable(Join(ts + [IntToString(metric)]))
    ensures SummaryOf(Join(ts + [IntToString(metric)])) == SummaryRecord(ts[0], ts[1], metric)
  {
    var last := IntToString(metric);
    var all := ts + [last];
    IntToStringIsToken(metric);
    SplitJoin(all);
    JoinStripped(all);
    ParseIntRoundTrip(metric);
  }

  lemma IntToStringIsToken(i: int)
    ensures IsToken(IntToString(i))
  {
    if i < 0 {
      NatToStringRoundTrip(-i);
      NegDigitsNoSpace(NatToString(-i));
    } else {
      NatToStringRoundTrip(i);
      DigitsNoSpace(NatToString(i));
    }
  }

  // ---------------------------------------------------------------------------
  // The output document
  // ---------------------------------------------------------------------------

  /** The document has exactly the four keys, each holding one entry per record. */
  lemma OutputShape(out: Output)
    ensures Keys(ToJson(out).fields) == ["router_lsas", "network_lsas", "summary_lsas", "skipped_lsas"]
    ensures Lookup(ToJson(out).fields, "router_lsas").value.List? && |Lookup(ToJson(out).fields, "router_lsas").value.items| == |out.routers|
    ensures Lookup(ToJson(out).fields, "network_lsas").value.List? && |Lookup(ToJson(out).fields, "network_lsas").value.items| == |out.networks|
    ensures Lookup(ToJson(out).fields, "summary_lsas").value.List? && |Lookup(ToJson(out).fields, "summary_lsas").value.items| == |out.summaries|
    ensures Lookup(ToJson(out).fields, "skipped_lsas").value.List? && |Lookup(ToJson(out).fields, "skipped_lsas").value.items| == |out.skipped|
  {
    var j := ToJson(out);
    SectionFields(j.fields[0].val, j.fields[1].val, j.fields[2].val, j.fields[3].val);
    assert j.fields == [Field("router_lsas", j.fields[0].val), Field("network_lsas", j.fields[1].val),
                        Field("summary_lsas", j.fields[2].val), Field("skipped_lsas", j.fields[3].val)];
  }

  /** The four sections of the document, looked up by name. */
  lemma SectionFields(r: Value, n: Value, s: Value, k: Value)
    ensures var fs := [Field("router_lsas", r), Field("network_lsas", n), Field("summary_lsas", s), Field("skipped_lsas", k)];
      && Keys(fs) == ["router_lsas", "network_lsas", "summary_lsas", "skipped_lsas"]
      && Lookup(fs, "router_lsas") == Some(r)
      && Lookup(fs, "network_lsas") == Some(n)
      && Lookup(fs, "summary_lsas") == Some(s)
      && Lookup(fs, "skipped_lsas") == Some(k)
  {
    var fs := [Field("router_lsas", r), Field("network_lsas", n), Field("summary_lsas", s), Field("skipped_lsas", k)];
    assert Keys(fs) == ["router_lsas", "network_lsas", "summary_lsas", "skipped_lsas"] by {
      assert fs[1..][1..][1..] == [fs[3]];
    }
    SectionFieldsFound(r, n, s, k);
  }

  lemma SectionFieldsFound(r: Value, n: Value, s: Value, k: Value)
    ensures var fs := [Field("router_lsas", r), Field("network_lsas", n), Field("summary_lsas", s), Field("skipped_lsas", k)];
      && Lookup(fs, "router_lsas") == Some(r)
      && Lookup(fs, "network_lsas") == Some(n)
      && Lookup(fs, "summary_lsas") == Some(s)
      && Lookup(fs, "skipped_lsas") == Some(k)
  {
    var fs := [Field("router_lsas", r), Field("network_lsas", n), Field("summary_lsas", s), Field("skipped_lsas", k)];
    var t1 := [Field("network_lsas", n), Field("summary_lsas", s), Field("skipped_lsas", k)];
    var t2 := [Field("summary_lsas", s), Field("skipped_lsas", k)];
    var t3 := [Field("skipped_lsas", k)];
    assert fs[1..] == t1 && t1[1..] == t2 && t2[1..] == t3;
    assert "router_lsas"[0] == 'r' && "network_lsas"[0] == 'n' && "summary_lsas"[1] == 'u' && "skipped_lsas"[1] == 'k';
    assert Lookup(t2, "skipped_lsas") == Lookup(t3, "skipped_lsas");
    assert Lookup(t1, "skipped_lsas") == Lookup(t2, "skipped_lsas");
    assert Lookup(t1, "summary_lsas") == Lookup(t2, "summary_lsas");
  }

  // ---------------------------------------------------------------------------
  // A summary section with its column header
  // ---------------------------------------------------------------------------

  lemma SummaryHeaderOpens(t: string)
    requires StartsWith(t, "Summary Net Link States")
    ensures Opens(t, None) == Some(SummaryType)
  {
    assert t[0] == t[..23][0] == 'S';
  }

  lemma ColumnLineOpens(t: string)
    requires StartsWith(t, "Link ID")
    ensures Opens(t, Some(SummaryType)) == Some(NetworkType)
  {
    assert t[0] == t[..7][0] == 'L';
  }

  lemma {:induction false} SummarySectionScan(h: string, c: string, rows: seq<string>, m: nat)
    requires Opens(Strip(h), None) == Some(SummaryType)
    requires Opens(Strip(c), Some(SummaryType)) == Some(NetworkType)
    requires forall k | 0 <= k < |rows| :: Opens(Strip(rows[k]), Some(NetworkType)).None?
    requires m <= |rows|
    ensures ScanTo([h, c] + rows, 2 + m)
      == SegState(Some(NetworkType), 2, [c] + rows[..m], [RawBlock(Some(SummaryType), 1, [h])])
  {
    var lines := [h, c] + rows;
    if m == 0 {
      assert ScanTo(lines, 1) == SegState(Some(SummaryType), 1, [h], []);
    } else {
      SummarySectionScan(h, c, rows, m - 1);
      assert lines[2 + m - 1] == rows[m - 1];
      assert rows[..m] == rows[..m - 1] + [rows[m - 1]];
    }
  }

  /**
   The column line "Link ID ..." that follows a "Summary Net Link States" header
   opens a NETWORK block, because only a ROUTER block keeps such a line: the
   SUMMARY block is left with its header alone and the summary rows are read as
   network records.
   */
  lemma SummaryRowsBecomeNetworks(h: string, c: string, rows: seq<string>)
    requires StartsWith(Strip(h), "Summary Net Link States")
    requires StartsWith(Strip(c), "Link ID")
    requires forall k | 0 <= k < |rows| :: Opens(Strip(rows[k]), Some(NetworkType)).None?
    ensures Blocks([h, c] + rows) == [RawBlock(Some(SummaryType), 1, [h]), RawBlock(Some(NetworkType), 2, [c] + rows)]
    ensures Readable([h, c] + rows)
    ensures Parse([h, c] + rows) == Output([], NetworkRows(rows), [], [])
  {
    SummaryHeaderOpens(Strip(h));
    ColumnLineOpens(Strip(c));
    SummarySectionBlocks(h, c, rows);
    ProcessSummaryThenNetwork(h, c, rows);
  }

  lemma SummarySectionBlocks(h: string, c: string, rows: seq<string>)
    requires Opens(Strip(h), None) == Some(SummaryType)
    requires Opens(Strip(c), Some(SummaryType)) == Some(NetworkType)
    requires forall k | 0 <= k < |rows| :: Opens(Strip(rows[k]), Some(NetworkType)).None?
    ensures Blocks([h, c] + rows) == [RawBlock(Some(SummaryType), 1, [h]), RawBlock(Some(NetworkType), 2, [c] + rows)]
  {
    SummarySectionScan(h, c, rows, |rows|);
    assert rows[..|rows|] == rows;
  }

  lemma ProcessSummaryThenNetwork(h: string, c: string, rows: seq<string>)
    ensures var bs := [RawBlock(Some(SummaryType), 1, [h]), RawBlock(Some(NetworkType), 2, [c] + rows)];
      && (forall k | 0 <= k < |bs| :: BlockReadable(bs[k]))
      && ProcessBlocks(Output([], [], [], []), bs) == Output([], NetworkRows(rows), [], [])
  {
    var b1 := RawBlock(Some(SummaryType), 1, [h]);
    var b2 := RawBlock(Some(NetworkType), 2, [c] + rows);
    assert Tail(b1.lines) == [];
    assert Tail(b2.lines) == rows;
    var o0 := Output([], [], [], []);
    var o2 := Output([], NetworkRows(rows), [], []);
    assert ProcessBlock(o0, b1) == o0;
    assert ProcessBlock(o0, b2) == o2;
    assert [b1, b2][1..] == [b2];
    assert [b2][1..] == [];
    assert ProcessBlocks(o2, []) == o2;
    assert ProcessBlocks(o0, [b2]) == o2;
  }

  /**
   A block without a type (the lines before the first header) matches no
   branch of `_process_block`: it adds no record, and the blocks after it are
   processed as if it were not there.
   */
  lemma UntypedBlockIgnored(out: Output, start: nat, ls: seq<string>, bs: seq<RawBlock>)
    requires forall k | 0 <= k < |bs| :: BlockReadable(bs[k])
    ensures BlockReadable(RawBlock(None, start, ls))
    ensures ProcessBlock(out, RawBlock(None, start, ls)) == out
    ensures ProcessBlocks(out, [RawBlock(None, start, ls)] + bs) == ProcessBlocks(out, bs)
  {
    assert ([RawBlock(None, start, ls)] + bs)[1..] == bs;
  }
}
