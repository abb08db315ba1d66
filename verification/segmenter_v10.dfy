/**
 Block segmentation of the v1.10 parser (ospf_parser.py, OspfParser.parse).

 Lines are stripped; blank lines are ignored. A line is a header when it contains,
 ignoring case, one of the patterns of the header table; the table is consulted
 in the order router, network, summary and the first type with a matching
 pattern wins. A header closes the pending block and opens a new one whose first
 line is the header itself; any other line joins the pending block, or is dropped
 when no header has been seen yet. The pending block is closed at end of input.
 */
module SegmenterV10 {
  import opened Wrappers
  import opened Text

  datatype LsaType = Router | Network | Summary

  /** A stripped, non-blank input line with its 1-based line number. */
  datatype NumberedLine = NumberedLine(lineno: nat, text: string)

  datatype Block = Block(kind: LsaType, lines: seq<NumberedLine>)

  datatype HeaderRow = HeaderRow(kind: LsaType, patterns: seq<string>)

  /** The header dictionary, in its iteration order, as written in the source. */
  const HeaderTable: seq<HeaderRow> := [
    HeaderRow(Router, ["OSPF Router with ID", "Router Link States"]),
    HeaderRow(Network, ["Network Link States", "Net Link States", "Network LSAs"]),
    HeaderRow(Summary, ["Summary Net Link States", "Summary Net LSAs"])
  ]

  /** The same patterns after `p.lower()`. */
  const RouterKeys: seq<string> := ["ospf router with id", "router link states"]
  const NetworkKeys: seq<string> := ["network link states", "net link states", "network lsas"]
  const SummaryKeys: seq<string> := ["summary net link states", "summary net lsas"]
  const LoweredTable: seq<HeaderRow> :=
    [HeaderRow(Router, RouterKeys), HeaderRow(Network, NetworkKeys), HeaderRow(Summary, SummaryKeys)]

  /** Row `l` is row `h` with every pattern lower-cased. */
  predicate RowLowered(l: HeaderRow, h: HeaderRow) {
    && l.kind == h.kind
    && |l.patterns| == |h.patterns|
    && forall k | 0 <= k < |h.patterns| :: l.patterns[k] == Lower(h.patterns[k])
  }

  lemma RouterRowLowered()
    ensures RowLowered(LoweredTable[0], HeaderTable[0])
  {
    assert Lower("OSPF Router with ID") == "ospf router with id";
    assert Lower("Router Link States") == "router link states";
  }

  lemma NetworkRowLowered()
    ensures RowLowered(LoweredTable[1], HeaderTable[1])
  {
    assert Lower("Network Link States") == "network link states";
    assert Lower("Net Link States") == "net link states";
    assert Lower("Network LSAs") == "network lsas";
  }

  lemma SummaryRowLowered()
    ensures RowLowered(LoweredTable[2], HeaderTable[2])
  {
    assert Lower("Summary Net Link States") == "summary net link states";
    assert Lower("Summary Net LSAs") == "summary net lsas";
  }

  /** LoweredTable is HeaderTable with every pattern lower-cased. */
  lemma LoweredTableIsLowered()
    ensures |LoweredTable| == |HeaderTable|
    ensures forall i | 0 <= i < |HeaderTable| ::
      && LoweredTable[i].kind == HeaderTable[i].kind
      && |LoweredTable[i].patterns| == |HeaderTable[i].patterns|
      && forall k | 0 <= k < |HeaderTable[i].patterns| :: LoweredTable[i].patterns[k] == Lower(HeaderTable[i].patterns[k])
  {
    RouterRowLowered();
    NetworkRowLowered();
    SummaryRowLowered();
    assert forall i | 0 <= i < |HeaderTable| :: RowLowered(LoweredTable[i], HeaderTable[i]);
  }

  /** Some (already lower-cased) pattern occurs in the lower-cased line `t`. */
  predicate MatchesAny(t: string, ps: seq<string>) {
    exists k | 0 <= k < |ps| :: Contains(t, ps[k])
  }

  /** The type of the first row of `table` that has a pattern occurring in `t`. */
  function FirstMatch(t: string, table: seq<HeaderRow>): Option<LsaType> {
    if |table| == 0 then None
    else if MatchesAny(t, table[0].patterns) then Some(table[0].kind)
    else FirstMatch(t, table[1..])
  }

  /** FirstMatch answers the kind of the earliest row with a matching pattern, and nothing when no row matches. */
  lemma {:induction false} FirstMatchSpec(t: string, table: seq<HeaderRow>)
    ensures FirstMatch(t, table).None? <==> forall i | 0 <= i < |table| :: !MatchesAny(t, table[i].patterns)
    ensures FirstMatch(t, table).Some? ==> exists i | 0 <= i < |table| ::
      && table[i].kind == FirstMatch(t, table).value
      && MatchesAny(t, table[i].patterns)
      && forall j | 0 <= j < i :: !MatchesAny(t, table[j].patterns)
  {
    if |table| > 0 && !MatchesAny(t, table[0].patterns) {
      FirstMatchSpec(t, table[1..]);
      assert forall i | 1 <= i < |table| :: table[i] == table[1..][i - 1];
      if FirstMatch(t, table).Some? {
        var i :| 0 <= i < |table[1..]| && table[1..][i].kind == FirstMatch(t, table).value
          && MatchesAny(t, table[1..][i].patterns)
          && forall j | 0 <= j < i :: !MatchesAny(t, table[1..][j].patterns);
        assert table[i + 1] == table[1..][i];
        assert forall j | 1 <= j < i + 1 :: table[j] == table[1..][j - 1];
      }
    }
  }

  /** Header classification of a stripped line: `p.lower() in line.lower()`, row by row. */
  function Classify(s: string): Option<LsaType> {
    FirstMatch(Lower(s), LoweredTable)
  }

  /** The first matching type wins, in the order router, network, summary. */
  lemma ClassifySpec(s: string)
    ensures Classify(s) == Some(Router) <==> MatchesAny(Lower(s), RouterKeys)
    ensures Classify(s) == Some(Network) <==> !MatchesAny(Lower(s), RouterKeys) && MatchesAny(Lower(s), NetworkKeys)
    ensures Classify(s) == Some(Summary) <==>
      !MatchesAny(Lower(s), RouterKeys) && !MatchesAny(Lower(s), NetworkKeys) && MatchesAny(Lower(s), SummaryKeys)
    ensures Classify(s).None? <==>
      !MatchesAny(Lower(s), RouterKeys) && !MatchesAny(Lower(s), NetworkKeys) && !MatchesAny(Lower(s), SummaryKeys)
  {
    var t := Lower(s);
    var tbl := LoweredTable;
    assert tbl[1..] == [HeaderRow(Network, NetworkKeys), HeaderRow(Summary, SummaryKeys)];
    assert tbl[1..][1..] == [HeaderRow(Summary, SummaryKeys)];
    assert tbl[1..][1..][1..] == [];
    assert FirstMatch(t, tbl[1..][1..][1..]) == None;
    assert FirstMatch(t, tbl[1..][1..]) == if MatchesAny(t, SummaryKeys) then Some(Summary) else None;
    assert FirstMatch(t, tbl[1..]) ==
      if MatchesAny(t, NetworkKeys) then Some(Network) else FirstMatch(t, tbl[1..][1..]);
    assert FirstMatch(t, tbl) == if MatchesAny(t, RouterKeys) then Some(Router) else FirstMatch(t, tbl[1..]);
  }

  /** A line that "Summary Net Link States" occurs in (any case) is never a summary header: the network pattern "Net Link States" is tried first. */
  lemma SummaryLinkStatesHeaderIsNotSummary(s: string)
    requires ContainsCI(s, "Summary Net Link States")
    ensures Classify(s) != Some(Summary)
    ensures Classify(s) == Some(Network) || Classify(s) == Some(Router)
  {
    SummaryPhraseHasNetPattern(s);
    ClassifySpec(s);
  }

  /** "Summary Net Link States" contains the network pattern "net link states". */
  lemma SummaryPhraseHasNetPattern(s: string)
    requires ContainsCI(s, "Summary Net Link States")
    ensures MatchesAny(Lower(s), NetworkKeys)
  {
    var t := "summary net link states";
    assert Contains(Lower(s), t) by {
      SummaryRowLowered();
      assert Lower(HeaderTable[2].patterns[0]) == LoweredTable[2].patterns[0];
    }
    assert Contains(t, "net link states") by {
      assert t[8..23] == "net link states";
      assert MatchesAt(t, "net link states", 8);
    }
    ContainsTrans(Lower(s), t, "net link states");
    assert NetworkKeys[1] == "net link states";
  }

  predicate IsHeaderLine(raw: string) {
    Classify(Strip(raw)).Some?
  }

  lemma BlankIsNotHeader(raw: string)
    requires Strip(raw) == ""
    ensures !IsHeaderLine(raw)
  {
    assert Lower(Strip(raw)) == "";
    NothingInEmpty(RouterKeys);
    NothingInEmpty(NetworkKeys);
    NothingInEmpty(SummaryKeys);
    ClassifySpec(Strip(raw));
  }

  lemma NothingInEmpty(ps: seq<string>)
    requires forall k | 0 <= k < |ps| :: |ps[k]| > 0
    ensures !MatchesAny("", ps)
  {
  }

  /** The segmenter's state: the pending block (if a header has been seen) and the closed blocks. */
  datatype ScanState = ScanState(open: Option<Block>, done: seq<Block>)

  function Pending(st: ScanState): seq<Block> {
    if st.open.Some? then [st.open.value] else []
  }

  /** One iteration of the loop over input lines. */
  function Step(st: ScanState, lineno: nat, raw: string): ScanState {
    var text := Strip(raw);
    if text == "" then st
    else
      match Classify(text)
      case Some(k) => ScanState(Some(Block(k, [NumberedLine(lineno, text)])), st.done + Pending(st))
      case None =>
        if st.open.Some? then
          ScanState(Some(st.open.value.(lines := st.open.value.lines + [NumberedLine(lineno, text)])), st.done)
        else st
  }

  /** The state after the first `n` lines. */
  function ScanTo(lines: seq<string>, n: nat): ScanState
    requires n <= |lines|
  {
    if n == 0 then ScanState(None, []) else Step(ScanTo(lines, n - 1), n, lines[n - 1])
  }

  /** The blocks in the order they are handed to block processing. */
  function Segment(lines: seq<string>): seq<Block> {
    var st := ScanTo(lines, |lines|);
    st.done + Pending(st)
  }

  function Flatten(bs: seq<Block>): seq<NumberedLine> {
    if |bs| == 0 then [] else Flatten(bs[..|bs| - 1]) + bs[|bs| - 1].lines
  }

  /** Reference: the stripped non-blank lines with index in [lo, hi), numbered from 1. */
  function Kept(lines: seq<string>, lo: nat, hi: nat): (r: seq<NumberedLine>)
    requires lo <= hi <= |lines|
    ensures forall k | 0 <= k < |r| :: lo < r[k].lineno <= hi
    ensures forall k | 0 <= k < |r| :: r[k].text == Strip(lines[r[k].lineno - 1]) && r[k].text != ""
    ensures forall k, m | 0 <= k < m < |r| :: r[k].lineno < r[m].lineno
    decreases hi - lo
  {
    if hi == lo then []
    else
      var text := Strip(lines[hi - 1]);
      Kept(lines, lo, hi - 1) + (if text == "" then [] else [NumberedLine(hi, text)])
  }

  predicate IsFirstHeader(lines: seq<string>, h: nat) {
    && h < |lines|
    && IsHeaderLine(lines[h])
    && forall j | 0 <= j < h :: !IsHeaderLine(lines[j])
  }

  /** A block as the segmenter builds it: headed by a line of its own type, with no further header inside. */
  predicate WellFormedBlock(b: Block) {
    && |b.lines| > 0
    && Classify(b.lines[0].text) == Some(b.kind)
    && forall j | 1 <= j < |b.lines| :: Classify(b.lines[j].text).None?
  }

  lemma {:induction false} ScanBeforeHeader(lines: seq<string>, n: nat)
    requires n <= |lines|
    requires forall j | 0 <= j < n :: !IsHeaderLine(lines[j])
    ensures ScanTo(lines, n) == ScanState(None, [])
  {
    if n > 0 {
      ScanBeforeHeader(lines, n - 1);
    }
  }

  lemma {:induction false} ScanKept(lines: seq<string>, h: nat, n: nat)
    requires IsFirstHeader(lines, h) && h < n <= |lines|
    ensures ScanTo(lines, n).open.Some?
    ensures Flatten(ScanTo(lines, n).done) + ScanTo(lines, n).open.value.lines == Kept(lines, h, n)
    decreases n
  {
    var st := ScanTo(lines, n);
    if n == h + 1 {
      ScanBeforeHeader(lines, h);
      BlankIsNotHeaderContra(lines[h]);
    } else {
      ScanKept(lines, h, n - 1);
      var prev := ScanTo(lines, n - 1);
      var text := Strip(lines[n - 1]);
      if text != "" && Classify(text).Some? {
        assert st.done == prev.done + [prev.open.value];
        assert Flatten(st.done) == Flatten(prev.done) + prev.open.value.lines by {
          assert st.done[..|st.done| - 1] == prev.done;
        }
      }
    }
  }

  lemma BlankIsNotHeaderContra(raw: string)
    requires IsHeaderLine(raw)
    ensures Strip(raw) != ""
  {
    if Strip(raw) == "" {
      BlankIsNotHeader(raw);
    }
  }

  /** Without any header line, nothing reaches a block. */
  lemma SegmentWithoutHeader(lines: seq<string>)
    requires forall j | 0 <= j < |lines| :: !IsHeaderLine(lines[j])
    ensures Segment(lines) == []
  {
    ScanBeforeHeader(lines, |lines|);
  }

  /**
   The blocks hold, in input order, exactly the stripped non-blank lines from the
   first header on: blank lines and the lines before the first header reach no block.
   */
  lemma SegmentKeepsFromFirstHeader(lines: seq<string>, h: nat)
    requires IsFirstHeader(lines, h)
    ensures Flatten(Segment(lines)) == Kept(lines, h, |lines|)
    ensures forall k | 0 <= k < |Flatten(Segment(lines))| :: Flatten(Segment(lines))[k].lineno > h
  {
    var st := ScanTo(lines, |lines|);
    ScanKept(lines, h, |lines|);
    var bs := st.done + [st.open.value];
    assert bs[..|bs| - 1] == st.done;
  }

  lemma {:induction false} ScanWellFormed(lines: seq<string>, n: nat)
    requires n <= |lines|
    ensures forall b | b in ScanTo(lines, n).done :: WellFormedBlock(b)
    ensures ScanTo(lines, n).open.Some? ==> WellFormedBlock(ScanTo(lines, n).open.value)
  {
    if n > 0 {
      ScanWellFormed(lines, n - 1);
    }
  }

  /** Every block starts with a header of its own type and holds no other header. */
  lemma SegmentWellFormed(lines: seq<string>)
    ensures forall b | b in Segment(lines) :: WellFormedBlock(b)
  {
    ScanWellFormed(lines, |lines|);
  }
}
