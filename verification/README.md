# PathProbe OSPF tools in Dafny

This project models the three core scripts of the PathProbe OSPF toolchain and
proves properties of them:

- `ospf_parser.py` (v1.10). It reads a `show ip ospf database` dump. A line
  that holds one of the header phrases opens a Router, Network or Summary
  block; matching ignores case and the first match wins, in that order. Lines
  before the first header are dropped. A router block yields one Router LSA:
  the router id comes from the first `OSPF Router with ID` line, the area from
  the first `Router Link States (Area n)` line, and there is one link per row
  of two or more tokens. Network and Summary blocks yield one record per data
  row. Every malformed block or row is reported. In interactive mode the
  parser then asks whether to skip or abort.
- `ospf_parser_v1.11.py`. Here a prefix-driven state machine cuts the raw
  lines into typed blocks. Each block type is read with fixed fallback values,
  and a router block without an id is recorded under `skipped_lsas` with its
  line numbers.
- The graph half of `ospf_html_v1.14.py`:
  - `_normalize_schema` rewrites the parser keys into the keys the generator
    reads;
  - `add_nodes`, `create_ghost_node`, `get_node` and `add_edges` build the
    node registry and the edges. Missing ids become `vNode<n>` ghost nodes.

Files:

| file | contents |
|---|---|
| `text.dfy` | `Wrappers` (Option) and `Text`: Python's `strip`, `split`, `lower`, `in`, `startswith`, `isdigit` and `str` on the ASCII range, `int` on ASCII decimal literals with an optional sign and single underscores between digits, each with its defining properties (split/join round trip, `int(str(i)) == i`). |
| `json.dfy` | `JsonValue`: the JSON/Python value model (dicts as ordered key lists), truthiness, `dict.get`, item assignment, `repr` and `str`. |
| `segmenter_v10.dfy` | `SegmenterV10`: v1.10 header classification and block segmentation. |
| `parser_v10.dfy` | `ParserV10` / `ParserV10Facts`: v1.10 record extraction, the skip/abort prompt, the exported document. |
| `parser_v11.dfy` | `ParserV11` / `ParserV11Facts`: the v1.11 state machine, block readers and output document. |
| `normalizer.dfy` | `Normalizer` / `NormalizerFacts`: `_normalize_schema`. |
| `graph.dfy` | `GraphBuilder` / `GraphFacts`: the node registry, ghosts and edges. |
| `ghost_counts.dfy` | `GhostCounts`: how many ghosts `add_edges` makes, as bounds and exact counts. |
| `pipeline.dfy` | `Pipeline`: what the graph builder reads from each parser's document, and the graph drawn from a dump. |

The environment becomes parameters:

- The lines of the input file are a `seq<string>`.
- The interactive prompt is a `Prompt` whose k-th answer is a given string.
- An abort answer sets an `aborted` flag in place of `sys.exit(1)`.
- The pyvis `add_node` and `add_edge` calls become appends to a node list and
  an edge list.

Identifiers in the graph builder are strings. The empty string stands for
every falsy id (`None`, `""`, `0`, `False`), all of which the generator
treats alike.

Python exceptions the scripts do not catch become preconditions; each appears
below. Three examples:

- `int()` of a malformed last column in a v1.11 summary row;
- iterating a section that is not a list;
- `.get` on a non-dict entry.

## Model

| member | source | states |
|---|---|---|
| Text.StripSpec | Documents/Automate/GIT_FOLDER/pathprobe/ospf_parser.py:72-74 | `strip()` gives the empty string exactly on blank lines, and otherwise starts and ends with a non-space, so only blank lines are dropped |
| Text.TrimLeftSpec | Documents/Automate/GIT_FOLDER/pathprobe/ospf_parser.py:72 | the left trim is the suffix after a run of whitespace, starting at a non-space |
| Text.TrimRightSpec | Documents/Automate/GIT_FOLDER/pathprobe/ospf_parser.py:72 | the right trim is the prefix before a run of whitespace, ending at a non-space |
| Text.StripIdempotent | Documents/Automate/GIT_FOLDER/pathprobe/ospf_parser_v1.11.py:27 | stripping a stripped line changes nothing |
| Text.SplitTokens | Documents/Automate/GIT_FOLDER/pathprobe/ospf_parser.py:137 | every token `split()` yields is non-empty and free of whitespace |
| Text.SplitEmptyIffBlank | Documents/Automate/GIT_FOLDER/pathprobe/ospf_parser.py:137-138 | a line has no tokens exactly when it is blank |
| Text.TakeWordSpec | Documents/Automate/GIT_FOLDER/pathprobe/ospf_parser.py:137 | the first word is the maximal leading run of non-space characters |
| Text.SplitJoin | Documents/Automate/GIT_FOLDER/pathprobe/ospf_parser.py:137 | `split()` inverts joining space-free tokens with single spaces |
| Text.SplitLeadingToken | Documents/Automate/GIT_FOLDER/pathprobe/ospf_parser.py:137 | a token followed by whitespace is the first word `split()` yields |
| Text.JoinStripped | Documents/Automate/GIT_FOLDER/pathprobe/ospf_parser.py:72 | a line made of tokens joined by spaces is its own `strip()` |
| Text.LowerAppend | Documents/Automate/GIT_FOLDER/pathprobe/ospf_parser.py:79 | lower-casing distributes over concatenation |
| Text.ContainsTrans | Documents/Automate/GIT_FOLDER/pathprobe/ospf_parser.py:79 | a substring of a substring is a substring |
| Text.MissingCharNotContained | Documents/Automate/GIT_FOLDER/pathprobe/ospf_parser.py:135 | a phrase holding a character the line lacks is not `in` the line |
| Text.ContainsNotBlank | Documents/Automate/GIT_FOLDER/pathprobe/ospf_parser.py:73-79 | a line containing a header phrase is never blank |
| Text.NatToStringRoundTrip | Documents/Automate/GIT_FOLDER/pathprobe/ospf_html_v1.14.py:113 | the decimal text of the ghost counter is a digit string that reads back as the counter |
| Text.NatToStringInjective | Documents/Automate/GIT_FOLDER/pathprobe/ospf_html_v1.14.py:113 | different counters print differently |
| Text.ParseIntRoundTrip | Documents/Automate/GIT_FOLDER/pathprobe/ospf_parser_v1.11.py:110 | `int(str(i)) == i` for every integer |
| Text.ParseIntSeparated | Documents/Automate/GIT_FOLDER/pathprobe/ospf_parser_v1.11.py:110 | `int()` accepts an underscore between digits: "1_000" reads as 1000 |
| Text.ParseIntBadSeparators | Documents/Automate/GIT_FOLDER/pathprobe/ospf_parser_v1.11.py:110 | `int()` rejects a doubled, leading or trailing underscore |
| Text.ParseSignedDigits | Documents/Automate/GIT_FOLDER/pathprobe/ospf_parser.py:140 | `int()` of an `isdigit()` string is its decimal value |
| JsonValue.Lookup | Documents/Automate/GIT_FOLDER/pathprobe/ospf_html_v1.14.py:33 | a key is found exactly when the dict has it, and the value found is stored under it |
| JsonValue.SetFound | Documents/Automate/GIT_FOLDER/pathprobe/ospf_html_v1.14.py:47 | after item assignment the key holds the assigned value |
| JsonValue.SetOther | Documents/Automate/GIT_FOLDER/pathprobe/ospf_html_v1.14.py:47 | item assignment leaves every other key's value alone |
| JsonValue.SetKeys | Documents/Automate/GIT_FOLDER/pathprobe/ospf_html_v1.14.py:47 | item assignment keeps an existing key's position and appends a new key last |
| JsonValue.SetExisting | Documents/Automate/GIT_FOLDER/pathprobe/ospf_html_v1.14.py:47 | assigning a key the value it already holds leaves the dict as it was |
| JsonValue.PyStr | Documents/Automate/GIT_FOLDER/pathprobe/ospf_html_v1.14.py:43-45 | `str()` of a string is the string; of anything else a non-empty text |
| SegmenterV10.LoweredTableIsLowered | Documents/Automate/GIT_FOLDER/pathprobe/ospf_parser.py:65-69 | the lower-cased pattern table is the header table with each pattern lower-cased, in dict order |
| SegmenterV10.FirstMatchSpec | Documents/Automate/GIT_FOLDER/pathprobe/ospf_parser.py:76-83 | classification answers the earliest type with a matching pattern, and nothing when no pattern matches |
| SegmenterV10.ClassifySpec | Documents/Automate/GIT_FOLDER/pathprobe/ospf_parser.py:65-83 | a line is a router header iff a router phrase occurs in it; network iff no router phrase but a network phrase does; summary iff only a summary phrase does |
| SegmenterV10.SummaryLinkStatesHeaderIsNotSummary | Documents/Automate/GIT_FOLDER/pathprobe/ospf_parser.py:67-68 | a "Summary Net Link States" line is never classified Summary, because "Net Link States" is tried first |
| SegmenterV10.BlankIsNotHeader | Documents/Automate/GIT_FOLDER/pathprobe/ospf_parser.py:73-74 | a blank line never opens a block |
| SegmenterV10.Kept | Documents/Automate/GIT_FOLDER/pathprobe/ospf_parser.py:71-74 | the kept lines are stripped, non-blank, in input order, numbered from 1 |
| SegmenterV10.SegmentWithoutHeader | Documents/Automate/GIT_FOLDER/pathprobe/ospf_parser.py:90-95 | a dump with no header line yields no block |
| SegmenterV10.SegmentKeepsFromFirstHeader | Documents/Automate/GIT_FOLDER/pathprobe/ospf_parser.py:71-95 | the blocks together hold exactly the stripped non-blank lines from the first header on, in order |
| SegmenterV10.ScanKept | Documents/Automate/GIT_FOLDER/pathprobe/ospf_parser.py:85-92 | after each line, the closed blocks plus the open one hold the kept lines seen since the first header |
| SegmenterV10.SegmentWellFormed | Documents/Automate/GIT_FOLDER/pathprobe/ospf_parser.py:85-95 | every block starts with a header of its own type and holds no other header |
| ParserV10.SkipSpaces | Documents/Automate/GIT_FOLDER/pathprobe/ospf_parser.py:120 | `\s*` consumes the maximal run of whitespace |
| ParserV10.RunEnd | Documents/Automate/GIT_FOLDER/pathprobe/ospf_parser.py:120-125 | `[\d.]+` and `\d+` consume a maximal run of their class |
| ParserV10.SearchNone | Documents/Automate/GIT_FOLDER/pathprobe/ospf_parser.py:120-125 | `re.search` finds nothing exactly when no position matches |
| ParserV10.SearchLeftmost | Documents/Automate/GIT_FOLDER/pathprobe/ospf_parser.py:120-125 | what `re.search` finds is the match at the leftmost matching position |
| ParserV10.MatchAtGroup | Documents/Automate/GIT_FOLDER/pathprobe/ospf_parser.py:120-125 | a router-id capture is a non-empty run of digits and dots; an area capture is a digit string |
| ParserV10.SearchGroup | Documents/Automate/GIT_FOLDER/pathprobe/ospf_parser.py:120-127 | the same holds for the group of a search |
| ParserV10.ChoiceAbortIff | Documents/Automate/GIT_FOLDER/pathprobe/ospf_parser.py:200-202 | an answer aborts exactly when it strips to "a" or "A"; an empty answer skips |
| ParserV10Facts.FirstCaptureSpec | Documents/Automate/GIT_FOLDER/pathprobe/ospf_parser.py:119-123 | the router id is the capture of the first block line that matches, and is missing exactly when none does |
| ParserV10Facts.BlockAreaSpec | Documents/Automate/GIT_FOLDER/pathprobe/ospf_parser.py:118-128 | the area is always a digit string, and "0" when no line names one |
| ParserV10Facts.RouterBlockOutcome | Documents/Automate/GIT_FOLDER/pathprobe/ospf_parser.py:114-145 | a router block without an id gets exactly one "Missing router ID" report and no record; with an id it gets exactly one record with that id, its area and its links, and no report |
| ParserV10Facts.LinkRowRoundTrip | Documents/Automate/GIT_FOLDER/pathprobe/ospf_parser.py:134-141 | a row printed from a link id and a metric reads back as that link |
| ParserV10Facts.RouterIdLineRoundTrip | Documents/Automate/GIT_FOLDER/pathprobe/ospf_parser.py:120-122 | the router-id pattern reads back the id from "OSPF Router with ID (id)" |
| ParserV10Facts.AreaLineRoundTrip | Documents/Automate/GIT_FOLDER/pathprobe/ospf_parser.py:125-127 | the area pattern reads back n from "Router Link States (Area n)" |
| ParserV10Facts.LinkOfSpec | Documents/Automate/GIT_FOLDER/pathprobe/ospf_parser.py:137-141 | a link's id is the row's first token and its metric is never negative |
| ParserV10Facts.LinksAppend | Documents/Automate/GIT_FOLDER/pathprobe/ospf_parser.py:133-141 | the link list is computed row by row, in order |
| ParserV10Facts.LinksSpec | Documents/Automate/GIT_FOLDER/pathprobe/ospf_parser.py:133-141 | exactly one link per row of two or more tokens that names no "Link ID" or "Link connected", each with a token id and a non-negative metric |
| ParserV10Facts.LinksByRow | Documents/Automate/GIT_FOLDER/pathprobe/ospf_parser.py:133-141 | the k-th link is read from the k-th link row: its first token, and its last token's value when that is all digits, else 0 |
| ParserV10Facts.RowOutcome | Documents/Automate/GIT_FOLDER/pathprobe/ospf_parser.py:156-186 | a row without data changes nothing; a data row yields exactly one record or one report, and leaves the other kind's records alone |
| ParserV10Facts.RowByColumns | Documents/Automate/GIT_FOLDER/pathprobe/ospf_parser.py:156-186 | a data row with fewer than 2 (Network) or 3 (Summary) columns gives exactly one "Insufficient columns" report of its block's kind and no record; a longer row gives exactly one record from its columns and no report |
| ParserV10Facts.FirstNumberSpec | Documents/Automate/GIT_FOLDER/pathprobe/ospf_parser.py:185 | the summary metric is the value of the first all-digit column from the third on, and 0 when there is none |
| ParserV10Facts.NetworkRowColumns | Documents/Automate/GIT_FOLDER/pathprobe/ospf_parser.py:159-165 | a network row of two or more columns reads as its first two, extra columns ignored |
| ParserV10Facts.SummaryRowColumns | Documents/Automate/GIT_FOLDER/pathprobe/ospf_parser.py:179-186 | a summary row of three or more columns reads as prefix, advertising router and the first all-digit later column |
| ParserV10Facts.SummaryFiveColumns | Documents/Automate/GIT_FOLDER/pathprobe/ospf_parser.py:179-186 | the printed row "10.1.1.0 1.1.1.1 123 0x80000001 0x00ABCD" reads as prefix 10.1.1.0, advertising router 1.1.1.1, metric 123 |
| ParserV10Facts.RowsOutcome | Documents/Automate/GIT_FOLDER/pathprobe/ospf_parser.py:156-190 | unless an answer aborts, every data row yields exactly one outcome and processing goes on after a report |
| ParserV10Facts.BlockHeaderIgnored | Documents/Automate/GIT_FOLDER/pathprobe/ospf_parser.py:155 | the header line of a Network or Summary block is never read |
| ParserV10Facts.NetworkRowRoundTrip | Documents/Automate/GIT_FOLDER/pathprobe/ospf_parser.py:159-165 | a row printed from a network id and one attached router reads back as that network, in area "0" |
| ParserV10Facts.SummaryRowRoundTrip | Documents/Automate/GIT_FOLDER/pathprobe/ospf_parser.py:179-186 | a row printed from a prefix, an advertising router and a metric reads back as that summary |
| ParserV10Facts.ProcessBlocksConsistent | Documents/Automate/GIT_FOLDER/pathprobe/ospf_parser.py:193-202 | block processing keeps the reports in agreement with the answers given |
| ParserV10Facts.ParseAnswers | Documents/Automate/GIT_FOLDER/pathprobe/ospf_parser.py:193-202 | a run is aborted exactly when the answer to its last report aborts, every earlier answer skipped, and a non-interactive run never aborts |
| ParserV10Facts.ProcessBlocksWellFormed | Documents/Automate/GIT_FOLDER/pathprobe/ospf_parser.py:103-190 | block processing only adds well-formed records |
| ParserV10Facts.ParseWellFormed | Documents/Automate/GIT_FOLDER/pathprobe/ospf_parser.py:114-190 | every record of a run is well formed: router ids are digits and dots, areas are digits, link ids and network, summary and router ids are tokens, and a network has one attached router |
| ParserV10Facts.RouterHeaderClassified | Documents/Automate/GIT_FOLDER/pathprobe/ospf_parser.py:66 | "OSPF Router with ID (id)" is classified as a router header |
| ParserV10Facts.LinkStatesClassified | Documents/Automate/GIT_FOLDER/pathprobe/ospf_parser.py:66 | "Router Link States (Area 0)" is classified as a router header too |
| ParserV10Facts.HeadersSegment | Documents/Automate/GIT_FOLDER/pathprobe/ospf_parser.py:85-95 | these two header lines therefore form two router blocks |
| ParserV10Facts.HeaderBlockRecord | Documents/Automate/GIT_FOLDER/pathprobe/ospf_parser.py:119-141 | the router-header line yields the id, no area, and is itself read as a link named "OSPF" |
| ParserV10Facts.RouterHeaderThenLinkStates | Documents/Automate/GIT_FOLDER/pathprobe/ospf_parser.py:71-149 | a router header followed by its link-states header gives one router record (with the "OSPF" link) and one "Missing router ID" report |
| ParserV11Facts.BlocksSpec | Documents/Automate/GIT_FOLDER/pathprobe/ospf_parser_v1.11.py:22-50 | the blocks hold every input line exactly once, in order, and each is headed by a line opening its type in the state the previous block left |
| ParserV11Facts.ScanInvHolds | Documents/Automate/GIT_FOLDER/pathprobe/ospf_parser_v1.11.py:26-47 | the loop invariant of the state machine holds after every line |
| ParserV11Facts.BlockIsInputSlice | Documents/Automate/GIT_FOLDER/pathprobe/ospf_parser_v1.11.py:33-47 | a typed block is the slice of the input that starts at its recorded 1-based line number |
| ParserV11Facts.HeadersBeginBlocks | Documents/Automate/GIT_FOLDER/pathprobe/ospf_parser_v1.11.py:28-45 | no later line of a block opens a block of its own |
| ParserV11Facts.LastRouterIdNone | Documents/Automate/GIT_FOLDER/pathprobe/ospf_parser_v1.11.py:62-65 | the router id is missing exactly when no line names a router |
| ParserV11Facts.LastRouterIdLast | Documents/Automate/GIT_FOLDER/pathprobe/ospf_parser_v1.11.py:62-65 | a found id is the fourth token, parentheses stripped, of a line naming a router with no such line after it |
| ParserV11Facts.StripParensSpec | Documents/Automate/GIT_FOLDER/pathprobe/ospf_parser_v1.11.py:65 | `strip("()")` keeps a middle slice with no parenthesis at either end |
| ParserV11Facts.StripParensOfParenthesised | Documents/Automate/GIT_FOLDER/pathprobe/ospf_parser_v1.11.py:65 | a parenthesised id comes back without its parentheses |
| ParserV11Facts.ConnectedLinksAppend | Documents/Automate/GIT_FOLDER/pathprobe/ospf_parser_v1.11.py:66-67 | links are collected line by line, in order |
| ParserV11Facts.ConnectedLinksSpec | Documents/Automate/GIT_FOLDER/pathprobe/ospf_parser_v1.11.py:66-67 | there is exactly one link per block line mentioning "Link connected to", each link is such a line stripped, and every such line's stripped text is a link |
| ParserV11Facts.RouterOutcomeSpec | Documents/Automate/GIT_FOLDER/pathprobe/ospf_parser_v1.11.py:57-77 | a router block with an id adds exactly one record; without one it adds exactly one skipped entry listing one line number per block line |
| ParserV11Facts.SkippedLinesAreBlockLines | Documents/Automate/GIT_FOLDER/pathprobe/ospf_parser_v1.11.py:77 | the numbers a skipped router block lists are its own lines' 1-based positions in the input |
| ParserV11Facts.NetworkRowsCount | Documents/Automate/GIT_FOLDER/pathprobe/ospf_parser_v1.11.py:84-94 | every non-blank row after the header yields exactly one network record |
| ParserV11Facts.SummaryRowsCount | Documents/Automate/GIT_FOLDER/pathprobe/ospf_parser_v1.11.py:98-110 | every non-blank row after the header yields exactly one summary record |
| ParserV11Facts.NonBlankRowsSpec | Documents/Automate/GIT_FOLDER/pathprobe/ospf_parser_v1.11.py:84-86 | the rows a section reads are its non-blank rows after the header, as many as it has |
| ParserV11Facts.NetworkRowsByRow | Documents/Automate/GIT_FOLDER/pathprobe/ospf_parser_v1.11.py:84-94 | the i-th network record comes from the i-th non-blank row: its first two tokens, or ("Network", "unknown") when it has fewer |
| ParserV11Facts.SummaryRowsByRow | Documents/Automate/GIT_FOLDER/pathprobe/ospf_parser_v1.11.py:98-110 | the i-th summary record comes from the i-th non-blank row, one record per row |
| ParserV11Facts.SummaryFallbackRows | Documents/Automate/GIT_FOLDER/pathprobe/ospf_parser_v1.11.py:106-110 | a section whose rows all have fewer than six tokens gives one ("Link", "ID", 20) record per non-blank row |
| ParserV11Facts.NetworkRowRoundTrip | Documents/Automate/GIT_FOLDER/pathprobe/ospf_parser_v1.11.py:87-94 | two tokens written on a row read back as that network |
| ParserV11Facts.SummaryRowRoundTrip | Documents/Automate/GIT_FOLDER/pathprobe/ospf_parser_v1.11.py:101-110 | a row of six or more tokens ending in an integer reads back as its first two tokens and that integer |
| ParserV11Facts.UntypedBlockIgnored | Documents/Automate/GIT_FOLDER/pathprobe/ospf_parser_v1.11.py:56-111 | the block of lines before the first header matches no branch: it adds no record and the blocks after it are processed as if it were absent |
| ParserV11Facts.OutputShape | Documents/Automate/GIT_FOLDER/pathprobe/ospf_parser_v1.11.py:116-121 | the document has exactly the four keys, in order, each holding one entry per record |
| ParserV11Facts.SummaryRowsBecomeNetworks | Documents/Automate/GIT_FOLDER/pathprobe/ospf_parser_v1.11.py:34-45 | in a "Summary Net Link States" section, the "Link ID" column line opens a Network block, so the section's rows are parsed as networks and no summary is recorded |
| NormalizerFacts.OrChainFirstTruthy | Documents/Automate/GIT_FOLDER/pathprobe/ospf_html_v1.14.py:38 | a chain of `or` yields the first truthy operand, or the last operand when none is truthy |
| NormalizerFacts.LinkNameSpec | Documents/Automate/GIT_FOLDER/pathprobe/ospf_html_v1.14.py:41-45 | a dict link is named by the first truthy of `link_id`, `link` and its own text, which is always truthy; any other link by its `str()` |
| NormalizerFacts.NormalizeRouterSpec | Documents/Automate/GIT_FOLDER/pathprobe/ospf_html_v1.14.py:36-46 | a normalised router has exactly `router_id` (first truthy of `router_id`, `router`, `id`) and `links` (one name per link, in order) |
| NormalizerFacts.NormalizeNetworkSpec | Documents/Automate/GIT_FOLDER/pathprobe/ospf_html_v1.14.py:52-62 | a normalised network has exactly `network_id` and `attached_routers`; the latter is always a list: the list itself, empty for None, else the one value wrapped |
| NormalizerFacts.NormalizeSummarySpec | Documents/Automate/GIT_FOLDER/pathprobe/ospf_html_v1.14.py:68-72 | a normalised summary has exactly `link` (first truthy of `link_id`, `link`, `prefix`, `adv_router`) and `adv_router` (first truthy of `adv_router`, `adv`, `advertising_router`) |
| NormalizerFacts.NormalizeSections | Documents/Automate/GIT_FOLDER/pathprobe/ospf_html_v1.14.py:33-73 | each parser key that is present puts one normalised entry per original entry, in order, under its builder key; an absent one leaves the builder key as it was |
| NormalizerFacts.NormalizeKeepsOtherKeys | Documents/Automate/GIT_FOLDER/pathprobe/ospf_html_v1.14.py:47-73 | every key other than `routers`, `networks` and `summary` keeps its value |
| NormalizerFacts.NormalizeUntouched | Documents/Automate/GIT_FOLDER/pathprobe/ospf_html_v1.14.py:33-73 | a document with none of the parser keys comes back unchanged |
| NormalizerFacts.NormalizeIdempotent | Documents/Automate/GIT_FOLDER/pathprobe/ospf_html_v1.14.py:24-73 | normalising a normalised document changes nothing |
| GraphFacts.GhostIdInjective | Documents/Automate/GIT_FOLDER/pathprobe/ospf_html_v1.14.py:113 | different counter values give different ghost ids |
| GraphFacts.GhostIdsDistinct | Documents/Automate/GIT_FOLDER/pathprobe/ospf_html_v1.14.py:113-114 | the ghosts a counter hands out are pairwise distinct |
| GraphFacts.CreateGhostSpec | Documents/Automate/GIT_FOLDER/pathprobe/ospf_html_v1.14.py:112-117 | a ghost is named after the counter, the counter goes up by one, the ghost is registered as itself and drawn, and no edge changes |
| GraphFacts.GetNodeSpec | Documents/Automate/GIT_FOLDER/pathprobe/ospf_html_v1.14.py:119-123 | a registered id resolves to itself with nothing changed; an unregistered one yields the next ghost |
| GraphFacts.OrGhostSpec | Documents/Automate/GIT_FOLDER/pathprobe/ospf_html_v1.14.py:129-132 | `id or create_ghost_node()` keeps a present id and otherwise yields a registered ghost; the result is never empty |
| GraphFacts.AddNodeSpec | Documents/Automate/GIT_FOLDER/pathprobe/ospf_html_v1.14.py:85-92 | a present id is registered and drawn once; a missing one draws a ghost, registers only that ghost, and then draws a node with the ghost's id |
| GraphFacts.AddAllSpec | Documents/Automate/GIT_FOLDER/pathprobe/ospf_html_v1.14.py:85-110 | one loop of `add_nodes` draws one node per entry plus one ghost per missing id, and registers exactly the present ids and the ghost ids the counter hands out meanwhile |
| GraphFacts.MissingZero | Documents/Automate/GIT_FOLDER/pathprobe/ospf_html_v1.14.py:85-110 | no ghost is needed exactly when no id in the list is falsy |
| GraphFacts.AddNodesSpec | Documents/Automate/GIT_FOLDER/pathprobe/ospf_html_v1.14.py:80-110 | `add_nodes` keeps the registry invariant, registers every present router, network and summary id, and makes one ghost per missing id |
| GraphFacts.EdgesStayRegistered | Documents/Automate/GIT_FOLDER/pathprobe/ospf_html_v1.14.py:125-146 | edges between registered ids stay so as the registry grows |
| GraphFacts.LinkEdgesSpec | Documents/Automate/GIT_FOLDER/pathprobe/ospf_html_v1.14.py:131-133 | one edge per link, from the router id to the resolved target, and a registered target resolves to itself |
| GraphFacts.LinkEdgesGhosts | Documents/Automate/GIT_FOLDER/pathprobe/ospf_html_v1.14.py:131-133 | a router's links make no ghost exactly when every target is present and registered |
| GraphFacts.RouterEdgesSpec | Documents/Automate/GIT_FOLDER/pathprobe/ospf_html_v1.14.py:128-133 | the router edges number the total link count, and each comes from its router's id |
| GraphFacts.RouterEdgesGhosts | Documents/Automate/GIT_FOLDER/pathprobe/ospf_html_v1.14.py:128-133 | the router loop makes no ghost exactly when every router has an id and every link target is registered |
| GraphFacts.AttachedEdgesSpec | Documents/Automate/GIT_FOLDER/pathprobe/ospf_html_v1.14.py:138-140 | one edge per attached router, from the resolved router to the network |
| GraphFacts.AttachedEdgesGhosts | Documents/Automate/GIT_FOLDER/pathprobe/ospf_html_v1.14.py:138-140 | one network's edges make no ghost exactly when all its attached routers are registered, and then leave the registry alone |
| GraphFacts.NetworkEdgesSpec | Documents/Automate/GIT_FOLDER/pathprobe/ospf_html_v1.14.py:136-140 | the network edges number the total attached count, each ending at its network, joining registered ids |
| GraphFacts.NetworkEdgesGhosts | Documents/Automate/GIT_FOLDER/pathprobe/ospf_html_v1.14.py:136-140 | the network loop makes no ghost exactly when every network has an id and every attached router is registered |
| GraphFacts.SummaryEdgeSpec | Documents/Automate/GIT_FOLDER/pathprobe/ospf_html_v1.14.py:144-146 | one edge from the resolved advertising router to the resolved link; no ghost exactly when the link is present and the router registered |
| GraphFacts.SummaryEdgesSpec | Documents/Automate/GIT_FOLDER/pathprobe/ospf_html_v1.14.py:143-146 | exactly one edge per summary, ending at its link |
| GraphFacts.SummaryEdgesGhosts | Documents/Automate/GIT_FOLDER/pathprobe/ospf_html_v1.14.py:143-146 | the summary loop makes no ghost exactly when every summary has a link and a registered advertising router |
| GraphFacts.AfterNodes | Documents/Automate/GIT_FOLDER/pathprobe/ospf_html_v1.14.py:80-117 | after `add_nodes` on a fresh generator every present primary id is registered, and the counter is one plus the number of missing ids |
| GraphFacts.BuildSpec | Documents/Automate/GIT_FOLDER/pathprobe/ospf_html_v1.14.py:80-146 | a whole run keeps the registry invariant, every edge joins registered ids, there is one edge per link, attached router and summary, and the ghosts drawn are vNode1, vNode2, … all distinct |
| GraphFacts.BuildRouterSources | Documents/Automate/GIT_FOLDER/pathprobe/ospf_html_v1.14.py:128-133 | the first edges of a run come from the routers' ids, once per link, in order |
| GraphFacts.AllNamedIff | Documents/Automate/GIT_FOLDER/pathprobe/ospf_html_v1.14.py:85-110 | `add_nodes` makes no ghost exactly when every router, network and summary has its id |
| GraphFacts.NoGhostsIff | Documents/Automate/GIT_FOLDER/pathprobe/ospf_html_v1.14.py:80-146 | a run draws no ghost exactly when every primary id is present and every link target, attached router and advertising router is one of them |
| GraphFacts.GhostCanShareRouterId | Documents/Automate/GIT_FOLDER/pathprobe/ospf_html_v1.14.py:85-117 | a ghost id can equal a real router's id: the ghost then shares its node |
| GraphFacts.RouterSourceNotLookedUp | Documents/Automate/GIT_FOLDER/pathprobe/ospf_html_v1.14.py:129-133 | a router edge starts at the raw router id, which is never looked up or registered |
| GhostCounts.GetNodeStep | Documents/Automate/GIT_FOLDER/pathprobe/ospf_html_v1.14.py:119-123 | `get_node` makes one ghost exactly when the key is unregistered, and registers nothing but that ghost |
| GhostCounts.OrGhostStep | Documents/Automate/GIT_FOLDER/pathprobe/ospf_html_v1.14.py:129-132 | `id or create_ghost_node()` makes one ghost exactly when the id is missing |
| GhostCounts.LinkEdgeStep | Documents/Automate/GIT_FOLDER/pathprobe/ospf_html_v1.14.py:131-133 | one link makes one ghost exactly when its target is unregistered, a missing target included |
| GhostCounts.LinkEdgesGhostCount | Documents/Automate/GIT_FOLDER/pathprobe/ospf_html_v1.14.py:131-133 | a router's links make at most one ghost each, and exactly one each when no target is registered or named like a ghost, repeats included |
| GhostCounts.RouterEdgesGhostCount | Documents/Automate/GIT_FOLDER/pathprobe/ospf_html_v1.14.py:128-133 | the router loop makes at most one ghost per missing router id plus one per link, and exactly that many when no link target can be resolved |
| GhostCounts.AttachedEdgeStep | Documents/Automate/GIT_FOLDER/pathprobe/ospf_html_v1.14.py:138-140 | one attached router makes at most two ghosts: one for itself and one for the network when they are unregistered |
| GhostCounts.AttachedEdgesGhostCount | Documents/Automate/GIT_FOLDER/pathprobe/ospf_html_v1.14.py:138-140 | a network's edges make at most two ghosts per attached router; exactly one each when the network is registered and no router resolves, exactly two when the network cannot be resolved either |
| GhostCounts.AttachedEdgesBound | Documents/Automate/GIT_FOLDER/pathprobe/ospf_html_v1.14.py:138-140 | with the network registered, at most one ghost per attached router |
| GhostCounts.NetworkHeadGhostCount | Documents/Automate/GIT_FOLDER/pathprobe/ospf_html_v1.14.py:136-140 | one network makes one ghost for a missing id plus at most one per attached router, exactly one each when no attached router resolves |
| GhostCounts.NetworkEdgesGhostCount | Documents/Automate/GIT_FOLDER/pathprobe/ospf_html_v1.14.py:136-140 | the network loop makes at most one ghost per missing network id plus one per attached router, and exactly that many when no attached router can be resolved |
| GhostCounts.SummaryEdgeGhostCount | Documents/Automate/GIT_FOLDER/pathprobe/ospf_html_v1.14.py:144-146 | one summary makes at most two ghosts, and exactly two when neither its link nor its advertising router can be resolved |
| GhostCounts.SummaryEdgesGhostCount | Documents/Automate/GIT_FOLDER/pathprobe/ospf_html_v1.14.py:143-146 | the summary loop makes at most two ghosts per summary, and exactly two each when nothing resolves |
| GhostCounts.AddAllKeys | Documents/Automate/GIT_FOLDER/pathprobe/ospf_html_v1.14.py:85-110 | an `add_nodes` loop registers nothing but its own ids and ghosts |
| GhostCounts.AddNodesKeys | Documents/Automate/GIT_FOLDER/pathprobe/ospf_html_v1.14.py:80-110 | after `add_nodes` every registered id is a primary id or a ghost id |
| GhostCounts.BuildGhostBound | Documents/Automate/GIT_FOLDER/pathprobe/ospf_html_v1.14.py:80-146 | a run's ghost counter is bounded by one plus the missing ids, the links, the attached routers and twice the summaries |
| GhostCounts.BuildLinkGhosts | Documents/Automate/GIT_FOLDER/pathprobe/ospf_html_v1.14.py:128-133 | when no link target is a primary id or named like a ghost, the router loop makes exactly one ghost per missing router id and per link |
| GhostCounts.RepeatedTargetTwoGhosts | Documents/Automate/GIT_FOLDER/pathprobe/ospf_html_v1.14.py:119-133 | a router with two links to the same undeclared target gets two ghosts and the edges R1→vNode1 and R1→vNode2 |
| Pipeline.V10RouterEntry | Documents/Automate/GIT_FOLDER/pathprobe/ospf_html_v1.14.py:36-46 | a v1.10 router record normalises to its id and its link ids |
| Pipeline.V10NetworkEntry | Documents/Automate/GIT_FOLDER/pathprobe/ospf_html_v1.14.py:52-62 | a v1.10 network record keeps its id and attached-router list |
| Pipeline.V10SummaryEntry | Documents/Automate/GIT_FOLDER/pathprobe/ospf_html_v1.14.py:68-72 | a v1.10 summary is keyed by its prefix, or by its advertising router when the prefix is empty, and keeps its advertising router |
| Pipeline.V10Sections | Documents/Automate/GIT_FOLDER/pathprobe/ospf_parser.py:216-220 | a run that was not aborted exports the three record lists under the three parser keys, and no builder key |
| Pipeline.V10DocumentTopology | Documents/Automate/GIT_FOLDER/pathprobe/ospf_html_v1.14.py:24-73 | a v1.10 document normalises without error, and the builder reads exactly the parsed routers, networks and summaries |
| Pipeline.V11RouterEntry | Documents/Automate/GIT_FOLDER/pathprobe/ospf_html_v1.14.py:36-46 | a v1.11 router record normalises to its id and its link lines |
| Pipeline.V11NetworkEntry | Documents/Automate/GIT_FOLDER/pathprobe/ospf_html_v1.14.py:53-62 | a v1.11 network's single `attached` value becomes a one-element attached list |
| Pipeline.V11SummaryEntry | Documents/Automate/GIT_FOLDER/pathprobe/ospf_html_v1.14.py:70-72 | a v1.11 summary is keyed by its link id, or by its advertising router when the link id is empty |
| Pipeline.V11Sections | Documents/Automate/GIT_FOLDER/pathprobe/ospf_parser_v1.11.py:116-121 | the v1.11 document holds the three record lists under the three parser keys |
| Pipeline.V11DocumentTopology | Documents/Automate/GIT_FOLDER/pathprobe/ospf_html_v1.14.py:24-73 | every v1.11 document normalises without error, and the builder reads exactly its routers, networks and summaries |
| Pipeline.V10AllNamed | Documents/Automate/GIT_FOLDER/pathprobe/ospf_parser.py:120-186 | every primary id in a v1.10 result is non-empty |
| Pipeline.V10Graph | Documents/Automate/GIT_FOLDER/pathprobe/ospf_html_v1.14.py:148-152 | from a v1.10 dump: every edge joins registered nodes, there is one edge per link, network and summary, and no ghost is drawn exactly when every link target, attached router and advertising router is a parsed id |
| Pipeline.V11GraphOf | Documents/Automate/GIT_FOLDER/pathprobe/ospf_html_v1.14.py:148-152 | from a v1.11 result: every edge joins registered nodes, and there is one edge per link, network row and summary row |
| Pipeline.AttachedCountSingletons | Documents/Automate/GIT_FOLDER/pathprobe/ospf_html_v1.14.py:138-140 | networks with one attached router each give one network edge apiece |

## Left out

- Printing, colours, timing, the `[SUMMARY]` report and command-line parsing: they do not affect the records or the graph.
- File I/O: the dump is given as lines. Output documents are values, not files, and the missing-file exit is not modelled.
- pyvis rendering: `Network` options, node labels and colours, and `show()` are not modelled.
- pyvis node deduplication: `add_node` with an id already drawn is recorded as a second node. The model keeps every `add_node` call in order.
- The JSON round trip through a file is treated as the identity on the value. Key order, strings, integers, lists and dicts survive it.
- Truthy non-string ids (a number or a list as `router_id`) are outside the graph model; ids are strings, and "" stands for every falsy id.
- Lower-casing, `isdigit()` and `\d` are modelled on ASCII characters only; `isspace()` uses Python's full whitespace set.
- The bare `except` around the v1.10 link metric (ospf_parser.py:139-143) is not modelled. It is reached when the last token passes `isdigit()` but `int()` rejects it: a non-ASCII digit such as '²', or more than 4300 digits. The source then adds no link and increments `skipped`. The model's `isdigit()` is ASCII-only, so it adds the link with metric 0, or with the long token's value.
- The v1.10 `except Exception` around each block (ospf_parser.py:148-149, 168-169, 189-190) is not modelled. Only the summary block can reach it, through `int()` at line 185 on a token such as '²' or one of more than 4300 digits. The source then reports the whole block once and drops its remaining rows. The model reads such a token as a non-digit, or as its value, and keeps every row.
- Text.ParseInt: reads decimal literals of any length and in ASCII digits only. Python 3.11 and later make `int()` raise on more than 4300 digits, and `int()` also reads non-ASCII decimal digits such as "١٢".
- ParserV11.Parse: requires every router id line to have a fourth token, and the last token of every summary row of six or more tokens to be read by the modelled `int()`. The script raises on the first and on malformed last tokens, and writes no output. The second requirement also excludes last tokens in non-ASCII decimal digits, which Python's `int()` reads.
- ParserV11Facts.SummaryRowsCount: inherits that requirement, so it says nothing about rows whose last token is written in non-ASCII decimal digits.
- JsonValue.Repr: always quotes a string with single quotes and escapes nothing. Python's `repr` uses double quotes for a string holding `'` and no `"` (`repr("a'b")` is `"a'b"`), and escapes backslashes, newlines and non-printable characters. A dict link named by its own text (ospf_html_v1.14.py:43-45) can therefore differ from the script's.
- Normalizer.Normalize: requires the parser sections to be lists of dicts and router `links` to be iterable. The script raises on other shapes.
- GraphBuilder.TopologyOf: requires every section the builder reads to be a list of dicts with string or falsy ids.
- Regular expressions are modelled as direct matchers for the two patterns used. General regex semantics are not modelled.
- `scripts/` and `tests/` are callers, not part of this model.
- A v1.10 abort exports nothing: `_handle_skipped` calls `sys.exit(1)` (ospf_parser.py:202) before `export` runs, so `ParserV10.Export` is None after an abort.
- An "OSPF Router with ID" line followed by a "Router Link States" line gives two router blocks, because the code opens a new block at each of those lines (`ParserV10Facts.RouterHeaderThenLinkStates`).
- "Summary Net Link States" is classified as a Network header by v1.10, since the network pattern "Net Link States" is tried first (`SegmenterV10.SummaryLinkStatesHeaderIsNotSummary`). The model follows the code.
- In v1.11 the "Link ID" column line of a summary section opens a Network block (`ParserV11Facts.SummaryRowsBecomeNetworks`). The model follows the code.
