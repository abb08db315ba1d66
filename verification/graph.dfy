/**
 The graph builder of the topology generator (`add_nodes`, `create_ghost_node`,
 `get_node`, `add_edges`). It keeps a registry (`node_map`) from node id to
 node id and a ghost counter starting at 1; an entry whose id is missing, or a
 link whose target is not registered, gets a synthesised ghost node
 `vNode<counter>`. Drawing calls become appends to a node list and an edge
 list.

 Ids are strings; the empty string stands for every falsy id (None, "", 0,
 False), all of which the generator treats alike: they are replaced by a ghost
 where an `or` guards them, and they are never registered, so a lookup of one
 also yields a ghost.
 */
module GraphBuilder {
  import opened Wrappers
  import opened Text
  import opened JsonValue
  import opened Normalizer

  datatype RouterEntry = RouterEntry(id: string, links: seq<string>)
  datatype NetworkEntry = NetworkEntry(id: string, attached: seq<string>)
  datatype SummaryEntry = SummaryEntry(link: string, adv: string)

  /** What the builder reads from the normalised document. */
  datatype Topology = Topology(routers: seq<RouterEntry>, networks: seq<NetworkEntry>, summaries: seq<SummaryEntry>)

  datatype NodeKind = RouterNode | NetworkNode | SummaryNode | GhostNode
  datatype Node = Node(id: string, kind: NodeKind)
  datatype Edge = Edge(src: string, dst: string)

  datatype Builder = Builder(nodeMap: map<string, string>, ghostCount: nat, nodes: seq<Node>, edges: seq<Edge>)

  /** A builder together with the node id an operation returned. */
  datatype Got = Got(b: Builder, id: string)

  /** A generator before `add_nodes`: empty registry, ghost counter at 1. */
  const Fresh := Builder(map[], 1, [], [])

  function GhostId(n: nat): string {
    "vNode" + NatToString(n)
  }

  /** `create_ghost_node`: a new ghost named after the counter, registered and drawn. */
  function CreateGhost(b: Builder): Got {
    var g := GhostId(b.ghostCount);
    Got(b.(nodeMap := b.nodeMap[g := g], ghostCount := b.ghostCount + 1, nodes := b.nodes + [Node(g, GhostNode)]), g)
  }

  /** `key or self.create_ghost_node()`. */
  function OrGhost(b: Builder, key: string): Got {
    if key != "" then Got(b, key) else CreateGhost(b)
  }

  /** `get_node`: the registered id, or a fresh ghost. */
  function GetNode(b: Builder, key: string): Got {
    if key in b.nodeMap then Got(b, b.nodeMap[key]) else CreateGhost(b)
  }

  /** One iteration of an `add_nodes` loop: resolve the id, register it if new, draw it. */
  function AddNode(b: Builder, key: string, kind: NodeKind): Builder {
    var g := OrGhost(b, key);
    var c := g.b;
    if g.id in c.nodeMap then c.(nodes := c.nodes + [Node(c.nodeMap[g.id], kind)])
    else c.(nodeMap := c.nodeMap[g.id := g.id], nodes := c.nodes + [Node(g.id, kind)])
  }

  function AddAll(b: Builder, keys: seq<string>, kind: NodeKind): Builder
    decreases |keys|
  {
    if |keys| == 0 then b else AddAll(AddNode(b, keys[0], kind), keys[1..], kind)
  }

  function RouterIds(rs: seq<RouterEntry>): seq<string> {
    seq(|rs|, i requires 0 <= i < |rs| => rs[i].id)
  }

  function NetworkIds(ns: seq<NetworkEntry>): seq<string> {
    seq(|ns|, i requires 0 <= i < |ns| => ns[i].id)
  }

  function SummaryLinks(ss: seq<SummaryEntry>): seq<string> {
    seq(|ss|, i requires 0 <= i < |ss| => ss[i].link)
  }

  /** `add_nodes`: routers, then networks, then summaries. */
  function AddNodes(b: Builder, t: Topology): Builder {
    var b1 := AddAll(b, RouterIds(t.routers), RouterNode);
    var b2 := AddAll(b1, NetworkIds(t.networks), NetworkNode);
    AddAll(b2, SummaryLinks(t.summaries), SummaryNode)
  }

  function AddEdge(b: Builder, src: string, dst: string): Builder {
    b.(edges := b.edges + [Edge(src, dst)])
  }

  /** The edges of one router: from the raw router id to each resolved link target. */
  function LinkEdges(b: Builder, rid: string, links: seq<string>): Builder
    decreases |links|
  {
    if |links| == 0 then b
    else
      var t := OrGhost(b, links[0]);
      var n := GetNode(t.b, t.id);
      LinkEdges(AddEdge(n.b, rid, n.id), rid, links[1..])
  }

  function RouterEdges(b: Builder, rs: seq<RouterEntry>): Builder
    decreases |rs|
  {
    if |rs| == 0 then b
    else
      var g := OrGhost(b, rs[0].id);
      RouterEdges(LinkEdges(g.b, g.id, rs[0].links), rs[1..])
  }

  /** The edges of one network: from each resolved attached router to the resolved network. */
  function AttachedEdges(b: Builder, nid: string, attached: seq<string>): Builder
    decreases |attached|
  {
    if |attached| == 0 then b
    else
      var a := GetNode(b, attached[0]);
      var n := GetNode(a.b, nid);
      AttachedEdges(AddEdge(n.b, a.id, n.id), nid, attached[1..])
  }

  function NetworkEdges(b: Builder, ns: seq<NetworkEntry>): Builder
    decreases |ns|
  {
    if |ns| == 0 then b
    else
      var g := OrGhost(b, ns[0].id);
      NetworkEdges(AttachedEdges(g.b, g.id, ns[0].attached), ns[1..])
  }

  /** The edge of one summary: from the resolved advertising router to the resolved link. */
  function SummaryEdge(b: Builder, s: SummaryEntry): Builder {
    var l := OrGhost(b, s.link);
    var a := OrGhost(l.b, s.adv);
    var ga := GetNode(a.b, a.id);
    var gl := GetNode(ga.b, l.id);
    AddEdge(gl.b, ga.id, gl.id)
  }

  function SummaryEdges(b: Builder, ss: seq<SummaryEntry>): Builder
    decreases |ss|
  {
    if |ss| == 0 then b else SummaryEdges(SummaryEdge(b, ss[0]), ss[1..])
  }

  /** `add_edges`: routers, then networks, then summaries. */
  function AddEdges(b: Builder, t: Topology): Builder {
    SummaryEdges(NetworkEdges(RouterEdges(b, t.routers), t.networks), t.summaries)
  }

  /** The generator's run on one document: `add_nodes` then `add_edges` on a fresh registry. */
  function Build(t: Topology): Builder {
    AddEdges(AddNodes(Fresh, t), t)
  }

  // ---------------------------------------------------------------------------
  // Reading the normalised document
  // ---------------------------------------------------------------------------

  /**
   A value the builder can use as an id: a string, or a falsy None, boolean
   or number. Truthy numbers and booleans, and lists and dicts, are not modelled.
   */
  predicate IsKey(v: Value) {
    v.Str? || ((v.Null? || v.Bool? || v.Int?) && !Truthy(v))
  }

  function KeyOf(v: Value): string
    requires IsKey(v)
  {
    if v.Str? then v.s else ""
  }

  predicate AllKeys(vs: seq<Value>) {
    forall i | 0 <= i < |vs| :: IsKey(vs[i])
  }

  function KeysOf(vs: seq<Value>): seq<string>
    requires AllKeys(vs)
  {
    seq(|vs|, i requires 0 <= i < |vs| => KeyOf(vs[i]))
  }

  /** The list the loop over `entry.get(key, [])` visits, when it can be iterated. */
  function ListAt(e: Value, key: string): Option<seq<Value>>
    requires e.Obj?
  {
    Iter(GetOr(e, key, List([])))
  }

  predicate RouterUsable(r: Value) {
    r.Obj? && IsKey(Get(r, "router_id")) && ListAt(r, "links").Some? && AllKeys(ListAt(r, "links").value)
  }

  predicate NetworkUsable(n: Value) {
    n.Obj? && IsKey(Get(n, "network_id")) && ListAt(n, "attached_routers").Some? && AllKeys(ListAt(n, "attached_routers").value)
  }

  predicate SummaryUsable(s: Value) {
    s.Obj? && IsKey(Get(s, "link")) && IsKey(Get(s, "adv_router"))
  }

  /** A document the builder reads without raising, every id of it a modelled key. */
  predicate Usable(d: Value) {
    && d.Obj?
    && ListAt(d, "routers").Some? && (forall i | 0 <= i < |ListAt(d, "routers").value| :: RouterUsable(ListAt(d, "routers").value[i]))
    && ListAt(d, "networks").Some? && (forall i | 0 <= i < |ListAt(d, "networks").value| :: NetworkUsable(ListAt(d, "networks").value[i]))
    && ListAt(d, "summary").Some? && (forall i | 0 <= i < |ListAt(d, "summary").value| :: SummaryUsable(ListAt(d, "summary").value[i]))
  }

  function RouterEntryOf(r: Value): RouterEntry
    requires RouterUsable(r)
  {
    RouterEntry(KeyOf(Get(r, "router_id")), KeysOf(ListAt(r, "links").value))
  }

  function NetworkEntryOf(n: Value): NetworkEntry
    requires NetworkUsable(n)
  {
    NetworkEntry(KeyOf(Get(n, "network_id")), KeysOf(ListAt(n, "attached_routers").value))
  }

  function SummaryEntryOf(s: Value): SummaryEntry
    requires SummaryUsable(s)
  {
    SummaryEntry(KeyOf(Get(s, "link")), KeyOf(Get(s, "adv_router")))
  }

  function TopologyOf(d: Value): Topology
    requires Usable(d)
  {
    var rs := ListAt(d, "routers").value;
    var ns := ListAt(d, "networks").value;
    var ss := ListAt(d, "summary").value;
    Topology(
      seq(|rs|, i requires 0 <= i < |rs| => RouterEntryOf(rs[i])),
      seq(|ns|, i requires 0 <= i < |ns| => NetworkEntryOf(ns[i])),
      seq(|ss|, i requires 0 <= i < |ss| => SummaryEntryOf(ss[i])))
  }
}

/**
 Properties of the graph builder: the registry maps every id to itself, ghost
 ids come from a counter and are pairwise distinct, every lookup returns a
 registered id, the edge count is the sum of links, attached routers and
 summaries, and no ghost is made exactly when every id is present and every
 target is registered.
 */
module GraphFacts {
  import opened Wrappers
  import opened Text
  import opened GraphBuilder

  predicate IdentityMap(m: map<string, string>) {
    forall k | k in m :: m[k] == k
  }

  /** The ghost ids a counter at `n` has handed out: vNode1 … vNode(n-1). */
  function GhostIds(n: nat): seq<string>
    decreases n
  {
    if n <= 1 then [] else GhostIds(n - 1) + [GhostId(n - 1)]
  }

  /** The ids of the ghost nodes drawn, in drawing order. */
  function GhostsOf(nodes: seq<Node>): seq<string>
    decreases |nodes|
  {
    if |nodes| == 0 then []
    else GhostsOf(nodes[..|nodes| - 1]) + (if nodes[|nodes| - 1].kind == GhostNode then [nodes[|nodes| - 1].id] else [])
  }

  /**
   The registry invariant: ids map to themselves, no falsy id is registered,
   the ghosts drawn are exactly those the counter handed out, and each of them
   is registered.
   */
  predicate Inv(b: Builder) {
    && b.ghostCount >= 1
    && IdentityMap(b.nodeMap)
    && "" !in b.nodeMap
    && GhostsOf(b.nodes) == GhostIds(b.ghostCount)
    && forall n | 1 <= n < b.ghostCount :: GhostId(n) in b.nodeMap
  }

  /** The registry only grows. */
  predicate Grows(b: Builder, c: Builder) {
    forall k | k in b.nodeMap :: k in c.nodeMap
  }

  lemma FreshInv()
    ensures Inv(Fresh)
  {
  }

  lemma GhostsOfAppend(nodes: seq<Node>, x: Node)
    ensures GhostsOf(nodes + [x]) == GhostsOf(nodes) + (if x.kind == GhostNode then [x.id] else [])
  {
    assert (nodes + [x])[..|nodes|] == nodes;
  }

  lemma GhostIdNotEmpty(n: nat)
    ensures GhostId(n) != ""
    ensures |GhostId(n)| > 5
  {
  }

  /** Different counter values give different ghost ids. */
  lemma GhostIdInjective(i: nat, j: nat)
    requires GhostId(i) == GhostId(j)
    ensures i == j
  {
    assert GhostId(i)[5..] == NatToString(i);
    assert GhostId(j)[5..] == NatToString(j);
    NatToStringInjective(i, j);
  }

  lemma {:induction false} GhostIdsAt(n: nat)
    ensures |GhostIds(n)| == if n == 0 then 0 else n - 1
    ensures forall i | 0 <= i < |GhostIds(n)| :: GhostIds(n)[i] == GhostId(i + 1)
    decreases n
  {
    if n > 1 {
      GhostIdsAt(n - 1);
    }
  }

  /** The ghosts a counter hands out are pairwise distinct. */
  lemma GhostIdsDistinct(n: nat)
    ensures forall i, j | 0 <= i < j < |GhostIds(n)| :: GhostIds(n)[i] != GhostIds(n)[j]
  {
    GhostIdsAt(n);
    forall i, j | 0 <= i < j < |GhostIds(n)| ensures GhostIds(n)[i] != GhostIds(n)[j] {
      if GhostIds(n)[i] == GhostIds(n)[j] {
        GhostIdInjective(i + 1, j + 1);
      }
    }
  }

  /**
   `create_ghost_node` names the ghost after the counter, raises the counter by
   exactly one and registers the ghost; nothing else in the registry changes.
   */
  lemma CreateGhostSpec(b: Builder)
    requires Inv(b)
    ensures var r := CreateGhost(b);
      && Inv(r.b)
      && r.id == GhostId(b.ghostCount)
      && r.b.ghostCount == b.ghostCount + 1
      && r.b.nodeMap == b.nodeMap[r.id := r.id]
      && r.b.edges == b.edges
      && r.b.nodes == b.nodes + [Node(r.id, GhostNode)]
  {
    var r := CreateGhost(b);
    GhostsOfAppend(b.nodes, Node(r.id, GhostNode));
    GhostIdNotEmpty(b.ghostCount);
  }

  /**
   `get_node`: a registered id comes back unchanged with nothing else changed;
   any other id gets a fresh ghost. Either way the result is registered.
   */
  lemma GetNodeSpec(b: Builder, key: string)
    requires Inv(b)
    ensures var r := GetNode(b, key);
      && Inv(r.b)
      && r.id in r.b.nodeMap
      && Grows(b, r.b)
      && r.b.edges == b.edges
      && (key in b.nodeMap ==> r == Got(b, key))
      && (key !in b.nodeMap ==> r.id == GhostId(b.ghostCount) && r.b.ghostCount == b.ghostCount + 1)
  {
    if key !in b.nodeMap {
      CreateGhostSpec(b);
    }
  }

  /** `x or self.create_ghost_node()`: a present id is kept, a missing one becomes a registered ghost. */
  lemma OrGhostSpec(b: Builder, key: string)
    requires Inv(b)
    ensures var r := OrGhost(b, key);
      && Inv(r.b)
      && Grows(b, r.b)
      && r.b.edges == b.edges
      && r.id != ""
      && (key != "" ==> r == Got(b, key))
      && (key == "" ==> r.id == GhostId(b.ghostCount) && r.id in r.b.nodeMap && r.b.ghostCount == b.ghostCount + 1)
  {
    if key == "" {
      CreateGhostSpec(b);
      GhostIdNotEmpty(b.ghostCount);
    }
  }

  // ---------------------------------------------------------------------------
  // add_nodes
  // ---------------------------------------------------------------------------

  /**
   One `add_nodes` iteration: a present id is registered (if new) and drawn
   with its kind; a missing id is drawn as a ghost and then drawn again with
   the entry's kind under the ghost's id.
   */
  lemma AddNodeSpec(b: Builder, key: string, kind: NodeKind)
    requires Inv(b) && kind != GhostNode
    ensures var r := AddNode(b, key, kind);
      && Inv(r)
      && Grows(b, r)
      && r.edges == b.edges
      && (key != "" ==> && r.ghostCount == b.ghostCount
                        && r.nodes == b.nodes + [Node(key, kind)]
                        && forall k :: k in r.nodeMap <==> k in b.nodeMap || k == key)
      && (key == "" ==> && r.ghostCount == b.ghostCount + 1
                        && r.nodes == b.nodes + [Node(GhostId(b.ghostCount), GhostNode), Node(GhostId(b.ghostCount), kind)]
                        && forall k :: k in r.nodeMap <==> k in b.nodeMap || k == GhostId(b.ghostCount))
  {
    var g := OrGhost(b, key);
    OrGhostSpec(b, key);
    GhostsOfAppend(g.b.nodes, Node(g.id, kind));
  }

  /** Number of missing (falsy) ids in a list. */
  function Missing(keys: seq<string>): nat
    decreases |keys|
  {
    if |keys| == 0 then 0 else (if keys[0] == "" then 1 else 0) + Missing(keys[1..])
  }

  /** `k` is one of the ghost ids a counter hands out while it goes from `lo` up to `hi`. */
  ghost predicate GhostBetween(lo: nat, hi: nat, k: string) {
    exists n: nat | lo <= n < hi :: k == GhostId(n)
  }

  lemma GhostBetweenSplit(lo: nat, hi: nat, k: string)
    requires lo < hi
    ensures GhostBetween(lo, hi, k) <==> k == GhostId(lo) || GhostBetween(lo + 1, hi, k)
  {
    if k == GhostId(lo) {
      assert lo <= lo < hi;
    }
  }

  /**
   A whole `add_nodes` loop: every present id ends up registered; the counter
   rises by exactly the number of missing ids; one node is drawn per entry plus
   one per ghost; and the registry gains exactly the present ids and the ghosts
   the counter handed out meanwhile (so only the ids when none is missing).
   */
  lemma {:induction false} AddAllSpec(b: Builder, keys: seq<string>, kind: NodeKind)
    requires Inv(b) && kind != GhostNode
    ensures var r := AddAll(b, keys, kind);
      && Inv(r)
      && Grows(b, r)
      && r.edges == b.edges
      && r.ghostCount == b.ghostCount + Missing(keys)
      && |r.nodes| == |b.nodes| + |keys| + Missing(keys)
      && (forall k | k in keys && k != "" :: k in r.nodeMap)
      && (forall k :: k in r.nodeMap <==> k in b.nodeMap || (k in keys && k != "") || GhostBetween(b.ghostCount, r.ghostCount, k))
      && (Missing(keys) == 0 ==> forall k :: k in r.nodeMap <==> k in b.nodeMap || k in keys)
    decreases |keys|
  {
    if |keys| > 0 {
      var c := AddNode(b, keys[0], kind);
      AddNodeSpec(b, keys[0], kind);
      AddAllSpec(c, keys[1..], kind);
      var r := AddAll(b, keys, kind);
      assert r == AddAll(c, keys[1..], kind);
      assert forall k :: k in keys <==> k == keys[0] || k in keys[1..];
      forall k ensures GhostBetween(b.ghostCount, r.ghostCount, k) <==> (keys[0] == "" && k == GhostId(b.ghostCount)) || GhostBetween(c.ghostCount, r.ghostCount, k) {
        if keys[0] == "" {
          GhostBetweenSplit(b.ghostCount, r.ghostCount, k);
        }
      }
    } else {
      assert forall k :: !GhostBetween(b.ghostCount, b.ghostCount, k);
    }
  }

  /** No id of the list is missing exactly when the list has no falsy id. */
  lemma {:induction false} MissingZero(keys: seq<string>)
    ensures Missing(keys) == 0 <==> forall i | 0 <= i < |keys| :: keys[i] != ""
    decreases |keys|
  {
    if |keys| > 0 {
      MissingZero(keys[1..]);
      if Missing(keys) == 0 {
        forall i | 0 <= i < |keys| ensures keys[i] != "" {
          if i > 0 {
            assert keys[i] == keys[1..][i - 1];
          }
        }
      }
      if forall i | 0 <= i < |keys| :: keys[i] != "" {
        assert forall i | 0 <= i < |keys[1..]| :: keys[1..][i] == keys[i + 1];
      }
    }
  }

  /** Every id `add_nodes` registers: router ids, network ids and summary links. */
  function PrimaryIds(t: Topology): seq<string> {
    RouterIds(t.routers) + NetworkIds(t.networks) + SummaryLinks(t.summaries)
  }

  function MissingIds(t: Topology): nat {
    Missing(RouterIds(t.routers)) + Missing(NetworkIds(t.networks)) + Missing(SummaryLinks(t.summaries))
  }

  /**
   `add_nodes`: every present primary id is registered, one ghost is made per
   missing id, and with none missing the registry gains exactly the primary ids.
   */
  lemma AddNodesSpec(b: Builder, t: Topology)
    requires Inv(b)
    ensures var r := AddNodes(b, t);
      && Inv(r)
      && Grows(b, r)
      && r.edges == b.edges
      && r.ghostCount == b.ghostCount + MissingIds(t)
      && |r.nodes| == |b.nodes| + |PrimaryIds(t)| + MissingIds(t)
      && (forall k | k in PrimaryIds(t) && k != "" :: k in r.nodeMap)
      && (MissingIds(t) == 0 ==> forall k :: k in r.nodeMap <==> k in b.nodeMap || k in PrimaryIds(t))
  {
    var rs := RouterIds(t.routers);
    var ns := NetworkIds(t.networks);
    var ss := SummaryLinks(t.summaries);
    var b1 := AddAll(b, rs, RouterNode);
    var b2 := AddAll(b1, ns, NetworkNode);
    var r := AddAll(b2, ss, SummaryNode);
    assert r == AddNodes(b, t);
    AddAllSpec(b, rs, RouterNode);
    AddAllSpec(b1, ns, NetworkNode);
    AddAllSpec(b2, ss, SummaryNode);
    assert Grows(b, r);
    assert PrimaryIds(t) == rs + ns + ss;
    assert forall k :: k in PrimaryIds(t) <==> k in rs || k in ns || k in ss;
  }

  // ---------------------------------------------------------------------------
  // add_edges
  // ---------------------------------------------------------------------------

  /** Every edge drawn so far joins two registered ids. */
  predicate EdgesRegistered(b: Builder) {
    forall i | 0 <= i < |b.edges| :: b.edges[i].src in b.nodeMap && b.edges[i].dst in b.nodeMap
  }

  /** The edges `c` has drawn beyond those of `b`. */
  function Added(b: Builder, c: Builder): seq<Edge>
    requires |b.edges| <= |c.edges|
  {
    c.edges[|b.edges|..]
  }

  lemma EdgesStayRegistered(b: Builder, c: Builder)
    requires EdgesRegistered(b) && Grows(b, c)
    requires |b.edges| <= |c.edges| && c.edges[..|b.edges|] == b.edges
    requires forall i | 0 <= i < |Added(b, c)| :: Added(b, c)[i].src in c.nodeMap && Added(b, c)[i].dst in c.nodeMap
    ensures EdgesRegistered(c)
  {
    forall i | 0 <= i < |c.edges| ensures c.edges[i].src in c.nodeMap && c.edges[i].dst in c.nodeMap {
      if i < |b.edges| {
        assert c.edges[i] == b.edges[i];
      } else {
        assert c.edges[i] == Added(b, c)[i - |b.edges|];
      }
    }
  }

  /**
   The edges of one router: one per link, in link order, each from the raw
   router id to the link's target as `get_node` resolves it; a registered
   target is used as it is.
   */
  lemma {:induction false} LinkEdgesSpec(b: Builder, rid: string, links: seq<string>)
    requires Inv(b)
    ensures var r := LinkEdges(b, rid, links);
      && Inv(r)
      && Grows(b, r)
      && r.ghostCount >= b.ghostCount
      && |r.edges| == |b.edges| + |links|
      && r.edges[..|b.edges|] == b.edges
      && (forall i | 0 <= i < |links| :: Added(b, r)[i].src == rid && Added(b, r)[i].dst in r.nodeMap)
      && (forall i | 0 <= i < |links| && links[i] in b.nodeMap :: Added(b, r)[i].dst == links[i])
    decreases |links|
  {
    if |links| > 0 {
      var t := OrGhost(b, links[0]);
      OrGhostSpec(b, links[0]);
      var n := GetNode(t.b, t.id);
      GetNodeSpec(t.b, t.id);
      var c := AddEdge(n.b, rid, n.id);
      LinkEdgesSpec(c, rid, links[1..]);
      var r := LinkEdges(b, rid, links);
      assert r == LinkEdges(c, rid, links[1..]);
      assert r.edges[..|c.edges|] == c.edges;
      assert r.edges[..|b.edges|] == b.edges by {
        assert c.edges[..|b.edges|] == b.edges;
      }
      assert r.edges[|b.edges|] == Edge(rid, n.id) by {
        assert c.edges[|b.edges|] == Edge(rid, n.id);
      }
      forall i | 0 <= i < |links|
        ensures Added(b, r)[i].src == rid && Added(b, r)[i].dst in r.nodeMap
        ensures links[i] in b.nodeMap ==> Added(b, r)[i].dst == links[i]
      {
        if i > 0 {
          assert links[i] == links[1..][i - 1];
          assert Added(b, r)[i] == Added(c, r)[i - 1];
        } else if links[0] in b.nodeMap {
          assert t == Got(b, links[0]);
          assert n.id == links[0];
        }
      }
    }
  }

  /** Ids a router's edges resolve without making a ghost: present and registered. */
  predicate AllRegistered(m: map<string, string>, keys: seq<string>) {
    forall i | 0 <= i < |keys| :: keys[i] in m
  }

  /**
   A router's edges make no ghost exactly when every link target is already
   registered; then the registry is left as it was.
   */
  lemma {:induction false} LinkEdgesGhosts(b: Builder, rid: string, links: seq<string>)
    requires Inv(b)
    ensures var r := LinkEdges(b, rid, links);
      && (r.ghostCount == b.ghostCount <==> AllRegistered(b.nodeMap, links))
      && (r.ghostCount == b.ghostCount ==> r.nodeMap == b.nodeMap)
    decreases |links|
  {
    if |links| > 0 {
      var t := OrGhost(b, links[0]);
      OrGhostSpec(b, links[0]);
      var n := GetNode(t.b, t.id);
      GetNodeSpec(t.b, t.id);
      var c := AddEdge(n.b, rid, n.id);
      LinkEdgesSpec(c, rid, links[1..]);
      LinkEdgesGhosts(c, rid, links[1..]);
      var r := LinkEdges(b, rid, links);
      assert r == LinkEdges(c, rid, links[1..]);
      if links[0] in b.nodeMap {
        assert c.nodeMap == b.nodeMap && c.ghostCount == b.ghostCount;
        assert AllRegistered(b.nodeMap, links) <==> AllRegistered(b.nodeMap, links[1..]) by {
          forall i | 0 <= i < |links[1..]| ensures links[1..][i] == links[i + 1] { }
        }
      } else {
        assert c.ghostCount > b.ghostCount;
        assert !AllRegistered(b.nodeMap, links);
      }
    }
  }

  function LinkCount(rs: seq<RouterEntry>): nat
    decreases |rs|
  {
    if |rs| == 0 then 0 else |rs[0].links| + LinkCount(rs[1..])
  }

  /** The source each router edge should have: the router's id once per link, routers in order. */
  function RouterSources(rs: seq<RouterEntry>): (r: seq<string>)
    decreases |rs|
  {
    if |rs| == 0 then [] else seq(|rs[0].links|, j => rs[0].id) + RouterSources(rs[1..])
  }

  lemma {:induction false} RouterSourcesLength(rs: seq<RouterEntry>)
    ensures |RouterSources(rs)| == LinkCount(rs)
    decreases |rs|
  {
    if |rs| > 0 {
      RouterSourcesLength(rs[1..]);
    }
  }

  lemma AddedSplit(b: Builder, c: Builder, r: Builder)
    requires |b.edges| <= |c.edges| <= |r.edges|
    requires c.edges[..|b.edges|] == b.edges && r.edges[..|c.edges|] == c.edges
    ensures r.edges[..|b.edges|] == b.edges
    ensures Added(b, r) == Added(b, c) + Added(c, r)
  {
    assert r.edges[..|b.edges|] == r.edges[..|c.edges|][..|b.edges|];
  }

  /**
   `add_edges` for the routers: one edge per link; every router edge whose
   router has an id starts at that id exactly as written, not at a looked-up
   node; ghosts are made only for missing ids and unregistered targets.
   */
  lemma {:induction false} RouterEdgesSpec(b: Builder, rs: seq<RouterEntry>)
    requires Inv(b)
    ensures var r := RouterEdges(b, rs);
      && Inv(r)
      && Grows(b, r)
      && r.ghostCount >= b.ghostCount
      && |r.edges| == |b.edges| + LinkCount(rs)
      && r.edges[..|b.edges|] == b.edges
      && |RouterSources(rs)| == |Added(b, r)|
      && (forall k | 0 <= k < |Added(b, r)| && RouterSources(rs)[k] != "" :: Added(b, r)[k].src == RouterSources(rs)[k])
      && ((EdgesRegistered(b) && forall i | 0 <= i < |rs| && rs[i].id != "" :: rs[i].id in b.nodeMap) ==> EdgesRegistered(r))
    decreases |rs|
  {
    RouterSourcesLength(rs);
    if |rs| > 0 {
      var g := OrGhost(b, rs[0].id);
      OrGhostSpec(b, rs[0].id);
      var c := LinkEdges(g.b, g.id, rs[0].links);
      LinkEdgesSpec(g.b, g.id, rs[0].links);
      RouterEdgesSpec(c, rs[1..]);
      var r := RouterEdges(b, rs);
      assert r == RouterEdges(c, rs[1..]);
      AddedSplit(b, c, r);
      var n0 := |rs[0].links|;
      assert RouterSources(rs) == seq(n0, j => rs[0].id) + RouterSources(rs[1..]);
      forall k | 0 <= k < |Added(b, r)| && RouterSources(rs)[k] != "" ensures Added(b, r)[k].src == RouterSources(rs)[k] {
        if k < n0 {
          assert Added(b, r)[k] == Added(g.b, c)[k];
          assert RouterSources(rs)[k] == rs[0].id;
        } else {
          assert Added(b, r)[k] == Added(c, r)[k - n0];
          assert RouterSources(rs)[k] == RouterSources(rs[1..])[k - n0];
        }
      }
      if EdgesRegistered(b) && forall i | 0 <= i < |rs| && rs[i].id != "" :: rs[i].id in b.nodeMap {
        assert g.id in g.b.nodeMap;
        assert Added(b, c) == Added(g.b, c);
        EdgesStayRegistered(b, c);
        forall i | 0 <= i < |rs[1..]| && rs[1..][i].id != "" ensures rs[1..][i].id in c.nodeMap {
          assert rs[1..][i] == rs[i + 1];
        }
      }
    }
  }

  /** Every router has an id and every link target is registered in `m`. */
  predicate RoutersResolved(m: map<string, string>, rs: seq<RouterEntry>) {
    forall i | 0 <= i < |rs| :: rs[i].id != "" && AllRegistered(m, rs[i].links)
  }

  /** The routers' edges make no ghost exactly when every router has an id and every link target is registered. */
  lemma {:induction false} RouterEdgesGhosts(b: Builder, rs: seq<RouterEntry>)
    requires Inv(b)
    ensures var r := RouterEdges(b, rs);
      && (r.ghostCount == b.ghostCount <==> RoutersResolved(b.nodeMap, rs))
      && (r.ghostCount == b.ghostCount ==> r.nodeMap == b.nodeMap)
    decreases |rs|
  {
    if |rs| > 0 {
      var g := OrGhost(b, rs[0].id);
      OrGhostSpec(b, rs[0].id);
      var c := LinkEdges(g.b, g.id, rs[0].links);
      assert Inv(c) && c.ghostCount >= g.b.ghostCount by {
        LinkEdgesSpec(g.b, g.id, rs[0].links);
      }
      LinkEdgesGhosts(g.b, g.id, rs[0].links);
      assert RouterEdges(c, rs[1..]).ghostCount >= c.ghostCount by {
        RouterEdgesSpec(c, rs[1..]);
      }
      RouterEdgesGhosts(c, rs[1..]);
      var r := RouterEdges(b, rs);
      assert r == RouterEdges(c, rs[1..]);
      if rs[0].id != "" && AllRegistered(b.nodeMap, rs[0].links) {
        assert c.nodeMap == b.nodeMap && c.ghostCount == b.ghostCount;
        assert RoutersResolved(b.nodeMap, rs) <==> RoutersResolved(b.nodeMap, rs[1..]) by {
          forall i | 0 <= i < |rs[1..]| ensures rs[1..][i] == rs[i + 1] { }
        }
      } else {
        assert c.ghostCount > b.ghostCount;
        assert !RoutersResolved(b.nodeMap, rs) by {
          assert !(rs[0].id != "" && AllRegistered(b.nodeMap, rs[0].links));
        }
      }
    }
  }

  /**
   The edges of one network: one per attached router, each from that router as
   `get_node` resolves it to the (registered) network id.
   */
  lemma {:induction false} AttachedEdgesSpec(b: Builder, nid: string, attached: seq<string>)
    requires Inv(b) && nid in b.nodeMap
    ensures var r := AttachedEdges(b, nid, attached);
      && Inv(r)
      && Grows(b, r)
      && r.ghostCount >= b.ghostCount
      && |r.edges| == |b.edges| + |attached|
      && r.edges[..|b.edges|] == b.edges
      && (forall i | 0 <= i < |attached| :: Added(b, r)[i].dst == nid && Added(b, r)[i].src in r.nodeMap)
      && (forall i | 0 <= i < |attached| && attached[i] in b.nodeMap :: Added(b, r)[i].src == attached[i])
    decreases |attached|
  {
    if |attached| > 0 {
      var a := GetNode(b, attached[0]);
      GetNodeSpec(b, attached[0]);
      var n := GetNode(a.b, nid);
      GetNodeSpec(a.b, nid);
      var c := AddEdge(n.b, a.id, n.id);
      AttachedEdgesSpec(c, nid, attached[1..]);
      var r := AttachedEdges(b, nid, attached);
      assert r == AttachedEdges(c, nid, attached[1..]);
      assert n.id == nid;
      assert r.edges[..|c.edges|] == c.edges;
      assert r.edges[..|b.edges|] == b.edges by {
        assert c.edges[..|b.edges|] == b.edges;
      }
      assert Added(b, r)[0] == Edge(a.id, nid) by {
        assert c.edges[|b.edges|] == Edge(a.id, nid);
      }
      forall i | 0 <= i < |attached|
        ensures Added(b, r)[i].dst == nid && Added(b, r)[i].src in r.nodeMap
        ensures attached[i] in b.nodeMap ==> Added(b, r)[i].src == attached[i]
      {
        if i > 0 {
          assert attached[i] == attached[1..][i - 1];
          assert Added(b, r)[i] == Added(c, r)[i - 1];
        }
      }
    }
  }

  /**
   One network's edges make no ghost exactly when every attached router is
   already registered; then the registry is left as it was.
   */
  lemma {:induction false} AttachedEdgesGhosts(b: Builder, nid: string, attached: seq<string>)
    requires Inv(b) && nid in b.nodeMap
    ensures var r := AttachedEdges(b, nid, attached);
      && (r.ghostCount == b.ghostCount <==> AllRegistered(b.nodeMap, attached))
      && (r.ghostCount == b.ghostCount ==> r.nodeMap == b.nodeMap)
    decreases |attached|
  {
    if |attached| > 0 {
      var a := GetNode(b, attached[0]);
      GetNodeSpec(b, attached[0]);
      var n := GetNode(a.b, nid);
      GetNodeSpec(a.b, nid);
      var c := AddEdge(n.b, a.id, n.id);
      assert AttachedEdges(c, nid, attached[1..]).ghostCount >= c.ghostCount by {
        AttachedEdgesSpec(c, nid, attached[1..]);
      }
      AttachedEdgesGhosts(c, nid, attached[1..]);
      assert AttachedEdges(b, nid, attached) == AttachedEdges(c, nid, attached[1..]);
      assert AllRegistered(b.nodeMap, attached) <==> attached[0] in b.nodeMap && AllRegistered(b.nodeMap, attached[1..]) by {
        assert forall i | 0 <= i < |attached[1..]| :: attached[1..][i] == attached[i + 1];
      }
      if attached[0] in b.nodeMap {
        assert c.nodeMap == b.nodeMap && c.ghostCount == b.ghostCount;
      } else {
        assert c.ghostCount > b.ghostCount;
      }
    }
  }

  function AttachedCount(ns: seq<NetworkEntry>): nat
    decreases |ns|
  {
    if |ns| == 0 then 0 else |ns[0].attached| + AttachedCount(ns[1..])
  }

  /** The target each network edge should have: the network's id once per attached router. */
  function NetworkTargets(ns: seq<NetworkEntry>): seq<string>
    decreases |ns|
  {
    if |ns| == 0 then [] else seq(|ns[0].attached|, j => ns[0].id) + NetworkTargets(ns[1..])
  }

  lemma {:induction false} NetworkTargetsLength(ns: seq<NetworkEntry>)
    ensures |NetworkTargets(ns)| == AttachedCount(ns)
    decreases |ns|
  {
    if |ns| > 0 {
      NetworkTargetsLength(ns[1..]);
    }
  }

  predicate IdsRegistered(m: map<string, string>, ids: seq<string>) {
    forall i | 0 <= i < |ids| && ids[i] != "" :: ids[i] in m
  }

  /**
   `add_edges` for the networks, once their ids are registered: one edge per
   attached router, each ending at its network's id.
   */
  lemma {:induction false} NetworkEdgesSpec(b: Builder, ns: seq<NetworkEntry>)
    requires Inv(b) && IdsRegistered(b.nodeMap, NetworkIds(ns))
    ensures var r := NetworkEdges(b, ns);
      && Inv(r)
      && Grows(b, r)
      && r.ghostCount >= b.ghostCount
      && |r.edges| == |b.edges| + AttachedCount(ns)
      && r.edges[..|b.edges|] == b.edges
      && |NetworkTargets(ns)| == |Added(b, r)|
      && (forall k | 0 <= k < |Added(b, r)| && NetworkTargets(ns)[k] != "" :: Added(b, r)[k].dst == NetworkTargets(ns)[k])
      && (EdgesRegistered(b) ==> EdgesRegistered(r))
    decreases |ns|
  {
    NetworkTargetsLength(ns);
    if |ns| > 0 {
      var g := OrGhost(b, ns[0].id);
      OrGhostSpec(b, ns[0].id);
      assert NetworkIds(ns)[0] == ns[0].id;
      assert g.id in g.b.nodeMap;
      var c := AttachedEdges(g.b, g.id, ns[0].attached);
      AttachedEdgesSpec(g.b, g.id, ns[0].attached);
      NetworkIdsTail(b, c, ns);
      NetworkEdgesSpec(c, ns[1..]);
      var r := NetworkEdges(b, ns);
      assert r == NetworkEdges(c, ns[1..]);
      AddedSplit(b, c, r);
      var n0 := |ns[0].attached|;
      assert NetworkTargets(ns) == seq(n0, j => ns[0].id) + NetworkTargets(ns[1..]);
      forall k | 0 <= k < |Added(b, r)| && NetworkTargets(ns)[k] != "" ensures Added(b, r)[k].dst == NetworkTargets(ns)[k] {
        if k < n0 {
          assert Added(b, r)[k] == Added(g.b, c)[k];
          assert NetworkTargets(ns)[k] == ns[0].id;
        } else {
          assert Added(b, r)[k] == Added(c, r)[k - n0];
          assert NetworkTargets(ns)[k] == NetworkTargets(ns[1..])[k - n0];
        }
      }
      if EdgesRegistered(b) {
        assert Added(b, c) == Added(g.b, c);
        EdgesStayRegistered(b, c);
      }
    }
  }

  /** Every network has an id and every attached router is registered in `m`. */
  predicate NetworksResolved(m: map<string, string>, ns: seq<NetworkEntry>) {
    forall i | 0 <= i < |ns| :: ns[i].id != "" && AllRegistered(m, ns[i].attached)
  }

  /** The network ids after the first stay registered in a registry that has grown. */
  lemma NetworkIdsTail(b: Builder, c: Builder, ns: seq<NetworkEntry>)
    requires |ns| > 0 && IdsRegistered(b.nodeMap, NetworkIds(ns)) && Grows(b, c)
    ensures IdsRegistered(c.nodeMap, NetworkIds(ns[1..]))
  {
    forall i | 0 <= i < |ns[1..]| ensures NetworkIds(ns[1..])[i] == NetworkIds(ns)[i + 1] { }
  }

  /** A list of networks is resolved exactly when its first network is and the rest are. */
  lemma NetworksResolvedCons(m: map<string, string>, ns: seq<NetworkEntry>)
    requires |ns| > 0
    ensures NetworksResolved(m, ns) <==> ns[0].id != "" && AllRegistered(m, ns[0].attached) && NetworksResolved(m, ns[1..])
  {
    assert forall i | 0 <= i < |ns[1..]| :: ns[1..][i] == ns[i + 1];
  }

  /** One network's edges make no ghost exactly when it has an id and all its attached routers are registered. */
  lemma NetworkHeadGhosts(b: Builder, n: NetworkEntry)
    requires Inv(b) && (n.id != "" ==> n.id in b.nodeMap)
    ensures var g := OrGhost(b, n.id);
      var c := AttachedEdges(g.b, g.id, n.attached);
      && Inv(c) && Grows(b, c) && c.ghostCount >= b.ghostCount
      && (c.ghostCount == b.ghostCount <==> n.id != "" && AllRegistered(b.nodeMap, n.attached))
      && (c.ghostCount == b.ghostCount ==> c.nodeMap == b.nodeMap)
  {
    var g := OrGhost(b, n.id);
    OrGhostSpec(b, n.id);
    AttachedEdgesSpec(g.b, g.id, n.attached);
    AttachedEdgesGhosts(g.b, g.id, n.attached);
  }

  lemma {:induction false} NetworkEdgesGhosts(b: Builder, ns: seq<NetworkEntry>)
    requires Inv(b) && IdsRegistered(b.nodeMap, NetworkIds(ns))
    ensures var r := NetworkEdges(b, ns);
      && (r.ghostCount == b.ghostCount <==> NetworksResolved(b.nodeMap, ns))
      && (r.ghostCount == b.ghostCount ==> r.nodeMap == b.nodeMap)
    decreases |ns|
  {
    if |ns| > 0 {
      assert NetworkIds(ns)[0] == ns[0].id;
      var g := OrGhost(b, ns[0].id);
      var c := AttachedEdges(g.b, g.id, ns[0].attached);
      NetworkHeadGhosts(b, ns[0]);
      NetworkIdsTail(b, c, ns);
      assert NetworkEdges(c, ns[1..]).ghostCount >= c.ghostCount by {
        NetworkEdgesSpec(c, ns[1..]);
      }
      NetworkEdgesGhosts(c, ns[1..]);
      NetworksResolvedCons(b.nodeMap, ns);
      assert NetworkEdges(b, ns) == NetworkEdges(c, ns[1..]);
    }
  }

  /**
   The edge of one summary: from the advertising router to the summary's link,
   both resolved through `get_node`; a ghost is made exactly when the link is
   missing or the advertising router is not registered.
   */
  lemma SummaryEdgeSpec(b: Builder, sm: SummaryEntry)
    requires Inv(b) && (sm.link != "" ==> sm.link in b.nodeMap)
    ensures var r := SummaryEdge(b, sm);
      && Inv(r)
      && Grows(b, r)
      && r.ghostCount >= b.ghostCount
      && |r.edges| == |b.edges| + 1
      && r.edges[..|b.edges|] == b.edges
      && r.edges[|b.edges|].src in r.nodeMap && r.edges[|b.edges|].dst in r.nodeMap
      && (sm.link != "" ==> r.edges[|b.edges|].dst == sm.link)
      && (sm.adv in b.nodeMap ==> r.edges[|b.edges|].src == sm.adv)
      && (r.ghostCount == b.ghostCount <==> sm.link != "" && sm.adv in b.nodeMap)
      && (r.ghostCount == b.ghostCount ==> r.nodeMap == b.nodeMap)
  {
    var l := OrGhost(b, sm.link);
    OrGhostSpec(b, sm.link);
    var a := OrGhost(l.b, sm.adv);
    OrGhostSpec(l.b, sm.adv);
    var ga := GetNode(a.b, a.id);
    GetNodeSpec(a.b, a.id);
    assert l.id in ga.b.nodeMap;
    var gl := GetNode(ga.b, l.id);
    GetNodeSpec(ga.b, l.id);
    var r := SummaryEdge(b, sm);
    assert r.edges == b.edges + [Edge(ga.id, gl.id)];
  }

  /** `add_edges` for the summaries, once their links are registered: exactly one edge per summary. */
  lemma {:induction false} SummaryEdgesSpec(b: Builder, ss: seq<SummaryEntry>)
    requires Inv(b) && IdsRegistered(b.nodeMap, SummaryLinks(ss))
    ensures var r := SummaryEdges(b, ss);
      && Inv(r)
      && Grows(b, r)
      && r.ghostCount >= b.ghostCount
      && |r.edges| == |b.edges| + |ss|
      && r.edges[..|b.edges|] == b.edges
      && (forall k | 0 <= k < |ss| && ss[k].link != "" :: Added(b, r)[k].dst == ss[k].link)
      && (EdgesRegistered(b) ==> EdgesRegistered(r))
    decreases |ss|
  {
    if |ss| > 0 {
      assert SummaryLinks(ss)[0] == ss[0].link;
      var c := SummaryEdge(b, ss[0]);
      SummaryEdgeSpec(b, ss[0]);
      SummaryLinksTail(b, c, ss);
      SummaryEdgesSpec(c, ss[1..]);
      var r := SummaryEdges(b, ss);
      assert r == SummaryEdges(c, ss[1..]);
      AddedSplit(b, c, r);
      assert Added(b, c) == [c.edges[|b.edges|]];
      forall k | 0 <= k < |ss| && ss[k].link != "" ensures Added(b, r)[k].dst == ss[k].link {
        if k > 0 {
          assert ss[k] == ss[1..][k - 1];
          assert Added(b, r)[k] == Added(c, r)[k - 1];
        }
      }
      if EdgesRegistered(b) {
        EdgesStayRegistered(b, c);
      }
    }
  }

  /** Every summary has a link and a registered advertising router. */
  predicate SummariesResolved(m: map<string, string>, ss: seq<SummaryEntry>) {
    forall k | 0 <= k < |ss| :: ss[k].link != "" && ss[k].adv in m
  }

  /** The links after the first stay registered in a registry that has grown. */
  lemma SummaryLinksTail(b: Builder, c: Builder, ss: seq<SummaryEntry>)
    requires |ss| > 0 && IdsRegistered(b.nodeMap, SummaryLinks(ss)) && Grows(b, c)
    ensures IdsRegistered(c.nodeMap, SummaryLinks(ss[1..]))
  {
    forall i | 0 <= i < |ss[1..]| ensures SummaryLinks(ss[1..])[i] == SummaryLinks(ss)[i + 1] { }
  }

  /** A list of summaries is resolved exactly when its first summary is and the rest are. */
  lemma SummariesResolvedCons(m: map<string, string>, ss: seq<SummaryEntry>)
    requires |ss| > 0
    ensures SummariesResolved(m, ss) <==> ss[0].link != "" && ss[0].adv in m && SummariesResolved(m, ss[1..])
  {
    assert forall k | 0 <= k < |ss[1..]| :: ss[1..][k] == ss[k + 1];
  }

  lemma {:induction false} SummaryEdgesGhosts(b: Builder, ss: seq<SummaryEntry>)
    requires Inv(b) && IdsRegistered(b.nodeMap, SummaryLinks(ss))
    ensures var r := SummaryEdges(b, ss);
      && (r.ghostCount == b.ghostCount <==> SummariesResolved(b.nodeMap, ss))
      && (r.ghostCount == b.ghostCount ==> r.nodeMap == b.nodeMap)
    decreases |ss|
  {
    if |ss| > 0 {
      assert SummaryLinks(ss)[0] == ss[0].link;
      var c := SummaryEdge(b, ss[0]);
      assert && Inv(c) && Grows(b, c) && c.ghostCount >= b.ghostCount
             && (c.ghostCount == b.ghostCount <==> ss[0].link != "" && ss[0].adv in b.nodeMap)
             && (c.ghostCount == b.ghostCount ==> c.nodeMap == b.nodeMap) by {
        SummaryEdgeSpec(b, ss[0]);
      }
      SummaryLinksTail(b, c, ss);
      assert SummaryEdges(c, ss[1..]).ghostCount >= c.ghostCount by {
        SummaryEdgesSpec(c, ss[1..]);
      }
      SummaryEdgesGhosts(c, ss[1..]);
      var r := SummaryEdges(b, ss);
      assert r == SummaryEdges(c, ss[1..]);
      SummariesResolvedCons(b.nodeMap, ss);
    }
  }

  // ---------------------------------------------------------------------------
  // A whole run
  // ---------------------------------------------------------------------------

  lemma {:induction false} MissingAppend(a: seq<string>, c: seq<string>)
    ensures Missing(a + c) == Missing(a) + Missing(c)
    decreases |a|
  {
    if |a| > 0 {
      assert (a + c)[1..] == a[1..] + c;
      MissingAppend(a[1..], c);
    } else {
      assert a + c == c;
    }
  }

  lemma MissingIdsOfPrimary(t: Topology)
    ensures MissingIds(t) == Missing(PrimaryIds(t))
  {
    MissingAppend(RouterIds(t.routers), NetworkIds(t.networks));
    MissingAppend(RouterIds(t.routers) + NetworkIds(t.networks), SummaryLinks(t.summaries));
  }

  /** The registry right after `add_nodes`, and what `add_edges` may rely on. */
  lemma AfterNodes(t: Topology)
    ensures var b := AddNodes(Fresh, t);
      && Inv(b)
      && b.edges == []
      && EdgesRegistered(b)
      && b.ghostCount == 1 + MissingIds(t)
      && IdsRegistered(b.nodeMap, RouterIds(t.routers))
      && IdsRegistered(b.nodeMap, NetworkIds(t.networks))
      && IdsRegistered(b.nodeMap, SummaryLinks(t.summaries))
      && (MissingIds(t) == 0 ==> forall k :: k in b.nodeMap <==> k in PrimaryIds(t))
  {
    var b := AddNodes(Fresh, t);
    FreshInv();
    AddNodesSpec(Fresh, t);
    var rs := RouterIds(t.routers);
    var ns := NetworkIds(t.networks);
    var ss := SummaryLinks(t.summaries);
    forall i | 0 <= i < |rs| && rs[i] != "" ensures rs[i] in b.nodeMap {
      assert rs[i] in PrimaryIds(t);
    }
    forall i | 0 <= i < |ns| && ns[i] != "" ensures ns[i] in b.nodeMap {
      assert ns[i] in PrimaryIds(t);
    }
    forall i | 0 <= i < |ss| && ss[i] != "" ensures ss[i] in b.nodeMap {
      assert ss[i] in PrimaryIds(t);
    }
  }

  /**
   A run of the generator: the registry invariant holds, every edge joins two
   registered nodes, the edges number exactly the router links plus the
   attached routers plus the summaries (nothing is merged), and the ghosts
   drawn are vNode1, vNode2, … in order, pairwise distinct.
   */
  lemma BuildSpec(t: Topology)
    ensures var r := Build(t);
      && Inv(r)
      && EdgesRegistered(r)
      && |r.edges| == LinkCount(t.routers) + AttachedCount(t.networks) + |t.summaries|
      && GhostsOf(r.nodes) == GhostIds(r.ghostCount)
      && forall i, j | 0 <= i < j < |GhostsOf(r.nodes)| :: GhostsOf(r.nodes)[i] != GhostsOf(r.nodes)[j]
  {
    var b0 := AddNodes(Fresh, t);
    AfterNodes(t);
    var b1 := RouterEdges(b0, t.routers);
    RouterEdgesSpec(b0, t.routers);
    assert forall i | 0 <= i < |t.routers| && t.routers[i].id != "" :: t.routers[i].id in b0.nodeMap by {
      forall i | 0 <= i < |t.routers| && t.routers[i].id != "" ensures t.routers[i].id in b0.nodeMap {
        assert RouterIds(t.routers)[i] == t.routers[i].id;
      }
    }
    var b2 := NetworkEdges(b1, t.networks);
    NetworkEdgesSpec(b1, t.networks);
    SummaryEdgesSpec(b2, t.summaries);
    GhostIdsDistinct(Build(t).ghostCount);
  }

  /**
   Router edges come first in the edge list, and each edge of a router that
   has an id starts at that id as written in the document.
   */
  lemma BuildRouterSources(t: Topology)
    ensures var r := Build(t);
      && LinkCount(t.routers) <= |r.edges|
      && |RouterSources(t.routers)| == LinkCount(t.routers)
      && forall k | 0 <= k < LinkCount(t.routers) && RouterSources(t.routers)[k] != "" :: r.edges[k].src == RouterSources(t.routers)[k]
  {
    var b0 := AddNodes(Fresh, t);
    AfterNodes(t);
    var b1 := RouterEdges(b0, t.routers);
    RouterEdgesSpec(b0, t.routers);
    var b2 := NetworkEdges(b1, t.networks);
    NetworkEdgesSpec(b1, t.networks);
    var r := Build(t);
    SummaryEdgesSpec(b2, t.summaries);
    assert r.edges[..|b1.edges|] == b1.edges by {
      assert r.edges[..|b1.edges|] == r.edges[..|b2.edges|][..|b1.edges|];
    }
    forall k | 0 <= k < LinkCount(t.routers) && RouterSources(t.routers)[k] != "" ensures r.edges[k].src == RouterSources(t.routers)[k] {
      assert r.edges[k] == b1.edges[k] == Added(b0, b1)[k];
    }
  }

  /** Every router, network and summary has its primary id. */
  predicate AllNamed(t: Topology) {
    forall k | 0 <= k < |PrimaryIds(t)| :: PrimaryIds(t)[k] != ""
  }

  /** Every link target, attached router and advertising router is one of the primary ids. */
  predicate AllResolved(t: Topology) {
    && (forall i, j | 0 <= i < |t.routers| && 0 <= j < |t.routers[i].links| :: t.routers[i].links[j] in PrimaryIds(t))
    && (forall i, j | 0 <= i < |t.networks| && 0 <= j < |t.networks[i].attached| :: t.networks[i].attached[j] in PrimaryIds(t))
    && (forall k | 0 <= k < |t.summaries| :: t.summaries[k].adv in PrimaryIds(t))
  }

  lemma AllNamedIff(t: Topology)
    ensures AllNamed(t) <==> MissingIds(t) == 0
  {
    MissingIdsOfPrimary(t);
    MissingZero(PrimaryIds(t));
  }

  /** With every primary id present, naming the registry is the same as naming a primary id. */
  lemma ResolvedIff(t: Topology, m: map<string, string>)
    requires AllNamed(t)
    requires forall k :: k in m <==> k in PrimaryIds(t)
    ensures AllResolved(t) <==> RoutersResolved(m, t.routers) && NetworksResolved(m, t.networks) && SummariesResolved(m, t.summaries)
  {
    forall i | 0 <= i < |t.routers| ensures t.routers[i].id != "" {
      assert PrimaryIds(t)[i] == t.routers[i].id;
    }
    forall i | 0 <= i < |t.networks| ensures t.networks[i].id != "" {
      assert PrimaryIds(t)[|t.routers| + i] == t.networks[i].id;
    }
    forall k | 0 <= k < |t.summaries| ensures t.summaries[k].link != "" {
      assert PrimaryIds(t)[|t.routers| + |t.networks| + k] == t.summaries[k].link;
    }
  }

  /**
   The ghost counter ends the run at 1 — no ghost is ever made — exactly when
   every primary id is present and every link target, attached router and
   advertising router is one of the primary ids.
   */
  lemma NoGhostsIff(t: Topology)
    ensures Build(t).ghostCount == 1 <==> AllNamed(t) && AllResolved(t)
  {
    var b0 := AddNodes(Fresh, t);
    AfterNodes(t);
    var b1 := RouterEdges(b0, t.routers);
    RouterEdgesSpec(b0, t.routers);
    RouterEdgesGhosts(b0, t.routers);
    var b2 := NetworkEdges(b1, t.networks);
    NetworkEdgesSpec(b1, t.networks);
    NetworkEdgesGhosts(b1, t.networks);
    var r := Build(t);
    SummaryEdgesSpec(b2, t.summaries);
    SummaryEdgesGhosts(b2, t.summaries);
    AllNamedIff(t);
    if AllNamed(t) {
      ResolvedIff(t, b0.nodeMap);
      if AllResolved(t) {
        assert b1.nodeMap == b0.nodeMap && b1.ghostCount == 1;
        assert b2.nodeMap == b0.nodeMap && b2.ghostCount == 1;
      }
    }
  }

  // ---------------------------------------------------------------------------
  // Two concrete runs
  // ---------------------------------------------------------------------------

  lemma FirstGhostIds()
    ensures GhostId(1) == "vNode1" && GhostId(2) == "vNode2"
  {
    assert NatToString(1) == "1";
    assert NatToString(2) == "2";
  }

  /**
   Ghost ids are distinct from each other but not from real ids: a router
   literally named vNode1 and a network without an id end up drawn as the same
   node, and the network's edge phase makes a second ghost.
   */
  lemma GhostCanShareRouterId()
    ensures var r := Build(Topology([RouterEntry("vNode1", [])], [NetworkEntry("", [])], []));
      && r.nodes == [Node("vNode1", RouterNode), Node("vNode1", GhostNode), Node("vNode1", NetworkNode), Node("vNode2", GhostNode)]
      && r.ghostCount == 3
      && r.edges == []
  {
    FirstGhostIds();
    var t := Topology([RouterEntry("vNode1", [])], [NetworkEntry("", [])], []);
    var b1 := AddNode(Fresh, "vNode1", RouterNode);
    assert b1 == Builder(map["vNode1" := "vNode1"], 1, [Node("vNode1", RouterNode)], []);
    assert AddAll(Fresh, RouterIds(t.routers), RouterNode) == b1 by {
      assert RouterIds(t.routers) == ["vNode1"];
      assert ["vNode1"][1..] == [];
    }
    var b2 := AddNode(b1, "", NetworkNode);
    assert b2 == Builder(map["vNode1" := "vNode1"], 2, [Node("vNode1", RouterNode), Node("vNode1", GhostNode), Node("vNode1", NetworkNode)], []);
    assert AddAll(b1, NetworkIds(t.networks), NetworkNode) == b2 by {
      assert NetworkIds(t.networks) == [""];
      assert [""][1..] == [];
    }
    assert SummaryLinks(t.summaries) == [];
    assert AddNodes(Fresh, t) == b2;
    assert RouterEdges(b2, t.routers) == b2 by {
      assert t.routers[1..] == [];
    }
    var b3 := CreateGhost(b2).b;
    assert NetworkEdges(b2, t.networks) == b3 by {
      assert t.networks[1..] == [];
    }
  }

  /**
   The router edge's source is the id as written, not passed through
   `get_node`: run without `add_nodes`, a router edge starts at an id that was
   never registered, while its target becomes a ghost.
   */
  lemma RouterSourceNotLookedUp()
    ensures var r := AddEdges(Fresh, Topology([RouterEntry("R1", ["N1"])], [], []));
      && r.edges == [Edge("R1", "vNode1")]
      && "R1" !in r.nodeMap
  {
    FirstGhostIds();
    var c := CreateGhost(Fresh).b;
    assert c.nodeMap == map["vNode1" := "vNode1"];
    assert LinkEdges(Fresh, "R1", ["N1"]) == AddEdge(c, "R1", "vNode1") by {
      assert ["N1"][1..] == [];
    }
    assert [RouterEntry("R1", ["N1"])][1..] == [];
  }
}
