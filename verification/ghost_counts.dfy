/**
 How many ghosts `add_edges` makes. Each lookup of a reference the registry
 does not hold makes a fresh ghost, and the ghost is registered under its own
 name `vNode<n>`, not under the reference; so a target that is neither
 registered nor named like a ghost makes a new ghost every time it is looked
 up, repeats included.
 */
module GhostCounts {
  import opened Text
  import opened GraphBuilder
  import opened GraphFacts

  /** An id of the form vNode<n>, as `create_ghost_node` names its ghosts. */
  ghost predicate IsGhostId(s: string) {
    exists n: nat :: s == GhostId(n)
  }

  /** The registry gained nothing but ghost ids. */
  ghost predicate GrowsByGhosts(b: Builder, c: Builder) {
    forall k | k in c.nodeMap :: k in b.nodeMap || IsGhostId(k)
  }

  /** A reference no lookup resolves, now or after more ghosts: unregistered and not named like a ghost. */
  ghost predicate Unresolved(m: map<string, string>, key: string) {
    key !in m && !IsGhostId(key)
  }

  ghost predicate Unresolvable(m: map<string, string>, keys: seq<string>) {
    forall i | 0 <= i < |keys| :: Unresolved(m, keys[i])
  }

  lemma GhostIdIsGhost(n: nat)
    ensures IsGhostId(GhostId(n))
  {
    assert GhostId(n) == GhostId(n);
  }

  /** A missing id is never resolved: it is not registered and no ghost is called "". */
  lemma EmptyUnresolved(b: Builder)
    requires Inv(b)
    ensures Unresolved(b.nodeMap, "")
  {
    forall n: nat ensures GhostId(n) != "" {
      GhostIdNotEmpty(n);
    }
  }

  /** `get_node` makes a ghost exactly when the key is not registered, and adds only that ghost. */
  lemma GetNodeStep(b: Builder, key: string)
    requires Inv(b)
    ensures var r := GetNode(b, key);
      && Inv(r.b) && Grows(b, r.b) && GrowsByGhosts(b, r.b) && r.b.edges == b.edges
      && r.id in r.b.nodeMap
      && r.b.ghostCount == b.ghostCount + (if key in b.nodeMap then 0 else 1)
  {
    GetNodeSpec(b, key);
    if key !in b.nodeMap {
      CreateGhostSpec(b);
      GhostIdIsGhost(b.ghostCount);
    }
  }

  /** `key or create_ghost_node()` makes a ghost exactly when the key is missing, and registers it. */
  lemma OrGhostStep(b: Builder, key: string)
    requires Inv(b)
    ensures var r := OrGhost(b, key);
      && Inv(r.b) && Grows(b, r.b) && GrowsByGhosts(b, r.b) && r.b.edges == b.edges
      && r.b.ghostCount == b.ghostCount + (if key == "" then 1 else 0)
      && (key == "" ==> r.id in r.b.nodeMap)
      && (key != "" ==> r == Got(b, key))
  {
    OrGhostSpec(b, key);
    if key == "" {
      CreateGhostSpec(b);
      GhostIdIsGhost(b.ghostCount);
    }
  }

  // ---------------------------------------------------------------------------
  // Router edges
  // ---------------------------------------------------------------------------

  /** One link: a ghost exactly when the target is not registered (a missing target included). */
  lemma LinkEdgeStep(b: Builder, rid: string, l: string)
    requires Inv(b)
    ensures var t := OrGhost(b, l); var n := GetNode(t.b, t.id); var c := AddEdge(n.b, rid, n.id);
      && Inv(c) && GrowsByGhosts(b, c)
      && c.ghostCount == b.ghostCount + (if l in b.nodeMap then 0 else 1)
  {
    var t := OrGhost(b, l);
    OrGhostStep(b, l);
    GetNodeStep(t.b, t.id);
  }

  /**
   A router's links make at most one ghost each, and exactly one each when no
   target can be resolved, so an unknown target named twice makes two ghosts.
   */
  lemma {:induction false} LinkEdgesGhostCount(b: Builder, rid: string, links: seq<string>)
    requires Inv(b)
    ensures var r := LinkEdges(b, rid, links);
      && Inv(r) && GrowsByGhosts(b, r)
      && b.ghostCount <= r.ghostCount <= b.ghostCount + |links|
      && (Unresolvable(b.nodeMap, links) ==> r.ghostCount == b.ghostCount + |links|)
    decreases |links|
  {
    if |links| > 0 {
      var t := OrGhost(b, links[0]);
      var n := GetNode(t.b, t.id);
      var c := AddEdge(n.b, rid, n.id);
      LinkEdgeStep(b, rid, links[0]);
      LinkEdgesGhostCount(c, rid, links[1..]);
      assert LinkEdges(b, rid, links) == LinkEdges(c, rid, links[1..]);
      if Unresolvable(b.nodeMap, links) {
        assert Unresolved(b.nodeMap, links[0]);
        assert Unresolvable(c.nodeMap, links[1..]) by {
          forall i | 0 <= i < |links[1..]| ensures Unresolved(c.nodeMap, links[1..][i]) {
            assert Unresolved(b.nodeMap, links[i + 1]);
          }
        }
      }
    }
  }

  /** No link target of any router can be resolved. */
  ghost predicate LinksUnresolvable(m: map<string, string>, rs: seq<RouterEntry>) {
    forall i | 0 <= i < |rs| :: Unresolvable(m, rs[i].links)
  }

  lemma LinksUnresolvableTail(b: Builder, c: Builder, rs: seq<RouterEntry>)
    requires |rs| > 0 && LinksUnresolvable(b.nodeMap, rs) && GrowsByGhosts(b, c)
    ensures Unresolvable(c.nodeMap, rs[0].links) && LinksUnresolvable(c.nodeMap, rs[1..])
  {
    assert Unresolvable(b.nodeMap, rs[0].links);
    forall i | 0 <= i < |rs[1..]| ensures Unresolvable(c.nodeMap, rs[1..][i].links) {
      assert Unresolvable(b.nodeMap, rs[i + 1].links);
    }
  }

  lemma RouterIdsCons(rs: seq<RouterEntry>)
    requires |rs| > 0
    ensures Missing(RouterIds(rs)) == (if rs[0].id == "" then 1 else 0) + Missing(RouterIds(rs[1..]))
  {
    assert RouterIds(rs)[1..] == RouterIds(rs[1..]);
  }

  /**
   `add_edges` for the routers makes at most one ghost per missing router id
   and one per link, and exactly that many when no link target can be resolved.
   */
  lemma {:induction false} RouterEdgesGhostCount(b: Builder, rs: seq<RouterEntry>)
    requires Inv(b)
    ensures var r := RouterEdges(b, rs);
      && Inv(r) && GrowsByGhosts(b, r)
      && b.ghostCount <= r.ghostCount <= b.ghostCount + Missing(RouterIds(rs)) + LinkCount(rs)
      && (LinksUnresolvable(b.nodeMap, rs) ==> r.ghostCount == b.ghostCount + Missing(RouterIds(rs)) + LinkCount(rs))
    decreases |rs|
  {
    if |rs| > 0 {
      var g := OrGhost(b, rs[0].id);
      OrGhostStep(b, rs[0].id);
      var c := LinkEdges(g.b, g.id, rs[0].links);
      LinkEdgesGhostCount(g.b, g.id, rs[0].links);
      RouterEdgesGhostCount(c, rs[1..]);
      RouterIdsCons(rs);
      assert RouterEdges(b, rs) == RouterEdges(c, rs[1..]);
      if LinksUnresolvable(b.nodeMap, rs) {
        LinksUnresolvableTail(b, g.b, rs);
        LinksUnresolvableTail(b, c, rs);
      }
    }
  }

  // ---------------------------------------------------------------------------
  // Network edges
  // ---------------------------------------------------------------------------

  /**
   One attached router: a ghost for the router when it is not registered, and
   another for the network when its id is not registered.
   */
  lemma AttachedEdgeStep(b: Builder, nid: string, x: string)
    requires Inv(b)
    ensures var a := GetNode(b, x); var n := GetNode(a.b, nid); var c := AddEdge(n.b, a.id, n.id);
      && Inv(c) && Grows(b, c) && GrowsByGhosts(b, c)
      && b.ghostCount <= c.ghostCount <= b.ghostCount + 2
      && (nid in b.nodeMap ==> c.ghostCount == b.ghostCount + (if x in b.nodeMap then 0 else 1))
      && (x !in b.nodeMap && Unresolved(b.nodeMap, nid) ==> c.ghostCount == b.ghostCount + 2)
  {
    var a := GetNode(b, x);
    GetNodeStep(b, x);
    GetNodeStep(a.b, nid);
  }

  /**
   A network's edges make at most two ghosts per attached router: exactly one
   each when the network id is registered and no attached router can be
   resolved, and exactly two each when the network id cannot be resolved either.
   */
  lemma {:induction false} AttachedEdgesGhostCount(b: Builder, nid: string, attached: seq<string>)
    requires Inv(b)
    ensures var r := AttachedEdges(b, nid, attached);
      && Inv(r) && Grows(b, r) && GrowsByGhosts(b, r)
      && b.ghostCount <= r.ghostCount <= b.ghostCount + 2 * |attached|
      && (nid in b.nodeMap && Unresolvable(b.nodeMap, attached) ==> r.ghostCount == b.ghostCount + |attached|)
      && (Unresolved(b.nodeMap, nid) && Unresolvable(b.nodeMap, attached) ==> r.ghostCount == b.ghostCount + 2 * |attached|)
    decreases |attached|
  {
    if |attached| > 0 {
      var a := GetNode(b, attached[0]);
      var n := GetNode(a.b, nid);
      var c := AddEdge(n.b, a.id, n.id);
      AttachedEdgeStep(b, nid, attached[0]);
      AttachedEdgesGhostCount(c, nid, attached[1..]);
      assert AttachedEdges(b, nid, attached) == AttachedEdges(c, nid, attached[1..]);
      if Unresolvable(b.nodeMap, attached) {
        assert Unresolved(b.nodeMap, attached[0]);
        assert Unresolvable(c.nodeMap, attached[1..]) by {
          forall i | 0 <= i < |attached[1..]| ensures Unresolved(c.nodeMap, attached[1..][i]) {
            assert Unresolved(b.nodeMap, attached[i + 1]);
          }
        }
      }
    }
  }

  /** No attached router of any network can be resolved. */
  ghost predicate AttachedUnresolvable(m: map<string, string>, ns: seq<NetworkEntry>) {
    forall i | 0 <= i < |ns| :: Unresolvable(m, ns[i].attached)
  }

  lemma AttachedUnresolvableTail(b: Builder, c: Builder, ns: seq<NetworkEntry>)
    requires |ns| > 0 && AttachedUnresolvable(b.nodeMap, ns) && GrowsByGhosts(b, c)
    ensures Unresolvable(c.nodeMap, ns[0].attached) && AttachedUnresolvable(c.nodeMap, ns[1..])
  {
    assert Unresolvable(b.nodeMap, ns[0].attached);
    forall i | 0 <= i < |ns[1..]| ensures Unresolvable(c.nodeMap, ns[1..][i].attached) {
      assert Unresolvable(b.nodeMap, ns[i + 1].attached);
    }
  }

  lemma NetworkIdsCons(ns: seq<NetworkEntry>)
    requires |ns| > 0
    ensures Missing(NetworkIds(ns)) == (if ns[0].id == "" then 1 else 0) + Missing(NetworkIds(ns[1..]))
  {
    assert NetworkIds(ns)[1..] == NetworkIds(ns[1..]);
  }

  /** One network with a registered or missing id: a ghost for a missing id, and one per unregistered attached router at most. */
  lemma NetworkHeadGhostCount(b: Builder, n: NetworkEntry)
    requires Inv(b) && (n.id != "" ==> n.id in b.nodeMap)
    ensures var g := OrGhost(b, n.id); var c := AttachedEdges(g.b, g.id, n.attached);
      && Inv(c) && Grows(b, c) && GrowsByGhosts(b, c)
      && b.ghostCount <= c.ghostCount <= b.ghostCount + (if n.id == "" then 1 else 0) + |n.attached|
      && (Unresolvable(b.nodeMap, n.attached) ==> c.ghostCount == b.ghostCount + (if n.id == "" then 1 else 0) + |n.attached|)
  {
    var g := OrGhost(b, n.id);
    OrGhostStep(b, n.id);
    AttachedEdgesGhostCount(g.b, g.id, n.attached);
    AttachedEdgesBound(g.b, g.id, n.attached);
    if Unresolvable(b.nodeMap, n.attached) {
      assert Unresolvable(g.b.nodeMap, n.attached) by {
        forall i | 0 <= i < |n.attached| ensures Unresolved(g.b.nodeMap, n.attached[i]) {
          assert Unresolved(b.nodeMap, n.attached[i]);
        }
      }
    }
  }

  /** With the network registered, only the attached routers can make ghosts, one each at most. */
  lemma {:induction false} AttachedEdgesBound(b: Builder, nid: string, attached: seq<string>)
    requires Inv(b) && nid in b.nodeMap
    ensures AttachedEdges(b, nid, attached).ghostCount <= b.ghostCount + |attached|
    decreases |attached|
  {
    if |attached| > 0 {
      var a := GetNode(b, attached[0]);
      var n := GetNode(a.b, nid);
      var c := AddEdge(n.b, a.id, n.id);
      AttachedEdgeStep(b, nid, attached[0]);
      AttachedEdgesBound(c, nid, attached[1..]);
      assert AttachedEdges(b, nid, attached) == AttachedEdges(c, nid, attached[1..]);
    }
  }

  /**
   `add_edges` for the networks, once their ids are registered: at most one
   ghost per missing network id and one per attached router, and exactly that
   many when no attached router can be resolved.
   */
  lemma {:induction false} NetworkEdgesGhostCount(b: Builder, ns: seq<NetworkEntry>)
    requires Inv(b) && IdsRegistered(b.nodeMap, NetworkIds(ns))
    ensures var r := NetworkEdges(b, ns);
      && Inv(r) && GrowsByGhosts(b, r)
      && b.ghostCount <= r.ghostCount <= b.ghostCount + Missing(NetworkIds(ns)) + AttachedCount(ns)
      && (AttachedUnresolvable(b.nodeMap, ns) ==> r.ghostCount == b.ghostCount + Missing(NetworkIds(ns)) + AttachedCount(ns))
    decreases |ns|
  {
    if |ns| > 0 {
      assert NetworkIds(ns)[0] == ns[0].id;
      var g := OrGhost(b, ns[0].id);
      var c := AttachedEdges(g.b, g.id, ns[0].attached);
      NetworkHeadGhostCount(b, ns[0]);
      NetworkIdsTail(b, c, ns);
      NetworkEdgesGhostCount(c, ns[1..]);
      NetworkIdsCons(ns);
      assert NetworkEdges(b, ns) == NetworkEdges(c, ns[1..]);
      if AttachedUnresolvable(b.nodeMap, ns) {
        AttachedUnresolvableTail(b, c, ns);
        assert Unresolvable(b.nodeMap, ns[0].attached);
      }
    }
  }

  // ---------------------------------------------------------------------------
  // Summary edges
  // ---------------------------------------------------------------------------

  /**
   One summary makes at most two ghosts, and exactly two when neither its link
   nor its advertising router can be resolved (a missing one included).
   */
  lemma SummaryEdgeGhostCount(b: Builder, sm: SummaryEntry)
    requires Inv(b)
    ensures var r := SummaryEdge(b, sm);
      && Inv(r) && GrowsByGhosts(b, r)
      && b.ghostCount <= r.ghostCount <= b.ghostCount + 2
      && (Unresolved(b.nodeMap, sm.link) && Unresolved(b.nodeMap, sm.adv) ==> r.ghostCount == b.ghostCount + 2)
  {
    var l := OrGhost(b, sm.link);
    OrGhostStep(b, sm.link);
    var a := OrGhost(l.b, sm.adv);
    OrGhostStep(l.b, sm.adv);
    var ga := GetNode(a.b, a.id);
    GetNodeStep(a.b, a.id);
    var gl := GetNode(ga.b, l.id);
    GetNodeStep(ga.b, l.id);
    assert SummaryEdge(b, sm) == AddEdge(gl.b, ga.id, gl.id);
    if Unresolved(b.nodeMap, sm.link) && Unresolved(b.nodeMap, sm.adv) {
      assert sm.adv != "" ==> Unresolved(a.b.nodeMap, sm.adv);
      assert sm.link != "" ==> Unresolved(ga.b.nodeMap, sm.link);
      assert sm.link == "" ==> l.id in ga.b.nodeMap;
    }
  }

  /** Neither the link nor the advertising router of any summary can be resolved. */
  ghost predicate SummariesUnresolvable(m: map<string, string>, ss: seq<SummaryEntry>) {
    forall i | 0 <= i < |ss| :: Unresolved(m, ss[i].link) && Unresolved(m, ss[i].adv)
  }

  /** `add_edges` for the summaries makes at most two ghosts per summary, and exactly two when nothing resolves. */
  lemma {:induction false} SummaryEdgesGhostCount(b: Builder, ss: seq<SummaryEntry>)
    requires Inv(b)
    ensures var r := SummaryEdges(b, ss);
      && Inv(r) && GrowsByGhosts(b, r)
      && b.ghostCount <= r.ghostCount <= b.ghostCount + 2 * |ss|
      && (SummariesUnresolvable(b.nodeMap, ss) ==> r.ghostCount == b.ghostCount + 2 * |ss|)
    decreases |ss|
  {
    if |ss| > 0 {
      var c := SummaryEdge(b, ss[0]);
      SummaryEdgeGhostCount(b, ss[0]);
      SummaryEdgesGhostCount(c, ss[1..]);
      assert SummaryEdges(b, ss) == SummaryEdges(c, ss[1..]);
      if SummariesUnresolvable(b.nodeMap, ss) {
        assert Unresolved(b.nodeMap, ss[0].link) && Unresolved(b.nodeMap, ss[0].adv);
        forall i | 0 <= i < |ss[1..]| ensures Unresolved(c.nodeMap, ss[1..][i].link) && Unresolved(c.nodeMap, ss[1..][i].adv) {
          assert Unresolved(b.nodeMap, ss[i + 1].link) && Unresolved(b.nodeMap, ss[i + 1].adv);
        }
      }
    }
  }

  // ---------------------------------------------------------------------------
  // A whole run
  // ---------------------------------------------------------------------------

  /** `add_nodes` registers nothing but the primary ids and ghosts. */
  lemma {:induction false} AddAllKeys(b: Builder, keys: seq<string>, kind: NodeKind)
    requires Inv(b) && kind != GhostNode
    ensures forall k | k in AddAll(b, keys, kind).nodeMap :: k in b.nodeMap || k in keys || IsGhostId(k)
    decreases |keys|
  {
    if |keys| > 0 {
      var g := OrGhost(b, keys[0]);
      OrGhostStep(b, keys[0]);
      var c := AddNode(b, keys[0], kind);
      AddNodeSpec(b, keys[0], kind);
      assert forall k | k in c.nodeMap :: k in b.nodeMap || k == keys[0] || IsGhostId(k) by {
        if keys[0] == "" {
          GhostIdIsGhost(b.ghostCount);
          assert g.id == GhostId(b.ghostCount);
        }
      }
      AddAllKeys(c, keys[1..], kind);
      assert AddAll(b, keys, kind) == AddAll(c, keys[1..], kind);
      assert forall k | k in keys[1..] :: k in keys;
    }
  }

  lemma AddNodesKeys(t: Topology)
    ensures forall k | k in AddNodes(Fresh, t).nodeMap :: k in PrimaryIds(t) || IsGhostId(k)
  {
    var rs := RouterIds(t.routers);
    var ns := NetworkIds(t.networks);
    var ss := SummaryLinks(t.summaries);
    FreshInv();
    var b1 := AddAll(Fresh, rs, RouterNode);
    AddAllSpec(Fresh, rs, RouterNode);
    AddAllKeys(Fresh, rs, RouterNode);
    var b2 := AddAll(b1, ns, NetworkNode);
    AddAllSpec(b1, ns, NetworkNode);
    AddAllKeys(b1, ns, NetworkNode);
    AddAllKeys(b2, ss, SummaryNode);
    assert PrimaryIds(t) == rs + ns + ss;
  }

  /**
   A run of the generator makes one ghost per missing primary id in `add_nodes`,
   and in `add_edges` at most one per missing router id, per link, per missing
   network id and per attached router, and two per summary.
   */
  lemma BuildGhostBound(t: Topology)
    ensures Build(t).ghostCount <= 1 + MissingIds(t) + Missing(RouterIds(t.routers)) + LinkCount(t.routers)
      + Missing(NetworkIds(t.networks)) + AttachedCount(t.networks) + 2 * |t.summaries|
  {
    var b0 := AddNodes(Fresh, t);
    AfterNodes(t);
    var b1 := RouterEdges(b0, t.routers);
    RouterEdgesGhostCount(b0, t.routers);
    RouterEdgesSpec(b0, t.routers);
    assert IdsRegistered(b1.nodeMap, NetworkIds(t.networks));
    NetworkEdgesGhostCount(b1, t.networks);
    SummaryEdgesGhostCount(NetworkEdges(b1, t.networks), t.summaries);
  }

  /**
   When no link target is a primary id or named like a ghost, the router phase
   of a run makes exactly one ghost per missing router id and one per link,
   whether or not targets repeat.
   */
  lemma BuildLinkGhosts(t: Topology)
    requires forall i, j | 0 <= i < |t.routers| && 0 <= j < |t.routers[i].links| ::
      t.routers[i].links[j] == "" || (t.routers[i].links[j] !in PrimaryIds(t) && !IsGhostId(t.routers[i].links[j]))
    ensures var b0 := AddNodes(Fresh, t);
      RouterEdges(b0, t.routers).ghostCount == b0.ghostCount + Missing(RouterIds(t.routers)) + LinkCount(t.routers)
  {
    var b0 := AddNodes(Fresh, t);
    AfterNodes(t);
    AddNodesKeys(t);
    EmptyUnresolved(b0);
    forall i | 0 <= i < |t.routers| ensures Unresolvable(b0.nodeMap, t.routers[i].links) {
      forall j | 0 <= j < |t.routers[i].links| ensures Unresolved(b0.nodeMap, t.routers[i].links[j]) {
      }
    }
    RouterEdgesGhostCount(b0, t.routers);
  }

  /**
   One router with two links to the same undeclared target: each link makes
   its own ghost, so the run draws the edges R1→vNode1 and R1→vNode2.
   */
  lemma RepeatedTargetTwoGhosts()
    ensures var r := Build(Topology([RouterEntry("R1", ["X", "X"])], [], []));
      && r.ghostCount == 3
      && r.edges == [Edge("R1", "vNode1"), Edge("R1", "vNode2")]
  {
    FirstGhostIds();
    var t := Topology([RouterEntry("R1", ["X", "X"])], [], []);
    var b0 := Builder(map["R1" := "R1"], 1, [Node("R1", RouterNode)], []);
    assert AddNodes(Fresh, t) == b0 by {
      assert RouterIds(t.routers) == ["R1"];
      assert ["R1"][1..] == [];
      assert NetworkIds(t.networks) == [] && SummaryLinks(t.summaries) == [];
    }
    var b1 := AddEdge(CreateGhost(b0).b, "R1", "vNode1");
    assert LinkEdges(b0, "R1", ["X", "X"]) == LinkEdges(b1, "R1", ["X"]) by {
      assert ["X", "X"][1..] == ["X"];
    }
    assert "X" !in b1.nodeMap;
    var b2 := AddEdge(CreateGhost(b1).b, "R1", "vNode2");
    assert LinkEdges(b1, "R1", ["X"]) == b2 by {
      assert ["X"][1..] == [];
    }
    assert RouterEdges(b0, t.routers) == b2 by {
      assert t.routers[1..] == [];
    }
  }
}
