/**
 The two parsers' documents read by the topology generator: what the graph
 builder sees after normalising the output of either parser version.
 */
module Pipeline {
  import opened Wrappers
  import opened Text
  import opened JsonValue
  import opened Normalizer
  import opened NormalizerFacts
  import opened GraphBuilder
  import opened GraphFacts
  import P10 = ParserV10
  import F10 = ParserV10Facts
  import P11 = ParserV11
  import F11 = ParserV11Facts

  // ---------------------------------------------------------------------------
  // v1.10 documents
  // ---------------------------------------------------------------------------

  function LinkIds(ls: seq<P10.Link>): seq<string> {
    seq(|ls|, j requires 0 <= j < |ls| => ls[j].linkId)
  }

  /** The topology a v1.10 result describes: routers with their link ids, networks, and summaries keyed by prefix. */
  function V10Topology(p: P10.Parsed): Topology {
    Topology(
      seq(|p.routers|, i requires 0 <= i < |p.routers| => RouterEntry(p.routers[i].routerId, LinkIds(p.routers[i].links))),
      seq(|p.networks|, i requires 0 <= i < |p.networks| => NetworkEntry(p.networks[i].networkId, p.networks[i].attachedRouters)),
      seq(|p.summaries|, i requires 0 <= i < |p.summaries| => SummaryEntry(p.summaries[i].prefix, p.summaries[i].advRouter)))
  }

  function StrValues(xs: seq<string>): seq<Value> {
    seq(|xs|, i requires 0 <= i < |xs| => Str(xs[i]))
  }

  lemma StrValuesKeys(xs: seq<string>)
    ensures AllKeys(StrValues(xs))
    ensures KeysOf(StrValues(xs)) == xs
  {
  }

  lemma V10LinkName(l: P10.Link)
    requires l.linkId != ""
    ensures LinkName(P10.LinkJson(l)) == Str(l.linkId)
  {
    var v := P10.LinkJson(l);
    assert Get(v, "link_id") == Str(l.linkId);
  }

  /** Normalising a router dict that carries only `router_id` and `links`. */
  lemma RouterDocNormal(v: Value, id: string, items: seq<Value>)
    requires v.Obj? && Get(v, "router_id") == Str(id) && Get(v, "router") == Null && Get(v, "id") == Null
    requires LinksOf(v) == List(items)
    ensures RouterReadable(v)
    ensures NormalizeRouter(v) == Obj([
      Field("router_id", if id != "" then Str(id) else Null),
      Field("links", List(seq(|items|, i requires 0 <= i < |items| => LinkName(items[i]))))])
  {
  }

  /** A normalised router with string links is read back as its id and links. */
  lemma NormalRouterEntry(id: string, names: seq<string>)
    ensures var n := Obj([Field("router_id", if id != "" then Str(id) else Null), Field("links", List(StrValues(names)))]);
      && RouterUsable(n)
      && RouterEntryOf(n) == RouterEntry(id, names)
  {
    var n := Obj([Field("router_id", if id != "" then Str(id) else Null), Field("links", List(StrValues(names)))]);
    assert Get(n, "router_id") == (if id != "" then Str(id) else Null);
    assert GetOr(n, "links", List([])) == List(StrValues(names));
    StrValuesKeys(names);
  }

  /** A normalised network with string attached routers is read back as its id and attached routers. */
  lemma NormalNetworkEntry(id: string, attached: seq<string>)
    ensures var n := Obj([Field("network_id", if id != "" then Str(id) else Null), Field("attached_routers", List(StrValues(attached)))]);
      && NetworkUsable(n)
      && NetworkEntryOf(n) == NetworkEntry(id, attached)
  {
    var n := Obj([Field("network_id", if id != "" then Str(id) else Null), Field("attached_routers", List(StrValues(attached)))]);
    assert Get(n, "network_id") == (if id != "" then Str(id) else Null);
    assert GetOr(n, "attached_routers", List([])) == List(StrValues(attached));
    StrValuesKeys(attached);
  }

  /** A normalised summary with a string link is read back as its link and advertising router. */
  lemma NormalSummaryEntry(link: string, adv: string)
    ensures var n := Obj([Field("link", Str(link)), Field("adv_router", if adv != "" then Str(adv) else Null)]);
      && SummaryUsable(n)
      && SummaryEntryOf(n) == SummaryEntry(link, adv)
  {
    var n := Obj([Field("link", Str(link)), Field("adv_router", if adv != "" then Str(adv) else Null)]);
    assert Get(n, "link") == Str(link);
    assert Get(n, "adv_router") == (if adv != "" then Str(adv) else Null);
  }

  lemma V10RouterEntry(r: P10.RouterLsa)
    requires F10.WellFormedRouter(r)
    ensures RouterReadable(P10.RouterJson(r))
    ensures RouterUsable(NormalizeRouter(P10.RouterJson(r)))
    ensures RouterEntryOf(NormalizeRouter(P10.RouterJson(r))) == RouterEntry(r.routerId, LinkIds(r.links))
  {
    var v := P10.RouterJson(r);
    var items := seq(|r.links|, i requires 0 <= i < |r.links| => P10.LinkJson(r.links[i]));
    assert Get(v, "router_id") == Str(r.routerId);
    assert Get(v, "router") == Null;
    assert Get(v, "id") == Null;
    assert LinksOf(v) == List(items) by {
      assert v.fields[1..][1..] == [Field("links", List(items))];
      assert Lookup(v.fields[1..][1..], "links") == Some(List(items));
    }
    var names := seq(|items|, i requires 0 <= i < |items| => LinkName(items[i]));
    assert names == StrValues(LinkIds(r.links)) by {
      forall i | 0 <= i < |items| ensures names[i] == Str(r.links[i].linkId) {
        V10LinkName(r.links[i]);
      }
    }
    RouterDocNormal(v, r.routerId, items);
    NormalRouterEntry(r.routerId, LinkIds(r.links));
  }

  lemma V10NetworkEntry(nw: P10.NetworkLsa)
    ensures NormalizeNetwork(P10.NetworkJson(nw)).Obj?
    ensures NetworkUsable(NormalizeNetwork(P10.NetworkJson(nw)))
    ensures NetworkEntryOf(NormalizeNetwork(P10.NetworkJson(nw))) == NetworkEntry(nw.networkId, nw.attachedRouters)
  {
    var v := P10.NetworkJson(nw);
    var id := if nw.networkId != "" then Str(nw.networkId) else Null;
    assert NormalizeNetwork(v) == Obj([Field("network_id", id), Field("attached_routers", List(StrValues(nw.attachedRouters)))]) by {
      assert v.fields[1].val == List(StrValues(nw.attachedRouters));
      V10NetworkDocGets(v.fields[0].val, v.fields[1].val, v.fields[2].val);
    }
    NormalNetworkEntry(nw.networkId, nw.attachedRouters);
  }

  /** What the normaliser reads from a v1.10 network dict. */
  lemma V10NetworkDocGets(id: Value, attached: Value, area: Value)
    ensures var v := Obj([Field("network_id", id), Field("attached_routers", attached), Field("area_id", area)]);
      && Get(v, "network_id") == id && Get(v, "network") == Null
      && Get(v, "attached_routers") == attached && Get(v, "attached") == Null
  {
    var fs := [Field("network_id", id), Field("attached_routers", attached), Field("area_id", area)];
    assert Keys(fs) == ["network_id", "attached_routers", "area_id"] by {
      assert fs[1..][1..] == [fs[2]];
    }
    assert "network_id"[0] == 'n' && "attached_routers"[0] == 'a' && "area_id"[1] == 'r' && "attached"[1] == 't';
    assert |"network"| == 7 && |"network_id"| == 10 && |"attached"| == 8 && |"attached_routers"| == 16 && |"area_id"| == 7;
  }

  /**
   A v1.10 summary has no `link_id`, so it is keyed by its prefix; an empty
   prefix is falsy and the `or` chain falls through to the advertising router.
   */
  lemma V10SummaryEntry(s: P10.SummaryLsa)
    ensures NormalizeSummary(P10.SummaryJson(s)).Obj?
    ensures SummaryUsable(NormalizeSummary(P10.SummaryJson(s)))
    ensures SummaryEntryOf(NormalizeSummary(P10.SummaryJson(s)))
      == SummaryEntry(if s.prefix != "" then s.prefix else s.advRouter, s.advRouter)
  {
    var v := P10.SummaryJson(s);
    var adv := if s.advRouter != "" then Str(s.advRouter) else Null;
    var link := if s.prefix != "" then s.prefix else s.advRouter;
    assert NormalizeSummary(v) == Obj([Field("link", Str(link)), Field("adv_router", adv)]) by {
      V10SummaryDocGets(Str(s.advRouter), Str(s.prefix), Int(s.metric), Str(s.areaId));
    }
    NormalSummaryEntry(link, s.advRouter);
  }

  /** What the normaliser reads from a v1.10 summary dict. */
  lemma V10SummaryDocGets(adv: Value, prefix: Value, metric: Value, area: Value)
    ensures var v := Obj([Field("adv_router", adv), Field("prefix", prefix), Field("metric", metric), Field("area_id", area)]);
      && Get(v, "link_id") == Null && Get(v, "link") == Null && Get(v, "prefix") == prefix
      && Get(v, "adv_router") == adv && Get(v, "adv") == Null && Get(v, "advertising_router") == Null
  {
    var fs := [Field("adv_router", adv), Field("prefix", prefix), Field("metric", metric), Field("area_id", area)];
    assert Keys(fs) == ["adv_router", "prefix", "metric", "area_id"] by {
      assert fs[1..][1..][1..] == [fs[3]];
    }
    V10SummaryDocFound(fs);
    V10SummaryDocAbsent(fs);
  }

  lemma V10SummaryDocFound(fs: seq<Field>)
    requires |fs| == 4 && fs[0].key == "adv_router" && fs[1].key == "prefix"
    ensures Lookup(fs, "adv_router") == Some(fs[0].val) && Lookup(fs, "prefix") == Some(fs[1].val)
  {
    assert "adv_router"[0] == 'a' && "prefix"[0] == 'p';
  }

  lemma V10SummaryDocAbsent(fs: seq<Field>)
    requires Keys(fs) == ["adv_router", "prefix", "metric", "area_id"]
    ensures Lookup(fs, "link_id") == None && Lookup(fs, "link") == None
    ensures Lookup(fs, "adv") == None && Lookup(fs, "advertising_router") == None
  {
    assert "link_id"[0] == 'l' && "link"[0] == 'l' && "area_id"[0] == 'a' && "prefix"[0] == 'p' && "metric"[0] == 'm';
    assert |"adv"| == 3 && |"advertising_router"| == 18 && |"adv_router"| == 10 && |"area_id"| == 7;
    assert "adv"[1] == 'd' && "area_id"[1] == 'r';
  }

  function RouterDocs(p: P10.Parsed): seq<Value> {
    seq(|p.routers|, i requires 0 <= i < |p.routers| => P10.RouterJson(p.routers[i]))
  }

  function NetworkDocs(p: P10.Parsed): seq<Value> {
    seq(|p.networks|, i requires 0 <= i < |p.networks| => P10.NetworkJson(p.networks[i]))
  }

  function SummaryDocs(p: P10.Parsed): seq<Value> {
    seq(|p.summaries|, i requires 0 <= i < |p.summaries| => P10.SummaryJson(p.summaries[i]))
  }

  lemma V10Sections(p: P10.Parsed)
    requires !p.aborted
    ensures P10.Export(p).Some? && P10.Export(p).value.Obj?
    ensures Lookup(P10.Export(p).value.fields, "router_lsas") == Some(List(RouterDocs(p)))
    ensures Lookup(P10.Export(p).value.fields, "network_lsas") == Some(List(NetworkDocs(p)))
    ensures Lookup(P10.Export(p).value.fields, "summary_lsas") == Some(List(SummaryDocs(p)))
    ensures Lookup(P10.Export(p).value.fields, "routers") == None
    ensures Lookup(P10.Export(p).value.fields, "networks") == None
    ensures Lookup(P10.Export(p).value.fields, "summary") == None
  {
    var fs := P10.Export(p).value.fields;
    assert fs == [Field("router_lsas", List(RouterDocs(p))), Field("network_lsas", List(NetworkDocs(p))), Field("summary_lsas", List(SummaryDocs(p)))];
    ThreeSections(List(RouterDocs(p)), List(NetworkDocs(p)), List(SummaryDocs(p)));
  }

  /** The v1.10 document's three sections, looked up by name; the builder keys are absent. */
  lemma ThreeSections(r: Value, n: Value, s: Value)
    ensures var fs := [Field("router_lsas", r), Field("network_lsas", n), Field("summary_lsas", s)];
      && Lookup(fs, "router_lsas") == Some(r)
      && Lookup(fs, "network_lsas") == Some(n)
      && Lookup(fs, "summary_lsas") == Some(s)
      && Lookup(fs, "routers") == None
      && Lookup(fs, "networks") == None
      && Lookup(fs, "summary") == None
  {
    ThreeSectionsFound(r, n, s);
    ThreeSectionsAbsent(r, n, s);
  }

  lemma ThreeSectionsFound(r: Value, n: Value, s: Value)
    ensures var fs := [Field("router_lsas", r), Field("network_lsas", n), Field("summary_lsas", s)];
      && Lookup(fs, "router_lsas") == Some(r)
      && Lookup(fs, "network_lsas") == Some(n)
      && Lookup(fs, "summary_lsas") == Some(s)
  {
    var fs := [Field("router_lsas", r), Field("network_lsas", n), Field("summary_lsas", s)];
    assert fs[1..][1..] == [Field("summary_lsas", s)];
    assert "router_lsas"[0] == 'r' && "network_lsas"[0] == 'n' && "summary_lsas"[0] == 's';
  }

  lemma ThreeSectionsAbsent(r: Value, n: Value, s: Value)
    ensures var fs := [Field("router_lsas", r), Field("network_lsas", n), Field("summary_lsas", s)];
      && Lookup(fs, "routers") == None
      && Lookup(fs, "networks") == None
      && Lookup(fs, "summary") == None
  {
    var fs := [Field("router_lsas", r), Field("network_lsas", n), Field("summary_lsas", s)];
    assert Keys(fs) == ["router_lsas", "network_lsas", "summary_lsas"];
    assert |"routers"| == 7 && |"networks"| == 8 && |"summary"| == 7;
  }

  lemma RoutersList(d: Value)
    requires Normalizable(d) && Has(d, "router_lsas")
    ensures Normalize(d).Obj? && ListAt(Normalize(d), "routers") == Some(MapRouters(Entries(d, "router_lsas")))
  {
    NormalizeSections(d);
  }

  lemma NetworksList(d: Value)
    requires Normalizable(d) && Has(d, "network_lsas")
    ensures Normalize(d).Obj? && ListAt(Normalize(d), "networks") == Some(MapNetworks(Entries(d, "network_lsas")))
  {
    NormalizeSections(d);
  }

  lemma SummaryList(d: Value)
    requires Normalizable(d) && Has(d, "summary_lsas")
    ensures Normalize(d).Obj? && ListAt(Normalize(d), "summary") == Some(MapSummaries(Entries(d, "summary_lsas")))
  {
    NormalizeSections(d);
  }

  predicate AllRoutersUsable(rs: seq<Value>) {
    forall i | 0 <= i < |rs| :: RouterUsable(rs[i])
  }

  predicate AllNetworksUsable(ns: seq<Value>) {
    forall i | 0 <= i < |ns| :: NetworkUsable(ns[i])
  }

  predicate AllSummariesUsable(ss: seq<Value>) {
    forall i | 0 <= i < |ss| :: SummaryUsable(ss[i])
  }

  /** The topology the builder reads from three usable lists. */
  lemma TopologyOfLists(n: Value, rs: seq<Value>, ns: seq<Value>, ss: seq<Value>)
    requires n.Obj? && ListAt(n, "routers") == Some(rs) && ListAt(n, "networks") == Some(ns) && ListAt(n, "summary") == Some(ss)
    requires AllRoutersUsable(rs) && AllNetworksUsable(ns) && AllSummariesUsable(ss)
    ensures Usable(n)
    ensures TopologyOf(n).routers == seq(|rs|, i requires 0 <= i < |rs| => RouterEntryOf(rs[i]))
    ensures TopologyOf(n).networks == seq(|ns|, i requires 0 <= i < |ns| => NetworkEntryOf(ns[i]))
    ensures TopologyOf(n).summaries == seq(|ss|, i requires 0 <= i < |ss| => SummaryEntryOf(ss[i]))
  {
  }

  /** A document whose three parser sections hold the v1.10 records. */
  predicate HoldsV10(d: Value, p: P10.Parsed) {
    && d.Obj?
    && Lookup(d.fields, "router_lsas") == Some(List(RouterDocs(p)))
    && Lookup(d.fields, "network_lsas") == Some(List(NetworkDocs(p)))
    && Lookup(d.fields, "summary_lsas") == Some(List(SummaryDocs(p)))
  }

  lemma V10RoutersReadable(d: Value, p: P10.Parsed)
    requires HoldsV10(d, p) && F10.WellFormedParsed(p)
    ensures RoutersReadable(d) && Has(d, "router_lsas")
    ensures Entries(d, "router_lsas") == RouterDocs(p)
  {
    assert GetOr(d, "router_lsas", List([])) == List(RouterDocs(p));
    forall i | 0 <= i < |p.routers| ensures RouterReadable(RouterDocs(p)[i]) {
      V10RouterEntry(p.routers[i]);
    }
  }

  /** A section stored as a list of dicts is read entry by entry. */
  lemma SectionOfList(d: Value, key: string, xs: seq<Value>)
    requires d.Obj? && Lookup(d.fields, key) == Some(List(xs)) && AllObj(xs)
    ensures SectionReadable(d, key) && Has(d, key) && Entries(d, key) == xs
  {
    assert GetOr(d, key, List([])) == List(xs);
  }

  lemma NetworkDocsObj(p: P10.Parsed)
    ensures AllObj(NetworkDocs(p))
  {
    forall i | 0 <= i < |p.networks| ensures NetworkDocs(p)[i].Obj? {
      assert NetworkDocs(p)[i] == P10.NetworkJson(p.networks[i]);
    }
  }

  lemma SummaryDocsObj(p: P10.Parsed)
    ensures AllObj(SummaryDocs(p))
  {
    forall i | 0 <= i < |p.summaries| ensures SummaryDocs(p)[i].Obj? {
      assert SummaryDocs(p)[i] == P10.SummaryJson(p.summaries[i]);
    }
  }

  lemma V10NetworksReadable(d: Value, p: P10.Parsed)
    requires HoldsV10(d, p)
    ensures SectionReadable(d, "network_lsas") && Has(d, "network_lsas")
    ensures Entries(d, "network_lsas") == NetworkDocs(p)
  {
    NetworkDocsObj(p);
    SectionOfList(d, "network_lsas", NetworkDocs(p));
  }

  lemma V10SummariesReadable(d: Value, p: P10.Parsed)
    requires HoldsV10(d, p)
    ensures SectionReadable(d, "summary_lsas") && Has(d, "summary_lsas")
    ensures Entries(d, "summary_lsas") == SummaryDocs(p)
  {
    SummaryDocsObj(p);
    SectionOfList(d, "summary_lsas", SummaryDocs(p));
  }

  lemma V10Lists(d: Value, p: P10.Parsed)
    requires HoldsV10(d, p) && F10.WellFormedParsed(p)
    ensures Normalizable(d)
    ensures var n := Normalize(d);
      && n.Obj?
      && ListAt(n, "routers") == Some(MapRouters(RouterDocs(p)))
      && ListAt(n, "networks") == Some(MapNetworks(NetworkDocs(p)))
      && ListAt(n, "summary") == Some(MapSummaries(SummaryDocs(p)))
  {
    V10RoutersReadable(d, p);
    V10NetworksReadable(d, p);
    V10SummariesReadable(d, p);
    RoutersList(d);
    NetworksList(d);
    SummaryList(d);
  }

  lemma V10RouterEntries(p: P10.Parsed)
    requires F10.WellFormedParsed(p)
    requires forall i | 0 <= i < |p.routers| :: RouterReadable(RouterDocs(p)[i])
    ensures var rs := MapRouters(RouterDocs(p));
      && AllRoutersUsable(rs)
      && seq(|rs|, i requires 0 <= i < |rs| => RouterEntryOf(rs[i])) == V10Topology(p).routers
  {
    var rs := MapRouters(RouterDocs(p));
    var want := V10Topology(p).routers;
    forall i | 0 <= i < |p.routers| ensures RouterUsable(rs[i]) && RouterEntryOf(rs[i]) == want[i] {
      assert F10.WellFormedRouter(p.routers[i]);
      assert rs[i] == NormalizeRouter(P10.RouterJson(p.routers[i]));
      V10RouterEntry(p.routers[i]);
    }
  }

  lemma V10NetworkEntries(p: P10.Parsed)
    ensures AllObj(NetworkDocs(p))
    ensures var ns := MapNetworks(NetworkDocs(p));
      && AllNetworksUsable(ns)
      && seq(|ns|, i requires 0 <= i < |ns| => NetworkEntryOf(ns[i])) == V10Topology(p).networks
  {
    NetworkDocsObj(p);
    var ns := MapNetworks(NetworkDocs(p));
    var want := V10Topology(p).networks;
    forall i | 0 <= i < |p.networks| ensures NetworkUsable(ns[i]) && NetworkEntryOf(ns[i]) == want[i] {
      assert ns[i] == NormalizeNetwork(P10.NetworkJson(p.networks[i]));
      V10NetworkEntry(p.networks[i]);
    }
  }

  lemma V10SummaryEntries(p: P10.Parsed)
    requires F10.WellFormedParsed(p)
    ensures AllObj(SummaryDocs(p))
    ensures var ss := MapSummaries(SummaryDocs(p));
      && AllSummariesUsable(ss)
      && seq(|ss|, i requires 0 <= i < |ss| => SummaryEntryOf(ss[i])) == V10Topology(p).summaries
  {
    SummaryDocsObj(p);
    var docs := SummaryDocs(p);
    var ss := MapSummaries(docs);
    var want := V10Topology(p).summaries;
    forall i | 0 <= i < |p.summaries| ensures SummaryUsable(ss[i]) && SummaryEntryOf(ss[i]) == want[i] {
      assert F10.WellFormedSummary(p.summaries[i]);
      assert ss[i] == NormalizeSummary(P10.SummaryJson(p.summaries[i]));
      V10SummaryEntry(p.summaries[i]);
    }
  }

  lemma V10Topo(d: Value, p: P10.Parsed)
    requires HoldsV10(d, p) && F10.WellFormedParsed(p)
    ensures Normalizable(d)
    ensures Usable(Normalize(d))
    ensures TopologyOf(Normalize(d)) == V10Topology(p)
  {
    V10Lists(d, p);
    V10RoutersReadable(d, p);
    V10RouterEntries(p);
    V10NetworkEntries(p);
    V10SummaryEntries(p);
    TopologyOfLists(Normalize(d), MapRouters(RouterDocs(p)), MapNetworks(NetworkDocs(p)), MapSummaries(SummaryDocs(p)));
  }

  /**
   A v1.10 document reaches the graph builder intact: it normalises without
   raising, and the builder reads exactly the parsed routers with their link
   ids, the networks with their attached routers, and the summaries keyed by
   prefix with their advertising routers.
   */
  lemma V10DocumentTopology(p: P10.Parsed)
    requires !p.aborted && F10.WellFormedParsed(p)
    ensures P10.Export(p).Some?
    ensures Normalizable(P10.Export(p).value)
    ensures Usable(Normalize(P10.Export(p).value))
    ensures TopologyOf(Normalize(P10.Export(p).value)) == V10Topology(p)
  {
    V10Sections(p);
    V10Topo(P10.Export(p).value, p);
  }

  // ---------------------------------------------------------------------------
  // v1.11 documents
  // ---------------------------------------------------------------------------

  /**
   The topology a v1.11 result describes: routers with their link ids, each
   network row with its one attached router, and summaries keyed by link id,
   or by advertising router when the link id is empty.
   */
  function V11Topology(out: P11.Output): Topology {
    Topology(
      seq(|out.routers|, i requires 0 <= i < |out.routers| => RouterEntry(out.routers[i].routerId, out.routers[i].links)),
      seq(|out.networks|, i requires 0 <= i < |out.networks| => NetworkEntry(out.networks[i].networkId, [out.networks[i].attached])),
      seq(|out.summaries|, i requires 0 <= i < |out.summaries| =>
        SummaryEntry(if out.summaries[i].linkId != "" then out.summaries[i].linkId else out.summaries[i].advRouter, out.summaries[i].advRouter)))
  }

  lemma V11RouterEntry(r: P11.RouterRecord)
    ensures RouterReadable(P11.RouterJson(r))
    ensures RouterUsable(NormalizeRouter(P11.RouterJson(r)))
    ensures RouterEntryOf(NormalizeRouter(P11.RouterJson(r))) == RouterEntry(r.routerId, r.links)
  {
    var v := P11.RouterJson(r);
    assert Get(v, "router_id") == Str(r.routerId);
    assert Get(v, "router") == Null;
    assert Get(v, "id") == Null;
    assert LinksOf(v) == List(StrValues(r.links)) by {
      assert v.fields[1..][1..] == [Field("links", List(StrValues(r.links)))];
      assert Lookup(v.fields[1..][1..], "links") == Some(List(StrValues(r.links)));
    }
    var items := StrValues(r.links);
    var names := seq(|items|, i requires 0 <= i < |items| => LinkName(items[i]));
    assert names == items;
    RouterDocNormal(v, r.routerId, items);
    NormalRouterEntry(r.routerId, r.links);
  }

  lemma V11NetworkEntry(nw: P11.NetworkRecord)
    ensures NormalizeNetwork(P11.NetworkJson(nw)).Obj?
    ensures NetworkUsable(NormalizeNetwork(P11.NetworkJson(nw)))
    ensures NetworkEntryOf(NormalizeNetwork(P11.NetworkJson(nw))) == NetworkEntry(nw.networkId, [nw.attached])
  {
    var v := P11.NetworkJson(nw);
    var id := if nw.networkId != "" then Str(nw.networkId) else Null;
    assert NormalizeNetwork(v) == Obj([Field("network_id", id), Field("attached_routers", List(StrValues([nw.attached])))]) by {
      V11NetworkDocGets(Str(nw.networkId), Str(nw.attached));
      assert StrValues([nw.attached]) == [Str(nw.attached)];
    }
    NormalNetworkEntry(nw.networkId, [nw.attached]);
  }

  /** What the normaliser reads from a v1.11 network dict. */
  lemma V11NetworkDocGets(id: Value, attached: Value)
    ensures var v := Obj([Field("network_id", id), Field("attached", attached)]);
      && Get(v, "network_id") == id && Get(v, "network") == Null
      && Get(v, "attached_routers") == Null && Get(v, "attached") == attached
  {
    var fs := [Field("network_id", id), Field("attached", attached)];
    assert Keys(fs) == ["network_id", "attached"];
    assert "network_id"[0] == 'n' && "attached"[0] == 'a';
    assert |"network"| == 7 && |"network_id"| == 10 && |"attached"| == 8 && |"attached_routers"| == 16;
  }

  lemma V11SummaryEntry(s: P11.SummaryRecord)
    ensures NormalizeSummary(P11.SummaryJson(s)).Obj?
    ensures SummaryUsable(NormalizeSummary(P11.SummaryJson(s)))
    ensures SummaryEntryOf(NormalizeSummary(P11.SummaryJson(s)))
      == SummaryEntry(if s.linkId != "" then s.linkId else s.advRouter, s.advRouter)
  {
    var v := P11.SummaryJson(s);
    var link := if s.linkId != "" then s.linkId else s.advRouter;
    var adv := if s.advRouter != "" then Str(s.advRouter) else Null;
    assert NormalizeSummary(v) == Obj([Field("link", Str(link)), Field("adv_router", adv)]) by {
      V11SummaryDocGets(Str(s.linkId), Str(s.advRouter), Int(s.metric));
    }
    NormalSummaryEntry(link, s.advRouter);
  }

  /** What the normaliser reads from a v1.11 summary dict. */
  lemma V11SummaryDocGets(link: Value, adv: Value, metric: Value)
    ensures var v := Obj([Field("link_id", link), Field("adv_router", adv), Field("metric", metric)]);
      && Get(v, "link_id") == link && Get(v, "link") == Null && Get(v, "prefix") == Null
      && Get(v, "adv_router") == adv && Get(v, "adv") == Null && Get(v, "advertising_router") == Null
  {
    var fs := [Field("link_id", link), Field("adv_router", adv), Field("metric", metric)];
    assert Keys(fs) == ["link_id", "adv_router", "metric"] by {
      assert fs[1..][1..] == [fs[2]];
    }
    V11SummaryDocFound(fs);
    V11SummaryDocAbsent(fs);
  }

  lemma V11SummaryDocFound(fs: seq<Field>)
    requires |fs| == 3 && fs[0].key == "link_id" && fs[1].key == "adv_router"
    ensures Lookup(fs, "link_id") == Some(fs[0].val) && Lookup(fs, "adv_router") == Some(fs[1].val)
  {
    assert "link_id"[0] == 'l' && "adv_router"[0] == 'a';
  }

  lemma V11SummaryDocAbsent(fs: seq<Field>)
    requires Keys(fs) == ["link_id", "adv_router", "metric"]
    ensures Lookup(fs, "link") == None && Lookup(fs, "prefix") == None
    ensures Lookup(fs, "adv") == None && Lookup(fs, "advertising_router") == None
  {
    assert "prefix"[0] == 'p' && "metric"[0] == 'm' && "adv"[0] == 'a' && "advertising_router"[0] == 'a';
    assert |"link"| == 4 && |"link_id"| == 7 && |"adv"| == 3 && |"advertising_router"| == 18 && |"adv_router"| == 10;
    assert |"prefix"| == 6 && |"metric"| == 6;
  }

  function V11RouterDocs(out: P11.Output): seq<Value> {
    seq(|out.routers|, i requires 0 <= i < |out.routers| => P11.RouterJson(out.routers[i]))
  }

  function V11NetworkDocs(out: P11.Output): seq<Value> {
    seq(|out.networks|, i requires 0 <= i < |out.networks| => P11.NetworkJson(out.networks[i]))
  }

  function V11SummaryDocs(out: P11.Output): seq<Value> {
    seq(|out.summaries|, i requires 0 <= i < |out.summaries| => P11.SummaryJson(out.summaries[i]))
  }

  lemma V11Sections(out: P11.Output)
    ensures P11.ToJson(out).Obj?
    ensures Lookup(P11.ToJson(out).fields, "router_lsas") == Some(List(V11RouterDocs(out)))
    ensures Lookup(P11.ToJson(out).fields, "network_lsas") == Some(List(V11NetworkDocs(out)))
    ensures Lookup(P11.ToJson(out).fields, "summary_lsas") == Some(List(V11SummaryDocs(out)))
  {
    var fs := P11.ToJson(out).fields;
    assert fs == [Field("router_lsas", List(V11RouterDocs(out))), Field("network_lsas", List(V11NetworkDocs(out))),
                  Field("summary_lsas", List(V11SummaryDocs(out))), Field("skipped_lsas", fs[3].val)];
    F11.SectionFields(List(V11RouterDocs(out)), List(V11NetworkDocs(out)), List(V11SummaryDocs(out)), fs[3].val);
  }

  /** A document whose three parser sections hold the v1.11 records. */
  predicate HoldsV11(d: Value, out: P11.Output) {
    && d.Obj?
    && Lookup(d.fields, "router_lsas") == Some(List(V11RouterDocs(out)))
    && Lookup(d.fields, "network_lsas") == Some(List(V11NetworkDocs(out)))
    && Lookup(d.fields, "summary_lsas") == Some(List(V11SummaryDocs(out)))
  }

  lemma V11RoutersReadable(d: Value, out: P11.Output)
    requires HoldsV11(d, out)
    ensures RoutersReadable(d) && Has(d, "router_lsas")
    ensures Entries(d, "router_lsas") == V11RouterDocs(out)
  {
    assert GetOr(d, "router_lsas", List([])) == List(V11RouterDocs(out));
    forall i | 0 <= i < |out.routers| ensures RouterReadable(V11RouterDocs(out)[i]) {
      V11RouterEntry(out.routers[i]);
    }
  }

  lemma V11NetworkDocsObj(out: P11.Output)
    ensures AllObj(V11NetworkDocs(out))
  {
    forall i | 0 <= i < |out.networks| ensures V11NetworkDocs(out)[i].Obj? {
      assert V11NetworkDocs(out)[i] == P11.NetworkJson(out.networks[i]);
    }
  }

  lemma V11SummaryDocsObj(out: P11.Output)
    ensures AllObj(V11SummaryDocs(out))
  {
    forall i | 0 <= i < |out.summaries| ensures V11SummaryDocs(out)[i].Obj? {
      assert V11SummaryDocs(out)[i] == P11.SummaryJson(out.summaries[i]);
    }
  }

  lemma V11NetworksReadable(d: Value, out: P11.Output)
    requires HoldsV11(d, out)
    ensures SectionReadable(d, "network_lsas") && Has(d, "network_lsas")
    ensures Entries(d, "network_lsas") == V11NetworkDocs(out)
  {
    V11NetworkDocsObj(out);
    SectionOfList(d, "network_lsas", V11NetworkDocs(out));
  }

  lemma V11SummariesReadable(d: Value, out: P11.Output)
    requires HoldsV11(d, out)
    ensures SectionReadable(d, "summary_lsas") && Has(d, "summary_lsas")
    ensures Entries(d, "summary_lsas") == V11SummaryDocs(out)
  {
    V11SummaryDocsObj(out);
    SectionOfList(d, "summary_lsas", V11SummaryDocs(out));
  }

  lemma V11Lists(d: Value, out: P11.Output)
    requires HoldsV11(d, out)
    ensures Normalizable(d)
    ensures var n := Normalize(d);
      && n.Obj?
      && ListAt(n, "routers") == Some(MapRouters(V11RouterDocs(out)))
      && ListAt(n, "networks") == Some(MapNetworks(V11NetworkDocs(out)))
      && ListAt(n, "summary") == Some(MapSummaries(V11SummaryDocs(out)))
  {
    V11RoutersReadable(d, out);
    V11NetworksReadable(d, out);
    V11SummariesReadable(d, out);
    RoutersList(d);
    NetworksList(d);
    SummaryList(d);
  }

  lemma V11RouterEntries(out: P11.Output)
    requires forall i | 0 <= i < |out.routers| :: RouterReadable(V11RouterDocs(out)[i])
    ensures var rs := MapRouters(V11RouterDocs(out));
      && AllRoutersUsable(rs)
      && seq(|rs|, i requires 0 <= i < |rs| => RouterEntryOf(rs[i])) == V11Topology(out).routers
  {
    var rs := MapRouters(V11RouterDocs(out));
    var want := V11Topology(out).routers;
    forall i | 0 <= i < |out.routers| ensures RouterUsable(rs[i]) && RouterEntryOf(rs[i]) == want[i] {
      assert rs[i] == NormalizeRouter(P11.RouterJson(out.routers[i]));
      V11RouterEntry(out.routers[i]);
    }
  }

  lemma V11NetworkEntries(out: P11.Output)
    ensures AllObj(V11NetworkDocs(out))
    ensures var ns := MapNetworks(V11NetworkDocs(out));
      && AllNetworksUsable(ns)
      && seq(|ns|, i requires 0 <= i < |ns| => NetworkEntryOf(ns[i])) == V11Topology(out).networks
  {
    V11NetworkDocsObj(out);
    var ns := MapNetworks(V11NetworkDocs(out));
    var want := V11Topology(out).networks;
    forall i | 0 <= i < |out.networks| ensures NetworkUsable(ns[i]) && NetworkEntryOf(ns[i]) == want[i] {
      assert ns[i] == NormalizeNetwork(P11.NetworkJson(out.networks[i]));
      V11NetworkEntry(out.networks[i]);
    }
  }

  lemma V11SummaryEntries(out: P11.Output)
    ensures AllObj(V11SummaryDocs(out))
    ensures var ss := MapSummaries(V11SummaryDocs(out));
      && AllSummariesUsable(ss)
      && seq(|ss|, i requires 0 <= i < |ss| => SummaryEntryOf(ss[i])) == V11Topology(out).summaries
  {
    V11SummaryDocsObj(out);
    var ss := MapSummaries(V11SummaryDocs(out));
    var want := V11Topology(out).summaries;
    forall i | 0 <= i < |out.summaries| ensures SummaryUsable(ss[i]) && SummaryEntryOf(ss[i]) == want[i] {
      assert ss[i] == NormalizeSummary(P11.SummaryJson(out.summaries[i]));
      V11SummaryEntry(out.summaries[i]);
    }
  }

  lemma V11Topo(d: Value, out: P11.Output)
    requires HoldsV11(d, out)
    ensures Normalizable(d)
    ensures Usable(Normalize(d))
    ensures TopologyOf(Normalize(d)) == V11Topology(out)
  {
    V11Lists(d, out);
    V11RoutersReadable(d, out);
    V11RouterEntries(out);
    V11NetworkEntries(out);
    V11SummaryEntries(out);
    TopologyOfLists(Normalize(d), MapRouters(V11RouterDocs(out)), MapNetworks(V11NetworkDocs(out)), MapSummaries(V11SummaryDocs(out)));
  }

  /**
   Every v1.11 document reaches the graph builder intact: it normalises
   without raising, and the builder reads exactly the parsed routers, each
   network row as a network with its one attached router, and each summary
   keyed by its link id or, when that is empty, by its advertising router.
   The `skipped_lsas` section is carried along untouched and never read.
   */
  lemma V11DocumentTopology(out: P11.Output)
    ensures Normalizable(P11.ToJson(out))
    ensures Usable(Normalize(P11.ToJson(out)))
    ensures TopologyOf(Normalize(P11.ToJson(out))) == V11Topology(out)
  {
    V11Sections(out);
    V11Topo(P11.ToJson(out), out);
  }

  // ---------------------------------------------------------------------------
  // From a dump to the graph
  // ---------------------------------------------------------------------------

  lemma {:induction false} AttachedCountSingletons(ns: seq<NetworkEntry>)
    requires forall i | 0 <= i < |ns| :: |ns[i].attached| == 1
    ensures AttachedCount(ns) == |ns|
    decreases |ns|
  {
    if |ns| > 0 {
      AttachedCountSingletons(ns[1..]);
    }
  }

  /** Every primary id of a v1.10 result is non-empty: router ids, network ids and prefixes are all tokens. */
  lemma V10AllNamed(p: P10.Parsed)
    requires F10.WellFormedParsed(p)
    ensures AllNamed(V10Topology(p))
  {
    var t := V10Topology(p);
    forall k | 0 <= k < |PrimaryIds(t)| ensures PrimaryIds(t)[k] != "" {
      var a := |t.routers|;
      var b := a + |t.networks|;
      if k < a {
        assert PrimaryIds(t)[k] == p.routers[k].routerId;
      } else if k < b {
        assert PrimaryIds(t)[k] == p.networks[k - a].networkId;
      } else {
        assert PrimaryIds(t)[k] == p.summaries[k - b].prefix;
      }
    }
  }

  /** The graph drawn from a v1.10 result: see V10Graph. */
  lemma V10GraphOf(p: P10.Parsed)
    requires !p.aborted && F10.WellFormedParsed(p)
    ensures P10.Export(p).Some?
    ensures Normalizable(P10.Export(p).value)
    ensures Usable(Normalize(P10.Export(p).value))
    ensures var g := Build(TopologyOf(Normalize(P10.Export(p).value)));
      && Inv(g)
      && EdgesRegistered(g)
      && |g.edges| == LinkCount(V10Topology(p).routers) + |p.networks| + |p.summaries|
      && (g.ghostCount == 1 <==> AllResolved(V10Topology(p)))
  {
    V10DocumentTopology(p);
    V10GraphOfTopology(p);
  }

  lemma V10GraphOfTopology(p: P10.Parsed)
    requires F10.WellFormedParsed(p)
    ensures var g := Build(V10Topology(p));
      && Inv(g)
      && EdgesRegistered(g)
      && |g.edges| == LinkCount(V10Topology(p).routers) + |p.networks| + |p.summaries|
      && (g.ghostCount == 1 <==> AllResolved(V10Topology(p)))
  {
    var t := V10Topology(p);
    BuildSpec(t);
    AttachedCountSingletons(t.networks);
    V10AllNamed(p);
    NoGhostsIff(t);
  }

  /**
   The graph drawn from a v1.10 dump that was not aborted: every edge joins
   registered nodes, there is one edge per router link, per network (each
   network has one attached router) and per summary, and no placeholder node
   is drawn exactly when every link target, attached router and advertising
   router is itself a router, network or summary prefix of the dump.
   */
  lemma V10Graph(lines: seq<string>, pr: P10.Prompt)
    requires !P10.Parse(lines, pr).aborted
    ensures var p := P10.Parse(lines, pr);
      && P10.Export(p).Some?
      && Normalizable(P10.Export(p).value)
      && Usable(Normalize(P10.Export(p).value))
      && var g := Build(TopologyOf(Normalize(P10.Export(p).value)));
      && Inv(g)
      && EdgesRegistered(g)
      && |g.edges| == LinkCount(V10Topology(p).routers) + |p.networks| + |p.summaries|
      && (g.ghostCount == 1 <==> AllResolved(V10Topology(p)))
  {
    F10.ParseWellFormed(lines, pr);
    V10GraphOf(P10.Parse(lines, pr));
  }

  lemma V11GraphOfTopology(out: P11.Output)
    ensures var g := Build(V11Topology(out));
      && Inv(g)
      && EdgesRegistered(g)
      && |g.edges| == LinkCount(V11Topology(out).routers) + |out.networks| + |out.summaries|
  {
    var t := V11Topology(out);
    BuildSpec(t);
    AttachedCountSingletons(t.networks);
  }

  /**
   The graph drawn from a v1.11 result: every edge joins registered nodes,
   and there is one edge per router link, per network row and per summary row.
   */
  lemma V11GraphOf(out: P11.Output)
    ensures Normalizable(P11.ToJson(out))
    ensures Usable(Normalize(P11.ToJson(out)))
    ensures var g := Build(TopologyOf(Normalize(P11.ToJson(out))));
      && Inv(g)
      && EdgesRegistered(g)
      && |g.edges| == LinkCount(V11Topology(out).routers) + |out.networks| + |out.summaries|
  {
    V11DocumentTopology(out);
    V11GraphOfTopology(out);
  }
}
