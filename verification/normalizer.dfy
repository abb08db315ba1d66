/**
 The schema normaliser of the topology generator (`_normalize_schema`). The
 parsers write their records under `router_lsas`, `network_lsas` and
 `summary_lsas`; the graph builder reads `routers`, `networks` and `summary`.
 Each parser key that is present is rewritten into the matching builder key,
 resolving the field names the parser versions use; every other key of the
 document is left alone.
 */
module Normalizer {
  import opened Wrappers
  import opened JsonValue

  /** Python's `a or b`: the first operand when it is truthy, else the second. */
  function Or(a: Value, b: Value): Value {
    if Truthy(a) then a else b
  }

  /**
   What a Python `for` loop visits in a value: a list's items, a string's
   characters, a dict's keys. None, booleans and numbers cannot be iterated.
   */
  function Iter(v: Value): Option<seq<Value>> {
    match v
    case List(xs) => Some(xs)
    case Str(s) => Some(seq(|s|, i requires 0 <= i < |s| => Str([s[i]])))
    case Obj(fs) => Some(seq(|fs|, i requires 0 <= i < |fs| => Str(fs[i].key)))
    case _ => None
  }

  predicate AllObj(xs: seq<Value>) {
    forall i | 0 <= i < |xs| :: xs[i].Obj?
  }

  // ---------------------------------------------------------------------------
  // One entry of each kind
  // ---------------------------------------------------------------------------

  /** A link entry: a dict names its target by `link_id`, else `link`, else its own text. */
  function LinkName(l: Value): Value {
    if l.Obj? then Or(Or(Get(l, "link_id"), Get(l, "link")), Str(Repr(l)))
    else Str(PyStr(l))
  }

  function LinksOf(r: Value): Value
    requires r.Obj?
  {
    GetOr(r, "links", List([]))
  }

  /** A router entry the normaliser can read: a dict whose `links` (if any) can be iterated. */
  predicate RouterReadable(r: Value) {
    r.Obj? && Iter(LinksOf(r)).Some?
  }

  function NormalizeRouter(r: Value): Value
    requires RouterReadable(r)
  {
    var ls := Iter(LinksOf(r)).value;
    Obj([
      Field("router_id", Or(Or(Get(r, "router_id"), Get(r, "router")), Get(r, "id"))),
      Field("links", List(seq(|ls|, i requires 0 <= i < |ls| => LinkName(ls[i]))))
    ])
  }

  /** The attached routers as a list: a list stays, None becomes empty, anything else is wrapped. */
  function AsList(v: Value): seq<Value> {
    if v.List? then v.items else if v.Null? then [] else [v]
  }

  function NormalizeNetwork(n: Value): Value
    requires n.Obj?
  {
    Obj([
      Field("network_id", Or(Get(n, "network_id"), Get(n, "network"))),
      Field("attached_routers", List(AsList(Or(Get(n, "attached_routers"), Get(n, "attached")))))
    ])
  }

  function NormalizeSummary(s: Value): Value
    requires s.Obj?
  {
    Obj([
      Field("link", Or(Or(Or(Get(s, "link_id"), Get(s, "link")), Get(s, "prefix")), Get(s, "adv_router"))),
      Field("adv_router", Or(Or(Get(s, "adv_router"), Get(s, "adv")), Get(s, "advertising_router")))
    ])
  }

  // ---------------------------------------------------------------------------
  // Whole sections
  // ---------------------------------------------------------------------------

  /** The section under `key` can be looped over, and each of its entries is a dict. */
  predicate SectionReadable(d: Value, key: string)
    requires d.Obj?
  {
    Iter(GetOr(d, key, List([]))).Some? && AllObj(Iter(GetOr(d, key, List([]))).value)
  }

  /** The entries the loop over `data.get(key, [])` visits. */
  function Entries(d: Value, key: string): seq<Value>
    requires d.Obj? && SectionReadable(d, key)
  {
    Iter(GetOr(d, key, List([]))).value
  }

  predicate RoutersReadable(d: Value)
    requires d.Obj?
  {
    SectionReadable(d, "router_lsas") && forall i | 0 <= i < |Entries(d, "router_lsas")| :: RouterReadable(Entries(d, "router_lsas")[i])
  }

  /**
   A document the normaliser processes without raising: a dict whose parser
   sections hold dicts, and whose router entries have iterable links.
   */
  predicate Normalizable(d: Value) {
    d.Obj? && RoutersReadable(d) && SectionReadable(d, "network_lsas") && SectionReadable(d, "summary_lsas")
  }

  function MapRouters(xs: seq<Value>): seq<Value>
    requires forall i | 0 <= i < |xs| :: RouterReadable(xs[i])
  {
    seq(|xs|, i requires 0 <= i < |xs| => NormalizeRouter(xs[i]))
  }

  function MapNetworks(xs: seq<Value>): seq<Value>
    requires AllObj(xs)
  {
    seq(|xs|, i requires 0 <= i < |xs| => NormalizeNetwork(xs[i]))
  }

  function MapSummaries(xs: seq<Value>): seq<Value>
    requires AllObj(xs)
  {
    seq(|xs|, i requires 0 <= i < |xs| => NormalizeSummary(xs[i]))
  }

  function NormalizeRouters(d: Value): Value
    requires d.Obj? && RoutersReadable(d)
  {
    if Has(d, "router_lsas") then Obj(Set(d.fields, "routers", List(MapRouters(Entries(d, "router_lsas"))))) else d
  }

  function NormalizeNetworks(d: Value): Value
    requires d.Obj? && SectionReadable(d, "network_lsas")
  {
    if Has(d, "network_lsas") then Obj(Set(d.fields, "networks", List(MapNetworks(Entries(d, "network_lsas"))))) else d
  }

  function NormalizeSummaries(d: Value): Value
    requires d.Obj? && SectionReadable(d, "summary_lsas")
  {
    if Has(d, "summary_lsas") then Obj(Set(d.fields, "summary", List(MapSummaries(Entries(d, "summary_lsas"))))) else d
  }

  /** Rewriting the routers touches no key but `routers`. */
  lemma RoutersKeep(d: Value, k: string)
    requires d.Obj? && RoutersReadable(d) && k != "routers"
    ensures NormalizeRouters(d).Obj?
    ensures Lookup(NormalizeRouters(d).fields, k) == Lookup(d.fields, k)
  {
    if Has(d, "router_lsas") {
      SetOther(d.fields, "routers", List(MapRouters(Entries(d, "router_lsas"))), k);
    }
  }

  /** Rewriting the networks touches no key but `networks`. */
  lemma NetworksKeep(d: Value, k: string)
    requires d.Obj? && SectionReadable(d, "network_lsas") && k != "networks"
    ensures NormalizeNetworks(d).Obj?
    ensures Lookup(NormalizeNetworks(d).fields, k) == Lookup(d.fields, k)
  {
    if Has(d, "network_lsas") {
      SetOther(d.fields, "networks", List(MapNetworks(Entries(d, "network_lsas"))), k);
    }
  }

  /** Rewriting the summaries touches no key but `summary`. */
  lemma SummariesKeep(d: Value, k: string)
    requires d.Obj? && SectionReadable(d, "summary_lsas") && k != "summary"
    ensures NormalizeSummaries(d).Obj?
    ensures Lookup(NormalizeSummaries(d).fields, k) == Lookup(d.fields, k)
  {
    if Has(d, "summary_lsas") {
      SetOther(d.fields, "summary", List(MapSummaries(Entries(d, "summary_lsas"))), k);
    }
  }

  /** The three rewrites in the order the generator applies them. */
  function Normalize(d: Value): Value
    requires Normalizable(d)
  {
    var d1 := NormalizeRouters(d);
    RoutersKeep(d, "network_lsas");
    RoutersKeep(d, "summary_lsas");
    var d2 := NormalizeNetworks(d1);
    NetworksKeep(d1, "summary_lsas");
    NormalizeSummaries(d2)
  }
}

/**
 Properties of the normaliser: each alias chain picks the first truthy field,
 the attached routers always come out as a list, the rewrite touches only the
 three builder keys, and applying it twice changes nothing.
 */
module NormalizerFacts {
  import opened Wrappers
  import opened JsonValue
  import opened Normalizer

  /**
   Reference meaning of `v0 or v1 or ... or vn`: the first truthy operand, or
   the last operand when none is truthy.
   */
  predicate IsFirstTruthy(vs: seq<Value>, r: Value)
    requires |vs| > 0
  {
    if exists i | 0 <= i < |vs| :: Truthy(vs[i])
    then exists i | 0 <= i < |vs| :: Truthy(vs[i]) && r == vs[i] && forall j | 0 <= j < i :: !Truthy(vs[j])
    else r == vs[|vs| - 1]
  }

  /** The chain `v0 or v1 or ... or vn`, grouped to the left as Python evaluates it. */
  function OrChain(vs: seq<Value>): Value
    requires |vs| > 0
  {
    if |vs| == 1 then vs[0] else Or(OrChain(vs[..|vs| - 1]), vs[|vs| - 1])
  }

  lemma {:induction false} OrChainFirstTruthy(vs: seq<Value>)
    requires |vs| > 0
    ensures IsFirstTruthy(vs, OrChain(vs))
    decreases |vs|
  {
    var n := |vs|;
    if n == 1 {
      if Truthy(vs[0]) {
        assert Truthy(vs[0]) && OrChain(vs) == vs[0];
      }
    } else {
      var p := vs[..n - 1];
      var r := OrChain(p);
      OrChainFirstTruthy(p);
      if exists i | 0 <= i < |p| :: Truthy(p[i]) {
        var i :| 0 <= i < |p| && Truthy(p[i]) && r == p[i] && forall j | 0 <= j < i :: !Truthy(p[j]);
        assert vs[i] == p[i];
        assert forall j | 0 <= j < i :: vs[j] == p[j];
        assert OrChain(vs) == r;
      } else {
        assert forall j | 0 <= j < n - 1 :: !Truthy(vs[j]) by {
          forall j | 0 <= j < n - 1 ensures !Truthy(vs[j]) {
            assert vs[j] == p[j];
          }
        }
        assert OrChain(vs) == vs[n - 1];
        if Truthy(vs[n - 1]) {
          assert Truthy(vs[n - 1]) && OrChain(vs) == vs[n - 1] && forall j | 0 <= j < n - 1 :: !Truthy(vs[j]);
        }
      }
    }
  }

  lemma OrChain2(a: Value, b: Value)
    ensures IsFirstTruthy([a, b], Or(a, b))
  {
    assert [a, b][..1] == [a];
    assert OrChain([a, b]) == Or(a, b);
    OrChainFirstTruthy([a, b]);
  }

  lemma OrChain3(a: Value, b: Value, c: Value)
    ensures IsFirstTruthy([a, b, c], Or(Or(a, b), c))
  {
    assert [a, b, c][..2] == [a, b];
    assert [a, b][..1] == [a];
    assert OrChain([a, b]) == Or(a, b);
    assert OrChain([a, b, c]) == Or(Or(a, b), c);
    OrChainFirstTruthy([a, b, c]);
  }

  lemma OrChain4(a: Value, b: Value, c: Value, d: Value)
    ensures IsFirstTruthy([a, b, c, d], Or(Or(Or(a, b), c), d))
  {
    assert [a, b, c, d][..3] == [a, b, c];
    assert [a, b, c][..2] == [a, b];
    assert [a, b][..1] == [a];
    assert OrChain([a, b]) == Or(a, b);
    assert OrChain([a, b, c]) == Or(Or(a, b), c);
    assert OrChain([a, b, c, d]) == Or(Or(Or(a, b), c), d);
    OrChainFirstTruthy([a, b, c, d]);
  }

  /** The text of a dict is never empty: it is at least the braces. */
  lemma ReprOfDictNotEmpty(l: Value)
    requires l.Obj?
    ensures Repr(l) != ""
  {
  }

  /** A link's name: the first truthy of `link_id`, `link` and the dict's text; a dict link always gets a truthy name. */
  lemma LinkNameSpec(l: Value)
    ensures l.Obj? ==> IsFirstTruthy([Get(l, "link_id"), Get(l, "link"), Str(Repr(l))], LinkName(l))
    ensures l.Obj? ==> Truthy(LinkName(l))
    ensures !l.Obj? ==> LinkName(l) == Str(PyStr(l))
  {
    if l.Obj? {
      OrChain3(Get(l, "link_id"), Get(l, "link"), Str(Repr(l)));
      ReprOfDictNotEmpty(l);
    }
  }

  /**
   A normalised router: `router_id` is the first truthy of `router_id`,
   `router` and `id`; `links` holds one name per link, in the original order.
   */
  lemma NormalizeRouterSpec(r: Value)
    requires RouterReadable(r)
    ensures NormalizeRouter(r).Obj?
    ensures Keys(NormalizeRouter(r).fields) == ["router_id", "links"]
    ensures IsFirstTruthy([Get(r, "router_id"), Get(r, "router"), Get(r, "id")], Get(NormalizeRouter(r), "router_id"))
    ensures Get(NormalizeRouter(r), "links").List?
    ensures |Get(NormalizeRouter(r), "links").items| == |Iter(LinksOf(r)).value|
    ensures forall i | 0 <= i < |Iter(LinksOf(r)).value| ::
      Get(NormalizeRouter(r), "links").items[i] == LinkName(Iter(LinksOf(r)).value[i])
  {
    OrChain3(Get(r, "router_id"), Get(r, "router"), Get(r, "id"));
  }

  /**
   A normalised network: `network_id` is the first truthy of `network_id` and
   `network`; `attached_routers` is always a list, built from the first truthy
   of `attached_routers` and `attached`.
   */
  lemma NormalizeNetworkSpec(n: Value)
    requires n.Obj?
    ensures Keys(NormalizeNetwork(n).fields) == ["network_id", "attached_routers"]
    ensures IsFirstTruthy([Get(n, "network_id"), Get(n, "network")], Get(NormalizeNetwork(n), "network_id"))
    ensures Get(NormalizeNetwork(n), "attached_routers").List?
    ensures var a := Or(Get(n, "attached_routers"), Get(n, "attached"));
      && IsFirstTruthy([Get(n, "attached_routers"), Get(n, "attached")], a)
      && (a.List? ==> Get(NormalizeNetwork(n), "attached_routers").items == a.items)
      && (a.Null? ==> Get(NormalizeNetwork(n), "attached_routers").items == [])
      && (!a.List? && !a.Null? ==> Get(NormalizeNetwork(n), "attached_routers").items == [a])
  {
    OrChain2(Get(n, "network_id"), Get(n, "network"));
    OrChain2(Get(n, "attached_routers"), Get(n, "attached"));
  }

  /**
   A normalised summary: `link` is the first truthy of `link_id`, `link`,
   `prefix` and `adv_router`; `adv_router` the first truthy of `adv_router`,
   `adv` and `advertising_router`.
   */
  lemma NormalizeSummarySpec(s: Value)
    requires s.Obj?
    ensures Keys(NormalizeSummary(s).fields) == ["link", "adv_router"]
    ensures IsFirstTruthy([Get(s, "link_id"), Get(s, "link"), Get(s, "prefix"), Get(s, "adv_router")], Get(NormalizeSummary(s), "link"))
    ensures IsFirstTruthy([Get(s, "adv_router"), Get(s, "adv"), Get(s, "advertising_router")], Get(NormalizeSummary(s), "adv_router"))
  {
    OrChain4(Get(s, "link_id"), Get(s, "link"), Get(s, "prefix"), Get(s, "adv_router"));
    OrChain3(Get(s, "adv_router"), Get(s, "adv"), Get(s, "advertising_router"));
  }

  // ---------------------------------------------------------------------------
  // The whole document
  // ---------------------------------------------------------------------------

  /** Every key other than the three builder keys keeps its value. */
  lemma NormalizeKeepsOtherKeys(d: Value, k: string)
    requires Normalizable(d)
    requires k != "routers" && k != "networks" && k != "summary"
    ensures Normalize(d).Obj?
    ensures Lookup(Normalize(d).fields, k) == Lookup(d.fields, k)
  {
    var d1 := NormalizeRouters(d);
    RoutersKeep(d, k);
    RoutersKeep(d, "network_lsas");
    RoutersKeep(d, "summary_lsas");
    NetworksKeep(d1, k);
    NetworksKeep(d1, "summary_lsas");
    SummariesKeep(NormalizeNetworks(d1), k);
  }

  /** A document with none of the parser keys comes back unchanged. */
  lemma NormalizeUntouched(d: Value)
    requires Normalizable(d)
    requires !Has(d, "router_lsas") && !Has(d, "network_lsas") && !Has(d, "summary_lsas")
    ensures Normalize(d) == d
  {
  }

  /**
   Each parser key that is present puts one normalised entry per original
   entry, in order, under its builder key; an absent parser key leaves the
   builder key as it was.
   */
  lemma NormalizeSections(d: Value)
    requires Normalizable(d)
    ensures Normalize(d).Obj?
    ensures Has(d, "router_lsas") ==> Lookup(Normalize(d).fields, "routers") == Some(List(MapRouters(Entries(d, "router_lsas"))))
    ensures !Has(d, "router_lsas") ==> Lookup(Normalize(d).fields, "routers") == Lookup(d.fields, "routers")
    ensures Has(d, "network_lsas") ==> Lookup(Normalize(d).fields, "networks") == Some(List(MapNetworks(Entries(d, "network_lsas"))))
    ensures !Has(d, "network_lsas") ==> Lookup(Normalize(d).fields, "networks") == Lookup(d.fields, "networks")
    ensures Has(d, "summary_lsas") ==> Lookup(Normalize(d).fields, "summary") == Some(List(MapSummaries(Entries(d, "summary_lsas"))))
    ensures !Has(d, "summary_lsas") ==> Lookup(Normalize(d).fields, "summary") == Lookup(d.fields, "summary")
  {
    var d1 := NormalizeRouters(d);
    RoutersKeep(d, "network_lsas");
    RoutersKeep(d, "summary_lsas");
    RoutersKeep(d, "networks");
    RoutersKeep(d, "summary");
    var d2 := NormalizeNetworks(d1);
    NetworksKeep(d1, "summary_lsas");
    NetworksKeep(d1, "routers");
    NetworksKeep(d1, "summary");
    SummariesKeep(d2, "routers");
    SummariesKeep(d2, "networks");
    if Has(d, "router_lsas") {
      SetFound(d.fields, "routers", List(MapRouters(Entries(d, "router_lsas"))));
    }
    if Has(d1, "network_lsas") {
      SetFound(d1.fields, "networks", List(MapNetworks(Entries(d1, "network_lsas"))));
    }
    if Has(d2, "summary_lsas") {
      SetFound(d2.fields, "summary", List(MapSummaries(Entries(d2, "summary_lsas"))));
    }
  }

  /** Two documents that agree on a key agree on what the normaliser reads there. */
  lemma SameSection(d: Value, e: Value, key: string)
    requires d.Obj? && e.Obj?
    requires Lookup(d.fields, key) == Lookup(e.fields, key)
    ensures Has(d, key) == Has(e, key)
    ensures GetOr(d, key, List([])) == GetOr(e, key, List([]))
  {
  }

  /** Normalising a normalised document changes nothing. */
  lemma NormalizeIdempotent(d: Value)
    requires Normalizable(d)
    ensures Normalizable(Normalize(d))
    ensures Normalize(Normalize(d)) == Normalize(d)
  {
    var n := Normalize(d);
    NormalizeKeepsOtherKeys(d, "router_lsas");
    NormalizeKeepsOtherKeys(d, "network_lsas");
    NormalizeKeepsOtherKeys(d, "summary_lsas");
    SameSection(d, n, "router_lsas");
    SameSection(d, n, "network_lsas");
    SameSection(d, n, "summary_lsas");
    NormalizeSections(d);
    assert Normalizable(n);
    var n1 := NormalizeRouters(n);
    assert n1 == n by {
      if Has(n, "router_lsas") {
        SetExisting(n.fields, "routers", List(MapRouters(Entries(n, "router_lsas"))));
      }
    }
    var n2 := NormalizeNetworks(n1);
    assert n2 == n by {
      if Has(n, "network_lsas") {
        SetExisting(n.fields, "networks", List(MapNetworks(Entries(n, "network_lsas"))));
      }
    }
    assert NormalizeSummaries(n2) == n by {
      if Has(n, "summary_lsas") {
        SetExisting(n.fields, "summary", List(MapSummaries(Entries(n, "summary_lsas"))));
      }
    }
  }
}
