// The validator itself: loops that fill name sets and indexes, collect errors, and default drop-mode TTLs
// in place (internal/config/validate.go:11-366).
module Validate {
  import opened Prelude
  import opened Text
  import opened Config
  import opened ValidateRules
  import opened ValidateProps

  lemma FlatNext(items: seq<Errors>, i: nat)
    requires i < |items|
    ensures Flat(items[..i + 1]) == Flat(items[..i]) + items[i]
  {
    assert items[..i + 1][..i] == items[..i];
  }

  lemma FlatWhole(items: seq<Errors>)
    ensures items[..|items|] == items && items[..0] == []
  {
  }

  // ---------- joinErrors ----------

  function Statuses(es: Errors): seq<Status> {
    seq(|es|, i requires 0 <= i < |es| => Err(ErrorText(es[i])))
  }

  function NonNil(errs: seq<Status>): seq<string> {
    if errs == [] then []
    else NonNil(errs[..|errs| - 1]) + if errs[|errs| - 1].Err? then [errs[|errs| - 1].text] else []
  }

  lemma {:induction false} NonNilStatuses(es: Errors)
    ensures NonNil(Statuses(es)) == Texts(es)
  {
    if es == [] {
      assert Texts(es) == [];
    } else {
      var n := |es| - 1;
      NonNilStatuses(es[..n]);
      assert Statuses(es)[..n] == Statuses(es[..n]);
      assert Texts(es) == Texts(es[..n]) + [ErrorText(es[n])];
    }
  }

  method JoinNonNil(errs: seq<Status>) returns (r: Status)
    ensures r == JoinErrors(NonNil(errs))
  {
    var filtered: seq<string> := [];
    for i := 0 to |errs|
      invariant filtered == NonNil(errs[..i])
    {
      assert errs[..i + 1][..i] == errs[..i];
      if errs[i].Err? {
        filtered := filtered + [errs[i].text];
      }
    }
    assert errs[..|errs|] == errs;
    if filtered == [] {
      return Nil;
    }
    r := Err(Join(filtered, "\n"));
  }

  method Report(es: Errors) returns (r: Status)
    ensures r == JoinErrors(Texts(es))
  {
    NonNilStatuses(es);
    r := JoinNonNil(Statuses(es));
  }

  // ---------- Pass 1 ----------

  method RequireKafkaParams(i: nat, c: Connector) returns (errs: Errors)
    ensures errs == KafkaParamErrors(i, c)
  {
    if "brokers" !in c.params {
      return [ParamMissing(i, c.name, "brokers")];
    }
    match c.params["brokers"] {
      case PList(xs) =>
        if xs == [] {
          return [BrokersEmpty(i, c.name)];
        }
        var k := 0;
        while k < |xs|
          invariant k <= |xs| && FirstNonString(xs, k) == FirstNonString(xs, 0)
        {
          if !xs[k].PString? {
            return [BrokerNotString(i, c.name, k)];
          }
          k := k + 1;
        }
        return [];
      case PStrings(xs) =>
        return if xs == [] then [BrokersEmpty(i, c.name)] else [];
      case PString(_) => return [BrokersNotList(i, c.name)];
      case POther => return [BrokersNotList(i, c.name)];
    }
  }

  method CheckIngresses(i: nat, ing: seq<Ingress>) returns (errs: Errors)
    ensures errs == Flat(IngressItems(i, ing))
  {
    ghost var items := IngressItems(i, ing);
    FlatWhole(items);
    errs := [];
    var names: set<string> := {};
    for j := 0 to |ing|
      invariant errs == Flat(items[..j])
      invariant forall n :: n in names <==> SourceSeen(ing, j, n)
    {
      var x := ing[j];
      ghost var before := errs;
      if TrimSpace(x.sourceName) == "" {
        errs := errs + [IngressUnnamed(i, j)];
      } else {
        if x.sourceName in names {
          errs := errs + [IngressDuplicate(i, j, x.sourceName)];
        }
        names := names + {x.sourceName};
      }
      if x.topic == "" && x.queue == "" && x.subject == "" {
        errs := errs + [IngressWithoutSource(i, j)];
      }
      assert errs == before + IngressErrors(i, ing, j);
      FlatNext(items, j);
      assert forall n ::
        SourceSeen(ing, j + 1, n) <==> SourceSeen(ing, j, n) || (n == x.sourceName && TrimSpace(n) != "");
    }
  }

  method CheckEgresses(i: nat, eg: seq<Egress>) returns (errs: Errors)
    ensures errs == Flat(EgressItems(i, eg))
  {
    ghost var items := EgressItems(i, eg);
    FlatWhole(items);
    errs := [];
    var names: set<string> := {};
    for j := 0 to |eg|
      invariant errs == Flat(items[..j])
      invariant forall n :: n in names <==> TargetSeen(eg, j, n)
    {
      var name := TrimSpace(eg[j].name);
      var naming: Errors := [];
      if name == "" {
        naming := [EgressUnnamed(i, j)];
      } else {
        if name in names {
          naming := [EgressDuplicate(i, j, name)];
        }
        names := names + {name};
      }
      errs := errs + (naming + EgressTypeErrors(i, j, eg[j]));
      EgressSplit(i, eg, j, naming);
      FlatNext(items, j);
      TargetSeenNext(eg, j);
    }
  }

  lemma EgressSplit(i: nat, eg: seq<Egress>, j: nat, naming: Errors)
    requires j < |eg|
    requires var name := TrimSpace(eg[j].name);
      naming == if name == "" then [EgressUnnamed(i, j)]
                else if TargetSeen(eg, j, name) then [EgressDuplicate(i, j, name)] else []
    ensures naming + EgressTypeErrors(i, j, eg[j]) == EgressErrors(i, eg, j)
  {
  }

  lemma TargetSeenNext(eg: seq<Egress>, j: nat)
    requires j < |eg|
    ensures forall n :: TargetSeen(eg, j + 1, n) <==> TargetSeen(eg, j, n) || (n == TrimSpace(eg[j].name) && n != "")
  {
    var n := TrimSpace(eg[j].name);
    if n != "" {
      assert TargetSeen(eg, j + 1, n) by { assert TrimSpace(eg[j].name) == n; }
    }
  }

  method CheckConnector(cs: seq<Connector>, i: nat, duplicate: bool) returns (errs: Errors)
    requires i < |cs| && TrimSpace(cs[i].name) != "" && (duplicate <==> NameSeen(cs, i, cs[i].name))
    ensures errs == ConnectorErrors(cs, i)
  {
    var c := cs[i];
    errs := if duplicate then [ConnectorDuplicate(i, c.name)] else [];
    var t := ToLower(c.connectorType);
    if t == "kafka" {
      var kafka := RequireKafkaParams(i, c);
      errs := errs + kafka;
    } else if t == "rabbitmq" || t == "nats" {
      errs := errs + StringParamErrors(i, c, "url");
    } else {
      errs := errs + [ConnectorTypeUnsupported(i, c.connectorType)];
    }
    errs := errs + TlsErrors(i, c.tls);
    var ingress := CheckIngresses(i, c.ingress);
    var egress := CheckEgresses(i, c.egress);
    errs := errs + ingress + egress;
  }

  lemma NameSeenNext(cs: seq<Connector>, i: nat)
    requires i < |cs|
    ensures forall n :: NameSeen(cs, i + 1, n) <==> NameSeen(cs, i, n) || (n == cs[i].name && TrimSpace(n) != "")
  {
  }

  method ValidateConnectors(cfg: UserConfig) returns (r: Status)
    ensures r == JoinErrors(Texts(Flat(ConnectorItems(cfg.connectors))))
  {
    var cs := cfg.connectors;
    ghost var items := ConnectorItems(cs);
    FlatWhole(items);
    var errs: Errors := [];
    var names: set<string> := {};
    for i := 0 to |cs|
      invariant errs == Flat(items[..i])
      invariant forall n :: n in names <==> NameSeen(cs, i, n)
    {
      FlatNext(items, i);
      NameSeenNext(cs, i);
      if TrimSpace(cs[i].name) == "" {
        errs := errs + [ConnectorUnnamed(i)];
        continue;
      }
      var found := CheckConnector(cs, i, cs[i].name in names);
      errs := errs + found;
      names := names + {cs[i].name};
    }
    r := Report(errs);
  }

  // ---------- Indexes ----------

  method IndexNames(cs: seq<Connector>) returns (names: set<string>)
    ensures forall n :: n in names <==> HasConnector(cs, n)
  {
    names := {};
    for i := 0 to |cs|
      invariant forall n :: n in names <==> HasConnector(cs[..i], n)
    {
      names := names + {cs[i].name};
      assert cs[..i + 1] == cs[..i] + [cs[i]];
    }
    assert cs[..|cs|] == cs;
  }

  method IndexSources(cs: seq<Connector>) returns (index: set<(string, string)>)
    ensures forall n, x :: (n, x) in index <==> HasSource(cs, n, x)
  {
    index := {};
    for i := 0 to |cs|
      invariant forall n, x :: (n, x) in index <==> HasSource(cs[..i], n, x)
    {
      var c := cs[i];
      for j := 0 to |c.ingress|
        invariant forall n, x :: (n, x) in index <==>
          HasSource(cs[..i], n, x) || OffersSource(c.(ingress := c.ingress[..j]), n, x)
      {
        index := index + {(c.name, c.ingress[j].sourceName)};
        assert c.ingress[..j + 1] == c.ingress[..j] + [c.ingress[j]];
      }
      assert c.ingress[..|c.ingress|] == c.ingress;
      assert cs[..i + 1] == cs[..i] + [c];
      SourceSplit(cs[..i], c);
    }
    assert cs[..|cs|] == cs;
  }

  lemma SourceSplit(cs: seq<Connector>, c: Connector)
    ensures forall n, x :: HasSource(cs + [c], n, x) <==> HasSource(cs, n, x) || OffersSource(c, n, x)
  {
    forall n, x ensures HasSource(cs + [c], n, x) <==> HasSource(cs, n, x) || OffersSource(c, n, x) {
      assert (cs + [c])[|cs|] == c;
      assert forall k :: 0 <= k < |cs| ==> (cs + [c])[k] == cs[k];
    }
  }

  method IndexTargets(cs: seq<Connector>) returns (index: set<(string, string)>)
    ensures forall n, x :: (n, x) in index <==> HasTarget(cs, n, x)
  {
    index := {};
    for i := 0 to |cs|
      invariant forall n, x :: (n, x) in index <==> HasTarget(cs[..i], n, x)
    {
      var c := cs[i];
      for j := 0 to |c.egress|
        invariant forall n, x :: (n, x) in index <==>
          HasTarget(cs[..i], n, x) || OffersTarget(c.(egress := c.egress[..j]), n, x)
      {
        index := index + {(c.name, c.egress[j].name)};
        assert c.egress[..j + 1] == c.egress[..j] + [c.egress[j]];
      }
      assert c.egress[..|c.egress|] == c.egress;
      assert cs[..i + 1] == cs[..i] + [c];
      TargetSplit(cs[..i], c);
    }
    assert cs[..|cs|] == cs;
  }

  lemma TargetSplit(cs: seq<Connector>, c: Connector)
    ensures forall n, x :: HasTarget(cs + [c], n, x) <==> HasTarget(cs, n, x) || OffersTarget(c, n, x)
  {
    forall n, x ensures HasTarget(cs + [c], n, x) <==> HasTarget(cs, n, x) || OffersTarget(c, n, x) {
      assert (cs + [c])[|cs|] == c;
      assert forall k :: 0 <= k < |cs| ==> (cs + [c])[k] == cs[k];
    }
  }

  method IndexGroups(gs: seq<Group>) returns (names: set<string>)
    ensures forall n :: n in names <==> HasGroup(gs, n)
  {
    names := {};
    for i := 0 to |gs|
      invariant forall n :: n in names <==> HasGroup(gs[..i], n)
    {
      names := names + {gs[i].name};
      assert gs[..i + 1] == gs[..i] + [gs[i]];
    }
    assert gs[..|gs|] == gs;
  }

  // ---------- Pass 2 ----------

  method CheckGroupTargets(cs: seq<Connector>, names: set<string>, targets: set<(string, string)>, i: nat, g: Group)
    returns (errs: Errors)
    requires forall n :: n in names <==> HasConnector(cs, n)
    requires forall n, x :: (n, x) in targets <==> HasTarget(cs, n, x)
    ensures errs == Flat(GroupTargetItems(cs, i, g))
  {
    ghost var items := GroupTargetItems(cs, i, g);
    FlatWhole(items);
    errs := [];
    for j := 0 to |g.targets|
      invariant errs == Flat(items[..j])
    {
      var t := g.targets[j];
      FlatNext(items, j);
      ghost var before := errs;
      if TrimSpace(t.connector) == "" {
        errs := errs + [GroupTargetUnnamed(i, j)];
        continue;
      }
      if t.connector !in names {
        errs := errs + [GroupConnectorUnknown(i, j, t.connector)];
      }
      if (t.connector, t.target) !in targets {
        errs := errs + [GroupTargetUnknown(i, j, t.target, t.connector)];
      }
      assert errs == before + GroupTargetErrors(cs, i, g, j);
    }
  }

  method ValidateGroupReceivers(cfg: UserConfig) returns (r: Status)
    ensures r == JoinErrors(Texts(Flat(GroupItems(cfg.connectors, cfg.groups))))
  {
    var cs, gs := cfg.connectors, cfg.groups;
    var names := IndexNames(cs);
    var targets := IndexTargets(cs);
    ghost var items := GroupItems(cs, gs);
    FlatWhole(items);
    var errs: Errors := [];
    for i := 0 to |gs|
      invariant errs == Flat(items[..i])
    {
      FlatNext(items, i);
      ghost var before := errs;
      if gs[i].name in names {
        errs := errs + [GroupNameClash(i, gs[i].name)];
      }
      var found := CheckGroupTargets(cs, names, targets, i, gs[i]);
      errs := errs + found;
      assert errs == before + GroupErrors(cs, gs, i);
    }
    r := Report(errs);
  }

  // ---------- Pass 3 ----------

  /** The lookup tables the third pass builds. */
  datatype Index = Index(
    names: set<string>, sources: set<(string, string)>, targets: set<(string, string)>, groups: set<string>)

  ghost predicate IndexOf(x: Index, s: Settings) {
    && (forall n :: n in x.names <==> HasConnector(s.connectors, n))
    && (forall n, y :: (n, y) in x.sources <==> HasSource(s.connectors, n, y))
    && (forall n, y :: (n, y) in x.targets <==> HasTarget(s.connectors, n, y))
    && (forall n :: n in x.groups <==> HasGroup(s.groups, n))
  }

  method CheckSource(s: Settings, x: Index, i: nat, r: Route) returns (errs: Errors)
    requires IndexOf(x, s)
    ensures errs == SourceErrors(s, i, r)
  {
    errs := [];
    if TrimSpace(r.from.source) == "" {
      errs := errs + [FromNeedsSource(i)];
    }
    if r.from.source != "" {
      if (r.from.connector, r.from.source) !in x.sources {
        errs := errs + [FromSourceUnknown(i, r.from.source, r.from.connector)];
      }
    }
  }

  method CheckDestination(s: Settings, x: Index, i: nat, r: Route) returns (errs: Errors)
    requires IndexOf(x, s)
    ensures errs == DestinationErrors(s, i, r)
  {
    errs := [];
    if NamesTo(r) && NamesGroup(r) {
      errs := errs + [TwoDestinations(i)];
    }
    if NamesTo(r) {
      var to := CheckTo(s, x, i, r);
      errs := errs + to;
    }
    if NamesGroup(r) && r.toGroup !in x.groups {
      errs := errs + [ToGroupUnknown(i, r.toGroup)];
    }
    if !LegalMode(r.mode) {
      errs := errs + [ModeIllegal(i)];
    }
  }

  /** Checks one route against the indexes; `reached` tells whether its mode was looked at. */
  method CheckRoute(s: Settings, x: Index, i: nat, r: Route) returns (errs: Errors, reached: bool)
    requires IndexOf(x, s)
    ensures errs == RouteErrors(s, i, r) && (reached <==> ReachesMode(s, r))
  {
    if TrimSpace(r.from.connector) == "" {
      return [FromUnnamed(i)], false;
    }
    if r.from.connector !in x.names {
      return [FromUnknown(i, r.from.connector)], false;
    }
    errs := CheckSource(s, x, i, r);
    if !NamesTo(r) && !NamesGroup(r) {
      return errs + [NoDestination(i)], false;
    }
    var rest := CheckDestination(s, x, i, r);
    errs, reached := errs + rest, true;
  }

  method CheckTo(s: Settings, x: Index, i: nat, r: Route) returns (errs: Errors)
    requires IndexOf(x, s) && r.to.Some?
    ensures errs == ToErrors(s, i, r)
  {
    var to := r.to.value;
    errs := [];
    if to.connector !in x.names {
      errs := errs + [ToUnknown(i, to.connector)];
    } else if TrimSpace(to.target) == "" {
      errs := errs + [ToNeedsTarget(i)];
    } else {
      if (to.connector, to.target) !in x.targets {
        errs := errs + [ToTargetUnknown(i, to.target, to.connector)];
      }
      if to.connector == r.from.connector && to.target == r.from.source {
        errs := errs + [RouteLoops(i)];
      }
    }
  }

  /** The in-place default of a drop route's TTL. */
  method DefaultTtl(cfg: UserConfig, i: nat)
    requires i < |cfg.routes|
    modifies cfg`routes
    ensures cfg.routes == old(cfg.routes)[i := WithTtl(old(cfg.routes)[i])]
  {
    if ToLower(cfg.routes[i].mode.modeType) == "drop" {
      if cfg.routes[i].mode.ttlMs <= 0 {
        cfg.routes := cfg.routes[i := cfg.routes[i].(mode := cfg.routes[i].mode.(ttlMs := DEFAULT_TTL))];
      }
      // The second default of the source repeats the TTL test, so it never applies.
    }
  }

  method ValidateRoutesEndpoints(cfg: UserConfig) returns (r: Status)
    modifies cfg`routes
    ensures r == JoinErrors(Texts(Flat(RouteItems(old(cfg.Content())))))
    ensures cfg.Content() == Normalised(old(cfg.Content()))
  {
    var s := Settings(cfg.connectors, cfg.filters, cfg.projections, cfg.groups, cfg.routes);
    var names := IndexNames(s.connectors);
    var sources := IndexSources(s.connectors);
    var targets := IndexTargets(s.connectors);
    var groups := IndexGroups(s.groups);
    var x := Index(names, sources, targets, groups);
    var errs := CheckRoutes(cfg, s, x);
    r := Report(errs);
  }

  method CheckAndDefault(cfg: UserConfig, s: Settings, x: Index, i: nat) returns (errs: Errors)
    requires IndexOf(x, s) && i < |cfg.routes| && i < |s.routes| && cfg.routes[i] == s.routes[i]
    modifies cfg`routes
    ensures errs == RouteErrors(s, i, s.routes[i])
    ensures cfg.routes == old(cfg.routes)[i := Defaulted(s, s.routes[i])]
  {
    var reached: bool;
    errs, reached := CheckRoute(s, x, i, s.routes[i]);
    if reached {
      DefaultTtl(cfg, i);
    }
  }

  method CheckRoutes(cfg: UserConfig, s: Settings, x: Index) returns (errs: Errors)
    requires s == cfg.Content() && IndexOf(x, s)
    modifies cfg`routes
    ensures errs == Flat(RouteItems(s)) && cfg.Content() == Normalised(s)
  {
    ghost var items := RouteItems(s);
    FlatWhole(items);
    errs := [];
    for i := 0 to |s.routes|
      invariant |cfg.routes| == |s.routes|
      invariant errs == Flat(items[..i])
      invariant forall k :: 0 <= k < i ==> cfg.routes[k] == Defaulted(s, s.routes[k])
      invariant forall k :: i <= k < |s.routes| ==> cfg.routes[k] == s.routes[k]
    {
      FlatNext(items, i);
      var found := CheckAndDefault(cfg, s, x, i);
      errs := errs + found;
    }
    assert cfg.routes == Normalised(s).routes;
  }

  // ---------- Pass 4 ----------

  method ValidateFiltersAndProjections(cfg: UserConfig) returns (r: Status)
    ensures r == JoinErrors(Texts(Flat(StageItems(cfg.Content()))))
  {
    ghost var s := cfg.Content();
    ghost var items := StageItems(s);
    FlatWhole(items);
    var errs: Errors := [];
    for i := 0 to |cfg.routes|
      invariant errs == Flat(items[..i])
    {
      FlatNext(items, i);
      var route := cfg.routes[i];
      ghost var inner := FilterItems(s, i, route);
      FlatWhole(inner);
      var found: Errors := [];
      for k := 0 to |route.filters|
        invariant found == Flat(inner[..k])
      {
        FlatNext(inner, k);
        if route.filters[k] !in cfg.filters {
          found := found + [FilterUndeclared(i, route.filters[k])];
        }
      }
      if route.projection != "" && route.projection !in cfg.projections {
        found := found + [ProjectionUndeclared(i, route.projection)];
      }
      errs := errs + found;
    }
    r := Report(errs);
  }

  // ---------- ValidateConfig ----------

  /** Joining the joined passes is joining all their errors. */
  lemma JoinPasses(a: Errors, b: Errors, done: seq<string>)
    requires JoinErrors(done) == JoinAll(a)
    requires (done == [] <==> a == [])
    ensures b != [] ==> JoinErrors(done + [Join(Texts(b), "\n")]) == JoinAll(a + b)
    ensures b == [] ==> JoinErrors(done) == JoinAll(a + b)
  {
    if b == [] {
      assert a + b == a;
    } else if a == [] {
      assert a + b == b && done + [Join(Texts(b), "\n")] == [Join(Texts(b), "\n")];
    } else {
      JoinTwo(a, b);
      JoinAppend(done, [Join(Texts(b), "\n")], "\n");
    }
  }

  /** `all` holds the joined reports of the passes so far, whose errors are `es`. */
  ghost predicate Collected(all: seq<Status>, es: Errors) {
    JoinErrors(NonNil(all)) == JoinAll(es) && (NonNil(all) == [] <==> es == [])
  }

  method AddPass(ghost a: Errors, ghost b: Errors, all: seq<Status>, pass: Status) returns (r: seq<Status>)
    requires Collected(all, a) && pass == JoinAll(b)
    ensures Collected(r, a + b)
  {
    r := all;
    JoinPasses(a, b, NonNil(all));
    if pass != Nil {
      r := all + [pass];
      assert r[..|all|] == all;
      assert NonNil(r) == NonNil(all) + [Join(Texts(b), "\n")];
    }
  }

  method AddTwo(ghost a: Errors, ghost b: Errors, ghost c: Errors, all: seq<Status>, p: Status, q: Status)
    returns (r: seq<Status>)
    requires Collected(all, a) && p == JoinAll(b) && q == JoinAll(c)
    ensures Collected(r, a + b + c)
  {
    r := AddPass(a, b, all, p);
    r := AddPass(a + b, c, r, q);
  }

  /** Runs the four passes. */
  method RunPasses(cfg: UserConfig) returns (r: Status)
    modifies cfg`routes
    ensures r == JoinAll(AllErrors(old(cfg.Content())))
    ensures cfg.Content() == Normalised(old(cfg.Content()))
  {
    ghost var s := cfg.Content();
    ghost var e1, e2 := Flat(ConnectorItems(s.connectors)), Flat(GroupItems(s.connectors, s.groups));
    ghost var e3, e4 := Flat(RouteItems(s)), Flat(StageItems(s));
    NormalisedSameErrors(s);
    var connectors := ValidateConnectors(cfg);
    var groups := ValidateGroupReceivers(cfg);
    var routes := ValidateRoutesEndpoints(cfg);
    var stages := ValidateFiltersAndProjections(cfg);
    r := JoinFour(e1, e2, e3, e4, connectors, groups, routes, stages);
  }

  method JoinFour(ghost e1: Errors, ghost e2: Errors, ghost e3: Errors, ghost e4: Errors,
                  p1: Status, p2: Status, p3: Status, p4: Status) returns (r: Status)
    requires p1 == JoinAll(e1) && p2 == JoinAll(e2) && p3 == JoinAll(e3) && p4 == JoinAll(e4)
    ensures r == JoinAll(e1 + e2 + e3 + e4)
  {
    var all := AddTwo([], e1, e2, [], p1, p2);
    assert [] + e1 == e1;
    all := AddTwo(e1 + e2, e3, e4, all, p3, p4);
    r := JoinNonNil(all);
  }

  /**
   * ValidateConfig: nil exactly on well-formed configurations, otherwise one error whose text is all errors
   * of all passes, in pass order, one per line; drop routes get their default TTL in either case.
   */
  method ValidateConfig(cfg: UserConfig) returns (r: Status)
    modifies cfg`routes
    ensures r == JoinErrors(Texts(AllErrors(old(cfg.Content()))))
    ensures r == Nil <==> WellFormed(old(cfg.Content()))
    ensures cfg.Content() == Normalised(old(cfg.Content()))
  {
    NoErrorsIffWellFormed(cfg.Content());
    r := RunPasses(cfg);
  }

  /** Validating an accepted configuration a second time accepts it again and leaves it as it is. */
  method ValidateTwice(cfg: UserConfig) returns (first: Status, second: Status)
    modifies cfg`routes
    ensures first == second
    ensures cfg.Content() == Normalised(old(cfg.Content()))
    ensures first == Nil ==> forall r :: r in cfg.routes ==> (ToLower(r.mode.modeType) == "drop" ==> r.mode.ttlMs > 0)
  {
    ghost var s := cfg.Content();
    first := ValidateConfig(cfg);
    NormalisedIsStable(s);
    second := ValidateConfig(cfg);
    if first == Nil {
      forall i: nat | i < |cfg.routes|
        ensures ToLower(cfg.routes[i].mode.modeType) == "drop" ==> cfg.routes[i].mode.ttlMs > 0
      {
        DropRoutesGetTtl(s, i);
      }
    }
  }
}
