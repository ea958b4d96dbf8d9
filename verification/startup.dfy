// From an accepted configuration to running routes: StartRoutes' target resolution
// (internal/router/router.go:57-164) and the start-up sequence of cmd/cfgcheck/main.go:30-92.
module Startup {
  import opened Prelude
  import opened Text
  import opened Config
  import opened ValidateRules
  import opened ValidateProps
  import opened Adapter
  import opened Connectors
  import Validate
  import Pipeline
  import Router
  import RouterSafety
  import Bank
  import KafkaIngress

  datatype Engine = Engine(
    buses: map<string, Link>, codec: Pipeline.Wire,
    filters: map<string, Pipeline.Filter>, projections: map<string, Pipeline.Projection>)

  datatype Problem =
    | NilTo                            // the route's nil `to` is dereferenced: a panic, not an error
    | GroupMissing(name: string)
    | FromMissing(name: string)
    | FilterMissing(name: string)
    | ProjectionMissing(name: string)
    | TargetMissing(name: string)

  datatype Started = Running(routes: seq<Router.Route>) | Failed(route: string, problem: Problem) | NilDereference

  // ---------- What resolving a route looks up ----------

  function GroupEntries(gs: seq<Group>): seq<(string, seq<Endpoint>)> {
    seq(|gs|, i requires 0 <= i < |gs| => (gs[i].name, gs[i].targets))
  }

  /** A non-empty to_group, even a blank one, takes precedence over `to`. */
  function Destinations(gs: seq<Group>, r: Route): seq<Endpoint> {
    if r.toGroup != "" then
      match LastNamed(GroupEntries(gs), r.toGroup) case None => [] case Some(ts) => ts
    else
      match r.to case None => [] case Some(t) => [t]
  }

  function FirstUnknown(known: set<string>, names: seq<string>): Option<string> {
    if names == [] then None
    else
      match FirstUnknown(known, names[..|names| - 1])
      case Some(n) => Some(n)
      case None => if names[|names| - 1] in known then None else Some(names[|names| - 1])
  }

  lemma {:induction false} AllKnown(known: set<string>, names: seq<string>)
    ensures FirstUnknown(known, names).None? <==> forall n :: n in names ==> n in known
  {
    if names != [] {
      var k := |names| - 1;
      AllKnown(known, names[..k]);
      assert names == names[..k] + [names[k]];
    }
  }

  function ConnectorNames(ts: seq<Endpoint>): seq<string> {
    seq(|ts|, i requires 0 <= i < |ts| => ts[i].connector)
  }

  /** The first thing that stops a route from starting, in the order of the checks. */
  function FirstProblem(e: Engine, gs: seq<Group>, r: Route): Option<Problem> {
    if r.toGroup != "" && LastNamed(GroupEntries(gs), r.toGroup).None? then Some(GroupMissing(r.toGroup))
    else if r.toGroup == "" && r.to.None? then Some(NilTo)
    else if r.from.connector !in e.buses then Some(FromMissing(r.from.connector))
    else
      match FirstUnknown(e.filters.Keys, r.filters)
      case Some(n) => Some(FilterMissing(n))
      case None =>
        if r.projection != "" && r.projection !in e.projections then Some(ProjectionMissing(r.projection))
        else
          match FirstUnknown(e.buses.Keys, ConnectorNames(Destinations(gs, r)))
          case Some(n) => Some(TargetMissing(n))
          case None => None
  }

  function Workers(l: Link): nat {
    match l case Rabbit(_, _, _) => 1 case Kafka(_, _, _) => KafkaIngress.WORKERS
  }

  ghost predicate StagesFrom(e: Engine, r: Route, st: Pipeline.Stages) {
    && st.codec == Some(e.codec)
    && |st.filters| == |r.filters|
    && (forall k :: 0 <= k < |r.filters| ==> r.filters[k] in e.filters && st.filters[k] == e.filters[r.filters[k]])
    && (if r.projection == "" then st.projection == None
        else r.projection in e.projections && st.projection == Some(e.projections[r.projection]))
  }

  ghost predicate TargetsFrom(ts: seq<Endpoint>, targets: seq<Router.Target>) {
    |targets| == |ts| && forall k :: 0 <= k < |ts| ==> targets[k] == Router.Target(ts[k].connector, ts[k].target)
  }

  /** Group k is the last one with this name. */
  ghost predicate IsLastGroup(gs: seq<Group>, name: string, k: nat) {
    k < |gs| && gs[k].name == name && forall j :: k < j < |gs| ==> gs[j].name != name
  }

  /** All targets of the last group a non-empty to_group names, otherwise just the route's `to`. */
  ghost predicate TargetsConfigured(gs: seq<Group>, r: Route, targets: seq<Router.Target>) {
    if r.toGroup != "" then exists k: nat :: IsLastGroup(gs, r.toGroup, k) && TargetsFrom(gs[k].targets, targets)
    else r.to.Some? && targets == [Router.Target(r.to.value.connector, r.to.value.target)]
  }

  /** `q` is the running form of configured route `r`. */
  ghost predicate Runs(e: Engine, gs: seq<Group>, r: Route, q: Router.Route) {
    && r.from.connector in e.buses && q.workers == Workers(e.buses[r.from.connector])
    && StagesFrom(e, r, q.stages) && TargetsConfigured(gs, r, q.targets)
  }

  /** What Destinations stands for. */
  lemma DestinationsAre(gs: seq<Group>, r: Route)
    ensures r.toGroup == "" && r.to.Some? ==> Destinations(gs, r) == [r.to.value]
    ensures forall k: nat :: r.toGroup != "" && IsLastGroup(gs, r.toGroup, k) ==> Destinations(gs, r) == gs[k].targets
  {
    var es := GroupEntries(gs);
    forall k: nat | r.toGroup != "" && IsLastGroup(gs, r.toGroup, k) ensures Destinations(gs, r) == gs[k].targets {
      assert IsLast(es, k);
      LastNamedIs(es, k);
    }
  }

  // ---------- What a problem means ----------

  ghost predicate FirstOutside(known: set<string>, names: seq<string>, n: string) {
    exists k :: 0 <= k < |names| && names[k] == n && n !in known && forall j :: 0 <= j < k ==> names[j] in known
  }

  lemma {:induction false} FirstUnknownIs(known: set<string>, names: seq<string>)
    ensures FirstUnknown(known, names).Some? ==> FirstOutside(known, names, FirstUnknown(known, names).value)
  {
    if names != [] {
      var k := |names| - 1;
      FirstUnknownIs(known, names[..k]);
      AllKnown(known, names[..k]);
      assert forall j :: 0 <= j < k ==> names[..k][j] == names[j];
      if FirstUnknown(known, names[..k]).Some? {
        var n := FirstUnknown(known, names[..k]).value;
        var j :| 0 <= j < k && names[..k][j] == n && n !in known && forall i :: 0 <= i < j ==> names[..k][i] in known;
        assert names[j] == n;
      } else {
        assert forall j :: 0 <= j < k ==> names[j] in names[..k];
      }
    }
  }

  /** The destination can be looked up: the named group exists, or there is a `to`. */
  ghost predicate HasDestination(gs: seq<Group>, r: Route) {
    if r.toGroup != "" then HasGroup(gs, r.toGroup) else r.to.Some?
  }

  ghost predicate FiltersKnown(e: Engine, r: Route) {
    forall n :: n in r.filters ==> n in e.filters
  }

  ghost predicate ProjectionKnown(e: Engine, r: Route) {
    r.projection == "" || r.projection in e.projections
  }

  /** A problem is true of the route, and everything looked up before it was found. */
  ghost predicate ProblemHolds(e: Engine, gs: seq<Group>, r: Route, p: Problem) {
    match p
    case GroupMissing(n) => n == r.toGroup != "" && !HasGroup(gs, n)
    case NilTo => r.toGroup == "" && r.to.None?
    case FromMissing(n) => HasDestination(gs, r) && n == r.from.connector && n !in e.buses
    case FilterMissing(n) =>
      HasDestination(gs, r) && r.from.connector in e.buses && FirstOutside(e.filters.Keys, r.filters, n)
    case ProjectionMissing(n) =>
      HasDestination(gs, r) && r.from.connector in e.buses && FiltersKnown(e, r)
      && n == r.projection && !ProjectionKnown(e, r)
    case TargetMissing(n) =>
      && HasDestination(gs, r) && r.from.connector in e.buses && FiltersKnown(e, r) && ProjectionKnown(e, r)
      && FirstOutside(e.buses.Keys, ConnectorNames(Destinations(gs, r)), n)
  }

  lemma ProblemMeaning(e: Engine, gs: seq<Group>, r: Route)
    ensures match FirstProblem(e, gs, r)
            case Some(p) => ProblemHolds(e, gs, r, p)
            case None =>
              && HasDestination(gs, r) && r.from.connector in e.buses && FiltersKnown(e, r) && ProjectionKnown(e, r)
              && forall t :: t in Destinations(gs, r) ==> t.connector in e.buses
  {
    GroupFound(gs, r.toGroup);
    AllKnown(e.filters.Keys, r.filters);
    FirstUnknownIs(e.filters.Keys, r.filters);
    var ts := Destinations(gs, r);
    AllKnown(e.buses.Keys, ConnectorNames(ts));
    FirstUnknownIs(e.buses.Keys, ConnectorNames(ts));
    forall t | t in ts ensures t.connector in ConnectorNames(ts) {
      var k :| 0 <= k < |ts| && ts[k] == t;
      assert ConnectorNames(ts)[k] == t.connector;
    }
  }

  // ---------- StartRoutes ----------

  method ResolveFilters(e: Engine, names: seq<string>) returns (r: Result<seq<Pipeline.Filter>, Problem>)
    ensures match FirstUnknown(e.filters.Keys, names)
            case Some(n) => r == Failure(FilterMissing(n))
            case None => r.Success? && |r.value| == |names|
                         && forall k :: 0 <= k < |names| ==> names[k] in e.filters && r.value[k] == e.filters[names[k]]
  {
    var fns: seq<Pipeline.Filter> := [];
    AllKnown(e.filters.Keys, names);
    for i := 0 to |names|
      invariant |fns| == i && FirstUnknown(e.filters.Keys, names[..i]).None?
      invariant forall k :: 0 <= k < i ==> names[k] in e.filters && fns[k] == e.filters[names[k]]
    {
      assert names[..i + 1][..i] == names[..i];
      if names[i] !in e.filters {
        FirstUnknownStays(e.filters.Keys, names, i + 1);
        return Failure(FilterMissing(names[i]));
      }
      fns := fns + [e.filters[names[i]]];
    }
    assert names[..|names|] == names;
    r := Success(fns);
  }

  lemma {:induction false} FirstUnknownStays(known: set<string>, names: seq<string>, i: nat)
    requires i <= |names| && FirstUnknown(known, names[..i]).Some?
    ensures FirstUnknown(known, names) == FirstUnknown(known, names[..i])
  {
    if i == |names| {
      assert names[..i] == names;
    } else {
      var k := |names| - 1;
      assert names[..k][..i] == names[..i];
      FirstUnknownStays(known, names[..k], i);
    }
  }

  /** The lookups that end with the target buses; the lanes and workers of each target start as it is resolved. */
  method ResolveTargets(e: Engine, ts: seq<Endpoint>) returns (r: Result<seq<Router.Target>, Problem>)
    ensures match FirstUnknown(e.buses.Keys, ConnectorNames(ts))
            case Some(n) => r == Failure(TargetMissing(n))
            case None => r.Success? && TargetsFrom(ts, r.value)
  {
    var names := ConnectorNames(ts);
    var targets: seq<Router.Target> := [];
    for i := 0 to |ts|
      invariant TargetsFrom(ts[..i], targets) && FirstUnknown(e.buses.Keys, names[..i]).None?
    {
      assert names[..i + 1][..i] == names[..i];
      if ts[i].connector !in e.buses {
        FirstUnknownStays(e.buses.Keys, names, i + 1);
        return Failure(TargetMissing(ts[i].connector));
      }
      targets := targets + [Router.Target(ts[i].connector, ts[i].target)];
    }
    assert names[..|ts|] == names && ts[..|ts|] == ts;
    r := Success(targets);
  }

  method StartRoute(e: Engine, ghost gs: seq<Group>, groupTargets: map<string, seq<Endpoint>>, r: Route)
    returns (res: Result<Router.Route, Problem>)
    requires Indexes(groupTargets, GroupEntries(gs))
    ensures match FirstProblem(e, gs, r)
            case Some(p) => res == Failure(p)
            case None => res.Success? && Runs(e, gs, r, res.value)
  {
    var ts: seq<Endpoint>;
    IndexedIsLast(groupTargets, GroupEntries(gs), r.toGroup);
    if r.toGroup != "" {
      if r.toGroup !in groupTargets {
        return Failure(GroupMissing(r.toGroup));
      }
      ts := groupTargets[r.toGroup];
      ghost var k: nat :| IsLast(GroupEntries(gs), k) && GroupEntries(gs)[k].0 == r.toGroup;
      assert IsLastGroup(gs, r.toGroup, k) && ts == gs[k].targets by {
        assert forall j :: 0 <= j < |gs| ==> GroupEntries(gs)[j] == (gs[j].name, gs[j].targets);
      }
    } else {
      if r.to.None? {
        return Failure(NilTo);
      }
      ts := [r.to.value];
    }
    if r.from.connector !in e.buses {
      return Failure(FromMissing(r.from.connector));
    }
    var filters := ResolveFilters(e, r.filters);
    if filters.Failure? {
      return Failure(filters.error);
    }
    var project: Option<Pipeline.Projection> := None;
    if r.projection != "" {
      if r.projection !in e.projections {
        return Failure(ProjectionMissing(r.projection));
      }
      project := Some(e.projections[r.projection]);
    }
    var targets := ResolveTargets(e, ts);
    if targets.Failure? {
      return Failure(targets.error);
    }
    res := Success(Router.Route(
      Workers(e.buses[r.from.connector]), Pipeline.Stages(Some(e.codec), filters.value, project), targets.value));
  }

  /** Route i is the first that does not start, and p is why. */
  ghost predicate StopsAt(e: Engine, s: Settings, i: nat, p: Problem) {
    && i < |s.routes| && FirstProblem(e, s.groups, s.routes[i]) == Some(p)
    && forall k :: 0 <= k < i ==> FirstProblem(e, s.groups, s.routes[k]).None?
  }

  ghost predicate OutcomeOf(e: Engine, s: Settings, out: Started) {
    match out
    case Running(qs) =>
      |qs| == |s.routes| && forall i :: 0 <= i < |qs| ==>
        FirstProblem(e, s.groups, s.routes[i]).None? && Runs(e, s.groups, s.routes[i], qs[i])
    case Failed(name, p) => p != NilTo && exists i: nat :: StopsAt(e, s, i, p) && name == s.routes[i].name
    case NilDereference => exists i: nat :: StopsAt(e, s, i, NilTo)
  }

  method StartRoutes(e: Engine, uc: UserConfig) returns (out: Started)
    ensures OutcomeOf(e, uc.Content(), out)
  {
    ghost var s := uc.Content();
    var groupTargets := NameMap(GroupEntries(uc.groups));
    var running: seq<Router.Route> := [];
    for i := 0 to |uc.routes|
      invariant |running| == i
      invariant forall k :: 0 <= k < i ==>
        FirstProblem(e, s.groups, s.routes[k]).None? && Runs(e, s.groups, s.routes[k], running[k])
    {
      var res := StartRoute(e, s.groups, groupTargets, uc.routes[i]);
      if res.Failure? {
        assert StopsAt(e, s, i, res.error);
        return if res.error == NilTo then NilDereference else Failed(uc.routes[i].name, res.error);
      }
      running := running + [res.value];
    }
    out := Running(running);
  }

  // ---------- Accepted configurations ----------

  /** The engine main builds: one bus per mapped connector, the built-in filters and projections. */
  ghost predicate BuiltFor(e: Engine, s: Settings) {
    && Indexes(e.buses, LinkEntries(s.connectors))
    && e.filters == Pipeline.BuiltinFilters() && e.projections == Pipeline.BuiltinProjections()
  }

  /** A connector of that name is declared with a type MapConnectors wires in. */
  predicate Wired(cs: seq<Connector>, name: string) {
    exists k :: 0 <= k < |cs| && cs[k].name == name && WiredType(cs[k])
  }

  /** What a route needs on top of an accepted configuration. */
  ghost predicate Startable(s: Settings, r: Route) {
    && (r.toGroup == "" || HasGroup(s.groups, r.toGroup))
    && (forall f :: f in r.filters ==> f in Pipeline.BuiltinFilters())
    && (r.projection == "" || r.projection in Pipeline.BuiltinProjections())
    && Wired(s.connectors, r.from.connector)
    && forall t :: t in Destinations(s.groups, r) ==> Wired(s.connectors, t.connector)
  }

  lemma {:induction false} WiredIff(cs: seq<Connector>, name: string)
    ensures LastNamed(LinkEntries(cs), name).Some? <==> Wired(cs, name)
  {
    if cs != [] {
      var n := |cs| - 1;
      assert cs == cs[..n] + [cs[n]];
      EntriesMore(cs[..n], cs[n]);
      WiredIff(cs[..n], name);
      if Wired(cs, name) && !(cs[n].name == name && LinkOf(cs[n]).Some?) {
        var k :| 0 <= k < |cs| && cs[k].name == name && WiredType(cs[k]);
        assert cs[..n][k] == cs[k];
      }
    }
  }

  lemma GroupFound(gs: seq<Group>, name: string)
    ensures LastNamed(GroupEntries(gs), name).Some? <==> HasGroup(gs, name)
    ensures LastNamed(GroupEntries(gs), name).Some? ==>
      exists g :: g in gs && g.name == name && g.targets == LastNamed(GroupEntries(gs), name).value
  {
    var es := GroupEntries(gs);
    FoundIsNamed(es, name);
    assert forall k :: 0 <= k < |gs| ==> es[k].0 == gs[k].name;
    if LastNamed(es, name).Some? {
      var k :| 0 <= k < |es| && es[k] == (name, LastNamed(es, name).value);
      var g := gs[k];
      assert g in gs && es[k] == (g.name, g.targets);
      assert g.name == name && g.targets == LastNamed(es, name).value;
    }
  }

  /** On an accepted configuration start-up never dereferences a nil `to`. */
  lemma NeverNilTo(e: Engine, s: Settings, r: Route)
    requires WellFormed(s) && r in s.routes
    ensures FirstProblem(e, s.groups, r) != Some(NilTo)
  {
    assert GoodRoute(s, r);
    TrimSpaceBlank(r.toGroup);
  }

  /** On an accepted configuration a route starts exactly when it is Startable. */
  lemma StartsIff(e: Engine, s: Settings, r: Route)
    requires WellFormed(s) && BuiltFor(e, s) && r in s.routes
    ensures FirstProblem(e, s.groups, r).None? <==> Startable(s, r)
  {
    NeverNilTo(e, s, r);
    GroupFound(s.groups, r.toGroup);
    AllKnown(e.filters.Keys, r.filters);
    BusIff(e, s, r.from.connector);
    var ts := Destinations(s.groups, r);
    var names := ConnectorNames(ts);
    AllKnown(e.buses.Keys, names);
    EndpointsKnownIff(e, s, ts);
  }

  lemma EndpointsKnownIff(e: Engine, s: Settings, ts: seq<Endpoint>)
    requires BuiltFor(e, s)
    ensures (forall n :: n in ConnectorNames(ts) ==> n in e.buses)
      <==> forall t :: t in ts ==> Wired(s.connectors, t.connector)
  {
    var names := ConnectorNames(ts);
    if forall n :: n in names ==> n in e.buses {
      forall t | t in ts ensures Wired(s.connectors, t.connector) {
        var k :| 0 <= k < |ts| && ts[k] == t;
        assert names[k] in names;
        BusIff(e, s, t.connector);
      }
    }
    if forall t :: t in ts ==> Wired(s.connectors, t.connector) {
      forall n | n in names ensures n in e.buses {
        var k :| 0 <= k < |names| && names[k] == n;
        assert ts[k] in ts;
        BusIff(e, s, n);
      }
    }
  }

  lemma BusIff(e: Engine, s: Settings, name: string)
    requires BuiltFor(e, s)
    ensures name in e.buses <==> Wired(s.connectors, name)
  {
    IndexedIsLast(e.buses, LinkEntries(s.connectors), name);
    WiredIff(s.connectors, name);
  }

  // ---------- The lookups of a running route find what was declared ----------

  predicate DeclaredSource(cs: seq<Connector>, from: Startpoint, i: nat, j: nat) {
    i < |cs| && cs[i].name == from.connector && j < |cs[i].ingress| && cs[i].ingress[j].sourceName == from.source
  }

  predicate DeclaredTarget(cs: seq<Connector>, t: Endpoint, i: nat, j: nat) {
    i < |cs| && cs[i].name == t.connector && j < |cs[i].egress| && cs[i].egress[j].name == t.target
  }

  lemma SourceLookup(cs: seq<Connector>, from: Startpoint, i: nat, j: nat)
    requires GoodConnectors(cs) && DeclaredSource(cs, from, i, j) && LinkOf(cs[i]).Some?
    ensures LastNamed(LinkEntries(cs), from.connector) == LinkOf(cs[i])
    ensures LastNamed(SourceEntries(LinkOf(cs[i]).value), from.source) == Some(j)
    ensures forall x: nat, y: nat :: DeclaredSource(cs, from, x, y) ==> x == i && y == j
  {
    LinkFound(cs, i);
    var c := cs[i];
    assert GoodIngresses(c.ingress);
    var es := SourceEntries(LinkOf(c).value);
    assert forall k :: 0 <= k < |c.ingress| ==> es[k] == (c.ingress[k].sourceName, k);
    UniqueIsFound(es, j);
  }

  lemma TargetLookup(cs: seq<Connector>, t: Endpoint, i: nat, j: nat)
    requires GoodConnectors(cs) && DeclaredTarget(cs, t, i, j) && LinkOf(cs[i]).Some?
    ensures LastNamed(LinkEntries(cs), t.connector) == LinkOf(cs[i])
    ensures LastNamed(TargetEntries(LinkOf(cs[i]).value), t.target) == Some(j)
    ensures forall x: nat, y: nat :: DeclaredTarget(cs, t, x, y) ==> x == i && y == j
  {
    LinkFound(cs, i);
    var c := cs[i];
    assert GoodEgresses(c.egress);
    var es := TargetEntries(LinkOf(c).value);
    assert forall k :: 0 <= k < |c.egress| ==> es[k] == (c.egress[k].name, k);
    UniqueIsFound(es, j);
  }

  lemma BusIs(e: Engine, s: Settings, name: string, l: Option<Link>)
    requires BuiltFor(e, s) && name in e.buses && LastNamed(LinkEntries(s.connectors), name) == l
    ensures Some(e.buses[name]) == l
  {
    IndexedIsLast(e.buses, LinkEntries(s.connectors), name);
  }

  /** Subscribe's lookup finds the one declared ingress of the route's source. */
  lemma SubscribeFinds(e: Engine, s: Settings, r: Route) returns (i: nat, j: nat)
    requires WellFormed(s) && BuiltFor(e, s) && r in s.routes && r.from.connector in e.buses
    ensures DeclaredSource(s.connectors, r.from, i, j)
    ensures forall x: nat, y: nat :: DeclaredSource(s.connectors, r.from, x, y) ==> x == i && y == j
    ensures Some(e.buses[r.from.connector]) == LinkOf(s.connectors[i])
    ensures Mirrors(s.connectors[i], e.buses[r.from.connector])
    ensures LastNamed(SourceEntries(e.buses[r.from.connector]), r.from.source) == Some(j)
  {
    assert GoodRoute(s, r);
    var k: nat :| k < |s.connectors| && OffersSource(s.connectors[k], r.from.connector, r.from.source);
    var l: nat :| l < |s.connectors[k].ingress| && s.connectors[k].ingress[l].sourceName == r.from.source;
    LinkFound(s.connectors, k);
    BusIs(e, s, r.from.connector, LinkOf(s.connectors[k]));
    LinkMirrors(s.connectors[k]);
    SourceLookup(s.connectors, r.from, k, l);
    i, j := k, l;
  }

  /** Every destination of a route of an accepted configuration is a declared egress. */
  lemma DestinationsDeclared(s: Settings, r: Route, t: Endpoint)
    requires WellFormed(s) && r in s.routes && t in Destinations(s.groups, r)
    ensures HasTarget(s.connectors, t.connector, t.target)
  {
    assert GoodRoute(s, r);
    if r.toGroup != "" {
      GroupFound(s.groups, r.toGroup);
    } else {
      TrimSpaceBlank(r.toGroup);
    }
  }

  /** Publish's lookup finds the one declared egress of each destination. */
  lemma PublishFinds(e: Engine, s: Settings, r: Route, t: Endpoint) returns (i: nat, j: nat)
    requires WellFormed(s) && BuiltFor(e, s) && r in s.routes
    requires t in Destinations(s.groups, r) && t.connector in e.buses
    ensures DeclaredTarget(s.connectors, t, i, j)
    ensures forall x: nat, y: nat :: DeclaredTarget(s.connectors, t, x, y) ==> x == i && y == j
    ensures Some(e.buses[t.connector]) == LinkOf(s.connectors[i])
    ensures Mirrors(s.connectors[i], e.buses[t.connector])
    ensures LastNamed(TargetEntries(e.buses[t.connector]), t.target) == Some(j)
  {
    DestinationsDeclared(s, r, t);
    var k: nat :| k < |s.connectors| && OffersTarget(s.connectors[k], t.connector, t.target);
    var l: nat :| l < |s.connectors[k].egress| && s.connectors[k].egress[l].name == t.target;
    LinkFound(s.connectors, k);
    BusIs(e, s, t.connector, LinkOf(s.connectors[k]));
    LinkMirrors(s.connectors[k]);
    TargetLookup(s.connectors, t, k, l);
    i, j := k, l;
  }

  // ---------- The whole start-up ----------

  /** NoRedis: the ping before StartRoutes failed, which main answers with a panic. */
  datatype Launched = Invalid(text: string) | NoConnectors(text: string) | NoRedis | Routes(started: Started)

  /** Nothing stands between acceptance and running. */
  ghost predicate Plain(s: Settings) {
    && (forall r :: r in s.routes ==>
          && (r.toGroup == "" || !Blank(r.toGroup))
          && (forall f :: f in r.filters ==> f in Pipeline.BuiltinFilters())
          && (r.projection == "" || r.projection in Pipeline.BuiltinProjections()))
    && (forall c :: c in s.connectors ==> WiredType(c))
  }

  lemma DeclaredIsWired(s: Settings, name: string)
    requires HasConnector(s.connectors, name)
    requires forall c :: c in s.connectors ==> WiredType(c)
    ensures Wired(s.connectors, name)
  {
  }

  /** Accepted and plain configurations start completely. */
  lemma PlainStarts(s: Settings, r: Route)
    requires WellFormed(s) && Plain(s) && r in s.routes
    ensures Startable(s, r)
  {
    assert GoodRoute(s, r);
    TrimSpaceBlank(r.toGroup);
    TargetImpliesConnector(s.connectors, r.from.connector, "");
    DeclaredIsWired(s, r.from.connector);
    forall t | t in Destinations(s.groups, r) ensures Wired(s.connectors, t.connector) {
      DestinationsDeclared(s, r, t);
      TargetImpliesConnector(s.connectors, t.connector, t.target);
      DeclaredIsWired(s, t.connector);
    }
  }

  /** The outcome of starting an accepted configuration. */
  lemma AcceptedOutcome(e: Engine, s: Settings, out: Started)
    requires WellFormed(s) && BuiltFor(e, s) && OutcomeOf(e, s, out)
    ensures out != NilDereference
    ensures out.Running? <==> forall r :: r in s.routes ==> Startable(s, r)
    ensures Plain(s) ==> out.Running?
  {
    forall r | r in s.routes
      ensures FirstProblem(e, s.groups, r) != Some(NilTo)
      ensures FirstProblem(e, s.groups, r).None? <==> Startable(s, r)
      ensures Plain(s) ==> Startable(s, r)
    {
      NeverNilTo(e, s, r);
      StartsIff(e, s, r);
      if Plain(s) { PlainStarts(s, r); }
    }
  }

  /**
   * main up to running routes. A configuration is refused exactly when it is not well formed; an accepted one
   * whose connectors all open never crashes StartRoutes, which is reached exactly when Redis answers, and its
   * routes run exactly when all are Startable.
   */
  method Launch(uc: UserConfig, w: World, codec: Pipeline.Wire, redisAnswers: bool) returns (out: Launched)
    modifies uc`routes
    ensures uc.Content() == Normalised(old(uc.Content()))
    ensures out.Invalid? <==> !WellFormed(old(uc.Content()))
    ensures out.NoConnectors? <==> WellFormed(old(uc.Content())) && exists c :: c in uc.connectors && !Maps(w, c)
    ensures out.NoRedis? ==> !redisAnswers
    ensures out.Routes? ==> redisAnswers && out.started != NilDereference
    ensures out.Routes? ==> (out.started.Running? <==> forall r :: r in uc.routes ==> Startable(uc.Content(), r))
    ensures out.Routes? && Plain(uc.Content()) ==> out.started.Running?
  {
    NormalisedIsStable(uc.Content());
    var verdict := Validate.ValidateConfig(uc);
    if verdict != Nil {
      return Invalid(verdict.text);
    }
    var links := MapConnectors(uc.connectors, w);
    if links.Failure? {
      return NoConnectors(links.error);
    }
    var e := Engine(links.value, codec, Pipeline.BuiltinFilters(), Pipeline.BuiltinProjections());
    if !redisAnswers {
      return NoRedis;
    }
    var started := StartRoutes(e, uc);
    AcceptedOutcome(e, uc.Content(), started);
    out := Routes(started);
  }

  // ---------- What a started route guarantees while it runs ----------

  /** The worker counts of the wired connectors keep every send of a started route from blocking. */
  lemma StartedRoutesNeverBlock(e: Engine, gs: seq<Group>, r: Route, q: Router.Route, st: Router.State,
                                ti: nat, c: nat, li: nat)
    requires Runs(e, gs, r, q) && RouterSafety.Reachable(q, st) && ti < |st.banks|
    ensures Bank.Submitting(st.banks[ti], c, li) && !st.banks[ti].lanes[li].closed ==>
      Bank.CanSubmit(st.banks[ti], c, li)
    ensures Bank.Replies(st.banks[ti], li) ==> Bank.CanReply(st.banks[ti], li)
  {
    RouterSafety.ReachableOk(q, st);
    RouterSafety.SendsNeverBlock(q, st, ti, c, li);
  }

  /**
   * A started RabbitMQ route has one worker, so publish order follows delivery order, and a policy under which no
   * message is lost; a started Kafka route has the ten workers of the commit window.
   */
  lemma StartedRouteKind(e: Engine, s: Settings, r: Route, q: Router.Route)
    requires BuiltFor(e, s) && Runs(e, s.groups, r, q)
    ensures match e.buses[r.from.connector]
            case Rabbit(_, sources, _) =>
              q.workers == 1 && forall x :: x in sources ==> !x.policy.autoAck && x.policy.requeueOnError
            case Kafka(_, _, _) => q.workers == KafkaIngress.WORKERS
  {
    EntriesMapped(s.connectors, e.buses);
    var i: nat :| IsLastWired(s.connectors, i) && s.connectors[i].name == r.from.connector;
    assert Mirrors(s.connectors[i], e.buses[r.from.connector]);
  }

  // ---------- Accepted configurations that do not start ----------

  function SampleSource(connectorType: string): Connector {
    Connector("a", connectorType, map["url" := PString("amqp://host")], None, [Ingress("", "q", "", "", "in")], [])
  }

  function SampleTarget(connectorType: string): Connector {
    Connector("b", connectorType, map["url" := PString("amqp://host")], None, [],
      [Egress("exchange", "out", "", "", "x", "k")])
  }

  const SAMPLE_ROUTE := Config.Route(
    "r", Startpoint("a", "in"), Some(Endpoint("b", "out")), "", Mode("persistent", 0, 0), [], "")

  function Sample(types: (string, string), toGroup: string): Settings {
    Settings([SampleSource(types.0), SampleTarget(types.1)], [], [], [], [SAMPLE_ROUTE.(toGroup := toGroup)])
  }

  lemma SampleParamsAccepted(c: Connector)
    requires c.params == map["url" := PString("amqp://host")]
    requires ToLower(c.connectorType) == "rabbitmq" || ToLower(c.connectorType) == "nats"
    ensures GoodParams(c)
  {
    assert "amqp://host"[0] == 'a';
  }

  lemma SampleConnectorsAccepted(types: (string, string), toGroup: string)
    requires ToLower(types.0) == "rabbitmq" && (ToLower(types.1) == "rabbitmq" || ToLower(types.1) == "nats")
    ensures GoodConnectors(Sample(types, toGroup).connectors)
  {
    SampleSourceAccepted(SampleSource(types.0));
    SampleTargetAccepted(SampleTarget(types.1));
  }

  lemma SampleSourceAccepted(c: Connector)
    requires c == SampleSource(c.connectorType) && ToLower(c.connectorType) == "rabbitmq"
    ensures GoodConnector(c)
  {
    SampleParamsAccepted(c);
    assert "a"[0] == 'a' && "in"[0] == 'i';
  }

  lemma SampleTargetAccepted(c: Connector)
    requires c == SampleTarget(c.connectorType)
    requires ToLower(c.connectorType) == "rabbitmq" || ToLower(c.connectorType) == "nats"
    ensures GoodConnector(c)
  {
    SampleParamsAccepted(c);
    assert "b"[0] == 'b' && "out"[0] == 'o' && "x"[0] == 'x' && "k"[0] == 'k';
    assert ToLower("exchange") == "exchange";
  }

  lemma SampleAccepted(types: (string, string), toGroup: string)
    requires ToLower(types.0) == "rabbitmq" && (ToLower(types.1) == "rabbitmq" || ToLower(types.1) == "nats")
    requires Blank(toGroup)
    ensures WellFormed(Sample(types, toGroup))
  {
    var s := Sample(types, toGroup);
    SampleConnectorsAccepted(types, toGroup);
    SampleRouteAccepted(s);
  }

  lemma SampleRouteAccepted(s: Settings)
    requires |s.connectors| == 2 && |s.routes| == 1
    requires s.routes == [SAMPLE_ROUTE.(toGroup := s.routes[0].toGroup)] && Blank(s.routes[0].toGroup)
    requires s.connectors[0] == SampleSource(s.connectors[0].connectorType)
    requires s.connectors[1] == SampleTarget(s.connectors[1].connectorType)
    ensures GoodRoute(s, s.routes[0])
  {
    TrimSpaceBlank(s.routes[0].toGroup);
    TrimSpaceBlank("b");
    assert "a"[0] == 'a' && "b"[0] == 'b' && "in"[0] == 'i' && "out"[0] == 'o';
    assert s.connectors[0].ingress[0].sourceName == "in" && OffersSource(s.connectors[0], "a", "in");
    assert s.connectors[1].egress[0].name == "out" && OffersTarget(s.connectors[1], "b", "out");
    assert ToLower("persistent") == "persistent";
  }

  /** A blank but non-empty to_group passes validation, yet start-up looks for a group of that name. */
  lemma BlankGroupStopsStart(e: Engine)
    ensures var s := Sample(("rabbitmq", "rabbitmq"), " ");
      WellFormed(s) && FirstProblem(e, s.groups, s.routes[0]) == Some(GroupMissing(" "))
  {
    SampleAccepted(("rabbitmq", "rabbitmq"), " ");
    assert GroupEntries([]) == [];
  }

  /** Validation ignores the case of a connector's type; MapConnectors does not. */
  lemma UpperCaseTypeStopsMapping(w: World)
    ensures var s := Sample(("RabbitMQ", "rabbitmq"), "");
      WellFormed(s) && !Maps(w, s.connectors[0])
  {
    SampleAccepted(("RabbitMQ", "rabbitmq"), "");
  }

  /** A NATS destination passes validation and mapping, and then has no bus. */
  lemma NatsTargetStopsStart(e: Engine)
    requires BuiltFor(e, Sample(("rabbitmq", "nats"), ""))
    ensures var s := Sample(("rabbitmq", "nats"), "");
      WellFormed(s) && FirstProblem(e, s.groups, s.routes[0]) == Some(TargetMissing("b"))
  {
    var s := Sample(("rabbitmq", "nats"), "");
    SampleAccepted(("rabbitmq", "nats"), "");
    BusIff(e, s, "a");
    BusIff(e, s, "b");
    assert Wired(s.connectors, "a") by { assert s.connectors[0].name == "a"; }
    assert "b" !in e.buses by { assert |s.connectors| == 2 && s.connectors[0].name != "b"; }
    var names := ConnectorNames(Destinations(s.groups, s.routes[0]));
    assert names == ["b"];
    assert names[..0] == [] && FirstUnknown(e.buses.Keys, names) == Some("b");
  }
}
