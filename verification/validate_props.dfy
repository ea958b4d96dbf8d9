// The validation passes report nothing exactly on well-formed configurations, and validating twice
// changes nothing.
module ValidateProps {
  import opened Prelude
  import opened Text
  import opened Config
  import opened ValidateRules

  lemma {:induction false} FlatEmpty(items: seq<Errors>)
    ensures Flat(items) == [] <==> forall i: nat :: i < |items| ==> items[i] == []
  {
    if items != [] { FlatEmpty(items[..|items| - 1]); }
  }

  // ---------- Connectors ----------

  lemma {:induction false} NonStringFound(xs: seq<Param>, k: nat)
    requires k <= |xs|
    ensures FirstNonString(xs, k).None? <==> forall j :: k <= j < |xs| ==> xs[j].PString?
    decreases |xs| - k
  {
    if k < |xs| && xs[k].PString? { NonStringFound(xs, k + 1); }
  }

  lemma TypeErrorsMeaning(i: nat, c: Connector)
    ensures TypeErrors(i, c) == [] <==> GoodParams(c)
  {
    if "brokers" in c.params && c.params["brokers"].PList? {
      NonStringFound(c.params["brokers"].elements, 0);
    }
    if "url" in c.params && c.params["url"].PString? {
      TrimSpaceBlank(c.params["url"].text);
    }
  }

  lemma TlsErrorsMeaning(i: nat, tls: Option<Tls>)
    ensures TlsErrors(i, tls) == [] <==> GoodTls(tls)
  {
    if tls.Some? {
      TrimSpaceBlank(tls.value.caFile);
      TrimSpaceBlank(tls.value.certFile);
      TrimSpaceBlank(tls.value.keyFile);
    }
  }

  predicate GoodIngressAt(ing: seq<Ingress>, j: nat)
    requires j < |ing|
  {
    && !Blank(ing[j].sourceName) && (ing[j].topic != "" || ing[j].queue != "" || ing[j].subject != "")
    && forall k :: 0 <= k < j ==> ing[k].sourceName != ing[j].sourceName
  }

  lemma IngressMeaning(i: nat, ing: seq<Ingress>, j: nat)
    requires j < |ing|
    ensures IngressErrors(i, ing, j) == [] <==> GoodIngressAt(ing, j)
  {
    TrimSpaceBlank(ing[j].sourceName);
  }

  lemma GoodIngressesPointwise(ing: seq<Ingress>)
    ensures GoodIngresses(ing) <==> forall j: nat :: j < |ing| ==> GoodIngressAt(ing, j)
  {
    if forall j: nat :: j < |ing| ==> GoodIngressAt(ing, j) {
      forall j, k | 0 <= j < k < |ing| ensures ing[j].sourceName != ing[k].sourceName { assert GoodIngressAt(ing, k); }
      forall j | 0 <= j < |ing|
        ensures !Blank(ing[j].sourceName) && (ing[j].topic != "" || ing[j].queue != "" || ing[j].subject != "")
      {
        assert GoodIngressAt(ing, j);
      }
    }
  }

  lemma IngressesMeaning(i: nat, ing: seq<Ingress>)
    ensures Flat(IngressItems(i, ing)) == [] <==> GoodIngresses(ing)
  {
    var items := IngressItems(i, ing);
    FlatEmpty(items);
    GoodIngressesPointwise(ing);
    forall j: nat | j < |ing| ensures items[j] == [] <==> GoodIngressAt(ing, j) { IngressMeaning(i, ing, j); }
  }

  predicate GoodEgressAt(eg: seq<Egress>, j: nat)
    requires j < |eg|
  {
    && !Blank(eg[j].name) && GoodDestination(eg[j])
    && forall k :: 0 <= k < j ==> TrimSpace(eg[k].name) != TrimSpace(eg[j].name)
  }

  lemma EgressTypeMeaning(i: nat, j: nat, e: Egress)
    ensures EgressTypeErrors(i, j, e) == [] <==> GoodDestination(e)
  {
    TrimSpaceBlank(e.topicTemplate);
    TrimSpaceBlank(e.subjectTemplate);
    TrimSpaceBlank(e.exchange);
    TrimSpaceBlank(e.routingKeyTemplate);
  }

  lemma EgressMeaning(i: nat, eg: seq<Egress>, j: nat)
    requires j < |eg|
    ensures EgressErrors(i, eg, j) == [] <==> GoodEgressAt(eg, j)
  {
    TrimSpaceBlank(eg[j].name);
    EgressTypeMeaning(i, j, eg[j]);
  }

  lemma GoodEgressesPointwise(eg: seq<Egress>)
    ensures GoodEgresses(eg) <==> forall j: nat :: j < |eg| ==> GoodEgressAt(eg, j)
  {
    if forall j: nat :: j < |eg| ==> GoodEgressAt(eg, j) {
      forall j, k | 0 <= j < k < |eg|
        ensures TrimSpace(eg[j].name) != TrimSpace(eg[k].name)
      {
        assert GoodEgressAt(eg, k);
      }
      forall j | 0 <= j < |eg| ensures !Blank(eg[j].name) && GoodDestination(eg[j]) { assert GoodEgressAt(eg, j); }
    }
  }

  lemma EgressesMeaning(i: nat, eg: seq<Egress>)
    ensures Flat(EgressItems(i, eg)) == [] <==> GoodEgresses(eg)
  {
    var items := EgressItems(i, eg);
    FlatEmpty(items);
    GoodEgressesPointwise(eg);
    forall j: nat | j < |eg| ensures items[j] == [] <==> GoodEgressAt(eg, j) { EgressMeaning(i, eg, j); }
  }

  predicate GoodConnectorAt(cs: seq<Connector>, i: nat)
    requires i < |cs|
  {
    GoodConnector(cs[i]) && forall k :: 0 <= k < i ==> cs[k].name != cs[i].name
  }

  lemma ConnectorMeaning(cs: seq<Connector>, i: nat)
    requires i < |cs|
    ensures ConnectorErrors(cs, i) == [] <==> GoodConnectorAt(cs, i)
  {
    var c := cs[i];
    TrimSpaceBlank(c.name);
    TypeErrorsMeaning(i, c);
    TlsErrorsMeaning(i, c.tls);
    IngressesMeaning(i, c.ingress);
    EgressesMeaning(i, c.egress);
  }

  lemma ConnectorsMeaning(cs: seq<Connector>)
    ensures Flat(ConnectorItems(cs)) == [] <==> forall i: nat :: i < |cs| ==> GoodConnectorAt(cs, i)
  {
    var items := ConnectorItems(cs);
    FlatEmpty(items);
    forall i: nat | i < |cs| ensures items[i] == [] <==> GoodConnectorAt(cs, i) { ConnectorMeaning(cs, i); }
  }

  lemma GoodConnectorsPointwise(cs: seq<Connector>)
    ensures GoodConnectors(cs) <==> forall i: nat :: i < |cs| ==> GoodConnectorAt(cs, i)
  {
    if forall i: nat :: i < |cs| ==> GoodConnectorAt(cs, i) {
      forall i, k | 0 <= i < k < |cs| ensures cs[i].name != cs[k].name { assert GoodConnectorAt(cs, k); }
      forall i | 0 <= i < |cs| ensures GoodConnector(cs[i]) { assert GoodConnectorAt(cs, i); }
    }
  }

  // ---------- Groups ----------

  lemma TargetImpliesConnector(cs: seq<Connector>, name: string, target: string)
    ensures HasTarget(cs, name, target) ==> HasConnector(cs, name)
    ensures forall source :: HasSource(cs, name, source) ==> HasConnector(cs, name)
  {
  }

  lemma GroupTargetMeaning(cs: seq<Connector>, i: nat, g: Group, j: nat)
    requires j < |g.targets|
    ensures GroupTargetErrors(cs, i, g, j) == [] <==> GoodEndpoint(cs, g.targets[j])
  {
    var t := g.targets[j];
    TrimSpaceBlank(t.connector);
    TargetImpliesConnector(cs, t.connector, t.target);
  }

  lemma GroupMeaning(cs: seq<Connector>, gs: seq<Group>, i: nat)
    requires i < |gs|
    ensures GroupErrors(cs, gs, i) == [] <==> GoodGroup(cs, gs[i])
  {
    var g := gs[i];
    var items := GroupTargetItems(cs, i, g);
    FlatEmpty(items);
    forall j: nat | j < |g.targets| ensures items[j] == [] <==> GoodEndpoint(cs, g.targets[j]) {
      GroupTargetMeaning(cs, i, g, j);
    }
    assert (forall t :: t in g.targets ==> GoodEndpoint(cs, t))
      <==> forall j: nat :: j < |g.targets| ==> GoodEndpoint(cs, g.targets[j]);
  }

  lemma GroupsMeaning(cs: seq<Connector>, gs: seq<Group>)
    ensures Flat(GroupItems(cs, gs)) == [] <==> forall g :: g in gs ==> GoodGroup(cs, g)
  {
    var items := GroupItems(cs, gs);
    FlatEmpty(items);
    forall i: nat | i < |gs| ensures items[i] == [] <==> GoodGroup(cs, gs[i]) { GroupMeaning(cs, gs, i); }
  }

  // ---------- Routes ----------

  lemma RouteMeaning(s: Settings, i: nat, r: Route)
    ensures RouteErrors(s, i, r) == [] <==> GoodRoute(s, r)
  {
    TrimSpaceBlank(r.from.connector);
    TrimSpaceBlank(r.from.source);
    TargetImpliesConnector(s.connectors, r.from.connector, "");
    if r.to.Some? {
      var to := r.to.value;
      TrimSpaceBlank(to.connector);
      TrimSpaceBlank(to.target);
      TargetImpliesConnector(s.connectors, to.connector, to.target);
    }
  }

  lemma RoutesMeaning(s: Settings)
    ensures Flat(RouteItems(s)) == [] <==> forall r :: r in s.routes ==> GoodRoute(s, r)
  {
    var items := RouteItems(s);
    FlatEmpty(items);
    forall i: nat | i < |s.routes|
      ensures items[i] == [] <==> GoodRoute(s, s.routes[i])
    {
      RouteMeaning(s, i, s.routes[i]);
    }
  }

  lemma StageMeaning(s: Settings, i: nat, r: Route)
    ensures StageErrors(s, i, r) == [] <==> GoodStages(s, r)
  {
    FlatEmpty(FilterItems(s, i, r));
    assert forall k: nat :: k < |r.filters| ==> FilterItems(s, i, r)[k] == FilterErrors(s, i, r.filters[k]);
  }

  lemma StagesMeaning(s: Settings)
    ensures Flat(StageItems(s)) == [] <==> forall r :: r in s.routes ==> GoodStages(s, r)
  {
    var items := StageItems(s);
    FlatEmpty(items);
    forall i: nat | i < |s.routes|
      ensures items[i] == [] <==> GoodStages(s, s.routes[i])
    {
      StageMeaning(s, i, s.routes[i]);
    }
  }

  /** Soundness and completeness: no pass reports anything iff the configuration is well formed. */
  lemma NoErrorsIffWellFormed(s: Settings)
    ensures AllErrors(s) == [] <==> WellFormed(s)
  {
    ConnectorsMeaning(s.connectors);
    GoodConnectorsPointwise(s.connectors);
    GroupsMeaning(s.connectors, s.groups);
    RoutesMeaning(s);
    StagesMeaning(s);
  }

  // ---------- Defaulting ----------

  /** Defaulting a TTL is invisible to every rule. */
  lemma DefaultedRouteErrors(s: Settings, t: Settings, i: nat, r: Route)
    requires t == s.(routes := t.routes)
    ensures RouteErrors(t, i, Defaulted(s, r)) == RouteErrors(s, i, r)
  {
    var q := Defaulted(s, r);
    assert q == r.(mode := r.mode.(ttlMs := q.mode.ttlMs));
    assert SourceErrors(t, i, q) == SourceErrors(s, i, r);
    assert DestinationErrors(t, i, q) == DestinationErrors(s, i, r);
  }

  lemma DefaultedOnce(s: Settings, t: Settings, r: Route)
    requires t == s.(routes := t.routes)
    ensures Defaulted(t, Defaulted(s, r)) == Defaulted(s, r)
  {
  }

  lemma DefaultedStageErrors(s: Settings, t: Settings, i: nat, r: Route)
    requires t == s.(routes := t.routes)
    ensures StageErrors(t, i, Defaulted(s, r)) == StageErrors(s, i, r)
  {
    assert FilterItems(t, i, Defaulted(s, r)) == FilterItems(s, i, r);
  }

  lemma NormalisedSameErrors(s: Settings)
    ensures RouteItems(Normalised(s)) == RouteItems(s)
    ensures StageItems(Normalised(s)) == StageItems(s)
  {
    var t := Normalised(s);
    forall i: nat | i < |s.routes|
      ensures RouteItems(t)[i] == RouteItems(s)[i] && StageItems(t)[i] == StageItems(s)[i]
    {
      DefaultedRouteErrors(s, t, i, s.routes[i]);
      DefaultedStageErrors(s, t, i, s.routes[i]);
    }
  }

  /** Validating the result again reports the same and changes nothing more. */
  lemma NormalisedIsStable(s: Settings)
    ensures AllErrors(Normalised(s)) == AllErrors(s)
    ensures Normalised(Normalised(s)) == Normalised(s)
    ensures WellFormed(Normalised(s)) <==> WellFormed(s)
  {
    var t := Normalised(s);
    NormalisedSameErrors(s);
    NoErrorsIffWellFormed(s);
    NoErrorsIffWellFormed(t);
    forall i: nat | i < |t.routes| ensures Defaulted(t, t.routes[i]) == t.routes[i] {
      DefaultedOnce(s, t, s.routes[i]);
    }
    assert Normalised(t).routes == t.routes;
  }

  /** On an accepted configuration every drop route ends with a positive TTL and nothing else has changed. */
  lemma DropRoutesGetTtl(s: Settings, i: nat)
    requires WellFormed(s) && i < |s.routes|
    ensures var r, q := s.routes[i], Normalised(s).routes[i];
      && q == r.(mode := q.mode) && q.mode == r.mode.(ttlMs := q.mode.ttlMs)
      && (ToLower(r.mode.modeType) == "drop" ==> q.mode.ttlMs > 0)
      && (ToLower(r.mode.modeType) == "drop" && r.mode.ttlMs <= 0 ==> q.mode.ttlMs == 180_000)
      && (r.mode.ttlMs > 0 || ToLower(r.mode.modeType) != "drop" ==> q == r)
  {
    var r := s.routes[i];
    assert r in s.routes && GoodRoute(s, r);
    TrimSpaceBlank(r.from.connector);
    TargetImpliesConnector(s.connectors, r.from.connector, "");
  }

  // ---------- Error text ----------

  function JoinAll(es: Errors): Status { JoinErrors(Texts(es)) }

  lemma JoinTwo(a: Errors, b: Errors)
    requires a != [] && b != []
    ensures Join(Texts(a + b), "\n") == Join(Texts(a), "\n") + "\n" + Join(Texts(b), "\n")
  {
    assert Texts(a + b) == Texts(a) + Texts(b);
    JoinAppend(Texts(a), Texts(b), "\n");
  }
}
