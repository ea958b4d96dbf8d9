// Which errors validation reports, each with the configuration that causes it, and in which order
// (internal/config/validate.go:40-346).
module ValidateErrors {
  import opened Text
  import opened Config
  import opened ValidateRules

  // ---------- Causes ----------

  /** Connector i exists and has a name, so the rest of it is looked at. */
  predicate Named(s: Settings, i: nat) {
    i < |s.connectors| && !Blank(s.connectors[i].name)
  }

  predicate HasIngress(s: Settings, i: nat, j: nat) {
    Named(s, i) && j < |s.connectors[i].ingress|
  }

  predicate HasEgress(s: Settings, i: nat, j: nat) {
    Named(s, i) && j < |s.connectors[i].egress|
  }

  predicate TypeIs(c: Connector, t: string) { ToLower(c.connectorType) == t }

  /** The one parameter a connector of this type must have. */
  predicate Needs(c: Connector, key: string) {
    (TypeIs(c, "kafka") && key == "brokers") || ((TypeIs(c, "rabbitmq") || TypeIs(c, "nats")) && key == "url")
  }

  predicate EmptyList(p: Param) { p == PList([]) || p == PStrings([]) }

  predicate FirstBadBroker(p: Param, k: nat) {
    p.PList? && k < |p.elements| && !p.elements[k].PString? && forall j :: 0 <= j < k ==> p.elements[j].PString?
  }

  predicate ConnectorCause(s: Settings, e: ConfigError) {
    match e
    case ConnectorUnnamed(i) => i < |s.connectors| && Blank(s.connectors[i].name)
    case ConnectorDuplicate(i, n) =>
      Named(s, i) && n == s.connectors[i].name && exists k :: 0 <= k < i && s.connectors[k].name == n
    case ConnectorTypeUnsupported(i, n) =>
      Named(s, i) && n == s.connectors[i].connectorType
      && !TypeIs(s.connectors[i], "kafka") && !TypeIs(s.connectors[i], "rabbitmq") && !TypeIs(s.connectors[i], "nats")
    case ParamMissing(i, n, key) =>
      Named(s, i) && n == s.connectors[i].name && Needs(s.connectors[i], key) && key !in s.connectors[i].params
    case ParamNotString(i, n, key) =>
      Named(s, i) && n == s.connectors[i].name && key == "url" && Needs(s.connectors[i], key)
      && key in s.connectors[i].params
      && (s.connectors[i].params[key].PString? ==> Blank(s.connectors[i].params[key].text))
    case BrokersEmpty(i, n) =>
      Named(s, i) && n == s.connectors[i].name && TypeIs(s.connectors[i], "kafka")
      && "brokers" in s.connectors[i].params
      && EmptyList(s.connectors[i].params["brokers"])
    case BrokerNotString(i, n, k) =>
      Named(s, i) && n == s.connectors[i].name && TypeIs(s.connectors[i], "kafka")
      && "brokers" in s.connectors[i].params
      && FirstBadBroker(s.connectors[i].params["brokers"], k)
    case BrokersNotList(i, n) =>
      Named(s, i) && n == s.connectors[i].name && TypeIs(s.connectors[i], "kafka")
      && "brokers" in s.connectors[i].params
      && (s.connectors[i].params["brokers"].PString? || s.connectors[i].params["brokers"].POther?)
    case TlsNeedsCa(i) =>
      Named(s, i) && s.connectors[i].tls.Some? && s.connectors[i].tls.value.enabled
      && !s.connectors[i].tls.value.insecureSkipVerify && Blank(s.connectors[i].tls.value.caFile)
    case TlsPairIncomplete(i) =>
      Named(s, i) && s.connectors[i].tls.Some? && s.connectors[i].tls.value.enabled
      && Blank(s.connectors[i].tls.value.certFile) != Blank(s.connectors[i].tls.value.keyFile)
    case IngressUnnamed(_, _) => IngressCause(s, e)
    case IngressDuplicate(_, _, _) => IngressCause(s, e)
    case IngressWithoutSource(_, _) => IngressCause(s, e)
    case EgressUnnamed(_, _) => EgressCause(s, e)
    case EgressDuplicate(_, _, _) => EgressCause(s, e)
    case EgressNeedsTopic(_, _) => EgressCause(s, e)
    case EgressNeedsSubject(_, _) => EgressCause(s, e)
    case EgressNeedsExchange(_, _) => EgressCause(s, e)
    case EgressUntyped(_, _) => EgressCause(s, e)
    case EgressTypeUnsupported(_, _, _) => EgressCause(s, e)
    case _ => false
  }

  predicate IngressCause(s: Settings, e: ConfigError) {
    match e
    case IngressUnnamed(i, j) => HasIngress(s, i, j) && Blank(s.connectors[i].ingress[j].sourceName)
    case IngressDuplicate(i, j, n) =>
      HasIngress(s, i, j) && n == s.connectors[i].ingress[j].sourceName && !Blank(n)
      && exists k :: 0 <= k < j && s.connectors[i].ingress[k].sourceName == n
    case IngressWithoutSource(i, j) =>
      HasIngress(s, i, j) && s.connectors[i].ingress[j].topic == "" && s.connectors[i].ingress[j].queue == ""
      && s.connectors[i].ingress[j].subject == ""
    case _ => false
  }

  predicate EgressCause(s: Settings, e: ConfigError) {
    match e
    case EgressUnnamed(i, j) => HasEgress(s, i, j) && Blank(s.connectors[i].egress[j].name)
    case EgressDuplicate(i, j, n) =>
      HasEgress(s, i, j) && n == TrimSpace(s.connectors[i].egress[j].name) && n != ""
      && exists k :: 0 <= k < j && TrimSpace(s.connectors[i].egress[k].name) == n
    case EgressNeedsTopic(i, j) =>
      HasEgress(s, i, j) && ToLower(s.connectors[i].egress[j].egressType) == "topic"
      && Blank(s.connectors[i].egress[j].topicTemplate)
    case EgressNeedsSubject(i, j) =>
      HasEgress(s, i, j) && ToLower(s.connectors[i].egress[j].egressType) == "subject"
      && Blank(s.connectors[i].egress[j].subjectTemplate)
    case EgressNeedsExchange(i, j) =>
      HasEgress(s, i, j) && ToLower(s.connectors[i].egress[j].egressType) == "exchange"
      && (Blank(s.connectors[i].egress[j].exchange) || Blank(s.connectors[i].egress[j].routingKeyTemplate))
    case EgressUntyped(i, j) => HasEgress(s, i, j) && s.connectors[i].egress[j].egressType == ""
    case EgressTypeUnsupported(i, j, n) =>
      HasEgress(s, i, j) && n == s.connectors[i].egress[j].egressType && n != ""
      && ToLower(n) != "topic" && ToLower(n) != "subject" && ToLower(n) != "exchange"
    case _ => false
  }

  predicate HasGroupTarget(s: Settings, i: nat, j: nat) {
    i < |s.groups| && j < |s.groups[i].targets|
  }

  predicate GroupCause(s: Settings, e: ConfigError) {
    match e
    case GroupNameClash(i, n) => i < |s.groups| && n == s.groups[i].name && HasConnector(s.connectors, n)
    case GroupTargetUnnamed(i, j) => HasGroupTarget(s, i, j) && Blank(s.groups[i].targets[j].connector)
    case GroupConnectorUnknown(i, j, n) =>
      HasGroupTarget(s, i, j) && n == s.groups[i].targets[j].connector && !Blank(n) && !HasConnector(s.connectors, n)
    case GroupTargetUnknown(i, j, t, n) =>
      HasGroupTarget(s, i, j) && Endpoint(n, t) == s.groups[i].targets[j] && !Blank(n) && !HasTarget(s.connectors, n, t)
    case _ => false
  }

  /** Route i starts at a known connector, so the rest of it is looked at. */
  predicate Rooted(s: Settings, i: nat) {
    i < |s.routes| && !Blank(s.routes[i].from.connector) && HasConnector(s.connectors, s.routes[i].from.connector)
  }

  predicate GivesTo(r: Route) { r.to.Some? && !Blank(r.to.value.connector) }

  predicate GivesGroup(r: Route) { !Blank(r.toGroup) }

  predicate KnownTo(s: Settings, i: nat) {
    Rooted(s, i) && GivesTo(s.routes[i]) && HasConnector(s.connectors, s.routes[i].to.value.connector)
  }

  predicate RouteCause(s: Settings, e: ConfigError) {
    match e
    case FromUnnamed(i) => i < |s.routes| && Blank(s.routes[i].from.connector)
    case FromUnknown(i, n) =>
      i < |s.routes| && n == s.routes[i].from.connector && !Blank(n) && !HasConnector(s.connectors, n)
    case FromNeedsSource(i) => Rooted(s, i) && Blank(s.routes[i].from.source)
    case FromSourceUnknown(i, x, n) =>
      Rooted(s, i) && Startpoint(n, x) == s.routes[i].from && x != "" && !HasSource(s.connectors, n, x)
    case NoDestination(i) => Rooted(s, i) && !GivesTo(s.routes[i]) && !GivesGroup(s.routes[i])
    case TwoDestinations(i) => Rooted(s, i) && GivesTo(s.routes[i]) && GivesGroup(s.routes[i])
    case ToUnknown(i, n) =>
      Rooted(s, i) && GivesTo(s.routes[i]) && n == s.routes[i].to.value.connector && !HasConnector(s.connectors, n)
    case ToNeedsTarget(i) => KnownTo(s, i) && Blank(s.routes[i].to.value.target)
    case ToTargetUnknown(i, t, n) =>
      KnownTo(s, i) && Endpoint(n, t) == s.routes[i].to.value && !Blank(t) && !HasTarget(s.connectors, n, t)
    case RouteLoops(i) =>
      KnownTo(s, i) && !Blank(s.routes[i].to.value.target)
      && s.routes[i].to.value == Endpoint(s.routes[i].from.connector, s.routes[i].from.source)
    case ToGroupUnknown(i, n) => Rooted(s, i) && n == s.routes[i].toGroup && !Blank(n) && !HasGroup(s.groups, n)
    case ModeIllegal(i) =>
      Rooted(s, i) && (GivesTo(s.routes[i]) || GivesGroup(s.routes[i]))
      && ToLower(s.routes[i].mode.modeType) != "persistent" && ToLower(s.routes[i].mode.modeType) != "drop"
    case _ => false
  }

  predicate StageCause(s: Settings, e: ConfigError) {
    match e
    case FilterUndeclared(i, n) => i < |s.routes| && n in s.routes[i].filters && n !in s.filters
    case ProjectionUndeclared(i, n) =>
      i < |s.routes| && n == s.routes[i].projection && n != "" && n !in s.projections
    case _ => false
  }

  /** What in the configuration makes validation report this error. */
  predicate Caused(s: Settings, e: ConfigError) {
    ConnectorCause(s, e) || GroupCause(s, e) || RouteCause(s, e) || StageCause(s, e)
  }

  // ---------- Validation reports exactly the caused errors ----------

  lemma {:induction false} InFlat(items: seq<Errors>, e: ConfigError)
    ensures e in Flat(items) <==> exists i: nat :: i < |items| && e in items[i]
  {
    if items != [] {
      var n: nat := |items| - 1;
      InFlat(items[..n], e);
      assert forall i: nat :: i < n ==> items[..n][i] == items[i];
    }
  }

  /** An error that can only be among the k-th errors. */
  lemma InFlatAt(items: seq<Errors>, e: ConfigError, k: nat)
    requires forall i: nat :: i < |items| && e in items[i] ==> i == k
    ensures e in Flat(items) <==> k < |items| && e in items[k]
  {
    InFlat(items, e);
  }

  lemma FlatOfCaused(items: seq<Errors>, e: ConfigError, k: nat, caused: bool)
    requires forall i: nat :: i < |items| ==> (e in items[i] <==> k == i && caused)
    requires caused ==> k < |items|
    ensures e in Flat(items) <==> caused
  {
    InFlatAt(items, e, k);
  }

  lemma {:induction false} FirstNonStringIs(xs: seq<Param>, k: nat)
    requires k <= |xs| && forall j :: 0 <= j < k ==> xs[j].PString?
    ensures FirstNonString(xs, k).Some? ==> FirstBadBroker(PList(xs), FirstNonString(xs, k).value)
    ensures FirstNonString(xs, k).None? ==> forall j :: 0 <= j < |xs| ==> xs[j].PString?
    decreases |xs| - k
  {
    if k < |xs| && xs[k].PString? { FirstNonStringIs(xs, k + 1); }
  }

  /** The index of the configuration entry an error is about. */
  function Place(e: ConfigError): nat { e.i }

  predicate IsTypeError(e: ConfigError) {
    e.ConnectorTypeUnsupported? || e.ParamMissing? || e.ParamNotString? || e.BrokersEmpty? || e.BrokerNotString?
    || e.BrokersNotList?
  }

  lemma KafkaErrorsCaused(s: Settings, i: nat, e: ConfigError)
    requires Named(s, i) && TypeIs(s.connectors[i], "kafka")
    ensures e in KafkaParamErrors(i, s.connectors[i]) <==> IsTypeError(e) && Place(e) == i && ConnectorCause(s, e)
  {
    var c := s.connectors[i];
    if "brokers" in c.params && c.params["brokers"].PList? {
      FirstNonStringIs(c.params["brokers"].elements, 0);
    }
  }

  lemma UrlErrorsCaused(s: Settings, i: nat, e: ConfigError)
    requires Named(s, i) && (TypeIs(s.connectors[i], "rabbitmq") || TypeIs(s.connectors[i], "nats"))
    ensures e in StringParamErrors(i, s.connectors[i], "url") <==>
      IsTypeError(e) && Place(e) == i && ConnectorCause(s, e)
  {
    var c := s.connectors[i];
    if "url" in c.params && c.params["url"].PString? {
      TrimSpaceBlank(c.params["url"].text);
    }
  }

  lemma TypeErrorsCaused(s: Settings, i: nat, e: ConfigError)
    requires Named(s, i)
    ensures e in TypeErrors(i, s.connectors[i]) <==> IsTypeError(e) && Place(e) == i && ConnectorCause(s, e)
  {
    if TypeIs(s.connectors[i], "kafka") {
      KafkaErrorsCaused(s, i, e);
    } else if TypeIs(s.connectors[i], "rabbitmq") || TypeIs(s.connectors[i], "nats") {
      UrlErrorsCaused(s, i, e);
    }
  }

  lemma TlsErrorsCaused(s: Settings, i: nat, e: ConfigError)
    requires Named(s, i)
    ensures e in TlsErrors(i, s.connectors[i].tls) <==>
      Place(e) == i && ConnectorCause(s, e) && (e.TlsNeedsCa? || e.TlsPairIncomplete?)
  {
    var tls := s.connectors[i].tls;
    if tls.Some? {
      TrimSpaceBlank(tls.value.caFile);
      TrimSpaceBlank(tls.value.certFile);
      TrimSpaceBlank(tls.value.keyFile);
    }
  }

  predicate IsIngressError(e: ConfigError) {
    e.IngressUnnamed? || e.IngressDuplicate? || e.IngressWithoutSource?
  }

  lemma IngressErrorsCaused(s: Settings, i: nat, j: nat, e: ConfigError)
    requires HasIngress(s, i, j)
    ensures e in IngressErrors(i, s.connectors[i].ingress, j) <==>
      IsIngressError(e) && Place(e) == i && e.j == j && IngressCause(s, e)
  {
    TrimSpaceBlank(s.connectors[i].ingress[j].sourceName);
  }

  lemma IngressesCaused(s: Settings, i: nat, e: ConfigError)
    requires Named(s, i)
    ensures e in Flat(IngressItems(i, s.connectors[i].ingress)) <==> Place(e) == i && IngressCause(s, e)
  {
    var items := IngressItems(i, s.connectors[i].ingress);
    forall j: nat | j < |items|
      ensures e in items[j] <==> IsIngressError(e) && Place(e) == i && e.j == j && IngressCause(s, e)
    {
      IngressErrorsCaused(s, i, j, e);
    }
    InFlatAt(items, e, if IsIngressError(e) then e.j else 0);
  }

  predicate IsEgressError(e: ConfigError) {
    e.EgressUnnamed? || e.EgressDuplicate? || e.EgressNeedsTopic? || e.EgressNeedsSubject? || e.EgressNeedsExchange?
    || e.EgressUntyped? || e.EgressTypeUnsupported?
  }

  lemma EgressErrorsCaused(s: Settings, i: nat, j: nat, e: ConfigError)
    requires HasEgress(s, i, j)
    ensures e in EgressErrors(i, s.connectors[i].egress, j) <==>
      IsEgressError(e) && Place(e) == i && e.j == j && EgressCause(s, e)
  {
    var x := s.connectors[i].egress[j];
    TrimSpaceBlank(x.name);
    EgressTypeErrorsCaused(s, i, j, e);
  }

  lemma EgressTypeErrorsCaused(s: Settings, i: nat, j: nat, e: ConfigError)
    requires HasEgress(s, i, j)
    ensures e in EgressTypeErrors(i, j, s.connectors[i].egress[j]) <==>
      IsEgressError(e) && !e.EgressUnnamed? && !e.EgressDuplicate? && Place(e) == i && e.j == j && EgressCause(s, e)
  {
    var x := s.connectors[i].egress[j];
    TrimSpaceBlank(x.topicTemplate);
    TrimSpaceBlank(x.subjectTemplate);
    TrimSpaceBlank(x.exchange);
    TrimSpaceBlank(x.routingKeyTemplate);
    var t := ToLower(x.egressType);
    assert t == "" <==> x.egressType == "" by { assert |t| == |x.egressType|; }
    if t == "topic" {
    } else if t == "subject" {
    } else if t == "exchange" {
    } else if t == "" {
    } else {
      assert EgressTypeErrors(i, j, x) == [EgressTypeUnsupported(i, j, x.egressType)];
    }
  }

  lemma EgressesCaused(s: Settings, i: nat, e: ConfigError)
    requires Named(s, i)
    ensures e in Flat(EgressItems(i, s.connectors[i].egress)) <==> Place(e) == i && EgressCause(s, e)
  {
    var items := EgressItems(i, s.connectors[i].egress);
    forall j: nat | j < |items|
      ensures e in items[j] <==> IsEgressError(e) && Place(e) == i && e.j == j && EgressCause(s, e)
    {
      EgressErrorsCaused(s, i, j, e);
    }
    InFlatAt(items, e, if IsEgressError(e) then e.j else 0);
  }

  lemma ConnectorErrorsCaused(s: Settings, i: nat, e: ConfigError)
    requires i < |s.connectors|
    ensures e in ConnectorErrors(s.connectors, i) <==> Place(e) == i && ConnectorCause(s, e)
  {
    TrimSpaceBlank(s.connectors[i].name);
    if Named(s, i) {
      TypeErrorsCaused(s, i, e);
      TlsErrorsCaused(s, i, e);
      IngressesCaused(s, i, e);
      EgressesCaused(s, i, e);
    }
  }

  lemma ConnectorsCaused(s: Settings, e: ConfigError)
    ensures e in Flat(ConnectorItems(s.connectors)) <==> ConnectorCause(s, e)
  {
    var items := ConnectorItems(s.connectors);
    if ConnectorCause(s, e) { ConnectorPass(s, e); }
    forall i: nat | i < |items| ensures e in items[i] <==> Place(e) == i && ConnectorCause(s, e) {
      ConnectorErrorsCaused(s, i, e);
    }
    FlatOfCaused(items, e, Place(e), ConnectorCause(s, e));
  }

  predicate IsGroupTargetError(e: ConfigError) {
    e.GroupTargetUnnamed? || e.GroupConnectorUnknown? || e.GroupTargetUnknown?
  }

  lemma GroupTargetErrorsCaused(s: Settings, i: nat, j: nat, e: ConfigError)
    requires HasGroupTarget(s, i, j)
    ensures e in GroupTargetErrors(s.connectors, i, s.groups[i], j) <==>
      IsGroupTargetError(e) && Place(e) == i && e.j == j && GroupCause(s, e)
  {
    TrimSpaceBlank(s.groups[i].targets[j].connector);
  }

  lemma GroupErrorsCaused(s: Settings, i: nat, e: ConfigError)
    requires i < |s.groups|
    ensures e in GroupErrors(s.connectors, s.groups, i) <==> Place(e) == i && GroupCause(s, e)
  {
    var items := GroupTargetItems(s.connectors, i, s.groups[i]);
    forall j: nat | j < |items|
      ensures e in items[j] <==> IsGroupTargetError(e) && Place(e) == i && e.j == j && GroupCause(s, e)
    {
      GroupTargetErrorsCaused(s, i, j, e);
    }
    InFlatAt(items, e, if IsGroupTargetError(e) then e.j else 0);
  }

  lemma GroupsCaused(s: Settings, e: ConfigError)
    ensures e in Flat(GroupItems(s.connectors, s.groups)) <==> GroupCause(s, e)
  {
    var items := GroupItems(s.connectors, s.groups);
    if GroupCause(s, e) { GroupPass(s, e); }
    forall i: nat | i < |items| ensures e in items[i] <==> Place(e) == i && GroupCause(s, e) {
      GroupErrorsCaused(s, i, e);
    }
    FlatOfCaused(items, e, Place(e), GroupCause(s, e));
  }

  predicate IsSourceError(e: ConfigError) { e.FromNeedsSource? || e.FromSourceUnknown? }

  predicate IsToError(e: ConfigError) { e.ToUnknown? || e.ToNeedsTarget? || e.ToTargetUnknown? || e.RouteLoops? }

  lemma SourceErrorsCaused(s: Settings, i: nat, e: ConfigError)
    requires Rooted(s, i)
    ensures e in SourceErrors(s, i, s.routes[i]) <==> IsSourceError(e) && Place(e) == i && RouteCause(s, e)
  {
    TrimSpaceBlank(s.routes[i].from.source);
  }

  lemma ToErrorsCaused(s: Settings, i: nat, e: ConfigError)
    requires Rooted(s, i) && GivesTo(s.routes[i])
    ensures e in ToErrors(s, i, s.routes[i]) <==> IsToError(e) && Place(e) == i && RouteCause(s, e)
  {
    TrimSpaceBlank(s.routes[i].to.value.target);
  }

  lemma DestinationErrorsCaused(s: Settings, i: nat, e: ConfigError)
    requires Rooted(s, i) && (GivesTo(s.routes[i]) || GivesGroup(s.routes[i]))
    ensures e in DestinationErrors(s, i, s.routes[i]) <==>
      (IsToError(e) || e.TwoDestinations? || e.ToGroupUnknown? || e.ModeIllegal?) && Place(e) == i && RouteCause(s, e)
  {
    var r := s.routes[i];
    GivesAre(r);
    if GivesTo(r) { ToErrorsCaused(s, i, e); }
    var two := if NamesTo(r) && NamesGroup(r) then [TwoDestinations(i)] else [];
    var to := if NamesTo(r) then ToErrors(s, i, r) else [];
    var group := if NamesGroup(r) && !HasGroup(s.groups, r.toGroup) then [ToGroupUnknown(i, r.toGroup)] else [];
    var mode := if LegalMode(r.mode) then [] else [ModeIllegal(i)];
    assert DestinationErrors(s, i, r) == two + to + group + mode;
    assert e in two <==> e.TwoDestinations? && Place(e) == i && RouteCause(s, e);
    assert e in to <==> IsToError(e) && Place(e) == i && RouteCause(s, e);
    assert e in group <==> e.ToGroupUnknown? && Place(e) == i && RouteCause(s, e);
    assert e in mode <==> e.ModeIllegal? && Place(e) == i && RouteCause(s, e);
  }

  lemma GivesAre(r: Route)
    ensures NamesTo(r) <==> GivesTo(r)
    ensures NamesGroup(r) <==> GivesGroup(r)
  {
    TrimSpaceBlank(r.toGroup);
    if r.to.Some? { TrimSpaceBlank(r.to.value.connector); }
  }

  lemma RouteErrorsCaused(s: Settings, i: nat, e: ConfigError)
    requires i < |s.routes|
    ensures e in RouteErrors(s, i, s.routes[i]) <==> Place(e) == i && RouteCause(s, e)
  {
    var r := s.routes[i];
    TrimSpaceBlank(r.from.connector);
    GivesAre(r);
    if Rooted(s, i) {
      SourceErrorsCaused(s, i, e);
      if GivesTo(r) || GivesGroup(r) {
        DestinationErrorsCaused(s, i, e);
      } else {
        NoDestinationCaused(s, i, e);
      }
    }
  }

  lemma NoDestinationCaused(s: Settings, i: nat, e: ConfigError)
    requires Rooted(s, i) && !GivesTo(s.routes[i]) && !GivesGroup(s.routes[i])
    ensures Place(e) == i && RouteCause(s, e) <==>
      e == NoDestination(i) || (IsSourceError(e) && Place(e) == i && RouteCause(s, e))
  {
  }

  lemma RoutesCaused(s: Settings, e: ConfigError)
    ensures e in Flat(RouteItems(s)) <==> RouteCause(s, e)
  {
    var items := RouteItems(s);
    if RouteCause(s, e) { RoutePass(s, e); }
    forall i: nat | i < |items| ensures e in items[i] <==> Place(e) == i && RouteCause(s, e) {
      RouteErrorsCaused(s, i, e);
    }
    FlatOfCaused(items, e, Place(e), RouteCause(s, e));
  }

  lemma StageErrorsCaused(s: Settings, i: nat, e: ConfigError)
    requires i < |s.routes|
    ensures e in StageErrors(s, i, s.routes[i]) <==> Place(e) == i && StageCause(s, e)
  {
    var items := FilterItems(s, i, s.routes[i]);
    InFlat(items, e);
    assert forall k: nat :: k < |items| ==> items[k] == FilterErrors(s, i, s.routes[i].filters[k]);
    if e.FilterUndeclared? && Place(e) == i && StageCause(s, e) {
      var k: nat :| k < |items| && s.routes[i].filters[k] == e.name;
      assert e in items[k];
    }
  }

  lemma StagesCaused(s: Settings, e: ConfigError)
    ensures e in Flat(StageItems(s)) <==> StageCause(s, e)
  {
    var items := StageItems(s);
    if StageCause(s, e) { StagePass(s, e); }
    forall i: nat | i < |items| ensures e in items[i] <==> Place(e) == i && StageCause(s, e) {
      StageErrorsCaused(s, i, e);
    }
    FlatOfCaused(items, e, Place(e), StageCause(s, e));
  }

  /** An error is reported exactly when the configuration gives cause for it. */
  lemma ReportedIffCaused(s: Settings, e: ConfigError)
    ensures e in AllErrors(s) <==> Caused(s, e)
  {
    ConnectorsCaused(s, e);
    GroupsCaused(s, e);
    RoutesCaused(s, e);
    StagesCaused(s, e);
  }

  // ---------- Order ----------

  /** Connectors come first, then groups, then endpoints of routes, then their filters and projections. */
  function Pass(e: ConfigError): nat {
    match e
    case GroupNameClash(_, _) => 2
    case GroupTargetUnnamed(_, _) => 2
    case GroupConnectorUnknown(_, _, _) => 2
    case GroupTargetUnknown(_, _, _, _) => 2
    case FromUnnamed(_) => 3
    case FromUnknown(_, _) => 3
    case FromNeedsSource(_) => 3
    case FromSourceUnknown(_, _, _) => 3
    case NoDestination(_) => 3
    case TwoDestinations(_) => 3
    case ToUnknown(_, _) => 3
    case ToNeedsTarget(_) => 3
    case ToTargetUnknown(_, _, _) => 3
    case RouteLoops(_) => 3
    case ToGroupUnknown(_, _) => 3
    case ModeIllegal(_) => 3
    case FilterUndeclared(_, _) => 4
    case ProjectionUndeclared(_, _) => 4
    case _ => 1
  }

  predicate Precedes(a: ConfigError, b: ConfigError) {
    Pass(a) < Pass(b) || (Pass(a) == Pass(b) && Place(a) <= Place(b))
  }

  predicate InSequence(es: Errors) {
    forall a, b :: 0 <= a < b < |es| ==> Precedes(es[a], es[b])
  }

  lemma {:induction false} FlatInSequence(items: seq<Errors>, pass: nat)
    requires Placed(items, pass)
    ensures InSequence(Flat(items))
    ensures forall e :: e in Flat(items) ==> Pass(e) == pass && Place(e) < |items|
  {
    if items != [] {
      var n: nat := |items| - 1;
      var front := items[..n];
      assert Placed(front, pass) by { assert forall i: nat :: i < n ==> front[i] == items[i]; }
      FlatInSequence(front, pass);
    }
  }

  lemma JoinedInSequence(a: Errors, b: Errors, p: nat)
    requires InSequence(a) && InSequence(b)
    requires (forall e :: e in a ==> Pass(e) <= p) && forall e :: e in b ==> Pass(e) > p
    ensures InSequence(a + b)
  {
  }

  /** The report goes pass by pass, and within a pass entry by entry. */
  lemma ReportedInSequence(s: Settings)
    ensures InSequence(AllErrors(s))
  {
    var e1, e2 := Flat(ConnectorItems(s.connectors)), Flat(GroupItems(s.connectors, s.groups));
    var e3, e4 := Flat(RouteItems(s)), Flat(StageItems(s));
    PassesInSequence(s);
    JoinedInSequence(e1, e2, 1);
    JoinedInSequence(e1 + e2, e3, 2);
    JoinedInSequence(e1 + e2 + e3, e4, 3);
  }

  lemma PassesInSequence(s: Settings)
    ensures InSequence(Flat(ConnectorItems(s.connectors)))
    ensures forall e :: e in Flat(ConnectorItems(s.connectors)) ==> Pass(e) == 1
    ensures InSequence(Flat(GroupItems(s.connectors, s.groups)))
    ensures forall e :: e in Flat(GroupItems(s.connectors, s.groups)) ==> Pass(e) == 2
    ensures InSequence(Flat(RouteItems(s))) && forall e :: e in Flat(RouteItems(s)) ==> Pass(e) == 3
    ensures InSequence(Flat(StageItems(s))) && forall e :: e in Flat(StageItems(s)) ==> Pass(e) == 4
  {
    ConnectorsPlaced(s);
    FlatInSequence(ConnectorItems(s.connectors), 1);
    GroupsPlaced(s);
    FlatInSequence(GroupItems(s.connectors, s.groups), 2);
    RoutesPlaced(s);
    FlatInSequence(RouteItems(s), 3);
    StagesPlaced(s);
    FlatInSequence(StageItems(s), 4);
  }

  predicate Placed(items: seq<Errors>, pass: nat) {
    forall i: nat :: i < |items| ==> AllAt(items[i], pass, i)
  }

  predicate AllAt(es: Errors, pass: nat, i: nat) {
    forall e :: e in es ==> Pass(e) == pass && Place(e) == i
  }

  lemma ConnectorsPlaced(s: Settings)
    ensures Placed(ConnectorItems(s.connectors), 1)
  {
    forall i: nat | i < |s.connectors| ensures AllAt(ConnectorItems(s.connectors)[i], 1, i) { ConnectorAllAt(s, i); }
  }

  lemma ConnectorAllAt(s: Settings, i: nat)
    requires i < |s.connectors|
    ensures AllAt(ConnectorErrors(s.connectors, i), 1, i)
  {
    var es := ConnectorErrors(s.connectors, i);
    forall e | e in es ensures Pass(e) == 1 && Place(e) == i { ConnectorPlaced(s, i, e); }
  }

  lemma ConnectorPlaced(s: Settings, i: nat, e: ConfigError)
    requires i < |s.connectors| && e in ConnectorErrors(s.connectors, i)
    ensures Pass(e) == 1 && Place(e) == i
  {
    ConnectorErrorsCaused(s, i, e);
    ConnectorPass(s, e);
  }

  lemma ConnectorPass(s: Settings, e: ConfigError)
    requires ConnectorCause(s, e)
    ensures Pass(e) == 1 && Place(e) < |s.connectors|
  {
  }

  lemma GroupsPlaced(s: Settings)
    ensures Placed(GroupItems(s.connectors, s.groups), 2)
  {
    forall i: nat | i < |s.groups| ensures AllAt(GroupItems(s.connectors, s.groups)[i], 2, i) { GroupAllAt(s, i); }
  }

  lemma GroupAllAt(s: Settings, i: nat)
    requires i < |s.groups|
    ensures AllAt(GroupErrors(s.connectors, s.groups, i), 2, i)
  {
    var es := GroupErrors(s.connectors, s.groups, i);
    forall e | e in es ensures Pass(e) == 2 && Place(e) == i { GroupPlaced(s, i, e); }
  }

  lemma GroupPlaced(s: Settings, i: nat, e: ConfigError)
    requires i < |s.groups| && e in GroupErrors(s.connectors, s.groups, i)
    ensures Pass(e) == 2 && Place(e) == i
  {
    GroupErrorsCaused(s, i, e);
    GroupPass(s, e);
  }

  lemma GroupPass(s: Settings, e: ConfigError)
    requires GroupCause(s, e)
    ensures Pass(e) == 2 && Place(e) < |s.groups|
  {
  }

  lemma RoutesPlaced(s: Settings)
    ensures Placed(RouteItems(s), 3)
  {
    forall i: nat | i < |s.routes| ensures AllAt(RouteItems(s)[i], 3, i) { RouteAllAt(s, i); }
  }

  lemma RouteAllAt(s: Settings, i: nat)
    requires i < |s.routes|
    ensures AllAt(RouteErrors(s, i, s.routes[i]), 3, i)
  {
    var es := RouteErrors(s, i, s.routes[i]);
    forall e | e in es ensures Pass(e) == 3 && Place(e) == i { RoutePlaced(s, i, e); }
  }

  lemma RoutePlaced(s: Settings, i: nat, e: ConfigError)
    requires i < |s.routes| && e in RouteErrors(s, i, s.routes[i])
    ensures Pass(e) == 3 && Place(e) == i
  {
    RouteErrorsCaused(s, i, e);
    RoutePass(s, e);
  }

  lemma RoutePass(s: Settings, e: ConfigError)
    requires RouteCause(s, e)
    ensures Pass(e) == 3 && Place(e) < |s.routes|
  {
  }

  lemma StagesPlaced(s: Settings)
    ensures Placed(StageItems(s), 4)
  {
    forall i: nat | i < |s.routes| ensures AllAt(StageItems(s)[i], 4, i) { StageAllAt(s, i); }
  }

  lemma StageAllAt(s: Settings, i: nat)
    requires i < |s.routes|
    ensures AllAt(StageErrors(s, i, s.routes[i]), 4, i)
  {
    var es := StageErrors(s, i, s.routes[i]);
    forall e | e in es ensures Pass(e) == 4 && Place(e) == i { StagePlaced(s, i, e); }
  }

  lemma StagePlaced(s: Settings, i: nat, e: ConfigError)
    requires i < |s.routes| && e in StageErrors(s, i, s.routes[i])
    ensures Pass(e) == 4 && Place(e) == i
  {
    StageErrorsCaused(s, i, e);
    StagePass(s, e);
  }

  lemma StagePass(s: Settings, e: ConfigError)
    requires StageCause(s, e)
    ensures Pass(e) == 4 && Place(e) < |s.routes|
  {
  }
}
