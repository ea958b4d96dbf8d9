// What each validation pass reports (internal/config/validate.go:40-346), and when it reports nothing.
module ValidateRules {
  import opened Prelude
  import opened Text
  import opened Config

  type Errors = seq<ConfigError>

  /** The errors of a list of checked items, in order. */
  function Flat(items: seq<Errors>): Errors {
    if items == [] then [] else Flat(items[..|items| - 1]) + items[|items| - 1]
  }

  // ---------- Pass 1: connectors ----------

  function StringParamErrors(i: nat, c: Connector, key: string): Errors {
    if key !in c.params then [ParamMissing(i, c.name, key)]
    else if !c.params[key].PString? || TrimSpace(c.params[key].text) == "" then [ParamNotString(i, c.name, key)]
    else []
  }

  /** Index of the first list element that is not a string. */
  function FirstNonString(xs: seq<Param>, k: nat): Option<nat>
    requires k <= |xs|
    decreases |xs| - k
  {
    if k == |xs| then None else if !xs[k].PString? then Some(k) else FirstNonString(xs, k + 1)
  }

  function KafkaParamErrors(i: nat, c: Connector): Errors {
    if "brokers" !in c.params then [ParamMissing(i, c.name, "brokers")]
    else
      match c.params["brokers"]
      case PList(xs) =>
        if xs == [] then [BrokersEmpty(i, c.name)]
        else (match FirstNonString(xs, 0) case None => [] case Some(k) => [BrokerNotString(i, c.name, k)])
      case PStrings(xs) => if xs == [] then [BrokersEmpty(i, c.name)] else []
      case PString(_) => [BrokersNotList(i, c.name)]
      case POther => [BrokersNotList(i, c.name)]
  }

  function TypeErrors(i: nat, c: Connector): Errors {
    var t := ToLower(c.connectorType);
    if t == "kafka" then KafkaParamErrors(i, c)
    else if t == "rabbitmq" || t == "nats" then StringParamErrors(i, c, "url")
    else [ConnectorTypeUnsupported(i, c.connectorType)]
  }

  function TlsErrors(i: nat, tls: Option<Tls>): Errors {
    if tls.None? || !tls.value.enabled then []
    else
      var t := tls.value;
      (if !t.insecureSkipVerify && TrimSpace(t.caFile) == "" then [TlsNeedsCa(i)] else [])
      + (if (TrimSpace(t.certFile) != "") != (TrimSpace(t.keyFile) != "") then [TlsPairIncomplete(i)] else [])
  }

  /** Ingress names are compared as written, blank ones excluded. */
  predicate SourceSeen(ing: seq<Ingress>, j: nat, name: string)
    requires j <= |ing|
  {
    exists k :: 0 <= k < j && ing[k].sourceName == name && TrimSpace(name) != ""
  }

  function IngressErrors(i: nat, ing: seq<Ingress>, j: nat): Errors
    requires j < |ing|
  {
    var x := ing[j];
    (if TrimSpace(x.sourceName) == "" then [IngressUnnamed(i, j)]
     else if SourceSeen(ing, j, x.sourceName) then [IngressDuplicate(i, j, x.sourceName)]
     else [])
    + (if x.topic == "" && x.queue == "" && x.subject == "" then [IngressWithoutSource(i, j)] else [])
  }

  function IngressItems(i: nat, ing: seq<Ingress>): seq<Errors> {
    seq(|ing|, j requires 0 <= j < |ing| => IngressErrors(i, ing, j))
  }

  /** Egress names are compared after trimming. */
  predicate TargetSeen(eg: seq<Egress>, j: nat, trimmed: string)
    requires j <= |eg|
  {
    exists k :: 0 <= k < j && TrimSpace(eg[k].name) == trimmed && trimmed != ""
  }

  function EgressTypeErrors(i: nat, j: nat, e: Egress): Errors {
    var t := ToLower(e.egressType);
    if t == "topic" then (if TrimSpace(e.topicTemplate) == "" then [EgressNeedsTopic(i, j)] else [])
    else if t == "subject" then (if TrimSpace(e.subjectTemplate) == "" then [EgressNeedsSubject(i, j)] else [])
    else if t == "exchange" then
      (if TrimSpace(e.exchange) == "" || TrimSpace(e.routingKeyTemplate) == "" then [EgressNeedsExchange(i, j)] else [])
    else if t == "" then [EgressUntyped(i, j)]
    else [EgressTypeUnsupported(i, j, e.egressType)]
  }

  function EgressErrors(i: nat, eg: seq<Egress>, j: nat): Errors
    requires j < |eg|
  {
    var name := TrimSpace(eg[j].name);
    (if name == "" then [EgressUnnamed(i, j)]
     else if TargetSeen(eg, j, name) then [EgressDuplicate(i, j, name)]
     else [])
    + EgressTypeErrors(i, j, eg[j])
  }

  function EgressItems(i: nat, eg: seq<Egress>): seq<Errors> {
    seq(|eg|, j requires 0 <= j < |eg| => EgressErrors(i, eg, j))
  }

  predicate NameSeen(cs: seq<Connector>, i: nat, name: string)
    requires i <= |cs|
  {
    exists k :: 0 <= k < i && cs[k].name == name && TrimSpace(name) != ""
  }

  function ConnectorErrors(cs: seq<Connector>, i: nat): Errors
    requires i < |cs|
  {
    var c := cs[i];
    if TrimSpace(c.name) == "" then [ConnectorUnnamed(i)]
    else
      (if NameSeen(cs, i, c.name) then [ConnectorDuplicate(i, c.name)] else [])
      + TypeErrors(i, c) + TlsErrors(i, c.tls)
      + Flat(IngressItems(i, c.ingress)) + Flat(EgressItems(i, c.egress))
  }

  function ConnectorItems(cs: seq<Connector>): seq<Errors> {
    seq(|cs|, i requires 0 <= i < |cs| => ConnectorErrors(cs, i))
  }

  // ---------- References ----------

  predicate HasConnector(cs: seq<Connector>, name: string) {
    exists k :: 0 <= k < |cs| && cs[k].name == name
  }

  predicate OffersSource(c: Connector, name: string, source: string) {
    c.name == name && exists k :: 0 <= k < |c.ingress| && c.ingress[k].sourceName == source
  }

  predicate OffersTarget(c: Connector, name: string, target: string) {
    c.name == name && exists k :: 0 <= k < |c.egress| && c.egress[k].name == target
  }

  predicate HasSource(cs: seq<Connector>, name: string, source: string) {
    exists k :: 0 <= k < |cs| && OffersSource(cs[k], name, source)
  }

  predicate HasTarget(cs: seq<Connector>, name: string, target: string) {
    exists k :: 0 <= k < |cs| && OffersTarget(cs[k], name, target)
  }

  predicate HasGroup(gs: seq<Group>, name: string) {
    exists k :: 0 <= k < |gs| && gs[k].name == name
  }

  // ---------- Pass 2: groups ----------

  function GroupTargetErrors(cs: seq<Connector>, i: nat, g: Group, j: nat): Errors
    requires j < |g.targets|
  {
    var t := g.targets[j];
    if TrimSpace(t.connector) == "" then [GroupTargetUnnamed(i, j)]
    else
      (if HasConnector(cs, t.connector) then [] else [GroupConnectorUnknown(i, j, t.connector)])
      + (if HasTarget(cs, t.connector, t.target) then [] else [GroupTargetUnknown(i, j, t.target, t.connector)])
  }

  function GroupTargetItems(cs: seq<Connector>, i: nat, g: Group): seq<Errors> {
    seq(|g.targets|, j requires 0 <= j < |g.targets| => GroupTargetErrors(cs, i, g, j))
  }

  function GroupErrors(cs: seq<Connector>, gs: seq<Group>, i: nat): Errors
    requires i < |gs|
  {
    (if HasConnector(cs, gs[i].name) then [GroupNameClash(i, gs[i].name)] else [])
    + Flat(GroupTargetItems(cs, i, gs[i]))
  }

  function GroupItems(cs: seq<Connector>, gs: seq<Group>): seq<Errors> {
    seq(|gs|, i requires 0 <= i < |gs| => GroupErrors(cs, gs, i))
  }

  // ---------- Pass 3: routes ----------

  predicate NamesTo(r: Route) {
    r.to.Some? && TrimSpace(r.to.value.connector) != ""
  }

  predicate NamesGroup(r: Route) {
    TrimSpace(r.toGroup) != ""
  }

  function SourceErrors(s: Settings, i: nat, r: Route): Errors {
    (if TrimSpace(r.from.source) == "" then [FromNeedsSource(i)] else [])
    + (if r.from.source != "" && !HasSource(s.connectors, r.from.connector, r.from.source)
       then [FromSourceUnknown(i, r.from.source, r.from.connector)] else [])
  }

  function ToErrors(s: Settings, i: nat, r: Route): Errors
    requires r.to.Some?
  {
    var to := r.to.value;
    if !HasConnector(s.connectors, to.connector) then [ToUnknown(i, to.connector)]
    else if TrimSpace(to.target) == "" then [ToNeedsTarget(i)]
    else
      (if HasTarget(s.connectors, to.connector, to.target) then [] else [ToTargetUnknown(i, to.target, to.connector)])
      + (if to.connector == r.from.connector && to.target == r.from.source then [RouteLoops(i)] else [])
  }

  predicate LegalMode(m: Mode) {
    ToLower(m.modeType) == "persistent" || ToLower(m.modeType) == "drop"
  }

  function DestinationErrors(s: Settings, i: nat, r: Route): Errors {
    (if NamesTo(r) && NamesGroup(r) then [TwoDestinations(i)] else [])
    + (if NamesTo(r) then ToErrors(s, i, r) else [])
    + (if NamesGroup(r) && !HasGroup(s.groups, r.toGroup) then [ToGroupUnknown(i, r.toGroup)] else [])
    + (if LegalMode(r.mode) then [] else [ModeIllegal(i)])
  }

  function RouteErrors(s: Settings, i: nat, r: Route): Errors {
    if TrimSpace(r.from.connector) == "" then [FromUnnamed(i)]
    else if !HasConnector(s.connectors, r.from.connector) then [FromUnknown(i, r.from.connector)]
    else
      SourceErrors(s, i, r)
      + if !NamesTo(r) && !NamesGroup(r) then [NoDestination(i)] else DestinationErrors(s, i, r)
  }

  function RouteItems(s: Settings): seq<Errors> {
    seq(|s.routes|, i requires 0 <= i < |s.routes| => RouteErrors(s, i, s.routes[i]))
  }

  const DEFAULT_TTL: Int64 := 180000

  /** Whether the pass gets as far as looking at the route's mode. */
  predicate ReachesMode(s: Settings, r: Route) {
    && TrimSpace(r.from.connector) != "" && HasConnector(s.connectors, r.from.connector)
    && (NamesTo(r) || NamesGroup(r))
  }

  /** A drop route without a positive TTL gets the default one. */
  function WithTtl(r: Route): Route {
    if ToLower(r.mode.modeType) == "drop" && r.mode.ttlMs <= 0 then r.(mode := r.mode.(ttlMs := DEFAULT_TTL)) else r
  }

  /** The route as the pass leaves it. */
  function Defaulted(s: Settings, r: Route): Route {
    if ReachesMode(s, r) then WithTtl(r) else r
  }

  function Normalised(s: Settings): Settings {
    s.(routes := seq(|s.routes|, i requires 0 <= i < |s.routes| => Defaulted(s, s.routes[i])))
  }

  // ---------- Pass 4: filters and projections ----------

  function FilterErrors(s: Settings, i: nat, name: string): Errors {
    if name in s.filters then [] else [FilterUndeclared(i, name)]
  }

  function FilterItems(s: Settings, i: nat, r: Route): seq<Errors> {
    seq(|r.filters|, k requires 0 <= k < |r.filters| => FilterErrors(s, i, r.filters[k]))
  }

  function StageErrors(s: Settings, i: nat, r: Route): Errors {
    Flat(FilterItems(s, i, r))
    + if r.projection != "" && r.projection !in s.projections then [ProjectionUndeclared(i, r.projection)] else []
  }

  function StageItems(s: Settings): seq<Errors> {
    seq(|s.routes|, i requires 0 <= i < |s.routes| => StageErrors(s, i, s.routes[i]))
  }

  // ---------- All passes ----------

  function AllErrors(s: Settings): Errors {
    Flat(ConnectorItems(s.connectors)) + Flat(GroupItems(s.connectors, s.groups))
    + Flat(RouteItems(s)) + Flat(StageItems(s))
  }

  // ---------- The declarative meaning of acceptance ----------

  predicate GoodBrokers(p: Param) {
    (p.PStrings? && p.items != []) || (p.PList? && p.elements != [] && forall x :: x in p.elements ==> x.PString?)
  }

  predicate GoodParams(c: Connector) {
    var t := ToLower(c.connectorType);
    if t == "kafka" then "brokers" in c.params && GoodBrokers(c.params["brokers"])
    else
      && (t == "rabbitmq" || t == "nats")
      && "url" in c.params && c.params["url"].PString? && !Blank(c.params["url"].text)
  }

  predicate GoodTls(tls: Option<Tls>) {
    tls.Some? && tls.value.enabled ==>
      && (tls.value.insecureSkipVerify || !Blank(tls.value.caFile))
      && (Blank(tls.value.certFile) <==> Blank(tls.value.keyFile))
  }

  predicate GoodIngresses(ing: seq<Ingress>) {
    && (forall j :: 0 <= j < |ing| ==>
          !Blank(ing[j].sourceName) && (ing[j].topic != "" || ing[j].queue != "" || ing[j].subject != ""))
    && (forall j, k :: 0 <= j < k < |ing| ==> ing[j].sourceName != ing[k].sourceName)
  }

  predicate GoodDestination(e: Egress) {
    var t := ToLower(e.egressType);
    || (t == "topic" && !Blank(e.topicTemplate))
    || (t == "subject" && !Blank(e.subjectTemplate))
    || (t == "exchange" && !Blank(e.exchange) && !Blank(e.routingKeyTemplate))
  }

  predicate GoodEgresses(eg: seq<Egress>) {
    && (forall j :: 0 <= j < |eg| ==> !Blank(eg[j].name) && GoodDestination(eg[j]))
    && (forall j, k :: 0 <= j < k < |eg| ==> TrimSpace(eg[j].name) != TrimSpace(eg[k].name))
  }

  predicate GoodConnector(c: Connector) {
    !Blank(c.name) && GoodParams(c) && GoodTls(c.tls) && GoodIngresses(c.ingress) && GoodEgresses(c.egress)
  }

  predicate GoodConnectors(cs: seq<Connector>) {
    && (forall i :: 0 <= i < |cs| ==> GoodConnector(cs[i]))
    && (forall i, k :: 0 <= i < k < |cs| ==> cs[i].name != cs[k].name)
  }

  predicate GoodEndpoint(cs: seq<Connector>, t: Endpoint) {
    !Blank(t.connector) && HasTarget(cs, t.connector, t.target)
  }

  predicate GoodGroup(cs: seq<Connector>, g: Group) {
    !HasConnector(cs, g.name) && forall t :: t in g.targets ==> GoodEndpoint(cs, t)
  }

  /** Exactly one destination, resolving, and not the source itself. */
  predicate GoodRoute(s: Settings, r: Route) {
    && !Blank(r.from.connector) && !Blank(r.from.source) && HasSource(s.connectors, r.from.connector, r.from.source)
    && NamesTo(r) != NamesGroup(r)
    && (NamesTo(r) ==> GoodEndpoint(s.connectors, r.to.value) && !Blank(r.to.value.target)
                       && r.to.value != Endpoint(r.from.connector, r.from.source))
    && (NamesGroup(r) ==> HasGroup(s.groups, r.toGroup))
    && LegalMode(r.mode)
  }

  predicate GoodStages(s: Settings, r: Route) {
    (forall f :: f in r.filters ==> f in s.filters) && (r.projection == "" || r.projection in s.projections)
  }

  predicate WellFormed(s: Settings) {
    && GoodConnectors(s.connectors)
    && (forall g :: g in s.groups ==> GoodGroup(s.connectors, g))
    && (forall r :: r in s.routes ==> GoodRoute(s, r) && GoodStages(s, r))
  }
}
