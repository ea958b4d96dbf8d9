// The user configuration (internal/config/types.go) and the errors validation can report about it.
module Config {
  import opened Prelude
  import opened Text

  /** A YAML parameter value. */
  datatype Param = PString(text: string) | PStrings(items: seq<string>) | PList(elements: seq<Param>) | POther

  datatype Tls = Tls(enabled: bool, caFile: string, certFile: string, keyFile: string, insecureSkipVerify: bool)

  datatype Ingress = Ingress(topic: string, queue: string, subject: string, groupId: string, sourceName: string)

  datatype Egress = Egress(
    egressType: string, name: string, topicTemplate: string, subjectTemplate: string, exchange: string,
    routingKeyTemplate: string)

  datatype Connector = Connector(
    name: string, connectorType: string, params: map<string, Param>, tls: Option<Tls>,
    ingress: seq<Ingress>, egress: seq<Egress>)

  datatype Endpoint = Endpoint(connector: string, target: string)
  datatype Startpoint = Startpoint(connector: string, source: string)
  datatype Mode = Mode(modeType: string, ttlMs: Int64, maxAttempts: int)

  datatype Route = Route(
    name: string, from: Startpoint, to: Option<Endpoint>, toGroup: string, mode: Mode,
    filters: seq<string>, projection: string)

  datatype Group = Group(name: string, targets: seq<Endpoint>)

  /** A parsed configuration; filters and projections are known by name. */
  datatype Settings = Settings(
    connectors: seq<Connector>, filters: seq<string>, projections: seq<string>, groups: seq<Group>, routes: seq<Route>)

  /** The configuration object; validation writes to its routes. */
  class UserConfig {
    var connectors: seq<Connector>
    var filters: seq<string>
    var projections: seq<string>
    var groups: seq<Group>
    var routes: seq<Route>

    constructor (s: Settings)
      ensures Content() == s
    {
      connectors, filters, projections, groups, routes := s.connectors, s.filters, s.projections, s.groups, s.routes;
    }

    ghost function Content(): Settings
      reads this
    {
      Settings(connectors, filters, projections, groups, routes)
    }
  }

  datatype ConfigError =
    // connectors
    | ConnectorUnnamed(i: nat)
    | ConnectorDuplicate(i: nat, name: string)
    | ConnectorTypeUnsupported(i: nat, name: string)
    | ParamMissing(i: nat, name: string, key: string)
    | ParamNotString(i: nat, name: string, key: string)
    | BrokersEmpty(i: nat, name: string)
    | BrokerNotString(i: nat, name: string, k: nat)
    | BrokersNotList(i: nat, name: string)
    | TlsNeedsCa(i: nat)
    | TlsPairIncomplete(i: nat)
    | IngressUnnamed(i: nat, j: nat)
    | IngressDuplicate(i: nat, j: nat, name: string)
    | IngressWithoutSource(i: nat, j: nat)
    | EgressUnnamed(i: nat, j: nat)
    | EgressDuplicate(i: nat, j: nat, name: string)
    | EgressNeedsTopic(i: nat, j: nat)
    | EgressNeedsSubject(i: nat, j: nat)
    | EgressNeedsExchange(i: nat, j: nat)
    | EgressUntyped(i: nat, j: nat)
    | EgressTypeUnsupported(i: nat, j: nat, name: string)
    // groups
    | GroupNameClash(i: nat, name: string)
    | GroupTargetUnnamed(i: nat, j: nat)
    | GroupConnectorUnknown(i: nat, j: nat, name: string)
    | GroupTargetUnknown(i: nat, j: nat, target: string, name: string)
    // routes
    | FromUnnamed(i: nat)
    | FromUnknown(i: nat, name: string)
    | FromNeedsSource(i: nat)
    | FromSourceUnknown(i: nat, source: string, name: string)
    | NoDestination(i: nat)
    | TwoDestinations(i: nat)
    | ToUnknown(i: nat, name: string)
    | ToNeedsTarget(i: nat)
    | ToTargetUnknown(i: nat, target: string, name: string)
    | RouteLoops(i: nat)
    | ToGroupUnknown(i: nat, name: string)
    | ModeIllegal(i: nat)
    // filters and projections
    | FilterUndeclared(i: nat, name: string)
    | ProjectionUndeclared(i: nat, name: string)

  function At(what: string, i: nat): string { what + "[" + FormatNat(i) + "]" }

  function At2(what: string, i: nat, sub: string, j: nat): string { At(what, i) + "." + At(sub, j) }

  /** fmt's %q on a string without characters that need escaping. */
  function Quoted(s: string): string { "\"" + s + "\"" }

  /** The text of one error. */
  function ErrorText(e: ConfigError): string {
    match e
    case ConnectorUnnamed(i) => At("connectors", i) + ": name is required"
    case ConnectorDuplicate(i, n) => At("connectors", i) + ": duplicate connector name " + Quoted(n)
    case ConnectorTypeUnsupported(i, n) =>
      At("connectors", i) + ": unsupported type " + Quoted(n) + " (expect: kafka|rabbitmq|nats)"
    case ParamMissing(i, n, k) => At("connectors", i) + " " + Quoted(n) + ": params." + k + " is required"
    case ParamNotString(i, n, k) =>
      At("connectors", i) + " " + Quoted(n) + ": params." + k + " must be non-empty string"
    case BrokersEmpty(i, n) => At("connectors", i) + " " + Quoted(n) + ": params.brokers must be non-empty"
    case BrokerNotString(i, n, k) =>
      At("connectors", i) + " " + Quoted(n) + ": " + At("params.brokers", k) + " must be string"
    case BrokersNotList(i, n) => At("connectors", i) + " " + Quoted(n) + ": params.brokers must be []string"
    case TlsNeedsCa(i) => At("connectors", i) + ": tls.enabled=true & verify=true requires ca_file"
    case TlsPairIncomplete(i) => At("connectors", i) + ": tls cert_file and key_file must be provided together"
    case IngressUnnamed(i, j) => At2("connectors", i, "ingress", j) + ": source_name is required"
    case IngressDuplicate(i, j, n) => At2("connectors", i, "ingress", j) + ": duplicated source_name " + Quoted(n)
    case IngressWithoutSource(i, j) => At2("connectors", i, "ingress", j) + ": require one of topic|queue|subject"
    case EgressUnnamed(i, j) => At2("connectors", i, "egress", j) + ": name is required (add field 'name' to egress)"
    case EgressDuplicate(i, j, n) => At2("connectors", i, "egress", j) + ": duplicated egress name " + Quoted(n)
    case EgressNeedsTopic(i, j) => At2("connectors", i, "egress", j) + ": type=topic requires topic_template"
    case EgressNeedsSubject(i, j) => At2("connectors", i, "egress", j) + ": type=subject requires subject_template"
    case EgressNeedsExchange(i, j) =>
      At2("connectors", i, "egress", j) + ": type=exchange requires exchange and routing_key_template"
    case EgressUntyped(i, j) => At2("connectors", i, "egress", j) + ": type is required (topic|subject|exchange)"
    case EgressTypeUnsupported(i, j, n) => At2("connectors", i, "egress", j) + ": unsupported egress type " + Quoted(n)
    case GroupNameClash(i, n) =>
      At("group_receivers", i) + ": name " + Quoted(n) + " conflicts with existing connector name"
    case GroupTargetUnnamed(i, j) => At2("group_receivers", i, "targets", j) + ": connector is required"
    case GroupConnectorUnknown(i, j, n) =>
      At2("group_receivers", i, "targets", j) + ": connector " + Quoted(n) + " not found"
    case GroupTargetUnknown(i, j, t, n) =>
      At2("group_receivers", i, "targets", j) + ": target " + Quoted(t) + " not found in connector " + Quoted(n)
    case FromUnnamed(i) => At("routes", i) + ".from.connector is required"
    case FromUnknown(i, n) => At("routes", i) + ".from.connector " + Quoted(n) + " not found"
    case FromNeedsSource(i) => At("routes", i) + ".from requires either source"
    case FromSourceUnknown(i, s, n) =>
      At("routes", i) + ".from: source " + Quoted(s) + " not found in connector " + Quoted(n)
    case NoDestination(i) => At("routes", i) + ": either 'to' or 'to_group' must be provided"
    case TwoDestinations(i) => At("routes", i) + ": cannot set both 'to' and 'to_group'"
    case ToUnknown(i, n) => At("routes", i) + ".to.connector " + Quoted(n) + " not found"
    case ToNeedsTarget(i) => At("routes", i) + ".to.target is required (egress name)"
    case ToTargetUnknown(i, t, n) =>
      At("routes", i) + ".to: target " + Quoted(t) + " not found in connector " + Quoted(n)
    case RouteLoops(i) => At("routes", i) + ": cannot route from and to the same source/target"
    case ToGroupUnknown(i, n) => At("routes", i) + ".to_group " + Quoted(n) + " not found"
    case ModeIllegal(i) => At("routes", i) + ".mode.type must be 'persistent' or 'drop'"
    case FilterUndeclared(i, n) => At("routes", i) + ": filter " + Quoted(n) + " not declared"
    case ProjectionUndeclared(i, n) => At("routes", i) + ": projection " + Quoted(n) + " not declared"
  }

  function Texts(es: seq<ConfigError>): seq<string> {
    seq(|es|, i requires 0 <= i < |es| => ErrorText(es[i]))
  }

  /** joinErrors: nil for no error, otherwise one error whose text is all texts on separate lines. */
  function JoinErrors(texts: seq<string>): Status {
    if texts == [] then Nil else Err(Join(texts, "\n"))
  }
}
