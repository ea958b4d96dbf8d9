// From the configuration to connectors and buses (internal/util/convert.go:27-160,
// internal/connector/kafka/connector.go:20-74, internal/connector/kafka/ingress.go:21-31,
// internal/connector/kafka/exgress.go:17-30, internal/router/adapter.go:19-58).
module Connectors {
  import opened Prelude
  import opened Config
  import opened Adapter
  import RabbitIngress

  datatype RabbitSource = RabbitSource(sourceName: string, queue: string, policy: RabbitIngress.Policy)
  datatype RabbitTarget = RabbitTarget(targetName: string, exchange: string, routingKey: string)
  datatype KafkaSource = KafkaSource(sourceName: string, topic: string, groupId: string)
  datatype KafkaTarget = KafkaTarget(targetName: string, topic: string)

  datatype Link =
    | Rabbit(name: string, rabbitSources: seq<RabbitSource>, rabbitTargets: seq<RabbitTarget>)
    | Kafka(name: string, kafkaSources: seq<KafkaSource>, kafkaTargets: seq<KafkaTarget>)

  const BRIDGE_POLICY := RabbitIngress.Policy(false, 200, true)

  // ---------- MapConnectors ----------

  /** The connector built for a configuration entry, when its type is one that is wired in. */
  function LinkOf(c: Connector): Option<Link> {
    if c.connectorType == "rabbitmq" then
      Some(Rabbit(c.name,
        seq(|c.ingress|, i requires 0 <= i < |c.ingress| =>
          RabbitSource(c.ingress[i].sourceName, c.ingress[i].queue, BRIDGE_POLICY)),
        seq(|c.egress|, i requires 0 <= i < |c.egress| =>
          RabbitTarget(c.egress[i].name, c.egress[i].exchange, c.egress[i].routingKeyTemplate))))
    else if c.connectorType == "kafka" then
      Some(Kafka(c.name,
        seq(|c.ingress|, i requires 0 <= i < |c.ingress| =>
          KafkaSource(c.ingress[i].sourceName, c.ingress[i].topic, c.ingress[i].groupId)),
        seq(|c.egress|, i requires 0 <= i < |c.egress| => KafkaTarget(c.egress[i].name, c.egress[i].topicTemplate))))
    else None
  }

  predicate KnownType(t: string) { t == "rabbitmq" || t == "kafka" || t == "nats" }

  /** What the outside world answers: whether parameters decode, and whether a connector opens. */
  datatype World = World(decodes: Connector -> bool, opens: Link -> bool)

  /** Whether the loop gets past this entry. */
  predicate Maps(w: World, c: Connector) {
    KnownType(c.connectorType) && w.decodes(c) && (LinkOf(c).Some? ==> w.opens(LinkOf(c).value))
  }

  function LinkEntries(cs: seq<Connector>): seq<(string, Link)> {
    if cs == [] then []
    else
      var n := |cs| - 1;
      LinkEntries(cs[..n]) + match LinkOf(cs[n]) case None => [] case Some(l) => [(cs[n].name, l)]
  }

  method BuildRabbit(c: Connector) returns (l: Link)
    requires c.connectorType == "rabbitmq"
    ensures Some(l) == LinkOf(c)
  {
    var sources: seq<RabbitSource> := [];
    for i := 0 to |c.ingress|
      invariant |sources| == i
      invariant forall k :: 0 <= k < i ==>
        sources[k] == RabbitSource(c.ingress[k].sourceName, c.ingress[k].queue, BRIDGE_POLICY)
    {
      var policy := RabbitIngress.Policy(false, 200, true);
      sources := sources + [RabbitSource(c.ingress[i].sourceName, c.ingress[i].queue, policy)];
    }
    var targets: seq<RabbitTarget> := [];
    for i := 0 to |c.egress|
      invariant |targets| == i
      invariant forall k :: 0 <= k < i ==>
        targets[k] == RabbitTarget(c.egress[k].name, c.egress[k].exchange, c.egress[k].routingKeyTemplate)
    {
      targets := targets + [RabbitTarget(c.egress[i].name, c.egress[i].exchange, c.egress[i].routingKeyTemplate)];
    }
    l := Rabbit(c.name, sources, targets);
    assert sources == LinkOf(c).value.rabbitSources && targets == LinkOf(c).value.rabbitTargets;
  }

  method BuildKafka(c: Connector) returns (l: Link)
    requires c.connectorType == "kafka"
    ensures Some(l) == LinkOf(c)
  {
    var sources: seq<KafkaSource> := [];
    for i := 0 to |c.ingress|
      invariant |sources| == i
      invariant forall k :: 0 <= k < i ==>
        sources[k] == KafkaSource(c.ingress[k].sourceName, c.ingress[k].topic, c.ingress[k].groupId)
    {
      sources := sources + [KafkaSource(c.ingress[i].sourceName, c.ingress[i].topic, c.ingress[i].groupId)];
    }
    var targets: seq<KafkaTarget> := [];
    for i := 0 to |c.egress|
      invariant |targets| == i
      invariant forall k :: 0 <= k < i ==> targets[k] == KafkaTarget(c.egress[k].name, c.egress[k].topicTemplate)
    {
      targets := targets + [KafkaTarget(c.egress[i].name, c.egress[i].topicTemplate)];
    }
    l := Kafka(c.name, sources, targets);
    assert sources == LinkOf(c).value.kafkaSources && targets == LinkOf(c).value.kafkaTargets;
  }

  /** The connector of one entry, None for an entry that adds none, or the reason the loop fails at it. */
  method MapOne(c: Connector, w: World) returns (r: Result<Option<Link>, string>)
    ensures r.Success? <==> Maps(w, c)
    ensures r.Success? ==> r.value == LinkOf(c)
  {
    if !KnownType(c.connectorType) {
      return Failure("unsupported type");
    }
    if !w.decodes(c) {
      return Failure("decode params");
    }
    if c.connectorType == "nats" {
      return Success(None);
    }
    var l: Link;
    if c.connectorType == "rabbitmq" { l := BuildRabbit(c); } else { l := BuildKafka(c); }
    r := if w.opens(l) then Success(Some(l)) else Failure("open");
  }

  /** Fails at the first entry that does not decode, has another type, or does not open. */
  method MapConnectors(cs: seq<Connector>, w: World) returns (r: Result<map<string, Link>, string>)
    ensures r.Success? <==> forall i :: 0 <= i < |cs| ==> Maps(w, cs[i])
    ensures r.Success? ==> Indexes(r.value, LinkEntries(cs)) && Mapped(cs, r.value)
  {
    var links: map<string, Link> := map[];
    for i := 0 to |cs|
      invariant forall k :: 0 <= k < i ==> Maps(w, cs[k])
      invariant Indexes(links, LinkEntries(cs[..i]))
    {
      var one := MapOne(cs[i], w);
      if one.Failure? {
        return Failure(one.error);
      }
      LinksMore(links, cs, i);
      if one.value.Some? {
        links := links[cs[i].name := one.value.value];
      }
    }
    assert cs[..|cs|] == cs;
    EntriesMapped(cs, links);
    r := Success(links);
  }

  // ---------- What a mapped connector is made of ----------

  predicate WiredType(c: Connector) { c.connectorType == "kafka" || c.connectorType == "rabbitmq" }

  /** No later entry of a type that is wired in carries the name of entry i. */
  predicate IsLastWired(cs: seq<Connector>, i: nat) {
    i < |cs| && WiredType(cs[i]) && forall k :: i < k < |cs| && WiredType(cs[k]) ==> cs[k].name != cs[i].name
  }

  /** Field by field and position by position, the connector is the configured one. */
  predicate Mirrors(c: Connector, l: Link) {
    match l
    case Rabbit(name, sources, targets) =>
      && c.connectorType == "rabbitmq" && name == c.name
      && |sources| == |c.ingress| && |targets| == |c.egress|
      && (forall i :: 0 <= i < |sources| ==>
            && sources[i].sourceName == c.ingress[i].sourceName && sources[i].queue == c.ingress[i].queue
            && !sources[i].policy.autoAck && sources[i].policy.prefetch == 200 && sources[i].policy.requeueOnError)
      && (forall i :: 0 <= i < |targets| ==>
            && targets[i].targetName == c.egress[i].name
            && targets[i].exchange == c.egress[i].exchange && targets[i].routingKey == c.egress[i].routingKeyTemplate)
    case Kafka(name, sources, targets) =>
      && c.connectorType == "kafka" && name == c.name
      && |sources| == |c.ingress| && |targets| == |c.egress|
      && (forall i :: 0 <= i < |sources| ==>
            && sources[i].sourceName == c.ingress[i].sourceName && sources[i].topic == c.ingress[i].topic
            && sources[i].groupId == c.ingress[i].groupId)
      && (forall i :: 0 <= i < |targets| ==>
            targets[i].targetName == c.egress[i].name && targets[i].topic == c.egress[i].topicTemplate)
  }

  /** Under each name of a wired entry stands the connector of the last such entry, and nothing stands elsewhere. */
  ghost predicate Mapped(cs: seq<Connector>, links: map<string, Link>) {
    && (forall i: nat :: IsLastWired(cs, i) ==> cs[i].name in links && Mirrors(cs[i], links[cs[i].name]))
    && (forall name :: name in links ==> exists i: nat :: IsLastWired(cs, i) && cs[i].name == name)
  }

  lemma LinkMirrors(c: Connector)
    ensures LinkOf(c).Some? <==> WiredType(c)
    ensures LinkOf(c).Some? ==> Mirrors(c, LinkOf(c).value)
  {
  }

  lemma {:induction false} LastWiredFound(cs: seq<Connector>, i: nat)
    requires IsLastWired(cs, i)
    ensures LastNamed(LinkEntries(cs), cs[i].name) == LinkOf(cs[i])
  {
    var n := |cs| - 1;
    assert cs == cs[..n] + [cs[n]];
    EntriesMore(cs[..n], cs[n]);
    LinkMirrors(cs[n]);
    if i < n {
      assert IsLastWired(cs[..n], i);
      LastWiredFound(cs[..n], i);
    }
  }

  lemma {:induction false} FoundIsLastWired(cs: seq<Connector>, name: string) returns (i: nat)
    requires LastNamed(LinkEntries(cs), name).Some?
    ensures IsLastWired(cs, i) && cs[i].name == name
  {
    i := |cs| - 1;
    assert cs == cs[..i] + [cs[i]];
    EntriesMore(cs[..i], cs[i]);
    LinkMirrors(cs[i]);
    if !(WiredType(cs[i]) && cs[i].name == name) {
      i := FoundIsLastWired(cs[..i], name);
    }
  }

  lemma EntriesMapped(cs: seq<Connector>, links: map<string, Link>)
    requires Indexes(links, LinkEntries(cs))
    ensures Mapped(cs, links)
  {
    forall i: nat | IsLastWired(cs, i) ensures cs[i].name in links && Mirrors(cs[i], links[cs[i].name]) {
      LinkMirrors(cs[i]);
      LastWiredFound(cs, i);
      IndexedIsLast(links, LinkEntries(cs), cs[i].name);
    }
    forall name | name in links ensures exists i: nat :: IsLastWired(cs, i) && cs[i].name == name {
      IndexedIsLast(links, LinkEntries(cs), name);
      var i := FoundIsLastWired(cs, name);
    }
  }

  lemma LinksMore(links: map<string, Link>, cs: seq<Connector>, i: nat)
    requires i < |cs| && Indexes(links, LinkEntries(cs[..i]))
    ensures var more := match LinkOf(cs[i]) case None => links case Some(l) => links[cs[i].name := l];
      Indexes(more, LinkEntries(cs[..i + 1]))
  {
    EntriesMore(cs[..i], cs[i]);
    assert cs[..i + 1] == cs[..i] + [cs[i]];
    var es := LinkEntries(cs[..i]);
    match LinkOf(cs[i]) {
      case None => assert es + [] == es;
      case Some(l) => IndexAppend(links, es, cs[i].name, l);
    }
  }

  lemma EntriesMore(cs: seq<Connector>, c: Connector)
    ensures LinkEntries(cs + [c]) == LinkEntries(cs) + match LinkOf(c) case None => [] case Some(l) => [(c.name, l)]
    ensures forall name :: LastNamed(LinkEntries(cs + [c]), name)
                           == if LinkOf(c).Some? && name == c.name then LinkOf(c) else LastNamed(LinkEntries(cs), name)
  {
    assert (cs + [c])[..|cs|] == cs;
    var before := LinkEntries(cs);
    if LinkOf(c).Some? {
      var e := (c.name, LinkOf(c).value);
      assert (before + [e])[..|before|] == before;
    } else {
      assert before + [] == before;
    }
  }

  /** With distinct names the connector found under a name is the one declared under it; only wired types are found. */
  lemma {:induction false} LinkFound(cs: seq<Connector>, i: nat)
    requires i < |cs| && forall k :: 0 <= k < |cs| && k != i ==> cs[k].name != cs[i].name
    ensures LastNamed(LinkEntries(cs), cs[i].name) == LinkOf(cs[i])
  {
    var n := |cs| - 1;
    assert cs == cs[..n] + [cs[n]];
    EntriesMore(cs[..n], cs[n]);
    if i < n {
      LinkFound(cs[..n], i);
    } else {
      LinkAbsent(cs[..n], cs[i].name);
    }
  }

  lemma {:induction false} LinkAbsent(cs: seq<Connector>, name: string)
    requires forall k :: 0 <= k < |cs| ==> cs[k].name != name
    ensures LastNamed(LinkEntries(cs), name).None?
  {
    if cs != [] {
      var n := |cs| - 1;
      assert cs == cs[..n] + [cs[n]];
      EntriesMore(cs[..n], cs[n]);
      LinkAbsent(cs[..n], name);
    }
  }

  /** Every RabbitMQ source gets the delivery policy under which no message is dropped. */
  lemma SourcesRequeue(c: Connector, i: nat)
    requires c.connectorType == "rabbitmq" && i < |c.ingress|
    ensures var p := LinkOf(c).value.rabbitSources[i].policy; !p.autoAck && p.requeueOnError
  {
  }

  // ---------- The bus of a connector ----------

  function SourceEntries(l: Link): seq<(string, nat)> {
    match l
    case Rabbit(_, xs, _) => seq(|xs|, i requires 0 <= i < |xs| => (xs[i].sourceName, i))
    case Kafka(_, xs, _) => seq(|xs|, i requires 0 <= i < |xs| => (xs[i].sourceName, i))
  }

  function TargetEntries(l: Link): seq<(string, nat)> {
    match l
    case Rabbit(_, _, xs) => seq(|xs|, i requires 0 <= i < |xs| => (xs[i].targetName, i))
    case Kafka(_, _, xs) => seq(|xs|, i requires 0 <= i < |xs| => (xs[i].targetName, i))
  }

  /** A bus knows its connector's ingresses and egresses by name; the values are their positions. */
  class Bus {
    const link: Link
    var ingByName: map<string, nat>
    var egByName: map<string, nat>

    constructor (l: Link)
      ensures link == l && Valid()
    {
      link := l;
      ingByName, egByName := map[], map[];
      new;
      var sources := NameMap(SourceEntries(l));
      var targets := NameMap(TargetEntries(l));
      ingByName, egByName := sources, targets;
    }

    ghost predicate Valid()
      reads this
    {
      && Indexes(ingByName, SourceEntries(link))
      && Indexes(egByName, TargetEntries(link))
    }

    /** The lookups of Subscribe and Publish. */
    method FindIngress(name: string) returns (r: Option<nat>)
      requires Valid()
      ensures r == LastNamed(SourceEntries(link), name)
    {
      IndexedIsLast(ingByName, SourceEntries(link), name);
      r := if name in ingByName then Some(ingByName[name]) else None;
    }

    method FindEgress(name: string) returns (r: Option<nat>)
      requires Valid()
      ensures r == LastNamed(TargetEntries(link), name)
    {
      IndexedIsLast(egByName, TargetEntries(link), name);
      r := if name in egByName then Some(egByName[name]) else None;
    }
  }

  // ---------- Kafka readers and writers ----------

  datatype Reader = Reader(topic: string, groupId: string)

  class KafkaClient {
    const sources: seq<KafkaSource>
    const targets: seq<KafkaTarget>
    var readers: map<string, Reader>   // by source name
    var writers: map<string, string>   // by topic; the writer is identified by the topic it was made for

    constructor (sources: seq<KafkaSource>, targets: seq<KafkaTarget>)
      ensures this.sources == sources && this.targets == targets && readers == map[] && writers == map[]
    {
      this.sources, this.targets := sources, targets;
      readers, writers := map[], map[];
    }

    /** One reader per source name, where the last declaration wins, and one writer per distinct topic. */
    method Open()
      requires readers == map[] && writers == map[]
      modifies this
      ensures Indexes(readers, ReaderEntries(sources)) && WritersFor(targets)
    {
      for i := 0 to |sources|
        invariant writers == map[] && Indexes(readers, ReaderEntries(sources[..i]))
      {
        readers := readers[sources[i].sourceName := Reader(sources[i].topic, sources[i].groupId)];
        ReaderEntriesNext(sources, i);
      }
      assert sources[..|sources|] == sources;
      OpenWriters();
      assert targets[..|targets|] == targets;
    }

    method OpenWriters()
      requires writers == map[]
      modifies this`writers
      ensures WritersFor(targets)
    {
      for i := 0 to |targets|
        invariant WritersFor(targets[..i])
      {
        var t := targets[i].topic;
        assert targets[..i + 1] == targets[..i] + [targets[i]];
        if t !in writers {
          writers := writers[t := t];
        }
      }
      assert targets[..|targets|] == targets;
    }

    /** Exactly the topics of these targets have a writer, each its own. */
    ghost predicate WritersFor(ts: seq<KafkaTarget>)
      reads this
    {
      && (forall t :: t in writers <==> exists i :: 0 <= i < |ts| && ts[i].topic == t)
      && (forall t :: t in writers ==> writers[t] == t)
    }

    /** Ingress.Start walks the readers in no particular order and takes the first with its topic. */
    method FindReader(topic: string) returns (r: Option<Reader>)
      ensures r.Some? <==> exists n :: n in readers && readers[n].topic == topic
      ensures r.Some? ==> r.value.topic == topic && exists n :: n in readers && readers[n] == r.value
    {
      var left := readers.Keys;
      while left != {}
        invariant left <= readers.Keys
        invariant forall n :: n in readers && n !in left ==> readers[n].topic != topic
      {
        var n :| n in left;
        if readers[n].topic == topic {
          return Some(readers[n]);
        }
        left := left - {n};
      }
      r := None;
    }

    /**
     * A source whose name no other source of the connector carries always finds a reader for its topic. The
     * reader belongs to the source's own consumer group if all readers of that topic do.
     */
    method StartSource(i: nat) returns (r: Option<Reader>)
      requires i < |sources| && Indexes(readers, ReaderEntries(sources))
      requires forall k :: 0 <= k < |sources| && k != i ==> sources[k].sourceName != sources[i].sourceName
      ensures r.Some? && r.value.topic == sources[i].topic
      ensures TopicHasOneGroup(sources, i) ==> r.value.groupId == sources[i].groupId
    {
      var entries := ReaderEntries(sources);
      UniqueIsFound(entries, i);
      assert readers[sources[i].sourceName] == entries[i].1;
      r := FindReader(sources[i].topic);
      ghost var n :| n in readers && readers[n] == r.value;
      FoundIsNamed(entries, n);
      assert (n, r.value) in entries;
    }

    /** Publish finds a writer for every declared target, and it writes to that target's topic. */
    method FindWriter(i: nat) returns (topic: Option<string>)
      requires i < |targets| && WritersFor(targets)
      ensures topic == Some(targets[i].topic)
    {
      topic := if targets[i].topic in writers then Some(writers[targets[i].topic]) else None;
    }
  }

  /** All sources of this source's topic are in its consumer group. */
  predicate TopicHasOneGroup(sources: seq<KafkaSource>, i: nat)
    requires i < |sources|
  {
    forall k :: 0 <= k < |sources| && sources[k].topic == sources[i].topic ==> sources[k].groupId == sources[i].groupId
  }

  function ReaderEntries(sources: seq<KafkaSource>): seq<(string, Reader)> {
    seq(|sources|, i requires 0 <= i < |sources| =>
      (sources[i].sourceName, Reader(sources[i].topic, sources[i].groupId)))
  }

  lemma ReaderEntriesNext(sources: seq<KafkaSource>, i: nat)
    requires i < |sources|
    ensures forall m: map<string, Reader> :: Indexes(m, ReaderEntries(sources[..i])) ==>
      Indexes(m[sources[i].sourceName := Reader(sources[i].topic, sources[i].groupId)], ReaderEntries(sources[..i + 1]))
  {
    var es := ReaderEntries(sources[..i + 1]);
    assert es[..i] == ReaderEntries(sources[..i]) && es[..i + 1] == es;
    forall m: map<string, Reader> | Indexes(m, es[..i])
      ensures Indexes(m[sources[i].sourceName := Reader(sources[i].topic, sources[i].groupId)], es)
    {
      IndexMore(m, es, i);
    }
  }

  /**
   * Start may take any reader of the source's topic. With distinct source names every one it may take is in the
   * source's own consumer group exactly when all sources of that topic share one group.
   */
  lemma OwnGroupIff(sources: seq<KafkaSource>, readers: map<string, Reader>, i: nat)
    requires i < |sources| && Indexes(readers, ReaderEntries(sources))
    requires forall j, k :: 0 <= j < k < |sources| ==> sources[j].sourceName != sources[k].sourceName
    ensures TopicHasOneGroup(sources, i) <==>
      forall n :: n in readers && readers[n].topic == sources[i].topic ==> readers[n].groupId == sources[i].groupId
  {
    var es := ReaderEntries(sources);
    forall k | 0 <= k < |sources|
      ensures sources[k].sourceName in readers
      ensures readers[sources[k].sourceName] == Reader(sources[k].topic, sources[k].groupId)
    {
      assert forall j :: 0 <= j < |es| && j != k ==> es[j].0 != es[k].0;
      UniqueIsFound(es, k);
    }
    forall n | n in readers ensures (n, readers[n]) in es {
      FoundIsNamed(es, n);
    }
  }
}
