/** The bridge's control loop (src/bin/zenoh-bridge-dds.rs): it receives the
    discovery events in order, turns each into a route key, applies the allow
    filter, and creates each route's endpoints the first time its key is seen. */
module Bridge {
  import opened Wrappers
  import opened Coders
  import opened Seqs
  import opened Plugin

  /** `DDS_INFINITE_TIME`: the largest `dds_duration_t`. */
  const DdsInfiniteTime: int64 := 0x7FFF_FFFF_FFFF_FFFF

  /** The zenoh key of a route: the scope, then the partition when there is one,
      then the topic name, separated by '/'. Publications and subscriptions
      use the same scheme. */
  function RouteKey(scope: string, partition: Option<string>, topicName: string): string
  {
    match partition
    case Some(p) => scope + "/" + p + "/" + topicName
    case None => scope + "/" + topicName
  }

  predicate NoSlash(s: string)
  {
    forall i :: 0 <= i < |s| ==> s[i] != '/'
  }

  /** Index of the first '/' of `s`, or `|s|` when there is none. */
  function FirstSlash(s: string): (i: nat)
    ensures i <= |s|
    ensures i < |s| ==> s[i] == '/'
    ensures forall j :: 0 <= j < i ==> s[j] != '/'
  {
    if s == [] || s[0] == '/' then 0 else 1 + FirstSlash(s[1..])
  }

  /** What follows the scope in a route key. */
  function KeyTail(partition: Option<string>, topicName: string): string
  {
    match partition
    case Some(p) => p + "/" + topicName
    case None => topicName
  }

  /** Reads a key tail back: what precedes the first '/' is the partition. */
  function SplitTail(r: string): (Option<string>, string)
  {
    var i := FirstSlash(r);
    if i < |r| then (Some(r[..i]), r[i + 1..]) else (None, r)
  }

  /** A key tail whose parts hold no '/' reads back as the parts it was made of. */
  lemma SplitKeyTail(partition: Option<string>, topicName: string)
    requires NoSlash(topicName)
    requires partition.Some? ==> NoSlash(partition.value)
    ensures SplitTail(KeyTail(partition, topicName)) == (partition, topicName)
  {
    var r := KeyTail(partition, topicName);
    match partition
    case Some(p) =>
      assert r[|p|] == '/';
      assert forall j :: 0 <= j < |p| ==> r[j] == p[j];
      assert r[..|p|] == p && r[|p| + 1..] == topicName;
    case None =>
  }

  /** When neither the partition nor the topic name holds a '/', the key of a
      scope determines both: two routes share a key only if they share partition
      and topic. */
  lemma RouteKeyInjective(scope: string, p1: Option<string>, t1: string, p2: Option<string>, t2: string)
    requires NoSlash(t1) && NoSlash(t2)
    requires p1.Some? ==> NoSlash(p1.value)
    requires p2.Some? ==> NoSlash(p2.value)
    requires RouteKey(scope, p1, t1) == RouteKey(scope, p2, t2)
    ensures p1 == p2 && t1 == t2
  {
    var m := |scope| + 1;
    assert RouteKey(scope, p1, t1) == scope + "/" + KeyTail(p1, t1);
    assert RouteKey(scope, p2, t2) == scope + "/" + KeyTail(p2, t2);
    assert RouteKey(scope, p1, t1)[m..] == KeyTail(p1, t1);
    assert RouteKey(scope, p2, t2)[m..] == KeyTail(p2, t2);
    SplitKeyTail(p1, t1);
    SplitKeyTail(p2, t2);
  }

  /** Without that condition keys collide: a topic "a" in partition "b" and a
      topic "b/a" without partition map to the same key. */
  lemma RouteKeyCollision()
    ensures RouteKey("s", Some("b"), "a") == RouteKey("s", None, "b/a")
  {
  }

  /** `is_allowed`: without an allow expression every key passes; with one, a key
      passes exactly when the expression matches it. */
  function IsAllowed(allow: Option<string -> bool>, key: string): (ok: bool)
    ensures allow.None? ==> ok
    ensures allow.Some? ==> (ok <==> allow.value(key))
  {
    match allow
    case Some(matches) => matches(key)
    case None => true
  }

  /** The reliability workaround: when the policy is present and its
      `max_blocking_time` is finite, the bound is raised by one nanosecond;
      otherwise the policy is left as it is. The kind is not consulted. */
  function AdjustedReliability(r: Option<Reliability>): (a: Option<Reliability>)
    ensures a.Some? <==> r.Some?
    ensures r.Some? ==> a.value.kind == r.value.kind
    ensures r.Some? && r.value.maxBlockingTime < DdsInfiniteTime ==>
      a.value.maxBlockingTime as int == r.value.maxBlockingTime as int + 1
    ensures (r.None? || r.value.maxBlockingTime == DdsInfiniteTime) ==> a == r
  {
    match r
    case Some(Reliability(kind, t)) =>
      if t < DdsInfiniteTime then Some(Reliability(kind, t + 1)) else r
    case None => None
  }

  /** A finite bound never overflows and never drops: it rises to at most
      `DDS_INFINITE_TIME`, and reaches it only from one below. */
  lemma {:induction false} AdjustedStaysInRange(r: Reliability)
    requires r.maxBlockingTime < DdsInfiniteTime
    ensures AdjustedReliability(Some(r)).value.maxBlockingTime <= DdsInfiniteTime
    ensures r.maxBlockingTime < AdjustedReliability(Some(r)).value.maxBlockingTime
    ensures AdjustedReliability(Some(r)).value.maxBlockingTime == DdsInfiniteTime
        <==> r.maxBlockingTime as int == DdsInfiniteTime as int - 1
  {
  }

  /** The workaround is not idempotent: applied twice to the same QoS object it
      raises a finite bound by two. This happens when the events of one
      discovery sample's partitions, which share one QoS object, each open a
      new subscription route. */
  lemma RepeatedAdjustment(r: Reliability)
    requires r.maxBlockingTime as int < DdsInfiniteTime as int - 1
    ensures AdjustedReliability(AdjustedReliability(Some(r))).value.maxBlockingTime as int
         == r.maxBlockingTime as int + 2
  {
  }

  /** The workaround in place on a QoS object: read the reliability, and when it
      is present with a finite bound, write it back one nanosecond longer. */
  method ApplyReliabilityWorkaround(qos: QosHolder)
    modifies qos
    ensures qos.policy == old(qos.policy).(reliability := AdjustedReliability(old(qos.policy.reliability)))
  {
    var kind := Reliable;
    var maxBlockingTime: int64 := 0;
    var got := qos.GetReliability();
    if got.Some? {
      kind, maxBlockingTime := got.value.kind, got.value.maxBlockingTime;
    }
    if got.Some? && maxBlockingTime < DdsInfiniteTime {
      maxBlockingTime := maxBlockingTime + 1;
      qos.SetReliability(kind, maxBlockingTime);
    } else {
      assert AdjustedReliability(qos.policy.reliability) == qos.policy.reliability;
    }
  }

  /** A DDS entity created by the bridge: a forwarding reader (DDS to zenoh) or
      a forwarding writer (zenoh to DDS). Its handle is its index in the log. */
  datatype Endpoint = ReaderEndpoint(reader: ForwardingReader) | WriterEndpoint(writer: DdsWriterEntity)

  /** The reliability bound of the writer logged at `i`, if there is one with a bound. */
  function WriterBoundAt(entities: seq<Endpoint>, i: nat): Option<int64>
  {
    if i < |entities| && entities[i].WriterEndpoint? && entities[i].writer.qos.reliability.Some?
    then Some(entities[i].writer.qos.reliability.value.maxBlockingTime)
    else None
  }

  /** A spawned zenoh-to-DDS forwarding task: it subscribes to `key` and writes
      what it receives through a `DDSWriter` described by `sink`. */
  datatype ForwardingTask = ForwardingTask(key: string, typeName: string, sink: Sink)

  /** The control loop's route tables and the logs of what it created on both
      buses, as one value. */
  datatype Routes = Routes(
    ridMap: map<string, ResourceId>,
    rdMap: map<string, Entity>,
    wrMap: map<string, Entity>,
    resources: seq<string>,
    publishers: seq<ResourceId>,
    entities: seq<Endpoint>,
    tasks: seq<ForwardingTask>)

  /** Each DDS-to-zenoh route has one resource, declared at the index that is
      its id, with a publisher on it. */
  ghost predicate ResourcesValid(s: Routes)
  {
    && s.ridMap.Keys == s.rdMap.Keys
    && |s.resources| == |s.ridMap|
    && (forall k :: k in s.ridMap ==> s.ridMap[k] < |s.resources| && s.resources[s.ridMap[k]] == k)
    && |s.publishers| == |s.resources|
    && (forall i :: 0 <= i < |s.publishers| ==> s.publishers[i] == i)
  }

  /** Each DDS-to-zenoh route has a forwarding reader publishing on its resource. */
  ghost predicate ReadersValid(s: Routes)
  {
    forall k :: k in s.rdMap ==>
      && k in s.ridMap
      && s.rdMap[k] < |s.entities|
      && s.entities[s.rdMap[k]].ReaderEndpoint?
      && s.entities[s.rdMap[k]].reader.zKey == s.ridMap[k]
  }

  /** Each zenoh-to-DDS route has a forwarding writer of its own. */
  ghost predicate WritersValid(s: Routes)
  {
    && (forall k :: k in s.wrMap ==> s.wrMap[k] < |s.entities| && s.entities[s.wrMap[k]].WriterEndpoint?)
    && (forall k1, k2 :: k1 in s.wrMap && k2 in s.wrMap && k1 != k2 ==> s.wrMap[k1] != s.wrMap[k2])
  }

  /** Each zenoh-to-DDS route has exactly one task, writing through its writer. */
  ghost predicate TasksValid(s: Routes)
  {
    && |s.tasks| == |s.wrMap|
    && (forall i :: 0 <= i < |s.tasks| ==>
          && s.tasks[i].key in s.wrMap
          && s.tasks[i].sink.DdsSink?
          && s.tasks[i].sink.writer == s.wrMap[s.tasks[i].key])
    && (forall i, j :: 0 <= i < j < |s.tasks| ==> s.tasks[i].key != s.tasks[j].key)
  }

  /** Every route key has at most one resource, one reader, one writer and one
      task, and everything created belongs to exactly one route. */
  ghost predicate RoutesValid(s: Routes)
  {
    && ResourcesValid(s) && ReadersValid(s) && WritersValid(s) && TasksValid(s)
    && |s.entities| == |s.rdMap| + |s.wrMap|
  }

  /** Nothing is lost: every route keeps its resource, reader and writer, and
      every resource, entity and task created stays where it was. */
  ghost predicate Extends(s0: Routes, s1: Routes)
  {
    && (forall k :: k in s0.ridMap ==> k in s1.ridMap && s1.ridMap[k] == s0.ridMap[k])
    && (forall k :: k in s0.rdMap ==> k in s1.rdMap && s1.rdMap[k] == s0.rdMap[k])
    && (forall k :: k in s0.wrMap ==> k in s1.wrMap && s1.wrMap[k] == s0.wrMap[k])
    && s0.resources <= s1.resources && s0.publishers <= s1.publishers
    && s0.entities <= s1.entities && s0.tasks <= s1.tasks
  }

  /** The keys of `m1` are those of `m0` and those of `added`. */
  ghost predicate KeysAdded<V>(m0: map<string, V>, m1: map<string, V>, added: set<string>)
  {
    forall k :: k in m1 <==> k in m0 || k in added
  }

  /** A new DDS-to-zenoh route for `key`: the next resource id, a publisher on
      it, and `reader` as the next entity. */
  function WithReader(s: Routes, key: string, reader: ForwardingReader): Routes
  {
    var rid := |s.resources|;
    s.(resources := s.resources + [key], publishers := s.publishers + [rid], ridMap := s.ridMap[key := rid],
       entities := s.entities + [ReaderEndpoint(reader)], rdMap := s.rdMap[key := |s.entities|])
  }

  /** A new zenoh-to-DDS route for `key`: `w` as the next entity and one task
      writing through it. The task's `DDSWriter` takes the topic name for both
      names. */
  function WithWriter(s: Routes, key: string, w: DdsWriterEntity, participant: Entity): Routes
  {
    var wr := |s.entities|;
    s.(entities := s.entities + [WriterEndpoint(w)], wrMap := s.wrMap[key := wr],
       tasks := s.tasks + [ForwardingTask(key, w.typeName, DdsSink(participant, wr, w.topicName, w.topicName, w.keyless))])
  }

  lemma ResourcesWithReader(s: Routes, key: string, reader: ForwardingReader)
    requires ResourcesValid(s) && key !in s.rdMap
    ensures ResourcesValid(WithReader(s, key, reader))
  {
    var t := WithReader(s, key, reader);
    var n := |s.resources|;
    assert t.resources == s.resources + [key] && t.ridMap == s.ridMap[key := n];
    assert t.publishers == s.publishers + [n];
    assert |t.ridMap| == |s.ridMap| + 1;
    forall k | k in t.ridMap ensures t.ridMap[k] < |t.resources| && t.resources[t.ridMap[k]] == k {
      if k != key {
        assert t.resources[s.ridMap[k]] == s.resources[s.ridMap[k]];
      }
    }
    forall i | 0 <= i < |t.publishers| ensures t.publishers[i] == i {
      if i < n {
        assert t.publishers[i] == s.publishers[i];
      }
    }
  }

  lemma ReadersWithReader(s: Routes, key: string, reader: ForwardingReader)
    requires ReadersValid(s) && key !in s.rdMap && reader.zKey == |s.resources|
    ensures ReadersValid(WithReader(s, key, reader))
  {
    var t := WithReader(s, key, reader);
    assert t.entities == s.entities + [ReaderEndpoint(reader)];
    forall k | k in t.rdMap
      ensures k in t.ridMap && t.rdMap[k] < |t.entities| && t.entities[t.rdMap[k]].ReaderEndpoint?
      ensures t.entities[t.rdMap[k]].reader.zKey == t.ridMap[k]
    {
      if k != key {
        assert t.entities[t.rdMap[k]] == s.entities[s.rdMap[k]];
      }
    }
  }

  lemma WritersWithReader(s: Routes, key: string, reader: ForwardingReader)
    requires WritersValid(s)
    ensures WritersValid(WithReader(s, key, reader))
  {
    var t := WithReader(s, key, reader);
    assert t.wrMap == s.wrMap && t.entities == s.entities + [ReaderEndpoint(reader)];
    forall k | k in t.wrMap ensures t.entities[t.wrMap[k]] == s.entities[s.wrMap[k]] {
    }
  }

  /** Opening a publication route for a key without one keeps the tables
      consistent. */
  lemma WithReaderValid(s: Routes, key: string, reader: ForwardingReader)
    requires RoutesValid(s) && key !in s.rdMap && reader.zKey == |s.resources|
    ensures RoutesValid(WithReader(s, key, reader))
  {
    ResourcesWithReader(s, key, reader);
    ReadersWithReader(s, key, reader);
    WritersWithReader(s, key, reader);
  }

  /** Opening a publication route loses nothing and adds exactly its key. */
  lemma WithReaderExtends(s: Routes, key: string, reader: ForwardingReader)
    requires key !in s.ridMap && key !in s.rdMap
    ensures Extends(s, WithReader(s, key, reader))
    ensures KeysAdded(s.rdMap, WithReader(s, key, reader).rdMap, {key})
  {
  }

  lemma WritersWithWriter(s: Routes, key: string, w: DdsWriterEntity, participant: Entity)
    requires WritersValid(s) && key !in s.wrMap
    requires forall k :: k in s.wrMap ==> s.wrMap[k] < |s.entities|
    ensures WritersValid(WithWriter(s, key, w, participant))
  {
    var t := WithWriter(s, key, w, participant);
    assert t.entities == s.entities + [WriterEndpoint(w)] && t.wrMap == s.wrMap[key := |s.entities|];
    forall k | k in t.wrMap ensures t.wrMap[k] < |t.entities| && t.entities[t.wrMap[k]].WriterEndpoint? {
      if k != key {
        assert t.entities[t.wrMap[k]] == s.entities[s.wrMap[k]];
      }
    }
  }

  lemma ReadersWithWriter(s: Routes, key: string, w: DdsWriterEntity, participant: Entity)
    requires ReadersValid(s)
    ensures ReadersValid(WithWriter(s, key, w, participant))
  {
    var t := WithWriter(s, key, w, participant);
    assert t.rdMap == s.rdMap && t.ridMap == s.ridMap && t.entities == s.entities + [WriterEndpoint(w)];
    forall k | k in t.rdMap ensures t.entities[t.rdMap[k]] == s.entities[s.rdMap[k]] {
    }
  }

  lemma TasksWithWriter(s: Routes, key: string, w: DdsWriterEntity, participant: Entity)
    requires TasksValid(s) && key !in s.wrMap
    ensures TasksValid(WithWriter(s, key, w, participant))
  {
    var t := WithWriter(s, key, w, participant);
    var n := |s.tasks|;
    assert t.tasks == s.tasks + [t.tasks[n]] && t.tasks[n].key == key;
    assert t.wrMap == s.wrMap[key := |s.entities|];
    forall i | 0 <= i < |t.tasks|
      ensures t.tasks[i].key in t.wrMap && t.tasks[i].sink.DdsSink?
      ensures t.tasks[i].sink.writer == t.wrMap[t.tasks[i].key]
    {
      if i < n {
        assert t.tasks[i] == s.tasks[i];
      }
    }
    forall i, j | 0 <= i < j < |t.tasks| ensures t.tasks[i].key != t.tasks[j].key {
      assert t.tasks[i] == s.tasks[i];
      if j < n {
        assert t.tasks[j] == s.tasks[j];
      }
    }
  }

  /** Opening a subscription route for a key without one keeps the tables
      consistent; in particular it spawns exactly one task. */
  lemma WithWriterValid(s: Routes, key: string, w: DdsWriterEntity, participant: Entity)
    requires RoutesValid(s) && key !in s.wrMap
    ensures RoutesValid(WithWriter(s, key, w, participant))
  {
    WritersWithWriter(s, key, w, participant);
    ReadersWithWriter(s, key, w, participant);
    TasksWithWriter(s, key, w, participant);
  }

  /** Opening a subscription route loses nothing and adds exactly its key. */
  lemma WithWriterExtends(s: Routes, key: string, w: DdsWriterEntity, participant: Entity)
    requires key !in s.wrMap
    ensures Extends(s, WithWriter(s, key, w, participant))
    ensures KeysAdded(s.wrMap, WithWriter(s, key, w, participant).wrMap, {key})
  {
  }

  /** Losing nothing is transitive. */
  lemma ExtendsTrans(s0: Routes, s1: Routes, s2: Routes)
    requires Extends(s0, s1) && Extends(s1, s2)
    ensures Extends(s0, s2)
  {
  }

  /** The control loop: the three route maps of `main` and logs of what it
      created on both buses. */
  class Bridge {
    const scope: string
    const allow: Option<string -> bool>
    const coders: Coders
    const participant: Entity
    /** route key -> zenoh resource id of a DDS-to-zenoh route */
    var ridMap: map<string, ResourceId>
    /** route key -> forwarding DDS reader of a DDS-to-zenoh route */
    var rdMap: map<string, Entity>
    /** route key -> forwarding DDS writer of a zenoh-to-DDS route */
    var wrMap: map<string, Entity>
    /** declared zenoh resources; a resource id is an index */
    var resources: seq<string>
    /** resources on which a publisher was declared */
    var publishers: seq<ResourceId>
    /** DDS readers and writers created; an entity handle is an index */
    var entities: seq<Endpoint>
    /** forwarding tasks spawned */
    var tasks: seq<ForwardingTask>

    ghost function State(): Routes
      reads this
    {
      Routes(ridMap, rdMap, wrMap, resources, publishers, entities, tasks)
    }

    ghost predicate Valid()
      reads this
    {
      RoutesValid(State())
    }

    constructor (scope: string, allow: Option<string -> bool>, coders: Coders, participant: Entity)
      ensures Valid()
      ensures this.scope == scope && this.allow == allow && this.coders == coders
      ensures this.participant == participant
      ensures ridMap == map[] && rdMap == map[] && wrMap == map[]
      ensures resources == [] && publishers == [] && entities == [] && tasks == []
    {
      this.scope, this.allow, this.coders, this.participant := scope, allow, coders, participant;
      ridMap, rdMap, wrMap := map[], map[], map[];
      resources, publishers, entities, tasks := [], [], [], [];
    }

    /** The route key of an event. */
    function KeyOf(e: MatchedEntity): string
    {
      RouteKey(scope, e.partition, e.topicName)
    }

    /** An event the loop goes on after: an undiscovery (no filter applies), or a
        discovery whose key the allow filter accepts. */
    predicate Admitted(e: MatchedEntity)
    {
      !e.Discovered() || IsAllowed(allow, KeyOf(e))
    }

    /** The route key an event opens a DDS-to-zenoh route for, if any. */
    function PublicationKey(e: MatchedEntity): set<string>
    {
      if e.DiscoveredPublication? then {KeyOf(e)} else {}
    }

    /** The route key an event opens a zenoh-to-DDS route for, if any. */
    function SubscriptionKey(e: MatchedEntity): set<string>
    {
      if e.DiscoveredSubscription? then {KeyOf(e)} else {}
    }

    /** The route keys of the discovered publications among `es`. */
    function PublicationKeys(es: seq<MatchedEntity>): set<string>
      decreases |es|
    {
      if es == [] then {} else PublicationKeys(es[..|es| - 1]) + PublicationKey(es[|es| - 1])
    }

    /** The route keys of the discovered subscriptions among `es`. */
    function SubscriptionKeys(es: seq<MatchedEntity>): set<string>
      decreases |es|
    {
      if es == [] then {} else SubscriptionKeys(es[..|es| - 1]) + SubscriptionKey(es[|es| - 1])
    }

    /** `DiscoveredPublication`: a rejected key changes nothing (and stops the
        loop); a known key changes nothing; a new key gets a zenoh resource with a
        publisher, and a forwarding reader whose encoder the registry selects. */
    method OnDiscoveredPublication(
      topicName: string, typeName: string, keyless: bool, partition: Option<string>, qos: QosHolder)
      returns (allowed: bool)
      requires Valid()
      modifies this
      ensures Valid() && Extends(old(State()), State())
      ensures allowed == IsAllowed(allow, RouteKey(scope, partition, topicName))
      ensures !allowed || RouteKey(scope, partition, topicName) in old(rdMap) ==> unchanged(this)
      ensures allowed ==> KeysAdded(old(rdMap), rdMap, {RouteKey(scope, partition, topicName)})
      ensures wrMap == old(wrMap) && tasks == old(tasks)
      ensures allowed && RouteKey(scope, partition, topicName) !in old(rdMap) ==>
        var dr := |old(entities)|;
        && dr < |entities| && entities[dr].ReaderEndpoint?
        && State() == WithReader(old(State()), RouteKey(scope, partition, topicName), entities[dr].reader)
        && var r := entities[dr].reader;
          && fresh(r) && fresh(r.encoder) && fresh(r.encoder.writer)
          && r.topicName == topicName && r.typeName == typeName && r.keyless == keyless
          && r.qos == qos.policy && r.zKey == |old(resources)| && r.cache == []
          && r.encoder.selection == Selected(coders, topicName, true)
          && r.encoder.writer.sink == ZenohSink(r.zKey) && r.encoder.writer.written == []
    {
      var key := RouteKey(scope, partition, topicName);
      if !IsAllowed(allow, key) {
        return false;
      }
      allowed := true;
      if key !in rdMap {
        ghost var s0 := State();
        var reader := AddReaderRoute(key, topicName, typeName, keyless, qos);
        WithReaderValid(s0, key, reader);
        WithReaderExtends(s0, key, reader);
      }
    }

    /** The route creation of `DiscoveredPublication`: a resource and a publisher
        for `key`, then a forwarding reader publishing on that resource. */
    method AddReaderRoute(key: string, topicName: string, typeName: string, keyless: bool, qos: QosHolder)
      returns (reader: ForwardingReader)
      modifies this
      ensures State() == WithReader(old(State()), key, reader)
      ensures fresh(reader) && fresh(reader.encoder) && fresh(reader.encoder.writer)
      ensures reader.topicName == topicName && reader.typeName == typeName && reader.keyless == keyless
      ensures reader.qos == qos.policy && reader.zKey == |old(resources)| && reader.cache == []
      ensures reader.encoder.selection == Selected(coders, topicName, true)
      ensures reader.encoder.writer.sink == ZenohSink(reader.zKey) && reader.encoder.writer.written == []
    {
      var nrid: ResourceId := |resources|;
      resources := resources + [key];
      publishers := publishers + [nrid];
      ridMap := ridMap[key := nrid];
      reader := CreateForwardingDdsReader(coders, topicName, typeName, keyless, qos, nrid);
      var dr: Entity := |entities|;
      entities := entities + [ReaderEndpoint(reader)];
      rdMap := rdMap[key := dr];
    }

    /** `DiscoveredSubscription`: a rejected key changes nothing (and stops the
        loop); a known key changes nothing and spawns nothing; a new key gets the
        reliability workaround on its QoS, a forwarding writer, and exactly one
        forwarding task. */
    method OnDiscoveredSubscription(
      topicName: string, typeName: string, keyless: bool, partition: Option<string>, qos: QosHolder)
      returns (allowed: bool)
      requires Valid()
      modifies this, qos
      ensures Valid() && Extends(old(State()), State())
      ensures allowed == IsAllowed(allow, RouteKey(scope, partition, topicName))
      ensures !allowed || RouteKey(scope, partition, topicName) in old(wrMap) ==> unchanged(this) && unchanged(qos)
      ensures allowed ==> KeysAdded(old(wrMap), wrMap, {RouteKey(scope, partition, topicName)})
      ensures rdMap == old(rdMap) && ridMap == old(ridMap)
      ensures allowed && RouteKey(scope, partition, topicName) !in old(wrMap) ==>
        && qos.policy == old(qos.policy).(reliability := AdjustedReliability(old(qos.policy.reliability)))
        && State() == WithWriter(old(State()), RouteKey(scope, partition, topicName),
                                 DdsWriterEntity(topicName, typeName, keyless, qos.policy), participant)
    {
      var key := RouteKey(scope, partition, topicName);
      if !IsAllowed(allow, key) {
        return false;
      }
      allowed := true;
      if key !in wrMap {
        ghost var s0 := State();
        ApplyReliabilityWorkaround(qos);
        var w := AddWriterRoute(key, topicName, typeName, keyless, qos);
        WithWriterValid(s0, key, w, participant);
        WithWriterExtends(s0, key, w, participant);
      }
    }

    /** The route creation of `DiscoveredSubscription`: a forwarding writer with
        the (adjusted) QoS, then the task that writes what arrives on `key`. */
    method AddWriterRoute(key: string, topicName: string, typeName: string, keyless: bool, qos: QosHolder)
      returns (w: DdsWriterEntity)
      modifies this
      ensures w == DdsWriterEntity(topicName, typeName, keyless, qos.policy)
      ensures State() == WithWriter(old(State()), key, w, participant)
    {
      w := CreateForwardingDdsWriter(topicName, typeName, keyless, qos);
      var wr: Entity := |entities|;
      entities := entities + [WriterEndpoint(w)];
      wrMap := wrMap[key := wr];
      // The spawned task's `DDSWriter` takes the topic name for both names.
      tasks := tasks + [ForwardingTask(key, typeName, DdsSink(participant, wr, topicName, topicName, keyless))];
    }

    /** `DiscoveredSubscription` with the workaround applied to a copy of the
        event's QoS object: the shared object keeps the discovered policy, so every
        route opened from one sample's partitions gets the bound raised once. */
    method OnDiscoveredSubscriptionCopying(
      topicName: string, typeName: string, keyless: bool, partition: Option<string>, qos: QosHolder)
      returns (allowed: bool)
      requires Valid()
      modifies this
      ensures Valid() && Extends(old(State()), State())
      ensures allowed == IsAllowed(allow, RouteKey(scope, partition, topicName))
      ensures !allowed || RouteKey(scope, partition, topicName) in old(wrMap) ==> unchanged(this)
      ensures allowed ==> KeysAdded(old(wrMap), wrMap, {RouteKey(scope, partition, topicName)})
      ensures rdMap == old(rdMap) && ridMap == old(ridMap)
      ensures allowed && RouteKey(scope, partition, topicName) !in old(wrMap) ==>
        State() == WithWriter(old(State()), RouteKey(scope, partition, topicName),
          DdsWriterEntity(topicName, typeName, keyless, qos.policy.(reliability := AdjustedReliability(qos.policy.reliability))),
          participant)
    {
      var key := RouteKey(scope, partition, topicName);
      if !IsAllowed(allow, key) {
        return false;
      }
      allowed := true;
      if key !in wrMap {
        ghost var s0 := State();
        var copy := new QosHolder(qos.policy);
        ApplyReliabilityWorkaround(copy);
        var w := AddWriterRoute(key, topicName, typeName, keyless, copy);
        WithWriterValid(s0, key, w, participant);
        WithWriterExtends(s0, key, w, participant);
      }
    }

    /** Two partitions of one discovered subscription, both admitted and new, whose
        events share the QoS object `qos` with a finite reliability bound. As
        written, the first route's writer gets the bound plus one and the second
        route's writer the bound plus two. */
    method SubscribeTwoPartitions(
      topicName: string, typeName: string, keyless: bool, p1: string, p2: string, qos: QosHolder)
      returns (first: Option<int64>, second: Option<int64>)
      requires Valid()
      requires RouteKey(scope, Some(p1), topicName) != RouteKey(scope, Some(p2), topicName)
      requires IsAllowed(allow, RouteKey(scope, Some(p1), topicName)) && RouteKey(scope, Some(p1), topicName) !in wrMap
      requires IsAllowed(allow, RouteKey(scope, Some(p2), topicName)) && RouteKey(scope, Some(p2), topicName) !in wrMap
      requires qos.policy.reliability.Some? && qos.policy.reliability.value.maxBlockingTime as int < DdsInfiniteTime as int - 1
      modifies this, qos
      ensures first.Some? && first.value as int == old(qos.policy.reliability.value.maxBlockingTime) as int + 1
      ensures second.Some? && second.value as int == old(qos.policy.reliability.value.maxBlockingTime) as int + 2
    {
      var n := |entities|;
      var allowed := OnDiscoveredSubscription(topicName, typeName, keyless, Some(p1), qos);
      first := WriterBoundAt(entities, n);
      allowed := OnDiscoveredSubscription(topicName, typeName, keyless, Some(p2), qos);
      second := WriterBoundAt(entities, n + 1);
    }

    /** The same two partitions with the workaround applied to copies: each
        route's writer gets the discovered bound plus one. */
    method SubscribeTwoPartitionsCopying(
      topicName: string, typeName: string, keyless: bool, p1: string, p2: string, qos: QosHolder)
      returns (first: Option<int64>, second: Option<int64>)
      requires Valid()
      requires RouteKey(scope, Some(p1), topicName) != RouteKey(scope, Some(p2), topicName)
      requires IsAllowed(allow, RouteKey(scope, Some(p1), topicName)) && RouteKey(scope, Some(p1), topicName) !in wrMap
      requires IsAllowed(allow, RouteKey(scope, Some(p2), topicName)) && RouteKey(scope, Some(p2), topicName) !in wrMap
      requires qos.policy.reliability.Some? && qos.policy.reliability.value.maxBlockingTime < DdsInfiniteTime
      modifies this
      ensures first.Some? && first.value as int == qos.policy.reliability.value.maxBlockingTime as int + 1
      ensures second == first
    {
      var n := |entities|;
      var allowed := OnDiscoveredSubscriptionCopying(topicName, typeName, keyless, Some(p1), qos);
      first := WriterBoundAt(entities, n);
      allowed := OnDiscoveredSubscriptionCopying(topicName, typeName, keyless, Some(p2), qos);
      second := WriterBoundAt(entities, n + 1);
    }

    /** The QoS object an event hands to the loop for in-place change. */
    function QosOf(e: MatchedEntity): set<QosHolder>
    {
      if e.DiscoveredSubscription? then {e.qos} else {}
    }

    /** One iteration of the loop: dispatch on the event. `stop` is the `break`
        taken when a discovery's key is not allowed. */
    method HandleEvent(e: MatchedEntity) returns (stop: bool)
      requires Valid()
      modifies this, QosOf(e)
      ensures Valid() && Extends(old(State()), State())
      ensures stop <==> !Admitted(e)
      ensures stop || !e.Discovered() ==> unchanged(this)
      ensures !stop ==> KeysAdded(old(rdMap), rdMap, PublicationKey(e))
      ensures !stop ==> KeysAdded(old(wrMap), wrMap, SubscriptionKey(e))
      ensures e.DiscoveredPublication? && KeyOf(e) in old(rdMap) ==> unchanged(this)
      ensures e.DiscoveredPublication? && !stop && KeyOf(e) !in old(rdMap) ==>
        var dr := |old(entities)|;
        && dr < |entities| && entities[dr].ReaderEndpoint?
        && State() == WithReader(old(State()), KeyOf(e), entities[dr].reader)
        && var r := entities[dr].reader;
          && fresh(r) && r.topicName == e.topicName && r.typeName == e.typeName && r.keyless == e.keyless
          && r.qos == e.qos.policy && r.zKey == |old(resources)|
          && r.encoder.selection == Selected(coders, e.topicName, true)
      ensures e.DiscoveredSubscription? && (stop || KeyOf(e) in old(wrMap)) ==> unchanged(this) && unchanged(e.qos)
      ensures e.DiscoveredSubscription? && !stop && KeyOf(e) !in old(wrMap) ==>
        && e.qos.policy == old(e.qos.policy).(reliability := AdjustedReliability(old(e.qos.policy.reliability)))
        && State() == WithWriter(old(State()), KeyOf(e),
                                 DdsWriterEntity(e.topicName, e.typeName, e.keyless, e.qos.policy), participant)
    {
      match e
      case DiscoveredPublication(topicName, typeName, keyless, partition, qos) =>
        var allowed := OnDiscoveredPublication(topicName, typeName, keyless, partition, qos);
        DiscoveryKeys(e);
        stop := !allowed;
      case UndiscoveredPublication(_, _, _) =>
        stop := false;
      case DiscoveredSubscription(topicName, typeName, keyless, partition, qos) =>
        var allowed := OnDiscoveredSubscription(topicName, typeName, keyless, partition, qos);
        DiscoveryKeys(e);
        stop := !allowed;
      case UndiscoveredSubscription(_, _, _) =>
        stop := false;
    }

    /** What the loop reads off a discovery: its admission and the key it adds. */
    lemma DiscoveryKeys(e: MatchedEntity)
      requires e.Discovered()
      ensures Admitted(e) <==> IsAllowed(allow, RouteKey(scope, e.partition, e.topicName))
      ensures e.DiscoveredPublication? ==>
        PublicationKey(e) == {RouteKey(scope, e.partition, e.topicName)} && SubscriptionKey(e) == {}
      ensures e.DiscoveredSubscription? ==>
        SubscriptionKey(e) == {RouteKey(scope, e.partition, e.topicName)} && PublicationKey(e) == {}
    {
    }

    /** The QoS objects the events of `events` hand to the loop. */
    function QosOfAll(events: seq<MatchedEntity>): set<QosHolder>
    {
      set i | 0 <= i < |events| && events[i].DiscoveredSubscription? :: events[i].qos
    }

    lemma QosOfWithin(events: seq<MatchedEntity>, p: nat)
      requires p < |events|
      ensures QosOf(events[p]) <= QosOfAll(events)
    {
    }

    /** From `s0`, the loop has reached `s1` after handling the admitted events
        `es`: the tables are consistent, nothing was lost, and exactly the keys
        of the discovered publications and subscriptions among `es` were added. */
    ghost predicate Reached(s0: Routes, s1: Routes, es: seq<MatchedEntity>)
    {
      && RoutesValid(s1) && Extends(s0, s1)
      && KeysAdded(s0.rdMap, s1.rdMap, PublicationKeys(es))
      && KeysAdded(s0.wrMap, s1.wrMap, SubscriptionKeys(es))
    }

    lemma PublicationKeysSnoc(es: seq<MatchedEntity>, e: MatchedEntity)
      ensures PublicationKeys(es + [e]) == PublicationKeys(es) + PublicationKey(e)
    {
      assert (es + [e])[..|es|] == es;
    }

    lemma SubscriptionKeysSnoc(es: seq<MatchedEntity>, e: MatchedEntity)
      ensures SubscriptionKeys(es + [e]) == SubscriptionKeys(es) + SubscriptionKey(e)
    {
      assert (es + [e])[..|es|] == es;
    }

    lemma KeysStep(s0: Routes, s1: Routes, s2: Routes, events: seq<MatchedEntity>, p: nat)
      requires p < |events|
      requires KeysAdded(s0.rdMap, s1.rdMap, PublicationKeys(events[..p]))
      requires KeysAdded(s0.wrMap, s1.wrMap, SubscriptionKeys(events[..p]))
      requires KeysAdded(s1.rdMap, s2.rdMap, PublicationKey(events[p]))
      requires KeysAdded(s1.wrMap, s2.wrMap, SubscriptionKey(events[p]))
      ensures KeysAdded(s0.rdMap, s2.rdMap, PublicationKeys(events[..p + 1]))
      ensures KeysAdded(s0.wrMap, s2.wrMap, SubscriptionKeys(events[..p + 1]))
    {
      assert events[..p + 1] == events[..p] + [events[p]];
      PublicationKeysSnoc(events[..p], events[p]);
      SubscriptionKeysSnoc(events[..p], events[p]);
    }

    lemma ReachedStep(s0: Routes, s1: Routes, s2: Routes, events: seq<MatchedEntity>, p: nat)
      requires p < |events| && Reached(s0, s1, events[..p])
      requires RoutesValid(s2) && Extends(s1, s2)
      requires KeysAdded(s1.rdMap, s2.rdMap, PublicationKey(events[p]))
      requires KeysAdded(s1.wrMap, s2.wrMap, SubscriptionKey(events[p]))
      ensures Reached(s0, s2, events[..p + 1])
    {
      ExtendsTrans(s0, s1, s2);
      KeysStep(s0, s1, s2, events, p);
    }

    /** Index of the first event from `i` on that the loop does not go on
        after, or the number of events when there is none. */
    function FirstRejectedFrom(events: seq<MatchedEntity>, i: nat): (r: nat)
      ensures r <= |events|
      decreases |events| - i
    {
      if i >= |events| then |events|
      else if !Admitted(events[i]) then i
      else FirstRejectedFrom(events, i + 1)
    }

    /** How many events the loop handles before it breaks. */
    function FirstRejected(events: seq<MatchedEntity>): nat
    {
      FirstRejectedFrom(events, 0)
    }

    /** The events before the first rejected one are all admitted, and the one
        at that index, if any, is not. */
    lemma {:induction false} FirstRejectedFromIsFirst(events: seq<MatchedEntity>, i: nat)
      requires i <= |events|
      ensures i <= FirstRejectedFrom(events, i) <= |events|
      ensures forall j :: i <= j < FirstRejectedFrom(events, i) ==> Admitted(events[j])
      ensures FirstRejectedFrom(events, i) < |events| ==> !Admitted(events[FirstRejectedFrom(events, i)])
      decreases |events| - i
    {
      if i < |events| && Admitted(events[i]) {
        FirstRejectedFromIsFirst(events, i + 1);
      }
    }

    lemma FirstRejectedIsFirst(events: seq<MatchedEntity>)
      ensures FirstRejected(events) <= |events|
      ensures forall j :: 0 <= j < FirstRejected(events) ==> Admitted(events[j])
      ensures FirstRejected(events) < |events| ==> !Admitted(events[FirstRejected(events)])
    {
      FirstRejectedFromIsFirst(events, 0);
    }

    /** No event before index `p` hands the QoS object `q` to the loop. */
    predicate NotHandedBefore(events: seq<MatchedEntity>, p: nat, q: QosHolder)
      requires p <= |events|
    {
      forall i :: 0 <= i < p ==> q !in QosOf(events[i])
    }

    /** The current policy of every QoS object the events of `events` carry. */
    ghost function Policies(events: seq<MatchedEntity>): (m: map<QosHolder, Policy>)
      reads QosOfAll(events)
      ensures m.Keys == QosOfAll(events)
      ensures forall q :: q in m ==> m[q] == q.policy
    {
      map q | q in QosOfAll(events) :: q.policy
    }

    /** In the policy snapshot `now`, the QoS objects that only events from `p`
        on hand to the loop hold the policies they held in `entry`. */
    predicate QosKept(events: seq<MatchedEntity>, p: nat, entry: map<QosHolder, Policy>, now: map<QosHolder, Policy>)
    {
      && p <= |events|
      && forall j :: p <= j < |events| && events[j].DiscoveredSubscription? && NotHandedBefore(events, p, events[j].qos)
           ==> events[j].qos in entry && events[j].qos in now && now[events[j].qos] == entry[events[j].qos]
    }

    /** One iteration changes at most the QoS object of the event it handles,
        and none when it stops. */
    lemma QosKeptStep(
      events: seq<MatchedEntity>, p: nat, entry: map<QosHolder, Policy>, pre: map<QosHolder, Policy>,
      now: map<QosHolder, Policy>, stop: bool)
      requires p < |events| && QosKept(events, p, entry, pre)
      requires pre.Keys == QosOfAll(events) == now.Keys
      requires forall q :: q in pre && q !in QosOf(events[p]) ==> now[q] == pre[q]
      requires stop && events[p].DiscoveredSubscription? ==> now[events[p].qos] == pre[events[p].qos]
      ensures stop ==> QosKept(events, p, entry, now)
      ensures !stop ==> QosKept(events, p + 1, entry, now)
    {
      var n := if stop then p else p + 1;
      forall j | n <= j < |events| && events[j].DiscoveredSubscription? && NotHandedBefore(events, n, events[j].qos)
        ensures events[j].qos in entry && events[j].qos in now && now[events[j].qos] == entry[events[j].qos]
      {
        assert events[j].qos in QosOfAll(events);
        if !stop {
          assert events[j].qos !in QosOf(events[p]);
        }
      }
    }

    /** `HandleEvent` seen from the loop: admission, keys, and the policies of
        the QoS objects in `pre` that the event does not carry. */
    method HandleFramed(e: MatchedEntity, ghost pre: map<QosHolder, Policy>) returns (stop: bool)
      requires Valid()
      requires forall q :: q in pre ==> pre[q] == q.policy
      modifies this, QosOf(e)
      ensures Valid() && Extends(old(State()), State())
      ensures stop <==> !Admitted(e)
      ensures stop ==> unchanged(this)
      ensures !stop ==> KeysAdded(old(rdMap), rdMap, PublicationKey(e))
      ensures !stop ==> KeysAdded(old(wrMap), wrMap, SubscriptionKey(e))
      ensures forall q :: q in pre && (q !in QosOf(e) || (stop && e.DiscoveredSubscription?)) ==> q.policy == pre[q]
    {
      stop := HandleEvent(e);
      forall q | q in pre && (q !in QosOf(e) || (stop && e.DiscoveredSubscription?))
        ensures q.policy == pre[q]
      {
        assert q.policy == old(q.policy);
      }
    }

    /** One iteration of the loop on `events[p]`, keeping track of the QoS objects
        the later events carry: only the handled event's object may change. */
    method HandleNext(events: seq<MatchedEntity>, p: nat, ghost entry: map<QosHolder, Policy>) returns (stop: bool)
      requires Valid() && p < |events| && QosKept(events, p, entry, Policies(events))
      modifies this, QosOf(events[p])
      ensures Valid() && Extends(old(State()), State())
      ensures stop <==> !Admitted(events[p])
      ensures stop ==> unchanged(this)
      ensures !stop ==> KeysAdded(old(rdMap), rdMap, PublicationKey(events[p]))
      ensures !stop ==> KeysAdded(old(wrMap), wrMap, SubscriptionKey(events[p]))
      ensures stop ==> QosKept(events, p, entry, Policies(events))
      ensures !stop ==> QosKept(events, p + 1, entry, Policies(events))
    {
      ghost var pre := Policies(events);
      stop := HandleFramed(events[p], pre);
      ghost var now := Policies(events);
      QosKeptStep(events, p, entry, pre, now, stop);
    }

    /** The loop of `main` over the events received, in order. It stops at the
        first discovery whose key is not allowed; `processed` is that event's
        index, or the number of events when none is rejected. */
    method Run(events: seq<MatchedEntity>) returns (processed: nat)
      requires Valid()
      modifies this, QosOfAll(events)
      ensures processed <= |events| && processed == FirstRejected(events)
      ensures Valid() && Extends(old(State()), State())
      ensures KeysAdded(old(rdMap), rdMap, PublicationKeys(events[..processed]))
      ensures KeysAdded(old(wrMap), wrMap, SubscriptionKeys(events[..processed]))
      ensures forall j ::
        (processed <= j < |events| && events[j].DiscoveredSubscription? && NotHandedBefore(events, processed, events[j].qos))
        ==> events[j].qos.policy == old(events[j].qos.policy)
    {
      ghost var entry := Policies(events);
      processed := 0;
      while processed < |events|
        invariant processed <= |events|
        invariant FirstRejectedFrom(events, processed) == FirstRejected(events)
        invariant Reached(old(State()), State(), events[..processed])
        invariant QosKept(events, processed, entry, Policies(events))
      {
        ghost var before := State();
        QosOfWithin(events, processed);
        var stop := HandleNext(events, processed, entry);
        if stop {
          return;
        }
        ReachedStep(old(State()), before, State(), events, processed);
        processed := processed + 1;
      }
    }

    /** The route key a skipping loop adds for `e`: its own when it is admitted. */
    function AdmittedPublicationKey(e: MatchedEntity): set<string>
    {
      if Admitted(e) then PublicationKey(e) else {}
    }

    function AdmittedSubscriptionKey(e: MatchedEntity): set<string>
    {
      if Admitted(e) then SubscriptionKey(e) else {}
    }

    /** The route keys of the admitted discovered publications among `es`. */
    function AdmittedPublicationKeys(es: seq<MatchedEntity>): set<string>
      decreases |es|
    {
      if es == [] then {}
      else AdmittedPublicationKeys(es[..|es| - 1]) + AdmittedPublicationKey(es[|es| - 1])
    }

    /** The route keys of the admitted discovered subscriptions among `es`. */
    function AdmittedSubscriptionKeys(es: seq<MatchedEntity>): set<string>
      decreases |es|
    {
      if es == [] then {}
      else AdmittedSubscriptionKeys(es[..|es| - 1]) + AdmittedSubscriptionKey(es[|es| - 1])
    }

    /** From `s0`, a loop that skips rejected discoveries has reached `s1` after
        the events `es`. */
    ghost predicate ReachedSkipping(s0: Routes, s1: Routes, es: seq<MatchedEntity>)
    {
      && RoutesValid(s1) && Extends(s0, s1)
      && KeysAdded(s0.rdMap, s1.rdMap, AdmittedPublicationKeys(es))
      && KeysAdded(s0.wrMap, s1.wrMap, AdmittedSubscriptionKeys(es))
    }

    lemma AdmittedKeysStep(s0: Routes, s1: Routes, s2: Routes, events: seq<MatchedEntity>, p: nat)
      requires p < |events|
      requires KeysAdded(s0.rdMap, s1.rdMap, AdmittedPublicationKeys(events[..p]))
      requires KeysAdded(s0.wrMap, s1.wrMap, AdmittedSubscriptionKeys(events[..p]))
      requires KeysAdded(s1.rdMap, s2.rdMap, AdmittedPublicationKey(events[p]))
      requires KeysAdded(s1.wrMap, s2.wrMap, AdmittedSubscriptionKey(events[p]))
      ensures KeysAdded(s0.rdMap, s2.rdMap, AdmittedPublicationKeys(events[..p + 1]))
      ensures KeysAdded(s0.wrMap, s2.wrMap, AdmittedSubscriptionKeys(events[..p + 1]))
    {
      assert events[..p + 1][..p] == events[..p];
    }

    lemma SkippingStep(s0: Routes, s1: Routes, s2: Routes, events: seq<MatchedEntity>, p: nat)
      requires p < |events| && ReachedSkipping(s0, s1, events[..p])
      requires RoutesValid(s2) && Extends(s1, s2)
      requires KeysAdded(s1.rdMap, s2.rdMap, AdmittedPublicationKey(events[p]))
      requires KeysAdded(s1.wrMap, s2.wrMap, AdmittedSubscriptionKey(events[p]))
      ensures ReachedSkipping(s0, s2, events[..p + 1])
    {
      ExtendsTrans(s0, s1, s2);
      AdmittedKeysStep(s0, s1, s2, events, p);
    }

    /** A step that changes nothing loses nothing and adds no key. */
    lemma NoStep(s: Routes)
      ensures Extends(s, s) && KeysAdded(s.rdMap, s.rdMap, {}) && KeysAdded(s.wrMap, s.wrMap, {})
    {
    }

    /** The loop of `main` with `continue` in place of `break`: a discovery whose
        key is not allowed is skipped and the loop goes on with the next event. */
    method RunSkipping(events: seq<MatchedEntity>)
      requires Valid()
      modifies this, QosOfAll(events)
      ensures Valid() && Extends(old(State()), State())
      ensures KeysAdded(old(rdMap), rdMap, AdmittedPublicationKeys(events))
      ensures KeysAdded(old(wrMap), wrMap, AdmittedSubscriptionKeys(events))
    {
      for i := 0 to |events|
        invariant ReachedSkipping(old(State()), State(), events[..i])
      {
        ghost var before := State();
        QosOfWithin(events, i);
        var stop := HandleEvent(events[i]);
        if stop {
          NoStep(before);
        }
        SkippingStep(old(State()), before, State(), events, i);
      }
      TakeAll(events);
    }

    /** Before any rejection both loops add the same keys. */
    lemma {:induction false} AllAdmittedSameKeys(es: seq<MatchedEntity>)
      requires forall j :: 0 <= j < |es| ==> Admitted(es[j])
      ensures PublicationKeys(es) == AdmittedPublicationKeys(es)
      ensures SubscriptionKeys(es) == AdmittedSubscriptionKeys(es)
      decreases |es|
    {
      if es != [] {
        var n := |es| - 1;
        assert forall j :: 0 <= j < n ==> es[..n][j] == es[j];
        AllAdmittedSameKeys(es[..n]);
      }
    }

    /** A longer run of events adds at least the keys of a shorter one. */
    lemma {:induction false} AdmittedKeysGrow(es: seq<MatchedEntity>, j: nat)
      requires j <= |es|
      ensures AdmittedPublicationKeys(es[..j]) <= AdmittedPublicationKeys(es)
      ensures AdmittedSubscriptionKeys(es[..j]) <= AdmittedSubscriptionKeys(es)
      decreases |es|
    {
      if j < |es| {
        var n := |es| - 1;
        assert es[..n][..j] == es[..j];
        AdmittedKeysGrow(es[..n], j);
      } else {
        assert es[..j] == es;
      }
    }

    /** The loop as written adds a subset of the keys the skipping loop adds, and
        the same keys when no discovery is rejected. */
    lemma BreakingWithinSkipping(events: seq<MatchedEntity>)
      ensures PublicationKeys(events[..FirstRejected(events)]) <= AdmittedPublicationKeys(events)
      ensures SubscriptionKeys(events[..FirstRejected(events)]) <= AdmittedSubscriptionKeys(events)
      ensures FirstRejected(events) == |events| ==>
        PublicationKeys(events) == AdmittedPublicationKeys(events)
        && SubscriptionKeys(events) == AdmittedSubscriptionKeys(events)
    {
      var n := FirstRejected(events);
      FirstRejectedIsFirst(events);
      assert forall j :: 0 <= j < n ==> events[..n][j] == events[j];
      AllAdmittedSameKeys(events[..n]);
      AdmittedKeysGrow(events, n);
      if n == |events| {
        assert events[..n] == events;
      }
    }

    /** The `break` as written: with "s/a" rejected and "s/b" allowed, a
        publication on "a" followed by one on "b" ends the loop at the first
        event, so the allowed second one gets no route, while the skipping loop
        opens it. */
    lemma BreakDropsLaterRoute(q: QosHolder)
      requires scope == "s" && !IsAllowed(allow, "s/a") && IsAllowed(allow, "s/b")
      ensures var events := [DiscoveredPublication("a", "T", false, None, q), DiscoveredPublication("b", "T", false, None, q)];
        && FirstRejected(events) == 0
        && Admitted(events[1])
        && "s/b" !in PublicationKeys(events[..FirstRejected(events)])
        && "s/b" in AdmittedPublicationKeys(events)
    {
      var events := [DiscoveredPublication("a", "T", false, None, q), DiscoveredPublication("b", "T", false, None, q)];
      assert KeyOf(events[0]) == "s/a" && KeyOf(events[1]) == "s/b";
      assert events[..1] == [events[0]];
    }
  }
}
