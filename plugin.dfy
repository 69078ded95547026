/** The DDS side of the bridge (src/lib.rs): the discovery listener that turns
    built-in publication/subscription samples into `MatchedEntity` events, and
    the forwarding reader whose data listener hands every valid sample's
    payload to the route's encoder. */
module Plugin {
  import opened Wrappers
  import opened Coders
  import opened Seqs

  /** `MAX_SAMPLES`: the most discovery samples one `on_data` call takes. */
  const MaxSamples: nat := 32

  /** `dds_duration_t` and other signed 64-bit quantities. */
  newtype int64 = x: int | -0x8000_0000_0000_0000 <= x < 0x8000_0000_0000_0000

  /** `dds_instance_handle_t`. */
  newtype uint64 = x: int | 0 <= x < 0x1_0000_0000_0000_0000

  type InstanceHandle = uint64

  /** The 16-byte key (GUID) of a built-in endpoint sample. */
  type Guid = s: seq<uint8> | |s| == 16 witness seq(16, _ => 0 as uint8)

  datatype ReliabilityKind = BestEffort | Reliable

  /** The reliability policy: kind and `max_blocking_time` in nanoseconds. */
  datatype Reliability = Reliability(kind: ReliabilityKind, maxBlockingTime: int64)

  /** The part of a DDS QoS object the bridge reads or writes. `reliability` is
      `None` when the object carries no reliability policy (`dds_qget_reliability`
      fails); an empty `partitions` stands for "no partition policy". */
  datatype Policy = Policy(
    partitions: seq<string>,
    reliability: Option<Reliability>,
    historyKeepAll: bool,
    ignoreLocalParticipant: bool)

  /** A QoS object (`QosHolder` over `dds_qos_t`), mutable in place. */
  class QosHolder {
    var policy: Policy

    constructor (policy: Policy)
      ensures this.policy == policy
    {
      this.policy := policy;
    }

    /** `dds_qget_reliability`. */
    method GetReliability() returns (r: Option<Reliability>)
      ensures r == policy.reliability
    {
      r := policy.reliability;
    }

    /** `dds_qset_reliability`: only the reliability policy changes. */
    method SetReliability(kind: ReliabilityKind, maxBlockingTime: int64)
      modifies this
      ensures policy == old(policy).(reliability := Some(Reliability(kind, maxBlockingTime)))
    {
      policy := policy.(reliability := Some(Reliability(kind, maxBlockingTime)));
    }
  }

  /** The QoS a discovered endpoint is mirrored with: a copy of the discovered
      policy with history forced to keep-all and local-participant loopback ignored. */
  function MirroredPolicy(discovered: Policy): (p: Policy)
    ensures p.partitions == discovered.partitions && p.reliability == discovered.reliability
    ensures p.historyKeepAll && p.ignoreLocalParticipant
  {
    discovered.(historyKeepAll := true, ignoreLocalParticipant := true)
  }

  /** The events the discovery listener sends to the bridge's control loop. */
  datatype MatchedEntity =
    | DiscoveredPublication(topicName: string, typeName: string, keyless: bool, partition: Option<string>, qos: QosHolder)
    | UndiscoveredPublication(topicName: string, typeName: string, partition: Option<string>)
    | DiscoveredSubscription(topicName: string, typeName: string, keyless: bool, partition: Option<string>, qos: QosHolder)
    | UndiscoveredSubscription(topicName: string, typeName: string, partition: Option<string>)
  {
    predicate Discovered() {
      DiscoveredPublication? || DiscoveredSubscription?
    }

    predicate Publication() {
      DiscoveredPublication? || UndiscoveredPublication?
    }
  }

  datatype InstanceState = Alive | NotAliveDisposed | NotAliveNoWriters

  /** `dds_sample_info_t`: only the fields the listeners read. */
  datatype SampleInfo = SampleInfo(validData: bool, instanceState: InstanceState)

  /** `dds_builtintopic_endpoint_t`: one discovered reader or writer. */
  datatype BuiltinEndpoint = BuiltinEndpoint(
    key: Guid,
    participantInstanceHandle: InstanceHandle,
    topicName: string,
    typeName: string,
    qos: Policy)

  /** One sample taken from a built-in discovery topic. */
  datatype DiscoverySample = DiscoverySample(info: SampleInfo, data: BuiltinEndpoint)

  /** An endpoint is keyless when byte 15 of its key is 3 or 4. */
  predicate IsKeyless(key: Guid)
  {
    key[15] == 3 || key[15] == 4
  }

  /** `str::contains`: `sub` occurs somewhere in `s`. */
  predicate Contains(s: string, sub: string)
    decreases |s|
  {
    if sub <= s then true
    else if s == [] then false
    else Contains(s[1..], sub)
  }

  /** Built-in (meta) topics carry "DCPS" in their name. */
  predicate IsMetaTopic(topicName: string)
  {
    Contains(topicName, "DCPS")
  }

  /** A taken sample yields events when it holds valid data, is not about a meta
      topic and was not announced by the bridge's own participant. */
  predicate Kept(s: DiscoverySample, localHandle: InstanceHandle)
  {
    && s.info.validData
    && !IsMetaTopic(s.data.topicName)
    && s.data.participantInstanceHandle != localHandle
  }

  /** The one event `on_data` sends for an endpoint and one partition choice:
      the listener flag picks publication or subscription, the instance state
      picks discovered or undiscovered. */
  function EventFor(d: BuiltinEndpoint, isPublication: bool, alive: bool, qos: QosHolder, partition: Option<string>)
    : (e: MatchedEntity)
    ensures e.topicName == d.topicName && e.typeName == d.typeName && e.partition == partition
    ensures e.Discovered() <==> alive
    ensures e.Publication() <==> isPublication
    ensures e.Discovered() ==> e.keyless == IsKeyless(d.key) && e.qos == qos
  {
    var keyless := IsKeyless(d.key);
    if alive then
      if isPublication then DiscoveredPublication(d.topicName, d.typeName, keyless, partition, qos)
      else DiscoveredSubscription(d.topicName, d.typeName, keyless, partition, qos)
    else if isPublication then UndiscoveredPublication(d.topicName, d.typeName, partition)
    else UndiscoveredSubscription(d.topicName, d.typeName, partition)
  }

  /** The events of an endpoint for the partitions `ps`: one each, in order. */
  function PartitionEvents(d: BuiltinEndpoint, isPublication: bool, alive: bool, qos: QosHolder, ps: seq<string>)
    : seq<MatchedEntity>
    decreases |ps|
  {
    if ps == [] then []
    else
      var n := |ps| - 1;
      PartitionEvents(d, isPublication, alive, qos, ps[..n]) + [EventFor(d, isPublication, alive, qos, Some(ps[n]))]
  }

  /** The events the partition loop sends for a sample it handles: one per
      partition when it has partitions, else a single event without partition.
      All of them share the sample's one QoS object `qos`. */
  function EndpointEvents(s: DiscoverySample, isPublication: bool, qos: QosHolder): seq<MatchedEntity>
  {
    var alive := s.info.instanceState == Alive;
    var ps := s.data.qos.partitions;
    if |ps| > 0 then PartitionEvents(s.data, isPublication, alive, qos, ps)
    else [EventFor(s.data, isPublication, alive, qos, None)]
  }

  /** The events of one taken sample: none when it is not kept, else its
      endpoint events. A null `qos` stands for a sample that got no QoS object,
      which `HoldersFor` rules out for kept samples. */
  function SampleEvents(s: DiscoverySample, isPublication: bool, localHandle: InstanceHandle, qos: QosHolder?)
    : seq<MatchedEntity>
  {
    if !Kept(s, localHandle) || qos == null then [] else EndpointEvents(s, isPublication, qos)
  }

  /** The QoS objects of a batch line up with its samples, and every kept sample has one. */
  ghost predicate HoldersFor(samples: seq<DiscoverySample>, localHandle: InstanceHandle, holders: seq<QosHolder?>)
  {
    && |holders| == |samples|
    && forall i :: 0 <= i < |samples| && Kept(samples[i], localHandle) ==> holders[i] != null
  }

  /** The events of a batch of taken samples, sample after sample in take order. */
  ghost function BatchEvents(
    samples: seq<DiscoverySample>, isPublication: bool, localHandle: InstanceHandle, holders: seq<QosHolder?>)
    : seq<MatchedEntity>
    requires |holders| == |samples|
    decreases |samples|
  {
    if samples == [] then []
    else
      var n := |samples| - 1;
      BatchEvents(samples[..n], isPublication, localHandle, holders[..n])
        + SampleEvents(samples[n], isPublication, localHandle, holders[n])
  }

  /** `dds_take` with a buffer of `MaxSamples`: how many of `available` samples are taken. */
  function TakeCount(available: nat): (n: nat)
    ensures n <= MaxSamples && n <= available
    ensures n == available || n == MaxSamples
  {
    if available < MaxSamples then available else MaxSamples
  }

  /** The channel (`Sender<MatchedEntity>`) from the discovery listeners to the
      control loop, as the ordered sequence of events sent so far. */
  class Channel {
    var events: seq<MatchedEntity>

    constructor ()
      ensures events == []
    {
      events := [];
    }

    method Send(e: MatchedEntity)
      modifies this
      ensures events == old(events) + [e]
    {
      events := events + [e];
    }
  }

  datatype BuiltinTopic = DcpsPublication | DcpsSubscription

  /** A reader on a built-in discovery topic with its listener argument: the flag
      saying whether it reads publications, and the channel to send on.
      `cache` holds the samples not yet taken. */
  class DiscoveryReader {
    const topic: BuiltinTopic
    const isPublication: bool
    const tx: Channel
    const participantHandle: InstanceHandle
    var cache: seq<DiscoverySample>

    constructor (topic: BuiltinTopic, isPublication: bool, tx: Channel, participantHandle: InstanceHandle)
      ensures this.topic == topic && this.isPublication == isPublication && this.tx == tx
      ensures this.participantHandle == participantHandle && cache == []
    {
      this.topic := topic;
      this.isPublication := isPublication;
      this.tx := tx;
      this.participantHandle := participantHandle;
      cache := [];
    }
  }

  /** `run_discovery`: a reader on the publication topic whose listener flag is
      true and a reader on the subscription topic whose flag is false, both
      sending on `tx`. */
  method RunDiscovery(participantHandle: InstanceHandle, tx: Channel)
    returns (publications: DiscoveryReader, subscriptions: DiscoveryReader)
    ensures fresh(publications) && fresh(subscriptions)
    ensures publications.topic == DcpsPublication && publications.isPublication
    ensures subscriptions.topic == DcpsSubscription && !subscriptions.isPublication
    ensures publications.tx == tx && subscriptions.tx == tx
    ensures publications.participantHandle == participantHandle == subscriptions.participantHandle
    ensures publications.cache == [] && subscriptions.cache == []
  {
    publications := new DiscoveryReader(DcpsPublication, true, tx, participantHandle);
    subscriptions := new DiscoveryReader(DcpsSubscription, false, tx, participantHandle);
  }

  /** `on_data`: takes at most `MaxSamples` samples and sends the events of each
      kept sample. One QoS object is made per kept sample; `holders` names them
      (null for samples that were dropped). */
  method OnData(dr: DiscoveryReader) returns (ghost taken: seq<DiscoverySample>, ghost holders: seq<QosHolder?>)
    modifies dr, dr.tx
    ensures taken == old(dr.cache)[..TakeCount(|old(dr.cache)|)]
    ensures dr.cache == old(dr.cache)[|taken|..]
    ensures HoldersFor(taken, dr.participantHandle, holders)
    ensures forall i :: 0 <= i < |taken| && holders[i] != null ==>
      fresh(holders[i]) && holders[i].policy == MirroredPolicy(taken[i].data.qos)
    ensures forall a, b :: 0 <= a < b < |holders| && holders[a] != null && holders[b] != null ==> holders[a] != holders[b]
    ensures dr.tx.events == old(dr.tx.events) + BatchEvents(taken, dr.isPublication, dr.participantHandle, holders)
  {
    var tx := dr.tx;
    var localHandle := dr.participantHandle;
    var n := TakeCount(|dr.cache|);
    var samples := dr.cache[..n];
    dr.cache := dr.cache[n..];
    taken, holders := samples, [];
    for i := 0 to n
      invariant |holders| == i
      invariant HoldersFor(samples[..i], localHandle, holders)
      invariant forall j :: 0 <= j < i && holders[j] != null ==>
        fresh(holders[j]) && holders[j].policy == MirroredPolicy(samples[j].data.qos)
      invariant forall a, b :: 0 <= a < b < i && holders[a] != null && holders[b] != null ==> holders[a] != holders[b]
      invariant tx.events == old(tx.events) + BatchEvents(samples[..i], dr.isPublication, localHandle, holders)
      invariant dr.cache == old(dr.cache)[n..]
    {
      var s := samples[i];
      var holder := OnSample(s, dr.isPublication, localHandle, tx);
      BatchEventsSnoc(samples[..i], s, dr.isPublication, localHandle, holders, holder);
      ConcatAssoc(old(tx.events), BatchEvents(samples[..i], dr.isPublication, localHandle, holders),
        SampleEvents(s, dr.isPublication, localHandle, holder));
      HoldersForSnoc(samples[..i], s, localHandle, holders, holder);
      TakeSnoc(samples, i);
      ghost var prev := holders;
      holders := holders + [holder];
      forall j | 0 <= j < i + 1 && holders[j] != null
        ensures fresh(holders[j]) && holders[j].policy == MirroredPolicy(samples[j].data.qos)
      {
        if j < i {
          assert holders[j] == prev[j];
        }
      }
    }
    TakeAll(samples);
  }

  /** The body of `on_data`'s loop for one taken sample: a dropped sample sends
      nothing; a kept one gets a fresh QoS object and sends its events. */
  method OnSample(s: DiscoverySample, isPublication: bool, localHandle: InstanceHandle, tx: Channel)
    returns (holder: QosHolder?)
    modifies tx
    ensures Kept(s, localHandle) <==> holder != null
    ensures holder != null ==> fresh(holder) && holder.policy == MirroredPolicy(s.data.qos)
    ensures tx.events == old(tx.events) + SampleEvents(s, isPublication, localHandle, holder)
  {
    holder := null;
    if s.info.validData {
      if IsMetaTopic(s.data.topicName) || s.data.participantInstanceHandle == localHandle {
        return;
      }
      var qos := new QosHolder(MirroredPolicy(s.data.qos));
      SendSampleEvents(s, isPublication, qos, tx);
      holder := qos;
    }
  }

  /** The inner loop of `on_data` for one kept sample: an event per partition,
      or one event without partition. */
  method SendSampleEvents(s: DiscoverySample, isPublication: bool, qos: QosHolder, tx: Channel)
    modifies tx
    ensures tx.events == old(tx.events) + EndpointEvents(s, isPublication, qos)
  {
    var alive := s.info.instanceState == Alive;
    var ps := s.data.qos.partitions;
    if |ps| > 0 {
      for k := 0 to |ps|
        invariant tx.events == old(tx.events) + PartitionEvents(s.data, isPublication, alive, qos, ps[..k])
      {
        tx.Send(EventFor(s.data, isPublication, alive, qos, Some(ps[k])));
        assert ps[..k + 1][..k] == ps[..k];
      }
      assert ps[..|ps|] == ps;
    } else {
      tx.Send(EventFor(s.data, isPublication, alive, qos, None));
    }
  }

  /** Taking one more sample appends its events to those of the batch. */
  lemma BatchEventsSnoc(
    samples: seq<DiscoverySample>, s: DiscoverySample, isPublication: bool, localHandle: InstanceHandle,
    holders: seq<QosHolder?>, holder: QosHolder?)
    requires |holders| == |samples|
    ensures BatchEvents(samples + [s], isPublication, localHandle, holders + [holder])
         == BatchEvents(samples, isPublication, localHandle, holders) + SampleEvents(s, isPublication, localHandle, holder)
  {
    assert (samples + [s])[..|samples|] == samples;
    assert (holders + [holder])[..|holders|] == holders;
  }

  /** One more sample with its QoS object keeps every kept sample provided for. */
  lemma HoldersForSnoc(
    samples: seq<DiscoverySample>, s: DiscoverySample, localHandle: InstanceHandle,
    holders: seq<QosHolder?>, holder: QosHolder?)
    requires HoldersFor(samples, localHandle, holders)
    requires Kept(s, localHandle) ==> holder != null
    ensures HoldersFor(samples + [s], localHandle, holders + [holder])
  {
    forall i | 0 <= i < |samples| + 1 && Kept((samples + [s])[i], localHandle)
      ensures (holders + [holder])[i] != null
    {
      if i < |samples| {
        assert (samples + [s])[i] == samples[i];
        assert (holders + [holder])[i] == holders[i];
      }
    }
  }

  /** A sample without valid data yields no event. */
  lemma InvalidSampleIsSilent(s: DiscoverySample, isPublication: bool, localHandle: InstanceHandle, qos: QosHolder?)
    requires !s.info.validData
    ensures SampleEvents(s, isPublication, localHandle, qos) == []
  {
  }

  /** Announcements of meta topics and of the bridge's own participant yield no event. */
  lemma FilteredSampleIsSilent(s: DiscoverySample, isPublication: bool, localHandle: InstanceHandle, qos: QosHolder?)
    requires IsMetaTopic(s.data.topicName) || s.data.participantInstanceHandle == localHandle
    ensures SampleEvents(s, isPublication, localHandle, qos) == []
  {
  }

  /** A kept sample with n > 0 partitions yields exactly n events, the k-th for
      the k-th partition, otherwise identical. */
  lemma PartitionFanOut(s: DiscoverySample, isPublication: bool, localHandle: InstanceHandle, qos: QosHolder)
    requires Kept(s, localHandle) && |s.data.qos.partitions| > 0
    ensures var es := SampleEvents(s, isPublication, localHandle, qos);
      && |es| == |s.data.qos.partitions|
      && forall k :: 0 <= k < |es| ==>
           es[k] == EventFor(s.data, isPublication, s.info.instanceState == Alive, qos, Some(s.data.qos.partitions[k]))
  {
    PartitionEventsAt(s.data, isPublication, s.info.instanceState == Alive, qos, s.data.qos.partitions);
  }

  /** The k-th partition event is the event for the k-th partition. */
  lemma {:induction false} PartitionEventsAt(
    d: BuiltinEndpoint, isPublication: bool, alive: bool, qos: QosHolder, ps: seq<string>)
    ensures |PartitionEvents(d, isPublication, alive, qos, ps)| == |ps|
    ensures forall k :: 0 <= k < |ps| ==>
      PartitionEvents(d, isPublication, alive, qos, ps)[k] == EventFor(d, isPublication, alive, qos, Some(ps[k]))
    decreases |ps|
  {
    if ps != [] {
      var n := |ps| - 1;
      PartitionEventsAt(d, isPublication, alive, qos, ps[..n]);
      forall k | 0 <= k < n
        ensures PartitionEvents(d, isPublication, alive, qos, ps)[k] == EventFor(d, isPublication, alive, qos, Some(ps[k]))
      {
        assert ps[..n][k] == ps[k];
      }
    }
  }

  /** A kept sample without partitions yields exactly one event, with no partition. */
  lemma NoPartitionSingleEvent(s: DiscoverySample, isPublication: bool, localHandle: InstanceHandle, qos: QosHolder)
    requires Kept(s, localHandle) && |s.data.qos.partitions| == 0
    ensures SampleEvents(s, isPublication, localHandle, qos)
         == [EventFor(s.data, isPublication, s.info.instanceState == Alive, qos, None)]
  {
  }

  /** The events of a batch split along any split of the batch: samples are
      handled one after the other, in take order. */
  lemma {:induction false} BatchEventsAppend(
    a: seq<DiscoverySample>, b: seq<DiscoverySample>, isPublication: bool, localHandle: InstanceHandle,
    ha: seq<QosHolder?>, hb: seq<QosHolder?>)
    requires |ha| == |a| && |hb| == |b|
    ensures BatchEvents(a + b, isPublication, localHandle, ha + hb)
         == BatchEvents(a, isPublication, localHandle, ha) + BatchEvents(b, isPublication, localHandle, hb)
    decreases |b|
  {
    if b == [] {
      assert a + b == a && ha + hb == ha;
    } else {
      var n := |b| - 1;
      var b', hb' := b[..n], hb[..n];
      SplitLast(a, b);
      SplitLast(ha, hb);
      BatchEventsAppend(a, b', isPublication, localHandle, ha, hb');
      BatchEventsSnoc(a + b', b[n], isPublication, localHandle, ha + hb', hb[n]);
      BatchEventsSnoc(b', b[n], isPublication, localHandle, hb', hb[n]);
      ConcatAssoc(BatchEvents(a, isPublication, localHandle, ha),
        BatchEvents(b', isPublication, localHandle, hb'), SampleEvents(b[n], isPublication, localHandle, hb[n]));
    }
  }

  /** Every event of a batch comes from a kept sample of the batch, carries that
      sample's topic and type names, and is a publication event exactly when the
      listener reads publications. */
  lemma {:induction false} BatchEventsFromKeptSamples(
    samples: seq<DiscoverySample>, isPublication: bool, localHandle: InstanceHandle, holders: seq<QosHolder?>)
    requires |holders| == |samples|
    ensures forall e :: e in BatchEvents(samples, isPublication, localHandle, holders) ==>
      && (e.Publication() <==> isPublication)
      && exists i :: 0 <= i < |samples| && Kept(samples[i], localHandle)
           && e.topicName == samples[i].data.topicName && e.typeName == samples[i].data.typeName
    decreases |samples|
  {
    if samples != [] {
      var n := |samples| - 1;
      var prefix := BatchEvents(samples[..n], isPublication, localHandle, holders[..n]);
      var last := SampleEvents(samples[n], isPublication, localHandle, holders[n]);
      BatchEventsFromKeptSamples(samples[..n], isPublication, localHandle, holders[..n]);
      SampleEventsFromSample(samples[n], isPublication, localHandle, holders[n]);
      assert BatchEvents(samples, isPublication, localHandle, holders) == prefix + last;
      forall e: MatchedEntity | e in prefix + last
        ensures (e.Publication() <==> isPublication)
        ensures exists i :: (0 <= i < |samples| && Kept(samples[i], localHandle)
           && e.topicName == samples[i].data.topicName && e.typeName == samples[i].data.typeName)
      {
        if e in prefix {
          var i :| 0 <= i < n && Kept(samples[..n][i], localHandle)
             && e.topicName == samples[..n][i].data.topicName && e.typeName == samples[..n][i].data.typeName;
          assert samples[..n][i] == samples[i];
        } else {
          assert e in last;
          assert Kept(samples[n], localHandle) && e.topicName == samples[n].data.topicName;
        }
      }
    }
  }

  /** Every event of a sample comes from that sample, which is kept. */
  lemma SampleEventsFromSample(s: DiscoverySample, isPublication: bool, localHandle: InstanceHandle, qos: QosHolder?)
    ensures forall e :: e in SampleEvents(s, isPublication, localHandle, qos) ==>
      && Kept(s, localHandle)
      && (e.Publication() <==> isPublication)
      && e.topicName == s.data.topicName && e.typeName == s.data.typeName
  {
    if Kept(s, localHandle) && qos != null && |s.data.qos.partitions| > 0 {
      PartitionEventsAt(s.data, isPublication, s.info.instanceState == Alive, qos, s.data.qos.partitions);
    }
  }

  /** A batch in which no sample is kept sends nothing. */
  lemma {:induction false} SilentBatch(
    samples: seq<DiscoverySample>, isPublication: bool, localHandle: InstanceHandle, holders: seq<QosHolder?>)
    requires |holders| == |samples|
    requires forall i :: 0 <= i < |samples| ==> !Kept(samples[i], localHandle)
    ensures BatchEvents(samples, isPublication, localHandle, holders) == []
    decreases |samples|
  {
    if samples != [] {
      var n := |samples| - 1;
      SilentBatch(samples[..n], isPublication, localHandle, holders[..n]);
    }
  }

  /** One sample taken by the forwarding reader: the raw serialized payload. */
  datatype BlobSample = BlobSample(validData: bool, payload: Bytes)

  /** The payloads of the valid samples, in order. */
  function ValidPayloads(samples: seq<BlobSample>): seq<Bytes>
    decreases |samples|
  {
    if samples == [] then []
    else
      var n := |samples| - 1;
      ValidPayloads(samples[..n]) + (if samples[n].validData then [samples[n].payload] else [])
  }

  /** A DDS reader made by `create_forwarding_dds_reader`: bound to a blob topic,
      with a listener holding the zenoh key and the route's encoder. `cache`
      holds the samples not yet taken. */
  class ForwardingReader {
    const topicName: string
    const typeName: string
    const keyless: bool
    const qos: Policy
    const zKey: ResourceId
    const encoder: Coder
    var cache: seq<BlobSample>

    constructor (topicName: string, typeName: string, keyless: bool, qos: Policy, zKey: ResourceId, encoder: Coder)
      ensures this.topicName == topicName && this.typeName == typeName && this.keyless == keyless
      ensures this.qos == qos && this.zKey == zKey && this.encoder == encoder && cache == []
    {
      this.topicName, this.typeName, this.keyless := topicName, typeName, keyless;
      this.qos, this.zKey, this.encoder := qos, zKey, encoder;
      cache := [];
    }
  }

  /** `data_forwarder_listener`: takes samples one at a time until none is left and
      calls `encode` with the payload of each valid one, in take order. */
  method DataForwarderListener(dr: ForwardingReader)
    modifies dr, dr.encoder, dr.encoder.writer
    ensures dr.cache == []
    ensures dr.encoder.encoded == old(dr.encoder.encoded) + ValidPayloads(old(dr.cache))
    ensures dr.encoder.decoded == old(dr.encoder.decoded)
    ensures dr.encoder.selection.Identity? ==>
      dr.encoder.writer.written == old(dr.encoder.writer.written) + ValidPayloads(old(dr.cache))
  {
    ghost var consumed: seq<BlobSample> := [];
    while |dr.cache| > 0
      invariant old(dr.cache) == consumed + dr.cache
      invariant dr.encoder.encoded == old(dr.encoder.encoded) + ValidPayloads(consumed)
      invariant dr.encoder.decoded == old(dr.encoder.decoded)
      invariant dr.encoder.selection.Identity? ==>
        dr.encoder.writer.written == old(dr.encoder.writer.written) + ValidPayloads(consumed)
      decreases |dr.cache|
    {
      var s := dr.cache[0];
      dr.cache := dr.cache[1..];
      if s.validData {
        dr.encoder.Encode(s.payload);
      }
      assert (consumed + [s])[..|consumed|] == consumed;
      consumed := consumed + [s];
    }
    assert consumed == old(dr.cache);
  }

  /** `create_forwarding_dds_reader`: a zenoh writer on `zKey`, the encoder the
      registry selects for the topic, and a reader on the topic with the given QoS. */
  method CreateForwardingDdsReader(
    coders: Coders, topicName: string, typeName: string, keyless: bool, qos: QosHolder, zKey: ResourceId)
    returns (r: ForwardingReader)
    ensures fresh(r) && fresh(r.encoder) && fresh(r.encoder.writer)
    ensures r.topicName == topicName && r.typeName == typeName && r.keyless == keyless
    ensures r.qos == qos.policy && r.zKey == zKey && r.cache == []
    ensures r.encoder.selection == Selected(coders, topicName, true)
    ensures r.encoder.writer.sink == ZenohSink(zKey) && r.encoder.writer.written == []
    ensures r.encoder.encoded == [] && r.encoder.decoded == []
  {
    var writer := new Writer(ZenohSink(zKey));
    var encoder := NewEncoder(coders, topicName, typeName, writer);
    r := new ForwardingReader(topicName, typeName, keyless, qos.policy, zKey, encoder);
  }

  /** A DDS writer made by `create_forwarding_dds_writer`. */
  datatype DdsWriterEntity = DdsWriterEntity(topicName: string, typeName: string, keyless: bool, qos: Policy)

  /** `create_forwarding_dds_writer`: a writer on the blob topic of the given
      names with a copy of the given QoS. */
  method CreateForwardingDdsWriter(topicName: string, typeName: string, keyless: bool, qos: QosHolder)
    returns (w: DdsWriterEntity)
    ensures w.topicName == topicName && w.typeName == typeName && w.keyless == keyless && w.qos == qos.policy
  {
    w := DdsWriterEntity(topicName, typeName, keyless, qos.policy);
  }
}
