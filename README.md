# zenoh-plugin-dds bridge core, modelled in Dafny

zenoh-bridge-dds connects a DDS domain to a zenoh network. It discovers the
DDS readers and writers of its domain. For each discovered topic (and each
partition) it opens a route:

- a discovered DDS **publication** gets a forwarding DDS reader, whose payloads
  go through an encoder to a zenoh resource;
- a discovered DDS **subscription** gets a forwarding DDS writer, fed by a zenoh
  subscriber task.

Routes are keyed by `scope/partition/topic` (or `scope/topic` without a
partition). An optional allow expression filters the keys.

The model has four modules, one per source file plus a shared `Option`:

- `Coders` (`coders.dfy`, src/coders.rs): the `Writer` sinks, the registry of
  configured pipelines, and `create_coder`'s first-match selection by topic
  name. It also has the identity coder, which hands each buffer unchanged to
  its writer.
- `Plugin` (`plugin.dfy`, src/lib.rs):
  - the QoS object as a mutable class;
  - the `MatchedEntity` events;
  - the discovery listener `on_data`, as a loop over at most 32 taken samples
    that sends one event per partition, or one without a partition;
  - `run_discovery`, the forwarding reader's `data_forwarder_listener` loop,
    and the two endpoint constructors.
- `Bridge` (`bridge.dfy`, src/bin/zenoh-bridge-dds.rs): the control loop of
  `main` as a class.
  - Its fields are the three route maps (`rid_map`, `rd_map`, `wr_map`) and
    logs of what it created: resources, publishers, DDS entities, spawned tasks.
  - `Valid()` is the table invariant, stated per direction:
    - every key of `rd_map` has exactly one resource, publisher and forwarding
      reader, and `rid_map` holds exactly the keys of `rd_map`;
    - every key of `wr_map` has exactly one writer and one task;
    - everything created belongs to one route.
  - Each handler is proved to keep that invariant, to lose nothing
    (`Extends`), and to add exactly the expected keys.
  - The loop `Run` is proved to add exactly the route keys of the discoveries
    before the first rejected one.
- `Seqs` and `Wrappers`: small sequence lemmas and `Option`.

The model follows the code in these places:

- **Coder selection.** The coder is chosen by the **topic** name. The type
  name is passed along but never consulted (coders.rs:102-105).
- **Reliability workaround.** It raises any finite `max_blocking_time` by one
  nanosecond whatever the reliability **kind**, so best-effort policies are
  adjusted too (zenoh-bridge-dds.rs:264-276).
- **Shared QoS object.** `on_data` creates one QoS object per sample and hands
  the same object to every partition event of that sample (lib.rs:125-175).
  The workaround changes that object in place. A second subscription route
  opened from the same sample therefore sees the bound raised twice (see
  Findings).
- **Writer names.** The spawned zenoh-to-DDS task builds its `DDSWriter` with
  the topic name as both topic and type name (zenoh-bridge-dds.rs:305-309).
- **Rejection ends the loop.** A rejected discovery `break`s out of the whole
  control loop (see Findings).

## Model

| member | source | states |
|---|---|---|
| Coders.Writer.Write | src/coders.rs:15-17 | a write appends exactly the given buffer to what the sink has received, in order |
| Coders.FirstMatch | src/coders.rs:103-107 | the result indexes a pipe listing the topic with no earlier pipe listing it, and is None exactly when no pipe lists the topic |
| Coders.Selected | src/coders.rs:102-120 | identity exactly when no pipe lists the topic; otherwise the requested direction's description of the first pipe listing it |
| Coders.SelectCoder | src/coders.rs:102-120 | the loop over the pipes returns the selection `Selected` specifies |
| Coders.FirstMatchIsFirst | src/coders.rs:103-107 | a listing pipe with no listing pipe before it is the one the search finds |
| Coders.NewSelectsIdentity | src/coders.rs:85-89 | an empty registry selects the identity coder for every topic and direction |
| Coders.EarlierPipeWins | src/coders.rs:103-115 | a pipe placed first wins when it lists the topic and is skipped when it does not |
| Coders.Coder.Encode | src/coders.rs:132-144 | the buffer is logged as encoded; the identity coder appends it unchanged to its writer |
| Coders.Coder.Decode | src/coders.rs:132-148 | the buffer is logged as decoded; the identity coder appends it unchanged to its writer |
| Coders.CreateCoder | src/coders.rs:102-120 | a fresh coder with the selected pipeline, wrapping the given writer |
| Coders.NewEncoder | src/coders.rs:125-127 | the coder selected with the pipes' encoder descriptions |
| Coders.NewDecoder | src/coders.rs:122-124 | the coder selected with the pipes' decoder descriptions |
| Coders.IdentityRoundTrip | src/coders.rs:137-149 | a payload encoded onto a zenoh writer and decoded onto a DDS writer arrives unchanged |
| Plugin.QosHolder.GetReliability | src/bin/zenoh-bridge-dds.rs:269 | returns the object's reliability policy, or none when it has none |
| Plugin.QosHolder.SetReliability | src/bin/zenoh-bridge-dds.rs:274 | only the reliability policy changes, to the given kind and bound |
| Plugin.MirroredPolicy | src/lib.rs:125-128 | a copy of the discovered QoS (same partitions and reliability) with keep-all history and local-participant loopback ignored |
| Plugin.EventFor | src/lib.rs:136-214 | the event carries the endpoint's names, the given partition, and keyless flag from key byte 15; it is a discovery iff the instance is alive and a publication iff the listener reads publications |
| Plugin.TakeCount | src/lib.rs:100-106 | one take returns all available samples, capped at MAX_SAMPLES |
| Plugin.Channel.Send | src/lib.rs:138-146 | a send appends exactly the event to the channel |
| Plugin.RunDiscovery | src/lib.rs:225-248 | two fresh readers on the publication and subscription built-in topics, flagged true and false, both sending on the same channel |
| Plugin.OnData | src/lib.rs:87-224 | takes the first min(available, 32) samples and leaves the rest; every kept sample gets a fresh QoS mirroring its own, and no two kept samples share one; the channel gains exactly the events of the taken samples, in take order |
| Plugin.OnSample | src/lib.rs:108-129 | a fresh QoS object is made exactly for a kept sample, and the channel gains exactly that sample's events |
| Plugin.SendSampleEvents | src/lib.rs:134-215 | the channel gains exactly the sample's endpoint events: one per partition in order, or one without a partition; each a discovery iff the instance is alive |
| Plugin.InvalidSampleIsSilent | src/lib.rs:108 | a sample without valid data sends nothing |
| Plugin.FilteredSampleIsSilent | src/lib.rs:117-121 | a DCPS meta topic, or an announcement by the bridge's own participant, sends nothing |
| Plugin.PartitionFanOut | src/lib.rs:134-176 | a kept sample with n partitions sends exactly n events, the k-th for the k-th partition |
| Plugin.PartitionEventsAt | src/lib.rs:134-136 | the partition loop's k-th event is the event for partition k, and there are as many events as partitions |
| Plugin.NoPartitionSingleEvent | src/lib.rs:177-215 | a kept sample without partitions sends exactly one event, with no partition |
| Plugin.BatchEventsAppend | src/lib.rs:107-217 | the events of a batch are the events of any prefix followed by those of the rest |
| Plugin.BatchEventsFromKeptSamples | src/lib.rs:107-217 | every event sent comes from a kept sample of the batch, has its names, and matches the listener's flag |
| Plugin.SampleEventsFromSample | src/lib.rs:108-215 | every event of a sample comes from that kept sample, with its names and the listener's direction |
| Plugin.SilentBatch | src/lib.rs:107-121 | a batch with no kept sample sends nothing |
| Plugin.DataForwarderListener | src/lib.rs:250-264 | drains the reader; the encoder receives exactly the payloads of the valid samples in take order; an identity encoder forwards exactly those to its writer |
| Plugin.CreateForwardingDdsReader | src/lib.rs:265-287 | a fresh reader with the given names, keyless flag and QoS, whose fresh encoder is the registry's selection for the topic and writes to a zenoh writer on the route's resource |
| Plugin.CreateForwardingDdsWriter | src/lib.rs:289-303 | a writer on the topic with the given names, keyless flag and QoS |
| Bridge.SplitKeyTail | src/bin/zenoh-bridge-dds.rs:179-182 | a key's tail reads back as the partition and topic it was built from, when neither holds a '/' |
| Bridge.RouteKeyInjective | src/bin/zenoh-bridge-dds.rs:242-245 | under that condition, equal route keys within a scope mean equal partition and topic |
| Bridge.RouteKeyCollision | src/bin/zenoh-bridge-dds.rs:179-182 | without it, topic "a" in partition "b" and topic "b/a" without partition share a key |
| Bridge.IsAllowed | src/bin/zenoh-bridge-dds.rs:133-138 | every key passes without an allow expression; with one, a key passes iff the expression matches it |
| Bridge.AdjustedReliability | src/bin/zenoh-bridge-dds.rs:264-276 | a present policy with a finite bound gets the bound plus one and the same kind; an absent policy, or an infinite bound, is unchanged |
| Bridge.AdjustedStaysInRange | src/bin/zenoh-bridge-dds.rs:155-155 | a finite bound strictly increases, never overflows DDS_INFINITE_TIME, and reaches it only from one below |
| Bridge.RepeatedAdjustment | src/bin/zenoh-bridge-dds.rs:264-276 | adjusting the same QoS object twice raises a finite bound by two |
| Bridge.ApplyReliabilityWorkaround | src/bin/zenoh-bridge-dds.rs:264-276 | the QoS object's reliability becomes its adjusted reliability, and nothing else changes |
| Bridge.WithReaderValid | src/bin/zenoh-bridge-dds.rs:191-212 | opening a publication route for a new key keeps the route tables consistent |
| Bridge.WithReaderExtends | src/bin/zenoh-bridge-dds.rs:191-212 | opening a publication route loses nothing and adds exactly its key |
| Bridge.WithWriterValid | src/bin/zenoh-bridge-dds.rs:278-316 | opening a subscription route for a new key keeps the tables consistent, with exactly one task per route |
| Bridge.WithWriterExtends | src/bin/zenoh-bridge-dds.rs:278-316 | opening a subscription route loses nothing and adds exactly its key |
| Bridge.ExtendsTrans | src/bin/zenoh-bridge-dds.rs:166-329 | losing nothing over two stretches of the loop loses nothing over both |
| Bridge.Bridge.constructor | src/bin/zenoh-bridge-dds.rs:162-165 | the loop starts with empty maps and nothing created, which is consistent |
| Bridge.Bridge.OnDiscoveredPublication | src/bin/zenoh-bridge-dds.rs:168-220 | reports whether the key is allowed; a rejected or known key changes nothing; a new key gets a resource, a publisher, and a fresh reader publishing through the selected encoder; tables stay consistent |
| Bridge.Bridge.AddReaderRoute | src/bin/zenoh-bridge-dds.rs:191-212 | declares the next resource and its publisher, then adds the forwarding reader on that resource as the next entity |
| Bridge.Bridge.OnDiscoveredSubscription | src/bin/zenoh-bridge-dds.rs:231-317 | reports whether the key is allowed; a rejected or known key changes nothing, not even the QoS; a new key gets the workaround, a writer and exactly one task; tables stay consistent |
| Bridge.Bridge.AddWriterRoute | src/bin/zenoh-bridge-dds.rs:278-316 | adds the writer with the QoS it is given as the next entity, and one task that writes through it |
| Bridge.Bridge.HandleEvent | src/bin/zenoh-bridge-dds.rs:167-328 | stops exactly on a rejected discovery; undiscoveries, rejected and known keys change nothing (for a subscription not even its QoS); a new publication key adds exactly the route of a fresh reader with the event's names, QoS and selected encoder; a new subscription key raises the QoS bound once and adds exactly the route of a writer with that QoS |
| Bridge.Bridge.FirstRejectedIsFirst | src/bin/zenoh-bridge-dds.rs:183-189 | every event before the stopping index is admitted, and the event at it is not |
| Bridge.Bridge.HandleFramed | src/bin/zenoh-bridge-dds.rs:167-328 | one event handled as `HandleEvent` does; the QoS objects of other events, and the QoS of a rejected subscription, keep their policies |
| Bridge.Bridge.HandleNext | src/bin/zenoh-bridge-dds.rs:166-329 | one pass of the loop: stops exactly on a rejected discovery, adds exactly that event's key, and QoS objects first carried by later events keep their policies |
| Bridge.Bridge.QosKeptStep | src/bin/zenoh-bridge-dds.rs:166-329 | the QoS objects that only later events carry keep the policies they had when the loop started, from one pass to the next |
| Bridge.Bridge.Run | src/bin/zenoh-bridge-dds.rs:166-329 | stops at the first rejected discovery; the tables stay consistent, nothing is lost, and exactly the keys of the discoveries before it are added; a subscription QoS object that no handled event carried keeps its policy |
| Bridge.Bridge.BreakDropsLaterRoute | src/bin/zenoh-bridge-dds.rs:247-250 | a rejected publication ends the loop, so an allowed publication after it gets no route |
| Bridge.Bridge.RunSkipping | src/bin/zenoh-bridge-dds.rs:183-189 | with `continue`, the tables stay consistent and exactly the keys of all admitted discoveries are added |
| Bridge.Bridge.BreakingWithinSkipping | src/bin/zenoh-bridge-dds.rs:183-189 | the loop as written adds a subset of the skipping loop's keys, and the same keys when nothing is rejected |
| Bridge.Bridge.SubscribeTwoPartitions | src/bin/zenoh-bridge-dds.rs:264-276 | two new, admitted partitions of one subscription sharing a QoS object with a finite bound: the first writer gets the bound plus one, the second the bound plus two |
| Bridge.Bridge.OnDiscoveredSubscriptionCopying | src/bin/zenoh-bridge-dds.rs:231-317 | as the subscription handler, but the new writer gets the discovered QoS adjusted once and the shared QoS object is left as it was |
| Bridge.Bridge.SubscribeTwoPartitionsCopying | src/bin/zenoh-bridge-dds.rs:264-276 | with the workaround applied to copies, both writers get the discovered bound plus one |

## Findings

| source | as written | input that shows it | evidently intended | confidence | as-written member | corrected member |
|---|---|---|---|---|---|---|
| src/bin/zenoh-bridge-dds.rs:183-189 (and 247-250) | a discovery whose key the allow expression rejects `break`s out of `while let Ok(me) = rx.recv()`, ending the whole control loop | scope "s", an allow expression matching "s/b" but not "s/a", then publications on "a" and "b": "b" never gets a route | skip the rejected discovery (`continue`), as the "Ignoring ..." log message says, and keep serving later events | high; not executed | Bridge.Bridge.Run, Bridge.Bridge.BreakDropsLaterRoute | Bridge.Bridge.RunSkipping, Bridge.Bridge.BreakingWithinSkipping |
| src/bin/zenoh-bridge-dds.rs:264-276 (with src/lib.rs:125-175) | the workaround raises `max_blocking_time` on the QoS object itself, and every partition event of one discovery sample carries that same object | a subscription in partitions "p1" and "p2" with a reliable bound of 5ns on a bridge with no allow expression: the writer for "p1" gets 6ns, the writer for "p2" 7ns | add one nanosecond to the discovered bound for each writer, as the comment says, by adjusting a copy | medium; not executed | Bridge.Bridge.SubscribeTwoPartitions, Bridge.RepeatedAdjustment | Bridge.Bridge.SubscribeTwoPartitionsCopying, Bridge.Bridge.OnDiscoveredSubscriptionCopying |

## Left out

- Command-line parsing (`parse_args`), the zenoh configuration, and opening the zenoh session are left out. The scope, the allow expression and the participant are constructor parameters.
- The allow regular expression is left out. It is an abstract predicate `string -> bool`, and `IsAllowed` holds exactly when it matches.
- `Coders::from_config` (YAML loading) is left out. The registry is given as its list of pipes, with their topics and both element lists.
- The GStreamer pipeline coder (src/gst_coder.rs) is left out. `Coder.Encode` and `Coder.Decode` state the identity coder's behaviour only; for a pipeline coder they record the buffer and leave its output unmodelled.
- Network and DDS writes are left out: the zenoh `write`, `dds_writecdr`, serdata creation and release. A `Writer` only records the buffers it receives.
- Resource declaration, publisher declaration and entity creation return fresh identifiers. These are modelled as indices in append-only logs.
- The body of the spawned zenoh-to-DDS task is not modelled. It declares a subscriber, then runs a decode loop whose coder comes from `new_encoder(&type_name, writer, false)`, a call matching no signature in src/coders.rs. The model records the task's key, type name and `DDSWriter`.
- `main` calls `create_forwarding_dds_reader` with seven arguments, but src/lib.rs declares it with eight, ending in `coders`. The model follows the library and passes the bridge's registry.
- Concurrency is left out. The listeners run on DDS threads and the channel blocks, while the model handles events one at a time in channel order. `OnData` and `DataForwarderListener` run over a given cache of samples.
- Logging, `print_qos_partitions`, `dds_return_loan`, the release of QoS objects, and `unwrap` panics on invalid UTF-8 are left out.
- Plugin.OnData: on a kept sample whose instance is not alive, with or without partitions, the QoS object the source creates goes unused (src/lib.rs:159-175 and 195-214). The model still creates it, and does not model its leak.
- Bridge.Bridge.OnDiscoveredSubscriptionCopying: the corrected handler is not wired into `HandleEvent` or `Run`, which model the loop as written.
- Plugin.DataForwarderListener: the zenoh key and session in the listener argument are not modelled. The encoder already writes to the route's resource.
