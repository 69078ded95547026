/** The transform stage between the two buses (src/coders.rs): the `Writer`
    sinks, the registry of configured pipelines (`Coders`), the first-match
    selection of a coder by topic name, and the identity coder. */
module Coders {
  import opened Wrappers

  newtype uint8 = x: int | 0 <= x < 0x100

  /** A payload as it travels between the two systems. */
  type Bytes = seq<uint8>

  /** Identifier of a declared zenoh resource (`ResourceId`). */
  type ResourceId = nat

  /** Handle of a DDS entity (`dds_entity_t`); the model hands out fresh ones. */
  type Entity = nat

  /** Where a `Writer` delivers its buffers: a zenoh resource (`ZenohWriter`)
      or a DDS data writer (`DDSWriter`, with its topic and type names). */
  datatype Sink =
    | ZenohSink(key: ResourceId)
    | DdsSink(participant: Entity, writer: Entity, topicName: string, typeName: string, keyless: bool)

  /** A `Writer`: the final step of a route. The network or DDS write itself is
      not modelled; the writer records every buffer handed to it, in order. */
  class Writer {
    const sink: Sink
    var written: seq<Bytes>

    constructor (sink: Sink)
      ensures this.sink == sink && written == []
    {
      this.sink := sink;
      written := [];
    }

    method Write(buf: Bytes)
      modifies this
      ensures written == old(written) + [buf]
    {
      written := written + [buf];
    }
  }

  /** One configured pipeline: the topic names it applies to and the element
      lists of its encoding and decoding GStreamer pipelines. */
  datatype Pipe = Pipe(topics: seq<string>, encoder: seq<string>, decoder: seq<string>)

  /** The registry (`Coders`): the configured pipes, in configuration order. */
  datatype Coders = Coders(pipes: seq<Pipe>)

  /** `Coders::new()`: a registry without pipes. */
  function New(): (c: Coders)
    ensures |c.pipes| == 0
  {
    Coders([])
  }

  /** The coder a selection yields: the identity coder, or a pipeline coder built
      from a pipe's description in the given direction. */
  datatype Selection = Identity | Pipeline(description: seq<string>, encoder: bool)

  /** Index of the first pipe whose topic list contains `topicName`. */
  function FirstMatch(pipes: seq<Pipe>, topicName: string): (r: Option<nat>)
    ensures r.Some? ==> r.value < |pipes| && topicName in pipes[r.value].topics
    ensures r.Some? ==> forall j :: 0 <= j < r.value ==> topicName !in pipes[j].topics
    ensures r.None? <==> forall j :: 0 <= j < |pipes| ==> topicName !in pipes[j].topics
  {
    if pipes == [] then None
    else if topicName in pipes[0].topics then Some(0)
    else
      match FirstMatch(pipes[1..], topicName)
      case Some(i) => Some(i + 1)
      case None => None
  }

  /** The description of `pipe` for one direction: `encoder` or `decoder`. */
  function Description(pipe: Pipe, encoder: bool): seq<string>
  {
    if encoder then pipe.encoder else pipe.decoder
  }

  /** What `create_coder` selects: the pipeline of the first pipe listing the topic,
      in the requested direction, or the identity coder when no pipe lists it. */
  function Selected(coders: Coders, topicName: string, encoder: bool): (s: Selection)
    ensures s.Identity? <==> forall j :: 0 <= j < |coders.pipes| ==> topicName !in coders.pipes[j].topics
    ensures s.Pipeline? ==> s.encoder == encoder
    ensures s.Pipeline? ==> exists i ::
      && 0 <= i < |coders.pipes|
      && topicName in coders.pipes[i].topics
      && (forall j :: 0 <= j < i ==> topicName !in coders.pipes[j].topics)
      && s.description == Description(coders.pipes[i], encoder)
  {
    match FirstMatch(coders.pipes, topicName)
    case Some(i) => Pipeline(Description(coders.pipes[i], encoder), encoder)
    case None => Identity
  }

  /** The linear search of `create_coder`: walks the pipes in order and stops at
      the first one whose topics contain `topicName`. `typeName` is not consulted. */
  method SelectCoder(coders: Coders, topicName: string, typeName: string, encoder: bool) returns (s: Selection)
    ensures s == Selected(coders, topicName, encoder)
  {
    var i := 0;
    while i < |coders.pipes|
      invariant 0 <= i <= |coders.pipes|
      invariant forall j :: 0 <= j < i ==> topicName !in coders.pipes[j].topics
    {
      var pipe := coders.pipes[i];
      if topicName in pipe.topics {
        assert FirstMatch(coders.pipes, topicName) == Some(i) by {
          FirstMatchIsFirst(coders.pipes, topicName, i);
        }
        return Pipeline(Description(pipe, encoder), encoder);
      }
      i := i + 1;
    }
    return Identity;
  }

  /** The first matching index is the only index that matches with no match before it. */
  lemma {:induction false} FirstMatchIsFirst(pipes: seq<Pipe>, topicName: string, i: nat)
    requires i < |pipes| && topicName in pipes[i].topics
    requires forall j :: 0 <= j < i ==> topicName !in pipes[j].topics
    ensures FirstMatch(pipes, topicName) == Some(i)
  {
    if i > 0 {
      FirstMatchIsFirst(pipes[1..], topicName, i - 1);
    }
  }

  /** A registry made by `Coders::new()` selects the identity coder for every
      topic and direction. */
  lemma NewSelectsIdentity(topicName: string, encoder: bool)
    ensures Selected(New(), topicName, encoder) == Identity
  {
  }

  /** A pipe placed before the others decides the selection when it lists the
      topic, and is skipped when it does not. */
  lemma EarlierPipeWins(coders: Coders, topicName: string, encoder: bool, p: Pipe, q: Pipe)
    requires topicName in p.topics && topicName !in q.topics
    ensures Selected(Coders([p] + coders.pipes), topicName, encoder) == Pipeline(Description(p, encoder), encoder)
    ensures Selected(Coders([q] + coders.pipes), topicName, encoder) == Selected(coders, topicName, encoder)
  {
    assert ([q] + coders.pipes)[1..] == coders.pipes;
  }

  /** A coder (`Coder`): `Encode` and `Decode` each take one buffer. The identity
      coder hands the buffer unchanged to its writer; a pipeline coder feeds an
      external GStreamer pipeline whose output is not modelled. The ghost logs
      record which buffers each operation was called with. */
  class Coder {
    const selection: Selection
    const writer: Writer
    ghost var encoded: seq<Bytes>
    ghost var decoded: seq<Bytes>

    constructor (selection: Selection, writer: Writer)
      ensures this.selection == selection && this.writer == writer
      ensures encoded == [] && decoded == []
    {
      this.selection := selection;
      this.writer := writer;
      encoded, decoded := [], [];
    }

    method Encode(data: Bytes)
      modifies this, writer
      ensures encoded == old(encoded) + [data] && decoded == old(decoded)
      ensures selection.Identity? ==> writer.written == old(writer.written) + [data]
    {
      if selection.Identity? {
        writer.Write(data);
      }
      encoded := encoded + [data];
    }

    method Decode(data: Bytes)
      modifies this, writer
      ensures decoded == old(decoded) + [data] && encoded == old(encoded)
      ensures selection.Identity? ==> writer.written == old(writer.written) + [data]
    {
      if selection.Identity? {
        writer.Write(data);
      }
      decoded := decoded + [data];
    }
  }

  /** `create_coder`: the selected coder, wrapping the given writer. */
  method CreateCoder(coders: Coders, topicName: string, typeName: string, writer: Writer, encoder: bool)
    returns (c: Coder)
    ensures fresh(c) && c.writer == writer && c.encoded == [] && c.decoded == []
    ensures c.selection == Selected(coders, topicName, encoder)
  {
    var s := SelectCoder(coders, topicName, typeName, encoder);
    c := new Coder(s, writer);
  }

  /** `new_encoder`: selection with the pipes' `encoder` descriptions. */
  method NewEncoder(coders: Coders, topicName: string, typeName: string, writer: Writer) returns (c: Coder)
    ensures fresh(c) && c.writer == writer && c.encoded == [] && c.decoded == []
    ensures c.selection == Selected(coders, topicName, true)
  {
    c := CreateCoder(coders, topicName, typeName, writer, true);
  }

  /** `new_decoder`: selection with the pipes' `decoder` descriptions. */
  method NewDecoder(coders: Coders, topicName: string, typeName: string, writer: Writer) returns (c: Coder)
    ensures fresh(c) && c.writer == writer && c.encoded == [] && c.decoded == []
    ensures c.selection == Selected(coders, topicName, false)
  {
    c := CreateCoder(coders, topicName, typeName, writer, false);
  }

  /** Round trip through identity coders: a payload encoded on the DDS side onto
      a zenoh writer, then decoded on the far side onto a DDS writer, reaches that
      writer unchanged. */
  method IdentityRoundTrip(x: Bytes) returns (y: Bytes)
    ensures y == x
  {
    var toZenoh := new Writer(ZenohSink(0));
    var encoder := new Coder(Identity, toZenoh);
    encoder.Encode(x);
    var payload := toZenoh.written[0];
    var toDds := new Writer(DdsSink(0, 0, "", "", false));
    var decoder := new Coder(Identity, toDds);
    decoder.Decode(payload);
    y := toDds.written[0];
  }
}
