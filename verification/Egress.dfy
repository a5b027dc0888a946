/** Ingress envelopes and the egress classifier (`envelope.rs`, `ingress.rs`, `egress.rs`). */
module Egress {
  import opened Wrappers
  import opened Bytes
  import opened Codec

  const MAX_INGRESS_PAYLOAD_BYTES: nat := 1_048_576
  const BRIDGE_ENVELOPE_VERSION: nat := 1
  /** "peat.nats-bridge" */
  const BRIDGE_ENVELOPE_KIND: Text := [112, 101, 97, 116, 46, 110, 97, 116, 115, 45, 98, 114, 105, 100, 103, 101]

  datatype Envelope = Envelope(kind: Text, version: nat, subject: Text, sourceNodeId: Text, payload: Text)
  /** A remote change notification; `json` is None when its text is not an envelope. */
  datatype Event = Event(collection: Text, docId: Text, json: Option<Envelope>)
  datatype Mapping = Mapping(subject: Text, collection: Text)
  datatype EgressItem = EgressItem(digest: Digest, subject: Text, payload: Text, routeIndex: nat)
  datatype EgressSkipKind =
    MalformedEnvelope | UnsupportedKind | UnsupportedVersion | UnmappedCollection | RouteMismatch
    | ReturnedLocal | OversizedPayload
  datatype Classified = Item(item: EgressItem) | Skipped(kind: EgressSkipKind)
  datatype Config = Config(hash: Hash, mappings: seq<Mapping>, localNodeId: Text)

  /** The route tables are collected from the mapping list, so the last mapping of a collection wins. */
  function RouteIndex(mappings: seq<Mapping>, collection: Text): (r: Option<nat>)
    ensures r.Some? ==> r.value < |mappings| && mappings[r.value].collection == collection
                        && forall j :: r.value < j < |mappings| ==> mappings[j].collection != collection
    ensures r.None? ==> forall j :: 0 <= j < |mappings| ==> mappings[j].collection != collection
  {
    if mappings == [] then None
    else if mappings[|mappings| - 1].collection == collection then Some(|mappings| - 1)
    else RouteIndex(mappings[..|mappings| - 1], collection)
  }

  /** `EgressClassifier::classify`. */
  function Classify(c: Config, event: Event): Classified {
    if event.json.None? then Skipped(MalformedEnvelope)
    else
      var envelope := event.json.value;
      var route := RouteIndex(c.mappings, event.collection);
      if envelope.kind != BRIDGE_ENVELOPE_KIND then Skipped(UnsupportedKind)
      else if envelope.version != BRIDGE_ENVELOPE_VERSION then Skipped(UnsupportedVersion)
      else if route.None? then Skipped(UnmappedCollection)
      else if envelope.subject != c.mappings[route.value].subject then Skipped(RouteMismatch)
      else if envelope.sourceNodeId == c.localNodeId then Skipped(ReturnedLocal)
      else if |envelope.payload| > MAX_INGRESS_PAYLOAD_BYTES then Skipped(OversizedPayload)
      else Item(EgressItem(DocumentDigest(c.hash, event.collection, event.docId),
                           c.mappings[route.value].subject, envelope.payload, route.value))
  }

  /** What survives classification was written by another node, is routed by a configured mapping and is
      published with the envelope's own subject and payload under its document's ledger key. */
  lemma ClassifiedItem(c: Config, event: Event)
    requires Classify(c, event).Item?
    ensures var item := Classify(c, event).item;
            && event.json.Some? && event.json.value.sourceNodeId != c.localNodeId
            && item.payload == event.json.value.payload && |item.payload| <= MAX_INGRESS_PAYLOAD_BYTES
            && item.subject == event.json.value.subject
            && item.digest == DocumentDigest(c.hash, event.collection, event.docId)
            && item.routeIndex < |c.mappings|
            && c.mappings[item.routeIndex] == Mapping(item.subject, event.collection)
  {
  }

  /** The mapping of a collection that the route tables keep. */
  predicate LastMapping(mappings: seq<Mapping>, collection: Text, r: nat) {
    && r < |mappings| && mappings[r].collection == collection
    && forall j :: r < j < |mappings| ==> mappings[j].collection != collection
  }

  /** Exactly what is classified for publishing: an envelope of the bridge's kind and version, ingested by another node,
      within the payload limit, whose subject is the one its collection is mapped to. */
  lemma {:induction false} ClassifiedIff(c: Config, event: Event)
    ensures Classify(c, event).Item? <==>
            && event.json.Some?
            && var envelope := event.json.value;
               && envelope.kind == BRIDGE_ENVELOPE_KIND && envelope.version == BRIDGE_ENVELOPE_VERSION
               && envelope.sourceNodeId != c.localNodeId && |envelope.payload| <= MAX_INGRESS_PAYLOAD_BYTES
               && exists r: nat :: LastMapping(c.mappings, event.collection, r)
                                   && c.mappings[r].subject == envelope.subject
  {
    var route := RouteIndex(c.mappings, event.collection);
    if route.Some? {
      assert LastMapping(c.mappings, event.collection, route.value);
    }
  }

  /** What is wrong with an event, each fault by itself. */
  ghost predicate Faulty(c: Config, event: Event, fault: EgressSkipKind) {
    match fault
    case MalformedEnvelope => event.json.None?
    case UnsupportedKind => event.json.Some? && event.json.value.kind != BRIDGE_ENVELOPE_KIND
    case UnsupportedVersion => event.json.Some? && event.json.value.version != BRIDGE_ENVELOPE_VERSION
    case UnmappedCollection => forall j :: 0 <= j < |c.mappings| ==> c.mappings[j].collection != event.collection
    case RouteMismatch =>
      event.json.Some?
      && exists r: nat :: LastMapping(c.mappings, event.collection, r)
                          && c.mappings[r].subject != event.json.value.subject
    case ReturnedLocal => event.json.Some? && event.json.value.sourceNodeId == c.localNodeId
    case OversizedPayload => event.json.Some? && |event.json.value.payload| > MAX_INGRESS_PAYLOAD_BYTES
  }

  /** Which fault is told when there are several. */
  function Precedence(fault: EgressSkipKind): nat {
    match fault
    case MalformedEnvelope => 0
    case UnsupportedKind => 1
    case UnsupportedVersion => 2
    case UnmappedCollection => 3
    case RouteMismatch => 4
    case ReturnedLocal => 5
    case OversizedPayload => 6
  }

  /** An event is skipped for its first fault, and for nothing else. */
  lemma SkippedIff(c: Config, event: Event, fault: EgressSkipKind)
    ensures Classify(c, event) == Skipped(fault) <==>
            && Faulty(c, event, fault)
            && forall other :: Precedence(other) < Precedence(fault) ==> !Faulty(c, event, other)
  {
    var route := RouteIndex(c.mappings, event.collection);
    if route.Some? {
      assert LastMapping(c.mappings, event.collection, route.value);
    }
    if Classify(c, event).Skipped? {
      assert Faulty(c, event, Classify(c, event).kind);
    }
  }

  datatype NatsMessage = NatsMessage(subject: Text, origins: seq<Text>, payload: Text)

  /** `has_exact_own_origin`: exactly one origin header, and it names this node. */
  predicate HasExactOwnOrigin(message: NatsMessage, localNodeId: Text) {
    |message.origins| == 1 && message.origins[0] == localNodeId
  }

  /** The message that `run_egress_worker` publishes for an item. */
  function Publication(c: Config, item: EgressItem): NatsMessage {
    NatsMessage(item.subject, [c.localNodeId], item.payload)
  }

  /** `read_subscription` and `BridgeEnvelope::from_payload` on one message. `validJson` says whether the
      payload is UTF-8 JSON. None: the message is dropped. */
  function Ingest(c: Config, message: NatsMessage, validJson: bool): Option<Envelope> {
    if HasExactOwnOrigin(message, c.localNodeId) then None
    else if |message.payload| > MAX_INGRESS_PAYLOAD_BYTES then None
    else if !validJson then None
    else Some(Envelope(BRIDGE_ENVELOPE_KIND, BRIDGE_ENVELOPE_VERSION, message.subject, c.localNodeId, message.payload))
  }

  /** A bridge never re-ingests what it published, whatever the payload. */
  lemma OwnPublicationDropped(c: Config, item: EgressItem, validJson: bool)
    ensures Ingest(c, Publication(c, item), validJson) == None
  {
  }

  /** A message accepted on one node and replicated to another that maps the collection to the same subject
      leaves that node byte for byte; on its own node, and only there, it is turned back. */
  lemma {:induction false} BridgeRoundTrip(from: Config, to: Config, message: NatsMessage, collection: Text,
                                           docId: Text)
    requires Ingest(from, message, true).Some?
    requires RouteIndex(to.mappings, collection).Some?
    requires to.mappings[RouteIndex(to.mappings, collection).value].subject == message.subject
    ensures var r := Classify(to, Event(collection, docId, Ingest(from, message, true)));
            && (from.localNodeId == to.localNodeId ==> r == Skipped(ReturnedLocal))
            && (from.localNodeId != to.localNodeId ==>
                  && r.Item?
                  && r.item.payload == message.payload
                  && Publication(to, r.item).subject == message.subject
                  && r.item.digest == DocumentDigest(to.hash, collection, docId))
  {
  }
}
