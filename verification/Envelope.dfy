/**
 Transport envelopes: the in-place normaliser, the ingress validator and trace stamping.
 A heap object carries the fields the code assigns; its `Value()` is what is put on a wire.
 */
module Envelopes {
  import opened Common

  const VERSION := "2025-01"

  /** A protobuf timestamp: seconds since 1970 and a nanosecond offset. */
  datatype Timestamp = Timestamp(seconds: int, nanos: int) {
    /** True for the instant at which Go's time.Time is zero, 1 January of year 1. */
    predicate IsZero() {
      seconds * 1_000_000_000 + nanos == -62_135_596_800 * 1_000_000_000
    }
  }

  /** A reading of the clock: never Go's zero time. */
  type Instant = t: Timestamp | !t.IsZero() witness Timestamp(0, 0)

  /** A generated identifier: never empty. */
  type Uuid = s: string | s != "" witness "u"

  datatype Payload = Payload(text: Option<string>, audio: Option<string>)

  datatype MessageValue = MessageValue(
    version: string,
    kind: string,
    action: string,
    requestId: string,
    payload: Option<Payload>,
    metadata: Option<map<string, string>>,
    timestamp: Option<Timestamp>)

  datatype EnvelopeValue = EnvelopeValue(
    message: Option<MessageValue>,
    traceId: string,
    attributes: Option<map<string, string>>,
    createdAt: Option<Timestamp>,
    envelopeVersion: string,
    slotId: bv32,
    slotGeneration: bv32)

  // ----- the specification of normalisation

  function Dated(t: Option<Timestamp>, now: Instant): Option<Timestamp> {
    if t.None? || t.value.IsZero() then Some(now) else t
  }

  function NormalizedMessage(m: MessageValue, id: Uuid, now: Instant): MessageValue {
    m.(version := if m.version == "" then VERSION else m.version,
       requestId := if m.requestId == "" then id else m.requestId,
       metadata := if m.metadata.None? then Some(map[]) else m.metadata,
       timestamp := Dated(m.timestamp, now))
  }

  /** `messageNow` and `now` are the two clock readings, for the message and for the envelope. */
  function Normalized(e: EnvelopeValue, id: Uuid, messageNow: Instant, now: Instant): EnvelopeValue {
    e.(message := if e.message.None? then None else Some(NormalizedMessage(e.message.value, id, messageNow)),
       attributes := if e.attributes.None? then Some(map[]) else e.attributes,
       createdAt := Dated(e.createdAt, now),
       envelopeVersion := if e.envelopeVersion == "" then VERSION else e.envelopeVersion)
  }

  /** Every defaulted field is set. */
  predicate IsNormal(e: EnvelopeValue) {
    && (e.message.Some? ==>
          var m := e.message.value;
          && m.version != "" && m.requestId != "" && m.metadata.Some?
          && m.timestamp.Some? && !m.timestamp.value.IsZero())
    && e.attributes.Some?
    && e.createdAt.Some? && !e.createdAt.value.IsZero()
    && e.envelopeVersion != ""
  }

  /** The request id of the message inside; "" when there is no message. */
  function RequestId(e: EnvelopeValue): string {
    if e.message.Some? then e.message.value.requestId else ""
  }

  /** `b` agrees with `a` on every field that `a` has set. */
  predicate Extends(a: EnvelopeValue, b: EnvelopeValue) {
    && (a.message.Some? <==> b.message.Some?)
    && (a.message.Some? ==>
          var m, n := a.message.value, b.message.value;
          && (m.version != "" ==> n.version == m.version)
          && (m.requestId != "" ==> n.requestId == m.requestId)
          && (m.metadata.Some? ==> n.metadata == m.metadata)
          && (m.timestamp.Some? && !m.timestamp.value.IsZero() ==> n.timestamp == m.timestamp)
          && n.kind == m.kind && n.action == m.action && n.payload == m.payload)
    && a.traceId == b.traceId
    && (a.attributes.Some? ==> b.attributes == a.attributes)
    && (a.createdAt.Some? && !a.createdAt.value.IsZero() ==> b.createdAt == a.createdAt)
    && (a.envelopeVersion != "" ==> b.envelopeVersion == a.envelopeVersion)
    && a.slotId == b.slotId && a.slotGeneration == b.slotGeneration
  }

  /**
   What normalisation is for, without its body: it sets every defaulted field, keeps every field that
   was set, and is the only such completion of an envelope that is already normal.
   */
  lemma NormalizedCompletes(e: EnvelopeValue, id: Uuid, messageNow: Instant, now: Instant)
    ensures IsNormal(Normalized(e, id, messageNow, now))
    ensures Extends(e, Normalized(e, id, messageNow, now))
    ensures IsNormal(e) <==> Normalized(e, id, messageNow, now) == e
  {
    assert VERSION != "";
  }

  /** An instant is missing when it is nil or Go's zero time. */
  predicate Undated(t: Option<Timestamp>) {
    t.None? || (t.value.seconds * 1_000_000_000 + t.value.nanos == -62_135_596_800 * 1_000_000_000)
  }

  /** What each missing field of a message becomes: its own generated identifier, its own clock reading. */
  lemma MessageDefaults(m: MessageValue, id: Uuid, now: Instant)
    ensures var n := NormalizedMessage(m, id, now);
            && n.version == (if m.version == "" then "2025-01" else m.version)
            && n.requestId == (if m.requestId == "" then id else m.requestId)
            && n.metadata == (if m.metadata == None then Some(map[]) else m.metadata)
            && n.timestamp == (if Undated(m.timestamp) then Some(now) else m.timestamp)
            && n.kind == m.kind && n.action == m.action && n.payload == m.payload
  {
  }

  /** Likewise for an envelope; the message's clock reading and the envelope's are apart. */
  lemma EnvelopeDefaults(e: EnvelopeValue, id: Uuid, messageNow: Instant, now: Instant)
    ensures var n := Normalized(e, id, messageNow, now);
            && (e.message == None ==> n.message == None)
            && (e.message != None ==> n.message == Some(NormalizedMessage(e.message.value, id, messageNow)))
            && n.attributes == (if e.attributes == None then Some(map[]) else e.attributes)
            && n.createdAt == (if Undated(e.createdAt) then Some(now) else e.createdAt)
            && n.envelopeVersion == (if e.envelopeVersion == "" then "2025-01" else e.envelopeVersion)
            && n.traceId == e.traceId && n.slotId == e.slotId && n.slotGeneration == e.slotGeneration
  {
  }

  /** Messages without an identifier are told apart by the ones generated for them. */
  lemma GeneratedIdsDiffer(e: EnvelopeValue, e': EnvelopeValue, id: Uuid, id': Uuid, t: Instant, u: Instant,
                           t': Instant, u': Instant)
    requires e.message.Some? && e'.message.Some? && RequestId(e) == "" && RequestId(e') == ""
    ensures RequestId(Normalized(e, id, t, u)) == id
    ensures id != id' ==> RequestId(Normalized(e, id, t, u)) != RequestId(Normalized(e', id', t', u'))
  {
    EnvelopeDefaults(e, id, t, u);
    EnvelopeDefaults(e', id', t', u');
    MessageDefaults(e.message.value, id, t);
    MessageDefaults(e'.message.value, id', t');
  }

  /** A second normalisation, with any other identifier and clock, changes nothing. */
  lemma NormalizedIdempotent(e: EnvelopeValue, id: Uuid, t: Instant, u: Instant, id': Uuid, t': Instant, u': Instant)
    ensures Normalized(Normalized(e, id, t, u), id', t', u') == Normalized(e, id, t, u)
  {
    NormalizedCompletes(e, id, t, u);
    NormalizedCompletes(Normalized(e, id, t, u), id', t', u');
  }

  /** An identifier already set survives; a generated one is never empty, so a message always has one. */
  lemma NormalizedRequestId(e: EnvelopeValue, id: Uuid, t: Instant, u: Instant)
    ensures RequestId(Normalized(e, id, t, u)) == "" <==> e.message.None?
    ensures RequestId(e) != "" ==> RequestId(Normalized(e, id, t, u)) == RequestId(e)
  {
    NormalizedCompletes(e, id, t, u);
  }

  // ----- ingress validation

  datatype IngressFault = MessageIsNil | OnlyRequestKind | ActionRequired | PayloadRequired

  predicate IsSpace(c: char) {
    || '\t' <= c <= '\r' || c == ' ' || c == '\U{0085}' || c == '\U{00A0}' || c == '\U{1680}'
    || '\U{2000}' <= c <= '\U{200A}' || c == '\U{2028}' || c == '\U{2029}' || c == '\U{202F}'
    || c == '\U{205F}' || c == '\U{3000}'
  }

  /** The white space characters of Unicode, one by one. */
  lemma IsSpaceExactly(c: char)
    ensures IsSpace(c) <==>
              c in {'\U{0009}', '\U{000A}', '\U{000B}', '\U{000C}', '\U{000D}', '\U{0020}', '\U{0085}', '\U{00A0}', '\U{1680}',
                    '\U{2000}', '\U{2001}', '\U{2002}', '\U{2003}', '\U{2004}', '\U{2005}', '\U{2006}', '\U{2007}', '\U{2008}',
                    '\U{2009}', '\U{200A}', '\U{2028}', '\U{2029}', '\U{202F}', '\U{205F}', '\U{3000}'}
  {
    if '\t' <= c <= '\r' {
      assert 9 <= c as int <= 13;
    } else if '\U{2000}' <= c <= '\U{200A}' {
      assert 0x2000 <= c as int <= 0x200A;
    }
  }

  function TrimSpace(s: string): string
    decreases |s|
  {
    if s != [] && IsSpace(s[0]) then TrimSpace(s[1..])
    else if s != [] && IsSpace(s[|s| - 1]) then TrimSpace(s[..|s| - 1])
    else s
  }

  lemma {:induction false} TrimSpaceEmpty(s: string)
    ensures TrimSpace(s) == "" <==> forall i :: 0 <= i < |s| ==> IsSpace(s[i])
    decreases |s|
  {
    if s != [] && IsSpace(s[0]) {
      TrimSpaceEmpty(s[1..]);
      assert s == [s[0]] + s[1..];
    } else if s != [] && IsSpace(s[|s| - 1]) {
      TrimSpaceEmpty(s[..|s| - 1]);
    }
  }

  function ValidateIngress(m: Option<MessageValue>): Option<IngressFault> {
    if m.None? then Some(MessageIsNil)
    else if m.value.kind != "request" && m.value.kind != "" then Some(OnlyRequestKind)
    else if TrimSpace(m.value.action) == "" then Some(ActionRequired)
    else if m.value.payload.None? || (m.value.payload.value.text.None? && m.value.payload.value.audio.None?)
    then Some(PayloadRequired)
    else None
  }

  /** Exactly the acceptable messages pass, and normalising before or after validating does not matter. */
  lemma ValidateIngressExactly(e: EnvelopeValue, id: Uuid, t: Instant, u: Instant)
    ensures ValidateIngress(Normalized(e, id, t, u).message) == ValidateIngress(e.message)
    ensures ValidateIngress(e.message).None? <==>
            (e.message.Some? && var m := e.message.value;
             && m.kind in {"request", ""}
             && (exists i :: 0 <= i < |m.action| && !IsSpace(m.action[i]))
             && m.payload.Some? && (m.payload.value.text.Some? || m.payload.value.audio.Some?))
    ensures ValidateIngress(e.message) == Some(MessageIsNil) <==> e.message.None?
    ensures ValidateIngress(e.message) == Some(OnlyRequestKind) <==>
              e.message.Some? && e.message.value.kind !in {"request", ""}
    ensures ValidateIngress(e.message) == Some(ActionRequired) <==>
              && e.message.Some? && e.message.value.kind in {"request", ""}
              && forall i :: 0 <= i < |e.message.value.action| ==> IsSpace(e.message.value.action[i])
  {
    if e.message.Some? {
      TrimSpaceEmpty(e.message.value.action);
    }
  }

  // ----- the heap

  class Message {
    var version: string
    var kind: string
    var action: string
    var requestId: string
    var payload: Option<Payload>
    var metadata: Option<map<string, string>>
    var timestamp: Option<Timestamp>

    constructor (m: MessageValue)
      ensures Value() == m
    {
      version, kind, action, requestId := m.version, m.kind, m.action, m.requestId;
      payload, metadata, timestamp := m.payload, m.metadata, m.timestamp;
    }

    function Value(): MessageValue
      reads this
    {
      MessageValue(version, kind, action, requestId, payload, metadata, timestamp)
    }
  }

  /** An attribute map, which envelopes share when they are copied by value. */
  class Attributes {
    var entries: map<string, string>

    constructor ()
      ensures entries == map[]
    {
      entries := map[];
    }
  }

  class Envelope {
    var message: Message?
    var traceId: string
    var attributes: Attributes?
    var createdAt: Option<Timestamp>
    var envelopeVersion: string
    var slotId: bv32
    var slotGeneration: bv32

    /** A copy by value: the fields are copied, the message and the attribute map are shared. */
    constructor CopyOf(e: Envelope)
      ensures message == e.message && attributes == e.attributes && Value() == e.Value()
    {
      message, traceId, attributes := e.message, e.traceId, e.attributes;
      createdAt, envelopeVersion := e.createdAt, e.envelopeVersion;
      slotId, slotGeneration := e.slotId, e.slotGeneration;
    }

    function Value(): EnvelopeValue
      reads this, message, attributes
    {
      EnvelopeValue(if message == null then None else Some(message.Value()), traceId,
                    if attributes == null then None else Some(attributes.entries),
                    createdAt, envelopeVersion, slotId, slotGeneration)
    }
  }

  /** What goes on a wire is the envelope's own fields and those of its message and attribute map. */
  lemma OnWire(e: Envelope)
    ensures var v := e.Value();
            && (v.message == None <==> e.message == null) && (v.attributes == None <==> e.attributes == null)
            && (e.attributes != null ==> v.attributes.value == e.attributes.entries)
            && (e.message != null ==>
                  && v.message.value.version == e.message.version && v.message.value.kind == e.message.kind
                  && v.message.value.action == e.message.action && v.message.value.requestId == e.message.requestId
                  && v.message.value.payload == e.message.payload && v.message.value.metadata == e.message.metadata
                  && v.message.value.timestamp == e.message.timestamp)
            && v.traceId == e.traceId && v.createdAt == e.createdAt && v.envelopeVersion == e.envelopeVersion
            && v.slotId == e.slotId && v.slotGeneration == e.slotGeneration
  {
  }

  method NormalizeMessage(msg: Message?, id: Uuid, now: Instant)
    modifies msg
    ensures msg != null ==> msg.Value() == NormalizedMessage(old(msg.Value()), id, now)
    ensures msg != null ==>
              && msg.version == (if old(msg.version) == "" then "2025-01" else old(msg.version))
              && msg.requestId == (if old(msg.requestId) == "" then id else old(msg.requestId))
              && msg.metadata == (if old(msg.metadata) == None then Some(map[]) else old(msg.metadata))
              && msg.timestamp == (if Undated(old(msg.timestamp)) then Some(now) else old(msg.timestamp))
              && msg.kind == old(msg.kind) && msg.action == old(msg.action) && msg.payload == old(msg.payload)
  {
    if msg == null {
      return;
    }
    if msg.version == "" {
      msg.version := VERSION;
    }
    if msg.requestId == "" {
      msg.requestId := id;
    }
    if msg.metadata == None {
      msg.metadata := Some(map[]);
    }
    if msg.timestamp == None || msg.timestamp.value.IsZero() {
      msg.timestamp := Some(now);
    }
  }

  /** The envelope's own fields. */
  method FillEnvelope(env: Envelope, now: Instant)
    modifies env
    ensures env.message == old(env.message) && env.traceId == old(env.traceId)
    ensures env.slotId == old(env.slotId) && env.slotGeneration == old(env.slotGeneration)
    ensures if old(env.attributes) == null
            then env.attributes != null && fresh(env.attributes) && env.attributes.entries == map[]
            else env.attributes == old(env.attributes)
    ensures env.createdAt == if Undated(old(env.createdAt)) then Some(now) else old(env.createdAt)
    ensures env.envelopeVersion == if old(env.envelopeVersion) == "" then "2025-01" else old(env.envelopeVersion)
  {
    if env.attributes == null {
      env.attributes := new Attributes();
    }
    if env.createdAt == None || env.createdAt.value.IsZero() {
      env.createdAt := Some(now);
    }
    if env.envelopeVersion == "" {
      env.envelopeVersion := VERSION;
    }
  }

  method NormalizeEnvelope(env: Envelope?, id: Uuid, messageNow: Instant, now: Instant)
    modifies env, if env == null then null else env.message
    ensures env != null ==> env.message == old(env.message)
    ensures env != null ==>
              if old(env.attributes) == null then fresh(env.attributes) else env.attributes == old(env.attributes)
    ensures env != null ==> env.Value() == Normalized(old(env.Value()), id, messageNow, now)
    ensures env != null && env.message != null ==>
              env.message.Value() == NormalizedMessage(old(env.message.Value()), id, messageNow)
  {
    if env == null {
      return;
    }
    hide NormalizedMessage;
    NormalizeMessage(env.message, id, messageNow);
    FillEnvelope(env, now);
  }

  function Stamped(e: EnvelopeValue, traceId: string): EnvelopeValue {
    if traceId == "" then e
    else e.(traceId := traceId,
            attributes := Some((if e.attributes.None? then map[] else e.attributes.value)["trace_id" := traceId]))
  }

  /** The entry goes into the map that the envelope has, so it shows in every copy that shares the map. */
  method StampTrace(env: Envelope?, traceId: string)
    modifies env, if env == null then null else env.attributes
    ensures env != null ==> env.message == old(env.message) && env.Value() == Stamped(old(env.Value()), traceId)
    ensures env != null && traceId != "" ==>
              && env.traceId == traceId && env.attributes != null
              && env.attributes.entries
                 == (if old(env.attributes) == null then map[] else old(env.attributes.entries))["trace_id" := traceId]
    ensures env != null && traceId == "" ==> env.traceId == old(env.traceId) && env.attributes == old(env.attributes)
    ensures env != null && old(env.attributes) != null ==> env.attributes == old(env.attributes)
    ensures env != null && old(env.attributes) == null && env.attributes != null ==> fresh(env.attributes)
  {
    if env == null || traceId == "" {
      return;
    }
    env.traceId := traceId;
    if env.attributes == null {
      env.attributes := new Attributes();
    }
    env.attributes.entries := env.attributes.entries["trace_id" := traceId];
  }

  /** Both places that hold the trace id agree after stamping, and stay so through normalisation. */
  lemma StampSurvivesNormalization(e: EnvelopeValue, traceId: string, id: Uuid, t: Instant, u: Instant)
    requires traceId != ""
    ensures var n := Normalized(Stamped(e, traceId), id, t, u);
            && n.traceId == traceId
            && n.attributes.Some? && "trace_id" in n.attributes.value && n.attributes.value["trace_id"] == traceId
            && n.message == Normalized(e, id, t, u).message
            && forall k :: k != "trace_id" ==>
                 var was := Normalized(e, id, t, u).attributes;
                 (k in n.attributes.value <==> k in was.value) && (k in was.value ==> n.attributes.value[k] == was.value[k])
  {
    var s := Stamped(e, traceId);
    NormalizedCompletes(s, id, t, u);
    assert s.message == e.message;
  }
}
