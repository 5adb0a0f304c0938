/** The Redis-backed context store of services/context_service.py: the key
    format, the pure projection of a conversation, decoding of a stored value
    (empty on miss), the compress-or-not decision, and the ContextService
    object with its circuit-breaker counter. The Redis keyspace is a map with
    expiry instants; JSON, zlib and UTF-8 decoding are the functions of a
    `Codec`. */
module ContextStore {
  import opened Common
  import opened Text
  import opened IntentModel
  import opened ConversationModel
  import Config

  const ContextVersion: string := "1.0"
  const KeyPrefix: string := "context:"
  const CompressionThreshold: int := 1024
  const CompressionCutoff: real := 0.9
  const CompressedPrefix: string := "compressed:"
  /** The projection keeps this many of the latest messages. */
  const WindowSize: nat := 10
  const FailureThreshold: nat := 3
  /** Seconds the circuit stays open after the last failure. */
  const ResetTimeout: int := 30
  const SecondsPerDay: int := 86400

  type Byte = b: int | 0 <= b < 256

  /** One element of a context's message list: the compact turn summary that
      `build_context` writes, or a whole serialised message as appended by the
      orchestration engine. */
  datatype ContextEntry =
    | Compact(content: string, direction: MessageDirection, createdAt: Instant, aiConfidence: real)
    | Full(message: Message)

  datatype IntentSummary = IntentSummary(kind: IntentType, confidence: real)

  /** The context's `metadata`: {} for a default context, or the summary that
      `build_context` writes. */
  datatype ContextMetadata =
    | NoMetadata
    | Summary(
        leadId: Uuid,
        status: ConversationStatus,
        aiConfidenceAvg: real,
        messageCount: nat,
        currentIntent: Option<IntentSummary>)

  datatype Context = Context(
    messages: seq<ContextEntry>,
    metadata: ContextMetadata,
    createdAt: Instant,
    updatedAt: Option<Instant>,
    version: Option<string>)

  /** The library functions the store calls, left uninterpreted:
      `json.dumps`, `json.loads` (None on a decode error), `zlib.compress` of
      the UTF-8 bytes, `zlib.decompress` of the UTF-8 bytes (None on a zlib
      error), and `bytes.decode()` (None on a UnicodeDecodeError). */
  datatype Codec = Codec(
    encode: Context -> string,
    decode: string -> Option<Context>,
    deflate: string -> seq<Byte>,
    inflate: string -> Option<string>,
    utf8Decode: seq<Byte> -> Option<string>)

  /** A Redis value with the instant at which its TTL runs out. */
  datatype StoredEntry = StoredEntry(value: string, expiresAt: Instant)

  /** `f"context:{version}:{conversation_id}"`. */
  function ContextKey(id: Uuid): (k: string)
    ensures StartsWith(k, KeyPrefix + ContextVersion + ":")
    ensures k[|KeyPrefix + ContextVersion + ":"|..] == id
  {
    KeyPrefix + ContextVersion + ":" + id
  }

  /** Distinct conversations never share a key. */
  lemma ContextKeyInjective(a: Uuid, b: Uuid)
    ensures ContextKey(a) == ContextKey(b) <==> a == b
  {
    if ContextKey(a) == ContextKey(b) {
      var n := |KeyPrefix + ContextVersion + ":"|;
      assert a == ContextKey(a)[n..];
    }
  }

  /** The context returned for a key that holds nothing. */
  function EmptyContext(now: Instant): (r: Context)
    ensures r.messages == [] && r.metadata == NoMetadata && r.createdAt == now
  {
    Context([], NoMetadata, now, None, None)
  }

  /** Redis GET: the value, unless the key is absent or its TTL has run out. */
  function Lookup(store: map<string, StoredEntry>, key: string, now: Instant): (r: Option<string>)
    ensures r.Some? <==> key in store && now < store[key].expiresAt
    ensures r.Some? ==> r.value == store[key].value
  {
    if key in store && now < store[key].expiresAt then Some(store[key].value) else None
  }

  /** Turning what GET returned into a context: nothing (or an empty string)
      is the default context and not an error; a value with the compression
      prefix is decompressed from `raw[10:]` (which keeps the prefix's final
      colon) and parsed; any other value is parsed as JSON. A failed
      decompression or parse is a ValueError. */
  function DecodeStored(raw: Option<string>, codec: Codec, now: Instant): (r: Result<Context>)
    ensures raw.None? || raw == Some("") ==> r == Ok(EmptyContext(now))
    ensures r.Err? ==> r.error.ValueError?
    ensures raw.Some? && raw.value != "" && !StartsWith(raw.value, CompressedPrefix) ==>
      (r.Ok? <==> codec.decode(raw.value).Some?) && (r.Ok? ==> Some(r.value) == codec.decode(raw.value))
    ensures raw.Some? && StartsWith(raw.value, CompressedPrefix) ==>
      var tail := raw.value[|CompressedPrefix| - 1..];
      && tail[0] == ':'
      && (r.Ok? <==> codec.inflate(tail).Some? && codec.decode(codec.inflate(tail).value).Some?)
      && (r.Ok? ==> Some(r.value) == codec.decode(codec.inflate(tail).value))
  {
    if raw.None? || raw.value == "" then
      Ok(EmptyContext(now))
    else if StartsWith(raw.value, CompressedPrefix) then
      match codec.inflate(raw.value[10..])
      case None => Err(ValueError("Invalid context data"))
      case Some(text) =>
        match codec.decode(text)
        case None => Err(ValueError("Invalid context data"))
        case Some(c) => Ok(c)
    else
      match codec.decode(raw.value)
      case None => Err(ValueError("Invalid context data"))
      case Some(c) => Ok(c)
  }

  /** Compression is used only for a payload of more than 1024 characters
      whose compressed size is below 90% of it. */
  predicate CompressionPays(json: string, codec: Codec) {
    && |json| > CompressionThreshold
    && (|codec.deflate(json)| as real) / (|json| as real) < CompressionCutoff
  }

  /** The text `update_context` hands to SETEX for a serialised context. When
      compression pays, the compressed bytes are decoded as text and prefixed;
      a decoding failure is a ValueError and nothing is stored. */
  function StoredPayload(json: string, codec: Codec): (r: Result<string>)
    ensures !CompressionPays(json, codec) ==> r == Ok(json)
    ensures CompressionPays(json, codec) ==> (r.Ok? <==> codec.utf8Decode(codec.deflate(json)).Some?)
    ensures CompressionPays(json, codec) && r.Ok? ==>
      && StartsWith(r.value, CompressedPrefix)
      && r.value[|CompressedPrefix|..] == codec.utf8Decode(codec.deflate(json)).value
    ensures r.Err? ==> CompressionPays(json, codec) && r.error.ValueError?
    ensures |json| <= CompressionThreshold ==> r == Ok(json)
  {
    if CompressionPays(json, codec) then
      match codec.utf8Decode(codec.deflate(json))
      case None => Err(ValueError("compressed data is not valid UTF-8"))
      case Some(text) => Ok(CompressedPrefix + text)
    else
      Ok(json)
  }

  /** A context written uncompressed reads back as itself, provided JSON
      parsing inverts serialisation and the serialised text is neither empty
      nor starts with the compression prefix (a JSON object starts with '{'). */
  lemma PlainRoundTrip(c: Context, codec: Codec, now: Instant)
    requires codec.decode(codec.encode(c)) == Some(c)
    requires codec.encode(c) != "" && !StartsWith(codec.encode(c), CompressedPrefix)
    requires !CompressionPays(codec.encode(c), codec)
    ensures StoredPayload(codec.encode(c), codec).Ok?
    ensures DecodeStored(Some(StoredPayload(codec.encode(c), codec).value), codec, now) == Ok(c)
  {
  }

  /** The fields `update_context` writes into the context before storing
      it. */
  function Stamp(context: Context, now: Instant): (r: Context)
    ensures r.updatedAt == Some(now) && r.version == Some(ContextVersion)
    ensures r.messages == context.messages && r.metadata == context.metadata && r.createdAt == context.createdAt
  {
    context.(updatedAt := Some(now), version := Some(ContextVersion))
  }

  /** The compact turn summary `build_context` keeps of a message. */
  function Summarize(m: Message): ContextEntry {
    Compact(m.content, m.direction, m.createdAt, m.aiConfidence)
  }

  function SummarizeIntent(i: Option<Intent>): Option<IntentSummary> {
    if i.Some? then Some(IntentSummary(i.value.kind, i.value.confidence)) else None
  }

  /** `build_context`: the summaries of the last min(10, n) messages in their
      original order, with `message_count` the full n, and the lead, status,
      average and (type and confidence of the) current intent copied. */
  function BuildContext(c: Conversation, now: Instant): (r: Context)
    reads c
    ensures |r.messages| == Min(WindowSize, |c.messages|)
    ensures forall k :: 0 <= k < |r.messages| ==>
      r.messages[k] == Summarize(c.messages[|c.messages| - |r.messages| + k])
    ensures r.metadata.Summary?
    ensures r.metadata.leadId == c.leadId && r.metadata.status == c.status
    ensures r.metadata.aiConfidenceAvg == c.aiConfidenceAvg && r.metadata.messageCount == |c.messages|
    ensures r.metadata.currentIntent.Some? <==> c.currentIntent.Some?
    ensures c.currentIntent.Some? ==>
      r.metadata.currentIntent.value == IntentSummary(c.currentIntent.value.kind, c.currentIntent.value.confidence)
    ensures r.createdAt == now && r.updatedAt.None? && r.version.None?
  {
    var window := LastN(c.messages, WindowSize);
    Context(
      seq(|window|, k requires 0 <= k < |window| => Summarize(window[k])),
      Summary(c.leadId, c.status, c.aiConfidenceAvg, |c.messages|, SummarizeIntent(c.currentIntent)),
      now, None, None)
  }

  /** What `(now - last_failure).seconds` computes: the seconds field of a
      timedelta, which drops whole days, so it restarts from 0 every 24 h. */
  function ElapsedSecondsField(since: Instant, now: Instant): (r: int)
    ensures 0 <= r < SecondsPerDay
  {
    ((now - since) / MicrosPerSecond) % SecondsPerDay
  }

  /** Whole seconds elapsed, as `total_seconds()` would give. */
  function ElapsedSeconds(since: Instant, now: Instant): (r: int)
    ensures r < ResetTimeout <==> now - since < ResetTimeout * MicrosPerSecond
  {
    (now - since) / MicrosPerSecond
  }

  /** The open test of `_is_circuit_open` as written, with `.seconds`. */
  predicate CircuitOpenAsWritten(failures: nat, lastFailure: Option<Instant>, now: Instant) {
    failures >= FailureThreshold && lastFailure.Some? && ElapsedSecondsField(lastFailure.value, now) < ResetTimeout
  }

  /** The open test with the elapsed time measured in full: at least three
      failures, a last failure, and less than 30 s since it. */
  predicate CircuitOpen(failures: nat, lastFailure: Option<Instant>, now: Instant) {
    failures >= FailureThreshold && lastFailure.Some? && ElapsedSeconds(lastFailure.value, now) < ResetTimeout
  }

  /** As written, a circuit whose last failure was a day and ten seconds ago
      reads as open again, because `.seconds` is 10. */
  lemma SecondsFieldWrapsAfterADay()
    ensures var now := (SecondsPerDay + 10) * MicrosPerSecond;
      CircuitOpenAsWritten(FailureThreshold, Some(0), now) && !CircuitOpen(FailureThreshold, Some(0), now)
  {
  }

  /** With the elapsed time measured in full, the circuit is open exactly
      during the 30 s after the last failure (once the threshold is reached). */
  lemma CircuitOpenWindow(failures: nat, last: Instant, now: Instant)
    requires failures >= FailureThreshold
    ensures CircuitOpen(failures, Some(last), now) <==> now < last + ResetTimeout * MicrosPerSecond
  {
  }

  /** The counter and timestamp after `_is_circuit_open`: reset to (0, None)
      when the threshold was reached but the timeout has passed. */
  function AfterProbe(failures: nat, lastFailure: Option<Instant>, now: Instant): (r: (nat, Option<Instant>))
    ensures r == (failures, lastFailure) || r == (0, None)
    ensures r.0 <= failures
    ensures r.0 == 0 <==> failures == 0 || (failures >= FailureThreshold && lastFailure.Some? && !CircuitOpen(failures, lastFailure, now))
  {
    if failures >= FailureThreshold && lastFailure.Some? && !CircuitOpen(failures, lastFailure, now) then
      (0, None)
    else
      (failures, lastFailure)
  }

  class ContextService {
    /** The Redis keyspace as this service sees it. */
    var store: map<string, StoredEntry>
    /** Whether the Redis server answers; every call fails with RedisError
        while it does not. */
    var online: bool
    var failures: nat
    var lastFailure: Option<Instant>
    const contextTtl: int
    const codec: Codec

    ghost predicate Valid()
      reads this
    {
      && Config.MinContextTtl <= contextTtl <= Config.MaxContextTtl
      && (failures == 0 <==> lastFailure.None?)
    }

    /** `ContextService(settings)`: the TTL comes from the Redis configuration,
        the breaker starts closed with no failures. */
    constructor (settings: Config.Settings, codec: Codec, store: map<string, StoredEntry>, online: bool)
      requires Config.InBounds(settings)
      ensures Valid()
      ensures contextTtl == Config.GetRedisConfig(settings).contextTtl
      ensures this.codec == codec && this.store == store && this.online == online
      ensures failures == 0 && lastFailure == None
    {
      contextTtl := Config.GetRedisConfig(settings).contextTtl;
      this.codec := codec;
      this.store := store;
      this.online := online;
      failures := 0;
      lastFailure := None;
    }

    /** What `get_conversation_context` returns at `now` in the current state:
        RedisError while the circuit is open or Redis is down, otherwise the
        decoded value stored under the conversation's key. */
    function Fetched(id: Uuid, now: Instant): (r: Result<Context>)
      reads this
      ensures CircuitOpen(failures, lastFailure, now) ==> r.Err? && r.error.RedisError?
      ensures r.Err? ==> r.error.RedisError? || r.error.ValueError?
      ensures r.Ok? ==> online
      ensures !CircuitOpen(failures, lastFailure, now) && online ==>
        r == DecodeStored(Lookup(store, ContextKey(id), now), codec, now)
      ensures !CircuitOpen(failures, lastFailure, now) && online && Lookup(store, ContextKey(id), now).None? ==>
        r == Ok(EmptyContext(now))
    {
      if CircuitOpen(failures, lastFailure, now) then
        Err(RedisError("Failed to retrieve context: Circuit breaker is open"))
      else if !online then
        Err(RedisError("Failed to retrieve context: connection failed"))
      else
        DecodeStored(Lookup(store, ContextKey(id), now), codec, now)
    }

    /** `_is_circuit_open`. */
    method IsCircuitOpen(now: Instant) returns (open: bool)
      requires Valid()
      modifies this
      ensures Valid()
      ensures open == CircuitOpen(old(failures), old(lastFailure), now)
      ensures (failures, lastFailure) == AfterProbe(old(failures), old(lastFailure), now)
      ensures store == old(store) && online == old(online)
    {
      if failures >= FailureThreshold && lastFailure.Some? {
        var elapsed := ElapsedSeconds(lastFailure.value, now);
        if elapsed < ResetTimeout {
          return true;
        }
        failures := 0;
        lastFailure := None;
      }
      return false;
    }

    /** `_record_failure`. */
    method RecordFailure(now: Instant)
      requires Valid()
      modifies this
      ensures Valid()
      ensures failures == old(failures) + 1 && lastFailure == Some(now)
      ensures store == old(store) && online == old(online)
    {
      failures := failures + 1;
      lastFailure := Some(now);
    }

    /** `get_conversation_context`. A rejection by the open circuit and a
        Redis failure are both recorded as failures; a corrupt value is a
        ValueError and is not. */
    method GetConversationContext(id: Uuid, now: Instant) returns (r: Result<Context>)
      requires Valid()
      modifies this
      ensures Valid()
      ensures r == old(Fetched(id, now))
      ensures store == old(store) && online == old(online)
      ensures var probed := AfterProbe(old(failures), old(lastFailure), now);
        if r.Err? && r.error.RedisError? then failures == probed.0 + 1 && lastFailure == Some(now)
        else failures == probed.0 && lastFailure == probed.1
    {
      var key := ContextKey(id);
      var open := IsCircuitOpen(now);
      if open {
        RecordFailure(now);
        return Err(RedisError("Failed to retrieve context: Circuit breaker is open"));
      }
      if !online {
        RecordFailure(now);
        return Err(RedisError("Failed to retrieve context: connection failed"));
      }
      var raw := Lookup(store, key, now);
      r := DecodeStored(raw, codec, now);
    }

    /** What `update_context` answers for `context` at `now` in the current
        state: a ValueError when the compressed form is not text, a RedisError
        while Redis is down, otherwise true. */
    function UpdateOutcome(id: Uuid, context: Context, now: Instant): (r: Result<bool>)
      reads this
      ensures var payload := StoredPayload(codec.encode(Stamp(context, now)), codec);
        && (r.Ok? <==> online && payload.Ok?)
        && (payload.Err? ==> r == Err(payload.error))
        && (payload.Ok? && !online ==> r.Err? && r.error.RedisError?)
      ensures r.Ok? ==> r.value
    {
      var payload := StoredPayload(codec.encode(Stamp(context, now)), codec);
      if payload.Err? then Err(payload.error)
      else if !online then Err(RedisError("Failed to update context: connection failed"))
      else Ok(true)
    }

    /** The keyspace after `update_context`: the conversation's key holds the
        stored payload for `ContextTtl` seconds; nothing changes on failure. */
    function StoreAfterUpdate(id: Uuid, context: Context, now: Instant): (r: map<string, StoredEntry>)
      requires Valid()
      reads this
      ensures UpdateOutcome(id, context, now).Err? ==> r == store
      ensures UpdateOutcome(id, context, now).Ok? ==>
        && r.Keys == store.Keys + {ContextKey(id)}
        && Lookup(r, ContextKey(id), now) == Some(StoredPayload(codec.encode(Stamp(context, now)), codec).value)
        && r[ContextKey(id)].expiresAt == now + contextTtl * MicrosPerSecond
        && (forall later :: Lookup(r, ContextKey(id), later).Some? <==> later < now + contextTtl * MicrosPerSecond)
        && (forall k :: k in store && k != ContextKey(id) ==> r[k] == store[k])
    {
      var payload := StoredPayload(codec.encode(Stamp(context, now)), codec);
      if payload.Err? || !online then store
      else store[ContextKey(id) := StoredEntry(payload.value, now + contextTtl * MicrosPerSecond)]
    }

    /** A context written uncompressed is read back, stamped, from the new
        keyspace until its TTL runs out, provided JSON parsing inverts
        serialisation. */
    lemma UpdateThenFetch(id: Uuid, context: Context, now: Instant, later: Instant)
      requires Valid()
      requires UpdateOutcome(id, context, now).Ok?
      requires var json := codec.encode(Stamp(context, now));
        && codec.decode(json) == Some(Stamp(context, now))
        && json != "" && !StartsWith(json, CompressedPrefix) && !CompressionPays(json, codec)
      requires now <= later < now + contextTtl * MicrosPerSecond
      ensures DecodeStored(Lookup(StoreAfterUpdate(id, context, now), ContextKey(id), later), codec, later)
        == Ok(Stamp(context, now))
    {
      PlainRoundTrip(Stamp(context, now), codec, later);
    }

    /** `update_context`: stamps the context, serialises it, compresses when
        that pays, and SETEX-es it under the conversation's key with the
        service's TTL. The circuit is not consulted; a Redis failure is
        recorded. */
    method UpdateContext(id: Uuid, context: Context, now: Instant) returns (r: Result<bool>)
      requires Valid()
      modifies this
      ensures Valid()
      ensures r == old(UpdateOutcome(id, context, now))
      ensures store == old(StoreAfterUpdate(id, context, now))
      ensures online == old(online)
      ensures if r.Err? && r.error.RedisError? then failures == old(failures) + 1 && lastFailure == Some(now)
        else failures == old(failures) && lastFailure == old(lastFailure)
    {
      var key := ContextKey(id);
      var stamped := Stamp(context, now);
      var payload := StoredPayload(codec.encode(stamped), codec);
      if payload.Err? {
        return Err(payload.error);
      }
      if !online {
        RecordFailure(now);
        return Err(RedisError("Failed to update context: connection failed"));
      }
      store := store[key := StoredEntry(payload.value, now + contextTtl * MicrosPerSecond)];
      r := Ok(true);
    }

    /** `clear_context`: DEL of the conversation's key, answering whether a
        live value was there; deleting an absent key succeeds with false. */
    method ClearContext(id: Uuid, now: Instant) returns (r: Result<bool>)
      requires Valid()
      modifies this
      ensures Valid()
      ensures online == old(online)
      ensures !online ==>
        r.Err? && r.error.RedisError? && store == old(store)
        && failures == old(failures) + 1 && lastFailure == Some(now)
      ensures online ==>
        && r == Ok(Lookup(old(store), ContextKey(id), now).Some?)
        && store == old(store) - {ContextKey(id)}
        && Lookup(store, ContextKey(id), now) == None
        && failures == old(failures) && lastFailure == old(lastFailure)
    {
      var key := ContextKey(id);
      if !online {
        RecordFailure(now);
        return Err(RedisError("Failed to clear context: connection failed"));
      }
      var present := Lookup(store, key, now).Some?;
      store := store - {key};
      r := Ok(present);
    }
  }
}
