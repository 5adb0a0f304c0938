# AI SMS gateway: handoff decision core, in Dafny

This project models the decision core of the AI service of an SMS lead
gateway. That service receives an inbound message for a conversation and
classifies its intent with a language model. It then either answers
automatically or hands the conversation to a human agent. It keeps a rolling,
versioned context of recent turns in Redis. The model covers the following
parts.

- **Intent records** (`models/intent.py`, `IntentModel`):
  - the six intent types;
  - construction, which stamps the metadata;
  - the threshold-taking `should_handoff` with its complaint rule;
  - the serialised form.
- **Conversation aggregate** (`models/conversation.py`, `ConversationModel`):
  - the second `should_handoff`, with a fixed 0.7 threshold and the sentiment and urgency rules;
  - the `Conversation` class, whose `AddMessage` keeps `ai_confidence_avg` equal to the mean confidence of all messages appended so far (a class invariant);
  - the conversation-level handoff rule, with the clock passed in.
- **Context store** (`services/context_service.py`, `ContextStore`):
  - the key format;
  - the projection of a conversation into a context, keeping the last 10 turns;
  - empty-on-miss decoding and the compress-or-not decision;
  - the `ContextService` class: the Redis keyspace as a map with expiry instants, and the circuit breaker as a failure counter and last-failure time.
- **Orchestration** (`services/llm_service.py`, `LlmService`):
  - the classifier fallback and the empty-reply check;
  - the choice between reply and handoff, and the placeholder reply;
  - `process_message`, which reads the context, answers, and writes the context back two entries longer.
- **Endpoints** (`api/endpoints/conversation.py` and `api/endpoints/intent.py`):
  - the best-effort conversation update after a response, which swallows errors and can leave partial state;
  - the status assignment;
  - message validation;
  - the 0.85-threshold classification response;
  - the list of intent types.
- **Settings** (`config.py`, `Config`): the validators, the numeric bounds and the context TTL that reaches the context service.

The model keeps the two `should_handoff` rules apart on purpose. They disagree:

- `HandoffRulesDiverge` exhibits a complaint at 0.85, and a question at 0.95 with `sentiment_score` 0.2.
- `HandoffRulesAgree` states when the two rules coincide.
- The conversation rule compares `sentiment_score` with `<`. For a text, null or object value, Python raises TypeError. The model carries that error (a `Result`) through `add_message`. There, the append, the average and the current intent have already changed when the exception leaves.

How values are represented:

- Time is an integer count of microseconds (`Instant`). Every clock read is a `now` parameter.
- Confidences and averages are reals.
- Metadata dictionaries are maps to a small JSON-like `Value` type.
- JSON, zlib and UTF-8 decoding are the uninterpreted functions of a `Codec` value.
- The language-model calls are the function parameters `classifier` and `generator`. Their replies include an APIError and a reply without content.
- Whether Redis answers is the `online` field of the service.

Points where the code does less than its comments or names suggest; the model follows the code except where noted:

- The circuit breaker (`services/context_service.py:85-91`, `:274-293`) guards only `get_conversation_context` (`:112`). `update_context` and `clear_context` never consult it, but they still record failures.
- A success never resets the failure count. Only the 30 s timeout resets it, so the failures need not be consecutive.
- The comment at `services/context_service.py:131` says `raw_data[10:]` removes the `compressed:` prefix. That prefix has 11 characters, so the slice keeps its final `:` and the decompressor sees it. The model therefore claims a round trip only for contexts stored uncompressed (`PlainRoundTrip`, `ContextService.UpdateThenFetch`).
- The intent endpoint is the exception: it is modelled as its import of `models/intent.py` intends, and the code as it runs is a row under "## Findings".

## Model

All source paths are under `src/backend/services/ai/src/`.

| member | source | states |
|---|---|---|
| IntentModel.ParseIntentType | src/backend/services/ai/src/models/intent.py:15-26 | a string names an intent type exactly when it is one of the six enum values, and the lookup returns the member with that value |
| IntentModel.IntentTypesEnumerated | src/backend/services/ai/src/models/intent.py:15-26 | every member is in the declaration-order list and its value reads back as that member |
| IntentModel.NewIntent | src/backend/services/ai/src/models/intent.py:44-90 | construction fails (ValidationError on `confidence`) exactly when the confidence is outside [0, 1]; otherwise it keeps type, confidence and flag, keeps every caller metadata key, and adds `created_at` and `model_version = "1.0.0"` |
| IntentModel.ShouldHandoff | src/backend/services/ai/src/models/intent.py:92-106 | a threshold outside [0, 1] raises ValueError whatever the intent, and a valid one never raises |
| IntentModel.ExplicitRequestHandsOff | src/backend/services/ai/src/models/intent.py:109-118 | `requires_human` or type REQUEST_HUMAN always hands off, at any confidence |
| IntentModel.ThresholdBoundary | src/backend/services/ai/src/models/intent.py:113-114 | confidence strictly below the threshold hands off; confidence equal to it does not by itself |
| IntentModel.HandoffIffSomeRule | src/backend/services/ai/src/models/intent.py:105-124 | with a valid threshold the answer is true iff requires_human, confidence below threshold, REQUEST_HUMAN, or a complaint below 0.9 |
| IntentModel.HandoffMonotonic | src/backend/services/ai/src/models/intent.py:105-124 | lowering the confidence or raising the threshold never turns a handoff into none |
| IntentModel.ToDict | src/backend/services/ai/src/models/intent.py:126-143 | the serialised form has exactly the six keys, carries the intent's confidence, requires-human flag and metadata unchanged, its `should_handoff` is the 0.7 rule, its type reads back as the intent's, and `model_version` defaults to "1.0.0" |
| ConversationModel.LessThan | src/backend/services/ai/src/models/conversation.py:80 | Python `<` against a float: a number compares by value, a boolean as 1 (True) or 0 (False), anything else raises TypeError |
| ConversationModel.IntentShouldHandoff | src/backend/services/ai/src/models/conversation.py:62-86 | the rule raises TypeError exactly when no earlier rule fired and `sentiment_score` is neither a number nor a boolean |
| ConversationModel.IntentHandoffIffSomeRule | src/backend/services/ai/src/models/conversation.py:62-86 | for a numeric sentiment, true iff requires_human, confidence < 0.7, REQUEST_HUMAN, sentiment < 0.3 or a truthy `urgent` |
| ConversationModel.BareIntentHandoff | src/backend/services/ai/src/models/conversation.py:79-84 | with empty metadata (the default sentiment 1.0, no `urgent`) only the first three rules can fire |
| ConversationModel.HandoffRulesDiverge | src/backend/services/ai/src/models/conversation.py:62-86 | a complaint at 0.85 hands off under the intent-model rule but not here; a question at 0.95 with sentiment 0.2 hands off here but not there |
| ConversationModel.HandoffRulesAgree | src/backend/services/ai/src/models/conversation.py:62-86 | without the complaint, sentiment and urgency triggers the two rules give the same answer at 0.7 |
| ConversationModel.SumBounds | src/backend/services/ai/src/models/conversation.py:198-202 | a sum of n confidences lies in [0, n] |
| ConversationModel.MeanConfidenceInUnit | src/backend/services/ai/src/models/conversation.py:166-171 | the mean confidence (1.0 with no messages) lies in [0, 1], as the field's bounds require |
| ConversationModel.RunningMeanStep | src/backend/services/ai/src/models/conversation.py:198-202 | the weighted update `(avg*n + c)/(n+1)` (the source's `(avg*(n-1) + c)/n` with the new count n) of the mean over n messages is the mean over all n+1, the initial 1.0 dropping out when n = 0 |
| ConversationModel.Conversation.constructor | src/backend/services/ai/src/models/conversation.py:148-183 | a new conversation is ACTIVE with no messages, no intent, no agent and average 1.0, and satisfies the invariant |
| ConversationModel.Conversation.AddMessage | src/backend/services/ai/src/models/conversation.py:185-213 | a foreign message raises and changes nothing; otherwise exactly that message is appended, the average stays the mean of all messages, the intent follows the message, the status moves to HUMAN_NEEDED only when its intent hands off (never back), and a raising handoff rule leaves the partial update |
| ConversationModel.Conversation.ShouldHandoff | src/backend/services/ai/src/models/conversation.py:215-239 | true iff the current intent hands off, the average is below 0.7, the status is HUMAN_NEEDED, or more than 500 ms passed since the last message; it raises only when the intent rule raises |
| ConversationModel.HandoffIsSticky | src/backend/services/ai/src/models/conversation.py:228-230 | a HUMAN_NEEDED conversation never answers "no handoff", whatever the clock |
| ContextStore.ContextKey | src/backend/services/ai/src/services/context_service.py:107 | the key is `context:1.0:` followed by the conversation id |
| ContextStore.ContextKeyInjective | src/backend/services/ai/src/services/context_service.py:107 | two conversations share a key iff they are the same conversation |
| ContextStore.Lookup | src/backend/services/ai/src/services/context_service.py:116-119 | a GET sees a value only while its TTL has not run out |
| ContextStore.DecodeStored | src/backend/services/ai/src/services/context_service.py:121-138 | nothing or an empty string is the empty default context, not an error; a plain value decodes iff it parses, to the parsed context; a prefixed value is inflated from `raw[10:]`, which starts with `:`, and yields the context parsed from the inflated text; every failure is a ValueError |
| ContextStore.StoredPayload | src/backend/services/ai/src/services/context_service.py:178-188 | a payload of at most 1024 characters, or one whose compression ratio is not below 0.9, is stored as is; when compression pays, the write succeeds exactly when the compressed bytes decode as text, and stores `compressed:` followed by that text; only a compressed one can fail, with ValueError |
| ContextStore.PlainRoundTrip | src/backend/services/ai/src/services/context_service.py:128-135 | a context stored uncompressed reads back as itself when parsing inverts serialising |
| ContextStore.Stamp | src/backend/services/ai/src/services/context_service.py:174-175 | the stored context gets `updated_at` and version "1.0" and keeps its messages, metadata and creation time |
| ContextStore.BuildContext | src/backend/services/ai/src/services/context_service.py:235-272 | the summaries of the last min(10, n) messages in their original order, `message_count` n, lead, status and average copied, and `current_intent` present iff the conversation has one, with only its type and confidence |
| ContextStore.ElapsedSecondsField | src/backend/services/ai/src/services/context_service.py:281 | the `.seconds` field of the elapsed time always lies in [0, 86400) |
| ContextStore.ElapsedSeconds | src/backend/services/ai/src/services/context_service.py:281-282 | fewer than 30 whole seconds have elapsed iff less than 30 000 000 µs have |
| ContextStore.SecondsFieldWrapsAfterADay | src/backend/services/ai/src/services/context_service.py:281-283 | as written, a circuit whose last failure was a day and ten seconds ago reads as open |
| ContextStore.CircuitOpenWindow | src/backend/services/ai/src/services/context_service.py:276-283 | with at least 3 failures the circuit is open exactly during the 30 s after the last failure |
| ContextStore.AfterProbe | src/backend/services/ai/src/services/context_service.py:276-289 | the probe either leaves the count and last failure as they were or resets both to (0, None), and it resets exactly when the threshold was reached and the timeout has passed (or the count was already 0) |
| ContextStore.ContextService.constructor | src/backend/services/ai/src/services/context_service.py:81-91 | the TTL is the configured one, hence in [60, 86400]; the breaker starts with no failures |
| ContextStore.ContextService.Fetched | src/backend/services/ai/src/services/context_service.py:93-148 | an open circuit always yields RedisError; with the circuit closed and Redis up the result is the decoding of the live value under the conversation's key, the empty default context on a miss; every failure is a RedisError or a ValueError; a result needs Redis up |
| ContextStore.ContextService.IsCircuitOpen | src/backend/services/ai/src/services/context_service.py:274-289 | answers the open test on the old counters and leaves them as the probe does, the store untouched |
| ContextStore.ContextService.RecordFailure | src/backend/services/ai/src/services/context_service.py:291-294 | the count rises by exactly one and the last failure is now |
| ContextStore.ContextService.GetConversationContext | src/backend/services/ai/src/services/context_service.py:93-148 | returns what `Fetched` describes; a RedisError (an open-circuit rejection included) is recorded as a failure after the probe, a ValueError is not; the store is not changed |
| ContextStore.ContextService.UpdateOutcome | src/backend/services/ai/src/services/context_service.py:150-206 | an update answers true exactly when Redis is up and the payload can be formed; a payload error is returned as it is, and with the payload formed but Redis down the error is a RedisError |
| ContextStore.ContextService.StoreAfterUpdate | src/backend/services/ai/src/services/context_service.py:190-196 | a successful update sets the conversation's key to the payload, expiring `CONTEXT_TTL` seconds after `now` (visible at exactly the instants before then), and keeps every other key; a failed one changes nothing |
| ContextStore.ContextService.UpdateContext | src/backend/services/ai/src/services/context_service.py:150-206 | result and keyspace are those of `UpdateOutcome` and `StoreAfterUpdate`; only a RedisError is recorded as a failure |
| ContextStore.ContextService.UpdateThenFetch | src/backend/services/ai/src/services/context_service.py:121-138 | a context stored uncompressed reads back, stamped, at every instant before its TTL runs out, when JSON parsing inverts serialisation |
| ContextStore.ContextService.ClearContext | src/backend/services/ai/src/services/context_service.py:208-233 | with Redis up, the key is gone afterwards and the answer says whether a live value was there; with Redis down, a recorded RedisError and no change |
| LlmService.PromptContext | src/backend/services/ai/src/services/llm_service.py:203 | a prompt shows the last min(5, n) context entries in order |
| LlmService.ClassifyIntent | src/backend/services/ai/src/services/llm_service.py:217-242 | an APIError is re-raised; unparseable output or a missing key gives the fallback intent; an unknown type or out-of-range confidence is a ValidationError, and a non-object or absent reply a TypeError; a parsed intent copies the three fields and carries no metadata |
| LlmService.FallbackHandsOff | src/backend/services/ai/src/services/llm_service.py:232-238 | the fallback intent (UNKNOWN, 0.0, requires_human) hands off under both rules |
| LlmService.GenerateResponse | src/backend/services/ai/src/services/llm_service.py:286-295 | the reply is the stripped text, non-empty and unpadded, exactly when text came back that is not all whitespace; all whitespace raises "Empty response from LLM", an APIError is re-raised, and an absent reply fails on `.strip()` |
| LlmService.ReplyDecision | src/backend/services/ai/src/services/llm_service.py:144 | below 0.7 there is never an automated reply, and only the handoff rule's TypeError can make the test raise |
| LlmService.ReplyIffNoHandoff | src/backend/services/ai/src/services/llm_service.py:144 | the confidence test is redundant: a reply is generated exactly when the conversation-model rule says no handoff, and the test raises exactly when that rule does |
| LlmService.Respond | src/backend/services/ai/src/services/llm_service.py:138-172 | a classification error or a raising handoff rule propagates; on the handoff path the call succeeds with the placeholder reply; on the reply path it succeeds exactly when the generated text is not blank, else fails with that error; the inbound message gets the intent; the reply belongs to the conversation, is outbound and carries the intent and its confidence; the context grows by exactly the inbound message then the reply |
| LlmService.HandoffIgnoresGenerator | src/backend/services/ai/src/services/llm_service.py:159-167 | whenever classification succeeds and decides on a handoff, the call succeeds and any two generators give the same result |
| LlmService.OnlyLastFiveEntriesMatter | src/backend/services/ai/src/services/llm_service.py:201-268 | contexts that agree on their last five entries give the same intent and the same reply |
| LlmService.LlmService.constructor | src/backend/services/ai/src/services/llm_service.py:65-82 | the service keeps the context service and the two model calls it is given |
| LlmService.LlmService.ProcessMessage | src/backend/services/ai/src/services/llm_service.py:113-181 | a failed read or classification raises with the keyspace unchanged; otherwise the result is `Respond`'s exchange and the keyspace is what writing its context leaves, the write's failure being raised |
| ConversationEndpoint.ConversationEndpoints.constructor | src/backend/services/ai/src/api/endpoints/conversation.py:65-78 | the endpoints use the given context service |
| ConversationEndpoint.ConversationEndpoints.UpdateConversationStatus | src/backend/services/ai/src/api/endpoints/conversation.py:247-249 | the requested status is assigned with no transition check and `updated_at` stamped; nothing else changes |
| ConversationEndpoint.ConversationEndpoints.ApplyTurn | src/backend/services/ai/src/api/endpoints/conversation.py:303-309 | the inbound message is appended before the reply, the reply only if the first append completed; the status ends HUMAN_NEEDED when the intent hands off; when both messages carry that intent the override changes nothing; the agent and metadata are kept, and `updated_at` is `now` once both appends complete |
| ConversationEndpoint.ConversationEndpoints.UpdateConversation | src/backend/services/ai/src/api/endpoints/conversation.py:286-321 | never raises: the first error stops the sequence, leaves the partial state, and leaves the keyspace untouched; otherwise the context built from the updated conversation is written under its id; the agent and metadata are kept, and `updated_at` is `now` once both appends complete |
| IntentEndpoint.ValidateMessage | src/backend/services/ai/src/api/endpoints/intent.py:53-72 | accepted iff at most 1000 characters as sent and not empty or all whitespace; an accepted message is the stripped, non-empty text |
| IntentEndpoint.ValidateMessageIdempotent | src/backend/services/ai/src/api/endpoints/intent.py:67-72 | validating an accepted message again gives the same message |
| IntentEndpoint.PaddedMessageRejected | src/backend/services/ai/src/api/endpoints/intent.py:53-57 | the length bound applies before stripping: 1000 spaces and a letter are rejected, 999 spaces and a letter give the letter |
| IntentEndpoint.ResponseMetadata | src/backend/services/ai/src/api/endpoints/intent.py:141-146 | the merged metadata has the union of keys, with the request's entries over the intent's, and `threshold` 0.85 and `service_version` "1.0.0" last |
| IntentEndpoint.ClassifyMessageIntent | src/backend/services/ai/src/api/endpoints/intent.py:114-148 | the endpoint as its import of `models/intent.py` intends: fails iff classification fails; type and confidence are copied from the intent and `requires_human` is `should_handoff(0.85)` |
| IntentEndpoint.QuestionAtPointEightFlagged | src/backend/services/ai/src/api/endpoints/intent.py:134 | a question at 0.8 is flagged here although the 0.7 conversation rule would not hand it off |
| IntentEndpoint.ClassifyMessageIntentAsWritten | src/backend/services/ai/src/api/endpoints/intent.py:124-134 | as the code runs, a classification error propagates and every successful classification ends in TypeError, so the endpoint never answers |
| IntentEndpoint.QuestionAtPointEightAsWritten | src/backend/services/ai/src/api/endpoints/intent.py:134 | a question at 0.8 gets no answer as written but is answered by the intended endpoint |
| IntentEndpoint.EndpointFlagCoversDefault | src/backend/services/ai/src/api/endpoints/intent.py:134 | anything the 0.7 intent rule hands off is flagged at 0.85 |
| IntentEndpoint.GetIntentTypes | src/backend/services/ai/src/api/endpoints/intent.py:181-188 | one value per member, in declaration order, each naming its member |
| IntentEndpoint.IntentTypeNames | src/backend/services/ai/src/api/endpoints/intent.py:187 | the list is greeting, question, complaint, request_human, farewell, unknown |
| Config.ValidateEnvironment | src/backend/services/ai/src/config.py:102-108 | accepted iff its lower-case form is development, staging or production, and returned in that form |
| Config.ValidateEnvironmentIdempotent | src/backend/services/ai/src/config.py:102-108 | a normalised environment name validates to itself |
| Config.MixedCaseEnvironmentAccepted | src/backend/services/ai/src/config.py:106-108 | "Production" is accepted as "production" |
| Config.AbbreviatedEnvironmentRejected | src/backend/services/ai/src/config.py:106-108 | "prod" is rejected |
| Config.ValidateApiKey | src/backend/services/ai/src/config.py:126-131 | accepted unchanged iff it starts with `sk-` and has at least 20 characters |
| Config.SchemeLength | src/backend/services/ai/src/config.py:113-114 | the scheme is a case-insensitive `http://` or `https://` at the start |
| Config.AcceptedOriginHasScheme | src/backend/services/ai/src/config.py:113-124 | every accepted origin starts with `http://` or `https://` in some case |
| Config.ValidateOrigins | src/backend/services/ai/src/config.py:110-124 | the list is returned unchanged iff every origin matches; otherwise the error names the first origin that does not |
| Config.InvalidFields | src/backend/services/ai/src/config.py:41-131 | every field name is reported exactly when that field's validator or bound fails, and only field names are reported |
| Config.NoInvalidFieldsIff | src/backend/services/ai/src/config.py:41-131 | no field is reported iff the environment, origins and key validate and every numeric field is in bounds (PORT [1024, 65535], TEMPERATURE [0, 1], MAX_TOKENS [1, 2000], REDIS_PORT [1, 65535], REDIS_DB [0, 15], CONTEXT_TTL [60, 86400]) |
| Config.ValidateSettings | src/backend/services/ai/src/config.py:16-131 | a validated record is in bounds with its environment normalised and otherwise unchanged; a rejection names every failing field |
| Config.GetRedisConfig | src/backend/services/ai/src/config.py:148-171 | the connection fields and the TTL pass through, so a record in bounds yields a TTL in [60, 86400] |
| Config.ValidatedTtlInRange | src/backend/services/ai/src/config.py:170 | every validated settings record gives the context service its own TTL, in [60, 86400] |
| Text.TrimStart | src/backend/services/ai/src/services/llm_service.py:287 | the leading half of `strip()`: a suffix of the text that does not start with whitespace |
| Text.TrimStartDropsSpace | src/backend/services/ai/src/services/llm_service.py:287 | everything the leading half removes is whitespace |
| Text.TrimEnd | src/backend/services/ai/src/services/llm_service.py:287 | the trailing half of `strip()`: a prefix of the text that does not end with whitespace |
| Text.TrimEndDropsSpace | src/backend/services/ai/src/services/llm_service.py:287 | everything the trailing half removes is whitespace |
| Text.Strip | src/backend/services/ai/src/services/llm_service.py:287 | `strip()` neither starts nor ends with whitespace |
| Text.StripRemovesOnlySpace | src/backend/services/ai/src/services/llm_service.py:287 | `strip()` returns an infix of the text with only whitespace before and after it |
| Text.StripEmptyIffAllSpace | src/backend/services/ai/src/api/endpoints/intent.py:70-72 | stripping leaves nothing exactly when the text is empty or all whitespace |
| Text.StripIdempotent | src/backend/services/ai/src/api/endpoints/intent.py:72 | stripping twice is stripping once |

## Left out

- Intent stamping: the caller's `metadata` dictionary is updated in place (aliasing). The model builds a new map.
- The `datetime.utcnow()` clock is passed as `now`. ISO formatting of times is left out. `created_at` in intent metadata is an opaque string.
- Rounding: `round(confidence, 4)` in `to_dict` and all floating-point rounding are left out. Confidences and averages are reals.
- `Message.to_dict`, `Conversation.to_dict` and `__str__` are not modelled. A serialised message in the context is the `Full(message)` entry.
- The `min_length=1` bound on `Message.content` is not part of the `Message` datatype.
- `get_llm_config`, the OpenAI client configuration, prompt templates and token accounting are left out. The model calls are the `classifier` and `generator` parameters.
- Library and concurrency code is left out:
  - the `@retry`, `@limits`, `@circuit` and `@cache` decorators;
  - the asyncio queue and semaphore;
  - Prometheus metrics and the `ACTIVE_CONVERSATIONS` gauge;
  - `print` logging.
- Redis is a map with expiry instants plus an `online` flag. A connection failure is the flag being false. The text of a Redis exception is not modelled.
- JSON, zlib and UTF-8 decoding are uninterpreted `Codec` functions.
- No round trip is claimed for compressed contexts:
  - the read decompresses `raw[10:]`, which keeps the final `:` of the 11-character prefix;
  - the write calls `.decode()` on raw zlib bytes.
  - Whether these fail is up to the uninterpreted codec.
- `update_context` writes `updated_at` and `version` into the caller's dictionary. `process_message` appends to the context's list in place. The model returns the stamped or grown context as a value, so that aliasing is not captured.
- The `isinstance(context, dict)` check in `update_context` cannot fail on a typed `Context`.
- The origin regex: only the scheme prefix is modelled. The host, port and path part is the predicate parameter `hostPart`.
- Config.SchemeLength: folds case for ASCII letters only. Python's `re.IGNORECASE` on a str pattern also lets the long s (U+017F) match the `s` of `https?`, so the source accepts "httpſ://localhost" and the model rejects it.
- Environment names are lowered for ASCII letters only. For the outcome this matches Python's full `str.lower`: no other character lowers into the three names.
- `classify_intent` reads `context['messages']`. A request to the intent endpoint whose context has no `messages` list raises KeyError there. The model passes the entries directly.
- The intent endpoint's `metadata` may be `None` in the source. The model takes a map.
- `processing_time`, `LLMService(settings)` with one argument, and the placeholder `_get_conversation` are broken or placeholder code and are not modelled. The outbound `Message` is given an id (`replyId`), which the source omits.
- Pydantic coercion of classifier output, such as the string "0.8" to a float, is left out. `RawClassification.Parsed` already holds typed values.
- ValidateMessage: the length error and the blank-message error are both `ValidationError(["message"])`. Their texts are not distinguished.
- LlmService.LlmService.ProcessMessage: does not state the circuit-breaker counters after the call. Those are stated by the `GetConversationContext` and `UpdateContext` contracts it composes.
- ConversationEndpoint.ConversationEndpoints.UpdateConversation: does not state the circuit-breaker counters after the call, for the same reason.
- `main.py`, `api/router.py`, HTTP status mapping and the conversation endpoint's request handler are left out. The handler only calls `process_message` and schedules the update.

## Findings

| source | as written | input that shows it | evidently intended | confidence | as-written member | corrected member |
|---|---|---|---|---|---|---|
| src/backend/services/ai/src/services/context_service.py:281 | the elapsed time is read with `timedelta.seconds`, the seconds field, which drops whole days | three recorded failures, the last at t; the next read at t + 1 day + 10 s finds `.seconds` = 10 < 30, so the circuit reads as open and the read is rejected and recorded as another failure | the circuit reopens only during the 30 s after the last failure (`total_seconds()`) | not executed | ContextStore.SecondsFieldWrapsAfterADay | ContextStore.CircuitOpenWindow |
| src/backend/services/ai/src/api/endpoints/intent.py:134 | `classify_intent` returns the `Intent` of `models/conversation.py` (imported at `services/llm_service.py:26-31`), whose `should_handoff` takes no argument, so `should_handoff(CONFIDENCE_THRESHOLD)` raises TypeError; `to_dict` at :142 would not be reached | any request whose classification succeeds, e.g. a classifier reply of type "question" at 0.8: TypeError, reported as HTTP 500 | the endpoint of its own import (`models/intent.py`), answering with `requires_human = should_handoff(0.85)` | not executed | IntentEndpoint.ClassifyMessageIntentAsWritten | IntentEndpoint.ClassifyMessageIntent |

The `ContextService` class uses the corrected test (`ContextStore.CircuitOpen`, built on `ContextStore.ElapsedSeconds`), and the intent endpoint is modelled by the corrected `IntentEndpoint.ClassifyMessageIntent`.
