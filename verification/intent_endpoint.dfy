/** The intent endpoint of api/endpoints/intent.py: validation of the
    request's message, the classification response with its stricter 0.85
    handoff threshold and merged metadata, and the list of intent types. */
module IntentEndpoint {
  import opened Common
  import opened Text
  import opened IntentModel
  import opened ConversationModel
  import opened ContextStore
  import opened LlmService

  const MaxMessageLength: nat := 1000
  const ConfidenceThreshold: real := 0.85
  const ServiceVersion: string := "1.0.0"

  /** A validated `IntentRequest`: the stripped message, the context
      entries handed to the classifier, and the caller's metadata. */
  datatype IntentRequest = IntentRequest(message: string, context: seq<ContextEntry>, metadata: Metadata)

  datatype IntentResponse = IntentResponse(
    typeName: string,
    confidence: real,
    requiresHuman: bool,
    metadata: Metadata)

  /** The `message` field of `IntentRequest`: the length bound is checked
      first, on the text as sent; then an empty or all-whitespace message is
      rejected; an accepted message is stored stripped. */
  function ValidateMessage(raw: string): (r: Result<string>)
    ensures r.Ok? <==> |raw| <= MaxMessageLength && !AllSpace(raw)
    ensures r.Ok? ==> r.value == Strip(raw) && r.value != [] && |r.value| <= MaxMessageLength
    ensures r.Ok? ==> !IsSpace(r.value[0]) && !IsSpace(r.value[|r.value| - 1])
    ensures r.Err? ==> r.error == ValidationError(["message"])
  {
    StripEmptyIffAllSpace(raw);
    if |raw| > MaxMessageLength then Err(ValidationError(["message"]))
    else if raw == [] || IsSpaceString(raw) then Err(ValidationError(["message"]))
    else Ok(Strip(raw))
  }

  /** An accepted message is accepted again unchanged. */
  lemma ValidateMessageIdempotent(raw: string)
    requires ValidateMessage(raw).Ok?
    ensures ValidateMessage(ValidateMessage(raw).value) == ValidateMessage(raw)
  {
    StripIdempotent(raw);
  }

  /** Padding counts against the length bound: 1001 characters whose
      stripped form is a single letter are rejected. */
  lemma PaddedMessageRejected(pad: string)
    requires |pad| == MaxMessageLength && AllSpace(pad)
    ensures ValidateMessage(pad + "a").Err?
    ensures ValidateMessage(pad[1..] + "a") == Ok("a")
  {
    var s := pad[1..] + "a";
    assert s[..|s| - 1] == pad[1..];
    assert TrimStart(s) == "a" by {
      TrimStartSkipsSpace(pad[1..], "a");
    }
  }

  /** Leading whitespace is dropped by `TrimStart` up to the first
      non-whitespace character. */
  lemma {:induction false} TrimStartSkipsSpace(pad: string, rest: string)
    requires AllSpace(pad)
    requires rest != [] && !IsSpace(rest[0])
    ensures TrimStart(pad + rest) == rest
  {
    if pad != [] {
      assert (pad + rest)[1..] == pad[1..] + rest;
      TrimStartSkipsSpace(pad[1..], rest);
    } else {
      assert pad + rest == rest;
    }
  }

  /** The response metadata `{**serialised, **requested, "threshold": 0.85,
      "service_version": "1.0.0"}`: later entries win. */
  function ResponseMetadata(serialised: Metadata, requested: Metadata): (r: Metadata)
    ensures r.Keys == serialised.Keys + requested.Keys + {"threshold", "service_version"}
    ensures r["threshold"] == Number(ConfidenceThreshold)
    ensures r["service_version"] == Text(ServiceVersion)
    ensures forall k :: k in requested && k != "threshold" && k != "service_version" ==>
      r[k] == requested[k]
    ensures forall k :: k in serialised && k !in requested && k != "threshold" && k != "service_version" ==>
      r[k] == serialised[k]
  {
    serialised + requested + map["threshold" := Number(ConfidenceThreshold), "service_version" := Text(ServiceVersion)]
  }

  /** `classify_message_intent` for a validated request: the intent from the
      classifier (shown the last five context entries), `requires_human` from
      `should_handoff(0.85)`, and the intent's serialised form merged with the
      request metadata. */
  function ClassifyMessageIntent(request: IntentRequest, classifier: Classifier): (r: Result<IntentResponse>)
    ensures var classified := ClassifyIntent(classifier(request.message, PromptContext(request.context)));
      && (r.Ok? <==> classified.Ok?)
      && (classified.Err? ==> r == Err(classified.error))
      && (r.Ok? ==>
            && r.value.typeName == TypeValue(classified.value.kind)
            && r.value.confidence == classified.value.confidence
            && r.value.requiresHuman == (ShouldHandoff(classified.value, ConfidenceThreshold) == Ok(true))
            && r.value.metadata == ResponseMetadata(ToDict(classified.value), request.metadata))
  {
    var intent :- ClassifyIntent(classifier(request.message, PromptContext(request.context)));
    var handoff := ShouldHandoff(intent, ConfidenceThreshold);
    Ok(IntentResponse(
      TypeValue(intent.kind),
      intent.confidence,
      handoff == Ok(true),
      ResponseMetadata(ToDict(intent), request.metadata)))
  }

  /** `classify_message_intent` as it runs: `classify_intent` builds the
      conversation model's `Intent`, whose `should_handoff` takes no
      threshold, so the call `should_handoff(0.85)` raises TypeError whenever
      classification succeeds, and the endpoint never answers. */
  function ClassifyMessageIntentAsWritten(request: IntentRequest, classifier: Classifier): (r: Result<IntentResponse>)
    ensures var classified := ClassifyIntent(classifier(request.message, PromptContext(request.context)));
      && (classified.Err? ==> r == Err(classified.error))
      && (classified.Ok? ==> r.Err? && r.error.TypeError?)
    ensures r.Err?
  {
    var intent :- ClassifyIntent(classifier(request.message, PromptContext(request.context)));
    Err(TypeError("should_handoff() takes 1 positional argument but 2 were given"))
  }

  /** The question of `QuestionAtPointEightFlagged` gets no answer as written,
      but is answered (and flagged) by the endpoint as its import intends. */
  lemma QuestionAtPointEightAsWritten(request: IntentRequest, classifier: Classifier)
    requires classifier(request.message, PromptContext(request.context)) == Parsed("question", 0.8, false)
    ensures ClassifyMessageIntentAsWritten(request, classifier).Err?
    ensures ClassifyMessageIntent(request, classifier).Ok?
  {
  }

  /** A question classified at 0.8 is flagged for a human here, although it
      clears the 0.7 threshold that the conversation flow uses. */
  lemma QuestionAtPointEightFlagged(request: IntentRequest, classifier: Classifier)
    requires classifier(request.message, PromptContext(request.context)) == Parsed("question", 0.8, false)
    ensures ClassifyMessageIntent(request, classifier).Ok?
    ensures ClassifyMessageIntent(request, classifier).value.requiresHuman
    ensures IntentShouldHandoff(Intent(Question, 0.8, false, map[])) == Ok(false)
  {
  }

  /** The endpoint flag is never weaker than the model's default-threshold
      rule: anything handed off at 0.7 is flagged at 0.85. */
  lemma EndpointFlagCoversDefault(request: IntentRequest, classifier: Classifier)
    requires ClassifyMessageIntent(request, classifier).Ok?
    requires ShouldHandoff(ClassifyIntent(classifier(request.message, PromptContext(request.context))).value, DefaultThreshold) == Ok(true)
    ensures ClassifyMessageIntent(request, classifier).value.requiresHuman
  {
    var intent := ClassifyIntent(classifier(request.message, PromptContext(request.context))).value;
    HandoffMonotonic(intent, DefaultThreshold, intent.confidence, ConfidenceThreshold);
  }

  /** `get_intent_types`: the enum values in declaration order. */
  function GetIntentTypes(): (r: seq<string>)
    ensures |r| == |AllIntentTypes|
    ensures forall k :: 0 <= k < |r| ==> ParseIntentType(r[k]) == Some(AllIntentTypes[k])
    ensures forall t: IntentType :: TypeValue(t) in r
  {
    var names := seq(|AllIntentTypes|, k requires 0 <= k < |AllIntentTypes| => TypeValue(AllIntentTypes[k]));
    assert forall t: IntentType :: TypeValue(t) == names[IndexOf(t)];
    names
  }

  /** The position of each member in declaration order. */
  function IndexOf(t: IntentType): (k: nat)
    ensures k < |AllIntentTypes| && AllIntentTypes[k] == t
  {
    match t
    case Greeting => 0
    case Question => 1
    case Complaint => 2
    case RequestHuman => 3
    case Farewell => 4
    case Unknown => 5
  }

  /** The list the types endpoint returns. */
  lemma IntentTypeNames()
    ensures GetIntentTypes() == ["greeting", "question", "complaint", "request_human", "farewell", "unknown"]
  {
  }
}
