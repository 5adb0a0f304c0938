/** The orchestration of services/llm_service.py: classification with its
    fallback intent, the reply-or-handoff decision, the empty-reply check, and
    `process_message`, which reads the context, answers, and writes the
    context back two entries longer. The OpenAI calls are the parameters
    `classifier` (the classifier's reply, already run through `json.loads`)
    and `generator` (the generator's reply); either may fail with an APIError
    or return no content, and both are shown only the last five context
    entries. */
module LlmService {
  import opened Common
  import opened Text
  import opened IntentModel
  import opened ConversationModel
  import opened ContextStore

  /** An intent below this confidence is never answered automatically. */
  const ReplyThreshold: real := 0.7
  const HandoffReply: string := "Connecting you with a human agent..."
  /** Prompts carry this many of the latest context entries. */
  const PromptWindow: nat := 5

  /** The classifier's reply after `json.loads`: an APIError from the call,
      a reply with no content (`None`), not JSON, a JSON object missing one of
      the three keys, some other JSON value, or an object with the three
      entries. */
  datatype RawClassification =
    | ClassifierFailed(reason: string)
    | ClassifierNoContent
    | Unparseable
    | MissingField
    | NotAnObject
    | Parsed(typeName: string, confidence: real, requiresHuman: bool)

  /** The generator's reply: an APIError from the call, no content (`None`),
      or the reply text. */
  datatype RawReply =
    | GeneratorFailed(reason: string)
    | ReplyNoContent
    | Replied(text: string)

  type Classifier = (string, seq<ContextEntry>) -> RawClassification
  type Generator = (string, Intent, seq<ContextEntry>) -> RawReply

  /** The intent used when the classifier's reply cannot be read. */
  const FallbackIntent: Intent := Intent(Unknown, 0.0, true, map[])

  /** The context entries a prompt shows. */
  function PromptContext(entries: seq<ContextEntry>): (r: seq<ContextEntry>)
    ensures |r| == Min(PromptWindow, |entries|)
    ensures r == entries[|entries| - |r|..]
  {
    LastN(entries, PromptWindow)
  }

  /** `classify_intent` after the API call: an APIError is re-raised; a JSON
      error or missing key gives the fallback intent; an unknown type name or
      a confidence outside [0, 1] is a ValidationError, and a non-object reply
      or no content at all a TypeError, all raised. The intent carries no
      metadata. */
  function ClassifyIntent(raw: RawClassification): (r: Result<Intent>)
    ensures raw.ClassifierFailed? ==> r == Err(ApiError(raw.reason))
    ensures raw.Unparseable? || raw.MissingField? ==> r == Ok(FallbackIntent)
    ensures raw.NotAnObject? || raw.ClassifierNoContent? ==> r.Err? && r.error.TypeError?
    ensures raw.Parsed? ==>
      (r.Ok? <==> ParseIntentType(raw.typeName).Some? && 0.0 <= raw.confidence <= 1.0)
    ensures raw.Parsed? && r.Ok? ==>
      && TypeValue(r.value.kind) == raw.typeName
      && r.value.confidence == raw.confidence
      && r.value.requiresHuman == raw.requiresHuman
    ensures r.Ok? ==> r.value.metadata == map[]
    ensures r.Err? ==> r.error.TypeError? || r.error.ValidationError? || r.error.ApiError?
  {
    match raw
    case ClassifierFailed(reason) => Err(ApiError(reason))
    case ClassifierNoContent => Err(TypeError("the JSON object must be str, bytes or bytearray, not NoneType"))
    case Unparseable => Ok(FallbackIntent)
    case MissingField => Ok(FallbackIntent)
    case NotAnObject => Err(TypeError("string indices must be integers"))
    case Parsed(name, confidence, requiresHuman) =>
      var kind := ParseIntentType(name);
      var badFields := (if kind.None? then ["type"] else [])
        + (if !(0.0 <= confidence <= 1.0) then ["confidence"] else []);
      if badFields != [] then Err(ValidationError(badFields))
      else Ok(Intent(kind.value, confidence, requiresHuman, map[]))
  }

  /** The fallback intent hands off under both handoff rules. */
  lemma FallbackHandsOff(threshold: real)
    requires 0.0 <= threshold <= 1.0
    ensures IntentShouldHandoff(FallbackIntent) == Ok(true)
    ensures ShouldHandoff(FallbackIntent, threshold) == Ok(true)
  {
  }

  /** `generate_response` after the API call: the stripped reply, or a
      ValueError when nothing but whitespace came back; an APIError is
      re-raised, and a reply without content fails on `.strip()`. */
  function GenerateResponse(raw: RawReply): (r: Result<string>)
    ensures r.Ok? <==> raw.Replied? && !AllSpace(raw.text)
    ensures r.Ok? ==> r.value == Strip(raw.text) && r.value != []
    ensures r.Ok? ==> !IsSpace(r.value[0]) && !IsSpace(r.value[|r.value| - 1])
    ensures raw.Replied? && r.Err? ==> r.error == ValueError("Empty response from LLM")
    ensures raw.GeneratorFailed? ==> r == Err(ApiError(raw.reason))
    ensures raw.ReplyNoContent? ==> r.Err? && r.error.AttributeError?
  {
    match raw
    case GeneratorFailed(reason) => Err(ApiError(reason))
    case ReplyNoContent => Err(AttributeError("'NoneType' object has no attribute 'strip'"))
    case Replied(reply) =>
      StripEmptyIffAllSpace(reply);
      var text := Strip(reply);
      if text == [] then Err(ValueError("Empty response from LLM")) else Ok(text)
  }

  /** The branch condition of `process_message`,
      `confidence >= 0.7 and not should_handoff()`: true means an automated
      reply. The handoff rule is only consulted (and so can only raise) when
      the confidence reaches 0.7. */
  function ReplyDecision(i: Intent): (r: Result<bool>)
    ensures i.confidence < ReplyThreshold ==> r == Ok(false)
    ensures r.Err? ==> r.error.TypeError?
  {
    if i.confidence < ReplyThreshold then Ok(false)
    else
      match IntentShouldHandoff(i)
      case Err(e) => Err(e)
      case Ok(handoff) => Ok(!handoff)
  }

  /** The confidence test in the branch is redundant: the intent's own rule
      already hands off below 0.7, so the decision is exactly the negated
      handoff rule, errors included. */
  lemma ReplyIffNoHandoff(i: Intent)
    ensures IntentShouldHandoff(i).Err? <==> ReplyDecision(i).Err?
    ensures IntentShouldHandoff(i).Ok? ==> ReplyDecision(i) == Ok(!IntentShouldHandoff(i).value)
  {
  }

  /** What one processed message produces: the inbound message with its
      intent set, the reply, the classified intent and the context to be
      written back. */
  datatype Exchange = Exchange(inbound: Message, reply: Message, intent: Intent, context: Context)

  /** The pure part of `process_message`, from the context read to the
      context to be written. The reply gets `replyId` and `now`. */
  function Respond(context: Context, message: Message, conversationId: Uuid, now: Instant,
                   replyId: Uuid, classifier: Classifier, generator: Generator): (r: Result<Exchange>)
    ensures var classified := ClassifyIntent(classifier(message.content, PromptContext(context.messages)));
      && (classified.Err? ==> r == Err(classified.error))
      && (r.Ok? ==> classified == Ok(r.value.intent))
    ensures r.Ok? ==>
      && r.value.inbound == message.(intent := Some(r.value.intent))
      && r.value.reply.conversationId == conversationId
      && r.value.reply.direction == Outbound
      && r.value.reply.aiConfidence == r.value.intent.confidence
      && r.value.reply.intent == Some(r.value.intent)
      && r.value.context == context.(messages := context.messages + [Full(r.value.inbound), Full(r.value.reply)])
    ensures var classified := ClassifyIntent(classifier(message.content, PromptContext(context.messages)));
      classified.Ok? ==>
        var decision := ReplyDecision(classified.value);
        && (decision.Err? ==> r == Err(decision.error))
        && (decision == Ok(false) ==> r.Ok? && r.value.reply.content == HandoffReply)
        && (decision == Ok(true) ==>
              (r.Ok? <==> GenerateResponse(generator(message.content, classified.value, PromptContext(context.messages))).Ok?))
        && (decision == Ok(true) && r.Err? ==>
              r == Err(GenerateResponse(generator(message.content, classified.value, PromptContext(context.messages))).error))
    ensures r.Ok? ==> ReplyDecision(r.value.intent).Ok?
    ensures r.Ok? && ReplyDecision(r.value.intent) == Ok(false) ==> r.value.reply.content == HandoffReply
    ensures r.Ok? && ReplyDecision(r.value.intent) == Ok(true) ==>
      Ok(r.value.reply.content) == GenerateResponse(generator(message.content, r.value.intent, PromptContext(context.messages)))
  {
    var window := PromptContext(context.messages);
    var intent :- ClassifyIntent(classifier(message.content, window));
    var inbound := message.(intent := Some(intent));
    var reply :- ReplyDecision(intent);
    var text :- if reply then GenerateResponse(generator(message.content, intent, window)) else Ok(HandoffReply);
    var response := Message(replyId, conversationId, text, Outbound, intent.confidence, Some(intent), map[], now, now);
    Ok(Exchange(inbound, response, intent, context.(messages := context.messages + [Full(inbound), Full(response)])))
  }

  /** On the handoff path the generator is never consulted: any two
      generators give the same exchange. */
  lemma HandoffIgnoresGenerator(context: Context, message: Message, conversationId: Uuid, now: Instant,
                                replyId: Uuid, classifier: Classifier, g1: Generator, g2: Generator)
    requires var classified := ClassifyIntent(classifier(message.content, PromptContext(context.messages)));
      classified.Ok? && ReplyDecision(classified.value) == Ok(false)
    ensures Respond(context, message, conversationId, now, replyId, classifier, g1).Ok?
    ensures Respond(context, message, conversationId, now, replyId, classifier, g2)
         == Respond(context, message, conversationId, now, replyId, classifier, g1)
  {
  }

  /** Contexts that agree on their last five entries give the same intent and
      the same reply: nothing older reaches the prompts. */
  lemma OnlyLastFiveEntriesMatter(c1: Context, c2: Context, message: Message, conversationId: Uuid,
                                  now: Instant, replyId: Uuid, classifier: Classifier, generator: Generator)
    requires PromptContext(c1.messages) == PromptContext(c2.messages)
    ensures var r1 := Respond(c1, message, conversationId, now, replyId, classifier, generator);
      var r2 := Respond(c2, message, conversationId, now, replyId, classifier, generator);
      && r1.Ok? == r2.Ok?
      && (r1.Ok? ==> r1.value.intent == r2.value.intent && r1.value.reply == r2.value.reply)
  {
  }

  class LlmService {
    const contexts: ContextService
    const classifier: Classifier
    const generator: Generator

    constructor (contexts: ContextService, classifier: Classifier, generator: Generator)
      ensures this.contexts == contexts && this.classifier == classifier && this.generator == generator
    {
      this.contexts := contexts;
      this.classifier := classifier;
      this.generator := generator;
    }

    /** `process_message`: reads the conversation's context (raising what the
        read raises), answers with `Respond`, and writes the grown context back
        under the conversation's id, raising what the write raises. */
    method ProcessMessage(message: Message, conversationId: Uuid, now: Instant, replyId: Uuid)
      returns (r: Result<Exchange>)
      requires contexts.Valid()
      modifies contexts
      ensures contexts.Valid()
      ensures contexts.online == old(contexts.online)
      ensures var fetched := old(contexts.Fetched(conversationId, now));
        && (fetched.Err? ==> r == Err(fetched.error) && contexts.store == old(contexts.store))
        && (fetched.Ok? ==>
              var exchange := Respond(fetched.value, message, conversationId, now, replyId, classifier, generator);
              && (exchange.Err? ==> r == Err(exchange.error) && contexts.store == old(contexts.store))
              && (exchange.Ok? ==>
                    var written := old(contexts.UpdateOutcome(conversationId, exchange.value.context, now));
                    && contexts.store == old(contexts.StoreAfterUpdate(conversationId, exchange.value.context, now))
                    && (written.Err? ==> r == Err(written.error))
                    && (written.Ok? ==> r == exchange)))
    {
      var fetched := contexts.GetConversationContext(conversationId, now);
      if fetched.Err? {
        return Err(fetched.error);
      }
      var exchange := Respond(fetched.value, message, conversationId, now, replyId, classifier, generator);
      if exchange.Err? {
        return Err(exchange.error);
      }
      var written := contexts.UpdateContext(conversationId, exchange.value.context, now);
      if written.Err? {
        return Err(written.error);
      }
      r := exchange;
    }
  }
}
