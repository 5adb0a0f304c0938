/** The conversation aggregate of models/conversation.py: message and status
    enums, the message record, the fixed-threshold handoff rule with its
    metadata triggers, and the Conversation object that `add_message` updates
    in place. */
module ConversationModel {
  import opened Common
  import opened IntentModel

  const HandoffThreshold: real := 0.7
  const SentimentFloor: real := 0.3
  /** MAX_RESPONSE_TIME_SLA, 500 ms, in microseconds. */
  const ResponseTimeSla: int := 500 * 1000

  datatype MessageDirection = Inbound | Outbound

  datatype ConversationStatus = Active | HumanNeeded | Completed | Archived

  /** A message; `aiConfidence` is kept in [0, 1] by validation. */
  datatype Message = Message(
    id: Uuid,
    conversationId: Uuid,
    content: string,
    direction: MessageDirection,
    aiConfidence: Confidence,
    intent: Option<Intent>,
    metadata: Metadata,
    createdAt: Instant,
    updatedAt: Instant)

  /** Python truthiness of a metadata value. */
  predicate Truthy(v: Value) {
    match v
    case Text(s) => s != ""
    case Number(r) => r != 0.0
    case Flag(b) => b
    case Null => false
    case Object(fields) => fields != map[]
  }

  /** Python's `v < bound` for a float bound: numbers and booleans compare
      (True is 1, False is 0); anything else raises TypeError. */
  function LessThan(v: Value, bound: real): (r: Result<bool>)
    ensures r.Err? <==> !(v.Number? || v.Flag?)
    ensures v.Number? ==> r == Ok(v.r < bound)
    ensures v.Flag? ==> r == Ok((if v.b then 1.0 else 0.0) < bound)
  {
    match v
    case Number(x) => Ok(x < bound)
    case Flag(b) => Ok((if b then 1.0 else 0.0) < bound)
    case _ => Err(TypeError("'<' not supported between instances"))
  }

  /** `metadata.get("sentiment_score", 1.0)`. */
  function Sentiment(i: Intent): Value {
    if "sentiment_score" in i.metadata then i.metadata["sentiment_score"] else Number(1.0)
  }

  /** `metadata.get("urgent", False)` is truthy. */
  predicate Urgent(i: Intent) {
    "urgent" in i.metadata && Truthy(i.metadata["urgent"])
  }

  /** `Intent.should_handoff()` of models/conversation.py: five guards in
      order with the threshold fixed at 0.7 and no complaint rule. The
      sentiment comparison raises when the stored score is not a number. */
  function IntentShouldHandoff(i: Intent): (r: Result<bool>)
    ensures r.Err? <==>
      && !i.requiresHuman
      && i.confidence >= HandoffThreshold
      && i.kind != RequestHuman
      && !(Sentiment(i).Number? || Sentiment(i).Flag?)
    ensures r.Err? ==> r.error.TypeError?
  {
    if i.requiresHuman then Ok(true)
    else if i.confidence < HandoffThreshold then Ok(true)
    else if i.kind == RequestHuman then Ok(true)
    else
      match LessThan(Sentiment(i), SentimentFloor)
      case Err(e) => Err(e)
      case Ok(low) => if low then Ok(true) else Ok(Urgent(i))
  }

  /** When the sentiment score compares, the guard chain is the disjunction
      of the five rules, in both directions. */
  lemma IntentHandoffIffSomeRule(i: Intent)
    requires Sentiment(i).Number?
    ensures IntentShouldHandoff(i) == Ok(
      || i.requiresHuman
      || i.confidence < HandoffThreshold
      || i.kind == RequestHuman
      || Sentiment(i).r < SentimentFloor
      || Urgent(i))
  {
  }

  /** An intent with no metadata (as the classifier builds them) never makes
      the rule raise, and then only the first three rules can fire. */
  lemma BareIntentHandoff(i: Intent)
    requires i.metadata == map[]
    ensures IntentShouldHandoff(i) == Ok(i.requiresHuman || i.confidence < HandoffThreshold || i.kind == RequestHuman)
  {
  }

  /** The two handoff rules disagree in both directions: a complaint at 0.85
      hands off only under models/intent.py, a question at 0.95 with sentiment
      score 0.2 only under models/conversation.py. */
  lemma HandoffRulesDiverge()
    ensures var complaint := Intent(Complaint, 0.85, false, map[]);
      ShouldHandoff(complaint, DefaultThreshold) == Ok(true) && IntentShouldHandoff(complaint) == Ok(false)
    ensures var unhappy := Intent(Question, 0.95, false, map["sentiment_score" := Number(0.2)]);
      ShouldHandoff(unhappy, DefaultThreshold) == Ok(false) && IntentShouldHandoff(unhappy) == Ok(true)
  {
  }

  /** Outside the complaint rule and the metadata triggers, the two rules
      agree at the default threshold. */
  lemma HandoffRulesAgree(i: Intent)
    requires !(i.kind == Complaint && i.confidence < ComplaintConfidence)
    requires Sentiment(i).Number? && Sentiment(i).r >= SentimentFloor
    requires !Urgent(i)
    ensures IntentShouldHandoff(i) == ShouldHandoff(i, DefaultThreshold)
  {
  }

  /** Sum of a sequence of reals, peeling off the last element. */
  function Sum(s: seq<real>): real {
    if s == [] then 0.0 else Sum(s[..|s| - 1]) + s[|s| - 1]
  }

  function Confidences(ms: seq<Message>): (r: seq<real>)
    ensures |r| == |ms|
    ensures forall k :: 0 <= k < |ms| ==> r[k] == ms[k].aiConfidence
  {
    seq(|ms|, k requires 0 <= k < |ms| => ms[k].aiConfidence as real)
  }

  /** The value `ai_confidence_avg` must have after the given appends to a
      fresh conversation: the initial 1.0 while there are none, otherwise the
      arithmetic mean of the message confidences. */
  function MeanConfidence(ms: seq<Message>): real {
    if ms == [] then 1.0 else Sum(Confidences(ms)) / (|ms| as real)
  }

  lemma {:induction false} SumBounds(s: seq<real>)
    requires forall k :: 0 <= k < |s| ==> 0.0 <= s[k] <= 1.0
    ensures 0.0 <= Sum(s) <= |s| as real
  {
    if s != [] {
      SumBounds(s[..|s| - 1]);
    }
  }

  /** The mean confidence always lies in [0, 1]. */
  lemma MeanConfidenceInUnit(ms: seq<Message>)
    ensures 0.0 <= MeanConfidence(ms) <= 1.0
  {
    if ms != [] {
      var s := Confidences(ms);
      SumBounds(s);
      var n := |ms| as real;
      assert Sum(s) / n <= n / n;
    }
  }

  /** The incremental update of `add_message`: the average of `n` values
      and one more value `c` averaged over `n + 1`. */
  function RunningMean(avg: real, n: nat, c: real): real {
    (avg * (n as real) + c) / ((n + 1) as real)
  }

  /** The incremental update turns the mean of the first n confidences into
      the mean of all n + 1; for n = 0 the initial 1.0 drops out. */
  lemma RunningMeanStep(ms: seq<Message>, m: Message, avg: real)
    requires avg == MeanConfidence(ms)
    ensures MeanConfidence(ms + [m]) == RunningMean(avg, |ms|, m.aiConfidence)
  {
    var s := Confidences(ms);
    var s' := Confidences(ms + [m]);
    assert s'[..|s'| - 1] == s;
    assert Sum(s') == Sum(s) + m.aiConfidence;
    if ms != [] {
      var n := |ms| as real;
      assert MeanConfidence(ms) * n == Sum(s);
    }
  }

  /** The intent of the most recently appended message that carries one. */
  function LatestIntent(ms: seq<Message>): Option<Intent> {
    if ms == [] then None
    else if ms[|ms| - 1].intent.Some? then ms[|ms| - 1].intent
    else LatestIntent(ms[..|ms| - 1])
  }

  /** Appending a message of the same conversation keeps the facts `Valid`
      states about the message list: the ids agree, the latest intent is the
      new message's if it has one, and the mean stays within [0, 1]. */
  lemma AppendKeepsInvariant(ms: seq<Message>, m: Message, id: Uuid)
    requires forall k :: 0 <= k < |ms| ==> ms[k].conversationId == id
    requires m.conversationId == id
    ensures forall k :: 0 <= k < |ms + [m]| ==> (ms + [m])[k].conversationId == id
    ensures LatestIntent(ms + [m]) == if m.intent.Some? then m.intent else LatestIntent(ms)
    ensures 0.0 <= MeanConfidence(ms + [m]) <= 1.0
  {
    MeanConfidenceInUnit(ms + [m]);
    assert (ms + [m])[..|ms|] == ms;
  }

  class Conversation {
    const id: Uuid
    const leadId: Uuid
    var status: ConversationStatus
    var messages: seq<Message>
    var currentIntent: Option<Intent>
    var humanAgentId: Option<Uuid>
    var aiConfidenceAvg: real
    var metadata: Metadata
    const createdAt: Instant
    var updatedAt: Instant

    /** The object invariant every conversation built by the constructor and
        `AddMessage` keeps: the average is the mean over all messages, the
        current intent mirrors the latest message carrying one, and every
        message belongs to this conversation. */
    ghost predicate Valid()
      reads this
    {
      && aiConfidenceAvg == MeanConfidence(messages)
      && 0.0 <= aiConfidenceAvg <= 1.0
      && currentIntent == LatestIntent(messages)
      && (forall k :: 0 <= k < |messages| ==> messages[k].conversationId == id)
    }

    /** `Conversation(id=..., lead_id=...)` with every other field defaulted. */
    constructor (id: Uuid, leadId: Uuid, now: Instant)
      ensures Valid()
      ensures this.id == id && this.leadId == leadId
      ensures status == Active && messages == [] && currentIntent == None
      ensures humanAgentId == None && aiConfidenceAvg == 1.0 && metadata == map[]
      ensures createdAt == now && updatedAt == now
    {
      this.id := id;
      this.leadId := leadId;
      status := Active;
      messages := [];
      currentIntent := None;
      humanAgentId := None;
      aiConfidenceAvg := 1.0;
      metadata := map[];
      createdAt := now;
      updatedAt := now;
    }

    /** `add_message`: rejects a message of another conversation without
        touching anything; otherwise appends it, updates the running mean and
        the current intent, moves to HUMAN_NEEDED when the intent hands off and
        stamps `updated_at`. If the intent's handoff rule raises, the append,
        the average and the intent stay updated and the exception is returned
        before the status and the stamp. */
    method AddMessage(m: Message, now: Instant) returns (raised: Option<Error>)
      requires Valid()
      modifies this
      ensures Valid()
      ensures m.conversationId != id ==>
        raised == Some(ValueError("Message belongs to different conversation")) && unchanged(this)
      ensures m.conversationId == id ==>
        && messages == old(messages) + [m]
        && aiConfidenceAvg == RunningMean(old(aiConfidenceAvg), |old(messages)|, m.aiConfidence)
        && currentIntent == (if m.intent.Some? then m.intent else old(currentIntent))
        && status == (if m.intent.Some? && IntentShouldHandoff(m.intent.value) == Ok(true)
                      then HumanNeeded else old(status))
        && raised == (if m.intent.Some? && IntentShouldHandoff(m.intent.value).Err?
                      then Some(IntentShouldHandoff(m.intent.value).error) else None)
        && updatedAt == (if raised.None? then now else old(updatedAt))
      ensures status == old(status) || status == HumanNeeded
      ensures humanAgentId == old(humanAgentId) && metadata == old(metadata)
    {
      if m.conversationId != id {
        return Some(ValueError("Message belongs to different conversation"));
      }
      var before := messages;
      var previous := aiConfidenceAvg;
      RunningMeanStep(before, m, previous);
      AppendKeepsInvariant(before, m, id);
      messages := before + [m];
      aiConfidenceAvg := RunningMean(previous, |before|, m.aiConfidence);
      if m.intent.Some? {
        currentIntent := m.intent;
        var handoff := IntentShouldHandoff(m.intent.value);
        if handoff.Err? {
          return Some(handoff.error);
        }
        if handoff.value {
          status := HumanNeeded;
        }
      }
      updatedAt := now;
      raised := None;
    }

    /** The conversation-level `should_handoff`, with the clock passed in:
        the current intent's rule, a low average, the HUMAN_NEEDED status, or
        more than 500 ms since the last message. */
    function ShouldHandoff(now: Instant): (r: Result<bool>)
      reads this
      ensures r.Err? <==> currentIntent.Some? && IntentShouldHandoff(currentIntent.value).Err?
      ensures r.Ok? ==> (r.value <==>
        || (currentIntent.Some? && IntentShouldHandoff(currentIntent.value) == Ok(true))
        || aiConfidenceAvg < HandoffThreshold
        || status == HumanNeeded
        || (messages != [] && now - messages[|messages| - 1].createdAt > ResponseTimeSla))
    {
      var byIntent := if currentIntent.Some? then IntentShouldHandoff(currentIntent.value) else Ok(false);
      if byIntent.Err? then Err(byIntent.error)
      else if byIntent.value then Ok(true)
      else if aiConfidenceAvg < HandoffThreshold then Ok(true)
      else if status == HumanNeeded then Ok(true)
      else if messages != [] && now - messages[|messages| - 1].createdAt > ResponseTimeSla then Ok(true)
      else Ok(false)
    }
  }

  /** Once a conversation is HUMAN_NEEDED, the conversation-level rule never
      answers "no handoff", whatever the clock says. */
  lemma HandoffIsSticky(c: Conversation, now: Instant)
    requires c.status == HumanNeeded
    ensures c.ShouldHandoff(now) != Ok(false)
  {
  }
}
