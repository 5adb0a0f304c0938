/** The intent value of models/intent.py: the six intent types, the intent
    record with its metadata map, construction (which stamps the metadata), the
    threshold-taking handoff rule and the serialised form. */
module IntentModel {
  import opened Common

  /** IntentType, in declaration order. */
  datatype IntentType = Greeting | Question | Complaint | RequestHuman | Farewell | Unknown

  /** The enum members in declaration order (what iterating the enum yields). */
  const AllIntentTypes: seq<IntentType> :=
    [Greeting, Question, Complaint, RequestHuman, Farewell, Unknown]

  /** The string value of each member. */
  function TypeValue(t: IntentType): string {
    match t
    case Greeting => "greeting"
    case Question => "question"
    case Complaint => "complaint"
    case RequestHuman => "request_human"
    case Farewell => "farewell"
    case Unknown => "unknown"
  }

  /** Looking a member up by its value, as validation of `type=<string>` does. */
  function ParseIntentType(s: string): (r: Option<IntentType>)
    ensures r.Some? ==> TypeValue(r.value) == s
    ensures (exists t :: TypeValue(t) == s) ==> r.Some?
  {
    if s == "greeting" then Some(Greeting)
    else if s == "question" then Some(Question)
    else if s == "complaint" then Some(Complaint)
    else if s == "request_human" then Some(RequestHuman)
    else if s == "farewell" then Some(Farewell)
    else if s == "unknown" then Some(Unknown)
    else None
  }

  /** Every member is listed once, and its value reads back as that member. */
  lemma IntentTypesEnumerated(t: IntentType)
    ensures t in AllIntentTypes
    ensures ParseIntentType(TypeValue(t)) == Some(t)
  {
  }

  /** A JSON-like value held in a metadata mapping. Python ints and floats are
      both `Number`. */
  datatype Value =
    | Text(s: string)
    | Number(r: real)
    | Flag(b: bool)
    | Null
    | Object(fields: map<string, Value>)

  type Metadata = map<string, Value>

  /** A confidence score: pydantic enforces `ge=0.0, le=1.0` on every
      constructed intent and message. */
  type Confidence = r: real | 0.0 <= r <= 1.0

  /** The intent record. models/conversation.py declares a class with the same
      four fields; both are represented by this one record. */
  datatype Intent = Intent(
    kind: IntentType,
    confidence: Confidence,
    requiresHuman: bool,
    metadata: Metadata)

  const ModelVersion: string := "1.0.0"
  const DefaultThreshold: real := 0.7
  const ComplaintConfidence: real := 0.9

  /** `Intent(**data)`: the caller's metadata (or {}) gets `created_at` and
      `model_version` written into it, then pydantic rejects a confidence
      outside [0, 1]. `createdAt` is the ISO text of the construction time. */
  function NewIntent(kind: IntentType, confidence: real, requiresHuman: bool,
                     metadata: Metadata, createdAt: string): (r: Result<Intent>)
    ensures r.Ok? <==> 0.0 <= confidence <= 1.0
    ensures r.Ok? ==>
      && r.value.kind == kind
      && r.value.confidence == confidence
      && r.value.requiresHuman == requiresHuman
    ensures r.Ok? ==> r.value.metadata.Keys == metadata.Keys + {"created_at", "model_version"}
    ensures r.Ok? ==> r.value.metadata["created_at"] == Text(createdAt)
    ensures r.Ok? ==> r.value.metadata["model_version"] == Text(ModelVersion)
    ensures r.Ok? ==> forall k :: k in metadata && k != "created_at" && k != "model_version" ==>
      r.value.metadata[k] == metadata[k]
    ensures r.Err? ==> r.error.ValidationError? && r.error.fields == ["confidence"]
  {
    var stamped := metadata["created_at" := Text(createdAt)]["model_version" := Text(ModelVersion)];
    if 0.0 <= confidence <= 1.0 then
      Ok(Intent(kind, confidence, requiresHuman, stamped))
    else
      Err(ValidationError(["confidence"]))
  }

  /** `Intent.should_handoff(confidence_threshold)`: the threshold is checked
      first, then four guards in order. */
  function ShouldHandoff(i: Intent, threshold: real): (r: Result<bool>)
    ensures r.Err? <==> !(0.0 <= threshold <= 1.0)
    ensures r.Err? ==> r.error.ValueError?
  {
    if !(0.0 <= threshold <= 1.0) then
      Err(ValueError("Confidence threshold must be between 0 and 1"))
    else if i.requiresHuman then Ok(true)
    else if i.confidence < threshold then Ok(true)
    else if i.kind == RequestHuman then Ok(true)
    else if i.kind == Complaint && i.confidence < ComplaintConfidence then Ok(true)
    else Ok(false)
  }

  /** An explicit request for a human hands off whatever the confidence. */
  lemma ExplicitRequestHandsOff(i: Intent, threshold: real)
    requires 0.0 <= threshold <= 1.0
    requires i.requiresHuman || i.kind == RequestHuman
    ensures ShouldHandoff(i, threshold) == Ok(true)
  {
  }

  /** Confidence strictly below the threshold hands off; confidence equal to
      the threshold does not on its own. */
  lemma ThresholdBoundary(i: Intent, threshold: real)
    requires 0.0 <= threshold <= 1.0
    ensures i.confidence < threshold ==> ShouldHandoff(i, threshold) == Ok(true)
    ensures i.confidence == threshold && !i.requiresHuman && i.kind != RequestHuman && i.kind != Complaint
      ==> ShouldHandoff(i, threshold) == Ok(false)
  {
  }

  /** With a valid threshold the guard chain is the disjunction of the four
      rules, in both directions. */
  lemma HandoffIffSomeRule(i: Intent, threshold: real)
    requires 0.0 <= threshold <= 1.0
    ensures ShouldHandoff(i, threshold) == Ok(
      || i.requiresHuman
      || i.confidence < threshold
      || i.kind == RequestHuman
      || (i.kind == Complaint && i.confidence < ComplaintConfidence))
  {
  }

  /** Lowering the confidence or raising the threshold, everything else
      fixed, never turns a handoff into no handoff. */
  lemma HandoffMonotonic(i: Intent, threshold: real, c: Confidence, t: real)
    requires 0.0 <= threshold <= t <= 1.0
    requires c <= i.confidence
    requires ShouldHandoff(i, threshold) == Ok(true)
    ensures ShouldHandoff(i.(confidence := c), t) == Ok(true)
  {
  }

  /** `Intent.to_dict()`, with `round(confidence, 4)` left out. The
      `should_handoff` entry uses the default threshold, which is valid, so
      serialising never raises. */
  function ToDict(i: Intent): (r: Metadata)
    ensures r.Keys == {"type", "confidence", "requires_human", "metadata", "should_handoff", "processing_info"}
    ensures r["should_handoff"] == Flag(ShouldHandoff(i, DefaultThreshold) == Ok(true))
    ensures r["type"].Text? && ParseIntentType(r["type"].s) == Some(i.kind)
    ensures r["confidence"] == Number(i.confidence)
    ensures r["requires_human"] == Flag(i.requiresHuman)
    ensures r["metadata"] == Object(i.metadata)
    ensures r["processing_info"].Object? && "model_version" in r["processing_info"].fields
    ensures "model_version" !in i.metadata ==>
      r["processing_info"].fields["model_version"] == Text(ModelVersion)
  {
    var handoff := ShouldHandoff(i, DefaultThreshold);
    map[
      "type" := Text(TypeValue(i.kind)),
      "confidence" := Number(i.confidence),
      "requires_human" := Flag(i.requiresHuman),
      "metadata" := Object(i.metadata),
      "should_handoff" := Flag(handoff.value),
      "processing_info" := Object(map[
        "model_version" := if "model_version" in i.metadata then i.metadata["model_version"] else Text(ModelVersion),
        "created_at" := if "created_at" in i.metadata then i.metadata["created_at"] else Null
      ])
    ]
  }
}
