/** The conversation state updates of api/endpoints/conversation.py: the
    background update after a processed message, which appends the inbound
    message and the reply, applies the handoff status, and rewrites the
    stored context; and the status assignment of the status endpoint. */
module ConversationEndpoint {
  import opened Common
  import opened IntentModel
  import opened ConversationModel
  import opened ContextStore

  /** Whether `add_message(m)` on conversation `id` returns normally: the
      message belongs to it and, if it carries an intent, that intent's
      handoff rule does not raise. */
  predicate AppendCompletes(m: Message, id: Uuid) {
    m.conversationId == id && (m.intent.None? || IntentShouldHandoff(m.intent.value).Ok?)
  }

  class ConversationEndpoints {
    const contexts: ContextService

    constructor (contexts: ContextService)
      ensures this.contexts == contexts
    {
      this.contexts := contexts;
    }

    /** `update_conversation_status`: the requested status is assigned
        whatever the current one is (HUMAN_NEEDED back to ACTIVE included)
        and `updated_at` is stamped; nothing else changes. */
    method UpdateConversationStatus(c: Conversation, status: ConversationStatus, now: Instant)
      requires c.Valid()
      modifies c
      ensures c.Valid()
      ensures c.status == status && c.updatedAt == now
      ensures c.messages == old(c.messages) && c.aiConfidenceAvg == old(c.aiConfidenceAvg)
      ensures c.currentIntent == old(c.currentIntent) && c.humanAgentId == old(c.humanAgentId)
      ensures c.metadata == old(c.metadata)
    {
      c.status := status;
      c.updatedAt := now;
    }

    /** The conversation half of `_update_conversation`: appends `message`
        then `response` and moves to HUMAN_NEEDED when `intent` hands off,
        stopping at the first exception, which is returned. */
    method ApplyTurn(c: Conversation, message: Message, response: Message, intent: Intent, now: Instant)
      returns (raised: Option<Error>)
      requires c.Valid()
      modifies c
      ensures c.Valid()
      ensures c.messages == old(c.messages)
        + (if message.conversationId == c.id then [message] else [])
        + (if AppendCompletes(message, c.id) && response.conversationId == c.id then [response] else [])
      ensures c.status == old(c.status) || c.status == HumanNeeded
      ensures c.humanAgentId == old(c.humanAgentId) && c.metadata == old(c.metadata)
      ensures AppendCompletes(message, c.id) && AppendCompletes(response, c.id) ==> c.updatedAt == now
      ensures raised.None? <==>
        AppendCompletes(message, c.id) && AppendCompletes(response, c.id) && IntentShouldHandoff(intent).Ok?
      ensures raised.None? && IntentShouldHandoff(intent) == Ok(true) ==> c.status == HumanNeeded
      ensures raised.None? && message.intent == Some(intent) && response.intent == Some(intent) ==>
        (c.status == HumanNeeded <==> old(c.status) == HumanNeeded || IntentShouldHandoff(intent) == Ok(true))
    {
      raised := c.AddMessage(message, now);
      if raised.Some? {
        return;
      }
      raised := c.AddMessage(response, now);
      if raised.Some? {
        return;
      }
      var handoff := IntentShouldHandoff(intent);
      if handoff.Err? {
        return Some(handoff.error);
      }
      if handoff.value {
        c.status := HumanNeeded;
      }
    }

    /** `_update_conversation`: applies the turn to the conversation, then
        builds the context from the updated conversation and stores it under
        its id. Nothing is raised: the first exception stops the sequence,
        leaves the state reached so far, and is returned as `swallowed`.
        `built` is the context that was written, if the write was reached. */
    method UpdateConversation(c: Conversation, message: Message, response: Message, intent: Intent, now: Instant)
      returns (swallowed: Option<Error>, built: Option<Context>)
      requires c.Valid() && contexts.Valid()
      modifies c, contexts
      ensures c.Valid() && contexts.Valid()
      ensures c.messages == old(c.messages)
        + (if message.conversationId == c.id then [message] else [])
        + (if AppendCompletes(message, c.id) && response.conversationId == c.id then [response] else [])
      ensures c.status == old(c.status) || c.status == HumanNeeded
      ensures c.humanAgentId == old(c.humanAgentId) && c.metadata == old(c.metadata)
      ensures AppendCompletes(message, c.id) && AppendCompletes(response, c.id) ==> c.updatedAt == now
      ensures built.Some? <==>
        AppendCompletes(message, c.id) && AppendCompletes(response, c.id) && IntentShouldHandoff(intent).Ok?
      ensures built.Some? && IntentShouldHandoff(intent) == Ok(true) ==> c.status == HumanNeeded
      ensures built.None? ==> swallowed.Some? && contexts.store == old(contexts.store)
      ensures built.Some? ==>
        && built.value == BuildContext(c, now)
        && contexts.store == old(contexts.StoreAfterUpdate(c.id, built.value, now))
        && (swallowed.None? <==> old(contexts.UpdateOutcome(c.id, built.value, now)).Ok?)
      ensures contexts.online == old(contexts.online)
    {
      var raised := ApplyTurn(c, message, response, intent, now);
      if raised.Some? {
        return raised, None;
      }
      var context := BuildContext(c, now);
      var written := contexts.UpdateContext(c.id, context, now);
      built := Some(context);
      swallowed := if written.Err? then Some(written.error) else None;
    }
  }
}
