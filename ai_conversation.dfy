/** The AiConversation record (one per conversation: whether drafting is enabled, and a JSON
    configuration) and the ai_conversations table that persists it. */
module AiConversations {
  import opened Outcomes
  import opened JsonValues

  /** conversations.id; the schema makes conversation_id NOT NULL. */
  type ConvId = nat

  datatype AiConversation = AiConversation(conversationId: ConvId, aiEnabled: bool, aiConfig: Json)

  /** conversation.build_ai_conversation: the column defaults are ai_enabled false and
      ai_config {}. */
  function Build(conversationId: ConvId): (r: AiConversation)
    ensures r.conversationId == conversationId
    ensures !r.aiEnabled
    ensures r.aiConfig == JObj(map[])
  {
    AiConversation(conversationId, false, JObj(map[]))
  }

  /** The table's rows, keyed by conversation id: the unique index allows one row per
      conversation. */
  type Rows = map<ConvId, AiConversation>

  /** Every row sits under its own conversation id. */
  predicate Keyed(rows: Rows) {
    forall id :: id in rows ==> rows[id].conversationId == id
  }

  const TakenMessage := "Conversation has already been taken"

  /** `validates :conversation_id, uniqueness: true`: a record not yet saved fails when its
      conversation already has a row; a saved one is that row itself. (Presence holds by the
      type of conversationId.) */
  function ValidationErrors(record: AiConversation, persisted: bool, rows: Rows): (r: seq<string>)
    ensures r == [] <==> persisted || record.conversationId !in rows
  {
    if !persisted && record.conversationId in rows then [TakenMessage] else []
  }

  /** The table after `update!(ai_enabled: enabled)` of `record` succeeded. */
  function Updated(rows: Rows, record: AiConversation, enabled: bool): Rows {
    rows[record.conversationId := record.(aiEnabled := enabled)]
  }

  /** `conversation.ai_conversation&.ai_enabled?`, nil counting as false. */
  predicate EnabledIn(rows: Rows, id: ConvId) {
    id in rows && rows[id].aiEnabled
  }

  /** The ids the `enabled` scope returns. */
  function EnabledIds(rows: Rows): set<ConvId> {
    set id | id in rows && rows[id].aiEnabled
  }

  /** An update keeps every row under its own id. */
  lemma UpdatedKeyed(rows: Rows, record: AiConversation, enabled: bool)
    requires Keyed(rows)
    ensures Keyed(Updated(rows, record, enabled))
  {
  }

  /** After an update the record's conversation has the new flag and its configuration is
      untouched, and every other conversation keeps its row. */
  lemma UpdatedSetsFlag(rows: Rows, record: AiConversation, enabled: bool)
    ensures EnabledIn(Updated(rows, record, enabled), record.conversationId) == enabled
    ensures Updated(rows, record, enabled)[record.conversationId].aiConfig == record.aiConfig
    ensures Updated(rows, record, enabled).Keys == rows.Keys + {record.conversationId}
    ensures forall id :: id in rows && id != record.conversationId ==> Updated(rows, record, enabled)[id] == rows[id]
  {
  }

  /** enable_ai! and disable_ai! are idempotent: repeating one on the record it saved changes
      nothing. */
  lemma UpdateIdempotent(rows: Rows, record: AiConversation, enabled: bool)
    ensures var once := Updated(rows, record, enabled);
      Updated(once, once[record.conversationId], enabled) == once
  {
  }

  /** Disabling a saved record that is already disabled leaves the table as it was. */
  lemma DisableDisabledIsNoOp(rows: Rows, id: ConvId)
    requires Keyed(rows) && id in rows && !rows[id].aiEnabled
    ensures Updated(rows, rows[id], false) == rows
  {
    assert rows[id].(aiEnabled := false) == rows[id];
  }

  /** The `enabled` scope gains exactly the enabled conversation, and loses exactly the
      disabled one. */
  lemma EnabledScopeAfterUpdate(rows: Rows, record: AiConversation)
    ensures EnabledIds(Updated(rows, record, true)) == EnabledIds(rows) + {record.conversationId}
    ensures EnabledIds(Updated(rows, record, false)) == EnabledIds(rows) - {record.conversationId}
  {
    forall id
      ensures id in EnabledIds(Updated(rows, record, true)) <==> id in EnabledIds(rows) + {record.conversationId}
      ensures id in EnabledIds(Updated(rows, record, false)) <==> id in EnabledIds(rows) - {record.conversationId}
    {
    }
  }

  /** The ai_conversations table. */
  class AiConversationTable {
    var rows: Rows

    ghost predicate Valid()
      reads this
    {
      Keyed(rows)
    }

    constructor ()
      ensures Valid() && rows == map[]
    {
      rows := map[];
    }

    /** `conversation.ai_conversation`: the row of the conversation, or nil. */
    function Find(id: ConvId): (r: Option<AiConversation>)
      reads this
      ensures r.Some? <==> id in rows
      ensures r.Some? ==> r.value == rows[id]
      ensures Valid() && r.Some? ==> r.value.conversationId == id
    {
      if id in rows then Some(rows[id]) else None
    }

    /** `AiConversation.enabled`: the conversations whose row has ai_enabled true. */
    function Enabled(): (r: set<ConvId>)
      reads this
      ensures forall id :: id in r <==> EnabledIn(rows, id)
    {
      EnabledIds(rows)
    }

    /** `record.update!(ai_enabled: enabled)`: validates, then saves the record (inserting it if
        it was only built); a failed validation raises RecordInvalid and saves nothing. A saved
        record is passed as it was loaded. */
    method Update(record: AiConversation, persisted: bool, enabled: bool) returns (r: Result<AiConversation>)
      requires Valid()
      requires persisted ==> record.conversationId in rows && rows[record.conversationId] == record
      modifies this
      ensures Valid()
      ensures ValidationErrors(record, persisted, old(rows)) != [] ==>
        r == Err(RuntimeError("Validation failed: " + TakenMessage)) && rows == old(rows)
      ensures ValidationErrors(record, persisted, old(rows)) == [] ==>
        r == Ok(record.(aiEnabled := enabled)) && rows == Updated(old(rows), record, enabled)
    {
      if ValidationErrors(record, persisted, rows) != [] {
        r := Err(RuntimeError("Validation failed: " + TakenMessage));
      } else {
        UpdatedKeyed(rows, record, enabled);
        r := Ok(record.(aiEnabled := enabled));
        rows := Updated(rows, record, enabled);
      }
    }

    /** AiConversation#enable_ai!. */
    method EnableAi(record: AiConversation, persisted: bool) returns (r: Result<AiConversation>)
      requires Valid()
      requires persisted ==> record.conversationId in rows && rows[record.conversationId] == record
      modifies this
      ensures Valid()
      ensures ValidationErrors(record, persisted, old(rows)) != [] ==> r.Err? && rows == old(rows)
      ensures ValidationErrors(record, persisted, old(rows)) == [] ==>
        r == Ok(record.(aiEnabled := true)) && rows == Updated(old(rows), record, true)
      ensures r.Ok? ==> EnabledIn(rows, record.conversationId) && Enabled() == old(Enabled()) + {record.conversationId}
    {
      r := Update(record, persisted, true);
      EnabledScopeAfterUpdate(old(rows), record);
    }

    /** AiConversation#disable_ai!. */
    method DisableAi(record: AiConversation, persisted: bool) returns (r: Result<AiConversation>)
      requires Valid()
      requires persisted ==> record.conversationId in rows && rows[record.conversationId] == record
      modifies this
      ensures Valid()
      ensures ValidationErrors(record, persisted, old(rows)) != [] ==> r.Err? && rows == old(rows)
      ensures ValidationErrors(record, persisted, old(rows)) == [] ==>
        r == Ok(record.(aiEnabled := false)) && rows == Updated(old(rows), record, false)
      ensures r.Ok? ==> !EnabledIn(rows, record.conversationId) && Enabled() == old(Enabled()) - {record.conversationId}
    {
      r := Update(record, persisted, false);
      EnabledScopeAfterUpdate(old(rows), record);
    }
  }
}
