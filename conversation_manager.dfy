/** Ai::ConversationManagerService: turns AI drafting on and off for one conversation. */
module ConversationManager {
  import opened Outcomes
  import opened JsonValues
  import opened AiConversations

  class ConversationManagerService {
    /** The conversation the service was created for, by its id. */
    const conversationId: ConvId
    /** Where its ai_conversation row lives. */
    const table: AiConversationTable

    constructor (conversationId: ConvId, table: AiConversationTable)
      ensures this.conversationId == conversationId && this.table == table
    {
      this.conversationId := conversationId;
      this.table := table;
    }

    /** ai_enabled?: the row's flag, false when the conversation has no row. */
    function AiEnabled(): (r: bool)
      reads this, table
      ensures r <==> conversationId in table.rows && table.rows[conversationId].aiEnabled
    {
      match table.Find(conversationId)
      case Some(record) => record.aiEnabled
      case None => false
    }

    /** enable_ai!: the conversation's row, or a new one built with the defaults, is saved with
        ai_enabled true and returned. Saving cannot fail: only a new record is checked for
        uniqueness, and one is built only when the conversation has no row. */
    method EnableAi() returns (record: AiConversation)
      requires table.Valid()
      modifies table
      ensures table.Valid()
      ensures record.conversationId == conversationId && record.aiEnabled
      ensures record.aiConfig ==
        if conversationId in old(table.rows) then old(table.rows)[conversationId].aiConfig else JObj(map[])
      ensures table.rows == old(table.rows)[conversationId := record]
      ensures AiEnabled()
    {
      var r: Result<AiConversation>;
      match table.Find(conversationId) {
        case Some(existing) =>
          r := table.EnableAi(existing, true);
        case None =>
          r := table.EnableAi(Build(conversationId), false);
      }
      record := r.value;
    }

    /** disable_ai!: nothing happens without a row; otherwise the row is saved with ai_enabled
        false, everything else in it unchanged. */
    method DisableAi()
      requires table.Valid()
      modifies table
      ensures table.Valid()
      ensures conversationId !in old(table.rows) ==> table.rows == old(table.rows)
      ensures conversationId in old(table.rows) ==>
        table.rows == old(table.rows)[conversationId := old(table.rows)[conversationId].(aiEnabled := false)]
      ensures !AiEnabled()
    {
      match table.Find(conversationId)
      case Some(existing) =>
        var r := table.DisableAi(existing, true);
      case None =>
    }

    /** Ai::ConversationManagerService.enable_ai_for_conversation!: enable_ai! on a new
        instance. */
    static method EnableAiForConversation(conversationId: ConvId, table: AiConversationTable) returns (record: AiConversation)
      requires table.Valid()
      modifies table
      ensures table.Valid()
      ensures record.conversationId == conversationId && record.aiEnabled
      ensures record.aiConfig ==
        if conversationId in old(table.rows) then old(table.rows)[conversationId].aiConfig else JObj(map[])
      ensures table.rows == old(table.rows)[conversationId := record]
    {
      var manager := new ConversationManagerService(conversationId, table);
      record := manager.EnableAi();
    }
  }
}
