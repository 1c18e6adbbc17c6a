/**
 * The process-wide `chat_settings` dictionary, chat id to ChatConfig, and its
 * lookup-or-create step, which every entry point repeats inline.
 */
module Storage {
  import opened Models

  /** The store after `if chat_id not in chat_settings: chat_settings[chat_id] = ChatConfig()`. */
  function WithConfig(chats: map<int, ChatConfig>, chat: int): (r: map<int, ChatConfig>)
    ensures r.Keys == chats.Keys + {chat}
    ensures forall c :: c in chats ==> r[c] == chats[c]
    ensures chat !in chats ==> r[chat] == DefaultChatConfig()
  {
    if chat in chats then chats else chats[chat := DefaultChatConfig()]
  }

  /** Looking a chat up twice creates its record at most once. */
  lemma WithConfigIdempotent(chats: map<int, ChatConfig>, chat: int)
    ensures WithConfig(WithConfig(chats, chat), chat) == WithConfig(chats, chat)
  {
  }

  class Registry {
    var chats: map<int, ChatConfig>

    constructor ()
      ensures chats == map[]
    {
      chats := map[];
    }

    method GetOrCreate(chat: int) returns (cfg: ChatConfig)
      modifies this
      ensures chats == WithConfig(old(chats), chat)
      ensures cfg == chats[chat]
    {
      if chat !in chats {
        chats := chats[chat := DefaultChatConfig()];
      }
      cfg := chats[chat];
    }
  }
}
