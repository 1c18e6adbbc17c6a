/**
 * handlers/settings_menu.py: the five settings screens. Each one sends a
 * menu (registering the message for self-deletion), moves the dialog to the
 * screen's state even when the send failed, and records the new message id
 * as `last_message_id` only when the send succeeded. Only the main menu
 * creates a missing chat record and deletes the previously recorded menu.
 *
 * The handlers are methods over the store and the conversation; each is
 * proved equal to a step function on a `World` snapshot, which the lemmas
 * then reason about.
 */
module Menus {
  import opened Wrappers
  import opened Models
  import opened States
  import opened Storage
  import opened Helpers

  datatype Menu = MainView | TimeView | WhitelistView | AutoDeleteView | StatusView

  /** Everything a settings handler reads and writes: the store, and the conversation's state and last menu id. */
  datatype World = World(chats: map<int, ChatConfig>, state: Option<SettingsState>, lastMessageId: Option<int>)

  /** The world after a handler, with the platform calls it issued in order. */
  datatype Outcome = Outcome(world: World, calls: seq<Call>)

  function Snapshot(r: Registry, conv: Conversation): World
    reads r, conv
  {
    World(r.chats, conv.state, conv.lastMessageId)
  }

  /** Calls issued before a step that produced `o`. */
  function After(calls: seq<Call>, o: Outcome): Outcome {
    Outcome(o.world, calls + o.calls)
  }

  /** What the k-th send of a handler returns: a message id, or None when it failed (or was not supplied). */
  function Reply(replies: seq<Option<int>>, k: nat): Option<int> {
    if k < |replies| then replies[k] else None
  }

  /** A record with its self-delete timers set aside: what the settings dialog shows and edits. */
  function Policy(cfg: ChatConfig): ChatConfig {
    cfg.(messageTasks := map[])
  }

  /** Same chats, and every record the same apart from its timers. */
  predicate SamePolicies(a: map<int, ChatConfig>, b: map<int, ChatConfig>) {
    a.Keys == b.Keys && forall c :: c in a ==> Policy(a[c]) == Policy(b[c])
  }

  // ---------------------------------------------------------------- sending

  /** `send_message_with_auto_delete` whose result the caller drops. */
  function Posted(w: World, chat: int, notice: Notice, reply: Option<int>): Outcome
    requires chat in w.chats
  {
    Outcome(w.(chats := SendV(w.chats, chat, reply)), [SendMessage(chat, notice)])
  }

  /** A send followed by `set_state(target)` when there is a target, and `update_data(last_message_id=...)` if it succeeded. */
  function Displayed(w: World, chat: int, notice: Notice, target: Option<SettingsState>, reply: Option<int>): Outcome
    requires chat in w.chats
  {
    var o := Posted(w, chat, notice, reply);
    Outcome(
      o.world.(state := if target.Some? then target else w.state,
               lastMessageId := if reply.Some? then reply else w.lastMessageId),
      o.calls)
  }

  /** A send changes no record apart from the timers. */
  lemma PostedKeepsPolicies(w: World, chat: int, notice: Notice, reply: Option<int>)
    requires chat in w.chats
    ensures SamePolicies(Posted(w, chat, notice, reply).world.chats, w.chats)
    ensures Posted(w, chat, notice, reply).world.state == w.state
    ensures Posted(w, chat, notice, reply).world.lastMessageId == w.lastMessageId
  {
    RegisteredOnlyAddsTimer(w.chats[chat], reply);
  }

  method Post(r: Registry, chat: int, notice: Notice, reply: Option<int>) returns (sent: Option<int>, calls: seq<Call>)
    requires chat in r.chats
    modifies r
    ensures sent == reply
    ensures r.chats == SendV(old(r.chats), chat, reply)
    ensures calls == [SendMessage(chat, notice)]
  {
    sent := SendWithAutoDelete(r, chat, reply);
    calls := [SendMessage(chat, notice)];
  }

  method Display(r: Registry, conv: Conversation, chat: int, notice: Notice, target: Option<SettingsState>, reply: Option<int>)
    returns (calls: seq<Call>)
    requires chat in r.chats
    modifies r, conv
    ensures Outcome(Snapshot(r, conv), calls) == Displayed(old(Snapshot(r, conv)), chat, notice, target, reply)
  {
    var sent;
    sent, calls := Post(r, chat, notice, reply);
    if target.Some? {
      conv.state := target;
    }
    if sent.Some? {
      conv.lastMessageId := sent;
    }
  }

  // ---------------------------------------------------------------- menus

  /** The state each screen leaves the dialog in; the status screen counts as the main menu. */
  function MenuState(menu: Menu): (s: SettingsState)
    ensures menu in {MainView, StatusView} <==> s == MainMenu
    ensures !IsInputState(s)
  {
    match menu
    case MainView => MainMenu
    case TimeView => TimeSettings
    case WhitelistView => WhitelistMenu
    case AutoDeleteView => SettingsState.AutoDeleteSettings
    case StatusView => MainMenu
  }

  /** The callback data of the main menu's global switch. */
  function ToggleButton(cfg: ChatConfig): (data: string)
    ensures data == "toggle_global_on" <==> cfg.timeRange.mode == DISABLED
    ensures data == "toggle_global_off" <==> cfg.timeRange.mode != DISABLED
  {
    if cfg.timeRange.mode == DISABLED then "toggle_global_on" else "toggle_global_off"
  }

  function MenuNotice(menu: Menu, cfg: ChatConfig): Notice {
    match menu
    case MainView => MainMenuText(ToggleButton(cfg))
    case TimeView => TimeMenuText
    case WhitelistView => WhitelistMenuText
    case AutoDeleteView => AutoDeleteMenuText
    case StatusView => StatusText
  }

  /** `show_settings_menu` and the four other `show_*`, which index the store and so need the record to exist. */
  function Shown(w: World, chat: int, menu: Menu, reply: Option<int>): Outcome
    requires menu == MainView || chat in w.chats
  {
    if menu == MainView then
      var w1 := w.(chats := WithConfig(w.chats, chat));
      var del := if w.lastMessageId.Some? then [DeleteMessage(chat, w.lastMessageId.value)] else [];
      After(del, Displayed(w1, chat, MenuNotice(MainView, w1.chats[chat]), Some(MainMenu), reply))
    else
      Displayed(w, chat, MenuNotice(menu, w.chats[chat]), Some(MenuState(menu)), reply)
  }

  method Show(r: Registry, conv: Conversation, chat: int, menu: Menu, reply: Option<int>) returns (calls: seq<Call>)
    requires menu == MainView || chat in r.chats
    modifies r, conv
    ensures Outcome(Snapshot(r, conv), calls) == Shown(old(Snapshot(r, conv)), chat, menu, reply)
  {
    if menu == MainView {
      var cfg := r.GetOrCreate(chat);
      var del: seq<Call> := [];
      if conv.lastMessageId.Some? {
        del := [DeleteMessage(chat, conv.lastMessageId.value)];
      }
      var sent := Display(r, conv, chat, MenuNotice(MainView, cfg), Some(MainMenu), reply);
      calls := del + sent;
    } else {
      calls := Display(r, conv, chat, MenuNotice(menu, r.chats[chat]), Some(MenuState(menu)), reply);
    }
  }

  function Deletions(calls: seq<Call>): seq<Call> {
    if calls == [] then []
    else (if calls[0].DeleteMessage? then [calls[0]] else []) + Deletions(calls[1..])
  }

  /**
   * Every screen leaves the dialog in its own state whether or not the send
   * succeeded, and replaces `last_message_id` only with a successful send's id.
   */
  lemma ShownState(w: World, chat: int, menu: Menu, reply: Option<int>)
    requires menu == MainView || chat in w.chats
    ensures Shown(w, chat, menu, reply).world.state == Some(MenuState(menu))
    ensures Shown(w, chat, menu, reply).world.lastMessageId == if reply.Some? then reply else w.lastMessageId
  {
  }

  /**
   * Apart from the main menu's lazy creation, showing a screen changes no
   * record beyond registering the new message's timer, and it ends with the
   * send of that screen.
   */
  lemma ShownKeepsPolicies(w: World, chat: int, menu: Menu, reply: Option<int>)
    requires menu == MainView || chat in w.chats
    ensures SamePolicies(Shown(w, chat, menu, reply).world.chats, if menu == MainView then WithConfig(w.chats, chat) else w.chats)
    ensures menu == MainView ==> chat in Shown(w, chat, menu, reply).world.chats
    ensures var calls := Shown(w, chat, menu, reply).calls;
      calls != [] && calls[|calls| - 1].SendMessage? && calls[|calls| - 1].chat == chat
  {
    var w1 := if menu == MainView then w.(chats := WithConfig(w.chats, chat)) else w;
    PostedKeepsPolicies(w1, chat, MenuNotice(menu, w1.chats[chat]), reply);
  }

  /** Only the main menu deletes anything, and then only the recorded previous menu. */
  lemma {:induction false} OnlyMainMenuDeletes(w: World, chat: int, menu: Menu, reply: Option<int>)
    requires menu == MainView || chat in w.chats
    ensures Deletions(Shown(w, chat, menu, reply).calls) ==
      if menu == MainView && w.lastMessageId.Some? then [DeleteMessage(chat, w.lastMessageId.value)] else []
  {
    var calls := Shown(w, chat, menu, reply).calls;
    var w1 := if menu == MainView then w.(chats := WithConfig(w.chats, chat)) else w;
    var send := SendMessage(chat, MenuNotice(menu, w1.chats[chat]));
    assert Deletions([send]) == [] by {
      assert [send][1..] == [];
    }
    if menu == MainView && w.lastMessageId.Some? {
      assert calls == [DeleteMessage(chat, w.lastMessageId.value), send];
      assert calls[1..] == [send];
    } else {
      assert calls == [send];
    }
  }
}
