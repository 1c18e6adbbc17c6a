/**
 * handlers/callbacks.py: the settings dialog's button presses. Every press
 * creates a missing chat record, deletes the menu message that carried the
 * button, and then switches on the callback data: the global switch, the
 * navigation buttons, and the `time_`, `whitelist_`, `autodel_` and
 * `remove_` families, each handled by its own sub-handler.
 */
module Callbacks {
  import opened Wrappers
  import opened Models
  import opened States
  import opened Storage
  import opened Helpers
  import opened Menus

  predicate StartsWith(s: string, prefix: string) {
    |prefix| <= |s| && s[..|prefix|] == prefix
  }

  /** The screen a navigation button leads to. */
  function NavTarget(data: string): Option<Menu> {
    if data == "settings_time" || data == "back_to_time" then Some(TimeView)
    else if data == "settings_whitelist" || data == "back_to_whitelist" then Some(WhitelistView)
    else if data == "settings_auto_delete" || data == "back_to_auto_delete" then Some(AutoDeleteView)
    else if data == "settings_status" then Some(StatusView)
    else if data == "back_to_main" then Some(MainView)
    else None
  }

  // ---------------------------------------------------------------- record edits

  function WithMode(chats: map<int, ChatConfig>, chat: int, mode: DeleteMode): (r: map<int, ChatConfig>)
    requires chat in chats
    ensures r.Keys == chats.Keys
  {
    chats[chat := chats[chat].(timeRange := chats[chat].timeRange.(mode := mode))]
  }

  function WithWhitelist(chats: map<int, ChatConfig>, chat: int, whitelist: seq<string>): (r: map<int, ChatConfig>)
    requires chat in chats
    ensures r.Keys == chats.Keys
  {
    chats[chat := chats[chat].(whitelist := whitelist)]
  }

  function WithAutoDeleteFlipped(chats: map<int, ChatConfig>, chat: int): (r: map<int, ChatConfig>)
    requires chat in chats
    ensures r.Keys == chats.Keys
  {
    chats[chat := chats[chat].(autoDelete := chats[chat].autoDelete.(enabled := !chats[chat].autoDelete.enabled))]
  }

  function FirstIndex(s: seq<string>, x: string): (i: nat)
    requires x in s
    ensures i < |s| && s[i] == x && x !in s[..i]
  {
    if s[0] == x then 0 else 1 + FirstIndex(s[1..], x)
  }

  /** `list.remove(x)`: the first occurrence of x goes, everything else stays in order. */
  function RemoveFirst(s: seq<string>, x: string): (r: seq<string>)
    requires x in s
    ensures r == s[..FirstIndex(s, x)] + s[FirstIndex(s, x) + 1..]
    ensures |r| == |s| - 1
    ensures multiset(r) == multiset(s) - multiset{x}
    ensures forall k :: 0 <= k < |s| && s[k] != x ==> s[k] in r
  {
    var i := FirstIndex(s, x);
    assert s == s[..i] + [s[i]] + s[i + 1..];
    s[..i] + s[i + 1..]
  }

  /** The callback data of the removal buttons, one per allow-list entry in list order. */
  function RemoveButtons(whitelist: seq<string>): (buttons: seq<string>)
    ensures |buttons| == |whitelist|
  {
    seq(|whitelist|, k requires 0 <= k < |whitelist| => "remove_" + whitelist[k])
  }

  // ---------------------------------------------------------------- sub-handlers

  /** `handle_time_callback`: deletes the pressed menu a second time, then `time_always` or `time_range`. */
  function TimePressed(w: World, chat: int, pressed: int, data: string, reply: Option<int>): Outcome
    requires chat in w.chats
  {
    var del := [DeleteMessage(chat, pressed)];
    if data == "time_always" then
      After(del, Shown(w.(chats := WithMode(w.chats, chat, ALWAYS)), chat, TimeView, reply))
    else if data == "time_range" then
      After(del, Displayed(w.(chats := WithMode(w.chats, chat, TIME_RANGE)), chat, TimeStartPrompt, Some(TimeRangeSetStart), reply))
    else Outcome(w, del)
  }

  /** `handle_whitelist_callback`: the add prompt, or the removal prompt unless the list is empty. */
  function WhitelistPressed(w: World, chat: int, pressed: int, data: string, reply: Option<int>): Outcome
    requires chat in w.chats
  {
    var del := [DeleteMessage(chat, pressed)];
    var whitelist := w.chats[chat].whitelist;
    if data == "whitelist_add" then
      After(del, Displayed(w, chat, WhitelistAddPrompt, Some(WhitelistAdd), reply))
    else if data == "whitelist_remove" then
      if whitelist == [] then After(del, Displayed(w, chat, WhitelistIsEmpty, None, reply))
      else After(del, Displayed(w, chat, WhitelistRemovePrompt(RemoveButtons(whitelist)), Some(WhitelistRemove), reply))
    else Outcome(w, del)
  }

  /** `handle_auto_delete_callback`: flip the switch and redisplay, or prompt for the delay. */
  function AutoDeletePressed(w: World, chat: int, pressed: int, data: string, reply: Option<int>): Outcome
    requires chat in w.chats
  {
    var del := [DeleteMessage(chat, pressed)];
    if data == "autodel_toggle" then
      After(del, Shown(w.(chats := WithAutoDeleteFlipped(w.chats, chat)), chat, AutoDeleteView, reply))
    else if data == "autodel_set_time" then
      After(del, Displayed(w, chat, AutoDeleteTimePrompt, Some(AutoDeleteTimeSet), reply))
    else Outcome(w, del)
  }

  /** A `remove_<handle>` press: removes the first exact occurrence, if any, and redisplays the allow-list menu. */
  function RemovePressed(w: World, chat: int, handle: string, reply: Option<int>): Outcome
    requires chat in w.chats
  {
    var whitelist := w.chats[chat].whitelist;
    if handle in whitelist then
      After([AnswerCallback(false)], Shown(w.(chats := WithWhitelist(w.chats, chat, RemoveFirst(whitelist, handle))), chat, WhitelistView, reply))
    else Shown(w, chat, WhitelistView, reply)
  }

  /** The `if`/`elif` chain after the global switch, in the source's order. */
  function Routed(w: World, chat: int, pressed: int, data: string, reply: Option<int>): Outcome
    requires chat in w.chats
  {
    if NavTarget(data).Some? then Shown(w, chat, NavTarget(data).value, reply)
    else if StartsWith(data, "time_") then TimePressed(w, chat, pressed, data, reply)
    else if StartsWith(data, "whitelist_") then WhitelistPressed(w, chat, pressed, data, reply)
    else if StartsWith(data, "autodel_") then AutoDeletePressed(w, chat, pressed, data, reply)
    else if StartsWith(data, "remove_") then RemovePressed(w, chat, data[7..], reply)
    else Outcome(w, [])
  }

  /**
   * `handle_settings_callback` for a press of the button with callback data
   * `data` on menu message `pressed`; `reply` is what the one send of the
   * press returns. The global switch returns early without the final answer.
   */
  function Pressed(w: World, chat: int, pressed: int, data: string, reply: Option<int>): Outcome {
    var w1 := w.(chats := WithConfig(w.chats, chat));
    var del := [DeleteMessage(chat, pressed)];
    if data == "toggle_global_off" then
      After(del + [AnswerCallback(false)], Shown(w1.(chats := WithMode(w1.chats, chat, DISABLED)), chat, MainView, reply))
    else if data == "toggle_global_on" then
      After(del + [AnswerCallback(false)], Shown(w1.(chats := WithMode(w1.chats, chat, ALWAYS)), chat, MainView, reply))
    else
      var o := After(del, Routed(w1, chat, pressed, data, reply));
      Outcome(o.world, o.calls + [AnswerCallback(false)])
  }

  // ---------------------------------------------------------------- methods

  method HandleTimeCallback(r: Registry, conv: Conversation, chat: int, pressed: int, data: string, reply: Option<int>)
    returns (calls: seq<Call>)
    requires chat in r.chats
    modifies r, conv
    ensures Outcome(Snapshot(r, conv), calls) == TimePressed(old(Snapshot(r, conv)), chat, pressed, data, reply)
  {
    calls := [DeleteMessage(chat, pressed)];
    if data == "time_always" {
      r.chats := WithMode(r.chats, chat, ALWAYS);
      var shown := Show(r, conv, chat, TimeView, reply);
      calls := calls + shown;
    } else if data == "time_range" {
      r.chats := WithMode(r.chats, chat, TIME_RANGE);
      var shown := Display(r, conv, chat, TimeStartPrompt, Some(TimeRangeSetStart), reply);
      calls := calls + shown;
    }
  }

  method HandleWhitelistCallback(r: Registry, conv: Conversation, chat: int, pressed: int, data: string, reply: Option<int>)
    returns (calls: seq<Call>)
    requires chat in r.chats
    modifies r, conv
    ensures Outcome(Snapshot(r, conv), calls) == WhitelistPressed(old(Snapshot(r, conv)), chat, pressed, data, reply)
  {
    calls := [DeleteMessage(chat, pressed)];
    if data == "whitelist_add" {
      var shown := Display(r, conv, chat, WhitelistAddPrompt, Some(WhitelistAdd), reply);
      calls := calls + shown;
    } else if data == "whitelist_remove" {
      var whitelist := r.chats[chat].whitelist;
      if whitelist == [] {
        var shown := Display(r, conv, chat, WhitelistIsEmpty, None, reply);
        calls := calls + shown;
        return;
      }
      var shown := Display(r, conv, chat, WhitelistRemovePrompt(RemoveButtons(whitelist)), Some(WhitelistRemove), reply);
      calls := calls + shown;
    }
  }

  method HandleAutoDeleteCallback(r: Registry, conv: Conversation, chat: int, pressed: int, data: string, reply: Option<int>)
    returns (calls: seq<Call>)
    requires chat in r.chats
    modifies r, conv
    ensures Outcome(Snapshot(r, conv), calls) == AutoDeletePressed(old(Snapshot(r, conv)), chat, pressed, data, reply)
  {
    calls := [DeleteMessage(chat, pressed)];
    if data == "autodel_toggle" {
      r.chats := WithAutoDeleteFlipped(r.chats, chat);
      var shown := Show(r, conv, chat, AutoDeleteView, reply);
      calls := calls + shown;
    } else if data == "autodel_set_time" {
      var shown := Display(r, conv, chat, AutoDeleteTimePrompt, Some(AutoDeleteTimeSet), reply);
      calls := calls + shown;
    }
  }

  method HandleSettingsCallback(r: Registry, conv: Conversation, chat: int, pressed: int, data: string, reply: Option<int>)
    returns (calls: seq<Call>)
    modifies r, conv
    ensures Outcome(Snapshot(r, conv), calls) == Pressed(old(Snapshot(r, conv)), chat, pressed, data, reply)
  {
    var _ := r.GetOrCreate(chat);
    calls := [DeleteMessage(chat, pressed)];
    if data == "toggle_global_off" || data == "toggle_global_on" {
      r.chats := WithMode(r.chats, chat, if data == "toggle_global_off" then DISABLED else ALWAYS);
      calls := calls + [AnswerCallback(false)];
      var shown := Show(r, conv, chat, MainView, reply);
      calls := calls + shown;
      return;
    }
    var routed := Route(r, conv, chat, pressed, data, reply);
    calls := calls + routed + [AnswerCallback(false)];
  }

  /** The `if`/`elif` chain of `handle_settings_callback` after the global switch. */
  method Route(r: Registry, conv: Conversation, chat: int, pressed: int, data: string, reply: Option<int>)
    returns (calls: seq<Call>)
    requires chat in r.chats
    modifies r, conv
    ensures Outcome(Snapshot(r, conv), calls) == Routed(old(Snapshot(r, conv)), chat, pressed, data, reply)
  {
    if NavTarget(data).Some? {
      calls := Show(r, conv, chat, NavTarget(data).value, reply);
    } else if StartsWith(data, "time_") {
      calls := HandleTimeCallback(r, conv, chat, pressed, data, reply);
    } else if StartsWith(data, "whitelist_") {
      calls := HandleWhitelistCallback(r, conv, chat, pressed, data, reply);
    } else if StartsWith(data, "autodel_") {
      calls := HandleAutoDeleteCallback(r, conv, chat, pressed, data, reply);
    } else if StartsWith(data, "remove_") {
      var handle := data[7..];
      calls := [];
      if handle in r.chats[chat].whitelist {
        r.chats := WithWhitelist(r.chats, chat, RemoveFirst(r.chats[chat].whitelist, handle));
        calls := [AnswerCallback(false)];
      }
      var shown := Show(r, conv, chat, WhitelistView, reply);
      calls := calls + shown;
    } else {
      calls := [];
    }
  }

  // ---------------------------------------------------------------- properties

  /** The record a press works on: the chat's record, created if it was missing. */
  function Before(w: World, chat: int): ChatConfig {
    WithConfig(w.chats, chat)[chat]
  }

  /**
   * The global switch sets only the mode (off: DISABLED, on: ALWAYS), shows
   * the main menu, and returns before the final answer: the last call is the
   * menu's send.
   */
  lemma GlobalSwitch(w: World, chat: int, pressed: int, data: string, reply: Option<int>)
    requires data == "toggle_global_off" || data == "toggle_global_on"
    ensures var o := Pressed(w, chat, pressed, data, reply);
      var before := Before(w, chat);
      chat in o.world.chats
      && Policy(o.world.chats[chat]) == Policy(before).(timeRange := before.timeRange.(mode := if data == "toggle_global_off" then DISABLED else ALWAYS))
      && o.world.state == Some(MainMenu)
      && |o.calls| >= 2 && o.calls[..2] == [DeleteMessage(chat, pressed), AnswerCallback(false)]
      && o.calls[|o.calls| - 1].SendMessage?
  {
    var w1 := w.(chats := WithConfig(w.chats, chat));
    var w2 := w1.(chats := WithMode(w1.chats, chat, if data == "toggle_global_off" then DISABLED else ALWAYS));
    WithConfigIdempotent(w2.chats, chat);
    ShownKeepsPolicies(w2, chat, MainView, reply);
  }

  /** Pressing the switch the main menu offers turns deletion on everywhere when it was off, and off everywhere when it was on. */
  lemma OfferedSwitchFlipsDeletion(w: World, chat: int, pressed: int, reply: Option<int>, now: int)
    ensures var o := Pressed(w, chat, pressed, ToggleButton(Before(w, chat)), reply);
      ShouldDeleteAt(o.world.chats[chat].timeRange, now) <==> Before(w, chat).timeRange.mode == DISABLED
  {
    GlobalSwitch(w, chat, pressed, ToggleButton(Before(w, chat)), reply);
  }

  /** A navigation button changes no record apart from timers and moves to its screen's state. */
  lemma Navigation(w: World, chat: int, pressed: int, data: string, reply: Option<int>)
    requires NavTarget(data).Some?
    ensures var o := Pressed(w, chat, pressed, data, reply);
      SamePolicies(o.world.chats, WithConfig(w.chats, chat))
      && o.world.state == Some(MenuState(NavTarget(data).value))
  {
    Dispatch(w, chat, pressed, data, reply);
    NavEffect(Prepared(w, chat), chat, pressed, data, reply);
  }

  lemma NavEffect(w: World, chat: int, pressed: int, data: string, reply: Option<int>)
    requires chat in w.chats && NavTarget(data).Some?
    ensures var o := Routed(w, chat, pressed, data, reply);
      SamePolicies(o.world.chats, w.chats) && o.world.state == Some(MenuState(NavTarget(data).value))
  {
    ShownKeepsPolicies(w, chat, NavTarget(data).value, reply);
    ShownState(w, chat, NavTarget(data).value, reply);
  }

  /** Facts about how "remove_" + h routes: it is no other button and no other family. */
  lemma RemoveDataRoutes(handle: string)
    ensures var data := "remove_" + handle;
      data != "toggle_global_off" && data != "toggle_global_on" && NavTarget(data).None?
      && !StartsWith(data, "time_") && !StartsWith(data, "whitelist_") && !StartsWith(data, "autodel_")
      && StartsWith(data, "remove_") && data[7..] == handle
  {
    var data := "remove_" + handle;
    assert data[0] == 'r';
    assert data[..7] == "remove_";
    RouteByInitial(data);
  }

  /** The first character alone rules out the switch, every navigation button and every family with another initial. */
  lemma RouteByInitial(data: string)
    requires |data| > 0
    ensures data[0] != 't' ==> data != "toggle_global_off" && data != "toggle_global_on" && !StartsWith(data, "time_")
    ensures data[0] != 's' && data[0] != 'b' ==> NavTarget(data).None?
    ensures data[0] != 'w' ==> !StartsWith(data, "whitelist_")
    ensures data[0] != 'a' ==> !StartsWith(data, "autodel_")
    ensures data[0] != 'r' ==> !StartsWith(data, "remove_")
  {
  }

  lemma RoutesToRemove(w: World, chat: int, pressed: int, handle: string, reply: Option<int>)
    requires chat in w.chats
    ensures Routed(w, chat, pressed, "remove_" + handle, reply) == RemovePressed(w, chat, handle, reply)
  {
    RemoveDataRoutes(handle);
  }

  lemma RemoveEffect(w: World, chat: int, handle: string, reply: Option<int>)
    requires chat in w.chats
    ensures var o := RemovePressed(w, chat, handle, reply);
      var whitelist := w.chats[chat].whitelist;
      chat in o.world.chats
      && Policy(o.world.chats[chat]) == Policy(w.chats[chat]).(whitelist := if handle in whitelist then RemoveFirst(whitelist, handle) else whitelist)
      && o.world.state == Some(WhitelistMenu)
  {
    var whitelist := w.chats[chat].whitelist;
    var w2 := if handle in whitelist then w.(chats := WithWhitelist(w.chats, chat, RemoveFirst(whitelist, handle))) else w;
    ShownKeepsPolicies(w2, chat, WhitelistView, reply);
  }

  /**
   * `remove_<h>` drops the first exact occurrence of h when there is one and
   * otherwise changes nothing; no other field changes, and the dialog is back
   * at the allow-list menu either way.
   */
  lemma RemoveButton(w: World, chat: int, pressed: int, handle: string, reply: Option<int>)
    requires chat in w.chats
    ensures var o := Routed(w, chat, pressed, "remove_" + handle, reply);
      var before := w.chats[chat];
      chat in o.world.chats
      && Policy(o.world.chats[chat]) ==
        Policy(before).(whitelist := if handle in before.whitelist then RemoveFirst(before.whitelist, handle) else before.whitelist)
      && o.world.state == Some(WhitelistMenu)
  {
    RoutesToRemove(w, chat, pressed, handle, reply);
    RemoveEffect(w, chat, handle, reply);
  }

  lemma PressedRemove(w: World, chat: int, pressed: int, handle: string, reply: Option<int>)
    ensures Pressed(w, chat, pressed, "remove_" + handle, reply).world == RemovePressed(Prepared(w, chat), chat, handle, reply).world
  {
    RemoveDataRoutes(handle);
    Dispatch(w, chat, pressed, "remove_" + handle, reply);
    RoutesToRemove(Prepared(w, chat), chat, pressed, handle, reply);
  }

  /** Each removal button the prompt offers removes its own entry. */
  lemma OfferedRemovalRemoves(whitelist: seq<string>, k: nat)
    requires k < |whitelist|
    ensures StartsWith(RemoveButtons(whitelist)[k], "remove_")
    ensures RemoveButtons(whitelist)[k][7..] == whitelist[k]
    ensures RemoveButtons(whitelist)[k] == "remove_" + whitelist[k]
  {
    RemoveDataRoutes(whitelist[k]);
  }

  /** `time_always` sets ALWAYS; `time_range` sets TIME_RANGE at once, before any time is entered, and asks for the start. */
  lemma TimeButtons(w: World, chat: int, pressed: int, data: string, reply: Option<int>)
    requires data == "time_always" || data == "time_range"
    ensures var o := Pressed(w, chat, pressed, data, reply);
      var before := Before(w, chat);
      chat in o.world.chats
      && Policy(o.world.chats[chat]) == Policy(before).(timeRange := before.timeRange.(mode := if data == "time_always" then ALWAYS else TIME_RANGE))
      && o.world.state == Some(if data == "time_always" then TimeSettings else TimeRangeSetStart)
      && |o.calls| >= 2 && o.calls[..2] == [DeleteMessage(chat, pressed), DeleteMessage(chat, pressed)]
  {
    var w1 := Prepared(w, chat);
    Dispatch(w, chat, pressed, data, reply);
    RoutesToTime(w1, chat, pressed, data, reply);
    TimeEffect(w1, chat, pressed, data, reply);
  }

  lemma RoutesToTime(w: World, chat: int, pressed: int, data: string, reply: Option<int>)
    requires chat in w.chats && (data == "time_always" || data == "time_range")
    ensures Routed(w, chat, pressed, data, reply) == TimePressed(w, chat, pressed, data, reply)
  {
    assert data[..5] == "time_";
    RouteByInitial(data);
  }

  lemma TimeEffect(w: World, chat: int, pressed: int, data: string, reply: Option<int>)
    requires chat in w.chats && (data == "time_always" || data == "time_range")
    ensures var o := TimePressed(w, chat, pressed, data, reply);
      var before := w.chats[chat];
      chat in o.world.chats
      && Policy(o.world.chats[chat]) == Policy(before).(timeRange := before.timeRange.(mode := if data == "time_always" then ALWAYS else TIME_RANGE))
      && o.world.state == Some(if data == "time_always" then TimeSettings else TimeRangeSetStart)
      && |o.calls| >= 1 && o.calls[0] == DeleteMessage(chat, pressed)
      && (data == "time_always" ==> o.calls[1..] == Shown(w.(chats := WithMode(w.chats, chat, ALWAYS)), chat, TimeView, reply).calls)
      && (data == "time_range" ==> o.calls[1..] == [SendMessage(chat, TimeStartPrompt)])
  {
    var w2 := w.(chats := WithMode(w.chats, chat, if data == "time_always" then ALWAYS else TIME_RANGE));
    ShownKeepsPolicies(w2, chat, TimeView, reply);
    PostedKeepsPolicies(w2, chat, TimeStartPrompt, reply);
  }

  /** The record set-up every press does before branching. */
  function Prepared(w: World, chat: int): (w1: World)
    ensures chat in w1.chats
  {
    w.(chats := WithConfig(w.chats, chat))
  }

  /** Apart from the global switch, a press is its route framed by the delete of the pressed menu and the final answer. */
  lemma Dispatch(w: World, chat: int, pressed: int, data: string, reply: Option<int>)
    requires data != "toggle_global_off" && data != "toggle_global_on"
    ensures var r := Routed(Prepared(w, chat), chat, pressed, data, reply);
      Pressed(w, chat, pressed, data, reply) == Outcome(r.world, [DeleteMessage(chat, pressed)] + r.calls + [AnswerCallback(false)])
  {
  }

  lemma RoutesToWhitelist(w: World, chat: int, pressed: int, data: string, reply: Option<int>)
    requires chat in w.chats && (data == "whitelist_add" || data == "whitelist_remove")
    ensures Routed(w, chat, pressed, data, reply) == WhitelistPressed(w, chat, pressed, data, reply)
  {
    assert data[..10] == "whitelist_";
    RouteByInitial(data);
  }

  /**
   * `whitelist_add` asks for handles; `whitelist_remove` offers one button per
   * entry, or on an empty list says so and leaves the state alone. Neither
   * changes a record apart from timers.
   */
  lemma WhitelistButtons(w: World, chat: int, pressed: int, data: string, reply: Option<int>)
    requires data == "whitelist_add" || data == "whitelist_remove"
    ensures var o := Pressed(w, chat, pressed, data, reply);
      var before := Before(w, chat);
      SamePolicies(o.world.chats, WithConfig(w.chats, chat))
      && o.world.state ==
        (if data == "whitelist_add" then Some(WhitelistAdd)
         else if before.whitelist == [] then w.state
         else Some(WhitelistRemove))
      && (data == "whitelist_remove" && before.whitelist != [] ==>
            SendMessage(chat, WhitelistRemovePrompt(RemoveButtons(before.whitelist))) in o.calls)
  {
    var w1 := Prepared(w, chat);
    Dispatch(w, chat, pressed, data, reply);
    RoutesToWhitelist(w1, chat, pressed, data, reply);
    WhitelistPrompts(w1, chat, pressed, data, reply);
  }

  lemma WhitelistPrompts(w: World, chat: int, pressed: int, data: string, reply: Option<int>)
    requires chat in w.chats && (data == "whitelist_add" || data == "whitelist_remove")
    ensures var o := WhitelistPressed(w, chat, pressed, data, reply);
      var whitelist := w.chats[chat].whitelist;
      SamePolicies(o.world.chats, w.chats)
      && o.world.state ==
        (if data == "whitelist_add" then Some(WhitelistAdd)
         else if whitelist == [] then w.state
         else Some(WhitelistRemove))
      && (data == "whitelist_remove" && whitelist != [] ==>
            SendMessage(chat, WhitelistRemovePrompt(RemoveButtons(whitelist))) in o.calls)
  {
    var notice :=
      if data == "whitelist_add" then WhitelistAddPrompt
      else if w.chats[chat].whitelist == [] then WhitelistIsEmpty
      else WhitelistRemovePrompt(RemoveButtons(w.chats[chat].whitelist));
    PostedKeepsPolicies(w, chat, notice, reply);
  }

  lemma RoutesToAutoDelete(w: World, chat: int, pressed: int, data: string, reply: Option<int>)
    requires chat in w.chats && (data == "autodel_toggle" || data == "autodel_set_time")
    ensures Routed(w, chat, pressed, data, reply) == AutoDeletePressed(w, chat, pressed, data, reply)
  {
    assert data[..8] == "autodel_";
    RouteByInitial(data);
  }

  lemma AutoDeleteEffect(w: World, chat: int, pressed: int, data: string, reply: Option<int>)
    requires chat in w.chats && (data == "autodel_toggle" || data == "autodel_set_time")
    ensures var o := AutoDeletePressed(w, chat, pressed, data, reply);
      var before := w.chats[chat];
      chat in o.world.chats
      && Policy(o.world.chats[chat]) ==
        (if data == "autodel_toggle" then Policy(before).(autoDelete := before.autoDelete.(enabled := !before.autoDelete.enabled))
         else Policy(before))
      && o.world.state == Some(if data == "autodel_toggle" then SettingsState.AutoDeleteSettings else AutoDeleteTimeSet)
  {
    if data == "autodel_toggle" {
      ShownKeepsPolicies(w.(chats := WithAutoDeleteFlipped(w.chats, chat)), chat, AutoDeleteView, reply);
    } else {
      PostedKeepsPolicies(w, chat, AutoDeleteTimePrompt, reply);
    }
  }

  /** `autodel_toggle` negates only the auto-delete switch and shows the auto-delete menu. */
  lemma AutoDeleteToggle(w: World, chat: int, pressed: int, data: string, reply: Option<int>)
    requires data == "autodel_toggle"
    ensures var o := Pressed(w, chat, pressed, data, reply);
      var before := Before(w, chat);
      chat in o.world.chats
      && Policy(o.world.chats[chat]) == Policy(before).(autoDelete := before.autoDelete.(enabled := !before.autoDelete.enabled))
      && o.world.state == Some(SettingsState.AutoDeleteSettings)
  {
    Dispatch(w, chat, pressed, data, reply);
    RoutesToAutoDelete(Prepared(w, chat), chat, pressed, data, reply);
    AutoDeleteEffect(Prepared(w, chat), chat, pressed, data, reply);
  }

  /** `autodel_set_time` changes no record apart from timers and asks for the delay. */
  lemma AutoDeleteSetTime(w: World, chat: int, pressed: int, data: string, reply: Option<int>)
    requires data == "autodel_set_time"
    ensures var o := Pressed(w, chat, pressed, data, reply);
      chat in o.world.chats
      && Policy(o.world.chats[chat]) == Policy(Before(w, chat))
      && o.world.state == Some(AutoDeleteTimeSet)
  {
    Dispatch(w, chat, pressed, data, reply);
    RoutesToAutoDelete(Prepared(w, chat), chat, pressed, data, reply);
    AutoDeleteEffect(Prepared(w, chat), chat, pressed, data, reply);
  }

  // ---------------------------------------------------------------- frame

  /** A step that touches no chat but `chat` and sets `last_message_id` only to a successful send's id. */
  predicate Confined(o: Outcome, w: World, chat: int, reply: Option<int>) {
    o.world.chats.Keys == w.chats.Keys
    && (forall c :: c in w.chats && c != chat ==> o.world.chats[c] == w.chats[c])
    && (o.world.lastMessageId == w.lastMessageId || (reply.Some? && o.world.lastMessageId == reply))
  }

  lemma DisplayedConfined(w: World, chat: int, notice: Notice, target: Option<SettingsState>, reply: Option<int>)
    requires chat in w.chats
    ensures Confined(Displayed(w, chat, notice, target, reply), w, chat, reply)
    ensures Confined(Posted(w, chat, notice, reply), w, chat, reply)
  {
  }

  lemma ShownConfined(w: World, chat: int, menu: Menu, reply: Option<int>)
    requires chat in w.chats
    ensures Confined(Shown(w, chat, menu, reply), w, chat, reply)
  {
    DisplayedConfined(w, chat, MenuNotice(menu, w.chats[chat]), Some(MenuState(menu)), reply);
  }

  /** Editing the chat's record and then showing or prompting stays confined to the chat. */
  lemma EditThenConfined(w: World, w2: World, o: Outcome, chat: int, reply: Option<int>)
    requires w2.chats.Keys == w.chats.Keys && w2.lastMessageId == w.lastMessageId
    requires forall c :: c in w.chats && c != chat ==> w2.chats[c] == w.chats[c]
    requires Confined(o, w2, chat, reply)
    ensures Confined(o, w, chat, reply)
  {
  }

  lemma RoutedConfined(w: World, chat: int, pressed: int, data: string, reply: Option<int>)
    requires chat in w.chats
    ensures Confined(Routed(w, chat, pressed, data, reply), w, chat, reply)
  {
    if NavTarget(data).Some? {
      ShownConfined(w, chat, NavTarget(data).value, reply);
    } else if StartsWith(data, "time_") {
      TimeConfined(w, chat, pressed, data, reply);
    } else if StartsWith(data, "whitelist_") {
      WhitelistConfined(w, chat, pressed, data, reply);
    } else if StartsWith(data, "autodel_") {
      AutoDeleteConfined(w, chat, pressed, data, reply);
    } else if StartsWith(data, "remove_") {
      RemoveConfined(w, chat, data[7..], reply);
    }
  }

  lemma TimeConfined(w: World, chat: int, pressed: int, data: string, reply: Option<int>)
    requires chat in w.chats
    ensures Confined(TimePressed(w, chat, pressed, data, reply), w, chat, reply)
  {
    var w2 := w.(chats := WithMode(w.chats, chat, if data == "time_always" then ALWAYS else TIME_RANGE));
    ShownConfined(w2, chat, TimeView, reply);
    DisplayedConfined(w2, chat, TimeStartPrompt, Some(TimeRangeSetStart), reply);
    if data == "time_always" || data == "time_range" {
      EditThenConfined(w, w2, TimePressed(w, chat, pressed, data, reply), chat, reply);
    }
  }

  lemma WhitelistConfined(w: World, chat: int, pressed: int, data: string, reply: Option<int>)
    requires chat in w.chats
    ensures Confined(WhitelistPressed(w, chat, pressed, data, reply), w, chat, reply)
  {
    var whitelist := w.chats[chat].whitelist;
    DisplayedConfined(w, chat, WhitelistAddPrompt, Some(WhitelistAdd), reply);
    DisplayedConfined(w, chat, WhitelistIsEmpty, None, reply);
    DisplayedConfined(w, chat, WhitelistRemovePrompt(RemoveButtons(whitelist)), Some(WhitelistRemove), reply);
  }

  lemma AutoDeleteConfined(w: World, chat: int, pressed: int, data: string, reply: Option<int>)
    requires chat in w.chats
    ensures Confined(AutoDeletePressed(w, chat, pressed, data, reply), w, chat, reply)
  {
    var w2 := w.(chats := WithAutoDeleteFlipped(w.chats, chat));
    ShownConfined(w2, chat, AutoDeleteView, reply);
    DisplayedConfined(w, chat, AutoDeleteTimePrompt, Some(AutoDeleteTimeSet), reply);
    if data == "autodel_toggle" {
      EditThenConfined(w, w2, AutoDeletePressed(w, chat, pressed, data, reply), chat, reply);
    }
  }

  lemma RemoveConfined(w: World, chat: int, handle: string, reply: Option<int>)
    requires chat in w.chats
    ensures Confined(RemovePressed(w, chat, handle, reply), w, chat, reply)
  {
    var whitelist := w.chats[chat].whitelist;
    ShownConfined(w, chat, WhitelistView, reply);
    if handle in whitelist {
      var w2 := w.(chats := WithWhitelist(w.chats, chat, RemoveFirst(whitelist, handle)));
      ShownConfined(w2, chat, WhitelistView, reply);
      EditThenConfined(w, w2, RemovePressed(w, chat, handle, reply), chat, reply);
    }
  }

  /**
   * Every press creates a missing record, deletes the pressed menu first,
   * leaves every other chat's record as it was, and changes
   * `last_message_id` only to the id a successful send returned.
   */
  lemma PressFrame(w: World, chat: int, pressed: int, data: string, reply: Option<int>)
    ensures var o := Pressed(w, chat, pressed, data, reply);
      o.world.chats.Keys == w.chats.Keys + {chat}
      && (forall c :: c in w.chats && c != chat ==> o.world.chats[c] == w.chats[c])
      && (o.world.lastMessageId == w.lastMessageId || (reply.Some? && o.world.lastMessageId == reply))
      && o.calls != [] && o.calls[0] == DeleteMessage(chat, pressed)
  {
    var w1 := Prepared(w, chat);
    var o := Pressed(w, chat, pressed, data, reply);
    if data == "toggle_global_off" || data == "toggle_global_on" {
      var w2 := w1.(chats := WithMode(w1.chats, chat, if data == "toggle_global_off" then DISABLED else ALWAYS));
      WithConfigIdempotent(w2.chats, chat);
      ShownConfined(w2, chat, MainView, reply);
    } else {
      Dispatch(w, chat, pressed, data, reply);
      RoutedConfined(w1, chat, pressed, data, reply);
    }
  }

  /** Callback data no branch knows only creates the record, deletes the pressed menu and answers. */
  lemma UnknownData(w: World, chat: int, pressed: int, data: string, reply: Option<int>)
    requires data != "toggle_global_off" && data != "toggle_global_on" && NavTarget(data).None?
    requires !StartsWith(data, "time_") && !StartsWith(data, "whitelist_") && !StartsWith(data, "autodel_") && !StartsWith(data, "remove_")
    ensures Pressed(w, chat, pressed, data, reply) ==
      Outcome(w.(chats := WithConfig(w.chats, chat)), [DeleteMessage(chat, pressed), AnswerCallback(false)])
  {
  }

  /** An unknown `time_` button deletes the pressed menu twice, once per handler, and changes nothing else. */
  lemma UnknownTimeButton(w: World, chat: int, pressed: int, reply: Option<int>)
    ensures Pressed(w, chat, pressed, "time_zone", reply) ==
      Outcome(w.(chats := WithConfig(w.chats, chat)), [DeleteMessage(chat, pressed), DeleteMessage(chat, pressed), AnswerCallback(false)])
  {
    assert "time_zone"[..5] == "time_";
  }
}
