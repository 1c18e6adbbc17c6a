/**
 * utils/helpers.py: the boolean wrappers around the platform's delete and
 * member lookup, and the bookkeeping of the bot's self-deleting replies in
 * `message_tasks` (register on send, guarded delete-then-remove on fire).
 */
module Helpers {
  import opened Wrappers
  import opened Models
  import opened Storage

  /** What a member lookup can report. */
  datatype MemberStatus = CREATOR | ADMINISTRATOR | MEMBER | RESTRICTED | LEFT | KICKED

  /** How a platform delete ends: success, the two warned-about refusals, or another error. */
  datatype DeleteOutcome = Deleted | NotFound | CannotDelete | OtherBadRequest | OtherError

  /**
   * The texts the bot sends, by purpose (their wording is presentation and
   * not modelled); a menu whose buttons depend on the record carries their
   * callback data.
   */
  datatype Notice =
    | MainMenuText(toggle: string) | TimeMenuText | WhitelistMenuText | AutoDeleteMenuText | StatusText
    | TimeStartPrompt | WhitelistAddPrompt | WhitelistIsEmpty | WhitelistRemovePrompt(buttons: seq<string>) | AutoDeleteTimePrompt
    | EnterHandles | AddSummary(added: seq<string>, existing: seq<string>, invalid: seq<string>)
    | SecondsSet(seconds: int) | SecondsOutOfRange | SecondsNotInteger
    | TimeEndPrompt(hour: int, minute: int) | TimeRangeActivated | TimeFormatError

  /** The platform calls a handler issues, in order. */
  datatype Call =
    | DeleteMessage(chat: int, id: int)
    | SendMessage(chat: int, notice: Notice)
    | AnswerCallback(alert: bool)
    | GetChatMember(chat: int, user: int)

  /** `delete_message_silently`: true exactly when the platform deleted the message; no failure escapes. */
  function DeleteSilently(outcome: DeleteOutcome): (ok: bool)
    ensures ok <==> outcome == Deleted
    ensures outcome in {NotFound, CannotDelete, OtherBadRequest, OtherError} ==> !ok
  {
    match outcome
    case Deleted => true
    case _ => false
  }

  /** `is_admin`: administrators and the creator; a failed lookup (None) counts as not admin. */
  function IsAdmin(lookup: Option<MemberStatus>): (r: bool)
    ensures r ==> lookup.Some?
    ensures lookup.Some? ==> (r <==> lookup.value in {ADMINISTRATOR, CREATOR})
  {
    match lookup
    case None => false
    case Some(status) => status == ADMINISTRATOR || status == CREATOR
  }

  // ---------------------------------------------------------------- send

  /**
   * The record after `send_message_with_auto_delete` got `reply` from the
   * platform (None when sending raised): a timer under the new message id,
   * with the delay in force at send time, when auto-delete is on.
   */
  function Registered(cfg: ChatConfig, reply: Option<int>): ChatConfig {
    if reply.Some? && cfg.autoDelete.enabled && cfg.autoDelete.deleteAfter > 0 then
      cfg.(messageTasks := cfg.messageTasks[reply.value := Timer(cfg.autoDelete.deleteAfter)])
    else cfg
  }

  function SendV(chats: map<int, ChatConfig>, chat: int, reply: Option<int>): map<int, ChatConfig>
    requires chat in chats
  {
    chats[chat := Registered(chats[chat], reply)]
  }

  predicate Arms(cfg: ChatConfig) {
    cfg.autoDelete.enabled && cfg.autoDelete.deleteAfter > 0
  }

  /**
   * Sending touches only the timers: a failed send or disabled auto-delete
   * changes nothing; otherwise exactly the new id gains a timer with the
   * current delay, replacing any earlier one under that id.
   */
  lemma RegisteredOnlyAddsTimer(cfg: ChatConfig, reply: Option<int>)
    ensures Registered(cfg, reply).(messageTasks := cfg.messageTasks) == cfg
    ensures reply.None? || !Arms(cfg) ==> Registered(cfg, reply) == cfg
    ensures reply.Some? && Arms(cfg) ==>
      Registered(cfg, reply).messageTasks.Keys == cfg.messageTasks.Keys + {reply.value}
      && Registered(cfg, reply).messageTasks[reply.value] == Timer(cfg.autoDelete.deleteAfter)
      && forall id :: id in cfg.messageTasks && id != reply.value ==> Registered(cfg, reply).messageTasks[id] == cfg.messageTasks[id]
  {
  }

  method SendWithAutoDelete(r: Registry, chat: int, reply: Option<int>) returns (sent: Option<int>)
    requires chat in r.chats
    modifies r
    ensures sent == reply
    ensures r.chats == SendV(old(r.chats), chat, reply)
  {
    sent := reply;
    if reply.Some? {
      var cfg := r.chats[chat];
      if cfg.autoDelete.enabled && cfg.autoDelete.deleteAfter > 0 {
        r.chats := r.chats[chat := cfg.(messageTasks := cfg.messageTasks[reply.value := Timer(cfg.autoDelete.deleteAfter)])];
      }
    }
  }

  // ---------------------------------------------------------------- fire

  /** The guard `schedule_auto_delete` checks when its delay has elapsed. */
  predicate Pending(chats: map<int, ChatConfig>, chat: int, id: int) {
    chat in chats && id in chats[chat].messageTasks
  }

  function AfterFire(chats: map<int, ChatConfig>, chat: int, id: int): map<int, ChatConfig> {
    if Pending(chats, chat, id) then
      chats[chat := chats[chat].(messageTasks := chats[chat].messageTasks - {id})]
    else chats
  }

  function FireCalls(chats: map<int, ChatConfig>, chat: int, id: int): seq<Call> {
    if Pending(chats, chat, id) then [DeleteMessage(chat, id)] else []
  }

  /**
   * The timer of message `id` in `chat` fires: the delete is attempted only
   * while the entry is still registered, and the entry is gone afterwards
   * whatever the delete's outcome.
   */
  method FireTimer(r: Registry, chat: int, id: int) returns (calls: seq<Call>)
    modifies r
    ensures calls == FireCalls(old(r.chats), chat, id)
    ensures r.chats == AfterFire(old(r.chats), chat, id)
  {
    calls := [];
    if chat in r.chats {
      var cfg := r.chats[chat];
      if id in cfg.messageTasks {
        calls := [DeleteMessage(chat, id)];
        if id in r.chats[chat].messageTasks {
          r.chats := r.chats[chat := cfg.(messageTasks := cfg.messageTasks - {id})];
        }
      }
    }
  }

  /** After a fire the id has no timer, and every other chat and every other timer is as it was. */
  lemma FireRemovesOnlyItsEntry(chats: map<int, ChatConfig>, chat: int, id: int)
    ensures !Pending(AfterFire(chats, chat, id), chat, id)
    ensures AfterFire(chats, chat, id).Keys == chats.Keys
    ensures forall c :: c in chats && c != chat ==> AfterFire(chats, chat, id)[c] == chats[c]
    ensures chat in chats ==>
      AfterFire(chats, chat, id)[chat].(messageTasks := chats[chat].messageTasks) == chats[chat]
      && forall k :: k in chats[chat].messageTasks && k != id ==>
           k in AfterFire(chats, chat, id)[chat].messageTasks
           && AfterFire(chats, chat, id)[chat].messageTasks[k] == chats[chat].messageTasks[k]
  {
  }

  /** A timer that fires after its entry is gone does nothing. */
  lemma LateFireIsNoOp(chats: map<int, ChatConfig>, chat: int, id: int)
    requires !Pending(chats, chat, id)
    ensures FireCalls(chats, chat, id) == [] && AfterFire(chats, chat, id) == chats
  {
  }

  /**
   * Registering the same message twice and letting both timers fire deletes
   * it exactly once, and leaves no timer behind for it.
   */
  lemma {:induction false} DoubleRegistrationDeletesOnce(chats: map<int, ChatConfig>, chat: int, id: int)
    requires chat in chats && Arms(chats[chat])
    ensures
      var once := SendV(chats, chat, Some(id));
      var twice := SendV(once, chat, Some(id));
      var fired := AfterFire(twice, chat, id);
      |FireCalls(twice, chat, id) + FireCalls(fired, chat, id)| == 1
      && FireCalls(twice, chat, id) == [DeleteMessage(chat, id)]
      && !Pending(AfterFire(fired, chat, id), chat, id)
  {
    var once := SendV(chats, chat, Some(id));
    assert Arms(once[chat]);
    var twice := SendV(once, chat, Some(id));
    assert Pending(twice, chat, id);
    FireRemovesOnlyItsEntry(twice, chat, id);
    LateFireIsNoOp(AfterFire(twice, chat, id), chat, id);
  }
}
