/**
 * utils/decorators.py: the `admin_required` guard put in front of the
 * settings handlers. It inspects the positional and keyword arguments the
 * dispatcher passes, resolves the bot object, asks the member lookup whether
 * the relevant user is an administrator, and either runs the handler,
 * deletes the triggering message, answers the button press with an alert,
 * or silently does nothing.
 *
 * `admin(chat, user)` stands for the awaited `is_admin(bot, chat, user)`.
 */
module Decorators {
  import opened Wrappers

  /** A positional or keyword argument, as far as the guard looks at it. */
  datatype Arg =
    | MessageArg(chat: int, sender: int, id: int)
      /** A button press: who pressed, and the chat, author and id of the menu message carrying the button. */
    | CallbackArg(presser: int, menuChat: int, menuAuthor: int, menuId: int)
    | BotArg
    | OtherArg(truthy: bool)

  datatype GuardAction = RunHandler | DeleteTrigger(chat: int, id: int) | Alert | Drop

  /** Python truthiness of an optional argument; only an explicit falsy value or None is false. */
  predicate Truthy(a: Option<Arg>) {
    a.Some? && (a.value.OtherArg? ==> a.value.truthy)
  }

  /**
   * `kwargs.get("bot") or args[1] if len(args) > 1 else None` as Python
   * parses it: the conditional binds loosest, so with fewer than two
   * positional arguments the keyword is never looked at.
   */
  function ResolveBotAsWritten(args: seq<Arg>, kwBot: Option<Arg>): (bot: Option<Arg>)
    ensures |args| <= 1 ==> bot.None?
    ensures |args| > 1 && Truthy(kwBot) ==> bot == kwBot
    ensures |args| > 1 && !Truthy(kwBot) ==> bot == Some(args[1])
  {
    if |args| > 1 then (if Truthy(kwBot) then kwBot else Some(args[1])) else None
  }

  /** `kwargs.get("bot") or (args[1] if len(args) > 1 else None)`: a keyword bot counts whatever the positional count. */
  function ResolveBot(args: seq<Arg>, kwBot: Option<Arg>): (bot: Option<Arg>)
    ensures Truthy(kwBot) ==> bot == kwBot
    ensures !Truthy(kwBot) ==> bot == (if |args| > 1 then Some(args[1]) else None)
  {
    if Truthy(kwBot) then kwBot else if |args| > 1 then Some(args[1]) else None
  }

  /**
   * The decision once the bot is resolved. For a button press the user
   * checked is the presser when `checkPresser` holds, and otherwise the
   * author of the menu message.
   */
  function Decide(args: seq<Arg>, bot: Option<Arg>, admin: (int, int) -> bool, checkPresser: bool): GuardAction {
    if |args| == 0 then RunHandler
    else
      match args[0]
      case MessageArg(chat, sender, id) =>
        if !Truthy(bot) then Drop
        else if !admin(chat, sender) then DeleteTrigger(chat, id)
        else RunHandler
      case CallbackArg(presser, menuChat, menuAuthor, _) =>
        if !Truthy(bot) then Drop
        else if !admin(menuChat, if checkPresser then presser else menuAuthor) then Alert
        else RunHandler
      case _ => RunHandler
  }

  predicate IsEvent(a: Arg) {
    a.MessageArg? || a.CallbackArg?
  }

  /** `admin_required` as written. */
  function AdminRequiredAsWritten(args: seq<Arg>, kwBot: Option<Arg>, admin: (int, int) -> bool): (act: GuardAction)
    ensures |args| == 0 || !IsEvent(args[0]) ==> act == RunHandler
    ensures |args| == 1 && IsEvent(args[0]) ==> act == Drop
    ensures |args| > 1 && IsEvent(args[0]) && !Truthy(ResolveBotAsWritten(args, kwBot)) ==> act == Drop
    ensures |args| > 1 && IsEvent(args[0]) && Truthy(ResolveBotAsWritten(args, kwBot)) ==>
      match args[0]
      case MessageArg(chat, sender, id) => act == if admin(chat, sender) then RunHandler else DeleteTrigger(chat, id)
      case CallbackArg(_, menuChat, menuAuthor, _) => act == if admin(menuChat, menuAuthor) then RunHandler else Alert
      case _ => false
  {
    Decide(args, ResolveBotAsWritten(args, kwBot), admin, false)
  }

  /** `admin_required` with the keyword bot honoured and the presser checked. */
  function AdminRequired(args: seq<Arg>, kwBot: Option<Arg>, admin: (int, int) -> bool): (act: GuardAction)
    ensures |args| == 0 || !IsEvent(args[0]) ==> act == RunHandler
    ensures |args| > 0 && IsEvent(args[0]) && !Truthy(ResolveBot(args, kwBot)) ==> act == Drop
    ensures |args| > 0 && IsEvent(args[0]) && Truthy(ResolveBot(args, kwBot)) ==>
      match args[0]
      case MessageArg(chat, sender, id) => act == if admin(chat, sender) then RunHandler else DeleteTrigger(chat, id)
      case CallbackArg(presser, menuChat, _, _) => act == if admin(menuChat, presser) then RunHandler else Alert
      case _ => false
  {
    Decide(args, ResolveBot(args, kwBot), admin, true)
  }

  /** A non-administrator never gets a settings handler run through the corrected guard, whichever event they send. */
  lemma NonAdminNeverRuns(args: seq<Arg>, kwBot: Option<Arg>, admin: (int, int) -> bool)
    requires |args| > 0
    requires args[0].MessageArg? ==> !admin(args[0].chat, args[0].sender)
    requires args[0].CallbackArg? ==> !admin(args[0].menuChat, args[0].presser)
    requires IsEvent(args[0])
    ensures AdminRequired(args, kwBot, admin) != RunHandler
  {
  }

  /** When the dispatcher passes the bot positionally the two guards resolve it alike; they differ only in whom a button press checks. */
  lemma SameBotWithTwoPositionals(args: seq<Arg>, kwBot: Option<Arg>)
    requires |args| > 1
    ensures ResolveBotAsWritten(args, kwBot) == ResolveBot(args, kwBot)
  {
  }

  /** For a message event with the bot positional, the guards agree on every input. */
  lemma MessageGuardsAgree(args: seq<Arg>, kwBot: Option<Arg>, admin: (int, int) -> bool)
    requires |args| > 1 && args[0].MessageArg?
    ensures AdminRequiredAsWritten(args, kwBot, admin) == AdminRequired(args, kwBot, admin)
  {
  }

  // ---------------------------------------------------------------- findings

  /** Everybody is an administrator. */
  function EveryoneAdmin(chat: int, user: int): bool {
    true
  }

  /** Only the bot itself, user 99, is an administrator. */
  function OnlyBotAdmin(chat: int, user: int): bool {
    user == 99
  }

  /**
   * The event passed positionally and the bot by keyword, the way the
   * dispatcher calls handlers: as written the guard never runs the handler,
   * even for an administrator; corrected it runs it.
   */
  lemma KeywordBotIgnoredAsWritten()
    ensures AdminRequiredAsWritten([MessageArg(1, 2, 3)], Some(BotArg), EveryoneAdmin) == Drop
    ensures AdminRequired([MessageArg(1, 2, 3)], Some(BotArg), EveryoneAdmin) == RunHandler
  {
  }

  /**
   * A plain member (user 5) presses a button on a menu the bot (user 99, an
   * administrator) sent: as written the check asks about the bot and lets the
   * press through; corrected it asks about the presser and answers with an alert.
   */
  lemma MenuAuthorCheckedAsWritten()
    ensures AdminRequiredAsWritten([CallbackArg(5, 1, 99, 3), BotArg], None, OnlyBotAdmin) == RunHandler
    ensures AdminRequired([CallbackArg(5, 1, 99, 3), BotArg], None, OnlyBotAdmin) == Alert
  {
  }
}
