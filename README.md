# inline_bot_cleaner, modelled in Dafny

inline_bot_cleaner is a Telegram group-moderation bot. It deletes messages that other bots produced through inline mode. Each group has a settings record with four parts:

- an allow-list of bot handles;
- a deletion policy: always, never, or inside a daily time window;
- the auto-delete delay for the bot's own replies;
- the table of pending self-delete timers.

Administrators edit the record through a button-driven settings dialog. The dialog is a nine-state machine, and free text is read as input in four of those states.

This project models the bot's decision and bookkeeping logic between the platform calls:

- the window policy and the case-insensitive allow-list (`models.dfy`);
- the inline-origin classifier and the moderation pipeline (`services.dfy`);
- the settings screens (`menus.dfy`), button presses (`callbacks.dfy`) and text input (`messages.dfy`);
- the self-delete timer table and the boolean wrappers around the platform (`helpers.dfy`);
- the administrator guard (`decorators.dfy`).

`text.dfy` models the Python string built-ins the handlers use. `storage.dfy` holds the process-wide store of chat records. `states.dfy` holds the dialog states and the per-conversation context.

Code that changes state in the source is modelled as methods over a `Registry` (the store) and a `Conversation` (the dialog state and `last_message_id`). Each handler method is proved equal to a pure step function on a `World` snapshot. The step function returns the new world and the platform calls issued, in order. The lemmas state the source's promises about these step functions.

The following are inputs to the model rather than computed by it:

- what the platform returns: a sent message's id, or None when sending failed; a member's status;
- the time of day, in seconds.

## Model

| member | source | states |
|---|---|---|
| Models.ShouldDeleteAt | domain/models.py:31-45 | DISABLED never deletes, ALWAYS always does, equal bounds select the whole day, and otherwise (bounds and moment within one day) the moment is inside iff walking forward round the clock from the start it comes before the end |
| Models.DisabledNeverDeletes | domain/models.py:32-33 | in mode DISABLED no time of day is inside the deletion policy |
| Models.AlwaysDeletes | domain/models.py:34-35 | in mode ALWAYS every time of day is inside the policy, whatever the window bounds |
| Models.PlainWindow | domain/models.py:41-42 | with start before end the policy holds exactly for start <= now < end: the start is inside, the end is not |
| Models.WrappingWindow | domain/models.py:43-44 | with start not before end the policy holds exactly for now >= start or now < end (across midnight) |
| Models.EqualBoundsSelectWholeDay | domain/models.py:41-44 | equal bounds in TIME_RANGE select the whole day, not an empty window |
| Models.SwappedWindowIsComplement | domain/models.py:36-44 | exchanging distinct start and end selects exactly the complementary times of day |
| Models.AnyLowerEquals | domain/models.py:80-81 | true iff some entry lower-cased equals the target |
| Models.IsWhitelisted | domain/models.py:77-81 | a handle is allow-listed iff it is non-empty and some entry equals it after lower-casing both |
| Models.WhitelistIgnoresCase | domain/models.py:80-81 | two handles with the same lower-case form get the same answer |
| Models.WhitelistGrows | domain/models.py:77-81 | appending an entry keeps every listed handle listed and lists the new one in any casing |
| Models.DefaultChatConfigBehaviour | domain/models.py:69-75 | a fresh record lists @gif, @vid and @music (any casing); deletes always; its window is 22:00-08:00; auto-delete is on at 30 s; no timers are pending |
| Storage.WithConfig | domain/services.py:23-24 | lazy creation adds exactly the chat, keeps every existing record, and a missing record becomes the default |
| Storage.WithConfigIdempotent | domain/services.py:23-24 | a second lookup-or-create changes nothing |
| Storage.Registry.GetOrCreate | domain/services.py:23-26 | the store becomes the lazily completed store and the returned record is the chat's entry |
| Text.SpaceIsNotWord | domain/services.py:57 | no character is both in `\s` and in `\w` |
| Text.Strip | handlers/messages.py:39 | the stripped text is empty or starts and ends with a non-blank |
| Text.TrimStartSuffix | handlers/messages.py:39 | dropping leading blanks keeps a suffix of the text, and every dropped character is blank |
| Text.StripSlice | handlers/messages.py:39 | the stripped text is the slice of the input after its leading blanks, and every character outside that slice is blank |
| Text.StripKeeps | handlers/messages.py:89 | text without surrounding blanks is unchanged by stripping |
| Text.WordsAreTokens | handlers/messages.py:50 | whitespace splitting yields non-empty tokens free of blanks |
| Text.WordsOfStrip | handlers/messages.py:39-50 | stripping first does not change the whitespace split |
| Text.LineTokensAreWords | handlers/messages.py:48-51 | splitting into lines, stripping each and splitting it on whitespace gives the same tokens as one whitespace split of the whole text |
| Text.StrippedNonEmptyHasWords | handlers/messages.py:41-51 | text that is not blank has at least one token |
| Text.BlankHasNoWords | handlers/messages.py:41 | all-blank text has no tokens |
| Text.Split | handlers/messages.py:113 | splitting yields at least one part, and the whole text when the separator is absent |
| Text.SplitJoin | handlers/messages.py:113 | joining the parts back with the separator gives the input |
| Text.SplitPiecesFree | handlers/messages.py:113 | no part contains the separator |
| Text.IndexOf | handlers/messages.py:113 | the index is that of the first occurrence |
| Text.Render | handlers/messages.py:95 | the decimal rendering is a non-empty digit string |
| Text.RenderValue | handlers/messages.py:95 | the rendered digits denote the number |
| Text.ParseDigits | handlers/messages.py:89 | `int` reads a digit string, with or without a minus sign, as its value |
| Text.ParseInt | handlers/messages.py:89 | `int` accepts exactly the stripped texts made of ASCII digits, optionally after one sign; all-digit text reads as its decimal value, a `-` negates it and a `+` does not |
| Text.ParseIntRender | handlers/messages.py:89 | `int` reads back every rendered natural number and its negation |
| Text.Pad2 | handlers/messages.py:135 | the `:02d` rendering is two digits |
| Text.Pad2Value | handlers/messages.py:135 | `int` reads a `:02d` rendering back as the number |
| Helpers.DeleteSilently | utils/helpers.py:17-33 | true iff the platform deleted the message; each failure gives false |
| Helpers.IsAdmin | utils/helpers.py:36-46 | true iff the lookup succeeded with status ADMINISTRATOR or CREATOR; a failed lookup gives false |
| Helpers.RegisteredOnlyAddsTimer | utils/helpers.py:65-81 | a send changes only the timers. A failed send or disabled auto-delete changes nothing. Otherwise the new id gets a timer with the current delay, replacing any earlier one, and other timers are kept |
| Helpers.SendWithAutoDelete | utils/helpers.py:61-81 | returns the platform's reply and leaves the store as the timer-registering step describes |
| Helpers.FireTimer | utils/helpers.py:49-58 | the delete is issued only while the entry is registered; the store becomes the guarded removal |
| Helpers.FireRemovesOnlyItsEntry | utils/helpers.py:53-58 | after a fire the id has no timer; every other chat, field and timer is unchanged |
| Helpers.LateFireIsNoOp | utils/helpers.py:53-55 | a fire whose entry is gone issues no call and changes nothing |
| Helpers.DoubleRegistrationDeletesOnce | utils/helpers.py:49-76 | registering one message twice and firing both timers deletes it exactly once and leaves no timer |
| Decorators.ResolveBotAsWritten | utils/decorators.py:17 | with fewer than two positional arguments no bot; otherwise a truthy keyword bot, else the second positional |
| Decorators.ResolveBot | utils/decorators.py:22 | a truthy keyword bot always wins; otherwise the second positional argument if there is one |
| Decorators.AdminRequiredAsWritten | utils/decorators.py:9-43 | non-events run the handler. A lone event, or an event whose resolved bot is falsy, is dropped. Otherwise a message runs the handler if its sender is an admin and is deleted if not; a button press runs the handler if the menu message's author is an admin and gets an alert if not |
| Decorators.AdminRequired | utils/decorators.py:9-43 | non-events run the handler and no bot means drop. Otherwise a message runs iff its sender is an admin, else it is deleted. A button press runs iff the presser is an admin, else it gets an alert |
| Decorators.NonAdminNeverRuns | utils/decorators.py:30-39 | a non-administrator's message or button press never runs a guarded handler |
| Decorators.SameBotWithTwoPositionals | utils/decorators.py:17-22 | with two positional arguments both bot resolutions agree |
| Decorators.MessageGuardsAgree | utils/decorators.py:15-34 | for a message with the bot positional, the guard as written and the corrected one decide alike |
| Decorators.KeywordBotIgnoredAsWritten | utils/decorators.py:17 | example: event positional and bot by keyword: as written dropped even for an admin, corrected it runs |
| Decorators.MenuAuthorCheckedAsWritten | utils/decorators.py:30 | example: a member presses a button on the bot's menu: as written it runs, corrected it is refused with an alert |
| Menus.PostedKeepsPolicies | utils/helpers.py:61-81 | a send changes no setting, no dialog state and no recorded menu id |
| Menus.Post | utils/helpers.py:61-81 | returns the reply, registers its timer, and issues one send |
| Menus.Display | handlers/settings_menu.py:71-77 | send, then the new state even if the send failed, then `last_message_id` only on success |
| Menus.MenuState | handlers/settings_menu.py:75-239 | the main and status screens leave MainMenu and no other screen does; no screen leaves an input state |
| Menus.ToggleButton | handlers/settings_menu.py:24-26 | the switch offers `toggle_global_on` iff the mode is DISABLED, and `toggle_global_off` iff it is not |
| Menus.Show | handlers/settings_menu.py:16-241 | each `show_*` method equals its step: lazy creation and previous-menu delete for the main menu only, then the display |
| Menus.ShownState | handlers/settings_menu.py:75-77 | every screen leaves its own state; `last_message_id` becomes the reply only when the send succeeded |
| Menus.ShownKeepsPolicies | handlers/settings_menu.py:80-241 | apart from the main menu's lazy creation no screen changes a setting, and each ends with its send to the chat |
| Menus.OnlyMainMenuDeletes | handlers/settings_menu.py:67-69 | the only delete a screen issues is the main menu's delete of the recorded previous menu |
| Callbacks.WithMode | handlers/callbacks.py:39 | setting the mode keeps the chats present |
| Callbacks.WithWhitelist | handlers/callbacks.py:86 | replacing the allow-list keeps the chats present |
| Callbacks.WithAutoDeleteFlipped | handlers/callbacks.py:242 | flipping auto-delete keeps the chats present |
| Callbacks.FirstIndex | handlers/callbacks.py:86 | the index of the first occurrence |
| Callbacks.RemoveFirst | handlers/callbacks.py:86 | `list.remove` drops the first occurrence of the handle and nothing else: the result is the list without that one position, one shorter, with the same multiset less one copy |
| Callbacks.RemoveButtons | handlers/callbacks.py:196-205 | one removal button per allow-list entry |
| Callbacks.HandleTimeCallback | handlers/callbacks.py:95-132 | equals the `time_` step on the snapshot |
| Callbacks.HandleWhitelistCallback | handlers/callbacks.py:135-229 | equals the `whitelist_` step on the snapshot |
| Callbacks.HandleAutoDeleteCallback | handlers/callbacks.py:232-269 | equals the `autodel_` step on the snapshot |
| Callbacks.HandleSettingsCallback | handlers/callbacks.py:23-92 | equals the press step on the snapshot |
| Callbacks.Route | handlers/callbacks.py:50-90 | equals the routing step for every callback data |
| Callbacks.GlobalSwitch | handlers/callbacks.py:38-48 | off sets DISABLED and on sets ALWAYS, nothing else. The dialog is at the main menu. The pressed menu is deleted and answered first, and the menu send comes last |
| Callbacks.OfferedSwitchFlipsDeletion | handlers/callbacks.py:38-48 | pressing the switch the menu offers turns deletion on at every time if it was off, off if it was on |
| Callbacks.Navigation | handlers/callbacks.py:50-72 | a navigation button changes no setting and moves to its screen's state |
| Callbacks.NavEffect | handlers/callbacks.py:50-72 | the routed navigation step keeps settings and sets the screen's state |
| Callbacks.RemoveDataRoutes | handlers/callbacks.py:83-84 | `remove_<h>` is no other button or family and carries h after seven characters |
| Callbacks.RouteByInitial | handlers/callbacks.py:38-83 | the first character rules out every button and family with another initial |
| Callbacks.RoutesToRemove | handlers/callbacks.py:83-90 | `remove_<h>` routes to the removal branch |
| Callbacks.RemoveEffect | handlers/callbacks.py:83-90 | the first exact occurrence of h is removed if present, otherwise nothing; state WhitelistMenu |
| Callbacks.RemoveButton | handlers/callbacks.py:83-90 | routing `remove_<h>` removes the first exact occurrence if any, changes nothing else, and ends at WhitelistMenu |
| Callbacks.PressedRemove | handlers/callbacks.py:30-90 | a full press of `remove_<h>` yields the removal branch's world on the prepared store |
| Callbacks.OfferedRemovalRemoves | handlers/callbacks.py:196-205 | each offered removal button carries `remove_` followed by exactly its entry |
| Callbacks.TimeButtons | handlers/callbacks.py:102-130 | `time_always` sets ALWAYS and goes to TimeSettings. `time_range` sets TIME_RANGE at once, keeps the bounds and goes to TimeRangeSetStart. The pressed menu is deleted by both handlers |
| Callbacks.RoutesToTime | handlers/callbacks.py:74-75 | the two time buttons route to the time sub-handler |
| Callbacks.TimeEffect | handlers/callbacks.py:95-132 | the time sub-handler's mode, state and calls for each of its buttons |
| Callbacks.Prepared | handlers/callbacks.py:30-31 | after preparation the chat has a record |
| Callbacks.Dispatch | handlers/callbacks.py:36-92 | apart from the switch, a press is the route framed by the pressed-menu delete and the final answer |
| Callbacks.RoutesToWhitelist | handlers/callbacks.py:77-78 | the two allow-list buttons route to the allow-list sub-handler |
| Callbacks.WhitelistButtons | handlers/callbacks.py:144-229 | add moves to WhitelistAdd. Remove on an empty list keeps the state, otherwise it moves to WhitelistRemove with one button per entry. No setting changes |
| Callbacks.WhitelistPrompts | handlers/callbacks.py:135-229 | the allow-list sub-handler's states and prompts, with settings unchanged |
| Callbacks.RoutesToAutoDelete | handlers/callbacks.py:80-81 | the two auto-delete buttons route to the auto-delete sub-handler |
| Callbacks.AutoDeleteEffect | handlers/callbacks.py:232-269 | toggle negates only the switch; set-time changes nothing; each sets its state |
| Callbacks.AutoDeleteToggle | handlers/callbacks.py:241-243 | `autodel_toggle` negates only `enabled` and moves to AutoDeleteSettings |
| Callbacks.AutoDeleteSetTime | handlers/callbacks.py:245-269 | `autodel_set_time` changes no setting and moves to AutoDeleteTimeSet |
| Callbacks.DisplayedConfined | utils/helpers.py:61-81 | a send or display touches only its chat and records only the new id |
| Callbacks.ShownConfined | handlers/settings_menu.py:16-241 | showing a screen touches only its chat |
| Callbacks.EditThenConfined | handlers/callbacks.py:39-86 | an edit of the chat's own record followed by a confined step stays confined |
| Callbacks.RoutedConfined | handlers/callbacks.py:50-90 | every route touches only its chat |
| Callbacks.TimeConfined | handlers/callbacks.py:95-132 | the time sub-handler touches only its chat |
| Callbacks.WhitelistConfined | handlers/callbacks.py:135-229 | the allow-list sub-handler touches only its chat |
| Callbacks.AutoDeleteConfined | handlers/callbacks.py:232-269 | the auto-delete sub-handler touches only its chat |
| Callbacks.RemoveConfined | handlers/callbacks.py:83-90 | removal touches only its chat |
| Callbacks.PressFrame | handlers/callbacks.py:30-36 | every press creates a missing record and leaves other chats alone. It changes `last_message_id` only to a successful send's id, and its first call deletes the pressed menu |
| Callbacks.UnknownData | handlers/callbacks.py:30-92 | unknown data only creates the record, deletes the pressed menu and answers |
| Callbacks.UnknownTimeButton | handlers/callbacks.py:74-100 | an unknown `time_` button deletes the pressed menu twice and changes nothing else |
| Messages.SortHandles | handlers/messages.py:53-66 | the loop computes the one-token-at-a-time classification |
| Messages.SortAppends | handlers/messages.py:62-66 | the allow-list grows only by the added handles, appended in input order |
| Messages.SortPartitions | handlers/messages.py:57-66 | every token lands in exactly one report, as a multiset |
| Messages.SortStep | handlers/messages.py:57-66 | one loop step files its token under exactly one report |
| Messages.SortClassifies | handlers/messages.py:58-66 | invalid tokens lack `@`; added and existing tokens have it |
| Messages.SortWhitelistsHandles | handlers/messages.py:57-66 | afterwards every `@` token is allow-listed |
| Messages.SortAddsOnlyNew | handlers/messages.py:62-66 | each added handle was not listed, counting those added earlier in the batch |
| Messages.SortReportsAll | handlers/messages.py:57-66 | the three reports together are as long as the token list |
| Messages.TokensAreWords | handlers/messages.py:39-51 | line-then-whitespace tokens equal a whitespace split, non-empty for non-blank text |
| Messages.ParseClock | handlers/messages.py:112-114 | an accepted time has hour 0..23 and minute 0..59, a colon, exactly two parts, and its hour and minute are what `int` reads from those parts |
| Messages.ParseClockParts | handlers/messages.py:112-114 | text that strips to `a:b` (no other colon) is accepted iff both sides are integers in range, and then it is exactly that time |
| Messages.ParseClockRender | handlers/messages.py:112-114 | any two decimal numbers around a colon are read back as that time when in range and rejected otherwise |
| Messages.SplitOnce | handlers/messages.py:113 | two colon-free parts joined by one colon split back into themselves |
| Messages.IndexOfFirst | handlers/messages.py:113 | the first occurrence is found at its index |
| Messages.ParseClockPadded | handlers/messages.py:113-114 | every `HH:MM` the bot writes is read back as that time |
| Messages.ParseClockRejects | handlers/messages.py:112-113 | no colon, or other than two parts, is rejected |
| Messages.HandleTextInput | handlers/messages.py:16-188 | equals the text-input step on the snapshot |
| Messages.AddInput | handlers/messages.py:38-85 | equals the allow-list input step |
| Messages.DelayInput | handlers/messages.py:87-108 | equals the delay input step |
| Messages.ClockInput | handlers/messages.py:110-188 | equals the start or end time step |
| Messages.IgnoredOutsideInput | handlers/messages.py:26-34 | outside the input states nothing is deleted or sent and only lazy creation happens |
| Messages.AddHandles | handlers/messages.py:36-85 | a non-blank list only appends the new handles and allow-lists every `@` token. The user's message is deleted, then the summary is sent, and the dialog returns to WhitelistMenu |
| Messages.AddEffect | handlers/messages.py:47-85 | the allow-list branch's settings, state and summary |
| Messages.BlankHandles | handlers/messages.py:41-45 | blank input changes no setting, state or menu id and only asks again |
| Messages.SecondsAccepted | handlers/messages.py:89-100 | 5 to 3600 seconds sets only the delay and returns to AutoDeleteSettings |
| Messages.RejectedInputKeepsSettings | handlers/messages.py:101-188 | a rejected delay or time changes no setting, keeps the state and sends only its error after the delete |
| Messages.RejectedIsPosted | handlers/messages.py:101-188 | a rejection happens only in an input state and is just the error send |
| Messages.StartAccepted | handlers/messages.py:114-144 | a valid start sets only the start fields, keeps the mode and moves to TimeRangeSetEnd |
| Messages.EndAccepted | handlers/messages.py:161-177 | a valid end sets the end fields and TIME_RANGE and returns to TimeSettings |
| Messages.StartThenEnd | handlers/messages.py:110-177 | entering a start and then an end activates exactly that window, across midnight when the end is not after the start |
| Messages.AddExample | handlers/messages.py:57-66 | example: a worked batch: a new bot is added once, repeats in any casing are existing, and a word without `@` is invalid |
| Messages.ExampleLookups | domain/models.py:77-81 | example: the lookups that worked batch relies on |
| Messages.LyBotIsNew | domain/models.py:77-81 | example: @LyBot is not on the default list |
| Services.SpaceRun | domain/services.py:57-61 | the `\s+` run ends at a non-blank or at the end |
| Services.SpaceRunBlank | domain/services.py:57-61 | every character of the run is blank |
| Services.WordRun | domain/services.py:57-61 | the `\w+` run ends at a non-word character or at the end |
| Services.WordRunWord | domain/services.py:57-61 | every character of the run is a word character |
| Services.LettersAtMeans | domain/services.py:57-61 | the keyword test holds iff the text has those letters at that index |
| Services.HandleAt | domain/services.py:57-61 | a capture is `@`, word characters, then `Bot` or `bot`, followed by the end or a non-word |
| Services.HandleIsText | domain/services.py:57-61 | a capture is the text at its position |
| Services.MatchAt | domain/services.py:57-61 | a match captures a bot handle and starts with one of the keyword's two initials |
| Services.MatchedKeyword | domain/services.py:57-61 | a match of a keyword with no gap has the keyword's letters after the initial |
| Services.SpaceRunOf | domain/services.py:57-61 | a blank run ended by a non-blank is what `\s+` takes |
| Services.WordRunOf | domain/services.py:57-61 | a word run ended by a non-word is what `\w+` takes |
| Services.KeywordMatch | domain/services.py:57-61 | once the keyword and blanks are found, the match is the capture after them |
| Services.FooBotAt | domain/services.py:57-61 | example: `@FooBot` at the end of the text is captured whole |
| Services.NoMatchBetweenMeans | domain/services.py:65 | no match from i to k iff the pattern matches at no index in between |
| Services.SearchFrom | domain/services.py:65 | `re.search` gives the leftmost match with its capture, or None when nothing matches |
| Services.AbsentInitial | domain/services.py:65 | without either initial in the text a pattern finds nothing |
| Services.AbsentSecondLetter | domain/services.py:65 | a keyword with no gap needs its second letter in the text |
| Services.FirstMatchFrom | domain/services.py:64-68 | the first pattern in order that matches anywhere wins, with its leftmost capture; None means none matches |
| Services.ClassifyWith | domain/services.py:47-70 | a relay marker wins with `@`+username or no handle. Otherwise a positive answer needs an inline keyboard, a text and a captured bot handle |
| Services.FirstMatchSound | domain/services.py:64-68 | a first match is a real match at the reported index |
| Services.FirstMatchComplete | domain/services.py:64-70 | no first match means no pattern matches at any index |
| Services.Judge | domain/services.py:16-44 | the verdict is SkipPrivate iff the chat is private, SkipAdmin iff a present sender is an admin, and Delete iff every check passes: window open, classified inline, handle not allow-listed |
| Services.ModerationCalls | domain/services.py:16-44 | a private chat issues no call; otherwise at most two calls, the member lookup of the sender first when there is one, and any other call deletes the incoming message |
| Services.ClassifyByPatterns | domain/services.py:53-70 | without a marker the message is inline iff some pattern matches somewhere in the text, and the handle is such a capture |
| Services.CheckAndHandle | domain/services.py:16-44 | a private chat changes nothing; otherwise the record is lazily created, and the calls are the member lookup and the delete of the verdict reached with the pattern list as written |
| Services.HandleAllMessages | handlers/messages.py:191-196 | text starting with `/` is neither moderated nor stored; anything else is the pipeline |
| Services.OneDeleteExactlyOnVerdict | domain/services.py:16-44 | at most one delete, exactly when every check passes, and it deletes the incoming message |
| Services.PrivateChatIgnored | domain/services.py:20-21 | a private chat issues no call |
| Services.AdminNeverDeleted | domain/services.py:28-29 | an administrator's or creator's message is never deleted |
| Services.NoSenderNoLookup | domain/services.py:28 | without a sender there is no member lookup and the admin result is irrelevant |
| Services.WindowBeforeClassifier | domain/services.py:31-39 | outside the window the verdict is the same for every message, whatever the classifier would say |
| Services.AnonymousRelayAlwaysDeleted | domain/services.py:41-44 | a relayed message without a username is deleted inside the window whatever the allow-list |
| Services.JudgeIgnoresTimers | domain/services.py:16-44 | pending timers do not affect the verdict |
| Services.ViaSearch | domain/services.py:57 | example: the Via pattern captures @FooBot in "via @FooBot" |
| Services.ViaPhraseExample | domain/services.py:53-68 | example: a keyboard message "via @FooBot" is inline with handle @FooBot from the first pattern |
| Services.RelayMarkerExample | domain/services.py:49-51 | example: a relay marker for FooBot gives inline with @FooBot, whatever the pattern list |
| Services.PlainMessageExample | domain/services.py:53-70 | example: no marker and no keyboard is not inline, whatever the pattern list |
| Services.EndToEndExample | domain/services.py:16-44 | example: a member's relayed message is deleted, unless the bot is allow-listed in another casing |
| Services.RussianLacksV | domain/services.py:57 | example: the Russian phrase has no V initial |
| Services.RussianLacksLatinC | domain/services.py:58 | example: the Russian phrase has no Latin C |
| Services.RussianLacksChe | domain/services.py:59 | example: the Russian phrase has no Ч |
| Services.RussianLacksW | domain/services.py:60 | example: the Russian phrase has no W |
| Services.RussianLacksY | domain/services.py:61 | example: the Russian phrase has no y |
| Services.AsWrittenMatchesNothing | domain/services.py:56-68 | example: no pattern as written matches the Russian phrase |
| Services.RussianPhraseMissedAsWritten | domain/services.py:58 | example: as written, a keyboard message "С помощью @FooBot" is not inline |
| Services.RussianEnds | domain/services.py:58 | example: the phrase's length, initial and trailing handle |
| Services.RussianGap | domain/services.py:58 | example: one blank follows the initial |
| Services.RussianKeyword | domain/services.py:58 | example: the keyword letters follow the blank |
| Services.RussianBlank | domain/services.py:58 | example: one blank follows the keyword |
| Services.RussianSearch | domain/services.py:58 | example: the corrected pattern captures @FooBot at index 0 |
| Services.RussianFirstMatch | domain/services.py:56-68 | example: the corrected list's first match is the second pattern at 0 |
| Services.RussianPhraseRecognised | domain/services.py:58 | example: corrected, a keyboard message "С помощью @FooBot" is inline with handle @FooBot |
| Services.RussianRelayPipeline | domain/services.py:16-44 | example: in a group with an open window and an empty allow-list, the pipeline as written lets the Russian relay through, and with the corrected list deletes it |
| Services.GapMatchAtStart | domain/services.py:58 | a gap pattern found at the start matches exactly the capture after it |

## Left out

- Platform I/O is not modelled. Every call to the platform (send, delete, member lookup, callback answer) is a `Call` entry in the returned list. What the platform returns is an input: a sent message's id or None for a failed send, and a member status or None for a failed lookup.
- The outcome of a delete is not an input. No handler looks at it: the self-delete timer removes its entry whatever the outcome.
- Message texts, HTML, emoji, keyboard layouts and the `__str__` renderings are not modelled. A message is represented by its purpose (`Notice`), plus the callback data of the buttons the logic depends on. The text passed to `callback.answer` is also left out; only whether it is an alert is kept.
- The wall clock is a parameter: the time of day in seconds. The status screen's "active now" line reads the clock only to render text, so it is left out with the other presentation.
- `asyncio.create_task` and `asyncio.sleep` are not modelled. A pending timer is an entry in `messageTasks` holding its delay. The elapsed delay is an explicit fire event (`Helpers.FireTimer`). Concurrency and interleavings between handlers are not modelled.
- The store starts as an empty map (`Storage.Registry.constructor`). The file that defines it, core/storage.py, is not part of this model.
- bot/bot.py, bot/dispatcher.py, core/config.py and handlers/commands.py are not part of this model: startup, handler registration, the `/start` and `/settings` commands, and logging.
- The admin guard is modelled on its own, in `Decorators`. The handler methods model the handler body that runs once the guard answered RunHandler.
- The dialog context is passed in as one `Conversation`: the current state and `last_message_id`. How the platform keys contexts by chat and user is not modelled.
- `Text.IsSpace` accepts seven blank characters: space, tab, newline, carriage return, vertical tab, form feed and no-break space. Python's `str.split`, `str.strip` and `\s` also treat other Unicode separators as blanks.
- `Text.IsWord` (`\w`) accepts ASCII letters, digits, `_` and the Cyrillic block U+0400 to U+04FF without its signs and combining marks U+0482 to U+0489. It does not accept letters of other scripts.
- `Text.ToLower` folds only the ASCII capitals and the Cyrillic capitals U+0400 to U+042F. The capitals of the Cyrillic supplement, U+0460 to U+04FF, are left as they are.
- `Text.ParseInt` accepts surrounding blanks, one sign and ASCII digits. Python's `int()` also accepts `_` between digits and non-ASCII digits.
- The regular expressions are modelled only as the five fixed patterns, matched by hand. General regex matching is not modelled.
- The pipeline methods `Services.CheckAndHandle` and `Services.HandleAllMessages` use the pattern list as written (`AS_WRITTEN_PATTERNS`). `Services.Judge` and `Services.ModerationCalls` take the list as a parameter, and the properties about them hold for every list.
- `message.from_user` being None in a guarded handler is not modelled. The guard as written would raise there, and the model treats the sender as present.
- The logging branches of `delete_message_silently` and `is_admin` are not modelled; only their boolean results are.
- Callbacks.RemoveButtons: states only one button per entry. What each button carries is stated by `Callbacks.OfferedRemovalRemoves`.
- Callbacks.WithMode, Callbacks.WithWhitelist, Callbacks.WithAutoDeleteFlipped: state only that the set of chats is kept. What they change is stated by the press lemmas (`GlobalSwitch`, `RemoveButton`, `TimeButtons`, `AutoDeleteToggle`).
- Services.MatchAt: states the shape of a match. The match itself is pinned down by `Services.KeywordMatch` and `Services.HandleAt`.
- Equal window bounds in TIME_RANGE select the whole day, because the code at domain/models.py:41-44 takes the wrapping branch for them. The system's documentation describes that window as empty. The model follows the code (`Models.EqualBoundsSelectWholeDay`).

## Findings

| source | as written | input that shows it | evidently intended | confidence | as-written member | corrected member |
|---|---|---|---|---|---|---|
| domain/services.py:58 | the Russian pattern opens with the Latin letters `[Cc]`, so the Cyrillic phrase "С помощью" never matches | a message with an inline keyboard, no relay marker, and text "С помощью @FooBot" (Cyrillic С) is not taken for inline | the Cyrillic `[Сс]` the phrase is written with | high (not executed) | Services.RussianPhraseMissedAsWritten, Services.RussianRelayPipeline | Services.RussianPhraseRecognised, Services.RussianRelayPipeline |
| utils/decorators.py:17 | `kwargs.get("bot") or args[1] if len(args) > 1 else None` binds as `(... or args[1]) if len(args) > 1 else None`, so a bot passed by keyword is ignored when the event is the only positional argument, and the handler is silently dropped | the event as the only positional argument, `bot` by keyword, the sender an administrator: the guard drops the call | `kwargs.get("bot") or (args[1] if len(args) > 1 else None)` | medium (not executed; depends on the dispatcher passing `bot` by keyword) | Decorators.KeywordBotIgnoredAsWritten | Decorators.AdminRequired |
| utils/decorators.py:30 | for a button press `message` is the menu message the bot sent, so the check asks whether the menu's author (the bot) is an administrator, not the user who pressed | a plain member presses a button on a menu sent by the bot, which is an administrator: the press runs the settings handler | check `callback.from_user.id`, the presser | medium (not executed) | Decorators.MenuAuthorCheckedAsWritten | Decorators.AdminRequired |
