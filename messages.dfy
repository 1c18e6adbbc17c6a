/**
 * handlers/messages.py: free text typed while the settings dialog waits for
 * input. In one of the four input states the message is deleted and read as
 * a list of bot handles, a self-delete delay in seconds, or the start or the
 * end of the deletion window; in any other state it is ignored.
 *
 * `text` is None for a message without text (a sticker, a photo): `.strip()`
 * on it raises in the allow-list and delay branches, which then stop after the
 * delete, while the two time branches catch everything and answer with the
 * format error.
 */
module Messages {
  import opened Wrappers
  import opened Text
  import opened Models
  import opened States
  import opened Storage
  import opened Helpers
  import opened Menus
  import opened Callbacks

  // ---------------------------------------------------------------- allow-list input

  /** `bot_username.startswith("@")`. */
  predicate HasAt(token: string) {
    |token| > 0 && token[0] == '@'
  }

  /** The allow-list after the add loop and the three lists its summary reports. */
  datatype Tally = Tally(whitelist: seq<string>, added: seq<string>, existing: seq<string>, invalid: seq<string>)

  /**
   * The add loop over `tokens`, one token at a time: no `@` is invalid, a
   * handle already listed (in any casing, counting those added earlier in the
   * same batch) is reported as existing, and anything else is appended.
   */
  function Sort(whitelist: seq<string>, tokens: seq<string>): Tally
    decreases |tokens|
  {
    if tokens == [] then Tally(whitelist, [], [], [])
    else
      var t := Sort(whitelist, tokens[..|tokens| - 1]);
      var token := tokens[|tokens| - 1];
      if !HasAt(token) then t.(invalid := t.invalid + [token])
      else if IsWhitelisted(t.whitelist, token) then t.(existing := t.existing + [token])
      else Tally(t.whitelist + [token], t.added + [token], t.existing, t.invalid)
  }

  /** The `for bot_username in usernames` loop, appending to the list as it goes. */
  method SortHandles(whitelist: seq<string>, tokens: seq<string>) returns (t: Tally)
    ensures t == Sort(whitelist, tokens)
  {
    var list := whitelist;
    var added: seq<string> := [];
    var existing: seq<string> := [];
    var invalid: seq<string> := [];
    for i := 0 to |tokens|
      invariant Tally(list, added, existing, invalid) == Sort(whitelist, tokens[..i])
    {
      assert tokens[..i + 1][..i] == tokens[..i];
      var token := tokens[i];
      if !(|token| > 0 && token[0] == '@') {
        invalid := invalid + [token];
        continue;
      }
      if IsWhitelisted(list, token) {
        existing := existing + [token];
      } else {
        list := list + [token];
        added := added + [token];
      }
    }
    assert tokens[..|tokens|] == tokens;
    t := Tally(list, added, existing, invalid);
  }

  /** The list only grows, by exactly the handles reported as added, in input order. */
  lemma {:induction false} SortAppends(whitelist: seq<string>, tokens: seq<string>)
    ensures Sort(whitelist, tokens).whitelist == whitelist + Sort(whitelist, tokens).added
    decreases |tokens|
  {
    if tokens != [] {
      SortAppends(whitelist, tokens[..|tokens| - 1]);
    }
  }

  /** Every token lands in exactly one of the three reports. */
  lemma {:induction false} SortPartitions(whitelist: seq<string>, tokens: seq<string>)
    ensures var t := Sort(whitelist, tokens);
      multiset(tokens) == multiset(t.added) + multiset(t.existing) + multiset(t.invalid)
    decreases |tokens|
  {
    if tokens != [] {
      var init, token := tokens[..|tokens| - 1], tokens[|tokens| - 1];
      SortPartitions(whitelist, init);
      assert multiset(tokens) == multiset(init) + multiset{token} by {
        assert tokens == init + [token];
      }
      SortStep(whitelist, init, token, tokens);
    }
  }

  /** One step of the loop files the token under exactly one report. */
  lemma SortStep(whitelist: seq<string>, init: seq<string>, token: string, tokens: seq<string>)
    requires tokens == init + [token]
    ensures var t, r := Sort(whitelist, init), Sort(whitelist, tokens);
      multiset(r.added) + multiset(r.existing) + multiset(r.invalid)
        == multiset(t.added) + multiset(t.existing) + multiset(t.invalid) + multiset{token}
  {
    assert tokens[..|tokens| - 1] == init;
  }

  /** Reported invalid means no `@`; added or existing means it has one. */
  lemma {:induction false} SortClassifies(whitelist: seq<string>, tokens: seq<string>)
    ensures var t := Sort(whitelist, tokens);
      (forall x :: x in t.invalid ==> !HasAt(x))
      && (forall x :: x in t.added ==> HasAt(x))
      && (forall x :: x in t.existing ==> HasAt(x))
    decreases |tokens|
  {
    if tokens != [] {
      SortClassifies(whitelist, tokens[..|tokens| - 1]);
    }
  }

  /** After the loop every `@` token of the input is whitelisted. */
  lemma {:induction false} SortWhitelistsHandles(whitelist: seq<string>, tokens: seq<string>)
    ensures forall k :: 0 <= k < |tokens| && HasAt(tokens[k]) ==> IsWhitelisted(Sort(whitelist, tokens).whitelist, tokens[k])
    decreases |tokens|
  {
    if tokens != [] {
      var init := tokens[..|tokens| - 1];
      var t := Sort(whitelist, init);
      var token := tokens[|tokens| - 1];
      SortWhitelistsHandles(whitelist, init);
      forall k | 0 <= k < |tokens| && HasAt(tokens[k])
        ensures IsWhitelisted(Sort(whitelist, tokens).whitelist, tokens[k])
      {
        if k < |init| {
          assert tokens[k] == init[k];
          WhitelistGrows(t.whitelist, token, tokens[k]);
        } else {
          WhitelistGrows(t.whitelist, token, token);
        }
      }
    }
  }

  /**
   * Each added handle was not on the list, in any casing, when it was added:
   * nothing already listed is added again, and no two added handles differ
   * only in case.
   */
  lemma {:induction false} SortAddsOnlyNew(whitelist: seq<string>, tokens: seq<string>)
    ensures var added := Sort(whitelist, tokens).added;
      forall k :: 0 <= k < |added| ==> !IsWhitelisted(whitelist + added[..k], added[k])
    decreases |tokens|
  {
    if tokens != [] {
      var init := tokens[..|tokens| - 1];
      var t := Sort(whitelist, init);
      SortAddsOnlyNew(whitelist, init);
      SortAppends(whitelist, init);
      var added := Sort(whitelist, tokens).added;
      forall k | 0 <= k < |added|
        ensures !IsWhitelisted(whitelist + added[..k], added[k])
      {
        if k < |t.added| {
          assert added[..k] == t.added[..k];
        } else {
          assert added[..k] == t.added;
        }
      }
    }
  }

  /** The summary reports every token, so for any token at all it is never the "nothing found" text. */
  lemma SortReportsAll(whitelist: seq<string>, tokens: seq<string>)
    ensures var t := Sort(whitelist, tokens);
      |t.added| + |t.existing| + |t.invalid| == |tokens|
  {
    SortPartitions(whitelist, tokens);
    var t := Sort(whitelist, tokens);
    assert |multiset(tokens)| == |multiset(t.added)| + |multiset(t.existing)| + |multiset(t.invalid)|;
  }

  /** `text.strip()`, then each line stripped and split on whitespace. */
  function Tokens(text: string): seq<string> {
    LineTokens(Strip(text))
  }

  /**
   * Splitting line by line gives the same tokens as splitting the whole text
   * on whitespace, and any text that is not blank has at least one token.
   */
  lemma TokensAreWords(text: string)
    ensures Tokens(text) == Words(text)
    ensures Strip(text) != [] ==> Tokens(text) != []
  {
    LineTokensAreWords(Strip(text));
    WordsOfStrip(text);
    if Strip(text) != [] {
      StrippedNonEmptyHasWords(text);
    }
  }

  // ---------------------------------------------------------------- time input

  datatype Clock = Clock(hour: int, minute: int)

  /**
   * `hours, minutes = map(int, text.strip().split(":"))` behind the check for
   * a colon, with the range check: exactly one colon, two integers, hour in
   * 0..23 and minute in 0..59; None is the branch that reports the format error.
   */
  function ParseClock(text: string): (c: Option<Clock>)
    ensures c.Some? ==> 0 <= c.value.hour <= 23 && 0 <= c.value.minute <= 59
    ensures c.Some? ==> ':' in text && |Split(Strip(text), ':')| == 2
    ensures c.Some? ==>
      ParseInt(Split(Strip(text), ':')[0]) == Some(c.value.hour)
      && ParseInt(Split(Strip(text), ':')[1]) == Some(c.value.minute)
  {
    if ':' !in text then None
    else
      var parts := Split(Strip(text), ':');
      if |parts| != 2 then None
      else
        var h := ParseInt(parts[0]);
        var m := ParseInt(parts[1]);
        if h.Some? && m.Some? && 0 <= h.value <= 23 && 0 <= m.value <= 59 then Some(Clock(h.value, m.value))
        else None
  }

  lemma {:induction false} SplitOnce(a: string, b: string)
    requires ':' !in a && ':' !in b
    ensures Split(a + ":" + b, ':') == [a, b]
  {
    var s := a + ":" + b;
    assert s[|a|] == ':';
    assert ':' !in s[..|a|] by { assert s[..|a|] == a; }
    assert IndexOf(s, ':') == |a| by { IndexOfFirst(s, ':', |a|); }
    assert s[|a| + 1..] == b;
    assert s[..|a|] == a;
  }

  lemma {:induction false} IndexOfFirst(s: string, c: char, i: nat)
    requires i < |s| && s[i] == c && c !in s[..i]
    ensures IndexOf(s, c) == i
    decreases i
  {
    if i > 0 {
      assert s[0] == s[..i][0];
      assert s[1..][..i - 1] == s[..i][1..];
      IndexOfFirst(s[1..], c, i - 1);
    }
  }

  /** What the bot itself prints as a time, `HH:MM`, is read back as that time. */
  lemma ParseClockPadded(hour: nat, minute: nat)
    requires hour <= 23 && minute <= 59
    ensures ParseClock(Pad2(hour) + ":" + Pad2(minute)) == Some(Clock(hour, minute))
  {
    var a, b := Pad2(hour), Pad2(minute);
    var s := a + ":" + b;
    assert ':' !in a && ':' !in b by {
      assert forall k :: 0 <= k < 2 ==> a[k] != ':' && b[k] != ':';
    }
    assert s[|a|] == ':';
    assert s[0] == a[0] && s[|s| - 1] == b[1];
    StripKeeps(s);
    SplitOnce(a, b);
    Pad2Value(hour);
    Pad2Value(minute);
  }

  /**
   * Text that strips to `a:b` with no other colon is a time exactly when both
   * sides are integers in range, and then it is that time.
   */
  lemma ParseClockParts(text: string, a: string, b: string)
    requires ':' !in a && ':' !in b && Strip(text) == a + ":" + b
    ensures ParseClock(text).Some? <==>
      ParseInt(a).Some? && ParseInt(b).Some? && 0 <= ParseInt(a).value <= 23 && 0 <= ParseInt(b).value <= 59
    ensures ParseClock(text).Some? ==> ParseClock(text).value == Clock(ParseInt(a).value, ParseInt(b).value)
  {
    assert ':' in text by {
      StripSlice(text);
      var t := Strip(text);
      var i := |text| - |TrimStart(text)|;
      assert t[|a|] == ':';
      assert text[i + |a|] == t[|a|];
    }
    SplitOnce(a, b);
    var parts := Split(Strip(text), ':');
    assert parts == [a, b];
    assert |parts| == 2 && parts[0] == a && parts[1] == b;
  }

  /** Any two decimal numbers around a colon: read back as that time when both are in range, rejected otherwise. */
  lemma ParseClockRender(hour: nat, minute: nat)
    ensures ParseClock(Render(hour) + ":" + Render(minute)) ==
      if hour <= 23 && minute <= 59 then Some(Clock(hour, minute)) else None
  {
    var a, b := Render(hour), Render(minute);
    var s := a + ":" + b;
    assert ':' !in a && ':' !in b by {
      assert forall k :: 0 <= k < |a| ==> IsDigit(a[k]);
      assert forall k :: 0 <= k < |b| ==> IsDigit(b[k]);
    }
    assert s[0] == a[0] && s[|s| - 1] == b[|b| - 1];
    StripKeeps(s);
    ParseIntRender(hour);
    ParseIntRender(minute);
    ParseClockParts(s, a, b);
  }

  /** Neither a bare number nor a second colon is a time. */
  lemma ParseClockRejects(text: string)
    ensures ':' !in text ==> ParseClock(text).None?
    ensures ':' in text && |Split(Strip(text), ':')| != 2 ==> ParseClock(text).None?
  {
  }

  // ---------------------------------------------------------------- the handler

  /** The allow-list branch; `text` None raises on `.strip()` and ends the handler. */
  function WhitelistInput(w: World, chat: int, text: Option<string>, replies: seq<Option<int>>): Outcome
    requires chat in w.chats
  {
    if text.None? then Outcome(w, [])
    else if Strip(text.value) == [] then Posted(w, chat, EnterHandles, Reply(replies, 0))
    else
      var t := Sort(w.chats[chat].whitelist, Tokens(text.value));
      var o := Posted(w.(chats := WithWhitelist(w.chats, chat, t.whitelist)), chat, AddSummary(t.added, t.existing, t.invalid), Reply(replies, 0));
      After(o.calls, Shown(o.world, chat, WhitelistView, Reply(replies, 1)))
  }

  /** The delay branch: 5 to 3600 seconds inclusive; `text` None raises outside the `except ValueError`. */
  function SecondsInput(w: World, chat: int, text: Option<string>, replies: seq<Option<int>>): Outcome
    requires chat in w.chats
  {
    if text.None? then Outcome(w, [])
    else
      var cfg := w.chats[chat];
      var n := ParseInt(Strip(text.value));
      if n.None? then Posted(w, chat, SecondsNotInteger, Reply(replies, 0))
      else if 5 <= n.value <= 3600 then
        var o := Posted(w.(chats := w.chats[chat := cfg.(autoDelete := cfg.autoDelete.(deleteAfter := n.value))]), chat, SecondsSet(n.value), Reply(replies, 0));
        After(o.calls, Shown(o.world, chat, AutoDeleteView, Reply(replies, 1)))
      else Posted(w, chat, SecondsOutOfRange, Reply(replies, 0))
  }

  function ClockOf(text: Option<string>): Option<Clock> {
    if text.None? then None else ParseClock(text.value)
  }

  /** The start-time branch: record the start and ask for the end. */
  function StartInput(w: World, chat: int, text: Option<string>, replies: seq<Option<int>>): Outcome
    requires chat in w.chats
  {
    var c := ClockOf(text);
    if c.None? then Posted(w, chat, TimeFormatError, Reply(replies, 0))
    else
      var cfg := w.chats[chat];
      var tr := cfg.timeRange.(startHour := c.value.hour, startMinute := c.value.minute);
      Displayed(w.(chats := w.chats[chat := cfg.(timeRange := tr)]), chat, TimeEndPrompt(c.value.hour, c.value.minute), Some(TimeRangeSetEnd), Reply(replies, 0))
  }

  /** The end-time branch: record the end, switch to TIME_RANGE, confirm and show the time screen. */
  function EndInput(w: World, chat: int, text: Option<string>, replies: seq<Option<int>>): Outcome
    requires chat in w.chats
  {
    var c := ClockOf(text);
    if c.None? then Posted(w, chat, TimeFormatError, Reply(replies, 0))
    else
      var cfg := w.chats[chat];
      var tr := cfg.timeRange.(endHour := c.value.hour, endMinute := c.value.minute, mode := TIME_RANGE);
      var o := Posted(w.(chats := w.chats[chat := cfg.(timeRange := tr)]), chat, TimeRangeActivated, Reply(replies, 0));
      After(o.calls, Shown(o.world, chat, TimeView, Reply(replies, 1)))
  }

  function InputFor(w: World, chat: int, s: SettingsState, text: Option<string>, replies: seq<Option<int>>): Outcome
    requires chat in w.chats && IsInputState(s)
  {
    if s == WhitelistAdd then WhitelistInput(w, chat, text, replies)
    else if s == AutoDeleteTimeSet then SecondsInput(w, chat, text, replies)
    else if s == TimeRangeSetStart then StartInput(w, chat, text, replies)
    else EndInput(w, chat, text, replies)
  }

  /**
   * `handle_text_input` for message `msgId` in `chat`; the k-th send returns
   * `Reply(replies, k)`. The record is created first in every state.
   */
  function TextInput(w: World, chat: int, msgId: int, text: Option<string>, replies: seq<Option<int>>): Outcome {
    var w1 := Prepared(w, chat);
    if w.state.None? || !IsInputState(w.state.value) then Outcome(w1, [])
    else After([DeleteMessage(chat, msgId)], InputFor(w1, chat, w.state.value, text, replies))
  }

  method HandleTextInput(r: Registry, conv: Conversation, chat: int, msgId: int, text: Option<string>, replies: seq<Option<int>>)
    returns (calls: seq<Call>)
    modifies r, conv
    ensures Outcome(Snapshot(r, conv), calls) == TextInput(old(Snapshot(r, conv)), chat, msgId, text, replies)
  {
    var _ := r.GetOrCreate(chat);
    calls := [];
    var current := conv.state;
    if current.None? || !IsInputState(current.value) {
      return;
    }
    var input: seq<Call>;
    if current.value == WhitelistAdd {
      input := AddInput(r, conv, chat, text, replies);
    } else if current.value == AutoDeleteTimeSet {
      input := DelayInput(r, conv, chat, text, replies);
    } else if current.value == TimeRangeSetStart {
      input := ClockInput(r, conv, chat, text, replies, true);
    } else {
      input := ClockInput(r, conv, chat, text, replies, false);
    }
    calls := [DeleteMessage(chat, msgId)] + input;
  }

  method AddInput(r: Registry, conv: Conversation, chat: int, text: Option<string>, replies: seq<Option<int>>)
    returns (calls: seq<Call>)
    requires chat in r.chats
    modifies r, conv
    ensures Outcome(Snapshot(r, conv), calls) == WhitelistInput(old(Snapshot(r, conv)), chat, text, replies)
  {
    calls := [];
    if text.None? {
      return;
    }
    var input := Strip(text.value);
    if input == [] {
      var _, sent := Post(r, chat, EnterHandles, Reply(replies, 0));
      calls := sent;
      return;
    }
    var t := SortHandles(r.chats[chat].whitelist, Tokens(text.value));
    r.chats := WithWhitelist(r.chats, chat, t.whitelist);
    var _, sent := Post(r, chat, AddSummary(t.added, t.existing, t.invalid), Reply(replies, 0));
    var shown := Show(r, conv, chat, WhitelistView, Reply(replies, 1));
    calls := sent + shown;
  }

  method DelayInput(r: Registry, conv: Conversation, chat: int, text: Option<string>, replies: seq<Option<int>>)
    returns (calls: seq<Call>)
    requires chat in r.chats
    modifies r, conv
    ensures Outcome(Snapshot(r, conv), calls) == SecondsInput(old(Snapshot(r, conv)), chat, text, replies)
  {
    calls := [];
    if text.None? {
      return;
    }
    var n := ParseInt(Strip(text.value));
    var msg: Option<int>;
    if n.None? {
      msg, calls := Post(r, chat, SecondsNotInteger, Reply(replies, 0));
    } else if 5 <= n.value <= 3600 {
      var cfg := r.chats[chat];
      r.chats := r.chats[chat := cfg.(autoDelete := cfg.autoDelete.(deleteAfter := n.value))];
      msg, calls := Post(r, chat, SecondsSet(n.value), Reply(replies, 0));
      var shown := Show(r, conv, chat, AutoDeleteView, Reply(replies, 1));
      calls := calls + shown;
    } else {
      msg, calls := Post(r, chat, SecondsOutOfRange, Reply(replies, 0));
    }
  }

  /** The start-time branch when `isStart`, the end-time branch otherwise. */
  method ClockInput(r: Registry, conv: Conversation, chat: int, text: Option<string>, replies: seq<Option<int>>, isStart: bool)
    returns (calls: seq<Call>)
    requires chat in r.chats
    modifies r, conv
    ensures Outcome(Snapshot(r, conv), calls) ==
      if isStart then StartInput(old(Snapshot(r, conv)), chat, text, replies) else EndInput(old(Snapshot(r, conv)), chat, text, replies)
  {
    var c := ClockOf(text);
    var msg: Option<int>;
    if c.None? {
      msg, calls := Post(r, chat, TimeFormatError, Reply(replies, 0));
      return;
    }
    var cfg := r.chats[chat];
    if isStart {
      var tr := cfg.timeRange.(startHour := c.value.hour, startMinute := c.value.minute);
      r.chats := r.chats[chat := cfg.(timeRange := tr)];
      calls := Display(r, conv, chat, TimeEndPrompt(c.value.hour, c.value.minute), Some(TimeRangeSetEnd), Reply(replies, 0));
    } else {
      var tr := cfg.timeRange.(endHour := c.value.hour, endMinute := c.value.minute, mode := TIME_RANGE);
      r.chats := r.chats[chat := cfg.(timeRange := tr)];
      msg, calls := Post(r, chat, TimeRangeActivated, Reply(replies, 0));
      var shown := Show(r, conv, chat, TimeView, Reply(replies, 1));
      calls := calls + shown;
    }
  }

  // ---------------------------------------------------------------- properties

  /** Outside the four input states a message only has its chat record created: nothing is deleted or sent. */
  lemma IgnoredOutsideInput(w: World, chat: int, msgId: int, text: Option<string>, replies: seq<Option<int>>)
    requires w.state.None? || !IsInputState(w.state.value)
    ensures TextInput(w, chat, msgId, text, replies) == Outcome(Prepared(w, chat), [])
  {
  }

  /**
   * A non-blank list of handles is split on whitespace; the record changes
   * only by appending the new handles, every `@` token ends up whitelisted,
   * the summary goes out after the delete, and the dialog returns to the
   * allow-list menu.
   */
  lemma AddHandles(w: World, chat: int, msgId: int, text: string, replies: seq<Option<int>>)
    requires w.state == Some(WhitelistAdd) && Strip(text) != []
    ensures var o := TextInput(w, chat, msgId, Some(text), replies);
      var before := Before(w, chat);
      var t := Sort(before.whitelist, Words(text));
      chat in o.world.chats
      && Policy(o.world.chats[chat]) == Policy(before).(whitelist := before.whitelist + t.added)
      && (forall k :: 0 <= k < |Words(text)| && HasAt(Words(text)[k]) ==> IsWhitelisted(o.world.chats[chat].whitelist, Words(text)[k]))
      && o.world.state == Some(WhitelistMenu)
      && |o.calls| >= 2 && o.calls[..2] == [DeleteMessage(chat, msgId), SendMessage(chat, AddSummary(t.added, t.existing, t.invalid))]
  {
    var w1 := Prepared(w, chat);
    AddRoute(w, chat, msgId, text, replies);
    AddEffect(w1, chat, text, replies);
  }

  lemma AddRoute(w: World, chat: int, msgId: int, text: string, replies: seq<Option<int>>)
    requires w.state == Some(WhitelistAdd)
    ensures chat in Prepared(w, chat).chats
    ensures TextInput(w, chat, msgId, Some(text), replies)
      == After([DeleteMessage(chat, msgId)], WhitelistInput(Prepared(w, chat), chat, Some(text), replies))
  {
  }

  lemma AddEffect(w: World, chat: int, text: string, replies: seq<Option<int>>)
    requires chat in w.chats && Strip(text) != []
    ensures var o := WhitelistInput(w, chat, Some(text), replies);
      var before := w.chats[chat];
      var t := Sort(before.whitelist, Words(text));
      chat in o.world.chats
      && Policy(o.world.chats[chat]) == Policy(before).(whitelist := before.whitelist + t.added)
      && (forall k :: 0 <= k < |Words(text)| && HasAt(Words(text)[k]) ==> IsWhitelisted(o.world.chats[chat].whitelist, Words(text)[k]))
      && o.world.state == Some(WhitelistMenu)
      && |o.calls| >= 1 && o.calls[0] == SendMessage(chat, AddSummary(t.added, t.existing, t.invalid))
  {
    var before := w.chats[chat];
    TokensAreWords(text);
    var t := Sort(before.whitelist, Words(text));
    SortAppends(before.whitelist, Words(text));
    SortWhitelistsHandles(before.whitelist, Words(text));
    var w2 := w.(chats := WithWhitelist(w.chats, chat, t.whitelist));
    var o := Posted(w2, chat, AddSummary(t.added, t.existing, t.invalid), Reply(replies, 0));
    PostedKeepsPolicies(w2, chat, AddSummary(t.added, t.existing, t.invalid), Reply(replies, 0));
    ShownKeepsPolicies(o.world, chat, WhitelistView, Reply(replies, 1));
    ShownState(o.world, chat, WhitelistView, Reply(replies, 1));
  }

  /** Blank input only asks again: no record changes and the dialog keeps waiting for handles. */
  lemma BlankHandles(w: World, chat: int, msgId: int, text: string, replies: seq<Option<int>>)
    requires w.state == Some(WhitelistAdd) && Strip(text) == []
    ensures var o := TextInput(w, chat, msgId, Some(text), replies);
      SamePolicies(o.world.chats, Prepared(w, chat).chats)
      && o.world.state == w.state && o.world.lastMessageId == w.lastMessageId
      && o.calls == [DeleteMessage(chat, msgId), SendMessage(chat, EnterHandles)]
  {
    PostedKeepsPolicies(Prepared(w, chat), chat, EnterHandles, Reply(replies, 0));
  }

  /** A delay from 5 to 3600 seconds is stored, and nothing else; the dialog returns to the auto-delete screen. */
  lemma SecondsAccepted(w: World, chat: int, msgId: int, text: string, replies: seq<Option<int>>, n: int)
    requires w.state == Some(AutoDeleteTimeSet)
    requires ParseInt(Strip(text)) == Some(n) && 5 <= n <= 3600
    ensures var o := TextInput(w, chat, msgId, Some(text), replies);
      var before := Before(w, chat);
      chat in o.world.chats
      && Policy(o.world.chats[chat]) == Policy(before).(autoDelete := before.autoDelete.(deleteAfter := n))
      && o.world.state == Some(SettingsState.AutoDeleteSettings)
      && |o.calls| >= 2 && o.calls[..2] == [DeleteMessage(chat, msgId), SendMessage(chat, SecondsSet(n))]
  {
    var w1 := Prepared(w, chat);
    var cfg := w1.chats[chat];
    var w2 := w1.(chats := w1.chats[chat := cfg.(autoDelete := cfg.autoDelete.(deleteAfter := n))]);
    var o := Posted(w2, chat, SecondsSet(n), Reply(replies, 0));
    PostedKeepsPolicies(w2, chat, SecondsSet(n), Reply(replies, 0));
    ShownKeepsPolicies(o.world, chat, AutoDeleteView, Reply(replies, 1));
    ShownState(o.world, chat, AutoDeleteView, Reply(replies, 1));
  }

  /** The notice a rejected delay or time gets. */
  function RejectionNotice(s: SettingsState, text: string): Option<Notice> {
    if s == AutoDeleteTimeSet then
      var n := ParseInt(Strip(text));
      if n.None? then Some(SecondsNotInteger)
      else if 5 <= n.value <= 3600 then None
      else Some(SecondsOutOfRange)
    else if s == TimeRangeSetStart || s == TimeRangeSetEnd then
      if ParseClock(text).None? then Some(TimeFormatError) else None
    else None
  }

  /**
   * A rejected delay or time changes no setting and leaves the dialog in the
   * same state, so the admin can simply type again; the only calls are the
   * delete and the error notice.
   */
  lemma RejectedInputKeepsSettings(w: World, chat: int, msgId: int, text: string, replies: seq<Option<int>>)
    requires w.state.Some? && RejectionNotice(w.state.value, text).Some?
    ensures var o := TextInput(w, chat, msgId, Some(text), replies);
      SamePolicies(o.world.chats, Prepared(w, chat).chats)
      && o.world.state == w.state && o.world.lastMessageId == w.lastMessageId
      && o.calls == [DeleteMessage(chat, msgId), SendMessage(chat, RejectionNotice(w.state.value, text).value)]
  {
    var w1 := Prepared(w, chat);
    var notice := RejectionNotice(w.state.value, text).value;
    assert InputFor(w1, chat, w.state.value, Some(text), replies) == Posted(w1, chat, notice, Reply(replies, 0)) by {
      RejectedIsPosted(w1, chat, w.state.value, text, replies);
    }
    PostedKeepsPolicies(w1, chat, notice, Reply(replies, 0));
  }

  lemma RejectedIsPosted(w: World, chat: int, s: SettingsState, text: string, replies: seq<Option<int>>)
    requires chat in w.chats && RejectionNotice(s, text).Some?
    ensures IsInputState(s)
    ensures InputFor(w, chat, s, Some(text), replies) == Posted(w, chat, RejectionNotice(s, text).value, Reply(replies, 0))
  {
    if s == AutoDeleteTimeSet {
      assert InputFor(w, chat, s, Some(text), replies) == SecondsInput(w, chat, Some(text), replies);
    } else if s == TimeRangeSetStart {
      assert InputFor(w, chat, s, Some(text), replies) == StartInput(w, chat, Some(text), replies);
    } else {
      assert InputFor(w, chat, s, Some(text), replies) == EndInput(w, chat, Some(text), replies);
    }
  }

  /** An accepted start time is stored without touching the mode, and the dialog waits for the end time. */
  lemma StartAccepted(w: World, chat: int, msgId: int, text: string, replies: seq<Option<int>>)
    requires w.state == Some(TimeRangeSetStart) && ParseClock(text).Some?
    ensures var o := TextInput(w, chat, msgId, Some(text), replies);
      var before := Before(w, chat);
      var c := ParseClock(text).value;
      chat in o.world.chats
      && Policy(o.world.chats[chat]) == Policy(before).(timeRange := before.timeRange.(startHour := c.hour, startMinute := c.minute))
      && o.world.state == Some(TimeRangeSetEnd)
      && o.calls == [DeleteMessage(chat, msgId), SendMessage(chat, TimeEndPrompt(c.hour, c.minute))]
  {
    var w1 := Prepared(w, chat);
    var c := ParseClock(text).value;
    var cfg := w1.chats[chat];
    var w2 := w1.(chats := w1.chats[chat := cfg.(timeRange := cfg.timeRange.(startHour := c.hour, startMinute := c.minute))]);
    PostedKeepsPolicies(w2, chat, TimeEndPrompt(c.hour, c.minute), Reply(replies, 0));
  }

  /** An accepted end time is stored, the mode becomes TIME_RANGE, and the dialog returns to the time screen. */
  lemma EndAccepted(w: World, chat: int, msgId: int, text: string, replies: seq<Option<int>>)
    requires w.state == Some(TimeRangeSetEnd) && ParseClock(text).Some?
    ensures var o := TextInput(w, chat, msgId, Some(text), replies);
      var before := Before(w, chat);
      var c := ParseClock(text).value;
      chat in o.world.chats
      && Policy(o.world.chats[chat]) == Policy(before).(timeRange := before.timeRange.(endHour := c.hour, endMinute := c.minute, mode := TIME_RANGE))
      && o.world.state == Some(TimeSettings)
      && |o.calls| >= 2 && o.calls[..2] == [DeleteMessage(chat, msgId), SendMessage(chat, TimeRangeActivated)]
  {
    var w1 := Prepared(w, chat);
    var c := ParseClock(text).value;
    var cfg := w1.chats[chat];
    var w2 := w1.(chats := w1.chats[chat := cfg.(timeRange := cfg.timeRange.(endHour := c.hour, endMinute := c.minute, mode := TIME_RANGE))]);
    var o := Posted(w2, chat, TimeRangeActivated, Reply(replies, 0));
    PostedKeepsPolicies(w2, chat, TimeRangeActivated, Reply(replies, 0));
    ShownKeepsPolicies(o.world, chat, TimeView, Reply(replies, 1));
    ShownState(o.world, chat, TimeView, Reply(replies, 1));
  }

  /**
   * Typing a start and then an end time activates exactly that window: from
   * then on messages are deleted from the start up to the end, across
   * midnight when the end is not after the start.
   */
  lemma StartThenEnd(w: World, chat: int, id1: int, start: string, replies1: seq<Option<int>>, id2: int, end: string, replies2: seq<Option<int>>, now: int)
    requires w.state == Some(TimeRangeSetStart) && ParseClock(start).Some? && ParseClock(end).Some?
    ensures var o1 := TextInput(w, chat, id1, Some(start), replies1);
      var o2 := TextInput(o1.world, chat, id2, Some(end), replies2);
      var s, e := ParseClock(start).value, ParseClock(end).value;
      var tr := o2.world.chats[chat].timeRange;
      tr == TimeRange(s.hour, s.minute, e.hour, e.minute, TIME_RANGE)
      && (ShouldDeleteAt(tr, now) <==>
          if SecondsOfDay(s.hour, s.minute) < SecondsOfDay(e.hour, e.minute)
          then SecondsOfDay(s.hour, s.minute) <= now < SecondsOfDay(e.hour, e.minute)
          else now >= SecondsOfDay(s.hour, s.minute) || now < SecondsOfDay(e.hour, e.minute))
  {
    StartAccepted(w, chat, id1, start, replies1);
    var o1 := TextInput(w, chat, id1, Some(start), replies1);
    assert chat in o1.world.chats;
    WithConfigIdempotent(o1.world.chats, chat);
    assert Before(o1.world, chat) == o1.world.chats[chat];
    EndAccepted(o1.world, chat, id2, end, replies2);
  }

  /**
   * The stock list, then "@LyBot @GIF @lybot bad": the new bot is added once,
   * the other casing of it and of a stock bot count as already listed, and the
   * word without `@` is reported invalid.
   */
  lemma AddExample()
    ensures Sort(DEFAULT_WHITELIST, ["@LyBot", "@GIF", "@lybot", "bad"])
      == Tally(DEFAULT_WHITELIST + ["@LyBot"], ["@LyBot"], ["@GIF", "@lybot"], ["bad"])
  {
    var wl := DEFAULT_WHITELIST;
    var l := wl + ["@LyBot"];
    var ts := ["@LyBot", "@GIF", "@lybot", "bad"];
    assert ts[..3][..2][..1][..0] == [];
    assert ts[..3][..2][..1] == ["@LyBot"];
    assert ts[..3][..2] == ["@LyBot", "@GIF"];
    assert ts[..3] == ["@LyBot", "@GIF", "@lybot"];
    ExampleLookups();
    assert Sort(wl, ["@LyBot"]) == Tally(l, ["@LyBot"], [], []);
    assert Sort(wl, ["@LyBot", "@GIF"]) == Tally(l, ["@LyBot"], ["@GIF"], []);
    assert Sort(wl, ["@LyBot", "@GIF", "@lybot"]) == Tally(l, ["@LyBot"], ["@GIF", "@lybot"], []);
    assert !HasAt("bad");
  }

  lemma ExampleLookups()
    ensures !IsWhitelisted(DEFAULT_WHITELIST, "@LyBot")
    ensures IsWhitelisted(DEFAULT_WHITELIST + ["@LyBot"], "@GIF")
    ensures IsWhitelisted(DEFAULT_WHITELIST + ["@LyBot"], "@lybot")
  {
    LyBotIsNew();
    var l := DEFAULT_WHITELIST + ["@LyBot"];
    assert Lower("@GIF") == Lower(l[0]);
    assert l[3] == "@LyBot";
    assert Lower("@lybot") == Lower(l[3]);
  }

  lemma LyBotIsNew()
    ensures !IsWhitelisted(DEFAULT_WHITELIST, "@LyBot")
  {
    var wl := DEFAULT_WHITELIST;
    assert Lower("@LyBot")[1] == 'l';
    assert Lower(wl[0])[1] == 'g' && Lower(wl[1])[1] == 'v' && Lower(wl[2])[1] == 'm';
  }
}
