/**
 * The per-chat record of domain/models.py: the deletion window, the
 * auto-delete settings of the bot's own replies, the allow-list of inline
 * bots, and the live self-delete timers.
 */
module Models {
  import opened Wrappers
  import opened Text

  datatype DeleteMode = ALWAYS | TIME_RANGE | DISABLED

  datatype TimeRange = TimeRange(startHour: int, startMinute: int, endHour: int, endMinute: int, mode: DeleteMode)

  datatype AutoDeleteSettings = AutoDeleteSettings(enabled: bool, deleteAfter: int)

  /** A pending self-delete task; the only thing it carries is the delay it was started with. */
  datatype Timer = Timer(delay: int)

  datatype ChatConfig = ChatConfig(
    whitelist: seq<string>,
    timeRange: TimeRange,
    autoDelete: AutoDeleteSettings,
    lastBotMessageId: Option<int>,
    messageTasks: map<int, Timer>)

  const SECONDS_PER_DAY: int := 86400

  const DEFAULT_TIME_RANGE: TimeRange := TimeRange(22, 0, 8, 0, ALWAYS)
  const DEFAULT_AUTO_DELETE: AutoDeleteSettings := AutoDeleteSettings(true, 30)
  const DEFAULT_WHITELIST: seq<string> := ["@gif", "@vid", "@music"]

  /** `ChatConfig()` with every field at its default. */
  function DefaultChatConfig(): ChatConfig {
    ChatConfig(DEFAULT_WHITELIST, DEFAULT_TIME_RANGE, DEFAULT_AUTO_DELETE, None, map[])
  }

  /** A time of day `time(h, m)` as seconds since midnight; `time` objects compare in this order. */
  function SecondsOfDay(hour: int, minute: int): int {
    hour * 3600 + minute * 60
  }

  function Start(tr: TimeRange): int {
    SecondsOfDay(tr.startHour, tr.startMinute)
  }

  function End(tr: TimeRange): int {
    SecondsOfDay(tr.endHour, tr.endMinute)
  }

  /** Both bounds and the moment are times of day, 00:00 to 23:59:59. */
  predicate InDay(tr: TimeRange, now: int) {
    0 <= Start(tr) < SECONDS_PER_DAY && 0 <= End(tr) < SECONDS_PER_DAY && 0 <= now < SECONDS_PER_DAY
  }

  /**
   * `TimeRange.should_delete_at`: whether an inline-bot message seen at `now`
   * (seconds since midnight) falls in the deletion window. For a window with
   * distinct bounds inside one day, that is: walking forward round the clock
   * from the start, `now` comes before the end.
   */
  function ShouldDeleteAt(tr: TimeRange, now: int): (r: bool)
    ensures tr.mode == DISABLED ==> !r
    ensures tr.mode == ALWAYS ==> r
    ensures tr.mode == TIME_RANGE && Start(tr) == End(tr) ==> r
    ensures InDay(tr, now) && tr.mode == TIME_RANGE && Start(tr) != End(tr) ==>
      (r <==> (now - Start(tr)) % SECONDS_PER_DAY < (End(tr) - Start(tr)) % SECONDS_PER_DAY)
  {
    match tr.mode
    case DISABLED => false
    case ALWAYS => true
    case TIME_RANGE =>
      if Start(tr) < End(tr) then Start(tr) <= now < End(tr)
      else now >= Start(tr) || now < End(tr)
  }

  lemma DisabledNeverDeletes(tr: TimeRange, now: int)
    requires tr.mode == DISABLED
    ensures !ShouldDeleteAt(tr, now)
  {
  }

  lemma AlwaysDeletes(tr: TimeRange, now: int)
    requires tr.mode == ALWAYS
    ensures ShouldDeleteAt(tr, now)
  {
  }

  /** A window that does not wrap is the half-open interval [start, end). */
  lemma PlainWindow(tr: TimeRange, now: int)
    requires tr.mode == TIME_RANGE && Start(tr) < End(tr)
    ensures ShouldDeleteAt(tr, now) <==> Start(tr) <= now < End(tr)
    ensures ShouldDeleteAt(tr, Start(tr)) && !ShouldDeleteAt(tr, End(tr))
  {
  }

  /** A window with start >= end wraps past midnight: [start, 24:00) and [00:00, end). */
  lemma WrappingWindow(tr: TimeRange, now: int)
    requires tr.mode == TIME_RANGE && Start(tr) >= End(tr)
    ensures ShouldDeleteAt(tr, now) <==> now >= Start(tr) || now < End(tr)
  {
  }

  /** Equal start and end select the whole day, not an empty window. */
  lemma EqualBoundsSelectWholeDay(tr: TimeRange, now: int)
    requires tr.mode == TIME_RANGE && Start(tr) == End(tr)
    ensures ShouldDeleteAt(tr, now)
  {
  }

  function Swapped(tr: TimeRange): TimeRange {
    tr.(startHour := tr.endHour, startMinute := tr.endMinute, endHour := tr.startHour, endMinute := tr.startMinute)
  }

  /** With distinct bounds, exchanging start and end selects exactly the other times of day. */
  lemma SwappedWindowIsComplement(tr: TimeRange, now: int)
    requires tr.mode == TIME_RANGE && Start(tr) != End(tr)
    ensures ShouldDeleteAt(Swapped(tr), now) <==> !ShouldDeleteAt(tr, now)
  {
  }

  /** True when some entry equals `target` after lower-casing (the `any(...)` of is_whitelisted). */
  function AnyLowerEquals(entries: seq<string>, target: string): (r: bool)
    ensures r <==> exists i :: 0 <= i < |entries| && Lower(entries[i]) == target
  {
    if entries == [] then false
    else if Lower(entries[0]) == target then true
    else
      var r := AnyLowerEquals(entries[1..], target);
      assert forall i :: 1 <= i < |entries| ==> entries[i] == entries[1..][i - 1];
      r
  }

  /** `ChatConfig.is_whitelisted`: case-insensitive membership; the empty handle is never whitelisted. */
  function IsWhitelisted(whitelist: seq<string>, handle: string): (r: bool)
    ensures r <==> handle != [] && exists i :: 0 <= i < |whitelist| && Lower(whitelist[i]) == Lower(handle)
  {
    if handle == [] then false else AnyLowerEquals(whitelist, Lower(handle))
  }

  /** Handles that differ only in case are whitelisted alike. */
  lemma WhitelistIgnoresCase(whitelist: seq<string>, a: string, b: string)
    requires Lower(a) == Lower(b)
    ensures IsWhitelisted(whitelist, a) == IsWhitelisted(whitelist, b)
  {
  }

  /** Appending keeps everything that was whitelisted, and whitelists the appended handle. */
  lemma WhitelistGrows(whitelist: seq<string>, extra: string, handle: string)
    ensures IsWhitelisted(whitelist, handle) ==> IsWhitelisted(whitelist + [extra], handle)
    ensures handle != [] && Lower(extra) == Lower(handle) ==> IsWhitelisted(whitelist + [extra], handle)
  {
    var w := whitelist + [extra];
    assert w[|whitelist|] == extra;
    assert forall i :: 0 <= i < |whitelist| ==> w[i] == whitelist[i];
  }

  /** A fresh record deletes at every time of day, whitelists the three stock bots in any casing, and would use 22:00-08:00 if switched to a window. */
  lemma DefaultChatConfigBehaviour(now: int)
    ensures DefaultChatConfig().whitelist == ["@gif", "@vid", "@music"]
    ensures ShouldDeleteAt(DefaultChatConfig().timeRange, now)
    ensures IsWhitelisted(DefaultChatConfig().whitelist, "@GIF")
    ensures IsWhitelisted(DefaultChatConfig().whitelist, "@Music")
    ensures !IsWhitelisted(DefaultChatConfig().whitelist, "")
    ensures ShouldDeleteAt(DefaultChatConfig().timeRange.(mode := TIME_RANGE), now) <==> now >= 22 * 3600 || now < 8 * 3600
    ensures DefaultChatConfig().autoDelete.enabled && DefaultChatConfig().autoDelete.deleteAfter == 30
    ensures DefaultChatConfig().messageTasks == map[]
  {
    var cfg := DefaultChatConfig();
    assert Lower("@GIF") == "@gif" == Lower(cfg.whitelist[0]);
    assert Lower("@Music") == "@music" == Lower(cfg.whitelist[2]);
  }
}
