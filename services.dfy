/**
 * domain/services.py: the inline-origin classifier and the moderation
 * pipeline that decides whether an incoming group message is deleted.
 *
 * The five regular expressions are matched by hand: a search tries every
 * start position from the left, and at a given position the match is
 * unique, because every `\s+` is followed by a non-blank and `\w+[Bb]ot\b`
 * can only end where the run of word characters after the `@` ends.
 */
module Services {
  import opened Wrappers
  import opened Text
  import opened Models
  import opened Storage
  import opened Helpers

  datatype ChatKind = Private | Group | Supergroup | Channel

  /** The reply markup an incoming message carries; only an inline keyboard has `inline_keyboard`. */
  datatype Markup = NoMarkup | InlineKeyboard | OtherKeyboard

  /** The platform's relay marker `via_bot`, with the bot's username when the platform reports one. */
  datatype ViaBot = ViaBot(username: Option<string>)

  datatype Message = Message(
    chat: int,
    kind: ChatKind,
    id: int,
    sender: Option<int>,
    viaBot: Option<ViaBot>,
    markup: Markup,
    text: Option<string>,
    caption: Option<string>)

  datatype Classification = Classification(isInline: bool, handle: Option<string>)

  /**
   * The pattern `[<upper><lower>]<rest>\s+(@\w+[Bb]ot\b)`, or with `gap` set
   * `[<upper><lower>]\s+<rest>\s+(@\w+[Bb]ot\b)`; `rest` starts with a letter.
   */
  datatype Pattern = Pattern(upper: char, lower: char, gap: bool, rest: string)

  /** The list in the order the source tries it; its second entry opens with the Latin letter C. */
  const AS_WRITTEN_PATTERNS: seq<Pattern> := [
    Pattern('V', 'v', false, "ia"),
    Pattern('C', 'c', true, "помощью"),
    Pattern('Ч', 'ч', false, "ерез"),
    Pattern('W', 'w', false, "ith"),
    Pattern('B', 'b', false, "y")
  ]

  /** The same list with the Russian phrase opening with the Cyrillic letter С, as the phrase is written. */
  const PATTERNS: seq<Pattern> := [
    Pattern('V', 'v', false, "ia"),
    Pattern('\U{0421}', '\U{0441}', true, "помощью"),
    Pattern('Ч', 'ч', false, "ерез"),
    Pattern('W', 'w', false, "ith"),
    Pattern('B', 'b', false, "y")
  ]

  /** A handle the capture group `(@\w+[Bb]ot)` can produce. */
  predicate BotHandle(h: string) {
    |h| >= 5 && h[0] == '@'
    && (forall k :: 1 <= k < |h| ==> IsWord(h[k]))
    && (h[|h| - 3] == 'B' || h[|h| - 3] == 'b') && h[|h| - 2] == 'o' && h[|h| - 1] == 't'
  }

  /** The length of the run of blanks in t starting at index k. */
  function SpaceRun(t: string, k: nat): (n: nat)
    requires k <= |t|
    ensures k + n <= |t|
    ensures k + n < |t| ==> !IsSpace(t[k + n])
    decreases |t| - k
  {
    if k == |t| || !IsSpace(t[k]) then 0 else 1 + SpaceRun(t, k + 1)
  }

  lemma {:induction false} SpaceRunBlank(t: string, k: nat)
    requires k <= |t|
    ensures forall m :: k <= m < k + SpaceRun(t, k) ==> IsSpace(t[m])
    decreases |t| - k
  {
    if k < |t| && IsSpace(t[k]) {
      SpaceRunBlank(t, k + 1);
    }
  }

  /** The length of the run of word characters in t starting at index k. */
  function WordRun(t: string, k: nat): (n: nat)
    requires k <= |t|
    ensures k + n <= |t|
    ensures k + n < |t| ==> !IsWord(t[k + n])
    decreases |t| - k
  {
    if k == |t| || !IsWord(t[k]) then 0 else 1 + WordRun(t, k + 1)
  }

  lemma {:induction false} WordRunWord(t: string, k: nat)
    requires k <= |t|
    ensures forall m :: k <= m < k + WordRun(t, k) ==> IsWord(t[m])
    decreases |t| - k
  {
    if k < |t| && IsWord(t[k]) {
      WordRunWord(t, k + 1);
    }
  }

  /** The letters of w occur in t from index k on. */
  predicate LettersAt(t: string, k: nat, w: string)
    decreases |w|
  {
    w == [] || (k < |t| && t[k] == w[0] && LettersAt(t, k + 1, w[1..]))
  }

  lemma {:induction false} LettersAtMeans(t: string, k: nat, w: string)
    requires k <= |t|
    ensures LettersAt(t, k, w) <==> k + |w| <= |t| && t[k..k + |w|] == w
    decreases |w|
  {
    if w != [] && k < |t| {
      LettersAtMeans(t, k + 1, w[1..]);
      if k + |w| <= |t| {
        assert t[k..k + |w|] == [t[k]] + t[k + 1..k + |w|];
        assert w == [w[0]] + w[1..];
      }
    }
  }

  /** The group `(@\w+[Bb]ot\b)` starting at index k: `@` and the whole word run after it, which must end in "bot"/"Bot". */
  function HandleAt(t: string, k: nat): (r: Option<string>)
    ensures r.Some? ==>
      BotHandle(r.value) && k + |r.value| <= |t|
      && (k + |r.value| == |t| || !IsWord(t[k + |r.value|]))
  {
    if k < |t| && t[k] == '@' then
      var w := WordRun(t, k + 1);
      if w >= 4 && (t[k + w - 2] == 'B' || t[k + w - 2] == 'b') && t[k + w - 1] == 'o' && t[k + w] == 't' then
        WordRunWord(t, k + 1);
        var h := t[k..k + w + 1];
        assert forall m :: 1 <= m < |h| ==> h[m] == t[k + m];
        Some(h)
      else None
    else None
  }

  /** The capture is the text at index k. */
  lemma HandleIsText(t: string, k: nat)
    ensures HandleAt(t, k).Some? ==> t[k..k + |HandleAt(t, k).value|] == HandleAt(t, k).value
  {
  }

  /**
   * The pattern matched with its initial letter at index i, giving its
   * capture. Each `\s+` is followed by a non-blank, so it takes the whole
   * run of blanks and the match at a given index is unique.
   */
  function MatchAt(t: string, i: nat, p: Pattern): (r: Option<string>)
    ensures r.Some? ==> BotHandle(r.value) && i < |t| && (t[i] == p.upper || t[i] == p.lower)
  {
    if i < |t| && (t[i] == p.upper || t[i] == p.lower) then
      var g := if p.gap then SpaceRun(t, i + 1) else 0;
      var j := i + 1 + g + |p.rest|;
      if (p.gap ==> g > 0) && j <= |t| && LettersAt(t, i + 1 + g, p.rest) then
        var n := SpaceRun(t, j);
        if n > 0 then HandleAt(t, j + n) else None
      else None
    else None
  }

  /** Without a gap, a match has the keyword's remaining letters right after the initial. */
  lemma MatchedKeyword(t: string, i: nat, p: Pattern)
    requires !p.gap
    ensures MatchAt(t, i, p).Some? ==> LettersAt(t, i + 1, p.rest)
  {
  }

  /** A run of n blanks followed by a non-blank or the end is what SpaceRun measures. */
  lemma {:induction false} SpaceRunOf(t: string, k: nat, n: nat)
    requires k + n <= |t|
    requires forall m :: k <= m < k + n ==> IsSpace(t[m])
    requires k + n < |t| ==> !IsSpace(t[k + n])
    ensures SpaceRun(t, k) == n
    decreases n
  {
    if n > 0 {
      SpaceRunOf(t, k + 1, n - 1);
    }
  }

  /** A run of n word characters followed by a non-word character or the end is what WordRun measures. */
  lemma {:induction false} WordRunOf(t: string, k: nat, n: nat)
    requires k + n <= |t|
    requires forall m :: k <= m < k + n ==> IsWord(t[m])
    requires k + n < |t| ==> !IsWord(t[k + n])
    ensures WordRun(t, k) == n
    decreases n
  {
    if n > 0 {
      WordRunOf(t, k + 1, n - 1);
    }
  }

  /** The steps of a match: the initial, the blanks of the gap (g of them), the keyword, then n blanks before the handle. */
  lemma KeywordMatch(t: string, i: nat, p: Pattern, g: nat, j: nat, n: nat)
    requires i < |t| && (t[i] == p.upper || t[i] == p.lower)
    requires g == (if p.gap then SpaceRun(t, i + 1) else 0) && (p.gap ==> g > 0)
    requires j == i + 1 + g + |p.rest| <= |t| && LettersAt(t, i + 1 + g, p.rest)
    requires SpaceRun(t, j) == n > 0
    ensures MatchAt(t, i, p) == HandleAt(t, j + n)
  {
  }

  /** "@FooBot" at index k, at the end of the text, is captured whole. */
  lemma FooBotAt(t: string, k: nat)
    requires k + 7 == |t| && t[k..] == "@FooBot"
    ensures HandleAt(t, k) == Some("@FooBot")
  {
    assert forall m :: k <= m < |t| ==> t[m] == "@FooBot"[m - k];
    WordRunOf(t, k + 1, 6);
    assert t[k..k + 7] == "@FooBot";
  }

  datatype Found = Found(pos: nat, handle: string)

  /** The pattern matches at no index from i up to, not including, k. */
  predicate NoMatchBetween(t: string, p: Pattern, i: nat, k: nat)
    decreases k - i
  {
    i >= k || (MatchAt(t, i, p).None? && NoMatchBetween(t, p, i + 1, k))
  }

  lemma {:induction false} NoMatchBetweenMeans(t: string, p: Pattern, i: nat, k: nat)
    ensures NoMatchBetween(t, p, i, k) <==> forall j :: i <= j < k ==> MatchAt(t, j, p).None?
    decreases k - i
  {
    if i < k {
      NoMatchBetweenMeans(t, p, i + 1, k);
    }
  }

  /** `re.search` from index i: the leftmost position at which the pattern matches. */
  function SearchFrom(t: string, p: Pattern, i: nat): (r: Option<Found>)
    requires i <= |t|
    ensures r.Some? ==>
      i <= r.value.pos < |t| && MatchAt(t, r.value.pos, p) == Some(r.value.handle)
      && NoMatchBetween(t, p, i, r.value.pos)
    ensures r.None? ==> NoMatchBetween(t, p, i, |t|)
    decreases |t| - i
  {
    if i == |t| then None
    else
      match MatchAt(t, i, p)
      case Some(h) => Some(Found(i, h))
      case None => SearchFrom(t, p, i + 1)
  }

  function Search(t: string, p: Pattern): Option<Found> {
    SearchFrom(t, p, 0)
  }

  /** A pattern whose initial letter does not occur in the text matches nowhere. */
  lemma AbsentInitial(t: string, p: Pattern)
    requires p.upper !in t && p.lower !in t
    ensures Search(t, p).None?
  {
    forall j | 0 <= j < |t|
      ensures MatchAt(t, j, p).None?
    {
      assert t[j] in t;
    }
  }

  /** A pattern without a gap whose keyword's second letter does not occur in the text matches nowhere. */
  lemma AbsentSecondLetter(t: string, p: Pattern)
    requires !p.gap && p.rest != [] && p.rest[0] !in t
    ensures Search(t, p).None?
  {
    forall j | 0 <= j < |t|
      ensures MatchAt(t, j, p).None?
    {
      MatchedKeyword(t, j, p);
      if j + 1 < |t| {
        assert t[j + 1] in t;
      }
    }
  }

  datatype Hit = Hit(pattern: nat, pos: nat, handle: string)

  /** The patterns from index i on, in priority order: the first one that matches anywhere wins, with its leftmost capture. */
  function FirstMatchFrom(t: string, ps: seq<Pattern>, i: nat): (r: Option<Hit>)
    requires i <= |ps|
    ensures r.Some? ==>
      i <= r.value.pattern < |ps|
      && Search(t, ps[r.value.pattern]) == Some(Found(r.value.pos, r.value.handle))
      && forall k :: i <= k < r.value.pattern ==> Search(t, ps[k]).None?
    ensures r.None? ==> forall k :: i <= k < |ps| ==> Search(t, ps[k]).None?
    decreases |ps| - i
  {
    if i == |ps| then None
    else
      var here := Search(t, ps[i]);
      if here.Some? then Some(Hit(i, here.value.pos, here.value.handle))
      else FirstMatchFrom(t, ps, i + 1)
  }

  function FirstMatch(t: string, ps: seq<Pattern>): Option<Hit> {
    FirstMatchFrom(t, ps, 0)
  }

  /** `message.text or message.caption or ""`: an empty text falls through to the caption. */
  function MessageText(m: Message): string {
    if m.text.Some? && m.text.value != [] then m.text.value
    else if m.caption.Some? && m.caption.value != [] then m.caption.value
    else ""
  }

  function ViaHandle(v: ViaBot): Option<string> {
    if v.username.Some? && v.username.value != [] then Some("@" + v.username.value) else None
  }

  /** `is_inline_bot_message` over a given pattern list. */
  function ClassifyWith(m: Message, ps: seq<Pattern>): (c: Classification)
    ensures m.viaBot.Some? ==> c.isInline && c.handle == ViaHandle(m.viaBot.value)
    ensures c.handle.Some? ==> c.isInline
    ensures m.viaBot.None? && c.isInline ==>
      m.markup == InlineKeyboard && MessageText(m) != [] && c.handle.Some? && BotHandle(c.handle.value)
  {
    if m.viaBot.Some? then Classification(true, ViaHandle(m.viaBot.value))
    else if m.markup == InlineKeyboard && MessageText(m) != [] then
      match FirstMatch(MessageText(m), ps)
      case Some(hit) => Classification(true, Some(hit.handle))
      case None => Classification(false, None)
    else Classification(false, None)
  }

  /** A first match is a match: the pattern matches at the reported index, with the reported capture. */
  lemma FirstMatchSound(t: string, ps: seq<Pattern>)
    ensures FirstMatch(t, ps).Some? ==>
      var hit := FirstMatch(t, ps).value;
      hit.pattern < |ps| && hit.pos < |t| && MatchAt(t, hit.pos, ps[hit.pattern]) == Some(hit.handle)
  {
  }

  /** No first match means that no pattern matches at any index. */
  lemma FirstMatchComplete(t: string, ps: seq<Pattern>)
    ensures FirstMatch(t, ps).None? ==>
      forall k, i :: 0 <= k < |ps| && 0 <= i < |t| ==> MatchAt(t, i, ps[k]).None?
  {
    if FirstMatch(t, ps).None? {
      forall k | 0 <= k < |ps|
        ensures forall i :: 0 <= i < |t| ==> MatchAt(t, i, ps[k]).None?
      {
        assert Search(t, ps[k]).None?;
        NoMatchBetweenMeans(t, ps[k], 0, |t|);
      }
    }
  }

  /**
   * Without a relay marker, a message with an inline keyboard and a text is
   * taken for an inline one exactly when some pattern matches somewhere in
   * the text, and the handle reported is the capture of such a match.
   */
  lemma ClassifyByPatterns(m: Message, ps: seq<Pattern>)
    requires m.viaBot.None? && m.markup == InlineKeyboard && MessageText(m) != []
    ensures var c := ClassifyWith(m, ps);
      c.isInline <==> exists k, i :: 0 <= k < |ps| && 0 <= i < |MessageText(m)| && MatchAt(MessageText(m), i, ps[k]).Some?
    ensures var c := ClassifyWith(m, ps);
      c.isInline ==> exists k, i :: 0 <= k < |ps| && 0 <= i < |MessageText(m)| && MatchAt(MessageText(m), i, ps[k]) == c.handle
  {
    var t := MessageText(m);
    FirstMatchSound(t, ps);
    FirstMatchComplete(t, ps);
    if FirstMatch(t, ps).Some? {
      var hit := FirstMatch(t, ps).value;
      assert MatchAt(t, hit.pos, ps[hit.pattern]) == Some(hit.handle);
    }
  }

  // ---------------------------------------------------------------- moderation

  datatype Verdict = SkipPrivate | SkipAdmin | SkipOutsideWindow | SkipNotInline | SkipWhitelisted | Delete

  /**
   * The short-circuiting checks of `check_and_handle_inline_bot`, in the
   * source's order, with the classifier run on the pattern list `ps`.
   */
  function Judge(cfg: ChatConfig, m: Message, senderIsAdmin: bool, now: int, ps: seq<Pattern>): (v: Verdict)
    ensures v == SkipPrivate <==> m.kind == Private
    ensures v == SkipAdmin <==> m.kind != Private && m.sender.Some? && senderIsAdmin
    ensures v == Delete <==>
      m.kind != Private && !(m.sender.Some? && senderIsAdmin) && ShouldDeleteAt(cfg.timeRange, now)
      && ClassifyWith(m, ps).isInline
      && !(ClassifyWith(m, ps).handle.Some? && IsWhitelisted(cfg.whitelist, ClassifyWith(m, ps).handle.value))
    ensures v == SkipWhitelisted ==> ClassifyWith(m, ps).handle.Some? && IsWhitelisted(cfg.whitelist, ClassifyWith(m, ps).handle.value)
  {
    if m.kind == Private then SkipPrivate
    else if m.sender.Some? && senderIsAdmin then SkipAdmin
    else if !ShouldDeleteAt(cfg.timeRange, now) then SkipOutsideWindow
    else
      var c := ClassifyWith(m, ps);
      if !c.isInline then SkipNotInline
      else if c.handle.Some? && IsWhitelisted(cfg.whitelist, c.handle.value) then SkipWhitelisted
      else Delete
  }

  /** The platform calls the pipeline issues: one member lookup when there is a sender, one delete on the delete path. */
  function ModerationCalls(chats: map<int, ChatConfig>, m: Message, lookup: Option<MemberStatus>, now: int, ps: seq<Pattern>): (calls: seq<Call>)
    ensures m.kind == Private ==> calls == []
    ensures |calls| <= 2
    ensures forall k :: 0 <= k < |calls| ==>
      calls[k] == DeleteMessage(m.chat, m.id) || (m.sender.Some? && calls[k] == GetChatMember(m.chat, m.sender.value))
    ensures m.kind != Private && m.sender.Some? ==> calls != [] && calls[0] == GetChatMember(m.chat, m.sender.value)
  {
    if m.kind == Private then []
    else
      (if m.sender.Some? then [GetChatMember(m.chat, m.sender.value)] else [])
      + (if Judge(WithConfig(chats, m.chat)[m.chat], m, IsAdmin(lookup), now, ps) == Delete
         then [DeleteMessage(m.chat, m.id)] else [])
  }

  /**
   * `check_and_handle_inline_bot`: `lookup` is what the member lookup returns
   * (None when it fails), `now` the server's time of day in seconds.
   */
  method CheckAndHandle(r: Registry, m: Message, lookup: Option<MemberStatus>, now: int) returns (calls: seq<Call>)
    modifies r
    ensures r.chats == if m.kind == Private then old(r.chats) else WithConfig(old(r.chats), m.chat)
    ensures calls == ModerationCalls(old(r.chats), m, lookup, now, AS_WRITTEN_PATTERNS)
  {
    calls := [];
    if m.kind == Private {
      return;
    }
    var config := r.GetOrCreate(m.chat);
    if m.sender.Some? {
      calls := calls + [GetChatMember(m.chat, m.sender.value)];
      if IsAdmin(lookup) {
        return;
      }
    }
    if !ShouldDeleteAt(config.timeRange, now) {
      return;
    }
    var c := ClassifyWith(m, AS_WRITTEN_PATTERNS);
    if !c.isInline {
      return;
    }
    if c.handle.Some? && IsWhitelisted(config.whitelist, c.handle.value) {
      return;
    }
    calls := calls + [DeleteMessage(m.chat, m.id)];
  }

  /** `handle_all_messages`: text starting with "/" is left to the command handlers and never moderated. */
  method HandleAllMessages(r: Registry, m: Message, lookup: Option<MemberStatus>, now: int) returns (calls: seq<Call>)
    modifies r
    ensures m.text.Some? && m.text.value != [] && m.text.value[0] == '/' ==> calls == [] && r.chats == old(r.chats)
    ensures !(m.text.Some? && m.text.value != [] && m.text.value[0] == '/') ==>
      calls == ModerationCalls(old(r.chats), m, lookup, now, AS_WRITTEN_PATTERNS)
      && r.chats == if m.kind == Private then old(r.chats) else WithConfig(old(r.chats), m.chat)
  {
    if m.text.Some? && m.text.value != [] && m.text.value[0] == '/' {
      calls := [];
      return;
    }
    calls := CheckAndHandle(r, m, lookup, now);
  }

  function Deletes(calls: seq<Call>): nat {
    if calls == [] then 0 else (if calls[0].DeleteMessage? then 1 else 0) + Deletes(calls[1..])
  }

  /** At most one delete, exactly when every check passed, and it is the incoming message that goes. */
  lemma {:induction false} OneDeleteExactlyOnVerdict(chats: map<int, ChatConfig>, m: Message, lookup: Option<MemberStatus>, now: int, ps: seq<Pattern>)
    ensures var calls := ModerationCalls(chats, m, lookup, now, ps);
      Deletes(calls) == (if m.kind != Private && Judge(WithConfig(chats, m.chat)[m.chat], m, IsAdmin(lookup), now, ps) == Delete then 1 else 0)
      && forall k :: 0 <= k < |calls| && calls[k].DeleteMessage? ==> calls[k] == DeleteMessage(m.chat, m.id)
  {
    var calls := ModerationCalls(chats, m, lookup, now, ps);
    if m.kind != Private {
      var lookups: seq<Call> := if m.sender.Some? then [GetChatMember(m.chat, m.sender.value)] else [];
      var deletes: seq<Call> := if Judge(WithConfig(chats, m.chat)[m.chat], m, IsAdmin(lookup), now, ps) == Delete then [DeleteMessage(m.chat, m.id)] else [];
      assert calls == lookups + deletes;
      assert Deletes(deletes) == |deletes| by {
        if deletes != [] {
          assert deletes[1..] == [];
        }
      }
      if lookups != [] {
        assert calls[1..] == deletes;
        assert Deletes(calls) == Deletes(deletes);
      }
      assert forall k :: 0 <= k < |calls| && calls[k].DeleteMessage? ==> calls[k] == DeleteMessage(m.chat, m.id);
    }
  }

  /** A direct chat is never moderated and gets no record. */
  lemma PrivateChatIgnored(chats: map<int, ChatConfig>, m: Message, lookup: Option<MemberStatus>, now: int, ps: seq<Pattern>)
    requires m.kind == Private
    ensures ModerationCalls(chats, m, lookup, now, ps) == []
  {
  }

  /** A present sender whom the lookup reports as administrator or creator is never moderated. */
  lemma AdminNeverDeleted(cfg: ChatConfig, m: Message, status: MemberStatus, now: int, ps: seq<Pattern>)
    requires m.sender.Some? && status in {ADMINISTRATOR, CREATOR}
    ensures Judge(cfg, m, IsAdmin(Some(status)), now, ps) != Delete
  {
  }

  /** Without a sender, no member lookup is made and the admin exemption cannot apply. */
  lemma NoSenderNoLookup(chats: map<int, ChatConfig>, m: Message, lookup: Option<MemberStatus>, now: int, ps: seq<Pattern>)
    requires m.kind != Private && m.sender.None?
    ensures forall k :: 0 <= k < |ModerationCalls(chats, m, lookup, now, ps)| ==> !ModerationCalls(chats, m, lookup, now, ps)[k].GetChatMember?
    ensures Judge(WithConfig(chats, m.chat)[m.chat], m, true, now, ps) == Judge(WithConfig(chats, m.chat)[m.chat], m, false, now, ps)
  {
  }

  /** The window is consulted before the classifier: outside it, the content of the message does not matter. */
  lemma WindowBeforeClassifier(cfg: ChatConfig, m: Message, other: Message, admin: bool, now: int, ps: seq<Pattern>)
    requires !ShouldDeleteAt(cfg.timeRange, now) && m.kind != Private && !(m.sender.Some? && admin)
    requires other.kind == m.kind && other.sender == m.sender
    ensures Judge(cfg, m, admin, now, ps) == SkipOutsideWindow == Judge(cfg, other, admin, now, ps)
  {
  }

  /** A relayed message whose bot has no username cannot be allow-listed: it is deleted whenever the earlier checks pass. */
  lemma AnonymousRelayAlwaysDeleted(cfg: ChatConfig, m: Message, admin: bool, now: int, ps: seq<Pattern>)
    requires m.kind != Private && !(m.sender.Some? && admin) && ShouldDeleteAt(cfg.timeRange, now)
    requires m.viaBot == Some(ViaBot(None))
    ensures Judge(cfg, m, admin, now, ps) == Delete
  {
  }

  /** Only the policy fields of the record matter to the decision, never the timers. */
  lemma JudgeIgnoresTimers(cfg: ChatConfig, tasks: map<int, Timer>, m: Message, admin: bool, now: int, ps: seq<Pattern>)
    ensures Judge(cfg.(messageTasks := tasks), m, admin, now, ps) == Judge(cfg, m, admin, now, ps)
  {
  }

  // ---------------------------------------------------------------- examples

  lemma ViaSearch(t: string)
    requires t == "via @FooBot"
    ensures Search(t, AS_WRITTEN_PATTERNS[0]) == Some(Found(0, "@FooBot"))
  {
    assert AS_WRITTEN_PATTERNS[0] == Pattern('V', 'v', false, "ia");
    assert LettersAt(t, 1, "ia") by {
      assert t[1] == 'i' && t[2] == 'a';
    }
    SpaceRunOf(t, 3, 1);
    assert t[4..] == "@FooBot";
    FooBotAt(t, 4);
    KeywordMatch(t, 0, AS_WRITTEN_PATTERNS[0], 0, 3, 1);
  }

  /** Keyboard and "via @FooBot", no relay marker: recognised by the first pattern, with the handle in its own casing. */
  lemma ViaPhraseExample(m: Message)
    requires m.viaBot.None? && m.markup == InlineKeyboard && m.text == Some("via @FooBot")
    ensures ClassifyWith(m, AS_WRITTEN_PATTERNS) == Classification(true, Some("@FooBot"))
    ensures FirstMatch(MessageText(m), AS_WRITTEN_PATTERNS) == Some(Hit(0, 0, "@FooBot"))
  {
    assert MessageText(m) == "via @FooBot";
    ViaSearch(MessageText(m));
  }

  /** A relay marker decides on its own, whatever the text and keyboard. */
  lemma RelayMarkerExample(m: Message, ps: seq<Pattern>)
    requires m.viaBot == Some(ViaBot(Some("FooBot")))
    ensures ClassifyWith(m, ps) == Classification(true, Some("@FooBot"))
  {
    assert forall i | 0 <= i < 7 :: ("@" + "FooBot")[i] == "@FooBot"[i];
    assert "@" + "FooBot" == "@FooBot";
  }

  /** No keyboard and no relay marker: never inline, whatever the text says. */
  lemma PlainMessageExample(m: Message, ps: seq<Pattern>)
    requires m.viaBot.None? && m.markup == NoMarkup
    ensures ClassifyWith(m, ps) == Classification(false, None)
  {
  }

  /** A default record with an empty allow-list deletes a relayed @FooBot message from a plain member; "@foobot" on the list spares it. */
  lemma EndToEndExample(m: Message, now: int, ps: seq<Pattern>)
    requires m.kind == Group && m.sender == Some(7) && m.viaBot == Some(ViaBot(Some("FooBot")))
    ensures Judge(DefaultChatConfig().(whitelist := []), m, IsAdmin(Some(MEMBER)), now, ps) == Delete
    ensures Judge(DefaultChatConfig().(whitelist := ["@foobot"]), m, IsAdmin(Some(MEMBER)), now, ps) == SkipWhitelisted
  {
    RelayMarkerExample(m, ps);
    assert Lower("@FooBot") == "@foobot" == Lower("@foobot");
    assert IsWhitelisted(["@foobot"], "@FooBot");
  }

  // ---------------------------------------------------------------- finding: the Russian pattern

  const RUSSIAN_EXAMPLE: string := "\U{0421} помощью @FooBot"

  /** The phrase "С помощью @FooBot" under an inline keyboard, as a bot relaying in Russian writes it. */
  predicate RussianRelay(m: Message) {
    m.viaBot.None? && m.markup == InlineKeyboard && m.text == Some(RUSSIAN_EXAMPLE)
  }

  lemma RussianLacksV()
    ensures 'V' !in RUSSIAN_EXAMPLE && 'v' !in RUSSIAN_EXAMPLE
  {
  }

  lemma RussianLacksLatinC()
    ensures 'C' !in RUSSIAN_EXAMPLE && 'c' !in RUSSIAN_EXAMPLE
  {
  }

  lemma RussianLacksChe()
    ensures 'Ч' !in RUSSIAN_EXAMPLE && 'ч' !in RUSSIAN_EXAMPLE
  {
  }

  lemma RussianLacksW()
    ensures 'W' !in RUSSIAN_EXAMPLE && 'w' !in RUSSIAN_EXAMPLE
  {
  }

  lemma RussianLacksY()
    ensures 'y' !in RUSSIAN_EXAMPLE
  {
  }

  /** No pattern of the list as written matches anywhere in the Russian phrase. */
  lemma AsWrittenMatchesNothing()
    ensures FirstMatch(RUSSIAN_EXAMPLE, AS_WRITTEN_PATTERNS) == None
  {
    var t := RUSSIAN_EXAMPLE;
    var ps := AS_WRITTEN_PATTERNS;
    RussianLacksV();
    RussianLacksLatinC();
    RussianLacksChe();
    RussianLacksW();
    RussianLacksY();
    assert |ps| == 5 && ps[4] == Pattern('B', 'b', false, "y");
    AbsentInitial(t, ps[0]);
    AbsentInitial(t, ps[1]);
    AbsentInitial(t, ps[2]);
    AbsentInitial(t, ps[3]);
    AbsentSecondLetter(t, ps[4]);
  }

  /** With the list as written, the Russian phrase is taken for a user's own message. */
  lemma RussianPhraseMissedAsWritten(m: Message)
    requires RussianRelay(m)
    ensures ClassifyWith(m, AS_WRITTEN_PATTERNS) == Classification(false, None)
  {
    assert MessageText(m) == RUSSIAN_EXAMPLE;
    AsWrittenMatchesNothing();
  }

  lemma RussianEnds(t: string)
    requires t == RUSSIAN_EXAMPLE
    ensures |t| == 17 && t[0] == '\U{0421}' && t[10..] == "@FooBot"
  {
  }

  lemma RussianGap(t: string)
    requires t == RUSSIAN_EXAMPLE
    ensures SpaceRun(t, 1) == 1
  {
    assert t[1] == ' ' && t[2] == 'п';
    SpaceRunOf(t, 1, 1);
  }

  lemma RussianKeyword(t: string)
    requires t == RUSSIAN_EXAMPLE
    ensures LettersAt(t, 2, "помощью")
  {
    assert t[2..9] == "помощью";
    LettersAtMeans(t, 2, "помощью");
  }

  lemma RussianBlank(t: string)
    requires t == RUSSIAN_EXAMPLE
    ensures SpaceRun(t, 9) == 1
  {
    assert t[9] == ' ' && t[10] == '@';
    SpaceRunOf(t, 9, 1);
  }

  lemma RussianSearch()
    ensures Search(RUSSIAN_EXAMPLE, PATTERNS[1]) == Some(Found(0, "@FooBot"))
  {
    assert PATTERNS[1] == Pattern('\U{0421}', '\U{0441}', true, "помощью");
    var t := RUSSIAN_EXAMPLE;
    RussianEnds(t);
    RussianGap(t);
    RussianKeyword(t);
    RussianBlank(t);
    GapMatchAtStart(t, PATTERNS[1]);
    FooBotAt(t, 10);
  }

  lemma RussianFirstMatch()
    ensures FirstMatch(RUSSIAN_EXAMPLE, PATTERNS) == Some(Hit(1, 0, "@FooBot"))
  {
    RussianLacksV();
    assert PATTERNS[0] == Pattern('V', 'v', false, "ia");
    AbsentInitial(RUSSIAN_EXAMPLE, PATTERNS[0]);
    RussianSearch();
  }

  /** With the Cyrillic initial the same message is recognised, through the Russian pattern, with its handle. */
  lemma RussianPhraseRecognised(m: Message)
    requires RussianRelay(m)
    ensures ClassifyWith(m, PATTERNS) == Classification(true, Some("@FooBot"))
    ensures FirstMatch(MessageText(m), PATTERNS) == Some(Hit(1, 0, "@FooBot"))
  {
    assert MessageText(m) == RUSSIAN_EXAMPLE;
    RussianFirstMatch();
  }

  /**
   * End to end, in a group with an open window and an empty allow-list: the
   * pipeline as written lets the Russian relay through, the corrected list
   * deletes it.
   */
  lemma RussianRelayPipeline(m: Message, cfg: ChatConfig, admin: bool, now: int)
    requires RussianRelay(m) && m.kind != Private && !(m.sender.Some? && admin)
    requires ShouldDeleteAt(cfg.timeRange, now) && cfg.whitelist == []
    ensures Judge(cfg, m, admin, now, AS_WRITTEN_PATTERNS) == SkipNotInline
    ensures Judge(cfg, m, admin, now, PATTERNS) == Delete
  {
    RussianPhraseMissedAsWritten(m);
    RussianPhraseRecognised(m);
  }

  /** A pattern with a gap and a seven-letter keyword matches at index 0 of a text laid out like the Russian example, capturing from index 10. */
  lemma GapMatchAtStart(t: string, p: Pattern)
    requires p.gap && |p.rest| == 7 && |t| >= 10 && t[0] == p.upper
    requires SpaceRun(t, 1) == 1 && LettersAt(t, 2, p.rest) && SpaceRun(t, 9) == 1
    ensures MatchAt(t, 0, p) == HandleAt(t, 10)
  {
    KeywordMatch(t, 0, p, 1, 9, 1);
  }
}
