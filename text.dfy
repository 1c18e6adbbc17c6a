/**
 * The parts of Python's string built-ins the bot relies on: `str.strip`,
 * `str.split()`, `str.split(sep)`, `str.lower`, `int(...)`, and the `\s` and
 * `\w` character classes of its regular expressions.
 */
module Text {
  import opened Wrappers

  /** Whitespace as `str.isspace`, `str.split()` and the regex class `\s` see it (ASCII controls and no-break space). */
  predicate IsSpace(c: char) {
    c == ' ' || c == '\t' || c == '\n' || c == '\r' || c == '\U{0B}' || c == '\U{0C}' || c == '\U{A0}'
  }

  /**
   * Word characters as the regex class `\w` sees them: letters, digits and
   * `_`, ASCII and the Cyrillic block without its sign and combining marks
   * U+0482 to U+0489.
   */
  predicate IsWord(c: char) {
    ('a' <= c <= 'z') || ('A' <= c <= 'Z') || ('0' <= c <= '9') || c == '_'
    || ('\U{0400}' <= c <= '\U{0481}') || ('\U{048A}' <= c <= '\U{04FF}')
  }

  lemma SpaceIsNotWord(c: char)
    ensures IsSpace(c) ==> !IsWord(c)
  {
  }

  /** `str.lower` on one character: ASCII and Cyrillic capitals. */
  function ToLower(c: char): char {
    if 'A' <= c <= 'Z' then (c as int + 32) as char
    else if '\U{0410}' <= c <= '\U{042F}' then (c as int + 32) as char
    else if '\U{0400}' <= c <= '\U{040F}' then (c as int + 80) as char
    else c
  }

  function Lower(s: string): (r: string)
    ensures |r| == |s|
  {
    seq(|s|, i requires 0 <= i < |s| => ToLower(s[i]))
  }

  // ---------------------------------------------------------------- strip

  function TrimStart(s: string): (r: string)
    ensures |r| <= |s|
    ensures r == [] || !IsSpace(r[0])
  {
    if s != [] && IsSpace(s[0]) then TrimStart(s[1..]) else s
  }

  /** What `TrimStart` keeps is a suffix of its input, and what it drops is blank. */
  lemma {:induction false} TrimStartSuffix(s: string)
    ensures TrimStart(s) == s[|s| - |TrimStart(s)|..]
    ensures forall k :: 0 <= k < |s| - |TrimStart(s)| ==> IsSpace(s[k])
  {
    if s != [] && IsSpace(s[0]) {
      TrimStartSuffix(s[1..]);
    }
  }

  function TrimEnd(s: string): (r: string)
    ensures |r| <= |s| && r == s[..|r|]
    ensures forall k :: |r| <= k < |s| ==> IsSpace(s[k])
    ensures r == [] || !IsSpace(r[|r| - 1])
  {
    if s != [] && IsSpace(s[|s| - 1]) then TrimEnd(s[..|s| - 1]) else s
  }

  /**
   * `str.strip()`: the slice of `s` left when the leading and trailing
   * whitespace is dropped; it starts and ends with a non-blank, so it is
   * empty exactly for all-blank input.
   */
  function Strip(s: string): (r: string)
    ensures r == [] || (!IsSpace(r[0]) && !IsSpace(r[|r| - 1]))
  {
    TrimEnd(TrimStart(s))
  }

  /** The stripped text is the slice `s[i..i + |Strip(s)|]` where `i` counts the leading blanks; everything outside it is blank. */
  lemma StripSlice(s: string)
    ensures var i := |s| - |TrimStart(s)|;
      i + |Strip(s)| <= |s| && Strip(s) == s[i..i + |Strip(s)|]
      && (forall k :: 0 <= k < i ==> IsSpace(s[k]))
      && (forall k :: i + |Strip(s)| <= k < |s| ==> IsSpace(s[k]))
  {
    TrimStartSuffix(s);
  }

  lemma StripKeeps(s: string)
    requires s != [] && !IsSpace(s[0]) && !IsSpace(s[|s| - 1])
    ensures Strip(s) == s
  {
    assert TrimStart(s) == s;
    assert TrimEnd(s) == s;
  }

  // ---------------------------------------------------------------- split()

  /** Length of the leading run of non-whitespace characters. */
  function RunLen(s: string): (n: nat)
    ensures n <= |s|
    ensures forall k :: 0 <= k < n ==> !IsSpace(s[k])
    ensures n < |s| ==> IsSpace(s[n])
  {
    if s == [] || IsSpace(s[0]) then 0 else 1 + RunLen(s[1..])
  }

  /** `str.split()` with no separator: the maximal runs of non-whitespace, in order. */
  function Words(s: string): seq<string>
    decreases |s|
  {
    if s == [] then []
    else if IsSpace(s[0]) then Words(s[1..])
    else var n := RunLen(s); [s[..n]] + Words(s[n..])
  }

  /** Every token is non-empty and holds no whitespace. */
  lemma {:induction false} WordsAreTokens(s: string)
    ensures forall k :: 0 <= k < |Words(s)| ==> Words(s)[k] != [] && forall j :: 0 <= j < |Words(s)[k]| ==> !IsSpace(Words(s)[k][j])
    decreases |s|
  {
    if s != [] {
      if IsSpace(s[0]) {
        WordsAreTokens(s[1..]);
      } else {
        WordsAreTokens(s[RunLen(s)..]);
      }
    }
  }

  /**
   * `str.split(sep)`: the pieces between occurrences of `sep`, always one
   * more than there are separators; joined back with `sep` they give `s`.
   */
  function Split(s: string, sep: char): (parts: seq<string>)
    ensures |parts| >= 1
    ensures sep !in s ==> parts == [s]
    decreases |s|
  {
    if sep in s then
      var i := IndexOf(s, sep);
      [s[..i]] + Split(s[i + 1..], sep)
    else [s]
  }

  /** Joined back with the separator, the pieces give the input. */
  lemma {:induction false} SplitJoin(s: string, sep: char)
    ensures Join(Split(s, sep), sep) == s
    decreases |s|
  {
    if sep in s {
      var i := IndexOf(s, sep);
      var rest := Split(s[i + 1..], sep);
      SplitJoin(s[i + 1..], sep);
      assert ([s[..i]] + rest)[1..] == rest;
      assert s == s[..i] + [sep] + s[i + 1..];
    }
  }

  /** No piece holds the separator. */
  lemma {:induction false} SplitPiecesFree(s: string, sep: char)
    ensures forall k :: 0 <= k < |Split(s, sep)| ==> sep !in Split(s, sep)[k]
    decreases |s|
  {
    if sep in s {
      var i := IndexOf(s, sep);
      var rest := Split(s[i + 1..], sep);
      SplitPiecesFree(s[i + 1..], sep);
      assert Split(s, sep) == [s[..i]] + rest;
      forall k | 0 <= k < |Split(s, sep)|
        ensures sep !in Split(s, sep)[k]
      {
        if k > 0 {
          assert Split(s, sep)[k] == rest[k - 1];
        }
      }
    }
  }

  /** `sep.join(parts)`. */
  function Join(parts: seq<string>, sep: char): string {
    if parts == [] then []
    else if |parts| == 1 then parts[0]
    else parts[0] + [sep] + Join(parts[1..], sep)
  }

  function IndexOf(s: string, c: char): (i: nat)
    requires c in s
    ensures i < |s| && s[i] == c && c !in s[..i]
  {
    if s[0] == c then 0 else 1 + IndexOf(s[1..], c)
  }

  function Concat(xss: seq<seq<string>>): seq<string> {
    if xss == [] then [] else xss[0] + Concat(xss[1..])
  }

  function WordsOfEach(lines: seq<string>): (r: seq<seq<string>>)
    ensures |r| == |lines|
  {
    if lines == [] then [] else [Words(Strip(lines[0]))] + WordsOfEach(lines[1..])
  }

  /** Line by line, then by whitespace (`line.strip().split()` for each line of `s.split("\n")`). */
  function LineTokens(s: string): seq<string> {
    Concat(WordsOfEach(Split(s, '\n')))
  }

  lemma {:induction false} RunLenStopsAtSpace(a: string, c: char, b: string)
    requires IsSpace(c)
    ensures RunLen(a + [c] + b) == RunLen(a)
  {
    if a != [] && !IsSpace(a[0]) {
      assert (a + [c] + b)[1..] == a[1..] + [c] + b;
      RunLenStopsAtSpace(a[1..], c, b);
    }
  }

  /** Splitting on whitespace distributes over a whitespace character. */
  lemma {:induction false} WordsAroundSpace(a: string, c: char, b: string)
    requires IsSpace(c)
    ensures Words(a + [c] + b) == Words(a) + Words(b)
    decreases |a|
  {
    var s := a + [c] + b;
    if a == [] {
      assert s[1..] == b;
    } else if IsSpace(a[0]) {
      assert s[1..] == a[1..] + [c] + b;
      WordsAroundSpace(a[1..], c, b);
    } else {
      var n := RunLen(a);
      RunLenStopsAtSpace(a, c, b);
      assert s[..n] == a[..n];
      assert s[n..] == a[n..] + [c] + b;
      WordsAroundSpace(a[n..], c, b);
    }
  }

  lemma {:induction false} WordsOfStrip(s: string)
    ensures Words(Strip(s)) == Words(s)
  {
    var t := TrimStart(s);
    WordsOfTrimStart(s);
    WordsOfTrimEnd(t);
  }

  lemma {:induction false} WordsOfTrimStart(s: string)
    ensures Words(TrimStart(s)) == Words(s)
    decreases |s|
  {
    if s != [] && IsSpace(s[0]) {
      WordsOfTrimStart(s[1..]);
    }
  }

  lemma {:induction false} WordsOfTrimEnd(s: string)
    ensures Words(TrimEnd(s)) == Words(s)
    decreases |s|
  {
    if s != [] && IsSpace(s[|s| - 1]) {
      var p := s[..|s| - 1];
      WordsOfTrimEnd(p);
      assert s == p + [s[|s| - 1]] + [];
      WordsAroundSpace(p, s[|s| - 1], []);
    }
  }

  /** Tokenising line by line gives the same tokens, in the same order, as one whitespace split of the whole text. */
  lemma {:induction false} LineTokensAreWords(s: string)
    ensures LineTokens(s) == Words(s)
    decreases |s|
  {
    if '\n' in s {
      var i := IndexOf(s, '\n');
      LineTokensAreWords(s[i + 1..]);
      FirstLine(s, i);
    } else {
      OnlyLine(s);
    }
  }

  lemma OnlyLine(s: string)
    requires '\n' !in s
    ensures LineTokens(s) == Words(s)
  {
    WordsOfStrip(s);
    ConcatWordsOfEachCons(s, []);
  }

  /** The first line split off the front: its tokens, then those of the rest. */
  lemma FirstLine(s: string, i: nat)
    requires '\n' in s && i == IndexOf(s, '\n')
    requires LineTokens(s[i + 1..]) == Words(s[i + 1..])
    ensures LineTokens(s) == Words(s)
  {
    SplitFirst(s, i);
    AroundIndex(s, i);
    ConcatWordsOfEachCons(s[..i], Split(s[i + 1..], '\n'));
    WordsOfStrip(s[..i]);
    WordsAroundSpace(s[..i], '\n', s[i + 1..]);
  }

  lemma SplitFirst(s: string, i: nat)
    requires '\n' in s && i == IndexOf(s, '\n')
    ensures Split(s, '\n') == [s[..i]] + Split(s[i + 1..], '\n')
  {
  }

  lemma AroundIndex(s: string, i: nat)
    requires i < |s|
    ensures s == s[..i] + [s[i]] + s[i + 1..]
  {
  }

  lemma ConcatWordsOfEachCons(line: string, lines: seq<string>)
    ensures Concat(WordsOfEach([line] + lines)) == Words(Strip(line)) + Concat(WordsOfEach(lines))
  {
    assert ([line] + lines)[1..] == lines;
    var xss := WordsOfEach([line] + lines);
    assert xss == [Words(Strip(line))] + WordsOfEach(lines);
    assert xss[1..] == WordsOfEach(lines);
  }

  lemma {:induction false} BlankHasNoWords(s: string)
    requires forall k :: 0 <= k < |s| ==> IsSpace(s[k])
    ensures Words(s) == []
    decreases |s|
  {
    if s != [] {
      BlankHasNoWords(s[1..]);
    }
  }

  /** Text that is not blank after stripping holds at least one token. */
  lemma StrippedNonEmptyHasWords(s: string)
    requires Strip(s) != []
    ensures Words(s) != []
  {
    var t := Strip(s);
    WordsOfStrip(s);
    assert !IsSpace(t[0]);
  }

  // ---------------------------------------------------------------- int()

  predicate IsDigit(c: char) {
    '0' <= c <= '9'
  }

  predicate AllDigits(s: string) {
    forall k :: 0 <= k < |s| ==> IsDigit(s[k])
  }

  function DigitsValue(ds: string): nat
    requires AllDigits(ds)
  {
    if ds == [] then 0 else DigitsValue(ds[..|ds| - 1]) * 10 + (ds[|ds| - 1] as int - '0' as int)
  }

  /**
   * `int(s)`: surrounding whitespace, an optional sign and at least one ASCII
   * digit; anything else is the `ValueError` case.
   */
  function ParseInt(s: string): (r: Option<int>)
    ensures var t := Strip(s);
      r.Some? <==> (t != [] && AllDigits(t)) || (|t| >= 2 && (t[0] == '-' || t[0] == '+') && AllDigits(t[1..]))
    ensures var t := Strip(s); t != [] && AllDigits(t) ==> r == Some(DigitsValue(t))
    ensures var t := Strip(s); |t| >= 2 && t[0] == '+' && AllDigits(t[1..]) ==> r == Some(DigitsValue(t[1..]))
    ensures var t := Strip(s); |t| >= 2 && t[0] == '-' && AllDigits(t[1..]) ==> r == Some(-(DigitsValue(t[1..]) as int))
  {
    ParseSigned(Strip(s))
  }

  function ParseSigned(t: string): Option<int> {
    if t != [] && (t[0] == '-' || t[0] == '+') then
      var body := t[1..];
      if body != [] && AllDigits(body) then
        Some(if t[0] == '-' then -(DigitsValue(body) as int) else DigitsValue(body))
      else None
    else if t != [] && AllDigits(t) then Some(DigitsValue(t))
    else None
  }

  function Digit(d: nat): (c: char)
    requires d < 10
    ensures IsDigit(c)
  {
    ('0' as int + d) as char
  }

  /** Decimal rendering of a natural number, as `str(n)` gives it. */
  function Render(n: nat): (s: string)
    ensures s != [] && AllDigits(s)
  {
    if n < 10 then [Digit(n)] else Render(n / 10) + [Digit(n % 10)]
  }

  lemma {:induction false} RenderValue(n: nat)
    ensures DigitsValue(Render(n)) == n
  {
    if n >= 10 {
      var s := Render(n);
      assert s[..|s| - 1] == Render(n / 10);
      RenderValue(n / 10);
    }
  }

  lemma ParseDigits(s: string)
    requires s != [] && AllDigits(s)
    ensures ParseInt(s) == Some(DigitsValue(s))
    ensures ParseInt("-" + s) == Some(-(DigitsValue(s) as int))
  {
    StripKeeps(s);
    UnsignedDigits(s);
    StripKeeps("-" + s);
    NegatedDigits(s);
  }

  lemma UnsignedDigits(s: string)
    requires s != [] && AllDigits(s)
    ensures ParseSigned(s) == Some(DigitsValue(s))
  {
    assert !(s[0] == '-' || s[0] == '+');
  }

  lemma NegatedDigits(s: string)
    requires s != [] && AllDigits(s)
    ensures ParseSigned("-" + s) == Some(-(DigitsValue(s) as int))
  {
    assert ("-" + s)[1..] == s;
  }

  /** `int` reads back what `str` writes, for either sign. */
  lemma ParseIntRender(n: nat)
    ensures ParseInt(Render(n)) == Some(n)
    ensures ParseInt("-" + Render(n)) == Some(-(n as int))
  {
    RenderValue(n);
    ParseDigits(Render(n));
  }

  /** A number rendered with two digits, as `f"{n:02d}"` does for 0 <= n < 100. */
  function Pad2(n: nat): (s: string)
    requires n < 100
    ensures |s| == 2 && AllDigits(s)
  {
    [Digit(n / 10), Digit(n % 10)]
  }

  lemma Pad2Value(n: nat)
    requires n < 100
    ensures ParseInt(Pad2(n)) == Some(n)
  {
    var s := Pad2(n);
    StripKeeps(s);
    UnsignedDigits(s);
    TwoDigits(s);
  }

  lemma TwoDigits(s: string)
    requires |s| == 2 && AllDigits(s)
    ensures DigitsValue(s) == (s[0] as int - '0' as int) * 10 + (s[1] as int - '0' as int)
  {
    var a := s[..1];
    assert a == [s[0]];
    assert a[..0] == [];
    assert DigitsValue(a) == s[0] as int - '0' as int;
  }
}
