/** The chat client of script.js: the markdown cleanup applied to replies, and
    the `AssistantEmotionnel` object's state (send guards, the rate gate, the
    capped conversation history, the chat log, the theme). */
module Client {
  import opened Wrappers
  import opened JsString

  // ---------------------------------------------------------------------------
  // cleanMarkdown

  /** `**` starts at position `i` of `s`. */
  predicate DoubleStarAt(s: string, i: int)
  {
    0 <= i < |s| - 1 && s[i] == '*' && s[i + 1] == '*'
  }

  predicate NoDoubleStar(s: string)
  {
    forall i :: 0 <= i < |s| ==> !DoubleStarAt(s, i)
  }

  /** Three newlines start at position `i` of `s`. */
  predicate TripleNewlineAt(s: string, i: int)
  {
    0 <= i < |s| - 2 && s[i] == '\n' && s[i + 1] == '\n' && s[i + 2] == '\n'
  }

  predicate NoTripleNewline(s: string)
  {
    forall i :: 0 <= i < |s| ==> !TripleNewlineAt(s, i)
  }

  /** `k` copies of `c`. */
  function Repeat(c: char, k: nat): (r: string)
    ensures |r| == k && forall i :: 0 <= i < k ==> r[i] == c
  {
    if k == 0 then [] else [c] + Repeat(c, k - 1)
  }

  /** The number of leading `#` characters of `s`, at most `limit`. */
  function CountHashes(s: string, limit: nat): (k: nat)
    ensures k <= limit && k <= |s|
    ensures forall i :: 0 <= i < k ==> s[i] == '#'
    ensures k < limit && k < |s| ==> s[k] != '#'
  {
    if limit == 0 || s == [] || s[0] != '#' then 0
    else 1 + CountHashes(s[1..], limit - 1)
  }

  /** The global replace of `#{1,6}\s?` by nothing: scanning left to right, each
      run of one to six `#` is dropped together with one white-space character
      that follows it. */
  function StripHeadings(s: string): (r: string)
    ensures '#' !in r
    ensures '#' !in s ==> r == s
    decreases |s|
  {
    if s == [] then []
    else if s[0] == '#' then
      var rest := s[CountHashes(s, 6)..];
      if rest != [] && IsWhitespace(rest[0]) then StripHeadings(rest[1..]) else StripHeadings(rest)
    else [s[0]] + StripHeadings(s[1..])
  }

  /** A run of one to six `#` (the whole run, or six of a longer one) goes
      together with the one white-space character right after it, if there
      is one; nothing else is removed there. */
  lemma {:induction false} HeadingRun(k: nat, rest: string)
    requires 1 <= k <= 6
    requires k == 6 || rest == [] || rest[0] != '#'
    ensures StripHeadings(Repeat('#', k) + rest)
         == if rest != [] && IsWhitespace(rest[0]) then StripHeadings(rest[1..]) else StripHeadings(rest)
  {
    var s := Repeat('#', k) + rest;
    var n := CountHashes(s, 6);
    assert forall i :: 0 <= i < k ==> s[i] == '#';
    assert k < |s| ==> s[k] == rest[0];
    assert n == k;
    assert s[k..] == rest;
  }

  /** Any character other than `#` is kept, and stripping goes on after it. */
  lemma StripHeadingsOther(c: char, rest: string)
    requires c != '#'
    ensures StripHeadings([c] + rest) == [c] + StripHeadings(rest)
  {
    assert ([c] + rest)[1..] == rest;
  }

  /** A slice keeps the absence of `**` and of three newlines. */
  lemma {:induction false} SliceKeeps(s: string, a: nat, b: nat)
    requires a <= b <= |s|
    ensures NoDoubleStar(s) ==> NoDoubleStar(s[a..b])
    ensures NoTripleNewline(s) ==> NoTripleNewline(s[a..b])
  {
    var t := s[a..b];
    if NoDoubleStar(s) {
      forall i | 0 <= i < |t| ensures !DoubleStarAt(t, i) {
        assert !DoubleStarAt(s, a + i);
      }
    }
    if NoTripleNewline(s) {
      forall i | 0 <= i < |t| ensures !TripleNewlineAt(t, i) {
        assert !TripleNewlineAt(s, a + i);
      }
    }
  }

  /** The same, for a text known to be a slice. */
  lemma {:induction false} SliceOfKeeps(s: string, t: string, a: nat)
    requires a + |t| <= |s| && t == s[a..a + |t|]
    ensures '#' !in s ==> '#' !in t
    ensures NoDoubleStar(s) ==> NoDoubleStar(t)
    ensures NoTripleNewline(s) ==> NoTripleNewline(t)
  {
    SliceKeeps(s, a, a + |t|);
  }

  /** The same for a suffix. */
  lemma {:induction false} SuffixKeeps(s: string, a: nat)
    requires a <= |s|
    ensures NoDoubleStar(s) ==> NoDoubleStar(s[a..])
    ensures NoTripleNewline(s) ==> NoTripleNewline(s[a..])
  {
    SliceKeeps(s, a, |s|);
    assert s[a..|s|] == s[a..];
  }

  /** Two texts without `**` joined where at most one side of the seam is a star. */
  lemma {:induction false} DoubleStarAppend(a: string, b: string)
    requires NoDoubleStar(a) && NoDoubleStar(b)
    requires a != [] && b != [] ==> !(a[|a| - 1] == '*' && b[0] == '*')
    ensures NoDoubleStar(a + b)
  {
    var u := a + b;
    forall i | 0 <= i < |u| ensures !DoubleStarAt(u, i) {
      if i >= |a| {
        assert !DoubleStarAt(b, i - |a|);
      } else if i < |a| - 1 {
        assert !DoubleStarAt(a, i);
      }
    }
  }

  /** At most two newlines followed by text that does not start with a newline. */
  lemma {:induction false} TripleNewlineAppend(run: string, b: string)
    requires |run| <= 2 && forall i :: 0 <= i < |run| ==> run[i] == '\n'
    requires NoTripleNewline(b)
    requires b != [] ==> b[0] != '\n'
    ensures NoTripleNewline(run + b)
  {
    var u := run + b;
    forall i | 0 <= i < |u| ensures !TripleNewlineAt(u, i) {
      if i >= |run| {
        assert !TripleNewlineAt(b, i - |run|);
      }
    }
  }

  /** The global replace of `\*\*` by nothing: pairs of stars are removed left to right. */
  function StripBold(s: string): (r: string)
    ensures NoDoubleStar(r)
    ensures NoDoubleStar(s) ==> r == s
    ensures '#' !in s ==> '#' !in r
    ensures s != [] && !DoubleStarAt(s, 0) ==> r != [] && r[0] == s[0]
  {
    if s == [] then []
    else if DoubleStarAt(s, 0) then
      var r := StripBold(s[2..]);
      assert '#' !in s ==> '#' !in s[2..];
      r
    else
      var r := StripBold(s[1..]);
      assert '#' !in s ==> '#' !in s[1..];
      SuffixKeeps(s, 1);
      assert |s| > 1 && s[0] == '*' ==> !DoubleStarAt(s[1..], 0);
      DoubleStarAppend([s[0]], r);
      [s[0]] + r
  }

  lemma RepeatTwo(c: char, k: nat)
    requires k >= 2
    ensures Repeat(c, k) == [c, c] + Repeat(c, k - 2)
  {
    assert Repeat(c, k - 1) == [c] + Repeat(c, k - 2);
  }

  /** A pair of stars at the front is removed. */
  lemma StripBoldPair(x: string)
    ensures StripBold("**" + x) == StripBold(x)
  {
    var s := "**" + x;
    assert DoubleStarAt(s, 0);
    assert s[2..] == x;
  }

  /** A single star at the front is kept. */
  lemma StripBoldSingle(rest: string)
    requires rest == [] || rest[0] != '*'
    ensures StripBold("*" + rest) == "*" + StripBold(rest)
  {
    var s := "*" + rest;
    assert !DoubleStarAt(s, 0);
    assert s[1..] == rest;
  }

  /** A run of `k` stars keeps `k % 2` of them: the stars go in pairs. */
  lemma {:induction false} StarRun(k: nat, rest: string)
    requires rest == [] || rest[0] != '*'
    ensures StripBold(Repeat('*', k) + rest) == Repeat('*', k % 2) + StripBold(rest)
    decreases k
  {
    if k == 0 {
      assert Repeat('*', k) + rest == rest;
    } else if k == 1 {
      assert Repeat('*', k) == "*";
      StripBoldSingle(rest);
    } else {
      var shorter := Repeat('*', k - 2) + rest;
      RepeatTwo('*', k);
      assert Repeat('*', k) + rest == "**" + shorter;
      StripBoldPair(shorter);
      assert StripBold(Repeat('*', k) + rest) == StripBold(shorter);
      assert (k - 2) % 2 == k % 2;
      StarRun(k - 2, rest);
    }
  }

  /** Any character other than a star is kept, and stripping goes on after it. */
  lemma StripBoldOther(c: char, rest: string)
    requires c != '*'
    ensures StripBold([c] + rest) == [c] + StripBold(rest)
  {
    assert ([c] + rest)[1..] == rest;
  }

  /** The number of leading newlines of `s`. */
  function NewlineRun(s: string): (k: nat)
    ensures k <= |s|
    ensures forall i :: 0 <= i < k ==> s[i] == '\n'
    ensures k < |s| ==> s[k] != '\n'
  {
    if s == [] || s[0] != '\n' then 0 else 1 + NewlineRun(s[1..])
  }

  /** The global replace of `\n{3,}` by two newlines: every run of three or
      more newlines becomes exactly two. It keeps the first character. */
  function CollapseNewlines(s: string): (r: string)
    ensures s != [] ==> r != [] && r[0] == s[0]
    ensures |r| <= |s|
    decreases |s|
  {
    if s == [] then []
    else if s[0] != '\n' then [s[0]] + CollapseNewlines(s[1..])
    else
      var k := NewlineRun(s);
      (if k >= 3 then "\n\n" else s[..k]) + CollapseNewlines(s[k..])
  }

  /** A run of three or more newlines becomes exactly two; a shorter run stays. */
  lemma {:induction false} CollapseRun(k: nat, rest: string)
    requires rest == [] || rest[0] != '\n'
    ensures CollapseNewlines(Repeat('\n', k) + rest)
         == (if k >= 3 then "\n\n" else Repeat('\n', k)) + CollapseNewlines(rest)
  {
    var s := Repeat('\n', k) + rest;
    if k == 0 {
      assert s == rest;
    } else {
      var n := NewlineRun(s);
      assert forall i :: 0 <= i < k ==> s[i] == '\n';
      assert k < |s| ==> s[k] == rest[0];
      assert n == k;
      assert s[..k] == Repeat('\n', k);
      assert s[k..] == rest;
    }
  }

  /** Any character other than a newline is kept, and collapsing goes on after it. */
  lemma CollapseOther(c: char, rest: string)
    requires c != '\n'
    ensures CollapseNewlines([c] + rest) == [c] + CollapseNewlines(rest)
  {
    assert ([c] + rest)[1..] == rest;
  }

  /** No run of three newlines is left. */
  lemma {:induction false} CollapseNoTriple(s: string)
    ensures NoTripleNewline(CollapseNewlines(s))
    decreases |s|
  {
    if s == [] {
    } else if s[0] != '\n' {
      CollapseNoTriple(s[1..]);
      TripleNewlineAppend([], [s[0]]);
      var rest := CollapseNewlines(s[1..]);
      var u := [s[0]] + rest;
      forall i | 0 <= i < |u| ensures !TripleNewlineAt(u, i) {
        if i > 0 {
          assert !TripleNewlineAt(rest, i - 1);
        }
      }
    } else {
      var k := NewlineRun(s);
      CollapseNoTriple(s[k..]);
      TripleNewlineAppend(if k >= 3 then "\n\n" else s[..k], CollapseNewlines(s[k..]));
    }
  }

  /** Text without a run of three newlines is left as it is. */
  lemma {:induction false} CollapseFixes(s: string)
    requires NoTripleNewline(s)
    ensures CollapseNewlines(s) == s
    decreases |s|
  {
    if s == [] {
    } else if s[0] != '\n' {
      SuffixKeeps(s, 1);
      CollapseFixes(s[1..]);
      assert s == [s[0]] + s[1..];
    } else {
      var k := NewlineRun(s);
      assert !TripleNewlineAt(s, 0);
      SuffixKeeps(s, k);
      CollapseFixes(s[k..]);
      assert s == s[..k] + s[k..];
    }
  }

  /** Collapsing newlines neither adds a `#` nor joins two stars. */
  lemma {:induction false} CollapseKeeps(s: string)
    ensures '#' !in s ==> '#' !in CollapseNewlines(s)
    ensures NoDoubleStar(s) ==> NoDoubleStar(CollapseNewlines(s))
    decreases |s|
  {
    if s == [] {
    } else if s[0] != '\n' {
      CollapseKeeps(s[1..]);
      assert '#' !in s ==> '#' !in s[1..];
      SuffixKeeps(s, 1);
      if NoDoubleStar(s) {
        assert !DoubleStarAt(s, 0);
        DoubleStarAppend([s[0]], CollapseNewlines(s[1..]));
      }
    } else {
      var k := NewlineRun(s);
      var run := if k >= 3 then "\n\n" else s[..k];
      CollapseKeeps(s[k..]);
      assert '#' !in s ==> '#' !in s[k..];
      assert '#' !in run;
      SuffixKeeps(s, k);
      if NoDoubleStar(s) {
        assert NoDoubleStar(run) by {
          forall i | 0 <= i < |run| ensures !DoubleStarAt(run, i) {
            assert run[i] == '\n';
          }
        }
        DoubleStarAppend(run, CollapseNewlines(s[k..]));
      }
    }
  }

  /** Trimming keeps the absence of `**` and of three newlines. */
  lemma {:induction false} TrimKeeps(s: string)
    ensures '#' !in s ==> '#' !in Trim(s)
    ensures NoDoubleStar(s) ==> NoDoubleStar(Trim(s))
    ensures NoTripleNewline(s) ==> NoTripleNewline(Trim(s))
  {
    var a :| CutAt(s, Trim(s), a);
    SliceOfKeeps(s, Trim(s), a);
  }

  predicate IsStar(c: char) { c == '*' }

  predicate IsNewline(c: char) { c == '\n' }

  /** What a heading marker removes: `#` and white space. */
  predicate IsHeadingMark(c: char) { c == '#' || IsWhitespace(c) }

  /** Every character some step of `cleanMarkdown` may remove. */
  predicate IsMarkup(c: char) { c == '#' || c == '*' || IsWhitespace(c) }

  /** Stripping headings removes only `#` and white space: every other character
      stays, in order. */
  lemma {:induction false} StripHeadingsKeeps(s: string)
    ensures Keep(StripHeadings(s), IsHeadingMark) == Keep(s, IsHeadingMark)
    decreases |s|
  {
    if s == [] {
    } else if s[0] == '#' {
      var k := CountHashes(s, 6);
      var rest := s[k..];
      assert s == s[..k] + rest;
      KeepAppend(s[..k], rest, IsHeadingMark);
      KeepDropsAll(s[..k], IsHeadingMark);
      if rest != [] && IsWhitespace(rest[0]) {
        StripHeadingsKeeps(rest[1..]);
        KeepCons(rest[0], rest[1..], IsHeadingMark);
        assert rest == [rest[0]] + rest[1..];
      } else {
        StripHeadingsKeeps(rest);
      }
    } else {
      StripHeadingsKeeps(s[1..]);
      KeepCons(s[0], StripHeadings(s[1..]), IsHeadingMark);
    }
  }

  /** Stripping bold markers removes only stars. */
  lemma {:induction false} StripBoldKeeps(s: string)
    ensures Keep(StripBold(s), IsStar) == Keep(s, IsStar)
  {
    if s == [] {
    } else if DoubleStarAt(s, 0) {
      StripBoldKeeps(s[2..]);
      KeepCons(s[1], s[2..], IsStar);
      assert s[1..] == [s[1]] + s[2..];
    } else {
      StripBoldKeeps(s[1..]);
      KeepCons(s[0], StripBold(s[1..]), IsStar);
    }
  }

  /** Collapsing blank-line runs removes only newlines. */
  lemma {:induction false} CollapseNewlinesKeeps(s: string)
    ensures Keep(CollapseNewlines(s), IsNewline) == Keep(s, IsNewline)
    decreases |s|
  {
    if s == [] {
    } else if s[0] != '\n' {
      CollapseNewlinesKeeps(s[1..]);
      KeepCons(s[0], CollapseNewlines(s[1..]), IsNewline);
    } else {
      var k := NewlineRun(s);
      var run: string := if k >= 3 then "\n\n" else s[..k];
      CollapseNewlinesKeeps(s[k..]);
      assert s == s[..k] + s[k..];
      KeepAppend(s[..k], s[k..], IsNewline);
      KeepAppend(run, CollapseNewlines(s[k..]), IsNewline);
      KeepDropsAll(s[..k], IsNewline);
      KeepDropsAll(run, IsNewline);
    }
  }

  /** No `#`, no `**`, no run of three newlines, and no white space at either end. */
  predicate IsClean(s: string)
  {
    '#' !in s && NoDoubleStar(s) && NoTripleNewline(s) && IsTrimmed(s)
  }

  /** `cleanMarkdown`: headings, then bold markers, then blank-line runs, then
      `trim()`. The result is clean, and apart from `#`, `*` and white space it
      holds exactly the characters of `text`, in order. */
  function CleanMarkdown(text: string): (r: string)
    ensures IsClean(r)
    ensures Keep(r, IsMarkup) == Keep(text, IsMarkup)
  {
    var headings := StripHeadings(text);
    var bold := StripBold(headings);
    var collapsed := CollapseNewlines(bold);
    CollapseKeeps(bold);
    CollapseNoTriple(bold);
    TrimKeeps(collapsed);
    StripHeadingsKeeps(text);
    KeepWiden(headings, text, IsHeadingMark, IsMarkup);
    StripBoldKeeps(headings);
    KeepWiden(bold, headings, IsStar, IsMarkup);
    CollapseNewlinesKeeps(bold);
    KeepWiden(collapsed, bold, IsNewline, IsMarkup);
    TrimKeepsText(collapsed, IsMarkup);
    Trim(collapsed)
  }

  /** Cleaning what is already clean changes nothing. */
  lemma CleanMarkdownIdempotent(text: string)
    ensures CleanMarkdown(CleanMarkdown(text)) == CleanMarkdown(text)
  {
    var r := CleanMarkdown(text);
    CollapseFixes(r);
    TrimFixesTrimmed(r);
  }

  /** A reply without markup is only trimmed: its inner white space stays. */
  lemma CleanMarkdownOnPlain(t: string)
    requires '#' !in t && NoDoubleStar(t) && NoTripleNewline(t)
    ensures CleanMarkdown(t) == Trim(t)
  {
    CollapseFixes(t);
  }

  // ---------------------------------------------------------------------------
  // updateCharCount

  datatype CountColour = Muted | Warning | Danger

  /** The colour `updateCharCount` gives the counter, branches in the order
      written: the `> 900` test comes after the `> 800` test. */
  function CharCountColour(count: nat): (c: CountColour)
    ensures c == Warning <==> count > 800
    ensures c == Muted <==> count <= 800
    ensures c != Danger
  {
    if count > 800 then Warning
    else if count > 900 then Danger
    else Muted
  }

  /** The danger colour is never chosen: 950 characters still get the warning colour. */
  lemma DangerUnreachable()
    ensures CharCountColour(950) == Warning
    ensures forall count: nat :: CharCountColour(count) != Danger
  {
  }

  /** The evidently intended thresholds: danger above 900, warning above 800. */
  function IntendedCharCountColour(count: nat): (c: CountColour)
    ensures c == Danger <==> count > 900
    ensures c == Warning <==> 800 < count <= 900
    ensures c == Muted <==> count <= 800
  {
    if count > 900 then Danger
    else if count > 800 then Warning
    else Muted
  }

  // ---------------------------------------------------------------------------
  // The assistant's state

  /** One saved exchange of `conversationHistory`. */
  datatype Conversation = Conversation(userMessage: string, botMessage: string, timestamp: int)

  /** One rendered message of the chat panel. */
  datatype ChatLine = ChatLine(text: string, isUser: bool)

  /** How a call of `handleUserInput` ended. */
  datatype InputOutcome =
    | Ignored      // blank input
    | RateLimited  // the warning notification
    | TooLong      // the error notification
    | Answered     // reply shown and saved
    | Apologised   // reply failed: the apology is shown

  const RateLimitDelay: int := 1000
  const MaxHistory: nat := 50
  const ApologyText: string := "D\U{E9}sol\U{E9}, une erreur s'est produite. Veuillez r\U{E9}essayer."

  /** The history after `saveConversation`: `unshift`, then keep the first 50. */
  function Saved(history: seq<Conversation>, c: Conversation): (r: seq<Conversation>)
    ensures |r| == Min(|history| + 1, MaxHistory)
    ensures r[0] == c
    ensures forall i :: 0 <= i < |r| - 1 ==> r[i + 1] == history[i]
  {
    var unshifted := [c] + history;
    if |unshifted| > MaxHistory then unshifted[..MaxHistory] else unshifted
  }

  /** The theme after `toggleTheme`. */
  function Toggled(theme: string): (r: string)
    ensures r == "dark" <==> theme == "light"
    ensures r == "light" <==> theme != "light"
  {
    if theme == "light" then "dark" else "light"
  }

  /** Toggling twice returns to a light or dark theme; any other theme ends dark. */
  lemma ToggleTwice(theme: string)
    ensures theme == "light" || theme == "dark" ==> Toggled(Toggled(theme)) == theme
    ensures theme != "light" && theme != "dark" ==> Toggled(Toggled(theme)) == "dark"
  {
  }

  /** The first assistant message of the chat panel (the welcome message). */
  function FirstBotLine(lines: seq<ChatLine>): (r: Option<ChatLine>)
    ensures r.None? <==> forall i :: 0 <= i < |lines| ==> lines[i].isUser
    ensures r.Some? ==>
      exists i :: 0 <= i < |lines| && lines[i] == r.value && !r.value.isUser
                  && forall j :: 0 <= j < i ==> lines[j].isUser
  {
    if lines == [] then None
    else if !lines[0].isUser then Some(lines[0])
    else
      var r := FirstBotLine(lines[1..]);
      assert forall j :: 1 <= j < |lines| ==> lines[j] == lines[1..][j - 1];
      r
  }

  /** What `generateResponse` resolves to: the cleaned reply text, or `None`
      when it throws. */
  function GeneratedReply(reply: Option<string>): (r: Option<string>)
    ensures r.Some? <==> reply.Some?
    ensures r.Some? ==> r.value == CleanMarkdown(reply.value)
    ensures r.Some? ==> IsClean(r.value) && Keep(r.value, IsMarkup) == Keep(reply.value, IsMarkup)
  {
    match reply
    case Some(raw) => Some(CleanMarkdown(raw))
    case None => None
  }

  /** The `AssistantEmotionnel` object, restricted to the state this model keeps:
      the persisted history, the theme, the rate gate and the rendered messages. */
  class Assistant {
    var conversationHistory: seq<Conversation>
    var currentTheme: string
    var lastMessageTime: int
    var chatMessages: seq<ChatLine>
    const rateLimitDelay: int
    const maxMessageLength: nat

    ghost predicate Valid()
      reads this
    {
      |conversationHistory| <= MaxHistory && rateLimitDelay == RateLimitDelay
    }

    /** The state the constructor sets up; `welcome` is the page's welcome message. */
    constructor (maxMessageLength: nat, welcome: string)
      ensures Valid()
      ensures conversationHistory == [] && currentTheme == "light" && lastMessageTime == 0
      ensures chatMessages == [ChatLine(welcome, false)]
      ensures this.maxMessageLength == maxMessageLength
    {
      conversationHistory := [];
      currentTheme := "light";
      lastMessageTime := 0;
      chatMessages := [ChatLine(welcome, false)];
      rateLimitDelay := RateLimitDelay;
      this.maxMessageLength := maxMessageLength;
    }

    /** `saveConversation`: the new exchange first, at most 50 kept. */
    method SaveConversation(userMessage: string, botMessage: string, timestamp: int)
      modifies this`conversationHistory
      ensures conversationHistory == Saved(old(conversationHistory), Conversation(userMessage, botMessage, timestamp))
      ensures |conversationHistory| <= MaxHistory
    {
      conversationHistory := [Conversation(userMessage, botMessage, timestamp)] + conversationHistory;
      if |conversationHistory| > MaxHistory {
        conversationHistory := conversationHistory[..MaxHistory];
      }
    }

    /** `handleUserInput` with the input box holding `value` at time `now`.
        `reply` is the raw text of the generation service, or `None` when that
        call fails; `savedAt` is the clock when the exchange is saved. Blank
        input is ignored; anything else goes through `SendMessage` with the
        reply as `generateResponse` hands it back, cleaned of markdown. */
    method HandleUserInput(value: string, now: int, reply: Option<string>, savedAt: int)
      returns (outcome: InputOutcome)
      requires Valid()
      modifies this
      ensures Valid()
      ensures Trim(value) == [] <==> outcome == Ignored
      ensures outcome == Ignored ==>
        && lastMessageTime == old(lastMessageTime)
        && chatMessages == old(chatMessages)
        && conversationHistory == old(conversationHistory)
      ensures outcome != Ignored ==> SentAs(Trim(value), now, GeneratedReply(reply), savedAt, outcome)
      ensures outcome == Answered ==>
        |chatMessages| >= 2 && IsClean(chatMessages[|chatMessages| - 1].text)
      ensures currentTheme == old(currentTheme)
    {
      var userMessage := Trim(value);
      if userMessage == [] {
        return Ignored;
      }
      var botMessage := GeneratedReply(reply);
      outcome := SendMessage(userMessage, now, botMessage, savedAt);
    }

    /** What `SendMessage(message, now, botMessage, savedAt)` does, as a relation
        between the state before and after it and its outcome. */
    twostate predicate SentAs(message: string, now: int, botMessage: Option<string>, savedAt: int,
                              outcome: InputOutcome)
      reads this
    {
      && outcome == (if now - old(lastMessageTime) < rateLimitDelay then RateLimited
                     else if |message| > maxMessageLength then TooLong
                     else if botMessage.Some? then Answered
                     else Apologised)
      && (outcome == RateLimited || outcome == TooLong ==>
            && lastMessageTime == old(lastMessageTime)
            && chatMessages == old(chatMessages)
            && conversationHistory == old(conversationHistory))
      && (outcome == Answered || outcome == Apologised ==>
            && lastMessageTime == now
            && now - old(lastMessageTime) >= RateLimitDelay
            && |message| <= maxMessageLength)
      && (outcome == Answered ==>
            var bot := botMessage.value;
            && chatMessages == old(chatMessages) + [ChatLine(message, true), ChatLine(bot, false)]
            && conversationHistory == Saved(old(conversationHistory), Conversation(message, bot, savedAt)))
      && (outcome == Apologised ==>
            && chatMessages == old(chatMessages) + [ChatLine(message, true), ChatLine(ApologyText, false)]
            && conversationHistory == old(conversationHistory))
    }

    /** The rest of `handleUserInput` for a non-blank trimmed message: the rate
        gate, the length check, then the reply (`botMessage`, or `None` when
        `generateResponse` throws) or the apology. */
    method SendMessage(message: string, now: int, botMessage: Option<string>, savedAt: int)
      returns (outcome: InputOutcome)
      requires Valid()
      modifies this
      ensures Valid()
      ensures SentAs(message, now, botMessage, savedAt, outcome)
      ensures currentTheme == old(currentTheme)
    {
      if now - lastMessageTime < rateLimitDelay {
        return RateLimited;
      }
      if |message| > maxMessageLength {
        return TooLong;
      }
      lastMessageTime := now;
      var shown := chatMessages + [ChatLine(message, true)];
      match botMessage {
        case Some(bot) =>
          chatMessages := shown + [ChatLine(bot, false)];
          SaveConversation(message, bot, savedAt);
          outcome := Answered;
        case None =>
          chatMessages := shown + [ChatLine(ApologyText, false)];
          outcome := Apologised;
      }
    }

    /** `clearChat`; `confirmed` is the user's answer to the confirmation dialog.
        The panel keeps only its first assistant message; when it has none, the
        call throws after emptying the panel and the history stays. */
    method ClearChat(confirmed: bool) returns (cleared: bool)
      requires Valid()
      modifies this`chatMessages, this`conversationHistory
      ensures Valid()
      ensures cleared <==> confirmed && FirstBotLine(old(chatMessages)).Some?
      ensures !confirmed ==> chatMessages == old(chatMessages)
      ensures confirmed ==> chatMessages == match FirstBotLine(old(chatMessages))
                                          case Some(welcome) => [welcome]
                                          case None => []
      ensures conversationHistory == if cleared then [] else old(conversationHistory)
    {
      cleared := false;
      if confirmed {
        var welcome := FirstBotLine(chatMessages);
        match welcome {
          case Some(line) =>
            chatMessages := [line];
            conversationHistory := [];
            cleared := true;
          case None =>
            chatMessages := [];
        }
      }
    }

    /** `toggleTheme`. */
    method ToggleTheme()
      modifies this`currentTheme
      ensures currentTheme == Toggled(old(currentTheme))
    {
      currentTheme := Toggled(currentTheme);
    }
  }
}
