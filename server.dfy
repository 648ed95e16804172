/** The chat proxy of server.js: sanitising text, shaping the `/api/chat`
    request into a bounded window of turns, rendering the prompt, locating the
    JSON object in the model's reply and choosing the reply text and emotion.
    The call to the generation service and `JSON.parse` are parameters. */
module Server {
  import opened Wrappers
  import opened JsString

  /** A JavaScript value as far as this code inspects it: a string, or anything else. */
  datatype JsValue = Str(s: string) | NonString

  /** One element of `body.messages`. A `null`, a number or any other value
      without string fields is an entry whose fields are `NonString`. */
  datatype Entry = Entry(role: JsValue, text: JsValue)

  /** A turn of the conversation as the handler keeps it. */
  datatype Turn = Turn(role: string, text: string)

  /** What `JSON.parse` made of the candidate, seen through the two fields the
      handler reads: each is `Some` exactly when it is a string. */
  datatype Parsed = Parsed(text: Option<string>, emotion: Option<string>)

  /** The outcome of the upstream generation call: the reply text, or a thrown error
      (no API key, a non-success status, a network failure). */
  datatype Upstream = Completion(raw: string) | UpstreamError

  datatype Response =
    | Reply(text: string, emotion: string)
    | Failure(status: int, error: string)

  /** The handler's answer, and the prompt it sent upstream (`None` when it sent none). */
  datatype ChatOutcome = ChatOutcome(response: Response, sent: Option<string>)

  const MaxTurns: nat := 14
  const MaxTurnText: nat := 2000
  const PromptTurns: nat := 12

  const Emotions: seq<string> := ["joie", "tristesse", "colere", "peur", "surprise", "neutre"]

  const FallbackText: string :=
    "Je suis l\U{E0} pour t\U{2019}\U{E9}couter. Dis-moi ce que tu ressens en ce moment. \U{1F60A}"

  const Persona: string :=
    "Tu es un assistant \U{E9}motionnel bienveillant (psychologue) qui aide \U{E0} explorer les \U{E9}motions, "
    + "les comportements et les ressentis. Pose quelques questions ouvertes, offre des conseils "
    + "bas\U{E9}s sur la psychologie positive, reste bref si possible et ajoute des emojis appropri\U{E9}s. "
    + "Si on te demande des choses hors de ton r\U{F4}le, r\U{E9}oriente poliment vers le soutien \U{E9}motionnel."

  const EmotionSchema: string :=
    "R\U{E9}ponds STRICTEMENT en JSON: {\"text\":\"...\",\"emotion\":\"joie|tristesse|colere|peur|surprise|neutre\"}. "
    + "Sans code block, sans texte hors JSON."

  const PromptHead: string := Persona + "\n\nHistorique r\U{E9}cent:\n"
  const PromptTail: string := "\n\n" + EmotionSchema

  /** `sanitizeText` on a string: control characters removed, then trimmed. The
      result is what is left of `s` without its control characters once only
      white space is cut from the two ends. */
  function Sanitize(s: string): (r: string)
    ensures NoControl(r) && IsTrimmed(r)
    ensures CutsOnlyEdges(Keep(s, IsControl), r)
    ensures |r| <= |s|
    ensures NoControl(s) && IsTrimmed(s) ==> r == s
  {
    var t := StripControl(s);
    var u := TrimStart(t);
    assert NoControl(u);
    Trim(t)
  }

  predicate IsControlOrSpace(c: char) { IsControl(c) || IsWhitespace(c) }

  /** Sanitising removes only control characters and white space: every other
      character stays, in order. */
  lemma {:induction false} SanitizeKeepsText(s: string)
    ensures Keep(Sanitize(s), IsControlOrSpace) == Keep(s, IsControlOrSpace)
  {
    KeepKeep(s, IsControl, IsControlOrSpace);
    TrimKeepsText(StripControl(s), IsControlOrSpace);
  }

  /** `sanitizeText` on any value: the empty string for a non-string. */
  function SanitizeValue(v: JsValue): (r: string)
    ensures v.NonString? ==> r == ""
    ensures v.Str? ==> r == Sanitize(v.s) && NoControl(r) && IsTrimmed(r) && |r| <= |v.s|
  {
    match v
    case Str(s) => Sanitize(s)
    case NonString => ""
  }

  /** Sanitising twice is the same as sanitising once. */
  lemma SanitizeIdempotent(s: string)
    ensures Sanitize(Sanitize(s)) == Sanitize(s)
  {
  }

  /** The candidate handed to `JSON.parse`: from the first `{` to the last `}`,
      when the last `}` comes after the first `{`. */
  function ExtractCandidate(text: string): (r: Option<string>)
    ensures r.None? <==> !exists i, j :: 0 <= i < j < |text| && text[i] == '{' && text[j] == '}'
    ensures r.Some? ==>
      exists f, l :: 0 <= f < l < |text| && r.value == text[f..l + 1]
        && text[f] == '{' && text[l] == '}'
        && (forall k :: 0 <= k < f ==> text[k] != '{')
        && (forall k :: l < k < |text| ==> text[k] != '}')
  {
    var first := IndexOf(text, '{');
    var last := LastIndexOf(text, '}');
    if first == -1 || last == -1 || last <= first then None
    else Some(text[first..last + 1])
  }

  /** `extractJsonObject`: parse the candidate, if there is one. */
  function ExtractJsonObject(text: string, parse: string -> Option<Parsed>): (r: Option<Parsed>)
    ensures ExtractCandidate(text).None? ==> r.None?
    ensures ExtractCandidate(text).Some? ==> r == parse(ExtractCandidate(text).value)
  {
    match ExtractCandidate(text)
    case None => None
    case Some(candidate) => parse(candidate)
  }

  predicate WellFormed(e: Entry)
  {
    (e.role == Str("user") || e.role == Str("assistant")) && e.text.Str?
  }

  /** The filter of the handler: well-formed entries as turns, in their order. */
  function WellFormedTurns(es: seq<Entry>): (r: seq<Turn>)
    ensures |r| <= |es|
    ensures r == [] <==> forall i :: 0 <= i < |es| ==> !WellFormed(es[i])
    ensures forall i :: 0 <= i < |r| ==> r[i].role == "user" || r[i].role == "assistant"
    ensures |es| == 1 ==> r == (if WellFormed(es[0]) then [Turn(es[0].role.s, es[0].text.s)] else [])
    ensures forall i :: 0 <= i < |r| ==>
      exists j :: 0 <= j < |es| && WellFormed(es[j]) && r[i] == Turn(es[j].role.s, es[j].text.s)
  {
    if es == [] then []
    else
      var rest := WellFormedTurns(es[1..]);
      if WellFormed(es[0]) then [Turn(es[0].role.s, es[0].text.s)] + rest
      else
        assert forall i :: 1 <= i < |es| ==> es[i] == es[1..][i - 1];
        rest
  }

  /** The filter keeps exactly the well-formed entries, piecewise over a concatenation. */
  lemma {:induction false} WellFormedTurnsAppend(a: seq<Entry>, b: seq<Entry>)
    ensures WellFormedTurns(a + b) == WellFormedTurns(a) + WellFormedTurns(b)
  {
    if a != [] {
      assert (a + b)[1..] == a[1..] + b;
      WellFormedTurnsAppend(a[1..], b);
    } else {
      assert a + b == b;
    }
  }

  /** The turns of `body.messages`, or none when it is not an array. */
  function IncomingTurns(messages: Option<seq<Entry>>): (r: seq<Turn>)
    ensures messages.None? ==> r == []
    ensures messages.Some? ==> r == WellFormedTurns(messages.value)
  {
    match messages
    case None => []
    case Some(es) => WellFormedTurns(es)
  }

  /** One turn as `safeMessages` keeps it: the role, and the text sanitised
      and cut to its first 2000 characters. */
  function SafeTurn(t: Turn): (r: Turn)
    ensures r.role == t.role
    ensures |r.text| == Min(MaxTurnText, |Sanitize(t.text)|) && r.text == Sanitize(t.text)[..|r.text|]
    ensures NoControl(r.text)
  {
    var s := Sanitize(t.text);
    var cut := Take(s, MaxTurnText);
    assert forall i :: 0 <= i < |cut| ==> cut[i] == s[i];
    Turn(t.role, cut)
  }

  /** `safeMessages`: the last 14 well-formed turns, each made safe. */
  function SafeMessages(messages: Option<seq<Entry>>): (r: seq<Turn>)
    ensures var wf := IncomingTurns(messages);
      && |r| == Min(MaxTurns, |wf|)
      && (r == [] <==> wf == [])
      && forall i :: 0 <= i < |r| ==> r[i] == SafeTurn(wf[|wf| - |r| + i])
    ensures forall i :: 0 <= i < |r| ==> r[i].role == "user" || r[i].role == "assistant"
  {
    var wf := IncomingTurns(messages);
    var window := LastN(wf, MaxTurns);
    assert forall i :: 0 <= i < |window| ==> window[i] == wf[|wf| - |window| + i];
    seq(|window|, i requires 0 <= i < |window| => SafeTurn(window[i]))
  }

  /** The role label of the transcript. */
  function RoleLabel(role: string): (r: string)
    ensures r == "Assistant" <==> role == "assistant"
    ensures r == "Utilisateur" <==> role != "assistant"
  {
    if role == "assistant" then "Assistant" else "Utilisateur"
  }

  lemma NoControlHasNoNewline(s: string)
    requires NoControl(s)
    ensures '\n' !in s
  {
  }

  function LineOf(role: string, text: string): (r: string)
    requires role == "Assistant" || role == "Utilisateur"
    requires '\n' !in text
    ensures '\n' !in r
  {
    role + ": " + text
  }

  /** The transcript line of one turn: the role label, a colon and a space,
      then the sanitised text. It never holds a newline. */
  function TranscriptLine(m: Turn): (r: string)
    ensures '\n' !in r
    ensures var tag := RoleLabel(m.role) + ": ";
      |tag| <= |r| && r[..|tag|] == tag && r[|tag|..] == Sanitize(m.text)
  {
    var text := Sanitize(m.text);
    NoControlHasNoNewline(text);
    LineOf(RoleLabel(m.role), text)
  }

  /** One transcript line per turn of the last 12, in order. */
  function TranscriptLines(messages: seq<Turn>): (r: seq<string>)
    ensures |r| == Min(PromptTurns, |messages|)
    ensures forall i :: 0 <= i < |r| ==> r[i] == TranscriptLine(messages[|messages| - |r| + i])
  {
    var window := LastN(messages, PromptTurns);
    seq(|window|, i requires 0 <= i < |window| => TranscriptLine(window[i]))
  }

  /** The `history` of `buildPrompt`: the transcript lines joined by newlines.
      It splits back into exactly its lines, one per turn of the last 12: no
      turn can add or merge lines. */
  function Transcript(messages: seq<Turn>): (r: string)
    ensures messages == [] ==> r == ""
    ensures messages != [] ==> Split(r, '\n') == TranscriptLines(messages)
  {
    var lines := TranscriptLines(messages);
    if messages == [] then Join(lines, '\n')
    else
      SplitJoin(lines, '\n');
      Join(lines, '\n')
  }

  /** `buildPrompt`: the persona and the heading of the history, the
      transcript, then the output-format instruction. */
  function BuildPrompt(messages: seq<Turn>): (r: string)
    ensures |PromptHead| + |PromptTail| <= |r|
    ensures r[..|PromptHead|] == PromptHead && r[|r| - |PromptTail|..] == PromptTail
    ensures r[|PromptHead|..|r| - |PromptTail|] == Transcript(messages)
  {
    Framed(PromptHead, Transcript(messages), PromptTail);
    PromptHead + Transcript(messages) + PromptTail
  }

  /** The layout of the prompt: between the fixed head and tail, one line per
      turn of the last 12, in order, each the turn's role label, a colon and a
      space, then its sanitised text. */
  lemma {:induction false} PromptLayout(messages: seq<Turn>)
    requires messages != []
    ensures var r := BuildPrompt(messages);
      var lines := Split(r[|PromptHead|..|r| - |PromptTail|], '\n');
      && |lines| == Min(PromptTurns, |messages|)
      && forall i :: 0 <= i < |lines| ==>
           var m := messages[|messages| - |lines| + i];
           var tag := RoleLabel(m.role) + ": ";
           |tag| <= |lines[i]| && lines[i][..|tag|] == tag && lines[i][|tag|..] == Sanitize(m.text)
  {
    var lines := TranscriptLines(messages);
    forall i | 0 <= i < |lines|
      ensures var m := messages[|messages| - |lines| + i];
        var tag := RoleLabel(m.role) + ": ";
        |tag| <= |lines[i]| && lines[i][..|tag|] == tag && lines[i][|tag|..] == Sanitize(m.text)
    {
      assert lines[i] == TranscriptLine(messages[|messages| - |lines| + i]);
    }
  }

  /** The reply text and emotion, chosen from the raw upstream text and what was parsed from it. */
  function ChooseReply(raw: string, parsed: Option<Parsed>): (r: Response)
    ensures r.Reply? && r.emotion in Emotions
    ensures parsed.Some? && parsed.value.text.Some? ==>
      && r.text == Sanitize(parsed.value.text.value)
      && (parsed.value.emotion.Some? && parsed.value.emotion.value in Emotions ==>
            r.emotion == parsed.value.emotion.value)
    ensures r.emotion != "neutre" ==>
      parsed.Some? && parsed.value.text.Some? && parsed.value.emotion == Some(r.emotion)
    ensures !(parsed.Some? && parsed.value.text.Some?) ==>
      && r.emotion == "neutre"
      && r.text == (if Sanitize(raw) != "" then Sanitize(raw) else FallbackText)
    ensures r.text == FallbackText || (NoControl(r.text) && IsTrimmed(r.text))
  {
    match parsed
    case Some(Parsed(Some(t), e)) =>
      var emotion := if e.Some? && e.value in Emotions then e.value else "neutre";
      Reply(Sanitize(t), emotion)
    case _ =>
      var s := Sanitize(raw);
      Reply(if s != "" then s else FallbackText, "neutre")
  }

  /** The `/api/chat` handler. */
  function HandleChat(messages: Option<seq<Entry>>, upstream: string -> Upstream,
                      parse: string -> Option<Parsed>): (r: ChatOutcome)
    ensures SafeMessages(messages) == [] <==> r.sent.None?
    ensures r.sent.None? ==> r.response == Failure(400, "Invalid messages")
    ensures r.sent.Some? ==> r.sent.value == BuildPrompt(SafeMessages(messages))
    ensures r.sent.Some? ==>
      match upstream(r.sent.value)
      case UpstreamError => r.response == Failure(500, "Service indisponible")
      case Completion(raw) => r.response == ChooseReply(raw, ExtractJsonObject(raw, parse))
    ensures r.response.Reply? ==> r.response.emotion in Emotions
  {
    var safe := SafeMessages(messages);
    if safe == [] then ChatOutcome(Failure(400, "Invalid messages"), None)
    else
      var prompt := BuildPrompt(safe);
      match upstream(prompt)
      case UpstreamError => ChatOutcome(Failure(500, "Service indisponible"), Some(prompt))
      case Completion(raw) => ChatOutcome(ChooseReply(raw, ExtractJsonObject(raw, parse)), Some(prompt))
  }

  /** A plain-text reply with no braces comes back as itself with the neutral emotion. */
  lemma PlainTextReply(parse: string -> Option<Parsed>)
    ensures ChooseReply("Just some plain text.", ExtractJsonObject("Just some plain text.", parse))
         == Reply("Just some plain text.", "neutre")
  {
    var raw := "Just some plain text.";
    assert '{' !in raw;
    assert NoControl(raw) && IsTrimmed(raw);
  }
}
