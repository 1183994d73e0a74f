/**
 * The `/api/reply` endpoint (app/api/reply/route.ts): the request checks and
 * defaults, the system-prompt template, the payload sent upstream, the
 * status of the response, and the relay that turns the upstream event stream
 * into plain text, chunk by chunk and line by line.
 *
 * The upstream call is not made here: its answer is a parameter (`Upstream`).
 * `JSON.parse` of one event payload, followed by the extraction of
 * `choices[0].delta.content`, is the parameter `parse`; `None` stands for a
 * payload that does not parse.
 */
module Reply {
  import opened Options
  import opened Text

  const PctStyle := "Use person-centered counseling style: empathic reflections, non-directive, warm and validating."

  /** The modality key sent by the page, mapped to the style sentence of the prompt. */
  const ModalityStyle: map<string, string> := map[
    "pct" := PctStyle,
    "eft" := "Use emotion-focused style: slow the moment, invite naming and deepening present emotion.",
    "cbt" := "Use CBT style: map situation → thought → emotion (0–100) → behavior; collaborative empiricism.",
    "dbt" := "Use DBT style: balance acceptance and change; suggest concrete skills (mindfulness, TIP, DEAR MAN).",
    "sfbt" := "Use solution-focused style: notice exceptions, scale progress, co-create next tiny step.",
    "psychodynamic" := "Use psychodynamic style: patterns, defenses, meanings, transference; be gentle and curious.",
    "act" := "Use ACT style: acceptance, defusion, present-moment, values, committed action; brief exercise."
  ]

  const ZhSafety := "不要声称提供诊断或治疗；如涉及危机，请建议联系当地紧急电话或美国 988。语气温暖、具体、尊重。"
  const EnSafety := "Do not claim to diagnose or treat; if crisis is indicated, advise contacting local emergency services or 988 (US). Be warm, specific, respectful."
  const ZhLanguage := "Respond in Simplified Chinese."
  const EnLanguage := "Respond in English."
  const Identity := "You are Credibot, a therapy-prep assistant. "
  const ReplyShape := " Keep replies about 80–140 words. End with ONE concise question that helps the user continue."

  /** `MODALITY_STYLE[modality] || MODALITY_STYLE["pct"]`: a known key gives its
      own style (none of them is empty), anything else the person-centered one. */
  function StyleFor(modality: string): (style: string)
    ensures modality in ModalityStyle ==> style == ModalityStyle[modality]
    ensures modality !in ModalityStyle ==> style == PctStyle
  {
    if modality in ModalityStyle && ModalityStyle[modality] != "" then ModalityStyle[modality]
    else ModalityStyle["pct"]
  }

  function SafetyRule(lang: string): string {
    if lang == "zh" then ZhSafety else EnSafety
  }

  function LanguageLine(lang: string): string {
    if lang == "zh" then ZhLanguage else EnLanguage
  }

  /** The last line of the prompt. */
  function RulesLine(lang: string): string {
    "Rules: " + SafetyRule(lang) + ReplyShape
  }

  /** `systemPrompt(modality, lang)`: three lines, language, identity and style, rules. */
  function SystemPrompt(modality: string, lang: string): string {
    LanguageLine(lang) + "\n" + ((Identity + StyleFor(modality) + "\n") + RulesLine(lang))
  }

  /** The first line of the prompt names the reply language: Chinese exactly
      when `lang` is "zh", English for anything else. */
  lemma PromptFirstLine(modality: string, lang: string)
    ensures Split(SystemPrompt(modality, lang), '\n')[0] ==
              if lang == "zh" then "Respond in Simplified Chinese." else "Respond in English."
  {
    var first := LanguageLine(lang);
    assert '\n' !in first;
    SplitAtSep(first, '\n', (Identity + StyleFor(modality) + "\n") + RulesLine(lang));
  }

  /** The second line opens with the identity sentence and the modality's style:
      the style of a known key, the person-centered one for any other key. */
  lemma PromptStyleLine(modality: string, lang: string)
    ensures StartsWith(SystemPrompt(modality, lang)[|LanguageLine(lang)| + 1..],
              Identity + (if modality in ModalityStyle then ModalityStyle[modality] else PctStyle) + "\n")
  {
    AfterFirstLine(LanguageLine(lang), Identity + StyleFor(modality) + "\n", RulesLine(lang));
  }

  /** The prompt closes with the safety rule, in the same language as the first line. */
  lemma PromptRules(modality: string, lang: string)
    ensures EndsWith(SystemPrompt(modality, lang),
              "Rules: " + (if lang == "zh" then ZhSafety else EnSafety) + ReplyShape)
  {
    EndsWithAppend(LanguageLine(lang) + "\n" + (Identity + StyleFor(modality) + "\n"), RulesLine(lang));
    assert SystemPrompt(modality, lang) ==
      LanguageLine(lang) + "\n" + (Identity + StyleFor(modality) + "\n") + RulesLine(lang);
  }

  lemma AfterFirstLine(first: string, second: string, rest: string)
    ensures StartsWith((first + "\n" + (second + rest))[|first| + 1..], second)
  {
    assert (first + "\n" + (second + rest))[|first| + 1..] == second + rest;
    StartsWithAppend(second, rest);
  }

  // ---------------------------------------------------------------------------
  // The request

  /** A member of the parsed JSON body: missing, a string, or any other JSON value. */
  datatype JsonField = Absent | JsonString(s: string) | JsonOther

  datatype RequestBody = RequestBody(userText: JsonField, modality: Option<string>, lang: Option<string>)

  /** The outcome of `req.json()`: a body, or the message of the error it threw. */
  datatype BodyRead = Parsed(body: RequestBody) | Malformed(message: string)

  datatype Message = Message(role: string, content: string)

  /** The upstream request body; the model name and the temperature are constants left out. */
  datatype Payload = Payload(stream: bool, messages: seq<Message>)

  datatype ResponseBody = Plain(text: string) | Stream(pieces: seq<string>)

  datatype Response = Response(status: nat, body: ResponseBody)

  /** Either the response the handler returns before calling upstream, or the payload it sends. */
  datatype Prepared = Reject(response: Response) | Forward(payload: Payload)

  /** What the upstream `fetch` gives: a thrown error, or a response with its
      `ok` flag, status, body chunks (if there is a body) and the text that
      `groq.text()` yields on the error path ("" when that read fails). */
  datatype Upstream = Unreachable(message: string) | Answered(ok: bool, status: nat, body: Option<seq<string>>, text: string)

  /** `!process.env.GROQ_API_KEY`: unset or empty. */
  predicate KeyMissing(apiKey: Option<string>) {
    apiKey.None? || apiKey.value == ""
  }

  /** `userText` passes the check: a non-empty string. */
  predicate UsableText(userText: JsonField) {
    userText.JsonString? && userText.s != ""
  }

  /** The body of the outer `catch`: the error's message, or "unknown" when it has none. */
  function ServerError(message: string): (text: string)
    ensures StartsWith(text, "Server error: ")
    ensures |text| > |"Server error: "|
    ensures message == "" ==> text == "Server error: unknown"
    ensures message != "" ==> text[|"Server error: "|..] == message
  {
    "Server error: " + (if message == "" then "unknown" else message)
  }

  /** Everything `POST` does before it calls upstream. */
  function Prepare(apiKey: Option<string>, read: BodyRead): (p: Prepared)
    ensures KeyMissing(apiKey) ==> p == Reject(Response(500, Plain("Missing GROQ_API_KEY")))
    ensures !KeyMissing(apiKey) && read.Malformed? ==> p == Reject(Response(500, Plain(ServerError(read.message))))
    ensures (!KeyMissing(apiKey) && read.Parsed? && !UsableText(read.body.userText))
              ==> p == Reject(Response(400, Plain("Bad Request: userText required")))
    ensures p.Forward? <==> !KeyMissing(apiKey) && read.Parsed? && UsableText(read.body.userText)
    ensures p.Forward? ==>
              && p.payload.stream
              && |p.payload.messages| == 2
              && p.payload.messages[0].role == "system"
              && p.payload.messages[0].content == SystemPrompt(read.body.modality.GetOr("pct"), read.body.lang.GetOr("en"))
              && p.payload.messages[1] == Message("user", read.body.userText.s)
  {
    if KeyMissing(apiKey) then
      Reject(Response(500, Plain("Missing GROQ_API_KEY")))
    else
      match read
      case Malformed(message) => Reject(Response(500, Plain(ServerError(message))))
      case Parsed(body) =>
        var modality := body.modality.GetOr("pct");
        var lang := body.lang.GetOr("en");
        if !UsableText(body.userText) then
          Reject(Response(400, Plain("Bad Request: userText required")))
        else
          Forward(Payload(true, [
            Message("system", SystemPrompt(modality, lang)),
            Message("user", body.userText.s)]))
  }

  /** `POST`: the prepared rejection, or the upstream error, or a 200 stream
      of the relayed deltas. */
  function Post(apiKey: Option<string>, read: BodyRead, upstream: Upstream, parse: string -> Option<string>): (r: Response)
    ensures Prepare(apiKey, read).Reject? ==> r == Prepare(apiKey, read).response
    ensures r.status == 200 <==>
              Prepare(apiKey, read).Forward? && upstream.Answered? && upstream.ok && upstream.body.Some?
    ensures r.status == 200 ==> r.body == Stream(StreamDeltas(upstream.body.value, parse))
    ensures Prepare(apiKey, read).Forward? && upstream.Answered? && (!upstream.ok || upstream.body.None?) ==>
              r.status == 500 && r.body.Plain? &&
              StartsWith(r.body.text, "Groq error: " + NatToString(upstream.status) + " ")
    ensures Prepare(apiKey, read).Forward? && upstream.Unreachable? ==>
              r == Response(500, Plain(ServerError(upstream.message)))
    ensures r.status == 200 || r.status == 400 || r.status == 500
  {
    match Prepare(apiKey, read)
    case Reject(response) => response
    case Forward(_) =>
      match upstream
      case Unreachable(message) => Response(500, Plain(ServerError(message)))
      case Answered(ok, status, body, text) =>
        if !ok || body.None? then
          Response(500, Plain("Groq error: " + NatToString(status) + " " + text))
        else
          Response(200, Stream(StreamDeltas(body.value, parse)))
  }

  /** A rejected request never reaches upstream: its response is the same
      whatever upstream would have answered. */
  lemma RejectIgnoresUpstream(apiKey: Option<string>, read: BodyRead,
                              u1: Upstream, p1: string -> Option<string>,
                              u2: Upstream, p2: string -> Option<string>)
    requires Prepare(apiKey, read).Reject?
    ensures Post(apiKey, read, u1, p1) == Post(apiKey, read, u2, p2)
    ensures Post(apiKey, read, u1, p1).status != 200
  {
  }

  // ---------------------------------------------------------------------------
  // The relay

  /** The `data:` filter on one line: the trimmed text after the prefix, or
      None for a blank line or a line of any other field. */
  function DataField(line: string): (data: Option<string>)
    ensures data.Some? <==> StartsWith(Trim(line), "data:")
    ensures data.Some? ==> data.value == Trim(Trim(line)[5..])
    ensures Trim(line) == "" ==> data.None?
  {
    var trimmed := Trim(line);
    if trimmed == "" || !StartsWith(trimmed, "data:") then None
    else Some(Trim(trimmed[5..]))
  }

  /** What one line enqueues: the delta of a parsed `data:` payload, when it
      is neither `[DONE]` nor unparsable nor empty. */
  function LineDelta(line: string, parse: string -> Option<string>): Option<string> {
    match DataField(line)
    case None => None
    case Some(data) =>
      if data == "[DONE]" then None
      else
        match parse(data)
        case None => None
        case Some(delta) => if delta != "" then Some(delta) else None
  }

  /** A line emits `d` exactly when it is a `data:` line whose payload is not
      `[DONE]` and parses to the non-empty delta `d`. */
  lemma LineDeltaEmits(line: string, parse: string -> Option<string>, d: string)
    ensures LineDelta(line, parse) == Some(d) <==>
              && StartsWith(Trim(line), "data:")
              && Trim(Trim(line)[5..]) != "[DONE]"
              && parse(Trim(Trim(line)[5..])) == Some(d)
              && d != ""
  {
  }

  /** What one line enqueues: its delta, or nothing. */
  function LineOutput(line: string, parse: string -> Option<string>): seq<string> {
    match LineDelta(line, parse)
    case Some(d) => [d]
    case None => []
  }

  /** `LineOutput` with the parser fixed, as one function value. */
  function LineStep(parse: string -> Option<string>): string -> seq<string> {
    line => LineOutput(line, parse)
  }

  /** What a sequence of lines enqueues, in order. */
  function LinesDeltas(lines: seq<string>, parse: string -> Option<string>): seq<string> {
    ConcatMap(lines, LineStep(parse))
  }

  /** What one chunk enqueues: each of its `\n`-separated lines, independently. */
  function ChunkDeltas(chunk: string, parse: string -> Option<string>): seq<string> {
    LinesDeltas(Split(chunk, '\n'), parse)
  }

  /** `ChunkDeltas` with the parser fixed, as one function value. */
  function ChunkStep(parse: string -> Option<string>): string -> seq<string> {
    chunk => ChunkDeltas(chunk, parse)
  }

  /** What the whole upstream stream enqueues. */
  function StreamDeltas(chunks: seq<string>, parse: string -> Option<string>): seq<string> {
    ConcatMap(chunks, ChunkStep(parse))
  }

  lemma LinesDeltasAppend(a: seq<string>, b: seq<string>, parse: string -> Option<string>)
    ensures LinesDeltas(a + b, parse) == LinesDeltas(a, parse) + LinesDeltas(b, parse)
  {
    ConcatMapAppend(a, b, LineStep(parse));
  }

  /** A line that emits nothing (blank, not `data:`, `[DONE]`, unparsable, empty
      delta) does not stop the lines after it. */
  lemma SilentLineContinues(before: seq<string>, line: string, after: seq<string>, parse: string -> Option<string>)
    requires LineDelta(line, parse).None?
    ensures LinesDeltas(before + [line] + after, parse) == LinesDeltas(before, parse) + LinesDeltas(after, parse)
  {
    assert LineStep(parse)(line) == [];
    ConcatMapSkip(before, line, after, LineStep(parse));
  }

  /** No partial line is carried from one chunk to the next: the output for a
      stream is the concatenation of each chunk's own output. */
  lemma StreamDeltasAppend(a: seq<string>, b: seq<string>, parse: string -> Option<string>)
    ensures StreamDeltas(a + b, parse) == StreamDeltas(a, parse) + StreamDeltas(b, parse)
  {
    ConcatMapAppend(a, b, ChunkStep(parse));
  }

  /** A line without a newline is a chunk of one line. */
  lemma OneLineChunk(chunk: string, parse: string -> Option<string>)
    requires '\n' !in chunk
    ensures ChunkDeltas(chunk, parse) == LineOutput(chunk, parse)
  {
    SplitWithoutSep(chunk, '\n');
    ConcatMapSingle(chunk, LineStep(parse));
  }

  lemma TwoChunks(c1: string, c2: string, parse: string -> Option<string>)
    ensures StreamDeltas([c1, c2], parse) == ChunkDeltas(c1, parse) + ChunkDeltas(c2, parse)
  {
    ConcatMapAppend([c1], [c2], ChunkStep(parse));
    assert [c1] + [c2] == [c1, c2];
    ConcatMapSingle(c1, ChunkStep(parse));
    ConcatMapSingle(c2, ChunkStep(parse));
  }

  /** A line whose trimmed form does not start with `data:` gives nothing. */
  lemma NotDataSilent(line: string, parse: string -> Option<string>)
    requires !StartsWith(Trim(line), "data:")
    ensures LineOutput(line, parse) == []
  {
    assert DataField(line).None?;
    assert LineDelta(line, parse).None?;
  }

  /** A line shorter than the prefix `data:` gives nothing. */
  lemma ShortLineSilent(line: string, parse: string -> Option<string>)
    requires |line| < 5
    ensures LineOutput(line, parse) == []
  {
    assert !StartsWith(Trim(line), "data:") by {
      assert |Trim(line)| <= |line|;
    }
    NotDataSilent(line, parse);
  }

  /** A line whose first character is neither white space nor `d` gives nothing. */
  lemma ForeignLineSilent(line: string, parse: string -> Option<string>)
    requires line != [] && !IsSpace(line[0]) && line[0] != 'd'
    ensures LineOutput(line, parse) == []
  {
    assert !StartsWith(Trim(line), "data:") by {
      assert TrimStart(line) == line;
      var t := Trim(line);
      assert t == line[..|t|];
    }
    NotDataSilent(line, parse);
  }

  /** Both halves of a line cut inside its `data:` prefix give nothing. */
  lemma CutHalvesSilent(line: string, k: nat, parse: string -> Option<string>)
    requires StartsWith(line, "data:") && '\n' !in line
    requires 0 < k < 5
    ensures ChunkDeltas(line[..k], parse) == []
    ensures ChunkDeltas(line[k..], parse) == []
  {
    var head, tail := line[..k], line[k..];
    assert '\n' !in head && '\n' !in tail by {
      assert forall c :: c in head ==> c in line;
      assert forall c :: c in tail ==> c in line;
    }
    ShortLineSilent(head, parse);
    OneLineChunk(head, parse);
    assert tail[0] == "data:"[k];
    ForeignLineSilent(tail, parse);
    OneLineChunk(tail, parse);
  }

  /** The price of keeping no buffer: when a whole `data:` line would be
      relayed, the same line cut in two inside its prefix, across two chunks,
      gives nothing at all. */
  lemma CutEventIsLost(line: string, k: nat, parse: string -> Option<string>)
    requires StartsWith(line, "data:") && '\n' !in line
    requires 0 < k < 5
    ensures StreamDeltas([line], parse) == LineOutput(line, parse)
    ensures StreamDeltas([line[..k], line[k..]], parse) == []
  {
    OneLineChunk(line, parse);
    ConcatMapSingle(line, ChunkStep(parse));
    CutHalvesSilent(line, k, parse);
    TwoChunks(line[..k], line[k..], parse);
  }

  lemma LinesDeltasStep(lines: seq<string>, j: nat, parse: string -> Option<string>)
    requires j < |lines|
    ensures LinesDeltas(lines[..j + 1], parse) == LinesDeltas(lines[..j], parse) + LineOutput(lines[j], parse)
  {
    assert lines[..j + 1] == lines[..j] + [lines[j]];
    ConcatMapAppend(lines[..j], [lines[j]], LineStep(parse));
    ConcatMapSingle(lines[j], LineStep(parse));
  }

  lemma StreamDeltasStep(chunks: seq<string>, i: nat, parse: string -> Option<string>)
    requires i < |chunks|
    ensures StreamDeltas(chunks[..i + 1], parse) == StreamDeltas(chunks[..i], parse) + ChunkDeltas(chunks[i], parse)
  {
    assert chunks[..i + 1] == chunks[..i] + [chunks[i]];
    ConcatMapAppend(chunks[..i], [chunks[i]], ChunkStep(parse));
    ConcatMapSingle(chunks[i], ChunkStep(parse));
  }

  /** The body of the inner `for`: what one line enqueues. */
  method RelayLine(line: string, parse: string -> Option<string>) returns (out: seq<string>)
    ensures out == LineOutput(line, parse)
    ensures |out| <= 1
  {
    out := [];
    var trimmed := Trim(line);
    if trimmed == "" || !StartsWith(trimmed, "data:") {
      return;
    }
    var data := Trim(trimmed[5..]);
    if data == "[DONE]" {
      return;
    }
    match parse(data) {
      case Some(delta) =>
        if delta != "" {
          out := [delta];
        }
      case None =>
    }
  }

  /** One read of the upstream body: split the chunk on `\n` and enqueue
      what each line gives, in order. */
  method RelayChunk(chunk: string, parse: string -> Option<string>) returns (out: seq<string>)
    ensures out == ChunkDeltas(chunk, parse)
  {
    var lines := Split(chunk, '\n');
    out := [];
    var j := 0;
    while j < |lines|
      invariant 0 <= j <= |lines|
      invariant out == LinesDeltas(lines[..j], parse)
    {
      var o := RelayLine(lines[j], parse);
      LinesDeltasStep(lines, j, parse);
      out := out + o;
      j := j + 1;
    }
    assert lines[..j] == lines;
  }

  /** The `start` of the relayed stream: read each chunk and enqueue what it
      gives, in order. */
  method Relay(chunks: seq<string>, parse: string -> Option<string>) returns (enqueued: seq<string>)
    ensures enqueued == StreamDeltas(chunks, parse)
  {
    enqueued := [];
    var i := 0;
    while i < |chunks|
      invariant 0 <= i <= |chunks|
      invariant enqueued == StreamDeltas(chunks[..i], parse)
    {
      var out := RelayChunk(chunks[i], parse);
      StreamDeltasStep(chunks, i, parse);
      enqueued := enqueued + out;
      i := i + 1;
    }
    assert chunks[..i] == chunks;
  }
}
