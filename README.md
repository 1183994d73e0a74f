# Credibot, modelled in Dafny

Credibot is a therapy-preparation chat application. This project models its
three core pieces and proves properties about them.

- **The reply endpoint** (`app/api/reply/route.ts`, module `Reply`). First it
  checks the request: the API key, then the body's `userText`. It fills in the
  defaults for `modality` and `lang`. It builds the system prompt from the
  style of the modality, with a person-centered fallback, and the language's
  safety rule. It sends a two-message streaming payload upstream. Then it
  relays the upstream event stream as plain text. Each chunk is split on
  `\n` and each line is trimmed. Only `data:` lines are kept, and `[DONE]`,
  unparsable payloads and empty deltas are dropped. No partial line is
  carried from one chunk to the next.
- **The chat page** (`app/page.tsx`, modules `Chat` and `Intake`). `ChatPage`
  is a class with the page's state: the transcript, the text box, the
  active style, the language and the streaming flag. Its methods are the
  handlers: start over, submit, change modality, and `send`. The
  asynchronous `send` is cut into the events it reacts to (`BeginSend`,
  `AppendChunk`, `Fail`, `Finish`). `Send` composes them for a request that
  runs with no other handler in between. `Intake` models the PDF export:
  the `y` cursor class `Layout` with its `H` and `P` methods, the page break
  past 740 with a reset to 56, the last twelve messages, and the formatting
  of the transcript excerpt.
- **The therapist search page** (`app/find/page.tsx`, module `Find`). It
  covers how `buildTerms` assembles the search terms, the `toggle` of a chip,
  the site-restricted query string, and the defaults of the English
  outreach note.

`Text` restates the JavaScript string operations the code uses (`trim`,
`split`, `join`, `startsWith`, numbers in template literals) on
`seq<char>`. `Options` holds the optional-value type.

Three things come in as parameters:

- `JSON.parse` of an event payload, followed by reading
  `choices[0].delta.content`, is `parse: string -> Option<string>`.
- jsPDF's `splitTextToSize` is `split: string -> seq<string>`.
- `encodeURIComponent` is `encode: string -> string`.

The upstream answer is a value (`Reply.Upstream`), and so are the chunks the
page receives (`received`) and whether the request failed (`failed`).

One consequence of the code is worth stating, and `Reply.CutEventIsLost`
proves it: an event line cut across two chunks inside its `data:` prefix is lost,
because each chunk is filtered on its own.

## Model

| member | source | states |
|---|---|---|
| Text.TrimSpec | app/api/reply/route.ts:80 | `trim` returns the slice left after only white space is cut from both ends, and that slice neither starts nor ends with white space. |
| Text.TrimTwice | app/page.tsx:107 | Trimming is idempotent. |
| Text.TrimAllSpace | app/page.tsx:56 | A string made only of white space trims to "". |
| Text.SplitJoin | app/api/reply/route.ts:79 | Splitting on `\n` loses nothing: joining the pieces with `\n` gives back the chunk. |
| Text.SplitAtSep | app/api/reply/route.ts:28-30 | The first separator ends the first piece. |
| Text.Split | app/api/reply/route.ts:79 | There is at least one piece, and no piece contains the separator. |
| Text.JoinStartsWith | app/find/page.tsx:17 | A join starts with its first piece. |
| Text.ConcatAppend | app/page.tsx:86 | Text accumulated from two runs of chunks is the first run's text followed by the second's. |
| Text.NatToStringValue | app/api/reply/route.ts:65 | The decimal digits printed for a status code denote that number. |
| Text.IntToString | app/find/page.tsx:13 | A whole number within 2^53 in magnitude prints with a leading minus exactly when it is negative, followed by the digits of its magnitude. |
| Reply.StyleFor | app/api/reply/route.ts:26 | A known modality key gives its own style sentence. Any other key gives the person-centered one. |
| Reply.PromptFirstLine | app/api/reply/route.ts:27-28 | The prompt's first line is "Respond in Simplified Chinese." exactly when `lang` is "zh", and "Respond in English." otherwise. |
| Reply.PromptStyleLine | app/api/reply/route.ts:29 | The second line is the identity sentence followed by the modality's style, with the person-centered style for an unknown key. |
| Reply.PromptRules | app/api/reply/route.ts:22-25 | The prompt ends with the rules line, whose safety rule is Chinese exactly when `lang` is "zh". |
| Reply.ServerError | app/api/reply/route.ts:109-111 | The outer error body starts with "Server error: " and always has a message, "unknown" when the error has none. |
| Reply.Prepare | app/api/reply/route.ts:33-52 | A missing or empty key gives 500 whatever the body. An unreadable body gives a server error. A missing, empty or non-string `userText` gives 400. Otherwise the payload streams, with exactly a system message and then the user's text verbatim. The system message uses the `modality`/`lang` defaults "pct"/"en". |
| Reply.Post | app/api/reply/route.ts:54-108 | A rejection is returned as prepared. Status 200 happens exactly when the request is forwarded and upstream answers OK with a body, and then the body is the relay of its chunks. An upstream that is not OK or has no body gives 500 with "Groq error: <status> ". A thrown fetch gives the server error. No other status occurs. |
| Reply.RejectIgnoresUpstream | app/api/reply/route.ts:35-42 | A rejected request's response does not depend on upstream or on the parser at all, so no upstream call has any effect. |
| Reply.DataField | app/api/reply/route.ts:80-82 | A line has a data field exactly when its trimmed form starts with `data:`. The field is the trimmed rest, and a blank line has none. |
| Reply.LineDeltaEmits | app/api/reply/route.ts:80-91 | A line emits `d` if and only if it is a `data:` line whose payload is not `[DONE]` and parses to the non-empty `d`. |
| Reply.NotDataSilent | app/api/reply/route.ts:81 | A line whose trimmed form does not start with `data:` emits nothing. |
| Reply.ShortLineSilent | app/api/reply/route.ts:81 | A line shorter than `data:` emits nothing. |
| Reply.ForeignLineSilent | app/api/reply/route.ts:80-81 | A line starting with a character that is neither white space nor `d` emits nothing. |
| Reply.SilentLineContinues | app/api/reply/route.ts:83-91 | A line that emits nothing (`[DONE]`, unparsable, empty delta, not data) leaves the output of the lines after it unchanged. |
| Reply.LinesDeltasAppend | app/api/reply/route.ts:79-92 | The lines of a chunk are processed independently, in order. |
| Reply.StreamDeltasAppend | app/api/reply/route.ts:75-93 | The output of a stream is the concatenation of its chunks' independent outputs. |
| Reply.OneLineChunk | app/api/reply/route.ts:79 | A chunk without a newline is processed as a single line. |
| Reply.TwoChunks | app/api/reply/route.ts:75-79 | Two chunks give the first chunk's output followed by the second's. |
| Reply.CutHalvesSilent | app/api/reply/route.ts:79-81 | Both halves of a `data:` line cut inside its prefix emit nothing. |
| Reply.CutEventIsLost | app/api/reply/route.ts:75-92 | A `data:` line relayed whole gives its delta, but the same line split across two chunks inside the prefix gives nothing. |
| Reply.RelayLine | app/api/reply/route.ts:80-91 | The body of the inner loop enqueues exactly the line's output, at most one delta. |
| Reply.RelayChunk | app/api/reply/route.ts:78-92 | The inner `for` over the split lines enqueues exactly the chunk's output. |
| Reply.Relay | app/api/reply/route.ts:72-99 | The read loop enqueues exactly the stream's output: every chunk's deltas, in order. |
| Chat.ModalitiesKeys | app/page.tsx:15-23 | The seven styles carry the seven keys in the order pct, eft, cbt, dbt, sfbt, psychodynamic, act. |
| Chat.ModalitiesSearch | app/page.tsx:44 | `find` and `findIndex` locate every style at its own position in the list. |
| Chat.LookupFirst | app/page.tsx:44 | `find` returns the first entry with the key. |
| Chat.IndexOfFirst | app/page.tsx:116 | `findIndex` returns the position of the first entry with the key. |
| Chat.Lookup | app/page.tsx:44 | A found entry is in the list and has the key, and nothing is found only when no entry has it. |
| Chat.IndexOf | app/page.tsx:116 | The index is -1 exactly when no key matches, and otherwise points at a matching key. |
| Chat.NextKeyStep | app/page.tsx:116-117 | "Change modality" moves the style one place along the list, modulo 7. |
| Chat.ActThenPct | app/page.tsx:117 | The last style, act, wraps round to pct. |
| Chat.ActiveLabelShort | app/page.tsx:43-46 | The label is the active style's short name, and it reads "Person-Centered" exactly when the style is pct. |
| Chat.ServerKnowsEveryKey | app/api/reply/route.ts:11-26 | Every key the page sends has a style of its own on the server, and the person-centered text goes to pct and to no other key. |
| Chat.PageRequestForwarded | app/page.tsx:67-71 | With the key configured, a request the page sends (its text non-blank) is always forwarded with the page's style and language in the prompt and the text as the user message. |
| Chat.LastUserTextAt | app/page.tsx:114 | The reverse search finds the user message that no later user message follows. |
| Chat.LastUserTextNone | app/page.tsx:114 | The search finds nothing exactly when there is no user message. |
| Chat.TranscriptLastUser | app/page.tsx:114-115 | In a transcript something is found exactly when someone has written. It is the non-blank message just before the last reply. |
| Chat.TranscriptExtend | app/page.tsx:58-60 | Appending a non-blank user message and its reply keeps the transcript's shape. |
| Chat.TranscriptUpdate | app/page.tsx:83-99 | Rewriting a reply's text keeps the transcript's shape. |
| Chat.FinalReply | app/page.tsx:83-99 | The finished bubble holds all chunks in order when any text arrived. It is empty only for a request that did not fail and received no text. |
| Chat.ChatPage.constructor | app/page.tsx:35-39 | The page starts with the greeting alone, an empty box, pct, English and nothing streaming. |
| Chat.ChatPage.StartOver | app/page.tsx:48-53 | Only the greeting remains, the box is empty and nothing streams. Style and language are kept. |
| Chat.ChatPage.SetInput | app/page.tsx:36 | The box takes the typed text and nothing else changes. |
| Chat.ChatPage.SetLang | app/page.tsx:38 | The language changes and nothing else does. |
| Chat.ChatPage.BeginSend | app/page.tsx:55-64 | It starts exactly when the text is non-blank and nothing is streaming, and otherwise changes nothing. A start appends the user message and an empty reply in the given style, returns index old length + 1 and sets the streaming flag. |
| Chat.ChatPage.AppendChunk | app/page.tsx:83-88 | A chunk is added to the end of the reply at `botIndex` and to no other message. A missing index or a non-reply changes nothing. |
| Chat.ChatPage.Fail | app/page.tsx:91-99 | A reply that has text keeps it. An empty one gets the network error in the language the request was sent in. No other message changes. |
| Chat.ChatPage.Finish | app/page.tsx:100-103 | Streaming stops, on every path, and nothing else changes. |
| Chat.ChatPage.Stream | app/page.tsx:79-90 | The read loop leaves the reply holding its old text followed by every chunk in order, and no other message changes. |
| Chat.ChatPage.Complete | app/page.tsx:66-103 | After the request the empty reply holds the final reply text and streaming has stopped. |
| Chat.ChatPage.Send | app/page.tsx:55-104 | A blank text or a running stream changes nothing. Otherwise exactly the user message and its final reply are appended, at index old length + 1, and streaming is off afterwards. |
| Chat.ChatPage.OnSubmit | app/page.tsx:106-111 | A blank box changes nothing. Otherwise the box is cleared, even during streaming, and the trimmed text is sent in the active style. |
| Chat.ChatPage.ChangeModality | app/page.tsx:113-120 | It does nothing before anyone has written or while streaming. Otherwise the next style becomes active and the last user message is sent again in it. |
| Intake.LinesFlowSpec | app/page.tsx:135-148 | Drawn from a cursor at or below 56, a paragraph's lines appear in order in the body font. Each lies between 56 and 740, and the cursor ends 16 below the last line. |
| Intake.LinesFlowPages | app/page.tsx:139-146 | Pages never go back within a paragraph. |
| Intake.LinesFlowFollows | app/page.tsx:140-145 | A line starts a new page at 56 exactly when the cursor has passed 740. Otherwise it sits 16 below the previous line. |
| Intake.TextsFlow | app/page.tsx:135-148 | A paragraph adds exactly its lines to the body text and nothing to the headings. |
| Intake.Layout.constructor | app/page.tsx:123-125 | The document starts on page 1 at `y` = 56, with nothing drawn. |
| Intake.Layout.H | app/page.tsx:129-134 | A heading is drawn at the cursor and the cursor moves down 22. |
| Intake.Layout.P | app/page.tsx:135-148 | The paragraph loop draws the lines as the line flow places them and leaves the cursor 6 below its end. |
| Intake.Recent | app/page.tsx:158 | The excerpt is the last twelve messages, or all of them when there are fewer. |
| Intake.FormatMessageSpec | app/page.tsx:160-164 | An entry starts with the speaker and ends with ": " and the message text. |
| Intake.TagSpec | app/page.tsx:162 | Only a reply with a style has a tag, and the tag holds that style's short name. |
| Intake.FormatAll | app/page.tsx:159-164 | Every message is formatted, in order. |
| Intake.ConversationEmpty | app/page.tsx:165-166 | The excerpt is empty exactly when there are no messages, when "No messages yet." is printed instead. |
| Intake.FullNameSpec | app/page.tsx:155 | The "Active Style" paragraph is the active style's full name. |
| Intake.SectionStep | app/page.tsx:151-174 | A heading and a paragraph keep every paragraph line in bounds and leave the cursor at or below 56. |
| Intake.SectionTexts | app/page.tsx:151-174 | A section adds one heading and exactly its paragraph's lines. |
| Intake.Section | app/page.tsx:151-152 | `H` then `P` adds the heading and the lines and keeps the layout invariant. |
| Intake.ExportIntake | app/page.tsx:122-177 | The export draws the four headings in order in the page's language and the four paragraphs' lines in order. Every paragraph line lies between 56 and 740. |
| Find.NonEmpty | app/find/page.tsx:17 | `filter(Boolean)` keeps exactly the non-empty strings, and no empty string remains. |
| Find.BuildTermsEmpty | app/find/page.tsx:8-18 | The terms are empty if and only if every filter is falsy: no city, telehealth or insurance, a blank or zero fee, and modalities, specialties and language that print as nothing. |
| Find.SegmentsPresent | app/find/page.tsx:10-17 | No empty segment survives, and each truthy field's segment is kept: city, "telehealth", "insurance X", "fee <= N", the joined modalities, the joined specialties and the language. |
| Find.BuildTermsOrder | app/find/page.tsx:10-17 | With every filter given, the terms are city, "telehealth", insurance, fee, modalities, specialties and language, joined by single spaces in that order. |
| Find.ZeroFeeIsBlank | app/find/page.tsx:13 | A fee of 0 gives the same terms as an empty fee box. |
| Find.Remove | app/find/page.tsx:38 | The filter removes every copy of the item and keeps every other element with its multiplicity. |
| Find.RemoveAppend | app/find/page.tsx:38 | The filter works element by element, so the relative order of the kept elements is preserved. |
| Find.ToggleSpec | app/find/page.tsx:38 | After a toggle the item is chosen exactly when it was not. Every other item keeps its membership. An added item goes at the end. |
| Find.ToggleTwiceAbsent | app/find/page.tsx:38 | Toggling an absent item twice gives back the original list. |
| Find.SearchQuery | app/find/page.tsx:20 | Before encoding the query starts with "site:<domain> " and ends with " therapist <terms>". |
| Find.SearchQueryParts | app/find/page.tsx:20 | The domain and the terms can be read back from the query. |
| Find.SearchUrl | app/find/page.tsx:19-22 | The address is the search prefix followed by the encoded query. |
| Find.Launch | app/find/page.tsx:40-43 | Launching searches the directory's site for the filters' terms. |
| Find.OutreachDefaults | app/find/page.tsx:48 | Each empty field shows its default: "(your city)", "Self-pay / TBD", "Flexible" (exactly when no fee is given), "TBD" and "English". Telehealth chooses "Telehealth" or "In-person". |
| Find.OutreachHasRow | app/find/page.tsx:48 | The note contains each bullet line, label and value, after the greeting. |

## Left out

- The network: the upstream `fetch`, the page's `fetch` to `/api/reply`, `AbortController` and the abort in "start over", the stream controller and `Response` objects. They appear as values (`Upstream`, the chunks received, the failure flag).
- Byte decoding with `TextEncoder` and `TextDecoder`, including a UTF-8 sequence split across chunks. Chunks are strings.
- `JSON.parse` and the reading of `choices[0].delta.content` are the parameter `parse`. The `?? delta` fallback, which could yield a non-string object, is abstracted away with it.
- A read error in the middle of the upstream stream, which ends the relayed stream with an error, is not modelled. `Post` relays every chunk.
- The request fields `modality` and `lang` are modelled as optional strings. Non-string JSON values for them are not modelled.
- Reply.StyleFor: keys inherited from `Object.prototype` (such as "constructor") are treated as unknown keys, where JavaScript would look them up on the prototype.
- The upstream model name and the temperature 0.6 are constants with no logic.
- jsPDF is not modelled: fonts, page width, `splitTextToSize` (the parameter `split`) and `save`. Only the `y` cursor and the page counter are modelled.
- `new Date().toLocaleString()` is the parameter `dateText`.
- Heading positions are not bounded. As in the code, `H` draws at the cursor without checking the page bottom.
- Chat.ChatPage.Send: it describes a request during which no other handler runs. React's batched state updates and the render-time `messages` and `isStreaming` that `send` closes over are not modelled. The single events (`BeginSend`, `AppendChunk`, `Fail`, `Finish`) can be combined in any order.
- Chat.NextKeyStep: it proves one step modulo 7. A full walk of seven steps back to the start is not stated.
- Scrolling, `localStorage`, the clipboard, `alert` and `window.open` are left out. `encodeURIComponent` is the parameter `encode`.
- The fee box is a whole number or empty. Fractional, NaN and non-numeric inputs are not modelled.
- Text.IntToString: it matches JavaScript's `Number` printing only for whole numbers below 1e21 in magnitude; from 1e21 up JavaScript prints exponent form ("1e+21"). The fee is therefore a `SafeInt`, at most 2^53 - 1 in magnitude, so a fee typed beyond that, which `Number(...)` in app/find/page.tsx would round, is not modelled.
- The Chinese outreach note and the Chinese labels of the search page are mis-encoded in the source, so they are not modelled. The English note's apostrophes appear mis-encoded too ("Iâ€™m"); the model uses U+2019, the character they stand for.
- The JSX rendering, CSS classes, the language selector's markup and `app/layout.tsx` are presentation only.
- The code has no crisis-keyword matcher, so neither does the model.
