# College management system: chat relay, stream assembler and student search

This project models three pieces of a college-management web application and
proves properties about them.

- **The chat widget's stream assembler** (`Chatbot`, in `chatbot.dfy`). The
  widget posts the conversation to the relay. It then reads the response body
  chunk by chunk and rebuilds the assistant's text from the Server-Sent-Events
  `data:` lines. The WHATWG HTML Living Standard, section 9.2, defines that
  format. The per-request state is the class `Assembler`, with the fields
  `textBuffer`, `assistantMessage`, `streamDone` and the message list.
  `Feed` processes one chunk with the same nested loop as the source, and `Run`
  is the read loop. Both are proved against the function `Drain`, one drain of
  the buffer, and its partner `Replay`, the read loop over a sequence of reads.
- **The chat relay** (`Relay`, in `relay.dfy`), an edge function. It:
  - answers CORS preflights;
  - fails without an API key;
  - answers four kinds of question ("my courses", "my attendance", "my marks",
    "fees") directly from the student's records;
  - forwards every other conversation, with a system prompt in front, to the
    upstream chat-completions service, and relays its event stream or maps its
    failure status.

  The handler is the method `Serve`. The answers, the prompt and the status
  mapping are functions, with lemmas that lay out each answer line by line.
- **The student directory search** (`Students`, in `students.dfy`): a
  case-insensitive substring filter over name, e-mail and course.

Three support modules sit beside them:

- `text.dfy` models the JavaScript string operations the sources use:
  `toLowerCase`, `includes`, `startsWith`, `endsWith`, `trim`, `indexOf` and
  `join`. It also defines `Split`, which no source calls. It is a proof device:
  `Text.SplitJoin` and the `*AnswerLines` lemmas use it to read joined answers
  back line by line.
- `json.dfy` models `JSON.stringify` of a string (QuoteJSONString, section
  25.5.2.3 of ECMA-262) and the string-literal reading of section 9 of
  ECMA-404 that undoes it.
- `session.dfy` puts the relay and the widget together for one exchange.

The session lemmas show something about the system as a whole:

- The relay sends its four shortcut answers as one-line JSON objects
  (`{"content": ...}`).
- The widget only reads `data:` lines, so it never shows those answers. It ends
  with the empty bot placeholder and no error notice
  (`Session.ShortcutNeverShown`).
- An event stream with one delta and `[DONE]` is shown, however it is chunked
  (`Session.StreamShown`).

A second defect of the source is also stated, not hidden. The widget pushes an
unparsable `data:` payload back into the buffer. From then on the text never
changes and `[DONE]` is never seen, whatever arrives (`Chatbot.StallPersists`,
`Chatbot.StalledForever`).

Inputs that the code takes from the outside world are parameters:

- `JSON.parse` followed by `choices?.[0]?.delta?.content` is a total function
  `parse` with the outcomes `Malformed`, `Parsed(None)` and
  `Parsed(Some(text))`.
- The data-store query results are the `StudentData` record.
- The environment key is `apiKey`.
- What the upstream answered is an `Upstream` value.
- The renderings of numbers and dates are the `Format` record.
- The reads of the response body are a sequence of `Read` values.
- The message ids built from `Date.now()` are strings.

## Model

| member | source | states |
|---|---|---|
| Chatbot.Outgoing | src/components/Chatbot.tsx:43-46 | the request carries one message per earlier entry, with its text and with role `user` for user entries and `assistant` for bot entries, then the new user text |
| Chatbot.ReplaceText | src/components/Chatbot.tsx:104-106 | the update keeps length, ids and senders; it rewrites the text of exactly the entries with the bot id |
| Chatbot.ReplaceTextTwice | src/components/Chatbot.tsx:103-106 | a later delta update overrides an earlier one: only the newest text remains |
| Chatbot.ShownBotEntry | src/components/Chatbot.tsx:71-77 | while streaming, the list is the history plus one bot entry showing the text so far; entries with other ids are untouched |
| Chatbot.StripCR | src/components/Chatbot.tsx:89 | exactly one trailing `\r` is removed, and a line without one is unchanged |
| Chatbot.StripCRKeepsPayload | src/components/Chatbot.tsx:89-93 | removing a `\r` from a `data: ` line keeps the prefix and the trimmed payload |
| Chatbot.ClassifyData | src/components/Chatbot.tsx:90-97 | a `data: ` line is the terminator iff its trimmed payload is `[DONE]`, otherwise a payload |
| Chatbot.ClassifyStripCR | src/components/Chatbot.tsx:89-93 | a payload line is classified the same after another `\r` is stripped, as happens to a pushed-back line |
| Chatbot.Drain | src/components/Chatbot.tsx:84-112 | the assistant text before a drain is a prefix of the text after it |
| Chatbot.DrainNeedsMore | src/components/Chatbot.tsx:85 | the inner loop stops for lack of input only when no `\n` is left in the buffer |
| Chatbot.NextLine | src/components/Chatbot.tsx:85-87 | an extraction takes exactly the text before the first `\n` as the line, and the rest after that `\n` is the new buffer |
| Chatbot.DrainIgnoredLine | src/components/Chatbot.tsx:90-91 | comment, blank and non-`data: ` lines leave the text and the done flag unchanged |
| Chatbot.DrainTerminatorLine | src/components/Chatbot.tsx:93-97 | `data: [DONE]` stops the drain with the text unchanged, the done flag set, and the rest left in the buffer |
| Chatbot.DrainDeltaLine | src/components/Chatbot.tsx:99-107 | a parsed frame appends its content, and a missing or empty content appends nothing |
| Chatbot.DrainMalformedLine | src/components/Chatbot.tsx:108-111 | an unparsable payload is pushed back as line + `\n` + rest, which equals the buffer before the extraction unless a `\r` was stripped; the drain stops |
| Chatbot.TerminatorFrame | src/components/Chatbot.tsx:93-94 | the line `data: [DONE]` is the terminator |
| Chatbot.DrainDone | src/components/Chatbot.tsx:94-97 | a buffer of just the terminator line empties and ends the stream, keeping the text |
| Chatbot.DrainExtendsMessage | src/components/Chatbot.tsx:102-103 | a drain appends to the text only what the buffer contributes, whatever text came before |
| Chatbot.StalledIsBlocked | src/components/Chatbot.tsx:108-111 | after a stall, the unparsable line is again the first line of the buffer |
| Chatbot.BlockedExtends | src/components/Chatbot.tsx:82-91 | appending a chunk to a blocked buffer leaves it blocked |
| Chatbot.StallPersists | src/components/Chatbot.tsx:108-111 | after a stall, draining with any further chunk changes nothing and stalls again |
| Chatbot.DrainAppend | src/components/Chatbot.tsx:82-87 | draining a buffer plus a chunk is draining the buffer, then the remainder plus the chunk when the first drain needed more |
| Chatbot.Replay | src/components/Chatbot.tsx:79-82 | the read loop only grows the text, and once done it reads nothing more |
| Chatbot.ReplayAgreesWithDrain | src/components/Chatbot.tsx:79-112 | reading chunks one by one gives the text and done flag of one drain over their concatenation |
| Chatbot.ReplayFromStart | src/components/Chatbot.tsx:67-69 | from the initial empty state, the read loop agrees with one drain of all bytes received |
| Chatbot.ChunkingIrrelevant | src/components/Chatbot.tsx:79-112 | however the same bytes are split into chunks, the text and the done flag come out the same |
| Chatbot.SilentEndOfStream | src/components/Chatbot.tsx:80-81 | a stream that ends without `[DONE]` ends without error and with the text it would have had with `[DONE]` |
| Chatbot.StalledForever | src/components/Chatbot.tsx:108-111 | once a payload fails to parse, no later chunk changes the text or ends the stream |
| Chatbot.Assembler.constructor | src/components/Chatbot.tsx:65-77 | empty buffer and text, not done, and the empty bot placeholder appended to the list |
| Chatbot.Assembler.Feed | src/components/Chatbot.tsx:82-112 | after one chunk the buffer, text and done flag are those of `Drain` over the old buffer plus the chunk, and the list shows the new text |
| Chatbot.Assembler.Run | src/components/Chatbot.tsx:79-81 | the state after the read loop is that of `Replay`; a failed read appends one error notice |
| Chatbot.StreamChat | src/components/Chatbot.tsx:58-121 | the message list after one exchange is `Transcript` of the reply |
| Chatbot.TranscriptShape | src/components/Chatbot.tsx:114-121 | only the bot entry is rewritten, and a failure appends exactly one error notice at the end |
| Text.IndexOfSpec | src/components/Chatbot.tsx:85 | `indexOf` gives the first occurrence, or none iff the character does not occur |
| Text.SplitFirstSpec | src/components/Chatbot.tsx:85-87 | the slices before and after the first `\n` rebuild the buffer, and the first slice holds no `\n` |
| Text.TrimSpec | src/components/Chatbot.tsx:90 | `trim` yields the empty string iff all characters are white space; otherwise its ends are not white space |
| Text.TrimDropsTrailingSpace | src/components/Chatbot.tsx:93 | trimming ignores one more trailing white-space character |
| Text.ContainsIffOccurs | supabase/functions/chat/index.ts:83 | `includes` holds iff the text occurs at some index |
| Text.ContainsTransitive | supabase/functions/chat/index.ts:83 | a string that includes a phrase includes every phrase inside that phrase |
| Text.SplitJoin | supabase/functions/chat/index.ts:91-93 | splitting on the separator undoes joining pieces that hold no separator |
| Text.LowerIdempotent | src/pages/Students.tsx:32-34 | lower-casing twice is lower-casing once |
| Json.Quote | supabase/functions/chat/index.ts:85-87 | `JSON.stringify` of a string writes no raw line break |
| Json.UnescapeEscape | supabase/functions/chat/index.ts:94-96 | the characters between the quotes read back as the original string |
| Json.UnquoteQuote | supabase/functions/chat/index.ts:94-96 | reading back a string `JSON.stringify` wrote gives the original string |
| Relay.LongPhrasesRedundant | supabase/functions/chat/index.ts:83-120 | the long phrase of each intent contains its short phrase |
| Relay.IntentPrecedence | supabase/functions/chat/index.ts:80-138 | first match wins in the order courses, attendance, marks, fees; none iff no phrase occurs |
| Relay.CoursesAnswerLines | supabase/functions/chat/index.ts:91-95 | the answer is the header, a blank line and one line per enrollment, in order, so it has two lines more than there are enrollments |
| Relay.CoursesFallback | supabase/functions/chat/index.ts:84-90 | the courses answer is the fixed "no enrolled courses" text iff the enrollments are null or empty |
| Relay.PresentCount | supabase/functions/chat/index.ts:109-110 | `present` is at most `total`; it equals `total` iff every record is present, and is zero iff none is |
| Relay.NoRecordsFallback | supabase/functions/chat/index.ts:112-114 | `No records` appears iff there are no records |
| Relay.AttendanceAnswerLines | supabase/functions/chat/index.ts:109-114 | summary lines with present/total, then at most five record lines, the first five records in the order the query returned them, or `No records` |
| Relay.AttendanceFallback | supabase/functions/chat/index.ts:102-108 | the attendance answer is the fixed "couldn't fetch" text iff there is no profile |
| Relay.MarkLineFalsy | supabase/functions/chat/index.ts:128-129 | a zero mark shows as `N/A` like a missing one, and an empty grade shows as `Pending` like a missing one |
| Relay.MarksAnswerLines | supabase/functions/chat/index.ts:128-132 | header, blank line, one line per mark, blank line, then the CGPA line |
| Relay.MarksFallback | supabase/functions/chat/index.ts:121-127 | the marks answer is the fixed "no marks" text iff the marks are null or empty |
| Relay.FeesFalsy | supabase/functions/chat/index.ts:147 | paid shows 0 for null as for zero, and an empty due date shows no due-date line, like a missing one |
| Relay.FeesAnswerLines | supabase/functions/chat/index.ts:146-147 | six lines; paid defaults to 0, and the due-date line is empty iff no due date is set |
| Relay.FeesFallback | supabase/functions/chat/index.ts:139-145 | the fees answer is the fixed "no fee information" text iff there is no fee record |
| Relay.PromptFramed | supabase/functions/chat/index.ts:153-172 | the system prompt always opens with the fixed introduction and closes with the fixed closing |
| Relay.StudentBlockOnlyWithProfile | supabase/functions/chat/index.ts:161-168 | between the two stands the student block when there is a profile, and nothing otherwise |
| Relay.ProfileBlockLines | supabase/functions/chat/index.ts:161-168 | the block is a header and six labelled lines, each ending in a line break; null columns read `null` |
| Relay.UpstreamKeepsConversation | supabase/functions/chat/index.ts:174-189 | the upstream sees the system message, then all the caller's messages unchanged and in order, on a streamed request with the fixed model and token limit |
| Relay.ContentRoundTrip | supabase/functions/chat/index.ts:94-96 | the `{ content }` object reads back as itself |
| Relay.ErrorRoundTrip | supabase/functions/chat/index.ts:212 | the `{ error }` object reads back as itself |
| Relay.ReplyRoundTrip | supabase/functions/chat/index.ts:85-98 | every reply object the relay writes reads back as itself and holds no raw line break |
| Relay.StatusMapping | supabase/functions/chat/index.ts:192-209 | relayed status 200 iff upstream 2xx, with the body passed through as an event stream; 429 iff upstream 429; every other failure 500 with its error text |
| Relay.Serve | supabase/functions/chat/index.ts:10-216 | OPTIONS gets status 200, the CORS headers and no body; an unreadable body and a missing key get 500; a shortcut question gets its answer with status 200 and no upstream call; every other conversation is forwarded with the system prompt and answered by the status mapping; every response carries the CORS headers |
| Session.OutgoingDecidesIntent | src/components/Chatbot.tsx:43-46 | the request the widget builds ends with the typed text, so the relay's last message is that text lower-cased and its shortcut choice does not depend on the earlier conversation |
| Session.ShortcutNeverShown | src/components/Chatbot.tsx:85-91 | a shortcut answer, however chunked, leaves only the empty bot placeholder in the list |
| Session.StreamShown | src/components/Chatbot.tsx:79-112 | a relayed event stream with one delta and `[DONE]` shows exactly that delta, however chunked |
| Students.Filter | src/pages/Students.tsx:30-35 | the filtered list is never longer than the list |
| Students.FilterSubsequence | src/pages/Students.tsx:30 | the filtered list is a subsequence of the students, in their original order |
| Students.FilterSound | src/pages/Students.tsx:31-34 | every kept student is a student whose lower-cased name, e-mail or course contains the lower-cased term |
| Students.FilterComplete | src/pages/Students.tsx:30-35 | every student whose name, e-mail or course contains the term is kept |
| Students.FilterCount | src/pages/Students.tsx:30-35 | each matching student is kept exactly as often as it occurs, and each other student not at all |
| Students.FilterAppend | src/pages/Students.tsx:30 | filtering two parts of a list is filtering each part, in order |
| Students.CaseInsensitive | src/pages/Students.tsx:32-34 | terms that differ only in letter case select the same students |
| Students.LowerTermSame | src/pages/Students.tsx:32-34 | a term selects what its lower-cased form selects |
| Students.EmptyTermKeepsAll | src/pages/Students.tsx:30-35 | an empty search keeps every student |

## Left out

- Network and I/O are inputs, not operations:
  - the widget's `fetch` of the relay and the relay's `fetch` of the upstream;
  - the authentication and data-store queries (`supabase/functions/chat/index.ts:30-77`), whose results are the `StudentData` record (the profile-gated query order, `limit(10)` and `order('date')` are not modelled);
  - `reader.read()`, modelled as a sequence of `Read` values;
  - `console.error` logging.
- `JSON.parse` of the upstream frames is the abstract `parse` function, not a verified parser. `req.json()` of the relay's request is the `Payload` value: unreadable, without messages, or the messages.
- `TextDecoder` multi-byte decoding: chunks are already-decoded strings.
- Floating-point numbers and locale formatting (`toFixed`, `toLocaleDateString`, numbers in templates) are the uninterpreted `Format` functions. Numbers are `real`.
- `Text.Lower`: lower-cases ASCII letters only. JavaScript's `toLowerCase` also maps other Unicode letters, for instance the Kelvin sign.
- React state scheduling: the message list is one sequence, updated in program order. Timestamps and `Date.now()` ids are plain string parameters.
- Relay.Serve: the `Content-Type` header of the upstream request, and the service-role client set-up, are not modelled. A join such as `e.courses` is taken to be non-null.
- Relay.Serve: a failure while reading a non-OK upstream body (`response.text()`) is not modelled; such a failure would also be answered with status 500.
- Relay.LastMessage: every message is taken to carry a string `content`. The two cases of `messages[messages.length - 1]?.content?.toLowerCase()` that need another value are not modelled. A last message without content gets no shortcut and is forwarded. A non-string content throws a TypeError and gets status 500.
- Chatbot.Drain: a pushed-back line is stored without the `\r` it lost, so its buffer can differ from the buffer before the extraction by that one character. The contracts of `Chatbot.DrainMalformedLine` and `Chatbot.ReplayAgreesWithDrain` state the buffer equality only where it holds.
- The preflight answer has status 200, the default of `new Response(null, ...)`, and not 204. A successful stream is relayed with the relay's own `Content-Type: text/event-stream` and status 200, not with the upstream's headers.
