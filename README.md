# TrainEz core, modelled in Dafny

TrainEz is a restaurant-staff training app. A trainee picks a scenario, talks
to a simulated customer by text chat or live voice, and has the transcript
scored by a generative-AI model. The scores are kept in browser storage and
summarised on a dashboard. This project models the parts of the app that hold
logic and proves properties of them:

- `voice_mode.dfy` (`VoiceMode`): the live voice session, as the class
  `VoiceBridge`. It covers the message handler, which schedules playback
  chunks on a timeline, accumulates and flushes transcripts, and handles
  barge-in. It also covers starting and stopping the session and the framing
  of captured microphone samples. Pure partner functions and lemmas go with
  it: the transcript accumulator (`TranscriptStep`, `TranscriptRun`) and the
  playback timeline (`Starts`).
- `gemini_service.dfy` (`GeminiService`): the transcript formatting and the
  fallback choice of `evaluateSession`, the byte and binary-string loops
  around base64, and 16-bit PCM de-interleaving.
- `base64.dfy` (`Base64`): the browser's `btoa` and `atob`. `btoa` is the
  encoding of section 4 of RFC 4648. `atob` is the forgiving-base64 decode
  of the WHATWG Infra Standard.
- `dashboard.dfy` (`Dashboard`): the statistics the dashboard shows and the
  skill label.
- `chat_interface.dfy` (`ChatInterface`): the text chat screen, as the class
  `Chat`.
- `app.dfy` (`App`): the application shell, as the class `AppState`. It
  covers views, selection, the session list and its persistence.
- `constants.dfy` (`Constants`): the scenario catalogue and the system
  instruction template.
- `types.dfy` (`Types`): the shared records, plus `Option`, `Result` and
  `byte`.

The model makes these choices throughout:

- Scores are integers, so `Math.round(s / n)` is the integer
  `(2s + n) / (2n)`, with halves rounding up as JavaScript does. An average
  over no evaluated session is `0 / 0`, modelled as `Mean.NaN`.
- The clock of the output audio context is a `real` parameter.
- Replies from the generative-AI endpoints, `JSON.parse`, the session id, the
  timestamp and the outcome of the storage write are all method parameters.
- Every handler runs as one atomic step. The one exception is the chat send,
  which is split at its `await` into `BeginSend` and `CompleteSend`, so that
  voice transcript entries can be appended in between.

Two behaviours of the code are easy to misread, and the model follows the
code in both:

- `startSession` shows "Could not access microphone." both when the
  microphone is refused and when the connection fails, because both land in
  the same `catch` (components/VoiceMode.tsx:120-123). There is no separate
  message for a failed connection.
- Captured samples are neither rounded nor clamped. The code stores
  `sample * 32768` into an `Int16Array`, which truncates toward zero and
  wraps modulo 2^16 (components/VoiceMode.tsx:49). See "## Findings".

## Model

| member | source | states |
|---|---|---|
| Base64.Encode | geminiService.ts:109 | `btoa` output is padded to a multiple of four characters, four per started group of three bytes |
| Base64.Btoa | geminiService.ts:109 | `btoa` succeeds exactly on binary strings (every code below 256) |
| Base64.Atob | geminiService.ts:94 | a successful `atob` yields a binary string |
| Base64.Decode | geminiService.ts:94 | after whitespace removal and padding stripping, decoding fails exactly when the length leaves remainder 1 modulo 4 or some character is outside the alphabet; otherwise it yields three bytes per four characters, rounded down |
| Base64.DecodeSextetsOfSextets | geminiService.ts:93-110 | joining the 6-bit values of any byte sequence group by group gives back exactly those bytes, partial last group included |
| Base64.DecodeEncode | geminiService.ts:93-110 | forgiving decode inverts RFC 4648 encoding for every byte sequence |
| Base64.AtobBtoa | geminiService.ts:94 | `atob(btoa(s)) == s` for every binary string |
| GeminiService.Lines | geminiService.ts:16 | one `sender: text` line per entry, in transcript order |
| GeminiService.Join | geminiService.ts:16 | `join` of no parts is ""; otherwise the result starts with the first part and ends with the last |
| GeminiService.SplitJoin | geminiService.ts:16 | cutting at the separator gives back the joined parts when none of them contains it |
| GeminiService.FormatTranscript | geminiService.ts:16 | an empty transcript gives "", a single entry gives its own line |
| GeminiService.FormatTranscriptReadsBack | geminiService.ts:16 | when no text holds a line break, splitting the formatted transcript at "\n" and parsing each line gives back the transcript: nothing is lost or reordered |
| GeminiService.RequestWith | geminiService.ts:18-26 | the request template puts the title after its head, the description after " - ", and the transcript text after the transcript label, each verbatim, before the closing instructions |
| GeminiService.EvaluationRequest | geminiService.ts:18-26 | the request carries the scenario title, the scenario description and the whole formatted transcript, each verbatim at its fixed offset |
| GeminiService.ZeroResult | geminiService.ts:65-73 | the placeholder has all six scores 0 and the given feedback |
| GeminiService.EvaluateResponse | geminiService.ts:63-89 | missing, empty or "undefined" text gives the no-text placeholder; unparsable text the invalid-JSON placeholder; parsed text is returned unchanged |
| GeminiService.EvaluateResponseSource | geminiService.ts:63-89 | a result with feedback other than the two placeholder texts came from the parser |
| GeminiService.DecodeBase64 | geminiService.ts:93-101 | fails exactly when `atob` does; otherwise the array holds exactly the decoded bytes |
| GeminiService.BinaryOfBytes | geminiService.ts:104-108 | the binary string has one character per byte, character i having code `bytes[i]` |
| GeminiService.EncodeUint8Array | geminiService.ts:103-110 | the result is the RFC 4648 encoding of the bytes, and decoding it gives the bytes back |
| GeminiService.Int16View | geminiService.ts:118 | fails exactly on an odd byte count; otherwise sample i is the signed little-endian pair at 2i |
| GeminiService.BytesOfInt16 | components/VoiceMode.tsx:52 | the two buffer bytes of a 16-bit sample read back as that sample |
| GeminiService.Int16ViewOfPcmBytes | geminiService.ts:118 | viewing an Int16Array's buffer as 16-bit samples again gives the same samples |
| GeminiService.InterleavedIndexInBounds | geminiService.ts:125 | the interleaved index `i * numChannels + channel` of every frame lies inside the samples |
| GeminiService.DecodeAudioBuffer | geminiService.ts:112-129 | RangeError exactly on an odd byte count, NotSupportedError exactly when there are no frames; otherwise `numChannels` rows of `samples / numChannels` frames read from the interleaved positions, and for one channel sample i is input sample i |
| GeminiService.FillChannel | geminiService.ts:122-126 | the inner loop sets every frame of one channel from its interleaved position and leaves every other channel as it was |
| Constants.Scenarios | constants.tsx:4-41 | four scenarios with the ids host-1, server-1, server-2, manager-1, pairwise distinct, non-empty opening lines, each for a host, server or manager |
| Constants.LanguageName | constants.tsx:48 | "Spanish" exactly for the code "es", "English" for every other value |
| Constants.Labelled | constants.tsx:43-56 | the instruction template lays out four labels and four fields alternately, each verbatim, before the closing text |
| Constants.SystemPrompt | constants.tsx:43-56 | the description, profile and role appear verbatim at their offsets, and the language name after them, followed by the fixed instructions |
| Constants.SystemPromptLabels | constants.tsx:43-56 | the instruction opens with its head, and the "Your Profile", "Staff Role Being Trained" and "Language" labels stand right before their fields |
| Constants.SystemPromptLanguage | constants.tsx:48 | two prompts for one scenario are equal exactly when both or neither language is "es" |
| Dashboard.RoundedMean | components/Dashboard.tsx:14 | the result is within half a unit of `sum / count`, halves rounding up |
| Dashboard.RoundedMeanWithin | components/Dashboard.tsx:14 | rounding a mean of values in [lo, hi] stays in [lo, hi] |
| Dashboard.SumWithin | components/Dashboard.tsx:14 | the sum of n values in [lo, hi] lies in [n*lo, n*hi] |
| Dashboard.EvaluatedScores | components/Dashboard.tsx:13 | there are no scores exactly when no session has an evaluation |
| Dashboard.EvaluatedScoresFrom | components/Dashboard.tsx:13 | every listed score is the overall score of an evaluated session |
| Dashboard.Average | components/Dashboard.tsx:13-14 | NaN exactly when no session is evaluated; otherwise the integer nearest the mean of the evaluated overall scores, halves rounding up |
| Dashboard.AverageProperties | components/Dashboard.tsx:13-14 | the average is NaN exactly when no session is evaluated, and lies in 0..100 when all scores do |
| Dashboard.Breakdown | components/Dashboard.tsx:17-21 | one bar per category, in category order, named after its key; bar k scores the integer nearest the mean of category k over all sessions, an absent evaluation counting 0, halves rounding up |
| Dashboard.BreakdownNames | components/Dashboard.tsx:17-19 | five bars named Politeness, Clarity, Speed, Empathy, ProblemSolving, in that order |
| Dashboard.BreakdownWithin | components/Dashboard.tsx:20 | every bar lies in 0..100 when every evaluation's scores do, absent evaluations counting 0 |
| Dashboard.Decimal | components/Dashboard.tsx:25 | the digits of a number below 10 are that single digit |
| Dashboard.LastSeven | components/Dashboard.tsx:24 | the last min(7, n) sessions, as a suffix of the list |
| Dashboard.History | components/Dashboard.tsx:24-27 | the history has min(7, n) points labelled "Session 1".., point i scoring the matching recent session's overall score or 0 |
| Dashboard.ComputeStats | components/Dashboard.tsx:11-30 | no statistics exactly for an empty list; `total` is the number of sessions |
| Dashboard.SkillLevel | components/Dashboard.tsx:61 | "Expert" exactly above 90, "Professional" exactly in (75, 90], "Training" otherwise, NaN included |
| Dashboard.RecentFirst | components/Dashboard.tsx:106 | the same sessions, newest first |
| VoiceMode.AudioData | components/VoiceMode.tsx:63 | the lookup throws exactly when a model turn has no `parts`, and gives no audio when there is no content or no model turn |
| VoiceMode.Accumulate | components/VoiceMode.tsx:78-83 | each fragment is appended to its own buffer; a buffer without a fragment is untouched |
| VoiceMode.Flush | components/VoiceMode.tsx:85-94 | one entry per non-empty buffer, user before ai, never an empty text; nothing for two empty buffers |
| VoiceMode.TranscriptStep | components/VoiceMode.tsx:77-94 | one message appends its fragments; a turn boundary then leaves both buffers empty |
| VoiceMode.TranscriptRun | components/VoiceMode.tsx:77-94 | a run of messages never emits an entry with empty text, and a run that ends on a turn boundary leaves both buffers empty |
| VoiceMode.RunWithoutTurn | components/VoiceMode.tsx:78-83 | without a turn boundary, messages emit nothing and the buffers gain every fragment in arrival order |
| VoiceMode.TurnFlushesOnce | components/VoiceMode.tsx:77-94 | fragments then a turn boundary emit exactly the flush of all buffered text, once, and leave both buffers empty |
| VoiceMode.Starts | components/VoiceMode.tsx:66-72 | one start time per scheduled chunk |
| VoiceMode.StartsFrom | components/VoiceMode.tsx:66 | no chunk starts before the cursor it was scheduled from |
| VoiceMode.StartsDoNotOverlap | components/VoiceMode.tsx:66-72 | every chunk starts no earlier than its arrival, and no earlier than every earlier chunk ends |
| VoiceMode.ChunkFrames | components/VoiceMode.tsx:67 | a chunk that decodes has at least one frame |
| VoiceMode.VoiceBridge.constructor | components/VoiceMode.tsx:15-25 | inactive, no error, no handles, cursor 0, no sources, empty buffers |
| VoiceMode.VoiceBridge.StartSession | components/VoiceMode.tsx:27-124 | fresh open contexts always replace the old ones, which are left unclosed; the instruction is sent once the microphone is granted; one message covers both failures; only success stores a session |
| VoiceMode.VoiceBridge.OnOpen | components/VoiceMode.tsx:39-40 | the session becomes active |
| VoiceMode.VoiceBridge.OnError | components/VoiceMode.tsx:102-105 | the connection error message is shown |
| VoiceMode.VoiceBridge.OnClose | components/VoiceMode.tsx:106 | the session becomes inactive |
| VoiceMode.VoiceBridge.StopSession | components/VoiceMode.tsx:126-131 | closes only the handles that exist, leaves the session inactive, and touches neither cursor, sources nor buffers |
| VoiceMode.VoiceBridge.ScheduleChunk | components/VoiceMode.tsx:63-75 | the cursor moves to max(cursor, now) first; a chunk that decodes starts there, plays frames/24000 s, moves the cursor to its end, joins the sources, and starts after every scheduled source ends; the timeline invariant holds |
| VoiceMode.VoiceBridge.OnEnded | components/VoiceMode.tsx:74 | exactly the ended source leaves the set |
| VoiceMode.VoiceBridge.AppendTranscripts | components/VoiceMode.tsx:78-83 | the buffers become `Accumulate` of the old buffers |
| VoiceMode.VoiceBridge.CompleteTurn | components/VoiceMode.tsx:85-94 | emits `Flush` of the old buffers and empties both |
| VoiceMode.VoiceBridge.Interrupt | components/VoiceMode.tsx:96-100 | every scheduled source is stopped, the set is empty and the cursor 0; buffers untouched |
| VoiceMode.VoiceBridge.OnMessage | components/VoiceMode.tsx:61-101 | audio, then transcripts, then turn boundary, then interrupt. Throws with no effect on a model turn without parts, and after only raising the cursor on audio that does not decode. Otherwise it emits and buffers as `TranscriptStep` says and keeps the timeline invariant. Without an interrupt, a decoded chunk becomes one newly allocated, unstopped source that starts at max(cursor, now) and plays frames/24000 s, the cursor moves to its end, the cursor never moves back, and no earlier source changes its stopped flag. An interrupt stops every earlier source and the newly allocated chunk this message scheduled (same start and duration), empties the set and resets the cursor to 0 |
| VoiceMode.VoiceBridge.SetLanguage | components/VoiceMode.tsx:14 | a new language prop is recorded and nothing else changes: an open session keeps its instruction, and the next `StartSession` builds its instruction from the new language |
| VoiceMode.SourceNode.Stop | components/VoiceMode.tsx:97 | the source is stopped |
| VoiceMode.Closable.Close | components/VoiceMode.tsx:127-129 | the handle is closed |
| VoiceMode.ToInt16 | components/VoiceMode.tsx:49 | the stored value is in the 16-bit range and congruent modulo 2^16 to the truncated number |
| VoiceMode.StoredSamples | components/VoiceMode.tsx:47-50 | sample i is the stored value of `input[i] * 32768` |
| VoiceMode.ConvertSamples | components/VoiceMode.tsx:46-50 | the filled array holds exactly the stored samples |
| VoiceMode.EncodeCapture | components/VoiceMode.tsx:44-55 | the payload is the base64 of the samples' little-endian buffer and decodes back to exactly those samples |
| VoiceMode.FullScaleSampleWraps | components/VoiceMode.tsx:49 | a full-scale sample 1.0 is stored as -32768 while 0.99 stays positive |
| VoiceMode.ClampedSample | components/VoiceMode.tsx:49 | the clamped conversion is in range, keeps in-range values and saturates the rest |
| VoiceMode.ClampedSampleProperties | components/VoiceMode.tsx:49 | the clamped conversion keeps order and sign, and matches the stored value on every sample in [-1, 1) |
| ChatInterface.TrimStart | components/ChatInterface.tsx:46 | the result is a suffix of the input, after a blank prefix, and does not start with white space |
| ChatInterface.TrimEnd | components/ChatInterface.tsx:46 | the result is a prefix of the input, before a blank suffix, and does not end with white space |
| ChatInterface.Trim | components/ChatInterface.tsx:46 | `trim()` is no longer than its input and neither starts nor ends with white space |
| ChatInterface.TrimStartBlank | components/ChatInterface.tsx:46 | stripping leading white space leaves nothing exactly when the input is only white space |
| ChatInterface.TrimEndBlank | components/ChatInterface.tsx:46 | stripping trailing white space leaves nothing exactly when the input is only white space |
| ChatInterface.TrimEmptyIffBlank | components/ChatInterface.tsx:46 | `trim()` gives "" exactly when the input is only white space |
| ChatInterface.ReplyText | components/ChatInterface.tsx:55-58 | the reply on success, the fixed apology on failure |
| ChatInterface.Chat.constructor | components/ChatInterface.tsx:15-18 | no messages, empty input, not typing, voice off |
| ChatInterface.Chat.InitChat | components/ChatInterface.tsx:22-36 | the chat gets the scenario's system instruction and exactly one ai message, the opening line |
| ChatInterface.Chat.ChangeLanguage | components/ChatInterface.tsx:22-36 | a different language re-runs the mount effect: the chat gets the other system instruction, which differs from the old one, and the conversation restarts from the opening line; the same language changes nothing |
| ChatInterface.Chat.SetInput | components/ChatInterface.tsx:126 | the input holds the typed text |
| ChatInterface.Chat.BeginSend | components/ChatInterface.tsx:44-51 | blank input or a pending reply changes nothing; otherwise the untrimmed text is sent and appended as a user message after all earlier ones, the input is cleared and typing is on |
| ChatInterface.Chat.CompleteSend | components/ChatInterface.tsx:53-61 | the reply, or the apology, is appended as an ai message, and typing is off on both paths |
| ChatInterface.Chat.AppendTranscript | components/ChatInterface.tsx:120 | a voice entry is appended at the end unchanged |
| ChatInterface.Chat.ToggleVoiceMode | components/ChatInterface.tsx:74 | voice mode flips |
| ChatInterface.Chat.Finish | components/ChatInterface.tsx:84 | the whole message list is handed on, unchanged |
| ChatInterface.Exchange | components/ChatInterface.tsx:44-61 | a send from an idle chat appends exactly the user message then the reply, leaving the chat idle with an empty input |
| App.NewSession | App.tsx:37-43 | the session carries the selected scenario's id, the transcript and the evaluation passed in |
| App.AppState.constructor | App.tsx:12-23 | home view, nothing selected, English, not evaluating; sessions are the saved ones or none |
| App.AppState.SelectScenario | App.tsx:25-28 | the scenario is recorded and the training view opens |
| App.AppState.Navigate | App.tsx:84-90 | the chosen view is shown |
| App.AppState.SetLanguage | App.tsx:100-106 | the chosen language is recorded |
| App.AppState.FinishTraining | App.tsx:30-57 | with no selection, nothing changes. A failed request only alerts. On success the session is appended after all earlier ones, storage holds the whole new list, and the evaluation view shows the result. A failed write keeps the appended session but alerts instead. Not evaluating on every path |
| App.AppState.Reset | App.tsx:59-63 | selection and evaluation cleared, home view; sessions and language untouched |
| App.EvaluatedScoresAppend | App.tsx:45 | appending a session adds its overall score, if any, after the earlier scores |
| App.FinishedSessionIsScored | App.tsx:37-45 | after a successful finish the dashboard has one more score and its average is a number |

## Left out

- Rendering, styling, scrolling and animation, and the presentation-only
  components `EvaluationSummary` and `ScenarioCard`.
- The generative-AI SDK (`chats.create`, `sendMessage`, `generateContent`,
  `live.connect`, `sendRealtimeInput`): foreign calls.
  - Their results are parameters.
  - The system instruction and the outbound audio payload are returned
    instead of sent.
  - The model name, response schema and speech configuration are not
    modelled.
- `JSON.parse` is an abstract `string -> Option<Evaluation>`. A parsed value
  that does not have the result's shape is not modelled.
- `JSON.stringify` and `localStorage`: the `stored` field holds the list that
  was written.
- Ids from `Math.random` and timestamps from `Date.now` are parameters.
- Browser audio plumbing: `getUserMedia`, the media-stream source, the script
  processor and its wiring (components/VoiceMode.tsx:41-42, 58-59), and
  `createBufferSource`/`connect`/`start`.
  - A source is a handle with a start time, a duration and a stopped flag.
  - `OnEnded` may be called at any time; it is not tied to the clock.
- The division by 32768.0 in `decodeAudioBuffer` (geminiService.ts:125):
  channel data is kept as the 16-bit integers it is computed from. This is
  floating point.
- Captured samples are exact reals. Float32 rounding and NaN or infinite
  samples are not modelled: floating point.
- `new Int16Array(buffer)` is modelled little-endian, as on every platform
  that runs the app.
- The cleanup effect (components/VoiceMode.tsx:133-135) runs `stopSession`.
  Unmounting is not modelled apart from that method.
- Async interleavings:
  - The message handler, `startSession` and `handleFinishTraining` each run
    as one step.
  - Two message handlers overlapping across the `await` at
    components/VoiceMode.tsx:67 are not modelled.
  - Neither are a reset during a pending evaluation or the stale `sessions`
    closure.
- `decodeAudioBuffer` with a channel count that does not divide the sample
  count: the model's frame count is the integer quotient, as the buffer's
  length conversion gives. The only call uses one channel.
- `DecodeAudioBuffer` requires 1 to 32 channels, the range `createBuffer`
  accepts. The only call passes 1.
- ChatInterface.Chat.CompleteSend: a successful reply whose `text` is
  undefined is not modelled. The reply is a string.
- ChatInterface.Chat.BeginSend and VoiceMode.VoiceBridge.StartSession may be
  called in states the screen never reaches. The send form is only rendered
  while voice mode is off (components/ChatInterface.tsx:119-122), and the
  start button only while no session is active
  (components/VoiceMode.tsx:140-142). The methods do not require these
  states; their contracts hold in every state.
- App.AppState.Navigate: only the two header buttons' views are accepted,
  because those are its only callers.
- VoiceMode.EncodeCapture: follows the code as written. The clamped
  conversion is proved separately (see "## Findings") and is not substituted
  into the capture path, so that the model stays faithful.
- Every scenario's difficulty being Easy, Medium or Hard holds by the type
  `Difficulty`, so it needs no lemma.

## Findings

| source | as written | input that shows it | evidently intended | confidence | as-written member | corrected member |
|---|---|---|---|---|---|---|
| components/VoiceMode.tsx:49 | `int16[i] = inputData[i] * 32768` stores through the Int16Array conversion, which truncates and then wraps modulo 2^16 | a full-scale sample 1.0 gives 32768, stored as -32768, so the loudest positive sample becomes the loudest negative one, while 0.99 stays positive | clamp to [-32768, 32767], which keeps order and sign. `ClampedSample` keeps the truncation toward zero that the store performs; a conversion that rounds to the nearest integer before clamping is not modelled | not executed; follows from the ECMAScript ToInt16 conversion | VoiceMode.FullScaleSampleWraps | VoiceMode.ClampedSampleProperties |
