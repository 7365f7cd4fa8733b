# MediPulse front-end logic in Dafny

MediPulse is a browser health assistant. This project models the parts of it that carry logic:

- **The live voice session** (`src/services/geminiService.ts`):
  - the tool list declared to the remote model;
  - the dispatcher that answers every tool call and runs host callbacks;
  - the playback scheduler that queues response audio back to back and flushes it on interruption;
  - the teardown in `disconnectLive`;
  - the PCM codec (byte/binary-string conversion, 16-bit little-endian packing, float quantisation, de-interleaving);
  - the chat stream's grounding-source extraction and quota-error test.
- **The screens that drive it**:
  - the Live Assistant toggle and its status mapping;
  - the sign-in screen (guest mobile sanitiser, guest record, administrator password);
  - the checkout dialog (card-number formatter, fill check, steps);
  - the two chat screens (keyword router, streamed answer, de-duplicated sources);
  - the vitals dialog (simulated heart-rate scan, wearable sync, submission).

Each source file becomes one module:

| module | source |
|---|---|
| `GeminiService` and `PcmCodec` | the service |
| `LiveAssistant` | the Live Assistant screen |
| `Login` | the sign-in screen |
| `Payment` | the checkout dialog |
| `AiChat`, `SymptomChecker`, with the shared `ChatStream` | the two chat screens |
| `LogVitals` | the vitals dialog |

`Types` holds the records of `src/types.ts`. `Text` holds the string helpers the screens share: digit filtering, substring search, ASCII lower-casing, JavaScript `trim` and decimal printing.

How the source becomes the model:

- **State.** Component state updated by handlers becomes a class whose methods update its fields. The service's module-level variables become the fields of `GeminiService.LiveSession`.
- **Pure logic.** Formatting, routing, extraction and de-duplication are functions with lemmas.
- **Timers and callbacks.** Each one is a method that runs atomically. A closure's captured values are stored when the timer is set.
- **Outside inputs.** Randomness, clocks, device answers and exceptions thrown by host callbacks are parameters.

The model follows the code where the specification of the system says otherwise:

- A tool call naming no known tool, or an administrator tool in a non-administrator session, is answered `ok`, not with an error status.
- Microphone samples are truncated and wrapped into 16 bits by the `Int16Array` store (so a full-scale `1.0` becomes `-32768`). They are not rounded and clamped.
- After an interruption, the playback start time is reset to `0`, not to the clock. The next chunk still starts at the clock, because it starts at `max(nextStartTime, currentTime)`.
- Booking replies `appointment booked successfully`.

## Model

| member | source | states |
|---|---|---|
| GeminiService.ActiveTools | src/services/geminiService.ts:496-513 | non-admin sessions declare exactly updateProfile and bookAppointment; admin sessions add addDoctor, updateAppointment, deleteAppointment in that order; every required parameter is a declared parameter |
| GeminiService.DeclaredNames | src/services/geminiService.ts:383-453 | a name is declared iff it is a user tool, or an admin tool in an admin session |
| GeminiService.RouteCallDecisionTable | src/services/geminiService.ts:589-619 | the dispatch chain as a decision table: a handler runs iff the name is declared for the session and its callback is supplied, and it is that tool's handler; a name not declared for the session is answered 'ok'; 'error: capability not available' is answered iff an admin tool is called in an admin session without its callback |
| GeminiService.FailedIffHandlerThrew | src/services/geminiService.ts:589-623 | 'error executing action' is reported exactly when the call's route ran a handler and that handler threw |
| GeminiService.Answer | src/services/geminiService.ts:625-634 | every reply echoes the call's id and name |
| GeminiService.Responses | src/services/geminiService.ts:588-634 | one reply per call |
| GeminiService.ResponsesAnswerCalls | src/services/geminiService.ts:588-634 | reply k answers call k: same id, same name, and the status its route and its handler's outcome give |
| GeminiService.Invoked | src/services/geminiService.ts:589-619 | at most one handler runs per call |
| GeminiService.InvocationsAreDeclared | src/services/geminiService.ts:588-634 | no more handler runs than calls, and every handler run serves a call, in this message, that names that handler's tool with its arguments |
| GeminiService.UndeclaredCallsRunNothing | src/services/geminiService.ts:589-619 | a message none of whose calls names a tool declared for the session runs no handler |
| GeminiService.NonAdminRunsOnlyUserHandlers | src/services/geminiService.ts:598-618 | a non-admin session never runs an administrator handler |
| GeminiService.Starts | src/services/geminiService.ts:641-660 | one start time per chunk |
| GeminiService.BackToBack | src/services/geminiService.ts:641-660 | when every chunk arrives before the audio already queued ends, chunk k starts exactly when the first k chunks have played: gap-free playback |
| GeminiService.MicErrorStatus | src/services/geminiService.ts:543-552 | a refused microphone reports permission_denied iff the error is NotAllowedError or PermissionDismissedError, and error otherwise |
| GeminiService.QuotaSurvivesAppend | src/services/geminiService.ts:112-128 | appending the error messages to the serialised error keeps a quota error a quota error |
| GeminiService.QuotaInJsonGivesQuotaNotice | src/services/geminiService.ts:112-128 | when the error's JSON form carries a quota marker, the error text built from it and its two messages selects the quota notice, whatever the messages are |
| GeminiService.ErrorNoticeFor | src/services/geminiService.ts:123-133 | the quota notice is chosen iff the error text contains 429, RESOURCE_EXHAUSTED or quota |
| GeminiService.WebSources | src/services/geminiService.ts:94-97 | the extraction never yields more sources than chunks |
| GeminiService.WebSourcesAppend | src/services/geminiService.ts:94-97 | extraction distributes over concatenation: it keeps web entries in order |
| GeminiService.WebSourcesMembership | src/services/geminiService.ts:94-97 | a source is extracted iff some chunk carries it as its web entry |
| GeminiService.UpdateSources | src/services/geminiService.ts:92-102 | an update carries sources iff grounding chunks are present and one of them has a web entry; the list is then the extraction and non-empty |
| GeminiService.WebSourcesNonEmpty | src/services/geminiService.ts:94-101 | the extraction is non-empty iff some chunk has a web entry |
| GeminiService.ChunkUpdate | src/services/geminiService.ts:84-104 | an update carries text iff the chunk's text is non-empty, and then that text; its sources are the extracted ones |
| GeminiService.TrendWord | src/services/geminiService.ts:144 | up is written increasing, down decreasing, and anything else stable, each iff |
| GeminiService.TrendWordInjective | src/services/geminiService.ts:144 | different trends are written differently |
| GeminiService.ReleasesExactlyHeld | src/services/geminiService.ts:698-741 | teardown releases a resource iff its handle is held, and releases as many resources as there are held handles |
| GeminiService.LiveSession.constructor | src/services/geminiService.ts:361-367 | at load no handle is held, no source is scheduled and the start time is 0 |
| GeminiService.LiveSession.Connect | src/services/geminiService.ts:464-696 | both audio contexts are always created; a missing key stops before any report; a refused microphone reports the mapped status; a throwing connect reports error; otherwise the session is opened with the tool list for the caller's privilege |
| GeminiService.LiveSession.OnOpen | src/services/geminiService.ts:559-584 | reports connected, then wires the microphone and processor only while the input context exists |
| GeminiService.LiveSession.OnAudioProcess | src/services/geminiService.ts:567-579 | while the processor is wired each frame is sent as the PCM blob of its samples |
| GeminiService.LiveSession.DispatchToolCalls | src/services/geminiService.ts:586-636 | the replies sent are Responses and the handlers run are Invocations of the whole call list, in loop order |
| GeminiService.LiveSession.OnMessage | src/services/geminiService.ts:585-668 | tool replies first; then a decodable chunk is scheduled at max(nextStartTime, now) and pushes nextStartTime to its end; an undecodable one raises nextStartTime to the clock and ends the handler; an interruption with no chunk stops and forgets every source and resets nextStartTime to 0 |
| GeminiService.LiveSession.PlayChunk | src/services/geminiService.ts:638-661 | the chunk starts at max(nextStartTime, now), nextStartTime becomes its end and the new source joins the active set; a failed decode leaves only the raised start time |
| GeminiService.LiveSession.Interrupt | src/services/geminiService.ts:663-667 | every active source is stopped, the set is emptied and the start time is 0 |
| GeminiService.LiveSession.OnSourceEnded | src/services/geminiService.ts:654-656 | an ended source leaves the active set |
| GeminiService.LiveSession.Disconnect | src/services/geminiService.ts:698-741 | afterwards no handle is held and no source is active; what was held is released in order and the active sources are stopped; a second call changes nothing |
| GeminiService.LiveSession.ReleaseCapture | src/services/geminiService.ts:700-718 | microphone, processor and input context are released when held and cleared |
| GeminiService.LiveSession.ReleasePlayback | src/services/geminiService.ts:726-740 | output context and session are released when held and cleared |
| GeminiService.LiveSession.OnClose | src/services/geminiService.ts:669-672 | reports disconnected, then tears down as disconnectLive does: releases in order exactly what was held, stops every scheduled source, touches nothing else, and changes nothing when already torn down |
| GeminiService.LiveSession.OnError | src/services/geminiService.ts:673-677 | reports error, then tears down as disconnectLive does: releases in order exactly what was held, stops every scheduled source, touches nothing else, and changes nothing when already torn down |
| PcmCodec.DecodeEncode | src/services/geminiService.ts:280-297 | decoding the binary string of some bytes gives the bytes back |
| PcmCodec.EncodeDecode | src/services/geminiService.ts:280-297 | encoding the bytes of a binary string gives the string back |
| PcmCodec.Encode | src/services/geminiService.ts:290-297 | character i of the binary string has byte i's code |
| PcmCodec.Decode | src/services/geminiService.ts:280-288 | the fresh byte array holds the character codes of the binary string |
| PcmCodec.Unsigned16 | src/services/geminiService.ts:305 | the two's-complement reading of a 16-bit sample |
| PcmCodec.Int16OfBytes | src/services/geminiService.ts:305 | splitting a sample into its little-endian bytes and reading them back gives the sample |
| PcmCodec.BytesOfInt16 | src/services/geminiService.ts:305 | reading two bytes as a sample and splitting it again gives the bytes |
| PcmCodec.ViewOfPacked | src/services/geminiService.ts:305 | the Int16Array view of packed samples is the samples |
| PcmCodec.PackedOfView | src/services/geminiService.ts:305 | packing the view of an even-length buffer gives the buffer |
| PcmCodec.Int16ViewAt | src/services/geminiService.ts:305 | sample k of the view is read from bytes 2k and 2k+1 |
| PcmCodec.TruncateToInt | src/services/geminiService.ts:374 | truncation toward zero, as the Int16Array store does |
| PcmCodec.WrapInt16 | src/services/geminiService.ts:374 | wrapping modulo 2^16 keeps in-range values and lands in int16 |
| PcmCodec.QuantizeWithinOneStep | src/services/geminiService.ts:371-374 | below full scale a sample is truncated and is within one quantisation step of its value |
| PcmCodec.QuantizeFullScaleWraps | src/services/geminiService.ts:371-374 | a full-scale 1.0 wraps to -32768 |
| PcmCodec.QuantizedWithinOneStep | src/services/geminiService.ts:371-374 | every sample in [-1, 1) is stored as its truncation, unwrapped, within one quantisation step of its value |
| PcmCodec.CreatePcmBlob | src/services/geminiService.ts:369-381 | the blob is the binary string of the little-endian packing of the quantised samples, tagged audio/pcm;rate=16000 |
| PcmCodec.DecodeAudioData | src/services/geminiService.ts:299-317 | an odd byte count or zero frames fails; otherwise channel c, frame i holds sample i*channels+c divided by 32768 |
| PcmCodec.FrameIndexInRange | src/services/geminiService.ts:309-314 | every index the de-interleaving loop reads is inside the sample view |
| PcmCodec.DecodedSampleBytes | src/services/geminiService.ts:305-314 | the sample read for channel c, frame i comes from the bytes at 2(i*channels+c) |
| PcmCodec.MonoRoundTrip | src/services/geminiService.ts:299-381 | decoding the encoding of a mono frame gives every sample back as its quantised value over 32768 |
| LiveAssistant.MapStatus | src/components/LiveAssistant.tsx:74-78 | disconnected becomes idle; every other service status passes through unchanged; the mapping never yields connecting |
| LiveAssistant.MapStatusInjectiveOffDisconnected | src/components/LiveAssistant.tsx:74-78 | away from disconnected, distinct service statuses map to distinct component statuses |
| LiveAssistant.Assistant.constructor | src/components/LiveAssistant.tsx:31-32 | starts idle with volume 0 |
| LiveAssistant.Assistant.OnStatusChange | src/components/LiveAssistant.tsx:74-78 | the status becomes the mapped service status |
| LiveAssistant.Assistant.Toggle | src/components/LiveAssistant.tsx:43-90 | while connected or connecting it disconnects (releases in order what was held, stops the scheduled sources, keeps the connect-time fields), goes idle and zeroes the volume; otherwise a key picker still reporting no key leaves everything alone; else the status becomes connecting and the session connects, leaving its capture handles, sources and release log as they were: on success with the caller's privilege, tool list and callbacks, and on any failure with its session, privilege, callbacks and tool list unchanged |
| LiveAssistant.Assistant.SessionOpened | src/components/LiveAssistant.tsx:74-78 | the session opening shows connected |
| LiveAssistant.Assistant.SessionClosed | src/components/LiveAssistant.tsx:74-78 | the session closing tears down (releases in order what was held, stops the scheduled sources, touches nothing else of the session) and shows idle |
| LiveAssistant.Assistant.SessionFailed | src/components/LiveAssistant.tsx:74-78 | a session error tears down (releases in order what was held, stops the scheduled sources, touches nothing else of the session) and shows the error overlay |
| LiveAssistant.Assistant.Dismiss | src/components/LiveAssistant.tsx:189-205 | dismissing the overlay returns to idle |
| LiveAssistant.Assistant.Unmount | src/components/LiveAssistant.tsx:36-41 | unmounting always tears the session down, releasing in order what was held and stopping the scheduled sources, and leaves the session entirely unchanged when it already was |
| Login.SanitizeMobile | src/components/Login.tsx:290-294 | the stored mobile is all digits, at most ten, and a prefix of the typed digits: the first ten of them |
| Login.SanitizeMobileIdempotent | src/components/Login.tsx:290-293 | sanitising a stored value changes nothing |
| Login.SanitizedValidity | src/components/Login.tsx:107-110 | a sanitised mobile passes the guest check iff at least ten digits were typed; a valid value is left as it is |
| Login.FirstWord | src/components/Login.tsx:118 | the given name is the text before the first space |
| Login.GuestUserFields | src/components/Login.tsx:116-122 | the guest record: the typed name or Guest User; given name the text before the first space (FirstWord) or Guest; fixed e-mail; picture the avatar URL seeded by the name or Guest; the mobile; no role |
| Login.LoginScreen.constructor | src/components/Login.tsx:46-56 | nothing open, nothing typed, no error, nobody logged in |
| Login.LoginScreen.GuestLoginClick | src/components/Login.tsx:96-101 | opening the guest form clears mobile, name and error |
| Login.LoginScreen.MobileChange | src/components/Login.tsx:290-294 | the stored mobile is the sanitised input |
| Login.LoginScreen.NameChange | src/components/Login.tsx:275 | the name is stored as typed |
| Login.LoginScreen.CloseGuestModal | src/components/Login.tsx:253 | the guest form closes |
| Login.LoginScreen.SubmitGuest | src/components/Login.tsx:103-124 | an invalid mobile sets the error and keeps the form open with nothing scheduled; a valid one closes it, starts loading and schedules the guest record |
| Login.LoginScreen.AdminClick | src/components/Login.tsx:127-131 | opening the admin form clears password and error |
| Login.LoginScreen.PasswordChange | src/components/Login.tsx:346-349 | the password is stored and the error cleared |
| Login.LoginScreen.CloseAdminModal | src/components/Login.tsx:324 | the admin form closes |
| Login.LoginScreen.VerifyAdmin | src/components/Login.tsx:134-154 | exactly admin@123 closes the form, starts loading and schedules the administrator record; anything else sets the error and schedules nothing |
| Login.LoginScreen.LoginTimerFires | src/components/Login.tsx:115-123 | the oldest scheduled record is passed to onLogin |
| Payment.Take16 | src/components/PaymentModal.tsx:44 | a prefix of the value: the whole value when it has at most sixteen characters, otherwise exactly its first sixteen |
| Payment.Group4 | src/components/PaymentModal.tsx:45 | grouping keeps emptiness and adds one space per full group of four after the first |
| Payment.Group4Spaces | src/components/PaymentModal.tsx:45 | spaces stand exactly at every fifth position |
| Payment.DigitsOfGroup4 | src/components/PaymentModal.tsx:45 | removing the spaces from a grouped number gives the digits |
| Payment.FormatCardNumber | src/components/PaymentModal.tsx:42-46 | at most 19 characters, spaces exactly at every fifth position, empty when nothing typed is a digit |
| Payment.FormattedDigits | src/components/PaymentModal.tsx:42-46 | the digits of the formatted number are the first sixteen typed digits |
| Payment.FormatCardNumberIdempotent | src/components/PaymentModal.tsx:42-46 | formatting a formatted number changes nothing |
| Payment.FormData.With | src/components/PaymentModal.tsx:36-39 | the named field takes the value and every other field is kept |
| Payment.IsFilledIffTrimmedNonEmpty | src/components/PaymentModal.tsx:63-68 | the form is filled iff no field trims to the empty string |
| Payment.TestCardIsFilled | src/components/PaymentModal.tsx:48-57 | the test card passes the fill check |
| Payment.PaymentModal.constructor | src/components/PaymentModal.tsx:11-19 | the form step with empty fields and nothing scheduled |
| Payment.PaymentModal.Open | src/components/PaymentModal.tsx:21-34 | opening resets to the form step with every field empty |
| Payment.PaymentModal.InputChange | src/components/PaymentModal.tsx:36-39 | the named field takes the value, the others are kept |
| Payment.PaymentModal.CardNumberChange | src/components/PaymentModal.tsx:42-46 | the card number becomes the formatted input |
| Payment.PaymentModal.FillTestCard | src/components/PaymentModal.tsx:48-57 | the form becomes the test card |
| Payment.PaymentModal.Pay | src/components/PaymentModal.tsx:59-83 | an unfilled form calls onClose and keeps the step; a filled one moves to processing and starts the payment timer |
| Payment.PaymentModal.PaymentTimerFires | src/components/PaymentModal.tsx:80-82 | the payment timer moves to success |
| Payment.PaymentModal.Finalize | src/components/PaymentModal.tsx:85-88 | onSuccess then onClose |
| Payment.PaymentModal.Close | src/components/PaymentModal.tsx:145 | onClose |
| Text.TrimEmptyIffBlank | src/components/AiChat.tsx:51 | trim gives the empty string iff every character is JavaScript whitespace |
| Text.TrimsToEmpty | src/components/AiChat.tsx:51 | the trim test of the send guards answers exactly blankness |
| Text.ToLowerAt | src/components/AiChat.tsx:34 | lower-casing maps each character on its own |
| Text.ToLowerIdempotent | src/components/AiChat.tsx:34 | lower-casing twice is lower-casing once |
| ChatStream.Posted | src/components/AiChat.tsx:53-73 | sending keeps the list and appends the user's message (id now, its text, not typing, no sources), then a typing, empty, source-less model placeholder whose id is one past the clock's second reading, so later than the user's whenever the clock has not gone back |
| ChatStream.StreamTextGrows | src/components/SymptomChecker.tsx:57-59 | the accumulated answer only grows: after more chunks it extends what was shown before |
| AiChat.FirstMatchIsEarliest | src/components/AiChat.tsx:33-48 | the router finds no topic iff no rule's keyword occurs; otherwise it finds the first rule in source order whose keyword occurs |
| AiChat.LocalResponse | src/components/AiChat.tsx:33-48 | no local answer iff no branch matches the lower-cased input; otherwise the answer is the text of the earliest matching branch's topic |
| AiChat.LocalResponseCaseInsensitive | src/components/AiChat.tsx:34 | the router ignores ASCII case |
| AiChat.FeverBeforeHeadache | src/components/AiChat.tsx:35-36 | a message mentioning fever and headache gets the fever answer |
| AiChat.StreamTextEmptyIffUntexted | src/components/AiChat.tsx:96-106 | the streamed answer is empty iff no chunk carried text |
| AiChat.SetText | src/components/AiChat.tsx:99-105 | only the message with the id is rewritten, with the text and no longer typing |
| AiChat.SetTextTwice | src/components/AiChat.tsx:99-105 | a later rewrite of the same message supersedes an earlier one |
| AiChat.Chat.constructor | src/components/AiChat.tsx:8-17 | the greeting only, nothing typed, nothing pending |
| AiChat.Chat.InputChange | src/components/AiChat.tsx:210 | the input is stored as typed |
| AiChat.Chat.Send | src/components/AiChat.tsx:50-117 | a blank input or a send in progress changes nothing; otherwise the two messages are posted, the input is cleared, and the local answer is scheduled or the remote answer streamed |
| AiChat.Chat.ReplyLocally | src/components/AiChat.tsx:76-90 | a matched topic schedules its answer and keeps the send in progress |
| AiChat.Chat.ReplyRemotely | src/components/AiChat.tsx:92-116 | the input is sent; the placeholder holds the streamed text, or the failure text after an error, and the send ends |
| AiChat.Chat.StreamAnswer | src/components/AiChat.tsx:95-113 | after the loop the messages are those the stream, or its failure, leaves |
| AiChat.Chat.LocalTimerFires | src/components/AiChat.tsx:79-88 | the oldest local timer writes its answer into its placeholder and ends the send |
| SymptomChecker.IndexOfUri | src/components/SymptomChecker.tsx:63 | the first position holding the URI, or the length when none does |
| SymptomChecker.Insert | src/components/SymptomChecker.tsx:63 | Map.set: an existing URI keeps its place and takes the new entry; a new URI is appended |
| SymptomChecker.InsertAllSnoc | src/components/SymptomChecker.tsx:63 | setting one more entry at the end is one more Insert |
| SymptomChecker.InsertAllAppend | src/components/SymptomChecker.tsx:63 | setting a+b is setting a, then b |
| SymptomChecker.InsertAllDistinct | src/components/SymptomChecker.tsx:63 | setting entries into a URI-distinct list keeps it URI-distinct |
| SymptomChecker.InsertAllFresh | src/components/SymptomChecker.tsx:63 | entries whose URIs are all new are simply appended |
| SymptomChecker.DedupDistinct | src/components/SymptomChecker.tsx:63 | the de-duplicated list has distinct URIs |
| SymptomChecker.DedupMerge | src/components/SymptomChecker.tsx:61-63 | de-duplicating the de-duplicated list plus new entries is de-duplicating everything |
| SymptomChecker.DedupKeepsEveryUri | src/components/SymptomChecker.tsx:63 | every received URI is kept, and every kept entry was received |
| SymptomChecker.DedupKeepsLatest | src/components/SymptomChecker.tsx:63 | the entry kept for a URI is its last occurrence |
| SymptomChecker.DedupFirstSeenOrder | src/components/SymptomChecker.tsx:63 | kept URIs are in the order they were first received |
| SymptomChecker.SourcesAfterIsDedup | src/components/SymptomChecker.tsx:56-65 | merging chunk by chunk is de-duplicating everything received so far |
| SymptomChecker.NoSourcesUntilReceived | src/components/SymptomChecker.tsx:69 | the message has no sources iff none was received yet |
| SymptomChecker.SetAnswer | src/components/SymptomChecker.tsx:66-72 | only the message with the id is rewritten, with the text and sources and no longer typing |
| SymptomChecker.SetAnswerTwice | src/components/SymptomChecker.tsx:66-72 | a later rewrite of the same message supersedes an earlier one |
| SymptomChecker.Checker.constructor | src/components/SymptomChecker.tsx:7-16 | the greeting only, nothing typed |
| SymptomChecker.Checker.InputChange | src/components/SymptomChecker.tsx:157 | the input is stored as typed |
| SymptomChecker.Checker.Send | src/components/SymptomChecker.tsx:27-79 | a blank input or a send in progress changes nothing; otherwise the two messages are posted, the input is sent and cleared, the placeholder holds the answer after every chunk, and the send ends |
| SymptomChecker.Checker.AnswerStream | src/components/SymptomChecker.tsx:53-73 | after the loop the placeholder holds the whole text and the de-duplicated sources |
| LogVitals.Change | src/components/LogVitalsModal.tsx:59 | a tick drifts by -2 to 2 |
| LogVitals.ChangeTakesEveryValue | src/components/LogVitalsModal.tsx:59 | every drift from -2 to 2 occurs |
| LogVitals.NextBpm | src/components/LogVitalsModal.tsx:57-61 | after a tick the reading lies in [65, 85]; it is exactly prev + change when that is in range, and the nearer bound otherwise |
| LogVitals.NextBpmStaysClose | src/components/LogVitalsModal.tsx:57-61 | inside the band a tick moves the reading by at most 2 |
| LogVitals.FirstTickReads65 | src/components/LogVitalsModal.tsx:40-61 | a scan starts at 60, so the first tick reads 65 |
| LogVitals.LiveBpmBounded | src/components/LogVitalsModal.tsx:40-61 | along a scan, every reading after the first tick lies in [65, 85] and consecutive readings differ by at most 2 |
| LogVitals.FinalBpm | src/components/LogVitalsModal.tsx:71 | the settled reading lies in [70, 82] when the arithmetic is exact |
| LogVitals.FinalBpmTakesEveryValue | src/components/LogVitalsModal.tsx:71 | every reading from 70 to 82 occurs |
| LogVitals.FinalBpmText | src/components/LogVitalsModal.tsx:72 | the settled reading is written as two digits, starting with 7 or 8 |
| LogVitals.Acquire | src/components/LogVitalsModal.tsx:45-46 | a granted camera is held and running in addition to what ran before; a denied one changes nothing |
| LogVitals.StopSeen | src/components/LogVitalsModal.tsx:33-38 | stopCamera stops and clears the stream its closure sees, and does nothing when it sees none |
| LogVitals.Release | src/components/LogVitalsModal.tsx:33-38 | stopping the held stream leaves none held and that stream no longer running |
| LogVitals.FinishAsWrittenLeavesCameraOn | src/components/LogVitalsModal.tsx:40-73 | as written, a scan started without a camera held finishes with the newly acquired camera still held and running |
| LogVitals.FinishReleasesCamera | src/components/LogVitalsModal.tsx:33-68 | stopping the stream held when the finish timer fires leaves no camera held and nothing running that was not running before the scan |
| LogVitals.VitalsDialog.constructor | src/components/LogVitalsModal.tsx:11-23 | empty fields, not scanning or syncing, no camera |
| LogVitals.VitalsDialog.Close | src/components/LogVitalsModal.tsx:26-31 | closing stops the held camera and ends scanning |
| LogVitals.VitalsDialog.HeartRateChange | src/components/LogVitalsModal.tsx:185 | the heart rate is stored as typed |
| LogVitals.VitalsDialog.SleepChange | src/components/LogVitalsModal.tsx:211 | the sleep field is stored as typed |
| LogVitals.VitalsDialog.WaterChange | src/components/LogVitalsModal.tsx:228 | the water field is stored as typed |
| LogVitals.VitalsDialog.StartScan | src/components/LogVitalsModal.tsx:40-73 | scanning starts at progress 0 and reading 60, the camera is acquired when granted, and the finish timer remembers the stream seen at the click |
| LogVitals.VitalsDialog.Tick | src/components/LogVitalsModal.tsx:57-63 | the reading takes the clamped drift and stays in [65, 85]; progress grows by exactly 2 |
| LogVitals.VitalsDialog.FinishScanAsWritten | src/components/LogVitalsModal.tsx:66-73 | scanning ends, the stream seen at the click is stopped, and the heart rate becomes the settled reading |
| LogVitals.VitalsDialog.FinishScan | src/components/LogVitalsModal.tsx:66-73 | scanning ends, the held camera is released, and the heart rate becomes the settled reading, never empty |
| LogVitals.VitalsDialog.BeginSync | src/components/LogVitalsModal.tsx:76-78 | syncing starts and its timer remembers whether the heart rate was empty at the click |
| LogVitals.VitalsDialog.SyncTimerFires | src/components/LogVitalsModal.tsx:78-84 | sleep becomes 7h 45m and water 1.8; the heart rate becomes 72 only when it was empty at the click; syncing ends |
| LogVitals.VitalsDialog.Submit | src/components/LogVitalsModal.tsx:87-94 | onSave receives the current three values, then all three are cleared |

## Left out

- Base64: `atob`/`btoa` are not modelled. Decoding starts from `atob`'s output, and encoding stops at `btoa`'s input.
- `LogVitals.FinalBpm`: double rounding is not modelled, because `Math.random()` and its arithmetic are taken as exact reals. In doubles, `r * 13 + 70` rounds up to 83 for the largest values `Math.random()` can return (for example 1 - 2^-52), so the program can settle on 83 rather than at most 82.
- Float32 rounding is not modelled. Samples are reals, and `x * 32768` is exact for float32 inputs.
- The volume meter is not modelled: its RMS, the moving average of the Live Assistant's volume, and the canvas drawing are floating-point display code.
- Network and SDK calls are not modelled: `getClient`, `chats.create`, `sendMessageStream`, `generateContent`, video, image and speech generation, and Google sign-in. Their outcomes are parameters where the model needs them: a thrown connect, a failed stream, the chunks received.
- The prompt texts, the system instruction and the tool descriptions are not modelled. Only tool names and required parameters are.
- Async interleaving is not modelled: every handler, timer and callback runs atomically. `ai.live.connect` is not awaited, so only a synchronous throw reaches its catch; a rejected promise is not modelled.
- `GeminiService.LiveSession.Connect`: a missing API key makes `getClient` throw outside the try block. The model reports nothing in that case. On the Live Assistant screen the status then stays `connecting`.
- Random numbers, clocks and the ids made from `Date.now()` are parameters. Message ids are integers rather than their decimal strings.
- Browser input behaviour is not modelled: `maxLength`, `type="email"` and `type="number"` sanitising.
- `Text.ToLower`: only ASCII letters are lower-cased. JavaScript's full Unicode case mapping is not modelled.
- `AiChat`: `isProcessingRef` and `lastRequestTimeRef` are declared in the component and never read, so they are not modelled.
- `SymptomChecker.Checker.Send`: a failed stream only logs, so it is modelled as a stream that stops early. The placeholder keeps what it had.
- `LogVitals`: the video element's `srcObject` and the scanning animation are not modelled. Track stopping is recorded per stream, not per track.
- `LogVitals.VitalsDialog.SyncTimerFires`: a heart rate typed between the sync click and its timer is overwritten by 72 when the field was empty at the click, because the timer's closure sees the click-time value. The model keeps this behaviour.
- Scrolling, styling and the decorative parts of every screen are not modelled.

## Findings

| source | as written | input that shows it | evidently intended | confidence | as-written member | corrected member |
|---|---|---|---|---|---|---|
| src/components/LogVitalsModal.tsx:33-68 | the finish timer calls the `stopCamera` of the render where the scan button was clicked, and that render's `cameraStream` is still `null` | open the dialog, start a scan, grant the camera: after 5 s the scan ends with the stream still held and its tracks running until the dialog closes | the finish stops the stream acquired for the scan | not executed | LogVitals.FinishAsWrittenLeavesCameraOn | LogVitals.FinishReleasesCamera |
