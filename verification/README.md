# Kikai-kun voice assistant — Dafny model

This project models the control logic of the Kikai-kun voice assistant (talk_system), a Python program on a small board. It has three processes:

- a single-process assistant (`main.py`);
- a wake-word daemon (`wake_word_daemon.py`), which launches a conversation process when it hears "Kikai-kun";
- the conversation process itself (`conversation_app.py`).

All three share the components below:

| Component | What the model covers |
|---|---|
| Audio stream handler (`src/audio.py`) | Opening, stopping and terminating the PyAudio streams. Recording at the hardware rate converted to the API rate, and playback converted back and duplicated to stereo. |
| OpenAI Realtime API client (`src/realtime_client.py`) | The events it sends, and a classifier that turns each received event into at most one callback. |
| pygame GUI (`src/gui.py`) | Greedy line wrapping and pagination, the text fields, the typing effect and automatic page rotation. |
| Character animators | Mouth (`src/animation/mouth_animator.py`) and eye (`src/animation/eye_animator.py`) state machines, and the controller's speaking-edge detection (`src/animation/animation_controller.py`). |
| Application state table (`src/state_machine.py`) | The transition table and its validity predicate. |

Each source class whose fields change in place is a Dafny `class`, with `modifies` frames and `old()` postconditions. Pure logic is made of functions and lemmas. The outside world enters only as parameters:

- clock readings are integer milliseconds;
- random draws are inputs constrained to the source's ranges;
- whether a device opens, writes or restarts, and whether a socket connects or sends, are booleans;
- the wake-word detector's result is an integer of at least -1;
- whether a child process has exited, and its pid, are inputs;
- `audioop.ratecv` is an arbitrary function that threads its own state;
- the font is an arbitrary width function.

Modules, one per file:

| Module | What it holds |
|---|---|
| `Wrappers` | `Option`, `Result`. |
| `Pcm16` | Little-endian 16-bit samples, mono-to-stereo duplication, and the rate-converter type. |
| `Base64` | The standard base64 alphabet and padding (section 4 of RFC 4648), with a strict decoder. |
| `StateMachine` | The transition table. |
| `Pagination` | Wrapping and paging as functions, with their lemmas. |
| `Gui` | `GuiHandler`. |
| `MouthAnimation`, `EyeAnimation`, `AnimationControl` | The animators. |
| `Audio` | `AudioHandler`. |
| `RealtimeClient` | Event classification and the `Client` class. |
| `WakeWord` | Frame slicing. |
| `MainApp`, `ConversationApp`, `WakeWordDaemon` | The three processes; each has its handlers and one main-loop iteration as a method. |

## Model

| member | source | states |
|---|---|---|
| StateMachine.GetAllowedTransitions | src/state_machine.py:69-85 | t is in the returned set iff `is_valid_transition(from, t)`; the set is never empty |
| StateMachine.DocExamples | src/state_machine.py:61-66 | IDLE→LISTENING is valid, IDLE→SPEAKING is not, and LISTENING is among IDLE's allowed transitions |
| StateMachine.NoSelfTransition | src/state_machine.py:41-47 | no state may transition to itself |
| StateMachine.ErrorTransitions | src/state_machine.py:42-46 | every state other than ERROR may go to ERROR; ERROR may go exactly to IDLE or LISTENING |
| StateMachine.EveryStateReachableFromIdle | src/state_machine.py:41-47 | for every state there is a path of valid transitions from IDLE to it |
| Pcm16.Decode16Inverse | main.py:133 | decoding the low and high byte of a 16-bit sample gives the sample back |
| Pcm16.SamplesLength | main.py:133 | unpacking `len // 2` little-endian shorts yields `len(b) // 2` samples (an odd trailing byte is ignored) |
| Pcm16.SamplesAt | main.py:133 | sample i is the signed little-endian value of bytes 2i and 2i+1 |
| Pcm16.SamplesPack | wake_word_daemon.py:41 | packing samples to bytes and unpacking them again gives the same samples |
| Pcm16.ToStereo | src/audio.py:265-271 | `tostereo` succeeds exactly on fragments of whole 16-bit samples (even length) |
| Pcm16.DuplicateChannels | src/audio.py:264-269 | the stereo fragment is twice as long, and both its left and right channels equal the mono input |
| Base64.ValueChar | src/realtime_client.py:134 | every 6-bit value's alphabet character decodes back to that value |
| Base64.DecodeQuad | src/realtime_client.py:172 | a decodable 4-character group yields 1 to 3 bytes |
| Base64.EncodeShape | src/realtime_client.py:134 | the encoding has length 4·⌈n/3⌉ and uses only alphabet characters and `=` |
| Base64.QuadRoundTrip | src/realtime_client.py:134 | the first group of an encoding decodes to the first (up to) three input bytes |
| Base64.DecodeEncode | src/realtime_client.py:134 | decoding an encoding returns the original bytes |
| Base64.EncodeEmpty | src/realtime_client.py:134 | the encoding is empty iff the input is |
| Pagination.SplitLines | src/gui.py:381 | `str.split('\n')` returns at least one part |
| Pagination.PaginateFrom | src/gui.py:402-405 | the pages from line i on are the chunks of `lines[i..]` |
| Pagination.ConcatSnoc | src/gui.py:383-399 | concatenating lines plus one more appends that line's text |
| Pagination.WrapCharsFacts | src/gui.py:384-397 | the greedy character loop loses and reorders no character, and each emitted line fits the width or is a single character |
| Pagination.WrapCharsNoNewline | src/gui.py:384-397 | lines wrapped from a paragraph without newlines contain none |
| Pagination.WrapParagraphFacts | src/gui.py:383-399 | a paragraph's lines concatenate to the paragraph exactly; each fits or is a single wide character; an empty paragraph produces no lines |
| Pagination.SplitLinesNoNewline | src/gui.py:381 | no part of a split contains a newline |
| Pagination.JoinSplit | src/gui.py:381 | joining the parts with newlines gives the text back |
| Pagination.SplitNoNewline | src/gui.py:381 | a text without newlines splits into itself alone |
| Pagination.SplitAtFirstBreak | src/gui.py:381 | splitting `a + "\n" + b`, with `a` newline-free, gives `a` followed by the split of `b` |
| Pagination.SplitJoin | src/gui.py:404 | splitting newline-joined newline-free lines gives those lines back |
| Pagination.WrapParagraphsFacts | src/gui.py:383-399 | every line of all paragraphs fits (or is one character) and contains no newline |
| Pagination.PaginateFacts | src/gui.py:402-405 | every page holds 1 to `max_lines` lines; the pages' lines in order are exactly the input lines; non-empty input gives at least one page |
| Pagination.PaginatePageSizes | src/gui.py:402-405 | every page of the slicing loop holds between 1 and `max_lines` lines |
| Pagination.PaginateLines | src/gui.py:402-405 | reading the pages' lines in order gives back exactly the lines that were sliced |
| Pagination.PaginateStep | src/gui.py:402-405 | taking one more slice at line i keeps "pages so far + pagination of the rest" equal to the whole pagination |
| Pagination.PagesFacts | src/gui.py:371-407 | the result is never empty; empty text gives `[""]`; every page holds at most `max_lines` lines; and the pages' lines are exactly the wrapped lines of all paragraphs |
| Gui.NextPageInBounds | src/gui.py:319-324 | rotation keeps the page index in bounds, and moves it iff there is more than one page |
| Gui.Trunc | src/gui.py:242-249 | Python `int()` truncates toward zero |
| Gui.SlicePrefix | src/gui.py:254-260 | `s[:n]` is a prefix of `s`, of length n when 0 ≤ n ≤ len, whole when n ≥ len, and len+n (or 0) when n < 0 |
| Gui.RevealRate | src/gui.py:232-237 | the typing speed is positive, and equals the base speed exactly while SPEAKING (double otherwise) |
| Gui.Reveal | src/gui.py:240-247 | the display count never passes the text length, never goes down for a non-negative delta, and reaches the length exactly when the advance would reach it |
| Gui.GuiHandler.constructor | src/gui.py:183-200 | IDLE, running, empty texts and page lists, indices 0 |
| Gui.GuiHandler.Update | src/gui.py:207-324 | a quit event stops it; `UpdatedTexts`: the agent count, pages and page index become `Typed` of the old ones over the ticks elapsed since the last update (see `Gui.TypedFacts`); then both page indices rotate if the switch interval has passed; the texts and the state are unchanged |
| Gui.GuiHandler.RotatePages | src/gui.py:314-324 | after more than 3000 ms, both indices advance modulo their page counts (only with more than one page) and the switch time is reset; otherwise nothing changes |
| Gui.GuiHandler.AdvanceTyping | src/gui.py:224-265 | the typing effect alone: the update time becomes now, and count, pages and index become `Typed` of the old ones |
| Gui.GuiHandler.TypingStep | src/gui.py:228-265 | the typing branch computes exactly `Typed` and keeps a usable page index usable |
| Gui.GuiHandler.LayOutTyped | src/gui.py:252-262 | the re-layout is the pagination of the first count + 11 characters of "Kikai-kun: " + text, and is never empty |
| Gui.TypedFacts | src/gui.py:228-265 | a fully revealed (or empty) text changes nothing; otherwise the count never passes the text length and never goes down for a non-negative delta; when the whole-character count grows, the pages are the layout of the revealed prefix of the prefixed text and the last page is shown; otherwise pages and index are kept; a usable index stays usable |
| Gui.GuiHandler.SetState | src/gui.py:456-469 | the display state becomes the given code |
| Gui.GuiHandler.ResetTexts | src/gui.py:471-481 | all user and agent text, pages, indices and the display count are cleared; nothing else changes (state, running, the switch time and the last update time are kept) |
| Gui.GuiHandler.ClearUserText | src/gui.py:483-489 | only the user text, pages and index are cleared |
| Gui.GuiHandler.SetUserText | src/gui.py:491-509 | the user pages are the pagination of "You: "+text, with index 0 and the switch time reset; the agent text is cleared iff it was fully displayed |
| Gui.GuiHandler.ClearFinishedAgentText | src/gui.py:495-500 | the agent text, count and pages are cleared iff a non-empty agent text has been fully displayed; otherwise they are kept |
| Gui.GuiHandler.ShowUserText | src/gui.py:502-509 | the user pages are the pagination of "You: "+text at width screen_w-40, never empty, shown from page 0, and the switch time is now |
| Gui.GuiHandler.SetAgentText | src/gui.py:511-534 | ignored while LISTENING or when the text is unchanged. In IDLE the whole text is shown at once. Otherwise the progress is kept iff the old text is a prefix of the new one, and reset to 0 if not. User fields are untouched. |
| Gui.GuiHandler.ShowAgentTextAtOnce | src/gui.py:527-534 | the whole text counts as revealed, its pages are the pagination of "Kikai-kun: "+text at width screen_w-60, and page 0 is shown |
| Gui.GuiHandler.SplitTextIntoPages | src/gui.py:371-407 | the loops compute `Pages`: never empty, and `[""]` for empty text |
| Gui.GuiHandler.WrapText | src/gui.py:383-399 | the outer loop appends the wrapped lines of each paragraph in order |
| Gui.GuiHandler.WrapInto | src/gui.py:384-399 | the character loop appends exactly the paragraph's wrapped lines |
| Gui.GuiHandler.GroupIntoPages | src/gui.py:402-405 | the page loop joins each run of `max_lines` lines |
| MouthAnimation.MouthStep | src/animation/mouth_animator.py:56-85 | the mouth stays well formed: the index in [0,4) and the interval in [80,120] |
| MouthAnimation.MouthStepFacts | src/animation/mouth_animator.py:56-85 | the shape returned is one of the four. A silent mouth returns "closed" and changes nothing. While speaking the shape is the one at the new index. The index moves iff speaking and more than the interval has elapsed. |
| MouthAnimation.MouthRun | src/animation/mouth_animator.py:56-85 | repeated updates, each with its own interval draw, return one shape per call and keep the mouth well formed |
| MouthAnimation.DueStep | src/animation/mouth_animator.py:76-85 | an update of a speaking mouth more than 120 ms after the last one moves to the next shape, records the time and takes the draw as the new interval |
| MouthAnimation.DueRunState | src/animation/mouth_animator.py:76-85 | over n calls each spaced past the interval, the mouth keeps speaking, its index ends at (i+n) mod 4 and its interval is the last call's draw |
| MouthAnimation.DueRunShapes | src/animation/mouth_animator.py:76-85 | over calls each spaced past the interval, the k-th call shows shape (i+k+1) mod 4 |
| MouthAnimation.DueRun | src/animation/mouth_animator.py:76-85 | over n calls each spaced past the interval, the k-th call shows shape (i+k+1) mod 4; the mouth ends speaking at index (i+n) mod 4 with the last call's draw as its interval |
| MouthAnimation.FullCycle | src/animation/mouth_animator.py:76-85 | four due calls, whatever their draws, show all four shapes and return to the starting index |
| MouthAnimation.MouthAnimator.constructor | src/animation/mouth_animator.py:26-35 | closed, index 0, interval 100, silent |
| MouthAnimation.MouthAnimator.StartSpeaking | src/animation/mouth_animator.py:37-44 | speaking, `last_update` is now, the index is kept |
| MouthAnimation.MouthAnimator.StopSpeaking | src/animation/mouth_animator.py:46-54 | silent with index 0 ("closed") |
| MouthAnimation.MouthAnimator.Update | src/animation/mouth_animator.py:56-85 | new state and shape are exactly `MouthStep` of the old state |
| EyeAnimation.EyeStep | src/animation/eye_animator.py:38-73 | the frame is always in the blink sequence and the index in bounds. During a blink the index advances by at most one, and only after more than 50 ms. Past the last frame the blink ends with index 0, the time reset and the new delay in [3000,6000]. A blink starts only after the delay; otherwise the result is "normal". |
| EyeAnimation.EyeRun | src/animation/eye_animator.py:38-73 | repeated updates, each with its own delay draw, return one frame per call and keep the eye well formed |
| EyeAnimation.BlinkProgress | src/animation/eye_animator.py:48-63 | calls each more than 50 ms apart play the blink frames in order and end the blink at the last call, whose draw becomes the next delay |
| EyeAnimation.WholeBlink | src/animation/eye_animator.py:48-70 | a due blink over six spaced calls shows normal, half, closed, half, normal, normal, and ends with index 0, the last call's time and its draw as the next delay |
| EyeAnimation.EyeAnimator.constructor | src/animation/eye_animator.py:17-36 | not blinking, index 0, last blink now, delay the draw in [3000,6000] |
| EyeAnimation.EyeAnimator.Update | src/animation/eye_animator.py:38-73 | new state and frame are exactly `EyeStep` of the old state |
| AnimationControl.BodyAnimator.constructor | src/animation/body_animator.py:47-48 | not speaking, idle |
| AnimationControl.BodyAnimator.StartSpeaking | src/animation/body_animator.py:53-57 | speaking, not idle |
| AnimationControl.BodyAnimator.StopSpeaking | src/animation/body_animator.py:59-63 | not speaking, idle |
| AnimationControl.HandAnimator.constructor | src/animation/hand_animator.py:57-59 | not speaking, idle |
| AnimationControl.HandAnimator.StartSpeaking | src/animation/hand_animator.py:64-70 | speaking, not idle |
| AnimationControl.HandAnimator.StopSpeaking | src/animation/hand_animator.py:72-76 | not speaking, idle |
| AnimationControl.AnimationController.constructor | src/animation/animation_controller.py:28-41 | fresh animators and state 0 |
| AnimationControl.AnimationController.SetState | src/animation/animation_controller.py:43-70 | the state becomes s. Entering 3 starts mouth, body and hand speaking; leaving 3 stops all three; any other change leaves the animators untouched. |
| Audio.Resample | src/audio.py:223-228 | the conversion applies only when the rates differ; equal rates leave data and converter state unchanged |
| Audio.Upmix | src/audio.py:264-271 | with two output channels each mono sample fills both channels (twice the length); otherwise the data is unchanged |
| Audio.AudioHandler.constructor | src/audio.py:64-79 | no streams, not running, no converter state |
| Audio.AudioHandler.StartStream | src/audio.py:115-186 | A failed output open touches no stream. A failed input open leaves the output stopped and closed. Chunk size and callback are recorded only when both streams open. |
| Audio.AudioHandler.StopStream | src/audio.py:188-202 | running becomes false and each existing stream is stopped and closed |
| Audio.AudioHandler.RecordStep | src/audio.py:221-237 | a chunk is read only when at least `chunk_size` frames are available; it is converted and handed to the callback if there is one, with the converter state threaded |
| Audio.AudioHandler.RecordedChunks | src/audio.py:204-237 | without rate conversion the callback receives exactly the chunks read, in order; without a callback it receives nothing |
| Audio.AudioHandler.RecordLoop | src/audio.py:204-237 | the loop's deliveries and final converter state are those of the iteration-by-iteration specification |
| Audio.AudioHandler.PlayAudio | src/audio.py:239-276 | nothing is written to an inactive stream; otherwise the converted, stereo-duplicated chunk is written, and a failed write is swallowed; the output converter state advances only on an active stream (`ConverterAfterPlay`) |
| Audio.AudioHandler.StopPlayback | src/audio.py:278-297 | A successful restart leaves the output active with the converter state reset. Without an output stream nothing changes. |
| Audio.AudioHandler.Terminate | src/audio.py:299-312 | the streams are stopped and closed, and the handler is terminated |
| RealtimeClient.TypeOf | src/realtime_client.py:169-193 | every callback answers a known, non-error event type |
| RealtimeClient.Classify | src/realtime_client.py:159-206 | A callback is invoked only for its own event type and only when registered, and a registered callback is invoked for every event of its type (audio when the delta is non-empty and decodes). Audio comes only from a non-empty delta, decoded from base64. Unknown types, missing handlers and empty deltas are ignored. Every error object other than `response_cancel_not_active` is reported as an API error, and that one is informational. The loop aborts only on a malformed message, an undecodable delta or a non-object error. |
| RealtimeClient.ReceivedAtMostOnePerMessage | src/realtime_client.py:160-201 | at most one callback per message, each for a message of its type with a registered handler |
| RealtimeClient.StoppedStays | src/realtime_client.py:202-206 | once the loop has stopped, later messages change nothing |
| RealtimeClient.ReceiveLoop | src/realtime_client.py:159-206 | the loop's callbacks and stop flag are those of the specification |
| RealtimeClient.Client.constructor | src/realtime_client.py:37-56 | no socket, nothing sent, the given handlers |
| RealtimeClient.Client.SendEvent | src/realtime_client.py:102-122 | the event is sent iff there is an open socket and the send succeeds |
| RealtimeClient.Client.SendAudio | src/realtime_client.py:124-138 | sends one `input_audio_buffer.append` whose payload is the base64 encoding of the bytes, which decodes back to them |
| RealtimeClient.Client.CancelResponse | src/realtime_client.py:208-225 | sends exactly one `response.cancel` |
| RealtimeClient.Client.Connect | src/realtime_client.py:58-100 | on success the socket is open and the session configuration is the first event; on failure nothing changes |
| RealtimeClient.Client.Close | src/realtime_client.py:227-234 | an existing socket becomes closed |
| WakeWord.TakeFrame | main.py:64-66 | the frame is exactly the first `frame_length` samples and the remainder the rest, in order |
| WakeWord.DrainInOrder | wake_word_daemon.py:100-105 | k slicing steps yield k frames that, joined, are the first k·frame_length samples; the buffer keeps the rest |
| MainApp.Application.constructor | main.py:20-42 | IDLE, empty queue and buffer, fresh GUI, audio and client |
| MainApp.Application.Start | main.py:45-47 | the streams open with the default chunk and this callback, or `run` raises with the streams `start_stream` leaves; the rates are set either way, and nothing is played and no converter state changes |
| MainApp.Application.AudioInputCallback | main.py:126-142 | In IDLE the resampled samples are appended to the buffer in order. In LISTENING or SPEAKING the audio is sent to the client. Otherwise it is dropped. |
| MainApp.Application.HandleAudioDelta | main.py:144-148 | the chunk joins the queue tail and the interaction time is reset |
| MainApp.Application.OnUserSpeechStart | main.py:119-124 | the interaction time is reset, and GUI state 2 is shown unless IDLE |
| MainApp.Application.ResetToIdle | main.py:109-117 | IDLE, GUI 0, connection closed, queue and buffer empty |
| MainApp.Application.StartConversation | main.py:95-107 | on success LISTENING with an open socket and the timer reset; a connect failure ends in IDLE with GUI 0 |
| MainApp.Application.CheckTimeout | main.py:56-59 | outside IDLE, more than 10 s without activity stops the GUI |
| MainApp.Application.WakeWordStep | main.py:62-71 | only in IDLE with a whole frame, exactly the first `frame_length` samples are taken. A detection starts a conversation: on success the socket is open and the session configuration sent, on failure the socket is closed and both buffers emptied; -1 changes nothing else. |
| MainApp.Application.PlaybackStep | main.py:74-89 | A non-empty queue plays exactly its head (the bytes written and the converter state are those of `play_audio` on it) and shows 3. An empty queue clears the playing flag, shows 1 unless IDLE and leaves the device alone. Only the output converter and the written bytes of the audio handler change. |
| MainApp.Application.Step | main.py:51-91 | one loop iteration: a quit event or the 10 s timeout stops the GUI; the wake-word step takes the frame and, on a detection, sets the state, the socket and the sent session update; playback then dequeues the head of the queue that step left, with the bytes written, the converter state, the GUI state and the timer stated for both the played and the empty case. The GUI's texts, pages, typing count and clocks are those of `update` at `ticks` (`Gui.GuiHandler.UpdatedTexts`), and the wake-word converter state is framed out |
| MainApp.Application.Cleanup | main.py:150-155 | the connection is closed and the audio handler terminated: each stream that exists ends closed, and a missing one stays missing |
| ConversationApp.ConversationApp.constructor | conversation_app.py:18-35 | empty queue, flags false, fresh GUI, audio and client with five handlers |
| ConversationApp.ConversationApp.Start | conversation_app.py:37-53 | the loop is entered iff both streams and the connection open. A stream failure touches neither the client nor the GUI. A connect failure stops the GUI, keeps its state and sends nothing, and the loop is never entered. On success the session configuration is sent, GUI 1 is shown and the timer reset. Once both streams open they stay open with chunk 1024 and the callback, whether or not the connect then succeeds. The rates are set to 24 kHz and the configured hardware either way. Nothing is played and no converter state changes. |
| ConversationApp.ConversationApp.AudioInputCallback | conversation_app.py:82-88 | every chunk is sent base64-encoded |
| ConversationApp.ConversationApp.OnUserSpeechStart | conversation_app.py:90-94 | no response in progress, GUI 2 and the timer reset; the queue is untouched |
| ConversationApp.ConversationApp.OnResponseDone | conversation_app.py:96-100 | no response in progress and the timer reset; nothing else |
| ConversationApp.ConversationApp.HandleAudioDelta | conversation_app.py:102-106 | the chunk joins the tail, a response is in progress, the timer is reset |
| ConversationApp.ConversationApp.HandleUserTranscript | conversation_app.py:108-110 | exactly `set_user_text` (`Gui.GuiHandler.ShowsUserText`): the user text and its pages are shown from page 0, and a fully shown agent text is cleared; the GUI state and running flag are framed out |
| ConversationApp.ConversationApp.HandleAgentTranscript | conversation_app.py:112-114 | exactly `set_agent_text` (`Gui.GuiHandler.ShowsAgentText`): the agent text is replaced unless LISTENING or unchanged, with the display count and pages as that method sets them; the user fields are framed out |
| ConversationApp.ConversationApp.Step | conversation_app.py:56-78 | After more than 15 s of inactivity the GUI stops and the loop breaks before any playback. Otherwise a non-empty queue plays exactly its head (FIFO): the bytes written and the converter state are those of `play_audio` on it, and 3 is shown; an empty one after playing shows 1 and leaves the device alone. The GUI's texts, pages, typing count and clocks are those of `update` at `ticks` (`Gui.GuiHandler.UpdatedTexts`). |
| ConversationApp.ConversationApp.PlayHead | conversation_app.py:71-72 | the dequeued chunk is played: exactly `play_audio`'s bytes are written and its converter state kept |
| ConversationApp.ConversationApp.Cleanup | conversation_app.py:116-121 | the connection is closed and the audio handler terminated: each stream that exists ends closed, and a missing one stays missing |
| WakeWordDaemon.WakeWordDaemon.constructor | wake_word_daemon.py:19-26 | empty buffer, no child, counter 0 |
| WakeWordDaemon.WakeWordDaemon.Start | wake_word_daemon.py:74 | the streams open with chunk 1536 and this callback, or `run` raises with the streams `start_stream` leaves; the rates are set either way, and nothing is played and no converter state changes |
| WakeWordDaemon.WakeWordDaemon.AudioInputCallback | wake_word_daemon.py:28-44 | nothing happens while a child exists; otherwise all resampled samples are appended in order |
| WakeWordDaemon.WakeWordDaemon.LaunchGuiApp | wake_word_daemon.py:46-62 | a child is launched only if there is none or it has exited, and the audio stream is stopped first |
| WakeWordDaemon.WakeWordDaemon.ReapChild | wake_word_daemon.py:81-97 | when the child has exited, it is forgotten, the buffer emptied, the converter state reset, the rates and channels set from the configuration and the streams reopened. A failed reopen is reported with the streams `start_stream` leaves, and the chunk size and callback kept. Otherwise the audio handler is unchanged |
| WakeWordDaemon.WakeWordDaemon.ListenStep | wake_word_daemon.py:99-114 | Only without a child, exactly one frame is taken from the front and a detection stops and closes the streams and launches the child. The counter steps modulo 500. |
| WakeWordDaemon.WakeWordDaemon.Step | wake_word_daemon.py:80-116 | one loop iteration: an exited child is reaped (buffer and converter state cleared, rates and channels from the configuration, streams reopened with chunk 1536, or the crash reported with the chunk size and callback kept); then, without a child, one frame is taken, a detection stops and closes the streams and launches the child, and the counter steps modulo 500. An iteration that neither reaps nor launches leaves the audio handler unchanged, and without a restart the chunk size, callback, rates and channels are kept |
| WakeWordDaemon.WakeWordDaemon.Cleanup | wake_word_daemon.py:123-131 | a still-running child is terminated and the audio handler terminated: each stream that exists ends closed, and a missing one stays missing |

## Left out

- The `audioop.ratecv` algorithm is an arbitrary function of fragment, rates and state. The error it raises on a fragment of odd length is not modelled; neither is the exception handler around it in the callbacks.
- PyAudio errors are not modelled beyond the outcomes given as booleans, e.g. a read or write on a stream that was closed meanwhile.
- Base64 decoding is strict: only the padded standard alphabet decodes. Python's `b64decode` without `validate` also skips stray characters, and such a delta makes the model's `Classify` abort where Python would decode it.
- JSON parsing and `websockets` are not modelled. A message is either not an object or an object with the members read. A `delta` that is not a string is not modelled.
- The asyncio concurrency is not modelled: tasks, `asyncio.Queue` blocking, the `threading.Lock`, the `create_task` calls that run `record_loop` and `send_audio`, and the sleeps. Each handler and loop iteration is one atomic step, and `RecordLoop` is given its observations as a finite trace.
- Time is integer milliseconds. `time.time()` is float seconds, and the timeouts (10 s, 15 s) are compared as 10000 ms and 15000 ms.
- Rendering is not modelled: drawing, fonts, the indicator and character composition (`gui.py` drawing code, `character_renderer.py`, `AnimationController.get_frame`), `GuiHandler.quit`, and the wiring of the animators inside `gui.update`.
- The body and hand animators are reduced to their `is_speaking`/`is_idle` flags. Their float timers, trigonometry and gestures are not modelled.
- Configuration loading (`config.py`, `src/config_models.py`) is not modelled. The hardware rate and output channels are constructor parameters.
- The Porcupine engine is not modelled. Only `frame_length` and a `process` result of at least -1 are kept.
- `subprocess.Popen`, `poll` and `wait` are not modelled. The child's exit is an input and the child is represented by a pid.
- Barge-in is not modelled because the source does not implement it. `cancel_response` is modelled but never called by the applications.
- The wiring from `RealtimeClient` callbacks to the application handlers is not modelled as a method. `Classify` chooses the callback, and the handlers are the applications' methods.
- The `transcript` field is passed as an `Option`. What the GUI does with a missing transcript (`None`) is not modelled: `SetUserText` and `SetAgentText` take a string.
- ConversationApp.ConversationApp.constructor: the application's own `state` field is set once and never read or changed, so it is not modelled.
- Gui.GuiHandler.SplitTextIntoPages: requires `maxLines > 0`; Python's `range` with step 0 raises, and both callers pass 2 or 3.
- Gui.Reveal and Gui.GuiHandler.Update: the display count and the typing speed (0.012 characters per ms, src/gui.py:197-199, 243) are exact reals here, not Python floats. Float rounding can decide when `int()` of the count reaches the next character, and whether `agent_display_count >= len(...)` holds in `set_user_text` (src/gui.py:496); the model does not capture that.
- Gui.GuiHandler.Update: `update` reads `get_ticks()` twice, once for the typing effect and once for the page switch (src/gui.py:224, 314). The model uses a single `now` for both.
- Audio.AudioHandler.PlayAudio: the documented promise that the written length is twice the input holds only without rate conversion; with conversion it is stated in terms of the converter's output.
