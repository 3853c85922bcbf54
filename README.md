# Slidekick session bookkeeping, modelled in Dafny

Slidekick is a voice-controlled slide deck. A browser sends microphone audio
and slide-position messages over a WebSocket. The backend forwards the audio
to a live inference stream and runs the tool calls that stream issues, which
mostly navigate the deck. This project models the per-session bookkeeping
that the WebSocket handler relies on:

- `SlideState` (`slide_state.dfy`) models `StateManager`. It is a class
  holding the current slide, the slide count (0 = unknown) and the session
  metadata. `NavigationTarget` is the function that specifies `next`, `prev`
  and `jump`. Each lock-guarded coroutine becomes one atomic method.
- `Audio` (`audio.dfy`) models `WebSocketAudioProcessor`. It is a bounded
  FIFO of packaged audio chunks with drop-oldest overflow, a running flag and
  a push counter. `Offer` specifies one push against `Newest`, which is the
  reference definition "the newest `maxsize` messages". The lemmas about runs
  of pushes take the already packaged messages.
- `Tools` (`tools.dfy`) models `ToolExecutor`. It is a name → handler
  registry with its declarations in registration order, and an executor that
  always answers with a well-formed function response.
- `SlideToolkit` (`slide_toolkit.dfy`) models `SlideTools`. Its navigation
  and context snapshot return result records instead of raising.
- `Session` (`session.dfy`) models the helpers of the WebSocket endpoint in
  `main.py`:
  - the 1-based → 0-based navigation wrapper;
  - the frontend control-message dispatch;
  - the "connection closed" error classifier;
  - the projection of tool responses into client events, and the tool-call
    batch loop.
- `Common`, `Json` and `Text` hold shared pieces:
  - `Option`, `Result` and `Outcome`;
  - the loosely typed `Value` of dicts and arguments;
  - substring search and ASCII lower-casing.

Where the code and the system's design intent differ, the model follows the code:

- The setters do not keep the position inside the deck.
  `set_current_slide` has no upper bound, and `set_total_slides` may shrink
  the deck below the position. Only navigation keeps
  `0 <= current_slide <= total_slides - 1`: see `NavigateAllStaysInDeck` and
  `ShrinkingCountLeavesDeck`.
- The `StateManager` constructor stores a negative slide count as given.
  `totalSlides >= 0` therefore holds only after `SetTotalSlides`, not as an
  invariant.
- `asyncio.Queue` with a capacity of 0 or less is unbounded, and the model
  keeps that (`IsFull`).
- Not every tool call produces a client event describing its result. A
  `navigate_slide` call whose handler raised has `data` None. The `.get` on
  it raises, the error is only logged, and no event is sent
  (`RaisedNavigationHasNoEvent`).
- A navigation that failed inside the tool is sent to the client as a
  successful command to slide 0 (`FailedNavigationEventPointsAtFirstSlide`).
- `reset` keeps the slide count. `state_manager.py` has no transcript buffer,
  and `main.py` has no interruption gate, so neither is modelled.

## Model

| member | source | states |
|---|---|---|
| SlideState.NavigationTarget | src/backend/src/slidekick/state_manager.py:66-84 | only `next`, `prev` and `jump` with an index succeed. `jump` without an index and unknown directions raise their exact messages. `next` advances by one and stops at the last slide when the count is known, and is unbounded when it is not. `prev` stops at 0. `jump` lands on the index when it exists, else on the nearest end. From a non-negative slide the target is never negative. `next`/`jump` always land in `[0, total-1]` when `total > 0` |
| SlideState.InitialMetadata | src/backend/src/slidekick/state_manager.py:45-48 | fresh metadata has exactly the keys `started_at` (the given timestamp) and `session_id` (None) |
| SlideState.NavigationStaysInDeck | src/backend/src/slidekick/state_manager.py:67-82 | a navigation that starts on an existing slide of a known deck ends on one |
| SlideState.NavigateAllStaysInDeck | src/backend/src/slidekick/state_manager.py:52-90 | any sequence of navigation requests from a slide inside a known deck keeps the position inside it |
| SlideState.NextGrowsWithoutBound | src/backend/src/slidekick/state_manager.py:71-72 | with an unknown count (0), `n` `next` requests move from `c` to exactly `c + n` |
| SlideState.PrevNeverNegative | src/backend/src/slidekick/state_manager.py:74-75 | `n` `prev` requests from `c >= 0` end at `max(c - n, 0)`, never below 0, whatever the count |
| SlideState.ShrinkingCountLeavesDeck | src/backend/src/slidekick/state_manager.py:92-117 | with the real setters, slide 9 of 10 followed by a count of 5 leaves the position outside the deck: the setters do not keep the bound |
| SlideState.StateManager.constructor | src/backend/src/slidekick/state_manager.py:36-50 | starts on slide 0 with the slide count stored unclamped and fresh metadata |
| SlideState.StateManager.Navigate | src/backend/src/slidekick/state_manager.py:52-90 | returns `NavigationTarget` of the old state. The new position is the returned index, and a request that raises changes nothing. Count and metadata are untouched |
| SlideState.StateManager.SetCurrentSlide | src/backend/src/slidekick/state_manager.py:92-101 | stores `max(0, index)` with no upper bound and changes nothing else |
| SlideState.StateManager.GetCurrentSlide | src/backend/src/slidekick/state_manager.py:103-106 | returns the stored position, which is never negative |
| SlideState.StateManager.SetTotalSlides | src/backend/src/slidekick/state_manager.py:108-117 | stores `max(0, total)`, so the count is non-negative afterwards. Position and metadata are untouched |
| SlideState.StateManager.GetTotalSlides | src/backend/src/slidekick/state_manager.py:119-122 | returns the stored slide count |
| SlideState.StateManager.GetContext | src/backend/src/slidekick/state_manager.py:124-136 | the snapshot has exactly `current_slide`, `total_slides` and a copy of `session_metadata`, and changes nothing |
| SlideState.StateManager.SetSessionId | src/backend/src/slidekick/state_manager.py:138-141 | replaces only the `session_id` entry of the metadata |
| SlideState.StateManager.Reset | src/backend/src/slidekick/state_manager.py:143-151 | position 0 and fresh metadata with session id None. The slide count is kept |
| Audio.PackageAudio | src/backend/src/slidekick/audio_processor.py:110-123 | packaging keeps the raw bytes exactly as given and labels them `audio/pcm` |
| Audio.IsFull | src/backend/src/slidekick/audio_processor.py:359 | `full()` is never true for an unbounded queue (capacity 0 or less); for a queue within its capacity it is true exactly at the capacity. The same test guards the synchronous push at line 394 |
| Audio.Offer | src/backend/src/slidekick/audio_processor.py:359-365 | one push keeps the newest `maxsize` messages of queue + new message, in arrival order, and never exceeds the capacity. A full queue keeps its length and any other queue grows by one |
| Audio.OfferAll | src/backend/src/slidekick/audio_processor.py:52 | over any run of pushed messages, the queue stays within the capacity given to the constructor |
| Audio.OfferAllKeepsNewest | src/backend/src/slidekick/audio_processor.py:355-366 | after any run of pushes, the queue is exactly the newest `maxsize` of all messages queued, in FIFO order |
| Audio.OverflowKeepsLastMessages | src/backend/tests/test_audio_processor.py:227-242 | after at least `maxsize` pushes, only the last `maxsize` messages remain, in order, whatever was queued before |
| Audio.WebSocketAudioProcessor.constructor | src/backend/src/slidekick/audio_processor.py:298-307 | a stopped processor with an empty queue of the given capacity and a zero counter |
| Audio.WebSocketAudioProcessor.Start | src/backend/src/slidekick/audio_processor.py:309-322 | sets running and zeroes the counter. It is a no-op when already running, and the queue is untouched |
| Audio.WebSocketAudioProcessor.Stop | src/backend/src/slidekick/audio_processor.py:324-339 | clears running and drains the queue with a loop. The counter is kept |
| Audio.WebSocketAudioProcessor.PushAudio | src/backend/src/slidekick/audio_processor.py:341-375 | when stopped, returns False and changes nothing. Otherwise it returns True, the queue becomes `Offer(old queue, package(data))` (drop-oldest), and the counter grows by exactly 1 |
| Audio.WebSocketAudioProcessor.PushAudioSync | src/backend/src/slidekick/audio_processor.py:377-410 | same refusal, drop-oldest and counter behaviour as `PushAudio` |
| Audio.WebSocketAudioProcessor.GetAudio | src/backend/src/slidekick/audio_processor.py:101-108 | returns the oldest message and removes it (FIFO). On an empty queue it reports that it would suspend, with nothing changed |
| Audio.WebSocketAudioProcessor.ChunkCount | src/backend/src/slidekick/audio_processor.py:412-415 | the number of accepted pushes, never negative |
| Audio.PushThenGet | src/backend/src/slidekick/audio_processor.py:110-123 | a chunk pushed onto a started processor comes back from `GetAudio` as `{data, mime_type: "audio/pcm"}` |
| Tools.ToolExecutor.constructor | src/backend/src/slidekick/tool_executor.py:32-41 | an empty registry |
| Tools.ToolExecutor.Tools | src/backend/src/slidekick/tool_executor.py:43-46 | one declaration per registered tool, in registration order |
| Tools.ToolExecutor.HasTool | src/backend/src/slidekick/tool_executor.py:72-82 | true exactly for registered names |
| Tools.ToolExecutor.RegisterTool | src/backend/src/slidekick/tool_executor.py:48-70 | a duplicate name raises first, then a non-async handler raises, and either failure leaves both dicts unchanged. Otherwise the name is added to both dicts and `Tools()` grows by exactly its declaration |
| Tools.ToolExecutor.ExecuteTool | src/backend/src/slidekick/tool_executor.py:84-143 | the call id and name are always echoed. An unknown tool gives status error, data None and a message containing "not registered". A returning handler gives success with its value verbatim and error None. A raising handler gives error, data None and a message containing the raised text. No arguments count as empty arguments, and the registry is only read |
| Tools.ArgsOrEmpty | src/backend/src/slidekick/tool_executor.py:101 | given arguments are passed on unchanged, and the arguments are empty exactly when none or an empty dict were given |
| Tools.ExecuteSampleTool | src/backend/tests/test_tool_executor.py:189-205 | registering the async sample tool succeeds, and calling it with `{"message": "hello"}` answers success with data "Executed with: hello", no error, and the call's id and name |
| SlideToolkit.SlideTools.constructor | src/backend/src/slidekick/slide_tools.py:32-39 | the tools share the given state manager |
| SlideToolkit.SlideTools.NavigateSlide | src/backend/src/slidekick/slide_tools.py:41-75 | a successful move returns `{action: navigate, direction, current_slide, total_slides, success: True}`, whose `current_slide` is the state's new position. A request that raises returns `{action: navigate, success: False, error}` with the state unchanged |
| SlideToolkit.SlideTools.GetPresentationContext | src/backend/src/slidekick/slide_tools.py:77-99 | `action: get_context` and `success: True` merged with the snapshot's `current_slide`, `total_slides` and `session_metadata`. Nothing changes |
| Session.BackendIndex | src/backend/main.py:102-107 | only `jump` indices are converted: slide number `n >= 1` becomes `n - 1`, lower numbers become 0. Any other direction, and a missing index, pass through unchanged |
| Session.JumpToSlideNumber | src/backend/main.py:102-107 | jumping to slide number `n` of a deck of `total >= n` slides lands on index `n - 1` |
| Session.NavigateSlideWrapper | src/backend/main.py:102-107 | navigates with the converted index and returns the slide tools' record for that outcome; the slide count and the session metadata are untouched |
| Session.HandleFrontendMessage | src/backend/main.py:254-273 | `slide_info` sets the count and then the position, and `slide_sync` sets only the position. Missing fields count as 0 and negatives become 0. Any other type changes nothing |
| Session.IsConnectionClosed | src/backend/main.py:323-324 | an error counts as "closed" exactly when its lower-cased text contains "1011" or "closed" at some position; the same test ends the response loop at lines 365-366 |
| Session.ClosedWhenMentioned | src/backend/main.py:364-367 | any text containing "1011" or "closed", in any letter case, is classified as closed |
| Session.ClassificationIgnoresCase | src/backend/main.py:323-324 | lower-casing an error first does not change its classification |
| Session.ClientEventFor | src/backend/main.py:401-429 | every tool other than `navigate_slide` yields `tool_result` with its status and data. `navigate_slide` yields `slide_command` with `action = args.direction` (default "unknown") and `slide_index = data.current_slide` (default 0), and yields nothing exactly when the data is not a dict or that index is not an integer |
| Session.NavigationEventShowsNewSlide | src/backend/main.py:403-419 | a successful navigation record becomes a `slide_command` to the new slide with status "success" |
| Session.FailedNavigationEventPointsAtFirstSlide | src/backend/main.py:403-419 | a navigation record with `success: False` becomes a `slide_command` to slide 0 with status "success" |
| Session.RaisedNavigationHasNoEvent | src/backend/main.py:401-429 | a `navigate_slide` response whose handler raised (data None) produces no client event |
| Session.BatchEventsAnnounceEveryCall | src/backend/main.py:382-429 | every call of a batch is announced by exactly one `intent_detected` event, and each call adds at most one more event |
| Session.ProcessToolCalls | src/backend/main.py:378-434 | exactly one response per call, in call order. Each is the executor's answer for that call, with the call's id and name. The events are each call's intent followed by its projected result |
| Session.ProcessToolCall | src/backend/main.py:384-429 | one call of a batch: the response is the executor's answer with the call's id and name, and the events are the intent announcement followed by the projected result, if any |
| Session.AnswersAt | src/backend/main.py:384-399 | answer k of a batch is the executor's answer to call k, run with the call's arguments |

## Left out

- Concurrency is not modelled: the `asyncio.Lock`, the TaskGroup of three
  session loops, cancellation, and the `is_connected` flag. Each lock-guarded
  method is one atomic step.
- The session loops themselves are not modelled (`receive_websocket_data`,
  `forward_audio_to_gemini`, `handle_gemini_responses`, `safe_send_*`). They
  are network I/O against the inference SDK, so client events are returned
  as a sequence rather than sent, and sending tool responses back is not
  modelled.
- The HTTP upload, the app lifespan and configuration are file-system,
  subprocess and environment wiring. `content_processor.py` is not part of
  this model.
- `PyAudioProcessor` and `from_pyaudio` drive microphone hardware.
- `get_audio_queue` hands out the queue object itself (aliasing), and
  `source_type` is a constant tag. Neither is modelled.
- Logging and the `verbose` flag have no effect on returned values.
- `datetime.now()` becomes a `startedAt` parameter and is treated as opaque.
- Python keyword-argument binding (`**args`) and
  `asyncio.iscoroutinefunction` become a handler function over an argument
  map plus an `isAsync` flag.
- Tools.ToolExecutor.ExecuteTool: handlers are pure, so a handler that
  changes other state (the navigation tool does) is not captured. The
  wrapper's effect is modelled separately by `Session.NavigateSlideWrapper`.
- Tools.Declaration keeps only a name and a description, not the parameter
  schema.
- Session.HandleFrontendMessage: message fields are integers or absent. In
  the source, None or non-numeric values (strings, lists) raise, while floats
  and bools are stored as given; neither case is modelled.
- Session.NavigateSlideWrapper: the index is an integer or absent. In the
  source, a non-numeric index raises, while a float index such as 3.0 is
  converted to 2.0 and stored as the slide position; neither case is
  modelled.
- Session.ClientEventFor: a `current_slide` that is a Python bool would make
  the source still send an event, because `True + 1` is valid. The model
  sends none. Floats do not exist in the model.
- Text.Lower: only ASCII letters are lower-cased, whereas Python's
  `str.lower` is Unicode-wide.
- Audio.WebSocketAudioProcessor.GetAudio: the source suspends until a chunk
  arrives. The model returns None on an empty queue instead.
- Audio.WebSocketAudioProcessor.PushAudio: the generic `except Exception`
  path, which returns False, has no trigger in the model (no queue operation
  can fail), so it is not modelled.
- Audio.WebSocketAudioProcessor.PushAudioSync: likewise, its
  `except asyncio.QueueFull` and `except Exception` returns of False have no
  trigger in the model and are not modelled.
- SlideToolkit.SlideTools.GetPresentationContext: the `except` branch is not
  modelled, because `get_context` cannot raise.
- The transcript buffer, the summary tools and the interruption gate do not
  exist in the modelled source files.
