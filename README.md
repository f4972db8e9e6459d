# Janus WebGPU chat: a model of the view reducer and the generation worker

The application is a browser chat client. A multimodal model answers text
questions, optionally about an attached image, and draws images for
`/imagine <prompt>` commands. All inference is done by an external library.
The application's own logic lives in two places:

- **The view (src/App.tsx).** It keeps the download progress items, the chat
  messages, the load status, an error, and the running flag. It applies each
  event the worker posts to that state, one by one.
- **The worker (src/worker.ts).** It loads a processor and a model lazily, once
  each. It answers `check`, `load`, `generate`, `interrupt` and `reset`
  requests. It streams a generation back as `start`, a run of `text-update` or
  `image-update` events, and `complete`. Nothing in it catches a failed
  library call: a rejected load or generation simply ends without `ready`
  or `complete`.

This project models both parts in Dafny and proves what they promise.

Files and modules:

- `protocol.dfy` (module `Protocol`) holds the messages that cross the channel.
  - Worker events are tagged by `status`.
  - View requests are tagged by `type`.
  - The loosely typed progress reports are `map<string, Value>`. The object
    spread `{...a, ...b}` is map union.
- `ui.dfy` (module `Ui`) models the view.
  - The component's state is a record, `UiState`.
  - `Step` is the event reducer `onMessageReceived`. The list transforms it
    uses (`AddItem`, `MergeProgress`, `RemoveDone`, `AppendOutput`,
    `SetLastImage`) are functions with their own contracts.
  - `OnEnter`, `OnKeyDown`, `AutoGenerate` and `ResizeHeight` are the user-side
    steps.
- `worker.dfy` (module `Worker`) models the worker. The state it changes in
  place is in classes:
  - `TokenCounter` holds the closure variables of the token callback.
  - `ProgressStreamer` holds its `count` and start time.
  - `StoppingCriteria` holds the interrupt flag.
  - `ImageGenerationPipeline` holds the `??=` slots.
  - `Scope`, the worker's global scope, holds the shared pipeline, the stop
    flag and the ordered outbox of posted events.

  Each class method is proved against a pure function (`Ticks`, `ImageEvents`,
  `TextEvents`, `GenerateEvents`). Lemmas state what the source promises about
  those functions.
- `session.dfy` (module `Session`) connects the two sides. At start-up the
  view, in its initial state, has a fresh worker load the pipeline. In an
  exchange a user presses Enter, the view's effect posts `generate`, and a
  worker answers, whatever its pipeline slots hold. Once
  the view has applied every event the worker posted:
  - when every library call resolves, the list ends with the user turn and
    then the assistant's reply (the decoded text, or the generated image),
    and the run is over;
  - when one rejects, the run never ends, so whatever the user types next,
    Enter sends nothing;
  - either way, the effect posts no further request, at any point of the
    exchange.

The library is represented by data, in `Worker.Library`:
- whether each `from_pretrained` call resolves, what to, and the progress
  reports it makes meanwhile;
- whether `processor(...)` and the generation call resolve;
- the calls `model.generate` makes on the text streamer: tokens, each with a
  clock reading, and pieces of decoded text;
- the clock readings at which `generate_images` calls `put`;
- the resulting image, or none when `toBlob` rejects.

A rejected call still makes its streamer calls before it rejects, so their
updates are posted.

An image is represented by the object URL the browser hands out for it.
Clock readings are `real` parameters. Tokens per second is kept as the pair
(tokens, elapsed milliseconds) that the source divides. Image progress is kept
as the pair (count, total).

Where the model settles a detail the source leaves implicit:
- On an empty message list, `text-update` and `image-update` with a blob
  assign to index -1 of a copied array. That is not an array element, so the
  model leaves the message list unchanged.
- `message.image` counts as present only when it is a non-empty string. This
  follows JavaScript truthiness.
- The `/imagine ` prefix is removed with `String.prototype.replace`. The model
  defines the replacement of the first occurrence (`ReplaceFirst`) and proves
  that, after `startsWith`, it removes exactly the leading prefix.

## Model

| member | source | states |
|---|---|---|
| `Protocol.Overlay` | src/App.tsx:102 | The spread `{...item, ...e.data}`: the merged record has both key sets; report fields win; item fields not in the report are kept. |
| `Ui.AddItem` | src/App.tsx:94-96 | `initiate` appends the report at the end; the earlier items are unchanged and the length grows by one. |
| `Ui.MergeProgress` | src/App.tsx:98-107 | `progress` keeps length and order. Items whose `file` equals the report's get the report laid over them. All other items are untouched. |
| `Ui.MergeKeepsFiles` | src/App.tsx:98-113 | A `progress` report never changes any item's `file`, so a later `done` removes the same items as without it. |
| `Ui.RemoveDone` | src/App.tsx:109-113 | `done` keeps exactly the items whose `file` differs from the report's, and never lengthens the list. |
| `Ui.RemoveDoneAppend` | src/App.tsx:109-113 | `done` distributes over concatenation, so the surviving items keep their original order. |
| `Ui.RemoveDoneNoMatch` | src/App.tsx:109-113 | `done` for a file no item has leaves the list exactly as it was. |
| `Ui.InitiateThenDone` | src/App.tsx:94-113 | When no earlier item has the file, `initiate` followed by `done` for it restores the list. |
| `Ui.AppendOutput` | src/App.tsx:128-142 | `text-update` keeps the count and all but the last message. The last message's content becomes old content ++ output; its role and image are kept. An empty list stays empty. |
| `Ui.AppendOutputEmpty` | src/App.tsx:128-142 | A `text-update` with empty output changes no message. |
| `Ui.AppendOutputTwice` | src/App.tsx:128-142 | Two `text-update`s in a row equal one that carries both outputs concatenated. |
| `Ui.SetLastImage` | src/App.tsx:145-158 | `image-update` with a blob replaces only the last message's image and keeps its role and content. An empty list stays empty. |
| `Ui.Step` | src/App.tsx:80-170 | The reducer. The composer text and pending image never change. Only `complete` clears `isRunning`, and no event sets it. `start` appends exactly the placeholder `{assistant, "", null}`. Other events keep the message count, every message but the last, and the last message's role. Only start/text-update/image-update touch messages at all. Only initiate/progress/done touch progress items. Only success/loading/ready touch status. An image-update without a blob sets only image progress and time. |
| `Ui.RunAppend` | src/App.tsx:80-170 | Applying two event runs in a row is applying their concatenation. |
| `Ui.RunKeepsComposer` | src/App.tsx:80-170 | No sequence of worker events changes the composer text or the pending image. |
| `Ui.RunKeepsRunning` | src/App.tsx:166-168 | After a sequence of worker events the run is still on exactly when it was on before and no event was `complete`. |
| `Ui.RunKeepsStatus` | src/App.tsx:82-117 | Events other than `success`, `loading` and `ready` never change the load status. |
| `Ui.RunKeepsMessages` | src/App.tsx:80-170 | Events other than `start`, `text-update` and `image-update` never change the messages. |
| `Ui.RunKeepsAssistantLast` | src/App.tsx:119-164 | Once the last message is the assistant's, it stays the assistant's whatever events follow. |
| `Ui.OnEnter` | src/App.tsx:41-53 | Appends one user turn with the given text, whose image is the given one or else the pending image. Sets `isRunning`. Clears the composer, the pending image, tps, token count, image progress and time. Status, error, progress items and loading message are unchanged. |
| `Ui.OnKeyDown` | src/App.tsx:438-448 | Sends, as `onEnter(input, image)`, exactly when there is text, no run is in progress, and the key is Enter without Shift. Otherwise the state is unchanged. |
| `Ui.UserCount` | src/App.tsx:186 | The number of user messages is at most the list length, and is zero iff no message is from the user. |
| `Ui.AutoGenerate` | src/App.tsx:185-196 | `generate` with the whole list is posted iff some message is from the user and the last is not from the assistant. When posted, tps is cleared first; otherwise nothing changes. |
| `Ui.EnterTriggersGenerate` | src/App.tsx:185-196 | After `onEnter`, the effect always posts `generate` with the new list. |
| `Ui.AssistantLastIsQuiet` | src/App.tsx:189-191 | When the last message is from the assistant, the effect posts nothing and changes nothing. |
| `Ui.ResizeHeight` | src/App.tsx:59-66 | The textarea height always lies in [24, 200]. It equals the content height when that is in range, and is clamped to 24 or 200 otherwise. |
| `Worker.ReplaceFirst` | src/worker.ts:141 | `String.prototype.replace` with a string pattern, for a replacement without `$` patterns, which covers its one use here (with `""`). A string in which the pattern does not occur is returned as it is. |
| `Worker.ReplaceFirstAt` | src/worker.ts:141 | Where the pattern first occurs at i, the result is the text before i, the replacement, and the text after that occurrence: only the first occurrence is replaced. |
| `Worker.IndexOf` | src/worker.ts:141 | `indexOf`: the position found holds the pattern, no earlier position from `from` does, and "not found" means no position does. |
| `Worker.StripLeading` | src/worker.ts:140-141 | When the content starts with a prefix, replacing the prefix's first occurrence by "" removes exactly that leading prefix. |
| `Worker.HasImage` | src/worker.ts:166 | The truthiness of `message.image`: false when it is absent or the empty string, true for any non-empty string. |
| `Worker.Route` | src/worker.ts:140-181 | The image path is taken iff the content starts with `"/imagine "`; the prompt is the content minus that prefix, as a single User turn. Otherwise the text path. With a (non-empty) image: one User turn `"<image_placeholder>\n" + content` carrying the image. Without one: the System prompt turn and then a User turn. |
| `Worker.CallFor` | src/worker.ts:143-160 | Image generation uses the `text_to_image` template, samples, and asks for exactly `num_image_tokens` new tokens (min = max). Text generation is greedy with at most 1024 new tokens. The conversation is passed unchanged. Only text generation is handed the stopping criteria, so only it can be interrupted. |
| `Worker.Tick` | src/worker.ts:186-191 | `token_callback_function` as a function of the closure variables. The count goes up by one and `startTime ??= now`. The rate is left alone on the first callback, and afterwards is the new count over the time since the start. |
| `Worker.TicksCount` | src/worker.ts:183-191 | After k token callbacks, `numTokens = k` and the clock started at the first callback. `tps` is assigned iff k ≥ 2, and then it is k tokens over the time since the first callback. |
| `Worker.TokenCounter.constructor` | src/worker.ts:183-185 | A new counter has no start time, zero tokens and no rate, and has seen no callback. |
| `Worker.TokenCounter.OnToken` | src/worker.ts:186-191 | One callback: `startTime ??= now`, the count goes up by one, and the rate is taken only when the count was already positive. The invariant ties the fields to `Ticks` of all the clock readings so far. |
| `Worker.TextEventsShape` | src/worker.ts:193-195 | Text generation posts one `text-update` per piece of decoded text, each carrying a token count no larger than the tokens seen. |
| `Worker.TextEventsPrefix` | src/worker.ts:183-210 | The events posted for a prefix of the streamer calls are a prefix of those posted for all of them. |
| `Worker.TextEventAt` | src/worker.ts:183-195 | The piece of text at call j is posted in the update numbered by the pieces before it. That update carries exactly the number of token callbacks before call j, and the rate `Ticks` gives for their clock readings. |
| `Worker.ImageEventsShape` | src/worker.ts:109-124 | n ≥ 1 `put` calls post n − 1 reports. The i-th has count i+1 out of `total` and the time since the first `put`. |
| `Worker.ProgressStreamer.constructor` | src/worker.ts:97-107 | A new streamer has no count and no start time. |
| `Worker.ProgressStreamer.Put` | src/worker.ts:109-124 | The first `put` sets count to 0 and the start time, and reports nothing. Each later one raises count by exactly one and reports count/total and the elapsed time. The invariant gives count = n − 1 after n puts. |
| `Worker.GetInstanceOutcome` | src/worker.ts:57-94 | `getInstance` resolves iff each slot is already filled or its load resolves. A filled slot is kept. An empty slot gets the resolved value, or stays empty when its load rejects; then the model is not loaded. Reports are passed on only with a callback, and only for what was loaded. |
| `Worker.LoadsOnce` | src/worker.ts:57-94 | After a call that resolved, every later call returns the same pair and reports nothing, with or without a callback. |
| `Worker.GenerateOrder` | src/worker.ts:131-213 | `generate` on an empty list posts nothing. Otherwise `start` is first and everything after it is a text or image update, except a last `complete`. `complete` is posted iff every library call resolves. |
| `Worker.StoppingCriteria.constructor` | src/worker.ts:129 | The shared stopping criteria starts out not interrupted. |
| `Worker.StoppingCriteria.Interrupt` | src/worker.ts:234-236 | `interrupt` sets the stop flag. |
| `Worker.StoppingCriteria.Reset` | src/worker.ts:230-239 | `reset` clears the stop flag. |
| `Worker.ImageGenerationPipeline.constructor` | src/worker.ts:52-55 | The static processor and model slots start out unset. |
| `Worker.ImageGenerationPipeline.GetInstance` | src/worker.ts:57-94 | Leaves the slots and returns the reports that `GetInstanceOutcome` gives. Returns the pair iff the call resolves, and nothing when a load rejects. |
| `Worker.Scope.StreamText` | src/worker.ts:183-210 | Feeding the library's text-streamer calls through a fresh token counter posts exactly `TextEvents` of those calls. |
| `Worker.Scope.StreamImage` | src/worker.ts:147-160 | Feeding the `put` calls through a fresh progress streamer posts exactly `ImageEvents` of them. |
| `Worker.Scope.Generate` | src/worker.ts:131-213 | Posts `GenerateEvents` from the current slots. Touches the pipeline only when messages exist, and leaves it as `GetInstanceOutcome` says. Returns the generation call for the last message's route iff loading and preparing the inputs resolved. |
| `Worker.Scope.Load` | src/worker.ts:215-219 | Posts `loading`, then the progress reports of whatever still had to be loaded, then `ready` only if loading resolved. Leaves the slots as `GetInstanceOutcome` says. |
| `Worker.Scope.OnMessage` | src/worker.ts:221-241 | After `interrupt` the flag is set; after `generate` or `reset` it is clear (`generate` clears it before generating). `load` posts `LoadEvents`, `generate` posts `GenerateEvents`, and each leaves the slots as `getInstance` does. `check` and unknown types leave the flag, the pipeline and the outbox alone. |
| `Session.TextUpdatesAppend` | src/App.tsx:128-142 | Applying the text updates of a generation extends the last message by all decoded text, in order, and keeps the running flag. |
| `Session.ImageReportsKeepMessages` | src/App.tsx:145-163 | Image progress reports change no message and keep the running flag. |
| `Session.ImageUpdatesShow` | src/App.tsx:145-163 | Progress reports followed by the final blob event put the image on the last message. |
| `Session.Bracketed` | src/App.tsx:80-170 | Applying `start`, some updates and `complete` equals applying each part in turn. |
| `Session.UpdatesAnswer` | src/worker.ts:140-212 | When every call resolves, the updates of a generation turn the assistant placeholder into the reply: the image, or the full decoded text. |
| `Session.GenerateAnswers` | src/worker.ts:131-213 | After the view applies all events of `generate(ms)`, the composer is untouched. When every library call resolves, the list is `ms` plus the assistant reply and the run is over. When one rejects, the running flag is as it was. |
| `Session.QuietWhileAnswering` | src/App.tsx:185-196 | After `start` and any further events of a generation, the effect posts no request: the assistant has the last word. |
| `Session.LoadSettles` | src/App.tsx:89-117 | Given that loading reports only download progress, the view's status after all of `load`'s events is `ready` when loading resolves, and stays `loading` when a load rejects. |
| `Session.LoadKeepsChat` | src/App.tsx:89-117 | The events of a load leave the messages and the running flag as they were. |
| `Session.Startup` | src/App.tsx:23-39 | From the initial view state, after `success` and a fresh worker's `load`, the status is `ready` iff both slots are loaded, and `loading` otherwise. The slots are those `getInstance` leaves. No message exists, no run is on, and the composer is empty. |
| `Session.EnterPostsGenerate` | src/App.tsx:41-53 | Enter on a composer with text, outside a run, sends the text with the pending image, and the effect then posts `generate` with the new list. The run is on and the composer is clear. |
| `Session.Exchange` | src/App.tsx:41-196 | Enter, then auto-generate, then the events of a worker with the given pipeline slots, then the reducer. `start` comes first. When every library call resolves, the list gains the user turn (text and pending image) and the reply, the run is over, and `complete` is last. When one rejects, no `complete` is posted and the run stays on, so Enter sends nothing whatever text is typed (src/App.tsx:441). The composer ends clear and no further `generate` is posted. |

## Left out

- WebGPU feature detection (`check`, src/worker.ts:27-47) and the fp16 dtype/device choice: both are foreign calls. The dispatcher only reports that `check` was started.
- The inference library (`from_pretrained`, `processor(...)`, `model.generate`, `generate_images`, `toBlob`) is not modelled. What these calls produce, and how they drive the streamers, is an input (`Worker.Library`). In particular, the stop flag's effect on a running generation happens inside the library: it is handed to text generation only (src/worker.ts:204-210), never to `generate_images`. The model records the flag, and whether a call is handed it.
- `Worker.Scope.OnMessage`: runs `load` and `generate` to their end (completion, or the rejection that stops them) before the next request. In the source they are asynchronous, and a later request (such as `interrupt`) can arrive mid-generation. Concurrency and interleaving are not modelled.
- What a rejected library call rejects with: nothing in the worker catches it, so it is posted to no one and the model keeps only the fact that the call rejected.
- `Session.LoadSettles`: assumes the library's progress callback receives only download-progress reports (`initiate`, `progress`, `done` or another tag), never `success`, `loading` or `ready`. Those reports come from the library, which is not modelled.
- Floating point: `tps`, `progress` and `time` are kept as the quantities the source computes them from, not as IEEE doubles (so no division by zero to Infinity). `performance.now()` readings are parameters.
- `URL.createObjectURL`, `FileReader` and the image upload handler (src/App.tsx:397-414): browser I/O. An image is represented by its URL.
- Worker creation, `postMessage` transport and listener set-up/teardown: the channel is an ordered sequence of events. The `worker.current` null check in the generate effect is not modelled, since the worker is always created first.
- JSX rendering: the welcome, loading and ready screens, the stop and send buttons, the Reset and Load links (src/App.tsx:209-481). The `disabled` attribute that keeps a not-ready textarea from receiving keys is also not modelled; `Ui.OnKeyDown` models the handler's own guard.
- The sticky-scroll effect (src/App.tsx:198-207): it depends on DOM layout.
- Markdown/MathJax rendering (src/components/Chat/index.tsx) and the image preview hover (src/components/ImagePreview/index.tsx): presentation only.
- Console logging in the worker and the view.
