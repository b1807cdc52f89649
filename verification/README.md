# ollamatui: the chat loop, modelled in Dafny

`ollamatui` is a terminal chat client for a local language-model server. Its
`main` runs one loop: redraw the history pane, drain the fragments that the
streaming network task has pushed onto an mpsc channel into the last
(assistant) message, then poll one key and act on it. Enter submits the input
line as a user message, adds an empty assistant placeholder, and spawns a
task that streams the reply for a copy of the history.

This project models that loop without its I/O:

- `wrappers.dfy` (module `Wrappers`): `Option`.
- `transcript.dfy` (module `Transcript`): `Message`, the whole-turn invariant
  `Alternating`, fragment application (`ApplyFragment`, `ApplyFragments`), and
  `ChatHistory::clone` as `Snapshot`. It also holds the lemmas about draining:
  the content grows by the concatenation of the fragments, fragments are
  discarded when no assistant message is last, and the result does not
  depend on how the queue is batched.
- `render.dfy` (module `Render`): the history text. Each message is formatted
  as `role: content`, the results are joined with newlines and cut into lines,
  and the visible window is `lines[min(scroll, |lines|)..]`. It includes
  split/join round trips.
- `channel.dfy` (module `Channel`): the channel as a FIFO queue class
  (`Send`, `TryRecv`).
- `ui.dfy` (module `Ui`): the loop's reference semantics on values.
  `Dispatch` handles one key and `TickStep` one iteration (drain, then key).
  `RunTicks` runs a sequence of iterations until Escape. Lemmas cover submit,
  input editing, scrolling, the loop invariant, and two end-to-end scenarios.
- `app.dfy` (module `App`): class `ChatSession`. Its fields are the loop's
  variables (`messages`, `input`, `scroll`, `running`), updated in place. Its
  methods `Drain`, `HandleKey`, `Tick` and `Run` are proved to behave exactly
  as the `Ui` functions say.

`scroll_offset` is a `usize`. The model uses the checked arithmetic of a debug
build: an overflowing `-= 5` or `+= 5` is a `Panic`. The loop invariant says
the offset is a multiple of 5 and at most `usize::MAX`. With it, PageUp's
subtraction is proved never to underflow, in the class (the assignment to a
`nat` field needs it) and in `Ui.PanicsOnlyAtUsizeMax`.

Behaviours of the code that the model keeps as they are:

- The request snapshot is taken after both pushes, so it includes the empty
  assistant placeholder (src/main.rs:155-168).
- Enter with an empty input line is not rejected; it submits an empty user
  message.
- The scroll offset is clamped only when the window is computed. The stored
  offset grows without bound on PageDown.
- Fragments carry no turn identifier. A fragment from an older stream that
  arrives after a new submit grows the newest placeholder, as
  `Transcript.ApplyFragmentsOnAssistantTail` states.

## Model

| member | source | states |
|---|---|---|
| `Transcript.ApplyFragment` | src/main.rs:143-149 | with an assistant message last, the fragment is appended to its content; earlier messages, length and roles are unchanged; otherwise (empty history or a user message last) the history is unchanged |
| `Transcript.ApplyFragments` | src/main.rs:143-149 | draining any queue keeps the length and every role |
| `Transcript.ApplyFragmentsOnAssistantTail` | src/main.rs:143-149 | draining f1..fn onto an assistant tail sets its content to `old + f1 + ... + fn` and leaves every other message as it was |
| `Transcript.ApplyFragmentsWithoutAssistantTail` | src/main.rs:143-149 | with no assistant message last, the whole queue is discarded and the history is unchanged |
| `Transcript.ApplyFragmentsSplit` | src/main.rs:143-149 | draining `a + b` equals draining `a` and then `b` |
| `Transcript.ApplyBatchesFlatten` | src/main.rs:143-149 | draining in any number of batches equals one drain of all fragments in order |
| `Transcript.ApplyFragmentsKeepsAlternating` | src/main.rs:143-149 | fragment application keeps the history in alternating whole turns |
| `Transcript.AlternatingTail` | src/main.rs:154-165 | a non-empty history of whole turns ends with an assistant message |
| `Transcript.Snapshot` | src/main.rs:35-48 | the clone has the same length, and the same role and content at every position |
| `Transcript.SnapshotIsCopy` | src/main.rs:35-48 | the clone equals the live history |
| `Render.FormatMessage` | src/main.rs:113 | the line is the role, then `: `, then the content, and holds a newline exactly when role or content does |
| `Render.Join` | src/main.rs:115 | no parts give the empty text; otherwise the text starts with the first part (its round trips with `Split` are `Render.SplitJoin` and `Render.JoinSplit`) |
| `Render.HistoryText` | src/main.rs:110-115 | the text is empty exactly when the history is; `Render.LinesOfHistory` gives its lines |
| `Render.VisibleLines` | src/main.rs:117-120 | the window never has more lines than the history text, is empty once the offset reaches the line count or the history is empty, and holds no newline inside a line |
| `Render.DisplayedText` | src/main.rs:117-121 | the drawn text is empty once the offset reaches the line count; at offset 0 it is the whole history text, minus a final newline if there is one |
| `Render.FormatAll` | src/main.rs:110-114 | one formatted entry per message |
| `Render.Split` | src/main.rs:117 | splitting gives at least one part and no part contains the separator |
| `Render.Lines` | src/main.rs:117 | no line contains a newline |
| `Render.DisplayStart` | src/main.rs:119 | the start is `min(scroll, total)`: at most both, and equal to one of them |
| `Render.Window` | src/main.rs:117-121 | the window is the suffix from the clamped start, always a valid slice; it is empty exactly when the offset reaches the line count; with offset 0 it is all lines |
| `Render.SplitJoin` | src/main.rs:115-117 | splitting joined parts that contain no separator gives back the parts |
| `Render.JoinSplit` | src/main.rs:115-117 | joining the parts of a split gives back the text |
| `Render.JoinSnoc` | src/main.rs:115 | joining with one more part adds one separator and that part |
| `Render.SplitLastEmpty` | src/main.rs:117 | a split ends with an empty part exactly when the text is empty or ends with the separator |
| `Render.LinesRejoin` | src/main.rs:117-121 | joining the lines again gives back the text when it does not end with a newline, and the text without its final newline when it does |
| `Render.LinesOfHistory` | src/main.rs:110-118 | a history without newlines in roles or contents shows exactly one `role: content` line per message |
| `Render.VisibleMessages` | src/main.rs:110-121 | for such a history the window starts at message number `min(scroll, messages)` |
| `Ui.Dispatch` | src/main.rs:153-198 | only PageUp and PageDown can panic; only Enter adds messages (exactly two) and hands out a request, which equals the new history; the other key lemmas below state each key's effect |
| `Ui.TickStep` | src/main.rs:143-198 | one iteration adds two messages exactly when its key is Enter (draining never changes the length), hands out a request exactly then, and panics only on a paging key |
| `Ui.Advance` | src/main.rs:103-201 | a panicked run stays panicked, a stopped run is unchanged, and a further iteration adds at most one request and two messages per request |
| `Ui.RunTicks` | src/main.rs:103-201 | a run hands out at most one request per iteration, and the history grows by exactly two messages per request |
| `Ui.EnterSubmitsTurn` | src/main.rs:154-182 | Enter appends exactly `{user, input}` and `{assistant, ""}` (empty input included), clears the input, keeps offset and running, and hands out a copy equal to the new history, placeholder included |
| `Ui.KeysEditInput` | src/main.rs:184-187 | Char appends its character; Backspace removes the last character or leaves an empty input empty; keys other than Enter, Char and Backspace keep the input |
| `Ui.KeysKeepHistory` | src/main.rs:153-198 | only Enter changes the history, and only by appending; no other key hands out a request |
| `Ui.ScrollMovesByStep` | src/main.rs:189-196 | PageUp lowers a positive offset by 5 and keeps 0 at 0; PageDown raises it by 5; every other key keeps it |
| `Ui.EscStops` | src/main.rs:188 | after a key, the loop goes on exactly when it was running and the key was not Escape |
| `Ui.DispatchKeepsValid` | src/main.rs:153-198 | every key keeps whole alternating turns and an offset that is a multiple of 5 within `usize`; a request is whole turns ending in the assistant placeholder |
| `Ui.PanicsOnlyAtUsizeMax` | src/main.rs:189-196 | under the invariant, a key panics exactly when it is PageDown at `usize::MAX`; PageUp never underflows |
| `Ui.PageUpUnderflowsOffStep` | src/main.rs:189-192 | without the invariant, PageUp at offset 3 would underflow |
| `Ui.RunKeepsValid` | src/main.rs:103-201 | any run of iterations keeps the invariant; every request handed out is alternating and ends in an assistant message |
| `Ui.RunCannotPanicEarly` | src/main.rs:189-196 | a run shorter than the distance to `usize::MAX` in steps of 5 cannot panic, and the offset grows by at most 5 per iteration |
| `Ui.RunFinished` | src/main.rs:188 | after Escape or a panic, further iterations change nothing |
| `Ui.RunningMeansNoEsc` | src/main.rs:188 | a run that is still going has seen no Escape |
| `Ui.HelloScenario` | src/main.rs:143-184 | typing `h`, `i`, Enter, then receiving `Hel` and `lo!` gives `[{user, "hi"}, {assistant, "Hello!"}]`, with one request `[{user, "hi"}, {assistant, ""}]` |
| `Ui.SilentFailureScenario` | src/main.rs:143-149 | with no fragments arriving, any number of idle iterations leave the placeholder empty and the loop running |
| `Channel.FragmentQueue.constructor` | src/main.rs:101 | a new channel holds nothing |
| `Channel.FragmentQueue.Send` | src/main.rs:76 | a sent fragment joins the end of the queue |
| `Channel.FragmentQueue.SendAll` | src/main.rs:71-81 | fragments sent in order join the end of the queue in that order |
| `Channel.FragmentQueue.TryRecv` | src/main.rs:143 | the oldest fragment is removed and returned, or `None` when nothing is pending |
| `App.ChatSession.constructor` | src/main.rs:95-97 | the loop starts with empty input and history, offset 0, running |
| `App.ChatSession.ApplyFragment` | src/main.rs:144-148 | the in-place `push_str` on the last message is `Transcript.ApplyFragment` |
| `App.ChatSession.Drain` | src/main.rs:143-149 | the queue ends empty, the history is `ApplyFragments` of the old history and the old queue, the other variables are unchanged, and the invariant holds |
| `App.ChatSession.HandleKey` | src/main.rs:153-198 | the new state and request are those of `Ui.Dispatch`; on a panic the state is unchanged; otherwise the invariant holds |
| `App.ChatSession.Tick` | src/main.rs:104-200 | the text drawn is `Render.DisplayedText` of the state before the drain; then the iteration is `Ui.TickStep` of the state and the whole pending queue |
| `App.ChatSession.Iterate` | src/main.rs:143-200 | fragments that arrived, then one iteration, as `Ui.TickStep` |
| `App.ChatSession.Run` | src/main.rs:103-201 | the loop ends in the state, with the requests, that `Ui.RunTicks` gives, or panics exactly when it does |

## Left out

- Terminal session setup and teardown (raw mode, alternate screen, cursor blinking; src/main.rs:90-94, 202-203) are foreign terminal I/O. So is the promise that the terminal is restored after Escape.
- Layout, widgets, word wrapping and the cursor position (src/main.rs:104-109, 123-139) are rendering primitives. The model stops at the lines and the text handed to the history paragraph (`Render.DisplayedText`).
- Event polling with its 100 ms timeout and `event::read` (src/main.rs:151-152) are I/O and timing. Each iteration receives its key as a value; `None` stands for a timeout or a non-key event. Key modifiers and key-event kinds are not modelled; every key code other than the six handled ones is `Other`.
- `send_message` (src/main.rs:52-83) is not part of this model: the HTTP POST, the byte stream, UTF-8 decoding and JSON parsing are foreign calls. The streaming side is an abstract producer. Each iteration carries the fragments that arrived before it, and `Iterate` sends them to the channel.
- The spawned thread, the tokio runtime and mpsc synchronisation (src/main.rs:167-180) are concurrency. The channel is a sequential FIFO queue, and a submit hands its history copy out as a request instead of starting a task. A panicking `unwrap` on a send after the loop has ended is not modelled.
- Command-line arguments and the default model name (src/main.rs:87-88) are environment access.
- `Render.Lines`: `str::lines` also strips a `\r` before each `\n`; the model splits on `\n` only and drops one trailing empty segment.
- `Ui.Dispatch`: `usize` arithmetic uses debug-build semantics, where overflow panics. A release build would instead wrap PageDown at `usize::MAX` to 4. PageUp cannot underflow unless a wrapped PageDown has first left the offset off the step of 5.
- `Ui.USIZE_MAX` fixes `usize` at 64 bits. On a 32-bit target the bound is `2^32 - 1`, which is also a multiple of 5, so the same argument holds.
- An I/O error from `terminal.draw(...)?`, `event::poll(...)?` or `event::read()?` (src/main.rs:140, 151, 152) ends the loop early and skips the terminal teardown. The model has no I/O errors, so it does not capture this exit path.
