# docker-monitor: a verified model of the dashboard core

docker-monitor is a terminal dashboard for Docker containers. It lists
containers, streams the stats and the logs of the selected one, keeps
rolling CPU and memory histories, and persists samples to SQLite. This project
models its core in Dafny and proves properties about the model:

- the state machine `Model.Update` with every message and key it
  handles, including `updateStatsAndLogsForCursor` (which stream is cancelled,
  which is opened, what is reset) and `containersListChanged`;
- the initial state `NewModel`;
- the scroll helpers `truncate`, `calculateVisibleLogLines` and
  `calculateMaxScroll`;
- the commands that build container lists and action messages;
- the Docker log line parser and the process table builder;
- the SQLite store: time ranges, the non-blocking write queue and the batch
  writer, the raw and bucket-averaged query, and the batched retention delete.

The model is split into these modules:

- `Types`: shared records, `Option`/`Result`, and instants in Unix nanoseconds.
- `Helpers`: truncate and the scroll arithmetic.
- `Text`: ASCII `strings` helpers.
- `DockerClient`: the stream-opening client, with a ghost log of the streams
  it opened and the handles it cancelled.
- `DockerLogs` and `DockerProcesses`: the Docker-side parsers.
- `Storage`: the store, with a `Store` class for the writer's state.
- `TuiModel`: the dashboard state `ModelState` and the messages and commands.
- `TuiCommands`: the commands that build messages.

The update path has three parts:

- `TuiUpdate.Step` is the update as a function from the old state to the new
  state and its effects. Effects are:
  - the commands returned;
  - the streams opened;
  - the cancel functions called;
  - the stats entry handed to storage.
- `TuiProperties` proves the update's properties about `Step`. Among them is a
  global invariant:
  - every stream the client ever opened is either cancelled or still held by
    the dashboard for the current container;
  - the cursor, scroll offset, history lengths and log buffer stay in bounds.
- `Tui.Model` is a class with the 22 fields. Its `Update` performs the step
  field by field, mirroring the Go code. It is proved to leave exactly the
  state `Step` computes, to call the client and the store exactly as `Step`
  says, and to keep the invariant.

Modelling choices:

- Cancel functions and the channels of a stream are named by the stream's
  handle: the number of streams the client had opened before it.
- `time.Now()` is a parameter: `now` for one call of `parseLogLine`, and
  `clock(i)` for the reading taken while the i-th line of a stream is parsed.
  `time.Parse(RFC3339Nano, _)` is a function parameter.
- Failures of the batch insert and the retention delete are parameters
  saying which call fails.

## Model

| member | source | states |
|---|---|---|
| Tui.Model.Update | internal/tui/update.go:13-227 | After one message, the fields are exactly the state Step computes from the old fields. The returned commands are Step's commands. The client has opened exactly Step's new streams and cancelled exactly its handles. The store has queued exactly Step's entry. The Shape and stream-accounting invariant is kept. |
| Tui.Model.Dispatch | internal/tui/update.go:14-226 | The type switch over the seven message kinds; each branch leaves the state, commands, client record and store queue that Step gives for that message. |
| Tui.Model.NewModel | internal/tui/model.go:74-89 | The new model's fields are the Initial state, with the given client and store. The invariant holds from the start. |
| TuiModel.Initial | internal/tui/model.go:74-89 | Loading. 150 zero points in each history. The 30-minute range. Cursor 0. No logs and no streams. An empty current container ID, so the first selection counts as a new container. Auto-scroll off. |
| Tui.Model.Resize | internal/tui/update.go:15-17 | Only width and height change, to the reported size. |
| Tui.Model.ShowSample | internal/tui/update.go:168-169 | Only the current sample and the message change: the sample, or its absence, is shown and the message is cleared. |
| Tui.Model.ShiftHistories | internal/tui/update.go:173-177 | Only the two histories change: each drops its oldest point and ends with the sample's CPU or memory percentage. |
| Tui.Model.HandleKey | internal/tui/update.go:19-129 | Each key has the effect KeyStep assigns to its switch case, with the client record updated accordingly. |
| Tui.Model.HandleQuit | internal/tui/update.go:21-28 | Cancels the held stats and logs streams, returns Quit, and leaves the state unchanged. |
| Tui.Model.CursorUp | internal/tui/update.go:30-34 | Above the top row, the cursor moves up and the selection is retargeted. At the top, nothing changes. |
| Tui.Model.CursorDown | internal/tui/update.go:36-40 | Before the last row, the cursor moves down and the selection is retargeted. At the last row, nothing changes. |
| Tui.Model.MoveCursor | internal/tui/update.go:30-40 | Only the cursor changes, to the given row. |
| Tui.Model.HandleViewKey | internal/tui/update.go:42-128 | Keys that open and cancel no stream (scroll, clear, action, refresh, range, tab) give KeyCaseStep's state and commands. |
| Tui.Model.HandleScrollKey | internal/tui/update.go:42-89 | pgup, pgdown, home, end, a and c give KeyCaseStep's state. |
| Tui.Model.ScrollPageUp | internal/tui/update.go:42-55 | The new state is PageUp of the old one. |
| Tui.Model.ScrollPageDown | internal/tui/update.go:57-69 | The new state is PageDown of the old one. |
| Tui.Model.ToggleAutoScroll | internal/tui/update.go:79-84 | The new state is ToggleAutoScroll of the old one. |
| Tui.Model.ScrollTo | internal/tui/update.go:71-77 | Only the scroll offset and auto-scroll change, to the given values (home and end). |
| Tui.Model.ClearLogs | internal/tui/update.go:86-89 | The log buffer empties and the scroll offset returns to 0. Nothing else changes. |
| Tui.Model.StartRefresh | internal/tui/update.go:106-109 | Sets loading and the "Refreshing..." message. Nothing else changes. |
| Tui.Model.HandleContainers | internal/tui/update.go:134-154 | A fetched list gives ContainersStep's state, commands and client record: an error is recorded, otherwise the list is taken, the cursor clamped and the selection retargeted when the list changed. |
| Tui.Model.TakeList | internal/tui/update.go:144-147 | The list is replaced. The cursor is clamped onto the last container when it ran past the end of a non-empty list. |
| Tui.Model.HandleAction | internal/tui/update.go:156-162 | The message becomes the action's text or "Error: " and the error. The command is a container fetch. |
| Tui.Model.HandleStats | internal/tui/update.go:164-203 | A stats message gives StatsStep's state and commands. The store has queued exactly StatsStep's entry. |
| Tui.Model.RecordSample | internal/tui/update.go:172-200 | Both histories shift left and take the new sample. Processes are replaced only when the sample has some. An entry stamped now for the selected container is queued if a store is attached and the list is non-empty. |
| Tui.Model.SaveSample | internal/tui/update.go:179-195 | Queues the entry for the selected container, stamped now, exactly when a store is attached and the list is non-empty. |
| Tui.Model.HandleLogs | internal/tui/update.go:205-223 | A logs message gives LogsStep's state and the command to wait for the next line. |
| Tui.Model.KeepLine | internal/tui/update.go:210-214 | The buffer becomes AppendLog of the old buffer and the entry. |
| Tui.Model.UpdateStatsAndLogsForCursor | internal/tui/update.go:229-297 | Gives Retarget's state and commands. The client has opened exactly Retarget's streams and cancelled exactly its handles. |
| Tui.Model.RestartStats | internal/tui/update.go:242-261 | The stats half: gives RetargetStats' state, commands and client calls. |
| Tui.Model.StartStats | internal/tui/update.go:249-253 | Opens one stats stream for the container. The model holds its handle as cancel and channel, and the command waits on it. |
| Tui.Model.RestartLogs | internal/tui/update.go:263-294 | The logs half: gives RetargetLogs' state, commands and client calls. |
| Tui.Model.StopLogs | internal/tui/update.go:267-272 | A held logs stream is cancelled and forgotten. Without one, nothing changes. |
| Tui.Model.ResetLogView | internal/tui/update.go:275-277 | Empty buffer, scroll 0, auto-scroll on. Nothing else changes. |
| Tui.Model.ResetGraphs | internal/tui/update.go:280-282 | Both histories are refilled with maxDataPoints zeros and the processes are cleared. |
| Tui.Model.StartLogs | internal/tui/update.go:285-289 | Opens one logs stream for the container. The model holds its handle, and the command waits on it. |
| Tui.Model.CancelIfHeld | internal/tui/update.go:246-248 | Calls a stream's cancel function when one is held. |
| Tui.OnlyStatsWrite | internal/tui/update.go:179-195 | Only a stats message ever queues an entry for storage. |
| Tui.ViewKeyQuiet | internal/tui/update.go:42-128 | Keys other than quit and cursor movement open no stream, cancel none and queue nothing. |
| Tui.RetargetWritesNothing | internal/tui/update.go:229-297 | Retargeting never queues an entry for storage. |
| TuiUpdate.ContainersListChanged | internal/tui/update.go:315-329 | True exactly when the lengths differ or some position holds a different ID or state. |
| TuiUpdate.PushHistory | internal/tui/update.go:174-177 | Same length. Every point moves one slot left and the new value is last. |
| TuiUpdate.AppendLog | internal/tui/update.go:211-214 | The entry is last. The rest are the newest of the old entries. The length is the old length plus one, capped at 1000. |
| TuiUpdate.HalfPage | internal/tui/update.go:45-49 | Half a page is at least one line. |
| TuiUpdate.Step | internal/tui/update.go:13-227 | The update as a function: the state after one message and its effects. Its properties are carried by StepInvariant, KeyInvariant, PlainMessage, ContainersArrive, SampleArrives, LogArrives and QuitCancels. |
| TuiUpdate.KeyCaseStep | internal/tui/update.go:19-129 | One branch per case of the key switch. CursorKeys, PageUpRule, PageDownRule, HomeEndToggle, TabThenShiftTab and QuitCancels state what each branch does; KeyInvariant states that every branch keeps the invariant. |
| TuiUpdate.ContainersStep | internal/tui/update.go:134-154 | The containers message. ContainersArrive, ContainersKeepShape and EmptyListKeepsSelection carry its properties. |
| TuiUpdate.StatsStep | internal/tui/update.go:164-203 | The stats message. SampleArrives, StatsErrorOrNil, StatsErrorWithSample and StatsQuiet carry its properties. |
| TuiUpdate.LogsStep | internal/tui/update.go:205-223 | The logs message. LogArrives and LogsQuiet carry its properties. |
| TuiUpdate.Retarget | internal/tui/update.go:229-297 | updateStatsAndLogsForCursor. RetargetEmpty, RetargetNewContainer, RetargetSameContainer, RetargetKeeps, RetargetShape and RetargetAccounted carry its properties. |
| TuiUpdate.RetargetStats | internal/tui/update.go:242-261 | The stats half. RetargetStatsFrame states which fields it may change; RetargetNewContainer and RetargetSameContainer state what it opens and cancels. |
| TuiUpdate.RetargetLogs | internal/tui/update.go:263-294 | The logs half. RetargetLogsFrame states which fields it may change; RetargetNewContainer states the reset and the new stream. |
| TuiUpdate.ClampCursor | internal/tui/update.go:145-147 | A cursor inside the new list is kept. One past the end of a non-empty list is pulled back to its last row, so a non-negative cursor ends inside a non-empty list. It never moves forward. |
| TuiUpdate.PageUp | internal/tui/update.go:42-55 | Only the scroll offset and auto-scroll change. A positive offset drops to a smaller non-negative one and auto-scroll turns off. An offset of 0 changes nothing. |
| TuiUpdate.PageDown | internal/tui/update.go:57-69 | Only the scroll offset and auto-scroll change. The offset moves forward by half a page or lands on MaxScroll. Auto-scroll changes only by turning on at MaxScroll. |
| TuiUpdate.ToggleAutoScroll | internal/tui/update.go:79-84 | Only the scroll offset and auto-scroll change. Auto-scroll flips. Turning it on jumps to MaxScroll; turning it off keeps the offset. |
| TuiUpdate.KeyCaseOf | internal/tui/update.go:20-128 | Which case of the key switch a key name selects; the key lemmas (CursorKeys, PageUpRule, PageDownRule, HomeEndToggle, TabThenShiftTab, QuitCancels) state each case's effect through it. |
| TuiUpdate.KeyStep | internal/tui/update.go:19-129 | The key message: KeyCaseStep of the key's case. KeyInvariant and PlainKey carry its properties. |
| TuiUpdate.ActOnSelected | internal/tui/update.go:91-104 | s, x and r run the action on the container under the cursor, and do nothing on an empty list. PlainKey states that no stream changes. |
| TuiUpdate.ActionStep | internal/tui/update.go:156-162 | The action message sets the status line to the message, or to "Error: ...", and refetches. PlainMessage states that no stream changes. |
| TuiUpdate.GoRem | internal/tui/update.go:122-128 | Go's remainder on ints. TabThenShiftTab and ShiftTabThenTab state the panel cycling it gives. |
| TuiUpdate.EntryOf | internal/tui/update.go:179-193 | The storage entry of a sample. SampleArrives states its ID, time and percentages. |
| TuiProperties.StepInvariant | internal/tui/update.go:13-227 | Every message keeps Shape: fixed-length histories, a cursor inside a non-empty list, scroll >= 0, at most 1000 logs, a valid panel, a logs channel that is the held logs stream's, and a stats channel that is the held stats stream's while one is held (with none held it may be a cancelled stream's, see StoppedSelectionWaitsOnCancelled). It also keeps Accounted: every stream opened is cancelled or held, and each held stream is of its kind and targets the current container. Only handles already issued are cancelled. |
| TuiProperties.KeyInvariant | internal/tui/update.go:19-129 | The same invariant for every key. |
| TuiProperties.PlainKey | internal/tui/update.go:21-28 | Keys other than up and down keep Shape, open no stream and change no held stream. They cancel nothing beyond the held streams. |
| TuiProperties.PlainMessage | internal/tui/update.go:15-17 | Window-size, tick, action, stats and logs messages keep Shape, open and cancel no stream, and keep the held streams and current container. |
| TuiProperties.StatsQuiet | internal/tui/update.go:164-203 | A stats message opens and cancels no stream and keeps Shape. |
| TuiProperties.LogsQuiet | internal/tui/update.go:205-223 | A logs message opens and cancels no stream and keeps Shape. |
| TuiProperties.ContainersKeepShape | internal/tui/update.go:134-154 | A container list keeps Shape and the stream accounting. |
| TuiProperties.AccountedQuiet | internal/tui/update.go:13-227 | A step that opens nothing and keeps the held streams keeps the stream accounting. |
| TuiProperties.RetargetStatsFrame | internal/tui/update.go:242-261 | The stats half changes only the stats cancel, channel and current sample, and writes nothing. |
| TuiProperties.RetargetLogsFrame | internal/tui/update.go:263-294 | The logs half changes only the logs stream, buffer, scroll, histories, processes and current ID, and writes nothing. |
| TuiProperties.RetargetKeeps | internal/tui/update.go:229-297 | Retargeting never touches the list, cursor, error, loading flag, message, size, range or focus, and writes nothing. |
| TuiProperties.RetargetEmpty | internal/tui/update.go:230-232 | On an empty list, nothing happens. |
| TuiProperties.RetargetNewContainer | internal/tui/update.go:237-294 | On a newly selected container, both held streams are cancelled, the log view and graphs are reset and the current ID is set. A running container gets a fresh stats stream and a fresh logs stream, with handles issued in that order, and a wait on each. A stopped one has no streams and no sample. |
| TuiProperties.RetargetSameContainer | internal/tui/update.go:237-294 | On the same container, the logs are untouched. A running container keeps its stats stream, or opens one if it has none. A stopped one loses its stats stream and sample. |
| TuiProperties.RetargetShape | internal/tui/update.go:229-297 | Retargeting keeps Shape. |
| TuiProperties.RetargetAccounted | internal/tui/update.go:229-297 | Retargeting keeps the stream accounting and cancels only issued handles. |
| TuiProperties.NewContainerAccounted | internal/tui/update.go:237-294 | The same, when the container changed. |
| TuiProperties.SameContainerAccounted | internal/tui/update.go:237-261 | The same, when the container is unchanged. |
| TuiProperties.ContainersArrive | internal/tui/update.go:134-154 | Loading always ends. An error is recorded with no other change. Otherwise the list is taken, the cursor is clamped into a non-empty list, and an unchanged list causes no effects. |
| TuiProperties.CursorKeys | internal/tui/update.go:30-40 | up and down move the cursor by one and retarget while they can. At either end they do nothing. |
| TuiProperties.LogArrives | internal/tui/update.go:205-223 | Always waits for the next line. An error sets the message. An empty message is dropped. Otherwise the entry is appended, the newest 1000 are kept, and auto-scroll pins the offset to MaxScroll. |
| TuiProperties.SampleArrives | internal/tui/update.go:164-203 | For a sample: both histories shift and end with the sample's CPU and memory, the sample is shown and the message is cleared. Processes are replaced only by a non-empty list. An entry with the selected ID, now and the sample's percentages is queued exactly when a store is attached and the list is non-empty. |
| TuiProperties.StatsErrorOrNil | internal/tui/update.go:164-170 | An error only sets "Stats error: ...". A nil sample clears the shown sample and the message. Both wait again. |
| TuiProperties.StatsErrorWithSample | internal/tui/update.go:165-166 | An error wins over a sample carried in the same message. |
| TuiProperties.PageUpRule | internal/tui/update.go:42-55 | pgup moves back half a page, not below 0, and turns auto-scroll off. At 0 it does nothing. |
| TuiProperties.PageDownRule | internal/tui/update.go:57-69 | pgdown moves half a page forward. At or past the maximum it pins to the maximum and turns auto-scroll on. |
| TuiProperties.HomeEndToggle | internal/tui/update.go:71-84 | home goes to 0 with auto-scroll off. end goes to the maximum with it on. a flips auto-scroll and jumps to the end when it turns on. |
| TuiProperties.TabThenShiftTab | internal/tui/update.go:122-128 | tab moves to the next of four panels, wrapping, and shift+tab undoes it. |
| TuiProperties.ShiftTabThenTab | internal/tui/update.go:122-128 | shift+tab moves to the previous panel, wrapping, and tab undoes it. |
| TuiProperties.QuitCancels | internal/tui/update.go:21-28 | q and ctrl+c cancel both held streams, return Quit, and change no field. |
| TuiProperties.SameListUnchanged | internal/tui/update.go:315-329 | A list compared with itself never counts as changed. |
| TuiProperties.LiveStreams | internal/tui/update.go:229-297 | Under the stream accounting, every stream not yet cancelled is the held stats or logs stream and targets the current container, and at most one of each kind is open. |
| TuiProperties.StoppedSelectionWaitsOnCancelled | internal/tui/update.go:255-260 | When the selected container is not running, its stats stream is cancelled but the stats channel is kept. A StatsMsg with neither sample nor error then clears the message and waits on that same channel again, leaving the state unchanged from then on. |
| TuiProperties.EmptyListKeepsSelection | internal/tui/update.go:134-154 | A refresh that returns an empty list only ends loading and takes the list. Both held streams, the current sample, the logs, the histories and the current container ID are kept, and nothing is opened or cancelled. |
| Helpers.Truncate | internal/tui/helpers.go:4-9 | A string that fits is kept. A longer one becomes exactly max characters: its first max-3 followed by "...". |
| Helpers.BottomPanelHeight | internal/tui/helpers.go:14 | The bottom panel takes 40% of the height, rounded down. |
| Helpers.VisibleLogLines | internal/tui/helpers.go:12-22 | At least 3 lines. Otherwise the panel height less 12. |
| Helpers.MaxScroll | internal/tui/helpers.go:25-32 | Never negative. Scrolling there shows the last line. It is 0 when everything fits. |
| TuiCommands.DisplayStatusRules | internal/tui/commands.go:23-33 | A running container shows its status cut to 30 characters. An exited one shows "exited". Any other shows its state. |
| TuiCommands.DisplayStatusFor | internal/tui/commands.go:25-32 | A running container's status text is at most 30 characters. A container neither running nor exited shows its state. DisplayStatusRules states all three cases. |
| TuiCommands.OnlyDisplayStatusChanges | internal/tui/commands.go:23-33 | Filling in status texts keeps the count, order and every other field. |
| TuiCommands.WithDisplayStatus | internal/tui/commands.go:23-33 | The listed containers with their status texts. OnlyDisplayStatusChanges and FillDisplayStatus carry its properties. |
| TuiCommands.FillDisplayStatus | internal/tui/commands.go:23-33 | The in-place loop leaves every element with its status text filled in. |
| TuiCommands.FetchContainers | internal/tui/commands.go:20-36 | The message carries the listed containers with their status texts, next to the list call's error. |
| TuiCommands.ActionResult | internal/tui/commands.go:80-107 | An action message carrying the Docker call's error. |
| TuiCommands.ActionResultInjective | internal/tui/commands.go:80-107 | Different actions or names never give the same message text. |
| TuiCommands.Verb | internal/tui/commands.go:80-107 | The past-tense verb of each action. ActionResultInjective states that distinct actions give distinct texts. |
| DockerLogs.StripHeader | internal/docker/logs.go:115-117 | Lines longer than 8 bytes lose exactly their first 8. Shorter lines are kept. |
| DockerLogs.StreamOf | internal/docker/logs.go:147-150 | Always "stderr" or "stdout"; StderrIffAlarming states which. |
| DockerLogs.ParseLogLine | internal/docker/logs.go:112-153 | A line blank after the header is rejected. An accepted entry's stream is StreamOf its trimmed content. RejectedIffBlank, TrimmedAccepted, MessageTrimmed and TimestampSplit state the rest. |
| DockerLogs.ParseTrimmed | internal/docker/logs.go:133-150 | An accepted entry's stream is the one the line's content selects. |
| DockerLogs.RejectedIffBlank | internal/docker/logs.go:112-153 | A line is rejected exactly when it is blank after the header. The empty-message rejection after a timestamp can never fire. |
| DockerLogs.TrimmedAccepted | internal/docker/logs.go:125-152 | A non-blank trimmed line is always accepted, with a non-empty trimmed message. |
| DockerLogs.MessageTrimmed | internal/docker/logs.go:120-143 | Every accepted message is non-empty with no surrounding whitespace. |
| DockerLogs.TimestampSplit | internal/docker/logs.go:125-144 | If the first token parses as a timestamp, the entry has that time and the trimmed rest of the line. Otherwise it has the clock reading and the whole trimmed line. |
| DockerLogs.StderrIffAlarming | internal/docker/logs.go:147-150 | The stream is stderr exactly when the lowercased line contains "error" or "fatal". |
| DockerLogs.ParseAll | internal/docker/logs.go:95-100 | One parse result per line. ParseAllAt: the i-th result is the parse of the i-th line with the i-th clock reading. |
| DockerLogs.ParseAllAt | internal/docker/logs.go:95-100 | The i-th result is the parse of the i-th line, taken with the clock reading of that line. |
| DockerLogs.AcceptedFaithful | internal/docker/logs.go:91-101 | Never more entries than lines. Exactly as many when no line is blank. Each entry is the parse of some line, with that line's own clock reading. |
| DockerLogs.AcceptedSnoc | internal/docker/logs.go:95-100 | Each further line adds its entry, if any, at the end. |
| DockerLogs.ParseLogStream | internal/docker/logs.go:91-108 | Returns the accepted entries in line order, each line parsed with its own clock reading, and the scanner's error. |
| DockerProcesses.LastIndexOf | internal/docker/processes.go:29-43 | The last title position among the names, or -1 exactly when none matches. |
| DockerProcesses.FindColumns | internal/docker/processes.go:29-43 | The title scan gives each column the last matching position, or -1. "COMMAND" and "CMD" both name the command column. |
| DockerProcesses.ColumnsOfSnoc | internal/docker/processes.go:30-42 | Each further title overwrites only the column it names. |
| DockerProcesses.ColumnsOf | internal/docker/processes.go:29-43 | Each column index is a title position or -1. A found command column names "COMMAND" or "CMD". FindColumns states it is the last matching position. |
| DockerProcesses.LastIndexOfSnoc | internal/docker/processes.go:30-42 | One more title moves the last position to it exactly when it matches. |
| DockerProcesses.Widest | internal/docker/processes.go:47-48 | The largest of the column indices. |
| DockerProcesses.FitsIffLongerThanWidest | internal/docker/processes.go:47-50 | A row is kept exactly when it is longer than the largest index found. Missing columns (-1) never cause a skip. |
| DockerProcesses.RowFields | internal/docker/processes.go:52-58 | Each field is its column's cell, or "" for a column not found. |
| DockerProcesses.GetOrEmpty | internal/docker/processes.go:52-58 | The cell at the index when the index is a position of the row, and "" otherwise. |
| DockerProcesses.RowProcess | internal/docker/processes.go:46-58 | One row's record, or None for a skipped row. FitsIffLongerThanWidest states which rows are skipped and RowFields what each field holds. |
| DockerProcesses.RowProcesses | internal/docker/processes.go:46-61 | One result per row. RowProcessesAt: the i-th result is the i-th row's record. |
| DockerProcesses.RowProcessesAt | internal/docker/processes.go:46-61 | The i-th result is RowProcess of the i-th row. |
| DockerProcesses.AllProcesses | internal/docker/processes.go:29-61 | The records of all fitting rows, in row order. AllProcessesFaithful and CollectProcesses carry its properties. |
| DockerProcesses.CollectProcesses | internal/docker/processes.go:46-61 | One record per fitting row, in row order. |
| DockerProcesses.GetContainerProcesses | internal/docker/processes.go:17-68 | The call's error is passed through. Otherwise the result is the first ten fitting rows in Docker's order. |
| DockerProcesses.AllProcessesFaithful | internal/docker/processes.go:46-61 | No more records than rows. As many when every row fits. Every record comes from a fitting row. |
| Storage.RangeName | internal/storage/sqlite.go:24-39 | "unknown" exactly for values outside the five ranges. |
| Storage.Duration | internal/storage/sqlite.go:42-57 | At least 30 minutes. Unknown ranges fall back to 30 minutes. |
| Storage.WindowSeconds | internal/storage/sqlite.go:42-57 | The duration is a whole number of seconds. |
| Storage.RangesDistinct | internal/storage/sqlite.go:16-57 | Distinct ranges have distinct names, and later ranges look strictly further back. |
| Storage.BucketWidth | internal/storage/sqlite.go:258-286 | Positive exactly for the four aggregated ranges (30, 300, 600, 3600 seconds). |
| Storage.Offer | internal/storage/sqlite.go:164-172 | An entry joins the queue when fewer than 1000 wait, and is dropped otherwise. |
| Storage.Store.Write | internal/storage/sqlite.go:164-172 | Never blocks. The queue becomes Offer of the old queue. |
| Storage.KeptRows | internal/storage/sqlite.go:228-245 | At most one row per entry. |
| Storage.ToRow | internal/storage/sqlite.go:229-241 | The row keeps the entry's container ID. Its timestamp is the Unix second of the entry's instant, rounded down. |
| Storage.Committed | internal/storage/sqlite.go:209-248 | Nothing is committed when Begin, Prepare or Commit fails. Otherwise one row per entry whose Exec succeeded, in order. |
| Storage.KeptRowsAll | internal/storage/sqlite.go:228-241 | Without failing Execs, every entry becomes its row, timestamped in Unix seconds. |
| Storage.Rows | internal/storage/sqlite.go:228-241 | The rows of a batch, one per entry. KeptRowsAll and RowsAppend carry its properties. |
| Storage.KeptRowsSkipOne | internal/storage/sqlite.go:242-244 | One failing Exec drops only that entry's row. |
| Storage.RowsAppend | internal/storage/sqlite.go:228-245 | The rows of two batches are the concatenation of their rows. |
| Storage.Store.BatchWrite | internal/storage/sqlite.go:209-248 | The table grows by exactly Committed. |
| Storage.Store.Receive | internal/storage/sqlite.go:182-189 | The head of the queue joins the buffer. At 50 entries the buffer is flushed and emptied. |
| Storage.Store.Tick | internal/storage/sqlite.go:191-196 | A non-empty buffer is flushed and emptied. |
| Storage.Store.Close | internal/storage/sqlite.go:198-203 | The buffer is flushed, the writer stops, and queued entries are never written. |
| Storage.SixtyWritesScenario | internal/storage/sqlite.go:164-206 | Sixty writes in one interval end as exactly their sixty rows, in order: the 50th receive flushes a batch and the ticker flushes the other ten. |
| Storage.Selected | internal/storage/sqlite.go:264 | The rows of the container strictly after the cutoff, with multiplicities. |
| Storage.SortByTime | internal/storage/sqlite.go:265 | Sorted by timestamp and a permutation of its input. |
| Storage.InsertByTime | internal/storage/sqlite.go:265 | Insertion keeps the order and adds exactly one row. |
| Storage.InsertKey | internal/storage/sqlite.go:296-297 | The keys stay strictly ascending, with exactly the new key added. |
| Storage.BucketKeys | internal/storage/sqlite.go:291-297 | Strictly ascending, and exactly the buckets of the rows. |
| Storage.InBucket | internal/storage/sqlite.go:291-296 | Exactly the rows falling in the given bucket. |
| Storage.BucketOf | internal/storage/sqlite.go:291 | The bucket start of a timestamp, with SQLite's truncating division. BucketKeys and InBucket carry its properties. |
| Storage.Mean | internal/storage/sqlite.go:292-293 | SQL AVG over a bucket. AggregateBuckets states that each point carries its bucket's means. |
| Storage.QueryRaw | internal/storage/sqlite.go:259-273 | The 30-minute range returns every row of the container from the last 1800 seconds, sorted ascending, as points. |
| Storage.AggregateBuckets | internal/storage/sqlite.go:288-306 | One point per non-empty bucket, in strictly ascending time. Every row's bucket appears. Each point's values are the mean CPU and memory of its bucket's rows. |
| Storage.QueryAggregated | internal/storage/sqlite.go:251-306 | Longer ranges return the bucket averages of the container's rows after the cutoff. The cutoff is now minus the window in seconds. |
| Storage.CutoffSeconds | internal/storage/sqlite.go:252 | The cutoff is the current Unix second minus the window. |
| Storage.QueryAscending | internal/storage/sqlite.go:251-307 | Every query's points are in ascending time order. |
| Storage.QueryUnknownRange | internal/storage/sqlite.go:284-306 | An unknown range returns no points. |
| Storage.PointsAscending | internal/storage/sqlite.go:310-328 | Points scanned from sorted rows are ascending. |
| Storage.Points | internal/storage/sqlite.go:310-328 | One point per row, at the row's second. PointsAscending and QueryRaw carry its properties. |
| Storage.Aggregate | internal/storage/sqlite.go:288-306 | The bucket averages. AggregateBuckets carries its properties. |
| Storage.Cutoff | internal/storage/sqlite.go:252 | The last Unix second before the window: the query keeps rows strictly after it. CutoffSeconds carries its property. |
| Storage.Query | internal/storage/sqlite.go:251-307 | Query at the instant now. QueryRaw, QueryAggregated, QueryAscending and QueryUnknownRange carry its properties. |
| Storage.DeleteOld | internal/storage/sqlite.go:353-357 | A delete never grows the table. |
| Storage.DeleteOldCounts | internal/storage/sqlite.go:353-366 | A pass removes min(limit, number of old rows) rows, all of them old. Recent rows stay in order. |
| Storage.CountOld | internal/storage/sqlite.go:353-357 | The number of rows older than the cutoff. DeleteOldCounts and Retained state it is what a full delete removes. |
| Storage.DeleteOldCompose | internal/storage/sqlite.go:352-370 | Two passes delete what one pass with the summed limit would. |
| Storage.NoOldRowsRetained | internal/storage/sqlite.go:363-365 | A table with no old rows is its own retained part. |
| Storage.Retained | internal/storage/sqlite.go:350-371 | Every retained row is at or after the cutoff, and exactly the old rows are missing: the length is the table's less CountOld. |
| Storage.Store.BatchDelete | internal/storage/sqlite.go:350-371 | Recent rows are never touched. Without a failure every old row is gone. A first-pass failure changes nothing. |
| Storage.Store.CleanupTick | internal/storage/sqlite.go:338-341 | The hourly tick removes rows more than seven days old and keeps the rest. |
| Storage.RetentionScenario | internal/storage/sqlite.go:340-341 | An 8-day-old row is removed and a 1-hour-old row kept. |
| DockerClient.Client.StreamContainerStats | internal/docker/interface.go:13 | Opens one stats stream for the ID and returns its fresh handle. |
| DockerClient.Client.StreamContainerLogs | internal/docker/interface.go:16 | Opens one logs stream for the ID and returns its fresh handle. |
| DockerClient.Client.Cancel | internal/docker/interface.go:13-16 | Calling the cancel function of a stream marks exactly that handle cancelled. Calling it again changes nothing. |
| Text.TrimSpace | internal/docker/logs.go:120 | An infix of the input starting at its first non-space character. It has no whitespace at either end, and is empty exactly for an all-space input. |
| Text.TrimSpaceIdempotent | internal/docker/logs.go:137 | Trimming twice is trimming once. |
| Text.ToLower | internal/docker/logs.go:147-148 | Same length; each character is its ASCII lower case. |
| Text.Contains | internal/docker/logs.go:147-148 | Some position holds the substring. StderrIffAlarming states its use. |
| Text.IndexOf | internal/docker/logs.go:133 | The first position of the character, or -1 exactly when it is absent. |

## Left out

- Concurrency: the writer and cleanup goroutines, channels, tickers and sleeps. Each goroutine loop is modelled as step methods (`Receive`, `Tick`, `Close`, `CleanupTick`) that a scheduler may call in any order. The race in `Close`, where the database can close under a writer that is still flushing, is not modelled.
- Storage.Store.Close: the model flushes the buffer before stopping. In the source, the 100 ms sleep races with that flush.
- NewStorage and createTables: file system calls, the schema and the database open are not modelled. `Store.Open` starts from a given table.
- SQL row scanning errors: `rows.Err()`, and `scanRows` skipping a row that fails to scan for any reason other than the NULL bucket of an unknown range. That one case is modelled: the unknown range returns no points (QueryUnknownRange). Every other row is modelled as scanning cleanly.
- Storage.Query: the `(nil, err)` returns when `db.Query` fails (internal/storage/sqlite.go:267-270 and 300-303) are not modelled; the query always returns points.
- Which old rows `DELETE ... LIMIT` removes: the model removes the first ones in rowid order. SQLite leaves the choice open, and only the count and the retained rows are promised.
- Floating point: percentages are `real`, and averages are exact means. `int(float64(h) * 0.4)` is modelled as floor(2h/5), which equals the float result for every height a terminal reports (any height from 0 up to 2^51). For huge heights the float product can round up across an integer: at h = 2^52 + 1 Go gives floor(2h/5) + 1, and the model does not capture that.
- Unsigned 64-bit counters are `nat`, with no wrap-around.
- The bufio.Scanner token limit is not modelled: `parseLogStream` gets the lines and the scanner's error as parameters.
- `time.Parse(time.RFC3339Nano, _)` is a function parameter, and `time.Now()` is a clock parameter read once per line.
- Text.IsSpace: ASCII whitespace only. Go's `unicode.IsSpace` also accepts U+0085, U+00A0 and the other Unicode spaces (U+1680, U+2000 to U+200A, U+2028, U+2029, U+202F, U+205F, U+3000).
- Strings are sequences of characters that stand for Go's bytes, not for runes: `truncate`'s cut at max-3 and `StripHeader`'s 8-byte drop count bytes, and multi-byte UTF-8 characters are not modelled as units.
- Text.ToLower: ASCII only.
- `getOrEmpty` is not part of this model. Its contract is taken to be the cell at the index, or "" when the index is out of range.
- The Docker calls themselves (`ListContainers`, `ContainerTop`, start, stop, restart) are parameters: what they returned.
- `waitForStats` and `waitForLogs` are the `WaitForStats(handle)` and `WaitForLogs(handle)` commands. The channel reads are the `StatsMsg` and `LogsMsg` messages. The error channel of a stream shares the stream's handle.
- A closed logs channel makes `waitForLogs` return nil. That nil message, and `waitForLogsStream`, are not modelled.
- `tickCmd` is the `TickAfterTwoSeconds` command. `tea.Batch` is a list of commands in order.
- `Init`, `View`, app.go and the rendering files are not part of this model.
- `previousStats` is never read or written by the core, so it is not a field of `ModelState`.
- The Go `Model` is a value type. `Update` returns a modified copy, and `updateStatsAndLogsForCursor` mutates that copy in place. The model treats the copy as the one `Model` object that the runtime keeps.
- Helpers.Truncate: requires max >= 3 when the string is too long. Go panics on a negative slice bound there. fetchContainers passes 30, but the container panel (internal/tui/panels.go:62, 63 and 72) passes `nameWidth`, `imageWidth` and `statusWidth`, computed from the panel width (internal/tui/panels.go:41-45, internal/tui/view.go:15). On a narrow terminal these fall below 3, so the excluded case is a panic that a user can reach; for example, a 58-column terminal gives a status width of 1. Rendering is not part of this model.
- `focusedPanel` is read and written by `update.go` but is not declared in the `Model` struct in model.go. It is a field of `ModelState`, starting at 0.
- A stats error keeps the stats stream and waits on it again; no error ends a stream.
- A cancelled stats stream's goroutine closes both its channels (internal/docker/stats.go:84-85), so a wait on them keeps delivering a StatsMsg with neither sample nor error. The channels are not modelled; StoppedSelectionWaitsOnCancelled states what each such message does.
- A container whose state changes without a change of ID keeps its logs stream: logs restart only on a change of ID.
- A successful container fetch does not clear an earlier `err`.
- When the list becomes empty, the cursor is left where it was. Shape only bounds the cursor while the list is non-empty.
- TuiUpdate.Retarget: a refresh that returns an empty list keeps both streams open and keeps the sample, the logs and the histories of the container selected before, because `updateStatsAndLogsForCursor` returns early on an empty list (internal/tui/update.go:230-232). The model follows the code; EmptyListKeepsSelection states the behaviour.
