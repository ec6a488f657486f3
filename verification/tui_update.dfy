/** What one call of Model.Update does (internal/tui/update.go), as a
    function of the state before it: the state after it, and its effects
    (the commands returned, the streams opened, the cancel functions called
    and the stats entry handed to storage). The class in tui.dfy performs
    these steps field by field and is proved to agree with this function. */
module TuiUpdate {
  import opened Types
  import opened Helpers
  import opened Storage
  import opened DockerClient
  import opened TuiModel

  datatype Effects = Effects(cmds: seq<Cmd>, streams: seq<Stream>, cancels: set<Handle>, write: Option<StatsEntry>)

  const NoEffects: Effects := Effects([], [], {}, None)

  /** The effects of two steps taken one after the other. */
  function Then(a: Effects, b: Effects): Effects
  {
    Effects(a.cmds + b.cmds, a.streams + b.streams, a.cancels + b.cancels, if b.write.Some? then b.write else a.write)
  }

  datatype Outcome = Outcome(next: ModelState, fx: Effects)

  /** What Update reads besides the state: the handle the client will give
      the next stream it opens, the clock, and whether a store is attached. */
  datatype Env = Env(issued: nat, now: Time, hasStorage: bool)

  function CancelOf(h: Option<Handle>): set<Handle>
  {
    if h.Some? then {h.value} else {}
  }

  // ---------------------------------------------------------------------
  // containersListChanged
  // ---------------------------------------------------------------------

  predicate Differs(a: Container, b: Container)
  {
    a.id != b.id || a.state != b.state
  }

  /** containersListChanged: the lists differ in length, or in the ID or
      the state of some container at the same position. */
  function ContainersListChanged(before: seq<Container>, after: seq<Container>): (r: bool)
    ensures r <==> |before| != |after| || exists i | 0 <= i < |before| :: Differs(before[i], after[i])
  {
    if |before| != |after| then true
    else if before == [] then false
    else if Differs(before[0], after[0]) then true
    else
      var rest := ContainersListChanged(before[1..], after[1..]);
      assert (exists i | 0 <= i < |before| :: Differs(before[i], after[i])) <==>
             (exists i | 0 <= i < |before| - 1 :: Differs(before[1..][i], after[1..][i])) by {
        if exists i | 0 <= i < |before| :: Differs(before[i], after[i]) {
          var i :| 0 <= i < |before| && Differs(before[i], after[i]);
          assert i > 0 && Differs(before[1..][i - 1], after[1..][i - 1]);
        }
        if exists i | 0 <= i < |before| - 1 :: Differs(before[1..][i], after[1..][i]) {
          var i :| 0 <= i < |before| - 1 && Differs(before[1..][i], after[1..][i]);
          assert Differs(before[i + 1], after[i + 1]);
        }
      }
      rest
  }

  // ---------------------------------------------------------------------
  // updateStatsAndLogsForCursor
  // ---------------------------------------------------------------------

  /** The stats half: a running selection keeps its stream unless the
      container changed or there is none, in which case the old one is
      cancelled and a new one opened; a stopped selection cancels the
      stream and forgets the last sample. */
  function RetargetStats(d: ModelState, c: Container, changed: bool, issued: nat): Outcome
  {
    if c.state == "running" then
      if changed || d.statsCancel.None? then
        Outcome(d.(statsCancel := Some(issued), statsChan := Some(issued)),
                Effects([WaitForStats(Some(issued))], [Stream(StatsStream, c.id)], CancelOf(d.statsCancel), None))
      else Outcome(d, NoEffects)
    else
      Outcome(d.(statsCancel := None, currentStats := None), Effects([], [], CancelOf(d.statsCancel), None))
  }

  /** The logs half: only a change of container touches it. The old stream
      is cancelled, the log buffer, scroll and graph histories start over,
      and a running container gets a new logs stream. */
  function RetargetLogs(d: ModelState, c: Container, changed: bool, issued: nat): Outcome
    requires d.maxDataPoints >= 0
  {
    if !changed then Outcome(d, NoEffects)
    else
      var stopped := if d.logsCancel.Some? then d.(logsCancel := None, logsChan := None) else d;
      var reset := stopped.(logs := [], logsScroll := 0, logsAutoScroll := true,
                            cpuHistory := Zeros(d.maxDataPoints), memoryHistory := Zeros(d.maxDataPoints),
                            currentProcesses := []);
      if c.state == "running" then
        Outcome(reset.(logsCancel := Some(issued), logsChan := Some(issued), currentContainerID := c.id),
                Effects([WaitForLogs(Some(issued))], [Stream(LogsStream, c.id)], CancelOf(d.logsCancel), None))
      else
        Outcome(reset.(currentContainerID := c.id), Effects([], [], CancelOf(d.logsCancel), None))
  }

  /** updateStatsAndLogsForCursor, for the container under the cursor. */
  function Retarget(d: ModelState, issued: nat): Outcome
    requires Shape(d)
  {
    if d.containers == [] then Outcome(d, NoEffects)
    else
      var c := d.containers[d.cursor];
      var changed := d.currentContainerID != c.id;
      var s := RetargetStats(d, c, changed, issued);
      var l := RetargetLogs(s.next, c, changed, issued + |s.fx.streams|);
      Outcome(l.next, Then(s.fx, l.fx))
  }

  // ---------------------------------------------------------------------
  // Keys
  // ---------------------------------------------------------------------

  /** Go's % on ints: the remainder takes the sign of the dividend. */
  function GoRem(a: int, b: int): int
    requires b > 0
  {
    if a >= 0 then a % b else -((-a) % b)
  }

  /** Half a page of log lines, at least one. */
  function HalfPage(height: int): (n: int)
    ensures n >= 1
  {
    var n := VisibleLogLines(height) / 2;
    if n < 1 then 1 else n
  }

  /** pgup: back half a page, never below 0, leaving auto-scroll; a log
      already at the top stays put. */
  function PageUp(d: ModelState): (r: ModelState)
    ensures r == d.(logsScroll := r.logsScroll, logsAutoScroll := r.logsAutoScroll)
    ensures d.logsScroll > 0 ==> 0 <= r.logsScroll < d.logsScroll && !r.logsAutoScroll
    ensures d.logsScroll <= 0 ==> r == d
  {
    if d.logsScroll > 0 then
      var s := d.logsScroll - HalfPage(d.height);
      d.(logsScroll := if s < 0 then 0 else s, logsAutoScroll := false)
    else d
  }

  /** pgdown: forward half a page, stopping at the last full page, where
      auto-scroll turns back on. */
  function PageDown(d: ModelState): (r: ModelState)
    ensures r == d.(logsScroll := r.logsScroll, logsAutoScroll := r.logsAutoScroll)
    ensures r.logsScroll > d.logsScroll || r.logsScroll == MaxScroll(|d.logs|, d.height)
    ensures r.logsScroll <= MaxScroll(|d.logs|, d.height) || r.logsScroll == d.logsScroll + HalfPage(d.height)
    ensures r.logsAutoScroll != d.logsAutoScroll ==> r.logsAutoScroll && r.logsScroll == MaxScroll(|d.logs|, d.height)
  {
    var maxScroll := MaxScroll(|d.logs|, d.height);
    var s := d.logsScroll + HalfPage(d.height);
    if s >= maxScroll then d.(logsScroll := maxScroll, logsAutoScroll := true)
    else d.(logsScroll := s)
  }

  /** a: auto-scroll flips; turning it on jumps to the last page. */
  function ToggleAutoScroll(d: ModelState): (r: ModelState)
    ensures r == d.(logsScroll := r.logsScroll, logsAutoScroll := r.logsAutoScroll)
    ensures r.logsAutoScroll == !d.logsAutoScroll
    ensures r.logsAutoScroll ==> r.logsScroll == MaxScroll(|d.logs|, d.height)
    ensures !r.logsAutoScroll ==> r.logsScroll == d.logsScroll
  {
    var auto := !d.logsAutoScroll;
    if auto then d.(logsAutoScroll := auto, logsScroll := MaxScroll(|d.logs|, d.height))
    else d.(logsAutoScroll := auto)
  }

  /** The action key on the selected container, nothing on an empty list. */
  function ActOnSelected(d: ModelState, a: Action): Outcome
    requires Shape(d)
  {
    if d.containers != [] then
      var c := d.containers[d.cursor];
      Outcome(d, Effects([RunAction(a, c.id, c.name)], [], {}, None))
    else Outcome(d, NoEffects)
  }

  function Only(cmd: Cmd): Effects
  {
    Effects([cmd], [], {}, None)
  }

  /** The cases of the key switch, each with the key names that select it. */
  datatype KeyCase =
    | QuitKey | UpKey | DownKey | PageUpKey | PageDownKey | HomeKey | EndKey
    | AutoScrollKey | ClearKey | ActionKey(action: Action) | RefreshKey
    | RangeKey(range: TimeRange) | TabKey | ShiftTabKey | OtherKey

  /** Which case of the switch a key name falls into. */
  function KeyCaseOf(key: string): KeyCase
  {
    if key == "ctrl+c" || key == "q" then QuitKey
    else if key == "up" || key == "k" then UpKey
    else if key == "down" || key == "j" then DownKey
    else if key == "pgup" then PageUpKey
    else if key == "pgdown" then PageDownKey
    else if key == "home" then HomeKey
    else if key == "end" then EndKey
    else if key == "a" then AutoScrollKey
    else if key == "c" then ClearKey
    else if key == "s" then ActionKey(Start)
    else if key == "x" then ActionKey(Stop)
    else if key == "r" then ActionKey(Restart)
    else if key == "R" then RefreshKey
    else if key == "1" then RangeKey(Range30Min)
    else if key == "2" then RangeKey(Range1Hour)
    else if key == "3" then RangeKey(Range6Hour)
    else if key == "4" then RangeKey(Range1Day)
    else if key == "5" then RangeKey(Range1Week)
    else if key == "tab" then TabKey
    else if key == "shift+tab" then ShiftTabKey
    else OtherKey
  }

  function KeyStep(d: ModelState, key: string, issued: nat): Outcome
    requires Shape(d)
  {
    KeyCaseStep(d, KeyCaseOf(key), issued)
  }

  function KeyCaseStep(d: ModelState, k: KeyCase, issued: nat): Outcome
    requires Shape(d)
  {
    match k
    case QuitKey => Outcome(d, Effects([Quit], [], CancelOf(d.statsCancel) + CancelOf(d.logsCancel), None))
    case UpKey =>
      if d.cursor > 0 then Retarget(d.(cursor := d.cursor - 1), issued) else Outcome(d, NoEffects)
    case DownKey =>
      if d.cursor < |d.containers| - 1 then Retarget(d.(cursor := d.cursor + 1), issued) else Outcome(d, NoEffects)
    case PageUpKey => Outcome(PageUp(d), NoEffects)
    case PageDownKey => Outcome(PageDown(d), NoEffects)
    case HomeKey => Outcome(d.(logsScroll := 0, logsAutoScroll := false), NoEffects)
    case EndKey => Outcome(d.(logsScroll := MaxScroll(|d.logs|, d.height), logsAutoScroll := true), NoEffects)
    case AutoScrollKey => Outcome(ToggleAutoScroll(d), NoEffects)
    case ClearKey => Outcome(d.(logs := [], logsScroll := 0), NoEffects)
    case ActionKey(a) => ActOnSelected(d, a)
    case RefreshKey => Outcome(d.(loading := true, message := "Refreshing..."), Only(FetchContainers))
    case RangeKey(r) => Outcome(d.(timeRange := r), NoEffects)
    case TabKey => Outcome(d.(focusedPanel := GoRem(d.focusedPanel + 1, PanelCount)), NoEffects)
    case ShiftTabKey => Outcome(d.(focusedPanel := GoRem(d.focusedPanel + 3, PanelCount)), NoEffects)
    case OtherKey => Outcome(d, NoEffects)
  }

  // ---------------------------------------------------------------------
  // Messages from commands
  // ---------------------------------------------------------------------

  /** The cursor after a new list arrives: pulled back onto the last
      container when it ran past the end of a non-empty list. */
  function ClampCursor(cursor: int, count: int): (r: int)
    ensures count > 0 && cursor >= 0 ==> 0 <= r < count
    ensures r <= cursor
    ensures cursor < count ==> r == cursor
  {
    if cursor >= count && count > 0 then count - 1 else cursor
  }

  function ContainersStep(d: ModelState, list: seq<Container>, err: Option<string>, issued: nat): Outcome
    requires Shape(d)
  {
    var loaded := d.(loading := false);
    if err.Some? then Outcome(loaded.(err := err), NoEffects)
    else
      var changed := ContainersListChanged(d.containers, list);
      var listed := loaded.(containers := list, cursor := ClampCursor(d.cursor, |list|));
      if changed then Retarget(listed, issued) else Outcome(listed, NoEffects)
  }

  function ActionStep(d: ModelState, message: string, err: Option<string>): Outcome
  {
    var text := if err.Some? then "Error: " + err.value else message;
    Outcome(d.(message := text), Only(FetchContainers))
  }

  /** The rolling history: the oldest point dropped, the new one appended. */
  function PushHistory(h: seq<real>, v: real): (r: seq<real>)
    requires |h| >= 1
    ensures |r| == |h| && r[|r| - 1] == v
    ensures forall i | 0 <= i < |h| - 1 :: r[i] == h[i + 1]
  {
    h[1..] + [v]
  }

  /** The storage entry for a sample of the selected container, stamped now. */
  function EntryOf(id: string, now: Time, s: Stats): StatsEntry
  {
    StatsEntry(id, now, s.cpuPercent, s.memoryPercent, s.memoryUsage, s.memoryLimit,
               s.networkRx, s.networkTx, s.blockRead, s.blockWrite, s.pids)
  }

  function StatsStep(d: ModelState, stats: Option<Stats>, err: Option<string>, env: Env): Outcome
    requires Shape(d)
  {
    if err.Some? then
      Outcome(d.(message := "Stats error: " + err.value), Only(WaitForStats(d.statsChan)))
    else
      var sampled := d.(currentStats := stats, message := "");
      if stats.None? then Outcome(sampled, Only(WaitForStats(d.statsChan)))
      else
        var s := stats.value;
        var pushed := sampled.(cpuHistory := PushHistory(d.cpuHistory, s.cpuPercent),
                               memoryHistory := PushHistory(d.memoryHistory, s.memoryPercent));
        var write := if env.hasStorage && d.containers != [] then Some(EntryOf(d.containers[d.cursor].id, env.now, s)) else None;
        var next := if |s.processes| > 0 then pushed.(currentProcesses := s.processes) else pushed;
        Outcome(next, Effects([WaitForStats(d.statsChan)], [], {}, write))
  }

  /** The log buffer after one more entry: appended, then cut to the
      newest 1000. */
  function AppendLog(logs: seq<LogEntry>, e: LogEntry): (r: seq<LogEntry>)
    ensures |r| == if |logs| + 1 > 1000 then 1000 else |logs| + 1
    ensures r[|r| - 1] == e
    ensures r[..|r| - 1] == logs[|logs| - (|r| - 1)..]
  {
    var l := logs + [e];
    assert l[..|logs|] == logs;
    if |l| > 1000 then
      assert l[|l| - 1000..][..999] == logs[|logs| - 999..];
      l[|l| - 1000..]
    else l
  }

  function LogsStep(d: ModelState, entry: LogEntry, err: Option<string>): Outcome
  {
    if err.Some? then Outcome(d.(message := "Logs error: " + err.value), Only(WaitForLogs(d.logsChan)))
    else if entry.message == "" then Outcome(d, Only(WaitForLogs(d.logsChan)))
    else
      var logs := AppendLog(d.logs, entry);
      var appended := d.(logs := logs);
      var next := if d.logsAutoScroll then appended.(logsScroll := MaxScroll(|logs|, d.height)) else appended;
      Outcome(next, Only(WaitForLogs(d.logsChan)))
  }

  /** Model.Update. */
  function Step(d: ModelState, msg: Msg, env: Env): Outcome
    requires Shape(d)
  {
    match msg
    case WindowSizeMsg(w, h) => Outcome(d.(width := w, height := h), NoEffects)
    case KeyMsg(key) => KeyStep(d, key, env.issued)
    case TickMsg(_) => Outcome(d, Effects([FetchContainers, TickAfterTwoSeconds], [], {}, None))
    case ContainersMsg(list, err) => ContainersStep(d, list, err, env.issued)
    case ActionMsg(message, err) => ActionStep(d, message, err)
    case StatsMsg(stats, err) => StatsStep(d, stats, err, env)
    case LogsMsg(entry, err) => LogsStep(d, entry, err)
  }

  /** No stream is lost track of: every stream the client has opened was
      either cancelled or is still held by the dashboard as its stats or its
      logs stream, and each held stream is of its kind and belongs to the
      current container. */
  predicate Accounted(d: ModelState, v: ClientView)
  {
    && (forall h | 0 <= h < |v.streams| :: h in v.cancelled || d.statsCancel == Some(h) || d.logsCancel == Some(h))
    && (d.statsCancel.Some? ==>
          d.statsCancel.value < |v.streams| && v.streams[d.statsCancel.value] == Stream(StatsStream, d.currentContainerID))
    && (d.logsCancel.Some? ==>
          d.logsCancel.value < |v.streams| && v.streams[d.logsCancel.value] == Stream(LogsStream, d.currentContainerID))
  }

  /** The client's record after the effects of a step. */
  function After(v: ClientView, fx: Effects): ClientView
  {
    ClientView(v.streams + fx.streams, v.cancelled + fx.cancels)
  }
}
