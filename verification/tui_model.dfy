/** The dashboard's state record, its messages and its commands
    (internal/tui/model.go). Stream cancel functions and the channels a
    stream delivers on are both named by the stream's handle; an error
    value is its text. */
module TuiModel {
  import opened Types
  import opened Storage
  import opened DockerClient

  /** Points kept in each rolling graph history. */
  const MaxDataPoints: int := 150

  /** The panels the focus cycles through: container list, stats, graph, logs. */
  const PanelCount: int := 4

  datatype Action = Start | Stop | Restart

  /** The messages Update receives. */
  datatype Msg =
    | WindowSizeMsg(width: int, height: int)
    | KeyMsg(key: string)
    | TickMsg(at: Time)
    | ContainersMsg(containers: seq<Container>, err: Option<string>)
    | ActionMsg(message: string, err: Option<string>)
    | StatsMsg(stats: Option<Stats>, err: Option<string>)
    | LogsMsg(entry: LogEntry, err: Option<string>)

  /** The commands Update hands back to the runtime, in batch order. */
  datatype Cmd =
    | FetchContainers
    | TickAfterTwoSeconds
    | Quit
    | WaitForStats(stream: Option<Handle>)
    | WaitForLogs(stream: Option<Handle>)
    | RunAction(action: Action, id: string, name: string)

  /** The fields of Model that Update reads or writes. statsChan and
      logsChan also stand for their paired error channels. */
  datatype ModelState = ModelState(
    containers: seq<Container>,
    cursor: int,
    err: Option<string>,
    loading: bool,
    message: string,
    currentStats: Option<Stats>,
    currentProcesses: seq<Process>,
    statsCancel: Option<Handle>,
    width: int,
    height: int,
    logs: seq<LogEntry>,
    logsCancel: Option<Handle>,
    logsScroll: int,
    logsAutoScroll: bool,
    logsChan: Option<Handle>,
    statsChan: Option<Handle>,
    currentContainerID: string,
    cpuHistory: seq<real>,
    memoryHistory: seq<real>,
    maxDataPoints: int,
    timeRange: TimeRange,
    focusedPanel: int)

  /** make([]float64, n). */
  function Zeros(n: nat): (z: seq<real>)
    ensures |z| == n && forall i | 0 <= i < n :: z[i] == 0.0
  {
    seq(n, i => 0.0)
  }

  /** NewModel: loading, 150 zero points in each history, the 30-minute
      range; every other field at Go's zero value. In particular there are
      no streams and the current container ID is empty, so the first
      selection counts as a change of container, and auto-scroll starts off. */
  function Initial(): (d: ModelState)
    ensures Shape(d)
    ensures d.maxDataPoints == 150 && |d.cpuHistory| == 150 && |d.memoryHistory| == 150
    ensures forall i | 0 <= i < 150 :: d.cpuHistory[i] == 0.0 && d.memoryHistory[i] == 0.0
    ensures d.loading && d.timeRange == Range30Min
    ensures d.cursor == 0 && d.logs == [] && d.statsCancel.None? && d.logsCancel.None?
    ensures d.currentContainerID == "" && !d.logsAutoScroll
  {
    ModelState(
      containers := [], cursor := 0, err := None, loading := true, message := "",
      currentStats := None, currentProcesses := [], statsCancel := None,
      width := 0, height := 0,
      logs := [], logsCancel := None, logsScroll := 0, logsAutoScroll := false,
      logsChan := None, statsChan := None, currentContainerID := "",
      cpuHistory := Zeros(MaxDataPoints), memoryHistory := Zeros(MaxDataPoints),
      maxDataPoints := MaxDataPoints, timeRange := Range30Min, focusedPanel := 0)
  }

  /** What every reachable state satisfies: the histories keep their fixed
      length, the cursor points into a non-empty list, the scroll offset is
      never negative, the log buffer is capped, the focus is a panel, the
      logs channel is the held logs stream's, and the stats channel is the
      held stats stream's while one is held. With no stats stream held, the
      stats channel may still be that of a cancelled stream. */
  predicate Shape(d: ModelState)
  {
    && d.maxDataPoints == MaxDataPoints
    && |d.cpuHistory| == d.maxDataPoints
    && |d.memoryHistory| == d.maxDataPoints
    && d.cursor >= 0
    && (d.containers != [] ==> d.cursor < |d.containers|)
    && d.logsScroll >= 0
    && |d.logs| <= 1000
    && 0 <= d.focusedPanel < PanelCount
    && d.logsChan == d.logsCancel
    && (d.statsCancel.Some? ==> d.statsChan == d.statsCancel)
  }
}
