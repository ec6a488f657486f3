/** The dashboard itself (internal/tui/model.go, internal/tui/update.go):
    a Model whose fields the message handlers update in place, driving the
    Docker client's streams and handing stats samples to the store. Each
    handler is proved to do what the functions of TuiUpdate say, and Update
    keeps the invariant that no stream is lost track of. */
module Tui {
  import opened Types
  import opened Helpers
  import opened Storage
  import opened DockerClient
  import opened TuiModel
  import opened TuiUpdate
  import opened TuiProperties

  /** The store's queue after a step that may have handed it an entry. */
  function Queued(q: seq<StatsEntry>, w: Option<StatsEntry>): seq<StatsEntry>
  {
    if w.Some? then Offer(q, w.value) else q
  }

  class Model {
    const client: Client
    const storage: Store?
    var containers: seq<Container>
    var cursor: int
    var err: Option<string>
    var loading: bool
    var message: string
    var currentStats: Option<Stats>
    var currentProcesses: seq<Process>
    var statsCancel: Option<Handle>
    var width: int
    var height: int
    var logs: seq<LogEntry>
    var logsCancel: Option<Handle>
    var logsScroll: int
    var logsAutoScroll: bool
    var logsChan: Option<Handle>
    var statsChan: Option<Handle>
    var currentContainerID: string
    var cpuHistory: seq<real>
    var memoryHistory: seq<real>
    var maxDataPoints: int
    var timeRange: TimeRange
    var focusedPanel: int

    /** The fields as a value. */
    function Snap(): ModelState
      reads this
    {
      ModelState(containers, cursor, err, loading, message, currentStats, currentProcesses, statsCancel,
                 width, height, logs, logsCancel, logsScroll, logsAutoScroll, logsChan, statsChan,
                 currentContainerID, cpuHistory, memoryHistory, maxDataPoints, timeRange, focusedPanel)
    }

    ghost predicate Valid()
      reads this, client, storage
    {
      && Shape(Snap())
      && client.Valid()
      && Accounted(Snap(), client.View())
      && (storage != null ==> storage.Valid())
    }

    /** NewModel, over a client none of whose streams is still open. */
    constructor NewModel(client: Client, store: Store?)
      requires client.Valid() && forall h | 0 <= h < client.issued :: h in client.cancelled
      requires store != null ==> store.Valid()
      ensures Valid()
      ensures Snap() == Initial() && this.client == client && storage == store
    {
      this.client := client;
      storage := store;
      var maxPoints := 150;
      containers := [];
      cursor := 0;
      err := None;
      loading := true;
      message := "";
      currentStats := None;
      currentProcesses := [];
      statsCancel := None;
      width := 0;
      height := 0;
      logs := [];
      logsCancel := None;
      logsScroll := 0;
      logsAutoScroll := false;
      logsChan := None;
      statsChan := None;
      currentContainerID := "";
      cpuHistory := Zeros(maxPoints);
      memoryHistory := Zeros(maxPoints);
      maxDataPoints := maxPoints;
      timeRange := Range30Min;
      focusedPanel := 0;
    }

    /** A handler took the step o: the fields are its next state and the
        commands returned are its commands. */
    predicate Took(o: Outcome, cmds: seq<Cmd>)
      reads this
    {
      Snap() == o.next && cmds == o.fx.cmds
    }

    /** The store received the step's entry, if any, and nothing else. */
    twostate predicate Stored(w: Option<StatsEntry>)
      reads storage
    {
      storage != null ==>
        && storage.queue == Queued(old(storage.queue), w)
        && storage.buffer == old(storage.buffer) && storage.table == old(storage.table)
        && storage.running == old(storage.running)
    }

    /** Model.Update: the new fields, the commands returned, the streams
        opened and cancelled and the entry written are those of Step, and
        no stream is lost track of. */
    method Update(msg: Msg, now: Time) returns (cmds: seq<Cmd>)
      requires Valid()
      modifies this, client, storage
      ensures Valid()
      ensures var o := Step(old(Snap()), msg, Env(old(client.issued), now, storage != null));
              && Took(o, cmds) && Stored(o.fx.write)
              && client.View() == After(old(client.View()), o.fx)
    {
      StepInvariant(Snap(), msg, Env(client.issued, now, storage != null), client.View());
      cmds := Dispatch(msg, now);
    }

    /** The type switch of Update. */
    method Dispatch(msg: Msg, now: Time) returns (cmds: seq<Cmd>)
      requires Shape(Snap()) && client.Valid() && Accounted(Snap(), client.View())
      requires storage != null ==> storage.Valid()
      modifies this, client, storage
      ensures client.Valid() && (storage != null ==> storage.Valid())
      ensures var o := Step(old(Snap()), msg, Env(old(client.issued), now, storage != null));
              && Took(o, cmds) && Stored(o.fx.write)
              && client.View() == After(old(client.View()), o.fx)
    {
      match msg
      case WindowSizeMsg(w, h) =>
        AfterNothing(client.View(), NoEffects);
        Resize(w, h);
        cmds := [];
      case KeyMsg(key) =>
        OnlyStatsWrite(Snap(), msg, Env(client.issued, now, storage != null));
        cmds := HandleKey(key);
      case TickMsg(_) =>
        AfterNothing(client.View(), Effects([FetchContainers, TickAfterTwoSeconds], [], {}, None));
        cmds := [FetchContainers, TickAfterTwoSeconds];
      case ContainersMsg(list, e) =>
        OnlyStatsWrite(Snap(), msg, Env(client.issued, now, storage != null));
        cmds := HandleContainers(list, e);
      case ActionMsg(text, e) =>
        AfterNothing(client.View(), Only(FetchContainers));
        cmds := HandleAction(text, e);
      case StatsMsg(stats, e) =>
        AfterNothing(client.View(), StatsStep(Snap(), stats, e, Env(client.issued, now, storage != null)).fx);
        cmds := HandleStats(stats, e, now);
      case LogsMsg(entry, e) =>
        AfterNothing(client.View(), Only(WaitForLogs(logsChan)));
        cmds := HandleLogs(entry, e);
    }

    /** The terminal's new size. */
    method Resize(w: int, h: int)
      modifies this
      ensures Snap() == old(Snap()).(width := w, height := h)
    {
      width := w;
      height := h;
    }

    /** The outcome of a start, stop or restart: its error or its message
        shown, and the list fetched again. */
    method HandleAction(text: string, e: Option<string>) returns (cmds: seq<Cmd>)
      modifies this
      ensures Took(ActionStep(old(Snap()), text, e), cmds)
    {
      if e.Some? {
        message := "Error: " + e.value;
      } else {
        message := text;
      }
      cmds := [FetchContainers];
    }

    /** The key switch: quitting and moving the cursor touch the streams,
        the other keys only the fields (HandleViewKey). */
    method HandleKey(key: string) returns (cmds: seq<Cmd>)
      requires Shape(Snap()) && client.Valid() && Accounted(Snap(), client.View())
      modifies this, client
      ensures client.Valid()
      ensures var o := KeyStep(old(Snap()), key, old(client.issued));
              Took(o, cmds) && client.View() == After(old(client.View()), o.fx)
    {
      var k := KeyCaseOf(key);
      if k.QuitKey? {
        cmds := HandleQuit();
      } else if k.UpKey? {
        cmds := CursorUp();
      } else if k.DownKey? {
        cmds := CursorDown();
      } else {
        ViewKeyQuiet(Snap(), k, client.issued);
        AfterNothing(client.View(), KeyCaseStep(Snap(), k, client.issued).fx);
        cmds := HandleViewKey(k);
      }
    }

    /** ctrl+c and q: cancel whatever streams are held, then quit. */
    method HandleQuit() returns (cmds: seq<Cmd>)
      requires Shape(Snap()) && client.Valid() && Accounted(Snap(), client.View())
      modifies client
      ensures client.Valid()
      ensures var o := KeyCaseStep(old(Snap()), QuitKey, old(client.issued));
              Took(o, cmds) && client.View() == After(old(client.View()), o.fx)
    {
      ghost var v := client.View();
      CancelIfHeld(statsCancel);
      ghost var w := client.View();
      CancelIfHeld(logsCancel);
      AfterThen(v, w, client.View(), Effects([], [], CancelOf(statsCancel), None),
                Effects([Quit], [], CancelOf(logsCancel), None));
      cmds := [Quit];
    }

    /** up and k: one row up, and the streams follow the selection. */
    method CursorUp() returns (cmds: seq<Cmd>)
      requires Shape(Snap()) && client.Valid() && Accounted(Snap(), client.View())
      modifies this, client
      ensures client.Valid()
      ensures var o := KeyCaseStep(old(Snap()), UpKey, old(client.issued));
              Took(o, cmds) && client.View() == After(old(client.View()), o.fx)
    {
      if cursor > 0 {
        MoveCursor(cursor - 1);
        cmds := UpdateStatsAndLogsForCursor();
      } else {
        AfterNothing(client.View(), NoEffects);
        cmds := [];
      }
    }

    /** down and j: one row down, and the streams follow the selection. */
    method CursorDown() returns (cmds: seq<Cmd>)
      requires Shape(Snap()) && client.Valid() && Accounted(Snap(), client.View())
      modifies this, client
      ensures client.Valid()
      ensures var o := KeyCaseStep(old(Snap()), DownKey, old(client.issued));
              Took(o, cmds) && client.View() == After(old(client.View()), o.fx)
    {
      if cursor < |containers| - 1 {
        MoveCursor(cursor + 1);
        cmds := UpdateStatsAndLogsForCursor();
      } else {
        AfterNothing(client.View(), NoEffects);
        cmds := [];
      }
    }

    /** The cursor on row c. */
    method MoveCursor(c: int)
      modifies this
      ensures Snap() == old(Snap()).(cursor := c)
    {
      cursor := c;
    }

    /** The keys that touch neither the cursor nor the streams; the log
        scrolling keys are in HandleScrollKey. */
    method HandleViewKey(k: KeyCase) returns (cmds: seq<Cmd>)
      requires Shape(Snap()) && !k.QuitKey? && !k.UpKey? && !k.DownKey?
      modifies this
      ensures Took(KeyCaseStep(old(Snap()), k, client.issued), cmds)
    {
      if k.PageUpKey? || k.PageDownKey? || k.HomeKey? || k.EndKey? || k.AutoScrollKey? || k.ClearKey? {
        cmds := HandleScrollKey(k);
        return;
      }
      cmds := [];
      match k
      case ActionKey(a) =>
        if |containers| > 0 {
          cmds := [RunAction(a, containers[cursor].id, containers[cursor].name)];
        }
      case RefreshKey =>
        StartRefresh();
        cmds := [FetchContainers];
      case RangeKey(r) =>
        timeRange := r;
      case TabKey =>
        focusedPanel := (focusedPanel + 1) % PanelCount;
      case ShiftTabKey =>
        focusedPanel := (focusedPanel + 3) % PanelCount;
      case OtherKey =>
    }

    /** R: loading again, with a note saying so. */
    method StartRefresh()
      modifies this
      ensures Snap() == old(Snap()).(loading := true, message := "Refreshing...")
    {
      loading := true;
      message := "Refreshing...";
    }

    /** pgup, pgdown, home, end, a and c: the log view's scroll offset,
        auto-scroll and buffer. */
    method HandleScrollKey(k: KeyCase) returns (cmds: seq<Cmd>)
      requires k.PageUpKey? || k.PageDownKey? || k.HomeKey? || k.EndKey? || k.AutoScrollKey? || k.ClearKey?
      requires Shape(Snap())
      modifies this
      ensures Took(KeyCaseStep(old(Snap()), k, client.issued), cmds)
    {
      cmds := [];
      if k.PageUpKey? {
        ScrollPageUp();
        return;
      } else if k.PageDownKey? {
        ScrollPageDown();
        return;
      }
      if k.HomeKey? {
        ScrollTo(0, false);
      } else if k.EndKey? {
        ScrollTo(MaxScroll(|logs|, height), true);
      } else if k.AutoScrollKey? {
        ToggleAutoScroll();
      } else {
        ClearLogs();
      }
    }

    /** home and end: the log view at offset n, auto-scroll set to auto. */
    method ScrollTo(n: int, auto: bool)
      modifies this
      ensures Snap() == old(Snap()).(logsScroll := n, logsAutoScroll := auto)
    {
      logsScroll := n;
      logsAutoScroll := auto;
    }

    /** c: the log buffer emptied and the view back at the top. */
    method ClearLogs()
      modifies this
      ensures Snap() == old(Snap()).(logs := [], logsScroll := 0)
    {
      logs := [];
      logsScroll := 0;
    }

    /** a: auto-scroll flipped; turned on, it jumps to the end. */
    method ToggleAutoScroll()
      modifies this
      ensures Snap() == TuiUpdate.ToggleAutoScroll(old(Snap()))
    {
      logsAutoScroll := !logsAutoScroll;
      if logsAutoScroll {
        logsScroll := MaxScroll(|logs|, height);
      }
    }

    /** pgup: half a page back, not past the top; auto-scroll off. */
    method ScrollPageUp()
      modifies this
      ensures Snap() == PageUp(old(Snap()))
    {
      if logsScroll > 0 {
        var scrollAmount := VisibleLogLines(height) / 2;
        if scrollAmount < 1 {
          scrollAmount := 1;
        }
        logsScroll := logsScroll - scrollAmount;
        if logsScroll < 0 {
          logsScroll := 0;
        }
        logsAutoScroll := false;
      }
    }

    /** pgdown: half a page on; reaching the end pins the view there and
        turns auto-scroll on. */
    method ScrollPageDown()
      modifies this
      ensures Snap() == PageDown(old(Snap()))
    {
      var maxScroll := MaxScroll(|logs|, height);
      var scrollAmount := VisibleLogLines(height) / 2;
      if scrollAmount < 1 {
        scrollAmount := 1;
      }
      logsScroll := logsScroll + scrollAmount;
      if logsScroll >= maxScroll {
        logsScroll := maxScroll;
        logsAutoScroll := true;
      }
    }

    /** A new container list, or the error listing them. */
    method HandleContainers(list: seq<Container>, e: Option<string>) returns (cmds: seq<Cmd>)
      requires Shape(Snap()) && client.Valid() && Accounted(Snap(), client.View())
      modifies this, client
      ensures client.Valid()
      ensures var o := ContainersStep(old(Snap()), list, e, old(client.issued));
              Took(o, cmds) && client.View() == After(old(client.View()), o.fx)
    {
      loading := false;
      if e.Some? {
        AfterNothing(client.View(), NoEffects);
        err := e;
        return [];
      }
      var changed := ContainersListChanged(containers, list);
      TakeList(list);
      if changed {
        cmds := UpdateStatsAndLogsForCursor();
      } else {
        AfterNothing(client.View(), NoEffects);
        cmds := [];
      }
    }

    /** The new list replaces the old; a cursor past its end moves onto its
        last container. */
    method TakeList(list: seq<Container>)
      modifies this
      ensures Snap() == old(Snap()).(containers := list, cursor := ClampCursor(old(cursor), |list|))
    {
      containers := list;
      if cursor >= |containers| && |containers| > 0 {
        cursor := |containers| - 1;
      }
    }

    /** A stats sample (or its absence), or the stream's error. */
    method HandleStats(stats: Option<Stats>, e: Option<string>, now: Time) returns (cmds: seq<Cmd>)
      requires Shape(Snap()) && (storage != null ==> storage.Valid())
      modifies this, storage
      ensures storage != null ==> storage.Valid()
      ensures var o := StatsStep(old(Snap()), stats, e, Env(client.issued, now, storage != null));
              Took(o, cmds) && Stored(o.fx.write)
    {
      if e.Some? {
        message := "Stats error: " + e.value;
      } else {
        ShowSample(stats);
        if stats.Some? {
          RecordSample(stats.value, now);
        }
      }
      cmds := [WaitForStats(statsChan)];
    }

    /** The sample (or its absence) becomes the current one; the status
        line is cleared. */
    method ShowSample(stats: Option<Stats>)
      modifies this
      ensures Snap() == old(Snap()).(currentStats := stats, message := "")
    {
      currentStats := stats;
      message := "";
    }

    /** A sample: both histories shifted, the entry handed to the store,
        and the processes replaced when the sample lists any. */
    method RecordSample(s: Stats, now: Time)
      requires |cpuHistory| >= 1 && |memoryHistory| >= 1 && (storage != null ==> storage.Valid())
      requires containers != [] ==> 0 <= cursor < |containers|
      modifies this, storage
      ensures storage != null ==> storage.Valid()
      ensures var pushed := old(Snap()).(cpuHistory := PushHistory(old(cpuHistory), s.cpuPercent),
                                         memoryHistory := PushHistory(old(memoryHistory), s.memoryPercent));
              Snap() == if |s.processes| > 0 then pushed.(currentProcesses := s.processes) else pushed
      ensures Stored(if storage != null && old(containers) != [] then Some(EntryOf(old(containers)[old(cursor)].id, now, s)) else None)
    {
      ShiftHistories(s);
      SaveSample(s, now);
      if |s.processes| > 0 {
        currentProcesses := s.processes;
      }
    }

    /** Each history drops its oldest point and takes the sample's. */
    method ShiftHistories(s: Stats)
      requires |cpuHistory| >= 1 && |memoryHistory| >= 1
      modifies this
      ensures Snap() == old(Snap()).(cpuHistory := PushHistory(old(cpuHistory), s.cpuPercent),
                                     memoryHistory := PushHistory(old(memoryHistory), s.memoryPercent))
    {
      cpuHistory := cpuHistory[1..] + [s.cpuPercent];
      memoryHistory := memoryHistory[1..] + [s.memoryPercent];
    }

    /** The stats entry of the selected container, stamped now, written to
        the store when there is one and the list is not empty. */
    method SaveSample(s: Stats, now: Time)
      requires storage != null ==> storage.Valid()
      requires containers != [] ==> 0 <= cursor < |containers|
      modifies storage
      ensures storage != null ==> storage.Valid()
      ensures Stored(if storage != null && containers != [] then Some(EntryOf(containers[cursor].id, now, s)) else None)
    {
      if storage != null && |containers| > 0 {
        var entry := StatsEntry(containers[cursor].id, now, s.cpuPercent, s.memoryPercent,
                                s.memoryUsage, s.memoryLimit, s.networkRx, s.networkTx,
                                s.blockRead, s.blockWrite, s.pids);
        storage.Write(entry);
      }
    }

    /** A log line, or the stream's error. */
    method HandleLogs(entry: LogEntry, e: Option<string>) returns (cmds: seq<Cmd>)
      modifies this
      ensures Took(LogsStep(old(Snap()), entry, e), cmds)
    {
      if e.Some? {
        message := "Logs error: " + e.value;
      } else if entry.message != "" {
        KeepLine(entry);
        if logsAutoScroll {
          logsScroll := MaxScroll(|logs|, height);
        }
      }
      cmds := [WaitForLogs(logsChan)];
    }

    /** The line joins the buffer, which then keeps its newest 1000. */
    method KeepLine(entry: LogEntry)
      modifies this
      ensures Snap() == old(Snap()).(logs := AppendLog(old(logs), entry))
    {
      logs := logs + [entry];
      if |logs| > 1000 {
        logs := logs[|logs| - 1000..];
      }
    }

    /** updateStatsAndLogsForCursor: the streams follow the container under
        the cursor. */
    method UpdateStatsAndLogsForCursor() returns (cmds: seq<Cmd>)
      requires Shape(Snap()) && client.Valid() && Accounted(Snap(), client.View())
      modifies this, client
      ensures client.Valid()
      ensures var o := Retarget(old(Snap()), old(client.issued));
              Took(o, cmds) && client.View() == After(old(client.View()), o.fx)
    {
      if |containers| == 0 {
        AfterNothing(client.View(), NoEffects);
        return [];
      }
      var container := containers[cursor];
      var containerChanged := currentContainerID != container.id;
      ghost var v := client.View();
      ghost var so := RetargetStats(Snap(), container, containerChanged, client.issued);
      cmds := RestartStats(container, containerChanged);
      ghost var w := client.View();
      ghost var lo := RetargetLogs(Snap(), container, containerChanged, client.issued);
      var more := RestartLogs(container, containerChanged);
      AfterThen(v, w, client.View(), so.fx, lo.fx);
      cmds := cmds + more;
    }

    /** Calling a held stream's cancel function; nothing when none is held. */
    method CancelIfHeld(h: Option<Handle>)
      requires client.Valid() && (h.Some? ==> h.value < client.issued)
      modifies client
      ensures client.Valid()
      ensures client.View() == After(old(client.View()), Effects([], [], CancelOf(h), None))
    {
      if h.Some? {
        client.Cancel(h.value);
      } else {
        AfterNothing(client.View(), Effects([], [], {}, None));
      }
    }

    /** The stats half of updateStatsAndLogsForCursor. */
    method RestartStats(container: Container, containerChanged: bool) returns (cmds: seq<Cmd>)
      requires client.Valid() && (statsCancel.Some? ==> statsCancel.value < client.issued)
      modifies this, client
      ensures client.Valid()
      ensures var o := RetargetStats(old(Snap()), container, containerChanged, old(client.issued));
              Took(o, cmds) && client.View() == After(old(client.View()), o.fx)
    {
      if container.state == "running" {
        if containerChanged || statsCancel.None? {
          ghost var v := client.View();
          CancelIfHeld(statsCancel);
          ghost var w := client.View();
          cmds := StartStats(container.id);
          AfterThen(v, w, client.View(), Effects([], [], CancelOf(old(statsCancel)), None),
                    Effects(cmds, [Stream(StatsStream, container.id)], {}, None));
        } else {
          AfterNothing(client.View(), NoEffects);
          cmds := [];
        }
      } else {
        if statsCancel.Some? {
          client.Cancel(statsCancel.value);
          statsCancel := None;
        } else {
          AfterNothing(client.View(), NoEffects);
        }
        currentStats := None;
        cmds := [];
      }
    }

    /** Opening a stats stream for id and waiting on it. */
    method StartStats(id: string) returns (cmds: seq<Cmd>)
      requires client.Valid()
      modifies this, client
      ensures client.Valid() && client.issued == old(client.issued) + 1
      ensures Snap() == old(Snap()).(statsCancel := Some(old(client.issued)), statsChan := Some(old(client.issued)))
      ensures cmds == [WaitForStats(Some(old(client.issued)))]
      ensures client.View() == After(old(client.View()), Effects(cmds, [Stream(StatsStream, id)], {}, None))
    {
      var h := client.StreamContainerStats(id);
      statsCancel := Some(h);
      statsChan := Some(h);
      cmds := [WaitForStats(Some(h))];
      assert client.cancelled + {} == client.cancelled;
    }

    /** The logs half of updateStatsAndLogsForCursor. */
    method RestartLogs(container: Container, containerChanged: bool) returns (cmds: seq<Cmd>)
      requires maxDataPoints >= 0
      requires client.Valid() && (logsCancel.Some? ==> logsCancel.value < client.issued)
      modifies this, client
      ensures client.Valid()
      ensures var o := RetargetLogs(old(Snap()), container, containerChanged, old(client.issued));
              Took(o, cmds) && client.View() == After(old(client.View()), o.fx)
    {
      if !containerChanged {
        AfterNothing(client.View(), NoEffects);
        return [];
      }
      ghost var v := client.View();
      StopLogs();
      ghost var w := client.View();
      ResetLogView();
      ResetGraphs();
      ghost var fx := Effects([], [], {}, None);
      if container.state == "running" {
        fx := Effects([WaitForLogs(Some(client.issued))], [Stream(LogsStream, container.id)], {}, None);
        cmds := StartLogs(container.id);
      } else {
        AfterNothing(client.View(), fx);
        cmds := [];
      }
      AfterThen(v, w, client.View(), Effects([], [], CancelOf(old(logsCancel)), None), fx);
      currentContainerID := container.id;
    }

    /** Stopping the previous log stream, if any. */
    method StopLogs()
      requires client.Valid() && (logsCancel.Some? ==> logsCancel.value < client.issued)
      modifies this, client
      ensures client.Valid()
      ensures Snap() == if old(logsCancel).Some? then old(Snap()).(logsCancel := None, logsChan := None) else old(Snap())
      ensures client.View() == After(old(client.View()), Effects([], [], CancelOf(old(logsCancel)), None))
    {
      if logsCancel.Some? {
        client.Cancel(logsCancel.value);
        logsCancel := None;
        logsChan := None;
      } else {
        AfterNothing(client.View(), Effects([], [], {}, None));
      }
    }

    /** An empty log buffer, scrolled to the top, with auto-scroll on. */
    method ResetLogView()
      modifies this
      ensures Snap() == old(Snap()).(logs := [], logsScroll := 0, logsAutoScroll := true)
    {
      logs := [];
      logsScroll := 0;
      logsAutoScroll := true;
    }

    /** Both histories refilled with zeros, and no processes. */
    method ResetGraphs()
      requires maxDataPoints >= 0
      modifies this
      ensures Snap() == old(Snap()).(cpuHistory := Zeros(old(maxDataPoints)),
                                     memoryHistory := Zeros(old(maxDataPoints)), currentProcesses := [])
    {
      cpuHistory := Zeros(maxDataPoints);
      memoryHistory := Zeros(maxDataPoints);
      currentProcesses := [];
    }

    /** Opening a logs stream for id and waiting on it. */
    method StartLogs(id: string) returns (cmds: seq<Cmd>)
      requires client.Valid()
      modifies this, client
      ensures client.Valid() && client.issued == old(client.issued) + 1
      ensures Snap() == old(Snap()).(logsCancel := Some(old(client.issued)), logsChan := Some(old(client.issued)))
      ensures cmds == [WaitForLogs(Some(old(client.issued)))]
      ensures client.View() == After(old(client.View()), Effects(cmds, [Stream(LogsStream, id)], {}, None))
    {
      var h := client.StreamContainerLogs(id);
      logsCancel := Some(h);
      logsChan := Some(h);
      cmds := [WaitForLogs(Some(h))];
      assert client.cancelled + {} == client.cancelled;
    }
  }

  /** Effects that open and cancel nothing leave the client's record as it was. */
  lemma AfterNothing(v: ClientView, fx: Effects)
    requires fx.streams == [] && fx.cancels == {}
    ensures After(v, fx) == v
  {
    assert v.streams + fx.streams == v.streams;
    assert v.cancelled + fx.cancels == v.cancelled;
  }

  /** Retargeting the streams hands nothing to the store. */
  lemma RetargetWritesNothing(d: ModelState, issued: nat)
    requires Shape(d)
    ensures Retarget(d, issued).fx.write.None?
  {
    if d.containers != [] {
      var c := d.containers[d.cursor];
      RetargetStatsFrame(d, c, d.currentContainerID != c.id, issued);
    }
  }

  /** Only a stats sample hands an entry to the store. */
  lemma OnlyStatsWrite(d: ModelState, msg: Msg, env: Env)
    requires Shape(d)
    ensures !msg.StatsMsg? ==> Step(d, msg, env).fx.write.None?
  {
    match msg
    case KeyMsg(key) =>
      var k := KeyCaseOf(key);
      if k.UpKey? && d.cursor > 0 {
        RetargetWritesNothing(d.(cursor := d.cursor - 1), env.issued);
      } else if k.DownKey? && d.cursor < |d.containers| - 1 {
        RetargetWritesNothing(d.(cursor := d.cursor + 1), env.issued);
      }
    case ContainersMsg(list, err) =>
      if err.None? {
        RetargetWritesNothing(d.(loading := false, containers := list, cursor := ClampCursor(d.cursor, |list|)), env.issued);
      }
    case _ =>
  }

  /** Two rounds of opening and cancelling compose into one. */
  lemma AfterThen(v: ClientView, w: ClientView, x: ClientView, a: Effects, b: Effects)
    requires w == After(v, a) && x == After(w, b)
    ensures x == After(v, Then(a, b))
  {
    assert x.streams == v.streams + (a.streams + b.streams);
    assert x.cancelled == v.cancelled + (a.cancels + b.cancels);
  }

  /** A key other than q, up and down opens, cancels and writes nothing. */
  lemma ViewKeyQuiet(d: ModelState, k: KeyCase, issued: nat)
    requires Shape(d) && !k.QuitKey? && !k.UpKey? && !k.DownKey?
    ensures var fx := KeyCaseStep(d, k, issued).fx;
            fx.streams == [] && fx.cancels == {} && fx.write.None?
  {
  }
}
