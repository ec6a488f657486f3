/** What Model.Update guarantees (internal/tui/update.go), proved about the
    step function of TuiUpdate. */
module TuiProperties {
  import opened Types
  import opened Helpers
  import opened Storage
  import opened DockerClient
  import opened TuiModel
  import opened TuiUpdate

  // ---------------------------------------------------------------------
  // updateStatsAndLogsForCursor
  // ---------------------------------------------------------------------

  /** The stats half changes the stats stream and sample only. */
  lemma RetargetStatsFrame(d: ModelState, c: Container, changed: bool, issued: nat)
    ensures var n := RetargetStats(d, c, changed, issued).next;
            n == d.(statsCancel := n.statsCancel, statsChan := n.statsChan, currentStats := n.currentStats)
    ensures RetargetStats(d, c, changed, issued).fx.write.None?
  {
  }

  /** The logs half changes the logs stream, the log view, the histories,
      the processes and the current container ID only. */
  lemma RetargetLogsFrame(d: ModelState, c: Container, changed: bool, issued: nat)
    requires d.maxDataPoints >= 0
    ensures var n := RetargetLogs(d, c, changed, issued).next;
            n == d.(logsCancel := n.logsCancel, logsChan := n.logsChan, logs := n.logs,
                    logsScroll := n.logsScroll, logsAutoScroll := n.logsAutoScroll,
                    cpuHistory := n.cpuHistory, memoryHistory := n.memoryHistory,
                    currentProcesses := n.currentProcesses, currentContainerID := n.currentContainerID)
    ensures RetargetLogs(d, c, changed, issued).fx.write.None?
  {
  }

  /** Retargeting touches only the stream, log and history fields: the
      list, the cursor, the messages, the size, the range and the focus stay. */
  lemma RetargetKeeps(d: ModelState, issued: nat)
    requires Shape(d)
    ensures var n := Retarget(d, issued).next;
            && n.containers == d.containers && n.cursor == d.cursor && n.err == d.err
            && n.loading == d.loading && n.message == d.message
            && n.width == d.width && n.height == d.height
            && n.maxDataPoints == d.maxDataPoints && n.timeRange == d.timeRange
            && n.focusedPanel == d.focusedPanel
    ensures Retarget(d, issued).fx.write.None?
  {
    if d.containers != [] {
      var c := d.containers[d.cursor];
      var changed := d.currentContainerID != c.id;
      var s := RetargetStats(d, c, changed, issued);
      RetargetStatsFrame(d, c, changed, issued);
      RetargetLogsFrame(s.next, c, changed, issued + |s.fx.streams|);
    }
  }

  /** An empty container list changes nothing and opens or cancels nothing. */
  lemma RetargetEmpty(d: ModelState, issued: nat)
    requires Shape(d) && d.containers == []
    ensures Retarget(d, issued) == Outcome(d, NoEffects)
  {
  }

  /** Selecting a different container cancels the old logs and stats
      streams, empties the log buffer, scrolls to the top with auto-scroll
      on, refills both histories with maxDataPoints zeros, forgets the
      processes and makes it the current container. A running container
      gets a stats stream and then a logs stream, on the next two handles;
      any other gets neither, and its last stats sample is dropped. */
  lemma RetargetNewContainer(d: ModelState, issued: nat)
    requires Shape(d) && d.containers != []
    requires d.currentContainerID != d.containers[d.cursor].id
    ensures var c := d.containers[d.cursor];
            var o := Retarget(d, issued);
            && o.next.logs == [] && o.next.logsScroll == 0 && o.next.logsAutoScroll
            && o.next.cpuHistory == Zeros(d.maxDataPoints) && o.next.memoryHistory == Zeros(d.maxDataPoints)
            && o.next.currentProcesses == []
            && o.next.currentContainerID == c.id
            && o.fx.cancels == CancelOf(d.statsCancel) + CancelOf(d.logsCancel)
            && (c.state == "running" ==>
                  && o.fx.streams == [Stream(StatsStream, c.id), Stream(LogsStream, c.id)]
                  && o.next.statsCancel == Some(issued) && o.next.logsCancel == Some(issued + 1)
                  && o.fx.cmds == [WaitForStats(Some(issued)), WaitForLogs(Some(issued + 1))])
            && (c.state != "running" ==>
                  && o.fx.streams == [] && o.fx.cmds == []
                  && o.next.statsCancel.None? && o.next.logsCancel.None? && o.next.currentStats.None?)
  {
  }

  /** Reselecting the current container leaves the logs, the scroll state,
      the histories, the processes and the logs stream alone. A running
      container keeps its stats stream, or gets one if it had none; a
      stopped one loses its stats stream and sample, and nothing else. */
  lemma RetargetSameContainer(d: ModelState, issued: nat)
    requires Shape(d) && d.containers != []
    requires d.currentContainerID == d.containers[d.cursor].id
    ensures var c := d.containers[d.cursor];
            var o := Retarget(d, issued);
            && o.next.logs == d.logs && o.next.logsScroll == d.logsScroll
            && o.next.logsAutoScroll == d.logsAutoScroll
            && o.next.cpuHistory == d.cpuHistory && o.next.memoryHistory == d.memoryHistory
            && o.next.currentProcesses == d.currentProcesses
            && o.next.logsCancel == d.logsCancel && o.next.logsChan == d.logsChan
            && o.next.currentContainerID == d.currentContainerID
            && (c.state == "running" && d.statsCancel.Some? ==> o == Outcome(d, NoEffects))
            && (c.state == "running" && d.statsCancel.None? ==>
                  && o.next == d.(statsCancel := Some(issued), statsChan := Some(issued))
                  && o.fx == Effects([WaitForStats(Some(issued))], [Stream(StatsStream, c.id)], {}, None))
            && (c.state != "running" ==>
                  && o.next == d.(statsCancel := None, currentStats := None)
                  && o.fx == Effects([], [], CancelOf(d.statsCancel), None))
  {
  }

  /** Retargeting keeps the state's shape. */
  lemma RetargetShape(d: ModelState, issued: nat)
    requires Shape(d)
    ensures Shape(Retarget(d, issued).next)
  {
    if d.containers != [] {
      var c := d.containers[d.cursor];
      var changed := d.currentContainerID != c.id;
      var s := RetargetStats(d, c, changed, issued);
      RetargetStatsFrame(d, c, changed, issued);
      assert Shape(s.next);
      RetargetLogsFrame(s.next, c, changed, issued + |s.fx.streams|);
    }
  }

  /** Retargeting loses no stream: whatever it stops holding it cancels,
      it only cancels streams opened earlier, and what it opens it holds. */
  lemma RetargetAccounted(d: ModelState, issued: nat, v: ClientView)
    requires Shape(d) && Accounted(d, v) && issued == |v.streams|
    ensures var o := Retarget(d, issued);
            && Accounted(o.next, After(v, o.fx))
            && (forall h | h in o.fx.cancels :: h < issued)
  {
    if d.containers != [] {
      if d.currentContainerID != d.containers[d.cursor].id {
        NewContainerAccounted(d, issued, v);
      } else {
        SameContainerAccounted(d, issued, v);
      }
    }
  }

  lemma NewContainerAccounted(d: ModelState, issued: nat, v: ClientView)
    requires Shape(d) && Accounted(d, v) && issued == |v.streams|
    requires d.containers != [] && d.currentContainerID != d.containers[d.cursor].id
    ensures var o := Retarget(d, issued);
            && Accounted(o.next, After(v, o.fx))
            && (forall h | h in o.fx.cancels :: h < issued)
  {
    var o := Retarget(d, issued);
    var w := After(v, o.fx);
    RetargetNewContainer(d, issued);
    assert forall h | 0 <= h < |v.streams| :: w.streams[h] == v.streams[h];
  }

  lemma SameContainerAccounted(d: ModelState, issued: nat, v: ClientView)
    requires Shape(d) && Accounted(d, v) && issued == |v.streams|
    requires d.containers != [] && d.currentContainerID == d.containers[d.cursor].id
    ensures var o := Retarget(d, issued);
            && Accounted(o.next, After(v, o.fx))
            && (forall h | h in o.fx.cancels :: h < issued)
  {
    var o := Retarget(d, issued);
    var w := After(v, o.fx);
    RetargetSameContainer(d, issued);
    assert forall h | 0 <= h < |v.streams| :: w.streams[h] == v.streams[h];
  }

  // ---------------------------------------------------------------------
  // The whole step
  // ---------------------------------------------------------------------

  /** A key other than up and down opens no stream, cancels at most the
      held ones, leaves the stream fields alone and keeps the shape. */
  lemma PlainKey(d: ModelState, k: KeyCase, issued: nat)
    requires Shape(d) && !k.UpKey? && !k.DownKey?
    ensures var o := KeyCaseStep(d, k, issued);
            && Shape(o.next)
            && o.fx.streams == [] && o.fx.cancels <= CancelOf(d.statsCancel) + CancelOf(d.logsCancel)
            && o.next.statsCancel == d.statsCancel && o.next.logsCancel == d.logsCancel
            && o.next.currentContainerID == d.currentContainerID
  {
  }

  /** A message other than a key or a container list opens and cancels no
      stream, leaves the stream fields alone and keeps the shape. */
  lemma PlainMessage(d: ModelState, msg: Msg, env: Env)
    requires Shape(d) && !msg.KeyMsg? && !msg.ContainersMsg?
    ensures var o := Step(d, msg, env);
            && Shape(o.next)
            && o.fx.streams == [] && o.fx.cancels == {}
            && o.next.statsCancel == d.statsCancel && o.next.logsCancel == d.logsCancel
            && o.next.currentContainerID == d.currentContainerID
  {
    match msg
    case WindowSizeMsg(_, _) =>
    case TickMsg(_) =>
    case ActionMsg(_, _) =>
    case StatsMsg(stats, err) =>
      StatsQuiet(d, stats, err, env);
    case LogsMsg(entry, err) =>
      LogsQuiet(d, entry, err);
  }

  lemma StatsQuiet(d: ModelState, stats: Option<Stats>, err: Option<string>, env: Env)
    requires Shape(d)
    ensures var o := StatsStep(d, stats, err, env);
            && Shape(o.next)
            && o.fx.streams == [] && o.fx.cancels == {}
            && o.next.statsCancel == d.statsCancel && o.next.logsCancel == d.logsCancel
            && o.next.currentContainerID == d.currentContainerID
  {
  }

  lemma LogsQuiet(d: ModelState, entry: LogEntry, err: Option<string>)
    ensures var o := LogsStep(d, entry, err);
            && (Shape(d) ==> Shape(o.next))
            && o.fx.streams == [] && o.fx.cancels == {}
            && o.next.statsCancel == d.statsCancel && o.next.logsCancel == d.logsCancel
            && o.next.currentContainerID == d.currentContainerID
  {
    if err.None? && entry.message != "" {
      assert |AppendLog(d.logs, entry)| <= 1000;
    }
  }

  /** A container list keeps the shape, and loses no stream. */
  lemma ContainersKeepShape(d: ModelState, list: seq<Container>, err: Option<string>, env: Env, v: ClientView)
    requires Shape(d) && Accounted(d, v) && env.issued == |v.streams|
    ensures var o := ContainersStep(d, list, err, env.issued);
            && Shape(o.next)
            && Accounted(o.next, After(v, o.fx))
            && (forall h | h in o.fx.cancels :: h < env.issued)
  {
    var o := ContainersStep(d, list, err, env.issued);
    if err.None? {
      var listed := d.(loading := false, containers := list, cursor := ClampCursor(d.cursor, |list|));
      assert Shape(listed);
      if ContainersListChanged(d.containers, list) {
        RetargetShape(listed, env.issued);
        RetargetAccounted(listed, env.issued, v);
      } else {
        assert o == Outcome(listed, NoEffects);
        assert After(v, o.fx) == v;
      }
    } else {
      assert After(v, o.fx) == v;
    }
  }

  /** Held streams stay accounted for when nothing is opened and only held
      streams are cancelled. */
  lemma AccountedQuiet(d: ModelState, n: ModelState, v: ClientView, fx: Effects)
    requires Accounted(d, v)
    requires fx.streams == [] && fx.cancels <= CancelOf(d.statsCancel) + CancelOf(d.logsCancel)
    requires n.statsCancel == d.statsCancel && n.logsCancel == d.logsCancel
    requires n.currentContainerID == d.currentContainerID
    ensures Accounted(n, After(v, fx))
    ensures forall h | h in fx.cancels :: h < |v.streams|
  {
    assert After(v, fx).streams == v.streams;
  }

  /** Every message keeps the state's shape; in particular the cursor stays
      inside a non-empty list, the histories keep 150 points and at most
      1000 log entries are kept. Every message also loses no stream, and
      cancels only streams opened before it. */
  lemma StepInvariant(d: ModelState, msg: Msg, env: Env, v: ClientView)
    requires Shape(d) && Accounted(d, v) && env.issued == |v.streams|
    ensures var o := Step(d, msg, env);
            && Shape(o.next)
            && Accounted(o.next, After(v, o.fx))
            && (forall h | h in o.fx.cancels :: h < env.issued)
  {
    var o := Step(d, msg, env);
    match msg
    case KeyMsg(key) =>
      KeyInvariant(d, key, env, v);
    case ContainersMsg(list, err) =>
      ContainersKeepShape(d, list, err, env, v);
    case _ =>
      PlainMessage(d, msg, env);
      AccountedQuiet(d, o.next, v, o.fx);
  }

  lemma KeyInvariant(d: ModelState, key: string, env: Env, v: ClientView)
    requires Shape(d) && Accounted(d, v) && env.issued == |v.streams|
    ensures var o := KeyStep(d, key, env.issued);
            && Shape(o.next)
            && Accounted(o.next, After(v, o.fx))
            && (forall h | h in o.fx.cancels :: h < env.issued)
  {
    var o := KeyStep(d, key, env.issued);
    if KeyCaseOf(key).UpKey? {
      if d.cursor > 0 {
        RetargetShape(d.(cursor := d.cursor - 1), env.issued);
        RetargetAccounted(d.(cursor := d.cursor - 1), env.issued, v);
      } else {
        AccountedQuiet(d, o.next, v, o.fx);
      }
    } else if KeyCaseOf(key).DownKey? {
      if d.cursor < |d.containers| - 1 {
        RetargetShape(d.(cursor := d.cursor + 1), env.issued);
        RetargetAccounted(d.(cursor := d.cursor + 1), env.issued, v);
      } else {
        AccountedQuiet(d, o.next, v, o.fx);
      }
    } else {
      PlainKey(d, KeyCaseOf(key), env.issued);
      AccountedQuiet(d, o.next, v, o.fx);
    }
  }

  /** A new container list is taken as is, with the cursor pulled back onto
      its last entry if it ran past the end; the streams are retargeted only
      when the list changed. A failed listing only records the error. */
  lemma ContainersArrive(d: ModelState, list: seq<Container>, err: Option<string>, env: Env)
    requires Shape(d)
    ensures var o := Step(d, ContainersMsg(list, err), env);
            && !o.next.loading
            && (err.Some? ==> o == Outcome(d.(loading := false, err := err), NoEffects))
            && (err.None? ==>
                  && o.next.containers == list
                  && o.next.cursor == (if list != [] && d.cursor >= |list| then |list| - 1 else d.cursor)
                  && (list != [] ==> 0 <= o.next.cursor < |list|)
                  && (!ContainersListChanged(d.containers, list) ==> o.fx == NoEffects))
  {
    if err.None? {
      var listed := d.(loading := false, containers := list, cursor := ClampCursor(d.cursor, |list|));
      RetargetKeeps(listed, env.issued);
    }
  }

  /** up and down move the cursor by one and retarget the streams; at the
      first or last entry they do nothing. */
  lemma CursorKeys(d: ModelState, env: Env)
    requires Shape(d)
    ensures var o := Step(d, KeyMsg("up"), env);
            && (d.cursor > 0 ==> o == Retarget(d.(cursor := d.cursor - 1), env.issued) && o.next.cursor == d.cursor - 1)
            && (d.cursor == 0 ==> o == Outcome(d, NoEffects))
    ensures var o := Step(d, KeyMsg("down"), env);
            && (d.cursor < |d.containers| - 1 ==>
                  o == Retarget(d.(cursor := d.cursor + 1), env.issued) && o.next.cursor == d.cursor + 1)
            && (d.cursor >= |d.containers| - 1 ==> o == Outcome(d, NoEffects))
  {
    if d.cursor > 0 {
      RetargetKeeps(d.(cursor := d.cursor - 1), env.issued);
    }
    if d.cursor < |d.containers| - 1 {
      RetargetKeeps(d.(cursor := d.cursor + 1), env.issued);
    }
  }

  /** A log entry with a message joins the end of the buffer, which keeps
      the newest 1000; auto-scroll follows it to the bottom. An entry with
      an empty message, or an error, leaves the buffer alone. Either way
      waiting resumes on the logs channel. */
  lemma LogArrives(d: ModelState, entry: LogEntry, err: Option<string>, env: Env)
    requires Shape(d)
    ensures var o := Step(d, LogsMsg(entry, err), env);
            && o.fx == Only(WaitForLogs(d.logsChan))
            && (err.Some? ==> o.next == d.(message := "Logs error: " + err.value))
            && (err.None? && entry.message == "" ==> o.next == d)
            && (err.None? && entry.message != "" ==>
                  var logs := o.next.logs;
                  && |logs| <= 1000 && |logs| >= 1
                  && logs[|logs| - 1] == entry
                  && logs[..|logs| - 1] == d.logs[|d.logs| - (|logs| - 1)..]
                  && |logs| == (if |d.logs| < 1000 then |d.logs| + 1 else 1000)
                  && (d.logsAutoScroll ==> o.next.logsScroll == MaxScroll(|logs|, d.height))
                  && (!d.logsAutoScroll ==> o.next.logsScroll == d.logsScroll))
  {
  }

  /** A stats sample shifts each history left by one, keeping its length,
      and puts the new value last; it becomes the current sample, clears
      the message, replaces the processes when it carries some, and is
      handed to storage for the selected container, stamped now, when a
      store is attached and the list is not empty. */
  lemma SampleArrives(d: ModelState, s: Stats, env: Env)
    requires Shape(d)
    ensures var o := Step(d, StatsMsg(Some(s), None), env);
            var n := o.next;
            && |n.cpuHistory| == |d.cpuHistory| && |n.memoryHistory| == |d.memoryHistory|
            && n.cpuHistory[|n.cpuHistory| - 1] == s.cpuPercent
            && n.memoryHistory[|n.memoryHistory| - 1] == s.memoryPercent
            && (forall i | 0 <= i < |d.cpuHistory| - 1 :: n.cpuHistory[i] == d.cpuHistory[i + 1])
            && (forall i | 0 <= i < |d.memoryHistory| - 1 :: n.memoryHistory[i] == d.memoryHistory[i + 1])
            && n.currentStats == Some(s) && n.message == ""
            && n.currentProcesses == (if |s.processes| > 0 then s.processes else d.currentProcesses)
            && o.fx.cmds == [WaitForStats(d.statsChan)]
            && o.fx.streams == [] && o.fx.cancels == {}
            && (o.fx.write.Some? <==> env.hasStorage && d.containers != [])
            && (o.fx.write.Some? ==>
                  o.fx.write.value.containerId == d.containers[d.cursor].id
                  && o.fx.write.value.timestamp == env.now
                  && o.fx.write.value.cpuPercent == s.cpuPercent
                  && o.fx.write.value.memoryPercent == s.memoryPercent)
  {
  }

  /** A stats error only sets the message: the sample, the histories and
      the storage are untouched and waiting resumes on the same channel. A
      nil sample without error clears the sample and the message only. */
  lemma StatsErrorOrNil(d: ModelState, err: Option<string>, env: Env)
    requires Shape(d)
    ensures var o := Step(d, StatsMsg(None, err), env);
            && o.fx == Only(WaitForStats(d.statsChan))
            && (err.Some? ==> o.next == d.(message := "Stats error: " + err.value))
            && (err.None? ==> o.next == d.(currentStats := None, message := ""))
  {
  }

  /** An error next to a sample is reported the same way; the sample is
      ignored. */
  lemma StatsErrorWithSample(d: ModelState, s: Stats, e: string, env: Env)
    requires Shape(d)
    ensures Step(d, StatsMsg(Some(s), Some(e)), env) ==
            Outcome(d.(message := "Stats error: " + e), Only(WaitForStats(d.statsChan)))
  {
  }

  /** pgup never scrolls above the top and turns auto-scroll off; it does
      nothing when already at the top. */
  lemma PageUpRule(d: ModelState, env: Env)
    requires Shape(d)
    ensures var n := Step(d, KeyMsg("pgup"), env).next;
            && n.logsScroll >= 0
            && (d.logsScroll > 0 ==> !n.logsAutoScroll && n.logsScroll < d.logsScroll
                                     && n.logsScroll == (if d.logsScroll >= HalfPage(d.height) then d.logsScroll - HalfPage(d.height) else 0))
            && (d.logsScroll == 0 ==> n == d)
  {
  }

  /** pgdown moves half a page down; reaching the end pins the scroll at
      its maximum and turns auto-scroll on. */
  lemma PageDownRule(d: ModelState, env: Env)
    requires Shape(d)
    ensures var n := Step(d, KeyMsg("pgdown"), env).next;
            var m := MaxScroll(|d.logs|, d.height);
            && (d.logsScroll + HalfPage(d.height) >= m ==> n.logsScroll == m && n.logsAutoScroll)
            && (d.logsScroll + HalfPage(d.height) < m ==>
                  n.logsScroll == d.logsScroll + HalfPage(d.height) && n.logsAutoScroll == d.logsAutoScroll)
            && (n.logsScroll > d.logsScroll || n.logsScroll == m)
  {
  }

  /** home goes to the top with auto-scroll off, end to the bottom with it
      on, and a toggled-on auto-scroll jumps to the bottom. */
  lemma HomeEndToggle(d: ModelState, env: Env)
    requires Shape(d)
    ensures var n := Step(d, KeyMsg("home"), env).next;
            n.logsScroll == 0 && !n.logsAutoScroll
    ensures var n := Step(d, KeyMsg("end"), env).next;
            n.logsScroll == MaxScroll(|d.logs|, d.height) && n.logsAutoScroll
    ensures var n := Step(d, KeyMsg("a"), env).next;
            n.logsAutoScroll == !d.logsAutoScroll
            && (n.logsAutoScroll ==> n.logsScroll == MaxScroll(|d.logs|, d.height))
            && (!n.logsAutoScroll ==> n.logsScroll == d.logsScroll)
  {
  }

  /** tab moves the focus to the next of the four panels, wrapping
      around, and shift+tab undoes it. */
  lemma TabThenShiftTab(d: ModelState, env: Env)
    requires Shape(d)
    ensures var n := Step(d, KeyMsg("tab"), env).next;
            && n.focusedPanel == (if d.focusedPanel == 3 then 0 else d.focusedPanel + 1)
            && Step(n, KeyMsg("shift+tab"), env).next == d
  {
    assert KeyCaseOf("tab") == TabKey && KeyCaseOf("shift+tab") == ShiftTabKey;
    var n := d.(focusedPanel := GoRem(d.focusedPanel + 1, PanelCount));
    assert Step(d, KeyMsg("tab"), env).next == n;
    assert Step(n, KeyMsg("shift+tab"), env).next == n.(focusedPanel := GoRem(n.focusedPanel + 3, PanelCount));
  }

  /** shift+tab moves the focus to the previous panel, wrapping around,
      and tab undoes it. */
  lemma ShiftTabThenTab(d: ModelState, env: Env)
    requires Shape(d)
    ensures var n := Step(d, KeyMsg("shift+tab"), env).next;
            && n.focusedPanel == (if d.focusedPanel == 0 then 3 else d.focusedPanel - 1)
            && Step(n, KeyMsg("tab"), env).next == d
  {
    assert KeyCaseOf("tab") == TabKey && KeyCaseOf("shift+tab") == ShiftTabKey;
    var p := d.(focusedPanel := GoRem(d.focusedPanel + 3, PanelCount));
    assert Step(d, KeyMsg("shift+tab"), env).next == p;
    assert Step(p, KeyMsg("tab"), env).next == p.(focusedPanel := GoRem(p.focusedPanel + 1, PanelCount));
  }

  /** q and ctrl+c cancel both held streams and quit, changing nothing else. */
  lemma QuitCancels(d: ModelState, key: string, env: Env)
    requires Shape(d) && key in {"q", "ctrl+c"}
    ensures Step(d, KeyMsg(key), env) ==
            Outcome(d, Effects([Quit], [], CancelOf(d.statsCancel) + CancelOf(d.logsCancel), None))
  {
  }

  /** An identical list never counts as a change. */
  lemma SameListUnchanged(list: seq<Container>)
    ensures !ContainersListChanged(list, list)
  {
  }

  /** What the stream accounting means: every stream still live (opened and
      not cancelled) is the held stats stream or the held logs stream, so at
      most one of each kind is live, and every live stream watches the
      container last selected. */
  lemma LiveStreams(d: ModelState, v: ClientView)
    requires Accounted(d, v)
    ensures forall h | 0 <= h < |v.streams| && h !in v.cancelled ::
              h in CancelOf(d.statsCancel) + CancelOf(d.logsCancel)
              && v.streams[h].target == d.currentContainerID
    ensures forall h, k | 0 <= h < |v.streams| && 0 <= k < |v.streams| && h !in v.cancelled && k !in v.cancelled ::
              v.streams[h].kind == v.streams[k].kind ==> h == k
  {
    forall h, k | 0 <= h < |v.streams| && 0 <= k < |v.streams| && h !in v.cancelled && k !in v.cancelled
                  && v.streams[h].kind == v.streams[k].kind
      ensures h == k
    {
      if v.streams[h].kind == StatsStream {
        assert d.statsCancel == Some(h) && d.statsCancel == Some(k);
      } else {
        assert d.logsCancel == Some(h) && d.logsCancel == Some(k);
      }
    }
  }

  /** A refresh that returns an empty list only clears the list and the
      loading flag: the held streams stay open, and the sample, the logs
      and the histories of the container that was selected stay on screen. */
  lemma EmptyListKeepsSelection(d: ModelState, env: Env)
    requires Shape(d)
    ensures var o := Step(d, ContainersMsg([], None), env);
            && o == Outcome(d.(loading := false, containers := []), NoEffects)
            && o.next.statsCancel == d.statsCancel && o.next.logsCancel == d.logsCancel
            && o.next.currentStats == d.currentStats && o.next.logs == d.logs
            && o.next.cpuHistory == d.cpuHistory && o.next.currentContainerID == d.currentContainerID
  {
    var listed := d.(loading := false, containers := [], cursor := ClampCursor(d.cursor, 0));
    assert listed == d.(loading := false, containers := []);
    RetargetEmpty(listed, env.issued);
  }

  /** A selection that stops running cancels the held stats stream but keeps
      waiting on its channel. The cancelled stream's goroutine closes that
      channel, so every wait delivers a StatsMsg with neither sample nor
      error, and each such message only clears the status line and waits on
      the same channel again. */
  lemma StoppedSelectionWaitsOnCancelled(d: ModelState, h: Handle, env: Env)
    requires Shape(d) && d.statsCancel == Some(h)
    requires d.containers != [] && d.containers[d.cursor].state != "running"
    ensures var o := Retarget(d, env.issued);
            var closed := o.next.(message := "");
            && h in o.fx.cancels
            && o.next.statsCancel.None? && o.next.statsChan == Some(h)
            && Shape(o.next)
            && Step(o.next, StatsMsg(None, None), env) == Outcome(closed, Only(WaitForStats(Some(h))))
            && Step(closed, StatsMsg(None, None), env) == Outcome(closed, Only(WaitForStats(Some(h))))
  {
    var c := d.containers[d.cursor];
    var changed := d.currentContainerID != c.id;
    var s := RetargetStats(d, c, changed, env.issued);
    RetargetLogsFrame(s.next, c, changed, env.issued + |s.fx.streams|);
    RetargetShape(d, env.issued);
  }
}
