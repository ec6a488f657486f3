/** The process table of a container (internal/docker/processes.go): the
    reply of Docker's ContainerTop call (column titles and rows of cells) is
    turned into at most ten process records. The call itself is a parameter:
    its reply, or its error. */
module DockerProcesses {
  import opened Types

  /** ContainerTop's reply: the column titles and one row of cells per process. */
  datatype TopResult = TopResult(titles: seq<string>, processes: seq<seq<string>>)

  /** The column index of each field, -1 when no title names it. */
  datatype Columns = Columns(pid: int, user: int, cpu: int, mem: int, cmd: int)

  /** The last position whose title is one of names, or -1. */
  function LastIndexOf(titles: seq<string>, names: set<string>): (r: int)
    ensures -1 <= r < |titles|
    ensures r == -1 <==> forall i | 0 <= i < |titles| :: titles[i] !in names
    ensures r >= 0 ==> titles[r] in names && forall j | r < j < |titles| :: titles[j] !in names
  {
    if titles == [] then -1
    else if titles[|titles| - 1] in names then |titles| - 1
    else LastIndexOf(titles[..|titles| - 1], names)
  }

  /** The columns the title scan settles on: "PID", "USER", "%CPU", "%MEM",
      and "COMMAND" or "CMD" for the command. */
  function ColumnsOf(titles: seq<string>): (c: Columns)
    ensures -1 <= c.pid < |titles| && -1 <= c.user < |titles| && -1 <= c.cpu < |titles|
    ensures -1 <= c.mem < |titles| && -1 <= c.cmd < |titles|
    ensures c.cmd >= 0 ==> titles[c.cmd] == "COMMAND" || titles[c.cmd] == "CMD"
  {
    Columns(LastIndexOf(titles, {"PID"}), LastIndexOf(titles, {"USER"}), LastIndexOf(titles, {"%CPU"}),
            LastIndexOf(titles, {"%MEM"}), LastIndexOf(titles, {"COMMAND", "CMD"}))
  }

  /** One more title: the last position naming a column moves to it when
      it names that column. */
  lemma LastIndexOfSnoc(titles: seq<string>, i: int, names: set<string>)
    requires 0 <= i < |titles|
    ensures LastIndexOf(titles[..i + 1], names) ==
            if titles[i] in names then i else LastIndexOf(titles[..i], names)
  {
    assert titles[..i + 1][..i] == titles[..i];
  }

  lemma ColumnsOfSnoc(titles: seq<string>, i: int)
    requires 0 <= i < |titles|
    ensures var c := ColumnsOf(titles[..i]);
            var t := titles[i];
            ColumnsOf(titles[..i + 1]) ==
              if t == "PID" then c.(pid := i)
              else if t == "USER" then c.(user := i)
              else if t == "%CPU" then c.(cpu := i)
              else if t == "%MEM" then c.(mem := i)
              else if t == "COMMAND" || t == "CMD" then c.(cmd := i)
              else c
  {
    LastIndexOfSnoc(titles, i, {"PID"});
    LastIndexOfSnoc(titles, i, {"USER"});
    LastIndexOfSnoc(titles, i, {"%CPU"});
    LastIndexOfSnoc(titles, i, {"%MEM"});
    LastIndexOfSnoc(titles, i, {"COMMAND", "CMD"});
  }

  /** The scan over the titles: every match overwrites its column's index. */
  method FindColumns(titles: seq<string>) returns (cols: Columns)
    ensures cols == ColumnsOf(titles)
  {
    cols := Columns(-1, -1, -1, -1, -1);
    var i := 0;
    while i < |titles|
      invariant 0 <= i <= |titles|
      invariant cols == ColumnsOf(titles[..i])
    {
      ColumnsOfSnoc(titles, i);
      var title := titles[i];
      if title == "PID" {
        cols := cols.(pid := i);
      } else if title == "USER" {
        cols := cols.(user := i);
      } else if title == "%CPU" {
        cols := cols.(cpu := i);
      } else if title == "%MEM" {
        cols := cols.(mem := i);
      } else if title == "COMMAND" || title == "CMD" {
        cols := cols.(cmd := i);
      }
      i := i + 1;
    }
    assert titles[..i] == titles;
  }

  /** The largest index found, -1 when no column was found. */
  function Widest(c: Columns): (w: int)
    ensures w >= c.pid && w >= c.user && w >= c.cpu && w >= c.mem && w >= c.cmd
    ensures w == c.pid || w == c.user || w == c.cpu || w == c.mem || w == c.cmd
  {
    var a := if c.pid > c.user then c.pid else c.user;
    var b := if c.cpu > c.mem then c.cpu else c.mem;
    var d := if a > b then a else b;
    if d > c.cmd then d else c.cmd
  }

  /** The row is long enough for every column index (the negation of the
      skip test). */
  predicate Fits(row: seq<string>, c: Columns)
  {
    !(|row| <= c.pid || |row| <= c.user || |row| <= c.cpu || |row| <= c.mem || |row| <= c.cmd)
  }

  /** A row is kept exactly when it is longer than the largest column index
      found; a column that was not found (-1) never causes a skip. */
  lemma FitsIffLongerThanWidest(row: seq<string>, c: Columns)
    ensures Fits(row, c) <==> |row| > Widest(c)
    ensures Widest(c) == -1 ==> Fits(row, c)
  {
  }

  /** getOrEmpty is not part of this model; its contract here is the cell
      at idx when idx is a position of the row, and "" otherwise. */
  function GetOrEmpty(row: seq<string>, idx: int): (cell: string)
    ensures 0 <= idx < |row| ==> cell == row[idx]
    ensures !(0 <= idx < |row|) ==> cell == ""
  {
    if 0 <= idx < |row| then row[idx] else ""
  }

  /** The record built from a row that fits, or None for a skipped row. */
  function RowProcess(row: seq<string>, c: Columns): Option<Process>
  {
    if !Fits(row, c) then None
    else Some(Process(GetOrEmpty(row, c.pid), GetOrEmpty(row, c.user), GetOrEmpty(row, c.cpu),
                      GetOrEmpty(row, c.mem), GetOrEmpty(row, c.cmd)))
  }

  /** Each field of a kept row is its column's cell, or "" for a column
      that was not found. */
  lemma RowFields(row: seq<string>, c: Columns)
    requires RowProcess(row, c).Some?
    ensures var p := RowProcess(row, c).value;
            && p.pid == (if c.pid < 0 then "" else row[c.pid])
            && p.user == (if c.user < 0 then "" else row[c.user])
            && p.cpu == (if c.cpu < 0 then "" else row[c.cpu])
            && p.memory == (if c.mem < 0 then "" else row[c.mem])
            && p.command == (if c.cmd < 0 then "" else row[c.cmd])
  {
  }

  function RowProcesses(rows: seq<seq<string>>, c: Columns): (r: seq<Option<Process>>)
    ensures |r| == |rows|
  {
    if rows == [] then []
    else RowProcesses(rows[..|rows| - 1], c) + [RowProcess(rows[|rows| - 1], c)]
  }

  lemma {:induction false} RowProcessesAt(rows: seq<seq<string>>, c: Columns, i: int)
    requires 0 <= i < |rows|
    ensures RowProcesses(rows, c)[i] == RowProcess(rows[i], c)
  {
    if i < |rows| - 1 {
      RowProcessesAt(rows[..|rows| - 1], c, i);
    }
  }

  /** The records of all kept rows, in row order. */
  function AllProcesses(top: TopResult): seq<Process>
  {
    Present(RowProcesses(top.processes, ColumnsOf(top.titles)))
  }

  const MaxProcesses: nat := 10

  /** The row loop: a record per row that fits, in row order. */
  method CollectProcesses(rows: seq<seq<string>>, cols: Columns) returns (processes: seq<Process>)
    ensures processes == Present(RowProcesses(rows, cols))
  {
    processes := [];
    var i := 0;
    while i < |rows|
      invariant 0 <= i <= |rows|
      invariant processes == Present(RowProcesses(rows[..i], cols))
    {
      var row := rows[i];
      assert rows[..i + 1][..i] == rows[..i];
      PresentSnoc(RowProcesses(rows[..i], cols), RowProcess(row, cols));
      if |row| <= cols.pid || |row| <= cols.user || |row| <= cols.cpu || |row| <= cols.mem || |row| <= cols.cmd {
        i := i + 1;
        continue;
      }
      var process := Process(GetOrEmpty(row, cols.pid), GetOrEmpty(row, cols.user), GetOrEmpty(row, cols.cpu),
                             GetOrEmpty(row, cols.mem), GetOrEmpty(row, cols.cmd));
      processes := processes + [process];
      i := i + 1;
    }
    assert rows[..i] == rows;
  }

  /** GetContainerProcesses once ContainerTop has answered: the first ten
      kept rows in the order Docker listed them, or the call's error. */
  method GetContainerProcesses(top: Result<TopResult, string>) returns (r: Result<seq<Process>, string>)
    ensures top.Err? ==> r == Err(top.error)
    ensures top.Ok? ==> r.Ok? && |r.value| <= MaxProcesses
    ensures top.Ok? ==> var all := AllProcesses(top.value);
                        r.value == if |all| > MaxProcesses then all[..MaxProcesses] else all
  {
    if top.Err? {
      return Err(top.error);
    }
    var cols := FindColumns(top.value.titles);
    var processes := CollectProcesses(top.value.processes, cols);
    if |processes| > MaxProcesses {
      processes := processes[..MaxProcesses];
    }
    return Ok(processes);
  }

  /** Every process kept comes from a row that fits, and as many come back
      as there are fitting rows, up to ten: no sorting, no other filter. */
  lemma AllProcessesFaithful(top: TopResult)
    ensures |AllProcesses(top)| <= |top.processes|
    ensures |AllProcesses(top)| == |top.processes| <==>
              forall i | 0 <= i < |top.processes| :: Fits(top.processes[i], ColumnsOf(top.titles))
    ensures forall p | p in AllProcesses(top) ::
              exists i | 0 <= i < |top.processes| :: RowProcess(top.processes[i], ColumnsOf(top.titles)) == Some(p)
  {
    var c := ColumnsOf(top.titles);
    var rs := RowProcesses(top.processes, c);
    PresentBounds(rs);
    forall i | 0 <= i < |top.processes|
      ensures rs[i].Some? <==> Fits(top.processes[i], c)
    {
      RowProcessesAt(top.processes, c, i);
    }
    forall p | p in AllProcesses(top)
      ensures exists i | 0 <= i < |top.processes| :: RowProcess(top.processes[i], c) == Some(p)
    {
      var i :| 0 <= i < |rs| && rs[i] == Some(p);
      RowProcessesAt(top.processes, c, i);
    }
  }
}
