/** Value types shared by the whole monitor: the records of internal/model
    and a few small wrappers (optional values, results, wall-clock instants). */
module Types {

  datatype Option<+T> = None | Some(value: T)

  datatype Result<+T, +E> = Ok(value: T) | Err(error: E)

  /** The values present in a sequence of options, in order: the shape of
      a loop that appends only the valid results. */
  function Present<T>(xs: seq<Option<T>>): seq<T>
  {
    if xs == [] then []
    else if xs[|xs| - 1].Some? then Present(xs[..|xs| - 1]) + [xs[|xs| - 1].value]
    else Present(xs[..|xs| - 1])
  }

  /** Never more values than options, as many exactly when none is missing,
      and each value comes from one of the options. */
  lemma {:induction false} PresentBounds<T>(xs: seq<Option<T>>)
    ensures |Present(xs)| <= |xs|
    ensures |Present(xs)| == |xs| <==> forall i | 0 <= i < |xs| :: xs[i].Some?
    ensures forall v | v in Present(xs) :: exists i | 0 <= i < |xs| :: xs[i] == Some(v)
  {
    if xs != [] {
      var front := xs[..|xs| - 1];
      PresentBounds(front);
      assert forall i | 0 <= i < |front| :: xs[i] == front[i];
      forall v | v in Present(xs)
        ensures exists i | 0 <= i < |xs| :: xs[i] == Some(v)
      {
        if v in Present(front) {
          var i :| 0 <= i < |front| && front[i] == Some(v);
          assert xs[i] == Some(v);
        } else {
          assert xs[|xs| - 1] == Some(v);
        }
      }
    }
  }

  /** One more option adds its value, if any, at the end. */
  lemma PresentSnoc<T>(xs: seq<Option<T>>, x: Option<T>)
    ensures Present(xs + [x]) == if x.Some? then Present(xs) + [x.value] else Present(xs)
  {
    assert (xs + [x])[..|xs|] == xs;
  }

  /** A wall-clock instant, as nanoseconds since the Unix epoch (Go's time.Time). */
  datatype Time = Time(nanos: int)

  const NanosPerSecond: int := 1_000_000_000

  /** Go's t.Unix(): whole seconds since the epoch, rounded down. */
  function Unix(t: Time): (s: int)
    ensures s * NanosPerSecond <= t.nanos < (s + 1) * NanosPerSecond
  {
    t.nanos / NanosPerSecond
  }

  /** Go's time.Unix(sec, 0). */
  function FromUnix(sec: int): (t: Time)
    ensures Unix(t) == sec
  {
    Time(sec * NanosPerSecond)
  }

  /** t shifted by d nanoseconds (Go's t.Add(d)). */
  function Add(t: Time, d: int): Time
  {
    Time(t.nanos + d)
  }

  datatype Port = Port(privatePort: int, publicPort: int, kind: string)

  datatype Container = Container(
    id: string,
    name: string,
    image: string,
    status: string,
    state: string,
    created: Time,
    ports: seq<Port>,
    displayStatus: string)

  datatype LogEntry = LogEntry(timestamp: Time, message: string, stream: string)

  datatype Process = Process(pid: string, user: string, cpu: string, memory: string, command: string)

  /** One stats sample. The update code reads block-device counters, a process
      count and a process list as well, so they are fields here. Unsigned
      64-bit counters are natural numbers; percentages are reals. */
  datatype Stats = Stats(
    cpuPercent: real,
    memoryUsage: nat,
    memoryLimit: nat,
    memoryPercent: real,
    networkRx: nat,
    networkTx: nat,
    blockRead: nat,
    blockWrite: nat,
    pids: nat,
    processes: seq<Process>)
}
