/** The time-series store (internal/storage/sqlite.go): time ranges, the
    write-behind queue and batch writer, the read-side query with its
    per-bucket averages, and batched retention deletes. The SQLite table is a
    sequence of rows in insertion (rowid) order; database failures are
    parameters that say which calls fail. */
module Storage {
  import opened Types

  // ---------------------------------------------------------------------
  // Time ranges
  // ---------------------------------------------------------------------

  /** Go's `type TimeRange int`: five named values, any other int is unknown. */
  type TimeRange = int

  const Range30Min: TimeRange := 0
  const Range1Hour: TimeRange := 1
  const Range6Hour: TimeRange := 2
  const Range1Day: TimeRange := 3
  const Range1Week: TimeRange := 4

  predicate KnownRange(t: TimeRange)
  {
    Range30Min <= t <= Range1Week
  }

  const Minute: int := 60 * NanosPerSecond
  const Hour: int := 60 * Minute

  /** TimeRange.String. */
  function RangeName(t: TimeRange): (s: string)
    ensures !KnownRange(t) <==> s == "unknown"
  {
    if t == Range30Min then "30min"
    else if t == Range1Hour then "1hour"
    else if t == Range6Hour then "6hours"
    else if t == Range1Day then "1day"
    else if t == Range1Week then "1week"
    else "unknown"
  }

  /** TimeRange.Duration, in nanoseconds; unknown ranges fall back to 30 minutes. */
  function Duration(t: TimeRange): (d: int)
    ensures d >= 30 * Minute
    ensures !KnownRange(t) ==> d == 30 * Minute
  {
    if t == Range30Min then 30 * Minute
    else if t == Range1Hour then 1 * Hour
    else if t == Range6Hour then 6 * Hour
    else if t == Range1Day then 24 * Hour
    else if t == Range1Week then 7 * 24 * Hour
    else 30 * Minute
  }

  /** The window of a range in whole seconds. */
  function WindowSeconds(t: TimeRange): (s: int)
    ensures Duration(t) == s * NanosPerSecond
  {
    if t == Range30Min then 1800
    else if t == Range1Hour then 3600
    else if t == Range6Hour then 21600
    else if t == Range1Day then 86400
    else if t == Range1Week then 604800
    else 1800
  }

  /** Distinct known ranges have distinct names and distinct windows, and a
      later range always looks further back. */
  lemma RangesDistinct(a: TimeRange, b: TimeRange)
    requires KnownRange(a) && KnownRange(b) && a < b
    ensures RangeName(a) != RangeName(b)
    ensures Duration(a) < Duration(b)
  {
  }

  /** Aggregation bucket width in seconds chosen by Query: none for the
      finest range (raw rows), and 0, the value Go leaves in bucketSize, for
      an unknown range. */
  function BucketWidth(t: TimeRange): (w: int)
    ensures w in {0, 30, 300, 600, 3600}
    ensures w > 0 <==> KnownRange(t) && t != Range30Min
  {
    if t == Range1Hour then 30
    else if t == Range6Hour then 300
    else if t == Range1Day then 600
    else if t == Range1Week then 3600
    else 0
  }

  // ---------------------------------------------------------------------
  // Entries, rows and points
  // ---------------------------------------------------------------------

  datatype StatsEntry = StatsEntry(
    containerId: string,
    timestamp: Time,
    cpuPercent: real,
    memoryPercent: real,
    memoryUsage: nat,
    memoryLimit: nat,
    networkRx: nat,
    networkTx: nat,
    blockRead: nat,
    blockWrite: nat,
    pids: nat)

  /** One row of container_stats; the timestamp column holds Unix seconds. */
  datatype Row = Row(
    containerId: string,
    timestamp: int,
    cpuPercent: real,
    memoryPercent: real,
    memoryUsage: nat,
    memoryLimit: nat,
    networkRx: nat,
    networkTx: nat,
    blockRead: nat,
    blockWrite: nat,
    pids: nat)

  datatype DataPoint = DataPoint(timestamp: Time, cpuPercent: real, memoryPercent: real)

  /** The INSERT of one entry: every column copied, the time as entry.Timestamp.Unix(). */
  function ToRow(e: StatsEntry): (r: Row)
    ensures r.containerId == e.containerId
    ensures r.timestamp * NanosPerSecond <= e.timestamp.nanos < (r.timestamp + 1) * NanosPerSecond
  {
    Row(e.containerId, Unix(e.timestamp), e.cpuPercent, e.memoryPercent, e.memoryUsage,
        e.memoryLimit, e.networkRx, e.networkTx, e.blockRead, e.blockWrite, e.pids)
  }

  function Rows(entries: seq<StatsEntry>): seq<Row>
  {
    seq(|entries|, i requires 0 <= i < |entries| => ToRow(entries[i]))
  }

  // ---------------------------------------------------------------------
  // Write path: bounded queue, batch buffer, transactional batch insert
  // ---------------------------------------------------------------------

  const QueueCapacity: nat := 1000
  const FlushThreshold: nat := 50

  /** The non-blocking send of Write: the entry joins the tail of the queue
      when the queue has room and is dropped otherwise. */
  function Offer(queue: seq<StatsEntry>, entry: StatsEntry): (q: seq<StatsEntry>)
    ensures |queue| < QueueCapacity ==> q == queue + [entry]
    ensures |queue| >= QueueCapacity ==> q == queue
  {
    if |queue| < QueueCapacity then queue + [entry] else queue
  }

  /** What the database does during one batchWrite: whether Begin, Prepare
      or Commit fail, and which per-entry Execs (by index) fail. */
  datatype BatchFaults = BatchFaults(beginFails: bool, prepareFails: bool, execFails: set<int>, commitFails: bool)

  const NoFaults: BatchFaults := BatchFaults(false, false, {}, false)

  /** The rows the statement inserts inside the transaction: one per entry
      whose Exec succeeds, in entry order. */
  function KeptRows(entries: seq<StatsEntry>, execFails: set<int>): (rows: seq<Row>)
    ensures |rows| <= |entries|
  {
    if entries == [] then []
    else
      var n := |entries| - 1;
      KeptRows(entries[..n], execFails) + (if n in execFails then [] else [ToRow(entries[n])])
  }

  /** The rows a batchWrite adds to the table: nothing when the transaction
      cannot begin, the statement cannot be prepared or the commit fails. */
  function Committed(entries: seq<StatsEntry>, faults: BatchFaults): (rows: seq<Row>)
    ensures faults.beginFails || faults.prepareFails || faults.commitFails ==> rows == []
    ensures !(faults.beginFails || faults.prepareFails || faults.commitFails) ==>
              rows == KeptRows(entries, faults.execFails)
  {
    if faults.beginFails || faults.prepareFails || faults.commitFails then []
    else KeptRows(entries, faults.execFails)
  }

  /** With no failing Exec every entry is inserted, in order, with its time
      in Unix seconds. */
  lemma {:induction false} KeptRowsAll(entries: seq<StatsEntry>, execFails: set<int>)
    requires forall i | 0 <= i < |entries| :: i !in execFails
    ensures KeptRows(entries, execFails) == Rows(entries)
    ensures forall i | 0 <= i < |entries| ::
              KeptRows(entries, execFails)[i].timestamp == Unix(entries[i].timestamp)
  {
    if entries != [] {
      var n := |entries| - 1;
      KeptRowsAll(entries[..n], execFails);
      assert Rows(entries) == Rows(entries[..n]) + [ToRow(entries[n])];
    }
  }

  /** A failing Exec loses exactly its own entry: the entries before and
      after it are still committed, in order. */
  lemma {:induction false} KeptRowsSkipOne(entries: seq<StatsEntry>, k: int)
    requires 0 <= k < |entries|
    ensures KeptRows(entries, {k}) == Rows(entries[..k]) + Rows(entries[k + 1..])
  {
    var n := |entries| - 1;
    if k == n {
      KeptRowsAll(entries[..n], {k});
      assert entries[k + 1..] == [];
    } else {
      KeptRowsSkipOne(entries[..n], k);
      assert entries[..n][..k] == entries[..k];
      assert entries[..n][k + 1..] == entries[k + 1..n];
      assert Rows(entries[k + 1..]) == Rows(entries[k + 1..n]) + [ToRow(entries[n])];
    }
  }

  /** Two consecutive flushes without faults commit the concatenation of
      their batches. */
  lemma RowsAppend(a: seq<StatsEntry>, b: seq<StatsEntry>)
    ensures Rows(a + b) == Rows(a) + Rows(b)
  {
  }

  // ---------------------------------------------------------------------
  // Read path: Query and scanRows
  // ---------------------------------------------------------------------

  /** The WHERE clause: this container's rows strictly newer than cutoff. */
  predicate Matches(r: Row, id: string, cutoff: int)
  {
    r.containerId == id && r.timestamp > cutoff
  }

  /** The rows the WHERE clause selects, in table order. */
  function Selected(table: seq<Row>, id: string, cutoff: int): (rows: seq<Row>)
    ensures forall r :: multiset(rows)[r] == if Matches(r, id, cutoff) then multiset(table)[r] else 0
  {
    if table == [] then []
    else
      var n := |table| - 1;
      assert table == table[..n] + [table[n]];
      Selected(table[..n], id, cutoff) + (if Matches(table[n], id, cutoff) then [table[n]] else [])
  }

  predicate SortedByTime(rows: seq<Row>)
  {
    forall i, j | 0 <= i < j < |rows| :: rows[i].timestamp <= rows[j].timestamp
  }

  /** Inserts x after every row that is not later than it. */
  function InsertByTime(x: Row, rows: seq<Row>): (r: seq<Row>)
    requires SortedByTime(rows)
    ensures SortedByTime(r)
    ensures multiset(r) == multiset(rows) + multiset{x}
    ensures |r| == |rows| + 1 && (r[0] == x || (rows != [] && r[0] == rows[0]))
  {
    if rows == [] then [x]
    else if x.timestamp < rows[0].timestamp then [x] + rows
    else
      var tail := InsertByTime(x, rows[1..]);
      assert rows == [rows[0]] + rows[1..];
      assert rows[0].timestamp <= tail[0].timestamp;
      [rows[0]] + tail
  }

  /** ORDER BY timestamp ASC (a stable insertion sort). */
  function SortByTime(rows: seq<Row>): (r: seq<Row>)
    ensures SortedByTime(r)
    ensures multiset(r) == multiset(rows)
  {
    if rows == [] then []
    else
      var n := |rows| - 1;
      assert rows == rows[..n] + [rows[n]];
      InsertByTime(rows[n], SortByTime(rows[..n]))
  }

  /** scanRows over raw rows: each row becomes a point at its second. */
  function Points(rows: seq<Row>): seq<DataPoint>
  {
    seq(|rows|, i requires 0 <= i < |rows| =>
      DataPoint(FromUnix(rows[i].timestamp), rows[i].cpuPercent, rows[i].memoryPercent))
  }

  /** SQLite's integer division truncates toward zero. */
  function TruncDiv(a: int, b: int): int
    requires b > 0
  {
    if a >= 0 then a / b else -((-a) / b)
  }

  /** The `(timestamp / ?) * ?` bucket of a row. */
  function BucketOf(timestamp: int, width: int): int
    requires width > 0
  {
    TruncDiv(timestamp, width) * width
  }

  predicate StrictlyAscending(keys: seq<int>)
  {
    forall i, j | 0 <= i < j < |keys| :: keys[i] < keys[j]
  }

  /** Adds k to a strictly ascending list of keys, keeping it so. */
  function InsertKey(k: int, keys: seq<int>): (r: seq<int>)
    requires StrictlyAscending(keys)
    ensures StrictlyAscending(r)
    ensures forall x :: x in r <==> x == k || x in keys
  {
    if keys == [] then [k]
    else if k < keys[0] then [k] + keys
    else if k == keys[0] then keys
    else
      var tail := InsertKey(k, keys[1..]);
      assert forall x :: x in keys <==> x == keys[0] || x in keys[1..];
      forall m | 0 <= m < |tail| ensures keys[0] < tail[m] {
        assert tail[m] in tail;
        if tail[m] != k {
          var q :| 0 <= q < |keys[1..]| && keys[1..][q] == tail[m];
          assert keys[q + 1] == tail[m];
        }
      }
      [keys[0]] + tail
  }

  /** The distinct buckets of the selected rows (GROUP BY ... ORDER BY bucket ASC). */
  function BucketKeys(rows: seq<Row>, width: int): (keys: seq<int>)
    requires width > 0
    ensures StrictlyAscending(keys)
    ensures forall k :: k in keys <==> exists r | r in rows :: BucketOf(r.timestamp, width) == k
  {
    if rows == [] then []
    else
      var n := |rows| - 1;
      var keys := InsertKey(BucketOf(rows[n].timestamp, width), BucketKeys(rows[..n], width));
      assert forall r :: r in rows <==> r in rows[..n] || r == rows[n] by {
        assert rows == rows[..n] + [rows[n]];
      }
      keys
  }

  /** The rows of one bucket, in table order. */
  function InBucket(rows: seq<Row>, width: int, key: int): (b: seq<Row>)
    requires width > 0
    ensures forall r :: r in b <==> r in rows && BucketOf(r.timestamp, width) == key
  {
    if rows == [] then []
    else
      var n := |rows| - 1;
      assert forall r :: r in rows <==> r in rows[..n] || r == rows[n] by {
        assert rows == rows[..n] + [rows[n]];
      }
      InBucket(rows[..n], width, key) + (if BucketOf(rows[n].timestamp, width) == key then [rows[n]] else [])
  }

  function Sum(xs: seq<real>): real
  {
    if xs == [] then 0.0 else Sum(xs[..|xs| - 1]) + xs[|xs| - 1]
  }

  /** SQL AVG over a group; groups are never empty. */
  function Mean(xs: seq<real>): real
  {
    if xs == [] then 0.0 else Sum(xs) / (|xs| as real)
  }

  function CpuValues(rows: seq<Row>): seq<real>
  {
    seq(|rows|, i requires 0 <= i < |rows| => rows[i].cpuPercent)
  }

  function MemoryValues(rows: seq<Row>): seq<real>
  {
    seq(|rows|, i requires 0 <= i < |rows| => rows[i].memoryPercent)
  }

  /** The aggregated query: one point per bucket, at the bucket's start,
      carrying the mean CPU and memory of the bucket's rows. */
  function Aggregate(rows: seq<Row>, width: int): seq<DataPoint>
    requires width > 0
  {
    var keys := BucketKeys(rows, width);
    seq(|keys|, i requires 0 <= i < |keys| =>
      var b := InBucket(rows, width, keys[i]);
      DataPoint(FromUnix(keys[i]), Mean(CpuValues(b)), Mean(MemoryValues(b))))
  }

  /** The Unix second a query for the range starts after. */
  function Cutoff(now: Time, range: TimeRange): int
  {
    Unix(Add(now, -Duration(range)))
  }

  /** Storage.Query at the instant now. The cutoff is now minus the range's
      window, in Unix seconds. An unknown range leaves the bucket width at 0;
      SQLite's division by zero yields a NULL bucket, which scanRows cannot
      read into an integer and skips, so nothing comes back. */
  function Query(table: seq<Row>, id: string, range: TimeRange, now: Time): seq<DataPoint>
  {
    var rows := Selected(table, id, Cutoff(now, range));
    if range == Range30Min then Points(SortByTime(rows))
    else if BucketWidth(range) == 0 then []
    else Aggregate(rows, BucketWidth(range))
  }

  predicate Ascending(points: seq<DataPoint>)
  {
    forall i, j | 0 <= i < j < |points| :: points[i].timestamp.nanos <= points[j].timestamp.nanos
  }

  /** Subtracting whole seconds from an instant subtracts them from its Unix time. */
  lemma UnixMinusSeconds(t: Time, k: int)
    ensures Unix(Add(t, -k * NanosPerSecond)) == Unix(t) - k
  {
    var s := Unix(t);
    assert (s - k) * NanosPerSecond <= t.nanos - k * NanosPerSecond < (s - k + 1) * NanosPerSecond;
  }

  /** The finest range returns exactly this container's rows newer than
      now - 30 minutes, as a time-ordered permutation, one point per row. */
  lemma QueryRaw(table: seq<Row>, id: string, now: Time)
    ensures var rows := Selected(table, id, Unix(now) - 30 * 60);
            var sorted := SortByTime(rows);
            && Query(table, id, Range30Min, now) == Points(sorted)
            && SortedByTime(sorted)
            && multiset(sorted) == multiset(rows)
            && Ascending(Points(sorted))
  {
    UnixMinusSeconds(now, 30 * 60);
    var sorted := SortByTime(Selected(table, id, Unix(now) - 30 * 60));
    PointsAscending(sorted);
  }

  lemma PointsAscending(rows: seq<Row>)
    requires SortedByTime(rows)
    ensures Ascending(Points(rows))
  {
    var p := Points(rows);
    forall i, j | 0 <= i < j < |p| ensures p[i].timestamp.nanos <= p[j].timestamp.nanos {
      MultiplyMonotone(rows[i].timestamp, rows[j].timestamp);
    }
  }

  lemma MultiplyMonotone(a: int, b: int)
    requires a <= b
    ensures a * NanosPerSecond <= b * NanosPerSecond
  {
  }

  lemma MultiplyStrict(a: int, b: int)
    requires a < b
    ensures a * NanosPerSecond < b * NanosPerSecond
  {
  }

  /** Aggregation: one point per distinct bucket of the selected rows, at
      strictly increasing times, each the mean of a non-empty bucket. */
  lemma {:induction false} AggregateBuckets(rows: seq<Row>, width: int)
    requires width > 0
    ensures var keys := BucketKeys(rows, width);
            var points := Aggregate(rows, width);
            && |points| == |keys| <= |rows|
            && (forall i, j | 0 <= i < j < |points| :: points[i].timestamp.nanos < points[j].timestamp.nanos)
            && (forall r | r in rows :: exists i | 0 <= i < |points| ::
                  points[i].timestamp == FromUnix(BucketOf(r.timestamp, width)))
            && (forall i | 0 <= i < |points| ::
                  var b := InBucket(rows, width, keys[i]);
                  && b != []
                  && (forall r | r in b :: BucketOf(r.timestamp, width) == keys[i])
                  && points[i].cpuPercent == Sum(CpuValues(b)) / (|b| as real)
                  && points[i].memoryPercent == Sum(MemoryValues(b)) / (|b| as real))
  {
    var keys := BucketKeys(rows, width);
    var points := Aggregate(rows, width);
    KeysNoMoreThanRows(rows, width);
    forall i, j | 0 <= i < j < |points| ensures points[i].timestamp.nanos < points[j].timestamp.nanos {
      MultiplyStrict(keys[i], keys[j]);
    }
    forall r | r in rows
      ensures exists i | 0 <= i < |points| :: points[i].timestamp == FromUnix(BucketOf(r.timestamp, width))
    {
      var k := BucketOf(r.timestamp, width);
      assert k in keys;
      var i :| 0 <= i < |keys| && keys[i] == k;
      assert points[i].timestamp == FromUnix(k);
    }
    forall i | 0 <= i < |points|
      ensures InBucket(rows, width, keys[i]) != []
    {
      assert keys[i] in keys;
      var r :| r in rows && BucketOf(r.timestamp, width) == keys[i];
      assert r in InBucket(rows, width, keys[i]);
    }
  }

  /** There are never more buckets than rows. */
  lemma {:induction false} KeysNoMoreThanRows(rows: seq<Row>, width: int)
    requires width > 0
    ensures |BucketKeys(rows, width)| <= |rows|
  {
    if rows != [] {
      var n := |rows| - 1;
      KeysNoMoreThanRows(rows[..n], width);
      InsertKeyGrowsByAtMostOne(BucketOf(rows[n].timestamp, width), BucketKeys(rows[..n], width));
    }
  }

  lemma {:induction false} InsertKeyGrowsByAtMostOne(k: int, keys: seq<int>)
    requires StrictlyAscending(keys)
    ensures |InsertKey(k, keys)| <= |keys| + 1
  {
    if keys != [] && k > keys[0] {
      InsertKeyGrowsByAtMostOne(k, keys[1..]);
    }
  }

  /** Every range, raw or aggregated, returns points in non-decreasing time order. */
  lemma QueryAscending(table: seq<Row>, id: string, range: TimeRange, now: Time)
    ensures Ascending(Query(table, id, range, now))
  {
    var rows := Selected(table, id, Cutoff(now, range));
    if range == Range30Min {
      PointsAscending(SortByTime(rows));
    } else if BucketWidth(range) > 0 {
      AggregateBuckets(rows, BucketWidth(range));
    }
  }

  /** Coarser ranges group this container's rows newer than the cutoff
      into buckets of 30, 300, 600 or 3600 seconds. */
  lemma QueryAggregated(table: seq<Row>, id: string, range: TimeRange, now: Time)
    requires KnownRange(range) && range != Range30Min
    ensures Query(table, id, range, now) == Aggregate(Selected(table, id, Cutoff(now, range)), BucketWidth(range))
    ensures Cutoff(now, range) == Unix(now) - WindowSeconds(range)
  {
    CutoffSeconds(now, range);
  }

  /** The query cutoff is the range's window before now, in whole seconds. */
  lemma CutoffSeconds(now: Time, range: TimeRange)
    ensures Cutoff(now, range) == Unix(now) - WindowSeconds(range)
  {
    var w := WindowSeconds(range);
    UnixMinusSeconds(now, w);
    assert Add(now, -Duration(range)) == Add(now, -w * NanosPerSecond);
  }

  /** An unknown range yields no points at all. */
  lemma QueryUnknownRange(table: seq<Row>, id: string, range: TimeRange, now: Time)
    requires !KnownRange(range)
    ensures Query(table, id, range, now) == []
  {
  }

  // ---------------------------------------------------------------------
  // Retention: DELETE ... WHERE timestamp < ? LIMIT ?
  // ---------------------------------------------------------------------

  const DeleteBatchSize: nat := 1000
  const RetentionNanos: int := 7 * 24 * Hour

  function CountOld(table: seq<Row>, cutoff: int): nat
  {
    if table == [] then 0
    else (if table[0].timestamp < cutoff then 1 else 0) + CountOld(table[1..], cutoff)
  }

  /** The rows retention keeps: those at or after cutoff, in table order. */
  function Retained(table: seq<Row>, cutoff: int): (r: seq<Row>)
    ensures forall i | 0 <= i < |r| :: r[i].timestamp >= cutoff
    ensures |r| == |table| - CountOld(table, cutoff)
  {
    if table == [] then []
    else (if table[0].timestamp < cutoff then [] else [table[0]]) + Retained(table[1..], cutoff)
  }

  /** One DELETE ... LIMIT limit: the first limit rows (in rowid order) older
      than cutoff go, everything else stays in place. */
  function DeleteOld(table: seq<Row>, cutoff: int, limit: nat): (r: seq<Row>)
    ensures |r| <= |table|
  {
    if table == [] then []
    else if limit > 0 && table[0].timestamp < cutoff then DeleteOld(table[1..], cutoff, limit - 1)
    else [table[0]] + DeleteOld(table[1..], cutoff, limit)
  }

  function Min(a: int, b: int): int
  {
    if a <= b then a else b
  }

  /** One pass deletes min(limit, old rows) rows: never more than the limit,
      never a row at or after the cutoff, and the old rows it leaves are
      exactly the ones it did not reach. */
  lemma {:induction false} DeleteOldCounts(table: seq<Row>, cutoff: int, limit: nat)
    ensures |table| - |DeleteOld(table, cutoff, limit)| == Min(limit, CountOld(table, cutoff))
    ensures CountOld(DeleteOld(table, cutoff, limit), cutoff) == CountOld(table, cutoff) - Min(limit, CountOld(table, cutoff))
    ensures Retained(DeleteOld(table, cutoff, limit), cutoff) == Retained(table, cutoff)
  {
    if table != [] {
      if limit > 0 && table[0].timestamp < cutoff {
        DeleteOldCounts(table[1..], cutoff, limit - 1);
      } else {
        DeleteOldCounts(table[1..], cutoff, limit);
        var r := DeleteOld(table, cutoff, limit);
        assert r[1..] == DeleteOld(table[1..], cutoff, limit);
      }
    }
  }

  /** Two passes with limits a and b delete what one pass with limit a + b would. */
  lemma {:induction false} DeleteOldCompose(table: seq<Row>, cutoff: int, a: nat, b: nat)
    ensures DeleteOld(DeleteOld(table, cutoff, a), cutoff, b) == DeleteOld(table, cutoff, a + b)
  {
    if a == 0 {
      DeleteOldZero(table, cutoff);
    } else if table != [] {
      if table[0].timestamp < cutoff {
        DeleteOldCompose(table[1..], cutoff, a - 1, b);
      } else {
        DeleteOldCompose(table[1..], cutoff, a, b);
        var once := DeleteOld(table, cutoff, a);
        assert once[0] == table[0] && once[1..] == DeleteOld(table[1..], cutoff, a);
      }
    }
  }

  /** A pass with limit 0 deletes nothing. */
  lemma {:induction false} DeleteOldZero(table: seq<Row>, cutoff: int)
    ensures DeleteOld(table, cutoff, 0) == table
  {
    if table != [] {
      DeleteOldZero(table[1..], cutoff);
    }
  }

  /** With no old rows left, the table is exactly its retained rows. */
  lemma {:induction false} NoOldRowsRetained(table: seq<Row>, cutoff: int)
    requires CountOld(table, cutoff) == 0
    ensures table == Retained(table, cutoff)
  {
    if table != [] {
      NoOldRowsRetained(table[1..], cutoff);
    }
  }

  /** Retention scenario: a row 8 days old goes, a row 1 hour old stays. */
  lemma RetentionScenario(old8d: Row, recent: Row, nowSec: int)
    requires old8d.timestamp == nowSec - 8 * 24 * 3600
    requires recent.timestamp == nowSec - 3600
    ensures Retained([old8d, recent], nowSec - 7 * 24 * 3600) == [recent]
  {
    var cutoff := nowSec - 7 * 24 * 3600;
    assert old8d.timestamp < cutoff && recent.timestamp >= cutoff;
    assert [old8d, recent][1..] == [recent];
    assert [recent][1..] == [];
    assert Retained([recent], cutoff) == [recent];
  }

  // ---------------------------------------------------------------------
  // The store
  // ---------------------------------------------------------------------

  /** The store: the write channel (queue), the background writer's batch
      buffer, the container_stats table, and whether the writer and cleanup
      goroutines still run. The goroutines' loops are the step methods
      Receive, Tick, Close and CleanupTick. */
  class Store {
    var queue: seq<StatsEntry>
    var buffer: seq<StatsEntry>
    var table: seq<Row>
    var running: bool

    ghost predicate Valid()
      reads this
    {
      |queue| <= QueueCapacity && |buffer| < FlushThreshold
    }

    /** NewStorage over a database that already holds existing rows. */
    constructor Open(existing: seq<Row>)
      ensures Valid() && running
      ensures queue == [] && buffer == [] && table == existing
    {
      queue := [];
      buffer := [];
      table := existing;
      running := true;
    }

    /** Write never blocks: the entry is queued when the queue has room and
        dropped silently otherwise. */
    method Write(entry: StatsEntry)
      requires Valid()
      modifies this`queue
      ensures Valid()
      ensures queue == Offer(old(queue), entry)
    {
      if |queue| < QueueCapacity {
        queue := queue + [entry];
      }
    }

    /** batchWrite: one transaction inserting the entries whose Exec
        succeeds, in order; a Begin, Prepare or Commit failure writes nothing. */
    method BatchWrite(entries: seq<StatsEntry>, faults: BatchFaults)
      modifies this`table
      ensures table == old(table) + Committed(entries, faults)
    {
      if faults.beginFails {
        return;
      }
      if faults.prepareFails {
        return;
      }
      var pending: seq<Row> := [];
      var i := 0;
      while i < |entries|
        invariant 0 <= i <= |entries|
        invariant pending == KeptRows(entries[..i], faults.execFails)
      {
        assert entries[..i + 1][..i] == entries[..i];
        if i !in faults.execFails {
          pending := pending + [ToRow(entries[i])];
        }
        i := i + 1;
      }
      assert entries[..|entries|] == entries;
      if !faults.commitFails {
        table := table + pending;
      }
    }

    /** The writer receives the entry at the head of the queue; a buffer
        that reaches 50 entries is flushed and emptied, whatever the flush's
        outcome. */
    method Receive(faults: BatchFaults)
      requires Valid() && running && queue != []
      modifies this
      ensures Valid() && running
      ensures queue == old(queue)[1..]
      ensures var b := old(buffer) + [old(queue)[0]];
              if |b| >= FlushThreshold then buffer == [] && table == old(table) + Committed(b, faults)
              else buffer == b && table == old(table)
    {
      var entry := queue[0];
      queue := queue[1..];
      buffer := buffer + [entry];
      if |buffer| >= FlushThreshold {
        BatchWrite(buffer, faults);
        buffer := [];
      }
    }

    /** The 5-second ticker: a non-empty buffer is flushed and emptied. */
    method Tick(faults: BatchFaults)
      requires Valid() && running
      modifies this
      ensures Valid() && running && queue == old(queue) && buffer == []
      ensures table == old(table) + Committed(old(buffer), faults)
    {
      if |buffer| > 0 {
        BatchWrite(buffer, faults);
        buffer := [];
      }
    }

    /** Close: the writer flushes what it has buffered and stops; entries
        still waiting in the queue are never written. */
    method Close(faults: BatchFaults)
      requires Valid() && running
      modifies this
      ensures Valid() && !running && queue == old(queue) && buffer == old(buffer)
      ensures table == old(table) + Committed(old(buffer), faults)
    {
      if |buffer| > 0 {
        BatchWrite(buffer, faults);
      }
      running := false;
    }

    /** batchDelete: repeated DELETE ... LIMIT 1000 passes until one deletes
        nothing or fails. failAt names the pass whose Exec fails, if any. */
    method BatchDelete(cutoff: int, failAt: Option<nat>) returns (ghost deleted: nat)
      modifies this`table
      ensures table == DeleteOld(old(table), cutoff, deleted)
      ensures Retained(table, cutoff) == Retained(old(table), cutoff)
      ensures failAt.None? ==> table == Retained(old(table), cutoff)
      ensures failAt == Some(0) ==> table == old(table)
    {
      var pass: nat := 0;
      var done := false;
      deleted := 0;
      DeleteOldZero(table, cutoff);
      while !done
        invariant table == DeleteOld(old(table), cutoff, deleted)
        invariant failAt == Some(0) ==> pass == 0 && deleted == 0
        invariant done && failAt.None? ==> CountOld(table, cutoff) == 0
        decreases |table|, !done
      {
        if failAt == Some(pass) {
          done := true;
        } else {
          var before := table;
          table := DeleteOld(table, cutoff, DeleteBatchSize);
          DeleteOldCounts(before, cutoff, DeleteBatchSize);
          DeleteOldCompose(old(table), cutoff, deleted, DeleteBatchSize);
          var affected := |before| - |table|;
          if affected == 0 {
            done := true;
          } else {
            pass := pass + 1;
          }
          deleted := deleted + DeleteBatchSize;
        }
      }
      DeleteOldCounts(old(table), cutoff, deleted);
      if failAt == Some(0) {
        DeleteOldZero(old(table), cutoff);
      }
      if failAt.None? {
        NoOldRowsRetained(table, cutoff);
      }
    }

    /** The hourly cleanup tick: delete rows older than seven days. */
    method CleanupTick(now: Time, failAt: Option<nat>)
      requires running
      modifies this`table
      ensures Retained(table, Unix(now) - 7 * 24 * 3600) == Retained(old(table), Unix(now) - 7 * 24 * 3600)
      ensures failAt.None? ==> table == Retained(old(table), Unix(now) - 7 * 24 * 3600)
    {
      UnixMinusSeconds(now, 7 * 24 * 3600);
      var _ := BatchDelete(Unix(Add(now, -RetentionNanos)), failAt);
    }
  }

  /** Sixty writes inside one flush interval end as sixty rows: the 50th
      receive flushes a full batch, the ticker flushes the other ten. */
  method SixtyWritesScenario(entries: seq<StatsEntry>) returns (rows: seq<Row>)
    requires |entries| == 60
    ensures rows == Rows(entries)
  {
    var s := new Store.Open([]);
    QueueAll(s, entries);
    ReceiveFirstBatch(s, entries);
    ReceiveRest(s, entries);
    s.Tick(NoFaults);
    KeptRowsAll(entries[50..], {});
    RowsAppend(entries[..50], entries[50..]);
    assert entries[..50] + entries[50..] == entries;
    rows := s.table;
  }

  /** The sixty writes, all queued (the queue holds up to 1000). */
  method QueueAll(s: Store, entries: seq<StatsEntry>)
    requires |entries| == 60 && s.Valid() && s.running
    requires s.queue == [] && s.buffer == [] && s.table == []
    modifies s
    ensures s.Valid() && s.running
    ensures s.queue == entries && s.buffer == [] && s.table == []
  {
    var i := 0;
    while i < 60
      invariant 0 <= i <= 60
      invariant s.Valid() && s.running
      invariant s.queue == entries[..i] && s.buffer == [] && s.table == []
    {
      s.Write(entries[i]);
      assert entries[..i + 1] == entries[..i] + [entries[i]];
      i := i + 1;
    }
    assert entries[..60] == entries;
  }

  /** The first fifty receives: the fiftieth fills the buffer and flushes it. */
  method ReceiveFirstBatch(s: Store, entries: seq<StatsEntry>)
    requires |entries| == 60 && s.Valid() && s.running
    requires s.queue == entries && s.buffer == [] && s.table == []
    modifies s
    ensures s.Valid() && s.running
    ensures s.queue == entries[50..] && s.buffer == [] && s.table == Rows(entries[..50])
  {
    var i := 0;
    assert entries[0..] == entries;
    while i < 49
      invariant 0 <= i <= 49
      invariant s.Valid() && s.running
      invariant s.queue == entries[i..] && s.buffer == entries[..i] && s.table == []
    {
      s.Receive(NoFaults);
      assert entries[..i + 1] == entries[..i] + [entries[i]];
      i := i + 1;
    }
    s.Receive(NoFaults);
    assert entries[..49] + [entries[49]] == entries[..50];
    KeptRowsAll(entries[..50], {});
  }

  /** The last ten receives stay in the buffer. */
  method ReceiveRest(s: Store, entries: seq<StatsEntry>)
    requires |entries| == 60 && s.Valid() && s.running
    requires s.queue == entries[50..] && s.buffer == []
    modifies s
    ensures s.Valid() && s.running
    ensures s.queue == [] && s.buffer == entries[50..] && s.table == old(s.table)
  {
    var i := 50;
    while i < 60
      invariant 50 <= i <= 60
      invariant s.Valid() && s.running
      invariant s.queue == entries[i..] && s.buffer == entries[50..i] && s.table == old(s.table)
    {
      s.Receive(NoFaults);
      assert entries[50..i + 1] == entries[50..i] + [entries[i]];
      i := i + 1;
    }
  }
}
