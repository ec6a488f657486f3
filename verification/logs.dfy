/** Container log parsing (internal/docker/logs.go). A raw line may carry
    Docker's 8-byte stream header, then an RFC 3339 timestamp, a space and
    the message. The clock readings and the timestamp parser are parameters:
    `now` stands for the time.Now() of one parseLogLine call, `clock(i)` for
    the one taken while the i-th line of a stream is parsed, and `parseTime`
    for time.Parse(time.RFC3339Nano, _), None meaning a parse error. */
module DockerLogs {
  import opened Types
  import opened Text

  /** The 8 leading bytes are dropped from every line longer than 8 bytes,
      header or not; shorter lines are kept whole. */
  function StripHeader(line: string): (r: string)
    ensures |line| > 8 ==> |r| == |line| - 8 && line == line[..8] + r
    ensures |line| <= 8 ==> r == line
  {
    if |line| > 8 then line[8..] else line
  }

  /** "stderr" when the lowercased line mentions an error or a fatal
      condition, "stdout" otherwise. */
  function StreamOf(line: string): (r: string)
    ensures r == "stderr" || r == "stdout"
  {
    var lower := ToLower(line);
    if Contains(lower, "error") || Contains(lower, "fatal") then "stderr" else "stdout"
  }

  /** parseLogLine: None for a line that is rejected, otherwise the entry. */
  function ParseLogLine(line: string, now: Time, parseTime: string -> Option<Time>): (r: Option<LogEntry>)
    ensures AllSpace(StripHeader(line)) ==> r.None?
    ensures r.Some? ==> r.value.stream == StreamOf(TrimSpace(StripHeader(line)))
  {
    var t := TrimSpace(StripHeader(line));
    if t == [] then None else ParseTrimmed(t, now, parseTime)
  }

  /** The part of parseLogLine after the blank check, on the trimmed line t:
      split off a leading timestamp when the first token parses as one. */
  function ParseTrimmed(t: string, now: Time, parseTime: string -> Option<Time>): (r: Option<LogEntry>)
    ensures r.Some? ==> r.value.stream == StreamOf(t)
  {
    var sp := IndexOf(t, ' ');
    if sp >= 0 && parseTime(t[..sp]).Some? then
      var message := TrimSpace(t[sp + 1..]);
      if message == [] then None
      else Some(LogEntry(parseTime(t[..sp]).value, message, StreamOf(t)))
    else Some(LogEntry(now, t, StreamOf(t)))
  }

  /** In a trimmed line, whatever follows the first space still holds a
      non-space character, so the timestamp branch never finds an empty
      message. */
  lemma {:induction false} RestAfterSpaceNotBlank(t: string, sp: int)
    requires t != [] && !IsSpace(t[|t| - 1])
    requires 0 <= sp < |t| && t[sp] == ' '
    ensures TrimSpace(t[sp + 1..]) != []
  {
    var rest := t[sp + 1..];
    assert |rest| > 0 && rest[|rest| - 1] == t[|t| - 1];
    assert !AllSpace(rest);
  }

  /** A line is rejected exactly when it is blank once the header is
      stripped: the rejection of an empty message after a timestamp can
      never fire. */
  lemma RejectedIffBlank(line: string, now: Time, parseTime: string -> Option<Time>)
    ensures ParseLogLine(line, now, parseTime).None? <==> AllSpace(StripHeader(line))
  {
    var t := TrimSpace(StripHeader(line));
    if t != [] {
      TrimmedAccepted(t, now, parseTime);
    }
  }

  /** A non-empty trimmed line is always accepted, with a trimmed message. */
  lemma TrimmedAccepted(t: string, now: Time, parseTime: string -> Option<Time>)
    requires t != [] && !IsSpace(t[0]) && !IsSpace(t[|t| - 1])
    ensures var r := ParseTrimmed(t, now, parseTime);
            && r.Some?
            && var m := r.value.message;
               m != [] && !IsSpace(m[0]) && !IsSpace(m[|m| - 1])
  {
    var sp := IndexOf(t, ' ');
    if sp >= 0 && parseTime(t[..sp]).Some? {
      RestAfterSpaceNotBlank(t, sp);
      var m := TrimSpace(t[sp + 1..]);
      assert ParseTrimmed(t, now, parseTime) == Some(LogEntry(parseTime(t[..sp]).value, m, StreamOf(t)));
    } else {
      assert ParseTrimmed(t, now, parseTime) == Some(LogEntry(now, t, StreamOf(t)));
    }
  }

  /** Every accepted entry has a non-empty message with no whitespace at
      either end. */
  lemma MessageTrimmed(line: string, now: Time, parseTime: string -> Option<Time>)
    requires ParseLogLine(line, now, parseTime).Some?
    ensures var m := ParseLogLine(line, now, parseTime).value.message;
            m != [] && !IsSpace(m[0]) && !IsSpace(m[|m| - 1])
  {
    TrimmedAccepted(TrimSpace(StripHeader(line)), now, parseTime);
  }

  /** When the first space-separated token parses as a timestamp, the entry
      carries that time and the trimmed remainder; otherwise it carries the
      clock reading and the whole trimmed line. */
  lemma TimestampSplit(line: string, now: Time, parseTime: string -> Option<Time>)
    requires !AllSpace(StripHeader(line))
    ensures var t := TrimSpace(StripHeader(line));
            var sp := IndexOf(t, ' ');
            var e := ParseLogLine(line, now, parseTime);
            && e.Some?
            && (if sp >= 0 && parseTime(t[..sp]).Some?
                then e.value.timestamp == parseTime(t[..sp]).value
                     && e.value.message == TrimSpace(t[sp + 1..])
                     && ' ' !in t[..sp]
                else e.value.timestamp == now && e.value.message == t)
  {
    RejectedIffBlank(line, now, parseTime);
    var t := TrimSpace(StripHeader(line));
    assert ParseLogLine(line, now, parseTime) == ParseTrimmed(t, now, parseTime);
  }

  /** The stream is "stderr" exactly when the trimmed line, lowercased,
      contains "error" or "fatal". */
  lemma StderrIffAlarming(line: string, now: Time, parseTime: string -> Option<Time>)
    requires ParseLogLine(line, now, parseTime).Some?
    ensures var lower := ToLower(TrimSpace(StripHeader(line)));
            ParseLogLine(line, now, parseTime).value.stream == "stderr" <==>
              Contains(lower, "error") || Contains(lower, "fatal")
  {
  }

  /** Every scanned line, parsed; clock(i) is what time.Now() reads while
      the i-th line is parsed. */
  function ParseAll(lines: seq<string>, clock: nat -> Time, parseTime: string -> Option<Time>): (r: seq<Option<LogEntry>>)
    ensures |r| == |lines|
  {
    if lines == [] then []
    else ParseAll(lines[..|lines| - 1], clock, parseTime) + [ParseLogLine(lines[|lines| - 1], clock(|lines| - 1), parseTime)]
  }

  lemma {:induction false} ParseAllAt(lines: seq<string>, clock: nat -> Time, parseTime: string -> Option<Time>, i: int)
    requires 0 <= i < |lines|
    ensures ParseAll(lines, clock, parseTime)[i] == ParseLogLine(lines[i], clock(i), parseTime)
  {
    if i < |lines| - 1 {
      ParseAllAt(lines[..|lines| - 1], clock, parseTime, i);
    }
  }

  /** The entries parseLogStream keeps from the scanned lines, in order. */
  function Accepted(lines: seq<string>, clock: nat -> Time, parseTime: string -> Option<Time>): seq<LogEntry>
  {
    Present(ParseAll(lines, clock, parseTime))
  }

  /** A line parseLogLine rejects: nothing but whitespace after the header. */
  predicate Blank(line: string)
  {
    AllSpace(StripHeader(line))
  }

  /** Never more entries than lines, as many exactly when no line is blank
      after the header, and each entry is the parse of one of the lines at
      the clock reading taken for that line. */
  lemma AcceptedFaithful(lines: seq<string>, clock: nat -> Time, parseTime: string -> Option<Time>)
    ensures |Accepted(lines, clock, parseTime)| <= |lines|
    ensures |Accepted(lines, clock, parseTime)| == |lines| <==> forall i | 0 <= i < |lines| :: !Blank(lines[i])
    ensures forall e | e in Accepted(lines, clock, parseTime) ::
              exists i | 0 <= i < |lines| :: ParseLogLine(lines[i], clock(i), parseTime) == Some(e)
  {
    var parsed := ParseAll(lines, clock, parseTime);
    PresentBounds(parsed);
    forall i | 0 <= i < |lines|
      ensures parsed[i].Some? <==> !Blank(lines[i])
    {
      ParseAllAt(lines, clock, parseTime, i);
      RejectedIffBlank(lines[i], clock(i), parseTime);
    }
    forall e | e in Accepted(lines, clock, parseTime)
      ensures exists i | 0 <= i < |lines| :: ParseLogLine(lines[i], clock(i), parseTime) == Some(e)
    {
      var i :| 0 <= i < |parsed| && parsed[i] == Some(e);
      ParseAllAt(lines, clock, parseTime, i);
    }
  }

  /** One more line adds its entry, when it has one, to those kept. */
  lemma AcceptedSnoc(lines: seq<string>, i: int, clock: nat -> Time, parseTime: string -> Option<Time>)
    requires 0 <= i < |lines|
    ensures var parsed := ParseLogLine(lines[i], clock(i), parseTime);
            Accepted(lines[..i + 1], clock, parseTime) ==
              Accepted(lines[..i], clock, parseTime) + (if parsed.Some? then [parsed.value] else [])
  {
    assert lines[..i + 1][..i] == lines[..i];
    PresentSnoc(ParseAll(lines[..i], clock, parseTime), ParseLogLine(lines[i], clock(i), parseTime));
  }

  /** parseLogStream: scan the lines, keep the valid entries in order, and
      hand back the scanner's error (None at a clean end of input) next to
      the entries gathered before it stopped. Each line reads the clock
      afresh: clock(i) is the reading taken for the i-th line. */
  method ParseLogStream(lines: seq<string>, scanErr: Option<string>, clock: nat -> Time, parseTime: string -> Option<Time>)
    returns (entries: seq<LogEntry>, err: Option<string>)
    ensures entries == Accepted(lines, clock, parseTime)
    ensures err == scanErr
  {
    entries := [];
    var i := 0;
    while i < |lines|
      invariant 0 <= i <= |lines|
      invariant entries == Accepted(lines[..i], clock, parseTime)
    {
      var parsed := ParseLogLine(lines[i], clock(i), parseTime);
      AcceptedSnoc(lines, i, clock, parseTime);
      if parsed.Some? {
        entries := entries + [parsed.value];
      }
      i := i + 1;
    }
    assert lines[..i] == lines;
    err := scanErr;
  }
}
