/**
 * The per-task log: one file per task attempt, named from the experiment and
 * the moment it was opened, written one `log` call at a time (each flushed) and
 * closed once.
 */
module TaskLog {
  import opened Timestamps

  /** `f'{log_dir}/{expname}_{timestamp}.log'` */
  function LogFilePath(logDir: string, expname: string, openedAt: ValidTimestamp): (p: string)
    ensures |p| == |logDir| + |expname| + 28
  {
    logDir + "/" + expname + "_" + FileStamp(openedAt) + ".log"
  }

  /**
   * Within one log directory the file name determines the experiment and the
   * opening time: two attempts collide only if they share both.
   */
  lemma LogFilePathInjective(logDir: string, e1: string, t1: ValidTimestamp, e2: string, t2: ValidTimestamp)
    requires LogFilePath(logDir, e1, t1) == LogFilePath(logDir, e2, t2)
    ensures e1 == e2 && t1 == t2
  {
    var p1, p2 := LogFilePath(logDir, e1, t1), LogFilePath(logDir, e2, t2);
    var d := |logDir| + 1;
    assert |e1| == |e2|;
    var n := |e1|;
    assert p1[d..d + n] == e1;
    assert p2[d..d + n] == e2;
    assert p1[d + n + 1..d + n + 23] == FileStamp(t1);
    assert p2[d + n + 1..d + n + 23] == FileStamp(t2);
    FileStampInjective(t1, t2);
  }

  /** `f"{stamp} - {message}\n"`: one line of the log file. */
  function LogLine(t: ValidTimestamp, message: string): (line: string)
    ensures |line| == |message| + 23
  {
    LineStamp(t) + " - " + message + "\n"
  }

  /** The message part of a log line. */
  function MessageOf(line: string): string
    requires |line| >= 23
  {
    line[22..|line| - 1]
  }

  /** The time written at the head of a log line. */
  function StampOf(line: string): Timestamp
    requires |line| >= 19
  {
    ParseLineStamp(line[..19])
  }

  /** A log line gives back its message and its time, to the second. */
  lemma LogLineRoundTrip(t: ValidTimestamp, message: string)
    ensures MessageOf(LogLine(t, message)) == message
    ensures StampOf(LogLine(t, message)) == t.(microsecond := 0)
  {
    var line := LogLine(t, message);
    assert line[..19] == LineStamp(t);
    assert line[22..|line| - 1] == message;
    LineStampRoundTrip(t);
  }

  /** One `log(message)` call: the clock reading taken for it and the message. */
  datatype Entry = Entry(stamp: ValidTimestamp, message: string)

  /** The text written for `entries`, one string per `log` call (a message may itself hold newlines). */
  function Render(entries: seq<Entry>): (lines: seq<string>)
    ensures |lines| == |entries|
  {
    seq(|entries|, k requires 0 <= k < |entries| => LogLine(entries[k].stamp, entries[k].message))
  }

  /** Writing an entry appends exactly the text of that `log` call and leaves the earlier entries alone. */
  lemma RenderSnoc(entries: seq<Entry>, e: Entry)
    ensures Render(entries + [e]) == Render(entries) + [LogLine(e.stamp, e.message)]
  {
    var a, b := Render(entries + [e]), Render(entries) + [LogLine(e.stamp, e.message)];
    assert forall k :: 0 <= k < |a| ==> a[k] == b[k];
  }

  /** Reading the entries back, one per `log` call, gives the messages written, in order, with their times. */
  lemma RenderReadBack(entries: seq<Entry>)
    ensures forall k :: 0 <= k < |entries| ==>
      (|Render(entries)[k]| >= 23 &&
       MessageOf(Render(entries)[k]) == entries[k].message &&
       StampOf(Render(entries)[k]) == entries[k].stamp.(microsecond := 0))
  {
    forall k | 0 <= k < |entries|
      ensures |Render(entries)[k]| >= 23 && MessageOf(Render(entries)[k]) == entries[k].message &&
        StampOf(Render(entries)[k]) == entries[k].stamp.(microsecond := 0)
    {
      assert Render(entries)[k] == LogLine(entries[k].stamp, entries[k].message);
      LogLineRoundTrip(entries[k].stamp, entries[k].message);
    }
  }

  /**
   * An open log file: `open(log_file, 'w', buffering=1)` and the `log` closure
   * around it. `clock(k)` is the wall-clock reading taken when the k-th line
   * is written; the file holds the concatenation of `Render(entries)`.
   */
  class TaskLog {
    const path: string
    const clock: nat -> ValidTimestamp
    var entries: seq<Entry>
    var closed: bool

    /** Creates (or truncates) the file for this attempt. */
    constructor Open(logDir: string, expname: string, openedAt: ValidTimestamp, clock: nat -> ValidTimestamp)
      ensures path == LogFilePath(logDir, expname, openedAt) && this.clock == clock
      ensures entries == [] && !closed
    {
      path := LogFilePath(logDir, expname, openedAt);
      this.clock := clock;
      entries := [];
      closed := false;
    }

    /** `log(message)`: appends one stamped line, flushed before returning. */
    method Write(message: string)
      requires !closed
      modifies this
      ensures entries == old(entries) + [Entry(clock(|old(entries)|), message)]
      ensures !closed
    {
      entries := entries + [Entry(clock(|entries|), message)];
    }

    /** `log_f.close()`: a closed log accepts no more lines and cannot be closed again. */
    method Close()
      requires !closed
      modifies this
      ensures closed && entries == old(entries)
    {
      closed := true;
    }
  }
}
