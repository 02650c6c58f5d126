/** The in-memory diagnostic log (LogHelper.kt): a list of formatted entries that keeps
    only the newest 1000. The wall-clock timestamp is formatted by the platform, so each
    operation receives it as a string. */
module Logging {
  import opened BoundedFifo

  const MAX_LOGS: nat := 1000

  /** The marker `logError` puts in front of the message. */
  const ERROR_MARKER: string := "\U{274C} ERROR: "

  /** The entry `log` records: `"[timestamp] message"`. */
  function Entry(timestamp: string, message: string): string {
    "[" + timestamp + "] " + message
  }

  /** The entry `logError` records: `"[timestamp] ❌ ERROR: message"`. */
  function ErrorEntry(timestamp: string, message: string): string {
    Entry(timestamp, ERROR_MARKER + message)
  }

  /** An entry opens with the bracketed timestamp and a space, and the message follows
      unchanged, so both can be read back from it. */
  lemma {:induction false} EntryReadsBack(timestamp: string, message: string)
    ensures var e := Entry(timestamp, message);
      && |e| == |timestamp| + 3 + |message|
      && e[0] == '[' && e[1..|timestamp| + 1] == timestamp
      && e[|timestamp| + 1] == ']' && e[|timestamp| + 2] == ' '
      && e[|timestamp| + 3..] == message
  {
    var e := Entry(timestamp, message);
    assert e == ("[" + timestamp + "] ") + message;
    assert ("[" + timestamp + "] ")[1..|timestamp| + 1] == timestamp;
  }

  /** Two entries with the same timestamp are equal only for the same message, and an
      error entry is never mistaken for a plain entry of a message without the marker. */
  lemma EntriesDistinguishMessages(timestamp: string, m1: string, m2: string)
    ensures Entry(timestamp, m1) == Entry(timestamp, m2) <==> m1 == m2
    ensures ErrorEntry(timestamp, m1) == Entry(timestamp, m2) <==> m2 == ERROR_MARKER + m1
  {
    EntryReadsBack(timestamp, m1);
    EntryReadsBack(timestamp, m2);
    EntryReadsBack(timestamp, ERROR_MARKER + m1);
  }

  /** A log at capacity drops exactly its oldest entry: every other entry moves one place
      towards the front and the new entry is last. Below capacity nothing is dropped. */
  lemma {:induction false} PushAtCapacityShifts(logs: seq<string>, entry: string)
    requires |logs| <= MAX_LOGS
    ensures var r := PushBounded(logs, entry, MAX_LOGS);
      && (|logs| < MAX_LOGS ==> r == logs + [entry])
      && (|logs| == MAX_LOGS ==>
            && |r| == MAX_LOGS
            && (forall i :: 0 <= i < MAX_LOGS - 1 ==> r[i] == logs[i + 1])
            && r[MAX_LOGS - 1] == entry)
  {
    if |logs| == MAX_LOGS {
      var r := PushBounded(logs, entry, MAX_LOGS);
      assert r == logs[1..] + [entry];
      forall i | 0 <= i < MAX_LOGS - 1
        ensures r[i] == logs[i + 1]
      {
        assert r[i] == logs[1..][i];
      }
    }
  }

  /** The log object: one sequential instance. */
  class LogHelper {
    var logList: seq<string>

    ghost predicate Valid()
      reads this
    {
      |logList| <= MAX_LOGS
    }

    constructor ()
      ensures Valid() && logList == []
    {
      logList := [];
    }

    method Log(timestamp: string, message: string)
      requires Valid()
      modifies this
      ensures Valid()
      ensures logList == PushBounded(old(logList), Entry(timestamp, message), MAX_LOGS)
    {
      var entry := "[" + timestamp + "] " + message;
      logList := logList + [entry];
      if |logList| > MAX_LOGS {
        logList := logList[1..];
      }
    }

    method LogError(timestamp: string, message: string)
      requires Valid()
      modifies this
      ensures Valid()
      ensures logList == PushBounded(old(logList), ErrorEntry(timestamp, message), MAX_LOGS)
    {
      var entry := "[" + timestamp + "] " + ERROR_MARKER + message;
      assert entry == ErrorEntry(timestamp, message);
      logList := logList + [entry];
      if |logList| > MAX_LOGS {
        logList := logList[1..];
      }
    }

    /** A snapshot of the entries, oldest first; the log itself is not touched. */
    method GetLogs() returns (logs: seq<string>)
      ensures logs == logList
    {
      logs := logList;
    }

    method ClearLogs()
      modifies this
      ensures Valid() && logList == []
    {
      logList := [];
    }
  }
}
