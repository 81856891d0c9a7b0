/**
 * The debug service: a diagnostic log kept in browser storage under
 * `debug_logs`, bounded to the newest 100 entries, and two storage probes.
 */
module DebugLog {
  import opened Common
  import opened Text

  /** A log entry: the time it was written, the message and the attached data. */
  datatype LogEntry = LogEntry(timestamp: int, message: string, data: Json)

  const MaxLogs: nat := 100

  /** The newest `n` entries of `s`. */
  function Newest<T>(s: seq<T>, n: nat): (r: seq<T>)
    ensures |r| == if |s| > n then n else |s|
    ensures r == s[|s| - |r|..]
  {
    if |s| > n then s[|s| - n..] else s
  }

  /** The log after one more entry: appended as the newest, then cut to the newest 100. */
  function Appended(logs: seq<LogEntry>, entry: LogEntry): (r: seq<LogEntry>)
    ensures |r| == if |logs| < MaxLogs then |logs| + 1 else MaxLogs
    ensures r[|r| - 1] == entry
    ensures r[..|r| - 1] == logs[|logs| + 1 - |r|..]
    ensures |logs| < MaxLogs ==> r == logs + [entry]
  {
    var all := logs + [entry];
    var r := Newest(all, MaxLogs);
    assert r[..|r| - 1] == all[|all| - |r|..|all| - 1];
    r
  }

  class DebugService {
    /** The `debug_logs` slot and the `knowledge_documents` slot of browser storage. */
    var debugLogs: Slot<LogEntry>
    var documents: Slot<Json>
    /** Whether browser storage accepts writes. */
    var writable: bool
    /** The other keys of browser storage. */
    var scratch: map<string, string>

    /** A log written by `log` never holds more than 100 entries. */
    ghost predicate Valid()
      reads this
    {
      debugLogs.Parsed? ==> |debugLogs.items| <= MaxLogs
    }

    constructor(documents: Slot<Json>, writable: bool)
      ensures Valid() && this.debugLogs == Missing && this.documents == documents
      ensures this.writable == writable && scratch == map[]
    {
      this.debugLogs := Missing;
      this.documents := documents;
      this.writable := writable;
      this.scratch := map[];
    }

    /**
     * `log`: unreadable stored logs or refused storage leave the slot as it
     * was (the error is only reported); otherwise the entry is appended.
     */
    method Log(message: string, data: Json, now: int)
      requires Valid()
      modifies this
      ensures Valid()
      ensures old(debugLogs).Corrupt? || !writable ==> debugLogs == old(debugLogs)
      ensures !old(debugLogs).Corrupt? && writable ==>
        debugLogs == Parsed(Appended(ItemsOr(old(debugLogs)), LogEntry(now, message, data)))
      ensures documents == old(documents) && writable == old(writable) && scratch == old(scratch)
    {
      if debugLogs.Corrupt? {
        return;
      }
      var logs := ItemsOr(debugLogs) + [LogEntry(now, message, data)];
      if |logs| > MaxLogs {
        logs := logs[|logs| - MaxLogs..];
      }
      if writable {
        debugLogs := Parsed(logs);
      }
    }

    /** `getLogs`: the stored entries; [] when the slot is missing or unreadable. */
    function GetLogs(): (r: seq<LogEntry>)
      reads this
      ensures debugLogs.Parsed? ==> r == debugLogs.items
      ensures !debugLogs.Parsed? ==> r == []
      ensures Valid() ==> |r| <= MaxLogs
    {
      ItemsOr(debugLogs)
    }

    /** `clearLogs`. */
    method ClearLogs()
      modifies this
      ensures Valid() && debugLogs == Missing && GetLogs() == []
      ensures documents == old(documents) && writable == old(writable) && scratch == old(scratch)
    {
      debugLogs := Missing;
    }

    /** `getDocumentCount`: the number of stored documents, 0 when missing or unreadable. */
    function GetDocumentCount(): (n: nat)
      reads this
      ensures documents.Parsed? ==> n == |documents.items|
      ensures !documents.Parsed? ==> n == 0
    {
      |ItemsOr(documents)|
    }

    /**
     * `testLocalStorage`: writes a probe value under a fresh key, reads it
     * back and removes it; true exactly when storage accepted the write.
     */
    method TestLocalStorage(now: int) returns (ok: bool)
      modifies this
      ensures ok == writable
      ensures scratch == old(scratch) - {"test_" + IntText(now)}
      ensures debugLogs == old(debugLogs) && documents == old(documents) && writable == old(writable)
    {
      var testKey := "test_" + IntText(now);
      var value: Option<string> := None;
      if writable {
        scratch := scratch[testKey := "test"];
        value := Some(scratch[testKey]);
      }
      scratch := scratch - {testKey};
      ok := value == Some("test");
    }
  }

  /** The decimal text of an integer. */
  function IntText(n: int): string {
    if n < 0 then "-" + NatToString(-n) else NatToString(n)
  }

  /** Logging keeps the newest entries in order: the previous log's tail, then the new entry. */
  lemma LogKeepsNewest(logs: seq<LogEntry>, entry: LogEntry)
    requires |logs| >= MaxLogs
    ensures Appended(logs, entry) == logs[|logs| - MaxLogs + 1..] + [entry]
  {
    var r := Appended(logs, entry);
    assert |r| == MaxLogs;
    assert r == r[..|r| - 1] + [r[|r| - 1]];
  }
}
