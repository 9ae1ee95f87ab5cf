/**
 * SupabaseLogger of the current financial-report pipeline (also used by the
 * current conciliation pipeline): log lines are buffered with the file and
 * account they concern, and written to the logs table in one insert when
 * flushed.  A failed insert keeps the buffer.
 */
module ReportLog {
  import opened Wrappers
  import opened Text

  /** One row of the logs table. */
  datatype LogEntry = LogEntry(level: string, message: string, fileId: Option<string>,
                               accountId: Option<string>, context: Option<map<string, string>>)

  /** Python truthiness of a string argument: None or '' leaves the value as it was. */
  function IfTruthy(arg: string, current: Option<string>): (r: Option<string>)
    ensures arg != "" ==> r == Some(arg)
    ensures arg == "" ==> r == current
  {
    if arg != "" then Some(arg) else current
  }

  class Logger {
    var fileId: Option<string>
    var accountId: Option<string>
    var buffer: seq<LogEntry>
    /** What the logs table holds. */
    var stored: seq<LogEntry>
    var calls: nat
    /** Every entry ever logged, in order. */
    ghost var logged: seq<LogEntry>
    /** The insert calls that raise. */
    const failing: set<nat>

    /** Nothing logged is lost or written twice: the table and the buffer together hold every entry, in order. */
    ghost predicate Valid()
      reads this
    {
      stored + buffer == logged
    }

    constructor (failing: set<nat>)
      ensures Valid() && fileId == None && accountId == None
      ensures buffer == [] && stored == [] && logged == [] && calls == 0 && this.failing == failing
    {
      this.failing := failing;
      fileId, accountId := None, None;
      buffer, stored, logged := [], [], [];
      calls := 0;
    }

    /** The entry log(level, message, context) makes now. */
    function Entry(level: string, message: string, context: Option<map<string, string>>): LogEntry
      reads this
    {
      LogEntry(Upper(level), message, fileId, accountId, context)
    }

    /** set_context: only non-empty values replace the current ones. */
    method SetContext(file: string, account: string)
      modifies this
      ensures fileId == IfTruthy(file, old(fileId)) && accountId == IfTruthy(account, old(accountId))
      ensures buffer == old(buffer) && stored == old(stored) && logged == old(logged) && calls == old(calls)
    {
      fileId := IfTruthy(file, fileId);
      accountId := IfTruthy(account, accountId);
    }

    /** log: the entry goes to the end of the buffer. */
    method Log(level: string, message: string, context: Option<map<string, string>>)
      requires Valid()
      modifies this
      ensures Valid()
      ensures buffer == old(buffer) + [old(Entry(level, message, context))]
      ensures logged == old(logged) + [old(Entry(level, message, context))]
      ensures stored == old(stored) && calls == old(calls) && fileId == old(fileId) && accountId == old(accountId)
    {
      var e := Entry(level, message, context);
      buffer := buffer + [e];
      logged := logged + [e];
    }

    /**
     * flush: nothing happens on an empty buffer; otherwise one insert of the
     * whole buffer, which is emptied on success and kept on failure.
     */
    method Flush()
      requires Valid()
      modifies this
      ensures Valid() && logged == old(logged) && fileId == old(fileId) && accountId == old(accountId)
      ensures old(buffer) == [] ==> buffer == [] && stored == old(stored) && calls == old(calls)
      ensures old(buffer) != [] ==> calls == old(calls) + 1
      ensures old(buffer) != [] && old(calls) !in failing ==> buffer == [] && stored == old(stored) + old(buffer)
      ensures old(calls) in failing ==> buffer == old(buffer) && stored == old(stored)
    {
      if buffer == [] {
        return;
      }
      if calls !in failing {
        stored := stored + buffer;
        buffer := [];
      }
      calls := calls + 1;
    }
  }
}
