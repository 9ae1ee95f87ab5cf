/**
 * processar_relatorio_financeiro of the current financial-report pipeline:
 * the file's row in received_files goes to 'processing', the report is read
 * and cleaned, its rows are saved, and the file ends 'processed' or, when
 * any step raised, 'error' with the message; the log buffer is flushed in
 * every case.  A failed status update is logged and never raised.
 */
module ReportMain {
  import opened Wrappers
  import opened Text
  import opened Cells
  import opened Seqs
  import opened Frames
  import opened Tables
  import opened Files
  import opened ReportLog
  import opened ReportParsers
  import opened ReportReader
  import opened ReportSave

  const ProcessingStatus := "processing"
  const ProcessedStatus := "processed"
  const ErrorStatus := "error"
  const RunStartPrefix := "Iniciando processamento do arquivo: "
  const RunDoneMessage := "Processamento conclu\U{ED}do com sucesso."
  const RunErrorPrefix := "Erro no processamento: "
  const StatusPrefix := "Status do arquivo atualizado para '"
  const StatusSuffix := "'."
  const StatusFailurePrefix := "FALHA CR\U{CD}TICA ao atualizar status do arquivo: "

  /** The fields update_file_status sends: the status, the time, and the error details when there is a message. */
  function StatusFields(status: string, message: string, now: string): (r: Record)
    ensures "status" in r && r["status"] == Str(status) && "processed_at" in r && r["processed_at"] == Str(now)
    ensures "error_details" in r <==> message != ""
    ensures message != "" ==> r["error_details"] == Str(message)
    ensures r.Keys <= {"status", "processed_at", "error_details"}
  {
    map["status" := Str(status), "processed_at" := Str(now)] +
      if message != "" then map["error_details" := Str(message)] else map[]
  }

  /** The log line of a status update that was the table's call number `call`. */
  function StatusEntry(status: string, call: nat, failing: map<nat, string>, f: Option<string>, a: Option<string>)
    : (e: LogEntry)
    ensures e.fileId == f && e.accountId == a && e.context == None
    ensures call in failing <==> e.level == Upper("error")
    ensures call in failing ==> e.message == StatusFailurePrefix + failing[call]
    ensures call !in failing ==> e.message == StatusPrefix + status + StatusSuffix
  {
    if call in failing then LogEntry(Upper("error"), StatusFailurePrefix + failing[call], f, a, None)
    else LogEntry(Upper("info"), StatusPrefix + status + StatusSuffix, f, a, None)
  }

  /**
   * update_file_status: one update of the file's row; success and failure
   * are both logged, and a failure goes no further.
   */
  method UpdateFileStatus(logger: Logger, files: FileTable, id: string, status: string, message: string, now: string)
    requires logger.Valid()
    modifies logger, files
    ensures logger.Valid()
    ensures logger.logged == old(logger.logged) +
      [StatusEntry(status, old(files.calls), files.failing, logger.fileId, logger.accountId)]
    ensures logger.stored == old(logger.stored) && logger.calls == old(logger.calls)
    ensures logger.fileId == old(logger.fileId) && logger.accountId == old(logger.accountId)
    ensures files.calls == old(files.calls) + 1
    ensures files.writes == old(files.writes) + [Write(id, StatusFields(status, message, now), old(files.calls) !in files.failing)]
    ensures files.rows == if old(files.calls) in files.failing || id !in old(files.rows) then old(files.rows)
                          else old(files.rows)[id := old(files.rows)[id] + StatusFields(status, message, now)]
  {
    var out := files.Update(id, StatusFields(status, message, now));
    match out
    case Done =>
      logger.Log("info", StatusPrefix + status + StatusSuffix, None);
    case Raised(e) =>
      logger.Log("error", StatusFailurePrefix + e, None);
  }

  /** uuid4().hex for each of n rows, the i-th drawn being uuid(i). */
  function Drawn(uuid: nat -> string, n: nat): (us: seq<string>)
    ensures |us| == n && forall i | 0 <= i < n :: us[i] == uuid(i)
  {
    seq(n, i requires 0 <= i < n => uuid(i))
  }

  /** What reading and saving do to the sales table, its call count, and how they end. */
  function Processed(c: Contents, n: nat, failing: map<nat, string>, raw: Result<Sheet>, toDt: string -> Option<Stamp>,
                     account: string, fileId: string, md5: string -> string, uuid: nat -> string): (Contents, nat, Outcome)
    requires Consistent(c) && (raw.Ok? ==> WellFormed(raw.value))
  {
    match ReadClean(raw, toDt)
    case Err(m) => (c, n, Raised(m))
    case Ok(s) => Saved(c, n, failing, Prepared(s, account, fileId, md5, Drawn(uuid, |s.index|)))
  }

  /** The log lines of reading and saving. */
  function ReadSaveLog(c: Contents, n: nat, failing: map<nat, string>, path: string, raw: Result<Sheet>,
                       toDt: string -> Option<Stamp>, trace: string, account: string, fileId: string,
                       md5: string -> string, uuid: nat -> string, f: Option<string>, a: Option<string>): seq<LogEntry>
    requires Consistent(c) && (raw.Ok? ==> WellFormed(raw.value))
  {
    ReadLog(path, raw, toDt, trace, f, a) +
      match ReadClean(raw, toDt)
      case Err(_) => []
      case Ok(s) =>
        var us := Drawn(uuid, |s.index|);
        PrepareLog(s, account, fileId, md5, us, f, a) + SendLog(c, n, failing, Prepared(s, account, fileId, md5, us), f, a)
  }

  /** The status a run leaves the file in. */
  function FinalStatus(out: Outcome): string
  {
    if out.Done? then ProcessedStatus else ErrorStatus
  }

  /** The error details a run leaves: none on success, the prefixed message on failure. */
  function ErrorDetails(out: Outcome): string
  {
    if out.Done? then "" else RunErrorPrefix + out.msg
  }

  /** The two status updates of a run whose file-table calls start at call number m. */
  function RunWrites(fileId: string, out: Outcome, now1: string, now2: string, m: nat, failing: map<nat, string>)
    : seq<Write>
  {
    [Write(fileId, StatusFields(ProcessingStatus, "", now1), m !in failing),
     Write(fileId, StatusFields(FinalStatus(out), ErrorDetails(out), now2), m + 1 !in failing)]
  }

  /** The log lines after reading and saving, on success or on failure. */
  function EndLog(out: Outcome, trace: string, m: nat, failing: map<nat, string>, f: Option<string>, a: Option<string>)
    : seq<LogEntry>
  {
    if out.Done? then
      [StatusEntry(ProcessedStatus, m, failing, f, a), LogEntry(Upper("INFO"), RunDoneMessage, f, a, None)]
    else
      [LogEntry(Upper("ERROR"), RunErrorPrefix + out.msg, f, a, Some(map["traceback" := trace])),
       StatusEntry(ErrorStatus, m, failing, f, a)]
  }

  /** read_and_clean_data followed, when it returns a frame, by save_sales_data. */
  method ReadAndSave(logger: Logger, t: Table, path: string, raw: Result<Sheet>, toDt: string -> Option<Stamp>,
                     trace: string, account: string, fileId: string, md5: string -> string, uuid: nat -> string)
    returns (out: Outcome)
    requires logger.Valid() && t.Valid() && t.keyCols == [UpsertKeyColumn] && (raw.Ok? ==> WellFormed(raw.value))
    modifies logger, t
    ensures t.Valid()
    ensures (t.Value(), t.calls, out) == Processed(old(t.Value()), old(t.calls), t.failing, raw, toDt, account, fileId, md5, uuid)
    ensures logger.Valid()
    ensures logger.logged == old(logger.logged) +
      ReadSaveLog(old(t.Value()), old(t.calls), t.failing, path, raw, toDt, trace, account, fileId, md5, uuid,
                  logger.fileId, logger.accountId)
    ensures logger.stored == old(logger.stored) && logger.calls == old(logger.calls)
    ensures logger.fileId == old(logger.fileId) && logger.accountId == old(logger.accountId)
  {
    ghost var f, a := logger.fileId, logger.accountId;
    var res := ReadAndClean(logger, path, raw, toDt, trace);
    ghost var read := ReadLog(path, raw, toDt, trace, f, a);
    if res.Err? {
      assert ReadSaveLog(old(t.Value()), old(t.calls), t.failing, path, raw, toDt, trace, account, fileId, md5, uuid, f, a)
        == read + [];
      return Raised(res.msg);
    }
    var df := res.value;
    ghost var s := df.Value();
    var us := Drawn(uuid, |df.index|);
    assert ReadClean(raw, toDt) == Ok(s);
    ghost var afterRead := logger.logged;
    ghost var c, n := t.Value(), t.calls;
    out := SaveSalesData(logger, t, df, account, fileId, md5, us);
    ghost var prepare, send := PrepareLog(s, account, fileId, md5, us, f, a), SendLog(c, n, t.failing, df.Value(), f, a);
    assert logger.logged == afterRead + prepare + send;
    Associative(afterRead, prepare, send);
    ghost var saved := prepare + send;
    assert ReadSaveLog(old(t.Value()), old(t.calls), t.failing, path, raw, toDt, trace, account, fileId, md5, uuid, f, a)
      == read + saved;
    Associative(old(logger.logged), read, saved);
    assert logger.logged == old(logger.logged) + (read + saved);
  }

  /** The log lines of a run, for the given logging context. */
  function RunLog(c: Contents, n: nat, failing: map<nat, string>, path: string, raw: Result<Sheet>,
                  toDt: string -> Option<Stamp>, readTrace: string, runTrace: string, account: string, fileId: string,
                  md5: string -> string, uuid: nat -> string, m: nat, filesFailing: map<nat, string>,
                  f: Option<string>, a: Option<string>): seq<LogEntry>
    requires Consistent(c) && (raw.Ok? ==> WellFormed(raw.value))
  {
    Around(path, ReadSaveLog(c, n, failing, path, raw, toDt, readTrace, account, fileId, md5, uuid, f, a),
           Processed(c, n, failing, raw, toDt, account, fileId, md5, uuid).2, runTrace, m, filesFailing, f, a)
  }

  /** The lines a run writes around those of reading and saving (middle), which ended with out. */
  function Around(path: string, middle: seq<LogEntry>, out: Outcome, runTrace: string, m: nat,
                  filesFailing: map<nat, string>, f: Option<string>, a: Option<string>): seq<LogEntry>
  {
    [LogEntry(Upper("INFO"), RunStartPrefix + path, f, a, None), StatusEntry(ProcessingStatus, m, filesFailing, f, a)] +
      middle + EndLog(out, runTrace, m + 1, filesFailing, f, a)
  }

  /** Chaining the three stages of a run's log. */
  lemma AroundSteps(log0: seq<LogEntry>, logA: seq<LogEntry>, logB: seq<LogEntry>, log1: seq<LogEntry>, log2: seq<LogEntry>,
                    path: string, middle: seq<LogEntry>, out: Outcome, runTrace: string, m: nat, m1: nat,
                    filesFailing: map<nat, string>, f: Option<string>, a: Option<string>)
    requires m1 == m + 1
    requires logA == log0 + [LogEntry(Upper("INFO"), RunStartPrefix + path, f, a, None)]
    requires logB == logA + [StatusEntry(ProcessingStatus, m, filesFailing, f, a)]
    requires log1 == logB + middle
    requires log2 == log1 + EndLog(out, runTrace, m1, filesFailing, f, a)
    ensures log2 == log0 + Around(path, middle, out, runTrace, m, filesFailing, f, a)
  {
    var start := [LogEntry(Upper("INFO"), RunStartPrefix + path, f, a, None), StatusEntry(ProcessingStatus, m, filesFailing, f, a)];
    assert logB == log0 + start;
    Associative(log0, start, middle);
    Associative(log0, start + middle, EndLog(out, runTrace, m + 1, filesFailing, f, a));
  }

  /** Chaining the two status updates of a run. */
  lemma WritesSteps(w0: seq<Write>, w1: seq<Write>, w2: seq<Write>, fileId: string, out: Outcome,
                    now1: string, now2: string, m: nat, m1: nat, failing: map<nat, string>)
    requires m1 == m + 1
    requires w1 == w0 + [Write(fileId, StatusFields(ProcessingStatus, "", now1), m !in failing)]
    requires w2 == w1 + [Write(fileId, StatusFields(FinalStatus(out), ErrorDetails(out), now2), m1 !in failing)]
    ensures w2 == w0 + RunWrites(fileId, out, now1, now2, m, failing)
  {
    Associative(w0, [RunWrites(fileId, out, now1, now2, m, failing)[0]], [RunWrites(fileId, out, now1, now2, m, failing)[1]]);
  }

  /**
   * processar_relatorio_financeiro.  The file's path and its contents as read
   * (raw), the date parser, the two tracebacks, the digest, the uuids drawn
   * and the two times of the status updates are given.
   */
  method ProcessReport(logger: Logger, files: FileTable, t: Table, path: string, fileId: string, account: string,
                       raw: Result<Sheet>, toDt: string -> Option<Stamp>, readTrace: string, runTrace: string,
                       md5: string -> string, uuid: nat -> string, now1: string, now2: string)
    returns (out: Outcome)
    requires logger.Valid() && t.Valid() && t.keyCols == [UpsertKeyColumn] && (raw.Ok? ==> WellFormed(raw.value))
    modifies logger, files, t
    ensures t.Valid()
    ensures (t.Value(), t.calls, out) == Processed(old(t.Value()), old(t.calls), t.failing, raw, toDt, account, fileId, md5, uuid)
    ensures files.calls == old(files.calls) + 2
    ensures files.writes == old(files.writes) + RunWrites(fileId, out, now1, now2, old(files.calls), files.failing)
    ensures logger.fileId == IfTruthy(fileId, old(logger.fileId)) && logger.accountId == IfTruthy(account, old(logger.accountId))
    ensures logger.Valid() && logger.calls == old(logger.calls) + 1
    ensures logger.logged == old(logger.logged) +
      RunLog(old(t.Value()), old(t.calls), t.failing, path, raw, toDt, readTrace, runTrace, account, fileId, md5, uuid,
             old(files.calls), files.failing, logger.fileId, logger.accountId)
    ensures old(logger.calls) !in logger.failing ==> logger.buffer == [] && logger.stored == logger.logged
  {
    logger.SetContext(fileId, account);
    ghost var f, a := logger.fileId, logger.accountId;
    ghost var m, w0 := files.calls, files.writes;
    ghost var c, n := t.Value(), t.calls;
    ghost var log0 := logger.logged;
    logger.Log("INFO", RunStartPrefix + path, None);
    ghost var logA := logger.logged;
    UpdateFileStatus(logger, files, fileId, ProcessingStatus, "", now1);
    ghost var logB, w1, m1 := logger.logged, files.writes, files.calls;
    out := ReadAndSave(logger, t, path, raw, toDt, readTrace, account, fileId, md5, uuid);
    ghost var middle := ReadSaveLog(c, n, t.failing, path, raw, toDt, readTrace, account, fileId, md5, uuid, f, a);
    ghost var log1 := logger.logged;
    Finish(logger, files, fileId, out, runTrace, now2);
    assert logA == log0 + [LogEntry(Upper("INFO"), RunStartPrefix + path, f, a, None)];
    assert logB == logA + [StatusEntry(ProcessingStatus, m, files.failing, f, a)];
    assert log1 == logB + middle;
    assert logger.logged == log1 + EndLog(out, runTrace, m1, files.failing, f, a);
    AroundSteps(log0, logA, logB, log1, logger.logged, path, middle, out, runTrace, m, m1, files.failing, f, a);
    WritesSteps(w0, w1, files.writes, fileId, out, now1, now2, m, m1, files.failing);
    logger.Flush();
  }

  /** The end of a run: the final status update and its log lines, in the order each branch writes them. */
  method Finish(logger: Logger, files: FileTable, fileId: string, out: Outcome, runTrace: string, now: string)
    requires logger.Valid()
    modifies logger, files
    ensures logger.Valid()
    ensures logger.logged == old(logger.logged) + EndLog(out, runTrace, old(files.calls), files.failing, logger.fileId, logger.accountId)
    ensures logger.stored == old(logger.stored) && logger.calls == old(logger.calls)
    ensures logger.fileId == old(logger.fileId) && logger.accountId == old(logger.accountId)
    ensures files.calls == old(files.calls) + 1
    ensures files.writes == old(files.writes) + [Write(fileId, StatusFields(FinalStatus(out), ErrorDetails(out), now), old(files.calls) !in files.failing)]
  {
    if out.Done? {
      UpdateFileStatus(logger, files, fileId, ProcessedStatus, "", now);
      logger.Log("INFO", RunDoneMessage, None);
    } else {
      logger.Log("ERROR", RunErrorPrefix + out.msg, Some(map["traceback" := runTrace]));
      UpdateFileStatus(logger, files, fileId, ErrorStatus, RunErrorPrefix + out.msg, now);
    }
  }

  // ---------------------------------------------------------------------
  // Properties of a run

  /**
   * Every run moves the file to 'processing' and then to exactly one of
   * 'processed' or 'error', whichever way its calls go; 'processed' only
   * when reading and saving both completed.
   */
  lemma RunStatuses(w0: seq<Write>, fileId: string, out: Outcome, now1: string, now2: string, m: nat, failing: map<nat, string>)
    ensures Statuses(w0 + RunWrites(fileId, out, now1, now2, m, failing), fileId) ==
      Statuses(w0, fileId) + [Str(ProcessingStatus), Str(if out.Done? then ProcessedStatus else ErrorStatus)]
  {
    var ws := RunWrites(fileId, out, now1, now2, m, failing);
    StatusesAppend(w0, ws, fileId);
    assert ws[..1] == [ws[0]];
    assert [ws[0]][..0] == [];
    assert Statuses(ws[..1], fileId) == [Str(ProcessingStatus)];
  }

  /**
   * A run that ends in error was stopped by the reader (the sales table untouched)
   * or raised a failing call's error or the KeyError of a record without an order id;
   * never the database's complaint about a batch touching a row twice.
   */
  lemma ProcessedRaises(c: Contents, n: nat, failing: map<nat, string>, raw: Result<Sheet>, toDt: string -> Option<Stamp>,
                        account: string, fileId: string, md5: string -> string, uuid: nat -> string)
    requires Consistent(c) && (raw.Ok? ==> WellFormed(raw.value))
    ensures ReadClean(raw, toDt).Err? ==>
      Processed(c, n, failing, raw, toDt, account, fileId, md5, uuid) == (c, n, Raised(ReadClean(raw, toDt).msg))
    ensures ReadClean(raw, toDt).Ok? ==> RaisedByCallOrKey(Processed(c, n, failing, raw, toDt, account, fileId, md5, uuid), failing)
  {
    var read := ReadClean(raw, toDt);
    if read.Ok? {
      var s := read.value;
      SaveRaises(c, n, failing, Prepared(s, account, fileId, md5, Drawn(uuid, |s.index|)));
    }
  }

  /**
   * A sheet without any of the financial report's essential columns ends the
   * run in 'error' with the reader's message and writes nothing to sales_data.
   */
  lemma NotFinancialFails(c: Contents, n: nat, failing: map<nat, string>, s: Sheet, toDt: string -> Option<Stamp>,
                          account: string, fileId: string, md5: string -> string, uuid: nat -> string)
    requires Consistent(c) && WellFormed(s) && !LooksFinancial(Normalized(s).columns)
    ensures var r := Processed(c, n, failing, Ok(s), toDt, account, fileId, md5, uuid);
      r.0 == c && r.1 == n && FinalStatus(r.2) == ErrorStatus && ErrorDetails(r.2) == RunErrorPrefix + NotFinancialMessage
  {
  }
}
