/**
 * The serverless revision of the report pipeline (api/process/index.py): the
 * run creates its own tracking row, stores the spreadsheet in the
 * 'ifood-reports' bucket, then reads, saves and recalculates KPIs as the
 * older script does, with a looser header check and a to_float that no
 * longer scales percentages.  It answers with a status dictionary instead
 * of exiting.
 */
module ServerlessReport {
  import opened Wrappers
  import opened Text
  import opened Numbers
  import opened Cells
  import opened Frames
  import opened Tables
  import opened Files
  import opened Seqs
  import LegacyReport

  /** The three headers this revision checks. */
  const RequiredColumns: seq<string> := [LegacyReport.StoreId, LegacyReport.OrderId, LegacyReport.OrderDate]

  const ReceivedStatus := "received"
  const Source := "azure_function"
  const MissingPrefix := "Colunas obrigat\U{F3}rias n\U{E3}o encontradas: "
  const UploadStatusPrefix := "Falha no upload: "
  const UploadErrorPrefix := "Falha ao fazer upload do arquivo para o Supabase Storage: "
  const FailurePrefix := "Erro no processamento: "

  /**
   * to_float of this revision: the same cleaning as before, but '%' is only
   * removed, never divided by 100; text float() refuses gives None.
   */
  function ToFloat(v: Cell): (r: Cell)
    ensures r.Null? || (r.Num? && Canonical(r.n))
    ensures !v.Num? && !v.Str? ==> r == Null
    ensures v.Num? ==> r == NumCell(v.n)
  {
    match v
    case Num(d) => NumCell(d)
    case Str(s) =>
      (match ParseFloat(LegacyReport.MoneyText(Strip(s)))
       case None => Null
       case Some(x) => NumCell(x))
    case _ => Null
  }

  /**
   * The two revisions agree except on text carrying '%', which the older
   * one divides by 100 and this one keeps as written ('2,60%' is 0.026
   * there and 2.6 here).
   */
  lemma PercentNoLongerScaled(v: Cell)
    ensures v.Str? && '%' in Strip(v.s) && ToFloat(v).Num? ==>
      LegacyReport.ToFloat(v) == NumCell(Div100(ToFloat(v).n))
    ensures !(v.Str? && '%' in Strip(v.s)) ==> LegacyReport.ToFloat(v) == ToFloat(v)
    ensures ToFloat(v).Null? <==> LegacyReport.ToFloat(v).Null?
  {
    if v.Str? {
      SameCleaning(v.s, LegacyReport.MoneyText(Strip(v.s)));
    }
  }

  /** Both revisions parse the same cleaned text; only the older one scales it. */
  lemma SameCleaning(s: string, c: string)
    requires c == LegacyReport.MoneyText(Strip(s))
    ensures ToFloat(Str(s)) == (match ParseFloat(c) case None => Null case Some(x) => NumCell(x))
    ensures LegacyReport.ToFloat(Str(s)) ==
      (match ParseFloat(c) case None => Null case Some(x) => if '%' in Strip(s) then NumCell(Div100(x)) else NumCell(x))
  {
    if c == [] {
      assert ParseFloat(c) == None;
    }
  }

  /** The headers of `required` the sheet lacks, in order. */
  function Missing(required: seq<string>, present: seq<string>): (r: seq<string>)
    ensures forall x :: x in r <==> x in required && x !in present
    ensures Subsequence(r, required)
  {
    LegacyReport.Missing(required, present)
  }

  /**
   * read_and_clean_data: the sheet as read (a failing read raises), or
   * ValueError naming the missing required headers.
   */
  function ReadAndClean(raw: Result<Sheet>): (r: Result<Sheet>)
    ensures r.Ok? <==> raw.Ok? && forall c | c in RequiredColumns :: c in raw.value.columns
    ensures r.Ok? ==> r == raw
    ensures raw.Err? ==> r == raw
  {
    var s :- raw;
    var missing := Missing(RequiredColumns, s.columns);
    if missing != [] then
      assert missing[0] in RequiredColumns && missing[0] !in s.columns;
      Err(MissingPrefix + Join(missing, ", ") + ".")
    else Ok(s)
  }

  /** Every sheet the older script accepts is accepted here, not the other way round. */
  lemma LooserThanLegacy(onDisk: bool, path: string, raw: Result<Sheet>)
    ensures LegacyReport.ReadAndClean(onDisk, path, raw).Ok? ==> ReadAndClean(raw) == LegacyReport.ReadAndClean(onDisk, path, raw)
  {
    if LegacyReport.ReadAndClean(onDisk, path, raw).Ok? {
      RequiredAreExpected();
    }
  }

  lemma RequiredAreExpected()
    ensures forall c | c in RequiredColumns :: c in LegacyReport.ExpectedColumns
  {
    assert LegacyReport.ExpectedColumns[0] == LegacyReport.StoreId;
    assert LegacyReport.ExpectedColumns[5] == LegacyReport.OrderId;
    assert LegacyReport.ExpectedColumns[6] == LegacyReport.OrderDate;
  }

  /** The converters of this revision: its own to_float, the older to_iso and raw JSON. */
  function Conversions(toIso: Cell -> Option<string>, rawJson: Record -> string): LegacyReport.Conversions
  {
    LegacyReport.Conversions(ToFloat, toIso, rawJson)
  }

  /** The storage bucket: an upload with upsert puts the object at its path; call n fails when n is a key of `failing`. */
  class Bucket {
    var objects: set<string>
    var calls: nat
    const failing: map<nat, string>

    constructor (failing: map<nat, string>, initial: set<string>)
      ensures objects == initial && calls == 0 && this.failing == failing
    {
      this.failing := failing;
      objects := initial;
      calls := 0;
    }

    /** storage.from_('ifood-reports').upload(path, file, {'upsert': 'true'}) */
    method Upload(path: string) returns (out: Outcome)
      modifies this
      ensures calls == old(calls) + 1
      ensures out == if old(calls) in failing then Raised(failing[old(calls)]) else Done
      ensures objects == if out.Done? then old(objects) + {path} else old(objects)
    {
      if calls in failing {
        out := Raised(failing[calls]);
      } else {
        objects := objects + {path};
        out := Done;
      }
      calls := calls + 1;
    }
  }

  /** Where a file is stored: under its account, by its original name. */
  function StoragePath(account: string, name: string): (p: string)
    ensures StartsWith(p, account + "/") && p[|account| + 1..] == name
  {
    account + "/" + name
  }

  /**
   * upload_file_to_storage: the storage path on success; on failure the
   * file is marked 'error' and IOError is raised (or the marking's own
   * exception, when it fails).
   */
  method UploadFileToStorage(bucket: Bucket, files: FileTable, account: string, fileId: string, name: string, now: string)
    returns (r: Result<string>)
    modifies bucket, files
    ensures bucket.calls == old(bucket.calls) + 1
    ensures old(bucket.calls) !in bucket.failing <==> r.Ok?
    ensures r.Ok? ==> r.value == StoragePath(account, name) && bucket.objects == old(bucket.objects) + {r.value}
    ensures r.Ok? ==> files.writes == old(files.writes) && files.rows == old(files.rows)
    ensures old(files.rows).Keys <= files.rows.Keys
    ensures r.Err? ==> bucket.objects == old(bucket.objects)
    ensures r.Err? ==>
      var cause := bucket.failing[old(bucket.calls)];
      files.writes == old(files.writes) + [Write(fileId, LegacyReport.StatusFields(LegacyReport.ErrorStatus, Some(UploadStatusPrefix + cause), now), old(files.calls) !in files.failing)]
    ensures r.Err? ==>
      r.msg == if old(files.calls) in files.failing then files.failing[old(files.calls)] else UploadErrorPrefix + bucket.failing[old(bucket.calls)]
  {
    var path := StoragePath(account, name);
    var o := bucket.Upload(path);
    if o.Done? {
      return Ok(path);
    }
    var marked := LegacyReport.UpdateFileStatus(files, fileId, LegacyReport.ErrorStatus, Some(UploadStatusPrefix + o.msg), now);
    if marked.Raised? {
      return Err(marked.msg);
    }
    r := Err(UploadErrorPrefix + o.msg);
  }

  /** The dictionary the orchestrator returns. */
  datatype Reply = Reply(status: string, message: string)

  function SuccessReply(name: string): Reply
  {
    Reply("success", "Arquivo " + name + " processado com sucesso.")
  }

  /** The tracking row created first. */
  function TrackingRow(account: string, name: string): (r: Record)
    ensures "status" in r && r["status"] == Str(ReceivedStatus)
    ensures "account_id" in r && r["account_id"] == Str(account)
  {
    map["account_id" := Str(account), "original_file_name" := Str(name),
        "status" := Str(ReceivedStatus), "source" := Str(Source)]
  }

  /** The inputs of one run from outside the program: the sheet read, the converters, the database's new id, the clock. */
  datatype Inputs = Inputs(raw: Result<Sheet>, toIso: Cell -> Option<string>, rawJson: Record -> string,
                           toDate: Cell -> Option<string>, newId: string, now: seq<string>)

  /** Steps two to five after the tracking row exists: the first exception, if any. */
  method Steps(bucket: Bucket, files: FileTable, t: Table, rpc: LegacyReport.Procedures,
               account: string, name: string, id: string, inp: Inputs)
    returns (out: Outcome)
    requires t.Valid() && t.keyCols == LegacyReport.SalesConflict && |inp.now| >= 4
    requires inp.raw.Ok? ==> WellFormed(inp.raw.value)
    modifies bucket, files, t, rpc
    ensures t.Valid()
    ensures old(files.rows).Keys <= files.rows.Keys
    ensures out.Done? ==> StoragePath(account, name) in bucket.objects
    ensures out.Done? ==>
      files.writes == old(files.writes) + [Write(id, LegacyReport.StatusFields(LegacyReport.ProcessingStatus, None, inp.now[1]), true),
                                           Write(id, LegacyReport.StatusFields(LegacyReport.ProcessedStatus, None, inp.now[2]), true)]
    ensures out.Done? ==> ReadAndClean(inp.raw).Ok?
    ensures Keeps(old(t.rows), t.rows)
  {
    var stored := UploadFileToStorage(bucket, files, account, id, name, inp.now[0]);
    if stored.Err? {
      return Raised(stored.msg);
    }
    out := Process(files, t, rpc, account, id, inp);
  }

  /** Steps three to five: 'processing', read, save, KPIs, 'processed'. */
  method Process(files: FileTable, t: Table, rpc: LegacyReport.Procedures, account: string, id: string, inp: Inputs)
    returns (out: Outcome)
    requires t.Valid() && t.keyCols == LegacyReport.SalesConflict && |inp.now| >= 4
    requires inp.raw.Ok? ==> WellFormed(inp.raw.value)
    modifies files, t, rpc
    ensures t.Valid()
    ensures old(files.rows).Keys <= files.rows.Keys
    ensures out.Done? ==>
      files.writes == old(files.writes) + [Write(id, LegacyReport.StatusFields(LegacyReport.ProcessingStatus, None, inp.now[1]), true),
                                           Write(id, LegacyReport.StatusFields(LegacyReport.ProcessedStatus, None, inp.now[2]), true)]
    ensures out.Done? ==> ReadAndClean(inp.raw).Ok?
    ensures Keeps(old(t.rows), t.rows)
  {
    out := Mark(files, id, LegacyReport.ProcessingStatus, inp.now[1]);
    if out.Raised? {
      return;
    }
    ghost var marked := files.writes;
    out := SaveAndMark(files, t, rpc, account, id, inp);
    assert out.Done? ==> files.writes == old(files.writes) + [marked[|marked| - 1], files.writes[|files.writes| - 1]];
  }

  /** Steps four and five: read and save, then 'processed' when that went through. */
  method SaveAndMark(files: FileTable, t: Table, rpc: LegacyReport.Procedures, account: string, id: string, inp: Inputs)
    returns (out: Outcome)
    requires t.Valid() && t.keyCols == LegacyReport.SalesConflict && |inp.now| >= 4
    requires inp.raw.Ok? ==> WellFormed(inp.raw.value)
    modifies files, t, rpc
    ensures t.Valid()
    ensures files.rows.Keys == old(files.rows).Keys
    ensures out.Done? ==>
      files.writes == old(files.writes) + [Write(id, LegacyReport.StatusFields(LegacyReport.ProcessedStatus, None, inp.now[2]), true)]
    ensures out.Done? ==> ReadAndClean(inp.raw).Ok?
    ensures Keeps(old(t.rows), t.rows)
  {
    out := ReadAndSave(t, rpc, account, id, inp);
    if out.Raised? {
      return;
    }
    out := Mark(files, id, LegacyReport.ProcessedStatus, inp.now[2]);
  }

  /** update_file_status without an error message, as steps three and five use it. */
  method Mark(files: FileTable, id: string, status: string, now: string) returns (out: Outcome)
    modifies files
    ensures out == if old(files.calls) in files.failing then Raised(files.failing[old(files.calls)]) else Done
    ensures files.writes == old(files.writes) + [Write(id, LegacyReport.StatusFields(status, None, now), out.Done?)]
    ensures files.rows.Keys == old(files.rows).Keys
  {
    out := LegacyReport.UpdateFileStatus(files, id, status, None, now);
  }

  /** Steps three and four: the sheet is read and checked, the sales saved and their KPIs recalculated. */
  method ReadAndSave(t: Table, rpc: LegacyReport.Procedures, account: string, id: string, inp: Inputs)
    returns (out: Outcome)
    requires t.Valid() && t.keyCols == LegacyReport.SalesConflict
    requires inp.raw.Ok? ==> WellFormed(inp.raw.value)
    modifies t, rpc
    ensures t.Valid()
    ensures ReadAndClean(inp.raw).Err? ==> out == Raised(ReadAndClean(inp.raw).msg) && t.Value() == old(t.Value())
    ensures Keeps(old(t.rows), t.rows)
  {
    var read := ReadAndClean(inp.raw);
    if read.Err? {
      return Raised(read.msg);
    }
    out := LegacyReport.SaveAndRecalculate(t, rpc, account, id, read.value, Conversions(inp.toIso, inp.rawJson), inp.toDate);
  }

  /**
   * orchestrate_report_processing: the tracking row, the upload, then the
   * older pipeline's steps.  Success answers 'success'; any exception
   * answers 'error' with its text after marking the file 'error', when the
   * tracking row exists.  Only a failure of that last marking escapes, as
   * an Err.
   */
  method OrchestrateReportProcessing(bucket: Bucket, files: FileTable, t: Table, rpc: LegacyReport.Procedures,
                                     account: string, name: string, inp: Inputs)
    returns (r: Result<Reply>)
    requires t.Valid() && t.keyCols == LegacyReport.SalesConflict && |inp.now| >= 4
    requires inp.raw.Ok? ==> WellFormed(inp.raw.value)
    requires inp.newId !in files.rows
    modifies bucket, files, t, rpc
    ensures t.Valid()
    ensures old(files.calls) in files.failing ==>
      r == Ok(Reply("error", FailurePrefix + files.failing[old(files.calls)])) && files.writes == old(files.writes)
    ensures old(files.calls) !in files.failing ==> inp.newId in files.rows
    ensures r.Ok? && r.value.status == "success" ==>
      r.value == SuccessReply(name) && StoragePath(account, name) in bucket.objects && ReadAndClean(inp.raw).Ok? &&
      Statuses(files.writes, inp.newId) == Statuses(old(files.writes), inp.newId) + [Str(LegacyReport.ProcessingStatus), Str(LegacyReport.ProcessedStatus)]
    ensures r.Ok? ==> r.value.status in {"success", "error"} && (r.value.status == "error" ==> StartsWith(r.value.message, FailurePrefix))
    ensures old(files.calls) !in files.failing && inp.newId != "" && !(r.Ok? && r.value.status == "success") ==>
      |files.writes| > 0 && files.writes[|files.writes| - 1].id == inp.newId &&
      Lookup(files.writes[|files.writes| - 1].fields, "status") == Str(LegacyReport.ErrorStatus)
    ensures Keeps(old(t.rows), t.rows)
  {
    var created := files.Insert(TrackingRow(account, name), inp.newId);
    if created.Err? {
      return Ok(Reply("error", FailurePrefix + created.msg));
    }
    var id := created.value;
    var out := Steps(bucket, files, t, rpc, account, name, id, inp);
    if out.Done? {
      ghost var w0 := Write(id, LegacyReport.StatusFields(LegacyReport.ProcessingStatus, None, inp.now[1]), true);
      ghost var w1 := Write(id, LegacyReport.StatusFields(LegacyReport.ProcessedStatus, None, inp.now[2]), true);
      StatusesAppend(old(files.writes), [w0, w1], id);
      LegacyReport.TwoStatuses(w0, w1, id);
      return Ok(SuccessReply(name));
    }
    if id != "" {
      var marked := LegacyReport.UpdateFileStatus(files, id, LegacyReport.ErrorStatus, Some(out.msg), inp.now[3]);
      if marked.Raised? {
        return Err(marked.msg);
      }
    }
    r := Ok(Reply("error", FailurePrefix + out.msg));
  }
}
