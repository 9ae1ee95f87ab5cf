/**
 * The older conciliation script (scripts/process_conciliation.py): the
 * second sheet is read, its 17 known headers are renamed and kept, and each
 * row is stamped with the account, the file, a fresh uuid and its JSON and
 * upserted on entry_id.  The script makes its own client from the
 * environment, logs every step straight into the logs table, and removes
 * the downloaded file whatever happens.
 *
 * The sheet read, the environment, the uuid generator, the JSON encoder and
 * str() of a cell are inputs; the tables, the logger and the disk are
 * objects whose failing calls are fixed when they are made.
 */
module LegacyConciliation {
  import opened Wrappers
  import opened Text
  import opened Cells
  import opened Frames
  import opened Tables
  import opened Files
  import opened JsonValues
  import Conciliation
  import LegacyReport

  /** COLUMNS_MAPPING, in order. */
  const Mapping: seq<(string, string)> := [
    ("Data da Venda", "sale_date"),
    ("ID do Pedido", "order_id"),
    ("Tipo de Lan\U{E7}amento", "transaction_type"),
    ("Descri\U{E7}\U{E3}o do Lan\U{E7}amento", "transaction_description"),
    ("Valor Bruto", "gross_value"),
    ("Valor da Entrega", "delivery_fee"),
    ("Valor da Transa\U{E7}\U{E3}o", "transaction_value"),
    ("Valor da Taxa de Servi\U{E7}o", "service_fee"),
    ("Valor da Taxa de Pagamento", "payment_fee"),
    ("Outros Lan\U{E7}amentos", "other_fees"),
    ("Valor L\U{ED}quido", "net_value"),
    ("ID da Transa\U{E7}\U{E3}o", "transaction_id"),
    ("ID do Lan\U{E7}amento", "entry_id"),
    ("Data do Repasse", "payment_date"),
    ("Status do Pagamento", "payment_status"),
    ("Tipo de Pagamento", "payment_method"),
    ("Bandeira do Cart\U{E3}o", "card_brand")
  ]

  /** This revision renames and selects, and converts no column. */
  const Current := Conciliation.Layout(Mapping, [], [], [])

  const EntryColumn := "entry_id"
  const Source := "process_conciliation"
  const Processing := "processing"
  const CompletedStatus := "completed"
  const Error := "error"
  const Illegible := "[DADO ILEG\U{CD}VEL]"
  const EncodingMessage := "Falha de encoding ao serializar linha. Erro: "
  const EnvMessage := "Vari\U{E1}veis de ambiente SUPABASE_URL e SUPABASE_KEY s\U{E3}o obrigat\U{F3}rias."
  const EmptyDetails := "O arquivo Excel est\U{E1} vazio ou n\U{E3}o cont\U{E9}m dados na segunda aba."
  const FatalPrefix := "Erro fatal no processamento: "
  const StartPrefix := "Iniciando processamento do arquivo de concilia\U{E7}\U{E3}o: "
  const DoneMessage := "Processamento do arquivo conclu\U{ED}do com sucesso."
  const EmptyWarning := "O DataFrame est\U{E1} vazio ap\U{F3}s a leitura. Nenhum dado para salvar."

  // ---------------------------------------------------------------------
  // Reading

  /** df.rename(columns=COLUMNS_MAPPING): headers not listed keep their name. */
  function Renamed(s: Sheet, l: Conciliation.Layout): (r: Sheet)
    requires WellFormed(s)
    ensures WellFormed(r) && r.data == s.data && r.index == s.index
  {
    Sheet(RenameAll(s.columns, Conciliation.Renamer(l)), s.data, s.index)
  }

  /**
   * read_and_clean_data on a sheet read: the KeyError of df[...] when a
   * kept column is absent after renaming, otherwise exactly the kept
   * columns, in mapping order, with every row.
   */
  function Cleaned(s: Sheet, l: Conciliation.Layout): (r: Result<Sheet>)
    requires WellFormed(s)
    ensures r.Ok? <==> forall c | c in Conciliation.Finals(l) :: c in Renamed(s, l).columns
    ensures r.Ok? ==> WellFormed(r.value) && r.value.columns == Conciliation.Finals(l) && r.value.index == s.index
    ensures r.Err? ==> r.msg == Conciliation.NotInIndex(LegacyReport.Missing(Conciliation.Finals(l), Renamed(s, l).columns))
  {
    var p := Renamed(s, l);
    var missing := LegacyReport.Missing(Conciliation.Finals(l), p.columns);
    if missing != [] then
      assert missing[0] in Conciliation.Finals(l) && missing[0] !in p.columns;
      Err(Conciliation.NotInIndex(missing))
    else
      Ok(SelectColumns(p, Conciliation.Finals(l)))
  }

  /** Each kept column holds the cells of the first sheet column renamed to it. */
  lemma CleanedColumnSource(s: Sheet, l: Conciliation.Layout, c: string) returns (j: nat)
    requires WellFormed(s) && Cleaned(s, l).Ok? && c in Conciliation.Finals(l)
    ensures j < |s.columns| && Conciliation.Renamer(l)(s.columns[j]) == c
    ensures forall i | 0 <= i < j :: Conciliation.Renamer(l)(s.columns[i]) != c
    ensures Column(Cleaned(s, l).value, c) == s.data[j]
  {
    var p := Renamed(s, l);
    j := ColumnIndex(p.columns, c);
    var k := ColumnIndex(Conciliation.Finals(l), c);
    IndexOfFirst(Cleaned(s, l).value.columns, c, k);
    forall i | 0 <= i < j ensures Conciliation.Renamer(l)(s.columns[i]) != c {
      assert p.columns[..j][i] == p.columns[i];
    }
  }

  /** The sheet read, or what reading it raised. */
  function ReadResult(raw: Result<Sheet>, l: Conciliation.Layout): Result<Sheet>
    requires raw.Ok? ==> WellFormed(raw.value)
  {
    if raw.Err? then Err(raw.msg) else Cleaned(raw.value, l)
  }

  /** read_and_clean_data: read, rename in place, then keep the mapped columns. */
  method ReadAndCleanData(raw: Result<Sheet>, l: Conciliation.Layout) returns (r: Result<Frame>)
    requires raw.Ok? ==> WellFormed(raw.value)
    ensures r.Ok? == ReadResult(raw, l).Ok?
    ensures r.Err? ==> r.msg == ReadResult(raw, l).msg
    ensures r.Ok? ==> fresh(r.value) && r.value.Valid() && r.value.Value() == ReadResult(raw, l).value
  {
    if raw.Err? {
      return Err(raw.msg);
    }
    var df := new Frame(raw.value);
    df.SetColumnNames(RenameAll(df.columns, Conciliation.Renamer(l)));
    var missing := LegacyReport.Missing(Conciliation.Finals(l), df.columns);
    if missing != [] {
      return Err(Conciliation.NotInIndex(missing));
    }
    df.Assign(SelectColumns(df.Value(), Conciliation.Finals(l)));
    return Ok(df);
  }

  // ---------------------------------------------------------------------
  // Serialising a row

  /**
   * The serialisers a row goes through: to_json, which may raise; str() of
   * a value followed by the UTF-8 'ignore' round trip, which may raise too;
   * and json.dumps.
   */
  datatype Serializer = Serializer(toJson: Record -> Result<string>, text: Cell -> Result<string>, dumps: Json -> string)

  /** One field of the fallback: its cleaned text, or the unreadable marker. */
  function FieldText(v: Cell, ser: Serializer): (r: string)
    ensures ser.text(v).Err? ==> r == Illegible
    ensures ser.text(v).Ok? ==> r == ser.text(v).value
  {
    match ser.text(v)
    case Ok(t) => t
    case Err(_) => Illegible
  }

  /** The object dumped when to_json raises: the error and every field, readable or marked. */
  function Fallback(row: Record, error: string, ser: Serializer): (j: Json)
    ensures j.JObj? && j.fields.Keys == {Conciliation.FallbackError, Conciliation.FallbackData}
    ensures j.fields[Conciliation.FallbackError] == JStr(EncodingMessage + error)
    ensures var d := j.fields[Conciliation.FallbackData];
      d.JObj? && d.fields.Keys == row.Keys && forall k | k in row :: d.fields[k] == JStr(FieldText(row[k], ser))
  {
    JObj(map[Conciliation.FallbackError := JStr(EncodingMessage + error),
             Conciliation.FallbackData := JObj(map k | k in row :: JStr(FieldText(row[k], ser)))])
  }

  /** safe_to_json: the row's JSON, or the dumped fallback when to_json raises. */
  function SafeToJson(row: Record, ser: Serializer): string
  {
    match ser.toJson(row)
    case Ok(text) => text
    case Err(e) => ser.dumps(Fallback(row, e, ser))
  }

  /** safe_to_json as the function applied to each row. */
  function RowJson(ser: Serializer): Record -> string
  {
    row => SafeToJson(row, ser)
  }

  // ---------------------------------------------------------------------
  // Saving

  /** save_data_in_batches: the shared save loop, with this safe_to_json, on entry_id. */
  method SaveDataInBatches(t: Table, df: Frame, account: string, fileId: string, uuid: nat -> string, ser: Serializer)
    returns (out: Outcome)
    requires t.Valid() && t.keyCols == [EntryColumn] && df.Valid()
    modifies t, df
    ensures t.Valid() && df.Valid()
    ensures df.Value() == Conciliation.Stamped(old(df.Value()), account, fileId, uuid, RowJson(ser))
    ensures (t.Value(), t.calls, out) == RunBatches(old(t.Value()), old(t.calls), t.failing, [EntryColumn], Merge, Records(df.Value()), Conciliation.BatchSize)
  {
    out := Conciliation.StampAndUpsert(t, df, account, fileId, uuid, RowJson(ser), EntryColumn);
  }

  /**
   * Nothing removes repeated entry ids before the save: two records of the
   * first batch with the same entry_id make its merging upsert fail with
   * PostgreSQL's duplicate-key error, and nothing is written.
   */
  lemma RepeatedEntryAborts(c: Contents, n: nat, failing: map<nat, string>, rs: seq<Record>, i: nat, j: nat)
    requires i < j < Min(Conciliation.BatchSize, |rs|) && n !in failing
    requires Lookup(rs[i], EntryColumn) == Lookup(rs[j], EntryColumn)
    ensures RunBatches(c, n, failing, [EntryColumn], Merge, rs, Conciliation.BatchSize) == (c, n + 1, Raised(TwiceMessage))
  {
    var batch := rs[..Min(Conciliation.BatchSize, |rs|)];
    assert batch[i] == rs[i] && batch[j] == rs[j];
    assert KeyOf(batch[i], [EntryColumn]) == KeyOf(batch[j], [EntryColumn]);
    assert !DistinctKeys(batch, [EntryColumn]);
  }

  /** The entry_id of each stamped record is the sheet's, when entry_id is one column of the sheet. */
  lemma StampedEntry(s: Sheet, account: string, fileId: string, uuid: nat -> string, ser: Serializer, k: nat)
    requires WellFormed(s) && Conciliation.Once(s.columns, EntryColumn) && k < |s.index|
    ensures var rs := Records(Conciliation.Stamped(s, account, fileId, uuid, RowJson(ser)));
      k < |rs| && Lookup(rs[k], EntryColumn) == Column(s, EntryColumn)[k]
  {
    var st := Conciliation.Stamped(s, account, fileId, uuid, RowJson(ser));
    Conciliation.StampedKeepsColumn(s, account, fileId, uuid, RowJson(ser), EntryColumn);
    Conciliation.RowOnce(st, EntryColumn, k);
  }

  /** A sheet repeating an entry_id within its first 100 rows is not saved at all, unless the call itself fails first. */
  lemma RepeatedEntryInSheetAborts(s: Sheet, account: string, fileId: string, uuid: nat -> string, ser: Serializer,
                                   c: Contents, n: nat, failing: map<nat, string>, i: nat, j: nat)
    requires WellFormed(s) && Conciliation.Once(s.columns, EntryColumn) && n !in failing
    requires i < j < Min(Conciliation.BatchSize, |s.index|) && Column(s, EntryColumn)[i] == Column(s, EntryColumn)[j]
    ensures RunBatches(c, n, failing, [EntryColumn], Merge, Records(Conciliation.Stamped(s, account, fileId, uuid, RowJson(ser))),
                       Conciliation.BatchSize) == (c, n + 1, Raised(TwiceMessage))
  {
    var rs := Records(Conciliation.Stamped(s, account, fileId, uuid, RowJson(ser)));
    StampedEntry(s, account, fileId, uuid, ser, i);
    StampedEntry(s, account, fileId, uuid, ser, j);
    RepeatedEntryAborts(c, n, failing, rs, i, j);
  }

  // ---------------------------------------------------------------------
  // The logger

  /** One row of the logs table. */
  datatype LogRow = LogRow(level: string, message: string, fileId: Option<string>, accountId: Option<string>,
                           context: map<string, Json>, source: string)

  /** context or {} */
  function ContextOr(context: Option<map<string, Json>>): (r: map<string, Json>)
    ensures context.None? ==> r == map[]
    ensures context.Some? ==> r == context.value
  {
    if context.Some? then context.value else map[]
  }

  /**
   * SupabaseLogger: each log call inserts one row into the logs table at
   * once; an insert that raises is reported on stderr and otherwise lost.
   */
  class Logger {
    var fileId: Option<string>
    var accountId: Option<string>
    /** What the logs table holds. */
    var rows: seq<LogRow>
    var calls: nat
    /** The insert calls that raise. */
    const failing: set<nat>

    /** Every row stored came from one call. */
    ghost predicate Valid()
      reads this
    {
      |rows| <= calls
    }

    constructor (failing: set<nat>)
      ensures Valid() && fileId == None && accountId == None && rows == [] && calls == 0 && this.failing == failing
    {
      this.failing := failing;
      fileId, accountId := None, None;
      rows := [];
      calls := 0;
    }

    /** set_context */
    method SetContext(file: string, account: string)
      modifies this
      ensures fileId == Some(file) && accountId == Some(account)
      ensures rows == old(rows) && calls == old(calls)
    {
      fileId, accountId := Some(file), Some(account);
    }

    /** log: one insert of the row; a failure is swallowed. */
    method Log(level: string, message: string, context: Option<map<string, Json>>)
      requires Valid()
      modifies this
      ensures Valid() && calls == old(calls) + 1 && fileId == old(fileId) && accountId == old(accountId)
      ensures rows == old(rows) +
        if old(calls) in failing then [] else [LogRow(Upper(level), message, fileId, accountId, ContextOr(context), Source)]
    {
      if calls !in failing {
        rows := rows + [LogRow(Upper(level), message, fileId, accountId, ContextOr(context), Source)];
      }
      calls := calls + 1;
    }
  }

  // ---------------------------------------------------------------------
  // Client, file status, temporary file

  /** The environment and whether create_client succeeds with it. */
  datatype Environment = Environment(url: Option<string>, key: Option<string>, connect: Outcome)

  /** A value os.environ.get returns that is truthy. */
  predicate Present(v: Option<string>)
  {
    v.Some? && v.value != ""
  }

  /** init_supabase_client: a missing or empty variable raises ValueError before connecting. */
  function InitClient(env: Environment): (r: Outcome)
    ensures r.Done? <==> Present(env.url) && Present(env.key) && env.connect.Done?
    ensures !(Present(env.url) && Present(env.key)) ==> r == Raised(EnvMessage)
  {
    if !Present(env.url) || !Present(env.key) then Raised(EnvMessage) else env.connect
  }

  /** The fields update_file_status sends: the status, and the details when they are non-empty. */
  function StatusFields(status: string, details: Option<string>): (r: Record)
    ensures "status" in r && r["status"] == Str(status)
    ensures "details" in r <==> details.Some? && details.value != ""
    ensures "details" in r ==> r["details"] == Str(details.value)
    ensures r.Keys <= {"status", "details"}
  {
    if details.Some? && details.value != "" then map["status" := Str(status), "details" := Str(details.value)]
    else map["status" := Str(status)]
  }

  /** The line update_file_status logs after the update, or after its failure. */
  function StatusLine(id: string, status: string, out: Outcome): (string, string)
  {
    if out.Done? then ("info", "Status do arquivo " + id + " atualizado para '" + status + "'.")
    else ("error", "Falha ao atualizar status do arquivo " + id + ": " + out.msg)
  }

  /** update_file_status: one update of the file's row, then one log line; nothing is raised. */
  method UpdateFileStatus(logger: Logger, files: FileTable, id: string, status: string, details: Option<string>)
    requires logger.Valid()
    modifies logger, files
    ensures logger.Valid() && logger.calls == old(logger.calls) + 1
    ensures logger.fileId == old(logger.fileId) && logger.accountId == old(logger.accountId)
    ensures files.calls == old(files.calls) + 1
    ensures files.writes == old(files.writes) + [Write(id, StatusFields(status, details), old(files.calls) !in files.failing)]
    ensures files.rows == if old(files.calls) in files.failing || id !in old(files.rows) then old(files.rows)
      else old(files.rows)[id := old(files.rows)[id] + StatusFields(status, details)]
    ensures var line := StatusLine(id, status, if old(files.calls) in files.failing then Raised(files.failing[old(files.calls)]) else Done);
      logger.rows == old(logger.rows) + if old(logger.calls) in logger.failing then []
        else [LogRow(Upper(line.0), line.1, logger.fileId, logger.accountId, map[], Source)]
  {
    var out := files.Update(id, StatusFields(status, details));
    var line := StatusLine(id, status, out);
    logger.Log(line.0, line.1, None);
  }

  /** The files on disk; removing one of `stuck` raises OSError with its text. */
  class Disk {
    var files: set<string>
    const stuck: map<string, string>

    constructor (files: set<string>, stuck: map<string, string>)
      ensures this.files == files && this.stuck == stuck
    {
      this.files := files;
      this.stuck := stuck;
    }

    /** os.remove */
    method Remove(path: string) returns (out: Outcome)
      requires path in files
      modifies this
      ensures out == if path in stuck then Raised(stuck[path]) else Done
      ensures files == if path in stuck then old(files) else old(files) - {path}
    {
      if path in stuck {
        out := Raised(stuck[path]);
      } else {
        files := files - {path};
        out := Done;
      }
    }
  }

  /** The finally block: the file is removed when it exists, and the result logged when there is a logger. */
  method Cleanup(disk: Disk, logger: Logger, path: string, withLogger: bool)
    requires logger.Valid()
    modifies disk, logger
    ensures logger.Valid()
    ensures disk.files == if path in old(disk.files) && path !in disk.stuck then old(disk.files) - {path} else old(disk.files)
    ensures !withLogger ==> logger.rows == old(logger.rows) && logger.calls == old(logger.calls)
    ensures withLogger ==> logger.calls == old(logger.calls) + (if path in old(disk.files) then 1 else 0)
  {
    if path in disk.files {
      var out := disk.Remove(path);
      if withLogger {
        if out.Done? {
          logger.Log("info", "Arquivo tempor\U{E1}rio " + path + " removido.", None);
        } else {
          logger.Log("error", "Falha ao remover arquivo tempor\U{E1}rio " + path + ": " + out.msg, None);
        }
      }
    }
  }

  // ---------------------------------------------------------------------
  // The run

  /** How process_conciliation_file ends; it never raises.  `marked` says whether an error status could be written. */
  datatype Ending = Completed | NoRows | Failed(cause: string, marked: bool)

  /** The status written last. */
  function FinalStatus(e: Ending): string
  {
    if e.Completed? then CompletedStatus else Error
  }

  /** The details written with the last status: none on success, the fixed text for no rows, the error and trace otherwise. */
  function FinalDetails(e: Ending, trace: string): Option<string>
  {
    match e
    case Completed => None
    case NoRows => Some(EmptyDetails)
    case Failed(cause, _) => Some(FatalPrefix + cause + "\n\nTraceback:\n" + trace)
  }

  /**
   * What the try block comes to once the client exists: an error reading
   * aborts with its text and writes nothing; no rows ends without a save;
   * otherwise the stamped records are upserted on entry_id, and a save that
   * ends normally leaves the table as upserting all of them would.
   */
  ghost predicate SavedFrom(c: Contents, n: nat, failing: map<nat, string>, read: Result<Sheet>,
                            account: string, fileId: string, uuid: nat -> string, ser: Serializer,
                            ending: Ending, after: Contents)
  {
    match read
    case Err(msg) => ending == Failed(msg, true) && after == c
    case Ok(s) =>
      WellFormed(s) &&
      if |s.index| == 0 then ending == NoRows && after == c
      else
        var rs := Records(Conciliation.Stamped(s, account, fileId, uuid, RowJson(ser)));
        var r := RunBatches(c, n, failing, [EntryColumn], Merge, rs, Conciliation.BatchSize);
        after == r.0 && (r.2.Done? ==> ending == Completed && after == UpsertAll(c, [EntryColumn], Merge, rs)) &&
        (r.2.Raised? ==> ending == Failed(r.2.msg, true))
  }

  /** Read, then save when there are rows. */
  method ReadAndSave(t: Table, l: Conciliation.Layout, account: string, fileId: string, raw: Result<Sheet>,
                     uuid: nat -> string, ser: Serializer)
    returns (ending: Ending)
    requires t.Valid() && t.keyCols == [EntryColumn]
    requires raw.Ok? ==> WellFormed(raw.value)
    modifies t
    ensures t.Valid()
    ensures SavedFrom(old(t.Value()), old(t.calls), t.failing, ReadResult(raw, l), account, fileId, uuid, ser, ending, t.Value())
  {
    var read := ReadAndCleanData(raw, l);
    if read.Err? {
      return Failed(read.msg, true);
    }
    var df := read.value;
    if |df.index| == 0 {
      return NoRows;
    }
    var out := SaveDataInBatches(t, df, account, fileId, uuid, ser);
    ending := if out.Done? then Completed else Failed(out.msg, true);
    RunBatchesDone(old(t.Value()), old(t.calls), t.failing, [EntryColumn], Merge, Records(df.Value()), Conciliation.BatchSize);
  }

  /** The last status, with the log line written before or after it. */
  method Finish(logger: Logger, files: FileTable, fileId: string, ending: Ending, trace: string)
    requires logger.Valid()
    modifies logger, files
    ensures logger.Valid()
    ensures files.writes == old(files.writes) +
      [Write(fileId, StatusFields(FinalStatus(ending), FinalDetails(ending, trace)), old(files.calls) !in files.failing)]
  {
    match ending
    case Completed =>
      UpdateFileStatus(logger, files, fileId, CompletedStatus, None);
      logger.Log("info", DoneMessage, None);
    case NoRows =>
      UpdateFileStatus(logger, files, fileId, Error, Some(EmptyDetails));
      logger.Log("warning", EmptyWarning, None);
    case Failed(cause, _) =>
      logger.Log("critical", FatalPrefix + cause, Some(map["traceback" := JStr(trace)]));
      UpdateFileStatus(logger, files, fileId, Error, FinalDetails(ending, trace));
  }

  /**
   * process_conciliation_file: the client is made from the environment;
   * then 'processing', read, save and 'completed', or 'error' with the
   * fixed text when there are no rows, or 'error' with the error and trace
   * when anything raised, which needs the client and the logger to exist.
   * The downloaded file is removed in every case.
   */
  method ProcessConciliationFile(env: Environment, files: FileTable, t: Table, logger: Logger, disk: Disk,
                                 l: Conciliation.Layout, path: string, fileId: string, account: string,
                                 raw: Result<Sheet>, uuid: nat -> string, ser: Serializer, trace: string)
    returns (ending: Ending)
    requires t.Valid() && t.keyCols == [EntryColumn] && logger.Valid()
    requires raw.Ok? ==> WellFormed(raw.value)
    modifies files, t, logger, disk
    ensures t.Valid() && logger.Valid()
    ensures InitClient(env).Raised? ==>
      ending == Failed(InitClient(env).msg, false) && files.writes == old(files.writes) &&
      t.Value() == old(t.Value()) && logger.rows == old(logger.rows)
    ensures InitClient(env).Done? ==>
      Statuses(files.writes, fileId) == Statuses(old(files.writes), fileId) + [Str(Processing), Str(FinalStatus(ending))] &&
      files.writes[|files.writes| - 1].fields == StatusFields(FinalStatus(ending), FinalDetails(ending, trace)) &&
      SavedFrom(old(t.Value()), old(t.calls), t.failing, ReadResult(raw, l), account, fileId, uuid, ser, ending, t.Value())
    ensures disk.files == if path in old(disk.files) && path !in disk.stuck then old(disk.files) - {path} else old(disk.files)
  {
    var init := InitClient(env);
    if init.Raised? {
      ending := Failed(init.msg, false);
    } else {
      ending := Run(files, t, logger, l, path, fileId, account, raw, uuid, ser, trace);
    }
    Cleanup(disk, logger, path, init.Done?);
  }

  /** Read and save, then the last status with its log line. */
  method SaveAndFinish(files: FileTable, t: Table, logger: Logger, l: Conciliation.Layout, fileId: string,
                       account: string, raw: Result<Sheet>, uuid: nat -> string, ser: Serializer, trace: string)
    returns (ending: Ending)
    requires t.Valid() && t.keyCols == [EntryColumn] && logger.Valid()
    requires raw.Ok? ==> WellFormed(raw.value)
    modifies files, t, logger
    ensures t.Valid() && logger.Valid()
    ensures files.writes == old(files.writes) +
      [Write(fileId, StatusFields(FinalStatus(ending), FinalDetails(ending, trace)), old(files.calls) !in files.failing)]
    ensures SavedFrom(old(t.Value()), old(t.calls), t.failing, ReadResult(raw, l), account, fileId, uuid, ser, ending, t.Value())
  {
    ending := ReadAndSave(t, l, account, fileId, raw, uuid, ser);
    Finish(logger, files, fileId, ending, trace);
  }

  /** The try block once the client and the logger exist. */
  method Run(files: FileTable, t: Table, logger: Logger, l: Conciliation.Layout, path: string, fileId: string,
             account: string, raw: Result<Sheet>, uuid: nat -> string, ser: Serializer, trace: string)
    returns (ending: Ending)
    requires t.Valid() && t.keyCols == [EntryColumn] && logger.Valid()
    requires raw.Ok? ==> WellFormed(raw.value)
    modifies files, t, logger
    ensures t.Valid() && logger.Valid()
    ensures Statuses(files.writes, fileId) == Statuses(old(files.writes), fileId) + [Str(Processing), Str(FinalStatus(ending))]
    ensures files.writes[|files.writes| - 1].fields == StatusFields(FinalStatus(ending), FinalDetails(ending, trace))
    ensures SavedFrom(old(t.Value()), old(t.calls), t.failing, ReadResult(raw, l), account, fileId, uuid, ser, ending, t.Value())
  {
    logger.SetContext(fileId, account);
    logger.Log("info", StartPrefix + path, None);
    UpdateFileStatus(logger, files, fileId, Processing, None);
    ghost var w0 := files.writes[|files.writes| - 1];
    ending := SaveAndFinish(files, t, logger, l, fileId, account, raw, uuid, ser, trace);
    ghost var w1 := files.writes[|files.writes| - 1];
    assert files.writes == old(files.writes) + [w0, w1];
    StatusesAppend(old(files.writes), [w0, w1], fileId);
    LegacyReport.TwoStatuses(w0, w1, fileId);
  }
}
