/**
 * save_sales_data of the current financial-report pipeline.  The cleaned
 * sheet is stamped with the account and the file, every row gets its upsert
 * key, dates become ISO text and missing values None; rows sharing a key
 * keep the last one; the rows already stored with the same values (found by
 * order id, read page by page) are skipped, and the rest are upserted on the
 * key in batches.
 */
module ReportSave {
  import opened Wrappers
  import opened Text
  import opened Numbers
  import opened Cells
  import opened Seqs
  import opened Frames
  import opened Tables
  import opened ReportLog
  import opened ReportKeys
  import ReportReader

  const UpsertKeyColumn := "upsert_key"
  const AccountColumn := "account_id"
  /** Rows per page when reading, and per upsert call when writing. */
  const BatchSize := 500

  /** The columns the sales_data table receives, the upsert key aside, in the order they are sent. */
  const SentColumns: seq<string> := [
    "account_id", "received_file_id", "loja_id", "nome_da_loja", "tipo_de_faturamento",
    "canal_de_vendas", "numero_pedido", "pedido_id_completo", "data_do_pedido_ocorrencia",
    "data_de_conclusao", "data_de_repasse", "origem_de_forma_de_pagamento", "formas_de_pagamento",
    "total_do_pedido", "valor_dos_itens", "taxa_de_entrega", "taxa_de_servico",
    "promocao_custeada_pelo_ifood", "promocao_custeada_pela_loja", "percentual_comissao_ifood",
    "valor_comissao_ifood", "percentual_pela_transacao_do_pagamento", "comissao_pela_transacao_do_pagamento",
    "percentual_taxa_plano_repasse_1_semana", "valor_taxa_plano_repasse_1_semana", "base_de_calculo",
    "valor_bruto", "solicitacao_servicos_entrega_ifood", "desconto_solicitacao_entrega_ifood",
    "valor_liquido", "valor_ocorrencia"]

  /** final_db_columns: the sent columns, then the upsert key. */
  const FinalColumns: seq<string> := SentColumns + [UpsertKeyColumn]

  const PreparePrefix := "Iniciando prepara\U{E7}\U{E3}o de "
  const PrepareSuffix := " registros para o banco de dados."
  const KeyMessage := "Gerando 'upsert_key' robusta para cada registro."
  const DuplicatePrefix := "Aten\U{E7}\U{E3}o: "
  const DuplicateSuffix := " linhas com 'upsert_key' duplicado foram encontradas AP\U{D3}S a gera\U{E7}\U{E3}o da chave robusta."
  const NothingMessage := "Nenhum registro v\U{E1}lido para inserir."
  const FetchMessage := "Buscando pedido_id_completo j\U{E1} existentes no banco..."
  const ChangedSuffix := " registros realmente novos ou alterados ser\U{E3}o enviados ao Supabase."
  /** str(KeyError('pedido_id_completo')) */
  const KeyErrorMessage := "'pedido_id_completo'"

  // ---------------------------------------------------------------------
  // Preparing the sheet

  /** A column holding the same value in every row. */
  function Constant(n: nat, v: Cell): (col: seq<Cell>)
    ensures |col| == n && forall i | 0 <= i < n :: col[i] == v
  {
    seq(n, i => v)
  }

  /** The frame with the account and the received file set on every row. */
  function Stamped(s: Sheet, account: string, fileId: string): (r: Sheet)
    requires WellFormed(s)
    ensures WellFormed(r) && r.index == s.index
  {
    var s1 := WithColumn(s, AccountColumn, Constant(|s.index|, Str(account)));
    WithColumn(s1, FileIdColumn, Constant(|s.index|, Str(fileId)))
  }

  /** The upsert key of each row, under its row label. */
  function KeyCells(s: Sheet, md5: string -> string, uuids: seq<string>): (col: seq<Cell>)
    requires WellFormed(s) && |uuids| == |s.index|
    ensures |col| == |s.index|
  {
    var ks := Keys(Records(s), s.index, md5, uuids);
    seq(|ks|, i requires 0 <= i < |ks| => Str(ks[i]))
  }

  function Keyed(s: Sheet, md5: string -> string, uuids: seq<string>): (r: Sheet)
    requires WellFormed(s) && |uuids| == |s.index|
    ensures WellFormed(r) && r.index == s.index && UpsertKeyColumn in r.columns
  {
    WithColumn(s, UpsertKeyColumn, KeyCells(s, md5, uuids))
  }

  /** x.isoformat() if pd.notnull(x) else None */
  function IsoCell(c: Cell): (r: Cell)
    ensures IsMissing(c) ==> r == Null
  {
    match c
    case Time(t) => Str(t.iso)
    case _ => if IsMissing(c) then Null else c
  }

  /** The date columns that are present, each passed through IsoCell, in turn. */
  function IsoDates(s: Sheet, cols: seq<string>): (r: Sheet)
    requires WellFormed(s)
    ensures WellFormed(r) && r.columns == s.columns && r.index == s.index
    decreases |cols|
  {
    if cols == [] then s
    else
      var p := IsoDates(s, cols[..|cols| - 1]);
      var c := cols[|cols| - 1];
      if c in p.columns then WithColumn(p, c, MapCells(Column(p, c), IsoCell)) else p
  }

  /** The caller's frame once the saving step has changed it. */
  function Prepared(s: Sheet, account: string, fileId: string, md5: string -> string, uuids: seq<string>): (r: Sheet)
    requires WellFormed(s) && |uuids| == |s.index|
    ensures WellFormed(r) && r.index == s.index && UpsertKeyColumn in r.columns
  {
    var k := Keyed(Stamped(s, account, fileId), md5, uuids);
    IsoDates(k, ReportReader.DateColumns)
  }

  /** The value at i occurs at another position too (duplicated(keep=False)). */
  predicate Repeated(keys: seq<Cell>, i: nat)
    requires i < |keys|
  {
    exists j | 0 <= j < |keys| :: j != i && keys[j] == keys[i]
  }

  /** How many of the first n positions hold a repeated value. */
  function DuplicateCount(keys: seq<Cell>, n: nat): nat
    requires n <= |keys|
    decreases n
  {
    if n == 0 then 0 else DuplicateCount(keys, n - 1) + (if Repeated(keys, n - 1) then 1 else 0)
  }

  // ---------------------------------------------------------------------
  // The records sent

  /** One value with NaN and NaT made None. */
  function NoneForMissing(c: Cell): (r: Cell)
    ensures !r.NaN? && !r.NaT?
    ensures !IsMissing(c) ==> r == c
  {
    if c.NaN? || c.NaT? then Null else c
  }

  function ForInsert(s: Sheet): (r: Sheet)
    requires WellFormed(s)
    ensures WellFormed(r) && r.columns == s.columns && r.index == s.index
    ensures forall c | c in s.columns :: Column(r, c) == MapCells(Column(s, c), NoneForMissing)
  {
    Sheet(s.columns, seq(|s.data|, j requires 0 <= j < |s.data| => MapCells(s.data[j], NoneForMissing)), s.index)
  }

  /** The value at position i occurs nowhere after it. */
  predicate LastAt(keys: seq<Cell>, i: nat)
    requires i < |keys|
  {
    keys[i] !in keys[i + 1..]
  }

  /**
   * The positions below n that drop_duplicates(keep='last') keeps: those
   * whose value occurs nowhere later, in increasing order.
   */
  function LastOnes(keys: seq<Cell>, n: nat): (ps: seq<nat>)
    requires n <= |keys|
    ensures forall k | 0 <= k < |ps| :: ps[k] < n && LastAt(keys, ps[k])
    ensures forall i | 0 <= i < n && LastAt(keys, i) :: i in ps
    ensures forall a, b | 0 <= a < b < |ps| :: ps[a] < ps[b]
    decreases n
  {
    if n == 0 then []
    else
      var prev := LastOnes(keys, n - 1);
      var last: seq<nat> := if LastAt(keys, n - 1) then [n - 1] else [];
      LastOnesStep(keys, n, prev, last);
      prev + last
  }

  /** One step of LastOnes: position n - 1 is added exactly when its value occurs nowhere later. */
  lemma LastOnesStep(keys: seq<Cell>, n: nat, prev: seq<nat>, last: seq<nat>)
    requires 0 < n <= |keys|
    requires forall k | 0 <= k < |prev| :: prev[k] < n - 1 && LastAt(keys, prev[k])
    requires forall i | 0 <= i < n - 1 && LastAt(keys, i) :: i in prev
    requires forall a, b | 0 <= a < b < |prev| :: prev[a] < prev[b]
    requires last == if LastAt(keys, n - 1) then [n - 1] else []
    ensures var ps := prev + last;
      && (forall k | 0 <= k < |ps| :: ps[k] < n && LastAt(keys, ps[k]))
      && (forall i | 0 <= i < n && LastAt(keys, i) :: i in ps)
      && (forall a, b | 0 <= a < b < |ps| :: ps[a] < ps[b])
  {
    var ps := prev + last;
    forall k | 0 <= k < |ps|
      ensures ps[k] < n && LastAt(keys, ps[k])
    {
      if k < |prev| { assert ps[k] == prev[k]; } else { assert ps[k] == n - 1; }
    }
    forall i | 0 <= i < n && LastAt(keys, i)
      ensures i in ps
    {
      if i < n - 1 { assert i in prev; } else { assert ps[|ps| - 1] == i; }
    }
    forall a, b | 0 <= a < b < |ps|
      ensures ps[a] < ps[b]
    {
      assert ps[a] == prev[a];
      if b >= |prev| { assert ps[b] == n - 1; } else { assert ps[b] == prev[b]; }
    }
  }

  /** df.drop_duplicates(subset=['upsert_key'], keep='last') */
  function Deduped(s: Sheet): (r: Sheet)
    requires WellFormed(s) && UpsertKeyColumn in s.columns
    ensures WellFormed(r) && r.columns == s.columns
  {
    TakeRows(s, LastOnes(Column(s, UpsertKeyColumn), |s.index|))
  }

  /** [c for c in names if c in present] */
  function Keep(names: seq<string>, present: seq<string>): (r: seq<string>)
    ensures forall c :: c in r <==> c in names && c in present
    decreases |names|
  {
    if names == [] then []
    else
      var n := |names| - 1;
      Keep(names[..n], present) + (if names[n] in present then [names[n]] else [])
  }

  /** cols_to_send */
  function ColsToSend(present: seq<string>): (r: seq<string>)
    ensures forall c :: c in r <==> c in FinalColumns && c in present
  {
    Keep(FinalColumns, present)
  }

  /** [c for c in cols if c not in ['upsert_key']] */
  function Relevant(cols: seq<string>): (r: seq<string>)
    ensures forall c :: c in r <==> c in cols && c != UpsertKeyColumn
    decreases |cols|
  {
    if cols == [] then []
    else
      var n := |cols| - 1;
      Relevant(cols[..n]) + (if cols[n] != UpsertKeyColumn then [cols[n]] else [])
  }

  /** The records built from a prepared frame: missing values as None, one row per key, the sent columns. */
  function Outgoing(s: Sheet): (rs: seq<Record>)
    requires WellFormed(s) && UpsertKeyColumn in s.columns
  {
    var d := Deduped(ForInsert(s));
    Records(SelectColumns(d, ColsToSend(d.columns)))
  }

  // ---------------------------------------------------------------------
  // Reading what is stored

  /** row['pedido_id_completo'] of a stored row. */
  function OrderId(r: Record): Cell
  {
    Lookup(r, OrderIdColumn)
  }

  /** existing_rows[row['pedido_id_completo']] = row for each row, in order. */
  function IndexInto(acc: map<Cell, Record>, rs: seq<Record>): (m: map<Cell, Record>)
    decreases |rs|
  {
    if rs == [] then acc
    else IndexInto(acc, rs[..|rs| - 1])[OrderId(rs[|rs| - 1]) := rs[|rs| - 1]]
  }

  /**
   * The paged read starting at `offset` with call number n: a failing call
   * raises; an empty or short page ends the loop.  Gives the rows indexed by
   * order id, or the error, and the next call number.
   */
  function Fetch(scan: seq<Record>, n: nat, failing: map<nat, string>, offset: nat, acc: map<Cell, Record>)
    : (Result<map<Cell, Record>>, nat)
    requires offset <= |scan|
    decreases |scan| - offset
  {
    if n in failing then (Err(failing[n]), n + 1)
    else
      var page := scan[offset..Min(offset + BatchSize, |scan|)];
      if page == [] then (Ok(acc), n + 1)
      else if |page| < BatchSize then (Ok(IndexInto(acc, page)), n + 1)
      else Fetch(scan, n + 1, failing, offset + BatchSize, IndexInto(acc, page))
  }

  // ---------------------------------------------------------------------
  // Choosing what to send

  /** is_identical: no relevant column differs (Python's !=). */
  predicate Identical(incoming: Record, stored: Record, relevant: seq<string>)
  {
    forall c | c in relevant :: PyEq(Lookup(incoming, c), Lookup(stored, c))
  }

  /** A record is sent when its order id is not stored, or the stored row differs. */
  predicate Changed(r: Record, existing: map<Cell, Record>, relevant: seq<string>)
    requires OrderIdColumn in r
  {
    r[OrderIdColumn] !in existing || !Identical(r, existing[r[OrderIdColumn]], relevant)
  }

  /** The filter loop: a record with no order id column raises KeyError. */
  function Selected(rs: seq<Record>, existing: map<Cell, Record>, relevant: seq<string>): Result<seq<Record>>
    decreases |rs|
  {
    if rs == [] then Ok([])
    else
      var r := rs[|rs| - 1];
      match Selected(rs[..|rs| - 1], existing, relevant)
      case Err(m) => Err(m)
      case Ok(t) =>
        if OrderIdColumn !in r then Err(KeyErrorMessage)
        else Ok(t + (if Changed(r, existing, relevant) then [r] else []))
  }

  // ---------------------------------------------------------------------
  // The whole step

  /**
   * The paged read of the stored rows, then the filter: the records to send
   * with the next call number, or the error raised.
   */
  function Chosen(c: Contents, n: nat, failing: map<nat, string>, recs: seq<Record>, relevant: seq<string>)
    : (Result<seq<Record>>, nat)
    requires Consistent(c)
  {
    var fetched := Fetch(Scan(c, [OrderIdColumn] + relevant), n, failing, 0, map[]);
    match fetched.0
    case Err(m) => (Err(m), fetched.1)
    case Ok(existing) => (Selected(recs, existing, relevant), fetched.1)
  }

  /** The table, the next call number and the outcome after saving a prepared frame. */
  function Saved(c: Contents, n: nat, failing: map<nat, string>, s: Sheet): (Contents, nat, Outcome)
    requires Consistent(c) && WellFormed(s) && UpsertKeyColumn in s.columns
  {
    SavedRecords(c, n, failing, Outgoing(s), Relevant(ColsToSend(s.columns)))
  }

  /** Saving the given records, compared on the relevant columns. */
  function SavedRecords(c: Contents, n: nat, failing: map<nat, string>, recs: seq<Record>, relevant: seq<string>)
    : (Contents, nat, Outcome)
    requires Consistent(c)
  {
    if recs == [] then (c, n, Done)
    else
      var chosen := Chosen(c, n, failing, recs, relevant);
      match chosen.0
      case Err(m) => (c, chosen.1, Raised(m))
      case Ok(t) => RunBatches(c, chosen.1, failing, [UpsertKeyColumn], Merge, t, BatchSize)
  }

  /** logger.log('warning', message) */
  function Warning(message: string, f: Option<string>, a: Option<string>): LogEntry
  {
    LogEntry(Upper("warning"), message, f, a, None)
  }

  /** The log lines of the preparation: the row count, the keys, and the duplicate warning if any. */
  function PrepareLog(s: Sheet, account: string, fileId: string, md5: string -> string, uuids: seq<string>,
                      f: Option<string>, a: Option<string>): seq<LogEntry>
    requires WellFormed(s) && |uuids| == |s.index|
  {
    var keys := KeyCells(Stamped(s, account, fileId), md5, uuids);
    var dup := DuplicateCount(keys, |keys|);
    [Info(PreparePrefix + NatStr(|s.index|) + PrepareSuffix, f, a), Info(KeyMessage, f, a)] +
      if dup > 0 then [Warning(DuplicatePrefix + NatStr(dup) + DuplicateSuffix, f, a)] else []
  }

  /** The log lines of sending a prepared frame. */
  function SendLog(c: Contents, n: nat, failing: map<nat, string>, s: Sheet, f: Option<string>, a: Option<string>)
    : seq<LogEntry>
    requires Consistent(c) && WellFormed(s) && UpsertKeyColumn in s.columns
  {
    var recs := Outgoing(s);
    if recs == [] then [Warning(NothingMessage, f, a)]
    else
      [Info(FetchMessage, f, a)] + ChosenLog(c, n, failing, recs, Relevant(ColsToSend(s.columns)), f, a)
  }

  /** The line logged once the stored rows were compared: how many records changed. */
  function ChosenLog(c: Contents, n: nat, failing: map<nat, string>, recs: seq<Record>, relevant: seq<string>,
                     f: Option<string>, a: Option<string>): seq<LogEntry>
    requires Consistent(c)
  {
    match Chosen(c, n, failing, recs, relevant).0
    case Err(_) => []
    case Ok(t) => [Info(NatStr(|t|) + ChangedSuffix, f, a)]
  }

  function Info(message: string, f: Option<string>, a: Option<string>): LogEntry
  {
    ReportReader.Info(message, f, a)
  }

  /** Each date column the frame has, in place: a timestamp becomes its ISO text, anything else None. */
  method IsoColumns(df: Frame, cols: seq<string>)
    requires df.Valid()
    modifies df
    ensures df.Valid() && df.Value() == IsoDates(old(df.Value()), cols)
  {
    ghost var s := df.Value();
    for i := 0 to |cols|
      invariant df.Valid() && df.Value() == IsoDates(s, cols[..i])
    {
      assert cols[..i + 1][..i] == cols[..i];
      var c := cols[i];
      if c in df.columns {
        df.SetColumn(c, MapCells(Column(df.Value(), c), IsoCell));
      }
    }
    assert cols[..|cols|] == cols;
  }

  /** The first part of save_sales_data: the frame is stamped, keyed and its dates made text, in place. */
  method Prepare(logger: Logger, df: Frame, account: string, fileId: string, md5: string -> string, uuids: seq<string>)
    requires logger.Valid() && df.Valid() && |uuids| == |df.index|
    modifies logger, df
    ensures df.Valid() && df.Value() == Prepared(old(df.Value()), account, fileId, md5, uuids)
    ensures logger.Valid()
    ensures logger.logged == old(logger.logged) +
      PrepareLog(old(df.Value()), account, fileId, md5, uuids, logger.fileId, logger.accountId)
    ensures logger.stored == old(logger.stored) && logger.calls == old(logger.calls)
    ensures logger.fileId == old(logger.fileId) && logger.accountId == old(logger.accountId)
  {
    StampAndKey(logger, df, account, fileId, md5, uuids);
    IsoColumns(df, ReportReader.DateColumns);
  }

  /** The account, the file and the upsert key written into the frame, with their log lines. */
  method StampAndKey(logger: Logger, df: Frame, account: string, fileId: string, md5: string -> string, uuids: seq<string>)
    requires logger.Valid() && df.Valid() && |uuids| == |df.index|
    modifies logger, df
    ensures df.Valid() && df.Value() == Keyed(Stamped(old(df.Value()), account, fileId), md5, uuids)
    ensures logger.Valid()
    ensures logger.logged == old(logger.logged) +
      PrepareLog(old(df.Value()), account, fileId, md5, uuids, logger.fileId, logger.accountId)
    ensures logger.stored == old(logger.stored) && logger.calls == old(logger.calls)
    ensures logger.fileId == old(logger.fileId) && logger.accountId == old(logger.accountId)
  {
    ghost var f, a := logger.fileId, logger.accountId;
    ghost var s0 := df.Value();
    logger.Log("info", PreparePrefix + NatStr(|df.index|) + PrepareSuffix, None);
    df.SetColumn(AccountColumn, Constant(|df.index|, Str(account)));
    df.SetColumn(FileIdColumn, Constant(|df.index|, Str(fileId)));
    assert df.Value() == Stamped(s0, account, fileId);
    logger.Log("info", KeyMessage, None);
    var keys := KeyCells(df.Value(), md5, uuids);
    df.SetColumn(UpsertKeyColumn, keys);
    var dup := DuplicateCount(keys, |keys|);
    ghost var head := [Info(PreparePrefix + NatStr(|s0.index|) + PrepareSuffix, f, a), Info(KeyMessage, f, a)];
    assert logger.logged == old(logger.logged) + head;
    if dup > 0 {
      logger.Log("warning", DuplicatePrefix + NatStr(dup) + DuplicateSuffix, None);
      Associative(old(logger.logged), head, [Warning(DuplicatePrefix + NatStr(dup) + DuplicateSuffix, f, a)]);
    }
  }

  /**
   * The paged read of the stored rows: pages of BatchSize rows until an
   * empty or short page, indexed by order id.
   */
  method FetchExisting(t: Table, cols: seq<string>) returns (r: Result<map<Cell, Record>>)
    requires t.Valid()
    modifies t
    ensures t.Valid() && t.Value() == old(t.Value())
    ensures (r, t.calls) == Fetch(Scan(old(t.Value()), cols), old(t.calls), t.failing, 0, map[])
  {
    ghost var scan := Scan(t.Value(), cols);
    var existing: map<Cell, Record> := map[];
    var offset := 0;
    while true
      invariant t.Valid() && t.Value() == old(t.Value()) && offset <= |scan|
      invariant Fetch(scan, old(t.calls), t.failing, 0, map[]) == Fetch(scan, t.calls, t.failing, offset, existing)
      decreases |scan| - offset
    {
      var res := t.SelectRange(cols, offset, BatchSize);
      if res.Err? {
        return Err(res.msg);
      }
      var page := res.value;
      assert page == scan[offset..Min(offset + BatchSize, |scan|)];
      if page == [] {
        return Ok(existing);
      }
      existing := IndexPage(existing, page);
      if |page| < BatchSize {
        return Ok(existing);
      }
      offset := offset + BatchSize;
    }
  }

  /** The fetched rows by order id: a later row with the same id replaces an earlier one. */
  method IndexPage(existing: map<Cell, Record>, page: seq<Record>) returns (m: map<Cell, Record>)
    ensures m == IndexInto(existing, page)
  {
    m := existing;
    for j := 0 to |page|
      invariant m == IndexInto(existing, page[..j])
    {
      assert page[..j + 1][..j] == page[..j];
      m := m[OrderId(page[j]) := page[j]];
    }
    assert page[..|page|] == page;
  }

  /** is_identical */
  method IsIdentical(incoming: Record, stored: Record, relevant: seq<string>) returns (same: bool)
    ensures same == Identical(incoming, stored, relevant)
  {
    for i := 0 to |relevant|
      invariant forall k | 0 <= k < i :: PyEq(Lookup(incoming, relevant[k]), Lookup(stored, relevant[k]))
    {
      if !PyEq(Lookup(incoming, relevant[i]), Lookup(stored, relevant[i])) {
        return false;
      }
    }
    return true;
  }

  /** One more step of the filter loop. */
  lemma SelectedNext(rs: seq<Record>, i: nat, existing: map<Cell, Record>, relevant: seq<string>, t: seq<Record>)
    requires i < |rs| && Selected(rs[..i], existing, relevant) == Ok(t) && OrderIdColumn in rs[i]
    ensures Selected(rs[..i + 1], existing, relevant) ==
      Ok(t + (if Changed(rs[i], existing, relevant) then [rs[i]] else []))
  {
    assert rs[..i + 1][..i] == rs[..i];
  }

  /** The filter loop over the records. */
  method SelectChanged(records: seq<Record>, existing: map<Cell, Record>, relevant: seq<string>)
    returns (r: Result<seq<Record>>)
    ensures r == Selected(records, existing, relevant)
  {
    var toUpsert := [];
    for i := 0 to |records|
      invariant Selected(records[..i], existing, relevant) == Ok(toUpsert)
    {
      var row := records[i];
      if OrderIdColumn !in row {
        SelectedErr(records, existing, relevant);
        return Err(KeyErrorMessage);
      }
      SelectedNext(records, i, existing, relevant, toUpsert);
      ghost var before := toUpsert;
      var pid := row[OrderIdColumn];
      if pid !in existing {
        toUpsert := toUpsert + [row];
        assert Changed(row, existing, relevant);
      } else {
        var same := IsIdentical(row, existing[pid], relevant);
        if !same {
          toUpsert := toUpsert + [row];
          assert Changed(row, existing, relevant);
        } else {
          assert !Changed(row, existing, relevant);
          assert toUpsert == before + [];
        }
      }
    }
    assert records[..|records|] == records;
    r := Ok(toUpsert);
  }

  /** The stored rows read page by page, then the records filtered against them. */
  method Choose(t: Table, records: seq<Record>, relevant: seq<string>) returns (r: Result<seq<Record>>)
    requires t.Valid()
    modifies t
    ensures t.Valid() && t.Value() == old(t.Value())
    ensures (r, t.calls) == Chosen(old(t.Value()), old(t.calls), t.failing, records, relevant)
  {
    var fetched := FetchExisting(t, [OrderIdColumn] + relevant);
    if fetched.Err? {
      return Err(fetched.msg);
    }
    r := SelectChanged(records, fetched.value, relevant);
  }

  /** The second part of save_sales_data: the records of the prepared frame are compared and sent. */
  method Send(logger: Logger, t: Table, s: Sheet) returns (out: Outcome)
    requires logger.Valid() && t.Valid() && WellFormed(s) && UpsertKeyColumn in s.columns
    requires t.keyCols == [UpsertKeyColumn]
    modifies logger, t
    ensures t.Valid() && (t.Value(), t.calls, out) == Saved(old(t.Value()), old(t.calls), t.failing, s)
    ensures logger.Valid()
    ensures logger.logged == old(logger.logged) + SendLog(old(t.Value()), old(t.calls), t.failing, s, logger.fileId, logger.accountId)
    ensures logger.stored == old(logger.stored) && logger.calls == old(logger.calls)
    ensures logger.fileId == old(logger.fileId) && logger.accountId == old(logger.accountId)
  {
    ghost var f, a := logger.fileId, logger.accountId;
    var records := Outgoing(s);
    if records == [] {
      logger.Log("warning", NothingMessage, None);
      return Done;
    }
    logger.Log("info", FetchMessage, None);
    out := SendRecords(logger, t, records, Relevant(ColsToSend(s.columns)));
    Associative(old(logger.logged), [Info(FetchMessage, f, a)],
                ChosenLog(old(t.Value()), old(t.calls), t.failing, records, Relevant(ColsToSend(s.columns)), f, a));
  }

  /** The changed records among the outgoing ones are found and upserted in batches. */
  method SendRecords(logger: Logger, t: Table, records: seq<Record>, relevant: seq<string>) returns (out: Outcome)
    requires logger.Valid() && t.Valid() && t.keyCols == [UpsertKeyColumn] && records != []
    modifies logger, t
    ensures t.Valid() && (t.Value(), t.calls, out) == SavedRecords(old(t.Value()), old(t.calls), t.failing, records, relevant)
    ensures logger.Valid()
    ensures logger.logged == old(logger.logged) + ChosenLog(old(t.Value()), old(t.calls), t.failing, records, relevant, logger.fileId, logger.accountId)
    ensures logger.stored == old(logger.stored) && logger.calls == old(logger.calls)
    ensures logger.fileId == old(logger.fileId) && logger.accountId == old(logger.accountId)
  {
    var chosen := Choose(t, records, relevant);
    if chosen.Err? {
      return Raised(chosen.msg);
    }
    logger.Log("info", NatStr(|chosen.value|) + ChangedSuffix, None);
    out := UpsertInBatches(t, chosen.value, BatchSize, Merge);
  }

  /**
   * save_sales_data: the frame is prepared in place; the records are built,
   * compared with what is stored and the changed ones upserted on the key.
   */
  method SaveSalesData(logger: Logger, t: Table, df: Frame, account: string, fileId: string,
                       md5: string -> string, uuids: seq<string>) returns (out: Outcome)
    requires logger.Valid() && t.Valid() && df.Valid()
    requires t.keyCols == [UpsertKeyColumn] && |uuids| == |df.index|
    modifies logger, t, df
    ensures df.Valid() && df.Value() == Prepared(old(df.Value()), account, fileId, md5, uuids)
    ensures t.Valid() && (t.Value(), t.calls, out) == Saved(old(t.Value()), old(t.calls), t.failing, df.Value())
    ensures logger.Valid()
    ensures logger.logged == old(logger.logged) +
      PrepareLog(old(df.Value()), account, fileId, md5, uuids, logger.fileId, logger.accountId) +
      SendLog(old(t.Value()), old(t.calls), t.failing, df.Value(), logger.fileId, logger.accountId)
    ensures logger.stored == old(logger.stored) && logger.calls == old(logger.calls)
    ensures logger.fileId == old(logger.fileId) && logger.accountId == old(logger.accountId)
  {
    Prepare(logger, df, account, fileId, md5, uuids);
    out := Send(logger, t, df.Value());
  }

  // ---------------------------------------------------------------------
  // What the saving step promises

  lemma {:induction false} DuplicateCountNone(keys: seq<Cell>, n: nat)
    requires n <= |keys|
    ensures DuplicateCount(keys, n) == 0 <==> forall i | 0 <= i < n :: !Repeated(keys, i)
    decreases n
  {
    if n > 0 {
      DuplicateCountNone(keys, n - 1);
    }
  }

  /** The duplicate warning is written exactly when two rows got the same key. */
  lemma DuplicateWarningIffRepeated(keys: seq<Cell>)
    ensures DuplicateCount(keys, |keys|) == 0 <==> Distinct(keys)
  {
    DuplicateCountNone(keys, |keys|);
    if !Distinct(keys) {
      var i, j :| 0 <= i < j < |keys| && keys[i] == keys[j];
      assert Repeated(keys, i);
    }
  }

  /** The rows kept by keep='last' have pairwise different keys. */
  lemma LastOnesDistinct(keys: seq<Cell>)
    ensures var ps := LastOnes(keys, |keys|);
      forall a, b | 0 <= a < b < |ps| :: keys[ps[a]] != keys[ps[b]]
  {
    var ps := LastOnes(keys, |keys|);
    forall a, b | 0 <= a < b < |ps| ensures keys[ps[a]] != keys[ps[b]] {
      assert keys[ps[b]] == keys[ps[a] + 1..][ps[b] - ps[a] - 1];
    }
  }

  /** Each value has a last position. */
  lemma {:induction false} LastOccurrence(keys: seq<Cell>, i: nat) returns (j: nat)
    requires i < |keys|
    ensures i <= j < |keys| && keys[j] == keys[i] && keys[j] !in keys[j + 1..]
    decreases |keys| - i
  {
    if keys[i] !in keys[i + 1..] {
      j := i;
    } else {
      var d :| 0 <= d < |keys[i + 1..]| && keys[i + 1..][d] == keys[i];
      j := LastOccurrence(keys, i + 1 + d);
    }
  }

  /** Every key of the sheet is still there after keep='last'. */
  lemma LastOnesCover(keys: seq<Cell>, i: nat) returns (k: nat)
    requires i < |keys|
    ensures k < |LastOnes(keys, |keys|)| && keys[LastOnes(keys, |keys|)[k]] == keys[i]
  {
    var ps := LastOnes(keys, |keys|);
    var j := LastOccurrence(keys, i);
    assert LastAt(keys, j);
    assert j in ps;
    k :| 0 <= k < |ps| && ps[k] == j;
  }

  /** cols_to_send ends with the upsert key when the frame has it. */
  lemma ColsToSendLast(present: seq<string>)
    requires UpsertKeyColumn in present
    ensures ColsToSend(present) == Keep(SentColumns, present) + [UpsertKeyColumn]
  {
    assert FinalColumns[..|FinalColumns| - 1] == SentColumns;
  }

  /** The upsert key of the k-th record sent is the key of the k-th row kept. */
  lemma OutgoingKey(s: Sheet, k: nat)
    requires WellFormed(s) && UpsertKeyColumn in s.columns
    ensures var keys := Column(ForInsert(s), UpsertKeyColumn);
      var ps := LastOnes(keys, |keys|);
      |Outgoing(s)| == |ps| && (k < |ps| ==> Lookup(Outgoing(s)[k], UpsertKeyColumn) == keys[ps[k]])
  {
    var f := ForInsert(s);
    var keys := Column(f, UpsertKeyColumn);
    var ps := LastOnes(keys, |keys|);
    var d := Deduped(f);
    var cols := ColsToSend(d.columns);
    ColsToSendLast(d.columns);
    var sel := SelectColumns(d, cols);
    var last := |cols| - 1;
    if k < |ps| {
      assert cols[last + 1..] == [];
      RowRecordCell(cols, sel.data, k, last);
      assert sel.data[last] == Column(d, UpsertKeyColumn);
    }
  }

  /** No two records sent share an upsert key. */
  lemma OutgoingKeysDistinct(s: Sheet)
    requires WellFormed(s) && UpsertKeyColumn in s.columns
    ensures DistinctKeys(Outgoing(s), [UpsertKeyColumn])
  {
    var keys := Column(ForInsert(s), UpsertKeyColumn);
    var rs := Outgoing(s);
    LastOnesDistinct(keys);
    forall i, j | 0 <= i < j < |rs|
      ensures KeyOf(rs[i], [UpsertKeyColumn]) != KeyOf(rs[j], [UpsertKeyColumn])
    {
      OutgoingKey(s, i);
      OutgoingKey(s, j);
      assert KeyOf(rs[i], [UpsertKeyColumn])[0] != KeyOf(rs[j], [UpsertKeyColumn])[0];
    }
  }

  /** Every row's upsert key is sent, by the last row holding it. */
  lemma OutgoingKeepsEveryKey(s: Sheet, i: nat)
    requires WellFormed(s) && UpsertKeyColumn in s.columns && i < |s.index|
    ensures exists k | 0 <= k < |Outgoing(s)| ::
      Lookup(Outgoing(s)[k], UpsertKeyColumn) == Column(ForInsert(s), UpsertKeyColumn)[i]
  {
    var keys := Column(ForInsert(s), UpsertKeyColumn);
    var k := LastOnesCover(keys, i);
    OutgoingKey(s, k);
  }

  /**
   * The reader's third percentage column is not among the columns sent
   * (the list names the plan percentage differently), so its values never
   * reach the table.
   */
  lemma PlanPercentNeverSent(present: seq<string>)
    ensures ReportReader.PercentColumns[2] !in ColsToSend(present)
  {
    assert ReportReader.PercentColumns[2] !in FinalColumns;
  }

  /** Indexing a + b is indexing a, then b. */
  lemma {:induction false} IndexIntoAppend(acc: map<Cell, Record>, a: seq<Record>, b: seq<Record>)
    ensures IndexInto(IndexInto(acc, a), b) == IndexInto(acc, a + b)
    decreases |b|
  {
    if b == [] {
      assert a + b == a;
    } else {
      var n := |b| - 1;
      IndexIntoAppend(acc, a, b[..n]);
      assert (a + b)[..|a + b| - 1] == a + b[..n];
    }
  }

  /** The index of the stored rows holds every order id read, and nothing else. */
  lemma {:induction false} IndexKeys(rs: seq<Record>)
    ensures IndexInto(map[], rs).Keys == set i | 0 <= i < |rs| :: OrderId(rs[i])
    decreases |rs|
  {
    if rs != [] {
      var n := |rs| - 1;
      IndexKeys(rs[..n]);
      var m := IndexInto(map[], rs);
      forall x | x in m.Keys ensures exists i | 0 <= i < |rs| :: OrderId(rs[i]) == x {
        if x != OrderId(rs[n]) {
          var i :| 0 <= i < n && OrderId(rs[..n][i]) == x;
          assert OrderId(rs[i]) == x;
        }
      }
      forall i | 0 <= i < |rs| ensures OrderId(rs[i]) in m.Keys {
        if i < n { assert OrderId(rs[..n][i]) == OrderId(rs[i]); }
      }
    }
  }

  /** Under each order id the index holds the last row read with that id. */
  lemma {:induction false} IndexLast(rs: seq<Record>, i: nat)
    requires i < |rs| && forall j | i < j < |rs| :: OrderId(rs[j]) != OrderId(rs[i])
    ensures OrderId(rs[i]) in IndexInto(map[], rs) && IndexInto(map[], rs)[OrderId(rs[i])] == rs[i]
    decreases |rs|
  {
    var n := |rs| - 1;
    if i < n {
      assert rs[..n][i] == rs[i];
      forall j | i < j < n ensures OrderId(rs[..n][j]) != OrderId(rs[..n][i]) {
        assert rs[..n][j] == rs[j];
      }
      IndexLast(rs[..n], i);
    }
  }

  /**
   * The paged read makes one call per page and succeeds exactly when none of
   * those calls fails; it then holds every row from `offset` on, indexed.
   */
  lemma {:induction false} FetchOk(scan: seq<Record>, n: nat, failing: map<nat, string>, offset: nat, acc: map<Cell, Record>)
    requires offset <= |scan|
    ensures var r := Fetch(scan, n, failing, offset, acc);
      var pages := (|scan| - offset) / BatchSize + 1;
      (r.0.Ok? <==> forall q | n <= q < n + pages :: q !in failing) &&
      (r.0.Ok? ==> r.0.value == IndexInto(acc, scan[offset..]) && r.1 == n + pages)
    decreases |scan| - offset
  {
    if n !in failing {
      var page := scan[offset..Min(offset + BatchSize, |scan|)];
      if |page| == BatchSize {
        FetchOk(scan, n + 1, failing, offset + BatchSize, IndexInto(acc, page));
        IndexIntoAppend(acc, page, scan[offset + BatchSize..]);
        assert page + scan[offset + BatchSize..] == scan[offset..];
      } else {
        assert page == scan[offset..];
      }
    }
  }

  /** A failing paged read stops at its first failing call, with that call's error. */
  lemma {:induction false} FetchErr(scan: seq<Record>, n: nat, failing: map<nat, string>, offset: nat, acc: map<Cell, Record>)
    requires offset <= |scan|
    ensures var r := Fetch(scan, n, failing, offset, acc);
      r.0.Err? ==> n < r.1 && r.1 - 1 in failing && r.0.msg == failing[r.1 - 1] &&
                   forall q | n <= q < r.1 - 1 :: q !in failing
    decreases |scan| - offset
  {
    if n !in failing {
      var page := scan[offset..Min(offset + BatchSize, |scan|)];
      if |page| == BatchSize {
        FetchErr(scan, n + 1, failing, offset + BatchSize, IndexInto(acc, page));
      }
    }
  }

  lemma {:induction false} SelectedErr(rs: seq<Record>, existing: map<Cell, Record>, relevant: seq<string>)
    ensures Selected(rs, existing, relevant).Err? <==> exists i | 0 <= i < |rs| :: OrderIdColumn !in rs[i]
    ensures Selected(rs, existing, relevant).Err? ==> Selected(rs, existing, relevant).msg == KeyErrorMessage
    decreases |rs|
  {
    if rs != [] {
      var n := |rs| - 1;
      SelectedErr(rs[..n], existing, relevant);
      assert forall i | 0 <= i < n :: rs[..n][i] == rs[i];
    }
  }

  /**
   * A record is sent exactly when its order id is not stored, or the stored
   * row differs from it in a relevant column.  Nothing else is sent.
   */
  lemma {:induction false} SelectedMembers(rs: seq<Record>, existing: map<Cell, Record>, relevant: seq<string>)
    requires Selected(rs, existing, relevant).Ok?
    ensures forall i | 0 <= i < |rs| :: OrderIdColumn in rs[i]
    ensures forall r :: r in Selected(rs, existing, relevant).value <==>
      r in rs && OrderIdColumn in r && Changed(r, existing, relevant)
    decreases |rs|
  {
    if rs != [] {
      var n := |rs| - 1;
      SelectedMembers(rs[..n], existing, relevant);
      assert rs == rs[..n] + [rs[n]];
    }
  }

  /** Sending a subset of records with distinct keys keeps the keys distinct. */
  lemma {:induction false} SelectedDistinct(rs: seq<Record>, existing: map<Cell, Record>, relevant: seq<string>, keyCols: seq<string>)
    requires DistinctKeys(rs, keyCols) && Selected(rs, existing, relevant).Ok?
    ensures DistinctKeys(Selected(rs, existing, relevant).value, keyCols)
    ensures forall r | r in Selected(rs, existing, relevant).value :: r in rs
    decreases |rs|
  {
    if rs != [] {
      var n := |rs| - 1;
      var p := rs[..n];
      assert DistinctKeys(p, keyCols) by {
        forall i, j | 0 <= i < j < |p| ensures KeyOf(p[i], keyCols) != KeyOf(p[j], keyCols) {
          assert p[i] == rs[i] && p[j] == rs[j];
        }
      }
      SelectedDistinct(p, existing, relevant, keyCols);
      var t := Selected(p, existing, relevant).value;
      var r := rs[n];
      forall x | x in t ensures KeyOf(x, keyCols) != KeyOf(r, keyCols) {
        var i :| 0 <= i < n && p[i] == x;
        assert rs[i] == x;
      }
    }
  }

  /**
   * Saving under a new file id: when the records carry that id and no stored
   * row does, every record differs in received_file_id and is sent again.
   */
  lemma {:induction false} NewFileSendsAll(rs: seq<Record>, existing: map<Cell, Record>, relevant: seq<string>, fileId: string)
    requires FileIdColumn in relevant
    requires forall i | 0 <= i < |rs| :: OrderIdColumn in rs[i] && Lookup(rs[i], FileIdColumn) == Str(fileId)
    requires forall k | k in existing :: Lookup(existing[k], FileIdColumn) != Str(fileId)
    ensures Selected(rs, existing, relevant) == Ok(rs)
    decreases |rs|
  {
    if rs != [] {
      var n := |rs| - 1;
      NewFileSendsAll(rs[..n], existing, relevant, fileId);
      var r := rs[n];
      if r[OrderIdColumn] in existing {
        assert !PyEq(Lookup(r, FileIdColumn), Lookup(existing[r[OrderIdColumn]], FileIdColumn));
      }
      assert rs[..n] + [r] == rs;
    }
  }

  /** Reading and filtering raises a failing call's error or the KeyError, and keeps keys distinct. */
  lemma ChosenFacts(c: Contents, n: nat, failing: map<nat, string>, recs: seq<Record>, relevant: seq<string>)
    requires Consistent(c)
    ensures var r := Chosen(c, n, failing, recs, relevant);
      r.0.Err? ==> r.0.msg == KeyErrorMessage || (r.1 >= 1 && r.1 - 1 in failing && r.0.msg == failing[r.1 - 1])
    ensures var r := Chosen(c, n, failing, recs, relevant);
      r.0.Ok? && DistinctKeys(recs, [UpsertKeyColumn]) ==> DistinctKeys(r.0.value, [UpsertKeyColumn])
  {
    var scan := Scan(c, [OrderIdColumn] + relevant);
    var fetched := Fetch(scan, n, failing, 0, map[]);
    FetchErr(scan, n, failing, 0, map[]);
    if fetched.0.Ok? {
      SelectedErr(recs, fetched.0.value, relevant);
      if Selected(recs, fetched.0.value, relevant).Ok? && DistinctKeys(recs, [UpsertKeyColumn]) {
        SelectedDistinct(recs, fetched.0.value, relevant, [UpsertKeyColumn]);
      }
    }
  }

  /**
   * What a raising save can have raised: the error of its last call, which
   * failed, or the KeyError of records with no order id column.
   */
  predicate RaisedByCallOrKey(r: (Contents, nat, Outcome), failing: map<nat, string>)
  {
    r.2.Raised? ==> r.2.msg == KeyErrorMessage || (r.1 >= 1 && r.1 - 1 in failing && r.2.msg == failing[r.1 - 1])
  }

  /**
   * Saving never makes the database reject a batch for touching a row twice
   * (TwiceMessage): every error it raises is a failing call's or the KeyError.
   */
  lemma SaveRaises(c: Contents, n: nat, failing: map<nat, string>, s: Sheet)
    requires Consistent(c) && WellFormed(s) && UpsertKeyColumn in s.columns
    ensures RaisedByCallOrKey(Saved(c, n, failing, s), failing)
  {
    OutgoingKeysDistinct(s);
    SavedRecordsRaises(c, n, failing, Outgoing(s), Relevant(ColsToSend(s.columns)));
  }

  lemma SavedRecordsRaises(c: Contents, n: nat, failing: map<nat, string>, recs: seq<Record>, relevant: seq<string>)
    requires Consistent(c) && DistinctKeys(recs, [UpsertKeyColumn])
    ensures RaisedByCallOrKey(SavedRecords(c, n, failing, recs, relevant), failing)
  {
    if recs != [] {
      var chosen := Chosen(c, n, failing, recs, relevant);
      ChosenFacts(c, n, failing, recs, relevant);
      if chosen.0.Ok? {
        RunBatchesDistinct(c, chosen.1, failing, [UpsertKeyColumn], chosen.0.value, BatchSize);
      }
    }
  }

  /**
   * A save that completes has merged every record it chose over the row
   * stored under its key (or stored it anew), and left every other row alone.
   */
  lemma SaveDone(c: Contents, n: nat, failing: map<nat, string>, s: Sheet)
    requires Consistent(c) && WellFormed(s) && UpsertKeyColumn in s.columns
    requires Saved(c, n, failing, s).2.Done? && Outgoing(s) != []
    ensures var chosen := Chosen(c, n, failing, Outgoing(s), Relevant(ColsToSend(s.columns))).0;
      var d := Saved(c, n, failing, s).0;
      chosen.Ok? &&
      (forall x | x in chosen.value :: var k := KeyOf(x, [UpsertKeyColumn]);
        k in d.rows && d.rows[k] == (if k in c.rows then c.rows[k] + x else x)) &&
      (forall k | k in c.rows && k !in KeysOf(chosen.value, [UpsertKeyColumn]) :: k in d.rows && d.rows[k] == c.rows[k])
  {
    var recs := Outgoing(s);
    var relevant := Relevant(ColsToSend(s.columns));
    var chosen := Chosen(c, n, failing, recs, relevant);
    var t := chosen.0.value;
    RunBatchesDone(c, chosen.1, failing, [UpsertKeyColumn], Merge, t, BatchSize);
    OutgoingKeysDistinct(s);
    ChosenFacts(c, n, failing, recs, relevant);
    MergeStoresEach(c, [UpsertKeyColumn], t);
    forall x | x in t ensures var k := KeyOf(x, [UpsertKeyColumn]);
      k in Saved(c, n, failing, s).0.rows && Saved(c, n, failing, s).0.rows[k] == (if k in c.rows then c.rows[k] + x else x)
    {
      var i :| 0 <= i < |t| && t[i] == x;
    }
  }
}
