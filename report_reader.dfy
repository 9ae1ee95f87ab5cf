/**
 * read_and_clean_data of the current financial-report pipeline: the sheet
 * is read as text, its headers normalised and checked, two long headers
 * renamed to the database's names, and the money, total, percentage and
 * date columns converted in place.  Each step is logged.
 *
 * The pipeline runs the reader as the code has it (CleanAsWritten): the
 * money columns, the order total among them, are parsed before the renaming,
 * and the order total is parsed a second time by its own parser.  Clean is
 * the corrected reader (see README, Findings), kept for comparison: it
 * renames first and reads the order total from its text once.
 */
module ReportReader {
  import opened Wrappers
  import opened Text
  import opened Numbers
  import opened Cells
  import opened Seqs
  import opened Frames
  import opened ReportParsers
  import opened ReportLog

  const TotalColumn := "total_do_pedido"

  /** The money columns other than the order total, in the order they are parsed. */
  const AmountColumns: seq<string> := [
    "valor_dos_itens", "taxa_de_entrega", "taxa_de_servico",
    "promocao_custeada_pelo_ifood", "promocao_custeada_pela_loja",
    "valor_comissao_ifood", "comissao_pela_transacao_do_pagamento",
    "valor_taxa_plano_repasse_1_semana", "base_de_calculo", "valor_bruto",
    "solicitacao_servicos_entrega_ifood", "desconto_solicitacao_entrega_ifood",
    "valor_liquido", "valor_ocorrencia"]

  /** All money columns as the code lists them: the order total first. */
  const MoneyColumns: seq<string> := [TotalColumn] + AmountColumns

  const PercentColumns: seq<string> := [
    "percentual_comissao_ifood", "percentual_pela_transacao_do_pagamento",
    "percentual_taxa_plano_de_repasse_em_1_semana"]

  const DateColumns: seq<string> := ["data_do_pedido_ocorrencia", "data_de_conclusao", "data_de_repasse"]

  const LongDiscount := "desconto_na_solicitacao_de_entrega_ifood"
  const ShortDiscount := "desconto_solicitacao_entrega_ifood"
  const LongDelivery := "solicitacao_de_servicos_de_entrega_ifood"
  const ShortDelivery := "solicitacao_servicos_entrega_ifood"

  const NotFinancialMessage := "Arquivo nao parece ser do tipo FINANCEIRO (colunas essenciais ausentes). Verifique se o nome/rota estao corretos."
  const StartPrefix := "Iniciando leitura do arquivo: "
  const RowsSuffix := " linhas brutas lidas do arquivo."
  const HeadersPrefix := "Nomes de colunas normalizados: "
  const CleanedMessage := "Limpeza e convers\U{E3}o de tipos conclu\U{ED}da."
  const FailurePrefix := "Falha ao ler ou limpar o arquivo: "

  /** The renaming map: the two long headers get the database's names, every other header is kept. */
  function RenameHeader(c: string): (r: string)
    ensures r == ShortDiscount <==> c == LongDiscount || c == ShortDiscount
    ensures r == ShortDelivery <==> c == LongDelivery || c == ShortDelivery
    ensures c != LongDiscount && c != LongDelivery ==> r == c
  {
    if c == LongDiscount then ShortDiscount
    else if c == LongDelivery then ShortDelivery
    else c
  }

  /** How a column is converted. */
  datatype Kind = Money | Total | Percent | Dates(toDt: string -> Option<Stamp>)

  /**
   * pd.to_datetime(errors='coerce') on one cell of a text sheet: a text the
   * date parser accepts becomes its timestamp, anything else NaT.
   */
  function ToDatetime(c: Cell, toDt: string -> Option<Stamp>): (r: Cell)
    ensures r.Time? || r.NaT?
  {
    match c
    case Str(s) => (match toDt(s) case Some(t) => Time(t) case None => NaT)
    case Time(t) => Time(t)
    case _ => NaT
  }

  /** A column after conversion: Series.apply of the parser, or to_datetime. */
  function Converted(col: seq<Cell>, k: Kind): (r: seq<Cell>)
    ensures |r| == |col|
  {
    match k
    case Money => FloatColumn(MapCells(col, ParseAsDecimal))
    case Total => FloatColumn(MapCells(col, ParseTotal))
    case Percent => FloatColumn(MapCells(col, ParsePercent))
    case Dates(toDt) => MapCells(col, c => ToDatetime(c, toDt))
  }

  /** One column converted if the sheet has it. */
  function ConvertOne(s: Sheet, c: string, k: Kind): (r: Sheet)
    requires WellFormed(s)
    ensures WellFormed(r) && r.columns == s.columns && r.index == s.index
  {
    if c in s.columns then WithColumn(s, c, Converted(Column(s, c), k)) else s
  }

  /** The loop over a column list: each listed column the sheet has is converted, in list order. */
  function ConvertAll(s: Sheet, cols: seq<string>, k: Kind): (r: Sheet)
    requires WellFormed(s)
    ensures WellFormed(r) && r.columns == s.columns && r.index == s.index
    decreases |cols|
  {
    if cols == [] then s
    else ConvertOne(ConvertAll(s, cols[..|cols| - 1], k), cols[|cols| - 1], k)
  }

  /** Each listed column is converted once, and the others are left as they were. */
  lemma {:induction false} ConvertAllColumn(s: Sheet, cols: seq<string>, k: Kind, c: string)
    requires WellFormed(s) && c in s.columns && Distinct(cols)
    ensures Column(ConvertAll(s, cols, k), c) == if c in cols then Converted(Column(s, c), k) else Column(s, c)
    decreases |cols|
  {
    if cols != [] {
      var n := |cols| - 1;
      var p := cols[..n];
      assert Distinct(p);
      ConvertAllColumn(s, p, k, c);
      assert c in cols <==> c in p || c == cols[n];
      if c == cols[n] {
        assert c !in p;
      }
    }
  }

  /** df.columns after the header normalisation. */
  function Normalized(s: Sheet): (r: Sheet)
    requires WellFormed(s)
    ensures WellFormed(r) && r.data == s.data && r.index == s.index
  {
    Sheet(RenameAll(s.columns, NormalizeHeader), s.data, s.index)
  }

  /** df.rename(columns=rename_map). */
  function Renamed(s: Sheet): (r: Sheet)
    requires WellFormed(s)
    ensures WellFormed(r) && r.data == s.data && r.index == s.index
  {
    Sheet(RenameAll(s.columns, RenameHeader), s.data, s.index)
  }

  /** The reader's column lists: amounts, the order total, percentages and dates. */
  datatype Plan = Plan(amounts: seq<string>, total: string, percents: seq<string>, dates: seq<string>)

  const Columns := Plan(AmountColumns, TotalColumn, PercentColumns, DateColumns)

  /** No list repeats a column and no column is in two lists. */
  predicate Apart(p: Plan)
  {
    Distinct(p.amounts) && Distinct(p.percents) && Distinct(p.dates) &&
    p.total !in p.amounts && p.total !in p.percents && p.total !in p.dates &&
    (forall c | c in p.amounts :: c !in p.percents && c !in p.dates) &&
    (forall c | c in p.percents :: c !in p.dates)
  }

  /** The conversions in order: amounts, the order total, percentages, dates. */
  function ConvertedBy(s: Sheet, p: Plan, toDt: string -> Option<Stamp>): (r: Sheet)
    requires WellFormed(s)
    ensures WellFormed(r) && r.columns == s.columns && r.index == s.index
  {
    var amounts := ConvertAll(s, p.amounts, Money);
    var totals := ConvertOne(amounts, p.total, Total);
    ConvertAll(ConvertAll(totals, p.percents, Percent), p.dates, Dates(toDt))
  }

  /** The conversion a column goes through, by the list its name is in. */
  function ColumnBy(col: seq<Cell>, c: string, p: Plan, toDt: string -> Option<Stamp>): seq<Cell>
  {
    if c == p.total then Converted(col, Total)
    else if c in p.amounts then Converted(col, Money)
    else if c in p.percents then Converted(col, Percent)
    else if c in p.dates then Converted(col, Dates(toDt))
    else col
  }

  /** Every column goes through the conversion of the list its name is in, and only that one. */
  lemma ConvertedByColumn(s: Sheet, p: Plan, toDt: string -> Option<Stamp>, c: string)
    requires WellFormed(s) && Apart(p) && c in s.columns
    ensures Column(ConvertedBy(s, p, toDt), c) == ColumnBy(Column(s, c), c, p, toDt)
  {
    var amounts := ConvertAll(s, p.amounts, Money);
    ConvertAllColumn(s, p.amounts, Money, c);
    var totals := ConvertOne(amounts, p.total, Total);
    var percents := ConvertAll(totals, p.percents, Percent);
    ConvertAllColumn(totals, p.percents, Percent, c);
    ConvertAllColumn(percents, p.dates, Dates(toDt), c);
  }

  /**
   * The corrected reader: normalised headers, rejected unless it looks like
   * a financial report, renamed, then converted.
   */
  function Clean(s: Sheet, toDt: string -> Option<Stamp>): (r: Result<Sheet>)
    requires WellFormed(s)
    ensures r.Err? <==> !LooksFinancial(Normalized(s).columns)
    ensures r.Err? ==> r.msg == NotFinancialMessage
    ensures r.Ok? ==> WellFormed(r.value) && r.value.index == s.index
    ensures r.Ok? ==> r.value.columns == RenameAll(RenameAll(s.columns, NormalizeHeader), RenameHeader)
  {
    var n := Normalized(s);
    if !LooksFinancial(n.columns) then Err(NotFinancialMessage)
    else Ok(ConvertedBy(Renamed(n), Columns, toDt))
  }

  /** The column lists have no repeats and share no column. */
  lemma AmountColumnsDistinct()
    ensures Distinct(AmountColumns)
  {
  }

  lemma AmountColumnsApart()
    ensures forall c | c in AmountColumns :: c !in PercentColumns && c !in DateColumns
  {
  }

  lemma OtherColumnsApart()
    ensures Distinct(PercentColumns) && Distinct(DateColumns)
    ensures forall c | c in PercentColumns :: c !in DateColumns
    ensures TotalColumn !in AmountColumns && TotalColumn !in PercentColumns && TotalColumn !in DateColumns
  {
  }

  lemma ColumnsApart()
    ensures Apart(Columns)
  {
    AmountColumnsDistinct();
    AmountColumnsApart();
    OtherColumnsApart();
  }

  /**
   * Every column of the cleaned sheet is the renamed sheet's column put
   * through the conversion its name calls for, and only that one.
   */
  lemma CleanColumn(s: Sheet, toDt: string -> Option<Stamp>, c: string)
    requires WellFormed(s) && Clean(s, toDt).Ok? && c in Clean(s, toDt).value.columns
    ensures var n := Renamed(Normalized(s));
      Column(Clean(s, toDt).value, c) == ColumnBy(Column(n, c), c, Columns, toDt)
  {
    ColumnsApart();
    ConvertedByColumn(Renamed(Normalized(s)), Columns, toDt, c);
  }

  // ---------------------------------------------------------------------
  // The reader as written

  /**
   * The conversions as the code orders them: the order total is parsed with
   * the amounts first, and then again by its own parser.
   */
  function ConvertedAsWrittenBy(s: Sheet, p: Plan, toDt: string -> Option<Stamp>): (r: Sheet)
    requires WellFormed(s)
    ensures WellFormed(r) && r.columns == s.columns && r.index == s.index
  {
    var money := ConvertAll(s, [p.total] + p.amounts, Money);
    var totals := ConvertOne(money, p.total, Total);
    ConvertAll(ConvertAll(totals, p.percents, Percent), p.dates, Dates(toDt))
  }

  /** As written, the order total goes through both parsers and every other column as in ColumnBy. */
  lemma ConvertedAsWrittenByColumn(s: Sheet, p: Plan, toDt: string -> Option<Stamp>, c: string)
    requires WellFormed(s) && Apart(p) && c in s.columns
    ensures Column(ConvertedAsWrittenBy(s, p, toDt), c) ==
      if c == p.total then Converted(Converted(Column(s, c), Money), Total) else ColumnBy(Column(s, c), c, p, toDt)
  {
    var money := ConvertAll(s, [p.total] + p.amounts, Money);
    assert Distinct([p.total] + p.amounts) by {
      assert forall k | 0 <= k < |p.amounts| :: p.amounts[k] != p.total;
    }
    ConvertAllColumn(s, [p.total] + p.amounts, Money, c);
    var totals := ConvertOne(money, p.total, Total);
    var percents := ConvertAll(totals, p.percents, Percent);
    ConvertAllColumn(totals, p.percents, Percent, c);
    ConvertAllColumn(percents, p.dates, Dates(toDt), c);
  }

  /**
   * The reader as the code has it: all fifteen money columns (the order
   * total among them) are parsed before the renaming, and the order total is
   * then parsed again from the number parse_as_decimal produced.
   */
  function CleanAsWritten(s: Sheet, toDt: string -> Option<Stamp>): (r: Result<Sheet>)
    requires WellFormed(s)
    ensures r.Err? <==> !LooksFinancial(Normalized(s).columns)
    ensures r.Err? ==> r.msg == NotFinancialMessage
    ensures r.Ok? ==> WellFormed(r.value) && r.value.index == s.index
    ensures r.Ok? ==> r.value.columns == RenameAll(RenameAll(s.columns, NormalizeHeader), RenameHeader)
  {
    var n := Normalized(s);
    if !LooksFinancial(n.columns) then Err(NotFinancialMessage)
    else Ok(Renamed(ConvertedAsWrittenBy(n, Columns, toDt)))
  }

  /** What read_and_clean_data does with the result of read_excel: its failure is passed on, a sheet is cleaned as written. */
  function ReadClean(raw: Result<Sheet>, toDt: string -> Option<Stamp>): (r: Result<Sheet>)
    requires raw.Ok? ==> WellFormed(raw.value)
    ensures r.Ok? ==> raw.Ok? && WellFormed(r.value) && r.value.index == raw.value.index
    ensures raw.Err? ==> r == raw
    ensures raw.Ok? ==> r == CleanAsWritten(raw.value, toDt)
  {
    match raw
    case Err(m) => Err(m)
    case Ok(s) => CleanAsWritten(s, toDt)
  }

  /** A renamed column sits where its long header was, when the short name was not already there. */
  lemma RenamedColumn(s: Sheet, long: string, short: string)
    requires WellFormed(s) && long in s.columns && short !in s.columns
    requires (long, short) == (LongDiscount, ShortDiscount) || (long, short) == (LongDelivery, ShortDelivery)
    ensures short in Renamed(s).columns && Column(Renamed(s), short) == Column(s, long)
  {
    var r := Renamed(s);
    var j := ColumnIndex(s.columns, long);
    assert r.columns[j] == short;
    assert short !in r.columns[..j] by {
      forall k | 0 <= k < j ensures r.columns[k] != short {
        assert s.columns[k] != long && s.columns[k] != short;
      }
    }
    IndexOfFirst(r.columns, short, j);
  }

  /** A column whose name is neither a long nor a short header keeps its place through the renaming. */
  lemma RenamedUnchanged(s: Sheet, c: string)
    requires WellFormed(s) && c in s.columns
    requires c != LongDiscount && c != ShortDiscount && c != LongDelivery && c != ShortDelivery
    ensures c in Renamed(s).columns && Column(Renamed(s), c) == Column(s, c)
  {
    var r := Renamed(s);
    var j := ColumnIndex(s.columns, c);
    assert c !in r.columns[..j] by {
      forall k | 0 <= k < j ensures r.columns[k] != c {
        assert s.columns[k] != c;
      }
    }
    IndexOfFirst(r.columns, c, j);
  }

  /** The short names are amounts; the long names are in no list, and differ from the order total. */
  lemma RenamedNames()
    ensures ShortDiscount in AmountColumns && ShortDelivery in AmountColumns
    ensures LongDiscount !in AmountColumns && LongDelivery !in AmountColumns
    ensures LongDiscount !in PercentColumns + DateColumns && LongDelivery !in PercentColumns + DateColumns
    ensures LongDiscount != TotalColumn && LongDelivery != TotalColumn
  {
  }

  /**
   * As written, a column outside the renaming keeps its name, and holds the
   * normalised sheet's column through its list's conversion; the order
   * total through both money parsers.
   */
  lemma CleanAsWrittenColumn(s: Sheet, toDt: string -> Option<Stamp>, c: string)
    requires WellFormed(s) && LooksFinancial(Normalized(s).columns) && c in Normalized(s).columns
    requires c != LongDiscount && c != ShortDiscount && c != LongDelivery && c != ShortDelivery
    ensures c in CleanAsWritten(s, toDt).value.columns
    ensures var col := Column(Normalized(s), c);
      Column(CleanAsWritten(s, toDt).value, c) ==
        if c == TotalColumn then Converted(Converted(col, Money), Total) else ColumnBy(col, c, Columns, toDt)
  {
    var n := Normalized(s);
    ColumnsApart();
    ConvertedAsWrittenByColumn(n, Columns, toDt, c);
    RenamedUnchanged(ConvertedAsWrittenBy(n, Columns, toDt), c);
  }

  /** A financial sheet that uses the long header of a renamed column and not its short name. */
  predicate LongHeaderOnly(s: Sheet, long: string, short: string)
  {
    WellFormed(s) && LooksFinancial(Normalized(s).columns) &&
    long in Normalized(s).columns && short !in Normalized(s).columns &&
    ((long, short) == (LongDiscount, ShortDiscount) || (long, short) == (LongDelivery, ShortDelivery))
  }

  /**
   * Finding, as written: when the sheet uses a long header, the money column
   * it is renamed to is never parsed and keeps the text read from the file.
   */
  lemma RenamedAmountAsWritten(s: Sheet, toDt: string -> Option<Stamp>, long: string, short: string)
    requires LongHeaderOnly(s, long, short)
    ensures short in CleanAsWritten(s, toDt).value.columns
    ensures Column(CleanAsWritten(s, toDt).value, short) == Column(Normalized(s), long)
  {
    var n := Normalized(s);
    RenamedNames();
    ColumnsApart();
    ConvertedAsWrittenByColumn(n, Columns, toDt, long);
    RenamedColumn(ConvertedAsWrittenBy(n, Columns, toDt), long, short);
  }

  /** The corrected reader parses that column like the other amounts. */
  lemma RenamedAmountCorrected(s: Sheet, toDt: string -> Option<Stamp>, long: string, short: string)
    requires LongHeaderOnly(s, long, short)
    ensures short in Clean(s, toDt).value.columns
    ensures Column(Clean(s, toDt).value, short) == FloatColumn(MapCells(Column(Normalized(s), long), ParseAsDecimal))
  {
    RenamedNames();
    RenamedColumn(Normalized(s), long, short);
    CleanColumn(s, toDt, short);
  }

  /** As written, a text cell of such a column reaches the database as text. */
  lemma RenamedAmountCellAsWritten(s: Sheet, toDt: string -> Option<Stamp>, long: string, short: string, i: nat, t: string)
    requires LongHeaderOnly(s, long, short)
    requires i < |s.index| && Column(Normalized(s), long)[i] == Str(t)
    ensures short in CleanAsWritten(s, toDt).value.columns
    ensures Column(CleanAsWritten(s, toDt).value, short)[i] == Str(t)
  {
    RenamedAmountAsWritten(s, toDt, long, short);
  }

  /** In the corrected reader, no cell of such a column is text. */
  lemma RenamedAmountCellCorrected(s: Sheet, toDt: string -> Option<Stamp>, long: string, short: string, i: nat)
    requires LongHeaderOnly(s, long, short) && i < |s.index|
    ensures short in Clean(s, toDt).value.columns
    ensures !Column(Clean(s, toDt).value, short)[i].Str?
  {
    RenamedAmountCorrected(s, toDt, long, short);
  }

  /** parse_total_do_pedido reads NaN like None, so the float column between the two parsers changes nothing. */
  lemma TotalAfterMoney(col: seq<Cell>)
    ensures Converted(Converted(col, Money), Total) == FloatColumn(MapCells(col, TotalAsWritten))
  {
    var a := MapCells(Converted(col, Money), ParseTotal);
    var b := MapCells(col, TotalAsWritten);
    assert a == b by {
      forall i | 0 <= i < |col| ensures a[i] == b[i] {
        var m := ParseAsDecimal(col[i]);
        assert m.Null? ==> ParseTotal(Converted(col, Money)[i]) == Null;
      }
    }
  }

  lemma TotalNotRenamed()
    ensures TotalColumn != LongDiscount && TotalColumn != ShortDiscount
    ensures TotalColumn != LongDelivery && TotalColumn != ShortDelivery
  {
  }

  /**
   * Finding, as written: the order total column is parse_total_do_pedido of
   * parse_as_decimal of each cell.
   */
  lemma TotalColumnAsWritten(s: Sheet, toDt: string -> Option<Stamp>)
    requires WellFormed(s) && LooksFinancial(Normalized(s).columns)
    requires TotalColumn in Normalized(s).columns
    ensures TotalColumn in CleanAsWritten(s, toDt).value.columns
    ensures Column(CleanAsWritten(s, toDt).value, TotalColumn) ==
      FloatColumn(MapCells(Column(Normalized(s), TotalColumn), TotalAsWritten))
  {
    var n := Normalized(s);
    ColumnsApart();
    TotalNotRenamed();
    ConvertedAsWrittenByColumn(n, Columns, toDt, TotalColumn);
    TotalAfterMoney(Column(n, TotalColumn));
    RenamedUnchanged(ConvertedAsWrittenBy(n, Columns, toDt), TotalColumn);
  }

  /** The corrected reader applies parse_total_do_pedido to the text alone. */
  lemma TotalColumnCorrected(s: Sheet, toDt: string -> Option<Stamp>)
    requires WellFormed(s) && LooksFinancial(Normalized(s).columns)
    requires TotalColumn in Normalized(s).columns
    ensures TotalColumn in Clean(s, toDt).value.columns
    ensures Column(Clean(s, toDt).value, TotalColumn) ==
      FloatColumn(MapCells(Column(Normalized(s), TotalColumn), ParseTotal))
  {
    var n := Normalized(s);
    TotalNotRenamed();
    ColumnsApart();
    RenamedUnchanged(n, TotalColumn);
    ConvertedByColumn(Renamed(n), Columns, toDt, TotalColumn);
  }

  // ---------------------------------------------------------------------
  // The reader as a procedure

  /** list(df.columns) as Python prints it (names holding quotes aside). */
  function ListRepr(names: seq<string>): string
  {
    "[" + Join(seq(|names|, i requires 0 <= i < |names| => "'" + names[i] + "'"), ", ") + "]"
  }

  /** The log lines the reader writes, for the given logging context. */
  function ReadLog(path: string, raw: Result<Sheet>, toDt: string -> Option<Stamp>, trace: string,
                   f: Option<string>, a: Option<string>): seq<LogEntry>
    requires raw.Ok? ==> WellFormed(raw.value)
  {
    [Info(StartPrefix + path, f, a)] +
      match raw
      case Err(m) => [Failure(m, trace, f, a)]
      case Ok(s) => SheetLog(s, toDt, trace, f, a)
  }

  /** The log lines written once the sheet is read. */
  function SheetLog(s: Sheet, toDt: string -> Option<Stamp>, trace: string, f: Option<string>, a: Option<string>): seq<LogEntry>
    requires WellFormed(s)
  {
    [Info(NatStr(|s.index|) + RowsSuffix, f, a), Info(HeadersPrefix + ListRepr(Normalized(s).columns), f, a)] +
      if LooksFinancial(Normalized(s).columns) then [Info(CleanedMessage, f, a)]
      else [Failure(NotFinancialMessage, trace, f, a)]
  }

  /** logger.log('info', message) */
  function Info(message: string, f: Option<string>, a: Option<string>): LogEntry
  {
    LogEntry(Upper("info"), message, f, a, None)
  }

  /** logger.log('error', ..., context={'traceback': ...}) for a failure. */
  function Failure(m: string, trace: string, f: Option<string>, a: Option<string>): LogEntry
  {
    LogEntry(Upper("error"), FailurePrefix + m, f, a, Some(map["traceback" := trace]))
  }

  /** The same loop on the frame, in place. */
  method ConvertColumns(df: Frame, cols: seq<string>, k: Kind)
    requires df.Valid()
    modifies df
    ensures df.Valid() && df.Value() == ConvertAll(old(df.Value()), cols, k)
  {
    ghost var s := df.Value();
    for i := 0 to |cols|
      invariant df.Valid() && df.Value() == ConvertAll(s, cols[..i], k)
    {
      assert cols[..i + 1][..i] == cols[..i];
      var c := cols[i];
      if c in df.columns {
        df.SetColumn(c, Converted(Column(df.Value(), c), k));
      }
    }
    assert cols[..|cols|] == cols;
  }

  /** The conversions of the money columns, the order total again, the percentages and the dates, in place. */
  method ConvertTypes(df: Frame, toDt: string -> Option<Stamp>)
    requires df.Valid()
    modifies df
    ensures df.Valid() && df.Value() == ConvertedAsWrittenBy(old(df.Value()), Columns, toDt)
  {
    ConvertColumns(df, MoneyColumns, Money);
    if TotalColumn in df.columns {
      df.SetColumn(TotalColumn, Converted(Column(df.Value(), TotalColumn), Total));
    }
    ConvertColumns(df, PercentColumns, Percent);
    ConvertColumns(df, DateColumns, Dates(toDt));
  }

  /** The part of read_and_clean_data after read_excel succeeded. */
  method CleanSheet(logger: Logger, s: Sheet, toDt: string -> Option<Stamp>, trace: string) returns (res: Result<Frame>)
    requires logger.Valid() && WellFormed(s)
    modifies logger
    ensures logger.Valid()
    ensures logger.logged == old(logger.logged) + SheetLog(s, toDt, trace, logger.fileId, logger.accountId)
    ensures logger.stored == old(logger.stored) && logger.calls == old(logger.calls)
    ensures logger.fileId == old(logger.fileId) && logger.accountId == old(logger.accountId)
    ensures res.Ok? ==> fresh(res.value) && res.value.Valid() && CleanAsWritten(s, toDt) == Ok(res.value.Value())
    ensures res.Err? ==> CleanAsWritten(s, toDt) == Err(res.msg)
  {
    ghost var f, a := logger.fileId, logger.accountId;
    var df := new Frame(s);
    logger.Log("info", NatStr(|df.index|) + RowsSuffix, None);
    df.SetColumnNames(RenameAll(df.columns, NormalizeHeader));
    assert df.Value() == Normalized(s);
    logger.Log("info", HeadersPrefix + ListRepr(df.columns), None);
    ghost var read := [Info(NatStr(|s.index|) + RowsSuffix, f, a), Info(HeadersPrefix + ListRepr(Normalized(s).columns), f, a)];
    assert logger.logged == old(logger.logged) + read;
    if !LooksFinancial(df.columns) {
      logger.Log("error", FailurePrefix + NotFinancialMessage, Some(map["traceback" := trace]));
      Associative(old(logger.logged), read, [Failure(NotFinancialMessage, trace, f, a)]);
      return Err(NotFinancialMessage);
    }
    ConvertTypes(df, toDt);
    logger.Log("info", CleanedMessage, None);
    df.SetColumnNames(RenameAll(df.columns, RenameHeader));
    Associative(old(logger.logged), read, [Info(CleanedMessage, f, a)]);
    return Ok(df);
  }

  /**
   * read_and_clean_data: reads the sheet (its result is given), normalises
   * and checks the headers, converts the columns in place, renames, and logs
   * each step; a failure is logged with its traceback and passed on.
   */
  method ReadAndClean(logger: Logger, path: string, raw: Result<Sheet>, toDt: string -> Option<Stamp>, trace: string)
    returns (res: Result<Frame>)
    requires logger.Valid() && (raw.Ok? ==> WellFormed(raw.value))
    modifies logger
    ensures logger.Valid()
    ensures logger.logged == old(logger.logged) + ReadLog(path, raw, toDt, trace, logger.fileId, logger.accountId)
    ensures logger.stored == old(logger.stored) && logger.calls == old(logger.calls)
    ensures logger.fileId == old(logger.fileId) && logger.accountId == old(logger.accountId)
    ensures res.Ok? ==> fresh(res.value) && res.value.Valid() && ReadClean(raw, toDt) == Ok(res.value.Value())
    ensures res.Err? ==> ReadClean(raw, toDt) == Err(res.msg)
  {
    ghost var f, a := logger.fileId, logger.accountId;
    logger.Log("info", StartPrefix + path, None);
    ghost var start := [Info(StartPrefix + path, f, a)];
    if raw.Err? {
      logger.Log("error", FailurePrefix + raw.msg, Some(map["traceback" := trace]));
      Associative(old(logger.logged), start, [Failure(raw.msg, trace, f, a)]);
      return Err(raw.msg);
    }
    res := CleanSheet(logger, raw.value, toDt, trace);
    Associative(old(logger.logged), start, SheetLog(raw.value, toDt, trace, f, a));
  }
}
