/**
 * The older financial-report pipeline (scripts/process_report.py): the sheet
 * keeps its original headers, every row with an order id becomes one record
 * built field by field, the records go to sales_data in a single
 * insert-or-ignore upsert, the affected dates are sent to the KPI procedure,
 * and the file's status is written around it all.
 */
module LegacyReport {
  import opened Wrappers
  import opened Text
  import opened Numbers
  import opened Cells
  import opened Seqs
  import opened Frames
  import opened Tables
  import opened Files
  import ReportParsers

  // Headers exactly as the sheet has them.
  const StoreId := "LOJA_ID"
  const StoreName := "NOME_DA_LOJA"
  const BillingType := "TIPO_DE_FATURAMENTO"
  const SalesChannel := "CANAL_DE_VENDAS"
  const OrderNumber := "N\U{B0}_PEDIDO"
  const OrderId := "PEDIDO_ID_COMPLETO"
  const OrderDate := "DATA_DO_PEDIDO_OCORRENCIA"
  const ConfirmationDate := "DATA_DE_CONCLUS\U{C3}O"
  const RepasseDate := "DATA_DE_REPASSE"
  const PaymentOrigin := "ORIGEM_DE_FORMA_DE_PAGAMENTO"
  const PaymentMethod := "FORMAS_DE_PAGAMENTO"
  const TotalOrderValue := "TOTAL_DO_PEDIDO"
  const ItemsValue := "VALOR_DOS_ITENS"
  const DeliveryFee := "TAXA_DE_ENTREGA"
  const ServiceFee := "TAXA_DE_SERVI\U{C7}O"
  const IfoodPromo := "PROMOCAO_CUSTEADA_PELO_IFOOD"
  const StorePromo := "PROMOCAO_CUSTEADA_PELA_LOJA"
  const IfoodCommissionPerc := "PERCENTUAL_COMISSAO_IFOOD"
  const IfoodCommissionValue := "VALOR_COMISSAO_IFOOD"
  const PaymentTxPerc := "PERCENTUAL_PELA_TRANSA\U{C7}\U{C3}O_DO_PAGAMENTO"
  const PaymentTxValue := "COMISSAO_PELA_TRANSACAO_DO_PAGAMENTO"
  const RepassePlanPerc := "PERCENTUAL_TAXA_PLANO_DE_REPASSE_EM_1_SEMANA"
  const RepassePlanValue := "VALOR_TAXA_PLANO_DE_REPASSE_EM_1_SEMANA"
  const CalcBase := "BASE_DE_CALCULO"
  const GrossValue := "VALOR_BRUTO"
  const DeliveryRequest := "SOLICITACAO_DE_SERVICOS_DE_ENTREGA_IFOOD"
  const DeliveryDiscount := "DESCONTO_NA_SOLICITACAO_DE_ENTREGA_IFOOD"
  const NetValue := "VALOR_LIQUIDO"
  const EventValue := "VALOR_OCORRENCIA"

  /** The 29 headers read_and_clean_data insists on, in the order it reports them. */
  const ExpectedColumns: seq<string> := [
    StoreId, StoreName, BillingType, SalesChannel,
    OrderNumber, OrderId, OrderDate, ConfirmationDate,
    RepasseDate, PaymentOrigin, PaymentMethod,
    TotalOrderValue, ItemsValue, DeliveryFee,
    ServiceFee, IfoodPromo, StorePromo,
    IfoodCommissionPerc, IfoodCommissionValue,
    PaymentTxPerc, PaymentTxValue, RepassePlanPerc,
    RepassePlanValue, CalcBase, GrossValue,
    DeliveryRequest, DeliveryDiscount, NetValue,
    EventValue
  ]

  /** The unique constraint of sales_data that the upsert names. */
  const SalesConflict: seq<string> := ["account_id", "pedido_id_completo"]

  const KpiProcedure := "recalculate_daily_kpis_for_dates"
  const KpiDateColumn := "kpi_date"

  const ProcessingStatus := "processing"
  const ProcessedStatus := "processed"
  const ErrorStatus := "error"

  const NotFoundPrefix := "Arquivo n\U{E3}o encontrado no caminho: "
  const MissingPrefix := "O arquivo n\U{E3}o p\U{F4}de ser processado. As seguintes colunas obrigat\U{F3}rias n\U{E3}o foram encontradas: "
  const MissingSuffix := ". Verifique se o relat\U{F3}rio exportado est\U{E1} no formato correto."

  // ---------------------------------------------------------------------
  // Cell converters

  /** The money text after 'R$' and '%' are removed and the separators are turned into a decimal point. */
  function MoneyText(t: string): string
  {
    var c := Strip(Replace(Replace(t, "R$", ""), "%", ""));
    if '.' in c && ',' in c then ReplaceChar(DeleteChar(c, '.'), ',', '.') else ReplaceChar(c, ',', '.')
  }

  /**
   * to_float: missing gives None, numbers pass through, text is read as a
   * Brazilian amount and divided by 100 when it carries '%'; text that
   * float() refuses, and every other kind of value, gives None.
   */
  function ToFloat(v: Cell): (r: Cell)
    ensures r.Null? || (r.Num? && Canonical(r.n))
    ensures !v.Num? && !v.Str? ==> r == Null
    ensures v.Num? ==> r == NumCell(v.n)
  {
    match v
    case Num(d) => NumCell(d)
    case Str(s) => TextToFloat(s)
    case _ => Null
  }

  /** to_float of a str value. */
  function TextToFloat(s: string): (r: Cell)
    ensures r.Null? || (r.Num? && Canonical(r.n))
  {
    var t := Strip(s);
    var c := MoneyText(t);
    if c == [] then Null
    else
      match ParseFloat(c)
      case None => Null
      case Some(x) => if '%' in t then NumCell(Div100(x)) else NumCell(x)
  }

  /** Text of digits, '.' and ',' only, starting and ending with a digit. */
  predicate PlainAmount(s: string)
  {
    ReportParsers.AmountChars(s) && |s| > 0 && IsDigit(s[0]) && IsDigit(s[|s| - 1])
  }

  /** On a plain amount holding both separators, to_float reads it as the current pipeline's parse_as_decimal does. */
  lemma BothSeparatorsLikeCurrent(s: string)
    requires PlainAmount(s) && '.' in s && ',' in s
    ensures ToFloat(Str(s)) == ReportParsers.ParseAsDecimal(Str(s))
  {
    var m := ReplaceChar(DeleteChar(s, '.'), ',', '.');
    assert ToFloat(Str(s)) == ReportParsers.FloatCell(ParseFloat(m)) by {
      PlainAmountCleaned(s);
      assert s[0] in DeleteChar(s, '.');
      CleanText(s, m);
    }
    assert ReportParsers.BrazilianText(s) == m by {
      ReportParsers.AmountPrefix(s);
    }
  }

  /** Text without blanks at its ends or a '%' reads as the float of its money text. */
  lemma CleanText(s: string, m: string)
    requires Strip(s) == s && '%' !in s && MoneyText(s) == m && m != []
    ensures ToFloat(Str(s)) == ReportParsers.FloatCell(ParseFloat(m))
  {
  }

  /** A plain amount has nothing for the cleaning steps to remove. */
  lemma PlainAmountCleaned(s: string)
    requires PlainAmount(s)
    ensures Strip(s) == s && '%' !in s
    ensures Strip(Replace(Replace(s, "R$", ""), "%", "")) == s
  {
    assert Strip(s) == s by {
      StripClean(s);
    }
    assert Replace(s, "R$", "") == s by {
      NoSignToRemove(s, 'R', "R$");
    }
    assert '%' !in s && Replace(s, "%", "") == s by {
      NoSignToRemove(s, '%', "%");
    }
  }

  /** A plain amount holds no sign character, so a pattern starting with one is not there to replace. */
  lemma NoSignToRemove(s: string, x: char, pat: string)
    requires PlainAmount(s) && |pat| > 0 && pat[0] == x && !IsDigit(x) && x != '.' && x != ','
    ensures x !in s && Replace(s, pat, "") == s
  {
    assert forall i | 0 <= i < |s| :: s[i] != x;
    if Contains(s, pat) {
      ContainsFirst(s, pat);
    }
    ReplaceAbsent(s, pat, "");
  }

  /** 'R$ 1.234,56'-style text with thousands dots and a decimal comma: a.b,c reads as the digits a b c with |c| decimals. */
  lemma ThousandsAndComma(a: string, b: string, c: string)
    requires AllDigits(a) && AllDigits(b) && AllDigits(c) && |a| > 0 && |c| > 0
    ensures AllDigits(a + b + c)
    ensures ToFloat(Str(a + "." + b + "," + c)) == NumCell(Decimal(DigitsValue(a + b + c), |c|))
  {
    var s := a + "." + b + "," + c;
    ReportParsers.DottedAmountChars(a, b, c);
    assert s[|a|] == '.' && s[|a| + 1 + |b|] == ',';
    assert s[0] == a[0] && s[|s| - 1] == c[|c| - 1];
    BothSeparatorsLikeCurrent(s);
    ReportParsers.BrazilianAmount(a, b, c);
  }

  /**
   * With no comma a '.' is a decimal point, unlike the current pipeline
   * where it is always a thousands separator: '1.999' reads as 1.999.
   */
  lemma LoneDotIsDecimalPoint(a: string, c: string)
    requires AllDigits(a) && AllDigits(c) && |a| > 0 && |c| > 0
    ensures AllDigits(a + c)
    ensures ToFloat(Str(a + "." + c)) == NumCell(Decimal(DigitsValue(a + c), |c|))
  {
    var s := a + "." + c;
    PointAmount(a, c);
    PlainAmountCleaned(s);
    assert MoneyText(s) == s by {
      DigitsNoChar(a, ',');
      DigitsNoChar(c, ',');
      assert ',' !in s;
      ReplaceCharAbsent(s, ',', '.');
    }
    CleanText(s, s);
    ReportParsers.PointRead(a, c);
  }

  lemma PointAmount(a: string, c: string)
    requires AllDigits(a) && AllDigits(c) && |a| > 0 && |c| > 0
    ensures PlainAmount(a + "." + c)
  {
    var s := a + "." + c;
    forall i | 0 <= i < |s| ensures IsDigit(s[i]) || s[i] == '.' || s[i] == ',' {
      if i < |a| { assert s[i] == a[i]; }
      else if i > |a| { assert s[i] == c[i - |a| - 1]; }
    }
    assert s[0] == a[0] && s[|s| - 1] == c[|c| - 1];
  }

  /** to_str: missing values and the text 'nan' give None, anything else its str(). */
  function ToStr(v: Cell): (r: Cell)
    ensures r.Null? <==> IsMissing(v) || v == Str("nan")
    ensures r.Str? ==> r.s == Show(v)
  {
    if IsMissing(v) || v == Str("nan") then Null else Str(Show(v))
  }

  /** to_iso: missing values, and values the date parser refuses, give None. */
  function ToIso(v: Cell, toIso: Cell -> Option<string>): (r: Cell)
    ensures IsMissing(v) ==> r.Null?
    ensures r.Str? <==> !IsMissing(v) && toIso(v).Some?
    ensures r.Str? ==> r.s == toIso(v).value
  {
    if IsMissing(v) then Null
    else match toIso(v)
      case None => Null
      case Some(iso) => Str(iso)
  }

  // ---------------------------------------------------------------------
  // Reading

  /** The expected headers the sheet lacks, in the expected order. */
  function Missing(expected: seq<string>, present: seq<string>): (r: seq<string>)
    ensures forall x :: x in r <==> x in expected && x !in present
    ensures |r| <= |expected|
    ensures Subsequence(r, expected)
  {
    if expected == [] then []
    else
      var n := |expected| - 1;
      var init := Missing(expected[..n], present);
      assert expected == expected[..n] + [expected[n]];
      if expected[n] in present then
        SubsequenceExtend(init, expected[..n], expected[n]);
        init
      else
        SubsequenceSnoc(init, expected[..n], expected[n]);
        init + [expected[n]]
  }

  /**
   * read_and_clean_data: a missing file raises FileNotFoundError, a sheet that
   * lacks any expected header raises ValueError naming them all; otherwise the
   * sheet is returned as read.
   */
  function ReadAndClean(onDisk: bool, path: string, raw: Result<Sheet>): (r: Result<Sheet>)
    ensures r.Ok? <==> onDisk && raw.Ok? && forall c | c in ExpectedColumns :: c in raw.value.columns
    ensures r.Ok? ==> r == raw
    ensures !onDisk ==> r == Err(NotFoundPrefix + path)
  {
    if !onDisk then Err(NotFoundPrefix + path)
    else
      var s :- raw;
      var missing := Missing(ExpectedColumns, s.columns);
      if missing != [] then
        assert missing[0] in ExpectedColumns && missing[0] !in s.columns;
        Err(MissingPrefix + Join(missing, ", ") + MissingSuffix)
      else Ok(s)
  }

  // ---------------------------------------------------------------------
  // Records

  /** The converters a revision uses for money, dates and the raw JSON of a row. */
  datatype Conversions = Conversions(money: Cell -> Cell, toIso: Cell -> Option<string>, rawJson: Record -> string)

  /** The order id of a row, when it is not None and not empty (the row is skipped otherwise). */
  function RowOrderId(row: Record): Option<string>
  {
    var id := ToStr(Lookup(row, OrderId));
    if id.Str? && id.s != "" then Some(id.s) else None
  }

  /** (record field, sheet header) of the fields copied with to_str. */
  const TextFields: seq<(string, string)> := [
    ("loja_id", StoreId), ("nome_da_loja", StoreName), ("tipo_de_faturamento", BillingType),
    ("canal_de_vendas", SalesChannel), ("numero_pedido", OrderNumber),
    ("origem_de_forma_de_pagamento", PaymentOrigin), ("formas_de_pagamento", PaymentMethod)
  ]

  /** (record field, sheet header) of the fields converted with to_iso. */
  const DateFields: seq<(string, string)> := [
    ("data_do_pedido_ocorrencia", OrderDate), ("data_de_conclusao", ConfirmationDate), ("data_de_repasse", RepasseDate)
  ]

  /** (record field, sheet header) of the fields converted with to_float. */
  const MoneyFields: seq<(string, string)> := [
    ("total_do_pedido", TotalOrderValue), ("valor_dos_itens", ItemsValue),
    ("taxa_de_entrega", DeliveryFee), ("taxa_de_servico", ServiceFee),
    ("promocao_custeada_pelo_ifood", IfoodPromo), ("promocao_custeada_pela_loja", StorePromo),
    ("percentual_comissao_ifood", IfoodCommissionPerc), ("valor_comissao_ifood", IfoodCommissionValue),
    ("percentual_pela_transacao_do_pagamento", PaymentTxPerc), ("comissao_pela_transacao_do_pagamento", PaymentTxValue),
    ("percentual_taxa_plano_repasse_1_semana", RepassePlanPerc), ("valor_taxa_plano_repasse_1_semana", RepassePlanValue),
    ("base_de_calculo", CalcBase), ("valor_bruto", GrossValue),
    ("solicitacao_servicos_entrega_ifood", DeliveryRequest), ("desconto_solicitacao_entrega_ifood", DeliveryDiscount),
    ("valor_liquido", NetValue), ("valor_ocorrencia", EventValue)
  ]

  /** The record fields of `pairs`, each the converted value of its header in the row (row.get, so None when absent). */
  function Converted(pairs: seq<(string, string)>, row: Record, f: Cell -> Cell): Record
  {
    if pairs == [] then map[]
    else
      var n := |pairs| - 1;
      Converted(pairs[..n], row, f)[pairs[n].0 := f(Lookup(row, pairs[n].1))]
  }

  function Names(pairs: seq<(string, string)>): (names: seq<string>)
    ensures |names| == |pairs| && forall i | 0 <= i < |pairs| :: names[i] == pairs[i].0
  {
    seq(|pairs|, i requires 0 <= i < |pairs| => pairs[i].0)
  }

  /** With distinct field names, each field holds its own header's converted value. */
  lemma {:induction false} ConvertedValue(pairs: seq<(string, string)>, row: Record, f: Cell -> Cell, i: int)
    requires Distinct(Names(pairs)) && 0 <= i < |pairs|
    ensures pairs[i].0 in Converted(pairs, row, f) && Converted(pairs, row, f)[pairs[i].0] == f(Lookup(row, pairs[i].1))
    decreases |pairs|
  {
    var n := |pairs| - 1;
    if i < n {
      assert Names(pairs[..n]) == Names(pairs)[..n];
      assert Names(pairs)[i] != Names(pairs)[n];
      ConvertedValue(pairs[..n], row, f, i);
    }
  }

  /** The fields of a row's record that come from the row itself, converted. */
  function RowFields(row: Record, conv: Conversions): Record
  {
    Converted(TextFields, row, ToStr) + Converted(DateFields, row, (c: Cell) => ToIso(c, conv.toIso)) +
    Converted(MoneyFields, row, conv.money) + map["raw_data" := Str(conv.rawJson(row))]
  }

  /** The sales_data record of one row: its converted fields, tagged with the account, the file and the order id. */
  function SalesRecord(row: Record, orderId: string, account: string, fileId: string, conv: Conversions): (r: Record)
    ensures "account_id" in r && r["account_id"] == Str(account)
    ensures "received_file_id" in r && r["received_file_id"] == Str(fileId)
    ensures "pedido_id_completo" in r && r["pedido_id_completo"] == Str(orderId)
  {
    RowFields(row, conv) + map["account_id" := Str(account), "received_file_id" := Str(fileId), "pedido_id_completo" := Str(orderId)]
  }

  /** The record builder of one run: a row and its order id to the record stored. */
  function Builder(account: string, fileId: string, conv: Conversions): (Record, string) -> Record
  {
    (row, id) => SalesRecord(row, id, account, fileId, conv)
  }

  /** The records of the rows with an order id, in row order. */
  function SalesRecords(rows: seq<Record>, build: (Record, string) -> Record): (rs: seq<Record>)
    ensures |rs| <= |rows|
  {
    if rows == [] then []
    else
      var n := |rows| - 1;
      SalesRecords(rows[..n], build) +
        match RowOrderId(rows[n])
        case None => []
        case Some(id) => [build(rows[n], id)]
  }

  /** The record built from row i, when that row has an order id. */
  predicate RecordOfRow(r: Record, rows: seq<Record>, i: int, build: (Record, string) -> Record)
  {
    0 <= i < |rows| && RowOrderId(rows[i]).Some? && r == build(rows[i], RowOrderId(rows[i]).value)
  }

  /** Every row with an order id has its record among the records. */
  lemma {:induction false} SalesRecordsComplete(rows: seq<Record>, build: (Record, string) -> Record, i: int)
    requires 0 <= i < |rows| && RowOrderId(rows[i]).Some?
    ensures build(rows[i], RowOrderId(rows[i]).value) in SalesRecords(rows, build)
    decreases |rows|
  {
    var n := |rows| - 1;
    if i < n {
      assert rows[..n][i] == rows[i];
      SalesRecordsComplete(rows[..n], build, i);
    }
  }

  /** Every record is built from a row with an order id: the row it comes from. */
  lemma {:induction false} SalesRecordsSound(rows: seq<Record>, build: (Record, string) -> Record, r: Record) returns (i: int)
    requires r in SalesRecords(rows, build)
    ensures RecordOfRow(r, rows, i, build)
    decreases |rows|
  {
    var n := |rows| - 1;
    var last := match RowOrderId(rows[n]) case None => [] case Some(id) => [build(rows[n], id)];
    assert SalesRecords(rows, build) == SalesRecords(rows[..n], build) + last;
    if r in SalesRecords(rows[..n], build) {
      i := SalesRecordsSound(rows[..n], build, r);
      assert rows[..n][i] == rows[i];
    } else {
      i := n;
    }
  }

  /** Every record of a run carries the run's account and file and a non-empty order id. */
  lemma SalesRecordsTagged(rows: seq<Record>, account: string, fileId: string, conv: Conversions, r: Record)
    requires r in SalesRecords(rows, Builder(account, fileId, conv))
    ensures Lookup(r, "account_id") == Str(account) && Lookup(r, "received_file_id") == Str(fileId)
    ensures Lookup(r, "pedido_id_completo").Str? && Lookup(r, "pedido_id_completo").s != ""
  {
    var i := SalesRecordsSound(rows, Builder(account, fileId, conv), r);
    var id := RowOrderId(rows[i]).value;
    assert r == SalesRecord(rows[i], id, account, fileId, conv);
  }

  /** The loop over df.iterrows() that collects the records, skipping rows without an order id. */
  method BuildRecords(s: Sheet, build: (Record, string) -> Record) returns (records: seq<Record>)
    requires WellFormed(s)
    ensures records == SalesRecords(Records(s), build)
  {
    var rows := Records(s);
    records := [];
    var i := 0;
    while i < |rows|
      invariant 0 <= i <= |rows|
      invariant records == SalesRecords(rows[..i], build)
    {
      assert rows[..i + 1][..i] == rows[..i];
      var id := RowOrderId(rows[i]);
      if id.Some? {
        records := records + [build(rows[i], id.value)];
      }
      i := i + 1;
    }
    assert rows[..i] == rows;
  }

  // ---------------------------------------------------------------------
  // Writing

  /** With do-nothing on conflict, upserting records whose keys are all stored changes nothing. */
  lemma {:induction false} IgnoreStoredKeys(c: Contents, keyCols: seq<string>, rs: seq<Record>)
    requires KeysOf(rs, keyCols) <= c.rows.Keys
    ensures UpsertAll(c, keyCols, Ignore, rs) == c
    decreases |rs|
  {
    if rs != [] {
      KeysOfCons(rs, keyCols);
      assert KeyOf(rs[0], keyCols) in c.rows;
      IgnoreStoredKeys(c, keyCols, rs[1..]);
    }
  }

  /** Ingesting the same records again after a successful insert-or-ignore leaves the table exactly as the first time. */
  lemma ReingestChangesNothing(c: Contents, keyCols: seq<string>, rs: seq<Record>)
    ensures var once := UpsertAll(c, keyCols, Ignore, rs);
      UpsertAll(once, keyCols, Ignore, rs) == once
  {
    UpsertAllKeys(c, keyCols, Ignore, rs);
    IgnoreStoredKeys(UpsertAll(c, keyCols, Ignore, rs), keyCols, rs);
  }

  /**
   * save_sales_data_to_db: no call at all when no row has an order id;
   * otherwise one insert-or-ignore upsert of every record on
   * (account_id, pedido_id_completo), whose failure is raised.  Rows stored
   * before are never changed.
   */
  method SaveSalesDataToDb(t: Table, account: string, fileId: string, s: Sheet, conv: Conversions) returns (out: Outcome)
    requires t.Valid() && t.keyCols == SalesConflict && WellFormed(s)
    modifies t
    ensures t.Valid()
    ensures var recs := SalesRecords(Records(s), Builder(account, fileId, conv));
      recs == [] ==> out == Done && t.Value() == old(t.Value()) && t.calls == old(t.calls)
    ensures var recs := SalesRecords(Records(s), Builder(account, fileId, conv));
      recs != [] ==> t.calls == old(t.calls) + 1
    ensures var recs := SalesRecords(Records(s), Builder(account, fileId, conv));
      recs != [] && out.Done? ==> t.Value() == UpsertAll(old(t.Value()), SalesConflict, Ignore, recs)
    ensures var recs := SalesRecords(Records(s), Builder(account, fileId, conv));
      recs != [] ==> out == if old(t.calls) in t.failing then Raised(t.failing[old(t.calls)]) else Done
    ensures out.Raised? ==> t.Value() == old(t.Value())
    ensures Keeps(old(t.rows), t.rows)
  {
    var records := BuildRecords(s, Builder(account, fileId, conv));
    if records == [] {
      return Done;
    }
    IgnoreKeepsStored(t.Value(), SalesConflict, records);
    out := t.Upsert(records, Ignore);
  }

  // ---------------------------------------------------------------------
  // Daily KPIs

  /** One call of the KPI procedure: the account and the dates, as 'YYYY-MM-DD'. */
  datatype KpiCall = KpiCall(procedure: string, account: string, dates: seq<string>)

  /** The database's remote procedures; call number n fails when n is a key of `failing`. */
  class Procedures {
    var calls: seq<KpiCall>
    const failing: map<nat, string>

    constructor (failing: map<nat, string>)
      ensures calls == [] && this.failing == failing
    {
      this.failing := failing;
      calls := [];
    }

    /** supabase.rpc(name, {'p_account_id': account, 'p_dates': dates}).execute() */
    method Call(name: string, account: string, dates: seq<string>) returns (out: Outcome)
      modifies this
      ensures calls == old(calls) + [KpiCall(name, account, dates)]
      ensures out == if |old(calls)| in failing then Raised(failing[|old(calls)|]) else Done
    {
      out := if |calls| in failing then Raised(failing[|calls|]) else Done;
      calls := calls + [KpiCall(name, account, dates)];
    }
  }

  /**
   * The kpi_date cell of an order date: pd.to_datetime(errors='coerce').dt.date,
   * shown as 'YYYY-MM-DD' (toDate gives that text, or None where the value
   * is not a date); missing and refused values are NaT.
   */
  function KpiCell(c: Cell, toDate: Cell -> Option<string>): (r: Cell)
    ensures r.NaT? || r.Str?
  {
    if IsMissing(c) then NaT
    else match toDate(c)
      case None => NaT
      case Some(d) => Str(d)
  }

  function KpiColumn(col: seq<Cell>, toDate: Cell -> Option<string>): (r: seq<Cell>)
    ensures |r| == |col| && forall i | 0 <= i < |col| :: r[i] == KpiCell(col[i], toDate)
  {
    seq(|col|, i requires 0 <= i < |col| => KpiCell(col[i], toDate))
  }

  /** The positions of the rows that dropna keeps: those whose cell is not missing. */
  function Present(col: seq<Cell>): (rows: seq<nat>)
    ensures forall k | 0 <= k < |rows| :: rows[k] < |col| && !IsMissing(col[rows[k]])
    ensures forall i | 0 <= i < |col| && !IsMissing(col[i]) :: i in rows
  {
    if col == [] then []
    else
      var n := |col| - 1;
      Present(col[..n]) + (if IsMissing(col[n]) then [] else [n])
  }

  /** The texts of a column of date strings. */
  function Texts(col: seq<Cell>): (r: seq<string>)
    ensures |r| == |col|
    ensures forall i | 0 <= i < |col| && col[i].Str? :: r[i] == col[i].s
  {
    seq(|col|, i requires 0 <= i < |col| => if col[i].Str? then col[i].s else "")
  }

  /** Series.unique(): the distinct values, in order of first appearance. */
  function Unique(xs: seq<string>): (r: seq<string>)
    ensures Distinct(r)
    ensures forall x :: x in r <==> x in xs
  {
    if xs == [] then []
    else
      var n := |xs| - 1;
      var u := Unique(xs[..n]);
      assert xs == xs[..n] + [xs[n]];
      if xs[n] in u then u else u + [xs[n]]
  }

  /** df[name] after rows are taken is the taken cells of df[name]. */
  lemma TakenColumn(s: Sheet, rows: seq<nat>, name: string)
    requires WellFormed(s) && name in s.columns && forall k | 0 <= k < |rows| :: rows[k] < |s.index|
    ensures var r := TakeRows(s, rows);
      |Column(r, name)| == |rows| && forall k | 0 <= k < |rows| :: Column(r, name)[k] == Column(s, name)[rows[k]]
  {
  }

  /** The dates sent: those of the order-date cells that parse, each once. */
  function KpiDates(orderDates: seq<Cell>, toDate: Cell -> Option<string>): seq<string>
  {
    var col := KpiColumn(orderDates, toDate);
    var kept := Present(col);
    Unique(Texts(seq(|kept|, k requires 0 <= k < |kept| => col[kept[k]])))
  }

  /** A date is sent exactly when some row's order date parses to it, and no date is sent twice. */
  lemma KpiDatesExact(orderDates: seq<Cell>, toDate: Cell -> Option<string>, d: string)
    ensures Distinct(KpiDates(orderDates, toDate))
    ensures d in KpiDates(orderDates, toDate) <==>
      exists i | 0 <= i < |orderDates| :: !IsMissing(orderDates[i]) && toDate(orderDates[i]) == Some(d)
  {
    var col := KpiColumn(orderDates, toDate);
    var kept := Present(col);
    var taken := seq(|kept|, k requires 0 <= k < |kept| => col[kept[k]]);
    var texts := Texts(taken);
    if d in texts {
      var k :| 0 <= k < |texts| && texts[k] == d;
      assert taken[k] == col[kept[k]] && !IsMissing(col[kept[k]]);
      assert !IsMissing(orderDates[kept[k]]) && toDate(orderDates[kept[k]]) == Some(d);
    }
    if exists i | 0 <= i < |orderDates| :: !IsMissing(orderDates[i]) && toDate(orderDates[i]) == Some(d) {
      var i :| 0 <= i < |orderDates| && !IsMissing(orderDates[i]) && toDate(orderDates[i]) == Some(d);
      assert col[i] == Str(d);
      assert i in kept;
      var k :| 0 <= k < |kept| && kept[k] == i;
      assert texts[k] == d;
    }
  }

  /**
   * update_daily_kpis: the frame gains a kpi_date column and loses the rows
   * where it is NaT; the remaining distinct dates go to the KPI procedure in
   * one call, and no call is made when there are none.  A failing call is
   * raised.  A frame without the order-date header raises KeyError.
   */
  method UpdateDailyKpis(df: Frame, rpc: Procedures, account: string, toDate: Cell -> Option<string>) returns (out: Outcome)
    requires df.Valid()
    modifies df, rpc
    ensures df.Valid()
    ensures OrderDate !in old(df.columns) ==> out == Raised("'" + OrderDate + "'") && rpc.calls == old(rpc.calls)
    ensures OrderDate in old(df.columns) ==>
      var col := KpiColumn(Column(old(df.Value()), OrderDate), toDate);
      df.Value() == TakeRows(WithColumn(old(df.Value()), KpiDateColumn, col), Present(col))
    ensures OrderDate in old(df.columns) && KpiDates(Column(old(df.Value()), OrderDate), toDate) == [] ==>
      out == Done && rpc.calls == old(rpc.calls)
    ensures OrderDate in old(df.columns) && KpiDates(Column(old(df.Value()), OrderDate), toDate) != [] ==>
      rpc.calls == old(rpc.calls) + [KpiCall(KpiProcedure, account, KpiDates(Column(old(df.Value()), OrderDate), toDate))]
    ensures OrderDate in old(df.columns) && KpiDates(Column(old(df.Value()), OrderDate), toDate) != [] ==>
      out == if |old(rpc.calls)| in rpc.failing then Raised(rpc.failing[|old(rpc.calls)|]) else Done
  {
    if OrderDate !in df.columns {
      return Raised("'" + OrderDate + "'");
    }
    var col := KpiColumn(Column(df.Value(), OrderDate), toDate);
    df.SetColumn(KpiDateColumn, col);
    var kept := Present(col);
    assert Column(df.Value(), KpiDateColumn) == col;
    TakenColumn(df.Value(), kept, KpiDateColumn);
    df.Assign(TakeRows(df.Value(), kept));
    var remaining := Column(df.Value(), KpiDateColumn);
    assert remaining == seq(|kept|, k requires 0 <= k < |kept| => col[kept[k]]);
    var dates := Unique(Texts(remaining));
    if dates == [] {
      return Done;
    }
    out := rpc.Call(KpiProcedure, account, dates);
  }

  /** The middle of a run: the sales are saved, then the KPIs of their dates recalculated; the first exception ends it. */
  method SaveAndRecalculate(t: Table, rpc: Procedures, account: string, fileId: string, s: Sheet,
                            conv: Conversions, toDate: Cell -> Option<string>)
    returns (out: Outcome)
    requires t.Valid() && t.keyCols == SalesConflict && WellFormed(s)
    modifies t, rpc
    ensures t.Valid()
    ensures Keeps(old(t.rows), t.rows)
  {
    var df := new Frame(s);
    out := SaveSalesDataToDb(t, account, fileId, s, conv);
    if out.Raised? {
      return;
    }
    out := UpdateDailyKpis(df, rpc, account, toDate);
  }

  // ---------------------------------------------------------------------
  // File status and the run

  /** The fields update_file_status writes: status, the time, and the error text or null. */
  function StatusFields(status: string, errorMessage: Option<string>, now: string): (r: Record)
    ensures "status" in r && r["status"] == Str(status)
    ensures "processed_at" in r && r["processed_at"] == Str(now)
    ensures "error_message" in r && r["error_message"] == (if errorMessage.Some? then Str(errorMessage.value) else Null)
  {
    map["status" := Str(status), "processed_at" := Str(now),
        "error_message" := if errorMessage.Some? then Str(errorMessage.value) else Null]
  }

  /** update_file_status: one update of the file's row, whose failure is raised to the caller. */
  method UpdateFileStatus(files: FileTable, id: string, status: string, errorMessage: Option<string>, now: string)
    returns (out: Outcome)
    modifies files
    ensures out == if old(files.calls) in files.failing then Raised(files.failing[old(files.calls)]) else Done
    ensures files.writes == old(files.writes) + [Write(id, StatusFields(status, errorMessage, now), out.Done?)]
    ensures files.calls == old(files.calls) + 1
    ensures files.rows.Keys == old(files.rows).Keys
    ensures files.rows == if out.Raised? || id !in old(files.rows) then old(files.rows)
      else old(files.rows)[id := old(files.rows)[id] + StatusFields(status, errorMessage, now)]
  {
    out := files.Update(id, StatusFields(status, errorMessage, now));
  }

  /** How process_financial_report ends: normally, by sys.exit(1) after marking the file, or by an exception from that marking. */
  datatype Ending = Completed | ExitedWithError(cause: string) | Propagated(cause: string, raised: string)

  /** The inputs of one run that come from outside: the file on disk, the sheet read, the converters, the clock. */
  datatype Inputs = Inputs(path: string, onDisk: bool, raw: Result<Sheet>, conv: Conversions,
                           toDate: Cell -> Option<string>, now: seq<string>)

  /** The five steps up to the final status; the first exception, if any, and which status updates were made. */
  method Steps(files: FileTable, t: Table, rpc: Procedures, account: string, fileId: string, inp: Inputs)
    returns (out: Outcome, processedTried: bool)
    requires t.Valid() && t.keyCols == SalesConflict && |inp.now| >= 2
    requires inp.raw.Ok? ==> WellFormed(inp.raw.value)
    modifies files, t, rpc
    ensures t.Valid()
    ensures files.writes == old(files.writes) + [Write(fileId, StatusFields(ProcessingStatus, None, inp.now[0]), old(files.calls) !in files.failing)] +
      (if processedTried then [Write(fileId, StatusFields(ProcessedStatus, None, inp.now[1]), out.Done?)] else [])
    ensures out.Done? ==> processedTried
    ensures processedTried ==> old(files.calls) !in files.failing && ReadAndClean(inp.onDisk, inp.path, inp.raw).Ok?
    ensures ReadAndClean(inp.onDisk, inp.path, inp.raw).Err? && old(files.calls) !in files.failing ==>
      out == Raised(ReadAndClean(inp.onDisk, inp.path, inp.raw).msg)
    ensures Keeps(old(t.rows), t.rows)
  {
    processedTried := false;
    out := UpdateFileStatus(files, fileId, ProcessingStatus, None, inp.now[0]);
    if out.Raised? {
      return;
    }
    var read := ReadAndClean(inp.onDisk, inp.path, inp.raw);
    if read.Err? {
      return Raised(read.msg), false;
    }
    out := SaveAndRecalculate(t, rpc, account, fileId, read.value, inp.conv, inp.toDate);
    if out.Raised? {
      return;
    }
    processedTried := true;
    out := UpdateFileStatus(files, fileId, ProcessedStatus, None, inp.now[1]);
  }

  lemma TwoStatuses(a: Write, b: Write, id: string)
    requires a.id == id && b.id == id
    ensures Statuses([a, b], id) == [Lookup(a.fields, "status"), Lookup(b.fields, "status")]
  {
    assert [a][..0] == [];
    assert Statuses([a], id) == [Lookup(a.fields, "status")];
    assert [a, b][..1] == [a];
  }

  /**
   * process_financial_report: 'processing', read, save, KPIs, 'processed';
   * the first exception marks the file 'error' with its text and exits
   * with status 1, unless that last update raises in turn.
   */
  method ProcessFinancialReport(files: FileTable, t: Table, rpc: Procedures, account: string, fileId: string, inp: Inputs)
    returns (ending: Ending)
    requires t.Valid() && t.keyCols == SalesConflict && |inp.now| >= 3
    requires inp.raw.Ok? ==> WellFormed(inp.raw.value)
    modifies files, t, rpc
    ensures t.Valid()
    ensures |files.writes| > |old(files.writes)| && files.writes[|old(files.writes)|] == Write(fileId, StatusFields(ProcessingStatus, None, inp.now[0]), old(files.calls) !in files.failing)
    ensures ending.Completed? ==> Statuses(files.writes, fileId) == Statuses(old(files.writes), fileId) + [Str(ProcessingStatus), Str(ProcessedStatus)]
    ensures !ending.Completed? ==>
      files.writes[|files.writes| - 1] == Write(fileId, StatusFields(ErrorStatus, Some(ending.cause), inp.now[2]), ending.ExitedWithError?)
    ensures ReadAndClean(inp.onDisk, inp.path, inp.raw).Err? ==> !ending.Completed?
    ensures Keeps(old(t.rows), t.rows)
  {
    var out, processedTried := Steps(files, t, rpc, account, fileId, inp);
    if out.Done? {
      var w0 := Write(fileId, StatusFields(ProcessingStatus, None, inp.now[0]), true);
      var w1 := Write(fileId, StatusFields(ProcessedStatus, None, inp.now[1]), true);
      assert files.writes == old(files.writes) + [w0, w1];
      StatusesAppend(old(files.writes), [w0, w1], fileId);
      TwoStatuses(w0, w1, fileId);
      return Completed;
    }
    var marked := UpdateFileStatus(files, fileId, ErrorStatus, Some(out.msg), inp.now[2]);
    if marked.Raised? {
      return Propagated(out.msg, marked.msg);
    }
    ending := ExitedWithError(out.msg);
  }
}
