/**
 * The current import of iFood conciliation reports: the second sheet of the
 * workbook is read, missing values become None, the headers are renamed to
 * the table's 30 columns, date, id and value columns are converted, every
 * row gets a row_key (a SHA-256 of its canonical values) and rows with a
 * repeated key are dropped keeping the first.  The rows are then stamped
 * with the account, the file and a fresh id, serialised into raw_data and
 * upserted on row_key in batches of 100.  The file's status goes
 * 'processing', then 'processed' or 'error'; nothing is re-raised.
 *
 * The date parser, the hash, the id generator and the JSON encoder are
 * parameters; the logger is not modelled.
 */
module Conciliation {
  import opened Wrappers
  import opened Text
  import opened Numbers
  import opened Cells
  import opened Frames
  import opened Tables
  import opened Files
  import opened JsonValues
  import Seqs
  import LegacyReport
  import ReportParsers
  import ReportReader

  /** The spreadsheet headers and the table columns they become, in table order. */
  const Mapping: seq<(string, string)> := [
    ("competencia", "competence_date"),
    ("data_fato_gerador", "event_date"),
    ("fato_gerador", "event_trigger"),
    ("tipo_lancamento", "transaction_type"),
    ("descricao_lancamento", "transaction_description"),
    ("valor", "gross_value"),
    ("base_calculo", "calculation_base_value"),
    ("percentual_taxa", "tax_percentage"),
    ("pedido_associado_ifood", "ifood_order_id"),
    ("pedido_associado_ifood_curto", "ifood_order_id_short"),
    ("pedido_associado_externo", "external_order_id"),
    ("motivo_cancelamento", "cancellation_reason"),
    ("descricao_ocorrencia", "occurrence_description"),
    ("data_criacao_pedido_associado", "order_creation_date"),
    ("data_repasse_esperada", "expected_payment_date"),
    ("valor_transacao", "transaction_value"),
    ("loja_id", "store_id"),
    ("loja_id_curto", "store_id_short"),
    ("loja_id_externo", "store_id_external"),
    ("cnpj", "cnpj"),
    ("titulo", "title"),
    ("data_faturamento", "billing_date"),
    ("data_apuracao_inicio", "settlement_start_date"),
    ("data_apuracao_fim", "settlement_end_date"),
    ("valor_cesta_inicial", "initial_basket_value"),
    ("valor_cesta_final", "final_basket_value"),
    ("responsavel_transacao", "transaction_responsible"),
    ("canal_vendas", "sales_channel"),
    ("impacto_no_repasse", "payment_impact"),
    ("parcela_pagamento", "payment_installment")
  ]

  const DateColumns := ["competence_date", "event_date", "order_creation_date", "expected_payment_date",
                        "billing_date", "settlement_start_date", "settlement_end_date"]

  const IdColumns := ["ifood_order_id", "ifood_order_id_short", "external_order_id",
                      "store_id", "store_id_short", "store_id_external", "cnpj"]

  const ValueColumns := ["gross_value", "calculation_base_value", "tax_percentage", "transaction_value",
                         "initial_basket_value", "final_basket_value"]

  const RowKeyColumn := "row_key"
  const BatchSize := 100

  const Processing := "processing"
  const Processed := "processed"
  const Error := "error"
  const EncodingPrefix := "Falha de encoding: "
  const EmptyDetails := "O arquivo Excel est\U{E1} vazio ou n\U{E3}o cont\U{E9}m dados na segunda aba."
  const FatalPrefix := "Erro fatal no processamento: "

  // ---------------------------------------------------------------------
  // Headers

  /** The table columns of a mapping, in its order. */
  function Targets(pairs: seq<(string, string)>): (r: seq<string>)
    ensures |r| == |pairs| && forall i | 0 <= i < |pairs| :: r[i] == pairs[i].1
  {
    if pairs == [] then [] else [pairs[0].1] + Targets(pairs[1..])
  }

  /**
   * Which headers become which columns and which columns each conversion
   * loop treats.  The program has one layout, Current; the reading steps
   * are stated for any layout so that its long lists stay out of their proofs.
   */
  datatype Layout = Layout(mapping: seq<(string, string)>, dates: seq<string>, ids: seq<string>, values: seq<string>)

  const Current := Layout(Mapping, DateColumns, IdColumns, ValueColumns)

  /** The columns kept after renaming: list(COLUMNS_MAPPING.values()). */
  function Finals(l: Layout): seq<string>
  {
    Targets(l.mapping)
  }

  /** dict.get(c, c) on a mapping: a header it lists becomes its column, any other is kept. */
  function Renamed(pairs: seq<(string, string)>, c: string): (r: string)
    ensures (forall i | 0 <= i < |pairs| :: pairs[i].0 != c) ==> r == c
    ensures (exists i | 0 <= i < |pairs| :: pairs[i].0 == c) ==>
      exists i | 0 <= i < |pairs| :: pairs[i] == (c, r)
  {
    if pairs == [] then c
    else if pairs[0].0 == c then pairs[0].1
    else
      var r := Renamed(pairs[1..], c);
      assert forall i | 0 <= i < |pairs[1..]| :: pairs[1..][i] == pairs[i + 1];
      r
  }

  /** df.rename(columns=mapping) applied to one header. */
  function Renamer(l: Layout): string -> string
  {
    c => Renamed(l.mapping, c)
  }

  /**
   * What the proofs need of a layout: no column listed twice in a loop, no
   * column in two loops, and no mapped column called row_key.
   */
  predicate Apart(l: Layout)
  {
    Seqs.Distinct(l.dates) && Seqs.Distinct(l.ids) && Seqs.Distinct(l.values) &&
    (forall c | c in l.dates :: c !in l.ids && c !in l.values) &&
    (forall c | c in l.ids :: c !in l.values) &&
    forall k | 0 <= k < |l.mapping| :: l.mapping[k].1 != RowKeyColumn
  }

  lemma CurrentApart()
    ensures Apart(Current)
  {
    DatesDistinct();
    IdsDistinct();
    ValuesDistinct();
    DatesElsewhere();
    IdsElsewhere();
    NoMappedRowKey();
  }

  lemma DatesDistinct()
    ensures Seqs.Distinct(DateColumns)
  {
  }

  lemma IdsDistinct()
    ensures Seqs.Distinct(IdColumns)
  {
  }

  lemma ValuesDistinct()
    ensures Seqs.Distinct(ValueColumns)
  {
  }

  lemma DatesElsewhere()
    ensures forall c | c in DateColumns :: c !in IdColumns && c !in ValueColumns
  {
  }

  lemma IdsElsewhere()
    ensures forall c | c in IdColumns :: c !in ValueColumns
  {
  }

  lemma NoMappedRowKey()
    ensures forall k | 0 <= k < |Mapping| :: Mapping[k].1 != RowKeyColumn
  {
  }

  /** row_key is none of the kept columns. */
  lemma RowKeyNotFinal(l: Layout)
    requires Apart(l)
    ensures RowKeyColumn !in Finals(l)
  {
  }

  // ---------------------------------------------------------------------
  // Cells

  /** Replacing NaN by None: every missing marker becomes None. */
  function NoneForMissing(c: Cell): (r: Cell)
    ensures IsMissing(c) ==> r == Null
    ensures !IsMissing(c) ==> r == c
  {
    if IsMissing(c) then Null else c
  }

  /** A date column's cell: pd.to_datetime(errors='coerce') then isoformat, None for what does not parse. */
  function DateCell(c: Cell, toIso: Cell -> Option<string>): (r: Cell)
    ensures IsMissing(c) ==> r == Null
    ensures r.Str? <==> !IsMissing(c) && toIso(c).Some?
    ensures r.Str? ==> r.s == toIso(c).value
  {
    LegacyReport.ToIso(c, toIso)
  }

  /** str.replace(r'\.0$', ''): one trailing ".0" removed. */
  function DropPointZero(t: string): (r: string)
    ensures EndsWith(t, ".0") ==> r + ".0" == t
    ensures !EndsWith(t, ".0") ==> r == t
  {
    if EndsWith(t, ".0") then t[..|t| - 2] else t
  }

  /**
   * An id column's cell: astype(str), one trailing ".0" removed, and the
   * text 'None' (which is what a None cell becomes) turned back into None.
   */
  function IdCell(c: Cell): (r: Cell)
    ensures r.Null? <==> DropPointZero(Show(c)) == "None"
    ensures r.Str? ==> r.s == DropPointZero(Show(c))
    ensures r.Null? || r.Str?
    ensures c.Null? ==> r.Null?
    ensures c.Str? && !EndsWith(c.s, ".0") && c.s != "None" ==> r == c
  {
    var t := DropPointZero(Show(c));
    if t == "None" then Null else Str(t)
  }

  /** An id read as a whole float keeps its digits: 123.0 is stored as '123'. */
  lemma WholeIdKeepsDigits(m: nat)
    ensures IdCell(Num(Decimal(m, 0))) == Str(NatStr(m))
  {
    var d := Decimal(m, 0);
    var t := NatStr(m);
    assert Show(Num(d)) == t + ".0" by {
      assert Normalize(d) == d;
      assert PaddedDigits(m, 0) == t;
      assert IntPart(m, 0) == t;
      assert FracPart(m, 0) == "0";
    }
    assert DropPointZero(t + ".0") == t by {
      assert (t + ".0")[..|t|] == t;
    }
    assert t != "None" by {
      assert IsDigit(t[0]);
    }
  }

  /** The characters a value column keeps: digits, ',' and '-'. */
  predicate ValueChar(ch: char) { IsDigit(ch) || ch == ',' || ch == '-' }

  /** str.replace(r'[^0-9,-]', ''): every other character deleted, the rest kept in order. */
  function KeepValueChars(t: string): (r: string)
    ensures forall i | 0 <= i < |r| :: ValueChar(r[i])
    ensures |r| <= |t|
    decreases |t|
  {
    if t == [] then []
    else (if ValueChar(t[0]) then [t[0]] else []) + KeepValueChars(t[1..])
  }

  /** A dot never survives the filter. */
  lemma NoDotKept(t: string)
    ensures '.' !in KeepValueChars(t)
  {
    var r := KeepValueChars(t);
    assert forall i | 0 <= i < |r| :: r[i] != '.';
  }

  /** Text made only of digits, ',' and '-' passes the filter unchanged. */
  lemma {:induction false} KeepValueCharsAll(t: string)
    requires forall i | 0 <= i < |t| :: ValueChar(t[i])
    ensures KeepValueChars(t) == t
    decreases |t|
  {
    if t != [] {
      KeepValueCharsAll(t[1..]);
      assert t == [t[0]] + t[1..];
    }
  }

  /** Filtering a concatenation filters each part. */
  lemma {:induction false} KeepValueCharsAppend(a: string, b: string)
    ensures KeepValueChars(a + b) == KeepValueChars(a) + KeepValueChars(b)
    decreases |a|
  {
    if a != [] {
      assert (a + b)[1..] == a[1..] + b;
      KeepValueCharsAppend(a[1..], b);
    } else {
      assert a + b == b;
    }
  }

  /** Text with no digit, ',' or '-' (a currency symbol, blanks, dots) is deleted entirely. */
  lemma {:induction false} KeepValueCharsNone(t: string)
    requires forall i | 0 <= i < |t| :: !ValueChar(t[i])
    ensures KeepValueChars(t) == []
    decreases |t|
  {
    if t != [] {
      KeepValueCharsNone(t[1..]);
    }
  }

  /** The text a value cell is converted from: filtered, then ',' made the decimal point. */
  function ValueText(c: Cell): string
  {
    ReplaceChar(KeepValueChars(Show(c)), ',', '.')
  }

  /**
   * A value column's cell as the code converts it: astype(str), the filter,
   * ',' to '.', then pd.to_numeric(errors='coerce'): NaN where no number is read.
   */
  function ValueAsWritten(c: Cell): (r: Cell)
    ensures r.NaN? <==> ParseFloat(ValueText(c)).None?
    ensures r.Num? ==> r.n == ParseFloat(ValueText(c)).value && Canonical(r.n)
  {
    match ParseFloat(ValueText(c))
    case None => NaN
    case Some(x) => Num(x)
  }

  /**
   * A value column's cell as intended: a number the sheet already holds
   * keeps its value; text goes through the filter as in ValueAsWritten.
   */
  function ValueCell(c: Cell): (r: Cell)
    ensures r.NaN? || (r.Num? && Canonical(r.n))
    ensures c.Num? ==> r == NumCell(c.n)
    ensures !c.Num? ==> r == ValueAsWritten(c)
  {
    if c.Num? then NumCell(c.n) else ValueAsWritten(c)
  }

  /** A missing value (None after the first step) is read as NaN. */
  lemma MissingValueIsNaN()
    ensures ValueAsWritten(Null) == NaN
  {
    assert Show(Null) == "None";
    KeepValueCharsNone("None");
  }

  /** Digits pass the filter unchanged. */
  lemma DigitsKept(a: string)
    requires AllDigits(a)
    ensures KeepValueChars(a) == a
  {
    KeepValueCharsAll(a);
  }

  /** The filter on digits, a dot and digits keeps the two runs of digits. */
  lemma PointDropped(a: string, b: string)
    requires AllDigits(a) && AllDigits(b)
    ensures KeepValueChars(a + "." + b) == a + b
  {
    KeepValueCharsAppend(a + ".", b);
    KeepValueCharsAppend(a, ".");
    KeepValueCharsNone(".");
    DigitsKept(a);
    DigitsKept(b);
  }

  /**
   * A Brazilian amount with a currency prefix is read with its thousands
   * dots dropped and its comma as the decimal point: 'R$ 1.500,00' is 1500.
   */
  lemma BrazilianAmountRead(a: string, b: string, c: string)
    requires AllDigits(a) && AllDigits(b) && AllDigits(c) && |a| > 0 && |c| > 0
    ensures AllDigits(a + b + c)
    ensures ValueAsWritten(Str("R$ " + a + "." + b + "," + c)) == NumCell(Decimal(DigitsValue(a + b + c), |c|))
  {
    BrazilianValueText(a, b, c);
    ReportParsers.PointRead(a + b, c);
  }

  /** The text read from a Brazilian amount: the thousands dot and the prefix gone, the comma made a point. */
  lemma BrazilianValueText(a: string, b: string, c: string)
    requires AllDigits(a) && AllDigits(b) && AllDigits(c)
    ensures AllDigits(a + b)
    ensures ValueText(Str("R$ " + a + "." + b + "," + c)) == a + b + "." + c
  {
    var s := "R$ " + a + "." + b + "," + c;
    AllDigitsConcat(a, b);
    assert KeepValueChars(s) == a + b + "," + c by {
      assert s == "R$ " + (a + "." + (b + "," + c));
      KeepValueCharsAppend("R$ ", a + "." + (b + "," + c));
      KeepValueCharsNone("R$ ");
      CommaKept(b, c);
      PointDroppedBefore(a, b + "," + c);
      assert a + (b + "," + c) == a + b + "," + c;
    }
    ReportParsers.CommaReplaced(a + b, c);
  }

  /** Digits, a comma and digits pass the filter unchanged. */
  lemma CommaKept(b: string, c: string)
    requires AllDigits(b) && AllDigits(c)
    ensures KeepValueChars(b + "," + c) == b + "," + c
  {
    var t := b + "," + c;
    assert forall i | 0 <= i < |t| :: ValueChar(t[i]) by {
      forall i | 0 <= i < |t| ensures ValueChar(t[i]) {
        if i < |b| {
          assert t[i] == b[i];
        } else if i > |b| {
          assert t[i] == c[i - |b| - 1];
        }
      }
    }
    KeepValueCharsAll(t);
  }

  /** Digits and a dot in front of text the filter keeps lose only the dot. */
  lemma PointDroppedBefore(a: string, rest: string)
    requires AllDigits(a) && KeepValueChars(rest) == rest
    ensures KeepValueChars(a + "." + rest) == a + rest
  {
    KeepValueCharsAppend(a + ".", rest);
    KeepValueCharsAppend(a, ".");
    KeepValueCharsNone(".");
    DigitsKept(a);
  }

  /**
   * As written, a number the sheet already holds loses its decimal point:
   * str() prints it with a '.', the filter deletes the '.', and the digits
   * are read as a whole number (12.5 becomes 125, and 100.0 becomes 1000).
   */
  lemma ValueAsWrittenShiftsNumbers(n: Decimal)
    requires Canonical(n) && n.mant >= 0
    ensures ValueAsWritten(Num(n)) == Num(Decimal(if n.scale == 0 then 10 * n.mant else n.mant, 0))
  {
    var a: nat := n.mant;
    var ip, fp := IntPart(a, n.scale), FracPart(a, n.scale);
    var t := ip + fp;
    assert Show(Num(n)) == ip + "." + fp by {
      assert Normalize(n) == n;
      assert Abs(n.mant) == a;
    }
    assert ValueText(Num(n)) == t by {
      PointDropped(ip, fp);
      DigitsNoChar(t, ',');
      ReplaceCharAbsent(t, ',', '.');
    }
    PartsValue(a, n.scale);
    assert ParseFloat(t) == Some(Decimal(DigitsValue(t), 0)) by {
      assert IsDigit(t[0]) && IsDigit(t[|t| - 1]);
      ParsesDigitsFirst(t);
      DigitsNoChar(t, '.');
    }
  }

  /** The case that shows it: a sheet holding 12.5 stores 125. */
  lemma TwelveAndAHalfStoredAs125()
    ensures ValueAsWritten(Num(Decimal(125, 1))) == Num(Decimal(125, 0))
    ensures ValueCell(Num(Decimal(125, 1))) == Num(Decimal(125, 1))
  {
    ValueAsWrittenShiftsNumbers(Decimal(125, 1));
  }

  /** The corrected conversion keeps the value of every number and reads every other cell as the code does. */
  lemma ValueCellKeepsNumbers(c: Cell)
    ensures c.Num? ==> ValueCell(c).Num? && SameValue(ValueCell(c).n, c.n)
    ensures !c.Num? ==> ValueCell(c) == ValueAsWritten(c)
  {
    if c.Num? {
      NormalizeSameValue(c.n);
    }
  }

  // ---------------------------------------------------------------------
  // Reading and cleaning

  /** The sheet with every missing marker made None. */
  function MissingAsNone(s: Sheet): (r: Sheet)
    requires WellFormed(s)
    ensures WellFormed(r) && r.columns == s.columns && r.index == s.index
    ensures forall j | 0 <= j < |s.data| :: r.data[j] == MapCells(s.data[j], NoneForMissing)
  {
    Sheet(s.columns, seq(|s.data|, j requires 0 <= j < |s.data| => MapCells(s.data[j], NoneForMissing)), s.index)
  }

  /** Each listed column the sheet has, in list order, mapped cell by cell through f. */
  function ConvertAll(s: Sheet, cols: seq<string>, f: Cell -> Cell): (r: Sheet)
    requires WellFormed(s)
    ensures WellFormed(r) && r.columns == s.columns && r.index == s.index
    decreases |cols|
  {
    if cols == [] then s
    else
      var prev := ConvertAll(s, cols[..|cols| - 1], f);
      var c := cols[|cols| - 1];
      if c in prev.columns then WithColumn(prev, c, MapCells(Column(prev, c), f)) else prev
  }

  /** A column listed once is converted once; an unlisted column is untouched. */
  lemma {:induction false} ConvertAllColumn(s: Sheet, cols: seq<string>, f: Cell -> Cell, c: string)
    requires WellFormed(s) && c in s.columns && Seqs.Distinct(cols)
    ensures Column(ConvertAll(s, cols, f), c) == if c in cols then MapCells(Column(s, c), f) else Column(s, c)
    decreases |cols|
  {
    if cols != [] {
      var n := |cols| - 1;
      assert Seqs.Distinct(cols[..n]);
      ConvertAllColumn(s, cols[..n], f, c);
      assert cols == cols[..n] + [cols[n]];
      if c == cols[n] {
        assert c !in cols[..n];
      }
    }
  }

  function DateOf(toIso: Cell -> Option<string>): Cell -> Cell
  {
    x => DateCell(x, toIso)
  }

  /** The date, id and value loops, in that order. */
  function Converted(s: Sheet, l: Layout, toIso: Cell -> Option<string>): (r: Sheet)
    requires WellFormed(s)
    ensures WellFormed(r) && r.columns == s.columns && r.index == s.index
  {
    ConvertAll(ConvertAll(ConvertAll(s, l.dates, DateOf(toIso)), l.ids, IdCell), l.values, ValueAsWritten)
  }

  /** What happens to one cell of the named column. */
  function ConvertCell(c: string, x: Cell, l: Layout, toIso: Cell -> Option<string>): Cell
  {
    if c in l.dates then DateCell(x, toIso)
    else if c in l.ids then IdCell(x)
    else if c in l.values then ValueAsWritten(x)
    else x
  }

  /** Each column goes through the conversion of the list it is in, and only that one. */
  lemma ConvertedColumn(s: Sheet, l: Layout, toIso: Cell -> Option<string>, c: string)
    requires WellFormed(s) && c in s.columns && Apart(l)
    ensures var col := Column(Converted(s, l, toIso), c);
      |col| == |Column(s, c)| && forall k | 0 <= k < |col| :: col[k] == ConvertCell(c, Column(s, c)[k], l, toIso)
  {
    var s1 := ConvertAll(s, l.dates, DateOf(toIso));
    var s2 := ConvertAll(s1, l.ids, IdCell);
    ConvertAllColumn(s, l.dates, DateOf(toIso), c);
    ConvertAllColumn(s1, l.ids, IdCell, c);
    ConvertAllColumn(s2, l.values, ValueAsWritten, c);
  }

  /** Missing values made None, headers renamed, columns converted: the sheet before selection. */
  function Prepared(s: Sheet, l: Layout, toIso: Cell -> Option<string>): (r: Sheet)
    requires WellFormed(s)
    ensures WellFormed(r) && r.columns == RenameAll(s.columns, Renamer(l)) && r.index == s.index
  {
    var m := MissingAsNone(s);
    Converted(Sheet(RenameAll(m.columns, Renamer(l)), m.data, m.index), l, toIso)
  }

  /** A row's part of the hashed text: str(value), or '' for None. */
  function KeyPart(c: Cell): string
  {
    if c.Null? then "" else Show(c)
  }

  /** The values of the given columns of a row, in order. */
  function KeyParts(row: Record, cols: seq<string>): (r: seq<string>)
    ensures |r| == |cols|
    ensures forall k | 0 <= k < |r| :: r[k] == KeyPart(Lookup(row, cols[k]))
  {
    seq(|cols|, k requires 0 <= k < |cols| => KeyPart(Lookup(row, cols[k])))
  }

  /** row_hash over the given columns: the SHA-256 hex digest of the '|'-joined values. */
  function RowKey(row: Record, cols: seq<string>, sha: string -> string): Cell
  {
    Str(sha(Join(KeyParts(row, cols), "|")))
  }

  /** The key depends on the values of the hashed columns and nothing else. */
  lemma RowKeyOfCanonical(r1: Record, r2: Record, cols: seq<string>, sha: string -> string)
    requires forall c | c in cols :: Lookup(r1, c) == Lookup(r2, c)
    ensures RowKey(r1, cols, sha) == RowKey(r2, cols, sha)
  {
    assert KeyParts(r1, cols) == KeyParts(r2, cols);
  }

  /** Extra fields outside the hashed columns (the account, the file, the id) leave the key as it was. */
  lemma RowKeyIgnoresOtherFields(row: Record, extra: Record, cols: seq<string>, sha: string -> string)
    requires forall c | c in extra :: c !in cols
    ensures RowKey(row + extra, cols, sha) == RowKey(row, cols, sha)
  {
    forall c | c in cols ensures Lookup(row + extra, c) == Lookup(row, c) {
      assert c !in extra;
    }
    RowKeyOfCanonical(row + extra, row, cols, sha);
  }

  /** The row hash of every row, in row order. */
  function KeysColumn(s: Sheet, cols: seq<string>, sha: string -> string): (col: seq<Cell>)
    requires WellFormed(s)
    ensures |col| == |s.index| && forall i | 0 <= i < |col| :: col[i] == RowKey(Row(s, i), cols, sha)
  {
    seq(|s.index|, i requires 0 <= i < |s.index| => RowKey(Row(s, i), cols, sha))
  }

  /** The positions drop_duplicates(keep='first') keeps: each value where it first occurs. */
  function FirstOnes<T(==)>(xs: seq<T>): (r: seq<nat>)
    ensures forall k | 0 <= k < |r| :: r[k] < |xs|
    ensures forall j, k | 0 <= j < k < |r| :: r[j] < r[k]
    decreases |xs|
  {
    if xs == [] then []
    else
      var n := |xs| - 1;
      FirstOnes(xs[..n]) + (if xs[n] in xs[..n] then [] else [n])
  }

  /** A position is kept exactly when its value does not occur before it. */
  lemma {:induction false} FirstOnesMember<T>(xs: seq<T>, i: nat)
    ensures i in FirstOnes(xs) <==> i < |xs| && xs[i] !in xs[..i]
    decreases |xs|
  {
    if xs != [] {
      var n := |xs| - 1;
      var prev := FirstOnes(xs[..n]);
      assert FirstOnes(xs) == prev + (if xs[n] in xs[..n] then [] else [n]);
      if i < n {
        FirstOnesMember(xs[..n], i);
        assert xs[..n][..i] == xs[..i] && xs[..n][i] == xs[i];
      } else {
        assert i !in prev;
      }
    }
  }

  /** The kept values are pairwise distinct. */
  lemma FirstOnesDistinct<T>(xs: seq<T>)
    ensures var r := FirstOnes(xs); forall j, k | 0 <= j < k < |r| :: xs[r[j]] != xs[r[k]]
  {
    var r := FirstOnes(xs);
    forall j, k | 0 <= j < k < |r| ensures xs[r[j]] != xs[r[k]] {
      FirstOnesMember(xs, r[k]);
      assert r[k] in r;
      assert xs[r[j]] == xs[..r[k]][r[j]];
    }
  }

  /** Every value is kept, at its first occurrence. */
  lemma FirstOnesCover<T>(xs: seq<T>, i: nat) returns (k: nat)
    requires i < |xs|
    ensures k < |FirstOnes(xs)| && xs[FirstOnes(xs)[k]] == xs[i] && FirstOnes(xs)[k] <= i
  {
    var first: nat := i;
    while xs[first] in xs[..first]
      invariant first <= i && xs[first] == xs[i]
      decreases first
    {
      var j :| 0 <= j < first && xs[..first][j] == xs[first];
      first := j;
    }
    var r := FirstOnes(xs);
    FirstOnesMember(xs, first);
    assert first in r;
    k :| 0 <= k < |r| && r[k] == first;
  }

  /** The sheet with a row_key column holding each row's hash. */
  function Keyed(s: Sheet, sha: string -> string): (r: Sheet)
    requires WellFormed(s)
    ensures WellFormed(r) && r.index == s.index && RowKeyColumn in r.columns
    ensures Column(r, RowKeyColumn) == KeysColumn(s, s.columns, sha)
  {
    WithColumn(s, RowKeyColumn, KeysColumn(s, s.columns, sha))
  }

  /** drop_duplicates(subset=['row_key'], keep='first') */
  function Deduplicated(s: Sheet): (r: Sheet)
    requires WellFormed(s) && RowKeyColumn in s.columns
    ensures WellFormed(r) && r.columns == s.columns
  {
    TakeRows(s, FirstOnes(Column(s, RowKeyColumn)))
  }

  /** A column of the kept rows is the column of the whole sheet read at the kept positions. */
  lemma TakenColumn(s: Sheet, rows: seq<nat>, c: string)
    requires WellFormed(s) && c in s.columns && forall k | 0 <= k < |rows| :: rows[k] < |s.index|
    ensures var col := Column(TakeRows(s, rows), c);
      |col| == |rows| && forall k | 0 <= k < |rows| :: col[k] == Column(s, c)[rows[k]]
  {
  }

  /** The message of the KeyError df[final_columns] raises for absent columns. */
  function NotInIndex(missing: seq<string>): string
  {
    ReportReader.ListRepr(missing) + " not in index"
  }

  /**
   * read_and_clean_data on a sheet read: it fails exactly when a kept
   * column is absent after renaming; otherwise it has the kept columns in
   * mapping order followed by row_key.
   */
  function Cleaned(s: Sheet, l: Layout, toIso: Cell -> Option<string>, sha: string -> string): (r: Result<Sheet>)
    requires WellFormed(s)
    ensures r.Ok? <==> forall c | c in Finals(l) :: c in RenameAll(s.columns, Renamer(l))
    ensures r.Ok? ==> WellFormed(r.value)
    ensures r.Ok? && RowKeyColumn !in Finals(l) ==> r.value.columns == Finals(l) + [RowKeyColumn]
  {
    var p := Prepared(s, l, toIso);
    var missing := LegacyReport.Missing(Finals(l), p.columns);
    if missing != [] then
      assert missing[0] in Finals(l) && missing[0] !in p.columns;
      Err(NotInIndex(missing))
    else
      Ok(Deduplicated(Keyed(SelectColumns(p, Finals(l)), sha)))
  }

  /** The selected and keyed sheet, before duplicates are dropped. */
  function KeyedSelection(s: Sheet, l: Layout, toIso: Cell -> Option<string>, sha: string -> string): (r: Sheet)
    requires WellFormed(s) && Cleaned(s, l, toIso, sha).Ok?
    ensures WellFormed(r) && RowKeyColumn in r.columns
    ensures Cleaned(s, l, toIso, sha) == Ok(Deduplicated(r))
  {
    Keyed(SelectColumns(Prepared(s, l, toIso), Finals(l)), sha)
  }

  /**
   * After cleaning, no two rows share a row_key, and every key of the
   * selected rows is still there, at the first row that had it.
   */
  lemma CleanedKeysDistinct(s: Sheet, l: Layout, toIso: Cell -> Option<string>, sha: string -> string)
    requires WellFormed(s) && Cleaned(s, l, toIso, sha).Ok?
    ensures Seqs.Distinct(Column(Cleaned(s, l, toIso, sha).value, RowKeyColumn))
    ensures forall x :: x in Column(Cleaned(s, l, toIso, sha).value, RowKeyColumn) <==>
      x in Column(KeyedSelection(s, l, toIso, sha), RowKeyColumn)
  {
    var keyed := KeyedSelection(s, l, toIso, sha);
    var keys := Column(keyed, RowKeyColumn);
    var rows := FirstOnes(keys);
    var out := Column(Cleaned(s, l, toIso, sha).value, RowKeyColumn);
    TakenColumn(keyed, rows, RowKeyColumn);
    FirstOnesDistinct(keys);
    forall x | x in keys ensures x in out {
      var i :| 0 <= i < |keys| && keys[i] == x;
      var k := FirstOnesCover(keys, i);
      assert out[k] == x;
    }
  }

  /**
   * Each kept row holds, in every kept column, the converted value of the
   * first row with its key.
   */
  lemma CleanedRows(s: Sheet, l: Layout, toIso: Cell -> Option<string>, sha: string -> string, c: string)
    requires WellFormed(s) && Cleaned(s, l, toIso, sha).Ok? && c in Finals(l) && Apart(l)
    ensures var keyed := KeyedSelection(s, l, toIso, sha);
      var rows := FirstOnes(Column(keyed, RowKeyColumn));
      var col := Column(Cleaned(s, l, toIso, sha).value, c);
      |col| == |rows| && forall k | 0 <= k < |rows| :: col[k] == Column(Prepared(s, l, toIso), c)[rows[k]]
  {
    var p := Prepared(s, l, toIso);
    var sel := SelectColumns(p, Finals(l));
    var keyed := KeyedSelection(s, l, toIso, sha);
    RowKeyNotFinal(l);
    var j := ColumnIndex(Finals(l), c);
    IndexOfFirst(sel.columns, c, j);
    assert Column(sel, c) == Column(p, c);
    assert Column(keyed, c) == Column(sel, c);
    TakenColumn(keyed, FirstOnes(Column(keyed, RowKeyColumn)), c);
  }

  /** One conversion loop on the frame, in place. */
  method ConvertColumns(df: Frame, cols: seq<string>, f: Cell -> Cell)
    requires df.Valid()
    modifies df
    ensures df.Valid() && df.Value() == ConvertAll(old(df.Value()), cols, f)
  {
    var i := 0;
    while i < |cols|
      invariant 0 <= i <= |cols|
      invariant df.Valid() && df.Value() == ConvertAll(old(df.Value()), cols[..i], f)
    {
      var c := cols[i];
      assert cols[..i + 1][..i] == cols[..i];
      if c in df.columns {
        df.SetColumn(c, MapCells(Column(df.Value(), c), f));
      }
      i := i + 1;
    }
    assert cols[..|cols|] == cols;
  }

  /**
   * read_and_clean_data: the frame read from the second sheet, or the
   * error that reading or selecting raised.  The frame is built step by
   * step in place, as the code does.
   */
  method ReadAndCleanData(raw: Result<Sheet>, l: Layout, toIso: Cell -> Option<string>, sha: string -> string)
    returns (r: Result<Frame>)
    requires raw.Ok? ==> WellFormed(raw.value)
    ensures raw.Err? ==> r == Err(raw.msg)
    ensures raw.Ok? ==> r.Ok? == Cleaned(raw.value, l, toIso, sha).Ok?
    ensures raw.Ok? && r.Err? ==> r.msg == Cleaned(raw.value, l, toIso, sha).msg
    ensures r.Ok? ==> fresh(r.value) && r.value.Valid() && Ok(r.value.Value()) == Cleaned(raw.value, l, toIso, sha)
  {
    if raw.Err? {
      return Err(raw.msg);
    }
    var df := new Frame(MissingAsNone(raw.value));
    df.SetColumnNames(RenameAll(df.columns, Renamer(l)));
    ConvertColumns(df, l.dates, DateOf(toIso));
    ConvertColumns(df, l.ids, IdCell);
    ConvertColumns(df, l.values, ValueAsWritten);
    assert df.Value() == Prepared(raw.value, l, toIso);
    var missing := LegacyReport.Missing(Finals(l), df.columns);
    if missing != [] {
      return Err(NotInIndex(missing));
    }
    df.Assign(SelectColumns(df.Value(), Finals(l)));
    df.SetColumn(RowKeyColumn, KeysColumn(df.Value(), df.columns, sha));
    df.Assign(TakeRows(df.Value(), FirstOnes(Column(df.Value(), RowKeyColumn))));
    return Ok(df);
  }

  // ---------------------------------------------------------------------
  // Saving

  const AccountColumn := "account_id"
  const FileColumn := "received_file_id"
  const IdColumn := "id"
  const RawColumn := "raw_data"
  const FallbackError := "error"
  const FallbackData := "original_data_cleaned"

  /**
   * The serialisers a row goes through: to_json(date_format='iso',
   * force_ascii=False), which may raise, and json.dumps.
   */
  datatype Serializer = Serializer(toJson: Record -> Result<string>, dumps: Json -> string)

  /** The object dumped when to_json raises: the error and every field as its str(). */
  function Fallback(row: Record, error: string): (j: Json)
    ensures j.JObj? && j.fields.Keys == {FallbackError, FallbackData}
    ensures j.fields[FallbackError] == JStr(EncodingPrefix + error)
    ensures var d := j.fields[FallbackData];
      d.JObj? && d.fields.Keys == row.Keys && forall k | k in row :: d.fields[k] == JStr(Show(row[k]))
  {
    JObj(map[FallbackError := JStr(EncodingPrefix + error),
             FallbackData := JObj(map k | k in row :: JStr(Show(row[k])))])
  }

  /** safe_to_json: the row's JSON, or when that raises the dumped fallback. */
  function SafeToJson(row: Record, ser: Serializer): string
  {
    match ser.toJson(row)
    case Ok(text) => text
    case Err(e) => ser.dumps(Fallback(row, e))
  }

  /** A column holding the same value in each of n rows. */
  function Filled(n: nat, v: Cell): (col: seq<Cell>)
    ensures |col| == n && forall i | 0 <= i < n :: col[i] == v
  {
    seq(n, _ => v)
  }

  /** One freshly drawn uuid per row: the one drawn for row i is uuid(i). */
  function Uuids(n: nat, uuid: nat -> string): (col: seq<Cell>)
    ensures |col| == n && forall i | 0 <= i < n :: col[i] == Str(uuid(i))
  {
    seq(n, i requires 0 <= i < n => Str(uuid(i)))
  }

  /** The account, the file and a fresh uuid on every row. */
  function Tagged(s: Sheet, account: string, fileId: string, uuid: nat -> string): (r: Sheet)
    requires WellFormed(s)
    ensures WellFormed(r) && r.index == s.index
  {
    var n := |s.index|;
    var a := WithColumn(s, AccountColumn, Filled(n, Str(account)));
    var f := WithColumn(a, FileColumn, Filled(n, Str(fileId)));
    WithColumn(f, IdColumn, Uuids(n, uuid))
  }

  /** Tagging sets the three columns and keeps every other one. */
  lemma TaggedColumns(s: Sheet, account: string, fileId: string, uuid: nat -> string)
    requires WellFormed(s)
    ensures var r := Tagged(s, account, fileId, uuid);
      AccountColumn in r.columns && Column(r, AccountColumn) == Filled(|s.index|, Str(account)) &&
      FileColumn in r.columns && Column(r, FileColumn) == Filled(|s.index|, Str(fileId)) &&
      IdColumn in r.columns && Column(r, IdColumn) == Uuids(|s.index|, uuid)
    ensures var r := Tagged(s, account, fileId, uuid);
      forall c | c in s.columns && c !in {AccountColumn, FileColumn, IdColumn} :: c in r.columns && Column(r, c) == Column(s, c)
  {
  }

  /** Each row serialised to JSON, with every column it has at that point. */
  function RawColumnOf(s: Sheet, json: Record -> string): (col: seq<Cell>)
    requires WellFormed(s)
    ensures |col| == |s.index| && forall i | 0 <= i < |col| :: col[i] == Str(json(Row(s, i)))
  {
    seq(|s.index|, i requires 0 <= i < |s.index| => Str(json(Row(s, i))))
  }

  /** The frame as save_data_in_batches sends it: tagged, then with raw_data. */
  function Stamped(s: Sheet, account: string, fileId: string, uuid: nat -> string, json: Record -> string): (r: Sheet)
    requires WellFormed(s)
    ensures WellFormed(r) && r.index == s.index
  {
    var t := Tagged(s, account, fileId, uuid);
    WithColumn(t, RawColumn, RawColumnOf(t, json))
  }

  /** The column appears once in the header. */
  predicate Once(columns: seq<string>, c: string)
  {
    c in columns && c !in columns[ColumnIndex(columns, c) + 1..]
  }

  /** Setting another column keeps a column that appears once, and its cells. */
  lemma OnceAfterSet(s: Sheet, name: string, col: seq<Cell>, c: string)
    requires WellFormed(s) && |col| == |s.index| && Once(s.columns, c) && name != c
    ensures var r := WithColumn(s, name, col); Once(r.columns, c) && Column(r, c) == Column(s, c)
  {
    var r := WithColumn(s, name, col);
    if name !in s.columns {
      var j := ColumnIndex(s.columns, c);
      SameIndexAfterAppend(s.columns, name);
      assert (s.columns + [name])[j + 1..] == s.columns[j + 1..] + [name];
    }
  }

  /** A column other than the metadata ones that appears once keeps its place and cells through stamping. */
  lemma StampedKeepsColumn(s: Sheet, account: string, fileId: string, uuid: nat -> string, json: Record -> string, c: string)
    requires WellFormed(s) && Once(s.columns, c) && c !in {AccountColumn, FileColumn, IdColumn, RawColumn}
    ensures var r := Stamped(s, account, fileId, uuid, json);
      Once(r.columns, c) && Column(r, c) == Column(s, c)
  {
    var n := |s.index|;
    var a := WithColumn(s, AccountColumn, Filled(n, Str(account)));
    OnceAfterSet(s, AccountColumn, Filled(n, Str(account)), c);
    var f := WithColumn(a, FileColumn, Filled(n, Str(fileId)));
    OnceAfterSet(a, FileColumn, Filled(n, Str(fileId)), c);
    var t := WithColumn(f, IdColumn, Uuids(n, uuid));
    OnceAfterSet(f, IdColumn, Uuids(n, uuid), c);
    OnceAfterSet(t, RawColumn, RawColumnOf(t, json), c);
  }

  /** Stamped records keep the distinct row_key cells of the sheet. */
  lemma StampedKeysDistinct(s: Sheet, account: string, fileId: string, uuid: nat -> string, json: Record -> string)
    requires WellFormed(s) && Once(s.columns, RowKeyColumn) && Seqs.Distinct(Column(s, RowKeyColumn))
    ensures DistinctKeys(Records(Stamped(s, account, fileId, uuid, json)), [RowKeyColumn])
  {
    StampedKeepsColumn(s, account, fileId, uuid, json, RowKeyColumn);
    RecordsKeysDistinct(Stamped(s, account, fileId, uuid, json), RowKeyColumn);
  }

  /** The record of a row holds, for a column that appears once, that column's cell. */
  lemma RowOnce(s: Sheet, c: string, i: nat)
    requires WellFormed(s) && Once(s.columns, c) && i < |s.index|
    ensures c in Row(s, i) && Row(s, i)[c] == Column(s, c)[i]
  {
    RowRecordCell(s.columns, s.data, i, ColumnIndex(s.columns, c));
  }

  /** Rows whose key column appears once and holds distinct cells give records with distinct keys. */
  lemma RecordsKeysDistinct(s: Sheet, c: string)
    requires WellFormed(s) && Once(s.columns, c) && Seqs.Distinct(Column(s, c))
    ensures DistinctKeys(Records(s), [c])
  {
    var rs := Records(s);
    forall i, j | 0 <= i < j < |rs| ensures KeyOf(rs[i], [c]) != KeyOf(rs[j], [c]) {
      RowOnce(s, c, i);
      RowOnce(s, c, j);
      assert KeyOf(rs[i], [c])[0] != KeyOf(rs[j], [c])[0];
    }
  }

  /** A cleaned sheet has row_key once, as its last column. */
  lemma CleanedKeyOnce(s: Sheet, l: Layout, toIso: Cell -> Option<string>, sha: string -> string)
    requires WellFormed(s) && Cleaned(s, l, toIso, sha).Ok? && Apart(l)
    ensures Once(Cleaned(s, l, toIso, sha).value.columns, RowKeyColumn)
  {
    RowKeyNotFinal(l);
    var cols := Cleaned(s, l, toIso, sha).value.columns;
    assert cols[..|Finals(l)|] == Finals(l);
    IndexOfFirst(cols, RowKeyColumn, |Finals(l)|);
  }

  /** A batched run that stopped did so on a call that fails: its error is that call's text. */
  predicate RaisedByCall(r: (Contents, nat, Outcome), failing: map<nat, string>)
  {
    r.2.Raised? ==> r.1 >= 1 && r.1 - 1 in failing && r.2.msg == failing[r.1 - 1]
  }

  /** Records with distinct row_keys, upserted 100 at a time on row_key, fail only by a failing call. */
  lemma RowKeyBatchesFailOnlyByCall(rs: seq<Record>, c: Contents, n: nat, failing: map<nat, string>)
    requires DistinctKeys(rs, [RowKeyColumn])
    ensures RaisedByCall(RunBatches(c, n, failing, [RowKeyColumn], Merge, rs, BatchSize), failing)
  {
    RunBatchesDistinct(c, n, failing, [RowKeyColumn], rs, BatchSize);
  }

  /** Saving a sheet whose row_key appears once and is distinct fails only by a failing call. */
  lemma StampedSaveFailsOnlyByCall(s: Sheet, account: string, fileId: string, uuid: nat -> string, json: Record -> string,
                                   c: Contents, n: nat, failing: map<nat, string>)
    requires WellFormed(s) && Once(s.columns, RowKeyColumn) && Seqs.Distinct(Column(s, RowKeyColumn))
    ensures RaisedByCall(RunBatches(c, n, failing, [RowKeyColumn], Merge, Records(Stamped(s, account, fileId, uuid, json)), BatchSize), failing)
  {
    var rs := Records(Stamped(s, account, fileId, uuid, json));
    StampedKeysDistinct(s, account, fileId, uuid, json);
    RowKeyBatchesFailOnlyByCall(rs, c, n, failing);
  }

  /**
   * Because cleaning leaves one row per row_key, the stamped records have
   * distinct keys, so the merging upserts never touch a row twice.
   */
  lemma CleanedRecordsDistinct(s: Sheet, l: Layout, toIso: Cell -> Option<string>, sha: string -> string,
                               account: string, fileId: string, uuid: nat -> string, json: Record -> string)
    requires WellFormed(s) && Cleaned(s, l, toIso, sha).Ok? && Apart(l)
    ensures DistinctKeys(Records(Stamped(Cleaned(s, l, toIso, sha).value, account, fileId, uuid, json)), [RowKeyColumn])
  {
    CleanedKeyOnce(s, l, toIso, sha);
    CleanedKeysDistinct(s, l, toIso, sha);
    StampedKeysDistinct(Cleaned(s, l, toIso, sha).value, account, fileId, uuid, json);
  }

  /**
   * Hence saving a cleaned sheet can fail only by a failing database call,
   * never with PostgreSQL's duplicate-key error.
   */
  lemma CleanedSaveFailsOnlyByCall(s: Sheet, l: Layout, toIso: Cell -> Option<string>, sha: string -> string, cleaned: Sheet,
                                   account: string, fileId: string, uuid: nat -> string, json: Record -> string,
                                   c: Contents, n: nat, failing: map<nat, string>)
    requires WellFormed(s) && Cleaned(s, l, toIso, sha) == Ok(cleaned) && Apart(l)
    ensures WellFormed(cleaned)
    ensures RaisedByCall(RunBatches(c, n, failing, [RowKeyColumn], Merge, Records(Stamped(cleaned, account, fileId, uuid, json)), BatchSize), failing)
  {
    CleanedKeyOnce(s, l, toIso, sha);
    CleanedKeysDistinct(s, l, toIso, sha);
    StampedSaveFailsOnlyByCall(cleaned, account, fileId, uuid, json, c, n, failing);
  }

  /** Adding the three metadata columns in place. */
  method Tag(df: Frame, account: string, fileId: string, uuid: nat -> string)
    requires df.Valid()
    modifies df
    ensures df.Valid() && df.Value() == Tagged(old(df.Value()), account, fileId, uuid)
  {
    var n := |df.index|;
    df.SetColumn(AccountColumn, Filled(n, Str(account)));
    df.SetColumn(FileColumn, Filled(n, Str(fileId)));
    df.SetColumn(IdColumn, Uuids(n, uuid));
  }

  /**
   * The save loop both revisions share: the frame is stamped in place with
   * the rows' JSON, its records are upserted on the key column in batches
   * of 100, and the first failing batch is raised.
   */
  method StampAndUpsert(t: Table, df: Frame, account: string, fileId: string, uuid: nat -> string,
                        json: Record -> string, key: string)
    returns (out: Outcome)
    requires t.Valid() && t.keyCols == [key] && df.Valid()
    modifies t, df
    ensures t.Valid() && df.Valid()
    ensures df.Value() == Stamped(old(df.Value()), account, fileId, uuid, json)
    ensures (t.Value(), t.calls, out) == RunBatches(old(t.Value()), old(t.calls), t.failing, [key], Merge, Records(df.Value()), BatchSize)
  {
    Tag(df, account, fileId, uuid);
    df.SetColumn(RawColumn, RawColumnOf(df.Value(), json));
    var records := Records(df.Value());
    out := UpsertInBatches(t, records, BatchSize, Merge);
  }

  /** safe_to_json as the function applied to each row. */
  function RowJson(ser: Serializer): Record -> string
  {
    row => SafeToJson(row, ser)
  }

  /** save_data_in_batches: the shared save loop, with safe_to_json, on row_key. */
  method SaveDataInBatches(t: Table, df: Frame, account: string, fileId: string, uuid: nat -> string, ser: Serializer)
    returns (out: Outcome)
    requires t.Valid() && t.keyCols == [RowKeyColumn] && df.Valid()
    modifies t, df
    ensures t.Valid() && df.Valid()
    ensures df.Value() == Stamped(old(df.Value()), account, fileId, uuid, RowJson(ser))
    ensures (t.Value(), t.calls, out) == RunBatches(old(t.Value()), old(t.calls), t.failing, [RowKeyColumn], Merge, Records(df.Value()), BatchSize)
  {
    out := StampAndUpsert(t, df, account, fileId, uuid, RowJson(ser), RowKeyColumn);
  }

  // ---------------------------------------------------------------------
  // File status and the run

  /** The fields update_file_status sends: the status alone (writing the details is switched off). */
  function StatusOnly(status: string): (r: Record)
    ensures r.Keys == {"status"} && r["status"] == Str(status)
  {
    map["status" := Str(status)]
  }

  /**
   * update_file_status: one update of the file's row; its failure is
   * logged and swallowed, and the details are not sent.
   */
  method UpdateFileStatus(files: FileTable, id: string, status: string, details: Option<string>)
    modifies files
    ensures files.calls == old(files.calls) + 1
    ensures files.writes == old(files.writes) + [Write(id, StatusOnly(status), old(files.calls) !in files.failing)]
    ensures files.rows == if old(files.calls) in files.failing || id !in old(files.rows) then old(files.rows)
      else old(files.rows)[id := old(files.rows)[id] + StatusOnly(status)]
  {
    var out := files.Update(id, StatusOnly(status));
  }

  /** How process_conciliation_file ends; it never raises. */
  datatype Ending = Saved | NoRows | Aborted(cause: string)

  /** The status written last: 'processed' after a save, 'error' otherwise. */
  function FinalStatus(e: Ending): string
  {
    if e.Saved? then Processed else Error
  }

  /** The steps inside the try block, up to but not including the final status. */
  method ReadAndSave(t: Table, l: Layout, account: string, fileId: string, raw: Result<Sheet>, toIso: Cell -> Option<string>,
                     sha: string -> string, uuid: nat -> string, ser: Serializer)
    returns (ending: Ending)
    requires t.Valid() && t.keyCols == [RowKeyColumn]
    requires raw.Ok? ==> WellFormed(raw.value)
    modifies t
    ensures t.Valid()
    ensures raw.Err? ==> ending == Aborted(raw.msg) && t.Value() == old(t.Value())
    ensures raw.Ok? ==> SavedFrom(old(t.Value()), old(t.calls), t.failing, Cleaned(raw.value, l, toIso, sha),
                                  account, fileId, uuid, ser, ending, t.Value())
  {
    var read := ReadAndCleanData(raw, l, toIso, sha);
    if read.Err? {
      return Aborted(read.msg);
    }
    var df := read.value;
    if |df.index| == 0 {
      return NoRows;
    }
    ghost var cleaned := df.Value();
    var out := SaveDataInBatches(t, df, account, fileId, uuid, ser);
    ending := if out.Done? then Saved else Aborted(out.msg);
    RunBatchesDone(old(t.Value()), old(t.calls), t.failing, [RowKeyColumn], Merge, Records(df.Value()), BatchSize);
  }

  /**
   * What the try block comes to for a cleaning result: a cleaning error
   * aborts with its text and writes nothing; no rows ends without a save;
   * otherwise the stamped records are upserted, and a save that ends
   * normally leaves the table as upserting all of them would.
   */
  ghost predicate SavedFrom(c: Contents, n: nat, failing: map<nat, string>, cleaned: Result<Sheet>,
                            account: string, fileId: string, uuid: nat -> string, ser: Serializer,
                            ending: Ending, after: Contents)
  {
    match cleaned
    case Err(msg) => ending == Aborted(msg) && after == c
    case Ok(s) =>
      WellFormed(s) &&
      if |s.index| == 0 then ending == NoRows && after == c
      else
        var rs := Records(Stamped(s, account, fileId, uuid, RowJson(ser)));
        var r := RunBatches(c, n, failing, [RowKeyColumn], Merge, rs, BatchSize);
        after == r.0 && (r.2.Done? ==> ending == Saved && after == UpsertAll(c, [RowKeyColumn], Merge, rs)) &&
        (r.2.Raised? ==> ending == Aborted(r.2.msg))
  }

  /**
   * A run on a sheet that cleans aborts only with the text of a failing
   * database call: never with the duplicate-key error, since cleaning keeps
   * one row per row_key.
   */
  lemma AbortedSaveIsCallError(s: Sheet, l: Layout, toIso: Cell -> Option<string>, sha: string -> string,
                               account: string, fileId: string, uuid: nat -> string, ser: Serializer,
                               c: Contents, n: nat, failing: map<nat, string>, ending: Ending, after: Contents)
    requires WellFormed(s) && Apart(l) && Cleaned(s, l, toIso, sha).Ok?
    requires SavedFrom(c, n, failing, Cleaned(s, l, toIso, sha), account, fileId, uuid, ser, ending, after)
    ensures ending.Aborted? ==> ending.cause in failing.Values
  {
    var cleaned := Cleaned(s, l, toIso, sha).value;
    CleanedSaveFailsOnlyByCall(s, l, toIso, sha, cleaned, account, fileId, uuid, RowJson(ser), c, n, failing);
  }

  /**
   * process_conciliation_file: 'processing', read and clean, then save and
   * 'processed' when there are rows, 'error' when there are none or when
   * anything raised.  Every exception is caught.
   */
  method ProcessConciliationFile(files: FileTable, t: Table, l: Layout, fileId: string, account: string, raw: Result<Sheet>,
                                 toIso: Cell -> Option<string>, sha: string -> string, uuid: nat -> string,
                                 ser: Serializer, trace: string)
    returns (ending: Ending)
    requires t.Valid() && t.keyCols == [RowKeyColumn]
    requires raw.Ok? ==> WellFormed(raw.value)
    modifies files, t
    ensures t.Valid()
    ensures Statuses(files.writes, fileId) == Statuses(old(files.writes), fileId) + [Str(Processing), Str(FinalStatus(ending))]
    ensures raw.Err? ==> ending == Aborted(raw.msg) && t.Value() == old(t.Value())
    ensures raw.Ok? ==> SavedFrom(old(t.Value()), old(t.calls), t.failing, Cleaned(raw.value, l, toIso, sha),
                                  account, fileId, uuid, ser, ending, t.Value())
  {
    UpdateFileStatus(files, fileId, Processing, None);
    ghost var w0 := files.writes[|files.writes| - 1];
    ending := ReadAndSave(t, l, account, fileId, raw, toIso, sha, uuid, ser);
    var details := match ending
      case Saved => None
      case NoRows => Some(EmptyDetails)
      case Aborted(cause) => Some(FatalPrefix + cause + "\n\nTraceback:\n" + trace);
    UpdateFileStatus(files, fileId, FinalStatus(ending), details);
    ghost var w1 := files.writes[|files.writes| - 1];
    assert files.writes == old(files.writes) + [w0, w1];
    StatusesAppend(old(files.writes), [w0, w1], fileId);
    LegacyReport.TwoStatuses(w0, w1, fileId);
  }
}
