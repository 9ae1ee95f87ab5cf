/**
 * The upsert key the report pipeline gives each sales row before saving it.
 * A loose occurrence ("ocorrência avulsa") is keyed by an MD5 digest of the
 * fields that identify it; a row with an order id by its key columns, joined
 * with '_' and followed by its row label; any other row by a uuids random
 * UUID.  The digest and the UUIDs are parameters: hashing and randomness are
 * not modelled, only that both produce lower-case hexadecimal text.
 */
module ReportKeys {
  import opened Text
  import opened Numbers
  import opened Cells
  import opened Seqs

  const OrderIdColumn := "pedido_id_completo"
  const BillingColumn := "tipo_de_faturamento"
  const FileIdColumn := "received_file_id"
  /** The label, after strip() and lower(), that marks a loose occurrence. */
  const LooseLabel := "ocorr\U{EA}ncia avulsa"

  /** The columns an order-keyed row is identified by, in key order. */
  const KeyColumns: seq<string> :=
    ["numero_pedido", "pedido_id_completo", "data_de_repasse", "valor_bruto", "valor_ocorrencia"]

  /** The fields hashed for a loose occurrence, in hash order. */
  const LooseFields: seq<string> :=
    ["account_id", "loja_id", "data_do_pedido_ocorrencia", "valor_ocorrencia", "tipo_de_faturamento"]

  /** str(row.get(col, '')) */
  function Get(r: Record, c: string): (t: string)
    ensures c !in r ==> t == ""
  {
    if c in r then Show(r[c]) else ""
  }

  /** Get for each listed column, in order. */
  function Gets(r: Record, cols: seq<string>): (ts: seq<string>)
    ensures |ts| == |cols| && forall i | 0 <= i < |cols| :: ts[i] == Get(r, cols[i])
  {
    seq(|cols|, i requires 0 <= i < |cols| => Get(r, cols[i]))
  }

  /** Which of the three ways a row is keyed. */
  datatype KeySource = Digest | Order | Random

  predicate IsLoose(r: Record)
  {
    Lower(Strip(Get(r, BillingColumn))) == LooseLabel
  }

  /** The row has a present order id whose text is not blank. */
  predicate HasOrderId(r: Record)
  {
    var v := Lookup(r, OrderIdColumn);
    !IsMissing(v) && Strip(Show(v)) != ""
  }

  function KeySourceOf(r: Record): KeySource
  {
    if IsLoose(r) then Digest else if HasOrderId(r) then Order else Random
  }

  /** The text hashed for a loose occurrence: its fields joined with '|'. */
  function LooseText(r: Record): string
  {
    Join(Gets(r, LooseFields), "|")
  }

  /** The key of an order row: its key columns and its row label, joined with '_'. */
  function OrderKey(r: Record, name: nat): string
  {
    Join(Gets(r, KeyColumns), "_") + "_" + NatStr(name)
  }

  /**
   * create_upsert_key for the row with this record and row label (row.name); md5 gives
   * a hex digest of a text, uuid is the uuid4().hex drawn for the row.
   */
  function UpsertKey(r: Record, name: nat, md5: string -> string, uuid: string): string
  {
    match KeySourceOf(r)
    case Digest => md5(LooseText(r))
    case Order => OrderKey(r, name)
    case Random => uuid
  }

  /** The text of a hex digest or of uuid4().hex: lower-case hexadecimal digits. */
  predicate Hex(s: string)
  {
    forall i | 0 <= i < |s| :: IsDigit(s[i]) || 'a' <= s[i] <= 'f'
  }

  /** The keys of a sheet's rows, one per row. */
  function Keys(rows: seq<Record>, labels: seq<nat>, md5: string -> string, uuids: seq<string>): (ks: seq<string>)
    requires |labels| == |rows| && |uuids| == |rows|
    ensures |ks| == |rows|
    ensures forall i | 0 <= i < |rows| :: ks[i] == UpsertKey(rows[i], labels[i], md5, uuids[i])
  {
    seq(|rows|, i requires 0 <= i < |rows| => UpsertKey(rows[i], labels[i], md5, uuids[i]))
  }

  /** What follows the last separator determines itself when neither tail holds one. */
  lemma {:induction false} TailAfterLast(a1: string, d1: string, a2: string, d2: string, sep: char)
    requires sep !in d1 && sep !in d2
    requires a1 + [sep] + d1 == a2 + [sep] + d2
    ensures d1 == d2
  {
    var s := a1 + [sep] + d1;
    if |d1| == |d2| {
      assert d1 == s[|s| - |d1|..];
      assert d2 == s[|s| - |d2|..];
    } else if |d1| < |d2| {
      SeparatorInLongerTail(a1, d1, a2, d2, sep);
      assert false;
    } else {
      SeparatorInLongerTail(a2, d2, a1, d1, sep);
      assert false;
    }
  }

  /** With the same text, the longer tail has the shorter one's separator inside it. */
  lemma SeparatorInLongerTail(a1: string, d1: string, a2: string, d2: string, sep: char)
    requires a1 + [sep] + d1 == a2 + [sep] + d2 && |d1| < |d2|
    ensures sep in d2
  {
    var s := a1 + [sep] + d1;
    assert d2[|d2| - |d1| - 1] == s[|s| - |d1| - 1];
  }

  /** Decimal digits are hexadecimal digits. */
  lemma DigitsNoUnderscore(s: string)
    requires AllDigits(s)
    ensures '_' !in s
  {
  }

  lemma HexNoUnderscore(s: string)
    requires Hex(s)
    ensures '_' !in s
  {
  }

  /** Two order rows with different row labels never share a key, whatever their columns hold. */
  lemma OrderKeysDistinct(r1: Record, l1: nat, r2: Record, l2: nat)
    requires l1 != l2
    ensures OrderKey(r1, l1) != OrderKey(r2, l2)
  {
    if OrderKey(r1, l1) == OrderKey(r2, l2) {
      DigitsNoUnderscore(NatStr(l1));
      DigitsNoUnderscore(NatStr(l2));
      TailAfterLast(Join(Gets(r1, KeyColumns), "_"), NatStr(l1), Join(Gets(r2, KeyColumns), "_"), NatStr(l2), '_');
      NatStrInjective(l1, l2);
    }
  }

  /** An order key holds a '_', so no hex digest and no uuid hex is ever an order key. */
  lemma OrderKeyNotHex(r: Record, name: nat, h: string)
    requires Hex(h)
    ensures OrderKey(r, name) != h
  {
    var k := OrderKey(r, name);
    var p := Join(Gets(r, KeyColumns), "_");
    assert k[|p|] == '_';
    HexNoUnderscore(h);
  }

  /**
   * Within one sheet (distinct row labels, hex digests, hex uuids), the key
   * of a row with an order id is shared with no other row.
   */
  lemma OrderRowKeyUnique(rows: seq<Record>, labels: seq<nat>, md5: string -> string, uuids: seq<string>, i: nat, j: nat)
    requires |labels| == |rows| && |uuids| == |rows| && Distinct(labels)
    requires forall t :: Hex(md5(t))
    requires forall k | 0 <= k < |uuids| :: Hex(uuids[k])
    requires i < |rows| && j < |rows| && i != j && KeySourceOf(rows[i]) == Order
    ensures Keys(rows, labels, md5, uuids)[i] != Keys(rows, labels, md5, uuids)[j]
  {
    assert labels[i] != labels[j] by {
      if i < j { assert labels[i] != labels[j]; } else { assert labels[j] != labels[i]; }
    }
    match KeySourceOf(rows[j])
    case Digest => OrderKeyNotHex(rows[i], labels[i], md5(LooseText(rows[j])));
    case Order => OrderKeysDistinct(rows[i], labels[i], rows[j], labels[j]);
    case Random => OrderKeyNotHex(rows[i], labels[i], uuids[j]);
  }

  /**
   * Two loose occurrences with the same five identifying fields get the same
   * key, whatever their row labels and other columns: the pipeline merges them.
   */
  lemma LooseKeysShared(r1: Record, l1: nat, u1: string, r2: Record, l2: nat, u2: string, md5: string -> string)
    requires IsLoose(r1) && Gets(r1, LooseFields) == Gets(r2, LooseFields)
    ensures KeySourceOf(r2) == Digest
    ensures UpsertKey(r1, l1, md5, u1) == UpsertKey(r2, l2, md5, u2)
  {
    assert Get(r2, BillingColumn) == Gets(r2, LooseFields)[4] == Gets(r1, LooseFields)[4] == Get(r1, BillingColumn);
  }

  /**
   * Conversely, when the digest is injective and no field shows a '|', two
   * loose occurrences differing in an identifying field get different keys.
   */
  lemma LooseKeysApart(r1: Record, l1: nat, u1: string, r2: Record, l2: nat, u2: string, md5: string -> string)
    requires forall s, t :: md5(s) == md5(t) ==> s == t
    requires IsLoose(r1) && IsLoose(r2)
    requires forall k | 0 <= k < |LooseFields| :: '|' !in Get(r1, LooseFields[k]) && '|' !in Get(r2, LooseFields[k])
    requires Gets(r1, LooseFields) != Gets(r2, LooseFields)
    ensures UpsertKey(r1, l1, md5, u1) != UpsertKey(r2, l2, md5, u2)
  {
    SplitJoin(Gets(r1, LooseFields), '|');
    SplitJoin(Gets(r2, LooseFields), '|');
  }

  /** Records that differ at most in one column read the same everywhere else. */
  lemma GetsAside(r1: Record, r2: Record, aside: string, cols: seq<string>)
    requires r1 - {aside} == r2 - {aside} && aside !in cols
    ensures Gets(r1, cols) == Gets(r2, cols)
  {
    forall k | 0 <= k < |cols| ensures Get(r1, cols[k]) == Get(r2, cols[k]) {
      var c := cols[k];
      assert c in r1 <==> c in r1 - {aside};
      assert c in r2 <==> c in r2 - {aside};
      if c in r1 { assert r1[c] == (r1 - {aside})[c]; assert r2[c] == (r2 - {aside})[c]; }
    }
  }

  /**
   * Ingesting the same rows again under another file id gives every row the
   * same key as before, except rows keyed by a random uuid, whose key changes
   * with the uuid drawn.
   */
  lemma ReingestKeys(rows1: seq<Record>, rows2: seq<Record>, labels: seq<nat>, md5: string -> string,
                     fresh1: seq<string>, fresh2: seq<string>, i: nat)
    requires |rows2| == |rows1| && |labels| == |rows1| && |fresh1| == |rows1| && |fresh2| == |rows1|
    requires forall k | 0 <= k < |rows1| :: rows1[k] - {FileIdColumn} == rows2[k] - {FileIdColumn}
    requires forall k | 0 <= k < |rows1| :: fresh1[k] != fresh2[k]
    requires i < |rows1|
    ensures Keys(rows1, labels, md5, fresh1)[i] == Keys(rows2, labels, md5, fresh2)[i]
        <==> KeySourceOf(rows1[i]) != Random
  {
    var r1, r2 := rows1[i], rows2[i];
    GetsAside(r1, r2, FileIdColumn, KeyColumns);
    GetsAside(r1, r2, FileIdColumn, LooseFields);
    GetsAside(r1, r2, FileIdColumn, [BillingColumn]);
    GetsAside(r1, r2, FileIdColumn, [OrderIdColumn]);
    assert Get(r1, BillingColumn) == Gets(r1, [BillingColumn])[0];
    assert Get(r2, BillingColumn) == Gets(r2, [BillingColumn])[0];
    assert Lookup(r1, OrderIdColumn) == Lookup(r2, OrderIdColumn) by {
      assert OrderIdColumn in r1 <==> OrderIdColumn in r1 - {FileIdColumn};
      assert OrderIdColumn in r2 <==> OrderIdColumn in r2 - {FileIdColumn};
      if OrderIdColumn in r1 { assert r1[OrderIdColumn] == (r1 - {FileIdColumn})[OrderIdColumn]; }
      if OrderIdColumn in r2 { assert r2[OrderIdColumn] == (r2 - {FileIdColumn})[OrderIdColumn]; }
    }
    assert KeySourceOf(r1) == KeySourceOf(r2);
  }
}
