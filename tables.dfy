/**
 * A database table behind the Supabase client, as the pipelines see it: rows
 * keyed by the table's unique columns, in the order they were first written,
 * written by upsert (insert, or on a key conflict update / do nothing) and
 * read back page by page.  Which calls fail, and with what error text, is an
 * input fixed when the table is made.
 */
module Tables {
  import opened Wrappers
  import opened Cells
  import opened Seqs

  /** The values of the conflict columns of a row. */
  type Key = seq<Cell>

  /** on_conflict behaviour: update the stored row (the default) or do nothing (ignore_duplicates=True). */
  datatype Conflict = Merge | Ignore

  /** What a database call came to: done, or an exception with its text. */
  datatype Outcome = Done | Raised(msg: string)

  /** The error PostgreSQL reports when one merging upsert names the same key twice. */
  const TwiceMessage := "ON CONFLICT DO UPDATE command cannot affect row a second time"

  /** The key of a record: its values in the conflict columns, None where absent. */
  function KeyOf(r: Record, keyCols: seq<string>): (k: Key)
    ensures |k| == |keyCols| && forall i | 0 <= i < |keyCols| :: k[i] == Lookup(r, keyCols[i])
  {
    seq(|keyCols|, i requires 0 <= i < |keyCols| => Lookup(r, keyCols[i]))
  }

  /** The keys of a list of records. */
  function KeysOf(rs: seq<Record>, keyCols: seq<string>): set<Key>
  {
    set i | 0 <= i < |rs| :: KeyOf(rs[i], keyCols)
  }

  /** No two records of the list share a key. */
  predicate DistinctKeys(rs: seq<Record>, keyCols: seq<string>)
  {
    forall i, j | 0 <= i < j < |rs| :: KeyOf(rs[i], keyCols) != KeyOf(rs[j], keyCols)
  }

  /** The stored rows and the order in which their keys were first written. */
  datatype Contents = Contents(rows: map<Key, Record>, order: seq<Key>)

  /** Every stored key appears once in the order, and nothing else does. */
  predicate Consistent(c: Contents)
  {
    c.rows.Keys == (set k | k in c.order) && Distinct(c.order)
  }

  /** One record upserted: a new key is added at the end; a stored one is merged (the record's columns win) or left alone. */
  function UpsertOne(c: Contents, keyCols: seq<string>, mode: Conflict, r: Record): (d: Contents)
    ensures Consistent(c) ==> Consistent(d)
    ensures d.rows.Keys == c.rows.Keys + {KeyOf(r, keyCols)}
  {
    var k := KeyOf(r, keyCols);
    if k in c.rows then
      (if mode == Merge then Contents(c.rows[k := c.rows[k] + r], c.order) else c)
    else
      Contents(c.rows[k := r], c.order + [k])
  }

  /** Records upserted one after the other, in order. */
  function UpsertAll(c: Contents, keyCols: seq<string>, mode: Conflict, rs: seq<Record>): Contents
    decreases |rs|
  {
    if rs == [] then c else UpsertAll(UpsertOne(c, keyCols, mode, rs[0]), keyCols, mode, rs[1..])
  }

  /** Upserting a + b is upserting a, then b. */
  lemma {:induction false} UpsertAllAppend(c: Contents, keyCols: seq<string>, mode: Conflict, a: seq<Record>, b: seq<Record>)
    ensures UpsertAll(c, keyCols, mode, a + b) == UpsertAll(UpsertAll(c, keyCols, mode, a), keyCols, mode, b)
    decreases |a|
  {
    if a == [] {
      assert a + b == b;
    } else {
      assert (a + b)[1..] == a[1..] + b;
      UpsertAllAppend(UpsertOne(c, keyCols, mode, a[0]), keyCols, mode, a[1..], b);
    }
  }

  /** Upserting keeps the table consistent and adds exactly the records' keys. */
  lemma {:induction false} UpsertAllKeys(c: Contents, keyCols: seq<string>, mode: Conflict, rs: seq<Record>)
    ensures Consistent(c) ==> Consistent(UpsertAll(c, keyCols, mode, rs))
    ensures UpsertAll(c, keyCols, mode, rs).rows.Keys == c.rows.Keys + KeysOf(rs, keyCols)
    decreases |rs|
  {
    if rs != [] {
      var c' := UpsertOne(c, keyCols, mode, rs[0]);
      UpsertAllKeys(c', keyCols, mode, rs[1..]);
      KeysOfCons(rs, keyCols);
    }
  }

  lemma KeysOfCons(rs: seq<Record>, keyCols: seq<string>)
    requires rs != []
    ensures KeysOf(rs, keyCols) == {KeyOf(rs[0], keyCols)} + KeysOf(rs[1..], keyCols)
  {
    forall k | k in KeysOf(rs, keyCols)
      ensures k in {KeyOf(rs[0], keyCols)} + KeysOf(rs[1..], keyCols)
    {
      var i :| 0 <= i < |rs| && k == KeyOf(rs[i], keyCols);
      if i > 0 {
        assert k == KeyOf(rs[1..][i - 1], keyCols);
      }
    }
    forall k | k in KeysOf(rs[1..], keyCols)
      ensures k in KeysOf(rs, keyCols)
    {
      var i :| 0 <= i < |rs[1..]| && k == KeyOf(rs[1..][i], keyCols);
      assert k == KeyOf(rs[i + 1], keyCols);
    }
  }

  /** Upserting records whose keys are all stored already leaves the set of stored keys as it was. */
  lemma StoredKeysUnchanged(c: Contents, keyCols: seq<string>, mode: Conflict, rs: seq<Record>)
    requires KeysOf(rs, keyCols) <= c.rows.Keys
    ensures UpsertAll(c, keyCols, mode, rs).rows.Keys == c.rows.Keys
  {
    UpsertAllKeys(c, keyCols, mode, rs);
  }

  /** Every row of `before` is still in `after`, unchanged. */
  ghost predicate Keeps(before: map<Key, Record>, after: map<Key, Record>)
  {
    forall k | k in before :: k in after && after[k] == before[k]
  }

  /** With do-nothing on conflict, every row stored before is left exactly as it was. */
  lemma {:induction false} IgnoreKeepsStored(c: Contents, keyCols: seq<string>, rs: seq<Record>)
    ensures forall k | k in c.rows :: k in UpsertAll(c, keyCols, Ignore, rs).rows && UpsertAll(c, keyCols, Ignore, rs).rows[k] == c.rows[k]
    decreases |rs|
  {
    if rs != [] {
      IgnoreKeepsStored(UpsertOne(c, keyCols, Ignore, rs[0]), keyCols, rs[1..]);
    }
  }

  /**
   * A merging upsert of records with distinct keys stores each record merged
   * over what was stored under its key, and leaves every other key alone.
   */
  lemma {:induction false} MergeStoresEach(c: Contents, keyCols: seq<string>, rs: seq<Record>)
    requires DistinctKeys(rs, keyCols)
    ensures var d := UpsertAll(c, keyCols, Merge, rs);
      forall i | 0 <= i < |rs| :: var k := KeyOf(rs[i], keyCols);
        k in d.rows && d.rows[k] == (if k in c.rows then c.rows[k] + rs[i] else rs[i])
    ensures var d := UpsertAll(c, keyCols, Merge, rs);
      forall k | k in c.rows && k !in KeysOf(rs, keyCols) :: k in d.rows && d.rows[k] == c.rows[k]
    decreases |rs|
  {
    if rs != [] {
      var c' := UpsertOne(c, keyCols, Merge, rs[0]);
      var k0 := KeyOf(rs[0], keyCols);
      assert DistinctKeys(rs[1..], keyCols) by {
        forall i, j | 0 <= i < j < |rs[1..]|
          ensures KeyOf(rs[1..][i], keyCols) != KeyOf(rs[1..][j], keyCols)
        {
          assert rs[1..][i] == rs[i + 1] && rs[1..][j] == rs[j + 1];
        }
      }
      MergeStoresEach(c', keyCols, rs[1..]);
      KeysOfCons(rs, keyCols);
      assert k0 !in KeysOf(rs[1..], keyCols) by {
        forall i | 0 <= i < |rs[1..]| ensures KeyOf(rs[1..][i], keyCols) != k0 {
          assert rs[1..][i] == rs[i + 1];
        }
      }
      var d := UpsertAll(c, keyCols, Merge, rs);
      forall i | 0 <= i < |rs|
        ensures var k := KeyOf(rs[i], keyCols);
          k in d.rows && d.rows[k] == (if k in c.rows then c.rows[k] + rs[i] else rs[i])
      {
        if i > 0 {
          assert rs[1..][i - 1] == rs[i];
          assert KeyOf(rs[i], keyCols) != k0;
        }
      }
    }
  }

  /** The projection of a stored row on some columns, None where the row has no value (select of those columns). */
  function Project(r: Record, cols: seq<string>): (p: Record)
    ensures p.Keys == set c | c in cols
    ensures forall c | c in cols :: p[c] == Lookup(r, c)
  {
    map c | c in cols :: Lookup(r, c)
  }

  /** Every stored row projected on the columns, in stored order. */
  function Scan(c: Contents, cols: seq<string>): (rs: seq<Record>)
    requires Consistent(c)
    ensures |rs| == |c.order| && forall i | 0 <= i < |rs| :: rs[i] == Project(c.rows[c.order[i]], cols)
  {
    seq(|c.order|, i requires 0 <= i < |c.order| => Project(c.rows[c.order[i]], cols))
  }

  /** Why the upsert made as call number n fails, if it does. */
  function UpsertFailure(failing: map<nat, string>, n: nat, keyCols: seq<string>, mode: Conflict, batch: seq<Record>): Option<string>
  {
    if n in failing then Some(failing[n])
    else if mode == Merge && !DistinctKeys(batch, keyCols) then Some(TwiceMessage)
    else None
  }

  function Min(a: nat, b: nat): nat { if a < b then a else b }

  /**
   * Records sent in consecutive batches of `size`, starting with call number
   * n: a failing batch raises and no later batch is sent.  Gives the table
   * contents, the next call number and the outcome.
   */
  function RunBatches(c: Contents, n: nat, failing: map<nat, string>, keyCols: seq<string>, mode: Conflict,
                      rs: seq<Record>, size: nat): (Contents, nat, Outcome)
    requires size > 0
    decreases |rs|
  {
    if rs == [] then (c, n, Done)
    else
      var batch := rs[..Min(size, |rs|)];
      match UpsertFailure(failing, n, keyCols, mode, batch)
      case Some(msg) => (c, n + 1, Raised(msg))
      case None => RunBatches(UpsertAll(c, keyCols, mode, batch), n + 1, failing, keyCols, mode, rs[Min(size, |rs|)..], size)
  }

  /** Where batch number j starts. */
  function Start(j: nat, size: nat): nat { j * size }

  /** When no batch fails, batched writing commits every record. */
  lemma {:induction false} RunBatchesDone(c: Contents, n: nat, failing: map<nat, string>, keyCols: seq<string>, mode: Conflict,
                                          rs: seq<Record>, size: nat)
    requires size > 0
    ensures var r := RunBatches(c, n, failing, keyCols, mode, rs, size);
      r.2.Done? ==> r.0 == UpsertAll(c, keyCols, mode, rs)
    decreases |rs|
  {
    if rs != [] {
      var m := Min(size, |rs|);
      var batch := rs[..m];
      if UpsertFailure(failing, n, keyCols, mode, batch).None? {
        var rest := rs[m..];
        RunBatchesDone(UpsertAll(c, keyCols, mode, batch), n + 1, failing, keyCols, mode, rest, size);
        assert batch + rest == rs;
        UpsertAllAppend(c, keyCols, mode, batch, rest);
      }
    }
  }

  /** When no batch fails, batched writing makes one call per batch. */
  lemma {:induction false} RunBatchesCalls(c: Contents, n: nat, failing: map<nat, string>, keyCols: seq<string>, mode: Conflict,
                                           rs: seq<Record>, size: nat)
    requires size > 0
    ensures var r := RunBatches(c, n, failing, keyCols, mode, rs, size);
      r.2.Done? ==> r.1 == n + Batches(|rs|, size)
    decreases |rs|
  {
    if rs != [] {
      var m := Min(size, |rs|);
      if UpsertFailure(failing, n, keyCols, mode, rs[..m]).None? {
        RunBatchesCalls(UpsertAll(c, keyCols, mode, rs[..m]), n + 1, failing, keyCols, mode, rs[m..], size);
      }
    }
  }

  /**
   * When a batch fails, batched writing has committed exactly the batches
   * before it: the records before its start, which is a whole number of
   * batches in; the failing batch raises its error and is the last call.
   */
  lemma {:induction false} RunBatchesRaised(c: Contents, n: nat, failing: map<nat, string>, keyCols: seq<string>, mode: Conflict,
                                            rs: seq<Record>, size: nat)
    requires size > 0
    ensures var r := RunBatches(c, n, failing, keyCols, mode, rs, size);
      r.2.Raised? ==> exists j: nat | Start(j, size) < |rs| :: FailedAt(c, n, failing, keyCols, mode, rs, size, j, r)
    decreases |rs|
  {
    var r := RunBatches(c, n, failing, keyCols, mode, rs, size);
    if rs != [] {
      var m := Min(size, |rs|);
      var batch := rs[..m];
      if UpsertFailure(failing, n, keyCols, mode, batch).Some? {
        assert Start(0, size) == 0 && rs[..0] == [] && rs[0..] == rs;
        assert FailedAt(c, n, failing, keyCols, mode, rs, size, 0, r);
      } else {
        var c' := UpsertAll(c, keyCols, mode, batch);
        var rest := rs[m..];
        assert r == RunBatches(c', n + 1, failing, keyCols, mode, rest, size);
        RunBatchesRaised(c', n + 1, failing, keyCols, mode, rest, size);
        if r.2.Raised? {
          var q: nat :| Start(q, size) < |rest| && FailedAt(c', n + 1, failing, keyCols, mode, rest, size, q, r);
          FailedAtShift(c, n, failing, keyCols, mode, rs, size, q, r);
        }
      }
    }
  }

  /** Batch j is where the run r stopped: the batches before it are committed, it raised r's error, and it was the last call. */
  predicate FailedAt(c: Contents, n: nat, failing: map<nat, string>, keyCols: seq<string>, mode: Conflict,
                     rs: seq<Record>, size: nat, j: nat, r: (Contents, nat, Outcome))
    requires size > 0 && Start(j, size) < |rs| && r.2.Raised?
  {
    var p := Start(j, size);
    r.0 == UpsertAll(c, keyCols, mode, rs[..p]) &&
    UpsertFailure(failing, n + j, keyCols, mode, rs[p..][..Min(size, |rs| - p)]) == Some(r.2.msg) &&
    r.1 == n + j + 1
  }

  /** A stop at batch q of the rest after a committed first batch is a stop at batch q + 1 of the whole. */
  lemma FailedAtShift(c: Contents, n: nat, failing: map<nat, string>, keyCols: seq<string>, mode: Conflict,
                      rs: seq<Record>, size: nat, q: nat, r: (Contents, nat, Outcome))
    requires size > 0 && size < |rs| && r.2.Raised?
    requires UpsertFailure(failing, n, keyCols, mode, rs[..size]).None?
    requires Start(q, size) < |rs[size..]|
    requires FailedAt(UpsertAll(c, keyCols, mode, rs[..size]), n + 1, failing, keyCols, mode, rs[size..], size, q, r)
    ensures Start(q + 1, size) < |rs| && FailedAt(c, n, failing, keyCols, mode, rs, size, q + 1, r)
  {
    var batch, rest := rs[..size], rs[size..];
    var pq := Start(q, size);
    var p := Start(q + 1, size);
    StartNext(q, size);
    assert p == size + pq && p < |rs|;
    assert UpsertAll(c, keyCols, mode, rs[..p]) == r.0 by {
      assert rs[..p] == batch + rest[..pq];
      UpsertAllAppend(c, keyCols, mode, batch, rest[..pq]);
    }
    assert rs[p..] == rest[pq..];
    assert n + q + 1 == (n + 1) + q;
  }

  lemma StartNext(q: nat, size: nat)
    ensures Start(q + 1, size) == size + Start(q, size)
  {
  }

  /** A slice of records with distinct keys has distinct keys. */
  lemma DistinctKeysSlice(rs: seq<Record>, keyCols: seq<string>, a: nat, b: nat)
    requires DistinctKeys(rs, keyCols) && a <= b <= |rs|
    ensures DistinctKeys(rs[a..b], keyCols)
  {
    forall i, j | 0 <= i < j < b - a ensures KeyOf(rs[a..b][i], keyCols) != KeyOf(rs[a..b][j], keyCols) {
      assert rs[a..b][i] == rs[a + i] && rs[a..b][j] == rs[a + j];
    }
  }

  /**
   * Records with distinct keys never make a merging upsert touch a row twice:
   * a batched write of them can only fail with the error of a failing call.
   */
  lemma RunBatchesDistinct(c: Contents, n: nat, failing: map<nat, string>, keyCols: seq<string>,
                           rs: seq<Record>, size: nat)
    requires size > 0 && DistinctKeys(rs, keyCols)
    ensures var r := RunBatches(c, n, failing, keyCols, Merge, rs, size);
      r.2.Raised? ==> r.1 >= 1 && r.1 - 1 in failing && r.2.msg == failing[r.1 - 1]
  {
    var r := RunBatches(c, n, failing, keyCols, Merge, rs, size);
    RunBatchesRaised(c, n, failing, keyCols, Merge, rs, size);
    if r.2.Raised? {
      var j: nat :| Start(j, size) < |rs| && FailedAt(c, n, failing, keyCols, Merge, rs, size, j, r);
      FailedAtDistinct(c, n, failing, keyCols, rs, size, j, r);
    }
  }

  /** A batch of records with distinct keys that raised was a failing call. */
  lemma FailedAtDistinct(c: Contents, n: nat, failing: map<nat, string>, keyCols: seq<string>,
                         rs: seq<Record>, size: nat, j: nat, r: (Contents, nat, Outcome))
    requires size > 0 && DistinctKeys(rs, keyCols) && Start(j, size) < |rs| && r.2.Raised?
    requires FailedAt(c, n, failing, keyCols, Merge, rs, size, j, r)
    ensures r.1 == n + j + 1 && n + j in failing && r.2.msg == failing[n + j]
  {
    var p := Start(j, size);
    var m := Min(size, |rs| - p);
    DistinctKeysSlice(rs, keyCols, p, p + m);
    assert rs[p..][..m] == rs[p..p + m];
  }

  /** The number of batches of `size` that `len` records make. */
  function Batches(len: nat, size: nat): nat
    requires size > 0
    decreases len
  {
    if len == 0 then 0 else 1 + Batches(len - Min(size, len), size)
  }

  /**
   * A table of the database, changed in place by the client's calls.  Call
   * number `calls` fails when it is a key of `failing`, with that text.
   */
  class Table {
    var rows: map<Key, Record>
    var order: seq<Key>
    var calls: nat
    const keyCols: seq<string>
    const failing: map<nat, string>

    function Value(): Contents
      reads this
    {
      Contents(rows, order)
    }

    ghost predicate Valid()
      reads this
    {
      Consistent(Value())
    }

    constructor (keyCols: seq<string>, failing: map<nat, string>, initial: Contents)
      requires Consistent(initial)
      ensures Valid() && Value() == initial && calls == 0
      ensures this.keyCols == keyCols && this.failing == failing
    {
      this.keyCols := keyCols;
      this.failing := failing;
      rows, order := initial.rows, initial.order;
      calls := 0;
    }

    /** table.upsert(batch, on_conflict=keyCols).execute() */
    method Upsert(batch: seq<Record>, mode: Conflict) returns (out: Outcome)
      requires Valid()
      modifies this
      ensures Valid() && calls == old(calls) + 1
      ensures out == (match UpsertFailure(failing, old(calls), keyCols, mode, batch) case Some(m) => Raised(m) case None => Done)
      ensures out.Done? ==> Value() == UpsertAll(old(Value()), keyCols, mode, batch)
      ensures out.Raised? ==> Value() == old(Value())
    {
      var failure := UpsertFailure(failing, calls, keyCols, mode, batch);
      calls := calls + 1;
      match failure
      case Some(m) =>
        out := Raised(m);
      case None =>
        UpsertAllKeys(Value(), keyCols, mode, batch);
        var d := UpsertAll(Value(), keyCols, mode, batch);
        rows, order := d.rows, d.order;
        out := Done;
    }

    /** table.select(cols).range(offset, offset + limit - 1).execute(): the stored rows in that window, projected. */
    method SelectRange(cols: seq<string>, offset: nat, limit: nat) returns (r: Result<seq<Record>>)
      requires Valid()
      modifies this
      ensures Valid() && calls == old(calls) + 1 && Value() == old(Value())
      ensures old(calls) in failing ==> r == Err(failing[old(calls)])
      ensures old(calls) !in failing ==>
        r == Ok(Scan(Value(), cols)[Min(offset, |order|)..Min(offset + limit, |order|)])
    {
      if calls in failing {
        r := Err(failing[calls]);
      } else {
        var all := Scan(Value(), cols);
        r := Ok(all[Min(offset, |order|)..Min(offset + limit, |order|)]);
      }
      calls := calls + 1;
    }
  }

  /**
   * Records upserted in consecutive batches of `size` (`for i in range(0,
   * len(records), size)`); the first failing batch is raised and ends the loop.
   */
  method UpsertInBatches(t: Table, rs: seq<Record>, size: nat, mode: Conflict) returns (out: Outcome)
    requires t.Valid() && size > 0
    modifies t
    ensures t.Valid()
    ensures (t.Value(), t.calls, out) == RunBatches(old(t.Value()), old(t.calls), t.failing, t.keyCols, mode, rs, size)
  {
    var i := 0;
    while i < |rs|
      invariant 0 <= i <= |rs| && t.Valid()
      invariant RunBatches(old(t.Value()), old(t.calls), t.failing, t.keyCols, mode, rs, size)
             == RunBatches(t.Value(), t.calls, t.failing, t.keyCols, mode, rs[i..], size)
      decreases |rs| - i
    {
      var batch := rs[i..Min(i + size, |rs|)];
      assert batch == rs[i..][..Min(size, |rs[i..]|)];
      var o := t.Upsert(batch, mode);
      if o.Raised? {
        return o;
      }
      assert rs[i..][Min(size, |rs[i..]|)..] == rs[Min(i + size, |rs|)..];
      i := Min(i + size, |rs|);
    }
    assert rs[i..] == [];
    out := Done;
  }
}
