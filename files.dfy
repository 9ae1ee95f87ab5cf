/**
 * The received_files table, which tracks each uploaded file and its
 * processing status.  Calls fail as the table's `failing` map says; every
 * update call is remembered with its outcome, so that the sequence of
 * statuses a run tried to write can be stated.
 */
module Files {
  import opened Wrappers
  import opened Cells
  import opened Tables

  /** One update call: the file id, the fields sent, and whether it went through. */
  datatype Write = Write(id: string, fields: Record, ok: bool)

  /** The 'status' values of the update calls made for one file, in order, whether or not they went through. */
  function Statuses(ws: seq<Write>, id: string): seq<Cell>
    decreases |ws|
  {
    if ws == [] then []
    else
      var last := ws[|ws| - 1];
      Statuses(ws[..|ws| - 1], id) + (if last.id == id then [Lookup(last.fields, "status")] else [])
  }

  /** The statuses of a run's calls are those of the calls before it followed by its own. */
  lemma {:induction false} StatusesAppend(a: seq<Write>, b: seq<Write>, id: string)
    ensures Statuses(a + b, id) == Statuses(a, id) + Statuses(b, id)
    decreases |b|
  {
    if b == [] {
      assert a + b == a;
    } else {
      var n := |b| - 1;
      assert (a + b)[..|a + b| - 1] == a + b[..n];
      StatusesAppend(a, b[..n], id);
    }
  }

  class FileTable {
    var rows: map<string, Record>
    var calls: nat
    ghost var writes: seq<Write>
    const failing: map<nat, string>

    constructor (failing: map<nat, string>, initial: map<string, Record>)
      ensures rows == initial && calls == 0 && writes == [] && this.failing == failing
    {
      this.failing := failing;
      rows := initial;
      calls := 0;
      writes := [];
    }

    /** table('received_files').update(fields).eq('id', id).execute(): the fields are merged into the row with that id, if there is one. */
    method Update(id: string, fields: Record) returns (out: Outcome)
      modifies this
      ensures calls == old(calls) + 1
      ensures out == if old(calls) in failing then Raised(failing[old(calls)]) else Done
      ensures rows == if out.Raised? || id !in old(rows) then old(rows) else old(rows)[id := old(rows)[id] + fields]
      ensures writes == old(writes) + [Write(id, fields, out.Done?)]
    {
      if calls in failing {
        out := Raised(failing[calls]);
      } else {
        if id in rows {
          rows := rows[id := rows[id] + fields];
        }
        out := Done;
      }
      writes := writes + [Write(id, fields, out.Done?)];
      calls := calls + 1;
    }

    /** table('received_files').insert(row).execute(): a new row under the id the database assigns. */
    method Insert(row: Record, newId: string) returns (r: Result<string>)
      requires newId !in rows
      modifies this
      ensures calls == old(calls) + 1 && writes == old(writes)
      ensures old(calls) in failing ==> r == Err(failing[old(calls)]) && rows == old(rows)
      ensures old(calls) !in failing ==> r == Ok(newId) && rows == old(rows)[newId := row]
    {
      if calls in failing {
        r := Err(failing[calls]);
      } else {
        rows := rows[newId := row];
        r := Ok(newId);
      }
      calls := calls + 1;
    }
  }
}
