/**
 * The WhatsApp outbox worker: one pass picks the due queued rows, oldest
 * first and at most a batch of them, claims each one by moving it from
 * queued to sending, sends it, and records success, a retry with back-off,
 * or a final failure.  The outbox table is a map from row id to row; the
 * WhatsApp client is an oracle taking a request and returning the response
 * or the exception's message; `now` stands for the database clock.
 */
module WaWorker {
  import opened Wrappers
  import opened Numbers
  import opened JsonValues

  /** WA_MAX_ATTEMPTS and WA_BATCH_SIZE, at their defaults. */
  const MaxAttempts := 5
  const BatchSize := 10

  /** The back-off steps in seconds: 1, 5, 15 and 60 minutes. */
  const Steps: seq<nat> := [60, 300, 900, 3600]

  /**
   * _backoff_seconds: base[min(attempts - 1, 3)] with Python's indexing, so
   * an index from -4 to -1 counts from the end and a lower one raises
   * IndexError (None).
   */
  function BackoffSeconds(attempts: int): (r: Option<nat>)
    ensures r.Some? ==> r.value in Steps
    ensures r.None? <==> attempts <= -4
  {
    var idx := if attempts - 1 < |Steps| - 1 then attempts - 1 else |Steps| - 1;
    if idx >= 0 then Some(Steps[idx])
    else if idx >= -|Steps| then Some(Steps[|Steps| + idx])
    else None
  }

  /** From the first attempt on: 60, 300, 900, then 3600 for ever. */
  lemma BackoffSchedule(attempts: int)
    requires attempts >= 1
    ensures BackoffSeconds(attempts) == Some(if attempts == 1 then 60 else if attempts == 2 then 300 else if attempts == 3 then 900 else 3600)
  {
  }

  /** The delay never decreases with the attempt count, and never exceeds an hour. */
  lemma BackoffMonotone(a: int, b: int)
    requires 1 <= a <= b
    ensures BackoffSeconds(a).value <= BackoffSeconds(b).value <= 3600
  {
  }

  /** Counts below one wrap round the list; from -3 down to 0 they give 60, 300, 900, 3600. */
  lemma BackoffWraps(attempts: int)
    requires -3 <= attempts <= 0
    ensures BackoffSeconds(attempts) == Some(Steps[attempts + 3])
  {
  }

  datatype Status = Queued | Sending | Sent | Failed | OtherStatus(name: string)

  /**
   * A wa_outbox row: the columns the worker reads and writes, and the
   * remaining ones (to_number, template_name, variables, ...) as JSON.
   */
  datatype Row = Row(
    id: string,
    status: Status,
    attempts: Option<nat>,
    lastError: Option<string>,
    scheduledAt: int,
    updatedAt: int,
    sentAt: Option<int>,
    response: Option<Json>,
    data: map<string, Json>)

  /** The item's attempts so far: 0 when absent or falsy. */
  function Attempts(item: Row): nat
  {
    if item.attempts.Some? then item.attempts.value else 0
  }

  predicate Due(r: Row, now: int)
  {
    r.status == Queued && r.scheduledAt <= now
  }

  function Time(r: Row): int
  {
    r.scheduledAt
  }

  /** Ordered by a key, ties in any order. */
  predicate SortedBy<T>(s: seq<T>, key: T -> int)
  {
    forall i, j | 0 <= i < j < |s| :: key(s[i]) <= key(s[j])
  }

  /** Insertion into a list ordered by key, before the elements with an equal key. */
  function InsertBy<T>(x: T, s: seq<T>, key: T -> int): seq<T>
  {
    if s == [] then [x]
    else if key(x) <= key(s[0]) then [x] + s
    else [s[0]] + InsertBy(x, s[1..], key)
  }

  lemma {:induction false} InsertPermutes<T>(x: T, s: seq<T>, key: T -> int)
    ensures multiset(InsertBy(x, s, key)) == multiset(s) + multiset{x}
  {
    if s != [] && key(x) > key(s[0]) {
      InsertPermutes(x, s[1..], key);
      assert s == [s[0]] + s[1..];
    }
  }

  /** Inserting into a sorted list whose keys, like x's, are all at least lo keeps it so. */
  lemma {:induction false} InsertKeepsSorted<T>(x: T, s: seq<T>, key: T -> int, lo: int)
    requires SortedBy(s, key) && lo <= key(x)
    requires forall k | 0 <= k < |s| :: lo <= key(s[k])
    ensures var r := InsertBy(x, s, key);
      SortedBy(r, key) && forall k | 0 <= k < |r| :: lo <= key(r[k])
  {
    if s == [] {
    } else if key(x) <= key(s[0]) {
      var r := [x] + s;
      assert forall k | 0 < k < |r| :: r[k] == s[k - 1];
    } else {
      var rest := InsertBy(x, s[1..], key);
      InsertKeepsSorted(x, s[1..], key, key(s[0]));
      var r := [s[0]] + rest;
      assert forall k | 0 < k < |r| :: r[k] == rest[k - 1];
    }
  }

  /** Inserting into a sorted list keeps it sorted and adds exactly x. */
  lemma InsertSorted<T>(x: T, s: seq<T>, key: T -> int)
    requires SortedBy(s, key)
    ensures SortedBy(InsertBy(x, s, key), key)
    ensures multiset(InsertBy(x, s, key)) == multiset(s) + multiset{x}
  {
    var lo := if s == [] || key(x) <= key(s[0]) then key(x) else key(s[0]);
    InsertKeepsSorted(x, s, key, lo);
    InsertPermutes(x, s, key);
  }

  /** Insertion sort by key; the first of two equal keys stays first. */
  function SortBy<T>(s: seq<T>, key: T -> int): (r: seq<T>)
    ensures multiset(r) == multiset(s) && SortedBy(r, key)
  {
    if s == [] then []
    else
      var rest := SortBy(s[1..], key);
      var r := InsertBy(s[0], rest, key);
      assert SortedBy(r, key) && multiset(r) == multiset(rest) + multiset{s[0]} by {
        InsertSorted(s[0], rest, key);
      }
      assert multiset(s) == multiset(s[1..]) + multiset{s[0]} by {
        assert s == [s[0]] + s[1..];
      }
      r
  }

  /** ORDER BY scheduled_at. */
  function SortByTime(s: seq<Row>): (r: seq<Row>)
    ensures multiset(r) == multiset(s)
    ensures forall i, j | 0 <= i < j < |r| :: r[i].scheduledAt <= r[j].scheduledAt
  {
    var r := SortBy(s, Time);
    assert SortedBy(r, Time);
    r
  }

  /** The rows in table order, for the ids listed there. */
  function InTableOrder(rows: map<string, Row>, order: seq<string>): (r: seq<Row>)
    ensures forall x | x in r :: x in rows.Values
  {
    if order == [] then []
    else (if order[0] in rows then [rows[order[0]]] else []) + InTableOrder(rows, order[1..])
  }

  function DueRows(s: seq<Row>, now: int): (r: seq<Row>)
    ensures forall x :: x in r <==> x in s && Due(x, now)
  {
    if s == [] then [] else (if Due(s[0], now) then [s[0]] else []) + DueRows(s[1..], now)
  }

  /** _pick_queue: status 'queued' and scheduled_at <= now(), oldest first, LIMIT BATCH_SIZE. */
  function PickQueue(rows: map<string, Row>, order: seq<string>, now: int): (r: seq<Row>)
    ensures |r| <= BatchSize
    ensures forall i, j | 0 <= i < j < |r| :: r[i].scheduledAt <= r[j].scheduledAt
    ensures forall x | x in r :: Due(x, now)
  {
    var due := DueRows(InTableOrder(rows, order), now);
    var sorted := SortByTime(due);
    var r := if |sorted| <= BatchSize then sorted else sorted[..BatchSize];
    assert forall k | 0 <= k < |r| :: r[k] == sorted[k];
    forall x | x in r
      ensures Due(x, now)
    {
      assert x in multiset(sorted);
      assert x in due;
    }
    r
  }

  /** Each picked row is the table's row under its id. */
  lemma PickedFromTable(rows: map<string, Row>, order: seq<string>, now: int)
    requires forall id | id in rows :: rows[id].id == id
    ensures forall x | x in PickQueue(rows, order, now) :: x.id in rows && rows[x.id] == x
  {
    var s := InTableOrder(rows, order);
    var sorted := SortByTime(DueRows(s, now));
    forall x | x in PickQueue(rows, order, now)
      ensures x.id in rows && rows[x.id] == x
    {
      assert x in sorted;
      assert x in multiset(DueRows(s, now));
    }
  }

  /** A due row that is not picked waits because a full batch of rows at least as old was picked. */
  lemma PickComplete(rows: map<string, Row>, order: seq<string>, now: int, id: string)
    requires id in rows && id in order && Due(rows[id], now)
    requires rows[id] !in PickQueue(rows, order, now)
    ensures var r := PickQueue(rows, order, now);
      |r| == BatchSize && r[BatchSize - 1].scheduledAt <= rows[id].scheduledAt
  {
    var x := rows[id];
    InTableOrderHas(rows, order, id);
    var due := DueRows(InTableOrder(rows, order), now);
    var sorted := SortByTime(due);
    assert x in multiset(due);
    assert x in sorted;
    var j :| 0 <= j < |sorted| && sorted[j] == x;
    var r := PickQueue(rows, order, now);
    assert forall k | 0 <= k < |r| :: r[k] == sorted[k];
    assert forall k | 0 <= k < |r| :: r[k] != x;
    assert j >= |r|;
  }

  lemma {:induction false} InTableOrderHas(rows: map<string, Row>, order: seq<string>, id: string)
    requires id in rows && id in order
    ensures rows[id] in InTableOrder(rows, order)
  {
    if order[0] != id {
      InTableOrderHas(rows, order[1..], id);
    }
  }

  /** The row after a successful claim. */
  function ClaimedRow(r: Row, now: int): Row
  {
    r.(status := Sending, updatedAt := now)
  }

  /** The row after _finalize_success, with the attempt count taken from the picked copy of the row. */
  function SucceededRow(r: Row, item: Row, resp: Json, now: int): Row
  {
    r.(status := Sent, attempts := Some(Attempts(item) + 1), lastError := None, response := Some(resp),
       sentAt := Some(now), updatedAt := now)
  }

  /** The row after _finalize_failure: failed at MAX_ATTEMPTS, else queued again after the back-off. */
  function FailedRow(r: Row, item: Row, error: string, now: int): Row
  {
    var attempts := Attempts(item) + 1;
    if attempts >= MaxAttempts then
      r.(status := Failed, attempts := Some(attempts), lastError := Some(error), updatedAt := now)
    else
      r.(status := Queued, attempts := Some(attempts), lastError := Some(error),
         scheduledAt := now + BackoffSeconds(attempts).value, updatedAt := now)
  }

  /** A failure counts one attempt more; it gives up exactly at MAX_ATTEMPTS, otherwise retries strictly later. */
  lemma FailureRetriesOrGivesUp(r: Row, item: Row, error: string, now: int)
    ensures var f := FailedRow(r, item, error, now);
      f.attempts == Some(Attempts(item) + 1) && f.lastError == Some(error) && f.id == r.id &&
      (f.status == Failed <==> Attempts(item) + 1 >= MaxAttempts) &&
      (f.status != Failed ==> f.status == Queued && now + 60 <= f.scheduledAt <= now + 3600)
  {
    var attempts := Attempts(item) + 1;
    if attempts < MaxAttempts {
      BackoffMonotone(1, attempts);
    }
  }

  /** A success counts one attempt more and clears the last error. */
  lemma SuccessRecorded(r: Row, item: Row, resp: Json, now: int)
    ensures var s := SucceededRow(r, item, resp, now);
      s.status == Sent && s.attempts == Some(Attempts(item) + 1) && s.lastError.None? && s.response == Some(resp) && s.id == r.id
  {
  }

  /** What the worker hands to the WhatsApp client. */
  datatype Request = Request(to: Json, template: Json, lang: Json, components: Option<Json>)

  function Field(item: Row, k: string): Json
  {
    if k in item.data then item.data[k] else JNull
  }

  /** to_number, else user_number_normalized. */
  function Recipient(item: Row): (r: Json)
    ensures Truthy(Field(item, "to_number")) ==> r == Field(item, "to_number")
    ensures !Truthy(Field(item, "to_number")) ==> r == Field(item, "user_number_normalized")
  {
    Or(Field(item, "to_number"), Field(item, "user_number_normalized"))
  }

  function TextParam(text: string): Json
  {
    JObj(map["type" := JStr("text"), "text" := JStr(text)])
  }

  function BodyComponent(texts: seq<string>): Json
  {
    JList([JObj(map["type" := JStr("body"), "parameters" := JList(seq(|texts|, k requires 0 <= k < |texts| => TextParam(texts[k])))])])
  }

  /** The name Python gives the type of a JSON value. */
  function TypeName(v: Json): string
  {
    match v
    case JNull => "NoneType"
    case JBool(_) => "bool"
    case JNum(_) => "int"
    case JFloat(_) => "float"
    case JStr(_) => "str"
    case JList(_) => "list"
    case JObj(_) => "dict"
  }

  /** str() of the TypeError a for loop raises on a value it cannot iterate. */
  function NotIterable(v: Json): string
  {
    "'" + TypeName(v) + "' object is not iterable"
  }

  /** A number stored as variables gives the message Python prints for an int. */
  lemma IntNotIterable(n: int)
    ensures NotIterable(JNum(n)) == "'int' object is not iterable"
  {
    assert TypeName(JNum(n)) == "int";
  }

  /**
   * The values a for loop visits: a list's items, a string's characters, a
   * dict's keys in insertion order; any other value raises TypeError.
   */
  function Elements(v: Json, keys: map<string, Json> -> seq<string>): (r: Result<seq<Json>>)
    ensures r.Ok? <==> v.JList? || v.JStr? || v.JObj?
    ensures v.JList? ==> r == Ok(v.items)
    ensures v.JStr? ==> r.Ok? && |r.value| == |v.s| && forall k | 0 <= k < |v.s| :: r.value[k] == JStr([v.s[k]])
    ensures r.Err? ==> r.msg == NotIterable(v)
  {
    match v
    case JList(items) => Ok(items)
    case JStr(s) => Ok(seq(|s|, k requires 0 <= k < |s| => JStr([s[k]])))
    case JObj(fields) => Ok(seq(|keys(fields)|, k requires 0 <= k < |keys(fields)| => JStr(keys(fields)[k])))
    case _ => Err(NotIterable(v))
  }

  /**
   * _build_components: stored components when truthy; else one body
   * component with a text parameter per variable, str() of each; else the
   * user name as the only parameter; else None.
   */
  function BuildComponents(item: Row, repr: Json -> string, keys: map<string, Json> -> seq<string>): (r: Result<Option<Json>>)
  {
    var components := Field(item, "components");
    if Truthy(components) then Ok(Some(components))
    else
      var variables := Or(Field(item, "variables"), JList([]));
      if Truthy(variables) then
        match Elements(variables, keys)
        case Err(e) => Err(e)
        case Ok(vs) => Ok(Some(BodyComponent(seq(|vs|, k requires 0 <= k < |vs| => PyStr(vs[k], repr)))))
      else
        var userName := Field(item, "user_name");
        if Truthy(userName) then Ok(Some(BodyComponent([PyStr(userName, repr)])))
        else Ok(None)
  }

  /** The texts of a single body component's text parameters, read back. */
  function BodyTexts(c: Json): Option<seq<string>>
  {
    if c.JList? && |c.items| == 1 && c.items[0].JObj? && "parameters" in c.items[0].fields && c.items[0].fields["parameters"].JList? then
      var ps := c.items[0].fields["parameters"].items;
      if forall k | 0 <= k < |ps| :: ps[k].JObj? && "text" in ps[k].fields && ps[k].fields["text"].JStr? then
        Some(seq(|ps|, k requires 0 <= k < |ps| => ps[k].fields["text"].s))
      else None
    else None
  }

  lemma BodyTextsRoundTrip(texts: seq<string>)
    ensures BodyTexts(BodyComponent(texts)) == Some(texts)
  {
    var c := BodyComponent(texts);
    var ps := c.items[0].fields["parameters"].items;
    assert forall k | 0 <= k < |ps| :: ps[k] == TextParam(texts[k]);
    assert seq(|ps|, k requires 0 <= k < |ps| => ps[k].fields["text"].s) == texts;
  }

  /** Stored components win; else a list of variables gives one text parameter per variable, in order, as str(); else the user name. */
  lemma ComponentsChosen(item: Row, repr: Json -> string, keys: map<string, Json> -> seq<string>)
    ensures var r := BuildComponents(item, repr, keys);
      var components, variables, userName := Field(item, "components"), Field(item, "variables"), Field(item, "user_name");
      (Truthy(components) ==> r == Ok(Some(components))) &&
      (!Truthy(components) && variables.JList? && variables.items != [] ==>
        r.Ok? && r.value.Some? && BodyTexts(r.value.value) == Some(seq(|variables.items|, k requires 0 <= k < |variables.items| => PyStr(variables.items[k], repr)))) &&
      (!Truthy(components) && !Truthy(variables) && Truthy(userName) ==>
        r.Ok? && r.value.Some? && BodyTexts(r.value.value) == Some([PyStr(userName, repr)])) &&
      (!Truthy(components) && !Truthy(variables) && !Truthy(userName) ==> r == Ok(None))
  {
    var components, variables := Field(item, "components"), Field(item, "variables");
    if !Truthy(components) && variables.JList? && variables.items != [] {
      BodyTextsRoundTrip(seq(|variables.items|, k requires 0 <= k < |variables.items| => PyStr(variables.items[k], repr)));
    }
    if !Truthy(components) && !Truthy(variables) && Truthy(Field(item, "user_name")) {
      BodyTextsRoundTrip([PyStr(Field(item, "user_name"), repr)]);
    }
  }

  /** lang_code, defaulting to pt_BR. */
  function Language(item: Row): (r: Json)
    ensures Truthy(Field(item, "lang_code")) ==> r == Field(item, "lang_code")
    ensures !Truthy(Field(item, "lang_code")) ==> r == JStr("pt_BR")
  {
    Or(Field(item, "lang_code"), JStr("pt_BR"))
  }

  /**
   * What one picked item does to the table, and whether it counted as sent:
   * nothing unless its row is still queued; a claimed row with no recipient
   * fails without a send; a message counts only when the send returned.
   */
  function ItemStep(rows: map<string, Row>, item: Row, now: int, send: Request -> Result<Json>,
                    repr: Json -> string, keys: map<string, Json> -> seq<string>): (r: (map<string, Row>, nat))
    ensures !(item.id in rows && rows[item.id].status == Queued) ==> r == (rows, 0)
    ensures r.1 <= 1
    ensures !Truthy(Recipient(item)) ==> r.1 == 0
    ensures r.1 == 1 ==> item.id in r.0 && r.0[item.id].status == Sent && r.0[item.id].attempts == Some(Attempts(item) + 1)
  {
    if !(item.id in rows && rows[item.id].status == Queued) then (rows, 0)
    else
      var claimed := ClaimedRow(rows[item.id], now);
      var to := Recipient(item);
      if !Truthy(to) then (rows[item.id := FailedRow(claimed, item, "Missing to", now)], 0)
      else match BuildComponents(item, repr, keys)
        case Err(e) => (rows[item.id := FailedRow(claimed, item, e, now)], 0)
        case Ok(components) =>
          match send(Request(to, Field(item, "template_name"), Language(item), components))
          case Err(e) => (rows[item.id := FailedRow(claimed, item, e, now)], 0)
          case Ok(resp) => (rows[item.id := SucceededRow(claimed, item, resp, now)], 1)
  }

  /**
   * A truthy variables value that is not iterable (a number, true) makes
   * _build_components raise; the handler stores str() of the TypeError as
   * the row's last error and nothing is sent.
   */
  lemma NotIterableVariablesFail(rows: map<string, Row>, item: Row, now: int, send: Request -> Result<Json>,
                                 repr: Json -> string, keys: map<string, Json> -> seq<string>)
    requires item.id in rows && rows[item.id].status == Queued
    requires Truthy(Recipient(item)) && !Truthy(Field(item, "components"))
    requires var v := Field(item, "variables"); Truthy(v) && (v.JNum? || v.JFloat? || v.JBool?)
    ensures var r := ItemStep(rows, item, now, send, repr, keys);
      r.1 == 0 && item.id in r.0 && r.0[item.id].lastError == Some(NotIterable(Field(item, "variables"))) &&
      r.0[item.id].attempts == Some(Attempts(item) + 1)
  {
    var v := Field(item, "variables");
    assert Or(v, JList([])) == v;
    assert BuildComponents(item, repr, keys) == Err(NotIterable(v));
    FailureRetriesOrGivesUp(ClaimedRow(rows[item.id], now), item, NotIterable(v), now);
  }

  /** The loop of process_once over the picked items, as a function of its prefix. */
  function Run(rows: map<string, Row>, items: seq<Row>, now: int, send: Request -> Result<Json>,
               repr: Json -> string, keys: map<string, Json> -> seq<string>): (r: (map<string, Row>, nat))
    ensures r.1 <= |items|
  {
    if items == [] then (rows, 0)
    else
      var before := Run(rows, items[..|items| - 1], now, send, repr, keys);
      var step := ItemStep(before.0, items[|items| - 1], now, send, repr, keys);
      (step.0, before.1 + step.1)
  }

  /** One more item: the loop's state after the prefix of length k + 1. */
  lemma RunStep(rows: map<string, Row>, items: seq<Row>, k: nat, now: int, send: Request -> Result<Json>,
                repr: Json -> string, keys: map<string, Json> -> seq<string>)
    requires k < |items|
    ensures var before := Run(rows, items[..k], now, send, repr, keys);
      var step := ItemStep(before.0, items[k], now, send, repr, keys);
      Run(rows, items[..k + 1], now, send, repr, keys) == (step.0, before.1 + step.1)
  {
    assert items[..k + 1][..k] == items[..k];
  }

  class Outbox {
    /** wa_outbox, by id. */
    var rows: map<string, Row>
    /** The order the table returns rows in when scheduled times tie. */
    var order: seq<string>

    constructor (rows: map<string, Row>, order: seq<string>)
      ensures this.rows == rows && this.order == order
    {
      this.rows := rows;
      this.order := order;
    }

    /** _claim_item: queued -> sending, only while the row is still queued; true when a row changed. */
    method Claim(id: string, now: int) returns (claimed: bool)
      modifies this
      ensures claimed <==> id in old(rows) && old(rows)[id].status == Queued
      ensures rows == if claimed then old(rows)[id := ClaimedRow(old(rows)[id], now)] else old(rows)
      ensures order == old(order)
    {
      claimed := id in rows && rows[id].status == Queued;
      if claimed {
        rows := rows[id := ClaimedRow(rows[id], now)];
      }
    }

    /** _finalize_success: an update by id, a no-op when the row is gone. */
    method FinalizeSuccess(item: Row, resp: Json, now: int)
      modifies this
      ensures rows == if item.id in old(rows) then old(rows)[item.id := SucceededRow(old(rows)[item.id], item, resp, now)] else old(rows)
      ensures order == old(order)
    {
      if item.id in rows {
        rows := rows[item.id := SucceededRow(rows[item.id], item, resp, now)];
      }
    }

    /** _finalize_failure: an update by id, a no-op when the row is gone. */
    method FinalizeFailure(item: Row, error: string, now: int)
      modifies this
      ensures rows == if item.id in old(rows) then old(rows)[item.id := FailedRow(old(rows)[item.id], item, error, now)] else old(rows)
      ensures order == old(order)
    {
      if item.id in rows {
        rows := rows[item.id := FailedRow(rows[item.id], item, error, now)];
      }
    }

    /** The body of process_once's loop for one picked item; 1 when it was sent. */
    method Handle(it: Row, now: int, send: Request -> Result<Json>, repr: Json -> string, keys: map<string, Json> -> seq<string>)
      returns (sent: nat)
      modifies this
      ensures (rows, sent) == ItemStep(old(rows), it, now, send, repr, keys)
      ensures order == old(order)
    {
      sent := 0;
      ghost var before := rows;
      var claimed := Claim(it.id, now);
      if claimed {
        ghost var c := ClaimedRow(before[it.id], now);
        var to := Recipient(it);
        if !Truthy(to) {
          FinalizeFailure(it, "Missing to", now);
          assert rows == before[it.id := FailedRow(c, it, "Missing to", now)];
        } else {
          var components := BuildComponents(it, repr, keys);
          if components.Err? {
            FinalizeFailure(it, components.msg, now);
            assert rows == before[it.id := FailedRow(c, it, components.msg, now)];
          } else {
            var resp := send(Request(to, Field(it, "template_name"), Language(it), components.value));
            if resp.Err? {
              FinalizeFailure(it, resp.msg, now);
              assert rows == before[it.id := FailedRow(c, it, resp.msg, now)];
            } else {
              FinalizeSuccess(it, resp.value, now);
              assert rows == before[it.id := SucceededRow(c, it, resp.value, now)];
              sent := 1;
            }
          }
        }
      }
    }

    /** process_once, with the client given: the number of items sent. */
    method ProcessOnce(now: int, send: Request -> Result<Json>, repr: Json -> string, keys: map<string, Json> -> seq<string>)
      returns (sentCount: nat)
      modifies this
      ensures var picked := PickQueue(old(rows), old(order), now);
        (rows, sentCount) == Run(old(rows), picked, now, send, repr, keys)
      ensures order == old(order)
    {
      var items := PickQueue(rows, order, now);
      sentCount := HandleAll(items, now, send, repr, keys);
    }

    /** The loop of process_once: each picked item handled in turn, the sends counted. */
    method HandleAll(items: seq<Row>, now: int, send: Request -> Result<Json>, repr: Json -> string, keys: map<string, Json> -> seq<string>)
      returns (sentCount: nat)
      modifies this
      ensures (rows, sentCount) == Run(old(rows), items, now, send, repr, keys)
      ensures order == old(order)
    {
      ghost var start := rows;
      sentCount := 0;
      var i := 0;
      while i < |items|
        invariant 0 <= i <= |items| && order == old(order)
        invariant rows == Run(start, items[..i], now, send, repr, keys).0
        invariant sentCount == Run(start, items[..i], now, send, repr, keys).1
      {
        ghost var before := Run(start, items[..i], now, send, repr, keys);
        ghost var step := ItemStep(before.0, items[i], now, send, repr, keys);
        RunStep(start, items, i, now, send, repr, keys);
        var sent := Handle(items[i], now, send, repr, keys);
        assert rows == step.0 && sent == step.1;
        sentCount := sentCount + sent;
        i := i + 1;
      }
      assert items[..i] == items;
    }
  }

  /** No more sends than picked items, so never more than a batch. */
  lemma SentAtMostBatch(rows: map<string, Row>, order: seq<string>, now: int, send: Request -> Result<Json>,
                        repr: Json -> string, keys: map<string, Json> -> seq<string>)
    ensures Run(rows, PickQueue(rows, order, now), now, send, repr, keys).1 <= BatchSize
  {
  }

  /** Rows that were not picked are left alone. */
  lemma {:induction false} RunTouchesOnlyItems(rows: map<string, Row>, items: seq<Row>, now: int, send: Request -> Result<Json>,
                                                repr: Json -> string, keys: map<string, Json> -> seq<string>)
    ensures var after := Run(rows, items, now, send, repr, keys).0;
      after.Keys == rows.Keys && forall id | id in rows && (forall x | x in items :: x.id != id) :: after[id] == rows[id]
  {
    if items != [] {
      var init := items[..|items| - 1];
      RunTouchesOnlyItems(rows, init, now, send, repr, keys);
      assert forall x | x in init :: x in items;
      ItemStepKeeps(Run(rows, init, now, send, repr, keys).0, items[|items| - 1], now, send, repr, keys);
    }
  }

  /** Sent and failed rows are final: a pass never changes them. */
  lemma {:induction false} RunKeepsFinalRows(rows: map<string, Row>, items: seq<Row>, now: int, send: Request -> Result<Json>,
                                             repr: Json -> string, keys: map<string, Json> -> seq<string>)
    ensures var after := Run(rows, items, now, send, repr, keys).0;
      forall id | id in rows && rows[id].status in {Sent, Failed} :: id in after && after[id] == rows[id]
  {
    if items != [] {
      var init := items[..|items| - 1];
      RunKeepsFinalRows(rows, init, now, send, repr, keys);
      ItemStepKeeps(Run(rows, init, now, send, repr, keys).0, items[|items| - 1], now, send, repr, keys);
    }
  }

  /** One item's step changes at most its own row, and only a queued one. */
  lemma ItemStepKeeps(rows: map<string, Row>, item: Row, now: int, send: Request -> Result<Json>,
                      repr: Json -> string, keys: map<string, Json> -> seq<string>)
    ensures var after := ItemStep(rows, item, now, send, repr, keys).0;
      after.Keys == rows.Keys && forall id | id in rows && (id != item.id || rows[id].status != Queued) :: after[id] == rows[id]
  {
  }

  /** Every queued row has had fewer than MAX_ATTEMPTS attempts. */
  predicate RetriesBounded(rows: map<string, Row>)
  {
    forall id | id in rows && rows[id].status == Queued :: Attempts(rows[id]) < MaxAttempts
  }

  /** A pass keeps the retry bound, so no row is sent more than MAX_ATTEMPTS times. */
  lemma {:induction false} RunKeepsRetriesBounded(rows: map<string, Row>, items: seq<Row>, now: int, send: Request -> Result<Json>,
                                                  repr: Json -> string, keys: map<string, Json> -> seq<string>)
    requires RetriesBounded(rows)
    ensures RetriesBounded(Run(rows, items, now, send, repr, keys).0)
  {
    if items != [] {
      var init := items[..|items| - 1];
      RunKeepsRetriesBounded(rows, init, now, send, repr, keys);
      var before := Run(rows, init, now, send, repr, keys).0;
      var item := items[|items| - 1];
      if item.id in before && before[item.id].status == Queued {
        var claimed := ClaimedRow(before[item.id], now);
        forall e: string, resp: Json
          ensures FailedRow(claimed, item, e, now).status == Queued ==> Attempts(FailedRow(claimed, item, e, now)) < MaxAttempts
          ensures SucceededRow(claimed, item, resp, now).status != Queued
        {
        }
      }
    }
  }
}
