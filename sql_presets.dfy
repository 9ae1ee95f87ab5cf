/**
 * The SQL agent's deterministic presets: three fixed queries over the one
 * allowed table, each taking a number of days, the clamping of that
 * parameter, and the validation gate before a query is executed.
 */
module SqlPresets {
  import opened Wrappers
  import opened Text
  import opened Numbers
  import opened SqlValidator

  const DefaultTable := "v_ifood_order_ledger"
  const Totals := "totais_ultimos_dias"
  const Daily := "diario_ultimos_dias"
  const ByStatus := "status_ultimos_dias"

  /** The declared "days" parameter: type int, a default and a range. */
  datatype DaysParam = DaysParam(default: int, min: int, max: int)

  /**
   * A preset: its id, title and "days" parameter, and its SQL as the text
   * before the FROM clause, the text after the day window, and the row limit.
   */
  datatype Preset = Preset(id: string, title: string, days: DaysParam, lead: string, grouping: string, rowLimit: string)

  const Days := DaysParam(7, 1, 365)

  const TotalsPreset := Preset(Totals, "Totais de pedidos e receita nos últimos N dias", Days,
    "select " + "count(*)::bigint as orders, coalesce(sum(final_amount),0)::numeric as revenue ",
    "", "1")
  const DailyPreset := Preset(Daily, "Pedidos e receita por dia nos últimos N dias", Days,
    "select " + "date_trunc('day', fact_date)::date as dia, "
    + "       count(*)::bigint as orders, coalesce(sum(final_amount),0)::numeric as revenue ",
    " group by 1 order by 1", "500")
  const StatusPreset := Preset(ByStatus, "Pedidos por status nos últimos N dias", Days,
    "select " + "coalesce(status,'unknown') as status, "
    + "       count(*)::bigint as orders, coalesce(sum(final_amount),0)::numeric as revenue ",
    " group by 1 order by orders desc", "100")

  /** PRESETS, in declaration order. */
  const Presets: seq<Preset> := [TotalsPreset, DailyPreset, StatusPreset]

  /** A parameter value as the request body can carry it. */
  datatype Value = VNull | VBool(b: bool) | VInt(i: int) | VFloat(f: Decimal) | VStr(s: string) | VOther

  /** The environment's allowed table: an unset or empty variable falls back to the default view. */
  function AllowedTable(env: Option<string>): (t: string)
    ensures t != ""
    ensures env.Some? && env.value != "" ==> t == env.value
  {
    if env.None? || env.value == "" then DefaultTable else env.value
  }

  /** The preset with the given id. */
  function Find(presets: seq<Preset>, id: string): (r: Option<Preset>)
    ensures r.Some? ==> r.value in presets && r.value.id == id
    ensures r.None? <==> forall p | p in presets :: p.id != id
  {
    if presets == [] then None
    else if presets[0].id == id then Some(presets[0])
    else Find(presets[1..], id)
  }

  /** What a listing shows of a preset: never its SQL. */
  datatype PresetInfo = PresetInfo(title: string, days: DaysParam)

  /** list_presets: the allowed table and each preset's title and parameters. */
  datatype Listing = Listing(allowedTable: string, items: map<string, PresetInfo>)

  function ListPresets(presets: seq<Preset>, table: string): (r: Listing)
    ensures r.allowedTable == table
    ensures forall id :: id in r.items <==> Find(presets, id).Some?
    ensures forall id | id in r.items :: r.items[id] == PresetInfo(Find(presets, id).value.title, Find(presets, id).value.days)
  {
    Listing(table, map id | id in Ids(presets) :: var p := Find(presets, id).value; PresetInfo(p.title, p.days))
  }

  function Ids(presets: seq<Preset>): (r: set<string>)
    ensures forall id :: id in r <==> Find(presets, id).Some?
  {
    set p | p in presets :: p.id
  }

  /** Python's int() on a parameter value; None when it raises. */
  function IntOf(v: Value): (r: Option<int>)
    ensures v.VInt? ==> r == Some(v.i)
    ensures v.VNull? || v.VOther? ==> r.None?
  {
    match v
    case VNull => None
    case VBool(b) => Some(if b then 1 else 0)
    case VInt(i) => Some(i)
    case VFloat(f) => Some(TruncateTowardZero(f))
    case VStr(s) => ParseInt(s)
    case VOther => None
  }

  /** int() of a float: the integer part, rounding toward zero. */
  function TruncateTowardZero(f: Decimal): int
  {
    if f.mant >= 0 then f.mant / Pow10(f.scale) else -((-f.mant) / Pow10(f.scale))
  }

  /**
   * The sanitised days: the given value through int(), the default when it
   * is missing or int() raises, then max(min, min(max, d)).
   */
  function SanitizedDays(params: map<string, Value>, p: DaysParam): (d: int)
    ensures p.min <= p.max ==> p.min <= d <= p.max
    ensures "days" in params && IntOf(params["days"]).Some? && p.min <= IntOf(params["days"]).value <= p.max ==>
      d == IntOf(params["days"]).value
    ensures ("days" !in params || IntOf(params["days"]).None?) && p.min <= p.default <= p.max ==> d == p.default
  {
    var given := if "days" in params then IntOf(params["days"]) else Some(p.default);
    var raw := if given.Some? then given.value else p.default;
    var capped := if p.max < raw then p.max else raw;
    if p.min > capped then p.min else capped
  }

  /** The text from FROM to the end of the day window. */
  function Window(table: string, days: int): string
  {
    "from " + table + " where fact_date >= now() - interval '" + IntStr(days) + " days'"
  }

  /** The preset's SQL for the sanitised days. */
  function BuildSql(p: Preset, table: string, days: int): (sql: string)
  {
    p.lead + Window(table, days) + p.grouping + (" limit " + p.rowLimit + ";")
  }

  /** The rows a query returns: column names and rows of rendered values. */
  datatype QueryResult = QueryResult(cols: seq<string>, rows: seq<seq<string>>)

  /** The successful outcome of run_preset: columns, rows and the SQL that ran. */
  datatype Run = Run(cols: seq<string>, rows: seq<seq<string>>, sql: string)

  const InvalidPrefix := "SQL inválido para o preset: "

  /** The gate: a query whose check failed is refused with its issues joined, else it is executed. */
  function Gate(sql: string, check: (bool, seq<string>), execute: string -> Result<QueryResult>): (r: Result<Run>)
    ensures !check.0 ==> r == Err(InvalidPrefix + Join(check.1, "; "))
    ensures r.Ok? ==> check.0 && execute(sql).Ok? && r.value == Run(execute(sql).value.cols, execute(sql).value.rows, sql)
    ensures check.0 && execute(sql).Err? ==> r == Err(execute(sql).msg)
  {
    if !check.0 then Err(InvalidPrefix + Join(check.1, "; "))
    else match execute(sql)
      case Err(m) => Err(m)
      case Ok(q) => Ok(Run(q.cols, q.rows, sql))
  }

  /** The query a preset runs: its SQL for the sanitised days of the request's parameters (None counts as empty). */
  function PresetSql(preset: Preset, params: Option<map<string, Value>>, table: string): (sql: string)
    ensures exists d ::
      sql == BuildSql(preset, table, d) &&
      (preset.days.min <= preset.days.max ==> preset.days.min <= d <= preset.days.max)
  {
    var p := if params.Some? then params.value else map[];
    BuildSql(preset, table, SanitizedDays(p, preset.days))
  }

  /**
   * run_preset: an unknown id raises before any SQL is built; the days are
   * sanitised; the SQL must pass validate_sql as written, or a ValueError
   * lists its issues; otherwise it is executed.  The parser and the
   * database are oracles.
   */
  function RunPreset(presets: seq<Preset>, id: string, params: Option<map<string, Value>>, table: string,
                     parse: string -> Parsed, execute: string -> Result<QueryResult>): (r: Result<Run>)
    ensures Find(presets, id).None? ==> r == Err("Preset inválido: " + id)
    ensures Find(presets, id).Some? ==>
      var sql := PresetSql(Find(presets, id).value, params, table);
      var check := ValidateSqlAsWritten(sql, parse(sql));
      (!check.0 ==> r == Err(InvalidPrefix + Join(check.1, "; "))) &&
      (check.0 && execute(sql).Ok? ==> r == Ok(Run(execute(sql).value.cols, execute(sql).value.rows, sql))) &&
      (check.0 && execute(sql).Err? ==> r == Err(execute(sql).msg)) &&
      (r.Ok? ==> check.0 && r.value.sql == sql)
  {
    match Find(presets, id)
    case None => Err("Preset inválido: " + id)
    case Some(preset) =>
      var sql := PresetSql(preset, params, table);
      Gate(sql, ValidateSqlAsWritten(sql, parse(sql)), execute)
  }

  /**
   * run_preset as intended: the same steps, with the validator's root
   * check comparing against the key the parser produces.
   */
  function RunPresetCorrected(presets: seq<Preset>, id: string, params: Option<map<string, Value>>, table: string,
                              parse: string -> Parsed, execute: string -> Result<QueryResult>): (r: Result<Run>)
    ensures Find(presets, id).None? ==> r == Err("Preset inválido: " + id)
    ensures Find(presets, id).Some? ==>
      var sql := PresetSql(Find(presets, id).value, params, table);
      var check := ValidateSql(sql, parse(sql));
      (!check.0 ==> r == Err(InvalidPrefix + Join(check.1, "; "))) &&
      (check.0 && execute(sql).Ok? ==> r == Ok(Run(execute(sql).value.cols, execute(sql).value.rows, sql))) &&
      (check.0 && execute(sql).Err? ==> r == Err(execute(sql).msg))
    ensures r.Ok? ==> Find(presets, id).Some? && ValidateSql(r.value.sql, parse(r.value.sql)).0
    ensures r.Ok? ==>
      exists d ::
        r.value.sql == BuildSql(Find(presets, id).value, table, d) &&
        (Find(presets, id).value.days.min <= Find(presets, id).value.days.max ==>
          Find(presets, id).value.days.min <= d <= Find(presets, id).value.days.max)
  {
    match Find(presets, id)
    case None => Err("Preset inválido: " + id)
    case Some(preset) =>
      var sql := PresetSql(preset, params, table);
      Gate(sql, ValidateSql(sql, parse(sql)), execute)
  }

  /** Characters str.lower() leaves alone. */
  predicate Plain(s: string)
  {
    forall i | 0 <= i < |s| :: s[i] < 'A' || 'a' <= s[i] <= 'z'
  }

  lemma LowerPlain(s: string)
    requires Plain(s)
    ensures Lower(s) == s
  {
  }

  lemma LowerConcat(a: string, b: string)
    ensures Lower(a + b) == Lower(a) + Lower(b)
  {
  }

  lemma {:induction false} ContainsInSuffix(a: string, b: string, p: string)
    requires Contains(b, p)
    ensures Contains(a + b, p)
    decreases |a|
  {
    if a != [] {
      ContainsInSuffix(a[1..], b, p);
      assert (a + b)[1..] == a[1..] + b;
      assert Contains((a + b)[1..], p);
    } else {
      assert a + b == b;
    }
  }

  lemma {:induction false} ContainsAt(s: string, p: string, k: nat)
    requires k + |p| <= |s| && s[k..k + |p|] == p
    ensures Contains(s, p)
    decreases k
  {
    if k > 0 {
      ContainsAt(s[1..], p, k - 1);
      assert s[1..][k - 1..k - 1 + |p|] == s[k..k + |p|];
    }
  }

  /** What every preset's SQL needs for the checks below: a lead starting with 's' and a decimal row limit. */
  predicate WellFormed(p: Preset)
  {
    p.lead != "" && p.lead[0] == 's' && AllDigits(p.rowLimit) && p.days == Days
  }

  lemma TotalsWellFormed()
    ensures WellFormed(TotalsPreset)
  {
    assert TotalsPreset.lead[0] == 's';
  }

  lemma DailyWellFormed()
    ensures WellFormed(DailyPreset)
  {
    assert DailyPreset.lead[0] == 's';
  }

  lemma StatusWellFormed()
    ensures WellFormed(StatusPreset)
  {
    assert StatusPreset.lead[0] == 's';
  }

  lemma PresetsWellFormed()
    ensures forall p | p in Presets :: WellFormed(p)
  {
    TotalsWellFormed();
    DailyWellFormed();
    StatusWellFormed();
  }

  /** " limit <digits>;" is unchanged by lower() and begins with " limit ". */
  lemma LimitClause(n: string)
    requires AllDigits(n)
    ensures var clause := " limit " + n + ";";
      Lower(clause) == clause && Contains(clause, " limit ") && clause[|clause| - 1] == ';'
  {
    var clause := " limit " + n + ";";
    assert Plain(clause);
    LowerPlain(clause);
    ContainsAt(clause, " limit ", 0);
  }

  /** A body that starts with a non-space, followed by " limit <digits>;", keeps " limit " through strip() and lower(). */
  lemma LimitClauseSurvives(body: string, n: string)
    requires body != [] && !IsSpace(body[0]) && AllDigits(n)
    ensures Contains(Lower(Strip(body + (" limit " + n + ";"))), " limit ")
  {
    var clause := " limit " + n + ";";
    LimitClause(n);
    var sql := body + clause;
    assert sql[0] == body[0] && sql[|sql| - 1] == clause[|clause| - 1];
    StripClean(sql);
    LowerConcat(body, clause);
    ContainsInSuffix(Lower(body), clause, " limit ");
  }

  /** A query built from a well-formed preset, once stripped and lower-cased, contains " limit ". */
  lemma PresetHasLimit(p: Preset, table: string, days: int)
    requires WellFormed(p)
    ensures Contains(Lower(Strip(BuildSql(p, table, days))), " limit ")
  {
    var body := p.lead + Window(table, days) + p.grouping;
    assert body[0] == p.lead[0];
    LimitClauseSurvives(body, p.rowLimit);
  }

  /** A string occurs in any string built around it. */
  lemma ContainsMiddle(head: string, x: string, tail: string)
    ensures Contains(head + x + tail, x)
  {
    var s := head + x + tail;
    assert s[|head|..|head| + |x|] == x;
    ContainsAt(s, x, |head|);
  }

  /** Every preset's query carries the sanitised number of days, written in decimal. */
  lemma PresetHasDays(p: Preset, table: string, days: int)
    ensures Contains(BuildSql(p, table, days), IntStr(days))
  {
    var head := p.lead + "from " + table + " where fact_date >= now() - interval '";
    var tail := " days'" + p.grouping + (" limit " + p.rowLimit + ";");
    assert BuildSql(p, table, days) == head + IntStr(days) + tail;
    ContainsMiddle(head, IntStr(days), tail);
  }

  /** So every query the corrected run_preset executes had a LIMIT clause and its days in [1, 365]. */
  lemma CorrectedRunHasLimitAndDays(id: string, params: Option<map<string, Value>>, table: string,
                                    parse: string -> Parsed, execute: string -> Result<QueryResult>)
    ensures var r := RunPresetCorrected(Presets, id, params, table, parse, execute);
      r.Ok? ==> (Contains(Lower(Strip(r.value.sql)), " limit ") &&
        exists d | 1 <= d <= 365 :: Contains(r.value.sql, IntStr(d)))
  {
    PresetsWellFormed();
    var r := RunPresetCorrected(Presets, id, params, table, parse, execute);
    if r.Ok? {
      var preset := Find(Presets, id).value;
      assert preset.days == Days;
      var d :| r.value.sql == BuildSql(preset, table, d) && 1 <= d <= 365;
      PresetHasLimit(preset, table, d);
      PresetHasDays(preset, table, d);
    }
  }

  /**
   * As written, run_preset executes no known preset's query: with a parser
   * that spells root keys in lower case, validate_sql reports the root, the
   * LIMIT check passes, and unless the table name brings in a banned
   * keyword the ValueError carries the root issue alone: "SQL inválido
   * para o preset: Root statement must be SELECT."
   */
  lemma RunPresetRefusesKnown(id: string, params: Option<map<string, Value>>, table: string,
                              parse: string -> Parsed, execute: string -> Result<QueryResult>)
    requires Find(Presets, id).Some?
    ensures var sql := PresetSql(Find(Presets, id).value, params, table);
      parse(sql).ParseFailed? ==>
        RunPreset(Presets, id, params, table, parse, execute) == Err(InvalidPrefix + (ParseErrorPrefix + parse(sql).error))
    ensures var sql := PresetSql(Find(Presets, id).value, params, table);
      parse(sql).Parsed? && LowerCaseKey(parse(sql).rootKey) ==>
        RunPreset(Presets, id, params, table, parse, execute).Err? &&
        RootIssue in ValidateSqlAsWritten(sql, parse(sql)).1 && LimitIssue !in ValidateSqlAsWritten(sql, parse(sql)).1
    ensures var sql := PresetSql(Find(Presets, id).value, params, table);
      parse(sql).Parsed? && LowerCaseKey(parse(sql).rootKey) && !HasBanned(Lower(Strip(sql))) ==>
        RunPreset(Presets, id, params, table, parse, execute) == Err(InvalidPrefix + RootIssue)
  {
    var preset := Find(Presets, id).value;
    var sql := PresetSql(preset, params, table);
    assert Contains(Lower(Strip(sql)), " limit ") by {
      PresetsWellFormed();
      var d :| sql == BuildSql(preset, table, d);
      PresetHasLimit(preset, table, d);
    }
    var check := ValidateSqlAsWritten(sql, parse(sql));
    var r := RunPreset(Presets, id, params, table, parse, execute);
    assert !check.0 ==> r == Err(InvalidPrefix + Join(check.1, "; "));
    if parse(sql).ParseFailed? {
      assert Join(check.1, "; ") == ParseErrorPrefix + parse(sql).error;
    } else if LowerCaseKey(parse(sql).rootKey) {
      AsWrittenRootIssue(sql, parse(sql));
      if !HasBanned(Lower(Strip(sql))) {
        assert Join(check.1, "; ") == RootIssue;
      }
    }
  }

  /** The three ids, each found. */
  lemma PresetIds()
    ensures Find(Presets, Totals) == Some(TotalsPreset)
    ensures Find(Presets, Daily) == Some(DailyPreset)
    ensures Find(Presets, ByStatus) == Some(StatusPreset)
  {
    assert Totals[0] != Daily[0] && Totals[0] != ByStatus[0] && Daily[0] != ByStatus[0];
    assert Presets[1..] == [DailyPreset, StatusPreset];
  }
}
