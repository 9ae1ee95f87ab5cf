/**
 * The SQL agent's intent extraction: a language model's JSON reply is
 * normalised onto a fixed schema of twelve keys with light coercions, and
 * when no model answers, a fallback intent points at the totals preset.
 */
module SqlIntent {
  import opened Text
  import opened Numbers
  import opened JsonValues

  type Intent = map<string, Json>

  const UserQuery := "user_query"
  const LastN := "last_n"
  const Metrics := "metrics"
  const Dimensions := "dimensions"
  const Filters := "filters"
  const Limit := "limit"
  const PresetCandidate := "preset_candidate"
  const FallbackPreset := "totais_ultimos_dias"
  const FallbackLabel := "fallback"
  const DefaultLimit := 100

  /** INTENT_SCHEMA: every key of an intent with its default. */
  const Schema: Intent := map[
    UserQuery := JStr(""),
    "intent" := JStr("analytics"),
    LastN := JNum(7),
    "last_unit" := JStr("days"),
    "date_from" := JNull,
    "date_to" := JNull,
    Metrics := JList([JStr("orders"), JStr("revenue")]),
    Dimensions := JList([JStr("day")]),
    Filters := JList([]),
    "table_hint" := JStr("v_ifood_order_ledger"),
    PresetCandidate := JNull,
    Limit := JNum(DefaultLimit)
  ]

  /** The keys whose value is coerced after the merge. */
  predicate Coerced(k: string)
  {
    k == LastN || k == Metrics || k == Dimensions || k == Filters || k == Limit
  }

  /** str.isdigit() on ASCII: non-empty and all digits. */
  predicate IsDigitString(s: string)
  {
    s != [] && AllDigits(s)
  }

  /** The merged value of one key: the input's when the key is present, even null, else the default. */
  function Pick(data: Intent, k: string): Json
    requires k in Schema
  {
    if k in data then data[k] else Schema[k]
  }

  /** A value that must be a list: anything else becomes []. */
  function AsList(v: Json): (r: Json)
    ensures r.JList?
    ensures v.JList? ==> r == v
    ensures !v.JList? ==> r == JList([])
  {
    if v.JList? then v else JList([])
  }

  /** last_n: a string of digits becomes the number it spells. */
  function AsCount(v: Json): (r: Json)
    ensures v.JStr? && IsDigitString(v.s) ==> r.JNum? && r.n >= 0
    ensures !(v.JStr? && IsDigitString(v.s)) ==> r == v
  {
    if v.JStr? && IsDigitString(v.s) then JNum(DigitsValue(v.s)) else v
  }

  /** limit: null becomes 100. */
  function AsLimit(v: Json): (r: Json)
    ensures r != JNull
    ensures v != JNull ==> r == v
  {
    if v.JNull? then JNum(DefaultLimit) else v
  }

  /** The value _normalize gives one schema key. */
  function Coerce(k: string, v: Json): Json
  {
    if k == LastN then AsCount(v)
    else if k == Metrics || k == Dimensions || k == Filters then AsList(v)
    else if k == Limit then AsLimit(v)
    else v
  }

  /** _normalize: exactly the schema's keys, each taken from the input or defaulted, then coerced. */
  function Normalize(data: Intent): (r: Intent)
    ensures r.Keys == Schema.Keys
    ensures forall k | k in Schema && !Coerced(k) :: r[k] == Pick(data, k)
  {
    map k | k in Schema :: Coerce(k, Pick(data, k))
  }

  /** A normalised intent: lists where lists belong, a non-null limit, no digit string as last_n. */
  predicate Normal(r: Intent)
  {
    r.Keys == Schema.Keys &&
    (forall k | k in r && (k == Metrics || k == Dimensions || k == Filters) :: r[k].JList?) &&
    (Limit in r ==> r[Limit] != JNull) &&
    (LastN in r ==> !(r[LastN].JStr? && IsDigitString(r[LastN].s)))
  }

  /** A count written out in decimal is read back as that count. */
  lemma CountRoundTrip(n: nat)
    ensures AsCount(JStr(NatStr(n))) == JNum(n)
  {
    NatStrValue(n);
  }

  /** What _normalize does to each coerced key. */
  lemma NormalizeCoerces(data: Intent)
    ensures Normalize(data)[LastN] == AsCount(Pick(data, LastN))
    ensures Normalize(data)[Metrics] == AsList(Pick(data, Metrics))
    ensures Normalize(data)[Dimensions] == AsList(Pick(data, Dimensions))
    ensures Normalize(data)[Filters] == AsList(Pick(data, Filters))
    ensures Normalize(data)[Limit] == AsLimit(Pick(data, Limit))
  {
  }

  /** Every intent _normalize returns is normal. */
  lemma NormalizeNormal(data: Intent)
    ensures Normal(Normalize(data))
  {
    NormalizeCoerces(data);
  }

  /** A normal intent is its own normalisation, so normalising twice changes nothing more. */
  lemma NormalFixed(r: Intent)
    requires Normal(r)
    ensures Normalize(r) == r
  {
    forall k | k in Schema
      ensures Normalize(r)[k] == r[k]
    {
    }
  }

  lemma NormalizeIdempotent(data: Intent)
    ensures Normalize(Normalize(data)) == Normalize(data)
  {
    NormalizeNormal(data);
    NormalFixed(Normalize(data));
  }

  /** The schema's defaults are already normal. */
  lemma SchemaNormal()
    ensures Normal(Schema)
  {
  }

  /** interpret's last resort: the question and the totals preset, everything else defaulted. */
  function FallbackIntent(question: string): (r: Intent)
  {
    Normalize(map[UserQuery := JStr(question), PresetCandidate := JStr(FallbackPreset)])
  }

  lemma FallbackShape(question: string)
    ensures var r := FallbackIntent(question);
      r.Keys == Schema.Keys && r[UserQuery] == JStr(question) && r[PresetCandidate] == JStr(FallbackPreset) &&
      forall k | k in Schema && k != UserQuery && k != PresetCandidate :: r[k] == Schema[k]
  {
    var data := map[UserQuery := JStr(question), PresetCandidate := JStr(FallbackPreset)];
    SchemaNormal();
    NormalFixed(Schema);
    forall k | k in Schema && k != UserQuery && k != PresetCandidate
      ensures Normalize(data)[k] == Schema[k]
    {
      assert Pick(data, k) == Schema[k];
      assert Normalize(Schema)[k] == Coerce(k, Schema[k]);
    }
  }
}
