/**
 * The demo conversation flows: each start flow offers one button, and each
 * send flow builds a numbered list of at most a fixed number of entries,
 * one line per entry in input order, joined by newlines.  A message is the
 * request handed to the WhatsApp client; an entry that is not a dict makes
 * its `.get` raise AttributeError, and a value that cannot be sliced raises
 * TypeError, both as an Err result.
 */
module Flows {
  import opened Wrappers
  import opened Numbers
  import opened Text
  import opened JsonValues

  /** What the client is asked to send: a text, or a text with reply buttons. */
  datatype Outbound = TextMsg(to: string, body: string) | ButtonsMsg(to: string, body: string, buttons: Json)

  function Button(id: string, title: string): Json
  {
    JObj(map["id" := JStr(id), "title" := JStr(title)])
  }

  /** A buttons message offering exactly the one button with this id. */
  predicate OffersOnly(m: Outbound, id: string)
  {
    m.ButtonsMsg? && m.buttons.JList? && |m.buttons.items| == 1 && m.buttons.items[0].JObj? &&
    "id" in m.buttons.items[0].fields && m.buttons.items[0].fields["id"] == JStr(id)
  }

  /** Flow 1: sales import done, offer the summary. */
  function StartSalesImport(to: string): (m: Outbound)
    ensures m.to == to && OffersOnly(m, "view_summary")
  {
    ButtonsMsg(to, "Olá, aqui é o Piter! Acabamos de receber sua importação de vendas. Quer ver o resumo agora?",
      JList([Button("view_summary", "Ver resumo agora")]))
  }

  /** Flow 2: low stock detected, offer the list. */
  function StartLowStock(to: string): (m: Outbound)
    ensures m.to == to && OffersOnly(m, "view_low_stock")
  {
    ButtonsMsg(to, "Aviso rápido: detectei itens de estoque em níveis críticos. Quer ver a lista e tomar uma ação agora?",
      JList([Button("view_low_stock", "Ver itens críticos")]))
  }

  /** Flow 3: CMV deviation, offer the analysis. */
  function StartCmvDeviation(to: string): (m: Outbound)
    ensures m.to == to && OffersOnly(m, "view_cmv_analysis")
  {
    ButtonsMsg(to, "Identifiquei uma variação no CMV em relação ao esperado. Quer ver uma análise rápida?",
      JList([Button("view_cmv_analysis", "Ver análise rápida")]))
  }

  function Min(a: nat, b: nat): nat { if a <= b then a else b }

  /** The first n elements, or all of them. */
  function Take<T>(s: seq<T>, n: nat): (r: seq<T>)
    ensures |r| == Min(n, |s|)
    ensures forall k | 0 <= k < |r| :: r[k] == s[k]
  {
    if |s| <= n then s else s[..n]
  }

  /** v[:n] on a JSON value: a list's first items, a string's first characters; TypeError otherwise. */
  function Head(v: Json, n: nat): (r: Result<seq<Json>>)
    ensures v.JList? ==> r == Ok(Take(v.items, n))
    ensures r.Ok? ==> |r.value| <= n
    ensures r.Ok? <==> v.JList? || v.JStr?
  {
    match v
    case JList(items) => Ok(Take(items, n))
    case JStr(s) => Ok(Chars(Take(s, n)))
    case _ => Err("TypeError")
  }

  /** Iterating a string: one one-character string per character. */
  function Chars(s: string): (r: seq<Json>)
    ensures |r| == |s| && forall k | 0 <= k < |s| :: r[k] == JStr([s[k]])
  {
    if s == [] then [] else Chars(s[..|s| - 1]) + [JStr([s[|s| - 1]])]
  }

  /** d.get(k, default) on a dict. */
  function Lookup(d: map<string, Json>, k: string, default: Json): Json
  {
    if k in d then d[k] else default
  }

  /** The text of an entry's field, or of the default when the field is absent; the entry must be an object. */
  function FieldText(item: Json, k: string, default: Json, repr: Json -> string): (r: Result<string>)
    ensures r.Ok? <==> item.JObj?
  {
    var v :- GetOr(item, k, default);
    Ok(PyStr(v, repr))
  }

  /**
   * The lines of `for i, it in enumerate(items, start=1)`, one per entry in
   * order, each the line rendered for (i, it); the first exception stops it.
   */
  function Enumerated(items: seq<Json>, line: (nat, Json) -> Result<string>): (r: Result<seq<string>>)
    ensures r.Ok? ==> |r.value| == |items| && forall k | 0 <= k < |items| :: line(k + 1, items[k]) == Ok(r.value[k])
    ensures r.Ok? <==> forall k | 0 <= k < |items| :: line(k + 1, items[k]).Ok?
  {
    if items == [] then Ok([])
    else
      var n := |items| - 1;
      match Enumerated(items[..n], line)
      case Err(e) => Err(e)
      case Ok(init) =>
        match line(n + 1, items[n])
        case Err(e) => Err(e)
        case Ok(last) => Ok(init + [last])
  }

  /** The append loop that builds those lines. */
  method EnumerateLines(items: seq<Json>, line: (nat, Json) -> Result<string>) returns (r: Result<seq<string>>)
    ensures r == Enumerated(items, line)
  {
    var lines: seq<string> := [];
    var i := 0;
    while i < |items|
      invariant 0 <= i <= |items|
      invariant Enumerated(items[..i], line) == Ok(lines)
    {
      assert items[..i + 1][..i] == items[..i];
      var l := line(i + 1, items[i]);
      if l.Err? {
        assert Enumerated(items[..i + 1], line) == Err(l.msg);
        EnumerateStops(items, i + 1, line, l.msg);
        return Err(l.msg);
      }
      lines := lines + [l.value];
      i := i + 1;
    }
    assert items[..i] == items;
    r := Ok(lines);
  }

  /** Once a prefix fails, every longer prefix fails with the same error. */
  lemma {:induction false} EnumerateStops(items: seq<Json>, i: nat, line: (nat, Json) -> Result<string>, e: string)
    requires i <= |items| && Enumerated(items[..i], line) == Err(e)
    ensures Enumerated(items, line) == Err(e)
    decreases |items| - i
  {
    if i < |items| {
      assert items[..i + 1][..i] == items[..i];
      EnumerateStops(items, i + 1, line, e);
    } else {
      assert items[..i] == items;
    }
  }

  /** "  {i}) {nome} — {qtd} un" */
  function RankLine(i: nat, item: Json, repr: Json -> string): Result<string>
  {
    var name :- FieldText(item, "nome", JStr("-"), repr);
    var qty :- FieldText(item, "qtd", JNum(0), repr);
    Ok("  " + NatStr(i) + ") " + name + " — " + qty + " un")
  }

  /** "{i}) {nome} — {qtd} {unid}" */
  function ConsumptionLine(i: nat, item: Json, repr: Json -> string): Result<string>
  {
    var name :- FieldText(item, "nome", JStr("-"), repr);
    var qty :- FieldText(item, "qtd", JNum(0), repr);
    var unit :- FieldText(item, "unid", JStr(""), repr);
    Ok(NatStr(i) + ") " + name + " — " + qty + " " + unit)
  }

  /** "{i}) {insumo} — {qtd_atual}/{qtd_min} {unid}" */
  function StockLine(i: nat, item: Json, repr: Json -> string): Result<string>
  {
    var name :- FieldText(item, "insumo", JStr("-"), repr);
    var current :- FieldText(item, "qtd_atual", JNum(0), repr);
    var minimum :- FieldText(item, "qtd_min", JNum(0), repr);
    var unit :- FieldText(item, "unid", JStr(""), repr);
    Ok(NatStr(i) + ") " + name + " — " + current + "/" + minimum + " " + unit)
  }

  /** "{i}) {insumo} — impacto {impacto_pct}%" */
  function ContributorLine(i: nat, item: Json, repr: Json -> string): Result<string>
  {
    var name :- FieldText(item, "insumo", JStr("-"), repr);
    var impact :- FieldText(item, "impacto_pct", JStr("-"), repr);
    Ok(NatStr(i) + ") " + name + " — impacto " + impact + "%")
  }

  /** The message of a builder that sends its lines as a text. */
  function AsText(to: string, lines: Result<seq<string>>): Result<Outbound>
  {
    var ls :- lines;
    Ok(TextMsg(to, Join(ls, "\n")))
  }

  /** The message of a builder that sends its lines with one button. */
  function AsButtons(to: string, lines: Result<seq<string>>, button: Json): Result<Outbound>
  {
    var ls :- lines;
    Ok(ButtonsMsg(to, Join(ls, "\n"), JList([button])))
  }

  /** The header of the sales summary: title and totals, before the ranked pizzas. */
  function SummaryHeader(summary: map<string, Json>, repr: Json -> string): (r: seq<string>)
    ensures |r| == 5
  {
    ["Resumo de vendas de hoje\n",
     "• Total vendido",
     "  - Pizzas: R$ " + PyStr(Lookup(summary, "valor_pizzas", JStr("0,00")), repr) +
       " (" + PyStr(Lookup(summary, "qtd_pizzas", JStr("0")), repr) + " un)",
     "  - Bebidas: R$ " + PyStr(Lookup(summary, "valor_bebidas", JStr("0,00")), repr) +
       " (" + PyStr(Lookup(summary, "qtd_bebidas", JStr("0")), repr) + " un)\n",
     "• Top 10 Pizzas"]
  }

  const DrinksHeading := "\n• Top 5 Bebidas"

  /** The lines of send_sales_summary: header, at most 10 pizzas, at most 5 drinks. */
  function SalesSummaryLines(summary: map<string, Json>, repr: Json -> string): Result<seq<string>>
  {
    var pizzas :- Head(Lookup(summary, "top_pizzas", JList([])), 10);
    var drinks :- Head(Lookup(summary, "top_bebidas", JList([])), 5);
    var pizzaLines :- Enumerated(pizzas, (i: nat, it: Json) => RankLine(i, it, repr));
    var drinkLines :- Enumerated(drinks, (i: nat, it: Json) => RankLine(i, it, repr));
    Ok(SummaryHeader(summary, repr) + pizzaLines + [DrinksHeading] + drinkLines)
  }

  /** send_sales_summary: the lines joined by newlines, as one text. */
  method SendSalesSummary(to: string, summary: map<string, Json>, repr: Json -> string) returns (r: Result<Outbound>)
    ensures r == AsText(to, SalesSummaryLines(summary, repr))
  {
    var pizzas := Head(Lookup(summary, "top_pizzas", JList([])), 10);
    if pizzas.Err? {
      return Err(pizzas.msg);
    }
    var drinks := Head(Lookup(summary, "top_bebidas", JList([])), 5);
    if drinks.Err? {
      return Err(drinks.msg);
    }
    var lines := SummaryHeader(summary, repr);
    var pizzaLines := EnumerateLines(pizzas.value, (i: nat, it: Json) => RankLine(i, it, repr));
    if pizzaLines.Err? {
      return Err(pizzaLines.msg);
    }
    lines := lines + pizzaLines.value + [DrinksHeading];
    var drinkLines := EnumerateLines(drinks.value, (i: nat, it: Json) => RankLine(i, it, repr));
    if drinkLines.Err? {
      return Err(drinkLines.msg);
    }
    lines := lines + drinkLines.value;
    r := Ok(TextMsg(to, Join(lines, "\n")));
  }

  /**
   * With lists of pizzas and drinks, the summary fails exactly when one of
   * the first 10 pizzas or the first 5 drinks is not a dict.
   */
  lemma SalesSummaryFails(summary: map<string, Json>, repr: Json -> string, pizzas: seq<Json>, drinks: seq<Json>)
    requires Lookup(summary, "top_pizzas", JList([])) == JList(pizzas)
    requires Lookup(summary, "top_bebidas", JList([])) == JList(drinks)
    ensures SalesSummaryLines(summary, repr).Ok? <==>
      (forall k | 0 <= k < Min(10, |pizzas|) :: pizzas[k].JObj?) && (forall k | 0 <= k < Min(5, |drinks|) :: drinks[k].JObj?)
  {
    var line := (i: nat, it: Json) => RankLine(i, it, repr);
    var ps, ds := Take(pizzas, 10), Take(drinks, 5);
    assert forall k | 0 <= k < |ps| :: line(k + 1, ps[k]).Ok? <==> ps[k].JObj?;
    assert forall k | 0 <= k < |ds| :: line(k + 1, ds[k]).Ok? <==> ds[k].JObj?;
  }

  /**
   * Otherwise the summary is the five header lines, one line per pizza
   * among the first 10, the drinks heading and one line per drink among the
   * first 5: the heading sits right after the pizzas.
   */
  lemma DrinksHeadingAt(summary: map<string, Json>, repr: Json -> string, pizzas: seq<Json>, drinks: seq<Json>)
    requires Lookup(summary, "top_pizzas", JList([])) == JList(pizzas)
    requires Lookup(summary, "top_bebidas", JList([])) == JList(drinks)
    requires SalesSummaryLines(summary, repr).Ok?
    ensures var lines, np, nd := SalesSummaryLines(summary, repr).value, Min(10, |pizzas|), Min(5, |drinks|);
      |lines| == 6 + np + nd && lines[5 + np] == DrinksHeading
  {
    SalesSummaryShape(summary, repr, pizzas, drinks);
  }

  /** The k-th pizza (from 0) is ranked k + 1, on the line after the header and the k pizzas before it. */
  lemma PizzaLineAt(summary: map<string, Json>, repr: Json -> string, pizzas: seq<Json>, drinks: seq<Json>, k: nat)
    requires Lookup(summary, "top_pizzas", JList([])) == JList(pizzas)
    requires Lookup(summary, "top_bebidas", JList([])) == JList(drinks)
    requires SalesSummaryLines(summary, repr).Ok? && k < Min(10, |pizzas|)
    ensures var lines := SalesSummaryLines(summary, repr).value;
      5 + k < |lines| && Ok(lines[5 + k]) == RankLine(k + 1, pizzas[k], repr)
  {
    SalesSummaryShape(summary, repr, pizzas, drinks);
  }

  /** The k-th drink is ranked k + 1, on the line after the heading and the k drinks before it. */
  lemma DrinkLineAt(summary: map<string, Json>, repr: Json -> string, pizzas: seq<Json>, drinks: seq<Json>, k: nat)
    requires Lookup(summary, "top_pizzas", JList([])) == JList(pizzas)
    requires Lookup(summary, "top_bebidas", JList([])) == JList(drinks)
    requires SalesSummaryLines(summary, repr).Ok? && k < Min(5, |drinks|)
    ensures var lines, np := SalesSummaryLines(summary, repr).value, Min(10, |pizzas|);
      6 + np + k < |lines| && Ok(lines[6 + np + k]) == RankLine(k + 1, drinks[k], repr)
  {
    SalesSummaryShape(summary, repr, pizzas, drinks);
  }

  /** With both lists present and every line rendered, the summary is the header, the pizza lines, the heading and the drink lines. */
  lemma SalesSummaryShape(summary: map<string, Json>, repr: Json -> string, pizzas: seq<Json>, drinks: seq<Json>)
    requires Lookup(summary, "top_pizzas", JList([])) == JList(pizzas)
    requires Lookup(summary, "top_bebidas", JList([])) == JList(drinks)
    requires SalesSummaryLines(summary, repr).Ok?
    ensures var line := (i: nat, it: Json) => RankLine(i, it, repr);
      var pl, dl := Enumerated(Take(pizzas, 10), line), Enumerated(Take(drinks, 5), line);
      pl.Ok? && dl.Ok? && SalesSummaryLines(summary, repr) == Ok(SummaryHeader(summary, repr) + pl.value + [DrinksHeading] + dl.value)
  {
    assert Head(JList(pizzas), 10) == Ok(Take(pizzas, 10)) && Head(JList(drinks), 5) == Ok(Take(drinks, 5));
  }

  const ConsumptionTitle := "Consumo estimado — Top 10 insumos (hoje)\n"
  const ConsumptionTip := "\nDica: use essa lista para conferir a cozinha e acompanhar o CMV teórico do dia."

  /** The lines of send_consumption_list: title, at most 10 items, the closing tip. */
  function ConsumptionLines(items: seq<Json>, repr: Json -> string): Result<seq<string>>
  {
    var lines :- Enumerated(Take(items, 10), (i: nat, it: Json) => ConsumptionLine(i, it, repr));
    Ok([ConsumptionTitle] + lines + [ConsumptionTip])
  }

  method SendConsumptionList(to: string, items: seq<Json>, repr: Json -> string) returns (r: Result<Outbound>)
    ensures r == AsText(to, ConsumptionLines(items, repr))
  {
    var lines := EnumerateLines(Take(items, 10), (i: nat, it: Json) => ConsumptionLine(i, it, repr));
    if lines.Err? {
      return Err(lines.msg);
    }
    r := Ok(TextMsg(to, Join([ConsumptionTitle] + lines.value + [ConsumptionTip], "\n")));
  }

  /** At most 10 items, numbered from 1 in input order, between the title and the tip. */
  lemma ConsumptionRanks(items: seq<Json>, repr: Json -> string)
    ensures var r := ConsumptionLines(items, repr);
      var n := Min(10, |items|);
      r.Ok? <==> forall k | 0 <= k < n :: items[k].JObj?
    ensures var r := ConsumptionLines(items, repr);
      var n := Min(10, |items|);
      r.Ok? ==> |r.value| == n + 2 && forall k | 0 <= k < n :: Ok(r.value[1 + k]) == ConsumptionLine(k + 1, items[k], repr)
  {
    var line := (i: nat, it: Json) => ConsumptionLine(i, it, repr);
    var t := Take(items, 10);
    assert forall k | 0 <= k < |t| :: line(k + 1, t[k]).Ok? <==> t[k].JObj?;
    var ls := Enumerated(t, line);
    if ls.Ok? {
      var r := [ConsumptionTitle] + ls.value + [ConsumptionTip];
      assert ConsumptionLines(items, repr) == Ok(r);
      assert forall k | 0 <= k < |ls.value| :: r[1 + k] == ls.value[k];
    }
  }

  const PurchaseButton := Button("make_purchase_list", "Gerar lista de compras")

  const StockTitle := "Itens críticos de estoque\n"
  const StockQuestion := "\nQuer que eu gere uma sugestão de compra?"

  /** The lines of send_low_stock_list: title, at most 5 items, the purchase question. */
  function LowStockLines(items: seq<Json>, repr: Json -> string): Result<seq<string>>
  {
    var lines :- Enumerated(Take(items, 5), (i: nat, it: Json) => StockLine(i, it, repr));
    Ok([StockTitle] + lines + [StockQuestion])
  }

  method SendLowStockList(to: string, items: seq<Json>, repr: Json -> string) returns (r: Result<Outbound>)
    ensures r == AsButtons(to, LowStockLines(items, repr), PurchaseButton)
    ensures r.Ok? ==> OffersOnly(r.value, "make_purchase_list")
  {
    var lines := EnumerateLines(Take(items, 5), (i: nat, it: Json) => StockLine(i, it, repr));
    if lines.Err? {
      return Err(lines.msg);
    }
    r := Ok(ButtonsMsg(to, Join([StockTitle] + lines.value + [StockQuestion], "\n"),
      JList([PurchaseButton])));
  }

  /** At most 5 items, each as 'n) insumo — atual/min unid', numbered from 1. */
  lemma LowStockRanks(items: seq<Json>, repr: Json -> string)
    ensures var r := LowStockLines(items, repr);
      var n := Min(5, |items|);
      r.Ok? <==> forall k | 0 <= k < n :: items[k].JObj?
    ensures var r := LowStockLines(items, repr);
      var n := Min(5, |items|);
      r.Ok? ==> |r.value| == n + 2 && forall k | 0 <= k < n :: Ok(r.value[1 + k]) == StockLine(k + 1, items[k], repr)
  {
    var line := (i: nat, it: Json) => StockLine(i, it, repr);
    var t := Take(items, 5);
    assert forall k | 0 <= k < |t| :: line(k + 1, t[k]).Ok? <==> t[k].JObj?;
    var ls := Enumerated(t, line);
    if ls.Ok? {
      var r := [StockTitle] + ls.value + [StockQuestion];
      assert LowStockLines(items, repr) == Ok(r);
      assert forall k | 0 <= k < |ls.value| :: r[1 + k] == ls.value[k];
    }
  }

  const ActionsButton := Button("view_cmv_actions", "Ver ações recomendadas")

  function CmvHeader(data: map<string, Json>, repr: Json -> string): seq<string>
  {
    ["CMV — Análise rápida\n",
     "• CMV esperado: " + PyStr(Lookup(data, "cmv_esperado", JStr("-")), repr) + "%",
     "• CMV atual: " + PyStr(Lookup(data, "cmv_atual", JStr("-")), repr) + "%",
     "• Desvio: " + PyStr(Lookup(data, "desvio_pct", JStr("-")), repr) + " p.p.\n",
     "Principais contribuintes"]
  }

  const CmvQuestion := "\nQuer ver ações recomendadas para corrigir hoje?"

  /** The lines of send_cmv_analysis: the figures, at most 3 contributors, the question. */
  function CmvLines(data: map<string, Json>, repr: Json -> string): Result<seq<string>>
  {
    var contributors :- Head(Lookup(data, "contribuintes", JList([])), 3);
    var lines :- Enumerated(contributors, (i: nat, it: Json) => ContributorLine(i, it, repr));
    Ok(CmvHeader(data, repr) + lines + [CmvQuestion])
  }

  method SendCmvAnalysis(to: string, data: map<string, Json>, repr: Json -> string) returns (r: Result<Outbound>)
    ensures r == AsButtons(to, CmvLines(data, repr), ActionsButton)
    ensures r.Ok? ==> OffersOnly(r.value, "view_cmv_actions")
  {
    var contributors := Head(Lookup(data, "contribuintes", JList([])), 3);
    if contributors.Err? {
      return Err(contributors.msg);
    }
    var lines := EnumerateLines(contributors.value, (i: nat, it: Json) => ContributorLine(i, it, repr));
    if lines.Err? {
      return Err(lines.msg);
    }
    r := Ok(ButtonsMsg(to, Join(CmvHeader(data, repr) + lines.value + [CmvQuestion], "\n"),
      JList([ActionsButton])));
  }

  /** At most 3 contributors, numbered from 1 in input order, after the five header lines. */
  lemma CmvRanks(data: map<string, Json>, repr: Json -> string, contributors: seq<Json>)
    requires Lookup(data, "contribuintes", JList([])) == JList(contributors)
    ensures var r := CmvLines(data, repr);
      var n := Min(3, |contributors|);
      r.Ok? <==> forall k | 0 <= k < n :: contributors[k].JObj?
    ensures var r := CmvLines(data, repr);
      var n := Min(3, |contributors|);
      r.Ok? ==> |r.value| == n + 6 && forall k | 0 <= k < n :: Ok(r.value[5 + k]) == ContributorLine(k + 1, contributors[k], repr)
  {
    var line := (i: nat, it: Json) => ContributorLine(i, it, repr);
    var t := Take(contributors, 3);
    assert forall k | 0 <= k < |t| :: line(k + 1, t[k]).Ok? <==> t[k].JObj?;
    var ls := Enumerated(t, line);
    if ls.Ok? {
      var r := CmvHeader(data, repr) + ls.value + [CmvQuestion];
      assert CmvLines(data, repr) == Ok(r);
      assert forall k | 0 <= k < |ls.value| :: r[5 + k] == ls.value[k];
    }
  }

}
