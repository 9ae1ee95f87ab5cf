/**
 * The points both performance charts draw: one per day, with its date
 * label, the day itself (as a day number) and its weekday abbreviation
 * ('Dom', 'Seg', ..., 'Sáb'), plus the weekday filter both charts apply.
 */
module ChartPoints {
  import opened Wrappers
  import opened Choices
  import opened Seqs

  datatype Point = Point(date: string, fullDate: int, weekday: string)

  /** The points whose weekday is one of the given days, in the data's order. */
  function OnWeekdays(data: seq<Point>, days: seq<string>): (r: seq<Point>)
    ensures |r| <= |data|
    ensures forall p :: p in r <==> p in data && p.weekday in days
  {
    if data == [] then []
    else (if data[0].weekday in days then [data[0]] else []) + OnWeekdays(data[1..], days)
  }

  /** The weekday filter keeps the order of the data. */
  lemma {:induction false} OnWeekdaysInOrder(data: seq<Point>, days: seq<string>)
    ensures Subsequence(OnWeekdays(data, days), data)
  {
    if data != [] {
      OnWeekdaysInOrder(data[1..], days);
      var tail := OnWeekdays(data[1..], days);
      if data[0].weekday in days {
        assert OnWeekdays(data, days) == [data[0]] + tail;
      } else {
        assert OnWeekdays(data, days) == tail;
        if tail != [] {
          assert tail[0] in tail;
        }
      }
    }
  }

  /** Keeping only some weekdays and then filtering by the weekday is a no-op when all are kept. */
  lemma {:induction false} OnAllWeekdays(data: seq<Point>, days: seq<string>)
    requires forall k | 0 <= k < |data| :: data[k].weekday in days
    ensures OnWeekdays(data, days) == data
  {
    if data != [] {
      OnAllWeekdays(data[1..], days);
      assert data == [data[0]] + data[1..];
    }
  }

  /** An indicator the charts can draw: its data key and its display name. */
  datatype Kpi = Kpi(id: string, name: string)

  /** One drawn line: the data key it plots, its legend name when the chart gives one, and its stroke colour. */
  datatype Line = Line(dataKey: string, name: Option<string>, stroke: string)

  /** The nine indicators, in the order the selectors list them. */
  const KpiOptions: seq<Kpi> := [
    Kpi("faturamentoTotal", "Faturamento Total"),
    Kpi("ticketMedio", "Ticket Médio"),
    Kpi("totalPedidos", "Total de Pedidos"),
    Kpi("taxasIfood", "Taxas iFood"),
    Kpi("anunciosPagos", "Anúncios Pagos"),
    Kpi("incentivosIfood", "Incentivos iFood"),
    Kpi("incentivosLoja", "Incentivos Loja"),
    Kpi("entregasLoja", "Entregas Loja"),
    Kpi("taxasEntregadores", "Taxas Entregadores")
  ]

  /** The first indicator with that id, found by a linear search. */
  function FindKpi(kpis: seq<Kpi>, id: string): (r: Option<Kpi>)
    ensures r.Some? ==> r.value in kpis && r.value.id == id
    ensures r.None? <==> forall k | k in kpis :: k.id != id
  {
    if kpis == [] then None
    else if kpis[0].id == id then Some(kpis[0])
    else FindKpi(kpis[1..], id)
  }

  /**
   * The lines of a chart: one per selected id in selection order, coloured
   * by its position and, when the chart names them, carrying the
   * indicator's name for the legend; the lookup is asserted
   * with `!`, so an id with no indicator makes the whole render fail (None).
   */
  function Lines(kpis: seq<Kpi>, selected: seq<string>, named: bool, colors: seq<string>, from: nat): (r: Option<seq<Line>>)
    requires |colors| > 0
    ensures r.Some? <==> forall id | id in selected :: FindKpi(kpis, id).Some?
    ensures r.Some? ==> |r.value| == |selected|
    ensures r.Some? ==> forall k | 0 <= k < |selected| ::
      r.value[k].dataKey == selected[k] && r.value[k].stroke == colors[(from + k) % |colors|]
    ensures r.Some? ==> forall k | 0 <= k < |selected| ::
      r.value[k].name == if named then Some(FindKpi(kpis, selected[k]).value.name) else None
    decreases |selected|
  {
    if selected == [] then Some([])
    else match FindKpi(kpis, selected[0])
      case None => assert selected[0] in selected; None
      case Some(kpi) =>
        match Lines(kpis, selected[1..], named, colors, from + 1)
        case None => assert forall id | id in selected[1..] :: id in selected; None
        case Some(rest) => Some([Line(kpi.id, if named then Some(kpi.name) else None, colors[from % |colors|])] + rest)
  }
}
