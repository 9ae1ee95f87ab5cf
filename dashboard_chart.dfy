/**
 * The dashboard's thirty-day chart: weekday toggle buttons filter the
 * points, and a capped drop-down picks the indicators drawn as lines.
 */
module DashboardChart {
  import opened Wrappers
  import opened Choices
  import opened Seqs
  import opened ChartPoints

  const Colors := ["#4B1F6F", "#FFD53D", "#BDA3E1", "#222222", "#00C49F", "#FFBB28", "#FF8042"]

  /** The indicators selected on the first render, as the component writes them: display names. */
  const InitialKpisAsWritten := ["Faturamento Total", "Ticket Médio"]

  /** The same two indicators by id, which is what the line lookup matches on. */
  const InitialKpis := ["faturamentoTotal", "ticketMedio"]

  /** filteredData: all points with no weekday selected, else those on a selected weekday. */
  function FilteredData(data: seq<Point>, selectedWeekdays: seq<string>): (r: seq<Point>)
    ensures selectedWeekdays == [] ==> r == data
    ensures forall p :: p in r <==> p in data && (selectedWeekdays == [] || p.weekday in selectedWeekdays)
    ensures |r| <= |data|
  {
    if selectedWeekdays == [] then data else OnWeekdays(data, selectedWeekdays)
  }

  /** The filtered points keep the order of the data; with no weekday selected they are the data itself. */
  lemma {:induction false} FilteredInOrder(data: seq<Point>, selectedWeekdays: seq<string>)
    ensures Subsequence(FilteredData(data, selectedWeekdays), data)
    decreases |data|
  {
    if selectedWeekdays != [] {
      OnWeekdaysInOrder(data, selectedWeekdays);
    } else if data != [] {
      FilteredInOrder(data[1..], selectedWeekdays);
    }
  }

  /** handleDaySelect: a selected day is removed, an unselected one appended. */
  function HandleDaySelect(prev: seq<string>, day: string): (r: seq<string>)
    ensures day in prev ==> day !in r && forall d | d != day :: d in r <==> d in prev
    ensures day !in prev ==> r == prev + [day]
  {
    if day in prev then Without(prev, day) else prev + [day]
  }

  /** Pressing the same day twice, starting unselected, restores the selection. */
  lemma DaySelectTwice(prev: seq<string>, day: string)
    requires day !in prev
    ensures HandleDaySelect(HandleDaySelect(prev, day), day) == prev
  {
    WithoutAppended(prev, day);
  }

  /** getBrandColor: colours cycle with period seven. */
  function GetBrandColor(index: nat): (c: string)
    ensures c in Colors
  {
    Colors[index % |Colors|]
  }

  /** Seven consecutive lines get seven different colours, and the eighth repeats the first. */
  lemma BrandColorCycle(index: nat)
    ensures GetBrandColor(index + |Colors|) == GetBrandColor(index)
    ensures forall j | index < j < index + |Colors| :: GetBrandColor(j) != GetBrandColor(index)
  {
    ColorsDistinct();
    forall j | index < j < index + |Colors|
      ensures GetBrandColor(j) != GetBrandColor(index)
    {
      ModDiffers(index, j);
    }
  }

  /** Two numbers less than seven apart leave different remainders modulo seven. */
  lemma ModDiffers(i: nat, j: nat)
    requires i < j < i + 7
    ensures i % 7 != j % 7
  {
  }

  lemma ColorsDistinct()
    ensures forall i, j | 0 <= i < j < |Colors| :: Colors[i] != Colors[j]
  {
  }

  /** The lines drawn for a selection, None when the asserted lookup fails. */
  function DrawnLines(selectedKpis: seq<string>): (r: Option<seq<Line>>)
    ensures r.Some? ==> |r.value| == |selectedKpis|
    ensures r.Some? ==> forall k | 0 <= k < |selectedKpis| ::
      r.value[k].dataKey == selectedKpis[k] && r.value[k].stroke == GetBrandColor(k) && r.value[k].name.None?
  {
    Lines(KpiOptions, selectedKpis, false, Colors, 0)
  }

  /** As written, the first render looks indicators up by display name, finds none and fails. */
  lemma InitialLinesAsWrittenFail()
    ensures DrawnLines(InitialKpisAsWritten).None?
  {
    var name := InitialKpisAsWritten[0];
    assert name[0] == 'F';
    IdsStartLowerCase();
    assert FindKpi(KpiOptions, name).None?;
    assert name in InitialKpisAsWritten;
  }

  /** Every indicator id starts with a lower-case letter (display names start upper-case). */
  lemma IdsStartLowerCase()
    ensures forall k | k in KpiOptions :: |k.id| > 0 && 'a' <= k.id[0] <= 'z'
  {
  }

  /** With ids, the first render draws both lines, in the first two colours. */
  lemma InitialLinesDrawn()
    ensures DrawnLines(InitialKpis).Some?
  {
    assert FindKpi(KpiOptions, "faturamentoTotal").Some?;
    assert FindKpi(KpiOptions, "ticketMedio").Some?;
  }
}
