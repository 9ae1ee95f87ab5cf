/**
 * The performance page's chart: the points inside the chosen date range,
 * the complete weeks among them (seven points starting on a Sunday), a
 * window of one week that the Prev and Next buttons move from week start
 * to week start, and the weekday and indicator selections.
 */
module PerformanceWindow {
  import opened Wrappers
  import opened Choices
  import opened Seqs
  import opened ChartPoints
  import SimpleMultiSelect

  /** Points in one window. */
  const WeekLength: nat := 7
  /** The weekday a complete week starts on. */
  const Sunday := "Dom"
  /** The cap on selected indicators. */
  const MaxKpis := 4
  /** The indicators selected when the chart is first drawn. */
  const InitialKpis := ["faturamentoTotal", "ticketMedio"]
  const Colors := ["#4B1F6F", "#FFD53D", "#BDA3E1", "#6B7280", "#00C49F", "#FFBB28", "#FF8042"]

  /** The date-range picker's value: either end may be missing. */
  datatype DateRange = DateRange(from: Option<int>, to: Option<int>)

  /** The points whose day lies in [lo, hi], in order. */
  function Between(data: seq<Point>, lo: int, hi: int): (r: seq<Point>)
    ensures |r| <= |data|
    ensures forall p :: p in r <==> p in data && lo <= p.fullDate <= hi
  {
    if data == [] then []
    else (if lo <= data[0].fullDate <= hi then [data[0]] else []) + Between(data[1..], lo, hi)
  }

  /** chartData: all points unless both ends of the range are set. */
  function InRange(all: seq<Point>, range: DateRange): (r: seq<Point>)
    ensures range.from.None? || range.to.None? ==> r == all
    ensures range.from.Some? && range.to.Some? ==>
      forall p :: p in r <==> p in all && range.from.value <= p.fullDate <= range.to.value
  {
    if range.from.None? || range.to.None? then all else Between(all, range.from.value, range.to.value)
  }

  /** The range filter keeps the order of the points. */
  lemma {:induction false} BetweenInOrder(data: seq<Point>, lo: int, hi: int)
    ensures Subsequence(Between(data, lo, hi), data)
  {
    if data != [] {
      BetweenInOrder(data[1..], lo, hi);
      var tail := Between(data[1..], lo, hi);
      if lo <= data[0].fullDate <= hi {
        assert Between(data, lo, hi) == [data[0]] + tail;
      } else {
        assert Between(data, lo, hi) == tail;
        if tail != [] {
          assert tail[0] in tail;
        }
      }
    }
  }

  /** A week starts at i when a Sunday sits there and six more points follow it. */
  predicate IsWeekStart(data: seq<Point>, i: int)
  {
    0 <= i && i + WeekLength <= |data| && data[i].weekday == Sunday
  }

  predicate Ascending(s: seq<nat>)
  {
    forall j, k | 0 <= j < k < |s| :: s[j] < s[k]
  }

  /** The week starts below n, ascending. */
  function StartsBelow(data: seq<Point>, n: nat): (r: seq<nat>)
    ensures forall k | 0 <= k < |r| :: r[k] < n && IsWeekStart(data, r[k])
    ensures forall i | 0 <= i < n && IsWeekStart(data, i) :: i in r
    ensures Ascending(r)
  {
    if n == 0 then []
    else StartsBelow(data, n - 1) + (if IsWeekStart(data, n - 1) then [n - 1] else [])
  }

  /** All the week starts of the data. */
  function WeekStarts(data: seq<Point>): (r: seq<nat>)
  {
    StartsBelow(data, |data|)
  }

  /** No week starts in the last six positions, so the scan can stop before them. */
  lemma {:induction false} StartsBelowTail(data: seq<Point>, i: nat, n: nat)
    requires i <= n <= |data| && i + WeekLength > |data|
    ensures StartsBelow(data, n) == StartsBelow(data, i)
    decreases n
  {
    if n > i {
      StartsBelowTail(data, i, n - 1);
    }
  }

  /** weekStartIndexes: the scan over i <= length - 7 pushing every Sunday. */
  method WeekStartIndexes(data: seq<Point>) returns (indexes: seq<nat>)
    ensures indexes == WeekStarts(data)
  {
    indexes := [];
    var i: nat := 0;
    while i + WeekLength <= |data|
      invariant i <= |data|
      invariant indexes == StartsBelow(data, i)
    {
      if data[i].weekday == Sunday {
        indexes := indexes + [i];
      }
      i := i + 1;
    }
    StartsBelowTail(data, i, |data|);
  }

  /** The week-start list of any data is ascending and holds exactly the week starts. */
  lemma WeekStartsExact(data: seq<Point>, i: int)
    ensures i in WeekStarts(data) <==> IsWeekStart(data, i)
    ensures Ascending(WeekStarts(data))
  {
  }

  /** The last element of ws below w, scanning from the end. */
  function Prev(ws: seq<nat>, w: nat): (r: Option<nat>)
    ensures r.None? <==> forall x | x in ws :: x >= w
    ensures r.Some? ==> r.value in ws && r.value < w
    ensures r.Some? && Ascending(ws) ==> forall x | x in ws && x < w :: x <= r.value
  {
    if ws == [] then None
    else
      var n := |ws| - 1;
      if ws[n] < w then
        assert ws[n] in ws;
        assert Ascending(ws) ==> forall k | 0 <= k < n :: ws[k] < ws[n];
        Some(ws[n])
      else
        var r := Prev(ws[..n], w);
        PrevStep(ws, w, r);
        r
  }

  /** The last week start is not below the window, so the scan's answer on the others is the answer. */
  lemma PrevStep(ws: seq<nat>, w: nat, r: Option<nat>)
    requires ws != [] && ws[|ws| - 1] >= w
    requires var init := ws[..|ws| - 1];
      (r.None? <==> forall x | x in init :: x >= w) &&
      (r.Some? ==> r.value in init && r.value < w) &&
      (r.Some? && Ascending(init) ==> forall x | x in init && x < w :: x <= r.value)
    ensures r.None? <==> forall x | x in ws :: x >= w
    ensures r.Some? ==> r.value in ws && r.value < w
    ensures r.Some? && Ascending(ws) ==> forall x | x in ws && x < w :: x <= r.value
  {
    var n := |ws| - 1;
    var init := ws[..n];
    assert ws == init + [ws[n]];
    assert forall x | x in ws :: x in init || x == ws[n];
    assert forall x | x in init :: x in ws;
    if r.Some? && Ascending(ws) {
      assert Ascending(init) by {
        forall j, k | 0 <= j < k < |init| ensures init[j] < init[k] {
          assert init[j] == ws[j] && init[k] == ws[k];
        }
      }
      forall x | x in ws && x < w ensures x <= r.value {
        assert x in init;
      }
    }
  }

  /** The first element of ws above w, scanning from the front. */
  function Next(ws: seq<nat>, w: nat): (r: Option<nat>)
    ensures r.None? <==> forall x | x in ws :: x <= w
    ensures r.Some? ==> r.value in ws && r.value > w
    ensures r.Some? && Ascending(ws) ==> forall x | x in ws && x > w :: r.value <= x
  {
    if ws == [] then None
    else if ws[0] > w then
      assert ws[0] in ws;
      assert Ascending(ws) ==> forall k | 0 < k < |ws| :: ws[0] < ws[k];
      Some(ws[0])
    else
      var r := Next(ws[1..], w);
      assert forall x | x in ws :: x == ws[0] || x in ws[1..];
      r
  }

  /** minWindowStart: the first week start, 0 when there is none. */
  function MinStart(ws: seq<nat>): nat
  {
    if ws == [] then 0 else ws[0]
  }

  /** maxWindowStart: the last week start, 0 when there is none. */
  function MaxStart(ws: seq<nat>): nat
  {
    if ws == [] then 0 else ws[|ws| - 1]
  }

  /** Prev is disabled exactly when it would not move, once the window sits on a week start. */
  lemma PrevDisabledIffStuck(ws: seq<nat>, w: nat)
    requires Ascending(ws) && (w in ws || (ws == [] && w == 0))
    ensures w <= MinStart(ws) <==> Prev(ws, w).None?
  {
    if ws != [] && w > ws[0] {
      assert ws[0] in ws;
    }
  }

  /** Next is disabled exactly when it would not move, once the window sits on a week start. */
  lemma NextDisabledIffStuck(ws: seq<nat>, w: nat)
    requires Ascending(ws) && (w in ws || (ws == [] && w == 0))
    ensures w >= MaxStart(ws) <==> Next(ws, w).None?
  {
    if ws != [] && w < ws[|ws| - 1] {
      assert ws[|ws| - 1] in ws;
    }
  }

  /** chartData.slice(w, w + 7) for a non-negative w. */
  function Window(data: seq<Point>, w: nat): (r: seq<Point>)
    ensures |r| <= WeekLength
    ensures forall k | 0 <= k < |r| :: w + k < |data| && r[k] == data[w + k]
    ensures w + WeekLength <= |data| ==> |r| == WeekLength
  {
    var lo := if w < |data| then w else |data|;
    var hi := if w + WeekLength < |data| then w + WeekLength else |data|;
    data[lo..hi]
  }

  /** visibleData: the window, filtered to the selected weekdays when any are selected. */
  function VisibleData(data: seq<Point>, w: nat, selectedWeekdays: seq<string>): (r: seq<Point>)
    ensures |r| <= WeekLength
    ensures selectedWeekdays == [] ==> r == Window(data, w)
    ensures forall p :: p in r <==> p in Window(data, w) && (selectedWeekdays == [] || p.weekday in selectedWeekdays)
  {
    if |data| == 0 then []
    else if selectedWeekdays == [] then Window(data, w)
    else OnWeekdays(Window(data, w), selectedWeekdays)
  }

  /** A window on a week start shows a whole week, Sunday first. */
  lemma WeekWindow(data: seq<Point>, w: nat)
    requires IsWeekStart(data, w)
    ensures |VisibleData(data, w, [])| == WeekLength
    ensures VisibleData(data, w, [])[0].weekday == Sunday
  {
  }

  function GetBrandColor(index: nat): (c: string)
    ensures c in Colors
  {
    Colors[index % |Colors|]
  }

  class Chart {
    var chartData: seq<Point>
    var weekStarts: seq<nat>
    var windowStart: nat
    var selectedKpis: seq<string>
    var selectedWeekdays: seq<string>

    /** The memoised week starts belong to the current points. */
    ghost predicate Valid()
      reads this
    {
      weekStarts == WeekStarts(chartData)
    }

    /** The window sits on a week start, or at 0 when there is none. */
    predicate Anchored()
      reads this
    {
      windowStart in weekStarts || (weekStarts == [] && windowStart == 0)
    }

    predicate PrevDisabled()
      reads this
    {
      windowStart <= MinStart(weekStarts)
    }

    predicate NextDisabled()
      reads this
    {
      windowStart >= MaxStart(weekStarts)
    }

    function Visible(): (r: seq<Point>)
      reads this
      ensures |r| <= WeekLength
    {
      VisibleData(chartData, windowStart, selectedWeekdays)
    }

    /** The first render: the window starts on the last complete week. */
    constructor (all: seq<Point>, range: DateRange)
      ensures chartData == InRange(all, range) && Valid()
      ensures windowStart == MaxStart(weekStarts) && Anchored()
      ensures selectedKpis == InitialKpis && selectedWeekdays == []
    {
      var data := InRange(all, range);
      var ws := WeekStartIndexes(data);
      chartData := data;
      weekStarts := ws;
      windowStart := MaxStart(ws);
      selectedKpis := InitialKpis;
      selectedWeekdays := [];
    }

    /**
     * A new date range recomputes the points and week starts, but the window
     * start is state of its own and keeps its old value.
     */
    method ChangeRange(all: seq<Point>, range: DateRange)
      modifies this
      ensures chartData == InRange(all, range) && Valid()
      ensures windowStart == old(windowStart)
      ensures selectedKpis == old(selectedKpis) && selectedWeekdays == old(selectedWeekdays)
    {
      chartData := InRange(all, range);
      weekStarts := WeekStartIndexes(chartData);
    }

    /** handlePrev: scan the week starts from the last one down for one below the window. */
    method HandlePrev()
      modifies this
      ensures windowStart == (match Prev(old(weekStarts), old(windowStart)) case Some(p) => p case None => old(windowStart))
      ensures chartData == old(chartData) && weekStarts == old(weekStarts)
      ensures selectedKpis == old(selectedKpis) && selectedWeekdays == old(selectedWeekdays)
      ensures old(Anchored()) ==> Anchored()
    {
      var ws, w := weekStarts, windowStart;
      var prevIndex: Option<nat> := None;
      var j := |ws| - 1;
      assert ws[..j + 1] == ws;
      while j >= 0
        invariant -1 <= j < |ws|
        invariant Prev(ws, w) == Prev(ws[..j + 1], w)
      {
        if ws[j] < w {
          prevIndex := Some(ws[j]);
          break;
        }
        assert ws[..j + 1][..j] == ws[..j];
        j := j - 1;
      }
      assert prevIndex == Prev(ws, w);
      if prevIndex.Some? {
        windowStart := prevIndex.value;
      }
    }

    /** handleNext: scan the week starts from the first one up for one above the window. */
    method HandleNext()
      modifies this
      ensures windowStart == (match Next(old(weekStarts), old(windowStart)) case Some(p) => p case None => old(windowStart))
      ensures chartData == old(chartData) && weekStarts == old(weekStarts)
      ensures selectedKpis == old(selectedKpis) && selectedWeekdays == old(selectedWeekdays)
      ensures old(Anchored()) ==> Anchored()
    {
      var ws, w := weekStarts, windowStart;
      var nextIndex: Option<nat> := None;
      var j := 0;
      while j < |ws|
        invariant 0 <= j <= |ws|
        invariant Next(ws, w) == Next(ws[j..], w)
      {
        if ws[j] > w {
          nextIndex := Some(ws[j]);
          break;
        }
        assert ws[j..][1..] == ws[j + 1..];
        j := j + 1;
      }
      assert nextIndex == Next(ws, w);
      if nextIndex.Some? {
        windowStart := nextIndex.value;
      }
    }

    /** The indicator selector: SimpleMultiSelect capped at four. */
    method ClickKpi(value: string)
      modifies this
      ensures selectedKpis == SimpleMultiSelect.Click(old(selectedKpis), value, MaxKpis)
      ensures chartData == old(chartData) && weekStarts == old(weekStarts)
      ensures windowStart == old(windowStart) && selectedWeekdays == old(selectedWeekdays)
    {
      selectedKpis := SimpleMultiSelect.Click(selectedKpis, value, MaxKpis);
    }

    /** The weekday selector: SimpleMultiSelect with no cap. */
    method ClickWeekday(value: string)
      modifies this
      ensures selectedWeekdays == SimpleMultiSelect.Click(old(selectedWeekdays), value, 0)
      ensures chartData == old(chartData) && weekStarts == old(weekStarts)
      ensures windowStart == old(windowStart) && selectedKpis == old(selectedKpis)
    {
      selectedWeekdays := SimpleMultiSelect.Click(selectedWeekdays, value, 0);
    }

    /** The lines drawn for the selected indicators, None when a lookup fails. */
    function DrawnLines(): (r: Option<seq<Line>>)
      reads this
      ensures r.Some? ==> |r.value| == |selectedKpis|
    {
      Lines(KpiOptions, selectedKpis, true, Colors, 0)
    }
  }

  /** The initial indicators are known ids, so the first render draws both lines. */
  lemma InitialLinesDrawn()
    ensures Lines(KpiOptions, InitialKpis, true, Colors, 0).Some?
  {
    assert FindKpi(KpiOptions, "faturamentoTotal").Some?;
    assert FindKpi(KpiOptions, "ticketMedio").Some?;
  }
}
