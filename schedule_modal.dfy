/**
 * ScheduleModal: the dialog where a summary is scheduled for a weekday and a
 * half-hour slot.  The slots are generated by two nested loops; scheduling
 * goes through only when both a day and a slot are chosen.
 */
module ScheduleModal {
  import opened Text
  import opened Numbers

  /** A weekday or slot option: the value sent and the text shown. */
  datatype Item = Item(value: string, title: string)

  const Weekdays: seq<Item> := [
    Item("segunda", "Segunda-feira"), Item("terca", "Ter\U{E7}a-feira"), Item("quarta", "Quarta-feira"),
    Item("quinta", "Quinta-feira"), Item("sexta", "Sexta-feira"), Item("sabado", "S\U{E1}bado"),
    Item("domingo", "Domingo")]

  /** String(n).padStart(2, '0') */
  function Pad2(n: nat): string
  {
    if n < 10 then "0" + NatStr(n) else NatStr(n)
  }

  /** A padded number is its digits, two of them below 100. */
  lemma Pad2Digits(n: nat)
    ensures AllDigits(Pad2(n)) && DigitsValue(Pad2(n)) == n
    ensures n < 100 ==> |Pad2(n)| == 2
  {
    NatStrValue(n);
    if n < 10 {
      DigitsValueAppend("0", NatStr(n));
      AllDigitsConcat("0", NatStr(n));
    } else if n < 100 {
      assert Pow10(2) == 100;
      NatStrLength(n, 2);
    }
  }

  /** The slot the inner loop's body pushes for hour h and minute m. */
  function SlotAt(h: nat, m: nat): Item
  {
    var start := Pad2(h) + ":" + Pad2(m);
    var endM := (m + 29) % 60;
    var endH := h + (m + 29) / 60;
    var end := Pad2(endH % 24) + ":" + Pad2(endM);
    Item(start + "-" + end, start + " - " + end)
  }

  /** The i-th slot pushed: hour i / 2, minute 0 or 30. */
  function Slot(i: nat): Item
  {
    SlotAt(i / 2, (i % 2) * 30)
  }

  /** generateTimeIntervals */
  method GenerateTimeIntervals() returns (intervals: seq<Item>)
    ensures |intervals| == 48 && forall i | 0 <= i < 48 :: intervals[i] == Slot(i)
  {
    intervals := [];
    for h := 0 to 24
      invariant |intervals| == 2 * h
      invariant forall i | 0 <= i < |intervals| :: intervals[i] == Slot(i)
    {
      var m := 0;
      while m < 60
        invariant m == 0 || m == 30 || m == 60
        invariant |intervals| == 2 * h + (if m == 0 then 0 else if m == 30 then 1 else 2)
        invariant forall i | 0 <= i < |intervals| :: intervals[i] == Slot(i)
      {
        var item := SlotAt(h, m);
        SlotIndex(|intervals|, h, m);
        NextSlot(intervals, item);
        intervals := intervals + [item];
        m := m + 30;
      }
    }
  }

  /** Pushing the next slot keeps the list the slots in order. */
  lemma NextSlot(slots: seq<Item>, item: Item)
    requires forall i | 0 <= i < |slots| :: slots[i] == Slot(i)
    requires item == Slot(|slots|)
    ensures forall i | 0 <= i < |slots| + 1 :: (slots + [item])[i] == Slot(i)
  {
  }

  /** The slot pushed at hour h and minute m is the (2h + m/30)-th. */
  lemma SlotIndex(i: nat, h: nat, m: nat)
    requires m == 0 || m == 30
    requires i == 2 * h + (if m == 0 then 0 else 1)
    ensures Slot(i) == SlotAt(h, m)
  {
    var h', m' := i / 2, (i % 2) * 30;
    assert h' == h && m' == m by {
      if m == 0 { assert i == 2 * h + 0; } else { assert i == 2 * h + 1; }
    }
  }

  /** The arithmetic of slot i: its hour and minute, and the end 29 minutes later in the same hour. */
  lemma HalfHour(i: nat)
    requires i < 48
    ensures (30 * i) / 60 == i / 2 && (30 * i) % 60 == (i % 2) * 30
    ensures (30 * i + 29) / 60 == i / 2 && (30 * i + 29) % 60 == (i % 2) * 30 + 29
    ensures ((i % 2) * 30 + 29) % 60 == (i % 2) * 30 + 29 && ((i % 2) * 30 + 29) / 60 == 0
    ensures (i / 2) % 24 == i / 2
  {
  }

  /** The time of day t minutes after midnight, as HH:MM. */
  function Clock(t: nat): string
  {
    Pad2(t / 60) + ":" + Pad2(t % 60)
  }

  /** Slot i runs from minute 30 * i to minute 30 * i + 29 of the day, in the same hour. */
  lemma SlotTimes(i: nat)
    requires i < 48
    ensures Slot(i).value == Clock(30 * i) + "-" + Clock(30 * i + 29)
    ensures Slot(i).title == Clock(30 * i) + " - " + Clock(30 * i + 29)
    ensures (30 * i) / 60 == (30 * i + 29) / 60 && (30 * i) % 60 in {0, 30} && (30 * i + 29) % 60 == (30 * i) % 60 + 29
  {
    HalfHour(i);
  }

  /** Two-digit padded numbers below 100 tell their numbers apart. */
  lemma Pad2Injective(a: nat, b: nat)
    requires Pad2(a) == Pad2(b)
    ensures a == b
  {
    Pad2Digits(a);
    Pad2Digits(b);
  }

  /** Different times of day read differently. */
  lemma ClockInjective(s: nat, t: nat)
    requires s < 1440 && t < 1440 && Clock(s) == Clock(t)
    ensures s == t
  {
    Pad2Digits(s / 60);
    Pad2Digits(t / 60);
    assert Clock(s)[..2] == Pad2(s / 60) && Clock(t)[..2] == Pad2(t / 60);
    assert Clock(s)[3..] == Pad2(s % 60) && Clock(t)[3..] == Pad2(t % 60);
    Pad2Injective(s / 60, t / 60);
    Pad2Injective(s % 60, t % 60);
  }

  lemma ClockLength(t: nat)
    requires t < 1440
    ensures |Clock(t)| == 5
  {
    Pad2Digits(t / 60);
    Pad2Digits(t % 60);
  }

  lemma PrefixOf(a: string, sep: string, b: string)
    ensures (a + sep + b)[..|a|] == a
  {
  }

  /** The slots are in chronological order and no two share a value. */
  lemma SlotsChronological(i: nat, j: nat)
    requires i < j < 48
    ensures 30 * i + 29 < 30 * j
    ensures Slot(i).value != Slot(j).value
  {
    SlotTimes(i);
    SlotTimes(j);
    var a, b := Clock(30 * i), Clock(30 * j);
    ClockLength(30 * i);
    ClockLength(30 * j);
    PrefixOf(a, "-", Clock(30 * i + 29));
    PrefixOf(b, "-", Clock(30 * j + 29));
    if Slot(i).value == Slot(j).value {
      assert a == Slot(i).value[..5] == Slot(j).value[..5] == b;
      ClockInjective(30 * i, 30 * j);
    }
  }

  /** What handleSchedule calls, in order. */
  datatype Call = OnSchedule(day: string, time: string) | OnClose

  /** handleSchedule: onSchedule then onClose, only when a day and a time are both chosen. */
  function HandleSchedule(selectedDay: string, selectedTime: string): (calls: seq<Call>)
    ensures calls != [] <==> selectedDay != "" && selectedTime != ""
    ensures calls != [] ==> calls == [OnSchedule(selectedDay, selectedTime), OnClose]
  {
    if selectedDay != "" && selectedTime != "" then [OnSchedule(selectedDay, selectedTime), OnClose] else []
  }

  /** Seven weekdays, with distinct values. */
  lemma WeekdaysDistinct()
    ensures |Weekdays| == 7 && forall i, j | 0 <= i < j < 7 :: Weekdays[i].value != Weekdays[j].value
  {
  }
}
