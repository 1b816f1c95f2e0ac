/** The pickup-slot table shared by the three service screens, which slots
    are closed at a given time of day, and how the screen's selection falls
    back when its slot closes. */
module Slots {
  import opened Common

  datatype TimeSlot = TimeSlot(caption: string, startHour: nat, endHour: nat)

  /** The six daily two-hour windows, ordered by end hour. */
  const Table: seq<TimeSlot> := [
    TimeSlot("8:00 AM - 10:00 AM", 8, 10),
    TimeSlot("10:00 AM - 12:00 PM", 10, 12),
    TimeSlot("12:00 PM - 2:00 PM", 12, 14),
    TimeSlot("2:00 PM - 4:00 PM", 14, 16),
    TimeSlot("4:00 PM - 6:00 PM", 16, 18),
    TimeSlot("6:00 PM - 8:00 PM", 18, 20)
  ]

  /** Minutes since midnight, from the clock's hour and minute. */
  function MinutesOfDay(hour: nat, minute: nat): (m: nat)
    requires hour < 24 && minute < 60
    ensures m < 24 * 60
    ensures m / 60 == hour && m % 60 == minute
  {
    hour * 60 + minute
  }

  /** A slot stops taking pickups 30 minutes before it ends. */
  predicate IsClosedAt(slot: TimeSlot, minutes: int) {
    minutes >= slot.endHour * 60 - 30
  }

  function Labels(slots: seq<TimeSlot>): (r: seq<string>)
    ensures |r| == |slots|
    ensures forall k :: 0 <= k < |slots| ==> r[k] == slots[k].caption
  {
    if slots == [] then [] else [slots[0].caption] + Labels(slots[1..])
  }

  predicate SortedByEnd(slots: seq<TimeSlot>) {
    forall i, j :: 0 <= i < j < |slots| ==> slots[i].endHour <= slots[j].endHour
  }

  predicate DistinctLabels(slots: seq<TimeSlot>) {
    forall i, j :: 0 <= i < j < |slots| ==> slots[i].caption != slots[j].caption
  }

  /** The labels of the closed slots of `slots`, in order: the
      filter-then-map of getDisabledSlots. */
  function ClosedLabels(slots: seq<TimeSlot>, minutes: int): seq<string> {
    if slots == [] then []
    else (if IsClosedAt(slots[0], minutes) then [slots[0].caption] else [])
         + ClosedLabels(slots[1..], minutes)
  }

  /** getDisabledSlots at `minutes` past midnight. */
  function DisabledSlots(minutes: int): seq<string> {
    ClosedLabels(Table, minutes)
  }

  /** In a list ordered by end hour, the closed slots are a prefix. */
  lemma {:induction false} ClosedLabelsArePrefix(slots: seq<TimeSlot>, minutes: int)
    requires SortedByEnd(slots)
    ensures |ClosedLabels(slots, minutes)| <= |slots|
    ensures ClosedLabels(slots, minutes) == Labels(slots[..|ClosedLabels(slots, minutes)|])
    ensures forall k :: 0 <= k < |slots| ==>
      (k < |ClosedLabels(slots, minutes)| <==> IsClosedAt(slots[k], minutes))
  {
    if slots != [] {
      var tail := slots[1..];
      ClosedLabelsArePrefix(tail, minutes);
      var n := |ClosedLabels(tail, minutes)|;
      if IsClosedAt(slots[0], minutes) {
        assert slots[..n + 1] == [slots[0]] + tail[..n];
        assert Labels(slots[..n + 1])[1..] == Labels(tail[..n]);
      } else {
        forall k | 0 <= k < |tail| ensures !IsClosedAt(tail[k], minutes) {
          assert tail[k] == slots[k + 1];
        }
        assert slots[..0] == [];
      }
    }
  }

  lemma TableShape()
    ensures SortedByEnd(Table) && DistinctLabels(Table)
  {
  }

  /** Number of slots closed at `minutes`. */
  function ClosedCount(minutes: int): nat {
    |DisabledSlots(minutes)|
  }

  /** getDisabledSlots: a slot is listed iff the time has reached its end
      minus 30 minutes, and the listed slots are the first ones of the
      table, in table order. */
  lemma DisabledSlotsSpec(minutes: int)
    ensures ClosedCount(minutes) <= |Table|
    ensures DisabledSlots(minutes) == Labels(Table[..ClosedCount(minutes)])
    ensures forall k :: 0 <= k < |Table| ==>
      (Table[k].caption in DisabledSlots(minutes) <==> minutes >= Table[k].endHour * 60 - 30)
    ensures forall k :: 0 <= k < |Table| ==>
      (k < ClosedCount(minutes) <==> IsClosedAt(Table[k], minutes))
  {
    TableShape();
    ClosedLabelsArePrefix(Table, minutes);
    var n := ClosedCount(minutes);
    forall k | 0 <= k < |Table|
      ensures Table[k].caption in DisabledSlots(minutes) <==> k < n
    {
      var d := DisabledSlots(minutes);
      if Table[k].caption in d {
        var j :| 0 <= j < |d| && d[j] == Table[k].caption;
        assert d[j] == Table[j].caption;
      }
      assert k < n ==> d[k] == Table[k].caption;
    }
  }

  /** As time passes, closed slots stay closed: the earlier list is a
      prefix of the later one. */
  lemma DisabledSlotsGrow(m1: int, m2: int)
    requires m1 <= m2
    ensures ClosedCount(m1) <= ClosedCount(m2)
    ensures DisabledSlots(m1) == DisabledSlots(m2)[..ClosedCount(m1)]
  {
    DisabledSlotsSpec(m1);
    DisabledSlotsSpec(m2);
    var n1, n2 := ClosedCount(m1), ClosedCount(m2);
    assert n2 < |Table| ==> !IsClosedAt(Table[n2], m1);
    assert Table[..n2][..n1] == Table[..n1];
  }

  /** `timeSlots.find(slot => !disabled.includes(slot.caption))`. */
  function FirstOpen(slots: seq<TimeSlot>, disabled: seq<string>): (r: Option<nat>)
    ensures r.Some? ==> r.value < |slots| && slots[r.value].caption !in disabled
    ensures r.Some? ==> forall j :: 0 <= j < r.value ==> slots[j].caption in disabled
    ensures r.None? ==> forall j :: 0 <= j < |slots| ==> slots[j].caption in disabled
  {
    if slots == [] then None
    else if slots[0].caption !in disabled then Some(0)
    else match FirstOpen(slots[1..], disabled)
      case None => None
      case Some(k) => Some(k + 1)
  }

  /** The selection after updateSlots: a missing or closed selection moves
      to the first open slot of the table; if none is open it stays. */
  function NextSelection(selected: Option<string>, disabled: seq<string>): (r: Option<string>)
    ensures selected.Some? && selected.value !in disabled ==> r == selected
    ensures r != selected ==> r.Some? && r.value !in disabled
    ensures r.None? ==> selected.None?
  {
    if selected.None? || selected.value in disabled then
      match FirstOpen(Table, disabled)
      case Some(k) => Some(Table[k].caption)
      case None => selected
    else selected
  }

  /** When exactly the first `n` captions are excluded, the first open
      slot is slot `n`, if there is one. */
  lemma FirstOpenAfterPrefix(slots: seq<TimeSlot>, disabled: seq<string>, n: nat)
    requires n <= |slots|
    requires forall k :: 0 <= k < |slots| ==> (slots[k].caption in disabled <==> k < n)
    ensures FirstOpen(slots, disabled) == if n < |slots| then Some(n) else None
  {
    assert n < |slots| ==> slots[n].caption !in disabled;
  }

  /** What updateSlots does to the selection at `minutes`: an open
      selection is kept; otherwise the slot right after the closed prefix
      is chosen, or, when every slot is closed, nothing changes. */
  lemma NextSelectionSpec(selected: Option<string>, minutes: int)
    ensures var d := DisabledSlots(minutes);
      var r := NextSelection(selected, d);
      && (selected.Some? && selected.value !in d ==> r == selected)
      && ((selected.None? || selected.value in d) && ClosedCount(minutes) < |Table| ==>
            r == Some(Table[ClosedCount(minutes)].caption))
      && (ClosedCount(minutes) == |Table| ==> r == selected)
      && (r != selected ==> r.Some? && r.value !in d && r.value in Labels(Table))
  {
    DisabledSlotsSpec(minutes);
    var n := ClosedCount(minutes);
    FirstOpenAfterPrefix(Table, DisabledSlots(minutes), n);
    if n < |Table| {
      assert Labels(Table)[n] == Table[n].caption;
    }
  }
}
