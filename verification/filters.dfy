/** ui/components/FiltersComponent.kt: the "Taken since" filter, a switch and a
    six-step slider over fixed day counts. The slider's float position is kept
    only as the whole number `toInt()` makes of it. */
module Filters {
  import opened Common

  /** The preset labels and, position for position, their day counts. */
  const Presets: seq<string> := ["Today", "Last week", "2 weeks", "Last month", "2 months", "6 months"]
  const DaysBack: seq<int> := [0, 7, 14, 30, 60, 180]

  /** The index of the last preset, `presets.lastIndex`. */
  const LastIndex := |Presets| - 1

  /** `daysBack.indexOf(d)`: the first position holding `d`, or -1. */
  function IndexOf(table: seq<int>, d: int): (r: int)
    ensures -1 <= r < |table|
    ensures r >= 0 ==> table[r] == d && forall j :: 0 <= j < r ==> table[j] != d
    ensures r == -1 <==> d !in table
  {
    if table == [] then -1
    else if table[0] == d then 0
    else
      var rest := IndexOf(table[1..], d);
      if rest == -1 then -1 else rest + 1
  }

  /** `initialIndex`: where the stored day count sits in the table; the
      "Last week" preset (1) when nothing is stored or the value is not a preset. */
  function InitialIndex(stored: Option<int>): (r: int)
    ensures 0 <= r < |DaysBack|
    ensures stored.Some? && stored.value in DaysBack ==> DaysBack[r] == stored.value
    ensures stored.None? || stored.value !in DaysBack ==> r == 1
  {
    if stored.Some? then
      var idx := IndexOf(DaysBack, stored.value);
      if idx >= 0 then idx else 1
    else 1
  }

  /** The table has no repeated day count, so the index found for the count at
      position `i` is `i` again. */
  lemma InitialIndexOfPreset(i: int)
    requires 0 <= i < |DaysBack|
    ensures InitialIndex(Some(DaysBack[i])) == i
  {
    var r := InitialIndex(Some(DaysBack[i]));
    assert DaysBack[r] == DaysBack[i];
  }

  /** `daysBack.getOrElse(i) { 7 }`. */
  function DaysAt(i: int): (d: int)
    ensures 0 <= i < |DaysBack| ==> d == DaysBack[i]
    ensures !(0 <= i < |DaysBack|) ==> d == 7
    ensures d in DaysBack
  {
    if 0 <= i < |DaysBack| then DaysBack[i] else 7
  }

  /** `coerceIn(lo, hi)`. */
  function CoerceIn(x: int, lo: int, hi: int): (r: int)
    requires lo <= hi
    ensures lo <= r <= hi
    ensures lo <= x <= hi ==> r == x
    ensures x < lo ==> r == lo
    ensures x > hi ==> r == hi
  {
    if x < lo then lo else if x > hi then hi else x
  }

  /** What a handler passes to `onCreatedAfterChanged`, if it calls it. */
  datatype Emission = NoEmission | Emit(daysBack: Option<int>)

  /** The component's remembered state. */
  class DateFilter {
    var sliderPosition: int
    var pendingIndex: int
    var enabled: bool

    /** The pending preset is always one of the six. */
    ghost predicate Valid()
      reads this
    {
      0 <= pendingIndex < |DaysBack|
    }

    /** The first composition: slider and pending preset at the initial index,
        enabled exactly when a value is stored. */
    constructor (createdAfterDaysBack: Option<int>)
      ensures Valid()
      ensures sliderPosition == InitialIndex(createdAfterDaysBack) && pendingIndex == InitialIndex(createdAfterDaysBack)
      ensures enabled <==> createdAfterDaysBack.Some?
    {
      var initial := InitialIndex(createdAfterDaysBack);
      sliderPosition := initial;
      pendingIndex := initial;
      enabled := createdAfterDaysBack.Some?;
    }

    /** `onCheckedChange`: off clears the filter and rewinds to "Last week"; on
        applies the pending preset at once. */
    method OnSwitchChanged(checked: bool) returns (e: Emission)
      requires Valid()
      modifies this
      ensures Valid() && enabled == checked
      ensures !checked ==> e == Emit(None) && sliderPosition == 1 && pendingIndex == 1
      ensures checked ==> e == Emit(Some(DaysBack[pendingIndex]))
      ensures checked ==> sliderPosition == old(sliderPosition) && pendingIndex == old(pendingIndex)
    {
      enabled := checked;
      if !checked {
        e := Emit(None);
        sliderPosition := 1;
        pendingIndex := 1;
      } else {
        var days := DaysAt(pendingIndex);
        e := Emit(Some(days));
      }
    }

    /** `onValueChange`: the slider follows the finger; nothing is emitted. */
    method OnSliderMoved(position: int)
      modifies this
      ensures sliderPosition == position
      ensures pendingIndex == old(pendingIndex) && enabled == old(enabled)
    {
      sliderPosition := position;
    }

    /** `onValueChangeFinished`: when enabled, the position clamped into the
        table becomes the pending preset and its day count is emitted; when
        disabled nothing happens. */
    method OnSliderFinished() returns (e: Emission)
      requires Valid()
      modifies this
      ensures Valid() && enabled == old(enabled) && sliderPosition == old(sliderPosition)
      ensures !old(enabled) ==> e == NoEmission && pendingIndex == old(pendingIndex)
      ensures old(enabled) ==> pendingIndex == CoerceIn(old(sliderPosition), 0, LastIndex)
      ensures old(enabled) ==> e == Emit(Some(DaysBack[pendingIndex]))
    {
      e := NoEmission;
      if enabled {
        pendingIndex := CoerceIn(sliderPosition, 0, LastIndex);
        var days := DaysAt(pendingIndex);
        e := Emit(Some(days));
      }
    }
  }
}
