/**
 * The dashboard header: the label shown for the selected date range, the KPI
 * selector's shown value, and the date picker's open/custom state driven by
 * its click and change handlers.
 */
module DashboardHeader {
  import opened Wrappers
  import opened Text

  /** One preset of the date-range menu: its `label` (here `caption`) and `value`. */
  datatype DateRange = DateRange(caption: string, value: string)

  /** `dateRanges`, in menu order. */
  const DateRanges: seq<DateRange> := [
    DateRange("Hoje", "today"),
    DateRange("Ontem", "yesterday"),
    DateRange("Últimos 7 dias", "7d"),
    DateRange("Últimos 14 dias", "14d"),
    DateRange("Últimos 30 dias", "30d"),
    DateRange("Mês Atual", "this_month"),
    DateRange("Mês Passado", "last_month"),
    DateRange("Máximo", "maximum"),
    DateRange("Personalizado", "custom")
  ]

  const CustomValue: string := "custom"
  const CustomLabel: string := "Personalizado"
  const PlaceholderLabel: string := "Selecione..."
  const DefaultKpi: string := "ROAS"

  /** Whether `v` is the value of one of the presets. */
  predicate IsPresetValue(v: string) {
    exists i :: 0 <= i < |DateRanges| && DateRanges[i].value == v
  }

  /** The preset values are pairwise distinct, so looking a value up finds at most one preset. */
  lemma PresetValuesDistinct()
    ensures forall i, j :: 0 <= i < j < |DateRanges| ==> DateRanges[i].value != DateRanges[j].value
  {
  }

  /** No preset value contains a comma. */
  lemma NoPresetHasComma()
    ensures forall i :: 0 <= i < |DateRanges| ==> !Contains(DateRanges[i].value, ",")
  {
    forall i | 0 <= i < |DateRanges|
      ensures !Contains(DateRanges[i].value, ",")
    {
      ContainsChar(DateRanges[i].value, ',');
    }
  }

  /** `dateRanges.find(r => r.value === v)`, as the index of the first preset with value `v`. */
  function FindRange(ranges: seq<DateRange>, v: string): (r: Option<nat>)
    ensures r.None? <==> forall i :: 0 <= i < |ranges| ==> ranges[i].value != v
    ensures r.Some? ==> r.value < |ranges| && ranges[r.value].value == v
    ensures r.Some? ==> forall j :: 0 <= j < r.value ==> ranges[j].value != v
  {
    if ranges == [] then None
    else if ranges[0].value == v then Some(0)
    else match FindRange(ranges[1..], v)
      case None => None
      case Some(k) => Some(k + 1)
  }

  /** The label for a range value: the preset's label, else `Personalizado` for a custom `start,end` range, else a prompt. */
  function RangeCaption(v: string): (shown: string)
    ensures forall i :: 0 <= i < |DateRanges| && DateRanges[i].value == v ==> shown == DateRanges[i].caption
    ensures !IsPresetValue(v) && Contains(v, ",") ==> shown == CustomLabel
    ensures !IsPresetValue(v) && !Contains(v, ",") ==> shown == PlaceholderLabel
  {
    PresetValuesDistinct();
    match FindRange(DateRanges, v)
    case Some(i) => DateRanges[i].caption
    case None => if Contains(v, ",") then CustomLabel else PlaceholderLabel
  }

  /** `dateRange = '30d'`: the range the header shows when none is passed in. */
  const DefaultRange: string := "30d"

  /** The text on the date button; `None` is a missing `dateRange` prop, which shows the 30-day preset. */
  function DateRangeLabel(dateRange: Option<string>): (shown: string)
    ensures dateRange.None? ==> shown == "Últimos 30 dias"
    ensures dateRange.Some? ==> shown == RangeCaption(dateRange.value)
  {
    assert DateRanges[4].value == DefaultRange;
    RangeCaption(dateRange.GetOr(DefaultRange))
  }

  /** A range the calendar emits, `start,end`, is always labelled `Personalizado`. */
  lemma CustomRangeLabel(start: string, end: string)
    ensures RangeCaption(start + "," + end) == CustomLabel
    ensures DateRangeLabel(Some(start + "," + end)) == CustomLabel
  {
    var v := start + "," + end;
    assert OccursAt(v, ",", |start|);
    NoPresetHasComma();
    assert !IsPresetValue(v) by {
      forall i | 0 <= i < |DateRanges|
        ensures DateRanges[i].value != v
      {
        assert !Contains(DateRanges[i].value, ",");
      }
    }
  }

  /** `kpi?.toUpperCase() || 'ROAS'`: the KPI selector's value. */
  function KpiDisplay(kpi: Option<string>): (shown: string)
    ensures shown != "" && IsUpperCase(shown)
    ensures kpi.None? || kpi.value == "" ==> shown == DefaultKpi
    ensures kpi.Some? && kpi.value != "" ==> SameIgnoringCase(shown, kpi.value)
  {
    if kpi.Some? && kpi.value != "" then Upper(kpi.value) else DefaultKpi
  }

  /** What the picker shows: nothing, the preset list, or the calendar. */
  datatype PickerView = Closed | PresetList | Calendar

  /** The date picker's React state and its event handlers. */
  class DatePicker {
    var isDatePickerOpen: bool
    var showCustomPicker: bool
    var startDate: Option<string>
    var endDate: Option<string>

    /** `useState(false)`, `useState(false)`, `useState(null)`, `useState(null)`. */
    constructor ()
      ensures !isDatePickerOpen && !showCustomPicker && startDate.None? && endDate.None?
      ensures View() == Closed
    {
      isDatePickerOpen := false;
      showCustomPicker := false;
      startDate := None;
      endDate := None;
    }

    /** The preset list renders iff open and not custom; the calendar iff open and custom. */
    function View(): (v: PickerView)
      reads this
      ensures v == PresetList <==> isDatePickerOpen && !showCustomPicker
      ensures v == Calendar <==> isDatePickerOpen && showCustomPicker
      ensures v == Closed <==> !isDatePickerOpen
    {
      if !isDatePickerOpen then Closed
      else if showCustomPicker then Calendar
      else PresetList
    }

    /** The date button: flips the open flag and always leaves custom mode. */
    method ToggleClick()
      modifies this
      ensures isDatePickerOpen == !old(isDatePickerOpen) && !showCustomPicker
      ensures startDate == old(startDate) && endDate == old(endDate)
      ensures View() == if old(isDatePickerOpen) then Closed else PresetList
    {
      isDatePickerOpen := !isDatePickerOpen;
      showCustomPicker := false;
    }

    /** The transparent overlay behind an open menu or calendar: closes, keeping the custom flag. */
    method OverlayClick()
      requires isDatePickerOpen
      modifies this
      ensures !isDatePickerOpen && showCustomPicker == old(showCustomPicker)
      ensures startDate == old(startDate) && endDate == old(endDate)
      ensures View() == Closed
    {
      isDatePickerOpen := false;
    }

    /**
     * A preset button of the open menu: `custom` switches to the calendar and
     * emits nothing; any other preset is emitted and the menu closes.
     */
    method PresetClick(value: string) returns (emitted: Option<string>)
      requires View() == PresetList && IsPresetValue(value)
      modifies this
      ensures value == CustomValue ==> emitted.None? && View() == Calendar
      ensures value != CustomValue ==> emitted == Some(value) && View() == Closed && !showCustomPicker
      ensures startDate == old(startDate) && endDate == old(endDate)
    {
      if value == CustomValue {
        showCustomPicker := true;
        emitted := None;
      } else {
        emitted := Some(value);
        isDatePickerOpen := false;
      }
    }

    /**
     * The calendar's change handler, with each date already formatted as a day:
     * once both ends are chosen it emits `start,end` and closes everything;
     * with only a start chosen it emits nothing and stays open.
     */
    method DatesChange(start: Option<string>, end: Option<string>) returns (emitted: Option<string>)
      requires View() == Calendar
      modifies this
      ensures startDate == start && endDate == end
      ensures start.Some? && end.Some? ==>
        emitted == Some(start.value + "," + end.value) && !isDatePickerOpen && !showCustomPicker
      ensures !(start.Some? && end.Some?) ==> emitted.None? && View() == Calendar
    {
      startDate := start;
      endDate := end;
      emitted := None;
      if start.Some? && end.Some? {
        emitted := Some(start.value + "," + end.value);
        isDatePickerOpen := false;
        showCustomPicker := false;
      }
    }
  }
}
