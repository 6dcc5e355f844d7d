/**
 * The reporting-period picker: the timePeriods table, the label lookup the
 * picker button shows, and the state machine over (timePeriod,
 * showPeriodDropdown) driven by the button and by the dropdown's options.
 */
module Periods {
  import opened Wrappers

  datatype PeriodOption = PeriodOption(value: string, caption: string)

  /** timePeriods, in the order the dropdown lists them. */
  const TimePeriods: seq<PeriodOption> := [
    PeriodOption("weekly", "Haftalik"),
    PeriodOption("monthly", "Oylik"),
    PeriodOption("yearly", "Yillik")
  ]

  /** A period value the dropdown can produce. */
  predicate IsPeriodValue(v: string) {
    v == "weekly" || v == "monthly" || v == "yearly"
  }

  /** Array.prototype.find over the options: the first one with this value. */
  function FindOption(options: seq<PeriodOption>, value: string): (r: Option<PeriodOption>)
    ensures r.None? <==> forall i :: 0 <= i < |options| ==> options[i].value != value
    ensures r.Some? ==> exists i :: 0 <= i < |options| && options[i] == r.value && r.value.value == value &&
                                    forall k :: 0 <= k < i ==> options[k].value != value
  {
    if options == [] then None
    else if options[0].value == value then Some(options[0])
    else
      var r := FindOption(options[1..], value);
      assert forall i :: 1 <= i < |options| ==> options[i] == options[1..][i - 1];
      r
  }

  /** `timePeriods.find((p) => p.value === timePeriod)?.label` */
  function PeriodLabel(timePeriod: string): (r: Option<string>)
    ensures r.Some? <==> exists i :: 0 <= i < |TimePeriods| && TimePeriods[i].value == timePeriod
    ensures r.Some? ==> exists i :: 0 <= i < |TimePeriods| && TimePeriods[i].value == timePeriod &&
                                    TimePeriods[i].caption == r.value
  {
    match FindOption(TimePeriods, timePeriod)
    case None => None
    case Some(o) => Some(o.caption)
  }

  /** The label lookup is total over the three periods and gives each its own label. */
  lemma PeriodLabelTotal(v: string)
    ensures PeriodLabel(v).Some? <==> IsPeriodValue(v)
    ensures v == "weekly" ==> PeriodLabel(v) == Some("Haftalik")
    ensures v == "monthly" ==> PeriodLabel(v) == Some("Oylik")
    ensures v == "yearly" ==> PeriodLabel(v) == Some("Yillik")
  {
  }

  /** Every option of the table carries one of the three period values. */
  lemma TimePeriodsValues(o: PeriodOption)
    requires o in TimePeriods
    ensures IsPeriodValue(o.value)
  {
  }

  /** The picker's state: the selected period and whether the dropdown is open. */
  datatype Picker = Picker(timePeriod: string, open: bool)

  /** useState("monthly") and useState(false). */
  const InitialPicker: Picker := Picker("monthly", false)

  /** The state every reachable picker is in: a period the table knows. */
  predicate PickerValid(p: Picker) {
    IsPeriodValue(p.timePeriod)
  }

  /** The button: setShowPeriodDropdown(!showPeriodDropdown). */
  function TogglePicker(p: Picker): (q: Picker)
    ensures q.timePeriod == p.timePeriod && q.open == !p.open
  {
    p.(open := !p.open)
  }

  /** An option of the dropdown: setTimePeriod(period.value), then setShowPeriodDropdown(false). */
  function SelectPeriod(p: Picker, o: PeriodOption): (q: Picker)
    ensures q.timePeriod == o.value && !q.open
  {
    Picker(o.value, false)
  }

  /** Toggling changes the open flag and nothing else; toggling twice is no change. */
  lemma ToggleFlipsOnlyOpen(p: Picker)
    ensures TogglePicker(p).timePeriod == p.timePeriod
    ensures TogglePicker(p).open != p.open
    ensures TogglePicker(TogglePicker(p)) == p
  {
  }

  /** Selecting closes the picker from either state; selecting twice is selecting once. */
  lemma SelectClosesAndIsIdempotent(p: Picker, o: PeriodOption, o': PeriodOption)
    ensures SelectPeriod(p, o) == Picker(o.value, false)
    ensures SelectPeriod(TogglePicker(p), o) == SelectPeriod(p, o)
    ensures SelectPeriod(SelectPeriod(p, o), o) == SelectPeriod(p, o)
    ensures SelectPeriod(SelectPeriod(p, o'), o) == SelectPeriod(p, o)
  {
  }

  /** Every transition keeps the picker on a known period, so its label always resolves. */
  lemma PickerValidPreserved(p: Picker, o: PeriodOption)
    requires PickerValid(p) && o in TimePeriods
    ensures PickerValid(TogglePicker(p))
    ensures PickerValid(SelectPeriod(p, o))
    ensures PeriodLabel(TogglePicker(p).timePeriod).Some?
    ensures PeriodLabel(SelectPeriod(p, o).timePeriod).Some?
  {
  }

  /** One entry of the open dropdown: its label and whether it is the active one. */
  datatype DropdownItem = DropdownItem(caption: string, active: bool)

  /** The dropdown's entries: none while closed, every option in table order while open. */
  function DropdownItems(p: Picker): (items: seq<DropdownItem>)
    ensures !p.open ==> items == []
    ensures p.open ==> |items| == |TimePeriods|
    ensures p.open ==> forall i :: 0 <= i < |items| ==>
      items[i].caption == TimePeriods[i].caption && (items[i].active <==> TimePeriods[i].value == p.timePeriod)
  {
    if !p.open then []
    else
      seq(|TimePeriods|, i requires 0 <= i < |TimePeriods| =>
        DropdownItem(TimePeriods[i].caption, TimePeriods[i].value == p.timePeriod))
  }

  /** In a valid open picker exactly one entry is marked active. */
  lemma ExactlyOneActive(p: Picker)
    requires PickerValid(p) && p.open
    ensures
      var items := DropdownItems(p);
      exists i :: 0 <= i < |items| && items[i].active &&
        forall j :: 0 <= j < |items| && j != i ==> !items[j].active
  {
    var items := DropdownItems(p);
    assert |items| == 3;
    assert items[0].active <==> p.timePeriod == "weekly";
    assert items[1].active <==> p.timePeriod == "monthly";
    assert items[2].active <==> p.timePeriod == "yearly";
    var i := if p.timePeriod == "weekly" then 0 else if p.timePeriod == "monthly" then 1 else 2;
    assert forall j :: 0 <= j < |items| && j != i ==> !items[j].active;
  }
}
