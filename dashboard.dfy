/**
 * The Dashboard component: its four state cells (stats, loading, timePeriod,
 * showPeriodDropdown) as fields of a page object, the handlers that update
 * them, and what the component renders from them.
 */
module Dashboard {
  import opened Wrappers
  import opened Format
  import opened Stats
  import opened Kpis
  import opened Charts
  import Periods
  import opened TopProducts
  import Load

  /** Everything the page shows once loading is over. */
  datatype Page = Page(
    main: seq<MainCard>,
    business: seq<BusinessCard>,
    periods: seq<PeriodBlock>,
    pickerLabel: Option<string>,
    dropdown: seq<Periods.DropdownItem>,
    charts: seq<ChartPanel>,
    topProducts: TopProductsView)

  /** `if (loading) return <LoadingSpinner />`, otherwise the page. */
  datatype Screen = Spinner | Loaded(page: Page)

  /** The component's render for a given state of its cells. */
  function Render(g: Grouping, load: Load.LoadState, picker: Periods.Picker): (screen: Screen)
    ensures screen.Spinner? <==> load.loading
    ensures screen.Loaded? ==>
      var caption := Periods.PeriodLabel(picker.timePeriod);
      screen.page == Page(
        MainStats(g, load.stats), BusinessStats(load.stats), PeriodBlocks(g, load.stats),
        caption, Periods.DropdownItems(picker),
        ChartPanels(load.stats, picker.timePeriod, caption), TopProductsSection(g, load.stats))
  {
    if load.loading then Spinner
    else
      var caption := Periods.PeriodLabel(picker.timePeriod);
      Loaded(Page(
        MainStats(g, load.stats), BusinessStats(load.stats), PeriodBlocks(g, load.stats),
        caption, Periods.DropdownItems(picker),
        ChartPanels(load.stats, picker.timePeriod, caption), TopProductsSection(g, load.stats)))
  }

  /** The page for no snapshot under the initial picker. */
  function NoSnapshotPage(g: Grouping): Page {
    var caption := Periods.PeriodLabel("monthly");
    Page(MainStats(g, None), BusinessStats(None), PeriodBlocks(g, None),
         caption, Periods.DropdownItems(Periods.InitialPicker),
         ChartPanels(None, "monthly", caption), TopProductsSection(g, None))
  }

  /**
   * Without a snapshot, under the initial picker, the page shows zeroed
   * figures, "0%" margins, empty charts titled by the monthly label and the
   * empty product list.
   */
  lemma NoSnapshotPageIsZeroed(g: Grouping)
    ensures
      var page := NoSnapshotPage(g);
      && page.main[0].value == Text(FormatCurrency(g, Num(0)))
      && page.main[1].value == Text(FormatCurrency(g, Num(0)))
      && page.main[2].value == Count(0)
      && page.main[3].value == Text("0%")
      && (forall c <- page.business :: c.value == 0)
      && (forall b <- page.periods ::
            && b.revenue == FormatCurrency(g, Num(0)) && b.profit == FormatCurrency(g, Num(0))
            && b.salesCount == 0 && b.margin == "0%")
      && page.pickerLabel == Some("Oylik")
      && page.charts[0].title == "Oylik sotuvlar" && page.charts[1].title == "Oylik foyda"
      && page.charts[0].data == [] && page.charts[1].data == []
      && page.topProducts == EmptyState
  {
    NoSnapshotShowsZeros(g);
    Periods.PeriodLabelTotal("monthly");
  }

  /**
   * When the first load fails the page still renders: it is the zeroed
   * no-snapshot page, and one error notification has been raised.
   */
  lemma FailedFirstLoadShowsZeroPage(g: Grouping)
    ensures
      var load := Load.RunLoad(Load.InitialLoad, Load.FetchFailed);
      && load.toasts == [Load.LoadErrorMessage]
      && Render(g, load, Periods.InitialPicker) == Loaded(NoSnapshotPage(g))
  {
  }

  /** A successful load makes the page show the received snapshot under the current picker. */
  lemma SuccessfulLoadShowsData(g: Grouping, before: Load.LoadState, picker: Periods.Picker, data: Option<Snapshot>)
    ensures
      var screen := Render(g, Load.RunLoad(before, Load.Fetched(data)), picker);
      screen.Loaded? && screen.page == Render(g, Load.LoadState(data, false, []), picker).page
  {
  }

  /** The page object: the component's state cells and the notifications it has raised. */
  class DashboardPage {
    var stats: Option<Snapshot>
    var loading: bool
    var timePeriod: string
    var showPeriodDropdown: bool
    var toasts: seq<string>

    /** The cells loadDashboardData works on. */
    function LoadView(): Load.LoadState
      reads this
    {
      Load.LoadState(stats, loading, toasts)
    }

    /** The cells the period picker works on. */
    function PickerView(): Periods.Picker
      reads this
    {
      Periods.Picker(timePeriod, showPeriodDropdown)
    }

    ghost predicate Valid()
      reads this
    {
      Periods.PickerValid(PickerView())
    }

    /** Mounting: the initial values of the four useState cells. */
    constructor ()
      ensures Valid()
      ensures LoadView() == Load.InitialLoad
      ensures PickerView() == Periods.InitialPicker
    {
      stats := None;
      loading := true;
      timePeriod := "monthly";
      showPeriodDropdown := false;
      toasts := [];
    }

    /** The picker button's onClick. */
    method TogglePicker()
      requires Valid()
      modifies this`showPeriodDropdown
      ensures Valid()
      ensures PickerView() == Periods.TogglePicker(old(PickerView()))
      ensures LoadView() == old(LoadView())
    {
      showPeriodDropdown := !showPeriodDropdown;
    }

    /** A dropdown option's onClick: set the period, then close the dropdown. */
    method SelectPeriod(option: Periods.PeriodOption)
      requires Valid() && option in Periods.TimePeriods
      modifies this`timePeriod, this`showPeriodDropdown
      ensures Valid()
      ensures PickerView() == Periods.SelectPeriod(old(PickerView()), option)
      ensures LoadView() == old(LoadView())
    {
      timePeriod := option.value;
      showPeriodDropdown := false;
    }

    /** The start of loadDashboardData: setLoading(true), then the request goes out. */
    method StartLoad()
      requires Valid()
      modifies this`loading
      ensures Valid()
      ensures LoadView() == Load.BeginLoad(old(LoadView()))
      ensures PickerView() == old(PickerView())
    {
      loading := true;
    }

    /** The end of loadDashboardData, once the request has settled. */
    method ApplyLoadResult(outcome: Load.FetchOutcome)
      requires Valid()
      modifies this`stats, this`loading, this`toasts
      ensures Valid()
      ensures LoadView() == Load.SettleLoad(old(LoadView()), outcome)
      ensures PickerView() == old(PickerView())
    {
      match outcome {
        case Fetched(data) =>
          stats := data;
        case FetchFailed =>
          toasts := toasts + [Load.LoadErrorMessage];
      }
      loading := false;
    }

    /** loadDashboardData, with the outcome of its request given. */
    method LoadDashboardData(outcome: Load.FetchOutcome)
      requires Valid()
      modifies this`stats, this`loading, this`toasts
      ensures Valid()
      ensures LoadView() == Load.RunLoad(old(LoadView()), outcome)
      ensures PickerView() == old(PickerView())
    {
      StartLoad();
      ApplyLoadResult(outcome);
    }

    /** What the component renders now; once loaded, the picker button always has a label. */
    function Rendered(g: Grouping): (screen: Screen)
      reads this
      ensures screen.Spinner? <==> loading
      ensures Valid() && !loading ==> screen.page.pickerLabel.Some?
    {
      Periods.PeriodLabelTotal(timePeriod);
      Render(g, LoadView(), PickerView())
    }
  }

  /** Mount, load, then the picker sequence "yearly", toggle, "weekly": selection always wins. */
  method MountAndBrowse(g: Grouping, outcome: Load.FetchOutcome) returns (page: DashboardPage)
    ensures fresh(page) && page.Valid()
    ensures page.PickerView() == Periods.Picker("weekly", false)
    ensures page.LoadView() == Load.RunLoad(Load.InitialLoad, outcome)
    ensures page.Rendered(g).Loaded? && page.Rendered(g).page.pickerLabel == Some("Haftalik")
  {
    page := new DashboardPage();
    page.LoadDashboardData(outcome);
    page.SelectPeriod(Periods.TimePeriods[2]);
    page.TogglePicker();
    page.SelectPeriod(Periods.TimePeriods[0]);
    Periods.PeriodLabelTotal("weekly");
  }
}
