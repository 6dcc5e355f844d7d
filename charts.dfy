/** getCurrentPeriodData and the two chart panels fed from it. */
module Charts {
  import opened Wrappers
  import opened Stats

  /** `series || []`: an absent series is empty. */
  function OrEmpty(series: Option<seq<ChartPoint>>): seq<ChartPoint> {
    series.GetOr([])
  }

  /**
   * getCurrentPeriodData: the weekly series for "weekly", the yearly series
   * for "yearly", and the monthly series for any other value (the switch's
   * default branch); empty when the snapshot, its charts or that series is
   * absent.
   */
  function CurrentPeriodData(stats: Option<Snapshot>, timePeriod: string): (r: seq<ChartPoint>)
    ensures stats.None? || stats.value.charts.None? ==> r == []
    ensures stats.Some? && stats.value.charts.Some? ==>
      var c := stats.value.charts.value;
      r == OrEmpty(if timePeriod == "weekly" then c.weekly
                   else if timePeriod == "yearly" then c.yearly
                   else c.monthly)
  {
    if stats.None? || stats.value.charts.None? then []
    else
      var c := stats.value.charts.value;
      match timePeriod
      case "weekly" => OrEmpty(c.weekly)
      case "yearly" => OrEmpty(c.yearly)
      case _ => OrEmpty(c.monthly)
  }

  /** A series the page shows is always one the snapshot sent, or empty. */
  lemma CurrentPeriodDataFromSnapshot(stats: Option<Snapshot>, timePeriod: string)
    ensures var r := CurrentPeriodData(stats, timePeriod);
      r == [] ||
      (stats.Some? && stats.value.charts.Some? &&
        var c := stats.value.charts.value;
        Some(r) in {c.weekly, c.monthly, c.yearly})
  {
  }

  /** Any value other than "weekly" and "yearly" shows the same series as "monthly". */
  lemma DefaultIsMonthly(stats: Option<Snapshot>, timePeriod: string)
    requires timePeriod != "weekly" && timePeriod != "yearly"
    ensures CurrentPeriodData(stats, timePeriod) == CurrentPeriodData(stats, "monthly")
  {
  }

  datatype ChartKind = Revenue | Profit

  datatype ChartPanel = ChartPanel(title: string, data: seq<ChartPoint>, kind: ChartKind)

  /** A template literal prints an absent label as "undefined". */
  function LabelText(caption: Option<string>): (s: string)
    ensures caption.Some? ==> s == caption.value
    ensures caption.None? ==> s == "undefined"
  {
    match caption
    case Some(l) => l
    case None => "undefined"
  }

  /** The revenue chart and the profit chart, both fed the selected period's series. */
  function ChartPanels(stats: Option<Snapshot>, timePeriod: string, caption: Option<string>): (panels: seq<ChartPanel>)
    ensures |panels| == 2 && panels[0].kind == Revenue && panels[1].kind == Profit
    ensures panels[0].data == panels[1].data == CurrentPeriodData(stats, timePeriod)
    ensures panels[0].title == LabelText(caption) + " sotuvlar" && panels[1].title == LabelText(caption) + " foyda"
  {
    var data := CurrentPeriodData(stats, timePeriod);
    [ ChartPanel(LabelText(caption) + " sotuvlar", data, Revenue),
      ChartPanel(LabelText(caption) + " foyda", data, Profit) ]
  }
}
