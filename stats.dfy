/**
 * The statistics snapshot the dashboard receives from the sales API, and the
 * optional-chaining reads with `|| 0` that the page applies to it. Every
 * field may be missing or `null`; `?.` and `|| 0` treat the two alike, so both
 * are `None`. The one field the page formats without a default, a top
 * product's total_revenue, keeps them apart (JsonAmount). The page itself
 * holds no snapshot (`null`) until a load succeeds, so the snapshot is read
 * through an Option throughout.
 */
module Stats {
  import opened Wrappers

  /** One point of a chart series; the page passes points through untouched. */
  type ChartPoint(==)

  datatype PeriodFigures = PeriodFigures(revenue: Option<int>, profit: Option<int>, salesCount: Option<int>)

  datatype Totals = Totals(customers: Option<int>, products: Option<int>, suppliers: Option<int>)

  datatype ChartSeries = ChartSeries(
    weekly: Option<seq<ChartPoint>>,
    monthly: Option<seq<ChartPoint>>,
    yearly: Option<seq<ChartPoint>>)

  /** A JSON number field that may also be missing or `null`. */
  datatype JsonAmount = Missing | Null | Amount(n: int)

  /** One entry of top_products, in the order the API ranked them. */
  datatype TopProduct = TopProduct(
    name: Option<string>,
    totalSold: Option<int>,
    totalRevenue: JsonAmount,
    totalProfit: Option<int>)

  datatype Snapshot = Snapshot(
    today: Option<PeriodFigures>,
    week: Option<PeriodFigures>,
    month: Option<PeriodFigures>,
    year: Option<PeriodFigures>,
    totals: Option<Totals>,
    lowStockProducts: Option<int>,
    charts: Option<ChartSeries>,
    topProducts: Option<seq<TopProduct>>)

  /** The four reporting windows of a snapshot. */
  datatype Window = Today | Week | Month | Year

  /** A window's figures after `|| 0` has been applied to each of them. */
  datatype Figures = Figures(revenue: int, profit: int, salesCount: int)

  /** `x || 0` on a number that is either present or absent. */
  function OrZero(x: Option<int>): int {
    x.GetOr(0)
  }

  /** `stats?.<window>`: the window's figures, if the snapshot and the window are present. */
  function WindowOf(stats: Option<Snapshot>, w: Window): Option<PeriodFigures> {
    match stats
    case None => None
    case Some(s) =>
      match w
      case Today => s.today
      case Week => s.week
      case Month => s.month
      case Year => s.year
  }

  /**
   * `stats?.<window>?.revenue || 0` and its profit and sales_count siblings:
   * each figure is the one received, or 0 wherever a link of the chain is absent.
   */
  function WindowFigures(stats: Option<Snapshot>, w: Window): (f: Figures)
    ensures WindowOf(stats, w).None? ==> f == Figures(0, 0, 0)
    ensures WindowOf(stats, w).Some? ==>
      var p := WindowOf(stats, w).value;
      && (p.revenue.Some? ==> f.revenue == p.revenue.value)
      && (p.revenue.None? ==> f.revenue == 0)
      && (p.profit.Some? ==> f.profit == p.profit.value)
      && (p.profit.None? ==> f.profit == 0)
      && (p.salesCount.Some? ==> f.salesCount == p.salesCount.value)
      && (p.salesCount.None? ==> f.salesCount == 0)
  {
    match WindowOf(stats, w)
    case None => Figures(0, 0, 0)
    case Some(p) => Figures(OrZero(p.revenue), OrZero(p.profit), OrZero(p.salesCount))
  }

  /** The same figures with every absent field filled in with 0. */
  function Filled(f: Figures): PeriodFigures {
    PeriodFigures(Some(f.revenue), Some(f.profit), Some(f.salesCount))
  }

  /** Writing the zero defaults into the snapshot changes nothing the page reads. */
  lemma WindowFiguresDefaultsAreZero(s: Snapshot, w: Window)
    ensures
      var filled := Filled(WindowFigures(Some(s), w));
      var s' := match w
        case Today => s.(today := Some(filled))
        case Week => s.(week := Some(filled))
        case Month => s.(month := Some(filled))
        case Year => s.(year := Some(filled));
      WindowFigures(Some(s'), w) == WindowFigures(Some(s), w)
  {
  }

  /** `stats?.totals?.customers || 0` */
  function Customers(stats: Option<Snapshot>): (n: int)
    ensures stats.Some? && stats.value.totals.Some? && stats.value.totals.value.customers.Some? ==>
      n == stats.value.totals.value.customers.value
    ensures stats.None? || stats.value.totals.None? || stats.value.totals.value.customers.None? ==> n == 0
  {
    if stats.Some? && stats.value.totals.Some? then OrZero(stats.value.totals.value.customers) else 0
  }

  /** `stats?.totals?.products || 0` */
  function Products(stats: Option<Snapshot>): (n: int)
    ensures stats.Some? && stats.value.totals.Some? && stats.value.totals.value.products.Some? ==>
      n == stats.value.totals.value.products.value
    ensures stats.None? || stats.value.totals.None? || stats.value.totals.value.products.None? ==> n == 0
  {
    if stats.Some? && stats.value.totals.Some? then OrZero(stats.value.totals.value.products) else 0
  }

  /** `stats?.totals?.suppliers || 0` */
  function Suppliers(stats: Option<Snapshot>): (n: int)
    ensures stats.Some? && stats.value.totals.Some? && stats.value.totals.value.suppliers.Some? ==>
      n == stats.value.totals.value.suppliers.value
    ensures stats.None? || stats.value.totals.None? || stats.value.totals.value.suppliers.None? ==> n == 0
  {
    if stats.Some? && stats.value.totals.Some? then OrZero(stats.value.totals.value.suppliers) else 0
  }

  /** `stats?.low_stock_products || 0` */
  function LowStock(stats: Option<Snapshot>): (n: int)
    ensures stats.Some? && stats.value.lowStockProducts.Some? ==> n == stats.value.lowStockProducts.value
    ensures stats.None? || stats.value.lowStockProducts.None? ==> n == 0
  {
    if stats.Some? then OrZero(stats.value.lowStockProducts) else 0
  }
}
