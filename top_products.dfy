/**
 * The "Eng ko'p sotilgan mahsulotlar" list: top_products as the API ranked
 * them, each row numbered by its position. Profit is defaulted with `|| 0`
 * before formatting; revenue is formatted as received, and the formatter
 * converts it to a number: a missing revenue (`undefined`) becomes NaN, a
 * `null` one becomes 0.
 */
module TopProducts {
  import opened Wrappers
  import opened Format
  import opened Stats

  datatype ProductRow = ProductRow(rank: nat, name: Option<string>, sold: Option<int>, revenue: string, profit: string)

  /** Either the rows, or the "Hozircha sotuvlar ma'lumoti yo'q" message. */
  datatype TopProductsView = EmptyState | Rows(rows: seq<ProductRow>)

  /** The number the formatter converts a field passed without a default to (JavaScript's ToNumber). */
  function AsJsNumber(x: JsonAmount): (r: JsNumber)
    ensures x.Missing? <==> r == NaN
    ensures x.Null? ==> r == Num(0)
    ensures x.Amount? ==> r == Num(x.n)
  {
    match x
    case Missing => NaN
    case Null => Num(0)
    case Amount(n) => Num(n)
  }

  /**
   * The row for the product at position `index`: rank index + 1, name and
   * units sold as received, revenue formatted without a default, profit
   * formatted after `|| 0`.
   */
  function ProductRowAt(g: Grouping, p: TopProduct, index: nat): (row: ProductRow)
    ensures row.rank == index + 1 && row.name == p.name && row.sold == p.totalSold
    ensures row.revenue == FormatCurrency(g, AsJsNumber(p.totalRevenue))
    ensures p.totalProfit.Some? ==> row.profit == FormatCurrency(g, Num(p.totalProfit.value))
    ensures p.totalProfit.None? ==> row.profit == FormatCurrency(g, Num(0))
  {
    ProductRow(index + 1, p.name, p.totalSold,
               FormatCurrency(g, AsJsNumber(p.totalRevenue)),
               FormatCurrency(g, Num(OrZero(p.totalProfit))))
  }

  /** `top_products.map((product, index) => …)`: one row per product, in the same order. */
  function RankProducts(g: Grouping, products: seq<TopProduct>): (rows: seq<ProductRow>)
    ensures |rows| == |products|
    ensures forall i :: 0 <= i < |rows| ==> rows[i] == ProductRowAt(g, products[i], i)
  {
    seq(|products|, i requires 0 <= i < |products| => ProductRowAt(g, products[i], i))
  }

  /** The list section: rows when the snapshot holds a non-empty top_products, the empty state otherwise. */
  function TopProductsSection(g: Grouping, stats: Option<Snapshot>): (v: TopProductsView)
    ensures v.Rows? <==> stats.Some? && stats.value.topProducts.Some? && |stats.value.topProducts.value| > 0
    ensures v.Rows? ==> v.rows == RankProducts(g, stats.value.topProducts.value)
  {
    if stats.Some? && stats.value.topProducts.Some? && |stats.value.topProducts.value| > 0
    then Rows(RankProducts(g, stats.value.topProducts.value))
    else EmptyState
  }

  /** The ranks of n products are 1, 2, …, n: nothing is re-sorted or skipped. */
  lemma RanksArePositions(g: Grouping, products: seq<TopProduct>)
    ensures forall i :: 0 <= i < |RankProducts(g, products)| ==> RankProducts(g, products)[i].rank == i + 1
    ensures forall i, j :: 0 <= i < j < |RankProducts(g, products)| ==>
      RankProducts(g, products)[i].rank < RankProducts(g, products)[j].rank
  {
  }

  /**
   * Ranking a list with more products appended leaves the rows of the earlier
   * products as they were and numbers the appended ones after them.
   */
  lemma RankAppend(g: Grouping, a: seq<TopProduct>, b: seq<TopProduct>)
    ensures RankProducts(g, a + b)[..|a|] == RankProducts(g, a)
    ensures forall j :: 0 <= j < |b| ==>
      RankProducts(g, a + b)[|a| + j] == RankProducts(g, b)[j].(rank := |a| + j + 1)
  {
  }

  /** Names and units sold are carried over unchanged, in the API's order. */
  lemma RowsKeepProducts(g: Grouping, products: seq<TopProduct>, i: nat)
    requires i < |products|
    ensures RankProducts(g, products)[i].name == products[i].name
    ensures RankProducts(g, products)[i].sold == products[i].totalSold
  {
  }

  /** An absent profit shows as the zero amount, whatever the revenue and the locale. */
  lemma ProfitDefaulted(g: Grouping, p: TopProduct, i: nat)
    requires p.totalProfit.None?
    ensures ProductRowAt(g, p, i).profit == FormatCurrency(g, Num(0))
    ensures ProductRowAt(g, p, i).profit == ProductRowAt(g, p.(totalProfit := Some(0)), i).profit
  {
  }

  /**
   * A missing revenue is not defaulted: it is formatted as NaN, which shows
   * like a zero revenue only if the locale prints NaN and 0 alike.
   */
  lemma RevenueNotDefaulted(g: Grouping, p: TopProduct, i: nat)
    requires p.totalRevenue.Missing?
    ensures ProductRowAt(g, p, i).revenue == g(NaN) + CurrencySuffix
    ensures ProductRowAt(g, p, i).revenue == ProductRowAt(g, p.(totalRevenue := Amount(0)), i).revenue <==> g(NaN) == g(Num(0))
  {
  }

  /** A `null` revenue is converted to 0 by the formatter and shows exactly as a zero revenue, in every locale. */
  lemma NullRevenueShowsZero(g: Grouping, p: TopProduct, i: nat)
    requires p.totalRevenue.Null?
    ensures ProductRowAt(g, p, i).revenue == FormatCurrency(g, Num(0))
    ensures ProductRowAt(g, p, i).revenue == ProductRowAt(g, p.(totalRevenue := Amount(0)), i).revenue
  {
  }

  /** An absent top_products and an empty one both select the empty-state message. */
  lemma EmptyStateCases(g: Grouping, s: Snapshot)
    requires s.topProducts == None || s.topProducts == Some([])
    ensures TopProductsSection(g, Some(s)) == EmptyState
    ensures TopProductsSection(g, None) == EmptyState
  {
  }
}
