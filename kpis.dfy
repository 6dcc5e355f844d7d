/**
 * The cards and period blocks the dashboard shows for a snapshot: mainStats,
 * businessStats and the week/month/year "period-card" blocks. Icons, colours
 * and animation delays are presentation and are not modelled.
 */
module Kpis {
  import opened Wrappers
  import opened Format
  import opened Margin
  import opened Stats

  datatype ChangeType = Positive | Negative

  /** What a card shows as its value: a formatted string or a bare number. */
  datatype CardValue = Text(text: string) | Count(n: int)

  datatype MainCard = MainCard(title: string, value: CardValue, change: string, changeType: ChangeType)

  datatype BusinessCard = BusinessCard(title: string, value: int)

  datatype PeriodBlock = PeriodBlock(title: string, revenue: string, salesCount: int, profit: string, margin: string)

  /** The titles of the four main cards, in display order. */
  const MainTitles: seq<string> := ["Bugungi daromad", "Bugungi foyda", "Bugungi sotuvlar", "Foyda foizi"]
  /** Their change badges: fixed text and direction, not computed from data. */
  const MainChanges: seq<string> := ["+12.5%", "+8.2%", "+5.1%", "-2.1%"]
  const MainChangeTypes: seq<ChangeType> := [Positive, Positive, Positive, Negative]

  const BusinessTitles: seq<string> :=
    ["Jami mijozlar", "Jami mahsulotlar", "Kam qolgan mahsulotlar", "Yetkazib beruvchilar"]

  const PeriodTitles: seq<string> := ["Haftalik statistika", "Oylik statistika", "Yillik statistika"]

  /**
   * mainStats: today's revenue and profit formatted as currency, today's sales
   * count as a number and today's margin as a percentage, in that order, each
   * with its fixed title and change badge.
   */
  function MainStats(g: Grouping, stats: Option<Snapshot>): (cards: seq<MainCard>)
    ensures |cards| == 4
    ensures forall i :: 0 <= i < 4 ==>
      cards[i].title == MainTitles[i] && cards[i].change == MainChanges[i] && cards[i].changeType == MainChangeTypes[i]
    ensures
      var f := WindowFigures(stats, Today);
      && cards[0].value == Text(FormatCurrency(g, Num(f.revenue)))
      && cards[1].value == Text(FormatCurrency(g, Num(f.profit)))
      && cards[2].value == Count(f.salesCount)
      && cards[3].value == Text(PercentText(ProfitMargin(f.revenue, f.profit)))
  {
    var f := WindowFigures(stats, Today);
    var values := [ Text(FormatCurrency(g, Num(f.revenue))), Text(FormatCurrency(g, Num(f.profit))),
                    Count(f.salesCount), Text(PercentText(ProfitMargin(f.revenue, f.profit))) ];
    seq(4, i requires 0 <= i < 4 => MainCard(MainTitles[i], values[i], MainChanges[i], MainChangeTypes[i]))
  }

  /** businessStats: customers, products, low-stock count and suppliers, each defaulted to 0. */
  function BusinessStats(stats: Option<Snapshot>): (cards: seq<BusinessCard>)
    ensures |cards| == 4
    ensures forall i :: 0 <= i < 4 ==> cards[i].title == BusinessTitles[i]
    ensures cards[0].value == Customers(stats) && cards[1].value == Products(stats)
    ensures cards[2].value == LowStock(stats) && cards[3].value == Suppliers(stats)
  {
    var values := [Customers(stats), Products(stats), LowStock(stats), Suppliers(stats)];
    seq(4, i requires 0 <= i < 4 => BusinessCard(BusinessTitles[i], values[i]))
  }

  /** One period-card: formatted revenue, sales count, formatted profit and the margin percentage. */
  function PeriodSummary(g: Grouping, title: string, f: Figures): (b: PeriodBlock)
    ensures b.title == title && b.salesCount == f.salesCount
    ensures b.revenue == FormatCurrency(g, Num(f.revenue)) && b.profit == FormatCurrency(g, Num(f.profit))
    ensures b.margin == PercentText(ProfitMargin(f.revenue, f.profit))
  {
    PeriodBlock(title, FormatCurrency(g, Num(f.revenue)), f.salesCount,
                FormatCurrency(g, Num(f.profit)), PercentText(ProfitMargin(f.revenue, f.profit)))
  }

  /** The week, month and year blocks: one derivation applied to three windows. */
  function PeriodBlocks(g: Grouping, stats: Option<Snapshot>): (blocks: seq<PeriodBlock>)
    ensures |blocks| == 3
    ensures blocks[0] == PeriodSummary(g, PeriodTitles[0], WindowFigures(stats, Week))
    ensures blocks[1] == PeriodSummary(g, PeriodTitles[1], WindowFigures(stats, Month))
    ensures blocks[2] == PeriodSummary(g, PeriodTitles[2], WindowFigures(stats, Year))
  {
    var windows := [Week, Month, Year];
    seq(3, i requires 0 <= i < 3 => PeriodSummary(g, PeriodTitles[i], WindowFigures(stats, windows[i])))
  }

  /**
   * Two period blocks show the same revenue, sales, profit and margin exactly
   * when their windows' defaulted figures carry the same sales count and
   * margin and their amounts format alike; the title is all that tells the
   * week, month and year blocks apart.
   */
  lemma PeriodSummaryUniform(g: Grouping, t1: string, t2: string, f1: Figures, f2: Figures)
    ensures
      PeriodSummary(g, t1, f1).(title := "") == PeriodSummary(g, t2, f2).(title := "") <==>
        && g(Num(f1.revenue)) == g(Num(f2.revenue))
        && f1.salesCount == f2.salesCount
        && g(Num(f1.profit)) == g(Num(f2.profit))
        && ProfitMargin(f1.revenue, f1.profit) == ProfitMargin(f2.revenue, f2.profit)
  {
    FormatCurrencyInjective(g, Num(f1.revenue), Num(f2.revenue));
    FormatCurrencyInjective(g, Num(f1.profit), Num(f2.profit));
    PercentTextInjective(ProfitMargin(f1.revenue, f1.profit), ProfitMargin(f2.revenue, f2.profit));
  }

  /** Every main card's title and change badge is the same whatever the snapshot. */
  lemma MainBadgesIgnoreSnapshot(g: Grouping, s1: Option<Snapshot>, s2: Option<Snapshot>, i: nat)
    requires i < 4
    ensures MainStats(g, s1)[i].title == MainStats(g, s2)[i].title
    ensures MainStats(g, s1)[i].change == MainStats(g, s2)[i].change
    ensures MainStats(g, s1)[i].changeType == MainStats(g, s2)[i].changeType
  {
  }

  /** Without a snapshot every card and block shows zero, and the margins read "0%". */
  lemma NoSnapshotShowsZeros(g: Grouping)
    ensures forall c <- MainStats(g, None)[..2] :: c.value == Text(FormatCurrency(g, Num(0)))
    ensures MainStats(g, None)[2].value == Count(0)
    ensures MainStats(g, None)[3].value == Text("0%")
    ensures forall c <- BusinessStats(None) :: c.value == 0
    ensures forall b <- PeriodBlocks(g, None) ::
      && b.revenue == FormatCurrency(g, Num(0)) && b.profit == FormatCurrency(g, Num(0))
      && b.salesCount == 0 && b.margin == "0%"
  {
  }

  /** Today's figures of 1,000,000 revenue and 250,000 profit give a "25.0%" margin card. */
  lemma MainStatsExample(g: Grouping, s: Snapshot)
    requires s.today == Some(PeriodFigures(Some(1000000), Some(250000), Some(12)))
    ensures MainStats(g, Some(s))[0].value == Text(g(Num(1000000)) + " so'm")
    ensures MainStats(g, Some(s))[2].value == Count(12)
    ensures MainStats(g, Some(s))[3].value == Text("25.0%")
  {
    assert WindowFigures(Some(s), Today) == Figures(1000000, 250000, 12);
    ExampleMargins();
  }
}
