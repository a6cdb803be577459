/** The admin dashboard: the chart table behind each stat card, the bar scaling, the highlighted
    bar and the default card selection. Bar heights are real numbers here, not IEEE doubles. */
module AdminDashboard {
  import opened Builtins
  import opened Types
  import MockApi
  import TicketDetail

  datatype ChartData = ChartData(labels: seq<string>, values: seq<int>, unit: string, description: string)

  const OrdersTitle: string := "금일 주문 접수"
  const CompletedTitle: string := "처리 완료"
  const BottleneckTitle: string := "공정 병목"

  /** The constant chart table behind a stat card, looked up by the card's title (`getChartData`);
      an unknown title gets empty lists. */
  function GetChartData(title: string): (r: ChartData)
    ensures |r.labels| == |r.values|
    ensures title != OrdersTitle && title != CompletedTitle && title != BottleneckTitle ==>
      r.labels == [] && r.values == []
    ensures title == BottleneckTitle ==> r.labels == ["전처리", "규격화", "포장", "출고"] && r.values == [5, 8, 25, 10]
  {
    if title == OrdersTitle then
      ChartData(["09시", "10시", "11시", "12시", "13시", "14시"], [12, 19, 35, 22, 45, 30], "건",
                "시간대별 주문 유입 현황 (피크타임: 13시)")
    else if title == CompletedTitle then
      ChartData(["김철수", "이영희", "박지성", "최동원", "정대만"], [45, 38, 52, 29, 41], "건",
                "작업자별 금일 누적 처리 건수")
    else if title == BottleneckTitle then
      ChartData(["전처리", "규격화", "포장", "출고"], [5, 8, 25, 10], "분",
                "공정 단계별 평균 체류 시간 (포장 단계 지연 심각)")
    else
      ChartData([], [], "", "")
  }

  /** JavaScript truthiness of the selected title: `null` and `""` are both false. */
  predicate IsSelected(selected: Option<string>)
  {
    selected.Some? && selected.value != ""
  }

  /** The chart shown under the cards: the table of the selected title when a non-empty title is
      selected, and no chart otherwise (`selectedStatLabel ? getChartData(…) : null`). */
  function CurrentChartData(selected: Option<string>): (r: Option<ChartData>)
    ensures r.Some? <==> IsSelected(selected)
    ensures r.Some? ==> r.value == GetChartData(selected.value)
  {
    if IsSelected(selected) then Some(GetChartData(selected.value)) else None
  }

  predicate IsUpperBound(values: seq<int>, m: int)
  {
    forall k :: 0 <= k < |values| ==> values[k] <= m
  }

  /** The largest of a non-empty list of chart values (`Math.max(...values)`). */
  function MaxOf(values: seq<int>): (m: int)
    requires |values| > 0
    decreases |values|
    ensures m in values && IsUpperBound(values, m)
  {
    if |values| == 1 then values[0]
    else
      var rest := MaxOf(values[1..]);
      if values[0] >= rest then values[0] else rest
  }

  /** `maxChartValue`: the largest value, with 1 standing in when there is no chart, no value, or the
      largest value is 0 (`|| 1`); it is never 0, so dividing by it is safe. */
  function MaxChartValue(chart: Option<ChartData>): (r: int)
    ensures r != 0
    ensures chart.None? || chart.value.values == [] ==> r == 1
    ensures chart.Some? && chart.value.values != [] && !(0 in chart.value.values && IsUpperBound(chart.value.values, 0)) ==>
      r in chart.value.values && IsUpperBound(chart.value.values, r)
    ensures chart.Some? && 0 in chart.value.values && IsUpperBound(chart.value.values, 0) ==> r == 1
  {
    if chart.Some? && |chart.value.values| > 0 then
      var m := MaxOf(chart.value.values);
      if m != 0 then m else 1
    else 1
  }

  const MaxBarHeightPx: real := 180.0
  const MinBarHeightPx: real := 4.0

  /** The ratio of a value to the chart maximum is 1 at the maximum and at most 1 below it. */
  lemma RatioAtMostOne(value: int, maxValue: int)
    requires maxValue != 0
    ensures value == maxValue ==> value as real / maxValue as real == 1.0
    ensures 0 <= value <= maxValue ==> value as real / maxValue as real <= 1.0
  {
    var ratio := value as real / maxValue as real;
    if 0 <= value <= maxValue {
      assert ratio * maxValue as real == value as real;
      assert (1.0 - ratio) * maxValue as real == (maxValue - value) as real;
    }
  }

  /** The pixel height of one bar: its share of the largest value scaled to the full bar height,
      but never below the 4-pixel minimum that keeps small bars visible. */
  function HeightPx(value: int, maxValue: int): (h: real)
    requires maxValue != 0
    ensures h >= MinBarHeightPx
    ensures 0 <= value <= maxValue ==> h <= MaxBarHeightPx
    ensures value == maxValue ==> h == MaxBarHeightPx
    ensures h == MinBarHeightPx || h * maxValue as real == value as real * MaxBarHeightPx
    ensures maxValue > 0 ==> h * maxValue as real >= value as real * MaxBarHeightPx
  {
    var scaled := (value as real / maxValue as real) * MaxBarHeightPx;
    RatioAtMostOne(value, maxValue);
    if scaled >= MinBarHeightPx then scaled else MinBarHeightPx
  }

  /** On one chart a larger value never gets a shorter bar. */
  lemma HeightMonotone(v1: int, v2: int, maxValue: int)
    requires maxValue > 0 && v1 <= v2
    ensures HeightPx(v1, maxValue) <= HeightPx(v2, maxValue)
  {
    var r1 := v1 as real / maxValue as real;
    var r2 := v2 as real / maxValue as real;
    assert r1 * maxValue as real == v1 as real;
    assert r2 * maxValue as real == v2 as real;
    assert (r2 - r1) * maxValue as real == (v2 - v1) as real;
    assert r1 <= r2;
  }

  /** Whether a bar is drawn in the warning colour: only the packing bar of the bottleneck card. */
  predicate IsDanger(selected: Option<string>, barLabel: string)
  {
    selected == Some(BottleneckTitle) && barLabel == "포장"
  }

  /** The bottleneck chart lists the four stages under the ticket page's labels, in processing order,
      and the one bar drawn as a danger is also the tallest, at the full height. No bar of any other
      card, and no other bar of this one, is ever a danger bar: the warning follows the packing
      label, not the values. */
  lemma BottleneckChartShape()
    ensures forall selected, barLabel :: IsDanger(selected, barLabel) ==>
      selected == Some(BottleneckTitle) && barLabel == TicketDetail.StepLabel(Pack)
    ensures var c := GetChartData(BottleneckTitle);
      && |c.labels| == 4
      && (forall i :: 0 <= i < 4 ==> c.labels[i] == TicketDetail.StepLabel(StepOrder[i]))
      && (forall i :: 0 <= i < 4 ==> (IsDanger(Some(BottleneckTitle), c.labels[i]) <==> i == 2))
      && MaxChartValue(Some(c)) == c.values[2]
      && HeightPx(c.values[2], MaxChartValue(Some(c))) == MaxBarHeightPx
      && (forall i :: 0 <= i < 4 && i != 2 ==> HeightPx(c.values[i], MaxChartValue(Some(c))) < MaxBarHeightPx)
  {
    var c := GetChartData(BottleneckTitle);
    assert c.values == [5, 8, 25, 10];
    assert MaxOf(c.values) == 25;
  }

  /** The card selection. */
  class Dashboard {
    var selected: Option<string>

    constructor ()
      ensures selected.None?
    {
      selected := None;
    }

    /** The effect that picks the first card once the stats have loaded and nothing is selected. */
    method SelectDefault(stats: Option<seq<DashboardStat>>)
      modifies this
      ensures stats.Some? && |stats.value| > 0 && !IsSelected(old(selected)) ==> selected == Some(stats.value[0].title)
      ensures !(stats.Some? && |stats.value| > 0 && !IsSelected(old(selected))) ==> selected == old(selected)
    {
      if stats.Some? && |stats.value| > 0 && !IsSelected(selected) {
        selected := Some(stats.value[0].title);
      }
    }

    /** A click on a card. */
    method Select(title: string)
      modifies this
      ensures selected == Some(title)
    {
      selected := Some(title);
    }
  }

  /** Once the mock stats arrive, the dashboard opens on the orders card, whose chart has six bars. */
  lemma DefaultSelectionOfMockStats()
    ensures MockApi.MockStats[0].title == OrdersTitle
    ensures CurrentChartData(Some(MockApi.MockStats[0].title)) == Some(GetChartData(OrdersTitle))
    ensures |GetChartData(OrdersTitle).labels| == 6
  {
  }
}
