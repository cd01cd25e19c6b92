/**
 * The post-views bar chart of the Stats screens: the chart type, the
 * conversion of a day's date into a timestamp, and the transformer that maps
 * an ordered list of per-day view counts to bar entries, one shared bar width
 * and an x-axis formatter anchored at the first day.
 *
 * Timestamps and chart coordinates are `real` (the source uses `Double`).
 */
module PostChart {
  import opened Wrappers

  // ---------------------------------------------------------------------
  // Chart type
  // ---------------------------------------------------------------------

  /** The two places the chart is shown: Insights (latest post) and Post Stats (selected post). */
  datatype PostChartType = Latest | Selected

  /** Colour tags; only the highlight colour takes part in the transformation. */
  datatype Colour = JazzyOrange

  /** The highlight colour of a chart type: none for the latest post, orange for a selected one. */
  function HighlightColor(chartType: PostChartType): (r: Option<Colour>)
    ensures r.None? <==> chartType == Latest
    ensures r.Some? ==> r.value == JazzyOrange
  {
    match chartType
    case Latest => None
    case Selected => Some(JazzyOrange)
  }

  // ---------------------------------------------------------------------
  // Samples and the calendar
  // ---------------------------------------------------------------------

  /** A calendar day as date components. */
  datatype DateComponents = DateComponents(year: int, month: int, day: int)

  /**
   * The calendar the app runs with (`Calendar.autoupdatingCurrent`):
   * whether components form a valid date, and the date they denote as
   * seconds since 1970, if the calendar can build one.
   */
  datatype Calendar = Calendar(
    isValidDate: DateComponents -> bool,
    timeIntervalSince1970: DateComponents -> Option<real>)

  /** One sample: a day and the number of views the post had on it. */
  datatype StatsPostViews = StatsPostViews(date: DateComponents, viewsCount: int)

  /** The timestamp of a sample's day; none when the date is invalid or cannot be built. */
  function PostDateTimeInterval(datum: StatsPostViews, calendar: Calendar): (r: Option<real>)
    ensures !calendar.isValidDate(datum.date) ==> r.None?
    ensures r.Some? ==> r == calendar.timeIntervalSince1970(datum.date)
    ensures calendar.isValidDate(datum.date) ==> r == calendar.timeIntervalSince1970(datum.date)
  {
    if !calendar.isValidDate(datum.date) then None
    else calendar.timeIntervalSince1970(datum.date)
  }

  /** The timestamp an invalid or unconvertible date falls back to: the Unix epoch. */
  const EpochFallback: real := 0.0

  /** The share of extra width per bar that keeps bars from touching. */
  const BarPaddingFactor: real := 1.2

  /** The bar width used when there are no samples. */
  const DefaultBarWidth: real := 1.0

  /** A sample's timestamp with the epoch fallback applied. */
  function IntervalOrEpoch(datum: StatsPostViews, calendar: Calendar): real
  {
    PostDateTimeInterval(datum, calendar).GetOr(EpochFallback)
  }

  // ---------------------------------------------------------------------
  // Chart data
  // ---------------------------------------------------------------------

  /** One bar: its offset from the first day, in seconds, and its height. */
  datatype BarChartDataEntry = BarChartDataEntry(x: real, y: real)

  /** The bars and the width every bar is drawn with. */
  datatype BarChartData = BarChartData(entries: seq<BarChartDataEntry>, barWidth: real)

  /** The x-axis label formatter, which turns offsets back into dates relative to its anchor. */
  datatype HorizontalAxisFormatter = HorizontalAxisFormatter(initialDateInterval: real)

  /** The styling that varies between charts; the fixed palette is not modelled. */
  datatype PostChartStyling = PostChartStyling(
    primaryHighlightColor: Option<Colour>,
    xAxisValueFormatter: HorizontalAxisFormatter)

  /** What the transformer returns. */
  datatype TransformedChart = TransformedChart(barChartData: BarChartData, barChartStyling: PostChartStyling)

  /** The anchor timestamp: the first sample's, or 0 when there is no sample. */
  function FirstDateInterval(data: seq<StatsPostViews>, calendar: Calendar): real
  {
    if data == [] then EpochFallback else IntervalOrEpoch(data[0], calendar)
  }

  /** The last sample's timestamp, or 0 when there is no sample. */
  function LastDateInterval(data: seq<StatsPostViews>, calendar: Calendar): real
  {
    if data == [] then EpochFallback else IntervalOrEpoch(data[|data| - 1], calendar)
  }

  /** The shared bar width: the date range spread over the padded number of bars. */
  function EffectiveWidth(data: seq<StatsPostViews>, calendar: Calendar): real
  {
    if data == [] then DefaultBarWidth
    else
      var range := LastDateInterval(data, calendar) - FirstDateInterval(data, calendar);
      range / ((|data| as real) * BarPaddingFactor)
  }

  /** The bar of one sample, given the anchor timestamp. */
  function EntryFor(datum: StatsPostViews, firstDateInterval: real, calendar: Calendar): BarChartDataEntry
  {
    BarChartDataEntry(IntervalOrEpoch(datum, calendar) - firstDateInterval, datum.viewsCount as real)
  }

  /**
   * The result of transforming `data` for a chart of type `chartType`:
   * what `Transform` computes, stated without its loop.
   */
  function Transformed(chartType: PostChartType, data: seq<StatsPostViews>, calendar: Calendar): (r: TransformedChart)
    // one bar per sample, in the order of the samples, each as high as its view count
    ensures |r.barChartData.entries| == |data|
    ensures forall i :: 0 <= i < |data| ==> r.barChartData.entries[i].y == data[i].viewsCount as real
    // every bar sits at its own timestamp minus the anchor, and an invalid date counts as the epoch
    ensures forall i :: 0 <= i < |data| ==>
      r.barChartData.entries[i].x + r.barChartStyling.xAxisValueFormatter.initialDateInterval
        == IntervalOrEpoch(data[i], calendar)
    ensures forall i :: 0 <= i < |data| && PostDateTimeInterval(data[i], calendar).None? ==>
      r.barChartData.entries[i].x == -r.barChartStyling.xAxisValueFormatter.initialDateInterval
    // the first bar is at offset 0, whether or not its date is valid
    ensures data != [] ==> r.barChartData.entries[0].x == 0.0
    // the axis is anchored at the first sample's timestamp, or at the epoch
    ensures data != [] ==> r.barChartStyling.xAxisValueFormatter.initialDateInterval == IntervalOrEpoch(data[0], calendar)
    // empty input: no bars, width 1, anchor 0
    ensures data == [] ==>
      r.barChartData.entries == [] && r.barChartData.barWidth == 1.0
      && r.barChartStyling.xAxisValueFormatter.initialDateInterval == 0.0
    // otherwise the range from the first to the last timestamp, spread over the padded bar count
    ensures data != [] ==>
      r.barChartData.barWidth
        == (LastDateInterval(data, calendar) - FirstDateInterval(data, calendar)) / ((|data| as real) * BarPaddingFactor)
    // a single sample spans no range, so its bar has width 0
    ensures |data| == 1 ==> r.barChartData.barWidth == 0.0
    // the highlight colour is the chart type's
    ensures r.barChartStyling.primaryHighlightColor == HighlightColor(chartType)
  {
    var first := FirstDateInterval(data, calendar);
    var entries := seq(|data|, i requires 0 <= i < |data| => EntryFor(data[i], first, calendar));
    TransformedChart(
      BarChartData(entries, EffectiveWidth(data, calendar)),
      PostChartStyling(HighlightColor(chartType), HorizontalAxisFormatter(first)))
  }

  /**
   * The transformer as the source runs it: the anchor and the width first,
   * then one pass over the samples appending a bar per sample.
   */
  method Transform(chartType: PostChartType, postViews: seq<StatsPostViews>, calendar: Calendar)
    returns (barChartData: BarChartData, barChartStyling: PostChartStyling)
    ensures TransformedChart(barChartData, barChartStyling) == Transformed(chartType, postViews, calendar)
  {
    var data := postViews;
    var firstDateInterval: real;
    var lastDateInterval: real;
    var effectiveWidth: real;
    if |data| == 0 {
      firstDateInterval := 0.0;
      lastDateInterval := 0.0;
      effectiveWidth := 1.0;
    } else {
      firstDateInterval := PostDateTimeInterval(data[0], calendar).GetOr(0.0);
      lastDateInterval := PostDateTimeInterval(data[|data| - 1], calendar).GetOr(0.0);
      var range := lastDateInterval - firstDateInterval;
      var effectiveBars := (|data| as real) * 1.2;
      effectiveWidth := range / effectiveBars;
    }

    var entries: seq<BarChartDataEntry> := [];
    for i := 0 to |data|
      invariant |entries| == i
      invariant forall k :: 0 <= k < i ==> entries[k] == EntryFor(data[k], firstDateInterval, calendar)
    {
      var datum := data[i];
      var dateInterval := PostDateTimeInterval(datum, calendar).GetOr(0.0);
      var offset := dateInterval - firstDateInterval;
      var entry := BarChartDataEntry(offset, datum.viewsCount as real);
      entries := entries + [entry];
    }

    barChartData := BarChartData(entries, effectiveWidth);
    var xAxisFormatter := HorizontalAxisFormatter(firstDateInterval);
    barChartStyling := PostChartStyling(HighlightColor(chartType), xAxisFormatter);
  }

  // ---------------------------------------------------------------------
  // The chart object
  // ---------------------------------------------------------------------

  /** The chart type a chart is created with when none is given. */
  const DefaultChartType: PostChartType := Selected

  /** A chart of one post's views, transformed once, when it is created. */
  class PostChart {
    const chartType: PostChartType
    const rawPostViews: seq<StatsPostViews>
    const transformedPostData: BarChartData
    const barChartStyling: PostChartStyling
    /** The calendar in effect when the chart was created. */
    ghost const calendar: Calendar

    /** The stored data and styling are the transformation of the stored samples. */
    ghost predicate Valid()
    {
      TransformedChart(transformedPostData, barChartStyling) == Transformed(chartType, rawPostViews, calendar)
    }

    constructor (chartType: PostChartType, postViews: seq<StatsPostViews>, calendar: Calendar)
      ensures Valid()
      ensures this.chartType == chartType && rawPostViews == postViews && this.calendar == calendar
      ensures TransformedChart(transformedPostData, barChartStyling) == Transformed(chartType, postViews, calendar)
    {
      var data, styling := Transform(chartType, postViews, calendar);
      this.chartType := chartType;
      rawPostViews := postViews;
      transformedPostData := data;
      barChartStyling := styling;
      this.calendar := calendar;
    }

    /** A chart of the default type, a selected post's. */
    constructor WithDefaultType(postViews: seq<StatsPostViews>, calendar: Calendar)
      ensures Valid()
      ensures chartType == DefaultChartType && rawPostViews == postViews && this.calendar == calendar
      ensures TransformedChart(transformedPostData, barChartStyling) == Transformed(DefaultChartType, postViews, calendar)
    {
      var data, styling := Transform(DefaultChartType, postViews, calendar);
      chartType := DefaultChartType;
      rawPostViews := postViews;
      transformedPostData := data;
      barChartStyling := styling;
      this.calendar := calendar;
    }

    /** The data the chart view draws: one bar per stored sample, in order, with its view count as height. */
    function BarChartDataOf(): (r: BarChartData)
      requires Valid()
      ensures r == Transformed(chartType, rawPostViews, calendar).barChartData
      ensures |r.entries| == |rawPostViews|
      ensures forall i :: 0 <= i < |rawPostViews| ==> r.entries[i].y == rawPostViews[i].viewsCount as real
    {
      transformedPostData
    }
  }

  // ---------------------------------------------------------------------
  // Properties
  // ---------------------------------------------------------------------

  /** The samples are in ascending order of (fallback-applied) timestamp, neighbour by neighbour. */
  ghost predicate AscendingByDate(data: seq<StatsPostViews>, calendar: Calendar)
  {
    forall i :: 0 <= i < |data| - 1 ==> IntervalOrEpoch(data[i], calendar) <= IntervalOrEpoch(data[i + 1], calendar)
  }

  /** Neighbour-wise ascending timestamps are ascending between any two samples. */
  lemma {:induction false} IntervalsMonotone(data: seq<StatsPostViews>, calendar: Calendar, i: int, j: int)
    requires AscendingByDate(data, calendar)
    requires 0 <= i <= j < |data|
    ensures IntervalOrEpoch(data[i], calendar) <= IntervalOrEpoch(data[j], calendar)
    decreases j - i
  {
    if i < j {
      IntervalsMonotone(data, calendar, i, j - 1);
      assert IntervalOrEpoch(data[j - 1], calendar) <= IntervalOrEpoch(data[j], calendar);
    }
  }

  /**
   * For samples in ascending date order, the bars are laid out left to right
   * from offset 0 and the bar width is not negative.
   */
  lemma {:induction false} AscendingSamplesGiveOrderedBars(chartType: PostChartType, data: seq<StatsPostViews>, calendar: Calendar)
    requires AscendingByDate(data, calendar)
    ensures var r := Transformed(chartType, data, calendar).barChartData;
      && (forall i, j :: 0 <= i <= j < |data| ==> 0.0 <= r.entries[i].x <= r.entries[j].x)
      && r.barWidth >= 0.0
  {
    var r := Transformed(chartType, data, calendar).barChartData;
    forall i, j | 0 <= i <= j < |data|
      ensures 0.0 <= r.entries[i].x <= r.entries[j].x
    {
      IntervalsMonotone(data, calendar, 0, i);
      IntervalsMonotone(data, calendar, i, j);
    }
    if data != [] {
      IntervalsMonotone(data, calendar, 0, |data| - 1);
      var range := LastDateInterval(data, calendar) - FirstDateInterval(data, calendar);
      var bars := (|data| as real) * BarPaddingFactor;
      assert range >= 0.0 && bars > 0.0;
      assert r.barWidth == range / bars;
    }
  }

  /**
   * The width is the range over the padded bar count: the last bar's offset
   * is exactly `barWidth * count * 1.2`.
   */
  lemma LastBarSpansPaddedWidths(chartType: PostChartType, data: seq<StatsPostViews>, calendar: Calendar)
    requires data != []
    ensures var r := Transformed(chartType, data, calendar).barChartData;
      r.entries[|data| - 1].x == r.barWidth * ((|data| as real) * BarPaddingFactor)
  {
  }

  /**
   * Two samples on valid days with 5 and 12 views: bars at 0 and at the
   * distance between the days, and width that distance over 2.4.
   */
  lemma TwoSamples(chartType: PostChartType, d1: DateComponents, d2: DateComponents, calendar: Calendar, t1: real, t2: real)
    requires calendar.isValidDate(d1) && calendar.timeIntervalSince1970(d1) == Some(t1)
    requires calendar.isValidDate(d2) && calendar.timeIntervalSince1970(d2) == Some(t2)
    ensures var r := Transformed(chartType, [StatsPostViews(d1, 5), StatsPostViews(d2, 12)], calendar);
      && r.barChartData.entries == [BarChartDataEntry(0.0, 5.0), BarChartDataEntry(t2 - t1, 12.0)]
      && r.barChartData.barWidth == (t2 - t1) / 2.4
      && r.barChartStyling.xAxisValueFormatter.initialDateInterval == t1
  {
  }
}
