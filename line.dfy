/** The chart series record of src/plot/line.rs. */
module Line {
  import opened Outcomes

  /** f32 chart values; never computed with, only parsed and stored. */
  type Number = real

  /** One chart line: titles, then x labels and y values in the order they were pushed. */
  datatype LineChartData = LineChartData(
    title: Option<string>,
    yAxisTitle: Option<string>,
    xAxisTitle: Option<string>,
    xData: seq<string>,
    yData: seq<Number>)
}
