/**
 * The weather-document pipeline of src/xml/locationforecast.rs: flattening the
 * parsed tree into one record per measurement, then sorting the records by
 * start time and grouping them into one chart series per measurement name.
 *
 * Timestamp parsing, timestamp formatting and number parsing are library
 * calls; they are parameters here. A timestamp is its position on the time
 * line, an integer.
 */
module LocationForecast {
  import opened Outcomes
  import opened Generic
  import opened Line

  type Timestamp = int

  /** One measurement together with the time interval it belongs to. */
  datatype FlatItem = FlatItem(from: Timestamp, to: Timestamp, name: string, attributes: Attributes)

  /** The ways flatten_response gives up (each is a panic in the source). */
  datatype FlattenError =
    | MissingProduct                        // no child of the root is named "product"
    | EmptyTimestep                         // a time node has no children
    | MissingTimeAttribute(key: string)     // a time node lacks "to" or "from"
    | UnparsableTimestamp(key: string)      // "to" or "from" is not a date-time

  // ---------------------------------------------------------------------------
  // flatten_response
  // ---------------------------------------------------------------------------

  /** The position of the first item with the given name, if any. */
  function FindNamed(items: seq<XmlItem>, name: string): (r: Option<nat>)
    ensures r.Some? ==> r.value < |items| && items[r.value].name == name
    ensures r.Some? ==> forall j :: 0 <= j < r.value ==> items[j].name != name
    ensures r.None? ==> forall j :: 0 <= j < |items| ==> items[j].name != name
  {
    if items == [] then None
    else if items[0].name == name then Some(0)
    else match FindNamed(items[1..], name)
      case None => None
      case Some(i) => Some(i + 1)
  }

  /** A time node's "to" or "from" attribute, read and parsed. */
  function Stamp(time: XmlItem, key: string, parseTime: string -> Option<Timestamp>): Result<Timestamp, FlattenError> {
    if key !in time.attributes then Err(MissingTimeAttribute(key))
    else match parseTime(time.attributes[key])
      case None => Err(UnparsableTimestamp(key))
      case Some(t) => Ok(t)
  }

  /** One record per measurement leaf, all sharing the interval [from, to). */
  function Measurements(from: Timestamp, to: Timestamp, leaves: seq<XmlItem>): seq<FlatItem> {
    seq(|leaves|, i requires 0 <= i < |leaves| => FlatItem(from, to, leaves[i].name, leaves[i].attributes))
  }

  /**
   * The records of one time node: the leaves of its first child. The interval
   * is read (first "to", then "from") only when there is a leaf to record.
   */
  function FlattenTime(time: XmlItem, parseTime: string -> Option<Timestamp>): Result<seq<FlatItem>, FlattenError> {
    if time.children == [] then Err(EmptyTimestep)
    else
      var leaves := time.children[0].children;
      if leaves == [] then Ok([])
      else
        var to :- Stamp(time, "to", parseTime);
        var from :- Stamp(time, "from", parseTime);
        Ok(Measurements(from, to, leaves))
  }

  /** The records of a sequence of time nodes, in order; the first failing node decides the error. */
  function FlattenTimes(times: seq<XmlItem>, parseTime: string -> Option<Timestamp>): Result<seq<FlatItem>, FlattenError> {
    if times == [] then Ok([])
    else
      var head :- FlattenTime(times[0], parseTime);
      var tail :- FlattenTimes(times[1..], parseTime);
      Ok(head + tail)
  }

  /** flatten_response: root, first "product" child, its time nodes, their records. */
  function Flatten(root: XmlItem, parseTime: string -> Option<Timestamp>): Result<seq<FlatItem>, FlattenError> {
    match FindNamed(root.children, "product")
    case None => Err(MissingProduct)
    case Some(i) => FlattenTimes(root.children[i].children, parseTime)
  }

  // ---------------------------------------------------------------------------
  // What flattening promises
  // ---------------------------------------------------------------------------

  /** Errors from the time nodes are never the missing-product error. */
  lemma {:induction false} FlattenTimesNeverMissesProduct(times: seq<XmlItem>, parseTime: string -> Option<Timestamp>)
    ensures FlattenTimes(times, parseTime) != Err(MissingProduct)
    decreases |times|
  {
    if times != [] {
      FlattenTimesNeverMissesProduct(times[1..], parseTime);
    }
  }

  /**
   * Flattening fails with the missing-product error exactly when no child of
   * the root is named "product"; with several, the first one is used.
   */
  lemma FlattenUsesFirstProduct(root: XmlItem, parseTime: string -> Option<Timestamp>)
    ensures Flatten(root, parseTime) == Err(MissingProduct) <==>
      forall j :: 0 <= j < |root.children| ==> root.children[j].name != "product"
    ensures forall i ::
      (0 <= i < |root.children| && root.children[i].name == "product" &&
       forall j :: 0 <= j < i ==> root.children[j].name != "product") ==>
      Flatten(root, parseTime) == FlattenTimes(root.children[i].children, parseTime)
  {
    var children := root.children;
    match FindNamed(children, "product")
    case None =>
    case Some(i) =>
      FlattenTimesNeverMissesProduct(children[i].children, parseTime);
      forall k | 0 <= k < |children| && children[k].name == "product" &&
                 (forall j :: 0 <= j < k ==> children[j].name != "product")
        ensures k == i
      {
      }
  }

  /** A time node that flattening accepts: it has a child, and if that child has leaves, both bounds parse. */
  predicate TimeWellFormed(time: XmlItem, parseTime: string -> Option<Timestamp>) {
    && time.children != []
    && (time.children[0].children != [] ==>
          Stamp(time, "to", parseTime).Ok? && Stamp(time, "from", parseTime).Ok?)
  }

  /** Flattening the time nodes succeeds exactly when every one of them is well formed. */
  lemma {:induction false} FlattenTimesOkIff(times: seq<XmlItem>, parseTime: string -> Option<Timestamp>)
    ensures FlattenTimes(times, parseTime).Ok? <==> forall j :: 0 <= j < |times| ==> TimeWellFormed(times[j], parseTime)
    decreases |times|
  {
    if times != [] {
      FlattenTimesOkIff(times[1..], parseTime);
      assert forall j :: 1 <= j < |times| ==> times[j] == times[1..][j - 1];
    }
  }

  /** The (time node, leaf) pairs of one time node: the leaves of its first child. */
  function TimeLeafPairs(time: XmlItem): seq<(XmlItem, XmlItem)> {
    if time.children == [] then []
    else
      var leaves := time.children[0].children;
      seq(|leaves|, i requires 0 <= i < |leaves| => (time, leaves[i]))
  }

  /** The (time node, leaf) pairs of all time nodes, in document order. */
  function LeafPairs(times: seq<XmlItem>): seq<(XmlItem, XmlItem)> {
    if times == [] then [] else TimeLeafPairs(times[0]) + LeafPairs(times[1..])
  }

  /** A record copies the interval of its time node and the name and attributes of its leaf. */
  predicate Copies(item: FlatItem, pair: (XmlItem, XmlItem), parseTime: string -> Option<Timestamp>) {
    && Stamp(pair.0, "from", parseTime) == Ok(item.from)
    && Stamp(pair.0, "to", parseTime) == Ok(item.to)
    && item.name == pair.1.name
    && item.attributes == pair.1.attributes
  }

  /** Records and pairs that correspond one to one. */
  predicate AllCopies(items: seq<FlatItem>, pairs: seq<(XmlItem, XmlItem)>, parseTime: string -> Option<Timestamp>) {
    |items| == |pairs| && forall i :: 0 <= i < |items| ==> Copies(items[i], pairs[i], parseTime)
  }

  lemma FlattenTimeItems(time: XmlItem, parseTime: string -> Option<Timestamp>)
    requires FlattenTime(time, parseTime).Ok?
    ensures AllCopies(FlattenTime(time, parseTime).value, TimeLeafPairs(time), parseTime)
  {
  }

  lemma AllCopiesAppend(a: seq<FlatItem>, b: seq<FlatItem>, p: seq<(XmlItem, XmlItem)>, q: seq<(XmlItem, XmlItem)>,
                        parseTime: string -> Option<Timestamp>)
    requires AllCopies(a, p, parseTime) && AllCopies(b, q, parseTime)
    ensures AllCopies(a + b, p + q, parseTime)
  {
    forall i | 0 <= i < |a + b| ensures Copies((a + b)[i], (p + q)[i], parseTime) {
      if i >= |a| {
        assert (a + b)[i] == b[i - |a|] && (p + q)[i] == q[i - |a|];
      }
    }
  }

  /** Successful flattening yields one record per leaf, in time-node order and leaf order, copying each. */
  lemma {:induction false} FlattenTimesItems(times: seq<XmlItem>, parseTime: string -> Option<Timestamp>)
    requires FlattenTimes(times, parseTime).Ok?
    ensures AllCopies(FlattenTimes(times, parseTime).value, LeafPairs(times), parseTime)
    decreases |times|
  {
    if times != [] {
      FlattenTimesItems(times[1..], parseTime);
      FlattenTimeItems(times[0], parseTime);
      AllCopiesAppend(FlattenTime(times[0], parseTime).value, FlattenTimes(times[1..], parseTime).value,
                      TimeLeafPairs(times[0]), LeafPairs(times[1..]), parseTime);
    }
  }

  /** With n time nodes of m leaves each, flattening yields n * m records. */
  lemma {:induction false} FlattenCount(times: seq<XmlItem>, m: nat, parseTime: string -> Option<Timestamp>)
    requires forall j :: 0 <= j < |times| ==> times[j].children != [] && |times[j].children[0].children| == m
    requires FlattenTimes(times, parseTime).Ok?
    ensures |FlattenTimes(times, parseTime).value| == |times| * m
    decreases |times|
  {
    if times != [] {
      FlattenCount(times[1..], m, parseTime);
      assert |times| * m == m + (|times| - 1) * m;
    }
  }

  // ---------------------------------------------------------------------------
  // sort_by_key(|item| item.from): a stable sort
  // ---------------------------------------------------------------------------

  predicate SortedByFrom(s: seq<FlatItem>) {
    forall i, j :: 0 <= i < j < |s| ==> s[i].from <= s[j].from
  }

  /** `x` placed before the first element that does not start earlier than it. */
  function Insert(x: FlatItem, s: seq<FlatItem>): seq<FlatItem> {
    if s == [] || x.from <= s[0].from then [x] + s
    else [s[0]] + Insert(x, s[1..])
  }

  /** Inserting adds exactly `x`. */
  lemma {:induction false} InsertAdds(x: FlatItem, s: seq<FlatItem>)
    ensures multiset(Insert(x, s)) == multiset(s) + multiset{x}
    decreases |s|
  {
    if s != [] && x.from > s[0].from {
      InsertAdds(x, s[1..]);
      assert s == [s[0]] + s[1..];
    }
  }

  /** Inserting into records in order keeps them in order. */
  lemma {:induction false} InsertSorted(x: FlatItem, s: seq<FlatItem>)
    requires SortedByFrom(s)
    ensures SortedByFrom(Insert(x, s))
    decreases |s|
  {
    if s == [] || x.from <= s[0].from {
      return;
    }
    InsertSorted(x, s[1..]);
    InsertAdds(x, s[1..]);
    var tail := Insert(x, s[1..]);
    forall k | 0 <= k < |tail| ensures s[0].from <= tail[k].from {
      assert tail[k] in multiset(tail);
      assert tail[k] == x || tail[k] in s[1..];
    }
  }

  /** The records ordered by start time; records with equal start times keep their input order. */
  function SortByFrom(s: seq<FlatItem>): (r: seq<FlatItem>)
    ensures SortedByFrom(r) && multiset(r) == multiset(s)
  {
    if s == [] then []
    else
      assert s == [s[0]] + s[1..];
      InsertSorted(s[0], SortByFrom(s[1..]));
      InsertAdds(s[0], SortByFrom(s[1..]));
      Insert(s[0], SortByFrom(s[1..]))
  }

  /** The records `keep` selects, in their order. */
  function Filter(s: seq<FlatItem>, keep: FlatItem -> bool): seq<FlatItem> {
    if s == [] then []
    else (if keep(s[0]) then [s[0]] else []) + Filter(s[1..], keep)
  }

  function HasName(name: string): FlatItem -> bool {
    (item: FlatItem) => item.name == name
  }

  function StartsAt(t: Timestamp): FlatItem -> bool {
    (item: FlatItem) => item.from == t
  }

  lemma FilterCons(y: FlatItem, s: seq<FlatItem>, keep: FlatItem -> bool)
    ensures Filter([y] + s, keep) == (if keep(y) then [y] else []) + Filter(s, keep)
  {
    assert ([y] + s)[0] == y && ([y] + s)[1..] == s;
  }

  /** The selection holds only selected records of the input. */
  lemma {:induction false} FilterSubset(s: seq<FlatItem>, keep: FlatItem -> bool)
    ensures multiset(Filter(s, keep)) <= multiset(s)
    ensures forall k :: 0 <= k < |Filter(s, keep)| ==> keep(Filter(s, keep)[k])
    decreases |s|
  {
    if s != [] {
      FilterSubset(s[1..], keep);
      assert s == [s[0]] + s[1..];
      var rest := Filter(s[1..], keep);
      if keep(s[0]) {
        assert Filter(s, keep) == [s[0]] + rest;
        assert forall k :: 1 <= k < |rest| + 1 ==> Filter(s, keep)[k] == rest[k - 1];
      } else {
        assert Filter(s, keep) == rest;
      }
    }
  }

  /** Selecting from records in order leaves them in order. */
  lemma {:induction false} FilterSorted(s: seq<FlatItem>, keep: FlatItem -> bool)
    requires SortedByFrom(s)
    ensures SortedByFrom(Filter(s, keep))
    decreases |s|
  {
    if s != [] {
      FilterSorted(s[1..], keep);
      FilterSubset(s[1..], keep);
      var rest := Filter(s[1..], keep);
      forall k | 0 <= k < |rest| ensures s[0].from <= rest[k].from {
        assert rest[k] in multiset(rest);
        assert rest[k] in s[1..];
      }
      if keep(s[0]) {
        assert Filter(s, keep) == [s[0]] + rest;
      } else {
        assert Filter(s, keep) == rest;
      }
    }
  }

  /** Inserting in front of every selected record puts `x`, if selected, in front. */
  lemma FilterInsertFront(x: FlatItem, s: seq<FlatItem>, keep: FlatItem -> bool)
    requires SortedByFrom(s) && s != [] && x.from <= s[0].from
    ensures Filter(Insert(x, s), keep) == if keep(x) then Insert(x, Filter(s, keep)) else Filter(s, keep)
  {
    FilterSubset(s, keep);
    var u := Filter(s, keep);
    FilterCons(x, s, keep);
    if keep(x) && u != [] {
      assert u[0] in multiset(u);
      assert u[0] in s;
      assert Insert(x, u) == [x] + u;
    }
  }

  /** Selecting after inserting is inserting (if selected) after selecting. */
  lemma {:induction false} FilterInsert(x: FlatItem, s: seq<FlatItem>, keep: FlatItem -> bool)
    requires SortedByFrom(s)
    ensures Filter(Insert(x, s), keep) == if keep(x) then Insert(x, Filter(s, keep)) else Filter(s, keep)
    decreases |s|
  {
    if s == [] {
      return;
    }
    if x.from <= s[0].from {
      FilterInsertFront(x, s, keep);
      return;
    }
    FilterInsert(x, s[1..], keep);
    var w := Insert(x, s[1..]);
    var rest := Filter(s[1..], keep);
    assert Insert(x, s) == [s[0]] + w;
    FilterCons(s[0], w, keep);
    assert s == [s[0]] + s[1..];
    FilterCons(s[0], s[1..], keep);
    var u := Filter(s, keep);
    if keep(s[0]) {
      assert u == [s[0]] + rest;
      if keep(x) {
        assert u[0] == s[0] && u[1..] == rest;
        assert Insert(x, u) == [s[0]] + Insert(x, rest);
        assert Filter(Insert(x, s), keep) == [s[0]] + Insert(x, rest);
      } else {
        assert Filter(Insert(x, s), keep) == [s[0]] + rest;
      }
    } else {
      assert u == rest;
      assert Filter(Insert(x, s), keep) == Filter(w, keep);
    }
  }

  /** Selecting records and sorting them commute: the selection stays in sorted, stable order. */
  lemma {:induction false} FilterSort(s: seq<FlatItem>, keep: FlatItem -> bool)
    ensures Filter(SortByFrom(s), keep) == SortByFrom(Filter(s, keep))
    decreases |s|
  {
    if s != [] {
      FilterSort(s[1..], keep);
      FilterInsert(s[0], SortByFrom(s[1..]), keep);
      if keep(s[0]) {
        assert Filter(s, keep) == [s[0]] + Filter(s[1..], keep);
        assert Filter(s, keep)[1..] == Filter(s[1..], keep);
      } else {
        assert Filter(s, keep) == Filter(s[1..], keep);
      }
    }
  }

  /** Sorting what is already in order changes nothing. */
  lemma {:induction false} SortSorted(s: seq<FlatItem>)
    requires SortedByFrom(s)
    ensures SortByFrom(s) == s
    decreases |s|
  {
    if s != [] {
      SortSorted(s[1..]);
      assert s == [s[0]] + s[1..];
    }
  }

  /** The sort is stable: records with the same start time appear in their input order. */
  lemma SortStable(s: seq<FlatItem>, t: Timestamp)
    ensures Filter(SortByFrom(s), StartsAt(t)) == Filter(s, StartsAt(t))
  {
    FilterSort(s, StartsAt(t));
    var same := Filter(s, StartsAt(t));
    FilterSubset(s, StartsAt(t));
    assert forall k :: 0 <= k < |same| ==> same[k].from == t;
    SortSorted(same);
  }

  // ---------------------------------------------------------------------------
  // The measurement registry
  // ---------------------------------------------------------------------------

  /** Where a measurement keeps its number, or that it is skipped, or that it is not supported. */
  datatype Reading = ValueAt(key: string) | Skipped | Unsupported

  function ReadingOf(name: string): Reading {
    match name
    case "temperature" | "precipitation" | "globalRadiation" | "humidity" | "pressure" | "dewpointTemperature" =>
      ValueAt("value")
    case "windDirection" => ValueAt("deg")
    case "windSpeed" | "windGust" => ValueAt("mps")
    case "cloudiness" | "lowClouds" | "mediumClouds" | "highClouds" => ValueAt("percent")
    case "symbol" => Skipped
    case _ => Unsupported
  }

  /** The y-axis label of a new series, with the source's spellings. */
  function UnitLabel(name: string): Option<string> {
    match name
    case "temperature" | "dewpointTemperature" => Some("Celcius")
    case "precipitation" => Some("Millimetres")
    case "windDirection" => Some("Degrees")
    case "windSpeed" | "windGust" => Some("Miles per Hour")
    case "globalRadiation" => Some("Watts per m^2")
    case "humidity" | "cloudiness" | "lowClouds" | "mediumClouds" | "highClouds" => Some("Percent")
    case "pressure" => Some("hPa")
    case _ => None
  }

  /** Every name with a value key has a unit label and no other does, so the label lookup never fails. */
  lemma RegistryConsistent(name: string)
    ensures UnitLabel(name).Some? <==> ReadingOf(name).ValueAt?
    ensures ReadingOf(name) == Skipped <==> name == "symbol"
  {
  }

  // ---------------------------------------------------------------------------
  // prepare_plot_data
  // ---------------------------------------------------------------------------

  /** The ways prepare_plot_data gives up (each is a panic in the source). */
  datatype PlotError =
    | UnsupportedMeasurement(name: string)
    | MissingValue(name: string, key: string)
    | UnparsableValue(name: string, key: string)

  /** The number a record carries under its measurement's key, if it has one that parses. */
  function Sample(item: FlatItem, parseNumber: string -> Option<Number>): Option<Number> {
    match ReadingOf(item.name)
    case ValueAt(key) => if key in item.attributes then parseNumber(item.attributes[key]) else None
    case _ => None
  }

  /** A record the series builder accepts: skipped, or carrying a parsable number. */
  predicate Readable(item: FlatItem, parseNumber: string -> Option<Number>) {
    ReadingOf(item.name) == Skipped || Sample(item, parseNumber).Some?
  }

  /**
   * One iteration of the grouping loop. A record of a known measurement is
   * parsed first; then, if its series exists, the point is appended, and
   * otherwise the series is created. As written, creation records no point;
   * `keepFirst` gives the evidently intended variant that records it.
   */
  function Record(groups: map<string, LineChartData>, item: FlatItem, parseNumber: string -> Option<Number>,
                  show: Timestamp -> string, keepFirst: bool): Result<map<string, LineChartData>, PlotError>
  {
    match ReadingOf(item.name)
    case Skipped => Ok(groups)
    case Unsupported => Err(UnsupportedMeasurement(item.name))
    case ValueAt(key) =>
      if key !in item.attributes then Err(MissingValue(item.name, key))
      else match parseNumber(item.attributes[key])
        case None => Err(UnparsableValue(item.name, key))
        case Some(v) =>
          var x := show(item.from);
          if item.name in groups then
            var series := groups[item.name];
            Ok(groups[item.name := series.(xData := series.xData + [x], yData := series.yData + [v])])
          else match UnitLabel(item.name)
            case None => Err(UnsupportedMeasurement(item.name))
            case Some(unit) =>
              Ok(groups[item.name := LineChartData(Some(item.name), Some(unit), None,
                                                    if keepFirst then [x] else [], if keepFirst then [v] else [])])
  }

  /** The grouping loop over records already in order. */
  function Group(groups: map<string, LineChartData>, items: seq<FlatItem>, parseNumber: string -> Option<Number>,
                 show: Timestamp -> string, keepFirst: bool): Result<map<string, LineChartData>, PlotError>
    decreases |items|
  {
    if items == [] then Ok(groups)
    else
      match Record(groups, items[0], parseNumber, show, keepFirst)
      case Err(e) => Err(e)
      case Ok(next) => Group(next, items[1..], parseNumber, show, keepFirst)
  }

  /** prepare_plot_data as written: sort, then group; a new series starts without its first point. */
  function PlotData(items: seq<FlatItem>, parseNumber: string -> Option<Number>, show: Timestamp -> string)
    : Result<map<string, LineChartData>, PlotError>
  {
    Group(map[], SortByFrom(items), parseNumber, show, false)
  }

  /** prepare_plot_data as evidently intended: every occurrence becomes a point. */
  function PlotDataIntended(items: seq<FlatItem>, parseNumber: string -> Option<Number>, show: Timestamp -> string)
    : Result<map<string, LineChartData>, PlotError>
  {
    Group(map[], SortByFrom(items), parseNumber, show, true)
  }

  /** The loop of prepare_plot_data over the sorted records, updating a map of series. */
  method PreparePlotData(items: seq<FlatItem>, parseNumber: string -> Option<Number>, show: Timestamp -> string)
    returns (r: Result<map<string, LineChartData>, PlotError>)
    ensures r == PlotData(items, parseNumber, show)
  {
    var sorted := SortByFrom(items);
    var groups: map<string, LineChartData> := map[];
    for i := 0 to |sorted|
      invariant Group(groups, sorted[i..], parseNumber, show, false) == PlotData(items, parseNumber, show)
    {
      var item := sorted[i];
      assert sorted[i..][0] == item && sorted[i..][1..] == sorted[i + 1..];
      match ReadingOf(item.name) {
        case Skipped =>
        case Unsupported =>
          return Err(UnsupportedMeasurement(item.name));
        case ValueAt(key) =>
          if key !in item.attributes {
            return Err(MissingValue(item.name, key));
          }
          var parsed := parseNumber(item.attributes[key]);
          if parsed.None? {
            return Err(UnparsableValue(item.name, key));
          }
          var value := parsed.value;
          if item.name in groups {
            var series := groups[item.name];
            groups := groups[item.name := series.(xData := series.xData + [show(item.from)],
                                                  yData := series.yData + [value])];
          } else {
            var unit := UnitLabel(item.name);
            if unit.None? {
              return Err(UnsupportedMeasurement(item.name));
            }
            groups := groups[item.name := LineChartData(Some(item.name), Some(unit.value), None, [], [])];
          }
      }
    }
    assert sorted[|sorted|..] == [];
    r := Ok(groups);
  }

  // ---------------------------------------------------------------------------
  // What the series builder promises
  // ---------------------------------------------------------------------------

  /** The x labels of a run of records. */
  function Xs(occ: seq<FlatItem>, show: Timestamp -> string): seq<string> {
    seq(|occ|, i requires 0 <= i < |occ| => show(occ[i].from))
  }

  /** The numbers of a run of records, where they parse. */
  function Ys(occ: seq<FlatItem>, parseNumber: string -> Option<Number>): seq<Option<Number>> {
    seq(|occ|, i requires 0 <= i < |occ| => Sample(occ[i], parseNumber))
  }

  function Lift(ys: seq<Number>): seq<Option<Number>> {
    seq(|ys|, i requires 0 <= i < |ys| => Some(ys[i]))
  }

  /** A record is accepted regardless of the series built so far, exactly when it is readable. */
  lemma RecordOkIff(groups: map<string, LineChartData>, item: FlatItem, parseNumber: string -> Option<Number>,
                    show: Timestamp -> string, keepFirst: bool)
    ensures Record(groups, item, parseNumber, show, keepFirst).Ok? <==> Readable(item, parseNumber)
    ensures Record(groups, item, parseNumber, show, keepFirst).Ok? ==>
      var next := Record(groups, item, parseNumber, show, keepFirst).value;
      forall k :: k in next <==> k in groups || (k == item.name && ReadingOf(k).ValueAt?)
  {
    RegistryConsistent(item.name);
  }

  /** The grouping loop succeeds exactly when every record is readable. */
  lemma {:induction false} GroupOkIff(groups: map<string, LineChartData>, s: seq<FlatItem>,
                                      parseNumber: string -> Option<Number>, show: Timestamp -> string, keepFirst: bool)
    ensures Group(groups, s, parseNumber, show, keepFirst).Ok? <==> forall y :: y in s ==> Readable(y, parseNumber)
    decreases |s|
  {
    if s != [] {
      RecordOkIff(groups, s[0], parseNumber, show, keepFirst);
      assert s == [s[0]] + s[1..];
      match Record(groups, s[0], parseNumber, show, keepFirst)
      case Err(_) =>
      case Ok(next) =>
        GroupOkIff(next, s[1..], parseNumber, show, keepFirst);
    }
  }

  /** The keys after the loop: those before, and every measurement with a value key that occurs. */
  lemma {:induction false} GroupKeys(groups: map<string, LineChartData>, s: seq<FlatItem>,
                                     parseNumber: string -> Option<Number>, show: Timestamp -> string, keepFirst: bool)
    requires Group(groups, s, parseNumber, show, keepFirst).Ok?
    ensures var m := Group(groups, s, parseNumber, show, keepFirst).value;
      forall n :: n in m <==> n in groups || (ReadingOf(n).ValueAt? && Filter(s, HasName(n)) != [])
    decreases |s|
  {
    if s != [] {
      RecordOkIff(groups, s[0], parseNumber, show, keepFirst);
      var next := Record(groups, s[0], parseNumber, show, keepFirst).value;
      GroupKeys(next, s[1..], parseNumber, show, keepFirst);
      assert s == [s[0]] + s[1..];
      forall n ensures Filter(s, HasName(n)) == (if s[0].name == n then [s[0]] else []) + Filter(s[1..], HasName(n)) {
        FilterCons(s[0], s[1..], HasName(n));
      }
    }
  }

  /**
   * How one series comes out of the loop, given the records of its name in
   * loop order: an existing series gains one point per record; a new one is
   * created by the first record, which (as written) adds no point.
   */
  predicate Grown(series: LineChartData, groups: map<string, LineChartData>, name: string, occ: seq<FlatItem>,
                  parseNumber: string -> Option<Number>, show: Timestamp -> string, keepFirst: bool)
  {
    if name in groups then
      && series.title == groups[name].title
      && series.yAxisTitle == groups[name].yAxisTitle
      && series.xAxisTitle == groups[name].xAxisTitle
      && series.xData == groups[name].xData + Xs(occ, show)
      && Lift(series.yData) == Lift(groups[name].yData) + Ys(occ, parseNumber)
    else
      && occ != []
      && series.title == Some(name)
      && series.yAxisTitle == UnitLabel(name)
      && series.xAxisTitle == None
      && var points := if keepFirst then occ else occ[1..];
      && series.xData == Xs(points, show)
      && Lift(series.yData) == Ys(points, parseNumber)
  }

  /** A record of another name leaves the series of `name` as it was. */
  lemma GrownOther(series: LineChartData, groups: map<string, LineChartData>, item: FlatItem, name: string,
                   occ: seq<FlatItem>, parseNumber: string -> Option<Number>, show: Timestamp -> string, keepFirst: bool)
    requires Record(groups, item, parseNumber, show, keepFirst).Ok? && item.name != name
    requires Grown(series, Record(groups, item, parseNumber, show, keepFirst).value, name, occ, parseNumber, show, keepFirst)
    ensures Grown(series, groups, name, occ, parseNumber, show, keepFirst)
  {
    var next := Record(groups, item, parseNumber, show, keepFirst).value;
    assert (name in next) == (name in groups);
    if name in groups {
      assert next[name] == groups[name];
    }
  }

  /** A record of `name` itself adds its point to the series, or creates the series. */
  lemma GrownSame(series: LineChartData, groups: map<string, LineChartData>, item: FlatItem, name: string,
                  occ: seq<FlatItem>, parseNumber: string -> Option<Number>, show: Timestamp -> string, keepFirst: bool)
    requires ReadingOf(name).ValueAt?
    requires Record(groups, item, parseNumber, show, keepFirst).Ok? && item.name == name
    requires Grown(series, Record(groups, item, parseNumber, show, keepFirst).value, name, occ, parseNumber, show, keepFirst)
    ensures Grown(series, groups, name, [item] + occ, parseNumber, show, keepFirst)
  {
    var next := Record(groups, item, parseNumber, show, keepFirst).value;
    var key := ReadingOf(name).key;
    var v := parseNumber(item.attributes[key]).value;
    var x := show(item.from);
    assert Sample(item, parseNumber) == Some(v);
    assert Xs([item] + occ, show) == [x] + Xs(occ, show);
    assert Ys([item] + occ, parseNumber) == [Some(v)] + Ys(occ, parseNumber);
    if name in groups {
      var before := groups[name];
      assert next[name] == before.(xData := before.xData + [x], yData := before.yData + [v]);
      assert Lift(before.yData + [v]) == Lift(before.yData) + [Some(v)];
    } else {
      assert ([item] + occ)[1..] == occ;
      RegistryConsistent(name);
      if keepFirst {
        assert Lift([v]) == [Some(v)];
      } else {
        assert Lift([]) == [];
      }
    }
  }

  /** The inductive step of GroupSeriesAt: from the series grown by the later records to the one grown by all. */
  lemma GrownStep(series: LineChartData, groups: map<string, LineChartData>, s: seq<FlatItem>, name: string,
                  parseNumber: string -> Option<Number>, show: Timestamp -> string, keepFirst: bool)
    requires s != [] && Record(groups, s[0], parseNumber, show, keepFirst).Ok?
    requires ReadingOf(name).ValueAt?
    requires Grown(series, Record(groups, s[0], parseNumber, show, keepFirst).value, name,
                   Filter(s[1..], HasName(name)), parseNumber, show, keepFirst)
    ensures Grown(series, groups, name, Filter(s, HasName(name)), parseNumber, show, keepFirst)
  {
    var item, rest := s[0], s[1..];
    assert s == [item] + rest;
    FilterCons(item, rest, HasName(name));
    var occ := Filter(rest, HasName(name));
    if item.name != name {
      assert Filter(s, HasName(name)) == occ;
      GrownOther(series, groups, item, name, Filter(rest, HasName(name)), parseNumber, show, keepFirst);
    } else {
      assert Filter(s, HasName(name)) == [item] + occ;
      GrownSame(series, groups, item, name, Filter(rest, HasName(name)), parseNumber, show, keepFirst);
    }
  }

  /** Each series the loop ends with is its starting series grown by the records of its name. */
  lemma {:induction false} GroupSeriesAt(groups: map<string, LineChartData>, s: seq<FlatItem>, name: string,
                                         parseNumber: string -> Option<Number>, show: Timestamp -> string, keepFirst: bool)
    requires forall k :: k in groups ==> ReadingOf(k).ValueAt?
    requires Group(groups, s, parseNumber, show, keepFirst).Ok?
    requires name in Group(groups, s, parseNumber, show, keepFirst).value
    ensures Grown(Group(groups, s, parseNumber, show, keepFirst).value[name], groups, name,
                  Filter(s, HasName(name)), parseNumber, show, keepFirst)
    decreases |s|
  {
    if s == [] {
      assert Xs([], show) == [] && Ys([], parseNumber) == [];
      return;
    }
    RecordOkIff(groups, s[0], parseNumber, show, keepFirst);
    var next := Record(groups, s[0], parseNumber, show, keepFirst).value;
    GroupSeriesAt(next, s[1..], name, parseNumber, show, keepFirst);
    GroupKeys(groups, s, parseNumber, show, keepFirst);
    GrownStep(Group(groups, s, parseNumber, show, keepFirst).value[name], groups, s, name, parseNumber, show, keepFirst);
  }

  lemma {:induction false} FilterNonEmpty(s: seq<FlatItem>, keep: FlatItem -> bool)
    ensures Filter(s, keep) != [] <==> exists i :: 0 <= i < |s| && keep(s[i])
    decreases |s|
  {
    if s != [] {
      FilterNonEmpty(s[1..], keep);
      assert forall i :: 1 <= i < |s| ==> s[i] == s[1..][i - 1];
      if !keep(s[0]) && exists i :: 0 <= i < |s| && keep(s[i]) {
        var i :| 0 <= i < |s| && keep(s[i]);
        assert keep(s[1..][i - 1]);
      }
    }
  }

  /** The records of one name, in the order the loop meets them: sorted by start time, ties in input order. */
  function Occurrences(items: seq<FlatItem>, name: string): seq<FlatItem> {
    SortByFrom(Filter(items, HasName(name)))
  }

  lemma OccurrencesFacts(items: seq<FlatItem>, name: string)
    ensures Filter(SortByFrom(items), HasName(name)) == Occurrences(items, name)
    ensures |Occurrences(items, name)| == |Filter(items, HasName(name))|
    ensures SortedByFrom(Occurrences(items, name))
    ensures Occurrences(items, name) != [] <==> exists i :: 0 <= i < |items| && items[i].name == name
  {
    FilterSort(items, HasName(name));
    var u := Filter(items, HasName(name));
    assert |multiset(SortByFrom(u))| == |multiset(u)|;
    FilterNonEmpty(items, HasName(name));
    assert forall i :: 0 <= i < |items| ==> (HasName(name)(items[i]) <==> items[i].name == name);
  }

  lemma NameOccurs(items: seq<FlatItem>, name: string)
    ensures Filter(SortByFrom(items), HasName(name)) != [] <==> exists i :: 0 <= i < |items| && items[i].name == name
  {
    FilterSort(items, HasName(name));
    var u := Filter(items, HasName(name));
    assert |multiset(SortByFrom(u))| == |multiset(u)|;
    FilterNonEmpty(items, HasName(name));
    assert forall i :: 0 <= i < |items| ==> (HasName(name)(items[i]) <==> items[i].name == name);
  }

  /** prepare_plot_data succeeds exactly when every record is a skipped one or carries a parsable number. */
  lemma PlotDataOkIff(items: seq<FlatItem>, parseNumber: string -> Option<Number>, show: Timestamp -> string)
    ensures PlotData(items, parseNumber, show).Ok? <==> forall i :: 0 <= i < |items| ==> Readable(items[i], parseNumber)
  {
    var sorted := SortByFrom(items);
    GroupOkIff(map[], sorted, parseNumber, show, false);
    assert forall y :: y in sorted <==> y in multiset(items);
  }

  /** The keys are exactly the measurement names with a value key that occur; in particular never "symbol". */
  lemma PlotDataKeys(items: seq<FlatItem>, parseNumber: string -> Option<Number>, show: Timestamp -> string)
    requires PlotData(items, parseNumber, show).Ok?
    ensures forall n :: n in PlotData(items, parseNumber, show).value <==>
      ReadingOf(n).ValueAt? && exists i :: 0 <= i < |items| && items[i].name == n
    ensures "symbol" !in PlotData(items, parseNumber, show).value
  {
    GroupKeys(map[], SortByFrom(items), parseNumber, show, false);
    forall n ensures Filter(SortByFrom(items), HasName(n)) != [] <==> exists i :: 0 <= i < |items| && items[i].name == n {
      NameOccurs(items, n);
    }
    RegistryConsistent("symbol");
  }

  /**
   * Each series as written: titled with its name and unit label, and holding
   * one point fewer than its name has records: the records in start-time
   * order, less the first, each giving its formatted start time and its number.
   */
  lemma PlotDataSeries(items: seq<FlatItem>, parseNumber: string -> Option<Number>, show: Timestamp -> string)
    requires PlotData(items, parseNumber, show).Ok?
    ensures var m := PlotData(items, parseNumber, show).value;
      forall n :: n in m ==>
        var occ := Occurrences(items, n);
        && |occ| == |Filter(items, HasName(n))| > 0
        && SortedByFrom(occ)
        && m[n].title == Some(n) && m[n].yAxisTitle == UnitLabel(n) && m[n].xAxisTitle == None
        && |m[n].xData| == |m[n].yData| == |occ| - 1
        && forall j :: 0 <= j < |occ| - 1 ==>
             m[n].xData[j] == show(occ[j + 1].from) && Sample(occ[j + 1], parseNumber) == Some(m[n].yData[j])
  {
    var m := PlotData(items, parseNumber, show).value;
    forall n | n in m
      ensures var occ := Occurrences(items, n);
        && |occ| == |Filter(items, HasName(n))| > 0
        && SortedByFrom(occ)
        && m[n].title == Some(n) && m[n].yAxisTitle == UnitLabel(n) && m[n].xAxisTitle == None
        && |m[n].xData| == |m[n].yData| == |occ| - 1
        && forall j :: 0 <= j < |occ| - 1 ==>
             m[n].xData[j] == show(occ[j + 1].from) && Sample(occ[j + 1], parseNumber) == Some(m[n].yData[j])
    {
      OccurrencesFacts(items, n);
      GroupSeriesAt(map[], SortByFrom(items), n, parseNumber, show, false);
      var occ := Occurrences(items, n);
      assert |Lift(m[n].yData)| == |occ| - 1;
      forall j | 0 <= j < |occ| - 1
        ensures Sample(occ[j + 1], parseNumber) == Some(m[n].yData[j])
      {
        assert Lift(m[n].yData)[j] == Ys(occ[1..], parseNumber)[j];
      }
    }
  }

  /** With every occurrence recorded, each series holds one point per record of its name. */
  lemma PlotDataIntendedSeries(items: seq<FlatItem>, parseNumber: string -> Option<Number>, show: Timestamp -> string)
    requires PlotDataIntended(items, parseNumber, show).Ok?
    ensures var m := PlotDataIntended(items, parseNumber, show).value;
      forall n :: n in m ==>
        var occ := Occurrences(items, n);
        && |m[n].xData| == |m[n].yData| == |occ| == |Filter(items, HasName(n))|
        && forall j :: 0 <= j < |occ| ==>
             m[n].xData[j] == show(occ[j].from) && Sample(occ[j], parseNumber) == Some(m[n].yData[j])
  {
    var m := PlotDataIntended(items, parseNumber, show).value;
    forall n | n in m
      ensures var occ := Occurrences(items, n);
        && |m[n].xData| == |m[n].yData| == |occ| == |Filter(items, HasName(n))|
        && forall j :: 0 <= j < |occ| ==>
             m[n].xData[j] == show(occ[j].from) && Sample(occ[j], parseNumber) == Some(m[n].yData[j])
    {
      OccurrencesFacts(items, n);
      GroupSeriesAt(map[], SortByFrom(items), n, parseNumber, show, true);
      var occ := Occurrences(items, n);
      assert |Lift(m[n].yData)| == |occ|;
      forall j | 0 <= j < |occ|
        ensures Sample(occ[j], parseNumber) == Some(m[n].yData[j])
      {
        assert Lift(m[n].yData)[j] == Ys(occ, parseNumber)[j];
      }
    }
  }

  /** Two temperature readings of a forecast, the later one first: hours 2-3 at 7.0 and hours 0-1 at 5.0. */
  const LateReading := FlatItem(2, 3, "temperature", map["value" := "7.0"])
  const EarlyReading := FlatItem(0, 1, "temperature", map["value" := "5.0"])

  lemma ReadingsSorted()
    ensures SortByFrom([LateReading, EarlyReading]) == [EarlyReading, LateReading]
  {
    assert SortByFrom([EarlyReading]) == [EarlyReading];
    assert [LateReading, EarlyReading][1..] == [EarlyReading];
  }

  /** The grouping loop over two records is two steps of it. */
  lemma GroupTwo(groups: map<string, LineChartData>, first: FlatItem, second: FlatItem, middle: map<string, LineChartData>,
                 last: map<string, LineChartData>, parseNumber: string -> Option<Number>, show: Timestamp -> string,
                 keepFirst: bool)
    requires Record(groups, first, parseNumber, show, keepFirst) == Ok(middle)
    requires Record(middle, second, parseNumber, show, keepFirst) == Ok(last)
    ensures Group(groups, [first, second], parseNumber, show, keepFirst) == Ok(last)
  {
    assert [second][1..] == [];
    assert Group(middle, [second], parseNumber, show, keepFirst) == Group(last, [], parseNumber, show, keepFirst);
    assert [first, second][1..] == [second];
  }

  /** As written, the two readings give a series holding only the later one. */
  lemma FirstPointDropped(parseNumber: string -> Option<Number>, show: Timestamp -> string)
    requires parseNumber("5.0") == Some(5.0) && parseNumber("7.0") == Some(7.0)
    ensures PlotData([LateReading, EarlyReading], parseNumber, show) ==
      Ok(map["temperature" := LineChartData(Some("temperature"), Some("Celcius"), None, [show(2)], [7.0])])
  {
    var t := "temperature";
    assert ReadingOf(t) == ValueAt("value") && UnitLabel(t) == Some("Celcius");
    ReadingsSorted();
    var created := LineChartData(Some(t), Some("Celcius"), None, [], []);
    var grown := LineChartData(Some(t), Some("Celcius"), None, [show(2)], [7.0]);
    assert Record(map[], EarlyReading, parseNumber, show, false) == Ok(map[t := created]);
    assert created.(xData := created.xData + [show(2)], yData := created.yData + [7.0]) == grown;
    assert map[t := created][t := grown] == map[t := grown];
    assert Record(map[t := created], LateReading, parseNumber, show, false) == Ok(map[t := grown]);
    GroupTwo(map[], EarlyReading, LateReading, map[t := created], map[t := grown], parseNumber, show, false);
  }

  /** As intended, the two readings give a series holding both, earliest first. */
  lemma FirstPointKeptWhenIntended(parseNumber: string -> Option<Number>, show: Timestamp -> string)
    requires parseNumber("5.0") == Some(5.0) && parseNumber("7.0") == Some(7.0)
    ensures PlotDataIntended([LateReading, EarlyReading], parseNumber, show) ==
      Ok(map["temperature" := LineChartData(Some("temperature"), Some("Celcius"), None, [show(0), show(2)], [5.0, 7.0])])
  {
    var t := "temperature";
    assert ReadingOf(t) == ValueAt("value") && UnitLabel(t) == Some("Celcius");
    ReadingsSorted();
    var created := LineChartData(Some(t), Some("Celcius"), None, [show(0)], [5.0]);
    var grown := LineChartData(Some(t), Some("Celcius"), None, [show(0), show(2)], [5.0, 7.0]);
    assert Record(map[], EarlyReading, parseNumber, show, true) == Ok(map[t := created]);
    assert created.(xData := created.xData + [show(2)], yData := created.yData + [7.0]) == grown;
    assert map[t := created][t := grown] == map[t := grown];
    assert Record(map[t := created], LateReading, parseNumber, show, true) == Ok(map[t := grown]);
    GroupTwo(map[], EarlyReading, LateReading, map[t := created], map[t := grown], parseNumber, show, true);
  }
}
