# Weather-forecast pipeline of yew_test, modelled in Dafny

The repository is a small web front end. It fetches a MET Éireann
location-forecast XML document and draws one line chart per measurement.
This project models the pure core between the fetch and the chart:

- `parse_xml` and `parse_tag` (`src/xml/generic.rs`) turn the tokenizer's event
  stream into a tree of `XMLItem`s. The builder is a loop over a stack of open
  elements.
- `flatten_response` (`src/xml/locationforecast.rs`) walks the tree. The path is
  weatherdata, then the first `product` child, then each `time` node, then the
  first child of that node (the location), then each measurement leaf. It gives
  one `FlatItem` per leaf, stamped with the interval of its time node.
- `prepare_plot_data` (same file) stable-sorts those records by start time.
  It then folds them into a map from measurement name to `LineChartData`
  (`src/plot/line.rs`). A fixed registry says which attribute holds each
  measurement's number and which unit labels its y axis.

Modules:

- `Outcomes` holds `Option` and `Result`.
- `Generic` holds the XML tree builder.
- `Line` holds the chart series record.
- `LocationForecast` holds flattening, the sort, the registry and the series builder.

Every panic of the source (`expect`, `unwrap`, `todo!`, `assert_eq!`) is an
`Err` value of a typed error here. So the model says, for each input, whether
the source returns normally, and what it returns when it does.

The builder loop `ParseXml` is a method with a local stack. It is proved equal
to a fold (`Step`/`Run`/`Parse`), and the fold's properties are proved as
lemmas. `PreparePlotData` is the grouping loop, proved equal to `PlotData`.

## Model

| member | source | states |
|---|---|---|
| Generic.CollectAttributes | src/xml/generic.rs:18-31 | the attribute map's keys are exactly the keys of the tag's attribute pairs |
| Generic.CollectAttributesLastWins | src/xml/generic.rs:18-31 | a key's value in the map comes from the last pair with that key (collecting into a HashMap overwrites) |
| Generic.ParseTag | src/xml/generic.rs:15-38 | a parsed tag has the tag's local name, no children, and one attribute entry per distinct attribute key |
| Generic.ParseXml | src/xml/generic.rs:41-75 | the stack loop returns the fold `Parse`; the events are read until their end (`Eof`), and a malformed event fails |
| Generic.StartPushesNode | src/xml/generic.rs:48-51 | a start tag pushes its parsed node on top of the stack and leaves the rest alone |
| Generic.EndOnEmptyStackFails | src/xml/generic.rs:53-54 | an end tag with nothing open fails with an unexpected-end-tag error |
| Generic.EndAttachesTop | src/xml/generic.rs:53-60 | an end tag pops the top node into its parent's children; with only one node open, that node is popped and pushed back |
| Generic.EmptyAttachesLeaf | src/xml/generic.rs:62-67 | a self-closing tag becomes the last child of the top node; with nothing open it is dropped |
| Generic.RunHeight | src/xml/generic.rs:45-71 | the loop succeeds exactly when a plain depth counter over the events does; the final stack height is that counter, and the errors agree |
| Generic.ParseSucceedsIff | src/xml/generic.rs:45-74 | parsing succeeds if and only if the depth counter ends at exactly 1; the loop then leaves exactly the returned root on the stack |
| Generic.UnclosedInnerTagFails | src/xml/generic.rs:73 | a document whose depth ends anywhere but 1 fails with an incomplete-document error carrying that depth |
| Generic.RunAppend | src/xml/generic.rs:45-71 | the loop consumes events left to right: running a + b is running a, then b from a's stack |
| Generic.TopLevelSiblingNestsUnderRoot | src/xml/generic.rs:48-60 | a second top-level element after a finished root becomes the root's last child |
| Generic.StrayEndAfterRootIgnored | src/xml/generic.rs:53-59 | an extra end tag after the finished root leaves the result unchanged |
| Generic.UnclosedRootAccepted | src/xml/generic.rs:45-74 | an outermost start tag that is never closed is still returned as the root |
| Generic.RunPreorder | src/xml/generic.rs:45-71 | the preorder of the stack's nodes after the loop is the old preorder followed by the events' tags, in source order |
| Generic.ParsePreorder | src/xml/generic.rs:41-75 | the returned tree's preorder is the document's tags in source order, less the self-closing tags met with nothing open; so the tree has one node per such tag |
| LocationForecast.FindNamed | src/xml/locationforecast.rs:45-48 | finds the first child with the name, or reports that none has it |
| LocationForecast.FlattenUsesFirstProduct | src/xml/locationforecast.rs:45-49 | flattening fails for a missing product exactly when no child of the root is named "product"; otherwise it flattens the first such child |
| LocationForecast.FlattenTimesNeverMissesProduct | src/xml/locationforecast.rs:51-80 | walking the time nodes never produces the missing-product error |
| LocationForecast.FlattenTimesOkIff | src/xml/locationforecast.rs:51-71 | the walk succeeds if and only if every time node has a first child and, when that child has leaves, parsable "to" and "from" stamps |
| LocationForecast.FlattenTimeItems | src/xml/locationforecast.rs:52-79 | the records of one time node copy its leaves, in order, each with the node's from/to stamps, name and attributes |
| LocationForecast.FlattenTimesItems | src/xml/locationforecast.rs:51-81 | the records of all time nodes are, position by position, copies of the (time node, leaf) pairs in document order |
| LocationForecast.FlattenCount | src/xml/locationforecast.rs:51-81 | with m leaves under every time node, the walk yields (number of time nodes) × m records |
| LocationForecast.SortByFrom | src/xml/locationforecast.rs:87-88 | the sorted records are ordered by start time and are a permutation of the input |
| LocationForecast.SortSorted | src/xml/locationforecast.rs:88 | sorting records already in order changes nothing |
| LocationForecast.FilterSort | src/xml/locationforecast.rs:88 | selecting records after sorting equals sorting the selected records |
| LocationForecast.SortStable | src/xml/locationforecast.rs:88 | records with the same start time keep their input order (the sort is stable) |
| LocationForecast.OccurrencesFacts | src/xml/locationforecast.rs:87-91 | the records of one name, as the loop meets them, are that name's records sorted by start time; as many as in the input, nonempty exactly when the name occurs |
| LocationForecast.RegistryConsistent | src/xml/locationforecast.rs:94-131 | every name with a value attribute has a unit label and no other name does, so the label lookup never fails; only "symbol" is skipped |
| LocationForecast.PreparePlotData | src/xml/locationforecast.rs:85-141 | the sort-then-update loop returns the fold `PlotData` |
| LocationForecast.RecordOkIff | src/xml/locationforecast.rs:94-138 | one record is accepted exactly when it is skipped or carries a parsable number under its registered key; it adds at most its own name as a key |
| LocationForecast.GroupOkIff | src/xml/locationforecast.rs:91-139 | the loop succeeds exactly when every record it meets is accepted |
| LocationForecast.GroupKeys | src/xml/locationforecast.rs:113-138 | the keys after the loop are the keys before, plus every name with a value key that occurs |
| LocationForecast.GroupSeriesAt | src/xml/locationforecast.rs:113-138 | each series after the loop is the series before, extended by one point per record of its name in loop order; a new series takes its titles from the registry |
| LocationForecast.PlotDataOkIff | src/xml/locationforecast.rs:94-111 | plot data is produced if and only if every record is skipped or has a parsable number under its registered key |
| LocationForecast.PlotDataKeys | src/xml/locationforecast.rs:94-138 | the series names are exactly the names with a value key that occur in the input; "symbol" never has a series |
| LocationForecast.PlotDataSeries | src/xml/locationforecast.rs:113-138 | as written: each series has the registry's title and unit, no x title, and one point fewer than its name has records; point j is the (j+1)-th record in start-time order, with its formatted start time and its number |
| LocationForecast.PlotDataIntendedSeries | src/xml/locationforecast.rs:113-138 | with the first point kept: point j is the j-th record of the name in start-time order, so x and y have one entry per record |
| LocationForecast.FirstPointDropped | src/xml/locationforecast.rs:113-138 | as written, two temperature readings at hours 2 and 0 give a series with only the hour-2 point |
| LocationForecast.FirstPointKeptWhenIntended | src/xml/locationforecast.rs:113-138 | as intended, the same two readings give both points, hour 0 first |

## Left out

- `get_weather` (src/xml/locationforecast.rs:11-26) fetches over the network. It is I/O and is not part of this model.
- The quick_xml tokenizer is abstracted as a sequence of events, and the end of the sequence is `Eof`. The model does not decode bytes.
  - UTF-8 and attribute-unescaping failures in `parse_tag` (src/xml/generic.rs:16-30) happen below the event level and are left out.
  - A tag arrives with its local name and its attribute pairs already decoded.
  - Text, comments and the other ignored events are `Other`; a read error is `Malformed`.
- Parsing and formatting times (chrono's `DateTime<Utc>` parse, `naive_utc`, `NaiveDateTime::to_string`) and parsing `f32` are library calls. They are the parameters `parseTime`, `show` and `parseNumber`.
  - A timestamp is an integer instant.
  - `f32` values are reals. No rounding is modelled, since the values are only stored.
- LocationForecast.SortByFrom models `sort_by_key` by its result, as a stable insertion sort on a sequence. The library's in-place algorithm is not modelled.
- `HashMap` iteration order is not modelled: results are Dafny maps.
- Panic messages are not modelled; each panic is a distinct error value.
- In `flatten_response` the source re-reads and re-parses "to" and "from" once per leaf. The model reads them once per time node. Both read the same attributes with the same deterministic parser, and the model keeps the source's order ("to" first) and its skip when a node has no leaves.
- The chart drawing, the UI, the map and the macros (src/app.rs, src/map.rs, src/macros.rs, src/components/linechart.rs, src/plot/bindings.rs) are not part of this model.
- Where the repository's design description and the code disagree, the model follows the code:
  - An outermost start tag that is never closed is accepted (Generic.UnclosedRootAccepted). The description calls it an incomplete document.
  - A stray end tag after the root is ignored (Generic.StrayEndAfterRootIgnored). The description calls it an unexpected end tag.
  - A second top-level element nests under the root (Generic.TopLevelSiblingNestsUnderRoot). The description calls multiple top-level elements an error.
  - The unit labels are the code's literals: "Celcius", "Watts per m^2", and "Miles per Hour" for the `mps` key. The description gives other spellings.
  - The code does not check that the location node is a location, nor that the time node's first child has any particular name.

## Findings

| source | as written | input that shows it | evidently intended | confidence | as-written member | corrected member |
|---|---|---|---|---|---|---|
| src/xml/locationforecast.rs:113-138 | `or_insert_with` creates a new series with empty x/y data, and `and_modify` runs only when the entry already exists, so the first record of every measurement is never plotted | two "temperature" records, value 7.0 at hour 2 and 5.0 at hour 0: the series holds only the hour-2 point | every record of a measurement becomes a point, the first one included | not executed | LocationForecast.FirstPointDropped | LocationForecast.FirstPointKeptWhenIntended |

The as-written loop is `PlotData`/`PreparePlotData`, and `PlotDataSeries` states its one-point-short series in general. The corrected fold is `PlotDataIntended`, and `PlotDataIntendedSeries` proves one point per record.
