# servicemon in Dafny

A functional model of the core of servicemon, a probe that monitors
astronomical data services. It has four parts:

- **The query** (`servicemon/query.py`). It computes a query's identity from a
  service, a position and a radius: access URL, RA/DEC/SR parameters, name and
  output file. Then it runs the query: a timed fetch, a timed write of the
  payload, and a read-back that gathers result metadata.
- **The statistics record** (`servicemon/query_stats.py`). Timed intervals, start
  and end times, result metadata, and the header and values lines of the CSV
  report.
- **The batch driver** (`servicemon/run.py`). Every service is tried against every
  cone. Failed combinations are skipped. The statistics of the completed
  queries are printed as one table, or as a sentinel when none completed.
- **The registry query builders** (`servicemon/navoutils/registry.py`). They build
  the ADQL search query from keyword arguments, and the "count by field" query.

Modules:

- `Wrappers`: `Option`, `Result`, and the exceptions the code raises.
- `Strings`: Python's `join`, `split`, `in`, `lower`, `strip` and `str(int)`.
  `split` and `join` are proved to undo each other, and so are `str(int)` and
  parsing it back; `in` is proved equal to "occurs at some position".
  `lower` and `strip` have no round trip.
- `Registry`, `Stats`, `Queries`, `Batch`: one module per source file above.

The world outside the program is passed in as parameters.

- **The clock.** `time.time()` is a function from a reading index to an
  integer. Each call takes the next reading. `Timed` takes one reading when
  it opens an interval, one when it closes it, and one more inside
  `add_interval` the first time.
- **The query's three external calls.** The HTTP fetch, the chunked write
  and the table read-back have an `Outcomes` value per query. The batch
  driver takes a function from attempt number to `Outcomes`.
- **Library calls.** `html.unescape`, `parse_coordinates` and `str` of a
  float are function-typed fields of `Env`.

Behaviour of the code worth knowing:

- **Radius.** The radius is passed through unvalidated.
- **Retries.** A fetch is made once and never retried.
- **Metadata.** The metadata holds no error text, and the read-back is not
  timed.
- **Start time.** The record's `start_time` is the clock reading taken while
  the first interval is added, not that interval's start.
- **Report header.** It comes from the first record alone;
  `Batch.HeaderOnlyFromFirst` states this. Records with other columns are
  still printed under it.
- **Query names.** Different inputs can share a name. `Queries.QueryNameCollision` gives
  two tuples with the same name.
- **"order by".** No space separates the last WHERE fragment from
  "order by"; `Registry.OrderByFollowsLastFragment` states this. For
  `service_type="cone", order_by="x"` the query ends `'publisher'order by x`.
- **Unreadable payloads.** A payload that cannot be read as a table is not
  counted as a completed query. The `except` branch calls
  `print(value=...)`, which itself raises `TypeError`. The metadata is still
  stored by the `finally`, but `run` raises, so the batch driver drops that
  query.

## Model

| member | source | states |
|---|---|---|
| Registry.ParseOptionsLookup | servicemon/navoutils/registry.py:56-80 | after the keyword-argument loop (`Registry.ParseOptions`), each of the seven options is the value of the last keyword argument with its name, or its default ("" for six, " and " for the joining string) |
| Registry.UnrecognisedIgnored | servicemon/navoutils/registry.py:66-80 | a keyword argument whose name is not one of the seven recognised ones changes no option, wherever it appears |
| Registry.NormaliseServiceType | servicemon/navoutils/registry.py:83-93 | "image", "spectr" and "cone" are searched in the lower-cased service type, in that precedence; "tap"/"table" are searched case-sensitively; anything else gives no query |
| Registry.LowerKeepsRecognised | servicemon/navoutils/registry.py:83-90 | lower-casing a recognised service type never changes the capability it selects |
| Registry.WavebandFragment | servicemon/navoutils/registry.py:115-122 | a waveband without a comma gives one LIKE term; with a comma, its pieces (at least two, joining back to the waveband) each give a stripped LIKE term, or-joined in parentheses |
| Registry.Wheres | servicemon/navoutils/registry.py:106-134 | the WHERE list starts with the capability filter and always holds the publisher-role filter; it holds the source, waveband, publisher and keyword filters when those are set; for SIA the SIA-2 exclusion comes second; its length is two plus the filters that apply |
| Registry.WheresOrder | servicemon/navoutils/registry.py:113-134 | after the source and waveband filters comes the publisher-role filter, then the publisher filter, then the keyword filter last |
| Registry.WheresSiaExclusion | servicemon/navoutils/registry.py:110-112 | the SIA version 2 exclusion is among the WHERE fragments exactly when the capability is simple image access |
| Registry.BuildAdql | servicemon/navoutils/registry.py:82-145 | no query is built exactly when the service type is not recognised; a built query is exactly the select clause, " where ", the WHERE fragments joined by the logic string, and then "order by X" when an ordering is given |
| Registry.OrderByFollowsLastFragment | servicemon/navoutils/registry.py:136-143 | with an ordering, the query ends with the last WHERE fragment immediately followed by "order by X", with no space between |
| Registry.BuildAdqlFilters | servicemon/navoutils/registry.py:106-136 | every built query starts with the select clause, " where " and the capability filter, holds the publisher-role filter at some position, and for an image search also holds the SIA version 2 exclusion |
| Registry.Query | servicemon/navoutils/registry.py:26-30 | `query` raises ValueError with the fixed message exactly when no ADQL can be built, and otherwise sends that ADQL |
| Strings.ContainsOccurs | servicemon/navoutils/registry.py:83-89 | Python's substring test, as modelled, holds exactly when the substring occurs at some position |
| Registry.CountTargetOf | servicemon/navoutils/registry.py:170-186 | a field matches case-insensitively: waveband counts rr.resource under the caller's spelling, publisher counts role_name in rr.res_role filtered to publishers, service_type counts cap_type in rr.capability; any other field gives no query |
| Registry.BuildCountsAdql | servicemon/navoutils/registry.py:170-196 | a count query exists exactly when the field is one of the three; `minimum` defaults to 1 |
| Registry.BuildCountsAdqlShape | servicemon/navoutils/registry.py:188-194 | the count query selects and counts the target column under the caller's alias, groups the (filtered) target table by it, and ends by keeping groups of at least `minimum` rows, largest first |
| Stats.OpenInterval | servicemon/query_stats.py:6-9 | a new interval starts at the current reading with zero duration |
| Stats.Close | servicemon/query_stats.py:11-13 | closing sets the end to the current reading and keeps description and start; the duration is end minus start |
| Stats.NewStats | servicemon/query_stats.py:26-33 | a new record keeps its five identity fields, has no intervals, no metadata and no start or end time, and is valid |
| Stats.AddInterval | servicemon/query_stats.py:35-39 | adding appends the interval and sets the end time to its end; the first addition sets the start time to the reading taken then, later ones keep it; the record stays valid (times exist exactly when intervals do, the end time is the last interval's end); nothing else changes |
| Stats.AddAllSummary | servicemon/query_stats.py:35-39 | after any sequence of additions to a fresh record, the intervals are those added, in order; the start time is the first addition's reading; the end time is the last interval's end |
| Stats.SetResultMeta | servicemon/query_stats.py:46-48 | the setter replaces the metadata and changes nothing else |
| Stats.ColumnsMatchRow | servicemon/query_stats.py:50-77 | for `_columns` (`Stats.Columns`) and `_row_values` (`Stats.RowValues`): a row exists exactly when an interval was added; columns and row values are the keys and values of one list of cells, so they have equal length and correspond position by position |
| Stats.CellsLayout | servicemon/query_stats.py:50-77 | the cell layout: name, start_time, end_time, then `int<i>_desc`/`int<i>_duration` per interval, base_name, query_type, the parameters, access_url, then the metadata |
| Stats.ValuesString | servicemon/query_stats.py:62-66 | the values line exists exactly when the record has a row (the start and end times exist), and ends with a newline |
| Stats.HeaderSplitsIntoColumns | servicemon/query_stats.py:79-81 | the header line (`Stats.HeaderString`), without its newline, splits at commas back into the column names when no key holds a comma |
| Stats.ValuesSplitIntoFields | servicemon/query_stats.py:83-85 | the values line, without its newline, splits at commas into one field per column, field k being the rendering of value k, when no rendered value holds a comma |
| Queries.AccessUrl | servicemon/query.py:90-100 | a string service is its own URL; a record gives its unescaped "access_url" entry, or KeyError when it has none |
| Queries.AccessUrlOtherFieldsIgnored | servicemon/query.py:93-96 | a record's URL, or its KeyError, depends on its "access_url" entry alone: setting any other field changes neither |
| Queries.ComputeCoords | servicemon/query.py:102-112 | a two-element sequence is parsed as "a b", a string as given, a resolved position is kept; any other input raises ValueError |
| Queries.PairResolvesAsText | servicemon/query.py:105-108 | a pair of items resolves exactly as the text "a b" made from them does |
| Queries.QueryParams | servicemon/query.py:114-120 | the parameters are exactly RA, DEC, SR, in that order, with the position's degrees and the radius as given |
| Queries.QueryNameParts | servicemon/query.py:122-127 | the name `Queries.QueryName` computes is base name, query type, RA, DEC and SR joined by "_"; when no part holds "_", splitting the name gives the parts back |
| Queries.QueryNameCollision | servicemon/query.py:122-127 | base name "a_b" with type "c" and base name "a" with type "b_c" get the same name |
| Queries.NewQuery | servicemon/query.py:31-48 | construction fails with the access URL's error first, then the coordinates' error; otherwise the filename is `<out_dir>/<name>.xml` and the record is fresh with query type "cone" |
| Queries.Timed | servicemon/query.py:15-25 | the wrapper passes the result through; on an exception nothing is recorded and one reading is used; on a return, the interval (open reading, close reading) is appended, the end time becomes the close reading, and a first interval takes a third reading as the start time; validity is kept and, on a monotone clock, the duration is non-negative |
| Queries.ResultMetadata | servicemon/query.py:70-84 | the metadata keys are status, size, num_rows, num_columns in that order; the counts are -1 unless the table was read |
| Queries.GatherMetadata | servicemon/query.py:70-88 | the metadata is stored whether or not the read succeeds; a failed read raises TypeError from the `print` call |
| Queries.Run | servicemon/query.py:54-68 | the run succeeds exactly when fetch, write and read all do; a failed fetch records nothing; a failed write records only "do_query"; otherwise "do_query" and "stream_to_file" are recorded in that order and the metadata is stored; name, parameters and validity are kept; from a fresh record on a monotone clock, a run whose fetch and write succeed has a row, non-negative durations, and first interval end ≤ start time ≤ end time |
| Batch.Attempt | servicemon/run.py:37-44 | a missing "base_name", then a missing "service_type", raises KeyError; a failed construction raises its error; a query that is built and whose fetch, write and read all succeed is kept; a kept record comes only from such a run, and has the intervals "do_query" and "stream_to_file", query type "cone", the four metadata keys and a row |
| Batch.CombosLength | servicemon/run.py:35-36 | there are as many attempts as services times cones |
| Batch.CombosAt | servicemon/run.py:35-36 | services are the outer loop and cones the inner one: attempt i × (number of cones) + j pairs service i with cone j |
| Batch.BatchIsolation | servicemon/run.py:35-44 | there are services × cones attempts; the kept records number the attempts less the failures, and each was returned by an attempt |
| Batch.SuccessesCount | servicemon/run.py:37-44 | every failed attempt costs exactly one row and no other; every kept record was returned by some attempt |
| Batch.RunCombos | servicemon/run.py:35-44 | the fold over the combinations logs exactly one result per combination |
| Batch.DoService | servicemon/run.py:36-44 | the inner loop over the cones of one service extends the fold by that service's combinations, and the kept records stay the successes of the log |
| Batch.DoQueries | servicemon/run.py:32-46 | the loops make one attempt per combination, services outer and cones inner, each seeing the clock where the previous one left it; the kept records are exactly the successes, in attempt order, and each is a completed run |
| Batch.ValuesLines | servicemon/run.py:12-13 | the concatenated values lines exist exactly when every record has a row |
| Batch.Report | servicemon/run.py:7-16 | an empty list prints the sentinel; otherwise the report starts with the first record's header and succeeds exactly when every record has a row |
| Batch.ReportAppend | servicemon/run.py:12-13 | one more record adds its values line to the end of the report, and nothing else |
| Batch.HeaderOnlyFromFirst | servicemon/run.py:11 | a later record can be replaced by any record with the same values line, whatever its columns, without changing the report |
| Batch.PrintStats | servicemon/run.py:7-16 | the loop builds the report text: the sentinel when there are no records, otherwise the first header followed by each values line |
| Batch.RunBatch | servicemon/run.py:32-46 | the whole driver never raises: it keeps the successes of the attempts and prints their report, which is the sentinel exactly when no query completed |

## Left out

- **HTTP, file writing and VOTable parsing.** The HTTP request, chunked file
  writing, VOTable parsing and `os.path.getsize` are external calls. Their
  outcomes are parameters (`Outcomes`), and the size is part of the read's
  result.
- **Libraries.** astropy's `parse_coordinates` and `SkyCoord`, and
  `html.unescape`, are oracles in `Env`. `str` of a float is an oracle too
  (`showReal`).
- **Times are integers.** `time.time()` returns floats; the model uses integer
  readings from an abstract clock. Start and end times render as integers.
- **Printed messages.** These are output only and are not modelled:
  - the message `run.py` writes to stderr for a failed combination
    (`servicemon/run.py:42`);
  - the "ERROR: please give a service_type ..." line that `_build_adql`
    prints to stdout before returning None. The trailing newline `print` adds to the
  report is not modelled either.
- **Registry network calls.** The network part of `Registry.query` and all of
  `query_counts` are left out: retries, timeouts, TAP parameters, the
  verbose prints and the response table. So is the `Registry` singleton.
- **Not part of this model.** `servicemon/cone.py`, `setup.py` and the
  result display helpers.
- **ASCII only.** `Strings.Lower` and `Strings.IsSpace` are ASCII (plus
  Python's extra ASCII-range and Latin-1 space characters). Python's
  `lower` and `strip` are full Unicode.
- **Paths.** `pathlib.Path` normalisation is not modelled. The output file is
  `<dir>/<name>.xml`.
- **Exception messages.** The ValueError message of `_compute_coords` is
  modelled as `Cannot parse input coordinates`, without the trailing
  ` {in_coords}` text (the `str` of the rejected input).
- **Value types.** Service-record values and keyword-argument values are
  strings. The `access_url is None` check cannot fire for them.
- Registry.BuildCountsAdqlShape: it states the prefix, the grouping clause
  and the suffix of the count query rather than its full text; `str` of the
  minimum is `Strings.IntToString`.
