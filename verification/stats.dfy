/** The statistics record of one query: timed intervals, the query's
    identity and parameters, the result metadata, and its rendering as a
    comma-separated header line and values line.  Time is an abstract
    integer clock. */
module Stats {
  import opened Wrappers
  import opened Strings

  /** A value held in a statistics row before `str` renders it: text, an
      integer (clock readings, durations, metadata counts) or a float (the
      coordinates and the radius). */
  datatype Value = Str(s: string) | Int(i: int) | Num(x: real)

  /** Python's `str` of a value; `showReal` stands for float formatting. */
  function Render(v: Value, showReal: real -> string): string
  {
    match v
    case Str(s) => s
    case Int(i) => IntToString(i)
    case Num(x) => showReal(x)
  }

  function RenderAll(vs: seq<Value>, showReal: real -> string): (r: seq<string>)
    ensures |r| == |vs|
    ensures forall i :: 0 <= i < |vs| ==> r[i] == Render(vs[i], showReal)
  {
    if |vs| == 0 then [] else [Render(vs[0], showReal)] + RenderAll(vs[1..], showReal)
  }

  /** One key/value pair of an insertion-ordered Python dict. */
  datatype Entry = Entry(key: string, value: Value)

  /** `list(d.keys())`. */
  function Keys(m: seq<Entry>): (r: seq<string>)
    ensures |r| == |m|
    ensures forall i :: 0 <= i < |m| ==> r[i] == m[i].key
  {
    seq(|m|, i requires 0 <= i < |m| => m[i].key)
  }

  /** `list(d.values())`. */
  function Values(m: seq<Entry>): (r: seq<Value>)
    ensures |r| == |m|
    ensures forall i :: 0 <= i < |m| ==> r[i] == m[i].value
  {
    seq(|m|, i requires 0 <= i < |m| => m[i].value)
  }

  /** One timed phase: a label and its start and end clock readings. */
  datatype Interval = Interval(desc: string, start: int, end: int)

  function Duration(iv: Interval): int
  {
    iv.end - iv.start
  }

  /** A new interval, opened at clock reading `now`: it reads as zero
      duration until it is closed. */
  function OpenInterval(desc: string, now: int): (r: Interval)
    ensures r.desc == desc && r.start == now
    ensures Duration(r) == 0
  {
    Interval(desc, now, now)
  }

  /** Closing sets the end reading and nothing else. */
  function Close(iv: Interval, now: int): (r: Interval)
    ensures r.desc == iv.desc && r.start == iv.start && r.end == now
    ensures Duration(r) == now - iv.start
  {
    iv.(end := now)
  }

  /** The statistics of one query.  `startTime` and `endTime` are None until
      the first interval is added: in the source they are attributes that
      do not exist before then. */
  datatype QueryStats = QueryStats(
    name: string,
    baseName: string,
    queryType: string,
    accessUrl: string,
    params: seq<Entry>,
    intervals: seq<Interval>,
    resultMeta: seq<Entry>,
    startTime: Option<int>,
    endTime: Option<int>)

  /** A fresh record: no intervals, empty metadata, no start or end time. */
  function NewStats(name: string, baseName: string, queryType: string,
                    accessUrl: string, params: seq<Entry>): (r: QueryStats)
    ensures r.name == name && r.baseName == baseName && r.queryType == queryType
    ensures r.accessUrl == accessUrl && r.params == params
    ensures r.intervals == [] && r.resultMeta == []
    ensures r.startTime.None? && r.endTime.None?
    ensures Valid(r)
  {
    QueryStats(name, baseName, queryType, accessUrl, params, [], [], None, None)
  }

  /** The record's invariant: a start and end time exist exactly when some
      interval has been added, and the end time is the last interval's end. */
  predicate Valid(s: QueryStats)
  {
    && (s.startTime.Some? <==> |s.intervals| > 0)
    && (s.endTime.Some? <==> |s.intervals| > 0)
    && (|s.intervals| > 0 ==> s.endTime.value == s.intervals[|s.intervals| - 1].end)
  }

  /** Appends an interval; `now` is the clock reading taken when the first
      interval is added, which becomes the start time. */
  function AddInterval(s: QueryStats, iv: Interval, now: int): (r: QueryStats)
    ensures r.intervals == s.intervals + [iv]
    ensures r.endTime == Some(iv.end)
    ensures |s.intervals| == 0 ==> r.startTime == Some(now)
    ensures |s.intervals| > 0 ==> r.startTime == s.startTime
    ensures Valid(s) ==> Valid(r)
    ensures r == s.(intervals := r.intervals, startTime := r.startTime, endTime := r.endTime)
  {
    var start := if |s.intervals| == 0 then Some(now) else s.startTime;
    s.(intervals := s.intervals + [iv], startTime := start, endTime := Some(iv.end))
  }

  /** One call of `add_interval`: the interval and the clock reading taken
      during the call. */
  datatype Addition = Addition(iv: Interval, now: int)

  function AddAll(s: QueryStats, adds: seq<Addition>): QueryStats
  {
    if |adds| == 0 then s
    else AddInterval(AddAll(s, adds[..|adds| - 1]), adds[|adds| - 1].iv, adds[|adds| - 1].now)
  }

  function IntervalsOf(adds: seq<Addition>): (r: seq<Interval>)
    ensures |r| == |adds|
    ensures forall i :: 0 <= i < |adds| ==> r[i] == adds[i].iv
  {
    if |adds| == 0 then [] else IntervalsOf(adds[..|adds| - 1]) + [adds[|adds| - 1].iv]
  }

  /** A sequence of additions to a fresh record appends exactly the added
      intervals, in order; the start time is the reading taken during the
      first addition and never changes afterwards; the end time is the end
      of the last interval added; nothing else changes. */
  lemma {:induction false} AddAllSummary(s: QueryStats, adds: seq<Addition>)
    requires s.intervals == [] && s.startTime.None? && s.endTime.None?
    requires |adds| > 0
    ensures var r := AddAll(s, adds);
      && r.intervals == IntervalsOf(adds)
      && r.startTime == Some(adds[0].now)
      && r.endTime == Some(adds[|adds| - 1].iv.end)
      && r.name == s.name && r.baseName == s.baseName && r.queryType == s.queryType
      && r.accessUrl == s.accessUrl && r.params == s.params && r.resultMeta == s.resultMeta
  {
    if |adds| > 1 {
      var init := adds[..|adds| - 1];
      AddAllSummary(s, init);
      assert init[0] == adds[0];
    }
  }

  /** Setting the result metadata replaces the whole map and nothing else. */
  function SetResultMeta(s: QueryStats, meta: seq<Entry>): (r: QueryStats)
    ensures r.resultMeta == meta
    ensures r == s.(resultMeta := meta)
  {
    s.(resultMeta := meta)
  }

  /** Column names of the i-th interval. */
  function DescColumn(i: nat): string
  {
    "int" + NatToString(i) + "_desc"
  }

  function DurationColumn(i: nat): string
  {
    "int" + NatToString(i) + "_duration"
  }

  /** Interval columns for the first `n` intervals, two per interval. */
  function IntervalColumns(n: nat): (r: seq<string>)
    ensures |r| == 2 * n
  {
    if n == 0 then [] else IntervalColumns(n - 1) + [DescColumn(n - 1), DurationColumn(n - 1)]
  }

  function IntervalValues(ivs: seq<Interval>): (r: seq<Value>)
    ensures |r| == 2 * |ivs|
  {
    if |ivs| == 0 then []
    else IntervalValues(ivs[..|ivs| - 1]) + [Str(ivs[|ivs| - 1].desc), Int(Duration(ivs[|ivs| - 1]))]
  }

  /** `_columns`. */
  function Columns(s: QueryStats): seq<string>
  {
    ["name", "start_time", "end_time"] + IntervalColumns(|s.intervals|)
      + ["base_name", "query_type"] + Keys(s.params) + ["access_url"] + Keys(s.resultMeta)
  }

  /** `_row_values`; None when no interval was ever added, where the source
      fails reading the start time it never assigned. */
  function RowValues(s: QueryStats): Option<seq<Value>>
  {
    match (s.startTime, s.endTime)
    case (Some(start), Some(end)) =>
      Some([Str(s.name), Int(start), Int(end)] + IntervalValues(s.intervals)
           + [Str(s.baseName), Str(s.queryType)] + Values(s.params) + [Str(s.accessUrl)] + Values(s.resultMeta))
    case _ => None
  }

  /** Reference reading of a record: its named cells, in column order. */
  function IntervalCells(ivs: seq<Interval>): (r: seq<Entry>)
    ensures |r| == 2 * |ivs|
  {
    if |ivs| == 0 then []
    else
      IntervalCells(ivs[..|ivs| - 1])
      + [Entry(DescColumn(|ivs| - 1), Str(ivs[|ivs| - 1].desc)),
         Entry(DurationColumn(|ivs| - 1), Int(Duration(ivs[|ivs| - 1])))]
  }

  function Cells(s: QueryStats, start: int, end: int): seq<Entry>
  {
    [Entry("name", Str(s.name)), Entry("start_time", Int(start)), Entry("end_time", Int(end))]
      + IntervalCells(s.intervals)
      + [Entry("base_name", Str(s.baseName)), Entry("query_type", Str(s.queryType))]
      + s.params
      + [Entry("access_url", Str(s.accessUrl))]
      + s.resultMeta
  }

  lemma KeysConcat(a: seq<Entry>, b: seq<Entry>)
    ensures Keys(a + b) == Keys(a) + Keys(b)
  {
  }

  lemma ValuesConcat(a: seq<Entry>, b: seq<Entry>)
    ensures Values(a + b) == Values(a) + Values(b)
  {
  }

  lemma {:induction false} IntervalCellsKeysValues(ivs: seq<Interval>)
    ensures Keys(IntervalCells(ivs)) == IntervalColumns(|ivs|)
    ensures Values(IntervalCells(ivs)) == IntervalValues(ivs)
  {
    if |ivs| > 0 {
      var init := ivs[..|ivs| - 1];
      var last := [Entry(DescColumn(|ivs| - 1), Str(ivs[|ivs| - 1].desc)),
                   Entry(DurationColumn(|ivs| - 1), Int(Duration(ivs[|ivs| - 1])))];
      IntervalCellsKeysValues(init);
      assert IntervalCells(ivs) == IntervalCells(init) + last;
      KeysConcat(IntervalCells(init), last);
      ValuesConcat(IntervalCells(init), last);
      assert Keys(last) == [DescColumn(|ivs| - 1), DurationColumn(|ivs| - 1)];
      assert Values(last) == [Str(ivs[|ivs| - 1].desc), Int(Duration(ivs[|ivs| - 1]))];
    }
  }

  /** The i-th interval's two cells sit at positions 2i and 2i+1. */
  lemma {:induction false} IntervalCellsAt(ivs: seq<Interval>, i: nat)
    requires i < |ivs|
    ensures IntervalCells(ivs)[2 * i] == Entry(DescColumn(i), Str(ivs[i].desc))
    ensures IntervalCells(ivs)[2 * i + 1] == Entry(DurationColumn(i), Int(Duration(ivs[i])))
  {
    if i < |ivs| - 1 {
      IntervalCellsAt(ivs[..|ivs| - 1], i);
    }
  }

  /** Columns and row values correspond one to one: both are read off the
      same list of named cells, so they have equal length and the k-th value
      belongs to the k-th column.  The row exists exactly when some interval
      has been added. */
  lemma ColumnsMatchRow(s: QueryStats)
    requires Valid(s)
    ensures RowValues(s).Some? <==> |s.intervals| > 0
    ensures |s.intervals| > 0 ==>
      var cells := Cells(s, s.startTime.value, s.endTime.value);
      && Columns(s) == Keys(cells)
      && RowValues(s).value == Values(cells)
      && |Columns(s)| == |RowValues(s).value|
  {
    if |s.intervals| > 0 {
      var start := s.startTime.value;
      var end := s.endTime.value;
      var head := [Entry("name", Str(s.name)), Entry("start_time", Int(start)), Entry("end_time", Int(end))];
      var mid := [Entry("base_name", Str(s.baseName)), Entry("query_type", Str(s.queryType))];
      var url := [Entry("access_url", Str(s.accessUrl))];
      IntervalCellsKeysValues(s.intervals);
      var ic := IntervalCells(s.intervals);
      var cells := head + ic + mid + s.params + url + s.resultMeta;
      assert Keys(cells) == Columns(s) by {
        assert Keys(head) == ["name", "start_time", "end_time"];
        assert Keys(mid) == ["base_name", "query_type"];
        assert Keys(url) == ["access_url"];
        KeysConcat(head, ic);
        KeysConcat(head + ic, mid);
        KeysConcat(head + ic + mid, s.params);
        KeysConcat(head + ic + mid + s.params, url);
        KeysConcat(head + ic + mid + s.params + url, s.resultMeta);
      }
      assert Some(Values(cells)) == RowValues(s) by {
        assert Values(head) == [Str(s.name), Int(start), Int(end)];
        assert Values(mid) == [Str(s.baseName), Str(s.queryType)];
        assert Values(url) == [Str(s.accessUrl)];
        ValuesConcat(head, ic);
        ValuesConcat(head + ic, mid);
        ValuesConcat(head + ic + mid, s.params);
        ValuesConcat(head + ic + mid + s.params, url);
        ValuesConcat(head + ic + mid + s.params + url, s.resultMeta);
      }
    }
  }

  /** The layout of the cells: three fixed cells, two per interval in
      interval order named `int<i>_desc` and `int<i>_duration`, then
      base_name, query_type, one per parameter, access_url and one per
      metadata entry. */
  lemma CellsLayout(s: QueryStats, start: int, end: int)
    ensures var cells := Cells(s, start, end);
      var n := |s.intervals|;
      var k := 3 + 2 * n;
      && |cells| == 6 + 2 * n + |s.params| + |s.resultMeta|
      && cells[0] == Entry("name", Str(s.name))
      && cells[1] == Entry("start_time", Int(start))
      && cells[2] == Entry("end_time", Int(end))
      && (forall i :: 0 <= i < n ==>
            cells[3 + 2 * i] == Entry(DescColumn(i), Str(s.intervals[i].desc))
            && cells[4 + 2 * i] == Entry(DurationColumn(i), Int(Duration(s.intervals[i]))))
      && cells[k] == Entry("base_name", Str(s.baseName))
      && cells[k + 1] == Entry("query_type", Str(s.queryType))
      && cells[k + 2 .. k + 2 + |s.params|] == s.params
      && cells[k + 2 + |s.params|] == Entry("access_url", Str(s.accessUrl))
      && cells[k + 3 + |s.params|..] == s.resultMeta
  {
    var cells := Cells(s, start, end);
    var n := |s.intervals|;
    forall i | 0 <= i < n
      ensures cells[3 + 2 * i] == Entry(DescColumn(i), Str(s.intervals[i].desc))
      ensures cells[4 + 2 * i] == Entry(DurationColumn(i), Int(Duration(s.intervals[i])))
    {
      IntervalCellsAt(s.intervals, i);
    }
  }

  /** `header_string`: the column names joined by commas, newline-terminated. */
  function HeaderString(s: QueryStats): (r: string)
    ensures |r| > 0 && r[|r| - 1] == '\n'
  {
    Join(Columns(s), ",") + "\n"
  }

  /** `values_string`: the rendered row values joined by commas,
      newline-terminated; None when the row cannot be read. */
  function ValuesString(s: QueryStats, showReal: real -> string): (r: Option<string>)
    ensures r.Some? <==> RowValues(s).Some?
    ensures r.Some? ==> |r.value| > 0 && r.value[|r.value| - 1] == '\n'
  {
    match RowValues(s)
    case None => None
    case Some(vals) => Some(Join(RenderAll(vals, showReal), ",") + "\n")
  }

  /** The header line, split at its commas, gives back the column names when
      no parameter or metadata key holds a comma. */
  lemma HeaderSplitsIntoColumns(s: QueryStats)
    requires FreeOf(Keys(s.params), ',') && FreeOf(Keys(s.resultMeta), ',')
    ensures var h := HeaderString(s);
      Split(h[..|h| - 1], ',') == Columns(s)
  {
    var h := HeaderString(s);
    assert h[..|h| - 1] == Join(Columns(s), ",");
    ColumnsFreeOfComma(s);
    SplitJoin(Columns(s), ',');
  }

  /** The values line splits into exactly as many fields as there are
      columns, field k being the rendering of value k, whenever no rendered
      value holds a comma. */
  lemma ValuesSplitIntoFields(s: QueryStats, showReal: real -> string)
    requires Valid(s) && |s.intervals| > 0
    requires FreeOf(RenderAll(RowValues(s).value, showReal), ',')
    ensures var v := ValuesString(s, showReal).value;
      var fields := Split(v[..|v| - 1], ',');
      && |fields| == |Columns(s)|
      && fields == RenderAll(RowValues(s).value, showReal)
  {
    var rendered := RenderAll(RowValues(s).value, showReal);
    var v := ValuesString(s, showReal).value;
    assert v[..|v| - 1] == Join(rendered, ",");
    ColumnsMatchRow(s);
    SplitJoin(rendered, ',');
  }

  lemma NatToStringFreeOfComma(n: nat)
    ensures ',' !in NatToString(n)
  {
    var d := NatToString(n);
    assert forall i :: 0 <= i < |d| ==> d[i] != ',';
  }

  lemma {:induction false} IntervalColumnsFreeOfComma(n: nat)
    ensures FreeOf(IntervalColumns(n), ',')
  {
    if n > 0 {
      IntervalColumnsFreeOfComma(n - 1);
      NatToStringFreeOfComma(n - 1);
      assert ',' !in DescColumn(n - 1);
      assert ',' !in DurationColumn(n - 1);
    }
  }

  lemma FreeOfConcat(a: seq<string>, b: seq<string>, c: char)
    requires FreeOf(a, c) && FreeOf(b, c)
    ensures FreeOf(a + b, c)
  {
  }

  /** No fixed or interval column name holds a comma. */
  lemma ColumnsFreeOfComma(s: QueryStats)
    requires FreeOf(Keys(s.params), ',') && FreeOf(Keys(s.resultMeta), ',')
    ensures FreeOf(Columns(s), ',')
  {
    IntervalColumnsFreeOfComma(|s.intervals|);
    var a := ["name", "start_time", "end_time"];
    var b := ["base_name", "query_type"];
    var u := ["access_url"];
    FreeOfConcat(a, IntervalColumns(|s.intervals|), ',');
    FreeOfConcat(a + IntervalColumns(|s.intervals|), b, ',');
    FreeOfConcat(a + IntervalColumns(|s.intervals|) + b, Keys(s.params), ',');
    FreeOfConcat(a + IntervalColumns(|s.intervals|) + b + Keys(s.params), u, ',');
    FreeOfConcat(a + IntervalColumns(|s.intervals|) + b + Keys(s.params) + u, Keys(s.resultMeta), ',');
  }
}
