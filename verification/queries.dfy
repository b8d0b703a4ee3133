/** One cone query: its identity (access URL, coordinates, parameters,
    name and output file), the timing wrapper, and the run that fetches,
    streams and inspects the result.  The coordinate parser, HTML
    unescaping, float formatting, the clock and the outcomes of the HTTP
    fetch, the file write and the table read are parameters. */
module Queries {
  import opened Wrappers
  import opened Strings
  import opened Stats

  /** A service descriptor: a bare access URL, or a service record. */
  datatype Service = UrlString(url: string) | Record(fields: map<string, string>)

  /** A resolved sky position, in degrees. */
  datatype SkyCoord = SkyCoord(raDeg: real, decDeg: real)

  /** The accepted shapes of a position: a tuple or list of items, a
      string, an already resolved coordinate, or anything else. */
  datatype CoordsInput = Items(items: seq<Value>) | Text(s: string) | Sky(c: SkyCoord) | Unsupported

  /** The library functions a query calls: `html.unescape`, the coordinate
      parser (None when it raises) and `str` of a float. */
  datatype Env = Env(
    unescape: string -> string,
    parseCoords: string -> Option<SkyCoord>,
    showReal: real -> string)

  /** `_compute_access_url`: a string service is the URL itself; a record
      yields its unescaped `access_url` entry and raises KeyError without one. */
  function AccessUrl(service: Service, env: Env): (r: Result<string, Exception>)
    ensures service.UrlString? ==> r == Success(service.url)
    ensures service.Record? && "access_url" in service.fields ==>
      r == Success(env.unescape(service.fields["access_url"]))
    ensures service.Record? && "access_url" !in service.fields ==> r == Failure(KeyError("access_url"))
  {
    match service
    case UrlString(u) => Success(u)
    case Record(f) =>
      if "access_url" in f then Success(env.unescape(f["access_url"])) else Failure(KeyError("access_url"))
  }

  /** A record's URL depends on its "access_url" entry alone: setting any
      other field leaves the URL, or the KeyError, unchanged. */
  lemma AccessUrlOtherFieldsIgnored(f: map<string, string>, k: string, v: string, env: Env)
    requires k != "access_url"
    ensures AccessUrl(Record(f[k := v]), env) == AccessUrl(Record(f), env)
  {
  }

  const CannotParse := "Cannot parse input coordinates"

  function Parse(text: string, env: Env): Result<SkyCoord, Exception>
  {
    match env.parseCoords(text)
    case Some(c) => Success(c)
    case None => Failure(CoordinateError)
  }

  /** `_compute_coords`: a pair is parsed as "<a> <b>", a string as given,
      a resolved coordinate passes through, and everything else, including
      tuples of any other length, is refused with ValueError. */
  function ComputeCoords(input: CoordsInput, env: Env): (r: Result<SkyCoord, Exception>)
    ensures input.Items? && |input.items| == 2 ==>
      r == Parse(Render(input.items[0], env.showReal) + " " + Render(input.items[1], env.showReal), env)
    ensures input.Items? && |input.items| != 2 ==> r == Failure(ValueError(CannotParse))
    ensures input.Text? ==> r == Parse(input.s, env)
    ensures input.Sky? ==> r == Success(input.c)
    ensures input.Unsupported? ==> r == Failure(ValueError(CannotParse))
  {
    match input
    case Items(items) =>
      if |items| == 2 then Parse(Render(items[0], env.showReal) + " " + Render(items[1], env.showReal), env)
      else Failure(ValueError(CannotParse))
    case Text(s) => Parse(s, env)
    case Sky(c) => Success(c)
    case Unsupported => Failure(ValueError(CannotParse))
  }

  /** A pair resolves exactly as the text "<a> <b>" of its two items does. */
  lemma PairResolvesAsText(a: Value, b: Value, env: Env)
    ensures ComputeCoords(Items([a, b]), env)
         == ComputeCoords(Text(Render(a, env.showReal) + " " + Render(b, env.showReal)), env)
  {
  }

  /** `_compute_query_params`: exactly RA, DEC and SR, in that order; SR is
      the caller's radius, neither converted nor checked. */
  function QueryParams(c: SkyCoord, radius: Value): (r: seq<Entry>)
    ensures Keys(r) == ["RA", "DEC", "SR"]
    ensures Values(r) == [Num(c.raDeg), Num(c.decDeg), radius]
  {
    [Entry("RA", Num(c.raDeg)), Entry("DEC", Num(c.decDeg)), Entry("SR", radius)]
  }

  /** `_compute_query_name`: base name, query type, RA, DEC and SR, each
      rendered with `str`, joined by underscores. */
  function QueryName(baseName: string, queryType: string, c: SkyCoord, radius: Value, env: Env): string
  {
    baseName + "_" + queryType + "_" + env.showReal(c.raDeg) + "_" + env.showReal(c.decDeg)
      + "_" + Render(radius, env.showReal)
  }

  /** The five parts of a query name, in order. */
  function NameParts(baseName: string, queryType: string, c: SkyCoord, radius: Value, env: Env): seq<string>
  {
    [baseName, queryType, env.showReal(c.raDeg), env.showReal(c.decDeg), Render(radius, env.showReal)]
  }

  /** The name is its five parts joined by "_"; when no part holds an
      underscore, splitting the name at its underscores gives the parts back,
      so such names identify their query. */
  lemma QueryNameParts(baseName: string, queryType: string, c: SkyCoord, radius: Value, env: Env)
    ensures QueryName(baseName, queryType, c, radius, env) == Join(NameParts(baseName, queryType, c, radius, env), "_")
    ensures FreeOf(NameParts(baseName, queryType, c, radius, env), '_') ==>
      Split(QueryName(baseName, queryType, c, radius, env), '_') == NameParts(baseName, queryType, c, radius, env)
  {
    var ps := NameParts(baseName, queryType, c, radius, env);
    var n := QueryName(baseName, queryType, c, radius, env);
    var ra := env.showReal(c.raDeg);
    var dec := env.showReal(c.decDeg);
    var sr := Render(radius, env.showReal);
    assert Join(ps[4..], "_") == sr;
    assert Join(ps[3..], "_") == dec + "_" + sr by {
      assert ps[3..][1..] == ps[4..];
    }
    assert Join(ps[2..], "_") == ra + "_" + (dec + "_" + sr) by {
      assert ps[2..][1..] == ps[3..];
    }
    assert Join(ps[1..], "_") == queryType + "_" + (ra + "_" + (dec + "_" + sr)) by {
      assert ps[1..][1..] == ps[2..];
    }
    assert Join(ps, "_") == baseName + "_" + (queryType + "_" + (ra + "_" + (dec + "_" + sr)));
    if FreeOf(ps, '_') {
      SplitJoin(ps, '_');
    }
  }

  /** Without that condition names collide: base name "a_b" with query type
      "c" names the same file as base name "a" with query type "b_c". */
  lemma QueryNameCollision(c: SkyCoord, radius: Value, env: Env)
    ensures QueryName("a_b", "c", c, radius, env) == QueryName("a", "b_c", c, radius, env)
  {
  }

  /** An output file: the directory and the file name joined by `/`. */
  datatype Path = Path(dir: string, file: string)

  /** The state of one query object. */
  datatype Query = Query(
    baseName: string,
    queryType: string,
    accessUrl: string,
    coords: SkyCoord,
    radius: Value,
    params: seq<Entry>,
    name: string,
    filename: Path,
    stats: QueryStats)

  /** `Query.__init__`: the access URL is computed first, then the
      coordinates; the first failure is raised.  The output file is
      `<out_dir>/<name>.xml`, and the fresh statistics record always says
      query type "cone", whatever query type was passed. */
  function NewQuery(baseName: string, queryType: string, service: Service, coords: CoordsInput,
                    radius: Value, outDir: string, env: Env): (r: Result<Query, Exception>)
    ensures AccessUrl(service, env).Failure? ==> r == Failure(AccessUrl(service, env).error)
    ensures AccessUrl(service, env).Success? && ComputeCoords(coords, env).Failure? ==>
      r == Failure(ComputeCoords(coords, env).error)
    ensures r.Success? <==> AccessUrl(service, env).Success? && ComputeCoords(coords, env).Success?
    ensures r.Success? ==>
      var q := r.value;
      var c := ComputeCoords(coords, env).value;
      && q.accessUrl == AccessUrl(service, env).value
      && q.coords == c
      && q.params == QueryParams(c, radius)
      && q.name == QueryName(baseName, queryType, c, radius, env)
      && q.filename == Path(outDir, q.name + ".xml")
      && q.stats == NewStats(q.name, baseName, "cone", q.accessUrl, q.params)
  {
    match AccessUrl(service, env)
    case Failure(e) => Failure(e)
    case Success(url) =>
      match ComputeCoords(coords, env)
      case Failure(e) => Failure(e)
      case Success(c) =>
        var params := QueryParams(c, radius);
        var name := QueryName(baseName, queryType, c, radius, env);
        Success(Query(baseName, queryType, url, c, radius, params, name,
                      Path(outDir, name + ".xml"), NewStats(name, baseName, "cone", url, params)))
  }

  /** The clock: the value of the k-th reading of `time.time()`. */
  type Clock = nat -> int

  /** A clock that never runs backwards. */
  ghost predicate Monotone(clock: Clock)
  {
    forall i, j :: 0 <= i <= j ==> clock(i) <= clock(j)
  }

  /** Stats, next clock reading index, and outcome after one step. */
  datatype Step<T> = Step(stats: QueryStats, tick: nat, result: Result<T, Exception>)

  /** The `time_this` wrapper: an interval is opened (one clock reading),
      the wrapped call runs with `outcome`, and only if it returns normally
      is the interval closed (a second reading) and added to the stats
      (a third reading when it is the first interval). */
  function Timed<T>(stats: QueryStats, desc: string, clock: Clock, tick: nat,
                    outcome: Result<T, Exception>): (r: Step<T>)
    ensures r.result == outcome
    ensures r.tick > tick
    ensures outcome.Failure? ==> r.stats == stats
    ensures outcome.Failure? ==> r.tick == tick + 1
    ensures outcome.Success? ==>
      && r.stats.intervals == stats.intervals + [Interval(desc, clock(tick), clock(tick + 1))]
      && r.stats.endTime == Some(clock(tick + 1))
      && r.stats.resultMeta == stats.resultMeta
      && r.stats.params == stats.params
      && r.stats.name == stats.name
    ensures outcome.Success? && |stats.intervals| == 0 ==>
      r.stats.startTime == Some(clock(tick + 2)) && r.tick == tick + 3
    ensures outcome.Success? && |stats.intervals| > 0 ==>
      r.stats.startTime == stats.startTime && r.tick == tick + 2
    ensures Valid(stats) ==> Valid(r.stats)
    ensures Monotone(clock) && outcome.Success? ==> Duration(r.stats.intervals[|stats.intervals|]) >= 0
  {
    var iv := OpenInterval(desc, clock(tick));
    match outcome
    case Failure(e) => Step(stats, tick + 1, Failure(e))
    case Success(v) =>
      var closed := Close(iv, clock(tick + 1));
      if |stats.intervals| == 0 then Step(AddInterval(stats, closed, clock(tick + 2)), tick + 3, Success(v))
      else Step(AddInterval(stats, closed, clock(tick + 2)), tick + 2, Success(v))
  }

  /** The HTTP response as far as the query looks at it. */
  datatype Response = Response(statusCode: int)

  /** What reading the stored file back yields: its byte size and the
      table's row and column counts. */
  datatype TableShape = TableShape(size: int, rows: int, columns: int)

  /** The outcomes of one query's external calls: the fetch (None when it
      raises), whether every chunk was written, and the table read (None
      when the file is not a readable table). */
  datatype Outcomes = Outcomes(fetch: Option<Response>, written: bool, read: Option<TableShape>)

  /** The metadata map of `gather_response_metadata`: status, then size,
      rows and columns, each -1 unless the table was read. */
  function ResultMetadata(status: int, read: Option<TableShape>): (r: seq<Entry>)
    ensures Keys(r) == ["status", "size", "num_rows", "num_columns"]
    ensures r[0].value == Int(status)
    ensures read.None? ==> r[1].value == Int(-1) && r[2].value == Int(-1) && r[3].value == Int(-1)
    ensures read.Some? ==>
      r[1].value == Int(read.value.size) && r[2].value == Int(read.value.rows)
      && r[3].value == Int(read.value.columns)
  {
    var shape := match read case Some(t) => t case None => TableShape(-1, -1, -1);
    [Entry("status", Int(status)), Entry("size", Int(shape.size)),
     Entry("num_rows", Int(shape.rows)), Entry("num_columns", Int(shape.columns))]
  }

  /** `gather_response_metadata`: the metadata is stored whatever the read
      gives; a failed read then reaches the except branch, whose
      `print(value=...)` call itself raises TypeError, which escapes. */
  function GatherMetadata(stats: QueryStats, resp: Response, read: Option<TableShape>): (r: (QueryStats, Result<(), Exception>))
    ensures r.0 == SetResultMeta(stats, ResultMetadata(resp.statusCode, read))
    ensures r.1.Success? <==> read.Some?
    ensures read.None? ==> r.1 == Failure(PrintTypeError)
  {
    var s := SetResultMeta(stats, ResultMetadata(resp.statusCode, read));
    if read.Some? then (s, Success(())) else (s, Failure(PrintTypeError))
  }

  /** `Query.run`: `do_query`, then `stream_to_file`, then
      `gather_response_metadata`; only the first two are timed, and the
      first exception stops the run and is raised.  A failed fetch records
      nothing and raises TransportError; a failed write records the fetch
      interval only and raises StorageError; once both succeed the two
      intervals "do_query" and "stream_to_file" are recorded in that order
      and the metadata is stored, with -1 counts and a TypeError raised when
      the table cannot be read.  The run succeeds exactly when all three
      external calls do. */
  function Run(q: Query, clock: Clock, tick: nat, out: Outcomes): (r: Step<()>)
    ensures r.result.Success? <==> out.fetch.Some? && out.written && out.read.Some?
    ensures out.fetch.None? ==> r.result == Failure(TransportError) && r.stats == q.stats
    ensures out.fetch.Some? && !out.written ==>
      && r.result == Failure(StorageError)
      && r.stats.intervals == q.stats.intervals + [Interval("do_query", clock(tick), clock(tick + 1))]
      && r.stats.resultMeta == q.stats.resultMeta
    ensures out.fetch.Some? && out.written ==>
      && |r.stats.intervals| == |q.stats.intervals| + 2
      && r.stats.intervals[..|q.stats.intervals|] == q.stats.intervals
      && r.stats.intervals[|q.stats.intervals|].desc == "do_query"
      && r.stats.intervals[|q.stats.intervals| + 1].desc == "stream_to_file"
      && r.stats.resultMeta == ResultMetadata(out.fetch.value.statusCode, out.read)
      && (out.read.None? ==> r.result == Failure(PrintTypeError))
    ensures r.stats.name == q.stats.name && r.stats.params == q.stats.params
    ensures Valid(q.stats) ==> Valid(r.stats)
    ensures Monotone(clock) && q.stats.intervals == [] && Valid(q.stats) && out.fetch.Some? && out.written ==>
      && RowValues(r.stats).Some?
      && Duration(r.stats.intervals[0]) >= 0 && Duration(r.stats.intervals[1]) >= 0
      && r.stats.intervals[0].end <= r.stats.startTime.value <= r.stats.endTime.value
  {
    var fetch := match out.fetch case Some(resp) => Success(resp) case None => Failure(TransportError);
    var fetched := Timed(q.stats, "do_query", clock, tick, fetch);
    match fetched.result
    case Failure(e) => Step(fetched.stats, fetched.tick, Failure(e))
    case Success(resp) =>
      var write := if out.written then Success(()) else Failure(StorageError);
      var streamed := Timed(fetched.stats, "stream_to_file", clock, fetched.tick, write);
      match streamed.result
      case Failure(e) => Step(streamed.stats, streamed.tick, Failure(e))
      case Success(_) =>
        var (s, res) := GatherMetadata(streamed.stats, resp, out.read);
        Step(s, streamed.tick, res)
  }
}
