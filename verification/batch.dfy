/** The batch driver and its report: every service is tried against every
    cone, the statistics of the queries that complete are kept in order,
    failures are skipped, and the kept records are rendered as one
    comma-separated table. */
module Batch {
  import opened Wrappers
  import opened Strings
  import opened Stats
  import opened Queries

  /** A search cone: a position and a radius. */
  datatype Cone = Cone(coords: CoordsInput, radius: Value)

  /** A service record as the driver lists it. */
  type ServiceRecord = map<string, string>

  /** The directory every query of the batch writes to. */
  const OutDir := "results"

  /** The report when no query completed. */
  const NoStats := "No stats collected."

  /** One combination: the body of the driver's `try`.  The record lookups,
      the query construction and the run may each raise; the result is the
      completed query's statistics or the exception, and the clock position
      after the attempt. */
  function Attempt(service: ServiceRecord, cone: Cone, env: Env, clock: Clock, tick: nat,
                   out: Outcomes): (r: (Result<QueryStats, Exception>, nat))
    ensures "base_name" !in service ==> r.0 == Failure(KeyError("base_name"))
    ensures "base_name" in service && "service_type" !in service ==> r.0 == Failure(KeyError("service_type"))
    ensures "base_name" in service && "service_type" in service ==>
      var made := NewQuery(service["base_name"], service["service_type"], Record(service),
                           cone.coords, cone.radius, OutDir, env);
      && (made.Failure? ==> r.0 == Failure(made.error))
      && (made.Success? && out.fetch.Some? && out.written && out.read.Some? ==> r.0.Success?)
    ensures r.0.Success? ==>
      && "base_name" in service && "service_type" in service
      && out.fetch.Some? && out.written && out.read.Some?
      && Valid(r.0.value)
      && |r.0.value.intervals| == 2
      && r.0.value.intervals[0].desc == "do_query"
      && r.0.value.intervals[1].desc == "stream_to_file"
      && r.0.value.queryType == "cone"
      && r.0.value.baseName == service["base_name"]
      && Keys(r.0.value.resultMeta) == ["status", "size", "num_rows", "num_columns"]
      && RowValues(r.0.value).Some?
  {
    if "base_name" !in service then (Failure(KeyError("base_name")), tick)
    else if "service_type" !in service then (Failure(KeyError("service_type")), tick)
    else
      match NewQuery(service["base_name"], service["service_type"], Record(service),
                     cone.coords, cone.radius, OutDir, env)
      case Failure(e) => (Failure(e), tick)
      case Success(q) =>
        var step := Run(q, clock, tick, out);
        ColumnsMatchRow(step.stats);
        match step.result
        case Failure(e) => (Failure(e), step.tick)
        case Success(_) => (Success(step.stats), step.tick)
  }

  /** One service paired with one cone. */
  datatype Combo = Combo(service: ServiceRecord, cone: Cone)

  function CombosWith(service: ServiceRecord, cones: seq<Cone>): (r: seq<Combo>)
    ensures |r| == |cones|
    ensures forall j :: 0 <= j < |cones| ==> r[j] == Combo(service, cones[j])
  {
    seq(|cones|, j requires 0 <= j < |cones| => Combo(service, cones[j]))
  }

  /** The combinations in the driver's order: services outer, cones inner. */
  function Combos(services: seq<ServiceRecord>, cones: seq<Cone>): seq<Combo>
  {
    if |services| == 0 then []
    else Combos(services[..|services| - 1], cones) + CombosWith(services[|services| - 1], cones)
  }

  /** There are |services| x |cones| attempts. */
  lemma {:induction false} CombosLength(services: seq<ServiceRecord>, cones: seq<Cone>)
    ensures |Combos(services, cones)| == |services| * |cones|
  {
    if |services| > 0 {
      CombosLength(services[..|services| - 1], cones);
      RowStart(|services| - 1, |cones|);
    }
  }

  /** Attempt i * |cones| + j pairs service i with cone j. */
  lemma {:induction false} CombosAt(services: seq<ServiceRecord>, cones: seq<Cone>, i: nat, j: nat)
    requires i < |services| && j < |cones|
    ensures |Combos(services, cones)| == |services| * |cones|
    ensures Combos(services, cones)[i * |cones| + j] == Combo(services[i], cones[j])
  {
    var n := |services| - 1;
    var m := |cones|;
    var init := services[..n];
    CombosLength(services, cones);
    CombosLength(init, cones);
    RowBefore(i, |services|, j, m);
    var front := Combos(init, cones);
    var back := CombosWith(services[n], cones);
    assert Combos(services, cones) == front + back;
    if i < n {
      RowBefore(i, n, j, m);
      CombosAt(init, cones, i, j);
      assert init[i] == services[i];
    } else {
      assert i * m + j - |front| == j;
    }
  }

  /** Row n of an n-by-m layout starts right after the first n rows. */
  lemma RowStart(n: nat, m: nat)
    ensures (n + 1) * m == n * m + m
  {
  }

  /** A cell of an earlier row comes before row n. */
  lemma RowBefore(i: nat, n: nat, j: nat, m: nat)
    requires i < n && j < m
    ensures i * m + j < n * m
  {
    assert (i + 1) * m <= n * m;
  }

  /** The log of attempt results and the clock position after attempting
      some combinations. */
  datatype Progress = Progress(log: seq<Result<QueryStats, Exception>>, tick: nat)

  /** The attempts, one after the other; attempt k sees the external
      outcomes `world(k)`, and the clock carries over from one to the next. */
  function RunCombos(combos: seq<Combo>, env: Env, clock: Clock, world: nat -> Outcomes): (r: Progress)
    ensures |r.log| == |combos|
  {
    if |combos| == 0 then Progress([], 0)
    else
      var p := RunCombos(combos[..|combos| - 1], env, clock, world);
      var last := combos[|combos| - 1];
      var (res, t) := Attempt(last.service, last.cone, env, clock, p.tick, world(|combos| - 1));
      Progress(p.log + [res], t)
  }

  /** The statistics of the successful attempts, in attempt order. */
  function Successes(log: seq<Result<QueryStats, Exception>>): (r: seq<QueryStats>)
    ensures |r| <= |log|
  {
    if |log| == 0 then []
    else if log[|log| - 1].Success? then Successes(log[..|log| - 1]) + [log[|log| - 1].value]
    else Successes(log[..|log| - 1])
  }

  /** The number of failed attempts in a log. */
  function Failures(log: seq<Result<QueryStats, Exception>>): nat
  {
    if |log| == 0 then 0
    else Failures(log[..|log| - 1]) + (if log[|log| - 1].Failure? then 1 else 0)
  }

  /** Isolation: every attempt that fails costs exactly one row and no
      other, and every kept record is one that some attempt returned. */
  lemma {:induction false} SuccessesCount(log: seq<Result<QueryStats, Exception>>)
    ensures |Successes(log)| == |log| - Failures(log)
    ensures forall s :: s in Successes(log) ==> Success(s) in log
  {
    if |log| > 0 {
      var init := log[..|log| - 1];
      SuccessesCount(init);
      assert log == init + [log[|log| - 1]];
    }
  }

  /** A log whose successes are all completed runs keeps only records with
      the two intervals and a row to render. */
  ghost predicate AllCompleted(stats: seq<QueryStats>)
  {
    forall k :: 0 <= k < |stats| ==>
      Valid(stats[k]) && |stats[k].intervals| == 2 && RowValues(stats[k]).Some?
  }

  /** Every record the attempts keep is a completed run. */
  lemma {:induction false} RunCombosCompleted(combos: seq<Combo>, env: Env, clock: Clock, world: nat -> Outcomes)
    ensures AllCompleted(Successes(RunCombos(combos, env, clock, world).log))
  {
    if |combos| > 0 {
      var init := combos[..|combos| - 1];
      RunCombosCompleted(init, env, clock, world);
      var p := RunCombos(init, env, clock, world);
      var last := combos[|combos| - 1];
      var res := Attempt(last.service, last.cone, env, clock, p.tick, world(|combos| - 1)).0;
      assert RunCombos(combos, env, clock, world).log == p.log + [res];
      assert (p.log + [res])[..|p.log|] == p.log;
    }
  }

  /** Attempting one more combination appends its result to the log. */
  lemma RunCombosStep(done: seq<Combo>, c: Combo, env: Env, clock: Clock, world: nat -> Outcomes)
    ensures var p := RunCombos(done, env, clock, world);
      var (res, t) := Attempt(c.service, c.cone, env, clock, p.tick, world(|done|));
      RunCombos(done + [c], env, clock, world) == Progress(p.log + [res], t)
  {
    assert (done + [c])[..|done|] == done;
  }

  lemma CombosWithSnoc(done: seq<Combo>, service: ServiceRecord, cones: seq<Cone>, j: nat)
    requires j < |cones|
    ensures done + CombosWith(service, cones[..j + 1])
      == (done + CombosWith(service, cones[..j])) + [Combo(service, cones[j])]
  {
    var a := CombosWith(service, cones[..j + 1]);
    var b := CombosWith(service, cones[..j]);
    assert a == b + [Combo(service, cones[j])];
  }

  /** Appending a result to the log appends its statistics when it succeeded. */
  lemma SuccessesStep(log: seq<Result<QueryStats, Exception>>, res: Result<QueryStats, Exception>)
    ensures Successes(log + [res]) == if res.Success? then Successes(log) + [res.value] else Successes(log)
  {
    assert (log + [res])[..|log|] == log;
  }

  /** The inner loop of `do_queries`: one service against every cone. */
  method DoService(done: seq<Combo>, service: ServiceRecord, cones: seq<Cone>, env: Env, clock: Clock,
                   world: nat -> Outcomes, stats0: seq<QueryStats>, log0: seq<Result<QueryStats, Exception>>, tick0: nat)
    returns (stats: seq<QueryStats>, log: seq<Result<QueryStats, Exception>>, tick: nat)
    requires Progress(log0, tick0) == RunCombos(done, env, clock, world)
    requires stats0 == Successes(log0)
    ensures Progress(log, tick) == RunCombos(done + CombosWith(service, cones), env, clock, world)
    ensures stats == Successes(log)
  {
    stats, log, tick := stats0, log0, tick0;
    var j := 0;
    assert done + CombosWith(service, cones[..0]) == done;
    while j < |cones|
      invariant 0 <= j <= |cones|
      invariant Progress(log, tick) == RunCombos(done + CombosWith(service, cones[..j]), env, clock, world)
      invariant stats == Successes(log)
    {
      var prior := done + CombosWith(service, cones[..j]);
      CombosWithSnoc(done, service, cones, j);
      RunCombosStep(prior, Combo(service, cones[j]), env, clock, world);
      var (res, t) := Attempt(service, cones[j], env, clock, tick, world(|log|));
      SuccessesStep(log, res);
      log := log + [res];
      tick := t;
      if res.Success? {
        stats := stats + [res.value];
      }
      j := j + 1;
    }
    assert cones[..|cones|] == cones;
  }

  /** `do_queries`: services outer, cones inner; a failing combination is
      skipped and the loop goes on; the statistics of the completed queries
      are kept in attempt order. */
  method DoQueries(services: seq<ServiceRecord>, cones: seq<Cone>, env: Env, clock: Clock,
                   world: nat -> Outcomes) returns (stats: seq<QueryStats>, log: seq<Result<QueryStats, Exception>>)
    ensures log == RunCombos(Combos(services, cones), env, clock, world).log
    ensures stats == Successes(log)
    ensures AllCompleted(stats)
  {
    stats := [];
    log := [];
    var tick: nat := 0;
    var i := 0;
    while i < |services|
      invariant 0 <= i <= |services|
      invariant Progress(log, tick) == RunCombos(Combos(services[..i], cones), env, clock, world)
      invariant stats == Successes(log)
    {
      assert services[..i + 1][..i] == services[..i];
      stats, log, tick := DoService(Combos(services[..i], cones), services[i], cones, env, clock, world, stats, log, tick);
      i := i + 1;
    }
    assert services[..|services|] == services;
    RunCombosCompleted(Combos(services, cones), env, clock, world);
  }

  /** Batch isolation: one attempt per combination, and the kept records
      number the attempts less the failures, each one returned by an
      attempt. */
  lemma BatchIsolation(services: seq<ServiceRecord>, cones: seq<Cone>, env: Env, clock: Clock,
                       world: nat -> Outcomes)
    ensures var log := RunCombos(Combos(services, cones), env, clock, world).log;
      && |log| == |services| * |cones|
      && |Successes(log)| == |log| - Failures(log)
      && forall s :: s in Successes(log) ==> Success(s) in log
  {
    CombosLength(services, cones);
    SuccessesCount(RunCombos(Combos(services, cones), env, clock, world).log);
  }

  /** The values lines of all records, in order; None as soon as one record
      has no row to render. */
  function ValuesLines(stats: seq<QueryStats>, showReal: real -> string): (r: Option<string>)
    ensures r.Some? <==> forall k :: 0 <= k < |stats| ==> RowValues(stats[k]).Some?
  {
    if |stats| == 0 then Some("")
    else
      match (ValuesLines(stats[..|stats| - 1], showReal), ValuesString(stats[|stats| - 1], showReal))
      case (Some(a), Some(b)) => Some(a + b)
      case _ => None
  }

  /** `print_stats`, as the text it prints: the sentinel for an empty list;
      otherwise the first record's header and then each record's values
      line, in order.  It raises when a record has no row to render. */
  function Report(stats: seq<QueryStats>, showReal: real -> string): (r: Result<string, Exception>)
    ensures |stats| == 0 ==> r == Success(NoStats)
    ensures |stats| > 0 ==> (r.Success? <==> forall k :: 0 <= k < |stats| ==> RowValues(stats[k]).Some?)
    ensures |stats| > 0 && r.Success? ==> HeaderString(stats[0]) <= r.value
  {
    if |stats| == 0 then Success(NoStats)
    else
      match ValuesLines(stats, showReal)
      case Some(lines) => Success(HeaderString(stats[0]) + lines)
      case None => Failure(AttributeError("_start_time"))
  }

  /** Appending a record appends its values line and nothing else. */
  lemma ReportAppend(stats: seq<QueryStats>, s: QueryStats, showReal: real -> string)
    requires |stats| > 0
    requires Report(stats, showReal).Success? && RowValues(s).Some?
    ensures Report(stats + [s], showReal)
      == Success(Report(stats, showReal).value + ValuesString(s, showReal).value)
  {
    var all := stats + [s];
    assert all[..|all| - 1] == stats;
    assert all[0] == stats[0];
    var lines := ValuesLines(stats, showReal).value;
    assert ValuesLines(all, showReal) == Some(lines + ValuesString(s, showReal).value);
    assert Report(stats, showReal).value == HeaderString(stats[0]) + lines;
    Assoc(HeaderString(stats[0]), lines, ValuesString(s, showReal).value);
  }

  /** Only the first record's columns reach the header: a later record can
      be swapped for any other with the same values line. */
  lemma HeaderOnlyFromFirst(stats: seq<QueryStats>, k: nat, other: QueryStats, showReal: real -> string)
    requires 0 < k < |stats|
    requires ValuesString(other, showReal) == ValuesString(stats[k], showReal)
    ensures Report(stats[k := other], showReal) == Report(stats, showReal)
  {
    ValuesLinesPointwise(stats, stats[k := other], showReal);
  }

  lemma {:induction false} ValuesLinesPointwise(a: seq<QueryStats>, b: seq<QueryStats>, showReal: real -> string)
    requires |a| == |b|
    requires forall k :: 0 <= k < |a| ==> ValuesString(a[k], showReal) == ValuesString(b[k], showReal)
    ensures ValuesLines(a, showReal) == ValuesLines(b, showReal)
  {
    if |a| > 0 {
      ValuesLinesPointwise(a[..|a| - 1], b[..|b| - 1], showReal);
    }
  }

  /** `print_stats` as the loop the source runs. */
  method PrintStats(stats: seq<QueryStats>, showReal: real -> string) returns (r: Result<string, Exception>)
    ensures r == Report(stats, showReal)
    ensures |stats| == 0 ==> r == Success(NoStats)
    ensures |stats| > 0 && r.Success? ==> HeaderString(stats[0]) <= r.value
  {
    if |stats| == 0 {
      return Success(NoStats);
    }
    var text := HeaderString(stats[0]);
    var k := 0;
    while k < |stats|
      invariant 0 <= k <= |stats|
      invariant ValuesLines(stats[..k], showReal).Some?
      invariant text == HeaderString(stats[0]) + ValuesLines(stats[..k], showReal).value
    {
      assert stats[..k + 1][..k] == stats[..k];
      match ValuesString(stats[k], showReal)
      case None =>
        return Failure(AttributeError("_start_time"));
      case Some(line) =>
        text := text + line;
      k := k + 1;
    }
    assert stats[..k] == stats;
    return Success(text);
  }

  /** The whole driver: whatever the services, cones and outcomes, the
      report it prints is produced without raising; it is the sentinel
      exactly when no query completed. */
  method RunBatch(services: seq<ServiceRecord>, cones: seq<Cone>, env: Env, clock: Clock,
                  world: nat -> Outcomes) returns (report: string, stats: seq<QueryStats>)
    ensures stats == Successes(RunCombos(Combos(services, cones), env, clock, world).log)
    ensures report == NoStats <==> |stats| == 0
    ensures Report(stats, env.showReal) == Success(report)
  {
    var log;
    stats, log := DoQueries(services, cones, env, clock, world);
    var r := PrintStats(stats, env.showReal);
    report := r.value;
    if |stats| > 0 {
      HeaderNotSentinel(stats[0], report);
    }
  }

  /** A header line is never the sentinel: it ends with a newline. */
  lemma HeaderNotSentinel(s: QueryStats, report: string)
    requires HeaderString(s) <= report
    ensures report != NoStats
  {
    var h := HeaderString(s);
    if report == NoStats {
      assert h[|h| - 1] == NoStats[|h| - 1];
      NoStatsHasNoNewline();
    }
  }

  lemma NoStatsHasNoNewline()
    ensures '\n' !in NoStats
  {
  }
}
