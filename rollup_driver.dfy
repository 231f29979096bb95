/** Running the rollup: evaluating each step's union against the shard
    tables, writing the artifact row by row, `put_daily`'s fixed order of
    steps, and the command-line range driver of
    reports/stability-summary/rollup.py. The database and S3 are recorded,
    not contacted: the shard tables are a value, and every upload and every
    `summarize(date)` call is appended to an event log. */
module RollupDriver {
  import opened Wrappers
  import opened Dates
  import opened DateWindow
  import opened RollupSemantics
  import opened RollupQueries

  /** The shard tables the database holds, by table name. */
  datatype Warehouse = Warehouse(mainShards: map<string, seq<MainRow>>, crashShards: map<string, seq<CrashRow>>)

  /** Why `cur.execute` raises: a union of no sub-selects is not valid
      SQL, and a sub-select may name a table that does not exist. */
  datatype QueryError = EmptyUnion | MissingTable(name: string)

  datatype Fetched<R> = Rows(rows: seq<R>) | Failure(error: QueryError)

  /** The rows of one table that pass a sub-select's `WHERE`. */
  function Keep<R>(rows: seq<R>, f: RowFilter, dateOf: R -> Date): (r: seq<R>)
    ensures forall i :: 0 <= i < |r| ==> r[i] in rows && Passes(f, dateOf(r[i]))
    ensures forall i :: 0 <= i < |rows| && Passes(f, dateOf(rows[i])) ==> rows[i] in r
  {
    if rows == [] then []
    else (if Passes(f, dateOf(rows[0])) then [rows[0]] else []) + Keep(rows[1..], f, dateOf)
  }

  /** The filter keeps every passing row as often as the table holds it,
      and no other row. */
  lemma {:induction false} KeepCopies<R>(rows: seq<R>, f: RowFilter, dateOf: R -> Date, x: R)
    ensures multiset(Keep(rows, f, dateOf))[x] == if Passes(f, dateOf(x)) then multiset(rows)[x] else 0
    decreases |rows|
  {
    if rows != [] {
      KeepCopies(rows[1..], f, dateOf, x);
      var head := if Passes(f, dateOf(rows[0])) then [rows[0]] else [];
      KeepFirst(rows, f, dateOf);
      CopiesAppend(head, Keep(rows[1..], f, dateOf), x);
      CopiesAppend([rows[0]], rows[1..], x);
    }
  }

  lemma KeepFirst<R>(rows: seq<R>, f: RowFilter, dateOf: R -> Date)
    requires rows != []
    ensures Keep(rows, f, dateOf) ==
            (if Passes(f, dateOf(rows[0])) then [rows[0]] else []) + Keep(rows[1..], f, dateOf)
    ensures rows == [rows[0]] + rows[1..]
  {
  }

  lemma CopiesAppend<R>(a: seq<R>, b: seq<R>, x: R)
    ensures multiset(a + b)[x] == multiset(a)[x] + multiset(b)[x]
  {
    assert multiset(a + b) == multiset(a) + multiset(b);
  }

  /** `UNION ALL` of the sub-selects, in order; the first sub-select whose
      table is missing fails the whole query. */
  function Union<R>(shards: map<string, seq<R>>, plan: seq<SubSelect>, dateOf: R -> Date): Fetched<R> {
    if plan == [] then Rows([])
    else if plan[0].table !in shards then Failure(MissingTable(plan[0].table))
    else
      match Union(shards, plan[1..], dateOf)
      case Failure(e) => Failure(e)
      case Rows(rest) => Rows(Keep(shards[plan[0].table], plan[0].filter, dateOf) + rest)
  }

  /** The union fails exactly when some sub-select names a missing table,
      and then it reports the first such table. */
  lemma {:induction false} UnionFailure<R>(shards: map<string, seq<R>>, plan: seq<SubSelect>, dateOf: R -> Date)
    ensures Union(shards, plan, dateOf).Failure? <==>
            exists i :: 0 <= i < |plan| && plan[i].table !in shards
    ensures Union(shards, plan, dateOf).Failure? ==>
            exists i :: 0 <= i < |plan| && plan[i].table !in shards
                && Union(shards, plan, dateOf).error == MissingTable(plan[i].table)
                && forall j :: 0 <= j < i ==> plan[j].table in shards
  {
    if plan != [] {
      UnionFailure(shards, plan[1..], dateOf);
      var u := Union(shards, plan, dateOf);
      if plan[0].table !in shards {
        assert u.error == MissingTable(plan[0].table);
      } else if u.Failure? {
        var i :| 0 <= i < |plan[1..]| && plan[1..][i].table !in shards
                && Union(shards, plan[1..], dateOf).error == MissingTable(plan[1..][i].table)
                && forall j :: 0 <= j < i ==> plan[1..][j].table in shards;
        assert plan[i + 1] == plan[1..][i];
        forall j | 0 <= j < i + 1 ensures plan[j].table in shards {
          if j > 0 {
            assert plan[j] == plan[1..][j - 1];
          }
        }
      } else {
        forall i | 0 <= i < |plan| ensures plan[i].table in shards {
          if i > 0 {
            assert plan[i] == plan[1..][i - 1];
          }
        }
      }
    }
  }

  /** A union that answers holds exactly the rows of the named tables that
      pass their filters. */
  lemma {:induction false} UnionRows<R>(shards: map<string, seq<R>>, plan: seq<SubSelect>, dateOf: R -> Date)
    requires Union(shards, plan, dateOf).Rows?
    ensures forall x :: x in Union(shards, plan, dateOf).rows <==>
              exists i :: 0 <= i < |plan| && plan[i].table in shards && x in shards[plan[i].table]
                && Passes(plan[i].filter, dateOf(x))
  {
    if plan != [] {
      UnionRows(shards, plan[1..], dateOf);
      var u := Union(shards, plan, dateOf);
      forall x ensures x in u.rows <==>
        exists i :: 0 <= i < |plan| && plan[i].table in shards && x in shards[plan[i].table]
          && Passes(plan[i].filter, dateOf(x))
      {
        if exists i :: 0 <= i < |plan| && plan[i].table in shards && x in shards[plan[i].table]
             && Passes(plan[i].filter, dateOf(x)) {
          var i :| 0 <= i < |plan| && plan[i].table in shards && x in shards[plan[i].table]
            && Passes(plan[i].filter, dateOf(x));
          if i > 0 {
            assert plan[i] == plan[1..][i - 1];
          }
        }
        if x in Union(shards, plan[1..], dateOf).rows {
          var i :| 0 <= i < |plan[1..]| && plan[1..][i].table in shards && x in shards[plan[1..][i].table]
            && Passes(plan[1..][i].filter, dateOf(x));
          assert plan[i + 1] == plan[1..][i];
        }
      }
    }
  }

  /** How many copies of `x` the sub-selects of `plan` contribute, table
      by table: all of the table's copies when `x` passes that
      sub-select's filter, none otherwise. */
  function Copies<R(==)>(shards: map<string, seq<R>>, plan: seq<SubSelect>, dateOf: R -> Date, x: R): nat
    decreases |plan|
  {
    if plan == [] then 0
    else
      (if plan[0].table in shards && Passes(plan[0].filter, dateOf(x))
       then multiset(shards[plan[0].table])[x] else 0)
      + Copies(shards, plan[1..], dateOf, x)
  }

  /** `UNION ALL` keeps multiplicity: a union that answers holds each row
      exactly as many times as the sub-selects together contribute it, so
      no row is lost and none is counted twice. */
  lemma {:induction false} UnionCopies<R>(shards: map<string, seq<R>>, plan: seq<SubSelect>, dateOf: R -> Date)
    requires Union(shards, plan, dateOf).Rows?
    ensures forall x :: multiset(Union(shards, plan, dateOf).rows)[x] == Copies(shards, plan, dateOf, x)
    decreases |plan|
  {
    if plan != [] {
      UnionCopies(shards, plan[1..], dateOf);
      var kept := Keep(shards[plan[0].table], plan[0].filter, dateOf);
      var rest := Union(shards, plan[1..], dateOf).rows;
      assert Union(shards, plan, dateOf).rows == kept + rest;
      assert multiset(kept + rest) == multiset(kept) + multiset(rest);
      forall x ensures multiset(Union(shards, plan, dateOf).rows)[x] == Copies(shards, plan, dateOf, x) {
        KeepCopies(shards[plan[0].table], plan[0].filter, dateOf, x);
      }
    }
  }

  function MainDate(r: MainRow): Date { r.subsessiondate }

  function CrashDate(r: CrashRow): Date { r.crashdate }

  /** What `cur` yields after `cur.execute` of a step: its rows, or the
      error the query raises. */
  datatype Answer = Answer(rows: seq<seq<Cell>>) | QueryFailed(error: QueryError)

  function CountsRows(gs: seq<CountsGroup>): seq<seq<Cell>> {
    seq(|gs|, i requires 0 <= i < |gs| => CountsRow(gs[i]))
  }

  function CrashesRows(gs: seq<CrashGroup>): seq<seq<Cell>> {
    seq(|gs|, i requires 0 <= i < |gs| => CrashesRow(gs[i]))
  }

  function ActivesRows(gs: seq<ActivesGroup>): seq<seq<Cell>> {
    seq(|gs|, i requires 0 <= i < |gs| => ActivesRow(gs[i]))
  }

  /** Executing a step's query for target `day`. */
  function RunStep(db: Warehouse, shape: Shape, day: Date, cutoff: Date): Answer {
    var plan := UnionPlan(shape, day, cutoff);
    if plan == [] then QueryFailed(EmptyUnion)
    else if shape == Crashes then
      match Union(db.crashShards, plan, CrashDate)
      case Failure(e) => QueryFailed(e)
      case Rows(rs) => Answer(CrashesRows(CrashesRollup(rs)))
    else
      match Union(db.mainShards, plan, MainDate)
      case Failure(e) => QueryFailed(e)
      case Rows(rs) => Answer(if shape == Counts then CountsRows(CountsRollup(rs)) else ActivesRows(ActivesRollup(rs)))
  }

  /** The header row each artifact starts with, as the program writes it:
      for Actives, the 14 names of lines 241-255, `buildid` included. */
  function Header(shape: Shape): seq<string> {
    match shape
    case Counts => CountsHeader
    case Actives(_) => ActivesHeaderAsWritten
    case Crashes => CrashesHeader
  }

  function HeaderCells(h: seq<string>): seq<Cell> {
    seq(|h|, i requires 0 <= i < |h| => Text(h[i]))
  }

  lemma CountsRowsWidth(gs: seq<CountsGroup>)
    ensures forall r :: r in CountsRows(gs) ==> |r| == |CountsHeader|
  {
    forall r | r in CountsRows(gs) ensures |r| == |CountsHeader| {
      var i :| 0 <= i < |gs| && CountsRows(gs)[i] == r;
      assert |CountsRow(gs[i])| == 27;
    }
  }

  lemma CrashesRowsWidth(gs: seq<CrashGroup>)
    ensures forall r :: r in CrashesRows(gs) ==> |r| == |CrashesHeader|
  {
    forall r | r in CrashesRows(gs) ensures |r| == |CrashesHeader| {
      var i :| 0 <= i < |gs| && CrashesRows(gs)[i] == r;
      assert |CrashesRow(gs[i])| == 14;
    }
  }

  lemma ActivesRowsWidth(gs: seq<ActivesGroup>)
    ensures forall r :: r in ActivesRows(gs) ==> |r| + 1 == |ActivesHeaderAsWritten|
  {
    forall r | r in ActivesRows(gs) ensures |r| + 1 == |ActivesHeaderAsWritten| {
      var i :| 0 <= i < |gs| && ActivesRows(gs)[i] == r;
      assert |ActivesRow(gs[i])| == 13;
    }
  }

  /** Every row of a Counts or Crashes answer has one cell per header
      name; every row of an Actives answer has one cell fewer than the
      header the program writes above it. */
  lemma AnswerMatchesHeader(db: Warehouse, shape: Shape, day: Date, cutoff: Date)
    requires RunStep(db, shape, day, cutoff).Answer?
    ensures !shape.Actives? ==> forall r :: r in RunStep(db, shape, day, cutoff).rows ==> |r| == |Header(shape)|
    ensures shape.Actives? ==> forall r :: r in RunStep(db, shape, day, cutoff).rows ==> |r| + 1 == |Header(shape)|
  {
    var plan := UnionPlan(shape, day, cutoff);
    match shape {
      case Counts =>
        CountsRowsWidth(CountsRollup(Union(db.mainShards, plan, MainDate).rows));
      case Actives(_) =>
        ActivesRowsWidth(ActivesRollup(Union(db.mainShards, plan, MainDate).rows));
      case Crashes =>
        CrashesRowsWidth(CrashesRollup(Union(db.crashShards, plan, CrashDate).rows));
    }
  }

  /** What the run leaves behind, in order: uploads and `summarize` calls. */
  datatype Event = Put(bucket: string, path: string, lines: seq<seq<Cell>>) | Summarize(day: Date)

  /** The upload a successful step makes: the header, then the rows. */
  function StepUpload(shape: Shape, day: Date, rows: seq<seq<Cell>>): Event {
    Put(DefaultBucket, ArtifactPath(shape, day), [HeaderCells(Header(shape))] + rows)
  }

  /** A run's events, and the error that ended it early if one did. */
  datatype Run = Run(events: seq<Event>, error: Option<QueryError>)

  /** What executing each step on each day answers. */
  type Executor = (Shape, Date) -> Answer

  /** The executor of a database, with the cutoff fixed at start-up. */
  function Exec(db: Warehouse, cutoff: Date): Executor {
    (shape: Shape, day: Date) => RunStep(db, shape, day, cutoff)
  }

  /** One more step of a run that has not failed: a failing query ends the
      run with nothing uploaded; an answer is uploaded. */
  function Then(r: Run, exec: Executor, shape: Shape, day: Date): Run {
    if r.error.Some? then r
    else
      match exec(shape, day)
      case QueryFailed(e) => Run(r.events, Some(e))
      case Answer(rows) => Run(r.events + [StepUpload(shape, day, rows)], None)
  }

  /** `put_daily(cur, date)`: counts, daily actives, crashes, then
      `summarize(date)`; an exception in a step ends the run there. */
  function DailyRun(exec: Executor, day: Date): Run {
    var r := Then(Then(Then(Run([], None), exec, Counts, day), exec, Actives(false), day), exec, Crashes, day);
    if r.error.Some? then r else Run(r.events + [Summarize(day)], None)
  }

  /** The days `start` .. `end` in turn, stopping at the first failure. */
  function RangeRun(exec: Executor, start: Date, end: Date): Run
    decreases end - start + 1
  {
    if end < start then Run([], None)
    else
      var prev := RangeRun(exec, start, end - 1);
      if prev.error.Some? then prev
      else
        var last := DailyRun(exec, end);
        Run(prev.events + last.events, last.error)
  }

  /** A successful `put_daily` writes the three artifacts of the day in the
      order counts, daily actives, crashes, each with its answer, and then
      summarizes the day. */
  lemma DailyOrder(exec: Executor, day: Date)
    requires DailyRun(exec, day).error.None?
    ensures exec(Counts, day).Answer? && exec(Actives(false), day).Answer? && exec(Crashes, day).Answer?
    ensures DailyRun(exec, day).events == [
              StepUpload(Counts, day, exec(Counts, day).rows),
              StepUpload(Actives(false), day, exec(Actives(false), day).rows),
              StepUpload(Crashes, day, exec(Crashes, day).rows),
              Summarize(day)]
  {
  }

  /** `put_daily` fails exactly when one of its steps does, with that
      step's error. */
  lemma DailyFailure(exec: Executor, day: Date)
    ensures DailyRun(exec, day).error.None? <==>
            exec(Counts, day).Answer? && exec(Actives(false), day).Answer? && exec(Crashes, day).Answer?
    ensures DailyRun(exec, day).error.Some? ==>
              (exec(Counts, day).QueryFailed? && DailyRun(exec, day).error == Some(exec(Counts, day).error))
              || (exec(Actives(false), day).QueryFailed? && DailyRun(exec, day).error == Some(exec(Actives(false), day).error))
              || (exec(Crashes, day).QueryFailed? && DailyRun(exec, day).error == Some(exec(Crashes, day).error))
  {
  }

  /** A failed `put_daily` has uploaded at most the two steps before the
      failing one, and has not summarized. */
  lemma DailyPartial(exec: Executor, day: Date)
    ensures DailyRun(exec, day).error.Some? ==>
              |DailyRun(exec, day).events| < 3
              && forall k :: 0 <= k < |DailyRun(exec, day).events| ==> DailyRun(exec, day).events[k].Put?
  {
  }

  /** Whether a shard table exists. */
  predicate HasShard(db: Warehouse, f: Family, d: Date) {
    if f == MainSummary then ShardName(f, d) in db.mainShards else ShardName(f, d) in db.crashShards
  }

  /** Whether the shards of family `f` exist for all the dates `w`. */
  predicate HasShards(db: Warehouse, f: Family, w: seq<Date>) {
    forall d :: d in w ==> HasShard(db, f, d)
  }

  lemma PlanTablesPresent<R>(shards: map<string, seq<R>>, shape: Shape, day: Date, cutoff: Date, dateOf: R -> Date)
    ensures Union(shards, UnionPlan(shape, day, cutoff), dateOf).Rows? <==>
            forall d :: d in Window(shape, day, cutoff) ==> ShardName(FamilyOf(shape), d) in shards
  {
    UnionFailure(shards, UnionPlan(shape, day, cutoff), dateOf);
    PlanMissing(shards, shape, day, cutoff);
  }

  /** Some sub-select names a missing table exactly when some window day's
      shard is missing. */
  lemma PlanMissing<R>(shards: map<string, seq<R>>, shape: Shape, day: Date, cutoff: Date)
    ensures (exists i :: 0 <= i < |UnionPlan(shape, day, cutoff)| && UnionPlan(shape, day, cutoff)[i].table !in shards)
        <==> (exists d :: d in Window(shape, day, cutoff) && ShardName(FamilyOf(shape), d) !in shards)
  {
    var plan := UnionPlan(shape, day, cutoff);
    var w := Window(shape, day, cutoff);
    if exists i :: 0 <= i < |plan| && plan[i].table !in shards {
      var i :| 0 <= i < |plan| && plan[i].table !in shards;
      MissingEntry(shards, shape, day, cutoff, i);
    }
    if exists d :: d in w && ShardName(FamilyOf(shape), d) !in shards {
      var d :| d in w && ShardName(FamilyOf(shape), d) !in shards;
      var i :| 0 <= i < |w| && w[i] == d;
      MissingEntry(shards, shape, day, cutoff, i);
    }
  }

  lemma MissingEntry<R>(shards: map<string, seq<R>>, shape: Shape, day: Date, cutoff: Date, i: nat)
    requires i < |Window(shape, day, cutoff)|
    ensures Window(shape, day, cutoff)[i] in Window(shape, day, cutoff)
    ensures UnionPlan(shape, day, cutoff)[i].table !in shards <==>
            ShardName(FamilyOf(shape), Window(shape, day, cutoff)[i]) !in shards
  {
    PlanEntry(shape, day, cutoff, i);
  }

  /** A step for a day not past the cutoff answers exactly when every
      shard in its window exists, and otherwise fails naming a missing
      table: it never fails for an empty union. */
  lemma StepOutcome(db: Warehouse, shape: Shape, day: Date, cutoff: Date)
    requires day <= cutoff
    ensures Exec(db, cutoff)(shape, day).Answer? <==>
            HasShards(db, FamilyOf(shape), Window(shape, day, cutoff))
    ensures Exec(db, cutoff)(shape, day).QueryFailed? ==> Exec(db, cutoff)(shape, day).error.MissingTable?
  {
    assert Exec(db, cutoff)(shape, day) == RunStep(db, shape, day, cutoff);
    WindowHoldsDay(shape, day, cutoff);
    var plan := UnionPlan(shape, day, cutoff);
    if shape == Crashes {
      PlanTablesPresent(db.crashShards, shape, day, cutoff, CrashDate);
      UnionFailure(db.crashShards, plan, CrashDate);
    } else {
      PlanTablesPresent(db.mainShards, shape, day, cutoff, MainDate);
      UnionFailure(db.mainShards, plan, MainDate);
    }
  }

  /** Whether every shard a day's steps read exists. */
  predicate ShardsPresent(db: Warehouse, day: Date, cutoff: Date) {
    HasShards(db, MainSummary, Window(Counts, day, cutoff)) && HasShards(db, CrashSummary, Window(Counts, day, cutoff))
  }

  /** A day not past the cutoff is processed without error exactly when
      all the shards its steps read exist; otherwise it fails naming a
      missing table, never for an empty union. */
  lemma DailyRunSucceeds(db: Warehouse, day: Date, cutoff: Date)
    requires day <= cutoff
    ensures DailyRun(Exec(db, cutoff), day).error.None? <==> ShardsPresent(db, day, cutoff)
    ensures DailyRun(Exec(db, cutoff), day).error.Some? ==> DailyRun(Exec(db, cutoff), day).error.value.MissingTable?
  {
    var exec := Exec(db, cutoff);
    DailyWindowsAgree(day, cutoff);
    StepOutcome(db, Counts, day, cutoff);
    StepOutcome(db, Actives(false), day, cutoff);
    StepOutcome(db, Crashes, day, cutoff);
    DailyFailure(exec, day);
  }

  function SummarizedDays(events: seq<Event>): seq<Date> {
    if events == [] then []
    else (if events[0].Summarize? then [events[0].day] else []) + SummarizedDays(events[1..])
  }

  lemma {:induction false} SummarizedAppend(a: seq<Event>, b: seq<Event>)
    ensures SummarizedDays(a + b) == SummarizedDays(a) + SummarizedDays(b)
  {
    if a == [] {
      assert a + b == b;
    } else {
      assert (a + b)[0] == a[0];
      assert (a + b)[1..] == a[1..] + b;
      SummarizedAppend(a[1..], b);
    }
  }

  lemma {:induction false} NoSummaries(events: seq<Event>)
    requires forall k :: 0 <= k < |events| ==> events[k].Put?
    ensures SummarizedDays(events) == []
  {
    if events != [] {
      NoSummaries(events[1..]);
    }
  }

  lemma DailySummarized(exec: Executor, day: Date)
    ensures SummarizedDays(DailyRun(exec, day).events) == if DailyRun(exec, day).error.None? then [day] else []
  {
    var r := DailyRun(exec, day);
    DailyPartial(exec, day);
    if r.error.None? {
      DailyOrder(exec, day);
      var e := r.events;
      assert e == e[..3] + [Summarize(day)];
      NoSummaries(e[..3]);
      SummarizedAppend(e[..3], [Summarize(day)]);
      assert SummarizedDays([Summarize(day)]) == [day];
    } else {
      NoSummaries(r.events);
    }
  }

  /** `put_daily`'s events and error, case by case on its three steps. */
  lemma DailySteps(exec: Executor, day: Date)
    ensures var a1, a2, a3 := exec(Counts, day), exec(Actives(false), day), exec(Crashes, day);
            DailyRun(exec, day) ==
              if a1.QueryFailed? then Run([], Some(a1.error))
              else if a2.QueryFailed? then Run([StepUpload(Counts, day, a1.rows)], Some(a2.error))
              else if a3.QueryFailed? then
                Run([StepUpload(Counts, day, a1.rows), StepUpload(Actives(false), day, a2.rows)], Some(a3.error))
              else
                Run([StepUpload(Counts, day, a1.rows), StepUpload(Actives(false), day, a2.rows),
                     StepUpload(Crashes, day, a3.rows), Summarize(day)], None)
  {
  }

  /** One more day of a range run that has not failed, as it extends a
      log of events. */
  lemma RangeRunNext(exec: Executor, start: Date, last: Date, log0: seq<Event>, before: seq<Event>,
                     after: seq<Event>, err: Option<QueryError>)
    requires start <= last + 1 && RangeRun(exec, start, last).error.None?
    requires before == log0 + RangeRun(exec, start, last).events
    requires after == before + DailyRun(exec, last + 1).events && err == DailyRun(exec, last + 1).error
    ensures after == log0 + RangeRun(exec, start, last + 1).events
    ensures err == RangeRun(exec, start, last + 1).error
  {
    AppendAssoc(log0, RangeRun(exec, start, last).events, DailyRun(exec, last + 1).events);
  }

  lemma AppendAssoc(a: seq<Event>, b: seq<Event>, c: seq<Event>)
    ensures (a + b) + c == a + (b + c)
  {
  }

  /** Once a run has failed, later days add nothing. */
  lemma {:induction false} RangeRunStops(exec: Executor, start: Date, d: Date, end: Date)
    requires d <= end && RangeRun(exec, start, d).error.Some?
    ensures RangeRun(exec, start, end) == RangeRun(exec, start, d)
    decreases end - d
  {
    if d < end {
      RangeRunStops(exec, start, d, end - 1);
    }
  }

  /** `s` is the `n` days from `start` on, in ascending order. */
  predicate Consecutive(s: seq<Date>, start: Date, n: nat) {
    |s| == n && forall i :: 0 <= i < |s| ==> s[i] == start + i
  }

  /** What a run of the days `start` .. `end` summarizes: with no failure
      exactly those days, in ascending order; after a failure on day
      `FailedDay` the days before it, and the run's error is that day's. */
  predicate RangeSummarized(exec: Executor, start: Date, end: Date)
    requires start <= end + 1
  {
    var r := RangeRun(exec, start, end);
    (r.error.None? ==> Consecutive(SummarizedDays(r.events), start, end - start + 1))
    && (r.error.Some? ==>
          start <= FailedDay(exec, start, end) <= end
          && Consecutive(SummarizedDays(r.events), start, FailedDay(exec, start, end) - start)
          && DailyRun(exec, FailedDay(exec, start, end)).error == r.error)
  }

  /** The driver processes the days of its range once each, in ascending
      order, stopping at the first day that fails. */
  lemma {:induction false} RangeDays(exec: Executor, start: Date, end: Date)
    requires start <= end + 1
    ensures RangeSummarized(exec, start, end)
    decreases end - start + 1
  {
    if end >= start {
      RangeDays(exec, start, end - 1);
      if RangeRun(exec, start, end - 1).error.None? {
        RangeDaysLast(exec, start, end);
      } else {
        RangeDaysEarlier(exec, start, end);
      }
    } else {
      RangeDaysEmpty(exec, start, end);
    }
  }

  /** A range with no days summarizes nothing. */
  lemma RangeDaysEmpty(exec: Executor, start: Date, end: Date)
    requires end + 1 == start
    ensures RangeRun(exec, start, end).error.None?
    ensures RangeSummarized(exec, start, end)
  {
    assert RangeRun(exec, start, end) == Run([], None);
  }

  /** The day on which a range run failed: the first day whose
      `put_daily` failed, or `end` when none did. */
  function FailedDay(exec: Executor, start: Date, end: Date): Date
    decreases end - start + 1
  {
    if end <= start then end
    else if RangeRun(exec, start, end - 1).error.Some? then FailedDay(exec, start, end - 1)
    else end
  }

  /** The step of `RangeDays` where the days before `end` all succeeded. */
  lemma RangeDaysLast(exec: Executor, start: Date, end: Date)
    requires start <= end
    requires RangeRun(exec, start, end - 1).error.None?
    requires RangeSummarized(exec, start, end - 1)
    ensures RangeSummarized(exec, start, end)
  {
    var prev := RangeRun(exec, start, end - 1);
    var last := DailyRun(exec, end);
    assert RangeRun(exec, start, end) == Run(prev.events + last.events, last.error);
    assert FailedDay(exec, start, end) == end;
    SummarizedAppend(prev.events, last.events);
    DailySummarized(exec, end);
  }

  /** The step of `RangeDays` where an earlier day failed. */
  lemma RangeDaysEarlier(exec: Executor, start: Date, end: Date)
    requires start <= end
    requires RangeRun(exec, start, end - 1).error.Some?
    requires RangeSummarized(exec, start, end - 1)
    ensures RangeSummarized(exec, start, end)
  {
    assert RangeRun(exec, start, end) == RangeRun(exec, start, end - 1);
    assert FailedDay(exec, start, end) == FailedDay(exec, start, end - 1);
  }

  // ----- Command line -----

  /** The range the driver settles on from its arguments. */
  datatype Plan = Usage | NoData | Days(start: Date, end: Date)

  /** Lines 371-390: no argument means today, one argument one day, two an
      inclusive range, more prints the usage; latency moves the start back;
      the end is clamped to the cutoff; an empty range is rejected. */
  function RangePlan(args: seq<Date>, latency: bool, today: Date, cutoff: Date): Plan {
    if |args| > 2 then Usage
    else
      var start := if |args| == 0 then today else args[0];
      var end := if |args| == 0 then today else if |args| == 1 then args[0] else args[1];
      var from := if latency then start - LatencyInterval else start;
      var to := Min(end, cutoff);
      if from > to then NoData else Days(from, to)
  }

  /** How the program ends. */
  datatype Exit = Completed | UsageError | NoDataToProcess | Crashed(error: QueryError)

  /** `sys.exit(1)` for usage and for an empty range; an uncaught
      exception also exits with status 1. */
  function ExitCode(e: Exit): nat {
    if e == Completed then 0 else 1
  }

  /** The range a run covers never passes the cutoff, starts
      `latency_interval` days before the first requested day when latency
      is on, and ends at the last requested day unless the cutoff comes
      first; it is rejected exactly when that range is empty. */
  lemma RangePlanBounds(args: seq<Date>, latency: bool, today: Date, cutoff: Date)
    requires |args| <= 2
    ensures RangePlan(args, latency, today, cutoff).Days? ==>
              RangePlan(args, latency, today, cutoff).start <= RangePlan(args, latency, today, cutoff).end <= cutoff
    ensures var first := if |args| == 0 then today else args[0];
            var last := if |args| == 0 then today else args[|args| - 1];
            var from := first - (if latency then LatencyInterval else 0);
            (RangePlan(args, latency, today, cutoff) == NoData <==> from > last || from > cutoff)
            && (RangePlan(args, latency, today, cutoff).Days? ==>
                  RangePlan(args, latency, today, cutoff) == Days(from, if last <= cutoff then last else cutoff))
  {
  }

  /** With no arguments and the cutoff at yesterday, the run covers the
      `latency_interval` days before today, or nothing with `--no-latency`. */
  lemma DefaultRun(today: Date)
    ensures RangePlan([], true, today, today - 1) == Days(today - LatencyInterval, today - 1)
    ensures RangePlan([], false, today, today - 1) == NoData
  {
  }

  /** More than two arguments print the usage and exit 1. */
  lemma TooManyArguments(args: seq<Date>, latency: bool, today: Date, cutoff: Date)
    requires |args| > 2
    ensures RangePlan(args, latency, today, cutoff) == Usage
    ensures ExitCode(UsageError) == 1
  {
  }

  /** With latency on, a run for the days `first` .. `last` recomputes
      every day from `latency_interval` days before `first` to `last`, so
      days whose shards were still filling up are redone. */
  lemma LatencyRecomputes(first: Date, last: Date, cutoff: Date, d: Date)
    requires first <= last <= cutoff
    requires first - LatencyInterval <= d <= last
    ensures RangePlan([first, last], true, first, cutoff).Days?
    ensures RangePlan([first, last], true, first, cutoff).start <= d <= RangePlan([first, last], true, first, cutoff).end
  {
  }

  /** The outcome of a whole invocation, as a function of its inputs. */
  function Outcome(exec: Executor, args: seq<Date>, latency: bool, today: Date, cutoff: Date): (Exit, seq<Event>) {
    match RangePlan(args, latency, today, cutoff)
    case Usage => (UsageError, [])
    case NoData => (NoDataToProcess, [])
    case Days(s, e) =>
      var r := RangeRun(exec, s, e);
      (if r.error.Some? then Crashed(r.error.value) else Completed, r.events)
  }

  /** An invocation either stops before any day (usage, empty range),
      or processes its days in ascending order and, on success, summarizes
      every one of them; a crash is only ever a missing shard table. */
  lemma OutcomeDays(db: Warehouse, args: seq<Date>, latency: bool, today: Date, cutoff: Date)
    ensures RangePlan(args, latency, today, cutoff).Days? ==>
              var p := RangePlan(args, latency, today, cutoff);
              (Outcome(Exec(db, cutoff), args, latency, today, cutoff).0 == Completed ==>
                 Consecutive(SummarizedDays(Outcome(Exec(db, cutoff), args, latency, today, cutoff).1), p.start, p.end - p.start + 1))
              && (Outcome(Exec(db, cutoff), args, latency, today, cutoff).0.Crashed? ==>
                    Outcome(Exec(db, cutoff), args, latency, today, cutoff).0.error.MissingTable?)
    ensures !RangePlan(args, latency, today, cutoff).Days? ==>
              Outcome(Exec(db, cutoff), args, latency, today, cutoff).1 == [] && ExitCode(Outcome(Exec(db, cutoff), args, latency, today, cutoff).0) == 1
  {
    var p := RangePlan(args, latency, today, cutoff);
    if p.Days? {
      RangePlanBounds(args, latency, today, cutoff);
      var exec := Exec(db, cutoff);
      RangeDays(exec, p.start, p.end);
      var r := RangeRun(exec, p.start, p.end);
      if r.error.Some? {
        DailyRunSucceeds(db, FailedDay(exec, p.start, p.end), cutoff);
      }
    }
  }

  // ----- Published state -----

  /** The objects in the bucket after a sequence of events: the last
      upload to each key wins. */
  function Published(m: map<string, seq<seq<Cell>>>, events: seq<Event>): map<string, seq<seq<Cell>>>
    decreases |events|
  {
    if events == [] then m
    else if events[0].Put? then Published(m[events[0].path := events[0].lines], events[1..])
    else Published(m, events[1..])
  }

  lemma {:induction false} PublishedOver(m: map<string, seq<seq<Cell>>>, events: seq<Event>)
    ensures Published(m, events) == m + Published(map[], events)
    decreases |events|
  {
    if events != [] {
      PublishedOver(m, events[1..]);
      if events[0].Put? {
        var e := events[0];
        PublishedOver(m[e.path := e.lines], events[1..]);
        PublishedOver(map[e.path := e.lines], events[1..]);
        assert m[e.path := e.lines] + Published(map[], events[1..])
            == m + (map[e.path := e.lines] + Published(map[], events[1..]));
      }
    }
  }

  /** S3 keeps the last write per key, so replaying the same uploads
      leaves the bucket as it was. This is about replaying identical
      events; a rerun on shards that have changed since writes other
      contents and is not covered here. */
  lemma RerunIdempotent(m: map<string, seq<seq<Cell>>>, events: seq<Event>)
    ensures Published(Published(m, events), events) == Published(m, events)
  {
    PublishedOver(m, events);
    PublishedOver(Published(m, events), events);
    var p := Published(map[], events);
    assert (m + p) + p == m + p;
  }

  // ----- The program -----

  /** `S3CompressedWriter` with a `csv.writer` on it: the rows written so
      far; the object is uploaded when the writer is closed. */
  class CsvUpload {
    const bucket: string
    const path: string
    var lines: seq<seq<Cell>>

    constructor (bucket: string, path: string)
      ensures this.bucket == bucket && this.path == path && lines == []
    {
      this.bucket := bucket;
      this.path := path;
      lines := [];
    }

    /** `outcsv.writerow(r)`. */
    method WriteRow(r: seq<Cell>)
      modifies this
      ensures lines == old(lines) + [r]
    {
      lines := lines + [r];
    }

    /** `for r in cur: outcsv.writerow(r)`. */
    method WriteRows(rows: seq<seq<Cell>>)
      modifies this
      ensures lines == old(lines) + rows
    {
      var i := 0;
      while i < |rows|
        invariant 0 <= i <= |rows|
        invariant lines == old(lines) + rows[..i]
      {
        WriteRow(rows[i]);
        assert rows[..i + 1] == rows[..i] + [rows[i]];
        i := i + 1;
      }
      assert rows[..|rows|] == rows;
    }
  }

  /** The running program: the database it queries through `exec`, the
      cutoff fixed at start-up (`current_cutoff`), and what it has done so
      far. */
  class Rollup {
    const cutoff: Date
    const exec: Executor
    var log: seq<Event>

    constructor (db: Warehouse, cutoff: Date)
      ensures this.cutoff == cutoff && exec == Exec(db, cutoff) && log == []
    {
      this.cutoff := cutoff;
      exec := Exec(db, cutoff);
      log := [];
    }

    /** The `with S3CompressedWriter(...)` block of a step: header, then
        every row of the cursor, then the upload. */
    method Upload(shape: Shape, day: Date, rows: seq<seq<Cell>>)
      modifies this
      ensures log == old(log) + [StepUpload(shape, day, rows)]
    {
      var header := HeaderCells(Header(shape));
      var out := new CsvUpload(DefaultBucket, ArtifactPath(shape, day));
      out.WriteRow(header);
      out.WriteRows(rows);
      assert out.lines == [header] + rows;
      log := log + [Put(out.bucket, out.path, out.lines)];
    }

    /** `put_counts`, `put_actives` or `put_crashes`: run the query, and
        on success upload its answer. */
    method PutStep(shape: Shape, day: Date) returns (err: Option<QueryError>)
      modifies this
      ensures exec(shape, day).QueryFailed? ==> err == Some(exec(shape, day).error) && log == old(log)
      ensures exec(shape, day).Answer? ==>
                err == None && log == old(log) + [StepUpload(shape, day, exec(shape, day).rows)]
    {
      var answer := exec(shape, day);
      if answer.QueryFailed? {
        return Some(answer.error);
      }
      Upload(shape, day, answer.rows);
      return None;
    }

    /** `put_daily(cur, date)`. */
    method PutDaily(day: Date) returns (err: Option<QueryError>)
      modifies this
      ensures log == old(log) + DailyRun(exec, day).events
      ensures err == DailyRun(exec, day).error
    {
      DailySteps(exec, day);
      ghost var a1, a2, a3 := exec(Counts, day), exec(Actives(false), day), exec(Crashes, day);
      ghost var start := log;
      err := PutStep(Counts, day);
      if err.Some? {
        return;
      }
      ghost var u1 := StepUpload(Counts, day, a1.rows);
      assert log == start + [u1];
      err := PutStep(Actives(false), day);
      if err.Some? {
        return;
      }
      ghost var u2 := StepUpload(Actives(false), day, a2.rows);
      assert log == start + [u1, u2];
      err := PutStep(Crashes, day);
      if err.Some? {
        return;
      }
      ghost var u3 := StepUpload(Crashes, day, a3.rows);
      assert log == start + [u1, u2, u3];
      log := log + [Summarize(day)];
    }

    /** The loop at the end of the `__main__` block: `put_daily` each day
        from `start` to `end` in turn; an exception ends the program. */
    method RunDays(start: Date, end: Date) returns (err: Option<QueryError>)
      requires start <= end + 1
      modifies this
      ensures log == old(log) + RangeRun(exec, start, end).events
      ensures err == RangeRun(exec, start, end).error
    {
      err := None;
      var last := start - 1;
      while last < end && err.None?
        invariant start - 1 <= last <= end
        invariant log == old(log) + RangeRun(exec, start, last).events
        invariant err == RangeRun(exec, start, last).error
        decreases end - last
      {
        ghost var before := log;
        err := PutDaily(last + 1);
        RangeRunNext(exec, start, last, old(log), before, log, err);
        last := last + 1;
      }
      if err.Some? {
        RangeRunStops(exec, start, last, end);
      }
    }

    /** The `__main__` block from line 371 on: settle the range, then
        process its days. */
    method RunRange(args: seq<Date>, latency: bool, today: Date) returns (exit: Exit)
      modifies this
      ensures exit == Outcome(exec, args, latency, today, cutoff).0
      ensures log == old(log) + Outcome(exec, args, latency, today, cutoff).1
    {
      var plan := RangePlan(args, latency, today, cutoff);
      if plan.Usage? {
        return UsageError;
      }
      if plan.NoData? {
        return NoDataToProcess;
      }
      var err := RunDays(plan.start, plan.end);
      if err.Some? {
        return Crashed(err.value);
      }
      return Completed;
    }
  }
}
