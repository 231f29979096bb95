/** How reports/stability-summary/rollup.py builds each rollup step for a
    target day: which shards it reads (the window), which rows of them it
    keeps (the filter), the union of one sub-select per shard, the header
    it writes above the query's rows, and the S3 key of the artifact. */
module RollupQueries {
  import opened Wrappers
  import opened Digits
  import opened Dates
  import opened DateWindow
  import opened RollupSemantics

  /** How many days back activity is looked for (`latency_interval`). */
  const LatencyInterval: nat := 10

  const DefaultBucket := "telemetry-public-analysis-2"

  /** The three rollup steps; Actives comes daily or weekly. */
  datatype Shape = Counts | Actives(weekly: bool) | Crashes

  // ----- Shard window -----

  /** How many days before the target day the window starts. */
  function Lookback(shape: Shape): nat {
    if shape == Actives(true) then 8 else 1
  }

  /** The shard dates a step reads for target `day`: weekly Actives reads
      `date_range(day - 8, latency_interval + 1 + 7, cutoff)`, every other
      step `date_range(day - 1, latency_interval + 1, cutoff)`. */
  function Window(shape: Shape, day: Date, cutoff: Date): (r: seq<Date>)
    ensures forall i, j :: 0 <= i < j < |r| ==> r[i] < r[j]
  {
    if shape == Actives(true) then DateRange(day - 8, LatencyInterval + 1 + 7, cutoff)
    else DateRange(day - 1, LatencyInterval + 1, cutoff)
  }

  /** Every window reaches from `Lookback` days before the target day to
      `latency_interval - 1` days after it, cut off at `cutoff`. */
  lemma WindowMembers(shape: Shape, day: Date, cutoff: Date, d: Date)
    ensures d in Window(shape, day, cutoff) <==>
            day - Lookback(shape) <= d <= day + LatencyInterval - 1 && d <= cutoff
  {
    var start, days := day - Lookback(shape), LatencyInterval + Lookback(shape);
    assert Window(shape, day, cutoff) == DateRange(start, days, cutoff);
    InDateRange(start, days, cutoff, d);
  }

  /** A target day not past the cutoff always has its own shard in the
      window, so the union is never empty. */
  lemma WindowHoldsDay(shape: Shape, day: Date, cutoff: Date)
    requires day <= cutoff
    ensures day in Window(shape, day, cutoff)
    ensures Window(shape, day, cutoff) != []
  {
    WindowMembers(shape, day, cutoff, day);
  }

  /** The weekly window is the daily one with the seven shards from
      `day - 8` to `day - 2` in front. */
  lemma WeeklyExtendsDaily(day: Date, cutoff: Date)
    ensures Window(Actives(true), day, cutoff)
         == DateRange(day - 8, 7, cutoff) + Window(Actives(false), day, cutoff)
  {
    DateRangeSplit(day - 8, 7, LatencyInterval + 1, cutoff);
  }

  /** Counts, daily Actives and Crashes read the same shard dates. */
  lemma DailyWindowsAgree(day: Date, cutoff: Date)
    ensures Window(Counts, day, cutoff) == Window(Actives(false), day, cutoff) == Window(Crashes, day, cutoff)
  {
  }

  // ----- Row filter -----

  /** The `WHERE` of each sub-select, on the row's date column
      (subsessiondate for main_summary, crashdate for crash_summary). */
  datatype RowFilter = SubsessionOn(day: Date) | SubsessionInWeek(day: Date) | CrashOn(day: Date)

  function FilterFor(shape: Shape, day: Date): RowFilter {
    match shape
    case Counts => SubsessionOn(day)
    case Actives(weekly) => if weekly then SubsessionInWeek(day) else SubsessionOn(day)
    case Crashes => CrashOn(day)
  }

  /** `subsessiondate <= day AND subsessiondate > day - '1 week'` keeps
      exactly the seven days ending with `day`. */
  predicate Passes(f: RowFilter, d: Date) {
    match f
    case SubsessionOn(day) => d == day
    case SubsessionInWeek(day) => day - 7 < d <= day
    case CrashOn(day) => d == day
  }

  /** Every date a filter keeps lies in the shard window of its step, as
      far as the cutoff allows: the daily filters keep the target day, the
      weekly one the week ending with it, and each of those dates has its
      shard read. */
  lemma FilteredDatesHaveShards(shape: Shape, day: Date, cutoff: Date, d: Date)
    requires Passes(FilterFor(shape, day), d) && d <= cutoff
    ensures d in Window(shape, day, cutoff)
  {
    WindowMembers(shape, day, cutoff, d);
  }

  // ----- Shard union -----

  datatype Family = MainSummary | CrashSummary

  function FamilyOf(shape: Shape): Family {
    if shape == Crashes then CrashSummary else MainSummary
  }

  function FamilyPrefix(f: Family): string {
    match f
    case MainSummary => "main_summary_"
    case CrashSummary => "crash_summary_"
  }

  /** `main_summary_YYYYMMDD` / `crash_summary_YYYYMMDD`. */
  function ShardName(f: Family, d: Date): string {
    FamilyPrefix(f) + Compact(d)
  }

  /** Distinct shards have distinct table names. */
  lemma ShardNameInjective(f: Family, d: Date, g: Family, e: Date)
    requires ShardName(f, d) == ShardName(g, e)
    ensures f == g && d == e
  {
    var s := ShardName(f, d);
    assert s[0] == FamilyPrefix(f)[0] && ShardName(g, e)[0] == FamilyPrefix(g)[0];
    var n := |FamilyPrefix(f)|;
    assert Compact(d) == s[n..] == Compact(e);
    CompactInjective(d, e);
  }

  /** One sub-select of the union: its table and its `WHERE`. */
  datatype SubSelect = SubSelect(table: string, filter: RowFilter)

  /** The sub-selects joined by `' UNION ALL '`, one per window date, in
      window order, all with the step's filter. */
  function UnionPlan(shape: Shape, day: Date, cutoff: Date): (plan: seq<SubSelect>)
    ensures |plan| == |Window(shape, day, cutoff)|
    ensures forall i :: 0 <= i < |plan| ==> plan[i].filter == FilterFor(shape, day)
  {
    var w := Window(shape, day, cutoff);
    seq(|w|, i requires 0 <= i < |w| => SubSelect(ShardName(FamilyOf(shape), w[i]), FilterFor(shape, day)))
  }

  /** The union reads shard (f, d) exactly when f is the step's family and
      d is in its window. */
  lemma UnionPlanReads(shape: Shape, day: Date, cutoff: Date, f: Family, d: Date)
    ensures (exists i :: 0 <= i < |UnionPlan(shape, day, cutoff)| && UnionPlan(shape, day, cutoff)[i].table == ShardName(f, d))
        <==> f == FamilyOf(shape) && d in Window(shape, day, cutoff)
  {
    var w := Window(shape, day, cutoff);
    var plan := UnionPlan(shape, day, cutoff);
    if exists i :: 0 <= i < |plan| && plan[i].table == ShardName(f, d) {
      var i :| 0 <= i < |plan| && plan[i].table == ShardName(f, d);
      PlanEntry(shape, day, cutoff, i);
      ShardNameInjective(FamilyOf(shape), w[i], f, d);
    }
    if f == FamilyOf(shape) && d in w {
      var i :| 0 <= i < |w| && w[i] == d;
      PlanEntry(shape, day, cutoff, i);
    }
  }

  /** Entry `i` of the union reads the shard of the window's `i`-th date. */
  lemma PlanEntry(shape: Shape, day: Date, cutoff: Date, i: nat)
    requires i < |Window(shape, day, cutoff)|
    ensures UnionPlan(shape, day, cutoff)[i].table == ShardName(FamilyOf(shape), Window(shape, day, cutoff)[i])
  {
  }

  /** No shard is read twice. */
  lemma UnionPlanDistinct(shape: Shape, day: Date, cutoff: Date)
    ensures forall i, j :: 0 <= i < j < |UnionPlan(shape, day, cutoff)| ==>
              UnionPlan(shape, day, cutoff)[i].table != UnionPlan(shape, day, cutoff)[j].table
  {
    var w := Window(shape, day, cutoff);
    var plan := UnionPlan(shape, day, cutoff);
    forall i, j | 0 <= i < j < |plan| ensures plan[i].table != plan[j].table {
      assert w[i] != w[j];
      if plan[i].table == plan[j].table {
        ShardNameInjective(FamilyOf(shape), w[i], FamilyOf(shape), w[j]);
      }
    }
  }

  // ----- Headers and projections -----

  /** A cell of an output row: a dimension value or an aggregate. */
  datatype Cell = Text(text: string) | Number(n: int)

  const DimensionColumns: seq<string> := [
    "buildversion", "buildid", "buildarchitecture", "channel", "os", "osversion",
    "osservicepackmajor", "osservicepackminor", "locale", "activeexperimentid",
    "activeexperimentbranch", "country"]

  /** The Counts header: the dimensions, then the 15 aggregates. */
  const CountsHeader: seq<string> := DimensionColumns + [
    "abortedsessioncount", "subsessionlengths", "abortsplugin", "abortscontent",
    "abortsgmplugin", "crashesdetectedplugin", "pluginhangs", "crashesdetectedcontent",
    "crashesdetectedgmplugin", "crashsubmitattemptmain", "crashsubmitattemptcontent",
    "crashsubmitattemptplugin", "crashsubmitsuccessmain", "crashsubmitsuccesscontent",
    "crashsubmitsuccessplugin"]

  const CrashesHeader: seq<string> := DimensionColumns + ["hascrashenvironment", "crashes"]

  /** The Actives header as the source writes it: it names `buildid`,
      which the Actives query does not select. */
  const ActivesHeaderAsWritten: seq<string> := DimensionColumns + ["active_days", "active_users"]

  /** The Actives header matching the query's 13 columns. */
  const ActivesHeader: seq<string> := [
    "buildversion", "buildarchitecture", "channel", "os", "osversion",
    "osservicepackmajor", "osservicepackminor", "locale", "activeexperimentid",
    "activeexperimentbranch", "country", "active_days", "active_users"]

  function DimsCells(d: Dims): seq<Cell> {
    [Text(d.buildversion), Text(d.buildid), Text(d.buildarchitecture), Text(d.channel),
     Text(d.os), Text(d.osversion), Text(d.osservicepackmajor), Text(d.osservicepackminor),
     Text(d.locale), Text(d.activeexperimentid), Text(d.activeexperimentbranch), Text(d.country)]
  }

  function ActiveDimsCells(d: ActiveDims): seq<Cell> {
    [Text(d.buildversion), Text(d.buildarchitecture), Text(d.channel),
     Text(d.os), Text(d.osversion), Text(d.osservicepackmajor), Text(d.osservicepackminor),
     Text(d.locale), Text(d.activeexperimentid), Text(d.activeexperimentbranch), Text(d.country)]
  }

  /** The columns the Counts query selects, in order. */
  function CountsRow(g: CountsGroup): seq<Cell> {
    DimsCells(g.dims) + [Number(g.abortedsessions)]
      + seq(MeasureCount, j requires 0 <= j < MeasureCount => Number(g.sums[j]))
  }

  function CrashesRow(g: CrashGroup): seq<Cell> {
    DimsCells(g.key.dims) + [Text(g.key.hascrashenvironment), Number(g.crashes)]
  }

  function ActivesRow(g: ActivesGroup): seq<Cell> {
    ActiveDimsCells(g.key.dims) + [Number(g.key.activedays), Number(g.users)]
  }

  /** The dimension a column name denotes. */
  function DimColumn(d: Dims, name: string): Option<Value> {
    match name
    case "buildversion" => Some(d.buildversion)
    case "buildid" => Some(d.buildid)
    case "buildarchitecture" => Some(d.buildarchitecture)
    case "channel" => Some(d.channel)
    case "os" => Some(d.os)
    case "osversion" => Some(d.osversion)
    case "osservicepackmajor" => Some(d.osservicepackmajor)
    case "osservicepackminor" => Some(d.osservicepackminor)
    case "locale" => Some(d.locale)
    case "activeexperimentid" => Some(d.activeexperimentid)
    case "activeexperimentbranch" => Some(d.activeexperimentbranch)
    case "country" => Some(d.country)
    case _ => None
  }

  function ActiveDimColumn(d: ActiveDims, name: string): Option<Value> {
    match name
    case "buildversion" => Some(d.buildversion)
    case "buildarchitecture" => Some(d.buildarchitecture)
    case "channel" => Some(d.channel)
    case "os" => Some(d.os)
    case "osversion" => Some(d.osversion)
    case "osservicepackmajor" => Some(d.osservicepackmajor)
    case "osservicepackminor" => Some(d.osservicepackminor)
    case "locale" => Some(d.locale)
    case "activeexperimentid" => Some(d.activeexperimentid)
    case "activeexperimentbranch" => Some(d.activeexperimentbranch)
    case "country" => Some(d.country)
    case _ => None
  }

  function TextOf(v: Option<Value>): Option<Cell> {
    if v.Some? then Some(Text(v.value)) else None
  }

  /** What a Counts header name stands for in a group, looked up by
      name: the dimension, or the aggregate it labels. */
  function CountsColumn(g: CountsGroup, name: string): Option<Cell> {
    match name
    case "abortedsessioncount" => Some(Number(g.abortedsessions))
    case "subsessionlengths" => Some(Number(g.sums[0]))
    case "abortsplugin" => Some(Number(g.sums[1]))
    case "abortscontent" => Some(Number(g.sums[2]))
    case "abortsgmplugin" => Some(Number(g.sums[3]))
    case "crashesdetectedplugin" => Some(Number(g.sums[4]))
    case "pluginhangs" => Some(Number(g.sums[5]))
    case "crashesdetectedcontent" => Some(Number(g.sums[6]))
    case "crashesdetectedgmplugin" => Some(Number(g.sums[7]))
    case "crashsubmitattemptmain" => Some(Number(g.sums[8]))
    case "crashsubmitattemptcontent" => Some(Number(g.sums[9]))
    case "crashsubmitattemptplugin" => Some(Number(g.sums[10]))
    case "crashsubmitsuccessmain" => Some(Number(g.sums[11]))
    case "crashsubmitsuccesscontent" => Some(Number(g.sums[12]))
    case "crashsubmitsuccessplugin" => Some(Number(g.sums[13]))
    case _ => TextOf(DimColumn(g.dims, name))
  }

  function CrashesColumn(g: CrashGroup, name: string): Option<Cell> {
    match name
    case "hascrashenvironment" => Some(Text(g.key.hascrashenvironment))
    case "crashes" => Some(Number(g.crashes))
    case _ => TextOf(DimColumn(g.key.dims, name))
  }

  function ActivesColumn(g: ActivesGroup, name: string): Option<Cell> {
    match name
    case "active_days" => Some(Number(g.key.activedays))
    case "active_users" => Some(Number(g.users))
    case _ => TextOf(ActiveDimColumn(g.key.dims, name))
  }

  /** The Counts header has 27 names, one above each selected column, and
      each names the value below it. */
  lemma CountsHeaderAligned(g: CountsGroup)
    ensures |CountsHeader| == |CountsRow(g)| == 27
    ensures forall i :: 0 <= i < |CountsHeader| ==> CountsColumn(g, CountsHeader[i]) == Some(CountsRow(g)[i])
  {
  }

  /** The Crashes header has 14 names, each above the value it names. */
  lemma CrashesHeaderAligned(g: CrashGroup)
    ensures |CrashesHeader| == |CrashesRow(g)| == 14
    ensures forall i :: 0 <= i < |CrashesHeader| ==> CrashesColumn(g, CrashesHeader[i]) == Some(CrashesRow(g)[i])
  {
  }

  /** As written, the Actives header has one name more than the query has
      columns: from its second name on, each label sits one column to the
      right of its value, and the last label has no column. */
  lemma ActivesHeaderAsWrittenMisaligned(g: ActivesGroup)
    ensures |ActivesHeaderAsWritten| == 14 && |ActivesRow(g)| == 13
    ensures ActivesHeaderAsWritten[1] == "buildid" && ActivesColumn(g, ActivesHeaderAsWritten[1]) == None
    ensures forall i :: 2 <= i < |ActivesHeaderAsWritten| ==>
              ActivesColumn(g, ActivesHeaderAsWritten[i]) == Some(ActivesRow(g)[i - 1])
  {
  }

  /** The corrected Actives header names each of the 13 columns. */
  lemma ActivesHeaderAligned(g: ActivesGroup)
    ensures |ActivesHeader| == |ActivesRow(g)| == 13
    ensures forall i :: 0 <= i < |ActivesHeader| ==> ActivesColumn(g, ActivesHeader[i]) == Some(ActivesRow(g)[i])
  {
  }

  // ----- Artifact paths -----

  function KindSuffix(shape: Shape): string {
    match shape
    case Counts => "-main"
    case Actives(weekly) => if weekly then "-active-weekly" else "-active-daily"
    case Crashes => "-crashes"
  }

  /** `str(date.year)`. */
  function YearDir(y: int): string {
    if y >= 0 then Decimal(y) else "-" + Decimal(-y)
  }

  /** `stability-rollups/{year}/{YYYYMMDD}{kind}.csv.gz`. */
  function ArtifactPath(shape: Shape, day: Date): string {
    "stability-rollups/" + YearDir(Year(day)) + "/" + Compact(day) + KindSuffix(shape) + ".csv.gz"
  }

  /** Python 2's `strftime` refuses years before 1900, so every path the
      program writes has a four-digit year. */
  predicate Printable(day: Date) {
    1900 <= Year(day) <= 9999
  }

  /** Distinct steps or days never write the same key; the same step and
      day always do, so a rerun replaces its artifact. */
  lemma ArtifactPathInjective(s: Shape, d: Date, t: Shape, e: Date)
    requires Printable(d) && Printable(e)
    ensures ArtifactPath(s, d) == ArtifactPath(t, e) <==> s == t && d == e
  {
    if ArtifactPath(s, d) == ArtifactPath(t, e) {
      PathParts(s, d);
      PathParts(t, e);
      var p := ArtifactPath(s, d);
      assert Compact(d) == p[23..31] == Compact(e);
      CompactInjective(d, e);
      assert KindSuffix(s) + ".csv.gz" == p[31..] == KindSuffix(t) + ".csv.gz";
      SuffixInjective(s, t);
    }
  }

  /** The key of a printable day: the prefix and its four-digit year
      directory, the eight-digit date, then the kind and extension. */
  lemma PathParts(s: Shape, d: Date)
    requires Printable(d)
    ensures |ArtifactPath(s, d)| > 31 && |Decimal(Year(d))| == 4
    ensures ArtifactPath(s, d)[..23] == "stability-rollups/" + Decimal(Year(d)) + "/"
    ensures ArtifactPath(s, d)[23..31] == Compact(d)
    ensures ArtifactPath(s, d)[31..] == KindSuffix(s) + ".csv.gz"
  {
    assert Pow10(3) == 1000 && Pow10(4) == 10000;
    DecimalWidth(Year(d), 4);
    CompactLength(d);
    var pre := "stability-rollups/" + Decimal(Year(d)) + "/";
    var post := KindSuffix(s) + ".csv.gz";
    assert |pre| == 23 && |post| > 0;
    var p := ArtifactPath(s, d);
    assert p == pre + Compact(d) + post;
  }

  lemma SuffixInjective(s: Shape, t: Shape)
    requires KindSuffix(s) + ".csv.gz" == KindSuffix(t) + ".csv.gz"
    ensures s == t
  {
    var a, b := KindSuffix(s) + ".csv.gz", KindSuffix(t) + ".csv.gz";
    assert |a| == |KindSuffix(s)| + 7;
    assert KindSuffix(s) == a[..|a| - 7] == b[..|b| - 7] == KindSuffix(t);
  }
}
