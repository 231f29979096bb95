/** What the three rollup queries of reports/stability-summary/rollup.py
    compute, as pure functions over the rows that their shard union
    yields: Counts (SUM ... GROUP BY the 12 dimension columns), Crashes
    (COUNT(*) GROUP BY the dimensions and hascrashenvironment) and Actives
    (DENSE_RANK / ROW_NUMBER per client, keep rownumber = 1, COUNT(*) per
    dimensions and activedays). The SQL engine returns groups in no
    particular order; these functions list them in order of first
    occurrence, and every property below is independent of that order. */
module RollupSemantics {
  import opened Dates
  import opened Grouping

  type Value = string

  /** The 12 dimension columns of Counts and Crashes, in query order. */
  datatype Dims = Dims(
    buildversion: Value, buildid: Value, buildarchitecture: Value, channel: Value,
    os: Value, osversion: Value, osservicepackmajor: Value, osservicepackminor: Value,
    locale: Value, activeexperimentid: Value, activeexperimentbranch: Value, country: Value)

  /** The 11 dimension columns of Actives: the same without buildid. */
  datatype ActiveDims = ActiveDims(
    buildversion: Value, buildarchitecture: Value, channel: Value,
    os: Value, osversion: Value, osservicepackmajor: Value, osservicepackminor: Value,
    locale: Value, activeexperimentid: Value, activeexperimentbranch: Value, country: Value)

  function ActiveDimsOf(d: Dims): ActiveDims {
    ActiveDims(d.buildversion, d.buildarchitecture, d.channel, d.os, d.osversion,
      d.osservicepackmajor, d.osservicepackminor, d.locale, d.activeexperimentid,
      d.activeexperimentbranch, d.country)
  }

  /** The 14 summed counters of Counts, in query order: subsessionlength,
      abortsplugin, abortscontent, abortsgmplugin, crashesdetectedplugin,
      pluginhangs, crashesdetectedcontent, crashesdetectedgmplugin,
      crashsubmitattemptmain, crashsubmitattemptcontent,
      crashsubmitattemptplugin, crashsubmitsuccessmain,
      crashsubmitsuccesscontent, crashsubmitsuccessplugin. */
  const MeasureCount: nat := 14

  type Measures = s: seq<int> | |s| == MeasureCount
    witness [0, 0, 0, 0, 0, 0, 0, 0, 0, 0, 0, 0, 0, 0]

  /** A main_summary row, with the columns the rollups read. */
  datatype MainRow = MainRow(subsessiondate: Date, clientid: Value, dims: Dims, reason: Value, measures: Measures)

  /** A crash_summary row, with the columns the rollup reads. */
  datatype CrashRow = CrashRow(crashdate: Date, dims: Dims, hascrashenvironment: Value)

  // ----- Counts -----

  const AbortedReason := "aborted-session"

  datatype CountsGroup = CountsGroup(dims: Dims, abortedsessions: int, sums: Measures)

  function DimsOf(rows: seq<MainRow>): (ks: seq<Dims>)
    ensures |ks| == |rows|
  {
    seq(|rows|, i requires 0 <= i < |rows| => rows[i].dims)
  }

  /** `SUM(CASE WHEN reason = 'aborted-session' THEN 1 ELSE 0 END)`, row by row. */
  function AbortedPairs(rows: seq<MainRow>): (ps: seq<(Dims, int)>)
    ensures |ps| == |rows|
  {
    seq(|rows|, i requires 0 <= i < |rows| => (rows[i].dims, if rows[i].reason == AbortedReason then 1 else 0))
  }

  /** `SUM(<counter j>)`, row by row. */
  function MeasurePairs(rows: seq<MainRow>, j: nat): (ps: seq<(Dims, int)>)
    requires j < MeasureCount
    ensures |ps| == |rows|
  {
    seq(|rows|, i requires 0 <= i < |rows| => (rows[i].dims, rows[i].measures[j]))
  }

  function CountsGroupOf(rows: seq<MainRow>, k: Dims): CountsGroup {
    CountsGroup(k, SumFor(AbortedPairs(rows), k),
      seq(MeasureCount, j requires 0 <= j < MeasureCount => SumFor(MeasurePairs(rows, j), k)))
  }

  function CountsKeys(gs: seq<CountsGroup>): (ks: seq<Dims>)
    ensures |ks| == |gs|
  {
    seq(|gs|, i requires 0 <= i < |gs| => gs[i].dims)
  }

  /** The Counts query over the union rows: one output row per distinct
      combination of the 12 dimension columns present in the input, and
      no other. */
  function CountsRollup(rows: seq<MainRow>): (gs: seq<CountsGroup>)
    ensures NoDups(CountsKeys(gs))
    ensures forall i :: 0 <= i < |rows| ==> rows[i].dims in CountsKeys(gs)
    ensures forall k :: 0 <= k < |gs| ==> gs[k].dims in DimsOf(rows)
  {
    var ks := Distinct(DimsOf(rows));
    var gs := seq(|ks|, i requires 0 <= i < |ks| => CountsGroupOf(rows, ks[i]));
    assert CountsKeys(gs) == ks;
    assert forall i :: 0 <= i < |rows| ==> DimsOf(rows)[i] == rows[i].dims;
    gs
  }

  function IndexOf<K(==)>(s: seq<K>, x: K): (i: nat)
    requires x in s
    ensures i < |s| && s[i] == x
  {
    if s[0] == x then 0 else 1 + IndexOf(s[1..], x)
  }

  /** The rows of one group. */
  function RowsWith(rows: seq<MainRow>, k: Dims): seq<MainRow> {
    if rows == [] then []
    else (if rows[0].dims == k then [rows[0]] else []) + RowsWith(rows[1..], k)
  }

  function AbortedCount(rows: seq<MainRow>): nat {
    if rows == [] then 0
    else (if rows[0].reason == AbortedReason then 1 else 0) + AbortedCount(rows[1..])
  }

  function MeasureTotal(rows: seq<MainRow>, j: nat): int
    requires j < MeasureCount
  {
    if rows == [] then 0 else rows[0].measures[j] + MeasureTotal(rows[1..], j)
  }

  function AbortedColumn(gs: seq<CountsGroup>): seq<int> {
    seq(|gs|, i requires 0 <= i < |gs| => gs[i].abortedsessions)
  }

  function MeasureColumn(gs: seq<CountsGroup>, j: nat): seq<int>
    requires j < MeasureCount
  {
    seq(|gs|, i requires 0 <= i < |gs| => gs[i].sums[j])
  }

  lemma {:induction false} AbortedPairsGroup(rows: seq<MainRow>, k: Dims)
    ensures SumFor(AbortedPairs(rows), k) == AbortedCount(RowsWith(rows, k))
  {
    if rows != [] {
      assert AbortedPairs(rows)[1..] == AbortedPairs(rows[1..]);
      AbortedPairsGroup(rows[1..], k);
      AbortedCountAppend(if rows[0].dims == k then [rows[0]] else [], RowsWith(rows[1..], k));
    }
  }

  lemma {:induction false} AbortedCountAppend(a: seq<MainRow>, b: seq<MainRow>)
    ensures AbortedCount(a + b) == AbortedCount(a) + AbortedCount(b)
  {
    if a != [] {
      assert (a + b)[0] == a[0];
      assert (a + b)[1..] == a[1..] + b;
      AbortedCountAppend(a[1..], b);
    } else {
      assert a + b == b;
    }
  }

  lemma {:induction false} MeasurePairsGroup(rows: seq<MainRow>, j: nat, k: Dims)
    requires j < MeasureCount
    ensures SumFor(MeasurePairs(rows, j), k) == MeasureTotal(RowsWith(rows, k), j)
  {
    if rows != [] {
      assert MeasurePairs(rows, j)[1..] == MeasurePairs(rows[1..], j);
      MeasurePairsGroup(rows[1..], j, k);
      MeasureTotalAppend(if rows[0].dims == k then [rows[0]] else [], RowsWith(rows[1..], k), j);
    }
  }

  lemma {:induction false} MeasureTotalAppend(a: seq<MainRow>, b: seq<MainRow>, j: nat)
    requires j < MeasureCount
    ensures MeasureTotal(a + b, j) == MeasureTotal(a, j) + MeasureTotal(b, j)
  {
    if a != [] {
      assert (a + b)[0] == a[0];
      assert (a + b)[1..] == a[1..] + b;
      MeasureTotalAppend(a[1..], b, j);
    } else {
      assert a + b == b;
    }
  }

  /** Each Counts group's abortedsessioncount is the number of its rows
      whose reason is 'aborted-session', and each of its 14 sums is the sum
      of that counter over its rows. */
  lemma CountsGroupValues(rows: seq<MainRow>, g: CountsGroup)
    requires g in CountsRollup(rows)
    ensures g.abortedsessions == AbortedCount(RowsWith(rows, g.dims))
    ensures forall j :: 0 <= j < MeasureCount ==> g.sums[j] == MeasureTotal(RowsWith(rows, g.dims), j)
  {
    var gs := CountsRollup(rows);
    var i :| 0 <= i < |gs| && gs[i] == g;
    assert g == CountsGroupOf(rows, g.dims);
    AbortedPairsGroup(rows, g.dims);
    forall j | 0 <= j < MeasureCount ensures g.sums[j] == MeasureTotal(RowsWith(rows, g.dims), j) {
      MeasurePairsGroup(rows, j, g.dims);
    }
  }

  lemma {:induction false} AbortedWeights(rows: seq<MainRow>)
    ensures Sum(Weights(AbortedPairs(rows))) == AbortedCount(rows)
  {
    if rows != [] {
      assert Weights(AbortedPairs(rows))[1..] == Weights(AbortedPairs(rows[1..]));
      assert AbortedPairs(rows)[1..] == AbortedPairs(rows[1..]);
      AbortedWeights(rows[1..]);
    }
  }

  lemma {:induction false} MeasureWeights(rows: seq<MainRow>, j: nat)
    requires j < MeasureCount
    ensures Sum(Weights(MeasurePairs(rows, j))) == MeasureTotal(rows, j)
  {
    if rows != [] {
      assert Weights(MeasurePairs(rows, j))[1..] == Weights(MeasurePairs(rows[1..], j));
      MeasureWeights(rows[1..], j);
    }
  }

  /** Every union row's dimensions are among the distinct keys. */
  lemma CountsKeysCover(rows: seq<MainRow>, ps: seq<(Dims, int)>)
    requires |ps| == |rows|
    requires forall i :: 0 <= i < |rows| ==> ps[i].0 == rows[i].dims
    ensures forall i :: 0 <= i < |ps| ==> ps[i].0 in Distinct(DimsOf(rows))
  {
    assert forall i :: 0 <= i < |rows| ==> DimsOf(rows)[i] == rows[i].dims;
  }

  lemma CountsConserveAborted(rows: seq<MainRow>)
    ensures Sum(AbortedColumn(CountsRollup(rows))) == AbortedCount(rows)
  {
    var ks := Distinct(DimsOf(rows));
    var ps := AbortedPairs(rows);
    assert AbortedColumn(CountsRollup(rows)) == PerKey(ks, ps);
    CountsKeysCover(rows, ps);
    Conservation(ks, ps);
    AbortedWeights(rows);
  }

  lemma CountsConserveMeasure(rows: seq<MainRow>, j: nat)
    requires j < MeasureCount
    ensures Sum(MeasureColumn(CountsRollup(rows), j)) == MeasureTotal(rows, j)
  {
    var ks := Distinct(DimsOf(rows));
    var ps := MeasurePairs(rows, j);
    assert MeasureColumn(CountsRollup(rows), j) == PerKey(ks, ps);
    CountsKeysCover(rows, ps);
    Conservation(ks, ps);
    MeasureWeights(rows, j);
  }

  /** Counts neither loses nor double-counts a row: over all output rows,
      abortedsessioncount adds up to the number of aborted sessions in the
      union, and each summed counter adds up to its total in the union. */
  lemma CountsConservation(rows: seq<MainRow>)
    ensures Sum(AbortedColumn(CountsRollup(rows))) == AbortedCount(rows)
    ensures forall j :: 0 <= j < MeasureCount ==> Sum(MeasureColumn(CountsRollup(rows), j)) == MeasureTotal(rows, j)
  {
    CountsConserveAborted(rows);
    forall j | 0 <= j < MeasureCount ensures Sum(MeasureColumn(CountsRollup(rows), j)) == MeasureTotal(rows, j) {
      CountsConserveMeasure(rows, j);
    }
  }

  // ----- Crashes -----

  datatype CrashKey = CrashKey(dims: Dims, hascrashenvironment: Value)

  datatype CrashGroup = CrashGroup(key: CrashKey, crashes: int)

  function CrashKeys(rows: seq<CrashRow>): (ks: seq<CrashKey>)
    ensures |ks| == |rows|
  {
    seq(|rows|, i requires 0 <= i < |rows| => CrashKey(rows[i].dims, rows[i].hascrashenvironment))
  }

  function CrashGroupKeys(gs: seq<CrashGroup>): (ks: seq<CrashKey>)
    ensures |ks| == |gs|
  {
    seq(|gs|, i requires 0 <= i < |gs| => gs[i].key)
  }

  /** The Crashes query over the union rows: one output row per distinct
      (dimensions, hascrashenvironment) present, and none other. */
  function CrashesRollup(rows: seq<CrashRow>): (gs: seq<CrashGroup>)
    ensures NoDups(CrashGroupKeys(gs))
    ensures forall i :: 0 <= i < |rows| ==> CrashKeys(rows)[i] in CrashGroupKeys(gs)
    ensures forall k :: 0 <= k < |gs| ==> gs[k].key in CrashKeys(rows)
  {
    var keys := CrashKeys(rows);
    var ks := Distinct(keys);
    var gs := seq(|ks|, i requires 0 <= i < |ks| => CrashGroup(ks[i], SumFor(Ones(keys), ks[i])));
    assert CrashGroupKeys(gs) == ks;
    gs
  }

  function CrashColumn(gs: seq<CrashGroup>): seq<int> {
    seq(|gs|, i requires 0 <= i < |gs| => gs[i].crashes)
  }

  /** Each Crashes group's count is the number of union rows with its key. */
  lemma CrashGroupCount(rows: seq<CrashRow>, g: CrashGroup)
    requires g in CrashesRollup(rows)
    ensures g.crashes == multiset(CrashKeys(rows))[g.key]
  {
    var gs := CrashesRollup(rows);
    var i :| 0 <= i < |gs| && gs[i] == g;
    assert g.crashes == SumFor(Ones(CrashKeys(rows)), g.key);
    OnesCount(CrashKeys(rows), g.key);
  }

  /** The Crashes counts add up to the number of union rows. */
  lemma CrashesConservation(rows: seq<CrashRow>)
    ensures Sum(CrashColumn(CrashesRollup(rows))) == |rows|
  {
    var keys := CrashKeys(rows);
    var ks := Distinct(keys);
    assert CrashColumn(CrashesRollup(rows)) == PerKey(ks, Ones(keys));
    assert forall i :: 0 <= i < |keys| ==> Ones(keys)[i].0 == keys[i];
    Conservation(ks, Ones(keys));
    OnesWeigh(keys);
  }

  /** Two crash rows that differ only in hascrashenvironment are two
      output rows with a count of one each, not one merged row. */
  lemma CrashesSplitOnEnvironment(a: CrashRow, b: CrashRow)
    requires a.crashdate == b.crashdate && a.dims == b.dims
    requires a.hascrashenvironment != b.hascrashenvironment
    ensures CrashesRollup([a, b]) == [CrashGroup(CrashKey(a.dims, a.hascrashenvironment), 1),
                                      CrashGroup(CrashKey(b.dims, b.hascrashenvironment), 1)]
  {
    var ka, kb := CrashKey(a.dims, a.hascrashenvironment), CrashKey(b.dims, b.hascrashenvironment);
    var keys := CrashKeys([a, b]);
    assert keys == [ka, kb];
    assert keys[..1] == [ka] && keys[..1][..0] == [];
    assert Distinct(keys) == [ka, kb];
    var ones := Ones(keys);
    assert ones == [(ka, 1), (kb, 1)];
    var rest: seq<(CrashKey, int)> := ones[1..];
    assert rest == [(kb, 1)] && rest[1..] == [];
    assert SumFor(rest[1..], ka) == 0 && SumFor(rest[1..], kb) == 0;
    assert SumFor(rest, ka) == 0 && SumFor(rest, kb) == 1;
    assert SumFor(ones, ka) == 1 && SumFor(ones, kb) == 1;
  }

  // ----- Actives -----

  /** The dates a client has among the rows. */
  function ClientDates(rows: seq<MainRow>, c: Value): set<Date> {
    set j | 0 <= j < |rows| && rows[j].clientid == c :: rows[j].subsessiondate
  }

  function Clients(rows: seq<MainRow>): set<Value> {
    set j | 0 <= j < |rows| :: rows[j].clientid
  }

  /** `DENSE_RANK() OVER (PARTITION BY clientid ORDER BY subsessiondate
      ASC)` of row `i`: how many distinct dates of its client are not
      after its own. */
  function DenseRank(rows: seq<MainRow>, i: nat): nat
    requires i < |rows|
  {
    |set j | 0 <= j < |rows| && rows[j].clientid == rows[i].clientid
                && rows[j].subsessiondate <= rows[i].subsessiondate :: rows[j].subsessiondate|
  }

  /** The rows of the same client that `ROW_NUMBER() OVER (PARTITION BY
      clientid ORDER BY subsessiondate DESC)` numbers before row `i`:
      later dates, and (the engine's tie-break, here union order) earlier
      rows with the same date. */
  function Ahead(rows: seq<MainRow>, i: nat): set<nat>
    requires i < |rows|
  {
    set j: nat | j < |rows| && rows[j].clientid == rows[i].clientid
                && (rows[j].subsessiondate > rows[i].subsessiondate
                    || (rows[j].subsessiondate == rows[i].subsessiondate && j < i))
  }

  function RowNumber(rows: seq<MainRow>, i: nat): nat
    requires i < |rows|
  {
    1 + |Ahead(rows, i)|
  }

  /** The rows `WHERE rownumber = 1` keeps, as indices, in union order. */
  function SurvivorsFrom(rows: seq<MainRow>, i: nat): (r: seq<nat>)
    requires i <= |rows|
    ensures forall k :: 0 <= k < |r| ==> i <= r[k] < |rows| && RowNumber(rows, r[k]) == 1
    ensures forall x :: i <= x < |rows| && RowNumber(rows, x) == 1 ==> x in r
    ensures forall k, l :: 0 <= k < l < |r| ==> r[k] < r[l]
    decreases |rows| - i
  {
    if i == |rows| then []
    else (if RowNumber(rows, i) == 1 then [i] else []) + SurvivorsFrom(rows, i + 1)
  }

  function Survivors(rows: seq<MainRow>): seq<nat> {
    SurvivorsFrom(rows, 0)
  }

  datatype ActivesKey = ActivesKey(dims: ActiveDims, activedays: nat)

  datatype ActivesGroup = ActivesGroup(key: ActivesKey, users: int)

  function SurvivorKeys(rows: seq<MainRow>): (ks: seq<ActivesKey>)
    ensures |ks| == |Survivors(rows)|
  {
    var s := Survivors(rows);
    seq(|s|, k requires 0 <= k < |s| => ActivesKey(ActiveDimsOf(rows[s[k]].dims), DenseRank(rows, s[k])))
  }

  function ActivesGroupKeys(gs: seq<ActivesGroup>): (ks: seq<ActivesKey>)
    ensures |ks| == |gs|
  {
    seq(|gs|, i requires 0 <= i < |gs| => gs[i].key)
  }

  /** The Actives query over the union rows: one output row per distinct
      (dimensions, activedays) among the kept rows, and none other. */
  function ActivesRollup(rows: seq<MainRow>): (gs: seq<ActivesGroup>)
    ensures NoDups(ActivesGroupKeys(gs))
    ensures forall k :: 0 <= k < |SurvivorKeys(rows)| ==> SurvivorKeys(rows)[k] in ActivesGroupKeys(gs)
    ensures forall k :: 0 <= k < |gs| ==> gs[k].key in SurvivorKeys(rows)
  {
    var keys := SurvivorKeys(rows);
    var ks := Distinct(keys);
    var gs := seq(|ks|, i requires 0 <= i < |ks| => ActivesGroup(ks[i], SumFor(Ones(keys), ks[i])));
    assert ActivesGroupKeys(gs) == ks;
    gs
  }

  function UsersColumn(gs: seq<ActivesGroup>): seq<int> {
    seq(|gs|, i requires 0 <= i < |gs| => gs[i].users)
  }

  /** Being numbered ahead is transitive. */
  lemma AheadTransitive(rows: seq<MainRow>, i: nat, j: nat)
    requires i < |rows| && j in Ahead(rows, i)
    ensures Ahead(rows, j) <= Ahead(rows, i) - {j}
  {
  }

  /** Some row of the same client is numbered 1: follow rows that are
      numbered ahead until none is; each step shrinks the set ahead. */
  lemma {:induction false} SurvivorExists(rows: seq<MainRow>, i: nat)
    requires i < |rows|
    ensures exists x :: 0 <= x < |rows| && rows[x].clientid == rows[i].clientid && RowNumber(rows, x) == 1
    decreases |Ahead(rows, i)|
  {
    if Ahead(rows, i) != {} {
      var j :| j in Ahead(rows, i);
      AheadTransitive(rows, i, j);
      SubsetCard(Ahead(rows, j), Ahead(rows, i) - {j});
      assert |Ahead(rows, i) - {j}| == |Ahead(rows, i)| - 1;
      SurvivorExists(rows, j);
    }
  }

  lemma SubsetCard<T>(a: set<T>, b: set<T>)
    requires a <= b
    ensures |a| <= |b|
  {
    assert b == a + (b - a);
    assert a * (b - a) == {};
  }

  /** Of two rows of one client, one is numbered ahead of the other. */
  lemma AheadTotal(rows: seq<MainRow>, x: nat, y: nat)
    requires x < |rows| && y < |rows| && x != y
    ensures rows[x].clientid == rows[y].clientid ==> x in Ahead(rows, y) || y in Ahead(rows, x)
  {
  }

  /** A later row of the same client is numbered ahead. */
  lemma LaterIsAhead(rows: seq<MainRow>, x: nat, j: nat)
    requires x < |rows| && j < |rows|
    ensures rows[j].clientid == rows[x].clientid && rows[j].subsessiondate > rows[x].subsessiondate
            ==> j in Ahead(rows, x)
  {
  }

  /** At most one row per client is numbered 1. */
  lemma OneSurvivorPerClient(rows: seq<MainRow>, x: nat, y: nat)
    requires x < |rows| && y < |rows| && x != y
    requires RowNumber(rows, x) == 1 && RowNumber(rows, y) == 1
    ensures rows[x].clientid != rows[y].clientid
  {
    AheadTotal(rows, x, y);
  }

  /** The row kept for a client is one of its latest-dated rows, and its
      activedays is the number of distinct dates that client has. */
  lemma SurvivorIsLatest(rows: seq<MainRow>, x: nat)
    requires x < |rows| && RowNumber(rows, x) == 1
    ensures forall j :: 0 <= j < |rows| && rows[j].clientid == rows[x].clientid ==>
              rows[j].subsessiondate <= rows[x].subsessiondate
    ensures DenseRank(rows, x) == |ClientDates(rows, rows[x].clientid)|
  {
    forall j | 0 <= j < |rows| && rows[j].clientid == rows[x].clientid
      ensures rows[j].subsessiondate <= rows[x].subsessiondate
    {
      LaterIsAhead(rows, x, j);
    }
    assert (set j | 0 <= j < |rows| && rows[j].clientid == rows[x].clientid
                && rows[j].subsessiondate <= rows[x].subsessiondate :: rows[j].subsessiondate)
        == ClientDates(rows, rows[x].clientid);
  }

  function SurvivorClientIds(rows: seq<MainRow>): (cs: seq<Value>)
    ensures |cs| == |Survivors(rows)|
  {
    var s := Survivors(rows);
    seq(|s|, k requires 0 <= k < |s| => rows[s[k]].clientid)
  }

  /** The clients of the kept rows are exactly the clients of the union,
      each once. */
  lemma SurvivorClients(rows: seq<MainRow>)
    ensures NoDups(SurvivorClientIds(rows))
    ensures (set c | c in SurvivorClientIds(rows)) == Clients(rows)
    ensures |Survivors(rows)| == |Clients(rows)|
  {
    var s := Survivors(rows);
    var cs := SurvivorClientIds(rows);
    forall k, l | 0 <= k < l < |cs| ensures cs[k] != cs[l] {
      OneSurvivorPerClient(rows, s[k], s[l]);
    }
    forall c | c in Clients(rows) ensures c in cs {
      var i :| 0 <= i < |rows| && rows[i].clientid == c;
      SurvivorExists(rows, i);
      var x :| 0 <= x < |rows| && rows[x].clientid == c && RowNumber(rows, x) == 1;
      var k := IndexOf(s, x);
      assert cs[k] == c;
    }
    assert forall k :: 0 <= k < |cs| ==> cs[k] in Clients(rows);
    assert (set c | c in cs) == Clients(rows);
    NoDupsCard(cs);
  }

  /** The kept row of every client carries that client's number of
      distinct dates as activedays. */
  lemma SurvivorActiveDays(rows: seq<MainRow>)
    ensures forall k :: 0 <= k < |Survivors(rows)| ==>
              SurvivorKeys(rows)[k].activedays == |ClientDates(rows, rows[Survivors(rows)[k]].clientid)|
  {
    var s := Survivors(rows);
    forall k | 0 <= k < |s|
      ensures SurvivorKeys(rows)[k].activedays == |ClientDates(rows, rows[s[k]].clientid)|
    {
      SurvivorIsLatest(rows, s[k]);
    }
  }

  /** Each Actives group counts the kept rows with its key. */
  lemma ActivesGroupCount(rows: seq<MainRow>, g: ActivesGroup)
    requires g in ActivesRollup(rows)
    ensures g.users == multiset(SurvivorKeys(rows))[g.key]
  {
    var gs := ActivesRollup(rows);
    var i :| 0 <= i < |gs| && gs[i] == g;
    assert g.users == SumFor(Ones(SurvivorKeys(rows)), g.key);
    OnesCount(SurvivorKeys(rows), g.key);
  }

  /** The Actives counts add up to the number of kept rows. */
  lemma ActivesCountKept(rows: seq<MainRow>)
    ensures Sum(UsersColumn(ActivesRollup(rows))) == |Survivors(rows)|
  {
    var keys := SurvivorKeys(rows);
    var ks := Distinct(keys);
    var ones := Ones(keys);
    assert UsersColumn(ActivesRollup(rows)) == PerKey(ks, ones);
    assert forall i :: 0 <= i < |ones| ==> ones[i].0 == keys[i];
    Conservation(ks, ones);
    OnesWeigh(keys);
  }

  /** Actives counts each client of the union exactly once: the counts
      add up to the number of distinct clients. */
  lemma ActivesConservation(rows: seq<MainRow>)
    ensures Sum(UsersColumn(ActivesRollup(rows))) == |Clients(rows)|
  {
    ActivesCountKept(rows);
    SurvivorClients(rows);
  }

  /** A set of integers inside an interval has no more elements than the
      interval. */
  lemma {:induction false} IntervalCard(s: set<int>, lo: int, hi: int)
    requires forall x :: x in s ==> lo <= x < hi
    ensures |s| <= if hi > lo then hi - lo else 0
    decreases hi - lo
  {
    if hi <= lo {
      assert s == {};
    } else {
      IntervalCard(s - {hi - 1}, lo, hi - 1);
    }
  }

  /** With the daily filter (every row dated `day`) every activedays is 1:
      a client's rank counts one date only. */
  lemma DailyActiveDaysIsOne(rows: seq<MainRow>, day: Date)
    requires forall i :: 0 <= i < |rows| ==> rows[i].subsessiondate == day
    ensures forall k :: 0 <= k < |SurvivorKeys(rows)| ==> SurvivorKeys(rows)[k].activedays == 1
  {
    SurvivorActiveDays(rows);
    var s := Survivors(rows);
    forall k | 0 <= k < |s| ensures SurvivorKeys(rows)[k].activedays == 1 {
      var c := rows[s[k]].clientid;
      assert rows[s[k]].subsessiondate in ClientDates(rows, c);
      assert ClientDates(rows, c) == {day};
    }
  }

  /** With the weekly filter (rows dated within the 7 days ending `day`)
      activedays lies between 1 and 7. */
  lemma WeeklyActiveDaysInWeek(rows: seq<MainRow>, day: Date)
    requires forall i :: 0 <= i < |rows| ==> day - 7 < rows[i].subsessiondate <= day
    ensures forall k :: 0 <= k < |SurvivorKeys(rows)| ==> 1 <= SurvivorKeys(rows)[k].activedays <= 7
  {
    SurvivorActiveDays(rows);
    var s := Survivors(rows);
    forall k | 0 <= k < |s| ensures 1 <= SurvivorKeys(rows)[k].activedays <= 7 {
      var c := rows[s[k]].clientid;
      assert rows[s[k]].subsessiondate in ClientDates(rows, c);
      IntervalCard(ClientDates(rows, c), day - 6, day + 1);
    }
  }
}
