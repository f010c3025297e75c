/** The two function views of the project's URL module: `current_user_view`
    (who am I, and may I manage) and `dashboard_analytics` (revenue and profit
    per calendar month, in ascending month order). */
module Analytics {
  import opened Common
  import opened UsersView
  import opened FinanceView

  // ---------------------------------------------------------------------------
  // current_user_view
  // ---------------------------------------------------------------------------

  datatype Profile = Profile(username: string, isManager: bool, isSales: bool)

  function CurrentUserView(u: User): (p: Profile)
    ensures p.username == u.username
    ensures p.isManager <==> u.isSuperuser || "Manager" in u.groups
    ensures p.isSales <==> "Sales" in u.groups
  {
    Profile(u.username, u.isSuperuser || "Manager" in u.groups, "Sales" in u.groups)
  }

  /** The session's manager flag and the user list's role label agree. */
  lemma ManagerFlagMatchesRole(u: User)
    ensures CurrentUserView(u).isManager <==> RoleLabel(u) == "Manager"
    ensures CurrentUserView(u).isManager <==> IsManager(u)
  {
  }

  // ---------------------------------------------------------------------------
  // dashboard_analytics: monthly totals
  // ---------------------------------------------------------------------------

  datatype YearMonth = YearMonth(year: int, month: Month)

  /** A date as the row holds it: a date object, or text from SQLite. Text is
      parsed with `strptime(d[:10], "%Y-%m-%d")`; date parsing is not part of
      this model, so a text date carries the outcome of that parse. */
  datatype RawDate = DateValue(ym: YearMonth) | DateText(parsed: Option<YearMonth>)

  /** `values('date', 'parts_cost', 'labor_cost')` of a completed job. */
  datatype JobRow = JobRow(date: RawDate, partsCost: Option<int>, laborCost: Option<int>)

  /** `values('sold_date', 'selling_price', 'cost_price')` of a sold car. */
  datatype CarRow = CarRow(soldDate: Option<RawDate>, sellingPrice: Option<int>, costPrice: Option<int>)

  /** The bucket of a date, None when a text date does not parse. */
  function KeyOf(d: RawDate): Option<YearMonth>
  {
    match d
    case DateValue(ym) => Some(ym)
    case DateText(p) => p
  }

  function JobKey(j: JobRow): Option<YearMonth> { KeyOf(j.date) }

  function JobAmount(j: JobRow): int { OrZero(j.partsCost) + OrZero(j.laborCost) }

  /** No sold date, or one that does not parse: the car is skipped. */
  function CarKey(c: CarRow): Option<YearMonth>
  {
    if c.soldDate.None? then None else KeyOf(c.soldDate.value)
  }

  function CarProfitOf(c: CarRow): int { OrZero(c.sellingPrice) - OrZero(c.costPrice) }

  type Totals = Dict<YearMonth, int>

  /** `monthly_totals[key]`, 0 for a key the defaultdict has not seen. */
  function TotalAt(d: Totals, k: YearMonth): int
  {
    if k in d.vals then d.vals[k] else 0
  }

  function AddJob(d: Totals, j: JobRow): Totals
  {
    if JobKey(j).None? then d
    else d.Put(JobKey(j).value, TotalAt(d, JobKey(j).value) + JobAmount(j))
  }

  /** Only a positive profit touches the defaultdict. */
  function AddCar(d: Totals, c: CarRow): Totals
  {
    if CarKey(c).None? || CarProfitOf(c) <= 0 then d
    else d.Put(CarKey(c).value, TotalAt(d, CarKey(c).value) + CarProfitOf(c))
  }

  function JobsPhase(jobs: seq<JobRow>): (d: Totals)
    ensures d.Valid()
  {
    if jobs == [] then EmptyDict() else AddJob(JobsPhase(jobs[..|jobs| - 1]), jobs[|jobs| - 1])
  }

  function CarsPhase(d: Totals, cars: seq<CarRow>): (r: Totals)
    ensures d.Valid() ==> r.Valid()
  {
    if cars == [] then d else AddCar(CarsPhase(d, cars[..|cars| - 1]), cars[|cars| - 1])
  }

  function TotalsSpec(jobs: seq<JobRow>, cars: seq<CarRow>): (d: Totals)
    ensures d.Valid()
  {
    CarsPhase(JobsPhase(jobs), cars)
  }

  /** What the jobs and the cars of one month bring. */
  function JobsSum(jobs: seq<JobRow>, k: YearMonth): int
  {
    if jobs == [] then 0
    else JobsSum(jobs[..|jobs| - 1], k) + (if JobKey(jobs[|jobs| - 1]) == Some(k) then JobAmount(jobs[|jobs| - 1]) else 0)
  }

  function CarsSum(cars: seq<CarRow>, k: YearMonth): int
  {
    var c := if cars == [] then CarRow(None, None, None) else cars[|cars| - 1];
    if cars == [] then 0
    else CarsSum(cars[..|cars| - 1], k) + (if CarKey(c) == Some(k) && CarProfitOf(c) > 0 then CarProfitOf(c) else 0)
  }

  predicate JobsHit(jobs: seq<JobRow>, k: YearMonth)
  {
    exists i :: 0 <= i < |jobs| && JobKey(jobs[i]) == Some(k)
  }

  predicate CarsHit(cars: seq<CarRow>, k: YearMonth)
  {
    exists i :: 0 <= i < |cars| && CarKey(cars[i]) == Some(k) && CarProfitOf(cars[i]) > 0
  }

  lemma JobsHitSnoc(jobs: seq<JobRow>, k: YearMonth)
    requires jobs != []
    ensures JobsHit(jobs, k) <==> JobsHit(jobs[..|jobs| - 1], k) || JobKey(jobs[|jobs| - 1]) == Some(k)
  {
    var init := jobs[..|jobs| - 1];
    if JobsHit(init, k) {
      var i :| 0 <= i < |init| && JobKey(init[i]) == Some(k);
      assert jobs[i] == init[i];
    }
    if JobsHit(jobs, k) && JobKey(jobs[|jobs| - 1]) != Some(k) {
      var i :| 0 <= i < |jobs| && JobKey(jobs[i]) == Some(k);
      assert i < |init| && init[i] == jobs[i];
    }
  }

  lemma CarsHitSnoc(cars: seq<CarRow>, k: YearMonth)
    requires cars != []
    ensures CarsHit(cars, k) <==>
            CarsHit(cars[..|cars| - 1], k) || (CarKey(cars[|cars| - 1]) == Some(k) && CarProfitOf(cars[|cars| - 1]) > 0)
  {
    var init := cars[..|cars| - 1];
    if CarsHit(init, k) {
      var i :| 0 <= i < |init| && CarKey(init[i]) == Some(k) && CarProfitOf(init[i]) > 0;
      assert cars[i] == init[i];
    }
    if CarsHit(cars, k) && !(CarKey(cars[|cars| - 1]) == Some(k) && CarProfitOf(cars[|cars| - 1]) > 0) {
      var i :| 0 <= i < |cars| && CarKey(cars[i]) == Some(k) && CarProfitOf(cars[i]) > 0;
      assert i < |init| && init[i] == cars[i];
    }
  }

  lemma {:induction false} JobsPhaseAt(jobs: seq<JobRow>, k: YearMonth)
    ensures k in JobsPhase(jobs).vals <==> JobsHit(jobs, k)
    ensures TotalAt(JobsPhase(jobs), k) == JobsSum(jobs, k)
  {
    if jobs != [] {
      JobsPhaseAt(jobs[..|jobs| - 1], k);
      JobsHitSnoc(jobs, k);
    }
  }

  lemma {:induction false} CarsPhaseAt(d: Totals, cars: seq<CarRow>, k: YearMonth)
    ensures k in CarsPhase(d, cars).vals <==> k in d.vals || CarsHit(cars, k)
    ensures TotalAt(CarsPhase(d, cars), k) == TotalAt(d, k) + CarsSum(cars, k)
  {
    if cars != [] {
      CarsPhaseAt(d, cars[..|cars| - 1], k);
      CarsHitSnoc(cars, k);
    }
  }

  /** A month has a bucket iff a completed job or a profitable dated sale
      falls in it; its total is the jobs' parts plus labor and the sales'
      positive profits of that month. */
  lemma TotalsAt(jobs: seq<JobRow>, cars: seq<CarRow>, k: YearMonth)
    ensures k in TotalsSpec(jobs, cars).vals <==> JobsHit(jobs, k) || CarsHit(cars, k)
    ensures TotalAt(TotalsSpec(jobs, cars), k) == JobsSum(jobs, k) + CarsSum(cars, k)
  {
    JobsPhaseAt(jobs, k);
    CarsPhaseAt(JobsPhase(jobs), cars, k);
  }

  /** A job whose text date does not parse changes nothing. */
  lemma UnparsedJobSkipped(jobs: seq<JobRow>, j: JobRow)
    requires j.date.DateText? && j.date.parsed.None?
    ensures JobsPhase(jobs + [j]) == JobsPhase(jobs)
  {
    assert (jobs + [j])[..|jobs|] == jobs;
  }

  /** A car without a sold date, or with a profit that is not positive,
      changes nothing. */
  lemma CarSkipped(d: Totals, cars: seq<CarRow>, c: CarRow)
    requires c.soldDate.None? || CarProfitOf(c) <= 0
    ensures CarsPhase(d, cars + [c]) == CarsPhase(d, cars)
  {
    assert (cars + [c])[..|cars|] == cars;
  }

  // ---------------------------------------------------------------------------
  // dashboard_analytics: the chart
  // ---------------------------------------------------------------------------

  /** The tuple order on (year, month) as one integer. */
  function MonthIndex(k: YearMonth): int { k.year * 12 + (k.month - 1) }

  lemma MonthIndexInjective(a: YearMonth, b: YearMonth)
    ensures MonthIndex(a) == MonthIndex(b) ==> a == b
  {
    assert a.year < b.year ==> MonthIndex(a) < b.year * 12;
    assert b.year < a.year ==> MonthIndex(b) < a.year * 12;
  }

  datatype ChartPoint = ChartPoint(name: string, total: int)

  /** `sorted(monthly_totals.keys())`. */
  function SortedKeys(d: Totals): seq<YearMonth>
  {
    SortByKey(d.keys, MonthIndex)
  }

  function ChartSpec(d: Totals): (chart: seq<ChartPoint>)
    requires d.Valid()
  {
    var ks := SortedKeys(d);
    seq(|ks|, i requires 0 <= i < |ks| => ChartPoint(MonthAbbrev(ks[i].month), TotalAt(d, ks[i])))
  }

  lemma {:induction false} DistinctCount<T>(s: seq<T>, x: T)
    requires Distinct(s)
    ensures multiset(s)[x] <= 1
  {
    if s != [] {
      var init := s[..|s| - 1];
      assert s == init + [s[|s| - 1]];
      DistinctCount(init, x);
      forall i | 0 <= i < |init| ensures init[i] != s[|s| - 1] {
        assert init[i] == s[i];
      }
      assert s[|s| - 1] !in init;
    }
  }

  lemma TwoCopies<T>(s: seq<T>, i: int, j: int)
    requires 0 <= i < j < |s|
    ensures s[i] == s[j] ==> multiset(s)[s[i]] >= 2
  {
    assert s == s[..j] + [s[j]] + s[j + 1..];
    assert s[i] in s[..j];
  }

  lemma DistinctByCount<T>(s: seq<T>)
    requires forall x :: multiset(s)[x] <= 1
    ensures Distinct(s)
  {
    forall i, j | 0 <= i < j < |s| ensures s[i] != s[j] {
      TwoCopies(s, i, j);
    }
  }

  /** One point per bucket, in strictly ascending (year, month) order, each
      named by its month and carrying that bucket's total. */
  lemma ChartShape(d: Totals)
    requires d.Valid()
    ensures |ChartSpec(d)| == |d.keys|
    ensures multiset(SortedKeys(d)) == multiset(d.keys)
    ensures forall i, j :: 0 <= i < j < |SortedKeys(d)| ==> MonthIndex(SortedKeys(d)[i]) < MonthIndex(SortedKeys(d)[j])
    ensures forall i :: 0 <= i < |ChartSpec(d)| ==>
              SortedKeys(d)[i] in d.vals && ChartSpec(d)[i] == ChartPoint(MonthAbbrev(SortedKeys(d)[i].month), d.vals[SortedKeys(d)[i]])
  {
    var ks := SortedKeys(d);
    SortByKeySorted(d.keys, MonthIndex);
    forall x ensures multiset(ks)[x] <= 1 {
      DistinctCount(d.keys, x);
    }
    DistinctByCount(ks);
    forall i, j | 0 <= i < j < |ks| ensures MonthIndex(ks[i]) < MonthIndex(ks[j]) {
      MonthIndexInjective(ks[i], ks[j]);
    }
    forall i | 0 <= i < |ks| ensures ks[i] in d.vals {
      assert ks[i] in multiset(ks);
    }
  }

  /** `dashboard_analytics` less `lead_sources`: both loops, then the chart. */
  method DashboardAnalytics(jobs: seq<JobRow>, cars: seq<CarRow>) returns (chart: seq<ChartPoint>)
    ensures chart == ChartSpec(TotalsSpec(jobs, cars))
  {
    var totals := CollectJobs(jobs);
    totals := CollectCars(totals, cars);
    chart := BuildChart(totals);
  }

  /** The chart loop over `sorted(monthly_totals.keys())`. */
  method BuildChart(totals: Totals) returns (chart: seq<ChartPoint>)
    requires totals.Valid()
    ensures chart == ChartSpec(totals)
  {
    var keys := SortedKeys(totals);
    chart := ChartRows(totals, keys);
    ghost var spec := ChartSpec(totals);
    forall m | 0 <= m < |chart| ensures chart[m] == spec[m] { }
  }

  /** One point per key, in the order of `keys`. */
  method ChartRows(totals: Totals, keys: seq<YearMonth>) returns (chart: seq<ChartPoint>)
    ensures |chart| == |keys|
    ensures forall m :: 0 <= m < |keys| ==> chart[m] == ChartPoint(MonthAbbrev(keys[m].month), TotalAt(totals, keys[m]))
  {
    chart := [];
    var i := 0;
    while i < |keys|
      invariant 0 <= i <= |keys|
      invariant |chart| == i
      invariant forall m :: 0 <= m < i ==> chart[m] == ChartPoint(MonthAbbrev(keys[m].month), TotalAt(totals, keys[m]))
    {
      chart := chart + [ChartPoint(MonthAbbrev(keys[i].month), TotalAt(totals, keys[i]))];
      i := i + 1;
    }
  }

  /** The service-job loop. */
  method CollectJobs(jobs: seq<JobRow>) returns (totals: Totals)
    ensures totals == JobsPhase(jobs)
  {
    totals := EmptyDict();
    var i := 0;
    while i < |jobs|
      invariant 0 <= i <= |jobs|
      invariant totals == JobsPhase(jobs[..i])
    {
      assert jobs[..i + 1][..i] == jobs[..i];
      var job := jobs[i];
      var key := KeyOf(job.date);
      if key.Some? {
        totals := totals.Put(key.value, TotalAt(totals, key.value) + (OrZero(job.partsCost) + OrZero(job.laborCost)));
      }
      i := i + 1;
    }
    assert jobs[..i] == jobs;
  }

  /** The sold-car loop. */
  method CollectCars(start: Totals, cars: seq<CarRow>) returns (totals: Totals)
    ensures totals == CarsPhase(start, cars)
  {
    totals := start;
    var i := 0;
    while i < |cars|
      invariant 0 <= i <= |cars|
      invariant totals == CarsPhase(start, cars[..i])
    {
      assert cars[..i + 1][..i] == cars[..i];
      var car := cars[i];
      if car.soldDate.Some? {
        var key := KeyOf(car.soldDate.value);
        if key.Some? {
          var profit := OrZero(car.sellingPrice) - OrZero(car.costPrice);
          if profit > 0 {
            totals := totals.Put(key.value, TotalAt(totals, key.value) + profit);
          }
        }
      }
      i := i + 1;
    }
    assert cars[..i] == cars;
  }
}
