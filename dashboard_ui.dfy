/** The dashboard page (`Dashboard`): the stock, active-lead and service-job
    counters and the five most recent activities. */
module DashboardUi {
  import opened Common
  import opened UiCommon
  import ActivityLog

  datatype CarRow = CarRow(id: int, status: string)

  datatype Stats = Stats(totalCars: int, activeLeads: int, serviceJobs: int, inventoryValue: int)

  /** `list.filter(p).length`. */
  function Count<T>(s: seq<T>, p: T -> bool): (n: nat)
    ensures n <= |s|
  {
    |Filter(s, p)|
  }

  /** Every element is counted by `p` or by its negation, never both. */
  lemma {:induction false} CountSplit<T>(s: seq<T>, p: T -> bool, q: T -> bool)
    requires forall x :: q(x) == !p(x)
    ensures Count(s, p) + Count(s, q) == |s|
  {
    if s != [] {
      CountSplit(s[1..], p, q);
    }
  }

  /** A count reaches the length exactly when every element is counted. */
  lemma CountAll<T>(s: seq<T>, p: T -> bool)
    ensures Count(s, p) == |s| <==> forall i :: 0 <= i < |s| ==> p(s[i])
  {
    var q := (x: T) => !p(x);
    CountSplit(s, p, q);
    if Count(s, p) == |s| {
      assert Filter(s, q) == [];
    } else {
      assert Filter(s, q) != [];
      assert !p(Filter(s, q)[0]) && Filter(s, q)[0] in s;
    }
  }

  predicate InStock(c: CarRow) { c.status == "AVAILABLE" || c.status == "RESERVED" }

  predicate StillOpen(l: ActivityLog.LeadRow) { l.status != "SOLD" && l.status != "LOST" }

  /** The four counters; the inventory value is the figure the stats
      endpoint reports. */
  function StatsOf(cars: seq<CarRow>, leads: seq<ActivityLog.LeadRow>, services: seq<ActivityLog.ServiceRow>, inventoryValue: int): (r: Stats)
    ensures r.totalCars == Count(cars, InStock) && r.activeLeads == Count(leads, StillOpen)
    ensures r.serviceJobs == |services| && r.inventoryValue == inventoryValue
    ensures 0 <= r.totalCars <= |cars| && 0 <= r.activeLeads <= |leads|
  {
    Stats(Count(cars, InStock), Count(leads, StillOpen), |services|, inventoryValue)
  }

  /** Cars in stock plus the rest make up the whole table, and the same for
      open and closed leads. */
  lemma StatsPartition(cars: seq<CarRow>, leads: seq<ActivityLog.LeadRow>)
    ensures Count(cars, InStock) + Count(cars, (c: CarRow) => !InStock(c)) == |cars|
    ensures Count(leads, StillOpen) + Count(leads, (l: ActivityLog.LeadRow) => !StillOpen(l)) == |leads|
    ensures Count(cars, InStock) == |cars| <==> forall i :: 0 <= i < |cars| ==> InStock(cars[i])
  {
    CountSplit(cars, InStock, (c: CarRow) => !InStock(c));
    CountSplit(leads, StillOpen, (l: ActivityLog.LeadRow) => !StillOpen(l));
    CountAll(cars, InStock);
  }

  /** A recent-activity line. */
  datatype Entry = Entry(id: string, kind: ActivityLog.Kind, text: string, date: int)

  function LeadEntry(l: ActivityLog.LeadRow): Entry
  {
    Entry("lead-" + IntToString(l.id), ActivityLog.LeadKind,
          "New Lead: " + l.firstName + " " + l.lastName + " interested in " + ActivityLog.OrElse(l.model, "Vehicle"),
          l.createdAt)
  }

  function ServiceEntry(s: ActivityLog.ServiceRow): Entry
  {
    Entry("svc-" + IntToString(s.id), ActivityLog.ServiceKind, "Service Job: " + s.description, s.date)
  }

  function AppointmentEntry(a: ActivityLog.AppointmentRow): Entry
  {
    Entry("appt-" + IntToString(a.id), ActivityLog.AppointmentKind,
          "Scheduled: " + a.title + " (Cust #" + IntToString(a.customer) + ")", a.start)
  }

  function EntryDate(e: Entry): int { e.date }

  function AllEntries(leads: seq<ActivityLog.LeadRow>, services: seq<ActivityLog.ServiceRow>, appts: seq<ActivityLog.AppointmentRow>): (r: seq<Entry>)
    ensures |r| == |leads| + |services| + |appts|
    ensures forall i :: 0 <= i < |leads| ==> r[i] == LeadEntry(leads[i])
    ensures forall i :: 0 <= i < |services| ==> r[|leads| + i] == ServiceEntry(services[i])
    ensures forall i :: 0 <= i < |appts| ==> r[|leads| + |services| + i] == AppointmentEntry(appts[i])
  {
    seq(|leads|, i requires 0 <= i < |leads| => LeadEntry(leads[i]))
    + seq(|services|, i requires 0 <= i < |services| => ServiceEntry(services[i]))
    + seq(|appts|, i requires 0 <= i < |appts| => AppointmentEntry(appts[i]))
  }

  /** The merged list, newest first, before the cut. */
  function Merged(leads: seq<ActivityLog.LeadRow>, services: seq<ActivityLog.ServiceRow>, appts: seq<ActivityLog.AppointmentRow>): (r: seq<Entry>)
    ensures |r| == |leads| + |services| + |appts|
    ensures multiset(r) == multiset(AllEntries(leads, services, appts))
    ensures forall i, j :: 0 <= i < j < |r| ==> r[i].date >= r[j].date
  {
    NewestFirst(AllEntries(leads, services, appts), EntryDate)
  }

  /** `recentActivity`: the first five of the merged list.  It holds
      `min(5, total)` entries, newest first, and no entry left out is newer
      than the last one shown. */
  function Recent(leads: seq<ActivityLog.LeadRow>, services: seq<ActivityLog.ServiceRow>, appts: seq<ActivityLog.AppointmentRow>): (r: seq<Entry>)
    ensures |r| == Min(5, |leads| + |services| + |appts|)
    ensures r == Merged(leads, services, appts)[..|r|]
    ensures forall i, j :: 0 <= i < j < |r| ==> r[i].date >= r[j].date
    ensures forall i :: |r| <= i < |Merged(leads, services, appts)| ==> Merged(leads, services, appts)[i].date <= r[|r| - 1].date
  {
    var all := Merged(leads, services, appts);
    Take(all, 5)
  }

  /** Every line shown comes from one of the three sources. */
  lemma RecentFromSources(leads: seq<ActivityLog.LeadRow>, services: seq<ActivityLog.ServiceRow>, appts: seq<ActivityLog.AppointmentRow>)
    ensures forall e :: e in Recent(leads, services, appts) ==>
              (exists l :: l in leads && e == LeadEntry(l)) ||
              (exists s :: s in services && e == ServiceEntry(s)) ||
              (exists a :: a in appts && e == AppointmentEntry(a))
  {
    var r := Recent(leads, services, appts);
    forall e | e in r
      ensures (exists l :: l in leads && e == LeadEntry(l)) ||
              (exists s :: s in services && e == ServiceEntry(s)) ||
              (exists a :: a in appts && e == AppointmentEntry(a))
    {
      var m := Merged(leads, services, appts);
      assert e in m;
      assert e in multiset(AllEntries(leads, services, appts));
      EntryFromSources(leads, services, appts, e);
    }
  }

  /** One line of the unsorted list, traced back to its row. */
  lemma EntryFromSources(leads: seq<ActivityLog.LeadRow>, services: seq<ActivityLog.ServiceRow>, appts: seq<ActivityLog.AppointmentRow>, e: Entry)
    requires e in AllEntries(leads, services, appts)
    ensures (exists l :: l in leads && e == LeadEntry(l)) ||
            (exists s :: s in services && e == ServiceEntry(s)) ||
            (exists a :: a in appts && e == AppointmentEntry(a))
  {
    var u := AllEntries(leads, services, appts);
    var k :| 0 <= k < |u| && u[k] == e;
    if k < |leads| {
      assert e == LeadEntry(leads[k]);
    } else if k < |leads| + |services| {
      assert e == ServiceEntry(services[k - |leads|]);
    } else {
      assert e == AppointmentEntry(appts[k - |leads| - |services|]);
    }
  }

  /** The dashboard's React state. */
  class Board {
    var stats: Stats
    var recentActivity: seq<Entry>

    constructor()
      ensures stats == Stats(0, 0, 0, 0) && recentActivity == []
    {
      stats := Stats(0, 0, 0, 0);
      recentActivity := [];
    }

    /** `fetchDashboardData` with the server's lists. */
    method Load(cars: seq<CarRow>, leads: seq<ActivityLog.LeadRow>, services: seq<ActivityLog.ServiceRow>,
                appts: seq<ActivityLog.AppointmentRow>, inventoryValue: int)
      modifies this
      ensures stats == StatsOf(cars, leads, services, inventoryValue)
      ensures recentActivity == Recent(leads, services, appts)
    {
      stats := StatsOf(cars, leads, services, inventoryValue);
      recentActivity := Recent(leads, services, appts);
    }
  }
}
