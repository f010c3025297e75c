/** `DashboardStatsView.get`: three counters and a short, newest-first log of
    recent leads and sales. */
module DashboardView {
  import opened Common
  import Inv = InventoryModels
  import opened SalesModels
  import SalesViews
  import FinanceView

  predicate IsNegotiating(l: Lead) { l.status == Negotiation }

  /** `filter(status='SOLD', updated_at__gte=first_day_month)`. */
  predicate SoldSince(v: Inv.Vehicle, monthStart: int)
  {
    v.status == Inv.Sold && v.updatedAt >= monthStart
  }

  /** `Lead.objects.filter(status='NEGOTIATION').count()`. */
  function ActiveLeads(leads: seq<Lead>): (n: nat)
    ensures n <= |leads|
    ensures n == 0 <==> forall i :: 0 <= i < |leads| ==> leads[i].status != Negotiation
  {
    var kept := Filter(leads, IsNegotiating);
    assert kept != [] ==> kept[0] in leads && IsNegotiating(kept[0]);
    |kept|
  }

  function SalesThisMonth(vs: seq<Inv.Vehicle>, monthStart: int): (n: nat)
    ensures n <= |vs|
    ensures n == 0 <==> forall i :: 0 <= i < |vs| ==> !SoldSince(vs[i], monthStart)
  {
    var kept := Filter(vs, (v: Inv.Vehicle) => SoldSince(v, monthStart));
    assert kept != [] ==> kept[0] in vs && SoldSince(kept[0], monthStart);
    |kept|
  }

  datatype ActivityKind = LeadActivity | SaleActivity

  datatype Activity = Activity(kind: ActivityKind, message: string, time: int)

  /** "New Lead: first interested in <vehicle>" where a missing vehicle reads
      "Inventory". */
  function LeadActivityOf(l: Lead, vs: seq<Inv.Vehicle>): Activity
  {
    var v := SalesViews.LinkedVehicle(vs, l);
    Activity(LeadActivity,
             "New Lead: " + l.firstName + " interested in " + (if v.Some? then Inv.VehicleLabel(v.value) else "Inventory"),
             l.createdAt)
  }

  function SaleActivityOf(v: Inv.Vehicle): Activity
  {
    Activity(SaleActivity, "Vehicle Sold: " + Inv.YearText(v.year) + " " + v.make + " " + v.model, v.updatedAt)
  }

  function NewestCreatedKey(l: Lead): int { -l.createdAt }
  function NewestUpdatedKey(v: Inv.Vehicle): int { -v.updatedAt }
  function NewestTimeKey(a: Activity): int { -a.time }

  /** `Lead.objects.order_by('-created_at')[:3]`. */
  function RecentLeads(leads: seq<Lead>): seq<Lead>
  {
    Take(SortByKey(leads, NewestCreatedKey), 3)
  }

  /** `Vehicle.objects.filter(status='SOLD').order_by('-updated_at')[:3]`. */
  function RecentSold(vs: seq<Inv.Vehicle>): seq<Inv.Vehicle>
  {
    Take(SortByKey(Filter(vs, FinanceView.IsSold), NewestUpdatedKey), 3)
  }

  function LeadItems(ls: seq<Lead>, vs: seq<Inv.Vehicle>): (r: seq<Activity>)
    ensures |r| == |ls|
    ensures forall i :: 0 <= i < |r| ==> r[i] == LeadActivityOf(ls[i], vs)
  {
    seq(|ls|, i requires 0 <= i < |ls| => LeadActivityOf(ls[i], vs))
  }

  function SaleItems(sold: seq<Inv.Vehicle>): (r: seq<Activity>)
    ensures |r| == |sold|
    ensures forall i :: 0 <= i < |r| ==> r[i] == SaleActivityOf(sold[i])
  {
    seq(|sold|, i requires 0 <= i < |sold| => SaleActivityOf(sold[i]))
  }

  /** Both loops' items, in append order. */
  function Combined(leads: seq<Lead>, vs: seq<Inv.Vehicle>): seq<Activity>
  {
    LeadItems(RecentLeads(leads), vs) + SaleItems(RecentSold(vs))
  }

  /** `recent_activity.sort(key=time, reverse=True)` then `[:5]`. */
  function ActivitySpec(leads: seq<Lead>, vs: seq<Inv.Vehicle>): seq<Activity>
  {
    Take(SortByKey(Combined(leads, vs), NewestTimeKey), 5)
  }

  /** At most three leads and three sales go in; `min(5, total)` items come
      out, newest first, each one of the items that went in, and none older
      than an item left out. */
  lemma ActivityShape(leads: seq<Lead>, vs: seq<Inv.Vehicle>)
    ensures |LeadItems(RecentLeads(leads), vs)| <= 3 && |SaleItems(RecentSold(vs))| <= 3
    ensures |ActivitySpec(leads, vs)| == Min(5, |Combined(leads, vs)|)
    ensures forall i, j :: 0 <= i < j < |ActivitySpec(leads, vs)| ==> ActivitySpec(leads, vs)[j].time <= ActivitySpec(leads, vs)[i].time
    ensures forall i :: 0 <= i < |ActivitySpec(leads, vs)| ==> ActivitySpec(leads, vs)[i] in Combined(leads, vs)
    ensures forall a, i :: a in Combined(leads, vs) && a !in ActivitySpec(leads, vs) && 0 <= i < |ActivitySpec(leads, vs)| ==>
              a.time <= ActivitySpec(leads, vs)[i].time
  {
    var all := Combined(leads, vs);
    var kept := ActivitySpec(leads, vs);
    TopSorted(all, NewestTimeKey, 5, kept);
    forall i, j | 0 <= i < j < |kept| ensures kept[j].time <= kept[i].time {
      assert NewestTimeKey(kept[i]) <= NewestTimeKey(kept[j]);
    }
    forall a, i | a in all && a !in kept && 0 <= i < |kept| ensures a.time <= kept[i].time {
      assert NewestTimeKey(kept[i]) <= NewestTimeKey(a);
    }
  }

  /** The leads shown are the newest created ones: up to three leads of the
      table, newest first, none older than a lead left out. */
  lemma RecentLeadsNewest(leads: seq<Lead>)
    ensures |RecentLeads(leads)| == Min(3, |leads|)
    ensures forall i, j :: 0 <= i < j < |RecentLeads(leads)| ==> RecentLeads(leads)[j].createdAt <= RecentLeads(leads)[i].createdAt
    ensures forall i :: 0 <= i < |RecentLeads(leads)| ==> RecentLeads(leads)[i] in leads
    ensures forall l, i :: l in leads && l !in RecentLeads(leads) && 0 <= i < |RecentLeads(leads)| ==>
              l.createdAt <= RecentLeads(leads)[i].createdAt
  {
    var kept := RecentLeads(leads);
    TopSorted(leads, NewestCreatedKey, 3, kept);
    forall i, j | 0 <= i < j < |kept| ensures kept[j].createdAt <= kept[i].createdAt {
      assert NewestCreatedKey(kept[i]) <= NewestCreatedKey(kept[j]);
    }
    forall l, i | l in leads && l !in kept && 0 <= i < |kept| ensures l.createdAt <= kept[i].createdAt {
      assert NewestCreatedKey(kept[i]) <= NewestCreatedKey(l);
    }
  }

  /** The sales shown are the most recently updated SOLD cars: up to three,
      newest first, none older than a sold car left out. */
  lemma RecentSoldNewest(vs: seq<Inv.Vehicle>)
    ensures |RecentSold(vs)| == Min(3, |Filter(vs, FinanceView.IsSold)|)
    ensures forall i, j :: 0 <= i < j < |RecentSold(vs)| ==> RecentSold(vs)[j].updatedAt <= RecentSold(vs)[i].updatedAt
    ensures forall i :: 0 <= i < |RecentSold(vs)| ==> RecentSold(vs)[i] in vs && FinanceView.IsSold(RecentSold(vs)[i])
    ensures forall v, i :: v in vs && FinanceView.IsSold(v) && v !in RecentSold(vs) && 0 <= i < |RecentSold(vs)| ==>
              v.updatedAt <= RecentSold(vs)[i].updatedAt
  {
    var r := RecentSold(vs);
    TopFiltered(vs, FinanceView.IsSold, NewestUpdatedKey, 3, r);
    forall i, j | 0 <= i < j < |r| ensures r[j].updatedAt <= r[i].updatedAt {
      assert NewestUpdatedKey(r[i]) <= NewestUpdatedKey(r[j]);
    }
    forall v, i | v in vs && FinanceView.IsSold(v) && v !in r && 0 <= i < |r| ensures v.updatedAt <= r[i].updatedAt {
      assert NewestUpdatedKey(r[i]) <= NewestUpdatedKey(v);
    }
  }

  datatype Stats = Stats(inventoryValue: int, activeLeads: nat, monthlySales: nat)

  /** `DashboardStatsView.get`; `monthStart` is the first instant of the
      current month. */
  method DashboardStats(leads: seq<Lead>, vs: seq<Inv.Vehicle>, monthStart: int)
    returns (stats: Stats, activity: seq<Activity>)
    ensures stats.inventoryValue == FinanceView.InventoryValue(vs)
    ensures stats.activeLeads == ActiveLeads(leads)
    ensures stats.monthlySales == SalesThisMonth(vs, monthStart)
    ensures activity == ActivitySpec(leads, vs)
  {
    stats := Stats(FinanceView.InventoryValue(vs), ActiveLeads(leads), SalesThisMonth(vs, monthStart));
    var recent := CollectActivity(leads, vs);
    activity := Take(SortByKey(recent, NewestTimeKey), 5);
  }

  /** The two append loops. */
  method CollectActivity(leads: seq<Lead>, vs: seq<Inv.Vehicle>) returns (recent: seq<Activity>)
    ensures recent == Combined(leads, vs)
  {
    var newLeads := RecentLeads(leads);
    var sales := RecentSold(vs);
    var leadPart := AppendLeads([], newLeads, vs);
    assert [] + LeadItems(newLeads, vs) == LeadItems(newLeads, vs);
    recent := AppendSales(leadPart, sales);
  }

  /** The "New Lead" loop. */
  method AppendLeads(start: seq<Activity>, newLeads: seq<Lead>, vs: seq<Inv.Vehicle>) returns (recent: seq<Activity>)
    ensures recent == start + LeadItems(newLeads, vs)
  {
    recent := start;
    var i := 0;
    while i < |newLeads|
      invariant 0 <= i <= |newLeads|
      invariant |recent| == |start| + i && recent[..|start|] == start
      invariant forall k :: 0 <= k < i ==> recent[|start| + k] == LeadActivityOf(newLeads[k], vs)
    {
      recent := recent + [LeadActivityOf(newLeads[i], vs)];
      i := i + 1;
    }
  }

  /** The "Vehicle Sold" loop. */
  method AppendSales(start: seq<Activity>, sales: seq<Inv.Vehicle>) returns (recent: seq<Activity>)
    ensures recent == start + SaleItems(sales)
  {
    recent := start;
    var j := 0;
    while j < |sales|
      invariant 0 <= j <= |sales|
      invariant |recent| == |start| + j && recent[..|start|] == start
      invariant forall k :: 0 <= k < j ==> recent[|start| + k] == SaleActivityOf(sales[k])
    {
      recent := recent + [SaleActivityOf(sales[j])];
      j := j + 1;
    }
  }
}
