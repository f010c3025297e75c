/** The `Lead` table: status and source domains with their defaults, and
    the save hook that keeps the linked vehicle's status in step with the
    lead's. */
module SalesModels {
  import opened Common
  import Inv = InventoryModels

  datatype LeadStatus = New | Contacted | TestDrive | Negotiation | Sold | Lost

  const DefaultLeadStatus: LeadStatus := New

  function LeadStatusCode(s: LeadStatus): string
  {
    match s
    case New => "NEW"
    case Contacted => "CONTACTED"
    case TestDrive => "TEST_DRIVE"
    case Negotiation => "NEGOTIATION"
    case Sold => "SOLD"
    case Lost => "LOST"
  }

  function ParseLeadStatus(code: string): (r: Option<LeadStatus>)
    ensures r.Some? ==> LeadStatusCode(r.value) == code
    ensures r.None? ==> forall s: LeadStatus :: LeadStatusCode(s) != code
  {
    if code == "NEW" then Some(New)
    else if code == "CONTACTED" then Some(Contacted)
    else if code == "TEST_DRIVE" then Some(TestDrive)
    else if code == "NEGOTIATION" then Some(Negotiation)
    else if code == "SOLD" then Some(Sold)
    else if code == "LOST" then Some(Lost)
    else None
  }

  lemma ParseLeadStatusRoundTrip(s: LeadStatus)
    ensures ParseLeadStatus(LeadStatusCode(s)) == Some(s)
  {
  }

  datatype LeadSource = WalkIn | Facebook | Google | Referral | Website

  const DefaultLeadSource: LeadSource := WalkIn

  function LeadSourceCode(s: LeadSource): string
  {
    match s
    case WalkIn => "Walk-in"
    case Facebook => "Facebook"
    case Google => "Google"
    case Referral => "Referral"
    case Website => "Website"
  }

  function ParseLeadSource(code: string): (r: Option<LeadSource>)
    ensures r.Some? ==> LeadSourceCode(r.value) == code
    ensures r.None? ==> forall s: LeadSource :: LeadSourceCode(s) != code
  {
    if code == "Walk-in" then Some(WalkIn)
    else if code == "Facebook" then Some(Facebook)
    else if code == "Google" then Some(Google)
    else if code == "Referral" then Some(Referral)
    else if code == "Website" then Some(Website)
    else None
  }

  lemma ParseLeadSourceRoundTrip(s: LeadSource)
    ensures ParseLeadSource(LeadSourceCode(s)) == Some(s)
  {
  }

  /** One lead; money in cents, `email` "" when null, `vehicle` the key of
      the linked inventory vehicle (set to None when that vehicle goes). */
  datatype Lead = Lead(
    id: int,
    firstName: string,
    lastName: string,
    phone: string,
    email: string,
    source: LeadSource,
    vehicle: Option<int>,
    status: LeadStatus,
    quotedPrice: Option<int>,
    downPayment: Option<int>,
    monthlyPayment: Option<int>,
    termMonths: Option<int>,
    createdAt: int)

  /** A lead created from its required fields only. */
  function NewLead(firstName: string, lastName: string, phone: string, now: int): (l: Lead)
    ensures l.status == DefaultLeadStatus && l.source == DefaultLeadSource
    ensures l.vehicle.None? && l.quotedPrice.None? && l.termMonths.None?
    ensures l.firstName == firstName && l.lastName == lastName && l.phone == phone && l.createdAt == now
  {
    Lead(0, firstName, lastName, phone, "", DefaultLeadSource, None, DefaultLeadStatus,
         None, None, None, None, now)
  }

  /** `Lead.__str__`. */
  function LeadName(l: Lead): string
  {
    l.firstName + " " + l.lastName
  }

  // ---------------------------------------------------------------------------
  // The save hook
  // ---------------------------------------------------------------------------

  /** The status the linked vehicle ends with when a lead in status `lead`
      is saved and the vehicle was `current`. */
  function SyncedStatus(lead: LeadStatus, current: Inv.VehicleStatus): Inv.VehicleStatus
  {
    if lead == Sold then Inv.Sold
    else if current == Inv.Sold then Inv.Available
    else current
  }

  /** The three cases of the hook, each in both directions. */
  lemma SyncedStatusCases(lead: LeadStatus, current: Inv.VehicleStatus)
    ensures SyncedStatus(lead, current) == Inv.Sold <==> lead == Sold
    ensures SyncedStatus(lead, current) == Inv.Available <==>
            (lead != Sold && current in {Inv.Sold, Inv.Available})
    ensures lead != Sold && current != Inv.Sold ==> SyncedStatus(lead, current) == current
  {
  }

  lemma SyncedStatusIdempotent(lead: LeadStatus, current: Inv.VehicleStatus)
    ensures SyncedStatus(lead, SyncedStatus(lead, current)) == SyncedStatus(lead, current)
  {
  }

  /** Whether `Lead.save` writes the vehicle: `vehicle.save()` runs only in
      the two branches that assign a status. */
  predicate WritesVehicle(lead: LeadStatus, current: Inv.VehicleStatus)
  {
    lead == Sold || current == Inv.Sold
  }

  /** The vehicle table after `Lead.save`. */
  function VehiclesAfterSave(vs: seq<Inv.Vehicle>, l: Lead, now: int): seq<Inv.Vehicle>
  {
    if l.vehicle.None? then vs
    else
      var v := Inv.Find(vs, l.vehicle.value);
      if v.None? then vs
      else if WritesVehicle(l.status, v.value.status) then
        Inv.SetStatus(vs, l.vehicle.value, SyncedStatus(l.status, v.value.status), now)
      else vs
  }

  /** Only the linked vehicle can change, and it ends in the synced status. */
  lemma VehiclesAfterSaveSpec(vs: seq<Inv.Vehicle>, l: Lead, now: int)
    requires Inv.ValidTable(vs)
    ensures Inv.ValidTable(VehiclesAfterSave(vs, l, now))
    ensures |VehiclesAfterSave(vs, l, now)| == |vs|
    ensures forall i :: 0 <= i < |vs| && l.vehicle != Some(vs[i].id) ==> VehiclesAfterSave(vs, l, now)[i] == vs[i]
    ensures forall i :: 0 <= i < |vs| && l.vehicle == Some(vs[i].id) ==>
              VehiclesAfterSave(vs, l, now)[i].status == SyncedStatus(l.status, vs[i].status)
  {
    if l.vehicle.Some? && Inv.HasId(vs, l.vehicle.value) {
      var id := l.vehicle.value;
      var k :| 0 <= k < |vs| && vs[k].id == id;
      Inv.FindUnique(vs, k);
      Inv.KeyIsUnique(vs, k);
      var st := SyncedStatus(l.status, vs[k].status);
      var r := VehiclesAfterSave(vs, l, now);
      if WritesVehicle(l.status, vs[k].status) {
        assert r == Inv.SetStatus(vs, id, st, now);
        Inv.SetStatusKeepsValid(vs, id, st, now);
      } else {
        assert r == vs;
        assert st == vs[k].status;
      }
      forall i | 0 <= i < |vs| && l.vehicle == Some(vs[i].id) ensures r[i].status == SyncedStatus(l.status, vs[i].status) {
        assert i == k;
      }
    }
  }

  /** A lead without a vehicle never touches the vehicle table. */
  lemma NoVehicleNoChange(vs: seq<Inv.Vehicle>, l: Lead, now: int)
    requires l.vehicle.None?
    ensures VehiclesAfterSave(vs, l, now) == vs
  {
  }

  /** Saving the same lead a second time leaves every vehicle in the status
      the first save gave it. */
  lemma SaveTwiceSameStatus(vs: seq<Inv.Vehicle>, l: Lead, t1: int, t2: int)
    requires Inv.ValidTable(vs)
    ensures var once := VehiclesAfterSave(vs, l, t1);
            var twice := VehiclesAfterSave(once, l, t2);
            |twice| == |once| && forall i :: 0 <= i < |once| ==> twice[i].status == once[i].status
  {
    var once := VehiclesAfterSave(vs, l, t1);
    VehiclesAfterSaveSpec(vs, l, t1);
    VehiclesAfterSaveSpec(once, l, t2);
    forall i | 0 <= i < |once| && l.vehicle == Some(once[i].id)
      ensures VehiclesAfterSave(once, l, t2)[i].status == once[i].status
    {
      assert once[i].status == SyncedStatus(l.status, vs[i].status);
      SyncedStatusIdempotent(l.status, vs[i].status);
    }
  }

  predicate UniqueIds(ls: seq<Lead>)
  {
    forall i, j :: 0 <= i < j < |ls| ==> ls[i].id != ls[j].id
  }

  predicate HasLead(ls: seq<Lead>, id: int)
  {
    exists i :: 0 <= i < |ls| && ls[i].id == id
  }

  /** `super().save()`: an existing key is overwritten in place, a new key is
      inserted at the end. */
  function Upsert(ls: seq<Lead>, l: Lead): (r: seq<Lead>)
    ensures HasLead(ls, l.id) ==> |r| == |ls| && forall i :: 0 <= i < |ls| ==> r[i] == if ls[i].id == l.id then l else ls[i]
    ensures !HasLead(ls, l.id) ==> r == ls + [l]
    ensures UniqueIds(ls) ==> UniqueIds(r)
  {
    if HasLead(ls, l.id) then seq(|ls|, i requires 0 <= i < |ls| => if ls[i].id == l.id then l else ls[i])
    else ls + [l]
  }

  function FindLead(ls: seq<Lead>, id: int): (r: Option<Lead>)
    ensures r.Some? <==> HasLead(ls, id)
    ensures r.Some? ==> r.value.id == id && r.value in ls
  {
    if ls == [] then None
    else if ls[0].id == id then Some(ls[0])
    else
      var r := FindLead(ls[1..], id);
      assert HasLead(ls[1..], id) ==> HasLead(ls, id) by {
        if HasLead(ls[1..], id) {
          var k :| 0 <= k < |ls[1..]| && ls[1..][k].id == id;
          assert ls[k + 1].id == id;
        }
      }
      assert HasLead(ls, id) ==> HasLead(ls[1..], id) by {
        if HasLead(ls, id) {
          var k :| 0 <= k < |ls| && ls[k].id == id;
          assert k > 0;
          assert ls[1..][k - 1].id == id;
        }
      }
      r
  }

  function LeadId(l: Lead): int { l.id }

  /** Every linked vehicle exists: the foreign key's guarantee. */
  predicate LinksResolve(ls: seq<Lead>, vs: seq<Inv.Vehicle>)
  {
    forall i :: 0 <= i < |ls| && ls[i].vehicle.Some? ==> Inv.HasId(vs, ls[i].vehicle.value)
  }

  /** The lead table (`Lead.objects`). */
  class LeadTable {
    var rows: seq<Lead>

    ghost predicate Valid()
      reads this
    {
      UniqueIds(rows)
    }

    constructor ()
      ensures Valid() && rows == []
    {
      rows := [];
    }

    /** `Lead.save`: first the vehicle side, then the lead itself. */
    method Save(l: Lead, vehicles: Inv.VehicleTable, now: int)
      requires Valid() && vehicles.Valid()
      modifies this, vehicles
      ensures Valid() && vehicles.Valid()
      ensures vehicles.rows == VehiclesAfterSave(old(vehicles.rows), l, now)
      ensures rows == Upsert(old(rows), l)
    {
      VehiclesAfterSaveSpec(vehicles.rows, l, now);
      if l.vehicle.Some? {
        var v := Inv.Find(vehicles.rows, l.vehicle.value);
        if v.Some? {
          if l.status == Sold {
            vehicles.SetStatusOf(l.vehicle.value, Inv.Sold, now);
          } else if v.value.status == Inv.Sold {
            vehicles.SetStatusOf(l.vehicle.value, Inv.Available, now);
          }
        }
      }
      rows := Upsert(rows, l);
    }

    /** `Lead.objects.create(...)`: the row gets the next key, then saves. */
    method Create(l: Lead, vehicles: Inv.VehicleTable, now: int) returns (id: int)
      requires Valid() && vehicles.Valid()
      modifies this, vehicles
      ensures Valid() && vehicles.Valid()
      ensures !HasLead(old(rows), id)
      ensures rows == old(rows) + [l.(id := id, createdAt := now)]
      ensures vehicles.rows == VehiclesAfterSave(old(vehicles.rows), l, now)
    {
      id := NextId(rows, LeadId);
      var created := l.(id := id, createdAt := now);
      assert VehiclesAfterSave(vehicles.rows, created, now) == VehiclesAfterSave(vehicles.rows, l, now);
      Save(created, vehicles, now);
    }

    /** `DELETE /leads/<id>/`: exactly the lead with that key goes. */
    method Delete(id: int)
      requires Valid()
      modifies this
      ensures Valid()
      ensures rows == Filter(old(rows), (l: Lead) => l.id != id)
      ensures !HasLead(rows, id)
    {
      FilterIsSubsequence(rows, (l: Lead) => l.id != id);
      SubsequenceKeepsUnique(Filter(rows, (l: Lead) => l.id != id), rows);
      rows := Filter(rows, (l: Lead) => l.id != id);
    }
  }

  lemma {:induction false} SubsequenceKeepsUnique(a: seq<Lead>, b: seq<Lead>)
    requires IsSubsequence(a, b) && UniqueIds(b)
    ensures UniqueIds(a)
    decreases |b|
  {
    if a != [] {
      if a[0] == b[0] {
        SubsequenceKeepsUnique(a[1..], b[1..]);
        Inv.SubsequenceMembers(a[1..], b[1..]);
        forall j | 0 < j < |a| ensures a[0].id != a[j].id {
          assert a[j] == a[1..][j - 1];
          var k :| 0 <= k < |b[1..]| && b[1..][k] == a[j];
          assert b[k + 1] == a[j];
        }
      } else {
        SubsequenceKeepsUnique(a, b[1..]);
      }
    }
  }
}
