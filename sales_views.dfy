/** `LeadViewSet`: the newest-first listing and the update that texts the
    customer when, and only when, a lead moves into SOLD. */
module SalesViews {
  import opened Common
  import Inv = InventoryModels
  import opened SalesModels
  import Sms

  function NewestFirstKey(l: Lead): int { -l.createdAt }

  /** `Lead.objects.all().order_by('-created_at')`. */
  function ListLeads(ls: seq<Lead>): seq<Lead>
  {
    SortByKey(ls, NewestFirstKey)
  }

  /** The listing holds every lead once and never shows an older lead above
      a newer one. */
  lemma ListLeadsNewestFirst(ls: seq<Lead>)
    ensures multiset(ListLeads(ls)) == multiset(ls)
    ensures forall i, j :: 0 <= i < j < |ls| ==> ListLeads(ls)[i].createdAt >= ListLeads(ls)[j].createdAt
  {
    SortByKeySorted(ls, NewestFirstKey);
  }

  /** The SMS fires on a transition into SOLD. */
  predicate SoldTransition(before: LeadStatus, after: LeadStatus)
  {
    before != Sold && after == Sold
  }

  /** Re-saving a lead that is already SOLD sends nothing. */
  lemma NoResendWhenAlreadySold(after: LeadStatus)
    ensures !SoldTransition(Sold, after)
  {
  }

  /** `vehicle_name`: the linked vehicle as "year make model", else "new car". */
  function SoldVehicleName(v: Option<Inv.Vehicle>): (r: string)
    ensures v.None? ==> r == "new car"
    ensures v.Some? ==> r == Inv.YearText(v.value.year) + " " + v.value.make + " " + v.value.model
  {
    if v.None? then "new car"
    else Inv.YearText(v.value.year) + " " + v.value.make + " " + v.value.model
  }

  function SoldMessage(firstName: string, vehicleName: string): string
  {
    "Congratulations " + firstName + "! \U{1F697}\U{1F4A8} \n"
    + "Thank you for purchasing your " + vehicleName + " from ApexDrive. \n"
    + "\U{1F381} BONUS: Your 5k, 10k, and 15k mile services are on us!"
  }

  /** The message names the customer's first name and the vehicle text. */
  lemma SoldMessageMentions(firstName: string, vehicleName: string)
    ensures Includes(SoldMessage(firstName, vehicleName), firstName)
    ensures Includes(SoldMessage(firstName, vehicleName), vehicleName)
  {
    var m := SoldMessage(firstName, vehicleName);
    var p1 := "Congratulations ";
    assert firstName <= m[|p1|..];
    var p2 := p1 + firstName + "! \U{1F697}\U{1F4A8} \n" + "Thank you for purchasing your ";
    assert vehicleName <= m[|p2|..];
  }

  /** The linked vehicle as the saved lead sees it. */
  function LinkedVehicle(vs: seq<Inv.Vehicle>, l: Lead): Option<Inv.Vehicle>
  {
    if l.vehicle.None? then None else Inv.Find(vs, l.vehicle.value)
  }

  /** `LeadViewSet.perform_update` behind `PUT/PATCH /leads/<id>/`: 404 for
      an unknown key, 400 when the body links a vehicle that does not exist;
      otherwise the lead is saved (with its vehicle hook) and, on a move into
      SOLD, one message goes to the lead's phone. */
  method PerformUpdate(leads: LeadTable, vehicles: Inv.VehicleTable, outbox: Sms.Outbox,
                       id: int, body: Lead, now: int) returns (status: int)
    requires leads.Valid() && vehicles.Valid()
    modifies leads, vehicles, outbox
    ensures leads.Valid() && vehicles.Valid()
    ensures status == 404 <==> !HasLead(old(leads.rows), id)
    ensures status == 400 <==> HasLead(old(leads.rows), id) && body.vehicle.Some? && !Inv.HasId(old(vehicles.rows), body.vehicle.value)
    ensures status != 200 ==> leads.rows == old(leads.rows) && vehicles.rows == old(vehicles.rows) && outbox.sent == old(outbox.sent)
    ensures status == 200 ==>
      var saved := body.(id := id, createdAt := FindLead(old(leads.rows), id).value.createdAt);
      && leads.rows == Upsert(old(leads.rows), saved)
      && vehicles.rows == VehiclesAfterSave(old(vehicles.rows), saved, now)
      && outbox.sent == old(outbox.sent) +
           (if SoldTransition(FindLead(old(leads.rows), id).value.status, body.status)
            then [Sms.Message(body.phone, SoldMessage(body.firstName, SoldVehicleName(LinkedVehicle(vehicles.rows, saved))))]
            else [])
  {
    var instance := FindLead(leads.rows, id);
    if instance.None? {
      return 404;
    }
    if body.vehicle.Some? && !Inv.HasId(vehicles.rows, body.vehicle.value) {
      return 400;
    }
    var oldStatus := instance.value.status;
    var saved := body.(id := id, createdAt := instance.value.createdAt);
    leads.Save(saved, vehicles, now);
    if oldStatus != Sold && saved.status == Sold {
      var vehicleName := SoldVehicleName(LinkedVehicle(vehicles.rows, saved));
      outbox.Send(saved.phone, SoldMessage(saved.firstName, vehicleName));
    }
    status := 200;
  }
}
