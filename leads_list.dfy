/** The leads board (`LeadsList`): search and status filter, status changes
    that also move the linked car, and deletes that release a car held by a
    deal in negotiation. */
module LeadsList {
  import opened Common
  import opened UiCommon

  /** The lead fields the board reads; `model` is `vehicle_details?.model`. */
  datatype Lead = Lead(id: int, firstName: string, lastName: string, phone: string,
                       status: string, vehicle: Option<int>, model: Option<string>)

  /** The HTTP writes the board issues, in order. */
  datatype Request = PatchLead(id: int, status: string) | PatchVehicle(vehicle: int, status: string) | DeleteLead(id: int)

  function LeadId(l: Lead): int { l.id }

  /** `lead.vehicle` is truthy: present and not the id 0. */
  predicate HasVehicle(l: Lead) { l.vehicle.Some? && l.vehicle.value != 0 }

  /** `leads.find(l => l.id === id)`. */
  function LeadWithId(leads: seq<Lead>, id: int): Option<Lead>
  {
    FindFirst(leads, (l: Lead) => l.id == id)
  }

  function Log(r: Option<Request>): (s: seq<Request>)
    ensures r.None? ==> s == []
    ensures r.Some? ==> s == [r.value]
  {
    if r.Some? then [r.value] else []
  }

  // ---------------------------------------------------------------------------
  // Status change
  // ---------------------------------------------------------------------------

  /** The optimistic `leads.map` of `handleStatusChange`: only the lead with
      the id changes, and only in its status; every other lead is left as it
      was. */
  function StatusChanged(leads: seq<Lead>, id: int, newStatus: string): (r: seq<Lead>)
    ensures |r| == |leads|
    ensures forall i :: 0 <= i < |leads| && leads[i].id == id ==> r[i] == leads[i].(status := newStatus)
    ensures forall i :: 0 <= i < |leads| && leads[i].id != id ==> r[i] == leads[i]
    ensures forall i :: 0 <= i < |leads| ==> r[i].id == leads[i].id
  {
    MapWhere(leads, LeadId, id, (l: Lead) => l.(status := newStatus))
  }

  /** The car write that follows a status change: LOST frees the car, SOLD
      marks it sold, any other status leaves it alone, and so does a lead
      without a car or a missing lead. */
  function VehicleEffect(found: Option<Lead>, newStatus: string): (r: Option<Request>)
    ensures r.Some? <==> found.Some? && HasVehicle(found.value) && (newStatus == "LOST" || newStatus == "SOLD")
    ensures r.Some? && newStatus == "LOST" ==> r.value == PatchVehicle(found.value.vehicle.value, "AVAILABLE")
    ensures r.Some? && newStatus == "SOLD" ==> r.value == PatchVehicle(found.value.vehicle.value, "SOLD")
  {
    if found.Some? && HasVehicle(found.value) then
      if newStatus == "LOST" then Some(PatchVehicle(found.value.vehicle.value, "AVAILABLE"))
      else if newStatus == "SOLD" then Some(PatchVehicle(found.value.vehicle.value, "SOLD"))
      else None
    else None
  }

  // ---------------------------------------------------------------------------
  // Delete
  // ---------------------------------------------------------------------------

  /** The car release that precedes a delete: only a NEGOTIATION lead with a
      car frees it. */
  function ReleaseOnDelete(found: Option<Lead>): (r: Option<Request>)
    ensures r.Some? <==> found.Some? && found.value.status == "NEGOTIATION" && HasVehicle(found.value)
    ensures r.Some? ==> r.value == PatchVehicle(found.value.vehicle.value, "AVAILABLE")
  {
    if found.Some? && found.value.status == "NEGOTIATION" && HasVehicle(found.value) then
      Some(PatchVehicle(found.value.vehicle.value, "AVAILABLE"))
    else None
  }

  // ---------------------------------------------------------------------------
  // Filter
  // ---------------------------------------------------------------------------

  /** `${first_name} ${last_name} ${phone} ${vehicle_details?.model || ''}`. */
  function SearchText(l: Lead): string
  {
    l.firstName + " " + l.lastName + " " + l.phone + " " + (if l.model.Some? then l.model.value else "")
  }

  predicate StatusMatches(l: Lead, filter: string) { filter == "ALL" || l.status == filter }

  predicate Shown(l: Lead, term: string, filter: string)
  {
    Matches(SearchText(l), term) && StatusMatches(l, filter)
  }

  /** `filteredLeads`. */
  function FilteredLeads(leads: seq<Lead>, term: string, filter: string): (r: seq<Lead>)
    ensures forall l :: l in r <==> l in leads && Matches(SearchText(l), term) && (filter == "ALL" || l.status == filter)
  {
    Filter(leads, (l: Lead) => Shown(l, term, filter))
  }

  /** The shown leads keep the board's order; with no search and the ALL
      filter every lead is shown; a lead is found by its phone number. */
  lemma FilteredLeadsSpec(leads: seq<Lead>, term: string, filter: string)
    ensures IsSubsequence(FilteredLeads(leads, term, filter), leads)
    ensures term == "" && filter == "ALL" ==> FilteredLeads(leads, term, filter) == leads
    ensures forall l :: l in leads ==> l in FilteredLeads(leads, l.phone, "ALL")
  {
    var p := (l: Lead) => Shown(l, term, filter);
    FilterIsSubsequence(leads, p);
    if term == "" && filter == "ALL" {
      forall i | 0 <= i < |leads| ensures p(leads[i]) { MatchesEmpty(SearchText(leads[i])); }
      FilterKeepsAll(leads, p);
    }
    forall l | l in leads ensures l in FilteredLeads(leads, l.phone, "ALL") {
      SearchFindsPhone(l);
    }
  }

  lemma SearchFindsPhone(l: Lead)
    ensures Matches(SearchText(l), l.phone)
  {
    var tail := " " + (if l.model.Some? then l.model.value else "");
    assert SearchText(l) == l.firstName + " " + l.lastName + " " + l.phone + tail;
    MatchesPart(l.firstName + " " + l.lastName + " ", l.phone, tail);
  }

  /** The board's React state; `sent` logs the HTTP writes in order. */
  class Board {
    var leads: seq<Lead>
    var searchTerm: string
    var statusFilter: string
    var sent: seq<Request>

    constructor()
      ensures leads == [] && searchTerm == "" && statusFilter == "ALL" && sent == []
    {
      leads := [];
      searchTerm := "";
      statusFilter := "ALL";
      sent := [];
    }

    /** `fetchLeads`. */
    method Load(rows: seq<Lead>)
      modifies this`leads
      ensures leads == rows
    {
      leads := rows;
    }

    /** `handleStatusChange`: rewrite the lead locally, patch it, then move
        its car when the new status is LOST or SOLD. */
    method ChangeStatus(id: int, newStatus: string)
      modifies this`leads, this`sent
      ensures leads == StatusChanged(old(leads), id, newStatus)
      ensures sent == old(sent) + [PatchLead(id, newStatus)] + Log(VehicleEffect(LeadWithId(old(leads), id), newStatus))
    {
      var found := LeadWithId(leads, id);
      leads := StatusChanged(leads, id, newStatus);
      sent := sent + [PatchLead(id, newStatus)];
      if found.Some? && HasVehicle(found.value) {
        if newStatus == "LOST" {
          sent := sent + [PatchVehicle(found.value.vehicle.value, "AVAILABLE")];
        } else if newStatus == "SOLD" {
          sent := sent + [PatchVehicle(found.value.vehicle.value, "SOLD")];
        }
      }
    }

    /** `handleDelete`; `confirmed` is the answer to the confirmation
        dialog, `patchOk` and `deleteOk` the servers' answers to the car
        release and to the delete.  A failed release skips the delete, and
        a failed call keeps the lead on the board (the `catch` branch). */
    method Delete(id: int, confirmed: bool, patchOk: bool, deleteOk: bool)
      modifies this`leads, this`sent
      ensures !confirmed ==> leads == old(leads) && sent == old(sent)
      ensures confirmed ==>
                var release := ReleaseOnDelete(LeadWithId(old(leads), id));
                sent == old(sent) + Log(release) + (if release.None? || patchOk then [DeleteLead(id)] else [])
      ensures confirmed && (ReleaseOnDelete(LeadWithId(old(leads), id)).None? || patchOk) && deleteOk ==>
                leads == Without(old(leads), LeadId, id)
      ensures !(confirmed && (ReleaseOnDelete(LeadWithId(old(leads), id)).None? || patchOk) && deleteOk) ==>
                leads == old(leads)
    {
      if !confirmed {
        return;
      }
      var release := ReleaseOnDelete(LeadWithId(leads, id));
      if release.Some? {
        sent := sent + [release.value];
        if !patchOk {
          return;
        }
      }
      sent := sent + [DeleteLead(id)];
      if deleteOk {
        leads := Without(leads, LeadId, id);
      }
    }
  }

  /** After a confirmed delete no lead with the id is left, every other lead
      is still there in its order, and the car of a deleted NEGOTIATION lead
      was released before the lead was deleted. */
  lemma DeleteSpec(leads: seq<Lead>, id: int)
    ensures forall l :: l in Without(leads, LeadId, id) <==> l in leads && l.id != id
    ensures IsSubsequence(Without(leads, LeadId, id), leads)
    ensures forall i :: FirstWithId(leads, id, i) && leads[i].status == "NEGOTIATION" && HasVehicle(leads[i]) ==>
              ReleaseOnDelete(LeadWithId(leads, id)) == Some(PatchVehicle(leads[i].vehicle.value, "AVAILABLE"))
  {
    WithoutExactly(leads, LeadId, id);
    forall i | FirstWithId(leads, id, i) && leads[i].status == "NEGOTIATION" && HasVehicle(leads[i])
      ensures ReleaseOnDelete(LeadWithId(leads, id)) == Some(PatchVehicle(leads[i].vehicle.value, "AVAILABLE"))
    {
      FirstMatchIsFound(leads, id, i);
    }
  }

  /** Position `i` holds the first lead with the id. */
  predicate FirstWithId(leads: seq<Lead>, id: int, i: int)
  {
    0 <= i < |leads| && leads[i].id == id && forall j :: 0 <= j < i ==> leads[j].id != id
  }

  /** `find` returns the first lead with the id. */
  lemma {:induction false} FirstMatchIsFound(leads: seq<Lead>, id: int, i: nat)
    requires FirstWithId(leads, id, i)
    ensures LeadWithId(leads, id) == Some(leads[i])
  {
    if i > 0 {
      assert FirstWithId(leads[1..], id, i - 1);
      FirstMatchIsFound(leads[1..], id, i - 1);
      assert LeadWithId(leads, id) == LeadWithId(leads[1..], id);
    }
  }
}
