/** The inventory grid (`InventoryList`): status and text filter, photo URLs,
    the manager-only delete and the edit/delete permissions. */
module InventoryList {
  import opened Common
  import opened UiCommon

  /** The vehicle fields the grid reads. */
  datatype Car = Car(id: int, stockNumber: string, year: int, make: string, model: string,
                     status: string, photo: Option<string>, vin: string)

  datatype Request = DeleteVehicle(id: int)

  function CarId(c: Car): int { c.id }

  /** `${year} ${make} ${model} ${vin} ${stock_number}`. */
  function SearchText(c: Car): string
  {
    IntToString(c.year) + " " + c.make + " " + c.model + " " + c.vin + " " + c.stockNumber
  }

  predicate Shown(c: Car, term: string, filter: string)
  {
    (filter == "ALL" || c.status == filter) && Matches(SearchText(c), term)
  }

  /** `filteredVehicles`: a car is listed iff the status filter is ALL or
      equals its status, and its text contains the search. */
  function FilteredVehicles(vs: seq<Car>, term: string, filter: string): (r: seq<Car>)
    ensures forall c :: c in r <==> c in vs && (filter == "ALL" || c.status == filter) && Matches(SearchText(c), term)
  {
    Filter(vs, (c: Car) => Shown(c, term, filter))
  }

  /** The listed cars keep the loaded order, no search with ALL lists every
      car, and a car's stock number finds it under the ALL filter. */
  lemma FilteredVehiclesSpec(vs: seq<Car>, term: string, filter: string)
    ensures IsSubsequence(FilteredVehicles(vs, term, filter), vs)
    ensures term == "" && filter == "ALL" ==> FilteredVehicles(vs, term, filter) == vs
    ensures forall c :: c in vs ==> c in FilteredVehicles(vs, c.stockNumber, "ALL")
    ensures forall c :: c in FilteredVehicles(vs, term, filter) && filter != "ALL" ==> c.status == filter
  {
    var p := (c: Car) => Shown(c, term, filter);
    FilterIsSubsequence(vs, p);
    if term == "" && filter == "ALL" {
      forall i | 0 <= i < |vs| ensures p(vs[i]) { MatchesEmpty(SearchText(vs[i])); }
      FilterKeepsAll(vs, p);
    }
    forall c | c in vs ensures c in FilteredVehicles(vs, c.stockNumber, "ALL") {
      var head := IntToString(c.year) + " " + c.make + " " + c.model + " " + c.vin + " ";
      assert SearchText(c) == head + c.stockNumber + "";
      MatchesPart(head, c.stockNumber, "");
    }
  }

  const Server := "http://localhost:8000"

  /** `getImageUrl`: no photo (null or empty) gives no URL, an absolute
      `http...` path is kept, anything else is served from the backend. */
  function ImageUrl(path: Option<string>): (r: Option<string>)
    ensures r.None? <==> path.None? || path.value == ""
    ensures r.Some? ==> StartsWith(r.value, "http")
    ensures r.Some? ==> r.value == path.value || r.value == Server + path.value
  {
    if path.None? || !Truthy(path.value) then None
    else if StartsWith(path.value, "http") then path
    else Some(Server + path.value)
  }

  /** Every URL produced is absolute and ends with the stored path; applying
      the rule to its own output changes nothing. */
  lemma ImageUrlSpec(path: Option<string>)
    ensures ImageUrl(path).Some? ==> exists pre :: ImageUrl(path).value == pre + path.value
    ensures ImageUrl(path).Some? && StartsWith(path.value, "http") ==> ImageUrl(path) == path
    ensures ImageUrl(path).Some? && !StartsWith(path.value, "http") ==> ImageUrl(path) == Some(Server + path.value)
    ensures ImageUrl(ImageUrl(path)) == ImageUrl(path)
  {
    if path.Some? && path.value != "" {
      if StartsWith(path.value, "http") {
        assert path.value == "" + path.value;
      } else {
        assert "http" <= Server;
        assert (Server + path.value)[..4] == Server[..4];
      }
    }
  }

  /** `canEdit = !!user`. */
  predicate CanEdit(user: Option<string>) { user.Some? }

  /** `canDelete = isManager`. */
  predicate CanDelete(isManager: bool) { isManager }

  /** The grid's React state; `sent` logs the HTTP writes. */
  class Grid {
    var vehicles: seq<Car>
    var searchTerm: string
    var statusFilter: string
    var sent: seq<Request>

    constructor()
      ensures vehicles == [] && searchTerm == "" && statusFilter == "ALL" && sent == []
    {
      vehicles := [];
      searchTerm := "";
      statusFilter := "ALL";
      sent := [];
    }

    /** `fetchInventory`. */
    method Load(rows: seq<Car>)
      modifies this`vehicles
      ensures vehicles == rows
    {
      vehicles := rows;
    }

    /** `handleDelete`; `confirmed` is the answer to the confirmation dialog
        and `ok` the server's answer to the delete.  A confirmed delete
        issues the request; only a successful one drops exactly the cars
        with that id, and a failed one keeps the grid (the `catch`
        branch). */
    method Delete(id: int, confirmed: bool, ok: bool)
      modifies this`vehicles, this`sent
      ensures !confirmed ==> vehicles == old(vehicles) && sent == old(sent)
      ensures confirmed ==> sent == old(sent) + [DeleteVehicle(id)]
      ensures confirmed && ok ==> vehicles == Without(old(vehicles), CarId, id)
      ensures !ok ==> vehicles == old(vehicles)
      ensures forall c :: c in vehicles <==> c in old(vehicles) && (!confirmed || !ok || c.id != id)
    {
      if confirmed {
        sent := sent + [DeleteVehicle(id)];
        if ok {
          WithoutExactly(vehicles, CarId, id);
          vehicles := Without(vehicles, CarId, id);
        }
      }
    }
  }
}
