/** The `Vehicle` table of the inventory app: its status domain, field
    defaults, column bounds and uniqueness constraints, and the table object
    that the inventory views and the lead automation write to. */
module InventoryModels {
  import opened Common

  /** The effective status choices.  The model declares `status` twice; the
      second declaration (which adds SERVICE) replaces the first. */
  datatype VehicleStatus = Available | Reserved | Sold | InService

  const DefaultStatus: VehicleStatus := Available

  function StatusCode(s: VehicleStatus): string
  {
    match s
    case Available => "AVAILABLE"
    case Reserved => "RESERVED"
    case Sold => "SOLD"
    case InService => "SERVICE"
  }

  /** Choice validation: a stored code names exactly one status. */
  function ParseStatus(code: string): (r: Option<VehicleStatus>)
    ensures r.Some? ==> StatusCode(r.value) == code
    ensures r.None? ==> forall s: VehicleStatus :: StatusCode(s) != code
  {
    if code == "AVAILABLE" then Some(Available)
    else if code == "RESERVED" then Some(Reserved)
    else if code == "SOLD" then Some(Sold)
    else if code == "SERVICE" then Some(InService)
    else None
  }

  lemma ParseStatusRoundTrip(s: VehicleStatus)
    ensures ParseStatus(StatusCode(s)) == Some(s)
  {
  }

  /** One row; money in cents, instants as integer timestamps. */
  datatype Vehicle = Vehicle(
    id: int,
    vin: string,
    stockNumber: string,
    make: string,
    model: string,
    year: Option<int>,
    trim: string,
    bodyStyle: string,
    color: string,
    mileage: int,
    licensePlate: Option<string>,
    costPrice: int,
    sellingPrice: int,
    soldDate: Option<int>,
    status: VehicleStatus,
    createdAt: int,
    updatedAt: int,
    photo: string)

  /** A row as created with only its required fields given. */
  function NewVehicle(vin: string, stockNumber: string, color: string, mileage: int, now: int): (v: Vehicle)
    ensures v.status == DefaultStatus && v.costPrice == 0 && v.sellingPrice == 0
    ensures v.soldDate == None && v.year == None && v.licensePlate == None
    ensures v.vin == vin && v.stockNumber == stockNumber && v.createdAt == now
  {
    Vehicle(0, vin, stockNumber, "", "", None, "", "", color, mileage, None, 0, 0, None,
            DefaultStatus, now, now, "")
  }

  /** Python's `str(None)`. */
  function YearText(year: Option<int>): string
  {
    match year
    case None => "None"
    case Some(y) => IntToString(y)
  }

  /** `Vehicle.__str__`: "year make model (stock)". */
  function VehicleLabel(v: Vehicle): string
  {
    YearText(v.year) + " " + v.make + " " + v.model + " (" + v.stockNumber + ")"
  }

  // ---------------------------------------------------------------------------
  // Table constraints
  // ---------------------------------------------------------------------------

  /** A text column of at most `maxLength` characters; `blank` says whether
      the column accepts "". */
  predicate FitsText(s: string, maxLength: nat, blank: bool)
  {
    |s| <= maxLength && (blank || s != "")
  }

  /** A `DecimalField(max_digits=10, decimal_places=2)`, in cents: at most
      eight digits before the point. */
  predicate FitsMoney(cents: int)
  {
    -10_000_000_000 < cents < 10_000_000_000
  }

  /** The column rules of one row: the `max_length` of every text column,
      no blank `vin`, `stock_number` or `color`, and the two prices within
      their digits. */
  predicate FitsColumns(v: Vehicle)
  {
    FitsText(v.vin, 17, false) && FitsText(v.stockNumber, 50, false)
    && FitsText(v.make, 50, true) && FitsText(v.model, 50, true)
    && FitsText(v.trim, 100, true) && FitsText(v.bodyStyle, 50, true)
    && FitsText(v.color, 30, false)
    && (v.licensePlate.Some? ==> FitsText(v.licensePlate.value, 20, true))
    && FitsMoney(v.costPrice) && FitsMoney(v.sellingPrice)
  }

  /** Field names whose column rule `v` breaks. */
  function FieldErrors(v: Vehicle): (r: set<string>)
    ensures r == {} <==> FitsColumns(v)
  {
    (if !FitsText(v.vin, 17, false) then {"vin"} else {})
    + (if !FitsText(v.stockNumber, 50, false) then {"stock_number"} else {})
    + (if !FitsText(v.make, 50, true) then {"make"} else {})
    + (if !FitsText(v.model, 50, true) then {"model"} else {})
    + (if !FitsText(v.trim, 100, true) then {"trim"} else {})
    + (if !FitsText(v.bodyStyle, 50, true) then {"body_style"} else {})
    + (if !FitsText(v.color, 30, false) then {"color"} else {})
    + (if v.licensePlate.Some? && !FitsText(v.licensePlate.value, 20, true) then {"license_plate"} else {})
    + (if !FitsMoney(v.costPrice) then {"cost_price"} else {})
    + (if !FitsMoney(v.sellingPrice) then {"selling_price"} else {})
  }

  /** Primary key, `vin` and `stock_number` are unique across the table. */
  predicate UniqueRows(vs: seq<Vehicle>)
  {
    forall i, j :: 0 <= i < j < |vs| ==>
      vs[i].id != vs[j].id && vs[i].vin != vs[j].vin && vs[i].stockNumber != vs[j].stockNumber
  }

  predicate ValidTable(vs: seq<Vehicle>)
  {
    UniqueRows(vs) && forall i :: 0 <= i < |vs| ==> FitsColumns(vs[i])
  }

  predicate HasId(vs: seq<Vehicle>, id: int)
  {
    exists i :: 0 <= i < |vs| && vs[i].id == id
  }

  function VehicleId(v: Vehicle): int { v.id }

  /** Field names whose validation rejects `v` as a new row: its column
      rules, and a `vin` or `stock_number` already in the table. */
  function InsertErrors(vs: seq<Vehicle>, v: Vehicle): set<string>
  {
    FieldErrors(v)
    + (if exists i :: 0 <= i < |vs| && vs[i].vin == v.vin then {"vin"} else {})
    + (if exists i :: 0 <= i < |vs| && vs[i].stockNumber == v.stockNumber then {"stock_number"} else {})
  }

  /** Creating a row: rejected with the failing fields, or appended with a
      fresh primary key; either way the table stays valid. */
  function InsertVehicle(vs: seq<Vehicle>, v: Vehicle): (r: Result<seq<Vehicle>, set<string>>)
    ensures r.Err? <==> (!FitsColumns(v)
                         || (exists i :: 0 <= i < |vs| && vs[i].vin == v.vin)
                         || (exists i :: 0 <= i < |vs| && vs[i].stockNumber == v.stockNumber))
    ensures r.Err? ==> r.error != {}
    ensures r.Ok? ==> |r.value| == |vs| + 1 && r.value[..|vs|] == vs
    ensures r.Ok? ==> r.value[|vs|] == v.(id := r.value[|vs|].id) && !HasId(vs, r.value[|vs|].id)
    ensures r.Ok? && ValidTable(vs) ==> ValidTable(r.value)
  {
    var errors := InsertErrors(vs, v);
    if errors != {} then Err(errors)
    else Ok(vs + [v.(id := NextId(vs, VehicleId))])
  }

  /** `vehicle.status = st; vehicle.save()` on every row whose key is `id`:
      the status is replaced and `updated_at` (an auto-now field) is stamped;
      nothing else changes. */
  function SetStatus(vs: seq<Vehicle>, id: int, st: VehicleStatus, now: int): (r: seq<Vehicle>)
    ensures |r| == |vs|
    ensures forall i :: 0 <= i < |vs| && vs[i].id == id ==> r[i] == vs[i].(status := st, updatedAt := now)
    ensures forall i :: 0 <= i < |vs| && vs[i].id != id ==> r[i] == vs[i]
  {
    seq(|vs|, i requires 0 <= i < |vs| => if vs[i].id == id then vs[i].(status := st, updatedAt := now) else vs[i])
  }

  lemma {:induction false} SetStatusKeepsValid(vs: seq<Vehicle>, id: int, st: VehicleStatus, now: int)
    requires ValidTable(vs)
    ensures ValidTable(SetStatus(vs, id, st, now))
    ensures forall k :: HasId(SetStatus(vs, id, st, now), k) <==> HasId(vs, k)
  {
    var r := SetStatus(vs, id, st, now);
    SetStatusKeepsKeys(vs, id, st, now);
    forall k ensures HasId(r, k) <==> HasId(vs, k) {
      if HasId(vs, k) {
        var i :| 0 <= i < |vs| && vs[i].id == k;
        assert r[i].id == k;
      }
      if HasId(r, k) {
        var i :| 0 <= i < |r| && r[i].id == k;
        assert vs[i].id == k;
      }
    }
  }

  /** Only row `k` carries row `k`'s key. */
  lemma KeyIsUnique(vs: seq<Vehicle>, k: int)
    requires ValidTable(vs) && 0 <= k < |vs|
    ensures forall i :: 0 <= i < |vs| && vs[i].id == vs[k].id ==> i == k
  {
    forall i | 0 <= i < |vs| && vs[i].id == vs[k].id ensures i == k {
      assert !(i < k) && !(k < i);
    }
  }

  /** A status change touches neither the key nor the unique columns. */
  lemma SetStatusKeepsKeys(vs: seq<Vehicle>, id: int, st: VehicleStatus, now: int)
    ensures forall i :: 0 <= i < |vs| ==>
              var r := SetStatus(vs, id, st, now);
              r[i].id == vs[i].id && r[i].vin == vs[i].vin && r[i].stockNumber == vs[i].stockNumber
  {
  }

  /** The row with key `id`, if there is one (`Vehicle.objects.get(pk=id)`). */
  function Find(vs: seq<Vehicle>, id: int): (r: Option<Vehicle>)
    ensures r.Some? <==> HasId(vs, id)
    ensures r.Some? ==> r.value.id == id && r.value in vs
  {
    if vs == [] then None
    else if vs[0].id == id then Some(vs[0])
    else
      var r := Find(vs[1..], id);
      assert HasId(vs[1..], id) ==> HasId(vs, id) by {
        if HasId(vs[1..], id) {
          var k :| 0 <= k < |vs[1..]| && vs[1..][k].id == id;
          assert vs[k + 1].id == id;
        }
      }
      assert HasId(vs, id) ==> HasId(vs[1..], id) by {
        if HasId(vs, id) {
          var k :| 0 <= k < |vs| && vs[k].id == id;
          assert k > 0;
          assert vs[1..][k - 1].id == id;
        }
      }
      r
  }

  /** In a valid table the key names one row, so `Find` returns that row. */
  lemma FindUnique(vs: seq<Vehicle>, i: int)
    requires ValidTable(vs) && 0 <= i < |vs|
    ensures Find(vs, vs[i].id) == Some(vs[i])
  {
    var r := Find(vs, vs[i].id);
    var j :| 0 <= j < |vs| && vs[j] == r.value;
    assert j == i;
  }

  /** The status a row with key `id` has after `SetStatus` on that key. */
  lemma SetStatusFind(vs: seq<Vehicle>, id: int, st: VehicleStatus, now: int)
    requires ValidTable(vs)
    ensures Find(SetStatus(vs, id, st, now), id) ==
            (if HasId(vs, id) then Some(Find(vs, id).value.(status := st, updatedAt := now)) else None)
  {
    var r := SetStatus(vs, id, st, now);
    SetStatusKeepsValid(vs, id, st, now);
    if HasId(vs, id) {
      var i :| 0 <= i < |vs| && vs[i].id == id;
      FindUnique(vs, i);
      FindUnique(r, i);
    }
  }

  /** Every row whose key is `id` becomes `v`; the other rows stay. */
  function Replace(vs: seq<Vehicle>, id: int, v: Vehicle): (r: seq<Vehicle>)
    ensures |r| == |vs|
    ensures forall i :: 0 <= i < |vs| && vs[i].id == id ==> r[i] == v
    ensures forall i :: 0 <= i < |vs| && vs[i].id != id ==> r[i] == vs[i]
  {
    seq(|vs|, i requires 0 <= i < |vs| => if vs[i].id == id then v else vs[i])
  }

  /** Replacing a row by one with the same key, VIN and stock number that
      meets the column rules keeps the table valid. */
  lemma ReplaceKeepsValid(vs: seq<Vehicle>, i: int, v: Vehicle)
    requires ValidTable(vs) && 0 <= i < |vs| && FitsColumns(v)
    requires v.id == vs[i].id && v.vin == vs[i].vin && v.stockNumber == vs[i].stockNumber
    ensures ValidTable(Replace(vs, vs[i].id, v))
  {
  }

  /** The vehicle table (`Vehicle.objects`). */
  class VehicleTable {
    var rows: seq<Vehicle>

    ghost predicate Valid()
      reads this
    {
      ValidTable(rows)
    }

    constructor ()
      ensures Valid() && rows == []
    {
      rows := [];
    }

    /** `Vehicle.objects.create(...)` through the model serializer. */
    method Create(v: Vehicle) returns (r: Result<int, set<string>>)
      requires Valid()
      modifies this
      ensures Valid()
      ensures r.Err? ==> rows == old(rows) && r.error == InsertErrors(old(rows), v)
      ensures r.Ok? ==> rows == old(rows) + [v.(id := r.value)] && !HasId(old(rows), r.value)
      ensures r.Err? <==> InsertVehicle(old(rows), v).Err?
    {
      var ins := InsertVehicle(rows, v);
      if ins.Err? {
        r := Err(ins.error);
      } else {
        var id := NextId(rows, VehicleId);
        rows := ins.value;
        r := Ok(id);
      }
    }

    /** The vehicle half of `Lead.save`: `vehicle.status = st; vehicle.save()`. */
    method SetStatusOf(id: int, st: VehicleStatus, now: int)
      requires Valid()
      modifies this
      ensures Valid()
      ensures rows == SetStatus(old(rows), id, st, now)
    {
      SetStatusKeepsValid(rows, id, st, now);
      rows := SetStatus(rows, id, st, now);
    }

    /** `serializer.save()` on an existing row: the row with that key becomes `v`. */
    method Save(v: Vehicle)
      requires Valid()
      requires exists i :: 0 <= i < |rows| && rows[i].id == v.id && rows[i].vin == v.vin
                           && rows[i].stockNumber == v.stockNumber
      requires FitsColumns(v)
      modifies this
      ensures Valid()
      ensures rows == Replace(old(rows), v.id, v)
    {
      var i :| 0 <= i < |rows| && rows[i].id == v.id && rows[i].vin == v.vin && rows[i].stockNumber == v.stockNumber;
      ReplaceKeepsValid(rows, i, v);
      rows := Replace(rows, v.id, v);
    }

    /** `DELETE /vehicles/<id>/`: exactly the row with that key goes. */
    method Delete(id: int)
      requires Valid()
      modifies this
      ensures Valid()
      ensures rows == Filter(old(rows), (v: Vehicle) => v.id != id)
    {
      var kept := Filter(rows, (v: Vehicle) => v.id != id);
      FilterKeepsValid(rows, id);
      rows := kept;
    }
  }

  lemma {:induction false} FilterKeepsValid(vs: seq<Vehicle>, id: int)
    requires ValidTable(vs)
    ensures ValidTable(Filter(vs, (v: Vehicle) => v.id != id))
  {
    FilterIsSubsequence(vs, (v: Vehicle) => v.id != id);
    SubsequenceKeepsValid(Filter(vs, (v: Vehicle) => v.id != id), vs);
  }

  lemma {:induction false} SubsequenceKeepsValid(a: seq<Vehicle>, b: seq<Vehicle>)
    requires IsSubsequence(a, b) && ValidTable(b)
    ensures ValidTable(a)
    decreases |b|
  {
    if a != [] {
      if a[0] == b[0] {
        SubsequenceKeepsValid(a[1..], b[1..]);
        SubsequenceMembers(a[1..], b[1..]);
        forall j | 0 < j < |a| ensures a[0].id != a[j].id && a[0].vin != a[j].vin && a[0].stockNumber != a[j].stockNumber {
          assert a[j] == a[1..][j - 1];
          var k :| 0 <= k < |b[1..]| && b[1..][k] == a[j];
          assert b[k + 1] == a[j];
        }
      } else {
        SubsequenceKeepsValid(a, b[1..]);
      }
    }
  }

  lemma {:induction false} SubsequenceMembers<T>(a: seq<T>, b: seq<T>)
    requires IsSubsequence(a, b)
    ensures forall j :: 0 <= j < |a| ==> exists k :: 0 <= k < |b| && b[k] == a[j]
    decreases |b|
  {
    if a != [] {
      if a[0] == b[0] {
        SubsequenceMembers(a[1..], b[1..]);
        forall j | 0 <= j < |a| ensures exists k :: 0 <= k < |b| && b[k] == a[j] {
          if j == 0 {
            assert b[0] == a[0];
          } else {
            assert a[j] == a[1..][j - 1];
            var k :| 0 <= k < |b[1..]| && b[1..][k] == a[1..][j - 1];
            assert b[k + 1] == a[j];
          }
        }
      } else {
        SubsequenceMembers(a, b[1..]);
        forall j | 0 <= j < |a| ensures exists k :: 0 <= k < |b| && b[k] == a[j] {
          var k :| 0 <= k < |b[1..]| && b[1..][k] == a[j];
          assert b[k + 1] == a[j];
        }
      }
    }
  }
}
