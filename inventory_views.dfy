/** The inventory endpoints: the vehicle update that stamps `sold_date`, and
    the VIN-decode endpoint that rejects a request without a VIN. */
module InventoryViews {
  import opened Common
  import opened InventoryModels
  import VinDecoder

  /** The body of `PATCH /api/inventory/vehicles/<id>/`: the fields the
      clients send (the edit form, the desk and the leads board), each
      optional; `status` is the raw code as received. */
  datatype VehiclePatch = VehiclePatch(
    status: Option<string>,
    sellingPrice: Option<int>,
    costPrice: Option<int>,
    mileage: Option<int>,
    color: Option<string>)

  function OrElse<T>(o: Option<T>, d: T): T
  {
    if o.Some? then o.value else d
  }

  /** Field names whose validation rejects the patch: a status code
      outside the choices, a sent colour that is blank or over 30
      characters, a sent price beyond its digits.  Fields not sent are not
      validated. */
  function PatchErrors(p: VehiclePatch): (r: set<string>)
    ensures r == {} <==> (p.status.Some? ==> ParseStatus(p.status.value).Some?)
                          && (p.color.Some? ==> FitsText(p.color.value, 30, false))
                          && (p.costPrice.Some? ==> FitsMoney(p.costPrice.value))
                          && (p.sellingPrice.Some? ==> FitsMoney(p.sellingPrice.value))
    ensures "status" in r <==> p.status.Some? && ParseStatus(p.status.value).None?
  {
    (if p.status.Some? && ParseStatus(p.status.value).None? then {"status"} else {})
    + (if p.color.Some? && !FitsText(p.color.value, 30, false) then {"color"} else {})
    + (if p.costPrice.Some? && !FitsMoney(p.costPrice.value) then {"cost_price"} else {})
    + (if p.sellingPrice.Some? && !FitsMoney(p.sellingPrice.value) then {"selling_price"} else {})
  }

  /** What `serializer.save(...)` writes for a valid patch: the sent fields,
      `sold_date = now` exactly when the request's status is "SOLD", and the
      auto-now `updated_at`.  An invalid field is a validation error, and a
      patched row that met the column rules still meets them. */
  function ApplyPatch(v: Vehicle, p: VehiclePatch, now: int): (r: Result<Vehicle, set<string>>)
    ensures r.Err? <==> PatchErrors(p) != {}
    ensures r.Err? ==> r.error == PatchErrors(p)
    ensures r.Ok? ==> r.value.soldDate == (if p.status == Some("SOLD") then Some(now) else v.soldDate)
    ensures r.Ok? ==> r.value.status == (if p.status.Some? then ParseStatus(p.status.value).value else v.status)
    ensures r.Ok? ==> r.value.id == v.id && r.value.vin == v.vin && r.value.stockNumber == v.stockNumber
    ensures r.Ok? ==> r.value.updatedAt == now && r.value.createdAt == v.createdAt
    ensures r.Ok? && FitsColumns(v) ==> FitsColumns(r.value)
  {
    var errors := PatchErrors(p);
    if errors != {} then Err(errors)
    else
      var edited := v.(status := if p.status.Some? then ParseStatus(p.status.value).value else v.status,
                       sellingPrice := OrElse(p.sellingPrice, v.sellingPrice),
                       costPrice := OrElse(p.costPrice, v.costPrice),
                       mileage := OrElse(p.mileage, v.mileage),
                       color := OrElse(p.color, v.color),
                       updatedAt := now);
      Ok(if p.status == Some("SOLD") then edited.(soldDate := Some(now)) else edited)
  }

  /** Submitting a valid SOLD patch again replaces an earlier sale stamp
      with the new time. */
  lemma ResubmitSoldRestamps(v: Vehicle, p: VehiclePatch, t1: int, t2: int)
    requires p.status == Some("SOLD") && PatchErrors(p) == {}
    ensures ApplyPatch(v, p, t1).Ok?
    ensures ApplyPatch(ApplyPatch(v, p, t1).value, p, t2).value.soldDate == Some(t2)
  {
  }

  /** `VehicleViewSet.perform_update`, reached through `PATCH`: 404 for an
      unknown key, 400 for an invalid field, otherwise 200 with the row
      replaced by the patched one. */
  method PerformUpdate(table: VehicleTable, id: int, p: VehiclePatch, now: int) returns (status: int)
    requires table.Valid()
    modifies table
    ensures table.Valid()
    ensures status == 404 <==> !HasId(old(table.rows), id)
    ensures status == 400 <==> HasId(old(table.rows), id) && ApplyPatch(Find(old(table.rows), id).value, p, now).Err?
    ensures status != 200 ==> table.rows == old(table.rows)
    ensures status == 200 ==> table.rows == Replace(old(table.rows), id, ApplyPatch(Find(old(table.rows), id).value, p, now).value)
  {
    var row := Find(table.rows, id);
    if row.None? {
      return 404;
    }
    var patched := ApplyPatch(row.value, p, now);
    if patched.Err? {
      return 400;
    }
    var i :| 0 <= i < |table.rows| && table.rows[i] == row.value;
    table.Save(patched.value);
    status := 200;
  }

  /** The response of `POST /api/inventory/decode-vin/`, together with the
      VIN the NHTSA service was asked about (None when it was not asked). */
  datatype DecodeResponse = DecodeResponse(status: int, body: Result<VinDecoder.Decoded, string>, queried: Option<string>)

  /** `VINDecodeView.post`: a missing or empty VIN is a 400 and the decoder is
      never consulted; otherwise the decoded record of the service's rows for
      that VIN. A row that makes the decoder raise is a 500. */
  function DecodeVinView(vin: Option<string>, rows: seq<VinDecoder.Row>): (r: DecodeResponse)
    ensures r.status == 400 <==> vin.None? || vin.value == ""
    ensures r.status == 400 ==> r.queried.None? && r.body == Err("VIN is required")
    ensures r.status != 400 ==> r.queried == vin
    ensures r.status != 400 ==> r.body == VinDecoder.DecodeSpec(rows)
    ensures r.status == 500 <==> r.status != 400 && VinDecoder.DecodeSpec(rows).Err?
  {
    if vin.None? || vin.value == "" then DecodeResponse(400, Err("VIN is required"), None)
    else
      var d := VinDecoder.DecodeSpec(rows);
      DecodeResponse(if d.Ok? then 200 else 500, d, vin)
  }
}
