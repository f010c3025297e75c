/** The service endpoints: the completion SMS sent when a record moves into
    COMPLETED, the manual "send SMS" endpoint, and the licence-plate scan's
    candidate selection and vehicle lookup. */
module ServiceViews {
  import opened Common
  import opened ServiceModels
  import AlprAi
  import Sms

  // ---------------------------------------------------------------------------
  // Duck-typed lookups
  // ---------------------------------------------------------------------------

  const RecordPhoneFields: seq<string> := ["customer_phone", "phone", "mobile"]
  const OwnerPhoneFields: seq<string> := ["phone", "phone_number", "mobile", "contact_number"]

  /** The first of `fields` that `o` has with a truthy value, and that value. */
  function FirstTruthy(o: Attrs, fields: seq<string>): (r: Option<string>)
    ensures r.None? <==> forall i :: 0 <= i < |fields| ==> !HasTruthy(o, fields[i])
    ensures r.Some? ==> exists i :: 0 <= i < |fields| && HasTruthy(o, fields[i]) && o[fields[i]] == r.value
                                    && forall j :: 0 <= j < i ==> !HasTruthy(o, fields[j])
  {
    if fields == [] then None
    else if HasTruthy(o, fields[0]) then Some(o[fields[0]])
    else
      var r := FirstTruthy(o, fields[1..]);
      assert forall i :: 1 <= i < |fields| ==> fields[i] == fields[1..][i - 1];
      if r.Some? then
        assert exists i :: 1 <= i < |fields| && HasTruthy(o, fields[i]) && o[fields[i]] == r.value
                           && forall j :: 0 <= j < i ==> !HasTruthy(o, fields[j]) by {
          var i :| 0 <= i < |fields[1..]| && HasTruthy(o, fields[1..][i]) && o[fields[1..][i]] == r.value
                   && forall j :: 0 <= j < i ==> !HasTruthy(o, fields[1..][j]);
          assert forall j :: 1 <= j < i + 1 ==> !HasTruthy(o, fields[j]) by {
            forall j | 1 <= j < i + 1 ensures !HasTruthy(o, fields[j]) { assert fields[j] == fields[1..][j - 1]; }
          }
        }
        r
      else r
  }

  /** `for field in fields: if hasattr(o, field) and getattr(o, field): ...; break`. */
  method LookupPhone(o: Attrs, fields: seq<string>) returns (phone: Option<string>)
    ensures phone == FirstTruthy(o, fields)
  {
    phone := None;
    var i := 0;
    while i < |fields|
      invariant 0 <= i <= |fields|
      invariant forall j :: 0 <= j < i ==> !HasTruthy(o, fields[j])
      invariant FirstTruthy(o, fields) == FirstTruthy(o, fields[i..])
    {
      FirstTruthyAt(o, fields, i);
      if fields[i] in o && o[fields[i]] != "" {
        phone := Some(o[fields[i]]);
        break;
      }
      i := i + 1;
    }
  }

  /** Scanning from position `i`: a truthy field there is the answer, otherwise the scan moves on. */
  lemma FirstTruthyAt(o: Attrs, fields: seq<string>, i: nat)
    requires i < |fields|
    ensures FirstTruthy(o, fields[i..]) ==
            if HasTruthy(o, fields[i]) then Some(o[fields[i]]) else FirstTruthy(o, fields[i + 1..])
  {
    assert fields[i..][1..] == fields[i + 1..];
  }

  /** `getattr(o, f)`: an absent attribute raises `AttributeError`. */
  function GetAttr(o: Attrs, f: string): (r: Result<string, string>)
    ensures r.Ok? <==> f in o
    ensures r.Ok? ==> r.value == o[f]
  {
    if f in o then Ok(o[f]) else Err("AttributeError: " + f)
  }

  /** What the views read from a record's vehicle and its owner. */
  datatype OwnerView = OwnerView(attrs: Attrs, text: string)
  datatype VehicleView = VehicleView(make: string, model: string, owner: Option<OwnerView>)

  /** The owner's display name: `str(owner)`, or "first last" when the owner
      has a truthy `first_name` (`owner.last_name` is read unguarded). */
  function OwnerDisplayName(o: OwnerView): (r: Result<string, string>)
    ensures !HasTruthy(o.attrs, "first_name") ==> r == Ok(o.text)
    ensures r.Err? <==> HasTruthy(o.attrs, "first_name") && "last_name" !in o.attrs
  {
    if !HasTruthy(o.attrs, "first_name") then Ok(o.text)
    else
      var last := GetAttr(o.attrs, "last_name");
      if last.Err? then Err(last.error) else Ok(o.attrs["first_name"] + " " + last.value)
  }

  /** Decimal text of an amount in cents with two places, as `str(Decimal)`
      prints a two-place money value. */
  function CentsText(c: int): string
  {
    var m := if c < 0 then -c else c;
    (if c < 0 then "-" else "") + NatToString(m / 100) + "." + [DigitChar(m % 100 / 10), DigitChar(m % 10)]
  }

  // ---------------------------------------------------------------------------
  // Completion SMS (`ServiceRecordViewSet.perform_update`)
  // ---------------------------------------------------------------------------

  function CompletionVehicleInfo(v: Option<VehicleView>): string
  {
    if v.None? then "your vehicle"
    else v.value.make + " " + (if v.value.model == "" then "Car" else v.value.model)
  }

  function CompletionText(name: string, vehicleInfo: string, totalCents: int): string
  {
    "Hi " + name + ", \n"
    + "✅ Good news! The service for " + vehicleInfo + " is completed. \n"
    + "Total Due: $" + CentsText(totalCents)
  }

  /** The message the completion branch sends, if any; an error where the
      duck-typed name lookup raises. */
  function CompletionSms(rec: Attrs, v: Option<VehicleView>, totalCents: int): (r: Result<Option<Sms.Message>, string>)
    ensures FirstTruthy(rec, RecordPhoneFields).Some? ==>
              r == Ok(Some(Sms.Message(FirstTruthy(rec, RecordPhoneFields).value,
                                       CompletionText("Valued Customer", CompletionVehicleInfo(v), totalCents))))
    ensures r == Ok(None) <==>
              FirstTruthy(rec, RecordPhoneFields).None?
              && (v.None? || v.value.owner.None? || FirstTruthy(v.value.owner.value.attrs, OwnerPhoneFields).None?)
  {
    var p := FirstTruthy(rec, RecordPhoneFields);
    if p.Some? then Ok(Some(Sms.Message(p.value, CompletionText("Valued Customer", CompletionVehicleInfo(v), totalCents))))
    else if v.None? || v.value.owner.None? then Ok(None)
    else
      var owner := v.value.owner.value;
      var q := FirstTruthy(owner.attrs, OwnerPhoneFields);
      if q.None? then Ok(None)
      else
        var name := OwnerDisplayName(owner);
        if name.Err? then Err(name.error)
        else Ok(Some(Sms.Message(q.value, CompletionText(name.value, CompletionVehicleInfo(v), totalCents))))
  }

  /** What the views see of a stored record: its vehicle and that vehicle's
      owner, as loaded through the foreign keys. */
  function ViewOf(sv: ServiceVehicle, customers: seq<Customer>): VehicleView
  {
    var c := FindCustomer(customers, sv.owner);
    VehicleView(sv.make, sv.model, if c.None? then None else Some(OwnerView(CustomerAttrs(c.value), CustomerText(c.value))))
  }

  /** For the app's own models the detective lookup reduces to: text the
      owner's `phone` under the owner's name, or send nothing when it is empty. */
  lemma CompletionForStoredRecord(r: ServiceRecord, sv: ServiceVehicle, customers: seq<Customer>, c: Customer)
    requires FindCustomer(customers, sv.owner) == Some(c)
    ensures CompletionSms(RecordAttrs(r), Some(ViewOf(sv, customers)), TotalCost(r)) ==
            Ok(if c.phone == "" then None
               else Some(Sms.Message(c.phone, CompletionText(c.name, CompletionVehicleInfo(Some(ViewOf(sv, customers))), TotalCost(r)))))
  {
    var rec := RecordAttrs(r);
    var p := FirstTruthy(rec, RecordPhoneFields);
    assert p.None? by {
      assert forall i :: 0 <= i < |RecordPhoneFields| ==> RecordPhoneFields[i] !in rec;
    }
    var o := CustomerAttrs(c);
    if c.phone != "" {
      assert HasTruthy(o, OwnerPhoneFields[0]);
      assert FirstTruthy(o, OwnerPhoneFields) == Some(c.phone);
    } else {
      assert forall i :: 0 <= i < |OwnerPhoneFields| ==> !HasTruthy(o, OwnerPhoneFields[i]);
    }
  }

  /** The service-record table (`ServiceRecord.objects`). */
  class RecordTable {
    var rows: seq<ServiceRecord>

    ghost predicate Valid()
      reads this
    {
      forall i, j :: 0 <= i < j < |rows| ==> rows[i].id != rows[j].id
    }

    constructor ()
      ensures Valid() && rows == []
    {
      rows := [];
    }

    /** `serializer.save()` on the row with `r`'s key. */
    method Save(r: ServiceRecord)
      requires Valid()
      modifies this
      ensures Valid()
      ensures rows == ReplaceRecord(old(rows), r)
    {
      rows := ReplaceRecord(rows, r);
    }
  }

  function ReplaceRecord(rs: seq<ServiceRecord>, r: ServiceRecord): (out: seq<ServiceRecord>)
    ensures |out| == |rs|
    ensures forall i :: 0 <= i < |rs| ==> out[i] == if rs[i].id == r.id then r else rs[i]
  {
    seq(|rs|, i requires 0 <= i < |rs| => if rs[i].id == r.id then r else rs[i])
  }

  function RecordKey(r: ServiceRecord): int { r.id }

  /** `ServiceRecord.objects.get(pk=id)`. */
  function FindRecord(rs: seq<ServiceRecord>, id: int): Option<ServiceRecord>
  {
    FindById(rs, RecordKey, id)
  }

  /** `PUT/PATCH /records/<id>/`: 404 for an unknown key, 400 when the body
      names a vehicle that does not exist; otherwise the record is saved
      (keeping its stored `date`, which `auto_now_add` makes read-only) and,
      on a move into COMPLETED, the completion message (if a phone is found)
      is sent. A raising name lookup is a 500 after the save. */
  method PerformUpdate(records: RecordTable, vehicles: seq<ServiceVehicle>, customers: seq<Customer>,
                       outbox: Sms.Outbox, id: int, body: ServiceRecord) returns (status: int)
    requires records.Valid()
    modifies records, outbox
    ensures records.Valid()
    ensures status == 404 <==> FindRecord(old(records.rows), id).None?
    ensures status == 400 <==> FindRecord(old(records.rows), id).Some? && FindVehicle(vehicles, body.vehicle).None?
    ensures status == 404 || status == 400 ==> records.rows == old(records.rows) && outbox.sent == old(outbox.sent)
    ensures status != 404 && status != 400 ==>
      var saved := body.(id := id, date := FindRecord(old(records.rows), id).value.date);
      var sms := CompletionSms(RecordAttrs(saved), Some(ViewOf(FindVehicle(vehicles, body.vehicle).value, customers)), TotalCost(saved));
      var fires := FindRecord(old(records.rows), id).value.status != Completed && saved.status == Completed;
      && records.rows == ReplaceRecord(old(records.rows), saved)
      && (status == 500 <==> fires && sms.Err?)
      && outbox.sent == old(outbox.sent) + (if fires && sms.Ok? && sms.value.Some? then [sms.value.value] else [])
  {
    var instance := FindRecord(records.rows, id);
    if instance.None? {
      return 404;
    }
    var sv := FindVehicle(vehicles, body.vehicle);
    if sv.None? {
      return 400;
    }
    var oldStatus := instance.value.status;
    var saved := body.(id := id, date := instance.value.date);
    records.Save(saved);
    status := 200;
    if oldStatus != Completed && saved.status == Completed {
      var failed := SendCompletion(outbox, RecordAttrs(saved), ViewOf(sv.value, customers), TotalCost(saved));
      if failed {
        return 500;
      }
    }
  }

  /** The completion branch of `perform_update`: find a phone on the record,
      else on the owner (then greeting the owner by name), and send. */
  method SendCompletion(outbox: Sms.Outbox, rec: Attrs, view: VehicleView, totalCents: int) returns (failed: bool)
    modifies outbox
    ensures var sms := CompletionSms(rec, Some(view), totalCents);
            && (failed <==> sms.Err?)
            && outbox.sent == old(outbox.sent) + (if sms.Ok? && sms.value.Some? then [sms.value.value] else [])
  {
    failed := false;
    var name := "Valued Customer";
    var phone := LookupPhone(rec, RecordPhoneFields);
    if phone.None? && view.owner.Some? {
      phone := LookupPhone(view.owner.value.attrs, OwnerPhoneFields);
      if phone.Some? {
        var n := OwnerDisplayName(view.owner.value);
        if n.Err? {
          return true;
        }
        name := n.value;
      }
    }
    if phone.Some? {
      outbox.Send(phone.value, CompletionText(name, CompletionVehicleInfo(Some(view)), totalCents));
    }
  }

  // ---------------------------------------------------------------------------
  // Manual SMS (`send_service_sms`)
  // ---------------------------------------------------------------------------

  datatype SmsResponse = SmsResponse(status: int, sent: Option<Sms.Message>)

  function ManualVehicleName(v: Option<VehicleView>): string
  {
    if v.None? then "your vehicle" else v.value.make + " " + v.value.model
  }

  function ManualText(name: string, vehicleName: string, totalCents: int): string
  {
    "Hi " + name + ",\n"
    + "✅ Good news! The service for " + vehicleName + " is completed.\n"
    + "Total Due: $" + CentsText(totalCents)
  }

  /** The phone-and-message part of `send_service_sms` once the record is
      loaded, AS WRITTEN: `service.customer_phone` and
      `service.customer_name` are read as plain attributes, so a record
      without them raises and the catch-all answers 500. */
  function ManualSmsAsWritten(rec: Attrs, v: Option<VehicleView>, totalCents: int): (r: SmsResponse)
    ensures "customer_phone" !in rec ==> r == SmsResponse(500, None)
    ensures r.status == 200 <==> r.sent.Some?
  {
    var cp := GetAttr(rec, "customer_phone");
    if cp.Err? then SmsResponse(500, None)
    else
      var phone :=
        if cp.value != "" then Some(cp.value)
        else if v.Some? && v.value.owner.Some? then FirstTruthy(v.value.owner.value.attrs, OwnerPhoneFields)
        else None;
      if phone.None? then SmsResponse(400, None)
      else
        var cn := GetAttr(rec, "customer_name");
        if cn.Err? then SmsResponse(500, None)
        else
          var name := if v.Some? && v.value.owner.Some? then v.value.owner.value.text
                      else if cn.value != "" then cn.value else "Valued Customer";
          SmsResponse(200, Some(Sms.Message(phone.value, ManualText(name, ManualVehicleName(v), totalCents))))
  }

  /** The same endpoint with the record's optional attributes read the way
      the rest of the code reads them (`hasattr` first). */
  function ManualSms(rec: Attrs, v: Option<VehicleView>, totalCents: int): (r: SmsResponse)
    ensures r.status == 200 <==> r.sent.Some?
    ensures r.status in {200, 400}
  {
    var phone :=
      if HasTruthy(rec, "customer_phone") then Some(rec["customer_phone"])
      else if v.Some? && v.value.owner.Some? then FirstTruthy(v.value.owner.value.attrs, OwnerPhoneFields)
      else None;
    if phone.None? then SmsResponse(400, None)
    else
      var name := if v.Some? && v.value.owner.Some? then v.value.owner.value.text
                  else if HasTruthy(rec, "customer_name") then rec["customer_name"] else "Valued Customer";
      SmsResponse(200, Some(Sms.Message(phone.value, ManualText(name, ManualVehicleName(v), totalCents))))
  }

  /** `send_service_sms(request, pk)` as written (the view is not routed
      in the service app's URL table): 404 for an unknown key; for every
      stored record, whatever its owner's phone, 500. */
  function SendServiceSmsAsWritten(records: seq<ServiceRecord>, vehicles: seq<ServiceVehicle>,
                                   customers: seq<Customer>, pk: int): (r: SmsResponse)
    ensures FindRecord(records, pk).None? ==> r == SmsResponse(404, None)
  {
    var rec := FindRecord(records, pk);
    if rec.None? then SmsResponse(404, None)
    else
      var sv := FindVehicle(vehicles, rec.value.vehicle);
      ManualSmsAsWritten(RecordAttrs(rec.value), if sv.None? then None else Some(ViewOf(sv.value, customers)),
                         TotalCost(rec.value))
  }

  /** The counterexample: a stored record whose owner has a phone still gets
      500 and no message, and one whose owner has none gets 500, not 400. */
  lemma AsWrittenNeverSends(records: seq<ServiceRecord>, vehicles: seq<ServiceVehicle>, customers: seq<Customer>, pk: int)
    requires FindRecord(records, pk).Some?
    ensures SendServiceSmsAsWritten(records, vehicles, customers, pk) == SmsResponse(500, None)
  {
  }

  /** `send_service_sms(request, pk)` with the guarded reads. */
  function SendServiceSms(records: seq<ServiceRecord>, vehicles: seq<ServiceVehicle>,
                          customers: seq<Customer>, pk: int): (r: SmsResponse)
    ensures r.status == 404 <==> FindRecord(records, pk).None?
    ensures r.status == 200 <==> r.sent.Some?
  {
    var rec := FindRecord(records, pk);
    if rec.None? then SmsResponse(404, None)
    else
      var sv := FindVehicle(vehicles, rec.value.vehicle);
      ManualSms(RecordAttrs(rec.value), if sv.None? then None else Some(ViewOf(sv.value, customers)),
                TotalCost(rec.value))
  }

  /** With the guarded reads, a stored record's owner phone decides: empty is
      the 400, otherwise the owner is texted under the owner's name. */
  lemma SendServiceSmsForStoredRecord(records: seq<ServiceRecord>, vehicles: seq<ServiceVehicle>,
                                      customers: seq<Customer>, pk: int, sv: ServiceVehicle, c: Customer)
    requires FindRecord(records, pk).Some?
    requires FindVehicle(vehicles, FindRecord(records, pk).value.vehicle) == Some(sv)
    requires FindCustomer(customers, sv.owner) == Some(c)
    ensures var r := SendServiceSms(records, vehicles, customers, pk);
            && (r.status == 400 <==> c.phone == "")
            && (c.phone != "" ==> r.sent == Some(Sms.Message(c.phone,
                   ManualText(c.name, sv.make + " " + sv.model, TotalCost(FindRecord(records, pk).value)))))
  {
    var o := CustomerAttrs(c);
    if c.phone != "" {
      assert HasTruthy(o, OwnerPhoneFields[0]);
      assert FirstTruthy(o, OwnerPhoneFields) == Some(c.phone);
    } else {
      assert forall i :: 0 <= i < |OwnerPhoneFields| ==> !HasTruthy(o, OwnerPhoneFields[i]);
    }
  }

  /** `send_service_sms` with the guarded reads, sending through the outbox. */
  method SendServiceSmsView(records: seq<ServiceRecord>, vehicles: seq<ServiceVehicle>, customers: seq<Customer>,
                            outbox: Sms.Outbox, pk: int) returns (status: int)
    modifies outbox
    ensures status == SendServiceSms(records, vehicles, customers, pk).status
    ensures var r := SendServiceSms(records, vehicles, customers, pk);
            outbox.sent == old(outbox.sent) + (if r.sent.Some? then [r.sent.value] else [])
  {
    var r := SendServiceSms(records, vehicles, customers, pk);
    if r.sent.Some? {
      outbox.Send(r.sent.value.to, r.sent.value.body);
    }
    status := r.status;
  }

  // ---------------------------------------------------------------------------
  // Licence-plate scan (`LicensePlateScanView.post`)
  // ---------------------------------------------------------------------------

  /** `"".join(c for c in text if c.isalnum()).upper()`. */
  function CleanScan(text: string): string
  {
    ToUpper(Filter(text, IsAlnum))
  }

  /** On ASCII text the scan view's cleaning and the ALPR helper's cleaning
      (upper-case first, then drop what is not A-Z or 0-9) agree. */
  lemma {:induction false} CleanScanMatchesAlpr(text: string)
    ensures CleanScan(text) == AlprAi.CleanAlpr(text)
  {
    if text != [] {
      CleanScanMatchesAlpr(text[1..]);
      assert ToUpper(text) == [UpperChar(text[0])] + ToUpper(text[1..]);
      assert ToUpper(text)[1..] == ToUpper(text[1..]);
      assert AlprAi.IsPlateChar(UpperChar(text[0])) <==> IsAlnum(text[0]);
      if IsAlnum(text[0]) {
        assert Filter(text, IsAlnum) == [text[0]] + Filter(text[1..], IsAlnum);
        assert ToUpper([text[0]] + Filter(text[1..], IsAlnum))[1..] == ToUpper(Filter(text[1..], IsAlnum));
      }
    }
  }

  predicate LongEnough(s: string) { |s| >= 3 }

  /** `candidates` after the loop has seen `ocr`. */
  function CandidatesSpec(ocr: seq<AlprAi.OcrResult>): seq<string>
  {
    if ocr == [] then []
    else
      var c := CleanScan(ocr[|ocr| - 1].text);
      CandidatesSpec(ocr[..|ocr| - 1]) + (if LongEnough(c) then [c] else [])
  }

  method Candidates(ocr: seq<AlprAi.OcrResult>) returns (candidates: seq<string>)
    ensures candidates == CandidatesSpec(ocr)
  {
    candidates := [];
    var i := 0;
    while i < |ocr|
      invariant 0 <= i <= |ocr|
      invariant candidates == CandidatesSpec(ocr[..i])
    {
      assert ocr[..i + 1][..i] == ocr[..i];
      var clean := CleanScan(ocr[i].text);
      if |clean| >= 3 {
        candidates := candidates + [clean];
      }
      i := i + 1;
    }
    assert ocr[..i] == ocr;
  }

  function CleanedTexts(ocr: seq<AlprAi.OcrResult>): (r: seq<string>)
    ensures |r| == |ocr| && forall i :: 0 <= i < |ocr| ==> r[i] == CleanScan(ocr[i].text)
  {
    seq(|ocr|, i requires 0 <= i < |ocr| => CleanScan(ocr[i].text))
  }

  /** The candidates are the cleaned tokens of length at least 3, in OCR order. */
  lemma {:induction false} CandidatesAreFiltered(ocr: seq<AlprAi.OcrResult>)
    ensures CandidatesSpec(ocr) == Filter(CleanedTexts(ocr), LongEnough)
  {
    if ocr != [] {
      var init := ocr[..|ocr| - 1];
      var c := CleanScan(ocr[|ocr| - 1].text);
      assert CandidatesSpec(ocr) == CandidatesSpec(init) + (if LongEnough(c) then [c] else []);
      CandidatesAreFiltered(init);
      CleanedTextsSnoc(ocr);
      FilterConcat(CleanedTexts(init), [c], LongEnough);
    }
  }

  lemma CleanedTextsSnoc(ocr: seq<AlprAi.OcrResult>)
    requires ocr != []
    ensures CleanedTexts(ocr) == CleanedTexts(ocr[..|ocr| - 1]) + [CleanScan(ocr[|ocr| - 1].text)]
  {
    var init := ocr[..|ocr| - 1];
    assert forall i :: 0 <= i < |init| ==> init[i] == ocr[i];
  }

  function NegLength(s: string): int { -|s| }

  /** `candidates.sort(key=len, reverse=True); candidates[0]`, or "UNKNOWN". */
  function PickPlate(candidates: seq<string>): string
  {
    if candidates == [] then "UNKNOWN" else SortByKey(candidates, NegLength)[0]
  }

  /** Python's sort is stable (also with `reverse=True`), so the plate is the
      first of the longest candidates. */
  lemma PickPlateFirstLongest(candidates: seq<string>)
    requires candidates != []
    ensures exists k :: 0 <= k < |candidates| && PickPlate(candidates) == candidates[k]
              && (forall i :: 0 <= i < |candidates| ==> |candidates[i]| <= |candidates[k]|)
              && (forall i :: 0 <= i < k ==> |candidates[i]| < |candidates[k]|)
  {
    SortByKeyHead(candidates, NegLength);
    var k := FirstMinIndex(candidates, NegLength);
    assert PickPlate(candidates) == candidates[k];
  }

  datatype ScanResponse = ScanResponse(status: int, plate: string, existing: Option<ServiceVehicle>)

  /** `LicensePlateScanView.post` after OCR: no image is a 400; otherwise the
      chosen plate and the vehicle registered under it, if any. */
  function ScanPlate(hasImage: bool, ocr: seq<AlprAi.OcrResult>, vehicles: seq<ServiceVehicle>): (r: ScanResponse)
    ensures r.status == 400 <==> !hasImage
    ensures hasImage ==> r.plate == PickPlate(CandidatesSpec(ocr)) && r.existing == FindByPlate(vehicles, r.plate)
    ensures hasImage && CandidatesSpec(ocr) == [] ==> r.plate == "UNKNOWN"
  {
    if !hasImage then ScanResponse(400, "", None)
    else
      var plate := PickPlate(CandidatesSpec(ocr));
      ScanResponse(200, plate, FindByPlate(vehicles, plate))
  }

  /** Every chosen plate other than the fallback is upper-case alphanumeric
      and at least 3 long. */
  lemma ScanPlateShape(ocr: seq<AlprAi.OcrResult>)
    requires CandidatesSpec(ocr) != []
    ensures |PickPlate(CandidatesSpec(ocr))| >= 3
    ensures forall i :: 0 <= i < |PickPlate(CandidatesSpec(ocr))| ==> AlprAi.IsPlateChar(PickPlate(CandidatesSpec(ocr))[i])
  {
    var cs := CandidatesSpec(ocr);
    PickPlateFirstLongest(cs);
    CandidatesAreFiltered(ocr);
    var k :| 0 <= k < |cs| && PickPlate(cs) == cs[k];
    assert cs[k] in CleanedTexts(ocr);
    var j :| 0 <= j < |ocr| && CleanedTexts(ocr)[j] == cs[k];
    CleanScanMatchesAlpr(ocr[j].text);
  }
}
