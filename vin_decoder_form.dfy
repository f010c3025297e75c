/** The stock-in form (`VINDecoderForm`): the VIN box, the decode that fills
    the form, and the save that posts the form as multipart data and resets
    it. */
module VinDecoderForm {
  import opened Common
  import opened UiCommon

  /** `formData`; prices and mileage are the numbers the inputs hold. */
  datatype Form = Form(make: string, model: string, year: string, trim: string, bodyStyle: string,
                       vin: string, stockNumber: string, color: string, mileage: int,
                       costPrice: int, sellingPrice: int, status: string)

  /** The decode endpoint's answer; absent fields are `None`. */
  datatype Decoded = Decoded(make: Option<string>, model: Option<string>, year: Option<int>,
                             trim: Option<string>, bodyStyle: Option<string>)

  datatype Request = DecodeVin(vin: string) | PostVehicle(fields: seq<(string, string)>)

  datatype Outcome = Rejected | Failed | Done

  /** The form a fresh page starts with. */
  function InitialForm(): Form
  {
    Form("", "", "", "", "", "", "", "Black", 0, 0, 0, "AVAILABLE")
  }

  /** The form after a successful save: every text blank (colour too),
      numbers zero, status AVAILABLE. */
  function ClearedForm(): Form
  {
    Form("", "", "", "", "", "", "", "", 0, 0, 0, "AVAILABLE")
  }

  /** `x || ''` for a text answer. */
  function OrBlank(s: Option<string>): string
  {
    if s.Some? then s.value else ""
  }

  /** `res.data.year || ''`: a missing or zero year leaves the field blank. */
  function YearField(y: Option<int>): string
  {
    if y.Some? && y.value != 0 then IntToString(y.value) else ""
  }

  /** The decode's form update. */
  function Filled(prev: Form, vin: string, d: Decoded): (r: Form)
    ensures r.make == OrBlank(d.make) && r.model == OrBlank(d.model) && r.trim == OrBlank(d.trim)
    ensures r.year == YearField(d.year)
    ensures |r.bodyStyle| <= 50 && r.bodyStyle <= OrBlank(d.bodyStyle)
    ensures |OrBlank(d.bodyStyle)| <= 50 ==> r.bodyStyle == OrBlank(d.bodyStyle)
    ensures r.vin == vin
    ensures r.stockNumber == prev.stockNumber && r.color == prev.color && r.mileage == prev.mileage
    ensures r.costPrice == prev.costPrice && r.sellingPrice == prev.sellingPrice && r.status == prev.status
  {
    prev.(make := OrBlank(d.make), model := OrBlank(d.model), year := YearField(d.year),
          trim := OrBlank(d.trim), bodyStyle := Take(OrBlank(d.bodyStyle), 50), vin := vin)
  }

  /** `handleSave`'s guard: a stock number and a non-zero selling price. */
  predicate Savable(f: Form) { Truthy(f.stockNumber) && f.sellingPrice != 0 }

  /** The multipart body: every form key in its declared order with its
      value as text, then the photo when one is attached. */
  function FormDataOf(f: Form, photo: Option<string>): (r: seq<(string, string)>)
    ensures |r| == if photo.Some? then 13 else 12
    ensures forall i :: 0 <= i < 12 ==> r[i].0 == FieldNames()[i]
    ensures r[6] == ("stock_number", f.stockNumber) && r[10] == ("selling_price", IntToString(f.sellingPrice))
    ensures photo.Some? ==> r[12] == ("photo", photo.value)
    ensures (exists i :: 0 <= i < |r| && r[i].0 == "photo") <==> photo.Some?
  {
    var fields := [("make", f.make), ("model", f.model), ("year", f.year), ("trim", f.trim),
                   ("body_style", f.bodyStyle), ("vin", f.vin), ("stock_number", f.stockNumber),
                   ("color", f.color), ("mileage", IntToString(f.mileage)),
                   ("cost_price", IntToString(f.costPrice)), ("selling_price", IntToString(f.sellingPrice)),
                   ("status", f.status)];
    assert forall i :: 0 <= i < 12 ==> fields[i].0 == FieldNames()[i];
    if photo.Some? then fields + [("photo", photo.value)] else fields
  }

  function FieldNames(): (r: seq<string>)
    ensures |r| == 12 && "photo" !in r
  {
    ["make", "model", "year", "trim", "body_style", "vin", "stock_number", "color",
     "mileage", "cost_price", "selling_price", "status"]
  }

  /** The stock-in page's React state; `sent` logs the HTTP calls. */
  class StockIn {
    var vin: string
    var photo: Option<string>
    var refreshKey: int
    var form: Form
    var sent: seq<Request>

    constructor()
      ensures vin == "" && photo == None && refreshKey == 0 && form == InitialForm() && sent == []
    {
      vin := "";
      photo := None;
      refreshKey := 0;
      form := InitialForm();
      sent := [];
    }

    /** The VIN box stores what is typed in upper case. */
    method TypeVin(text: string)
      modifies this`vin
      ensures vin == ToUpper(text)
      ensures forall i :: 0 <= i < |vin| ==> !IsLowerAscii(vin[i])
    {
      vin := ToUpper(text);
    }

    /** `handleChange` for a text field. */
    method SetStockNumber(text: string)
      modifies this`form
      ensures form == old(form).(stockNumber := text)
    {
      form := form.(stockNumber := text);
    }

    /** `handleChange('selling_price', Number(...))`. */
    method SetSellingPrice(price: int)
      modifies this`form
      ensures form == old(form).(sellingPrice := price)
    {
      form := form.(sellingPrice := price);
    }

    /** `handleDecode`; `answer` is the endpoint's reply, `None` when the
        call fails.  An empty VIN is rejected without a call. */
    method Decode(answer: Option<Decoded>) returns (outcome: Outcome)
      modifies this`form, this`sent
      ensures vin == "" <==> outcome == Rejected
      ensures outcome == Rejected ==> sent == old(sent) && form == old(form)
      ensures outcome != Rejected ==> sent == old(sent) + [DecodeVin(vin)]
      ensures outcome == Failed <==> vin != "" && answer.None?
      ensures outcome == Failed ==> form == old(form)
      ensures outcome == Done ==> form == Filled(old(form), vin, answer.value)
    {
      if !Truthy(vin) {
        return Rejected;
      }
      sent := sent + [DecodeVin(vin)];
      if answer.None? {
        return Failed;
      }
      form := Filled(form, vin, answer.value);
      outcome := Done;
    }

    /** `handleSave`; `ok` says whether the post succeeds.  A form without a
        stock number or selling price is rejected before any call; a saved
        form bumps the refresh key and clears the page. */
    method Save(ok: bool) returns (outcome: Outcome)
      modifies this
      ensures outcome == Rejected <==> !Savable(old(form))
      ensures outcome == Rejected ==> unchanged(this)
      ensures outcome != Rejected ==> sent == old(sent) + [PostVehicle(FormDataOf(old(form), old(photo)))]
      ensures outcome == Failed ==> vin == old(vin) && photo == old(photo) && form == old(form) && refreshKey == old(refreshKey)
      ensures outcome == Done ==> refreshKey == old(refreshKey) + 1 && vin == "" && photo == None && form == ClearedForm()
      ensures outcome == Done <==> Savable(old(form)) && ok
    {
      if !Savable(form) {
        return Rejected;
      }
      sent := sent + [PostVehicle(FormDataOf(form, photo))];
      if !ok {
        return Failed;
      }
      refreshKey := refreshKey + 1;
      vin := "";
      photo := None;
      form := ClearedForm();
      outcome := Done;
    }
  }

  /** A cleared form cannot be saved again until a stock number and price
      are entered, and it offers AVAILABLE as the status. */
  lemma ClearedFormNotSavable()
    ensures !Savable(ClearedForm()) && ClearedForm().status == "AVAILABLE"
    ensures !Savable(InitialForm())
  {
  }
}
