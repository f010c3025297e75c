/** `Customer360View.get`: leads and service records grouped into one
    customer per phone number, each with a lifetime value and a history of
    SALE and SERVICE events, newest first. */
module CustomersView {
  import opened Common
  import Inv = InventoryModels
  import opened SalesModels
  import SalesViews
  import opened ServiceModels
  import ServiceViews

  datatype EventKind = SaleEvent | ServiceEvent

  /** One history item; `amount` in cents. */
  datatype Event = Event(kind: EventKind, date: int, status: string, description: string, amount: int)

  datatype CustomerEntry = CustomerEntry(name: string, phone: string, lifetimeValue: int, history: seq<Event>)

  type Customers = Dict<string, CustomerEntry>

  // ---------------------------------------------------------------------------
  // Leads
  // ---------------------------------------------------------------------------

  /** The linked vehicle's price when the lead is SOLD with a vehicle, else 0. */
  function SoldPrice(l: Lead, vs: seq<Inv.Vehicle>): int
  {
    var v := SalesViews.LinkedVehicle(vs, l);
    if l.status == Sold && v.Some? then v.value.sellingPrice else 0
  }

  /** The SALE event appended for a lead, before the sold patch. */
  function InterestEvent(l: Lead, vs: seq<Inv.Vehicle>): Event
  {
    var v := SalesViews.LinkedVehicle(vs, l);
    Event(SaleEvent, l.createdAt, LeadStatusCode(l.status),
          if v.Some? then "Interest in " + Inv.VehicleLabel(v.value) else "General Inquiry", 0)
  }

  /** The SALE event as it stands after the loop body: a sold lead's event
      carries the price and a "Purchased" description. */
  function LeadEvent(l: Lead, vs: seq<Inv.Vehicle>): (e: Event)
    ensures e.kind == SaleEvent && e.date == l.createdAt && e.amount == SoldPrice(l, vs)
    ensures e.status == LeadStatusCode(l.status)
    ensures SalesViews.LinkedVehicle(vs, l).None? ==> e.description == "General Inquiry"
    ensures StartsWith(e.description, "Purchased ") <==> l.status == Sold && SalesViews.LinkedVehicle(vs, l).Some?
    ensures l.status != Sold && SalesViews.LinkedVehicle(vs, l).Some? ==> StartsWith(e.description, "Interest in ")
  {
    var v := SalesViews.LinkedVehicle(vs, l);
    if l.status == Sold && v.Some? then
      InterestEvent(l, vs).(amount := v.value.sellingPrice,
                            description := "Purchased " + Inv.YearText(v.value.year) + " " + v.value.model)
    else
      var e := InterestEvent(l, vs);
      assert e.description[0] == 'I' || e.description[0] == 'G';
      e
  }

  /** One iteration of the leads loop. */
  function LeadStep(d: Customers, l: Lead, vs: seq<Inv.Vehicle>): Customers
  {
    if l.phone == "" then d
    else
      var entry := if l.phone in d.vals then d.vals[l.phone] else CustomerEntry(LeadName(l), l.phone, 0, []);
      d.Put(l.phone, entry.(lifetimeValue := entry.lifetimeValue + SoldPrice(l, vs),
                            history := entry.history + [LeadEvent(l, vs)]))
  }

  function LeadsPhase(leads: seq<Lead>, vs: seq<Inv.Vehicle>): Customers
  {
    if leads == [] then EmptyDict()
    else LeadStep(LeadsPhase(leads[..|leads| - 1], vs), leads[|leads| - 1], vs)
  }

  /** The leads with phone `p`, in table order. */
  function LeadsWithPhone(leads: seq<Lead>, p: string): (r: seq<Lead>)
    ensures r == [] <==> forall i :: 0 <= i < |leads| ==> leads[i].phone != p
  {
    if leads == [] then []
    else
      var init := leads[..|leads| - 1];
      var r := LeadsWithPhone(init, p) + (if leads[|leads| - 1].phone == p then [leads[|leads| - 1]] else []);
      assert (forall i :: 0 <= i < |leads| ==> leads[i].phone != p) <==>
             (forall i :: 0 <= i < |init| ==> init[i].phone != p) && leads[|leads| - 1].phone != p by {
        forall i | 0 <= i < |init| ensures init[i] == leads[i] { }
      }
      r
  }

  function LeadEvents(ls: seq<Lead>, vs: seq<Inv.Vehicle>): (r: seq<Event>)
    ensures |r| == |ls|
  {
    if ls == [] then [] else LeadEvents(ls[..|ls| - 1], vs) + [LeadEvent(ls[|ls| - 1], vs)]
  }

  function SoldTotal(ls: seq<Lead>, vs: seq<Inv.Vehicle>): int
  {
    if ls == [] then 0 else SoldTotal(ls[..|ls| - 1], vs) + SoldPrice(ls[|ls| - 1], vs)
  }

  predicate HasPhone(leads: seq<Lead>, p: string)
  {
    exists i :: 0 <= i < |leads| && leads[i].phone == p
  }

  /** One lead step adds at most its own phone as a key. */
  lemma LeadStepKeys(d: Customers, l: Lead, vs: seq<Inv.Vehicle>)
    requires d.Valid()
    ensures LeadStep(d, l, vs).Valid()
    ensures LeadStep(d, l, vs).vals.Keys == d.vals.Keys + (if l.phone == "" then {} else {l.phone})
  {
  }

  /** The non-empty phones of `leads`. */
  function PhonesOf(leads: seq<Lead>): (r: set<string>)
    ensures forall p :: p in r <==> p != "" && HasPhone(leads, p)
  {
    set i | 0 <= i < |leads| && leads[i].phone != "" :: leads[i].phone
  }

  /** After the leads loop: one entry per non-empty phone of the leads. */
  lemma {:induction false} LeadsPhaseKeys(leads: seq<Lead>, vs: seq<Inv.Vehicle>)
    ensures LeadsPhase(leads, vs).Valid()
    ensures LeadsPhase(leads, vs).vals.Keys == PhonesOf(leads)
  {
    if leads != [] {
      var init := leads[..|leads| - 1];
      var l := leads[|leads| - 1];
      LeadsPhaseKeys(init, vs);
      LeadStepKeys(LeadsPhase(init, vs), l, vs);
      PhonesSnoc(leads);
    }
  }

  lemma PhonesSnoc(leads: seq<Lead>)
    requires leads != []
    ensures PhonesOf(leads) == PhonesOf(leads[..|leads| - 1]) + (if leads[|leads| - 1].phone == "" then {} else {leads[|leads| - 1].phone})
  {
    var init := leads[..|leads| - 1];
    var l := leads[|leads| - 1];
    forall p ensures p in PhonesOf(leads) <==> p in PhonesOf(init) || (l.phone != "" && p == l.phone) {
      if HasPhone(init, p) {
        var i :| 0 <= i < |init| && init[i].phone == p;
        assert leads[i].phone == p;
      }
      if HasPhone(leads, p) && p != l.phone {
        var i :| 0 <= i < |leads| && leads[i].phone == p;
        assert init[i].phone == p;
      }
    }
  }

  /** What one lead step does to the entry under `p`. */
  lemma LeadStepEntry(d: Customers, l: Lead, vs: seq<Inv.Vehicle>, p: string)
    requires p in LeadStep(d, l, vs).vals
    ensures p != l.phone || l.phone == "" ==> p in d.vals && LeadStep(d, l, vs).vals[p] == d.vals[p]
    ensures p == l.phone && p != "" ==>
              var base := if p in d.vals then d.vals[p] else CustomerEntry(LeadName(l), p, 0, []);
              LeadStep(d, l, vs).vals[p] == base.(lifetimeValue := base.lifetimeValue + SoldPrice(l, vs),
                                                  history := base.history + [LeadEvent(l, vs)])
  {
  }

  lemma LeadEventsSnoc(ws: seq<Lead>, l: Lead, vs: seq<Inv.Vehicle>)
    ensures LeadEvents(ws + [l], vs) == LeadEvents(ws, vs) + [LeadEvent(l, vs)]
    ensures SoldTotal(ws + [l], vs) == SoldTotal(ws, vs) + SoldPrice(l, vs)
  {
    assert (ws + [l])[..|ws|] == ws;
  }

  /** The entry for phone `p` after the leads loop: named after the first
      lead with that phone (later leads never rename it), holding exactly
      that phone's SALE events in table order and the sum of its sold prices. */
  lemma {:induction false} LeadsPhaseEntry(leads: seq<Lead>, vs: seq<Inv.Vehicle>, p: string)
    requires p != "" && p in LeadsPhase(leads, vs).vals
    ensures LeadsWithPhone(leads, p) != []
    ensures var e := LeadsPhase(leads, vs).vals[p];
            && e.phone == p
            && e.name == LeadName(LeadsWithPhone(leads, p)[0])
            && e.history == LeadEvents(LeadsWithPhone(leads, p), vs)
            && e.lifetimeValue == SoldTotal(LeadsWithPhone(leads, p), vs)
  {
    var init := leads[..|leads| - 1];
    var l := leads[|leads| - 1];
    var d := LeadsPhase(init, vs);
    LeadStepEntry(d, l, vs, p);
    var ws := LeadsWithPhone(init, p);
    if p == l.phone {
      assert LeadsWithPhone(leads, p) == ws + [l];
      LeadEventsSnoc(ws, l, vs);
      if p in d.vals {
        LeadsPhaseEntry(init, vs, p);
        assert (ws + [l])[0] == ws[0];
      } else {
        LeadsPhaseKeys(init, vs);
        assert !HasPhone(init, p);
        assert ws == [];
      }
    } else {
      LeadsPhaseEntry(init, vs, p);
      assert LeadsWithPhone(leads, p) == ws;
    }
  }

  /** A lead with an empty phone is skipped entirely. */
  lemma EmptyPhoneSkipped(d: Customers, l: Lead, vs: seq<Inv.Vehicle>)
    requires l.phone == ""
    ensures LeadStep(d, l, vs) == d
  {
  }

  // ---------------------------------------------------------------------------
  // Service records
  // ---------------------------------------------------------------------------

  /** The phone a service record is filed under: the record's own
      `customer_phone`, else the first truthy phone-like field of the owner. */
  function ServicePhone(rec: Attrs, v: Option<ServiceViews.VehicleView>): Option<string>
  {
    if HasTruthy(rec, "customer_phone") then Some(rec["customer_phone"])
    else if v.Some? && v.value.owner.Some? then ServiceViews.FirstTruthy(v.value.owner.value.attrs, ServiceViews.OwnerPhoneFields)
    else None
  }

  /** The name a service-only customer is created with; an error where the
      owner's `last_name` is read and absent. */
  function ServiceName(rec: Attrs, v: Option<ServiceViews.VehicleView>): Result<string, string>
  {
    if HasTruthy(rec, "customer_name") then Ok(rec["customer_name"])
    else if v.Some? && v.value.owner.Some? then ServiceViews.OwnerDisplayName(v.value.owner.value)
    else Ok("Service Customer")
  }

  /** What the loop reads of one stored record. */
  datatype ServiceInput = ServiceInput(rec: Attrs, vehicle: Option<ServiceViews.VehicleView>, date: int,
                                       status: RecordStatus, description: string, totalCost: int)

  function InputOf(r: ServiceRecord, svs: seq<ServiceVehicle>, customers: seq<Customer>): ServiceInput
  {
    var sv := FindVehicle(svs, r.vehicle);
    ServiceInput(RecordAttrs(r), if sv.None? then None else Some(ServiceViews.ViewOf(sv.value, customers)),
                 r.date, r.status, r.description, TotalCost(r))
  }

  function ServiceEventOf(s: ServiceInput): Event
  {
    Event(ServiceEvent, s.date, RecordStatusCode(s.status), "Service: " + s.description, s.totalCost)
  }

  /** One iteration of the services loop. */
  function ServiceStep(d: Customers, s: ServiceInput): Result<Customers, string>
  {
    var phone := ServicePhone(s.rec, s.vehicle);
    if phone.None? || phone.value == "" then Ok(d)
    else
      var p := phone.value;
      var entry :=
        if p in d.vals then Ok(d.vals[p])
        else
          var name := ServiceName(s.rec, s.vehicle);
          if name.Err? then Err(name.error) else Ok(CustomerEntry(name.value, p, 0, []));
      if entry.Err? then Err(entry.error)
      else
        var e := entry.value;
        Ok(d.Put(p, e.(lifetimeValue := e.lifetimeValue + (if s.status == Completed then s.totalCost else 0),
                       history := e.history + [ServiceEventOf(s)])))
  }

  /** One service step: an unresolved phone changes nothing; otherwise the
      entry for that phone (created with the service name if new, else kept
      with its name) gains exactly one SERVICE event, and its lifetime value
      grows by the total cost only for a COMPLETED record. Other entries are
      untouched. */
  lemma ServiceStepSpec(d: Customers, s: ServiceInput)
    requires d.Valid()
    ensures var r := ServiceStep(d, s);
            var phone := ServicePhone(s.rec, s.vehicle);
            && (phone.None? || phone.value == "" ==> r == Ok(d))
            && (r.Ok? ==> r.value.Valid() && forall k :: k in d.vals ==> k in r.value.vals)
            && (r.Ok? && phone.Some? && phone.value != "" ==>
                  var p := phone.value;
                  var e := r.value.vals[p];
                  && r.value.vals.Keys == d.vals.Keys + {p}
                  && (forall k :: k in d.vals && k != p ==> r.value.vals[k] == d.vals[k])
                  && (p in d.vals ==> e.name == d.vals[p].name && e.history == d.vals[p].history + [ServiceEventOf(s)]
                                      && e.lifetimeValue == d.vals[p].lifetimeValue + (if s.status == Completed then s.totalCost else 0))
                  && (p !in d.vals ==> e == CustomerEntry(ServiceName(s.rec, s.vehicle).value, p,
                                                          if s.status == Completed then s.totalCost else 0,
                                                          [ServiceEventOf(s)])))
            && (r.Err? ==> phone.Some? && phone.value !in d.vals && ServiceName(s.rec, s.vehicle).Err?)
  {
    var phone := ServicePhone(s.rec, s.vehicle);
    if phone.Some? && phone.value != "" {
      var p := phone.value;
      var e2 := ServiceStepFiles(d, s);
      if p in d.vals || ServiceName(s.rec, s.vehicle).Ok? {
        PutEntry(d, p, e2);
      }
    }
  }

  /** The entry a resolved phone's step files: the stored one or a new one
      under the service name, with the event appended and, for a COMPLETED
      record, the cost added. */
  lemma ServiceStepFiles(d: Customers, s: ServiceInput) returns (e2: CustomerEntry)
    requires ServicePhone(s.rec, s.vehicle).Some? && ServicePhone(s.rec, s.vehicle).value != ""
    ensures var p := ServicePhone(s.rec, s.vehicle).value;
            var add := if s.status == Completed then s.totalCost else 0;
            && (p in d.vals ==> e2 == d.vals[p].(lifetimeValue := d.vals[p].lifetimeValue + add,
                                                 history := d.vals[p].history + [ServiceEventOf(s)])
                                && ServiceStep(d, s) == Ok(d.Put(p, e2)))
            && (p !in d.vals && ServiceName(s.rec, s.vehicle).Ok? ==>
                  e2 == CustomerEntry(ServiceName(s.rec, s.vehicle).value, p, add, [ServiceEventOf(s)])
                  && ServiceStep(d, s) == Ok(d.Put(p, e2)))
            && (p !in d.vals && ServiceName(s.rec, s.vehicle).Err? ==>
                  ServiceStep(d, s) == Err(ServiceName(s.rec, s.vehicle).error))
  {
    var p := ServicePhone(s.rec, s.vehicle).value;
    var add := if s.status == Completed then s.totalCost else 0;
    var name := ServiceName(s.rec, s.vehicle);
    if p in d.vals {
      var e := d.vals[p];
      e2 := e.(lifetimeValue := e.lifetimeValue + add, history := e.history + [ServiceEventOf(s)]);
    } else if name.Ok? {
      e2 := CustomerEntry(name.value, p, add, [ServiceEventOf(s)]);
      assert [] + [ServiceEventOf(s)] == [ServiceEventOf(s)];
    } else {
      e2 := CustomerEntry("", p, 0, []);
    }
  }

  /** Filing an entry under a phone adds that key, if new, and leaves every
      other entry as it was. */
  lemma PutEntry(d: Customers, p: string, e: CustomerEntry)
    requires d.Valid()
    ensures var r := d.Put(p, e);
            && r.Valid() && r.vals.Keys == d.vals.Keys + {p} && r.vals[p] == e
            && forall k :: k in d.vals && k != p ==> r.vals[k] == d.vals[k]
  {
  }

  function ServicesPhase(d: Customers, services: seq<ServiceInput>): Result<Customers, string>
  {
    if services == [] then Ok(d)
    else
      var r := ServicesPhase(d, services[..|services| - 1]);
      if r.Err? then r else ServiceStep(r.value, services[|services| - 1])
  }

  /** The services loop never renames a customer and never drops one. */
  lemma {:induction false} ServicesKeepNames(d: Customers, services: seq<ServiceInput>)
    requires d.Valid()
    ensures var r := ServicesPhase(d, services);
            r.Ok? ==> r.value.Valid() && forall k :: k in d.vals ==> k in r.value.vals && r.value.vals[k].name == d.vals[k].name
  {
    if services != [] {
      var init := services[..|services| - 1];
      ServicesKeepNames(d, init);
      var r := ServicesPhase(d, init);
      if r.Ok? {
        ServiceStepSpec(r.value, services[|services| - 1]);
      }
    }
  }

  /** For the app's own models the service phone is the owner's `phone` and
      a new entry is named after the owner. */
  lemma ServiceInputForStoredRecord(r: ServiceRecord, svs: seq<ServiceVehicle>, customers: seq<Customer>,
                                    sv: ServiceVehicle, c: Customer)
    requires FindVehicle(svs, r.vehicle) == Some(sv) && FindCustomer(customers, sv.owner) == Some(c)
    ensures var s := InputOf(r, svs, customers);
            && ServicePhone(s.rec, s.vehicle) == (if c.phone == "" then None else Some(c.phone))
            && ServiceName(s.rec, s.vehicle) == Ok(c.name)
  {
    var o := CustomerAttrs(c);
    if c.phone != "" {
      assert HasTruthy(o, ServiceViews.OwnerPhoneFields[0]);
    } else {
      assert forall i :: 0 <= i < |ServiceViews.OwnerPhoneFields| ==> !HasTruthy(o, ServiceViews.OwnerPhoneFields[i]);
    }
  }

  // ---------------------------------------------------------------------------
  // The whole view
  // ---------------------------------------------------------------------------

  function NewestFirst(e: Event): int { -e.date }

  function SortHistory(c: CustomerEntry): CustomerEntry
  {
    c.(history := SortByKey(c.history, NewestFirst))
  }

  function SortAll(cs: seq<CustomerEntry>): (r: seq<CustomerEntry>)
    ensures |r| == |cs| && forall i :: 0 <= i < |cs| ==> r[i] == SortHistory(cs[i])
  {
    seq(|cs|, i requires 0 <= i < |cs| => SortHistory(cs[i]))
  }

  function ServiceInputs(records: seq<ServiceRecord>, svs: seq<ServiceVehicle>, customers: seq<Customer>): (r: seq<ServiceInput>)
    ensures |r| == |records| && forall i :: 0 <= i < |records| ==> r[i] == InputOf(records[i], svs, customers)
  {
    seq(|records|, i requires 0 <= i < |records| => InputOf(records[i], svs, customers))
  }

  function Customer360Spec(leads: seq<Lead>, vs: seq<Inv.Vehicle>, records: seq<ServiceRecord>,
                           svs: seq<ServiceVehicle>, customers: seq<Customer>): Result<seq<CustomerEntry>, string>
  {
    var d := LeadsPhase(leads, vs);
    LeadsPhaseKeys(leads, vs);
    var r := ServicesPhase(d, ServiceInputs(records, svs, customers));
    ServicesKeepNames(d, ServiceInputs(records, svs, customers));
    if r.Err? then Err(r.error) else Ok(SortAll(r.value.Values()))
  }

  /** Every customer's history is newest first and is a reordering of the
      events collected for that customer. */
  lemma HistoriesNewestFirst(cs: seq<CustomerEntry>)
    ensures forall k :: 0 <= k < |cs| ==>
              multiset(SortAll(cs)[k].history) == multiset(cs[k].history)
              && forall i, j :: 0 <= i < j < |cs[k].history| ==> SortAll(cs)[k].history[i].date >= SortAll(cs)[k].history[j].date
  {
    forall k | 0 <= k < |cs| ensures SortedBy(SortAll(cs)[k].history, NewestFirst) {
      SortByKeySorted(cs[k].history, NewestFirst);
    }
  }

  /** The body of the leads loop: append the interest event, then patch it
      (`history[-1]`) when the lead is SOLD with a vehicle. */
  method AddLead(d: Customers, l: Lead, vs: seq<Inv.Vehicle>) returns (d': Customers)
    ensures d' == LeadStep(d, l, vs)
  {
    if l.phone == "" {
      return d;
    }
    var base := if l.phone in d.vals then d.vals[l.phone] else CustomerEntry(LeadName(l), l.phone, 0, []);
    var entry := base.(history := base.history + [InterestEvent(l, vs)]);
    var v := SalesViews.LinkedVehicle(vs, l);
    if l.status == Sold && v.Some? {
      var last := entry.history[|entry.history| - 1];
      entry := entry.(lifetimeValue := entry.lifetimeValue + v.value.sellingPrice,
                      history := entry.history[|entry.history| - 1 :=
                        last.(amount := v.value.sellingPrice,
                              description := "Purchased " + Inv.YearText(v.value.year) + " " + v.value.model)]);
      assert entry.history == base.history + [LeadEvent(l, vs)];
    }
    assert entry == base.(lifetimeValue := base.lifetimeValue + SoldPrice(l, vs),
                          history := base.history + [LeadEvent(l, vs)]);
    d' := d.Put(l.phone, entry);
  }

  /** The leads loop. */
  method CollectLeads(leads: seq<Lead>, vs: seq<Inv.Vehicle>) returns (d: Customers)
    ensures d == LeadsPhase(leads, vs)
  {
    d := EmptyDict();
    var i := 0;
    while i < |leads|
      invariant 0 <= i <= |leads|
      invariant d == LeadsPhase(leads[..i], vs)
    {
      assert leads[..i + 1][..i] == leads[..i];
      d := AddLead(d, leads[i], vs);
      i := i + 1;
    }
    assert leads[..i] == leads;
  }

  /** The services loop; a raising name lookup ends the view. */
  method CollectServices(start: Customers, inputs: seq<ServiceInput>) returns (r: Result<Customers, string>)
    requires start.Valid()
    ensures r == ServicesPhase(start, inputs)
  {
    var d := start;
    var j := 0;
    while j < |inputs|
      invariant 0 <= j <= |inputs|
      invariant ServicesPhase(start, inputs[..j]) == Ok(d)
      invariant d.Valid()
    {
      assert inputs[..j + 1][..j] == inputs[..j];
      ServiceStepSpec(d, inputs[j]);
      var step := ServiceStep(d, inputs[j]);
      if step.Err? {
        ServicesStopAtError(start, inputs, j + 1);
        return Err(step.error);
      }
      d := step.value;
      j := j + 1;
    }
    assert inputs[..j] == inputs;
    r := Ok(d);
  }

  /** `for c in customer_list: c['history'].sort(...)`. */
  method SortHistories(list: seq<CustomerEntry>) returns (out: seq<CustomerEntry>)
    ensures out == SortAll(list)
  {
    out := list;
    var k := 0;
    while k < |out|
      invariant 0 <= k <= |out| == |list|
      invariant forall m :: 0 <= m < k ==> out[m] == SortHistory(list[m])
      invariant forall m :: k <= m < |out| ==> out[m] == list[m]
    {
      out := out[k := SortHistory(out[k])];
      k := k + 1;
    }
  }

  /** `Customer360View.get` over the three tables. */
  method Customer360(leads: seq<Lead>, vs: seq<Inv.Vehicle>, records: seq<ServiceRecord>,
                     svs: seq<ServiceVehicle>, customers: seq<Customer>) returns (r: Result<seq<CustomerEntry>, string>)
    ensures r == Customer360Spec(leads, vs, records, svs, customers)
  {
    var d := CollectLeads(leads, vs);
    LeadsPhaseKeys(leads, vs);
    var inputs := ServiceInputs(records, svs, customers);
    var all := CollectServices(d, inputs);
    if all.Err? {
      return Err(all.error);
    }
    ServicesKeepNames(d, inputs);
    var list := SortHistories(all.value.Values());
    r := Ok(list);
  }

  lemma {:induction false} ServicesStopAtError(d: Customers, services: seq<ServiceInput>, k: int)
    requires 0 <= k <= |services| && ServicesPhase(d, services[..k]).Err?
    ensures ServicesPhase(d, services) == ServicesPhase(d, services[..k])
    decreases |services| - k
  {
    if k < |services| {
      assert services[..k + 1][..k] == services[..k];
      ServicesStopAtError(d, services, k + 1);
    } else {
      assert services[..k] == services;
    }
  }
}
