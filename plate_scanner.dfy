/** The service-lane desk (`LicensePlateScanner`): today's job queue, the
    plate scan and manual plate search that either open an existing vehicle
    or start a new-customer registration, job creation, and billing. */
module PlateScanner {
  import opened Common
  import opened UiCommon

  /** A service record as the queue reads it; `date` is a timestamp and the
      costs are what `Number(...)` makes of the stored decimals (`None` for
      NaN). */
  datatype Job = Job(id: int, date: int, description: string, status: string,
                     partsCost: Option<int>, laborCost: Option<int>)

  datatype Vehicle = Vehicle(id: int, plate: string, make: string, model: string, year: int, owner: int)

  /** The new-customer form; the page has no input for `year`. */
  datatype NewCustomer = NewCustomer(name: string, phone: string, make: string, model: string, year: string)

  datatype Costs = Costs(parts: int, labor: int)

  /** The HTTP writes the desk issues, in order. */
  datatype Request =
    | PatchStatus(id: int, status: string)
    | PostCustomer(name: string, phone: string)
    | PostVehicle(plate: string, make: string, model: string, year: string, owner: int)
    | PostJob(vehicle: int, description: string, status: string)
    | PatchBilling(id: int, parts: int, labor: int, status: string)

  /** Which of the three right-hand panels is on screen. */
  datatype Panel = VehiclePanel | RegisterPanel | IdlePanel

  function JobId(j: Job): int { j.id }
  function JobDate(j: Job): int { j.date }

  /** `fetchActiveJobs`: the jobs whose date falls on today's calendar day,
      newest first.  `dayOf` is the local calendar day of a timestamp. */
  function TodaysJobs(rows: seq<Job>, today: int, dayOf: int -> int): (r: seq<Job>)
    ensures forall j :: j in r <==> j in rows && dayOf(j.date) == today
    ensures forall i, k :: 0 <= i < k < |r| ==> r[i].date >= r[k].date
    ensures multiset(r) == multiset(Filter(rows, (j: Job) => dayOf(j.date) == today))
  {
    var todays := Filter(rows, (j: Job) => dayOf(j.date) == today);
    var r := NewestFirst(todays, JobDate);
    assert forall j :: j in r <==> j in multiset(r);
    assert forall j :: j in todays <==> j in multiset(todays);
    r
  }

  /** `newCustomer.year || 2020`. */
  function PostedYear(year: string): string
  {
    if Truthy(year) then year else "2020"
  }

  /** The total the billing dialog shows. */
  function Total(c: Costs): int { c.parts + c.labor }

  /** `openBilling`'s cost fields: a missing or unparsable cost reads 0. */
  function CostsOf(j: Job): (c: Costs)
    ensures c.parts == (if j.partsCost.Some? then j.partsCost.value else 0)
    ensures c.labor == (if j.laborCost.Some? then j.laborCost.value else 0)
    ensures j.partsCost.None? && j.laborCost.None? ==> Total(c) == 0
  {
    Costs(NumberOrZero(j.partsCost), NumberOrZero(j.laborCost))
  }

  /** The vehicle a manual search opens: the first one whose plate equals
      the typed plate ignoring case. */
  function PlateLookup(vehicles: seq<Vehicle>, typed: string): (r: Option<Vehicle>)
    ensures r.Some? <==> exists i :: 0 <= i < |vehicles| && ToUpper(vehicles[i].plate) == ToUpper(typed)
    ensures r.Some? ==> r.value in vehicles && ToUpper(r.value.plate) == ToUpper(typed)
  {
    FindFirst(vehicles, (v: Vehicle) => ToUpper(v.plate) == ToUpper(typed))
  }

  /** The desk's React state; `sent` logs the HTTP writes. */
  class Desk {
    var selectedImage: Option<string>
    var detectedPlate: string
    var existingVehicle: Option<Vehicle>
    var isNewCustomer: bool
    var manualPlate: string
    var newCustomer: NewCustomer
    var newJob: string
    var activeJobs: seq<Job>
    var billingJob: Option<Job>
    var costs: Costs
    var invoiceToPrint: Option<Job>
    var sent: seq<Request>

    /** The desk never shows the vehicle card and the registration form at
        once, and the registration form's year is never filled in. */
    predicate Valid()
      reads this
    {
      !(existingVehicle.Some? && isNewCustomer) && newCustomer.year == ""
    }

    /** The panel rendered: the vehicle card, the registration form, or the
        idle prompt. */
    function ShownPanel(): Panel
      reads this
    {
      if existingVehicle.Some? then VehiclePanel
      else if isNewCustomer then RegisterPanel
      else IdlePanel
    }

    constructor()
      ensures Valid() && sent == [] && activeJobs == []
      ensures selectedImage == None && detectedPlate == "" && existingVehicle == None && !isNewCustomer
      ensures newCustomer == NewCustomer("", "", "", "", "") && newJob == "" && billingJob == None
      ensures costs == Costs(0, 0) && invoiceToPrint == None && manualPlate == ""
    {
      selectedImage := None;
      detectedPlate := "";
      existingVehicle := None;
      isNewCustomer := false;
      manualPlate := "";
      newCustomer := NewCustomer("", "", "", "", "");
      newJob := "";
      activeJobs := [];
      billingJob := None;
      costs := Costs(0, 0);
      invoiceToPrint := None;
      sent := [];
    }

    /** `fetchActiveJobs` with the records the server returns. */
    method LoadJobs(rows: seq<Job>, today: int, dayOf: int -> int)
      modifies this`activeJobs
      ensures activeJobs == TodaysJobs(rows, today, dayOf)
    {
      activeJobs := TodaysJobs(rows, today, dayOf);
    }

    /** `handleStatusChange`: rewrite the job locally, then patch it. */
    method ChangeStatus(id: int, newStatus: string)
      modifies this`activeJobs, this`sent
      ensures activeJobs == MapWhere(old(activeJobs), JobId, id, (j: Job) => j.(status := newStatus))
      ensures sent == old(sent) + [PatchStatus(id, newStatus)]
      ensures forall i :: 0 <= i < |activeJobs| && old(activeJobs)[i].id == id ==> activeJobs[i].status == newStatus
    {
      activeJobs := MapWhere(activeJobs, JobId, id, (j: Job) => j.(status := newStatus));
      sent := sent + [PatchStatus(id, newStatus)];
    }

    /** `handleImageUpload`: a new picture clears the previous result. */
    method Upload(file: string)
      requires Valid()
      modifies this`selectedImage, this`detectedPlate, this`existingVehicle, this`isNewCustomer
      ensures Valid()
      ensures selectedImage == Some(file) && detectedPlate == "" && existingVehicle == None && !isNewCustomer
      ensures ShownPanel() == IdlePanel
    {
      selectedImage := Some(file);
      detectedPlate := "";
      existingVehicle := None;
      isNewCustomer := false;
    }

    /** `processScanResult`: a known vehicle opens its card; an unknown plate
        opens registration with make and model preset to "Unknown". */
    method ProcessScanResult(plate: string, vehicle: Option<Vehicle>)
      requires Valid()
      modifies this`detectedPlate, this`existingVehicle, this`isNewCustomer, this`newCustomer
      ensures Valid()
      ensures detectedPlate == plate && existingVehicle == vehicle
      ensures isNewCustomer <==> vehicle.None?
      ensures vehicle.Some? ==> newCustomer == old(newCustomer) && ShownPanel() == VehiclePanel
      ensures vehicle.None? ==> newCustomer == old(newCustomer).(make := "Unknown", model := "Unknown")
      ensures vehicle.None? ==> ShownPanel() == RegisterPanel
    {
      detectedPlate := plate;
      if vehicle.Some? {
        existingVehicle := vehicle;
        isNewCustomer := false;
      } else {
        existingVehicle := None;
        isNewCustomer := true;
        newCustomer := newCustomer.(make := "Unknown", model := "Unknown");
      }
    }

    /** `handleScan`; `answer` is the plate the scanner read with the vehicle
        it matched, `None` when the call fails.  Nothing happens without a
        picture. */
    method Scan(answer: Option<(string, Option<Vehicle>)>)
      requires Valid()
      modifies this`detectedPlate, this`existingVehicle, this`isNewCustomer, this`newCustomer
      ensures Valid()
      ensures selectedImage.None? || answer.None? ==>
                detectedPlate == old(detectedPlate) && existingVehicle == old(existingVehicle) &&
                isNewCustomer == old(isNewCustomer) && newCustomer == old(newCustomer)
      ensures selectedImage.Some? && answer.Some? ==>
                detectedPlate == answer.value.0 && existingVehicle == answer.value.1 &&
                (isNewCustomer <==> answer.value.1.None?)
    {
      if selectedImage.None? || answer.None? {
        return;
      }
      ProcessScanResult(answer.value.0, answer.value.1);
    }

    /** `handleManualSearch`; `vehicles` is the vehicle list the server
        returns, `None` when the call fails.  The plate is looked up ignoring
        case and shown in upper case. */
    method ManualSearch(vehicles: Option<seq<Vehicle>>)
      requires Valid()
      modifies this`detectedPlate, this`existingVehicle, this`isNewCustomer, this`newCustomer
      ensures Valid()
      ensures manualPlate == "" || vehicles.None? ==>
                detectedPlate == old(detectedPlate) && existingVehicle == old(existingVehicle) &&
                isNewCustomer == old(isNewCustomer) && newCustomer == old(newCustomer)
      ensures manualPlate != "" && vehicles.Some? ==>
                detectedPlate == ToUpper(manualPlate) &&
                existingVehicle == PlateLookup(vehicles.value, manualPlate) &&
                (isNewCustomer <==> forall i :: 0 <= i < |vehicles.value| ==> ToUpper(vehicles.value[i].plate) != ToUpper(manualPlate))
    {
      if !Truthy(manualPlate) || vehicles.None? {
        return;
      }
      var found := PlateLookup(vehicles.value, manualPlate);
      ProcessScanResult(ToUpper(manualPlate), found);
    }

    /** `handleRegister`: post the customer, then the vehicle under the new
        customer's id; the answers are `None` when a call fails.  A
        registered vehicle replaces the form with its card. */
    method Register(customerId: Option<int>, created: Option<Vehicle>)
      requires Valid()
      modifies this`existingVehicle, this`isNewCustomer, this`sent
      ensures Valid()
      ensures customerId.None? ==> sent == old(sent) + [PostCustomer(newCustomer.name, newCustomer.phone)]
      ensures customerId.Some? ==> sent == old(sent) + [PostCustomer(newCustomer.name, newCustomer.phone),
                PostVehicle(detectedPlate, newCustomer.make, newCustomer.model, "2020", customerId.value)]
      ensures customerId.Some? && created.Some? ==> existingVehicle == created && !isNewCustomer && ShownPanel() == VehiclePanel
      ensures customerId.None? || created.None? ==> existingVehicle == old(existingVehicle) && isNewCustomer == old(isNewCustomer)
    {
      sent := sent + [PostCustomer(newCustomer.name, newCustomer.phone)];
      if customerId.None? {
        return;
      }
      sent := sent + [PostVehicle(detectedPlate, newCustomer.make, newCustomer.model, PostedYear(newCustomer.year), customerId.value)];
      if created.None? {
        return;
      }
      existingVehicle := created;
      isNewCustomer := false;
    }

    /** `handleCreateJob`: needs an open vehicle and a description; the job
        is posted as PENDING, and once it is saved the description is
        cleared and the queue refetched.  `reload` is the server's records
        for that refetch, `None` when it fails and the queue stays. */
    method CreateJob(ok: bool, reload: Option<seq<Job>>, today: int, dayOf: int -> int)
      modifies this`newJob, this`sent, this`activeJobs
      ensures existingVehicle.None? || old(newJob) == "" ==>
                newJob == old(newJob) && sent == old(sent) && activeJobs == old(activeJobs)
      ensures existingVehicle.Some? && old(newJob) != "" ==>
                sent == old(sent) + [PostJob(existingVehicle.value.id, old(newJob), "PENDING")] &&
                newJob == (if ok then "" else old(newJob))
      ensures existingVehicle.Some? && old(newJob) != "" && ok && reload.Some? ==>
                activeJobs == TodaysJobs(reload.value, today, dayOf)
      ensures existingVehicle.None? || old(newJob) == "" || !ok || reload.None? ==> activeJobs == old(activeJobs)
    {
      if existingVehicle.None? || !Truthy(newJob) {
        return;
      }
      sent := sent + [PostJob(existingVehicle.value.id, newJob, "PENDING")];
      if ok {
        newJob := "";
        if reload.Some? {
          LoadJobs(reload.value, today, dayOf);
        }
      }
    }

    /** `openBilling`. */
    method OpenBilling(job: Job)
      modifies this`billingJob, this`costs
      ensures billingJob == Some(job) && costs == CostsOf(job)
    {
      billingJob := Some(job);
      costs := CostsOf(job);
    }

    /** `saveBillingAndPrint`: patch the costs and mark the job COMPLETED;
        the saved job goes to the invoice printer and the queue is
        refetched.  `answer` is the server's copy of the job, `None` when the
        call fails; `reload` is the server's records for the refetch, `None`
        when it fails and the queue stays. */
    method SaveBilling(answer: Option<Job>, reload: Option<seq<Job>>, today: int, dayOf: int -> int)
      modifies this`billingJob, this`invoiceToPrint, this`sent, this`activeJobs
      ensures old(billingJob).None? ==>
                sent == old(sent) && billingJob == None && invoiceToPrint == old(invoiceToPrint) && activeJobs == old(activeJobs)
      ensures old(billingJob).Some? ==>
                sent == old(sent) + [PatchBilling(old(billingJob).value.id, costs.parts, costs.labor, "COMPLETED")]
      ensures old(billingJob).Some? && answer.Some? ==> billingJob == None && invoiceToPrint == answer
      ensures old(billingJob).Some? && answer.None? ==> billingJob == old(billingJob) && invoiceToPrint == old(invoiceToPrint)
      ensures old(billingJob).Some? && answer.Some? && reload.Some? ==> activeJobs == TodaysJobs(reload.value, today, dayOf)
      ensures old(billingJob).None? || answer.None? || reload.None? ==> activeJobs == old(activeJobs)
    {
      if billingJob.None? {
        return;
      }
      sent := sent + [PatchBilling(billingJob.value.id, costs.parts, costs.labor, "COMPLETED")];
      if answer.Some? {
        billingJob := None;
        if reload.Some? {
          LoadJobs(reload.value, today, dayOf);
        }
        invoiceToPrint := answer;
      }
    }
  }
}
