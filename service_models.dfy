/** The service app's tables: customers, their vehicles (plates unique),
    service records with billing fields, and appointments; the status
    domains with their defaults; and the attributes a loaded instance
    exposes to duck-typed lookups (`hasattr` / `getattr`). */
module ServiceModels {
  import opened Common

  datatype RecordStatus = Pending | InProgress | Completed

  const DefaultRecordStatus: RecordStatus := Pending

  function RecordStatusCode(s: RecordStatus): string
  {
    match s
    case Pending => "PENDING"
    case InProgress => "IN_PROGRESS"
    case Completed => "COMPLETED"
  }

  function ParseRecordStatus(code: string): (r: Option<RecordStatus>)
    ensures r.Some? ==> RecordStatusCode(r.value) == code
    ensures r.None? ==> forall s: RecordStatus :: RecordStatusCode(s) != code
  {
    if code == "PENDING" then Some(Pending)
    else if code == "IN_PROGRESS" then Some(InProgress)
    else if code == "COMPLETED" then Some(Completed)
    else None
  }

  lemma ParseRecordStatusRoundTrip(s: RecordStatus)
    ensures ParseRecordStatus(RecordStatusCode(s)) == Some(s)
  {
  }

  datatype AppointmentStatus = Scheduled | Done | Cancelled

  const DefaultAppointmentStatus: AppointmentStatus := Scheduled

  function AppointmentStatusCode(s: AppointmentStatus): string
  {
    match s
    case Scheduled => "SCHEDULED"
    case Done => "COMPLETED"
    case Cancelled => "CANCELLED"
  }

  function ParseAppointmentStatus(code: string): (r: Option<AppointmentStatus>)
    ensures r.Some? ==> AppointmentStatusCode(r.value) == code
    ensures r.None? ==> forall s: AppointmentStatus :: AppointmentStatusCode(s) != code
  {
    if code == "SCHEDULED" then Some(Scheduled)
    else if code == "COMPLETED" then Some(Done)
    else if code == "CANCELLED" then Some(Cancelled)
    else None
  }

  lemma ParseAppointmentStatusRoundTrip(s: AppointmentStatus)
    ensures ParseAppointmentStatus(AppointmentStatusCode(s)) == Some(s)
  {
  }

  /** Money is in cents; `email` is "" when null. */
  datatype Customer = Customer(id: int, name: string, phone: string, email: string, createdAt: int)

  datatype ServiceVehicle = ServiceVehicle(
    id: int, owner: int, licensePlate: string, make: string, model: string, year: Option<int>)

  datatype ServiceRecord = ServiceRecord(
    id: int, vehicle: int, description: string, date: int, status: RecordStatus,
    partsCost: int, laborCost: int)

  datatype ServiceAppointment = ServiceAppointment(
    id: int, customer: int, vehicle: Option<int>, title: string, startTime: int, endTime: int,
    status: AppointmentStatus)

  /** The `total_cost` property. */
  function TotalCost(r: ServiceRecord): int
  {
    r.partsCost + r.laborCost
  }

  /** A record as created from a vehicle and a description only. */
  function NewRecord(id: int, vehicle: int, description: string, now: int): (r: ServiceRecord)
    ensures r.status == DefaultRecordStatus && r.partsCost == 0 && r.laborCost == 0
    ensures TotalCost(r) == 0
    ensures r.vehicle == vehicle && r.description == description && r.date == now
  {
    ServiceRecord(id, vehicle, description, now, DefaultRecordStatus, 0, 0)
  }

  /** An appointment as created without an explicit status. */
  function NewAppointment(id: int, customer: int, vehicle: Option<int>, title: string, startTime: int, endTime: int): (a: ServiceAppointment)
    ensures a.status == DefaultAppointmentStatus
    ensures a.customer == customer && a.title == title && a.startTime == startTime && a.endTime == endTime
  {
    ServiceAppointment(id, customer, vehicle, title, startTime, endTime, DefaultAppointmentStatus)
  }

  // ---------------------------------------------------------------------------
  // Plates are unique across service vehicles
  // ---------------------------------------------------------------------------

  /** The column rules of one service vehicle: a plate of 1 to 20
      characters, and a make and a model of 1 to 50 characters each. */
  predicate FitsServiceColumns(v: ServiceVehicle)
  {
    0 < |v.licensePlate| <= 20 && 0 < |v.make| <= 50 && 0 < |v.model| <= 50
  }

  predicate ValidVehicles(vs: seq<ServiceVehicle>)
  {
    (forall i :: 0 <= i < |vs| ==> FitsServiceColumns(vs[i]))
    && forall i, j :: 0 <= i < j < |vs| ==> vs[i].id != vs[j].id && vs[i].licensePlate != vs[j].licensePlate
  }

  predicate PlateTaken(vs: seq<ServiceVehicle>, plate: string)
  {
    exists i :: 0 <= i < |vs| && vs[i].licensePlate == plate
  }

  function ServiceVehicleId(v: ServiceVehicle): int { v.id }

  /** Field names whose validation rejects `v` as a new service vehicle:
      an unknown owner, a blank, over-long or registered plate, a blank or
      over-long make or model. */
  function RegisterErrors(customers: seq<Customer>, vs: seq<ServiceVehicle>, v: ServiceVehicle): (r: set<string>)
    ensures r == {} <==> FindCustomer(customers, v.owner).Some? && FitsServiceColumns(v) && !PlateTaken(vs, v.licensePlate)
    ensures r <= {"owner", "license_plate", "make", "model"}
  {
    (if FindCustomer(customers, v.owner).None? then {"owner"} else {})
    + (if v.licensePlate == "" || |v.licensePlate| > 20 || PlateTaken(vs, v.licensePlate) then {"license_plate"} else {})
    + (if v.make == "" || |v.make| > 50 then {"make"} else {})
    + (if v.model == "" || |v.model| > 50 then {"model"} else {})
  }

  /** Creating a service vehicle: rejected with the failing fields when the
      owner is unknown or a column rule or the plate's uniqueness fails,
      otherwise appended under a fresh key. */
  function RegisterVehicle(customers: seq<Customer>, vs: seq<ServiceVehicle>, v: ServiceVehicle): (r: Result<seq<ServiceVehicle>, set<string>>)
    ensures r.Err? <==> FindCustomer(customers, v.owner).None? || !FitsServiceColumns(v) || PlateTaken(vs, v.licensePlate)
    ensures r.Err? ==> r.error != {} && ("license_plate" in r.error <==> !(0 < |v.licensePlate| <= 20) || PlateTaken(vs, v.licensePlate))
    ensures r.Ok? ==> |r.value| == |vs| + 1 && r.value[..|vs|] == vs
    ensures r.Ok? ==> r.value[|vs|] == v.(id := r.value[|vs|].id)
    ensures r.Ok? ==> forall i :: 0 <= i < |vs| ==> vs[i].id != r.value[|vs|].id
    ensures r.Ok? && ValidVehicles(vs) ==> ValidVehicles(r.value)
  {
    var errors := RegisterErrors(customers, vs, v);
    if errors != {} then Err(errors)
    else Ok(vs + [v.(id := NextId(vs, ServiceVehicleId))])
  }

  /** `ServiceVehicle.objects.get(license_plate=plate)`. */
  function FindByPlate(vs: seq<ServiceVehicle>, plate: string): (r: Option<ServiceVehicle>)
    ensures r.Some? <==> PlateTaken(vs, plate)
    ensures r.Some? ==> r.value in vs && r.value.licensePlate == plate
  {
    if vs == [] then None
    else if vs[0].licensePlate == plate then Some(vs[0])
    else
      var r := FindByPlate(vs[1..], plate);
      assert PlateTaken(vs, plate) ==> vs[0].licensePlate == plate || PlateTaken(vs[1..], plate) by {
        if PlateTaken(vs, plate) {
          var k :| 0 <= k < |vs| && vs[k].licensePlate == plate;
          if k > 0 { assert vs[1..][k - 1].licensePlate == plate; }
        }
      }
      assert PlateTaken(vs[1..], plate) ==> PlateTaken(vs, plate) by {
        if PlateTaken(vs[1..], plate) {
          var k :| 0 <= k < |vs[1..]| && vs[1..][k].licensePlate == plate;
          assert vs[k + 1].licensePlate == plate;
        }
      }
      r
  }

  /** With unique plates the lookup finds the one vehicle registered under it. */
  lemma FindByPlateUnique(vs: seq<ServiceVehicle>, i: int)
    requires ValidVehicles(vs) && 0 <= i < |vs|
    ensures FindByPlate(vs, vs[i].licensePlate) == Some(vs[i])
  {
    var r := FindByPlate(vs, vs[i].licensePlate);
    var j :| 0 <= j < |vs| && vs[j] == r.value;
    assert i == j;
  }

  /** A lookup by primary key (`get(pk=id)`, or following a foreign key):
      the first row whose key is `id`, or nothing when no row has it. */
  function FindById<T>(rows: seq<T>, key: T -> int, id: int): (r: Option<T>)
    ensures r.Some? ==> r.value in rows && key(r.value) == id
    ensures r.None? ==> forall i :: 0 <= i < |rows| ==> key(rows[i]) != id
  {
    if rows == [] then None
    else if key(rows[0]) == id then Some(rows[0])
    else FindById(rows[1..], key, id)
  }

  function CustomerKey(c: Customer): int { c.id }
  function VehicleKey(v: ServiceVehicle): int { v.id }

  /** A vehicle's `owner`. */
  function FindCustomer(cs: seq<Customer>, id: int): Option<Customer>
  {
    FindById(cs, CustomerKey, id)
  }

  /** A record's `vehicle`. */
  function FindVehicle(vs: seq<ServiceVehicle>, id: int): Option<ServiceVehicle>
  {
    FindById(vs, VehicleKey, id)
  }

  // ---------------------------------------------------------------------------
  // Attributes seen by duck-typed code
  // ---------------------------------------------------------------------------

  /** The text-valued attributes an instance answers to: a key is present
      iff `hasattr` holds; a falsy value (None or "") is "". */
  type Attrs = map<string, string>

  /** `hasattr(o, f) and getattr(o, f)`. */
  predicate HasTruthy(o: Attrs, f: string)
  {
    f in o && o[f] != ""
  }

  /** A loaded `ServiceRecord`: the serializer's `customer_phone` and
      `customer_name` are not attributes of the model instance. */
  function RecordAttrs(r: ServiceRecord): (a: Attrs)
    ensures "customer_phone" !in a && "phone" !in a && "mobile" !in a && "customer_name" !in a
  {
    map["description" := r.description, "status" := RecordStatusCode(r.status)]
  }

  /** A loaded `Customer`: `name`, `phone` and `email` only. */
  function CustomerAttrs(c: Customer): (a: Attrs)
    ensures "phone" in a && a["phone"] == c.phone
    ensures "phone_number" !in a && "mobile" !in a && "contact_number" !in a && "first_name" !in a
  {
    map["name" := c.name, "phone" := c.phone, "email" := c.email]
  }

  /** `str(customer)`. */
  function CustomerText(c: Customer): string
  {
    c.name
  }
}
