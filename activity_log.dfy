/** The activity log page (`ActivityLog`): leads, service jobs and
    appointments turned into one feed, newest first, with a type filter and
    a text search. */
module ActivityLog {
  import opened Common
  import opened UiCommon

  datatype Kind = LeadKind | ServiceKind | AppointmentKind

  function TypeName(k: Kind): string
  {
    match k
    case LeadKind => "LEAD"
    case ServiceKind => "SERVICE"
    case AppointmentKind => "APPOINTMENT"
  }

  /** A feed entry; `date` is the timestamp of the source row's date. */
  datatype Item = Item(id: string, kind: Kind, title: string, subtitle: string, date: int, status: string)

  datatype LeadRow = LeadRow(id: int, firstName: string, lastName: string, model: Option<string>, createdAt: int, status: string)
  datatype ServiceRow = ServiceRow(id: int, description: string, plate: Option<string>, date: int, status: string)
  datatype AppointmentRow = AppointmentRow(id: int, title: string, customer: int, start: int, status: string)

  /** `x || fallback` for an optional text. */
  function OrElse(x: Option<string>, fallback: string): (r: string)
    ensures r == fallback || (x.Some? && r == x.value)
    ensures x.Some? && x.value != "" ==> r == x.value
  {
    if x.Some? && Truthy(x.value) then x.value else fallback
  }

  function FromLead(l: LeadRow): Item
  {
    Item("lead-" + IntToString(l.id), LeadKind, "New Lead: " + l.firstName + " " + l.lastName,
         "Vehicle Interest: " + OrElse(l.model, "Unknown"), l.createdAt, l.status)
  }

  function FromService(s: ServiceRow): Item
  {
    Item("svc-" + IntToString(s.id), ServiceKind, "Service Job: " + s.description,
         "Plate: " + OrElse(s.plate, "N/A"), s.date, s.status)
  }

  function FromAppointment(a: AppointmentRow): Item
  {
    Item("appt-" + IntToString(a.id), AppointmentKind, "Appointment: " + a.title,
         "Scheduled for Customer #" + IntToString(a.customer), a.start, a.status)
  }

  /** The id prefix each kind of entry carries. */
  function Prefix(k: Kind): string
  {
    match k
    case LeadKind => "lead-"
    case ServiceKind => "svc-"
    case AppointmentKind => "appt-"
  }

  function ItemDate(it: Item): int { it.date }

  /** The three `map`s, concatenated in the order leads, services,
      appointments. */
  function Unsorted(leads: seq<LeadRow>, services: seq<ServiceRow>, appts: seq<AppointmentRow>): (r: seq<Item>)
    ensures |r| == |leads| + |services| + |appts|
    ensures forall i :: 0 <= i < |leads| ==> r[i] == FromLead(leads[i])
    ensures forall i :: 0 <= i < |services| ==> r[|leads| + i] == FromService(services[i])
    ensures forall i :: 0 <= i < |appts| ==> r[|leads| + |services| + i] == FromAppointment(appts[i])
  {
    seq(|leads|, i requires 0 <= i < |leads| => FromLead(leads[i]))
    + seq(|services|, i requires 0 <= i < |services| => FromService(services[i]))
    + seq(|appts|, i requires 0 <= i < |appts| => FromAppointment(appts[i]))
  }

  /** `fetchAllActivity`'s feed: every source row becomes exactly one entry
      (a permutation of the mapped rows), newest first. */
  function Feed(leads: seq<LeadRow>, services: seq<ServiceRow>, appts: seq<AppointmentRow>): (r: seq<Item>)
    ensures |r| == |leads| + |services| + |appts|
    ensures multiset(r) == multiset(Unsorted(leads, services, appts))
    ensures forall i, j :: 0 <= i < j < |r| ==> r[i].date >= r[j].date
  {
    NewestFirst(Unsorted(leads, services, appts), ItemDate)
  }

  lemma InFeed(leads: seq<LeadRow>, services: seq<ServiceRow>, appts: seq<AppointmentRow>, it: Item)
    ensures it in Feed(leads, services, appts) <==> it in Unsorted(leads, services, appts)
  {
    var u := Unsorted(leads, services, appts);
    var r := Feed(leads, services, appts);
    assert it in r <==> it in multiset(r);
    assert it in u <==> it in multiset(u);
  }

  /** Every lead, service job and appointment is in the feed. */
  lemma FeedHasEveryRow(leads: seq<LeadRow>, services: seq<ServiceRow>, appts: seq<AppointmentRow>)
    ensures forall l :: l in leads ==> FromLead(l) in Feed(leads, services, appts)
    ensures forall s :: s in services ==> FromService(s) in Feed(leads, services, appts)
    ensures forall a :: a in appts ==> FromAppointment(a) in Feed(leads, services, appts)
  {
    var u := Unsorted(leads, services, appts);
    forall l | l in leads ensures FromLead(l) in Feed(leads, services, appts) {
      var i :| 0 <= i < |leads| && leads[i] == l;
      assert u[i] == FromLead(l);
      InFeed(leads, services, appts, FromLead(l));
    }
    forall s | s in services ensures FromService(s) in Feed(leads, services, appts) {
      var i :| 0 <= i < |services| && services[i] == s;
      assert u[|leads| + i] == FromService(s);
      InFeed(leads, services, appts, FromService(s));
    }
    forall a | a in appts ensures FromAppointment(a) in Feed(leads, services, appts) {
      var i :| 0 <= i < |appts| && appts[i] == a;
      assert u[|leads| + |services| + i] == FromAppointment(a);
      InFeed(leads, services, appts, FromAppointment(a));
    }
  }

  /** The entry a source row of one kind becomes. */
  predicate FromRowOf(leads: seq<LeadRow>, services: seq<ServiceRow>, appts: seq<AppointmentRow>, it: Item)
  {
    match it.kind
    case LeadKind => exists l :: l in leads && it == FromLead(l)
    case ServiceKind => exists s :: s in services && it == FromService(s)
    case AppointmentKind => exists a :: a in appts && it == FromAppointment(a)
  }

  /** Every entry comes from a source row of its own kind and carries that
      kind's id prefix: nothing is invented and nothing is relabelled. */
  lemma FeedOnlyHasRows(leads: seq<LeadRow>, services: seq<ServiceRow>, appts: seq<AppointmentRow>)
    ensures forall it :: it in Feed(leads, services, appts) ==> FromRowOf(leads, services, appts, it)
    ensures forall it :: it in Feed(leads, services, appts) ==> StartsWith(it.id, Prefix(it.kind))
  {
    var u := Unsorted(leads, services, appts);
    forall it | it in Feed(leads, services, appts)
      ensures FromRowOf(leads, services, appts, it) && StartsWith(it.id, Prefix(it.kind))
    {
      InFeed(leads, services, appts, it);
      var k :| 0 <= k < |u| && u[k] == it;
      if k < |leads| {
        assert it == FromLead(leads[k]);
      } else if k < |leads| + |services| {
        assert it == FromService(services[k - |leads|]);
      } else {
        assert it == FromAppointment(appts[k - |leads| - |services|]);
      }
    }
  }

  /** The type filter: ALL, or any value that is not one of the three type
      names, accepts every entry; a type name accepts that type only. */
  predicate TypeMatches(filter: string, it: Item)
  {
    if filter == "ALL" then true
    else if filter == "LEAD" then it.kind == LeadKind
    else if filter == "SERVICE" then it.kind == ServiceKind
    else if filter == "APPOINTMENT" then it.kind == AppointmentKind
    else true
  }

  /** The search looks at the title, the subtitle and the status. */
  predicate SearchMatches(search: string, it: Item)
  {
    Matches(it.title, search) || Matches(it.subtitle, search) || Matches(it.status, search)
  }

  /** `filteredActivities`. */
  function Filtered(items: seq<Item>, filter: string, search: string): (r: seq<Item>)
    ensures forall it :: it in r <==> it in items && TypeMatches(filter, it) && SearchMatches(search, it)
    ensures forall it :: it in r && filter in ["LEAD", "SERVICE", "APPOINTMENT"] ==> TypeName(it.kind) == filter
  {
    Filter(items, (it: Item) => TypeMatches(filter, it) && SearchMatches(search, it))
  }

  /** The filtered feed keeps the feed's order, so it is still newest
      first; with ALL and no search it is the whole feed; an unknown filter
      acts as ALL. */
  lemma FilteredSpec(items: seq<Item>, filter: string, search: string)
    requires forall i, j :: 0 <= i < j < |items| ==> items[i].date >= items[j].date
    ensures IsSubsequence(Filtered(items, filter, search), items)
    ensures forall i, j :: 0 <= i < j < |Filtered(items, filter, search)| ==>
              Filtered(items, filter, search)[i].date >= Filtered(items, filter, search)[j].date
    ensures filter == "ALL" && search == "" ==> Filtered(items, filter, search) == items
    ensures filter !in ["LEAD", "SERVICE", "APPOINTMENT"] ==> Filtered(items, filter, search) == Filtered(items, "ALL", search)
  {
    var p := (it: Item) => TypeMatches(filter, it) && SearchMatches(search, it);
    FilterIsSubsequence(items, p);
    FilterKeepsPairwise(items, p, (a: Item, b: Item) => a.date >= b.date);
    if filter == "ALL" && search == "" {
      forall i | 0 <= i < |items| ensures p(items[i]) { MatchesEmpty(items[i].title); }
      FilterKeepsAll(items, p);
    }
    if filter !in ["LEAD", "SERVICE", "APPOINTMENT"] {
      FilterSamePredicate(items, p, (it: Item) => TypeMatches("ALL", it) && SearchMatches(search, it));
    }
  }

  lemma {:induction false} FilterSamePredicate<T>(s: seq<T>, p: T -> bool, q: T -> bool)
    requires forall x :: p(x) == q(x)
    ensures Filter(s, p) == Filter(s, q)
  {
    if s != [] {
      FilterSamePredicate(s[1..], p, q);
    }
  }

  /** The page's React state. */
  class Log {
    var activities: seq<Item>
    var filter: string
    var search: string

    constructor()
      ensures activities == [] && filter == "ALL" && search == ""
    {
      activities := [];
      filter := "ALL";
      search := "";
    }

    /** `fetchAllActivity` with the three lists the server returns. */
    method Load(leads: seq<LeadRow>, services: seq<ServiceRow>, appts: seq<AppointmentRow>)
      modifies this`activities
      ensures activities == Feed(leads, services, appts)
    {
      activities := Feed(leads, services, appts);
    }

    /** What the page lists. */
    function Shown(): seq<Item>
      reads this
    {
      Filtered(activities, filter, search)
    }
  }
}
