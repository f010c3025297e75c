/** The customer directory (`CustomerList`): the name/phone search and the
    profile modal's selection. */
module CustomerList {
  import opened Common
  import opened UiCommon

  /** The directory row fields the page reads. */
  datatype Customer = Customer(id: int, name: string, phone: string)

  /** A row matches when the search occurs in the name ignoring case, or
      occurs in the phone number exactly as typed. */
  predicate Found(c: Customer, term: string)
  {
    Matches(c.name, term) || Includes(c.phone, term)
  }

  /** `filteredCustomers`. */
  function Filtered(cs: seq<Customer>, term: string): (r: seq<Customer>)
    ensures forall c :: c in r <==> c in cs && (Matches(c.name, term) || Includes(c.phone, term))
  {
    Filter(cs, (c: Customer) => Found(c, term))
  }

  /** The list keeps the directory's order; an empty search lists every
      customer; a customer is found by its full name in any case and by its
      full phone number. */
  lemma FilteredSpec(cs: seq<Customer>, term: string)
    ensures IsSubsequence(Filtered(cs, term), cs)
    ensures term == "" ==> Filtered(cs, term) == cs
    ensures forall c :: c in cs ==> c in Filtered(cs, ToUpper(c.name)) && c in Filtered(cs, c.phone)
  {
    var p := (c: Customer) => Found(c, term);
    FilterIsSubsequence(cs, p);
    if term == "" {
      forall i | 0 <= i < |cs| ensures p(cs[i]) { MatchesEmpty(cs[i].name); }
      FilterKeepsAll(cs, p);
    }
    forall c | c in cs ensures c in Filtered(cs, ToUpper(c.name)) && c in Filtered(cs, c.phone) {
      FoundByOwnNameAndPhone(c);
    }
  }

  /** A customer matches a search for its full name in upper case and for
      its full phone number. */
  lemma FoundByOwnNameAndPhone(c: Customer)
    ensures Found(c, ToUpper(c.name)) && Found(c, c.phone)
  {
    assert c.name == "" + c.name + "";
    MatchesPart("", c.name, "");
    MatchesIgnoresCase(c.name, c.name);
    assert c.phone[0..] == c.phone;
  }

  /** The page's React state. */
  class Directory {
    var customers: seq<Customer>
    var searchTerm: string
    var selected: Option<Customer>

    constructor()
      ensures customers == [] && searchTerm == "" && selected == None
      ensures !ModalOpen()
    {
      customers := [];
      searchTerm := "";
      selected := None;
    }

    /** `isOpen={!!selectedCustomer}`. */
    predicate ModalOpen()
      reads this
    {
      selected.Some?
    }

    method Load(rows: seq<Customer>)
      modifies this`customers
      ensures customers == rows
    {
      customers := rows;
    }

    /** Clicking a row opens its profile. */
    method Select(c: Customer)
      modifies this`selected
      ensures selected == Some(c) && ModalOpen()
    {
      selected := Some(c);
    }

    /** `onClose`: the modal closes by clearing the selection. */
    method Close()
      modifies this`selected
      ensures selected == None && !ModalOpen()
    {
      selected := None;
    }
  }
}
