/** The sales desk (`DeskingCalculator`): pick an AVAILABLE car, work out the
    monthly loan payment, and save the deal as a NEGOTIATION lead that also
    reserves the car. */
module Desking {
  import opened Common
  import opened UiCommon

  /** The vehicle fields the desk reads; `price` is `Number(selling_price)`. */
  datatype Car = Car(id: int, year: int, make: string, model: string, trim: string,
                     stockNumber: string, price: real, status: string, vin: string)

  const Available := "AVAILABLE"

  predicate IsAvailable(c: Car) { c.status == Available }

  /** The inventory fetch keeps only AVAILABLE cars. */
  function AvailableCars(all: seq<Car>): (r: seq<Car>)
    ensures forall i :: 0 <= i < |r| ==> r[i].status == Available
    ensures forall c :: c in r <==> c in all && c.status == Available
  {
    Filter(all, IsAvailable)
  }

  /** `${year} ${make} ${model} ${stock_number} ${vin}`, the text searched. */
  function SearchText(c: Car): string
  {
    IntToString(c.year) + " " + c.make + " " + c.model + " " + c.stockNumber + " " + c.vin
  }

  predicate Matching(c: Car, term: string) { Matches(SearchText(c), term) }

  /** `filteredVehicles`. */
  function FilteredVehicles(vs: seq<Car>, term: string): (r: seq<Car>)
    ensures forall c :: c in r <==> c in vs && Matching(c, term)
  {
    Filter(vs, (c: Car) => Matching(c, term))
  }

  /** A car's own VIN, typed in any case, finds it. */
  lemma SearchFindsVin(c: Car)
    ensures Matching(c, c.vin)
  {
    var head := IntToString(c.year) + " " + c.make + " " + c.model + " " + c.stockNumber + " ";
    assert SearchText(c) == head + c.vin + "";
    MatchesPart(head, c.vin, "");
  }

  /** A car's own stock number, typed in any case, finds it. */
  lemma SearchFindsStock(c: Car)
    ensures Matching(c, c.stockNumber)
  {
    var head := IntToString(c.year) + " " + c.make + " " + c.model + " ";
    assert SearchText(c) == head + c.stockNumber + (" " + c.vin);
    MatchesPart(head, c.stockNumber, " " + c.vin);
  }

  /** The list keeps the loaded order, an empty search shows every car, and
      typing a car's VIN or stock number keeps that car. */
  lemma FilteredVehiclesSpec(vs: seq<Car>, term: string)
    ensures IsSubsequence(FilteredVehicles(vs, term), vs)
    ensures term == "" ==> FilteredVehicles(vs, term) == vs
    ensures forall c :: c in vs ==> c in FilteredVehicles(vs, c.vin) && c in FilteredVehicles(vs, c.stockNumber)
  {
    var p := (c: Car) => Matching(c, term);
    FilterIsSubsequence(vs, p);
    if term == "" {
      forall i | 0 <= i < |vs| ensures p(vs[i]) { MatchesEmpty(SearchText(vs[i])); }
      FilterKeepsAll(vs, p);
    }
    forall c | c in vs
      ensures c in FilteredVehicles(vs, c.vin) && c in FilteredVehicles(vs, c.stockNumber)
    {
      SearchFindsVin(c);
      SearchFindsStock(c);
    }
  }

  // ---------------------------------------------------------------------------
  // Picking a car
  // ---------------------------------------------------------------------------

  /** `str.trim()` for the space character. */
  function TrimSpaces(s: string): (r: string)
    ensures |r| <= |s|
    ensures r == "" || (r[0] != ' ' && r[|r| - 1] != ' ')
    ensures ' ' !in s ==> r == s
    decreases |s|
  {
    if s != [] && s[0] == ' ' then TrimSpaces(s[1..])
    else if s != [] && s[|s| - 1] == ' ' then TrimSpaces(s[..|s| - 1])
    else s
  }

  /** `${year || ''}`: a zero year prints nothing. */
  function YearOrBlank(year: int): string
  {
    if year == 0 then "" else IntToString(year)
  }

  /** The search box text once a car is picked: "year make model" trimmed,
      or the stock number when that is blank. */
  function PickLabel(c: Car): (r: string)
    ensures r == c.stockNumber || r == TrimSpaces(YearOrBlank(c.year) + " " + c.make + " " + c.model)
    ensures r == "" ==> c.stockNumber == ""
  {
    var text := TrimSpaces(YearOrBlank(c.year) + " " + c.make + " " + c.model);
    if text != "" then text else c.stockNumber
  }

  /** A car with no year, make or model is labelled by its stock number. */
  lemma PickLabelFallsBack(c: Car)
    requires c.year == 0 && c.make == "" && c.model == ""
    ensures PickLabel(c) == c.stockNumber
  {
    assert YearOrBlank(c.year) + " " + c.make + " " + c.model == "  ";
    assert TrimSpaces("  ") == TrimSpaces(" ") == TrimSpaces("");
  }

  // ---------------------------------------------------------------------------
  // The payment effect
  // ---------------------------------------------------------------------------

  function Pow(x: real, n: nat): real
  {
    if n == 0 then 1.0 else x * Pow(x, n - 1)
  }

  /** `interestRate / 100 / 12`. */
  function MonthlyRate(apr: real): real { apr / 100.0 / 12.0 }

  /** The payment effect: no term or nothing financed gives 0, a zero rate
      splits the principal evenly, otherwise the annuity formula.  A zero
      denominator (which JavaScript turns into a non-finite value the guard
      maps to 0) also gives 0. */
  function MonthlyPayment(price: real, down: real, apr: real, months: nat): (p: real)
    ensures months == 0 ==> p == 0.0
    ensures price - down <= 0.0 ==> p == 0.0
  {
    if months == 0 then 0.0
    else
      var principal := price - down;
      var rate := MonthlyRate(apr);
      if principal <= 0.0 then 0.0
      else if rate == 0.0 then principal / months as real
      else
        var g := Pow(1.0 + rate, months);
        if g - 1.0 == 0.0 then 0.0 else principal * rate * g / (g - 1.0)
  }

  /** What is still owed after `k` monthly payments: each month adds
      interest and takes off one payment. */
  function Balance(principal: real, rate: real, payment: real, k: nat): real
  {
    if k == 0 then principal else Balance(principal, rate, payment, k - 1) * (1.0 + rate) - payment
  }

  lemma {:induction false} BalanceClosedForm(principal: real, rate: real, payment: real, k: nat)
    ensures Balance(principal, rate, payment, k) * rate
         == principal * rate * Pow(1.0 + rate, k) - payment * (Pow(1.0 + rate, k) - 1.0)
  {
    if k > 0 {
      BalanceClosedForm(principal, rate, payment, k - 1);
      BalanceUnfold(principal, rate, payment, k);
      StepIdentity(Balance(principal, rate, payment, k - 1), Balance(principal, rate, payment, k),
                   rate, payment, principal, Pow(1.0 + rate, k - 1), Pow(1.0 + rate, k));
    }
  }

  /** One month of the balance and of the growth factor. */
  lemma BalanceUnfold(principal: real, rate: real, payment: real, k: nat)
    requires k > 0
    ensures Balance(principal, rate, payment, k) == Balance(principal, rate, payment, k - 1) * (1.0 + rate) - payment
    ensures Pow(1.0 + rate, k) == (1.0 + rate) * Pow(1.0 + rate, k - 1)
  {
  }

  /** One month of the closed form, as an identity over reals: `b` is the
      balance before the month, `next` after it, `q` and `gq` the growth
      factors before and after. */
  lemma StepIdentity(b: real, next: real, r: real, p: real, principal: real, q: real, gq: real)
    requires next == b * (1.0 + r) - p && gq == (1.0 + r) * q
    requires b * r == principal * r * q - p * (q - 1.0)
    ensures next * r == principal * r * gq - p * (gq - 1.0)
  {
    calc {
      next * r;
      (b * (1.0 + r) - p) * r;
      (b * r) * (1.0 + r) - p * r;
      (principal * r * q - p * (q - 1.0)) * (1.0 + r) - p * r;
    }
  }

  lemma {:induction false} BalanceWithoutInterest(principal: real, payment: real, k: nat)
    ensures Balance(principal, 0.0, payment, k) == principal - k as real * payment
  {
    if k > 0 {
      BalanceWithoutInterest(principal, payment, k - 1);
    }
  }

  lemma MulPos(a: real, b: real)
    requires a > 0.0 && b > 0.0
    ensures a * b > 0.0
  {
  }

  lemma MulStrict(k: real, b: real, c: real)
    requires k > 0.0 && b < c
    ensures k * b < k * c
  {
  }

  lemma CancelPositive(x: real, y: real, d: real)
    requires d > 0.0 && x * d > y * d
    ensures x > y
  {
  }

  /** A positive rate compounds to a factor above one. */
  lemma {:induction false} PowAboveOne(r: real, n: nat)
    requires r > 0.0 && n > 0
    ensures Pow(1.0 + r, n) > 1.0
  {
    if n > 1 {
      PowAboveOne(r, n - 1);
      var q := Pow(1.0 + r, n - 1);
      MulPos(r, q);
      assert Pow(1.0 + r, n) == q + r * q;
    }
  }

  /** `(1 + r)^n - 1 < n r (1 + r)^n` for a positive rate. */
  lemma {:induction false} GrowthBound(r: real, n: nat)
    requires r > 0.0 && n > 0
    ensures Pow(1.0 + r, n) - 1.0 < n as real * r * Pow(1.0 + r, n)
  {
    var g := 1.0 + r;
    var p := Pow(g, n);
    var nr := n as real * r;
    if n == 1 {
      assert p == g;
      assert nr == r;
      MulStrict(r, 1.0, p);
    } else {
      var q := Pow(g, n - 1);
      GrowthBound(r, n - 1);
      PowAboveOne(r, n - 1);
      var m := (n - 1) as real;
      assert p == q + r * q;
      MulPos(r, q);
      assert nr == m * r + r;
      MulStrict(nr, q, p);
      assert nr * q == m * r * q + r * q;
    }
  }

  /** The payment pays the loan off: after `months` payments nothing is
      owed, for any non-negative rate and, for a negative one, whenever the
      formula's denominator is not zero. */
  lemma PaymentClearsLoan(price: real, down: real, apr: real, months: nat)
    requires months > 0 && price - down > 0.0
    ensures Pow(1.0 + MonthlyRate(apr), months) != 1.0 || apr == 0.0 ==>
              Balance(price - down, MonthlyRate(apr), MonthlyPayment(price, down, apr, months), months) == 0.0
    ensures apr >= 0.0 ==>
              Balance(price - down, MonthlyRate(apr), MonthlyPayment(price, down, apr, months), months) == 0.0
  {
    var principal := price - down;
    var rate := MonthlyRate(apr);
    var p := MonthlyPayment(price, down, apr, months);
    var g := Pow(1.0 + rate, months);
    if rate == 0.0 {
      assert apr == 0.0;
      BalanceWithoutInterest(principal, p, months);
      assert months as real * (principal / months as real) == principal;
    } else {
      assert apr != 0.0;
      if apr > 0.0 {
        PowAboveOne(rate, months);
      }
      if g != 1.0 {
        BalanceClosedForm(principal, rate, p, months);
        assert p * (g - 1.0) == principal * rate * g;
        assert Balance(principal, rate, p, months) * rate == 0.0;
      }
    }
  }

  /** With interest charged, the payments add up to more than the
      principal. */
  lemma PaymentCoversInterest(price: real, down: real, apr: real, months: nat)
    requires months > 0 && price - down > 0.0 && apr > 0.0
    ensures MonthlyPayment(price, down, apr, months) * months as real > price - down
  {
    var principal := price - down;
    var rate := MonthlyRate(apr);
    var g := Pow(1.0 + rate, months);
    var n := months as real;
    PowAboveOne(rate, months);
    GrowthBound(rate, months);
    var d := g - 1.0;
    var p := principal * rate * g / d;
    assert MonthlyPayment(price, down, apr, months) == p;
    assert p * d == principal * rate * g;
    assert d < n * rate * g;
    PaymentExceedsShare(principal, rate, g, n, p, d);
  }

  /** The arithmetic core, with `d = g - 1`: `p * d == P * r * g` and
      `d < n * r * g` give `p * n > P`. */
  lemma PaymentExceedsShare(principal: real, rate: real, g: real, n: real, p: real, d: real)
    requires principal > 0.0 && d > 0.0
    requires p * d == principal * rate * g && d < n * rate * g
    ensures p * n > principal
  {
    MulStrict(principal, d, n * rate * g);
    assert (p * n) * d == principal * (n * rate * g);
    CancelPositive(p * n, principal, d);
  }

  // ---------------------------------------------------------------------------
  // Saving the deal
  // ---------------------------------------------------------------------------

  /** How a save ends: one of the three guards, a request that failed
      (the `catch` branch), or a saved deal. */
  datatype SaveOutcome = NoVehicle | MissingCustomer | NotNegotiable(status: string) | Failed | Saved

  /** `handleSaveDeal`'s three guards, in the order the code checks them. */
  function SaveCheck(selected: Option<Car>, name: string, phone: string): (r: SaveOutcome)
    ensures r == NoVehicle <==> selected.None?
    ensures r == MissingCustomer <==> selected.Some? && (name == "" || phone == "")
    ensures r.NotNegotiable? <==> selected.Some? && name != "" && phone != "" && selected.value.status != Available
    ensures r.NotNegotiable? ==> r.status == selected.value.status
    ensures r == Saved <==> selected.Some? && name != "" && phone != "" && selected.value.status == Available
    ensures r != Failed
  {
    if selected.None? then NoVehicle
    else if !Truthy(name) || !Truthy(phone) then MissingCustomer
    else if selected.value.status != Available then NotNegotiable(selected.value.status)
    else Saved
  }

  /** `customerName.split(" ")[0]`. */
  function FirstName(name: string): string
  {
    SplitOnSpace(name)[0]
  }

  /** `customerName.split(" ")[1] || ""`. */
  function LastName(name: string): string
  {
    var parts := SplitOnSpace(name);
    if |parts| > 1 then parts[1] else ""
  }

  /** One word is all first name; two words are first and last name. */
  lemma NameSplitTwoWords(first: string, last: string)
    requires ' ' !in first && ' ' !in last
    ensures FirstName(first) == first && LastName(first) == ""
    ensures FirstName(first + " " + last) == first && LastName(first + " " + last) == last
  {
    SplitAfterWord(first, last);
    assert SplitOnSpace(first + " " + last) == [first, last];
  }

  /** Words after the second are dropped. */
  lemma NameSplitDropsRest(first: string, last: string, rest: string)
    requires ' ' !in first && ' ' !in last
    ensures FirstName(first + " " + last + " " + rest) == first
    ensures LastName(first + " " + last + " " + rest) == last
  {
    var tail := last + " " + rest;
    assert first + " " + last + " " + rest == first + " " + tail;
    NameAfterWord(first, tail);
    NameAfterWord(last, rest);
  }

  /** After a space-free first word, the last name is the next word. */
  lemma NameAfterWord(word: string, t: string)
    requires ' ' !in word
    ensures FirstName(word + " " + t) == word && LastName(word + " " + t) == FirstName(t)
  {
    SplitAfterWord(word, t);
  }

  /** The first name is the text up to the first space, and the last name
      never contains a space: the split loses the rest of the name only. */
  lemma NameSplitParts(name: string)
    ensures FirstName(name) <= name
    ensures ' ' !in FirstName(name) && ' ' !in LastName(name)
    ensures ' ' !in name ==> FirstName(name) == name && LastName(name) == ""
  {
    SplitJoin(name);
    var parts := SplitOnSpace(name);
    if |parts| > 1 {
      assert name == parts[0] + " " + JoinSpace(parts[1..]);
    }
  }

  /** The lead the save posts. */
  datatype LeadDraft = LeadDraft(firstName: string, lastName: string, phone: string, source: string,
                                 vehicle: int, status: string, quotedPrice: real, downPayment: real,
                                 monthlyPayment: real, termMonths: nat)

  datatype Request = PostLead(lead: LeadDraft) | PatchVehicle(id: int, status: string)

  /** The desk's React state; `sent` logs the HTTP writes in order. */
  class Desk {
    var vehicles: seq<Car>
    var searchTerm: string
    var dropdownOpen: bool
    var selected: Option<Car>
    var price: real
    var down: real
    var apr: real
    var months: nat
    var payment: real
    var customerName: string
    var customerPhone: string
    var source: string
    var sent: seq<Request>

    /** The initial `useState` values. */
    constructor()
      ensures vehicles == [] && searchTerm == "" && !dropdownOpen && selected == None
      ensures price == 0.0 && down == 2000.0 && apr == 5.9 && months == 60 && payment == 0.0
      ensures customerName == "" && customerPhone == "" && source == "Walk-in" && sent == []
    {
      vehicles := [];
      searchTerm := "";
      dropdownOpen := false;
      selected := None;
      price := 0.0;
      down := 2000.0;
      apr := 5.9;
      months := 60;
      payment := 0.0;
      customerName := "";
      customerPhone := "";
      source := "Walk-in";
      sent := [];
    }

    /** The inventory fetch. */
    method Load(all: seq<Car>)
      modifies this`vehicles
      ensures vehicles == AvailableCars(all)
      ensures forall c :: c in vehicles ==> c.status == Available
      ensures selected == old(selected) && price == old(price) && sent == old(sent)
    {
      vehicles := AvailableCars(all);
    }

    /** The payment effect, run whenever price, down payment, rate or term
        change. */
    method Recompute()
      modifies this`payment
      ensures payment == MonthlyPayment(price, down, apr, months)
    {
      payment := MonthlyPayment(price, down, apr, months);
    }

    /** `selectCar`, followed by the payment effect its price change
        triggers. */
    method SelectCar(car: Car)
      modifies this
      ensures selected == Some(car) && price == car.price
      ensures searchTerm == PickLabel(car) && !dropdownOpen
      ensures payment == MonthlyPayment(car.price, down, apr, months)
      ensures down == old(down) && apr == old(apr) && months == old(months)
      ensures vehicles == old(vehicles) && sent == old(sent)
      ensures customerName == old(customerName) && customerPhone == old(customerPhone) && source == old(source)
    {
      selected := Some(car);
      price := car.price;
      searchTerm := PickLabel(car);
      dropdownOpen := false;
      Recompute();
    }

    /** `handleSaveDeal`: rejected saves write nothing; a deal that passes
        the guards posts the lead and, only once that post succeeds,
        reserves the car; when both calls succeed the customer and the
        selection are cleared (price and payment stay).  A failed call ends
        in the `catch` branch, which clears nothing.  `postOk` and `patchOk`
        are the servers' answers to the two calls. */
    method SaveDeal(postOk: bool, patchOk: bool) returns (outcome: SaveOutcome)
      modifies this
      ensures var check := SaveCheck(old(selected), old(customerName), old(customerPhone));
              outcome == (if check == Saved && !(postOk && patchOk) then Failed else check)
      ensures outcome != Saved && outcome != Failed ==> unchanged(this)
      ensures outcome == Saved || outcome == Failed ==>
        sent == old(sent) + [PostLead(LeadDraft(FirstName(old(customerName)), LastName(old(customerName)),
                                                old(customerPhone), old(source), old(selected).value.id,
                                                "NEGOTIATION", price, down, payment, months))]
                          + (if postOk then [PatchVehicle(old(selected).value.id, "RESERVED")] else [])
      ensures outcome == Saved ==>
        customerName == "" && customerPhone == "" && source == "Walk-in" && searchTerm == "" && selected == None
      ensures outcome == Failed ==>
        customerName == old(customerName) && customerPhone == old(customerPhone) && source == old(source) &&
        searchTerm == old(searchTerm) && selected == old(selected)
      ensures vehicles == old(vehicles) && price == old(price) && down == old(down) && apr == old(apr)
      ensures months == old(months) && payment == old(payment) && dropdownOpen == old(dropdownOpen)
    {
      outcome := SaveCheck(selected, customerName, customerPhone);
      if outcome != Saved {
        return;
      }
      var car := selected.value;
      var lead := LeadDraft(FirstName(customerName), LastName(customerName), customerPhone, source,
                            car.id, "NEGOTIATION", price, down, payment, months);
      sent := sent + [PostLead(lead)];
      if !postOk {
        return Failed;
      }
      sent := sent + [PatchVehicle(car.id, "RESERVED")];
      if !patchOk {
        return Failed;
      }
      customerName := "";
      customerPhone := "";
      source := "Walk-in";
      searchTerm := "";
      selected := None;
    }
  }
}
