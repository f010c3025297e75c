/** The printed service invoice (`PrintableInvoice`): cost defaults, the
    total, and the zero-padded invoice number. */
module PrintableInvoice {
  import opened Common
  import opened UiCommon
  import PlateScanner

  /** `s.padStart(width, c)` for a one-character pad: `s` itself when it is
      already that long, otherwise `s` behind enough copies of `c`. */
  function PadStart(s: string, width: nat, c: char): (r: string)
    ensures |r| == if |s| >= width then |s| else width
    ensures |s| >= width ==> r == s
    ensures r[|r| - |s|..] == s
    ensures forall i :: 0 <= i < |r| - |s| ==> r[i] == c
  {
    if |s| >= width then s
    else seq(width - |s|, _ => c) + s
  }

  /** `job.id.toString().padStart(6, '0')`. */
  function InvoiceNumber(id: int): string
  {
    PadStart(IntToString(id), 6, '0')
  }

  /** The invoice's figures; tax is always zero. */
  datatype Invoice = Invoice(number: string, parts: int, labor: int, subtotal: int, tax: int, totalDue: int)

  /** What the component renders: nothing without a job, otherwise the
      costs (`Number(x) || 0`), their sum as both subtotal and total due,
      and the padded id.  The total due is the total the billing dialog
      showed for the same job. */
  function Render(job: Option<PlateScanner.Job>): (r: Option<Invoice>)
    ensures r.None? <==> job.None?
    ensures r.Some? ==> r.value.parts == NumberOrZero(job.value.partsCost) && r.value.labor == NumberOrZero(job.value.laborCost)
    ensures r.Some? ==> r.value.tax == 0 && r.value.subtotal == r.value.totalDue == r.value.parts + r.value.labor
    ensures r.Some? ==> r.value.number == InvoiceNumber(job.value.id)
    ensures r.Some? ==> r.value.totalDue == PlateScanner.Total(PlateScanner.CostsOf(job.value))
  {
    if job.None? then None
    else
      var c := PlateScanner.CostsOf(job.value);
      Some(Invoice(InvoiceNumber(job.value.id), c.parts, c.labor, c.parts + c.labor, 0, c.parts + c.labor))
  }

  /** Decimal value of a digit string, read left to right. */
  function DigitsValue(s: string): int
    requires forall i :: 0 <= i < |s| ==> IsDigit(s[i])
  {
    if s == [] then 0 else DigitsValue(s[..|s| - 1]) * 10 + (s[|s| - 1] as int - '0' as int)
  }

  lemma {:induction false} DigitsOfNat(n: nat)
    ensures DigitsValue(NatToString(n)) == n
    decreases n
  {
    if n >= 10 {
      var a := NatToString(n / 10);
      DigitsOfNat(n / 10);
      assert (a + [DigitChar(n % 10)])[..|a|] == a;
    }
  }

  lemma {:induction false} ZerosValue(z: string)
    requires forall i :: 0 <= i < |z| ==> z[i] == '0'
    ensures DigitsValue(z) == 0
  {
    if z != [] {
      ZerosValue(z[..|z| - 1]);
    }
  }

  /** Leading zeros do not change a number's value. */
  lemma {:induction false} LeadingZeros(z: string, t: string)
    requires forall i :: 0 <= i < |z| ==> z[i] == '0'
    requires forall i :: 0 <= i < |t| ==> IsDigit(t[i])
    ensures forall i :: 0 <= i < |z + t| ==> IsDigit((z + t)[i])
    ensures DigitsValue(z + t) == DigitsValue(t)
    decreases |t|
  {
    if t == [] {
      assert z + t == z;
      ZerosValue(z);
    } else {
      var t' := t[..|t| - 1];
      LeadingZeros(z, t');
      assert (z + t)[..|z + t| - 1] == z + t';
    }
  }

  /** The invoice number is at least six characters, keeps a longer id
      whole, and reads back as the id it was made from. */
  lemma InvoiceNumberSpec(id: nat)
    ensures |InvoiceNumber(id)| == if |NatToString(id)| >= 6 then |NatToString(id)| else 6
    ensures id >= 100000 ==> InvoiceNumber(id) == NatToString(id)
    ensures forall i :: 0 <= i < |InvoiceNumber(id)| ==> IsDigit(InvoiceNumber(id)[i])
    ensures DigitsValue(InvoiceNumber(id)) == id
  {
    var s := NatToString(id);
    var r := InvoiceNumber(id);
    var z := r[..|r| - |s|];
    assert r == z + s;
    LeadingZeros(z, s);
    DigitsOfNat(id);
    if id >= 100000 {
      SixDigits(id);
    }
  }

  /** An id of 100000 or more has at least six digits: four divisions by
      ten still leave a number of two digits. */
  lemma SixDigits(n: nat)
    requires n >= 100000
    ensures |NatToString(n)| >= 6
  {
    var a := n / 10;
    var b := a / 10;
    var c := b / 10;
    var d := c / 10;
    assert a >= 10000 && b >= 1000 && c >= 100 && d >= 10;
    OneMoreDigit(n);
    OneMoreDigit(a);
    OneMoreDigit(b);
    OneMoreDigit(c);
    OneMoreDigit(d);
  }

  /** Dropping the last digit of a number of two digits or more. */
  lemma OneMoreDigit(n: nat)
    requires n >= 10
    ensures |NatToString(n)| == |NatToString(n / 10)| + 1
  {
  }
}
