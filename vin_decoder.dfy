/** `decode_vin`: folding the variable/value rows of an NHTSA vPIC
    `decodevin` response into the fields the inventory form fills in. The
    HTTP request itself is not modelled; its `Results` rows are the input. */
module VinDecoder {
  import opened Common

  /** One element of `Results`: `Value` may be JSON null. */
  datatype Row = Row(variable: string, value: Option<string>)

  /** The `decoded_data` dict: a key is present once a row has set it. */
  datatype Decoded = Decoded(
    make: Option<string>,
    model: Option<string>,
    year: Option<int>,
    trim: Option<string>,
    bodyStyle: Option<string>)

  const EmptyDecoded := Decoded(None, None, None, None, None)

  /** Python truthiness of a `Value`: present and non-empty. */
  predicate Truthy(v: Option<string>)
  {
    v.Some? && v.value != ""
  }

  /** The ASCII characters Python counts as whitespace: tab, line feed,
      vertical tab, form feed, carriage return, the four separators 0x1C-0x1F
      and the space. */
  predicate IsSpace(c: char)
  {
    ('\t' <= c <= '\r') || ('\U{1C}' <= c <= '\U{1F}') || c == ' '
  }

  function TrimLeft(s: string): string
  {
    if s != [] && IsSpace(s[0]) then TrimLeft(s[1..]) else s
  }

  function TrimRight(s: string): string
  {
    if s != [] && IsSpace(s[|s| - 1]) then TrimRight(s[..|s| - 1]) else s
  }

  /** `str.strip()` as `int()` applies it before parsing. */
  function Strip(s: string): string
  {
    TrimRight(TrimLeft(s))
  }

  /** The digits of an integer literal, after an optional sign. */
  function Unsigned(s: string): string
  {
    if |s| > 0 && (s[0] == '-' || s[0] == '+') then s[1..] else s
  }

  predicate AllDigits(s: string)
  {
    forall i :: 0 <= i < |s| ==> IsDigit(s[i])
  }

  /** What may follow a digit: nothing, another digit, or one underscore
      and a digit, and so on. */
  predicate GroupTail(t: string)
  {
    if t == [] then true
    else if IsDigit(t[0]) then GroupTail(t[1..])
    else t[0] == '_' && |t| >= 2 && IsDigit(t[1]) && GroupTail(t[2..])
  }

  /** Digits with single underscores between them: `2020`, `2_020`, but
      not `_2020`, `2020_` or `20__20`. */
  predicate IsDigitGroups(s: string)
  {
    |s| > 0 && IsDigit(s[0]) && GroupTail(s[1..])
  }

  lemma {:induction false} AllDigitsGroupTail(t: string)
    requires AllDigits(t)
    ensures GroupTail(t)
  {
    if t != [] {
      AllDigitsGroupTail(t[1..]);
    }
  }

  /** Decimal integer text as `int(...)` accepts it: surrounding whitespace,
      an optional sign, and digits grouped by single underscores. */
  predicate IsIntLiteral(s: string)
  {
    IsDigitGroups(Unsigned(Strip(s)))
  }

  /** The value of a run of digit groups; underscores are skipped. */
  function DigitsValue(s: string): nat
  {
    if s == [] then 0
    else if IsDigit(s[|s| - 1]) then 10 * DigitsValue(s[..|s| - 1]) + (s[|s| - 1] as int - '0' as int)
    else DigitsValue(s[..|s| - 1])
  }

  /** `int(s)`, or None where Python raises `ValueError`. */
  function ParseInt(s: string): (r: Option<int>)
    ensures r.Some? <==> IsIntLiteral(s)
    ensures r.Some? && Strip(s)[0] != '-' ==> r.value >= 0
    ensures r.Some? && Strip(s)[0] == '-' ==> r.value <= 0
  {
    if !IsIntLiteral(s) then None
    else
      var t := Strip(s);
      var magnitude: int := DigitsValue(Unsigned(t));
      Some(if t[0] == '-' then -magnitude else magnitude)
  }

  /** The decimal text of a number parses back to that number. */
  lemma ParseIntOfDecimal(n: nat)
    ensures ParseInt(NatToString(n)) == Some(n)
  {
    var s := NatToString(n);
    assert TrimLeft(s) == s;
    assert TrimRight(s) == s;
    assert Unsigned(s) == s;
    AllDigitsGroupTail(s[1..]);
    NatToStringValue(n);
  }

  lemma Value2020()
    ensures DigitsValue("2020") == 2020 && DigitsValue("2_020") == 2020
  {
    assert "2020"[..3] == "202" && "202"[..2] == "20" && "20"[..1] == "2" && "2"[..0] == "";
    assert "2_020"[..4] == "2_02" && "2_02"[..3] == "2_0" && "2_0"[..2] == "2_" && "2_"[..1] == "2";
  }

  lemma Groups2020()
    ensures IsDigitGroups("2020") && IsDigitGroups("2_020") && !IsDigitGroups("20__20")
  {
    assert "2020"[1..] == "020" && "020"[1..] == "20" && "20"[1..] == "0" && "0"[1..] == "";
    assert "2_020"[1..] == "_020" && "_020"[2..] == "20";
    assert "20__20"[1..] == "0__20" && "0__20"[1..] == "__20";
  }

  /** Whitespace around the number and underscores between its digits are
      accepted, as Python's `int()` accepts them; a doubled underscore is
      not. */
  lemma ParseIntExamples()
    ensures ParseInt(" 2020\n") == Some(2020)
    ensures ParseInt("2_020") == Some(2020)
    ensures ParseInt("20__20") == None
  {
    assert " 2020\n"[1..] == "2020\n" && "2020\n"[..4] == "2020";
    assert TrimLeft(" 2020\n") == "2020\n";
    assert TrimRight("2020\n") == "2020";
    assert Strip(" 2020\n") == "2020";
    assert Strip("2_020") == "2_020";
    assert Strip("20__20") == "20__20";
    Value2020();
    Groups2020();
  }

  lemma {:induction false} NatToStringValue(n: nat)
    ensures DigitsValue(NatToString(n)) == n
    decreases n
  {
    var s := NatToString(n);
    if n >= 10 {
      NatToStringValue(n / 10);
      assert s[..|s| - 1] == NatToString(n / 10);
    }
  }

  /** The body of the loop for one row. */
  function Step(d: Decoded, row: Row): Result<Decoded, string>
  {
    if !Truthy(row.value) then Ok(d)
    else
      var v := row.value.value;
      if row.variable == "Make" then Ok(d.(make := Some(v)))
      else if row.variable == "Model" then Ok(d.(model := Some(v)))
      else if row.variable == "Model Year" then
        (match ParseInt(v)
         case Some(y) => Ok(d.(year := Some(y)))
         case None => Err("invalid literal for int(): " + v))
      else if row.variable == "Trim" then Ok(d.(trim := Some(v)))
      else if row.variable == "Body Class" then Ok(d.(bodyStyle := Some(v)))
      else Ok(d)
  }

  /** One row raises exactly when it sets Model Year to a non-integer. */
  lemma StepFails(d: Decoded, row: Row)
    ensures Step(d, row).Err? <==> BadYear(row)
  {
  }

  /** One row sets the year when it sets Model Year, and leaves it otherwise. */
  lemma StepYear(d: Decoded, row: Row)
    requires Step(d, row).Ok?
    ensures Step(d, row).value.year == if Sets(row, "Model Year") then ParseInt(row.value.value) else d.year
  {
  }

  /** One row sets a text field when it sets its variable, and leaves it otherwise. */
  lemma StepText(d: Decoded, row: Row, variable: string)
    requires variable in ["Make", "Model", "Trim", "Body Class"]
    requires Step(d, row).Ok?
    ensures TextField(Step(d, row).value, variable) ==
            if Sets(row, variable) then row.value else TextField(d, variable)
  {
  }

  /** The whole loop: rows folded from the left; the first raising row ends it. */
  function DecodeSpec(rows: seq<Row>): Result<Decoded, string>
  {
    if rows == [] then Ok(EmptyDecoded)
    else
      var d := DecodeSpec(rows[..|rows| - 1]);
      if d.Err? then d else Step(d.value, rows[|rows| - 1])
  }

  /** `decode_vin` after the HTTP call. */
  method DecodeVin(rows: seq<Row>) returns (r: Result<Decoded, string>)
    ensures r == DecodeSpec(rows)
  {
    var d := EmptyDecoded;
    var i := 0;
    while i < |rows|
      invariant 0 <= i <= |rows|
      invariant DecodeSpec(rows[..i]) == Ok(d)
    {
      assert rows[..i + 1][..i] == rows[..i];
      var s := Step(d, rows[i]);
      assert DecodeSpec(rows[..i + 1]) == s;
      if s.Err? {
        r := s;
        DecodeStopsAtError(rows, i + 1);
        return;
      }
      d := s.value;
      i := i + 1;
    }
    assert rows[..i] == rows;
    r := Ok(d);
  }

  /** Once a prefix fails, the whole input fails with the same error. */
  lemma {:induction false} DecodeStopsAtError(rows: seq<Row>, k: int)
    requires 0 <= k <= |rows| && DecodeSpec(rows[..k]).Err?
    ensures DecodeSpec(rows) == DecodeSpec(rows[..k])
    decreases |rows| - k
  {
    if k < |rows| {
      assert rows[..k + 1][..k] == rows[..k];
      DecodeStopsAtError(rows, k + 1);
    } else {
      assert rows[..k] == rows;
    }
  }

  // ---------------------------------------------------------------------------
  // What the decoded record holds, stated row by row
  // ---------------------------------------------------------------------------

  /** The field a text variable fills. */
  function TextField(d: Decoded, variable: string): Option<string>
  {
    if variable == "Make" then d.make
    else if variable == "Model" then d.model
    else if variable == "Trim" then d.trim
    else if variable == "Body Class" then d.bodyStyle
    else None
  }

  predicate Sets(row: Row, variable: string)
  {
    row.variable == variable && Truthy(row.value)
  }

  /** `rows[i]` is the last row that sets `variable`. */
  predicate LastSetter(rows: seq<Row>, variable: string, i: int)
  {
    0 <= i < |rows| && Sets(rows[i], variable)
    && forall j :: i < j < |rows| ==> !Sets(rows[j], variable)
  }

  /** A row that sets Model Year to something `int()` rejects. */
  predicate BadYear(row: Row)
  {
    Sets(row, "Model Year") && !IsIntLiteral(row.value.value)
  }

  /** The decode fails exactly when some non-empty Model Year value is not
      an integer. */
  lemma {:induction false} DecodeFailsIffBadYear(rows: seq<Row>)
    ensures DecodeSpec(rows).Err? <==> exists i :: 0 <= i < |rows| && BadYear(rows[i])
  {
    if rows != [] {
      var init := rows[..|rows| - 1];
      DecodeFailsIffBadYear(init);
      if DecodeSpec(init).Ok? {
        StepFails(DecodeSpec(init).value, rows[|rows| - 1]);
      }
      ExistsSnoc(rows, init, BadYear);
    }
  }

  /** Each text field holds the value of the last row that sets it, and is
      absent when no row sets it; rows of other variables and rows with an
      empty value leave it alone. */
  lemma {:induction false} DecodeTextField(rows: seq<Row>, variable: string)
    requires variable in ["Make", "Model", "Trim", "Body Class"]
    requires DecodeSpec(rows).Ok?
    ensures TextField(DecodeSpec(rows).value, variable).None? <==>
            forall i :: 0 <= i < |rows| ==> !Sets(rows[i], variable)
    ensures forall i :: LastSetter(rows, variable, i) ==>
            TextField(DecodeSpec(rows).value, variable) == rows[i].value
  {
    if rows != [] {
      var init := rows[..|rows| - 1];
      var n := |rows| - 1;
      assert DecodeSpec(init).Ok?;
      DecodeTextField(init, variable);
      StepText(DecodeSpec(init).value, rows[n], variable);
      forall i | LastSetter(rows, variable, i)
        ensures TextField(DecodeSpec(rows).value, variable) == rows[i].value
      {
        if i < n {
          assert LastSetter(init, variable, i);
        }
      }
      if !Sets(rows[n], variable) {
        forall i | 0 <= i < n ensures init[i] == rows[i] { }
      }
    }
  }

  /** The year is the integer value of the last row that sets Model Year. */
  lemma {:induction false} DecodeYear(rows: seq<Row>)
    requires DecodeSpec(rows).Ok?
    ensures DecodeSpec(rows).value.year.None? <==>
            forall i :: 0 <= i < |rows| ==> !Sets(rows[i], "Model Year")
    ensures forall i :: LastSetter(rows, "Model Year", i) ==>
            DecodeSpec(rows).value.year == ParseInt(rows[i].value.value)
  {
    if rows != [] {
      var init := rows[..|rows| - 1];
      var n := |rows| - 1;
      assert DecodeSpec(init).Ok?;
      DecodeYear(init);
      StepYear(DecodeSpec(init).value, rows[n]);
      forall i | LastSetter(rows, "Model Year", i)
        ensures DecodeSpec(rows).value.year == ParseInt(rows[i].value.value)
      {
        if i < n {
          assert LastSetter(init, "Model Year", i);
        }
      }
      if !Sets(rows[n], "Model Year") {
        forall i | 0 <= i < n ensures init[i] == rows[i] { }
      }
    }
  }
}
