/** `detect_license_plate`: the filter over OCR results that keeps confident,
    plate-shaped tokens and returns the first. Image loading and the OCR
    engine are not modelled; their `(bbox, text, prob)` triples are the input. */
module AlprAi {
  import opened Common

  /** One OCR detection; the bounding box is not used. */
  datatype OcrResult = OcrResult(text: string, prob: real)

  predicate IsPlateChar(c: char) { IsUpperAscii(c) || IsDigit(c) }

  /** `re.sub(r'[^A-Z0-9]', '', text.upper())`. */
  function CleanAlpr(text: string): (r: string)
    ensures forall i :: 0 <= i < |r| ==> IsPlateChar(r[i])
  {
    Filter(ToUpper(text), IsPlateChar)
  }

  /** The loop's test for one result. */
  predicate Accepted(o: OcrResult)
  {
    o.prob > 0.5 && 4 <= |CleanAlpr(o.text)| <= 8
  }

  /** `detected_text` after the loop has seen `ocr`. */
  function DetectedSpec(ocr: seq<OcrResult>): seq<string>
  {
    if ocr == [] then []
    else
      var last := ocr[|ocr| - 1];
      DetectedSpec(ocr[..|ocr| - 1]) + (if Accepted(last) then [CleanAlpr(last.text)] else [])
  }

  /** The loop and the final `detected_text[0] if detected_text else None`. */
  method DetectLicensePlate(ocr: seq<OcrResult>) returns (plate: Option<string>)
    ensures plate == (if DetectedSpec(ocr) == [] then None else Some(DetectedSpec(ocr)[0]))
  {
    var detected: seq<string> := [];
    var i := 0;
    while i < |ocr|
      invariant 0 <= i <= |ocr|
      invariant detected == DetectedSpec(ocr[..i])
    {
      assert ocr[..i + 1][..i] == ocr[..i];
      if ocr[i].prob > 0.5 {
        var clean := CleanAlpr(ocr[i].text);
        if 4 <= |clean| <= 8 {
          detected := detected + [clean];
        }
      }
      i := i + 1;
    }
    assert ocr[..i] == ocr;
    plate := if detected == [] then None else Some(detected[0]);
  }

  /** What the loop collects, stated without the loop: the cleaned texts of
      the accepted results, in OCR order. */
  lemma {:induction false} DetectedIsFilter(ocr: seq<OcrResult>)
    ensures |DetectedSpec(ocr)| <= |ocr|
    ensures forall k :: 0 <= k < |DetectedSpec(ocr)| ==>
              exists i :: 0 <= i < |ocr| && Accepted(ocr[i]) && DetectedSpec(ocr)[k] == CleanAlpr(ocr[i].text)
    ensures DetectedSpec(ocr) == [] <==> forall i :: 0 <= i < |ocr| ==> !Accepted(ocr[i])
  {
    if ocr != [] {
      var init := ocr[..|ocr| - 1];
      DetectedIsFilter(init);
      forall k | 0 <= k < |DetectedSpec(ocr)|
        ensures exists i :: 0 <= i < |ocr| && Accepted(ocr[i]) && DetectedSpec(ocr)[k] == CleanAlpr(ocr[i].text)
      {
        if k < |DetectedSpec(init)| {
          var i :| 0 <= i < |init| && Accepted(init[i]) && DetectedSpec(init)[k] == CleanAlpr(init[i].text);
          assert ocr[i] == init[i];
        }
      }
      if forall i :: 0 <= i < |ocr| ==> !Accepted(ocr[i]) {
        assert forall i :: 0 <= i < |init| ==> !Accepted(init[i]) by {
          forall i | 0 <= i < |init| ensures !Accepted(init[i]) { assert init[i] == ocr[i]; }
        }
      }
      if DetectedSpec(ocr) == [] {
        forall i | 0 <= i < |ocr| ensures !Accepted(ocr[i]) {
          if i < |init| { assert init[i] == ocr[i]; }
        }
      }
    }
  }

  /** The returned plate is the cleaned text of the first accepted result;
      None exactly when no result is accepted. */
  lemma {:induction false} FirstAccepted(ocr: seq<OcrResult>)
    ensures DetectedSpec(ocr) == [] <==> forall i :: 0 <= i < |ocr| ==> !Accepted(ocr[i])
    ensures DetectedSpec(ocr) != [] ==>
              exists i :: 0 <= i < |ocr| && Accepted(ocr[i]) && DetectedSpec(ocr)[0] == CleanAlpr(ocr[i].text)
                          && forall j :: 0 <= j < i ==> !Accepted(ocr[j])
  {
    DetectedIsFilter(ocr);
    if ocr != [] {
      var init := ocr[..|ocr| - 1];
      FirstAccepted(init);
      if DetectedSpec(init) != [] {
        var i :| 0 <= i < |init| && Accepted(init[i]) && DetectedSpec(init)[0] == CleanAlpr(init[i].text)
                 && forall j :: 0 <= j < i ==> !Accepted(init[j]);
        assert ocr[i] == init[i];
        forall j | 0 <= j < i ensures !Accepted(ocr[j]) { assert ocr[j] == init[j]; }
      } else {
        DetectedIsFilter(init);
        forall j | 0 <= j < |init| ensures !Accepted(ocr[j]) { assert ocr[j] == init[j]; }
      }
    }
  }
}
