/** The anamorphic classifier: `Daemon.is_anamorphic`.

    The focal length tag is matched against the regular expression
    `(\d+)\.\d+ mm` with `re.match`, which anchors at the start of the string
    only.  Here that match is a small recursive-descent parser over ASCII
    digits; `FocalPattern` is the independent, declarative reading of the same
    regular expression, and the parser is proved to agree with it in both
    directions. */
module Classifier {
  import opened Base

  /** The nominal focal lengths, in millimetres, that pair with the adapter. */
  const Candidates: set<nat> := {0, 24, 50}

  /** The focal length written back when the recorded one is 0; note that it
      does not itself have the `<digits>.<digits> mm` shape. */
  const DefaultFocalLength: string := "35.0A mm"

  predicate IsDigit(c: char) {
    '0' <= c <= '9'
  }

  predicate AllDigits(s: string) {
    forall i :: 0 <= i < |s| ==> IsDigit(s[i])
  }

  /** The length of the longest prefix of `s` made of ASCII digits. */
  function DigitRun(s: string): (n: nat)
    ensures n <= |s|
    ensures AllDigits(s[..n])
    ensures n == |s| || !IsDigit(s[n])
  {
    if |s| > 0 && IsDigit(s[0]) then
      var n := 1 + DigitRun(s[1..]);
      assert s[..n] == [s[0]] + s[1..][..n - 1];
      n
    else 0
  }

  /** The value of a string of decimal digits, as Python's `int` reads it
      (leading zeros allowed). */
  function DecimalValue(ds: string): nat
    requires AllDigits(ds)
  {
    if ds == [] then 0
    else 10 * DecimalValue(ds[..|ds| - 1]) + (ds[|ds| - 1] as int - '0' as int)
  }

  /** The shape `re.match(r"(\d+)\.\d+ mm", s)` accepts: a non-empty run of
      digits (the group), a dot, a non-empty run of digits, " mm", and then
      anything at all. */
  ghost predicate FocalPattern(s: string, whole: string, fraction: string, tail: string) {
    s == whole + "." + fraction + " mm" + tail
    && |whole| > 0 && AllDigits(whole)
    && |fraction| > 0 && AllDigits(fraction)
  }

  /** After the dot: a non-empty run of digits followed by " mm". */
  predicate FractionAndUnit(rest: string) {
    var j := DigitRun(rest);
    j > 0 && |rest| - j >= 3 && rest[j..j + 3] == " mm"
  }

  /** Recursive descent for `(\d+)\.\d+ mm`; the result is the integer value
      of the group, or None when the match fails. */
  function ParseFocalLength(s: string): (r: Option<nat>)
    ensures r.Some? ==> |s| >= 6 && IsDigit(s[0])
  {
    var i := DigitRun(s);
    if i == 0 || i == |s| || s[i] != '.' || !FractionAndUnit(s[i + 1..]) then None
    else Some(DecimalValue(s[..i]))
  }

  /** The digit run of `digits + rest` is exactly `digits` when `rest` does
      not start with a digit. */
  lemma {:induction false} DigitRunOfConcat(digits: string, rest: string)
    requires AllDigits(digits)
    requires rest == [] || !IsDigit(rest[0])
    ensures DigitRun(digits + rest) == |digits|
  {
    if digits != [] {
      assert (digits + rest)[1..] == digits[1..] + rest;
      DigitRunOfConcat(digits[1..], rest);
    }
  }

  /** Whatever the parser accepts has the regular expression's shape, and the
      value it returns is that of the captured group. */
  lemma ParseFocalLengthSound(s: string)
    requires ParseFocalLength(s).Some?
    ensures exists whole, fraction, tail ::
      FocalPattern(s, whole, fraction, tail) && ParseFocalLength(s).value == DecimalValue(whole)
  {
    var i := DigitRun(s);
    var rest := s[i + 1..];
    var j := DigitRun(rest);
    var whole, fraction, tail := s[..i], rest[..j], rest[j + 3..];
    assert rest == fraction + " mm" + tail;
    assert s == whole + "." + rest;
    assert FocalPattern(s, whole, fraction, tail);
  }

  /** The part after the dot: the fraction's digits, then " mm". */
  lemma FractionThenUnit(fraction: string, tail: string)
    requires |fraction| > 0 && AllDigits(fraction)
    ensures FractionAndUnit(fraction + " mm" + tail)
  {
    var rest := fraction + " mm" + tail;
    assert rest == fraction + (" mm" + tail);
    DigitRunOfConcat(fraction, " mm" + tail);
    assert rest[|fraction|..|fraction| + 3] == " mm";
  }

  /** The five parts of the pattern, grouped after the first. */
  lemma Regroup(whole: string, fraction: string, tail: string)
    ensures whole + "." + fraction + " mm" + tail == whole + ("." + (fraction + " mm" + tail))
  {
  }

  /** Every string of the regular expression's shape is accepted, whatever
      follows " mm", and the group's value is returned. */
  lemma ParseFocalLengthComplete(s: string, whole: string, fraction: string, tail: string)
    requires FocalPattern(s, whole, fraction, tail)
    ensures ParseFocalLength(s) == Some(DecimalValue(whole))
  {
    var rest := fraction + " mm" + tail;
    var i := |whole|;
    Regroup(whole, fraction, tail);
    DigitRunOfConcat(whole, "." + rest);
    assert s[..i] == whole;
    assert s[i + 1..] == rest;
    FractionThenUnit(fraction, tail);
  }

  /** The parser matches exactly the strings of the regular expression's shape. */
  lemma ParseFocalLengthMatchesPattern(s: string)
    ensures ParseFocalLength(s).Some? <==> exists whole, fraction, tail :: FocalPattern(s, whole, fraction, tail)
  {
    if ParseFocalLength(s).Some? {
      ParseFocalLengthSound(s);
    }
    if exists whole, fraction, tail :: FocalPattern(s, whole, fraction, tail) {
      var whole, fraction, tail :| FocalPattern(s, whole, fraction, tail);
      ParseFocalLengthComplete(s, whole, fraction, tail);
    }
  }

  /** `FNumber in ["undef", 0]`: the aperture was not recorded. */
  predicate ApertureUnrecorded(v: TagValue) {
    v == Text("undef") || v == Number(0.0)
  }

  /** `Daemon.is_anamorphic` over the metadata record.  Python looks the keys
      up lazily: `FocalLength` always, `FNumber` only when the focal length
      parsed and is a candidate (the `and` short-circuits), so a missing key
      or a non-string focal length raises only on those paths. */
  function Classify(m: Metadata): (r: Result<bool, Fault>)
    ensures r.Err? <==>
      "FocalLength" !in m || !m["FocalLength"].Text?
      || (ParseFocalLength(m["FocalLength"].text).Some?
          && ParseFocalLength(m["FocalLength"].text).value in Candidates
          && "FNumber" !in m)
  {
    if "FocalLength" !in m then Err(MissingKey("FocalLength"))
    else match m["FocalLength"]
      case Number(_) => Err(NotAString("FocalLength"))
      case Text(s) =>
        match ParseFocalLength(s)
        case None => Ok(false)
        case Some(focal) =>
          if focal !in Candidates then Ok(false)
          else if "FNumber" !in m then Err(MissingKey("FNumber"))
          else Ok(ApertureUnrecorded(m["FNumber"]))
  }

  /** A focal length string without the `<digits>.<digits> mm` prefix makes the
      file non-anamorphic without raising, whatever else the record holds. */
  lemma ClassifyFailsOpen(m: Metadata)
    requires "FocalLength" in m && m["FocalLength"].Text?
    requires forall whole, fraction, tail :: !FocalPattern(m["FocalLength"].text, whole, fraction, tail)
    ensures Classify(m) == Ok(false)
  {
    ParseFocalLengthMatchesPattern(m["FocalLength"].text);
  }

  /** A file is anamorphic exactly when its focal length has the expected
      shape, its integer part is 0, 24 or 50 mm, and its aperture is
      `"undef"` or 0. */
  lemma ClassifyAnamorphicIff(m: Metadata)
    ensures Classify(m) == Ok(true) <==>
      "FocalLength" in m && m["FocalLength"].Text? && "FNumber" in m
      && ApertureUnrecorded(m["FNumber"])
      && exists whole, fraction, tail ::
           FocalPattern(m["FocalLength"].text, whole, fraction, tail) && DecimalValue(whole) in Candidates
  {
    if "FocalLength" in m && m["FocalLength"].Text? {
      var s := m["FocalLength"].text;
      if ParseFocalLength(s).Some? {
        ParseFocalLengthSound(s);
      }
      if exists whole, fraction, tail :: FocalPattern(s, whole, fraction, tail) && DecimalValue(whole) in Candidates {
        var whole, fraction, tail :| FocalPattern(s, whole, fraction, tail) && DecimalValue(whole) in Candidates;
        ParseFocalLengthComplete(s, whole, fraction, tail);
      }
    }
  }

  /** The default focal length "35.0A mm" does not have the pattern's shape:
      a letter stands between the digits and " mm". */
  lemma DefaultFocalLengthUnparsed()
    ensures ParseFocalLength(DefaultFocalLength) == None
  {
    var s := DefaultFocalLength;
    assert s == "35" + ".0A mm";
    DigitRunOfConcat("35", ".0A mm");
    var rest := s[3..];
    assert rest == "0" + "A mm";
    DigitRunOfConcat("0", "A mm");
    assert rest[1..4] != " mm" by { assert rest[1] == 'A'; }
  }

  /** Text that is not a focal length at all is rejected. */
  lemma GarbageUnparsed()
    ensures ParseFocalLength("garbage") == None
  {
    assert !IsDigit("garbage"[0]);
  }

  /** "24.0 mm", as the camera writes a 24 mm lens, is accepted. */
  lemma Parses24()
    ensures ParseFocalLength("24.0 mm") == Some(24)
  {
    assert DecimalValue("24") == 24 by { assert "24"[..1] == "2"; }
    ParseFocalLengthComplete("24.0 mm", "24", "0", "");
  }

  /** "0.0 mm", a lens without contacts, is accepted. */
  lemma Parses0()
    ensures ParseFocalLength("0.0 mm") == Some(0)
  {
    ParseFocalLengthComplete("0.0 mm", "0", "0", "");
  }

  /** "35.0 mm" is accepted, with a value outside the candidates. */
  lemma Parses35()
    ensures ParseFocalLength("35.0 mm") == Some(35)
  {
    assert DecimalValue("35") == 35 by { assert "35"[..1] == "3"; }
    ParseFocalLengthComplete("35.0 mm", "35", "0", "");
  }

  /** Text after " mm" is ignored, since the match is anchored at the start
      only. */
  lemma ParsesWithTrailingText()
    ensures ParseFocalLength("50.0 mm ND") == Some(50)
  {
    assert DecimalValue("50") == 50 by { assert "50"[..1] == "5"; }
    assert "50.0 mm ND" == "50" + "." + "0" + " mm" + " ND";
    ParseFocalLengthComplete("50.0 mm ND", "50", "0", " ND");
  }

  /** Not even a word boundary is needed after "mm". */
  lemma ParsesWithoutWordBoundary()
    ensures ParseFocalLength("50.0 mmm") == Some(50)
  {
    assert DecimalValue("50") == 50 by { assert "50"[..1] == "5"; }
    assert "50.0 mmm" == "50" + "." + "0" + " mm" + "m";
    ParseFocalLengthComplete("50.0 mmm", "50", "0", "m");
  }

  /** Leading zeros are read as Python's `int` reads them. */
  lemma ParsesLeadingZero()
    ensures ParseFocalLength("024.5 mm") == Some(24)
  {
    assert DecimalValue("024") == 24 by {
      assert "024"[..2] == "02";
      assert "02"[..1] == "0";
    }
    ParseFocalLengthComplete("024.5 mm", "024", "5", "");
  }

  /** A 24 mm focal length with an "undef" aperture is anamorphic. */
  lemma ClassifiesUndefApertureAnamorphic()
    ensures Classify(map["FocalLength" := Text("24.0 mm"), "FNumber" := Text("undef")]) == Ok(true)
  {
    var m := map["FocalLength" := Text("24.0 mm"), "FNumber" := Text("undef")];
    assert m["FocalLength"] == Text("24.0 mm") && "FNumber" in m && m["FNumber"] == Text("undef");
    Parses24();
  }

  /** A 0 mm focal length with an aperture of 0 is anamorphic. */
  lemma ClassifiesZeroApertureAnamorphic()
    ensures Classify(map["FocalLength" := Text("0.0 mm"), "FNumber" := Number(0.0)]) == Ok(true)
  {
    var m := map["FocalLength" := Text("0.0 mm"), "FNumber" := Number(0.0)];
    assert m["FocalLength"] == Text("0.0 mm") && "FNumber" in m && m["FNumber"] == Number(0.0);
    Parses0();
  }

  /** A candidate focal length with a recorded aperture (f/2.8) is a real
      prime lens, not the adapter. */
  lemma ClassifiesRecordedApertureNotAnamorphic()
    ensures Classify(map["FocalLength" := Text("24.0 mm"), "FNumber" := Number(2.8)]) == Ok(false)
  {
    var m := map["FocalLength" := Text("24.0 mm"), "FNumber" := Number(2.8)];
    assert m["FocalLength"] == Text("24.0 mm") && "FNumber" in m && m["FNumber"] == Number(2.8);
    Parses24();
  }

  /** A 35 mm focal length is never anamorphic, whatever the aperture, and
      the short-circuiting `and` means a missing aperture raises nothing. */
  lemma ClassifiesNonCandidateNotAnamorphic(fnumber: TagValue)
    ensures Classify(map["FocalLength" := Text("35.0 mm"), "FNumber" := fnumber]) == Ok(false)
    ensures Classify(map["FocalLength" := Text("35.0 mm")]) == Ok(false)
  {
    var m := map["FocalLength" := Text("35.0 mm"), "FNumber" := fnumber];
    assert m["FocalLength"] == Text("35.0 mm");
    Parses35();
  }

  /** Unparseable focal lengths, the default one included, are never anamorphic. */
  lemma ClassifyUnparsedExamples(fnumber: TagValue)
    ensures Classify(map["FocalLength" := Text("garbage"), "FNumber" := fnumber]) == Ok(false)
    ensures Classify(map["FocalLength" := Text(DefaultFocalLength), "FNumber" := fnumber]) == Ok(false)
  {
    GarbageUnparsed();
    DefaultFocalLengthUnparsed();
  }
}
