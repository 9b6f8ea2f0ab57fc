/**
 * Worked values of `TotalSummarizer._parse_date`: a Spanish abbreviation
 * with a doubled space, an unknown month name, and the "Unknown" default.
 */
module DateExamples {
  import opened Wrappers
  import opened Errors
  import opened PyStr
  import opened Dates

  lemma Year2024Digits()
    ensures NatToString(2024) == "2024"
  {
    assert NatToString(2) == "2";
    assert NatToString(20) == "20";
    assert NatToString(202) == "202";
  }

  lemma January2Digits()
    ensures PadNat(1, 2) == "01"
  {
    assert NatToString(1) == "1";
    assert Zeros(1) == "0";
  }

  /** `strftime("%Y-%m")` of January 2024. */
  lemma JanuaryKey()
    ensures MonthKeyOf(2024, 1) == "2024-01"
  {
    Year2024Digits();
    January2Digits();
  }

  lemma SpanishAroundEne()
    ensures "15/" + ("ene" + "/24  10:30 AM") == "15/ene/24  10:30 AM"
  {
    assert "ene" + "/24  10:30 AM" == "ene/24  10:30 AM";
  }

  lemma SpanishAroundJan()
    ensures "15/" + ("Jan" + "/24  10:30 AM") == "15/Jan/24  10:30 AM"
  {
    assert "Jan" + "/24  10:30 AM" == "Jan/24  10:30 AM";
  }

  lemma SpanishTranslated()
    ensures TranslateMonth("15/ene/24  10:30 AM") == "15/Jan/24  10:30 AM"
  {
    assert 'e' !in "15/" && 'e' !in "/24  10:30 AM";
    SpanishAroundEne();
    SpanishAroundJan();
    TranslateEne("15/", "/24  10:30 AM");
  }

  lemma SpanishWithDoubleSpace()
    ensures "15/Jan/24" + ("  " + ("10:30" + (" " + "AM"))) == "15/Jan/24  10:30 AM"
  {
    assert "10:30" + (" " + "AM") == "10:30 AM";
    assert "  " + "10:30 AM" == "  10:30 AM";
  }

  lemma SpanishWithSingleSpace()
    ensures "15/Jan/24" + (" " + ("10:30" + (" " + "AM"))) == "15/Jan/24 10:30 AM"
  {
    assert "10:30" + (" " + "AM") == "10:30 AM";
    assert " " + "10:30 AM" == " 10:30 AM";
  }

  lemma SpanishCollapsed()
    ensures Collapse("15/Jan/24  10:30 AM") == "15/Jan/24 10:30 AM"
  {
    assert IsWord("15/Jan/24") && IsWord("10:30") && IsWord("AM");
    CollapseThree("15/Jan/24", "  ", "10:30", " ", "AM");
    SpanishWithDoubleSpace();
    SpanishWithSingleSpace();
  }

  lemma SpanishParsed()
    ensures ParseStamp("15/Jan/24 10:30 AM") == Some(Stamp(2024, 1, 15, 10, 30))
  {
    var f := Fields("15", "Jan", "24", "10", "30", "AM");
    assert StampText(f) == "15/Jan/24 10:30 AM";
    assert Lower("Jan") == "jan";
    assert Lower("AM") == "am";
    assert Pivot("24") == 2024;
    assert DigitsValue("15") == 15 && DigitsValue("10") == 10 && DigitsValue("30") == 30;
    assert Hour24(10, false) == 10;
    ParseStampComplete(f, 1);
  }

  lemma SpanishNormal()
    ensures Normalize("15/ene/24  10:30 AM") == "15/Jan/24 10:30 AM"
  {
    StripNoop("15/ene/24  10:30 AM", IsSpace);
    SpanishTranslated();
    SpanishCollapsed();
  }

  /** A Spanish month and a doubled space: "15/ene/24  10:30 AM" is January 2024. */
  lemma SpanishExample()
    ensures MonthKey("15/ene/24  10:30 AM") == Success("2024-01")
  {
    SpanishNormal();
    SpanishParsed();
    JanuaryKey();
  }

  lemma UnknownMonthParse()
    ensures ParseStamp("01/xyz/24 01:00 PM") == None
  {
    var f := Fields("01", "xyz", "24", "01", "00", "PM");
    assert StampText(f) == "01/xyz/24 01:00 PM";
    assert Lower("xyz") == "xyz";
    UnknownMonthFails(f);
  }

  lemma UnknownMonthLettersEfm()
    ensures 'e' !in "01/xyz/24 01:00 PM" && 'f' !in "01/xyz/24 01:00 PM" && 'm' !in "01/xyz/24 01:00 PM"
  {
  }

  lemma UnknownMonthLettersAjs()
    ensures 'a' !in "01/xyz/24 01:00 PM" && 'j' !in "01/xyz/24 01:00 PM" && 's' !in "01/xyz/24 01:00 PM"
  {
  }

  lemma UnknownMonthLettersCvd()
    ensures 'c' !in "01/xyz/24 01:00 PM" && 'v' !in "01/xyz/24 01:00 PM" && 'd' !in "01/xyz/24 01:00 PM"
  {
  }

  lemma UnknownMonthUntranslated()
    ensures TranslateMonth("01/xyz/24 01:00 PM") == "01/xyz/24 01:00 PM"
  {
    UnknownMonthLettersEfm();
    UnknownMonthLettersAjs();
    UnknownMonthLettersCvd();
    NoSpanishMonth("01/xyz/24 01:00 PM");
  }

  lemma UnknownMonthWords()
    ensures "01/xyz/24" + (" " + ("01:00" + (" " + "PM"))) == "01/xyz/24 01:00 PM"
  {
    assert "01:00" + (" " + "PM") == "01:00 PM";
    assert " " + "01:00 PM" == " 01:00 PM";
  }

  lemma UnknownMonthCollapsed()
    ensures Collapse("01/xyz/24 01:00 PM") == "01/xyz/24 01:00 PM"
  {
    assert IsWord("01/xyz/24") && IsWord("01:00") && IsWord("PM");
    CollapseThree("01/xyz/24", " ", "01:00", " ", "PM");
    UnknownMonthWords();
  }

  lemma UnknownMonthNormal()
    ensures Normalize("01/xyz/24 01:00 PM") == "01/xyz/24 01:00 PM"
  {
    StripNoop("01/xyz/24 01:00 PM", IsSpace);
    UnknownMonthUntranslated();
    UnknownMonthCollapsed();
  }

  /** An unknown month name fails, quoting the normalised string. */
  lemma UnknownMonthExample()
    ensures MonthKey("01/xyz/24 01:00 PM") == Failure(DateParseError("01/xyz/24 01:00 PM"))
  {
    UnknownMonthNormal();
    UnknownMonthParse();
  }

  lemma UnknownUntranslated()
    ensures TranslateMonth("Unknown") == "Unknown"
  {
    NoSpanishMonth("Unknown");
  }

  lemma UnknownCollapsed()
    ensures Collapse("Unknown") == "Unknown"
  {
    assert IsWord("Unknown");
    WordsFirst("Unknown", []);
    assert "Unknown" + [] == "Unknown";
    assert Words([]) == [];
  }

  lemma UnknownNormal()
    ensures Normalize("Unknown") == "Unknown"
  {
    StripNoop("Unknown", IsSpace);
    UnknownUntranslated();
    UnknownCollapsed();
  }

  lemma UnknownParse()
    ensures ParseStamp("Unknown") == None
  {
    assert '/' !in "Unknown";
    NoSlashFails("Unknown");
  }

  /** The default of a missing `changed` field, "Unknown", fails. */
  lemma UnknownDateExample()
    ensures MonthKey("Unknown") == Failure(DateParseError("Unknown"))
  {
    UnknownNormal();
    UnknownParse();
  }
}
