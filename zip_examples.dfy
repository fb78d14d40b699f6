/**
 * The zips and masks of the engine's behaviour specification, cleared,
 * validated and formatted. Each example is cut into short pieces: what
 * clearing or formatting does to each piece is computed on its own, and the
 * general lemmas of the normaliser and the formatter put the pieces together.
 */
module ZipExamples {
  import opened Wrappers
  import opened ZipNormalizer
  import opened ZipFormatter

  /** Clearing three pieces in a row is clearing each of them. */
  lemma ClearThreePieces(s: string, a: string, b: string, c: string, ca: string, cb: string, cc: string)
    requires s == a + b + c
    requires ClearZip(a) == ca && ClearZip(b) == cb && ClearZip(c) == cc
    ensures ClearZip(s) == ca + cb + cc
  {
    ClearZipAppend(a + b, c);
    ClearZipAppend(a, b);
  }

  /** Formatting with a mask cut in two is formatting with the first part, then the rest of the zip with the second. */
  lemma FormatTwoPieces(zip: string, mask: string, m1: string, m2: string, rest: string, r1: string, r2: string)
    requires mask == m1 + m2 && Nines(m1) <= |zip| && zip[Nines(m1)..] == rest
    requires Formatted(zip, m1) == r1 && Formatted(rest, m2) == r2
    ensures Formatted(zip, mask) == r1 + r2
  {
    FormattedAppend(zip, m1, m2);
  }

  lemma ClearPiece1()
    ensures ClearZip("20.2") == "202"
  {
  }

  lemma ClearPiece2()
    ensures ClearZip("50-0") == "500"
  {
  }

  lemma ClearPiece3()
    ensures ClearZip("30") == "30"
  {
  }

  lemma ClearsSeparatorsSplit()
    ensures "20.2" + "50-0" + "30" == "20.250-030"
    ensures "202" + "500" + "30" == "20250030"
  {
  }

  lemma ClearsSeparators()
    ensures ClearZip("20.250-030") == "20250030"
  {
    ClearsSeparatorsSplit();
    ClearPiece1();
    ClearPiece2();
    ClearPiece3();
    ClearThreePieces("20.250-030", "20.2", "50-0", "30", "202", "500", "30");
  }

  lemma ClearPiece4()
    ensures ClearZip("2.0.2") == "202"
  {
  }

  lemma ClearPiece5()
    ensures ClearZip(".5.0-") == "50"
  {
  }

  lemma ClearPiece6()
    ensures ClearZip("0.3.0") == "030"
  {
  }

  lemma ClearsDottedSplit()
    ensures "2.0.2" + ".5.0-" + "0.3.0" == "2.0.2.5.0-0.3.0"
    ensures "202" + "50" + "030" == "20250030"
  {
  }

  /** `clearZip` drops every separator and keeps the digits in order. */
  lemma ClearsDotted()
    ensures ClearZip("2.0.2.5.0-0.3.0") == "20250030"
  {
    ClearsDottedSplit();
    ClearPiece4();
    ClearPiece5();
    ClearPiece6();
    ClearThreePieces("2.0.2.5.0-0.3.0", "2.0.2", ".5.0-", "0.3.0", "202", "50", "030");
  }

  lemma ClearPiece7()
    ensures ClearZip("202") == "202"
  {
  }

  lemma ClearPiece8()
    ensures ClearZip("500") == "500"
  {
  }

  lemma ClearsCleanSplit()
    ensures "202" + "500" + "30" == "20250030"
  {
  }

  lemma ClearsClean()
    ensures ClearZip("20250030") == "20250030"
  {
    ClearsCleanSplit();
    ClearPiece7();
    ClearPiece8();
    ClearPiece3();
    ClearThreePieces("20250030", "202", "500", "30", "202", "500", "30");
  }

  lemma ClearPiece9()
    ensures ClearZip("20.1") == "201"
  {
  }

  lemma ClearPiece10()
    ensures ClearZip("23-4") == "234"
  {
  }

  lemma ClearPiece11()
    ensures ClearZip("56") == "56"
  {
  }

  lemma ClearsSetZipInputSplit()
    ensures "20.1" + "23-4" + "56" == "20.123-456"
    ensures "201" + "234" + "56" == "20123456"
  {
  }

  lemma ClearsSetZipInput()
    ensures ClearZip("20.123-456") == "20123456"
  {
    ClearsSetZipInputSplit();
    ClearPiece9();
    ClearPiece10();
    ClearPiece11();
    ClearThreePieces("20.123-456", "20.1", "23-4", "56", "201", "234", "56");
  }

  lemma ClearsGatherInputSplit()
    ensures "202" + "50-0" + "30" == "20250-030"
    ensures "202" + "500" + "30" == "20250030"
  {
  }

  lemma ClearsGatherInput()
    ensures ClearZip("20250-030") == "20250030"
  {
    ClearsGatherInputSplit();
    ClearPiece7();
    ClearPiece2();
    ClearPiece3();
    ClearThreePieces("20250-030", "202", "50-0", "30", "202", "500", "30");
  }

  /** validateZip accepts the eight-character zip with or without separators. */
  lemma ValidZips()
    ensures ValidateZip("20.250-030", 8) == Ok("20250030")
    ensures ValidateZip("2.0.2.5.0-0.3.0", 8) == Ok("20250030")
    ensures ValidateZip("20250030", 8) == Ok("20250030")
  {
    ClearsSeparators();
    ClearsDotted();
    ClearsClean();
  }

  lemma ClearPiece12()
    ensures ClearZip("2025") == "2025"
  {
  }

  lemma ClearPiece13()
    ensures ClearZip("0033") == "0033"
  {
  }

  lemma ClearPiece14()
    ensures ClearZip("33") == "33"
  {
  }

  lemma ClearsLongZipSplit()
    ensures "2025" + "0033" + "33" == "2025003333"
  {
  }

  lemma ClearsLongZip()
    ensures ClearZip("2025003333") == "2025003333"
  {
    ClearsLongZipSplit();
    ClearPiece12();
    ClearPiece13();
    ClearPiece14();
    ClearThreePieces("2025003333", "2025", "0033", "33", "2025", "0033", "33");
  }

  /** validateZip refuses zips that clear to the wrong length. */
  lemma InvalidZips()
    ensures ValidateZip("2", 8) == Err(InvalidZipCode)
    ensures ValidateZip("a", 8) == Err(InvalidZipCode)
    ensures ValidateZip("2025003333", 8) == Err(InvalidZipCode)
  {
    assert ClearZip("2") == "2" && ClearZip("a") == "a";
    ClearsLongZip();
  }

  lemma FormatPiece1()
    ensures Formatted("20250030", "999") == "202"
  {
  }

  lemma FormatPiece2()
    ensures Formatted("50030", "99-") == "50-"
  {
  }

  lemma FormatPiece3()
    ensures Formatted("030", "999") == "030"
  {
  }

  lemma FormatStep1Split()
    ensures "99-" + "999" == "99-999"
    ensures Nines("99-") == 2 && "50030"[2..] == "030"
    ensures "50-" + "030" == "50-030"
  {
  }

  lemma FormatStep1()
    ensures Formatted("50030", "99-999") == "50-030"
  {
    FormatStep1Split();
    FormatPiece2();
    FormatPiece3();
    FormatTwoPieces("50030", "99-999", "99-", "999", "030", "50-", "030");
  }

  lemma FormatWithDashSplit()
    ensures "999" + "99-999" == "99999-999"
    ensures Nines("999") == 3 && "20250030"[3..] == "50030"
    ensures "202" + "50-030" == "20250-030"
  {
  }

  lemma FormatWithDash()
    ensures Formatted("20250030", "99999-999") == "20250-030"
  {
    FormatWithDashSplit();
    FormatPiece1();
    FormatStep1();
    FormatTwoPieces("20250030", "99999-999", "999", "99-999", "50030", "202", "50-030");
  }

  lemma FormatPiece4()
    ensures Formatted("50030", "99") == "50"
  {
  }

  lemma FormatStep2Split()
    ensures "99" + "999" == "99999"
    ensures Nines("99") == 2 && "50030"[2..] == "030"
    ensures "50" + "030" == "50030"
  {
  }

  lemma FormatStep2()
    ensures Formatted("50030", "99999") == "50030"
  {
    FormatStep2Split();
    FormatPiece4();
    FormatPiece3();
    FormatTwoPieces("50030", "99999", "99", "999", "030", "50", "030");
  }

  lemma FormatAllPlaceholdersSplit()
    ensures "999" + "99999" == "99999999"
    ensures Nines("999") == 3 && "20250030"[3..] == "50030"
    ensures "202" + "50030" == "20250030"
  {
  }

  lemma FormatAllPlaceholders()
    ensures Formatted("20250030", "99999999") == "20250030"
  {
    FormatAllPlaceholdersSplit();
    FormatPiece1();
    FormatStep2();
    FormatTwoPieces("20250030", "99999999", "999", "99999", "50030", "202", "50030");
  }

  lemma FormatPiece5()
    ensures Formatted("99750", "999") == "997"
  {
  }

  lemma FormatPiece6()
    ensures Formatted("50", "99") == "50"
  {
  }

  lemma FormatPiece7()
    ensures Formatted("", "999") == ""
  {
  }

  lemma FormatStep3Split()
    ensures "99" + "999" == "99999"
    ensures Nines("99") == 2 && "50"[2..] == ""
    ensures "50" + "" == "50"
  {
  }

  lemma FormatStep3()
    ensures Formatted("50", "99999") == "50"
  {
    FormatStep3Split();
    FormatPiece6();
    FormatPiece7();
    FormatTwoPieces("50", "99999", "99", "999", "", "50", "");
  }

  lemma FormatShortZipSplit()
    ensures "999" + "99999" == "99999999"
    ensures Nines("999") == 3 && "99750"[3..] == "50"
    ensures "997" + "50" == "99750"
  {
  }

  /** A zip shorter than the mask stops the output at the first unfilled placeholder. */
  lemma FormatShortZip()
    ensures Formatted("99750", "99999999") == "99750"
  {
    FormatShortZipSplit();
    FormatPiece5();
    FormatStep3();
    FormatTwoPieces("99750", "99999999", "999", "99999", "50", "997", "50");
  }

  lemma FormatPiece8()
    ensures Formatted("99750", "99.") == "99."
  {
  }

  lemma FormatPiece9()
    ensures Formatted("750", "999") == "750"
  {
  }

  lemma FormatWithDotSplit()
    ensures "99." + "999" == "99.999"
    ensures Nines("99.") == 2 && "99750"[2..] == "750"
    ensures "99." + "750" == "99.750"
  {
  }

  lemma FormatWithDot()
    ensures Formatted("99750", "99.999") == "99.750"
  {
    FormatWithDotSplit();
    FormatPiece8();
    FormatPiece9();
    FormatTwoPieces("99750", "99.999", "99.", "999", "750", "99.", "750");
  }

  lemma FormatPiece10()
    ensures Formatted("A1A1A1", "999 ") == "A1A "
  {
  }

  lemma FormatPiece11()
    ensures Formatted("1A1", "999") == "1A1"
  {
  }

  lemma FormatLettersSplit()
    ensures "999 " + "999" == "999 999"
    ensures Nines("999 ") == 3 && "A1A1A1"[3..] == "1A1"
    ensures "A1A " + "1A1" == "A1A 1A1"
  {
  }

  /** Placeholders take letters as well as digits. */
  lemma FormatLetters()
    ensures Formatted("A1A1A1", "999 999") == "A1A 1A1"
  {
    FormatLettersSplit();
    FormatPiece10();
    FormatPiece11();
    FormatTwoPieces("A1A1A1", "999 999", "999 ", "999", "1A1", "A1A ", "1A1");
  }

  lemma FormatPiece12()
    ensures Formatted("123456", "9.9\\") == "1.2\\"
  {
  }

  lemma FormatPiece13()
    ensures Formatted("3456", "9/9-") == "3/4-"
  {
  }

  lemma FormatPiece14()
    ensures Formatted("56", "9#9") == "5#6"
  {
  }

  lemma FormatStep4Split()
    ensures "9/9-" + "9#9" == "9/9-9#9"
    ensures Nines("9/9-") == 2 && "3456"[2..] == "56"
    ensures "3/4-" + "5#6" == "3/4-5#6"
  {
  }

  lemma FormatStep4()
    ensures Formatted("3456", "9/9-9#9") == "3/4-5#6"
  {
    FormatStep4Split();
    FormatPiece13();
    FormatPiece14();
    FormatTwoPieces("3456", "9/9-9#9", "9/9-", "9#9", "56", "3/4-", "5#6");
  }

  lemma FormatBackslashLiteralSplit()
    ensures "9.9\\" + "9/9-9#9" == "9.9\\9/9-9#9"
    ensures Nines("9.9\\") == 2 && "123456"[2..] == "3456"
    ensures "1.2\\" + "3/4-5#6" == "1.2\\3/4-5#6"
  {
  }

  /** A backslash in the mask is an ordinary literal. */
  lemma FormatBackslashLiteral()
    ensures Formatted("123456", "9.9\\9/9-9#9") == "1.2\\3/4-5#6"
  {
    FormatBackslashLiteralSplit();
    FormatPiece12();
    FormatStep4();
    FormatTwoPieces("123456", "9.9\\9/9-9#9", "9.9\\", "9/9-9#9", "3456", "1.2\\", "3/4-5#6");
  }
}
