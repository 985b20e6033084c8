/** The three spellings of an HTTP-date (section 7.1.1.1 of RFC 7231) denote the same date to the parser. */
module DateSpellings {
  import opened Common
  import opened Decimal
  import opened DateTime
  import opened DateRoundTrip

  /** Two digits, with a leading zero if need be. */
  function Pad2(n: nat): string {
    if n < 10 then "0" + NatToString(n) else NatToString(n)
  }

  function YearOf(t: Tm): int {
    t.year + 1900
  }

  /** A date with a day of the month, a time of day and a year the parser does not take for a short one. */
  predicate IsDate(t: Tm) {
    && 0 <= t.wday <= 6 && 1 <= t.mday <= 31 && 0 <= t.mon <= 11
    && 0 <= t.hour <= 23 && 0 <= t.min <= 59 && 0 <= t.sec <= 59
    && 100 <= YearOf(t) <= 2147483647
  }

  /** Sun, 06 Nov 1994 08:49:37 GMT */
  function ImfFixdate(t: Tm): string
    requires IsDate(t)
  {
    SHORT_DAYS[t.wday] + ", " + Pad2(t.mday) + " " + MONTHS[t.mon] + " " + NatToString(YearOf(t)) + " "
    + Pad2(t.hour) + ":" + Pad2(t.min) + ":" + Pad2(t.sec) + " GMT"
  }

  /** Sunday, 06-Nov-94 08:49:37 GMT */
  function Rfc850(t: Tm): string
    requires IsDate(t)
  {
    LONG_DAYS[t.wday] + ", " + Pad2(t.mday) + "-" + MONTHS[t.mon] + "-" + Pad2(YearOf(t) % 100) + " "
    + Pad2(t.hour) + ":" + Pad2(t.min) + ":" + Pad2(t.sec) + " GMT"
  }

  /** Sun Nov  6 08:49:37 1994 */
  function Asctime(t: Tm): string
    requires IsDate(t)
  {
    SHORT_DAYS[t.wday] + " " + MONTHS[t.mon] + DaySpace(t) + NatToString(t.mday) + " "
    + Pad2(t.hour) + ":" + Pad2(t.min) + ":" + Pad2(t.sec) + " " + NatToString(YearOf(t))
  }

  function DaySpace(t: Tm): string {
    if t.mday < 10 then "  " else " "
  }

  // ----- words -----

  lemma Pad2Is(n: nat)
    requires n < 100
    ensures AllDigits(Pad2(n)) && Pad2(n) != "" && |Pad2(n)| == 2
    ensures Stoi(Pad2(n)) == Some(n)
  {
    var s := Pad2(n);
    ValueOfPrinted(n);
    if n < 10 {
      assert NatToString(n) == [DigitChar(n)];
      assert s == ['0', DigitChar(n)];
      assert s[..1] == "0" && "0"[..0] == "";
      assert Value("0") == 0;
      assert Value(s) == n;
    } else {
      assert NatToString(n) == NatToString(n / 10) + [DigitChar(n % 10)];
      assert NatToString(n / 10) == [DigitChar(n / 10)];
    }
    StoiOfDigits(s);
  }

  lemma Pad2Word(n: nat)
    requires n < 100
    ensures IsWord(Pad2(n)) && Pad2(n) !in MONTHS && Stoi(Pad2(n)) == Some(n)
  {
    Pad2Is(n);
    DigitsWord(Pad2(n));
  }

  lemma NatWord(n: nat)
    requires n <= INT_MAX
    ensures IsWord(NatToString(n)) && NatToString(n) !in MONTHS && Stoi(NatToString(n)) == Some(n)
  {
    DigitsWord(NatToString(n));
    StoiOfPrinted(n);
  }

  /** `ws` are the words of a date in field order `k`: names for the day of the week and the month, and
      digits for the rest. */
  ghost predicate Spells(k: nat, ws: seq<string>, t: Tm)
    requires |ws| >= 7
  {
    && 0 <= t.wday <= 6 && 0 <= t.mon <= 11
    && (ws[Place(k, DayOfWeek)] == SHORT_DAYS[t.wday] || ws[Place(k, DayOfWeek)] == LONG_DAYS[t.wday])
    && ws[Place(k, Month)] == MONTHS[t.mon]
    && Stoi(ws[Place(k, Day)]) == Some(t.mday)
    && (Stoi(ws[Place(k, Year)]) == Some(YearOf(t)) || Stoi(ws[Place(k, Year)]) == Some(YearOf(t) - 2000))
    && Stoi(ws[Place(k, Hour)]) == Some(t.hour) && Stoi(ws[Place(k, Minute)]) == Some(t.min)
    && Stoi(ws[Place(k, Second)]) == Some(t.sec)
  }

  lemma SpelledFits(k: nat, ws: seq<string>, t: Tm, c: TimeChunk)
    requires k < 2 && |ws| >= 7 && IsDate(t) && Spells(k, ws, t)
    requires Stoi(ws[Place(k, Year)]) == Some(YearOf(t) - 2000) ==> 2000 <= YearOf(t) < 2100
    ensures Fits(t, c, ws[Place(k, c)])
  {
    match c
    case DayOfWeek => DayNames(t.wday);
    case Month => MonthNames(t.mon);
    case _ =>
  }

  lemma FittingParses(str: string, k: nat, ws: seq<string>, t: Tm)
    requires (|ws| == 7 || |ws| == 8) && Tokens(str) == ws && k == DetectTimeStandard(ws)
    requires forall c :: Fits(t, c, ws[Place(k, c)])
    ensures ParsesTo(str, Ok(t))
  {
    ParsesByStandard(str, ws, k, t);
    Match(ws, k, t);
  }

  lemma SpelledParses(str: string, k: nat, ws: seq<string>, t: Tm)
    requires k < 2 && (|ws| == 7 || |ws| == 8) && Tokens(str) == ws && IsDate(t) && Spells(k, ws, t)
    requires Stoi(ws[Place(k, Year)]) == Some(YearOf(t) - 2000) ==> 2000 <= YearOf(t) < 2100
    requires k == 1 <==> ws[1] in MONTHS
    ensures ParsesTo(str, Ok(t))
  {
    forall c ensures Fits(t, c, ws[Place(k, c)]) {
      SpelledFits(k, ws, t, c);
    }
    FittingParses(str, k, ws, t);
  }

  // ----- the three spellings -----

  function ImfPairs(t: Tm): seq<(string, string)>
    requires IsDate(t)
  {
    [(", ", Pad2(t.mday)), (" ", MONTHS[t.mon]), (" ", NatToString(YearOf(t))), (" ", Pad2(t.hour)),
     (":", Pad2(t.min)), (":", Pad2(t.sec))]
  }

  function Rfc850Pairs(t: Tm): seq<(string, string)>
    requires IsDate(t)
  {
    [(", ", Pad2(t.mday)), ("-", MONTHS[t.mon]), ("-", Pad2(YearOf(t) % 100)), (" ", Pad2(t.hour)),
     (":", Pad2(t.min)), (":", Pad2(t.sec))]
  }

  function AsctimePairs(t: Tm): seq<(string, string)>
    requires IsDate(t)
  {
    [(" ", MONTHS[t.mon]), (DaySpace(t), NatToString(t.mday)), (" ", Pad2(t.hour)), (":", Pad2(t.min)),
     (":", Pad2(t.sec)), (" ", NatToString(YearOf(t)))]
  }

  lemma NumbersAreWords(t: Tm)
    requires IsDate(t)
    ensures IsWord(Pad2(t.mday)) && IsWord(Pad2(t.hour)) && IsWord(Pad2(t.min)) && IsWord(Pad2(t.sec))
    ensures IsWord(NatToString(YearOf(t))) && IsWord(Pad2(YearOf(t) % 100)) && IsWord(NatToString(t.mday))
  {
    Pad2Word(t.mday);
    Pad2Word(t.hour);
    Pad2Word(t.min);
    Pad2Word(t.sec);
    Pad2Word(YearOf(t) % 100);
    NatWord(YearOf(t));
    NatWord(t.mday);
  }

  lemma PunctuationSeparates()
    ensures IsSeparator(", ") && IsSeparator(" ") && IsSeparator(":") && IsSeparator("-") && IsSeparator("  ")
  {
  }

  lemma PairsSeparated(t: Tm)
    requires IsDate(t)
    ensures WellSeparated(ImfPairs(t)) && WellSeparated(Rfc850Pairs(t)) && WellSeparated(AsctimePairs(t))
  {
    NumbersAreWords(t);
    NamesAreWords();
    PunctuationSeparates();
  }

  lemma WithGmt(str: string)
    ensures str + " GMT" == str + [' '] + "GMT"
    ensures IsWord("GMT")
  {
  }

  /** The words of a text of six pairs. */
  function SixWords(w: string, m: seq<(string, string)>): (ws: seq<string>)
    requires |m| == 6
    ensures |ws| == 7
  {
    [w, m[0].1, m[1].1, m[2].1, m[3].1, m[4].1, m[5].1]
  }

  lemma SixTokens(w: string, m: seq<(string, string)>)
    requires |m| == 6 && IsWord(w) && WellSeparated(m)
    ensures Tokens(Text(w, m)) == SixWords(w, m)
    ensures Tokens(Text(w, m) + " GMT") == SixWords(w, m) + ["GMT"]
  {
    SixMore(w, m);
    TextTokens(w, m);
    WithGmt(Text(w, m));
    TextThenWord(w, m, "GMT");
    assert [w] + Words(m) == SixWords(w, m);
  }

  lemma ImfTokens(t: Tm)
    requires IsDate(t)
    ensures Tokens(ImfFixdate(t)) == SixWords(SHORT_DAYS[t.wday], ImfPairs(t)) + ["GMT"]
  {
    var w, m := SHORT_DAYS[t.wday], ImfPairs(t);
    SixMore(w, m);
    NamesAreWords();
    PairsSeparated(t);
    SixTokens(w, m);
  }

  lemma ImfSpells(t: Tm)
    requires IsDate(t)
    ensures Spells(0, SixWords(SHORT_DAYS[t.wday], ImfPairs(t)) + ["GMT"], t)
  {
    SpellNumbers(t);
  }

  /** IMF-fixdate is parsed to its date. */
  lemma ImfParses(t: Tm)
    requires IsDate(t)
    ensures ParsesTo(ImfFixdate(t), Ok(t))
  {
    ImfTokens(t);
    ImfSpells(t);
    Pad2Word(t.mday);
    NatWord(YearOf(t));
    var ws := SixWords(SHORT_DAYS[t.wday], ImfPairs(t)) + ["GMT"];
    SpelledParses(ImfFixdate(t), 0, ws, t);
  }

  lemma SpellNumbers(t: Tm)
    requires IsDate(t)
    ensures Stoi(Pad2(t.mday)) == Some(t.mday) && Pad2(t.mday) !in MONTHS
    ensures Stoi(NatToString(t.mday)) == Some(t.mday)
    ensures Stoi(Pad2(t.hour)) == Some(t.hour) && Stoi(Pad2(t.min)) == Some(t.min)
    ensures Stoi(Pad2(t.sec)) == Some(t.sec)
    ensures Stoi(NatToString(YearOf(t))) == Some(YearOf(t))
    ensures Stoi(Pad2(YearOf(t) % 100)) == Some(YearOf(t) % 100)
  {
    Pad2Word(t.mday);
    NatWord(t.mday);
    Pad2Word(t.hour);
    Pad2Word(t.min);
    Pad2Word(t.sec);
    NatWord(YearOf(t));
    Pad2Word(YearOf(t) % 100);
  }

  lemma AsctimeTokens(t: Tm)
    requires IsDate(t)
    ensures Tokens(Asctime(t)) == SixWords(SHORT_DAYS[t.wday], AsctimePairs(t))
  {
    var w, m := SHORT_DAYS[t.wday], AsctimePairs(t);
    SixMore(w, m);
    NamesAreWords();
    PairsSeparated(t);
    SixTokens(w, m);
  }

  lemma AsctimeSpells(t: Tm)
    requires IsDate(t)
    ensures Spells(1, SixWords(SHORT_DAYS[t.wday], AsctimePairs(t)), t)
  {
    SpellNumbers(t);
  }

  /** The asctime format is parsed to its date. */
  lemma AsctimeParses(t: Tm)
    requires IsDate(t)
    ensures ParsesTo(Asctime(t), Ok(t))
  {
    AsctimeTokens(t);
    AsctimeSpells(t);
    NatWord(YearOf(t));
    var ws := SixWords(SHORT_DAYS[t.wday], AsctimePairs(t));
    SpelledParses(Asctime(t), 1, ws, t);
  }

  lemma Rfc850Tokens(t: Tm)
    requires IsDate(t)
    ensures Tokens(Rfc850(t)) == SixWords(LONG_DAYS[t.wday], Rfc850Pairs(t)) + ["GMT"]
  {
    var w, m := LONG_DAYS[t.wday], Rfc850Pairs(t);
    SixMore(w, m);
    NamesAreWords();
    PairsSeparated(t);
    SixTokens(w, m);
  }

  /** The year an RFC 850 date is taken for. */
  function Century21(t: Tm): Tm {
    t.(year := 2000 + YearOf(t) % 100 - 1900)
  }

  lemma Rfc850Spells(t: Tm)
    requires IsDate(t)
    ensures Spells(0, SixWords(LONG_DAYS[t.wday], Rfc850Pairs(t)) + ["GMT"], Century21(t))
  {
    SpellNumbers(t);
  }

  /** The RFC 850 format is parsed to the date in the years 2000 to 2099. */
  lemma Rfc850ParsesTo21st(t: Tm)
    requires IsDate(t)
    ensures ParsesTo(Rfc850(t), Ok(Century21(t)))
  {
    Rfc850Tokens(t);
    Rfc850Spells(t);
    Pad2Word(t.mday);
    var ws := SixWords(LONG_DAYS[t.wday], Rfc850Pairs(t)) + ["GMT"];
    SpelledParses(Rfc850(t), 0, ws, Century21(t));
  }

  /** So it is parsed to its date if and only if that is in those years. */
  lemma Rfc850ParsesIff(t: Tm)
    requires IsDate(t)
    ensures ParsesTo(Rfc850(t), Ok(t)) <==> 2000 <= YearOf(t) <= 2099
  {
    Rfc850ParsesTo21st(t);
    CenturyIs(t);
    if ParsesTo(Rfc850(t), Ok(t)) {
      ParseIsUnique(Rfc850(t), Ok(t), Ok(Century21(t)));
    }
  }

  lemma CenturyIs(t: Tm)
    ensures Century21(t) == t <==> 2000 <= YearOf(t) <= 2099
  {
  }

  /** From 2000 to 2099 all three spellings are parsed to the one date, and to nothing else. */
  lemma SpellingsAgree(t: Tm, r: Result<Tm, TimeError>)
    requires IsDate(t) && 2000 <= YearOf(t) <= 2099
    ensures ParsesTo(ImfFixdate(t), r) <==> r == Ok(t)
    ensures ParsesTo(Rfc850(t), r) <==> r == Ok(t)
    ensures ParsesTo(Asctime(t), r) <==> r == Ok(t)
  {
    ImfParses(t);
    AsctimeParses(t);
    Rfc850ParsesIff(t);
    OnlyOutcome(ImfFixdate(t), t, r);
    OnlyOutcome(Rfc850(t), t, r);
    OnlyOutcome(Asctime(t), t, r);
  }

  lemma OnlyOutcome(str: string, t: Tm, r: Result<Tm, TimeError>)
    requires ParsesTo(str, Ok(t))
    ensures ParsesTo(str, r) <==> r == Ok(t)
  {
    if ParsesTo(str, r) {
      ParseIsUnique(str, r, Ok(t));
    }
  }

  // ----- an unchecked month -----

  /** A date as the parser accepts it, but for the month, which is any number. */
  predicate IsDateButMonth(t: Tm) {
    && 0 <= t.wday <= 6 && 0 <= t.mday <= INT_MAX && 0 <= t.mon <= INT_MAX
    && 0 <= t.hour <= 23 && 0 <= t.min <= 59 && 0 <= t.sec <= 59
    && 100 <= YearOf(t) <= 2147483647
  }

  function NumericPairs(t: Tm): (m: seq<(string, string)>)
    requires IsDateButMonth(t)
    ensures |m| == 6
  {
    [(", ", NatToString(t.mday)), (" ", NatToString(t.mon)), (" ", NatToString(YearOf(t))),
     (" ", NatToString(t.hour)), (":", NatToString(t.min)), (":", NatToString(t.sec))]
  }

  /** Sun, 6 10 1994 8:49:37 GMT, with the month counted from 0 */
  function NumericDate(t: Tm): string
    requires IsDateButMonth(t)
  {
    Text(SHORT_DAYS[t.wday], NumericPairs(t)) + " GMT"
  }

  function NumericWord(t: Tm, c: TimeChunk): string
    requires IsDateButMonth(t)
  {
    match c
    case DayOfWeek => SHORT_DAYS[t.wday]
    case Year => NatToString(YearOf(t))
    case _ => NatToString(Get(t, c))
  }

  lemma NumericAt(t: Tm, c: TimeChunk)
    requires IsDateButMonth(t)
    ensures SixWords(SHORT_DAYS[t.wday], NumericPairs(t))[Place(0, c)] == NumericWord(t, c)
  {
  }

  lemma NumericMonth(t: Tm)
    requires IsDateButMonth(t)
    ensures Fits(t, Month, NatToString(t.mon))
  {
    NatWord(t.mon);
  }

  lemma NumericNumber(t: Tm, c: TimeChunk)
    requires IsDateButMonth(t) && c != DayOfWeek && c != Month
    ensures Fits(t, c, NumericWord(t, c))
  {
    StoiOfPrinted(if c == Year then YearOf(t) else Get(t, c));
  }

  lemma NumericFits(t: Tm, c: TimeChunk)
    requires IsDateButMonth(t)
    ensures Fits(t, c, SixWords(SHORT_DAYS[t.wday], NumericPairs(t))[Place(0, c)])
  {
    NumericAt(t, c);
    if c == DayOfWeek {
      DayNames(t.wday);
    } else if c == Month {
      NumericMonth(t);
    } else {
      NumericNumber(t, c);
    }
  }

  lemma NumericSeparated(t: Tm)
    requires IsDateButMonth(t)
    ensures WellSeparated(NumericPairs(t)) && NatToString(t.mday) !in MONTHS
  {
    PunctuationSeparates();
    DigitsWord(NatToString(t.mday));
    DigitsWord(NatToString(t.mon));
    DigitsWord(NatToString(YearOf(t)));
    DigitsWord(NatToString(t.hour));
    DigitsWord(NatToString(t.min));
    DigitsWord(NatToString(t.sec));
  }

  lemma NumericTokens(t: Tm)
    requires IsDateButMonth(t)
    ensures Tokens(NumericDate(t)) == SixWords(SHORT_DAYS[t.wday], NumericPairs(t)) + ["GMT"]
    ensures NatToString(t.mday) !in MONTHS
  {
    NamesAreWords();
    NumericSeparated(t);
    SixTokens(SHORT_DAYS[t.wday], NumericPairs(t));
  }

  /** A month given as a number is taken as it is, counted from 0 and not checked: 12 and more are
      accepted, and the date that is parsed cannot be printed. */
  lemma NumericMonthUnchecked(t: Tm)
    requires IsDateButMonth(t)
    ensures ParsesTo(NumericDate(t), Ok(t))
    ensures TimeTToString(t).Some? <==> t.mon <= 11
  {
    NumericTokens(t);
    var ws := SixWords(SHORT_DAYS[t.wday], NumericPairs(t)) + ["GMT"];
    assert DetectTimeStandard(ws) == 0;
    forall c ensures Fits(t, c, ws[Place(0, c)]) {
      NumericFits(t, c);
    }
    FittingParses(NumericDate(t), 0, ws, t);
  }
}
