/** What dates are read from and printed as, in full: the names, the numbers and the places of the fields. */
module DateExact {
  import opened Common
  import opened Decimal
  import opened DateTime
  import opened DateRoundTrip
  import opened DateSpellings

  // ----- what a token stands for -----

  predicate DayIs(token: string, d: int) {
    || (d == 0 && (token == "Sun" || token == "Sunday")) || (d == 1 && (token == "Mon" || token == "Monday"))
    || (d == 2 && (token == "Tue" || token == "Tuesday")) || (d == 3 && (token == "Wed" || token == "Wednesday"))
    || (d == 4 && (token == "Thu" || token == "Thursday")) || (d == 5 && (token == "Fri" || token == "Friday"))
    || (d == 6 && (token == "Sat" || token == "Saturday"))
  }

  predicate MonthIs(token: string, m: int) {
    || (m == 0 && token == "Jan") || (m == 1 && token == "Feb") || (m == 2 && token == "Mar")
    || (m == 3 && token == "Apr") || (m == 4 && token == "May") || (m == 5 && token == "Jun")
    || (m == 6 && token == "Jul") || (m == 7 && token == "Aug") || (m == 8 && token == "Sep")
    || (m == 9 && token == "Oct") || (m == 10 && token == "Nov") || (m == 11 && token == "Dec")
  }

  predicate IsMonthName(token: string) {
    token in ["Jan", "Feb", "Mar", "Apr", "May", "Jun", "Jul", "Aug", "Sep", "Oct", "Nov", "Dec"]
  }

  /** The token begins with the number. */
  ghost predicate NumberIs(token: string, n: int) {
    0 <= n <= 2147483647 && exists k, rest :: Begins(token, k, n, rest)
  }

  /** `v` is what a field of `struct tm` becomes by the token. */
  ghost predicate FieldIs(c: TimeChunk, token: string, v: int) {
    match c
    case DayOfWeek => DayIs(token, v)
    case Day => NumberIs(token, v)
    case Month => if IsMonthName(token) then MonthIs(token, v) else NumberIs(token, v)
    case Year => (v < 200 && NumberIs(token, v - 100)) || (-1800 <= v && NumberIs(token, v + 1900))
    case Hour => NumberIs(token, v) && v <= 23
    case Minute => NumberIs(token, v) && v <= 59
    case Second => NumberIs(token, v) && v <= 59
  }

  lemma NumberExact(token: string, n: int)
    ensures Stoi(token) == Some(n) <==> NumberIs(token, n)
  {
    if n >= 0 {
      StoiExact(token, n);
    }
  }

  lemma DayInTables(token: string, d: int)
    ensures DayId(token) == Some(d) <==> 0 <= d < 7 && (token == SHORT_DAYS[d] || token == LONG_DAYS[d])
  {
    if 0 <= d < 7 {
      DayNames(d);
    }
  }

  lemma DayExact(token: string, d: int)
    ensures DayId(token) == Some(d) <==> DayIs(token, d)
  {
    DayInTables(token, d);
    DayTables(token, d);
  }

  lemma DayTables(token: string, d: int)
    ensures DayIs(token, d) <==> 0 <= d < 7 && (token == SHORT_DAYS[d] || token == LONG_DAYS[d])
  {
  }

  lemma MonthInTable(token: string, m: int)
    ensures MonthId(token) == Some(m) <==> 0 <= m < 12 && token == MONTHS[m]
    ensures MonthId(token).Some? <==> token in MONTHS
  {
    if 0 <= m < 12 {
      MonthNames(m);
    }
  }

  lemma MonthTable(token: string, m: int)
    ensures MonthIs(token, m) <==> 0 <= m < 12 && token == MONTHS[m]
  {
  }

  lemma MonthExact(token: string, m: int)
    ensures MonthId(token) == Some(m) <==> MonthIs(token, m)
    ensures MonthId(token).Some? <==> IsMonthName(token)
  {
    MonthInTable(token, m);
    MonthTable(token, m);
  }

  lemma YearExact(token: string, v: int)
    ensures FieldOf(Year, token) == Some(v) <==> FieldIs(Year, token, v)
  {
    NumberExact(token, v - 100);
    NumberExact(token, v + 1900);
  }

  lemma FieldExact(c: TimeChunk, token: string, v: int)
    ensures FieldOf(c, token) == Some(v) <==> FieldIs(c, token, v)
  {
    if c == DayOfWeek {
      DayExact(token, v);
    } else if c == Year {
      YearExact(token, v);
    } else {
      NumberExact(token, v);
      if c == Month {
        MonthExact(token, v);
      }
    }
  }

  lemma LowerIs(c: char)
    ensures 'a' <= c <= 'z' <==> c in "abcdefghijklmnopqrstuvwxyz"
  {
    if 'a' <= c <= 'z' {
      assert "abcdefghijklmnopqrstuvwxyz"[c as int - 'a' as int] == c;
    }
  }

  lemma UpperIs(c: char)
    ensures 'A' <= c <= 'Z' <==> c in "ABCDEFGHIJKLMNOPQRSTUVWXYZ"
  {
    if 'A' <= c <= 'Z' {
      assert "ABCDEFGHIJKLMNOPQRSTUVWXYZ"[c as int - 'A' as int] == c;
    }
  }

  /** Tokens are made of the digits and of the letters of the alphabet. */
  lemma AlnumIs(c: char)
    ensures IsAlnum(c) <==> c in "0123456789" || c in "abcdefghijklmnopqrstuvwxyz"
                            || c in "ABCDEFGHIJKLMNOPQRSTUVWXYZ"
  {
    DigitIs(c);
    LowerIs(c);
    UpperIs(c);
  }

  // ----- parsing -----

  /** The tokens hold the fields of `t` in the order of asctime. */
  ghost predicate InAsctimeOrder(ts: seq<string>, t: Tm)
    requires |ts| >= 7
  {
    && FieldIs(DayOfWeek, ts[0], t.wday) && FieldIs(Month, ts[1], t.mon) && FieldIs(Day, ts[2], t.mday)
    && FieldIs(Hour, ts[3], t.hour) && FieldIs(Minute, ts[4], t.min) && FieldIs(Second, ts[5], t.sec)
    && FieldIs(Year, ts[6], t.year)
  }

  /** The tokens hold the fields of `t` in the order of the other two formats. */
  ghost predicate InHttpOrder(ts: seq<string>, t: Tm)
    requires |ts| >= 7
  {
    && FieldIs(DayOfWeek, ts[0], t.wday) && FieldIs(Day, ts[1], t.mday) && FieldIs(Month, ts[2], t.mon)
    && FieldIs(Year, ts[3], t.year) && FieldIs(Hour, ts[4], t.hour) && FieldIs(Minute, ts[5], t.min)
    && FieldIs(Second, ts[6], t.sec)
  }

  lemma FitsExact(ts: seq<string>, k: nat, t: Tm)
    requires |ts| >= 7 && k < 2
    ensures (forall c :: Fits(t, c, ts[Place(k, c)]))
       <==> if k == 1 then InAsctimeOrder(ts, t) else InHttpOrder(ts, t)
  {
    forall c ensures Fits(t, c, ts[Place(k, c)]) <==> FieldIs(c, ts[Place(k, c)], Get(t, c)) {
      FieldExact(c, ts[Place(k, c)], Get(t, c));
    }
    AllFields(ts, k, t);
  }

  lemma AllFields(ts: seq<string>, k: nat, t: Tm)
    requires |ts| >= 7 && k < 2
    requires forall c :: Fits(t, c, ts[Place(k, c)]) <==> FieldIs(c, ts[Place(k, c)], Get(t, c))
    ensures (forall c :: Fits(t, c, ts[Place(k, c)]))
       <==> if k == 1 then InAsctimeOrder(ts, t) else InHttpOrder(ts, t)
  {
    if forall c :: Fits(t, c, ts[Place(k, c)]) {
      forall c ensures FieldIs(c, ts[Place(k, c)], Get(t, c)) {
        assert Fits(t, c, ts[Place(k, c)]);
      }
      AllPlaces(ts, k, t);
    }
    if (if k == 1 then InAsctimeOrder(ts, t) else InHttpOrder(ts, t)) {
      forall c ensures Fits(t, c, ts[Place(k, c)]) {
        PlacedExact(ts, k, t, c);
      }
    }
  }

  lemma PlacedExact(ts: seq<string>, k: nat, t: Tm, c: TimeChunk)
    requires |ts| >= 7 && k < 2
    requires if k == 1 then InAsctimeOrder(ts, t) else InHttpOrder(ts, t)
    ensures FieldIs(c, ts[Place(k, c)], Get(t, c))
  {
  }

  lemma AllPlaces(ts: seq<string>, k: nat, t: Tm)
    requires |ts| >= 7 && k < 2
    requires forall c :: FieldIs(c, ts[Place(k, c)], Get(t, c))
    ensures if k == 1 then InAsctimeOrder(ts, t) else InHttpOrder(ts, t)
  {
    var p := Place(k, DayOfWeek);
    assert FieldIs(DayOfWeek, ts[p], Get(t, DayOfWeek));
    assert FieldIs(Day, ts[Place(k, Day)], Get(t, Day)) && FieldIs(Month, ts[Place(k, Month)], Get(t, Month));
    assert FieldIs(Year, ts[Place(k, Year)], Get(t, Year)) && FieldIs(Hour, ts[Place(k, Hour)], Get(t, Hour));
    assert FieldIs(Minute, ts[Place(k, Minute)], Get(t, Minute));
    assert FieldIs(Second, ts[Place(k, Second)], Get(t, Second));
  }

  lemma DetectedExact(ts: seq<string>)
    requires |ts| >= 2
    ensures DetectTimeStandard(ts) == if IsMonthName(ts[1]) then 1 else 0
  {
    MonthExact(ts[1], 0);
  }

  /** A string is accepted as the date `t` exactly if it has seven or eight tokens and they hold the fields of
      `t`: in the order of asctime if the second one is the name of a month, and else in the other order. */
  lemma AcceptedExactly(str: string, t: Tm)
    ensures ParsesTo(str, Ok(t)) <==>
              var ts := Tokens(str);
              && (|ts| == 7 || |ts| == 8)
              && if IsMonthName(ts[1]) then InAsctimeOrder(ts, t) else InHttpOrder(ts, t)
  {
    var ts := Tokens(str);
    if |ts| == 7 || |ts| == 8 {
      var k := DetectTimeStandard(ts);
      DetectedExact(ts);
      ParsesByStandard(str, ts, k, t);
      Match(ts, k, t);
      FitsExact(ts, k, t);
    }
  }

  /** The token stands for no value of the field. */
  ghost predicate IsBad(c: TimeChunk, token: string) {
    forall v :: !FieldIs(c, token, v)
  }

  lemma BadExact(c: TimeChunk, token: string)
    ensures FieldOf(c, token).None? <==> IsBad(c, token)
  {
    var f := FieldOf(c, token);
    if f.Some? {
      FieldExact(c, token, f.value);
    } else {
      forall v ensures !FieldIs(c, token, v) {
        FieldExact(c, token, v);
      }
    }
  }

  /** The error names the number of tokens, if that is not seven or eight, and otherwise the first token in
      the order of the fields that stands for no value of its field. */
  lemma RejectedExactly(str: string, e: TimeError)
    ensures ParsesTo(str, Err(e)) <==>
              var ts := Tokens(str);
              if |ts| != 7 && |ts| != 8 then e == BadTokensSize(|ts|)
              else
                exists i :: 0 <= i < 7 && FirstRejected(ts, i) && e == BadChunk(FieldAt(ts, i), ts[i])
  {
    var ts := Tokens(str);
    if |ts| == 7 || |ts| == 8 {
      var o := TIME_STANDARDS[DetectTimeStandard(ts)];
      StandardsShape(DetectTimeStandard(ts));
      forall i | 0 <= i < 7 ensures FirstBad(ts, o, i) <==> FirstRejected(ts, i)
                            ensures o[i] == FieldAt(ts, i)
      {
        OrderExact(ts);
        RejectedAt(ts, o, i);
      }
      SameRejection(ts, o, e);
    }
  }

  /** The field at a place. */
  function FieldAt(ts: seq<string>, i: nat): TimeChunk
    requires |ts| >= 7 && i < 7
  {
    if IsMonthName(ts[1]) then [DayOfWeek, Month, Day, Hour, Minute, Second, Year][i]
    else [DayOfWeek, Day, Month, Year, Hour, Minute, Second][i]
  }

  ghost predicate FirstRejected(ts: seq<string>, i: nat)
    requires |ts| >= 7 && i < 7
  {
    IsBad(FieldAt(ts, i), ts[i]) && forall j :: 0 <= j < i ==> !IsBad(FieldAt(ts, j), ts[j])
  }

  lemma OrderExact(ts: seq<string>)
    requires |ts| >= 7
    ensures |TIME_STANDARDS[DetectTimeStandard(ts)]| == 7
    ensures forall i :: 0 <= i < 7 ==> TIME_STANDARDS[DetectTimeStandard(ts)][i] == FieldAt(ts, i)
  {
    DetectedExact(ts);
  }

  lemma RejectedAt(ts: seq<string>, o: seq<TimeChunk>, i: nat)
    requires |ts| >= 7 && |o| == 7 && i < 7
    requires forall j :: 0 <= j < 7 ==> o[j] == FieldAt(ts, j)
    ensures FirstBad(ts, o, i) <==> FirstRejected(ts, i)
  {
    forall j | 0 <= j <= i ensures FieldOf(o[j], ts[j]).None? <==> IsBad(FieldAt(ts, j), ts[j]) {
      BadExact(o[j], ts[j]);
    }
  }

  lemma SameRejection(ts: seq<string>, o: seq<TimeChunk>, e: TimeError)
    requires |ts| >= 7 && |o| == 7
    requires forall i :: 0 <= i < 7 ==> o[i] == FieldAt(ts, i) && (FirstBad(ts, o, i) <==> FirstRejected(ts, i))
    ensures FieldsParseTo(ts, o, Err(e))
       <==> exists i :: 0 <= i < 7 && FirstRejected(ts, i) && e == BadChunk(FieldAt(ts, i), ts[i])
  {
    if FieldsParseTo(ts, o, Err(e)) {
      var i :| 0 <= i < |o| && FirstBad(ts, o, i) && e == BadChunk(o[i], ts[i]);
      assert FirstRejected(ts, i);
    }
    if exists i :: 0 <= i < 7 && FirstRejected(ts, i) && e == BadChunk(FieldAt(ts, i), ts[i]) {
      var i :| 0 <= i < 7 && FirstRejected(ts, i) && e == BadChunk(FieldAt(ts, i), ts[i]);
      assert FirstBad(ts, o, i);
    }
  }

  // ----- printing -----

  function DayName(d: nat): string
    requires d < 7
  {
    ["Sun", "Mon", "Tue", "Wed", "Thu", "Fri", "Sat"][d]
  }

  function MonthName(m: nat): string
    requires m < 12
  {
    ["Jan", "Feb", "Mar", "Apr", "May", "Jun", "Jul", "Aug", "Sep", "Oct", "Nov", "Dec"][m]
  }

  /** The printed text, for a year in the range of `unsigned`. */
  lemma PrintedExactly(t: Tm)
    requires 0 <= t.wday <= 6 && 0 <= t.mon <= 11 && 0 <= t.year + 1900 <= 4294967295
    ensures TimeTToString(t)
         == Some(DayName(t.wday) + ", " + IntToString(t.mday) + " " + MonthName(t.mon) + " " +
                 NatToString(t.year + 1900) + " " + IntToString(t.hour) + ":" + IntToString(t.min) + ":" +
                 IntToString(t.sec) + " GMT")
  {
  }

  /** Other years wrap around. */
  lemma PrintedYearWraps(t: Tm, k: int)
    requires 0 <= t.year + 1900 + k * 4294967296 <= 4294967295
    ensures TimeTToString(t) == TimeTToString(t.(year := t.year + k * 4294967296))
  {
    ModOf(t.year + 1900, -k, t.year + 1900 + k * 4294967296);
    ModOf(t.year + 1900 + k * 4294967296, 0, t.year + 1900 + k * 4294967296);
  }

  lemma ModOf(a: int, q: int, r: nat)
    requires a == q * 4294967296 + r && r < 4294967296
    ensures a % UNSIGNED_RANGE == r
  {
  }

  lemma IntPrinted(n: int)
    ensures IntToString(n) == if n < 0 then "-" + NatToString(-n) else NatToString(n)
  {
  }

  /** The tokens of a printed date. */
  lemma PrintedTokensExactly(t: Tm)
    requires 0 <= t.wday <= 6 && 0 <= t.mon <= 11 && 0 <= t.year + 1900 <= 4294967295
    ensures TimeTToString(t).Some?
    ensures Tokens(TimeTToString(t).value)
         == [DayName(t.wday), NatToString(Abs(t.mday)), MonthName(t.mon), NatToString(t.year + 1900),
             NatToString(Abs(t.hour)), NatToString(Abs(t.min)), NatToString(Abs(t.sec)), "GMT"]
  {
    PrintedTokens(t);
  }

  /** The last second of 1999. */
  lemma PrintedExample()
    ensures TimeTToString(Tm(5, 31, 11, 99, 23, 59, 59)) == Some("Fri, 31 Dec 1999 23:59:59 GMT")
  {
    PrintedExactly(Tm(5, 31, 11, 99, 23, 59, 59));
    TwoPrinted(31);
    TwoPrinted(23);
    TwoPrinted(59);
    TwoPrinted(19);
    PrintedDigits(199);
    PrintedDigits(1999);
    assert IntToString(31) == "31" && IntToString(23) == "23" && IntToString(59) == "59";
    assert NatToString(1999) == "1999" && DayName(5) == "Fri" && MonthName(11) == "Dec";
    assert "Fri" + ", " + "31" + " " + "Dec" + " " + "1999" + " " == "Fri, 31 Dec 1999 ";
    assert "Fri, 31 Dec 1999 " + "23" + ":" + "59" + ":" + "59" + " GMT" == "Fri, 31 Dec 1999 23:59:59 GMT";
  }

  lemma TwoPrinted(n: nat)
    requires 10 <= n <= 99
    ensures NatToString(n) == ["0123456789"[n / 10], "0123456789"[n % 10]]
  {
    PrintedDigits(n);
    PrintedDigits(n / 10);
  }

  lemma PaddedLength(n: nat)
    requires n < 100
    ensures |Pad2(n)| == 2 && |NatToString(n)| == if n < 10 then 1 else 2
    ensures n >= 10 ==> Pad2(n) == NatToString(n)
  {
    Pad2Is(n);
  }

  function Layout(name: string, day: string, month: string, year: string, hour: string, min: string, sec: string)
    : string
  {
    name + ", " + day + " " + month + " " + year + " " + hour + ":" + min + ":" + sec + " GMT"
  }

  lemma LayoutLength(name: string, day: string, month: string, year: string, hour: string, min: string, sec: string)
    ensures |Layout(name, day, month, year, hour, min, sec)|
         == |name| + |day| + |month| + |year| + |hour| + |min| + |sec| + 11
  {
  }

  lemma Spelled(t: Tm)
    requires IsDate(t)
    ensures var name, month, year := DayName(t.wday), MonthName(t.mon), NatToString(t.year + 1900);
            && TimeTToString(t) == Some(Layout(name, NatToString(t.mday), month, year, NatToString(t.hour),
                                               NatToString(t.min), NatToString(t.sec)))
            && ImfFixdate(t) == Layout(name, Pad2(t.mday), month, year, Pad2(t.hour), Pad2(t.min), Pad2(t.sec))
  {
    PrintedExactly(t);
  }

  /** What is printed is an IMF-fixdate (section 7.1.1.1 of RFC 7231) if and only if the day, the hour, the
      minute and the second have two digits: numbers are not padded with zeros. */
  lemma PrintsImfFixdateIff(t: Tm)
    requires IsDate(t)
    ensures TimeTToString(t) == Some(ImfFixdate(t))
       <==> t.mday >= 10 && t.hour >= 10 && t.min >= 10 && t.sec >= 10
  {
    Spelled(t);
    PaddedLength(t.mday);
    PaddedLength(t.hour);
    PaddedLength(t.min);
    PaddedLength(t.sec);
    var name, month, year := DayName(t.wday), MonthName(t.mon), NatToString(t.year + 1900);
    LayoutLength(name, NatToString(t.mday), month, year, NatToString(t.hour), NatToString(t.min), NatToString(t.sec));
    LayoutLength(name, Pad2(t.mday), month, year, Pad2(t.hour), Pad2(t.min), Pad2(t.sec));
  }
}
