/** Printing and parsing of dates undo each other, as far as they do. */
module DateRoundTrip {
  import opened Common
  import opened Decimal
  import opened DateTime

  // ----- tokens -----

  predicate IsSeparator(s: string) {
    s != "" && forall i :: 0 <= i < |s| ==> !IsAlnum(s[i])
  }

  predicate IsWord(s: string) {
    s != "" && AllAlnum(s)
  }

  lemma ExtendedAfter(ts: seq<string>, us: seq<string>, x: char)
    requires us != []
    ensures Extended(ts + us, x) == ts + Extended(us, x)
  {
    assert (ts + us)[..|ts + us| - 1] == ts + us[..|us| - 1];
  }

  /** The tokens of a text with one more character. */
  function Snoc(before: string, x: char): seq<string> {
    if !IsAlnum(x) then Tokens(before)
    else if before != "" && IsAlnum(before[|before| - 1]) then Extended(Tokens(before), x)
    else Tokens(before) + [[x]]
  }

  lemma TokensSnoc(before: string, x: char)
    ensures Tokens(before + [x]) == Snoc(before, x)
  {
    var s := before + [x];
    assert s[..|s| - 1] == before && s[|s| - 1] == x;
  }

  lemma SnocAfter(a: string, c: char, b: string, x: char)
    requires !IsAlnum(c) && Tokens(a + [c] + b) == Tokens(a) + Tokens(b)
    ensures Snoc(a + [c] + b, x) == Tokens(a) + Snoc(b, x)
  {
    var before := a + [c] + b;
    assert before[|before| - 1] == if b == "" then c else b[|b| - 1];
    if IsAlnum(x) {
      if b != "" && IsAlnum(b[|b| - 1]) {
        ExtendedAfter(Tokens(a), Tokens(b), x);
      } else {
        assert Tokens(a) + Tokens(b) + [[x]] == Tokens(a) + (Tokens(b) + [[x]]);
      }
    }
  }

  /** The tokens of a text that has a separator somewhere are those before and those after it. */
  lemma {:induction false} TokensAround(a: string, c: char, b: string)
    requires !IsAlnum(c)
    ensures Tokens(a + [c] + b) == Tokens(a) + Tokens(b)
  {
    if b == "" {
      TokensSnoc(a, c);
      assert a + [c] + "" == a + [c];
    } else {
      var b', x := b[..|b| - 1], b[|b| - 1];
      TokensAround(a, c, b');
      SnocAfter(a, c, b', x);
      TokensSnoc(a + [c] + b', x);
      TokensSnoc(b', x);
      assert b == b' + [x] && a + [c] + b == (a + [c] + b') + [x];
    }
  }

  lemma {:induction false} TokensOfWord(w: string)
    requires IsWord(w)
    ensures Tokens(w) == [w]
  {
    var n := |w| - 1;
    assert w[..n] + [w[n]] == w;
    TokensSnoc(w[..n], w[n]);
    if n > 0 {
      TokensOfWord(w[..n]);
      assert [w[..n]][..0] == [];
    }
  }

  lemma {:induction false} TokensSkip(sep: string, rest: string)
    requires forall i :: 0 <= i < |sep| ==> !IsAlnum(sep[i])
    ensures Tokens(sep + rest) == Tokens(rest)
  {
    if sep == "" {
      assert sep + rest == rest;
    } else {
      TokensSkip(sep[1..], rest);
      assert sep + rest == "" + [sep[0]] + (sep[1..] + rest);
      TokensAround("", sep[0], sep[1..] + rest);
    }
  }

  /** A word and a separator: the word is the first token. */
  lemma TokensCons(w: string, sep: string, rest: string)
    requires IsWord(w) && IsSeparator(sep)
    ensures Tokens(w + (sep + rest)) == [w] + Tokens(rest)
  {
    var tail := sep[1..] + rest;
    assert w + (sep + rest) == w + [sep[0]] + tail;
    TokensAround(w, sep[0], tail);
    TokensOfWord(w);
    TokensSkip(sep[1..], rest);
  }

  // ----- fields -----

  /** A token stands for the field of `t`. */
  predicate Fits(t: Tm, chunk: TimeChunk, token: string) {
    FieldOf(chunk, token) == Some(Get(t, chunk))
  }

  /** Where a field is in the order of IMF-fixdate and RFC 850 (0), and in that of asctime (1). */
  function Place(k: nat, chunk: TimeChunk): (i: nat)
    ensures i < 7
  {
    match chunk
    case DayOfWeek => 0
    case Day => if k == 0 then 1 else 2
    case Month => if k == 0 then 2 else 1
    case Year => if k == 0 then 3 else 6
    case Hour => if k == 0 then 4 else 3
    case Minute => if k == 0 then 5 else 4
    case Second => if k == 0 then 6 else 5
  }

  lemma PlaceInOrder(k: nat, chunk: TimeChunk)
    requires k < 2
    ensures |TIME_STANDARDS[k]| == 7 && TIME_STANDARDS[k][Place(k, chunk)] == chunk
  {
  }

  lemma OrderInPlace(k: nat, i: nat)
    requires k < 2 && i < 7
    ensures |TIME_STANDARDS[k]| == 7 && Place(k, TIME_STANDARDS[k][i]) == i
  {
  }

  /** The tokens match when each field of `t` fits the token at its place. */
  lemma Match(ts: seq<string>, k: nat, t: Tm)
    requires |ts| >= 7 && k < 2
    ensures |TIME_STANDARDS[k]| == 7
    ensures FieldsMatch(ts, TIME_STANDARDS[k], t) <==> forall c :: Fits(t, c, ts[Place(k, c)])
  {
    var o := TIME_STANDARDS[k];
    StandardsShape(k);
    if FieldsMatch(ts, o, t) {
      forall c ensures Fits(t, c, ts[Place(k, c)]) {
        PlaceInOrder(k, c);
        assert FieldOf(o[Place(k, c)], ts[Place(k, c)]) == Some(Get(t, o[Place(k, c)]));
      }
    }
    if forall c :: Fits(t, c, ts[Place(k, c)]) {
      forall i | 0 <= i < |o| ensures FieldOf(o[i], ts[i]) == Some(Get(t, o[i])) {
        OrderInPlace(k, i);
        assert Fits(t, o[i], ts[Place(k, o[i])]);
      }
    }
  }

  lemma NamesAreWords()
    ensures forall i :: 0 <= i < 7 ==> IsWord(SHORT_DAYS[i]) && IsWord(LONG_DAYS[i])
    ensures forall i :: 0 <= i < 12 ==> IsWord(MONTHS[i])
  {
  }

  lemma DayNames(i: nat)
    requires i < 7
    ensures DayId(SHORT_DAYS[i]) == Some(i) && DayId(LONG_DAYS[i]) == Some(i)
  {
    DayNamesDiffer();
    IndexOfAt(SHORT_DAYS, i);
    IndexOfAt(LONG_DAYS, i);
  }

  lemma DayNamesDiffer()
    ensures NoDup(SHORT_DAYS) && NoDup(LONG_DAYS)
    ensures forall j :: 0 <= j < 7 ==> |SHORT_DAYS[j]| == 3
    ensures forall j :: 0 <= j < 7 ==> |LONG_DAYS[j]| > 3
  {
  }

  lemma MonthNames(i: nat)
    requires i < 12
    ensures MonthId(MONTHS[i]) == Some(i)
  {
    assert NoDup(MONTHS);
    IndexOfAt(MONTHS, i);
  }

  lemma IndexOfAt<T>(s: seq<T>, i: nat)
    requires NoDup(s) && i < |s|
    ensures IndexOf(s, s[i]) == i
  {
    var k := IndexOf(s, s[i]);
    assert s[i] in s && s[k] == s[i];
  }

  /** A string of digits is a word and not the name of a month. */
  lemma DigitsWord(s: string)
    requires s != "" && AllDigits(s)
    ensures IsWord(s) && s !in MONTHS
  {
    assert IsDigit(s[0]);
    assert forall i :: 0 <= i < 12 ==> !IsDigit(MONTHS[i][0]);
  }

  // ----- printed dates -----

  function Sign(n: int): string {
    if n < 0 then "-" else ""
  }

  function Abs(n: int): nat {
    if n < 0 then -n else n
  }

  lemma IntIs(n: int)
    ensures IntToString(n) == Sign(n) + NatToString(Abs(n))
  {
    assert "" + NatToString(Abs(n)) == NatToString(Abs(n));
  }

  /** A word, and further words each with a separator before it. */
  function Text(word: string, more: seq<(string, string)>): string
    decreases |more|
  {
    if more == [] then word else word + (more[0].0 + Text(more[0].1, more[1..]))
  }

  function Words(more: seq<(string, string)>): seq<string> {
    if more == [] then [] else [more[0].1] + Words(more[1..])
  }

  ghost predicate WellSeparated(more: seq<(string, string)>) {
    forall i :: 0 <= i < |more| ==> IsSeparator(more[i].0) && IsWord(more[i].1)
  }

  /** The tokens of a text are its words. */
  lemma {:induction false} TextTokens(word: string, more: seq<(string, string)>)
    requires IsWord(word) && WellSeparated(more)
    ensures Tokens(Text(word, more)) == [word] + Words(more)
    decreases |more|
  {
    if more == [] {
      TokensOfWord(word);
    } else {
      TextTokens(more[0].1, more[1..]);
      TokensCons(word, more[0].0, Text(more[0].1, more[1..]));
      assert [word] + ([more[0].1] + Words(more[1..])) == [word] + Words(more);
    }
  }

  lemma Peel(prefix: string, word: string, sep: string, next: string, more: seq<(string, string)>)
    ensures prefix + Text(word, [(sep, next)] + more) == (prefix + word + sep) + Text(next, more)
    ensures Words([(sep, next)] + more) == [next] + Words(more)
  {
    var all := [(sep, next)] + more;
    assert all[0] == (sep, next) && all[1..] == more;
    assert prefix + (word + (sep + Text(next, more))) == (prefix + word + sep) + Text(next, more);
  }

  /** Six separators and words: what they read in a row, and the words. */
  lemma SixMore(w: string, m: seq<(string, string)>)
    requires |m| == 6
    ensures Text(w, m) == w + m[0].0 + m[0].1 + m[1].0 + m[1].1 + m[2].0 + m[2].1 + m[3].0 + m[3].1
                          + m[4].0 + m[4].1 + m[5].0 + m[5].1
    ensures Words(m) == [m[0].1, m[1].1, m[2].1, m[3].1, m[4].1, m[5].1]
  {
    ThreeMore("", w, m[0], m[1], m[2], m[3..]);
    var p := "" + w + m[0].0 + m[0].1 + m[1].0 + m[1].1 + m[2].0;
    ThreeMore(p, m[2].1, m[3], m[4], m[5], []);
    assert m == [m[0]] + ([m[1]] + ([m[2]] + m[3..]));
    assert m[3..] == [m[3]] + ([m[4]] + ([m[5]] + []));
    assert Words(m) == [m[0].1, m[1].1, m[2].1] + ([m[3].1, m[4].1, m[5].1] + []);
    assert "" + w == w && "" + Text(w, m) == Text(w, m);
  }

  lemma ThreeMore(prefix: string, w: string, a: (string, string), b: (string, string), c: (string, string),
                  more: seq<(string, string)>)
    ensures prefix + Text(w, [a] + ([b] + ([c] + more)))
         == (prefix + w + a.0 + a.1 + b.0 + b.1 + c.0) + Text(c.1, more)
    ensures Words([a] + ([b] + ([c] + more))) == [a.1, b.1, c.1] + Words(more)
  {
    Peel(prefix, w, a.0, a.1, [b] + ([c] + more));
    Peel(prefix + w + a.0, a.1, b.0, b.1, [c] + more);
    Peel(prefix + w + a.0 + a.1 + b.0, b.1, c.0, c.1, more);
    assert a == (a.0, a.1) && b == (b.0, b.1) && c == (c.0, c.1);
  }

  // ----- the printed format -----

  function PrintedPairs(t: Tm): seq<(string, string)>
    requires 0 <= t.mon <= 11
  {
    [(", " + Sign(t.mday), NatToString(Abs(t.mday))), (" ", MONTHS[t.mon]),
     (" ", NatToString(PrintedYear(t))), (" " + Sign(t.hour), NatToString(Abs(t.hour))),
     (":" + Sign(t.min), NatToString(Abs(t.min))), (":" + Sign(t.sec), NatToString(Abs(t.sec)))]
  }

  function PrintedWords(t: Tm): (ws: seq<string>)
    requires 0 <= t.wday <= 6 && 0 <= t.mon <= 11
    ensures |ws| == 8
  {
    [SHORT_DAYS[t.wday], NatToString(Abs(t.mday)), MONTHS[t.mon], NatToString(PrintedYear(t)),
     NatToString(Abs(t.hour)), NatToString(Abs(t.min)), NatToString(Abs(t.sec)), "GMT"]
  }

  lemma RegroupOne(p: string, sep: string, sign: string, n: string)
    ensures p + sep + (sign + n) == p + (sep + sign) + n
  {
  }

  /** The printed date is these words and separators. */
  lemma PrintedIs(t: Tm)
    requires 0 <= t.wday <= 6 && 0 <= t.mon <= 11
    ensures TimeTToString(t) == Some(Text(SHORT_DAYS[t.wday], PrintedPairs(t)) + [' '] + "GMT")
  {
    IntIs(t.mday);
    IntIs(t.hour);
    IntIs(t.min);
    IntIs(t.sec);
    SixMore(SHORT_DAYS[t.wday], PrintedPairs(t));
    var p0 := SHORT_DAYS[t.wday];
    RegroupOne(p0, ", ", Sign(t.mday), NatToString(Abs(t.mday)));
    var p1 := p0 + ", " + IntToString(t.mday) + " " + MONTHS[t.mon] + " " + NatToString(PrintedYear(t));
    RegroupOne(p1, " ", Sign(t.hour), NatToString(Abs(t.hour)));
    var p2 := p1 + " " + IntToString(t.hour);
    RegroupOne(p2, ":", Sign(t.min), NatToString(Abs(t.min)));
    var p3 := p2 + ":" + IntToString(t.min);
    RegroupOne(p3, ":", Sign(t.sec), NatToString(Abs(t.sec)));
    assert " GMT" == [' '] + "GMT";
    var p4 := p3 + ":" + IntToString(t.sec);
    assert p4 + " GMT" == p4 + [' '] + "GMT";
  }

  lemma SeparatorsOK(n: int)
    ensures IsSeparator(", " + Sign(n)) && IsSeparator(" " + Sign(n)) && IsSeparator(":" + Sign(n))
    ensures IsSeparator(" ") && IsWord("GMT")
  {
  }

  lemma PrintedWellSeparated(t: Tm)
    requires 0 <= t.mon <= 11
    ensures WellSeparated(PrintedPairs(t))
  {
    SeparatorsOK(t.mday);
    SeparatorsOK(t.hour);
    SeparatorsOK(t.min);
    SeparatorsOK(t.sec);
    NamesAreWords();
    DigitsWord(NatToString(Abs(t.mday)));
    DigitsWord(NatToString(PrintedYear(t)));
    DigitsWord(NatToString(Abs(t.hour)));
    DigitsWord(NatToString(Abs(t.min)));
    DigitsWord(NatToString(Abs(t.sec)));
  }

  lemma TextThenWord(w: string, m: seq<(string, string)>, last: string)
    requires IsWord(w) && WellSeparated(m) && IsWord(last)
    ensures Tokens(Text(w, m) + [' '] + last) == [w] + Words(m) + [last]
  {
    TextTokens(w, m);
    TokensAround(Text(w, m), ' ', last);
    TokensOfWord(last);
  }

  lemma PrintedWordsAre(t: Tm)
    requires 0 <= t.wday <= 6 && 0 <= t.mon <= 11
    ensures [SHORT_DAYS[t.wday]] + Words(PrintedPairs(t)) + ["GMT"] == PrintedWords(t)
  {
    SixMore(SHORT_DAYS[t.wday], PrintedPairs(t));
  }

  /** The tokens of a printed date. */
  lemma PrintedTokens(t: Tm)
    requires 0 <= t.wday <= 6 && 0 <= t.mon <= 11
    ensures TimeTToString(t).Some? && Tokens(TimeTToString(t).value) == PrintedWords(t)
  {
    PrintedIs(t);
    PrintedWellSeparated(t);
    NamesAreWords();
    SeparatorsOK(0);
    TextThenWord(SHORT_DAYS[t.wday], PrintedPairs(t), "GMT");
    PrintedWordsAre(t);
  }

  // ----- printing and parsing -----

  /** The fields are `int`s. */
  ghost predicate AreInts(t: Tm) {
    forall c :: -2147483648 <= Get(t, c) <= 2147483647
  }

  /** A field of a printable date that comes back as it was. */
  predicate FieldSurvives(t: Tm, c: TimeChunk) {
    match c
    case DayOfWeek => true
    case Day => 0 <= t.mday
    case Month => true
    case Year => 100 <= t.year + ZERO_YEAR <= INT_MAX
    case Hour => 0 <= t.hour <= 23
    case Minute => 0 <= t.min <= 59
    case Second => 0 <= t.sec <= 59
  }

  /** The word a field is printed as. */
  function WordFor(t: Tm, c: TimeChunk): string
    requires 0 <= t.wday <= 6 && 0 <= t.mon <= 11
  {
    match c
    case DayOfWeek => SHORT_DAYS[t.wday]
    case Month => MONTHS[t.mon]
    case Year => NatToString(PrintedYear(t))
    case _ => NatToString(Abs(Get(t, c)))
  }

  lemma PrintedAt(t: Tm, c: TimeChunk)
    requires 0 <= t.wday <= 6 && 0 <= t.mon <= 11
    ensures PrintedWords(t)[Place(0, c)] == WordFor(t, c)
  {
  }

  lemma PrintedFits(t: Tm, c: TimeChunk)
    requires 0 <= t.wday <= 6 && 0 <= t.mon <= 11 && AreInts(t)
    ensures Fits(t, c, PrintedWords(t)[Place(0, c)]) <==> FieldSurvives(t, c)
  {
    PrintedAt(t, c);
    assert INT_MIN <= Get(t, c) <= INT_MAX;
    if c == DayOfWeek {
      DayNames(t.wday);
    } else if c == Month {
      MonthNames(t.mon);
    } else if c == Year {
      YearFits(t);
    } else {
      NumberFits(t, c, Get(t, c));
    }
  }

  lemma YearFits(t: Tm)
    requires INT_MIN <= t.year <= INT_MAX
    ensures Fits(t, Year, NatToString(PrintedYear(t))) <==> FieldSurvives(t, Year)
  {
    StoiOfPrinted(PrintedYear(t));
  }

  lemma NumberFits(t: Tm, c: TimeChunk, n: int)
    requires c != DayOfWeek && c != Month && c != Year && n == Get(t, c) && INT_MIN <= n <= INT_MAX
    ensures Fits(t, c, NatToString(Abs(n))) <==> FieldSurvives(t, c)
  {
    StoiOfPrinted(Abs(n));
  }

  /** Parsing to `t` is matching `t` in the detected order. */
  lemma ParsesByStandard(str: string, ts: seq<string>, k: nat, t: Tm)
    requires ts == Tokens(str) && (|ts| == 7 || |ts| == 8) && k == DetectTimeStandard(ts)
    ensures |TIME_STANDARDS[k]| == 7
    ensures ParsesTo(str, Ok(t)) <==> FieldsMatch(ts, TIME_STANDARDS[k], t)
  {
    StandardsShape(k);
  }

  lemma PrintedMatches(t: Tm)
    requires 0 <= t.wday <= 6 && 0 <= t.mon <= 11 && AreInts(t)
    ensures |TIME_STANDARDS[0]| == 7
    ensures FieldsMatch(PrintedWords(t), TIME_STANDARDS[0], t) <==> forall c :: FieldSurvives(t, c)
  {
    Match(PrintedWords(t), 0, t);
    forall c ensures Fits(t, c, PrintedWords(t)[Place(0, c)]) <==> FieldSurvives(t, c) {
      PrintedFits(t, c);
    }
    SameForAll(t, PrintedWords(t));
  }

  lemma SameForAll(t: Tm, ws: seq<string>)
    requires |ws| >= 7
    requires forall c :: Fits(t, c, ws[Place(0, c)]) <==> FieldSurvives(t, c)
    ensures (forall c :: Fits(t, c, ws[Place(0, c)])) <==> forall c :: FieldSurvives(t, c)
  {
    if forall c :: Fits(t, c, ws[Place(0, c)]) {
      forall c ensures FieldSurvives(t, c) {
        assert Fits(t, c, ws[Place(0, c)]);
      }
    }
    if forall c :: FieldSurvives(t, c) {
      forall c ensures Fits(t, c, ws[Place(0, c)]) {
        assert FieldSurvives(t, c);
      }
    }
  }

  /** A printable date is parsed back to itself if and only if its day is not negative, its time of day is
      one, and its year is from 100 to the largest `int`. */
  lemma DateRoundTripIff(t: Tm)
    requires TimeTToString(t).Some? && AreInts(t)
    ensures ParsesTo(TimeTToString(t).value, Ok(t)) <==>
              && 0 <= t.mday && 100 <= t.year + 1900 <= 2147483647
              && 0 <= t.hour <= 23 && 0 <= t.min <= 59 && 0 <= t.sec <= 59
  {
    PrintedTokens(t);
    PrintedStandard(t);
    ParsesByStandard(TimeTToString(t).value, PrintedWords(t), 0, t);
    PrintedMatches(t);
    SurvivorsAre(t);
  }

  lemma PrintedStandard(t: Tm)
    requires 0 <= t.wday <= 6 && 0 <= t.mon <= 11
    ensures DetectTimeStandard(PrintedWords(t)) == 0
  {
    PrintedAt(t, Day);
    DigitsWord(WordFor(t, Day));
  }

  lemma SurvivorsAre(t: Tm)
    ensures (forall c :: FieldSurvives(t, c)) <==>
              && 0 <= t.mday && 100 <= t.year + 1900 <= 2147483647
              && 0 <= t.hour <= 23 && 0 <= t.min <= 59 && 0 <= t.sec <= 59
  {
    assert FieldSurvives(t, Day) <==> 0 <= t.mday;
    assert FieldSurvives(t, Year) <==> 100 <= t.year + ZERO_YEAR <= INT_MAX;
    assert FieldSurvives(t, Hour) <==> 0 <= t.hour <= 23;
    assert FieldSurvives(t, Minute) <==> 0 <= t.min <= 59;
    assert FieldSurvives(t, Second) <==> 0 <= t.sec <= 59;
  }

  // ----- parsing and printing -----

  /** A string has one outcome. */
  lemma ParseIsUnique(str: string, r1: Result<Tm, TimeError>, r2: Result<Tm, TimeError>)
    requires ParsesTo(str, r1) && ParsesTo(str, r2)
    ensures r1 == r2
  {
    var ts := Tokens(str);
    if |ts| == 7 || |ts| == 8 {
      FieldsUnique(ts, DetectTimeStandard(ts), r1, r2);
    }
  }

  lemma MatchIsNotBad(ts: seq<string>, o: seq<TimeChunk>, t: Tm, i: nat)
    requires |o| <= |ts| && i < |o| && FieldsMatch(ts, o, t)
    ensures !FirstBad(ts, o, i)
  {
    assert FieldOf(o[i], ts[i]) == Some(Get(t, o[i]));
  }

  lemma OneKind(ts: seq<string>, o: seq<TimeChunk>, r1: Result<Tm, TimeError>, r2: Result<Tm, TimeError>)
    requires |o| <= |ts| && FieldsParseTo(ts, o, r1) && FieldsParseTo(ts, o, r2)
    ensures r1.Ok? ==> r2.Ok?
  {
    if r1.Ok? {
      forall i | 0 <= i < |o| ensures !FirstBad(ts, o, i) {
        MatchIsNotBad(ts, o, r1.value, i);
      }
    }
  }

  lemma FieldsUnique(ts: seq<string>, k: nat, r1: Result<Tm, TimeError>, r2: Result<Tm, TimeError>)
    requires |ts| >= 7 && k < 2
    requires |TIME_STANDARDS[k]| <= |ts|
    requires FieldsParseTo(ts, TIME_STANDARDS[k], r1) && FieldsParseTo(ts, TIME_STANDARDS[k], r2)
    ensures r1 == r2
  {
    var o := TIME_STANDARDS[k];
    OneKind(ts, o, r1, r2);
    OneKind(ts, o, r2, r1);
    if r1.Ok? {
      Match(ts, k, r1.value);
      Match(ts, k, r2.value);
      SameFields(ts, k, r1.value, r2.value);
    } else {
      var i :| 0 <= i < |o| && FirstBad(ts, o, i) && r1.error == BadChunk(o[i], ts[i]);
      var j :| 0 <= j < |o| && FirstBad(ts, o, j) && r2.error == BadChunk(o[j], ts[j]);
      FirstBadUnique(ts, o, i, j);
    }
  }

  lemma FirstBadUnique(ts: seq<string>, o: seq<TimeChunk>, i: nat, j: nat)
    requires |o| <= |ts| && i < |o| && j < |o| && FirstBad(ts, o, i) && FirstBad(ts, o, j)
    ensures i == j
  {
  }

  lemma SameFields(ts: seq<string>, k: nat, t1: Tm, t2: Tm)
    requires |ts| >= 7
    requires (forall c :: Fits(t1, c, ts[Place(k, c)])) && (forall c :: Fits(t2, c, ts[Place(k, c)]))
    ensures t1 == t2
  {
    forall c ensures Get(t1, c) == Get(t2, c) {
      assert Fits(t1, c, ts[Place(k, c)]) && Fits(t2, c, ts[Place(k, c)]);
    }
    SameGets(t1, t2);
  }

  lemma SameGets(t1: Tm, t2: Tm)
    requires forall c :: Get(t1, c) == Get(t2, c)
    ensures t1 == t2
  {
    assert Get(t1, DayOfWeek) == Get(t2, DayOfWeek) && Get(t1, Day) == Get(t2, Day);
    assert Get(t1, Month) == Get(t2, Month) && Get(t1, Year) == Get(t2, Year);
    assert Get(t1, Hour) == Get(t2, Hour) && Get(t1, Minute) == Get(t2, Minute);
    assert Get(t1, Second) == Get(t2, Second);
  }

  /** What can be said of a field that was parsed. */
  predicate ParsedRange(c: TimeChunk, n: int) {
    match c
    case DayOfWeek => 0 <= n <= 6
    case Year => 100 <= n + ZERO_YEAR <= INT_MAX
    case Hour => 0 <= n <= 23
    case Minute => 0 <= n <= 59
    case Second => 0 <= n <= 59
    case _ => 0 <= n <= INT_MAX
  }

  lemma ParsedInRange(c: TimeChunk, token: string)
    requires FieldOf(c, token).Some?
    ensures ParsedRange(c, FieldOf(c, token).value)
  {
  }

  /** An accepted date can be printed if and only if its month is one (a month given by its number is not
      checked by the parser), and what is printed is parsed to the same date. */
  lemma ParsedNormalForm(str: string, t: Tm)
    requires ParsesTo(str, Ok(t))
    ensures TimeTToString(t).Some? <==> t.mon <= 11
    ensures t.mon <= 11 ==> ParsesTo(TimeTToString(t).value, Ok(t))
  {
    var ts := Tokens(str);
    var k := DetectTimeStandard(ts);
    Match(ts, k, t);
    forall c ensures ParsedRange(c, Get(t, c)) {
      assert Fits(t, c, ts[Place(k, c)]);
      ParsedInRange(c, ts[Place(k, c)]);
    }
    RangesAre(t);
    if t.mon <= 11 {
      DateRoundTripIff(t);
    }
  }

  lemma RangesAre(t: Tm)
    requires forall c :: ParsedRange(c, Get(t, c))
    ensures 0 <= t.wday <= 6 && 0 <= t.mday && 0 <= t.mon && 100 <= t.year + ZERO_YEAR <= INT_MAX
    ensures 0 <= t.hour <= 23 && 0 <= t.min <= 59 && 0 <= t.sec <= 59
    ensures AreInts(t)
  {
    assert ParsedRange(DayOfWeek, Get(t, DayOfWeek)) && ParsedRange(Day, Get(t, Day));
    assert ParsedRange(Month, Get(t, Month)) && ParsedRange(Year, Get(t, Year));
    assert ParsedRange(Hour, Get(t, Hour)) && ParsedRange(Minute, Get(t, Minute));
    assert ParsedRange(Second, Get(t, Second));
    forall c ensures INT_MIN <= Get(t, c) <= INT_MAX {
      assert ParsedRange(c, Get(t, c));
    }
  }
}
