/** HTTP-date (section 7.1.1.1 of RFC 7231): printing in the preferred format, and parsing of the three
    formats through a tokenizer, a choice between two field orders and a conversion per field. */
module DateTime {
  import opened Common
  import opened Decimal

  /** The seven fields of `struct tm` that are printed and parsed; `year` counts from 1900 and `mon`
      from 0, as in C. */
  datatype Tm = Tm(wday: int, mday: int, mon: int, year: int, hour: int, min: int, sec: int)

  const ZERO_TM := Tm(0, 0, 0, 0, 0, 0, 0)

  const ZERO_YEAR := 1900

  const SHORT_DAYS: seq<string> := ["Sun", "Mon", "Tue", "Wed", "Thu", "Fri", "Sat"]
  const LONG_DAYS: seq<string> :=
    ["Sunday", "Monday", "Tuesday", "Wednesday", "Thursday", "Friday", "Saturday"]
  const MONTHS: seq<string> :=
    ["Jan", "Feb", "Mar", "Apr", "May", "Jun", "Jul", "Aug", "Sep", "Oct", "Nov", "Dec"]

  /** Look-up in the table from day names, short or long, to numbers. */
  function DayId(name: string): Option<int> {
    var s, l := IndexOf(SHORT_DAYS, name), IndexOf(LONG_DAYS, name);
    if s < 7 then Some(s) else if l < 7 then Some(l) else None
  }

  /** Look-up in the table from month names to numbers. */
  function MonthId(name: string): Option<int> {
    var m := IndexOf(MONTHS, name);
    if m < 12 then Some(m) else None
  }

  // ----- tokens -----

  /** `isdigit(c) || isalpha(c)` in the C locale. */
  predicate IsAlnum(c: char) {
    IsDigit(c) || 'a' <= c <= 'z' || 'A' <= c <= 'Z'
  }

  predicate AllAlnum(s: string) {
    forall i :: 0 <= i < |s| ==> IsAlnum(s[i])
  }

  /** The tokens with one more character on the last of them. */
  function Extended(ts: seq<string>, c: char): (r: seq<string>)
    requires ts != []
    ensures r != []
  {
    ts[..|ts| - 1] + [ts[|ts| - 1] + [c]]
  }

  /** The maximal runs of letters and digits, in order. */
  function Tokens(s: string): (ts: seq<string>)
    ensures s != "" && IsAlnum(s[|s| - 1]) ==> ts != []
  {
    if s == "" then []
    else
      var before, c := s[..|s| - 1], s[|s| - 1];
      var ts := Tokens(before);
      if !IsAlnum(c) then ts
      else if before != "" && IsAlnum(before[|before| - 1]) then
        Extended(ts, c)
      else ts + [[c]]
  }

  method TokenizeDateString(str: string) returns (tokens: seq<string>)
    ensures tokens == Tokens(str)
  {
    tokens := [];
    var onToken := false;
    for i := 0 to |str|
      invariant tokens == Tokens(str[..i])
      invariant onToken <==> i > 0 && IsAlnum(str[i - 1])
    {
      var c := str[i];
      var info := IsAlnum(c);
      assert str[..i + 1][..i] == str[..i];
      if !onToken && info {
        tokens := tokens + [[c]];
        onToken := true;
      } else if onToken && info {
        tokens := tokens[|tokens| - 1 := tokens[|tokens| - 1] + [c]];
      } else if !info {
        onToken := false;
      }
    }
    assert str[..|str|] == str;
  }

  // ----- field orders -----

  datatype TimeChunk = DayOfWeek | Day | Month | Year | Hour | Minute | Second

  /** The field orders: of IMF-fixdate and of the RFC 850 format first, of asctime second. */
  const TIME_STANDARDS: seq<seq<TimeChunk>> := [
    [DayOfWeek, Day, Month, Year, Hour, Minute, Second],
    [DayOfWeek, Month, Day, Hour, Minute, Second, Year]
  ]

  function DetectTimeStandard(tokens: seq<string>): (res: int)
    requires |tokens| >= 2
    ensures res == 1 <==> tokens[1] in MONTHS
    ensures 0 <= res < |TIME_STANDARDS|
  {
    if MonthId(tokens[1]).Some? then 1 else 0
  }

  // ----- parsing -----

  datatype TimeError = BadTokensSize(count: nat) | BadChunk(chunk: TimeChunk, token: string)

  predicate InRange(chunk: TimeChunk, n: int) {
    match chunk
    case Hour => 0 <= n <= 23
    case Minute => 0 <= n <= 59
    case Second => 0 <= n <= 59
    case _ => true
  }

  /** The number a token stands for as a field, before it is stored: `None` is the exception. */
  function FieldOf(chunk: TimeChunk, token: string): Option<int> {
    match chunk
    case DayOfWeek => DayId(token)
    case Month => if MonthId(token).Some? then MonthId(token) else Stoi(token)
    case Year => (
      match Stoi(token)
      case None => None
      case Some(y) => Some((if y < 100 then y + 2000 else y) - ZERO_YEAR))
    case _ =>
      var n := Stoi(token);
      if n.Some? && InRange(chunk, n.value) then n else None
  }

  function Get(t: Tm, chunk: TimeChunk): int {
    match chunk
    case DayOfWeek => t.wday
    case Day => t.mday
    case Month => t.mon
    case Year => t.year
    case Hour => t.hour
    case Minute => t.min
    case Second => t.sec
  }

  function Set(t: Tm, chunk: TimeChunk, n: int): Tm {
    match chunk
    case DayOfWeek => t.(wday := n)
    case Day => t.(mday := n)
    case Month => t.(mon := n)
    case Year => t.(year := n)
    case Hour => t.(hour := n)
    case Minute => t.(min := n)
    case Second => t.(sec := n)
  }

  /** The tokens agree with the fields of `t`, each at its place in the given order. */
  ghost predicate FieldsMatch(tokens: seq<string>, order: seq<TimeChunk>, t: Tm)
    requires |order| <= |tokens|
  {
    forall i :: 0 <= i < |order| ==> FieldOf(order[i], tokens[i]) == Some(Get(t, order[i]))
  }

  /** What the parser must do with a string.  It succeeds with `t` exactly when there are seven or eight
      tokens and they agree with `t` in the detected order; otherwise the error names the first token,
      in that order, that is not a value of its field. */
  ghost predicate ParsesTo(str: string, r: Result<Tm, TimeError>) {
    var tokens := Tokens(str);
    if |tokens| != 7 && |tokens| != 8 then
      r == Err(BadTokensSize(|tokens|))
    else
      FieldsParseTo(tokens, TIME_STANDARDS[DetectTimeStandard(tokens)], r)
  }

  ghost predicate FieldsParseTo(tokens: seq<string>, order: seq<TimeChunk>, r: Result<Tm, TimeError>)
    requires |order| <= |tokens|
  {
    match r
    case Ok(t) => FieldsMatch(tokens, order, t)
    case Err(e) =>
      exists i :: 0 <= i < |order| && FirstBad(tokens, order, i) && e == BadChunk(order[i], tokens[i])
  }

  ghost predicate FirstBad(tokens: seq<string>, order: seq<TimeChunk>, i: nat)
    requires |order| <= |tokens| && i < |order|
  {
    && FieldOf(order[i], tokens[i]).None?
    && forall j :: 0 <= j < i ==> FieldOf(order[j], tokens[j]).Some?
  }

  lemma SetThenGet(t: Tm, c: TimeChunk, n: int, d: TimeChunk)
    ensures Get(Set(t, c, n), d) == if c == d then n else Get(t, d)
  {
  }

  lemma StandardsShape(k: nat)
    requires k < |TIME_STANDARDS|
    ensures |TIME_STANDARDS[k]| == 7 && NoDup(TIME_STANDARDS[k])
  {
  }

  method StringToTimeT(str: string) returns (r: Result<Tm, TimeError>)
    ensures ParsesTo(str, r)
  {
    var tokens := TokenizeDateString(str);
    if !(|tokens| == 8 || |tokens| == 7) {
      return Err(BadTokensSize(|tokens|));
    }
    var standard := DetectTimeStandard(tokens);
    StandardsShape(standard);
    r := ParseFields(tokens, TIME_STANDARDS[standard]);
  }

  /** The loop over the fields of the chosen order. */
  method ParseFields(tokens: seq<string>, order: seq<TimeChunk>) returns (r: Result<Tm, TimeError>)
    requires |order| <= |tokens| && NoDup(order)
    ensures FieldsParseTo(tokens, order, r)
  {
    var t := ZERO_TM;
    for i := 0 to |order|
      invariant forall j :: 0 <= j < i ==> FieldOf(order[j], tokens[j]) == Some(Get(t, order[j]))
    {
      var n := FieldOf(order[i], tokens[i]);
      if n.None? {
        assert FirstBad(tokens, order, i);
        return Err(BadChunk(order[i], tokens[i]));
      }
      forall j | 0 <= j <= i
        ensures Get(Set(t, order[i], n.value), order[j]) == if j == i then n.value else Get(t, order[j])
      {
        SetThenGet(t, order[i], n.value, order[j]);
      }
      t := Set(t, order[i], n.value);
    }
    return Ok(t);
  }

  // ----- printing -----

  /** Year arithmetic is unsigned in the source, so the printed year wraps. */
  function PrintedYear(t: Tm): nat {
    (t.year + ZERO_YEAR) % UNSIGNED_RANGE
  }

  /** `None` when a name look-up throws, which is for a day of the week or a month out of range. */
  function TimeTToString(t: Tm): (r: Option<string>)
    ensures r.Some? <==> 0 <= t.wday <= 6 && 0 <= t.mon <= 11
  {
    if 0 <= t.wday <= 6 && 0 <= t.mon <= 11 then
      Some(SHORT_DAYS[t.wday] + ", " + IntToString(t.mday) + " " + MONTHS[t.mon] + " " +
           NatToString(PrintedYear(t)) + " " + IntToString(t.hour) + ":" + IntToString(t.min) + ":" +
           IntToString(t.sec) + " GMT")
    else None
  }
}
