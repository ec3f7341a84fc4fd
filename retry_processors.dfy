/** The two retry policies shipped with the library. The base processor's
    admission decision (its retry counter against `max_retry`) is an input
    here, as is the wall clock; the sleeps, the log call and the autologin
    call are recorded as effects, in the order they happen. */
module RetryProcessors {
  import opened Strings

  /** Something a policy does besides answering. */
  datatype Effect =
    | LogRetry(retryAfter: int)   // client.log(event=LogEvent.RETRY, retry_after=...)
    | Sleep(seconds: int)         // time.sleep or asyncio.sleep
    | CallAutologin               // a synchronous client.autologin() call

  /** A decision together with the effects performed to reach it. */
  datatype Outcome = Outcome(retry: bool, effects: seq<Effect>)

  /** The client's flavour, as `isinstance(client, SyncLimaApi)` sees it. */
  datatype ClientKind = SyncApi | AsyncApi

  // ---------------------------------------------------------------------
  // HTTP-date (IMF-fixdate, section 5.6.7 of RFC 9110)
  // ---------------------------------------------------------------------

  /** The calendar fields of a parsed date; the weekday is matched but not
      kept, because `strptime` does not check it against the date. */
  datatype DateTime = DateTime(year: int, month: int, day: int, hour: int, minute: int, second: int)

  const DAY_NAMES: seq<string> := ["mon", "tue", "wed", "thu", "fri", "sat", "sun"]
  const MONTH_NAMES: seq<string> :=
    ["jan", "feb", "mar", "apr", "may", "jun", "jul", "aug", "sep", "oct", "nov", "dec"]

  predicate IsLeap(y: int)
  {
    y % 4 == 0 && (y % 100 != 0 || y % 400 == 0)
  }

  function DaysInMonth(y: int, m: int): (r: int)
    requires 1 <= m <= 12
    ensures 28 <= r <= 31
  {
    if m == 2 then (if IsLeap(y) then 29 else 28)
    else if m == 4 || m == 6 || m == 9 || m == 11 then 30
    else 31
  }

  /** The fields name an existing instant that `datetime` accepts. */
  predicate ValidDate(d: DateTime)
  {
    1 <= d.year <= 9999 && 1 <= d.month <= 12 && 1 <= d.day <= DaysInMonth(d.year, d.month)
    && 0 <= d.hour <= 23 && 0 <= d.minute <= 59 && 0 <= d.second <= 59
  }

  /** The 0-based index of `name` in `names`, compared case-insensitively. */
  function IndexOfName(names: seq<string>, name: string): (r: Option<nat>)
    ensures r.Some? ==> r.value < |names| && names[r.value] == LowerStr(name)
    ensures r.None? ==> LowerStr(name) !in names
  {
    if |names| == 0 then None
    else if names[0] == LowerStr(name) then Some(0)
    else match IndexOfName(names[1..], name)
      case None => None
      case Some(i) => Some(i + 1)
  }

  /** The position of the first entry equal to the lower-cased name. */
  lemma {:induction false} IndexOfNameFirst(names: seq<string>, name: string, i: nat)
    requires i < |names| && names[i] == LowerStr(name)
    requires forall j :: 0 <= j < i ==> names[j] != names[i]
    ensures IndexOfName(names, name) == Some(i)
  {
    if i > 0 {
      IndexOfNameFirst(names[1..], name, i - 1);
    }
  }

  /** Two decimal digits. */
  function Digits2(s: string): (r: Option<nat>)
    ensures r.Some? ==> r.value < 100
  {
    if |s| == 2 && AllDigits(s) then Some(DigitValue(s[0]) * 10 + DigitValue(s[1])) else None
  }

  /** `datetime.strptime(s, "%a, %d %b %Y %H:%M:%S %Z")` for the fixed-width
      form "Sun, 06 Nov 1994 08:49:37 GMT": `None` where Python raises
      ValueError (wrong shape, unknown names, or a date that does not exist). */
  function ParseHttpDate(s: string): (r: Option<DateTime>)
    ensures r.Some? ==> ValidDate(r.value) && |s| == 29
  {
    if HttpDateShape(s) then ParseHttpDateFields(s) else None
  }

  /** The separators of the fixed-width form are in place and the year is
      four digits. */
  predicate HttpDateShape(s: string)
  {
    |s| == 29 && s[3..5] == ", " && s[7] == ' ' && s[11] == ' ' && s[16] == ' '
    && s[19] == ':' && s[22] == ':' && s[25] == ' ' && AllDigits(s[12..16])
  }

  function ParseHttpDateFields(s: string): (r: Option<DateTime>)
    requires HttpDateShape(s)
    ensures r.Some? ==> ValidDate(r.value)
  {
    var wd := IndexOfName(DAY_NAMES, s[..3]);
    var mo := IndexOfName(MONTH_NAMES, s[8..11]);
    var day := Digits2(s[5..7]);
    var hh := Digits2(s[17..19]);
    var mm := Digits2(s[20..22]);
    var ss := Digits2(s[23..25]);
    var zone := LowerStr(s[26..]);
    if wd.None? || mo.None? || day.None? || hh.None? || mm.None? || ss.None? then None
    else if zone != "gmt" && zone != "utc" then None
    else
      var d := DateTime(DigitsValue(s[12..16]), mo.value + 1, day.value, hh.value, mm.value, ss.value);
      if ValidDate(d) then Some(d) else None
  }

  /** The names as RFC 9110 writes them in an IMF-fixdate. */
  const DAY_DISPLAY: seq<string> := ["Mon", "Tue", "Wed", "Thu", "Fri", "Sat", "Sun"]
  const MONTH_DISPLAY: seq<string> :=
    ["Jan", "Feb", "Mar", "Apr", "May", "Jun", "Jul", "Aug", "Sep", "Oct", "Nov", "Dec"]

  function Pad2(n: nat): (r: string)
    requires n < 100
    ensures |r| == 2
  {
    [DigitChar(n / 10), DigitChar(n % 10)]
  }

  function Pad4(n: nat): (r: string)
    requires n < 10000
    ensures |r| == 4 && AllDigits(r)
  {
    Pad2(n / 100) + Pad2(n % 100)
  }

  /** The IMF-fixdate text of `d` with weekday `wd` (0 = Monday). */
  function FormatHttpDate(d: DateTime, wd: nat): (r: string)
    requires ValidDate(d) && wd < 7
    ensures |r| == 29
  {
    DAY_DISPLAY[wd] + ", " + Pad2(d.day) + " " + MONTH_DISPLAY[d.month - 1] + " " + Pad4(d.year)
    + " " + Pad2(d.hour) + ":" + Pad2(d.minute) + ":" + Pad2(d.second) + " GMT"
  }

  lemma Digits2Pad2(n: nat)
    requires n < 100
    ensures Digits2(Pad2(n)) == Some(n)
  {
    var s := Pad2(n);
    assert DigitValue(s[0]) == n / 10 && DigitValue(s[1]) == n % 10;
  }

  lemma DigitsValuePad4(n: nat)
    requires n < 10000
    ensures DigitsValue(Pad4(n)) == n
  {
    var s := Pad4(n);
    var a, b := n / 100, n % 100;
    assert s == [DigitChar(a / 10), DigitChar(a % 10), DigitChar(b / 10), DigitChar(b % 10)];
    assert s[..3][..2] == s[..2] && s[..2][..1] == s[..1] && s[..1][..0] == [];
    assert DigitsValue(s[..1]) == a / 10;
    assert DigitsValue(s[..2]) == a;
    assert DigitsValue(s[..3]) == a * 10 + b / 10;
  }

  lemma NamesLower(wd: nat, m: nat)
    requires wd < 7 && m < 12
    ensures LowerStr(DAY_DISPLAY[wd]) == DAY_NAMES[wd]
    ensures LowerStr(MONTH_DISPLAY[m]) == MONTH_NAMES[m]
  {
    DayNameLower(wd);
    MonthNameLower(m);
  }

  lemma DayNameLower(wd: nat)
    requires wd < 7
    ensures LowerStr(DAY_DISPLAY[wd]) == DAY_NAMES[wd]
  {
  }

  lemma MonthNameLower(m: nat)
    requires m < 12
    ensures LowerStr(MONTH_DISPLAY[m]) == MONTH_NAMES[m]
  {
    if m < 6 {
      FirstMonthsLower(m);
    } else {
      LastMonthsLower(m);
    }
  }

  lemma FirstMonthsLower(m: nat)
    requires m < 6
    ensures LowerStr(MONTH_DISPLAY[m]) == MONTH_NAMES[m]
  {
  }

  lemma LastMonthsLower(m: nat)
    requires 6 <= m < 12
    ensures LowerStr(MONTH_DISPLAY[m]) == MONTH_NAMES[m]
  {
  }

  /** A date written as an IMF-fixdate, with any weekday name, parses back to
      itself: `strptime` does not check the weekday. */
  lemma HttpDateRoundTrip(d: DateTime, wd: nat)
    requires ValidDate(d) && wd < 7
    ensures ParseHttpDate(FormatHttpDate(d, wd)) == Some(d)
  {
    var s := FormatHttpDate(d, wd);
    FormatSlices(d, wd);
    NamesLower(wd, d.month - 1);
    DayNamesDistinct();
    MonthNamesDistinct();
    IndexOfNameFirst(DAY_NAMES, s[..3], wd);
    IndexOfNameFirst(MONTH_NAMES, s[8..11], d.month - 1);
    Digits2Pad2(d.day);
    Digits2Pad2(d.hour);
    Digits2Pad2(d.minute);
    Digits2Pad2(d.second);
    DigitsValuePad4(d.year);
    assert LowerStr(s[26..]) == "gmt" by {
      assert LowerStr("GMT") == "gmt";
    }
    ParseFieldsOf(s, d);
  }

  lemma DayNamesDistinct()
    ensures forall i, j :: 0 <= j < i < 7 ==> DAY_NAMES[j] != DAY_NAMES[i]
  {
  }

  lemma MonthNamesDistinct()
    ensures forall i, j :: 0 <= j < i < 12 ==> MONTH_NAMES[j] != MONTH_NAMES[i]
  {
  }

  lemma ParseFieldsOf(s: string, d: DateTime)
    requires HttpDateShape(s) && ValidDate(d)
    requires IndexOfName(DAY_NAMES, s[..3]).Some?
    requires IndexOfName(MONTH_NAMES, s[8..11]) == Some(d.month - 1)
    requires Digits2(s[5..7]) == Some(d.day) && Digits2(s[17..19]) == Some(d.hour)
    requires Digits2(s[20..22]) == Some(d.minute) && Digits2(s[23..25]) == Some(d.second)
    requires DigitsValue(s[12..16]) == d.year && LowerStr(s[26..]) == "gmt"
    ensures ParseHttpDateFields(s) == Some(d)
  {
  }

  /** Where each field of a formatted date sits. */
  lemma FormatSlices(d: DateTime, wd: nat)
    requires ValidDate(d) && wd < 7
    ensures var s := FormatHttpDate(d, wd);
            HttpDateShape(s)
            && s[..3] == DAY_DISPLAY[wd] && s[5..7] == Pad2(d.day)
            && s[8..11] == MONTH_DISPLAY[d.month - 1] && s[12..16] == Pad4(d.year)
            && s[17..19] == Pad2(d.hour) && s[20..22] == Pad2(d.minute)
            && s[23..25] == Pad2(d.second) && s[26..] == "GMT"
  {
    DateSlices(DAY_DISPLAY[wd], Pad2(d.day), MONTH_DISPLAY[d.month - 1], Pad4(d.year),
               Pad2(d.hour), Pad2(d.minute), Pad2(d.second));
  }

  /** The positions of the pieces of an IMF-fixdate, whatever they hold. */
  lemma DateSlices(wd: string, day: string, mon: string, year: string, h: string, mi: string, sec: string)
    requires |wd| == 3 && |day| == 2 && |mon| == 3 && |year| == 4 && |h| == 2 && |mi| == 2 && |sec| == 2
    ensures var s := wd + ", " + day + " " + mon + " " + year + " " + h + ":" + mi + ":" + sec + " GMT";
      && |s| == 29 && s[..3] == wd && s[3..5] == ", " && s[5..7] == day && s[7] == ' '
      && s[8..11] == mon && s[11] == ' ' && s[12..16] == year && s[16] == ' '
      && s[17..19] == h && s[19] == ':' && s[20..22] == mi && s[22] == ':' && s[23..25] == sec
      && s[25] == ' ' && s[26..] == "GMT"
  {
    var s := wd + ", " + day + " " + mon + " " + year + " " + h + ":" + mi + ":" + sec + " GMT";
    var p1 := wd + ", " + day + " ";
    var p2 := mon + " " + year + " ";
    var p3 := h + ":" + mi + ":" + sec + " GMT";
    assert s == p1 + p2 + p3;
    assert |p1| == 8 && |p2| == 9 && |p3| == 12;
    assert s[..8] == p1 && s[8..17] == p2 && s[17..] == p3;
    assert p1[..3] == wd && p1[3..5] == ", " && p1[5..7] == day;
    assert p2[..3] == mon && p2[4..8] == year;
    assert p3[..2] == h && p3[3..5] == mi && p3[6..8] == sec;
    assert p3[9..] == "GMT";
  }

  /** Days from 0001-01-01 to the first day of year `y` (proleptic Gregorian). */
  function DaysBeforeYear(y: int): int
    requires y >= 1
  {
    var p := y - 1;
    365 * p + p / 4 - p / 100 + p / 400
  }

  function DaysBeforeMonth(y: int, m: int): int
    requires 1 <= m <= 12
    decreases m
  {
    if m == 1 then 0 else DaysBeforeMonth(y, m - 1) + DaysInMonth(y, m - 1)
  }

  /** Seconds from 0001-01-01T00:00:00 UTC to the instant `d`. */
  function EpochSeconds(d: DateTime): int
    requires ValidDate(d)
  {
    var days := DaysBeforeYear(d.year) + DaysBeforeMonth(d.year, d.month) + d.day - 1;
    days * 86400 + d.hour * 3600 + d.minute * 60 + d.second
  }

  /** `int(x)` of a float holding `micros / 1e6`: truncation toward zero (the
      float's own rounding is not modelled). */
  function TruncSeconds(micros: int): (r: int)
    ensures micros >= 0 ==> 0 <= r * 1000000 <= micros < (r + 1) * 1000000
    ensures micros < 0 ==> (r - 1) * 1000000 < micros <= r * 1000000 <= 0
  {
    if micros >= 0 then micros / 1000000 else -((-micros) / 1000000)
  }

  function Max(a: int, b: int): (r: int)
    ensures r >= a && r >= b && (r == a || r == b)
  {
    if a >= b then a else b
  }

  // ---------------------------------------------------------------------
  // RetryAfterProcessor
  // ---------------------------------------------------------------------

  /** `get_sleep_seconds(retry_after)`: an integer header n gives
      max(n, min_sleep_time); otherwise an HTTP date gives the whole seconds
      from now until then, floored the same way; anything else gives
      min_sleep_time. `nowMicros` is `datetime.now(tz=utc)` in microseconds
      since 0001-01-01T00:00:00 UTC. */
  function SleepSeconds(retryAfter: string, minSleep: int, nowMicros: int): (r: int)
    ensures r >= minSleep
    ensures ParseInt(retryAfter).Some? ==> r == Max(ParseInt(retryAfter).value, minSleep)
    ensures ParseInt(retryAfter).None? && ParseHttpDate(retryAfter).None? ==> r == minSleep
  {
    match ParseInt(retryAfter)
    case Some(n) => Max(n, minSleep)
    case None =>
      match ParseHttpDate(retryAfter)
      case Some(at) => Max(TruncSeconds(EpochSeconds(at) * 1000000 - nowMicros), minSleep)
      case None => minSleep
  }

  /** With a non-negative minimum, an HTTP date at least `minSleep` whole
      seconds ahead is waited for exactly that many whole seconds, and a
      date already past waits the minimum. */
  lemma DateDelay(retryAfter: string, minSleep: int, nowMicros: int)
    requires ParseInt(retryAfter).None? && ParseHttpDate(retryAfter).Some?
    ensures var delta := EpochSeconds(ParseHttpDate(retryAfter).value) * 1000000 - nowMicros;
            var r := SleepSeconds(retryAfter, minSleep, nowMicros);
            (minSleep >= 0 && delta >= minSleep * 1000000 ==> r * 1000000 <= delta < (r + 1) * 1000000)
            && (delta <= 0 && minSleep >= 0 ==> r == minSleep)
  {
  }

  /** The delay of an integer header is never below the header's value. */
  lemma IntegerHeaderHonoured(n: int, minSleep: int, nowMicros: int)
    ensures SleepSeconds(IntToString(n), minSleep, nowMicros) == Max(n, minSleep)
  {
    ParseIntRoundTrip(n);
  }

  /** "120" waits 120 seconds whenever the minimum is at most 120. */
  lemma OneHundredTwenty(minSleep: int, nowMicros: int)
    requires minSleep <= 120
    ensures SleepSeconds("120", minSleep, nowMicros) == 120
  {
    assert IntToString(120) == "120" by {
      assert NatToString(12) == "12";
    }
    IntegerHeaderHonoured(120, minSleep, nowMicros);
  }

  /** The Retry-After header that `do_retry` and `process` look at: the
      header of the response attached to the exception, when there is a
      response and the header is a non-empty string (an empty one is falsy). */
  predicate HasHint(retryAfter: Option<string>)
  {
    retryAfter.Some? && retryAfter.value != ""
  }

  /** `RetryAfterProcessor.do_retry`: answers exactly what the base
      processor answered (`admitted`); only an admitted sync client sleeps,
      for the hinted delay (logged first) or for min_sleep_time. */
  function RetryAfterDoRetry(admitted: bool, client: ClientKind, retryAfter: Option<string>,
                             minSleep: int, nowMicros: int): (r: Outcome)
    ensures r.retry == admitted
    ensures !(admitted && client == SyncApi) ==> r.effects == []
    ensures admitted && client == SyncApi && HasHint(retryAfter) ==>
              var s := SleepSeconds(retryAfter.value, minSleep, nowMicros);
              r.effects == [LogRetry(s), Sleep(s)]
    ensures admitted && client == SyncApi && !HasHint(retryAfter) ==> r.effects == [Sleep(minSleep)]
  {
    if admitted then
      if HasHint(retryAfter) then
        if client == SyncApi then
          var s := SleepSeconds(retryAfter.value, minSleep, nowMicros);
          Outcome(true, [LogRetry(s), Sleep(s)])
        else Outcome(true, [])
      else if client == SyncApi then Outcome(admitted, [Sleep(minSleep)])
      else Outcome(admitted, [])
    else Outcome(admitted, [])
  }

  /** `RetryAfterProcessor.process` (the asynchronous path): always retries,
      after awaiting the hinted delay (logged first) or min_sleep_time. */
  function RetryAfterProcess(retryAfter: Option<string>, minSleep: int, nowMicros: int): (r: Outcome)
    ensures r.retry
    ensures HasHint(retryAfter) ==>
              var s := SleepSeconds(retryAfter.value, minSleep, nowMicros);
              r.effects == [LogRetry(s), Sleep(s)]
    ensures !HasHint(retryAfter) ==> r.effects == [Sleep(minSleep)]
  {
    if HasHint(retryAfter) then
      var s := SleepSeconds(retryAfter.value, minSleep, nowMicros);
      Outcome(true, [LogRetry(s), Sleep(s)])
    else Outcome(true, [Sleep(minSleep)])
  }

  /** Every sleep either policy path performs lasts at least min_sleep_time. */
  lemma RetryAfterSleepsAtLeastMinimum(admitted: bool, client: ClientKind, retryAfter: Option<string>,
                                       minSleep: int, nowMicros: int)
    ensures forall e | e in RetryAfterDoRetry(admitted, client, retryAfter, minSleep, nowMicros).effects ::
              e.Sleep? ==> e.seconds >= minSleep
    ensures forall e | e in RetryAfterProcess(retryAfter, minSleep, nowMicros).effects ::
              e.Sleep? ==> e.seconds >= minSleep
  {
  }

  // ---------------------------------------------------------------------
  // AutoLoginProcessor
  // ---------------------------------------------------------------------

  /** What `hasattr(client, "autologin")` and `iscoroutinefunction` find, and
      what the call would return. */
  datatype Autologin = NoAutologin | SyncAutologin(result: bool) | AsyncAutologin(result: bool)

  /** `AutoLoginProcessor.do_retry`: not admitted gives False; admitted
      without autologin or with an async one gives True (without calling
      it); admitted with a sync one gives what the call returns. */
  function AutoLoginDoRetry(admitted: bool, login: Autologin): (r: Outcome)
    ensures !admitted ==> r == Outcome(false, [])
    ensures admitted && login.NoAutologin? ==> r == Outcome(true, [])
    ensures admitted && login.AsyncAutologin? ==> r == Outcome(true, [])
    ensures admitted && login.SyncAutologin? ==> r == Outcome(login.result, [CallAutologin])
  {
    if admitted && !login.NoAutologin? then
      if login.AsyncAutologin? then Outcome(true, [])
      else Outcome(login.result, [CallAutologin])
    else Outcome(admitted, [])
  }

  /** `AutoLoginProcessor.process`: the awaited result of an async autologin,
      False in every other case (a sync autologin is not called). */
  function AutoLoginProcess(login: Autologin): (r: bool)
    ensures r <==> login.AsyncAutologin? && login.result
  {
    if login.AsyncAutologin? then login.result else false
  }

  /** Only a synchronous autologin is ever called from `do_retry`, and only
      then can an admitted retry be refused. */
  lemma AutoLoginRefusal(admitted: bool, login: Autologin)
    ensures !AutoLoginDoRetry(admitted, login).retry <==>
              !admitted || (login.SyncAutologin? && !login.result)
    ensures CallAutologin in AutoLoginDoRetry(admitted, login).effects <==>
              admitted && login.SyncAutologin?
  {
  }
}
