/**
 * Departure-time text extraction, the `extractTimeHHMM` helper that four
 * components carry in two variants, and the `split(':').map(Number)` step
 * that turns its output into an hour and a minute.
 *
 * Three rules are tried in order:
 *  1. the whole text is `H:MM` or `HH:MM`                  (`/^\d{1,2}:\d{2}$/`)
 *  2. it contains `d/m/yy[yy] h:mm`, leftmost match wins   (`/(\d{1,2})[/-](\d{1,2})[/-](\d{2,4})\s+(\d{1,2}):(\d{2})/`)
 *  3. it contains `THH:MM`, leftmost match wins            (`/T(\d{2}):(\d{2})/`)
 * The date part is always discarded.
 */
module TimeText {
  import opened Wrappers
  import opened Text

  /** Rule 1: the text is exactly `H:MM` or `HH:MM`. */
  predicate IsClock(s: string) {
    || (|s| == 4 && IsDigit(s[0]) && s[1] == ':' && IsDigit(s[2]) && IsDigit(s[3]))
    || (|s| == 5 && IsDigit(s[0]) && IsDigit(s[1]) && s[2] == ':' && IsDigit(s[3]) && IsDigit(s[4]))
  }

  predicate IsDateSep(c: char) { c == '/' || c == '-' }

  /** Length of the maximal run of digits starting at `i`. */
  function DigitRun(s: string, i: nat): (n: nat)
    requires i <= |s|
    ensures i + n <= |s|
    ensures forall k :: i <= k < i + n ==> IsDigit(s[k])
    ensures i + n < |s| ==> !IsDigit(s[i + n])
    decreases |s| - i
  {
    if i < |s| && IsDigit(s[i]) then 1 + DigitRun(s, i + 1) else 0
  }

  /** Length of the maximal run of white space starting at `i`. */
  function SpaceRun(s: string, i: nat): (n: nat)
    requires i <= |s|
    ensures i + n <= |s|
    ensures forall k :: i <= k < i + n ==> IsSpace(s[k])
    ensures i + n < |s| ==> !IsSpace(s[i + n])
    decreases |s| - i
  {
    if i < |s| && IsSpace(s[i]) then 1 + SpaceRun(s, i + 1) else 0
  }

  /**
   * Rule 2 anchored at start index `i`, giving `h:mm` from groups 4 and 5.
   * Every group is followed by a token that needs a non-digit (a separator,
   * white space or `:`), so backtracking can only succeed when each greedy
   * group takes the whole digit run: the match at `i` is unique.
   */
  function DateTimeAt(s: string, i: nat): (r: Option<string>)
    ensures r.Some? ==> IsClock(r.value)
  {
    if i > |s| then None else
    match DateEnd(s, i)
    case None => None
    case Some(w) => ClockAfterDate(s, w)
  }

  /** Groups 1 to 3 at `i`: the index just past the `d/m/yy[yy]` date, if there is one. */
  function DateEnd(s: string, i: nat): (r: Option<nat>)
    requires i <= |s|
    ensures r.Some? ==> r.value <= |s|
  {
    var day := DigitRun(s, i);
    if !(1 <= day <= 2 && i + day < |s| && IsDateSep(s[i + day])) then None else
    var j := i + day + 1;
    var month := DigitRun(s, j);
    if !(1 <= month <= 2 && j + month < |s| && IsDateSep(s[j + month])) then None else
    var k := j + month + 1;
    var year := DigitRun(s, k);
    if !(2 <= year <= 4) then None else Some(k + year)
  }

  /** White space, then groups 4 and 5 after the date ending at `w`, as `h:mm`. */
  function ClockAfterDate(s: string, w: nat): (r: Option<string>)
    requires w <= |s|
    ensures r.Some? ==> IsClock(r.value)
  {
    var gap := SpaceRun(s, w);
    if gap == 0 then None else
    var t := w + gap;
    var hour := DigitRun(s, t);
    if !(1 <= hour <= 2 && t + hour + 3 <= |s| && s[t + hour] == ':') then None else
    var u := t + hour + 1;
    if !(IsDigit(s[u]) && IsDigit(s[u + 1])) then None else
    var h, m := s[t..t + hour], s[u..u + 2];
    assert AllDigits(h) && AllDigits(m);
    ClockOfDigits(h, m);
    Some(h + ":" + m)
  }

  lemma ClockOfDigits(h: string, m: string)
    requires AllDigits(h) && AllDigits(m) && 1 <= |h| <= 2 && |m| == 2
    ensures IsClock(h + ":" + m)
  {
  }

  /** Rule 3 anchored at start index `i`: `T`, two digits, `:`, two digits. */
  function IsoAt(s: string, i: nat): (r: Option<string>)
    ensures r.Some? ==> IsClock(r.value)
  {
    if i + 6 <= |s| && s[i] == 'T' && IsDigit(s[i + 1]) && IsDigit(s[i + 2]) && s[i + 3] == ':'
       && IsDigit(s[i + 4]) && IsDigit(s[i + 5])
    then Some(s[i + 1..i + 6])
    else None
  }

  /** The match of an unanchored pattern: the one at the least start index `>= i`. */
  function Leftmost(s: string, at: (string, nat) -> Option<string>, i: nat): (r: Option<string>)
    requires i <= |s|
    ensures r.Some? <==> exists k :: i <= k < |s| && at(s, k).Some?
    ensures r.Some? ==> exists k :: i <= k < |s| && at(s, k) == r && forall j :: i <= j < k ==> at(s, j).None?
    decreases |s| - i
  {
    if i == |s| then None
    else if at(s, i).Some? then at(s, i)
    else Leftmost(s, at, i + 1)
  }

  /** The match of a pattern at index `k` is found when nothing matches earlier. */
  lemma {:induction false} LeftmostFinds(s: string, at: (string, nat) -> Option<string>, i: nat, k: nat)
    requires i <= k < |s| && at(s, k).Some?
    requires forall j :: i <= j < k ==> at(s, j).None?
    ensures Leftmost(s, at, i) == at(s, k)
    decreases k - i
  {
    if i < k {
      LeftmostFinds(s, at, i + 1, k);
    }
  }

  /**
   * The TVDisplay / StatsPage variant: `null` (None) for empty or unrecognised
   * text, otherwise the rule-1 text itself or the `h:mm` a later rule found.
   */
  function ExtractOrNull(s: string): (r: Option<string>)
    ensures r.Some? ==> IsClock(r.value)
    ensures s == "" ==> r == None
    ensures s != "" && IsClock(s) ==> r == Some(s)
    ensures r == None <==>
      (s == "" || (!IsClock(s)
        && (forall k :: 0 <= k < |s| ==> DateTimeAt(s, k).None?)
        && (forall k :: 0 <= k < |s| ==> IsoAt(s, k).None?)))
  {
    if s == "" then None
    else if IsClock(s) then Some(s)
    else
      var dt := Leftmost(s, DateTimeAt, 0);
      if dt.Some? then dt else Leftmost(s, IsoAt, 0)
  }

  /** The placeholder the PassengerItem / PassengerList variant shows for empty text. */
  const Unknown: string := "??:??"

  /**
   * The PassengerItem / PassengerList variant: `"??:??"` for empty text, the
   * same extraction otherwise, and the raw text when no rule matches.
   */
  function ExtractOrRaw(s: string): (r: string)
    ensures s == "" ==> r == Unknown
    ensures s != "" && ExtractOrNull(s).Some? ==> r == ExtractOrNull(s).value
    ensures s != "" && ExtractOrNull(s).None? ==> r == s
    ensures r != ""
  {
    if s == "" then Unknown
    else match ExtractOrNull(s)
      case Some(t) => t
      case None => s
  }

  /** Any non-null result is already in clock form, so extracting again changes nothing. */
  lemma ExtractIdempotent(s: string)
    ensures ExtractOrNull(s).Some? ==> ExtractOrNull(ExtractOrNull(s).value) == ExtractOrNull(s)
    ensures ExtractOrNull(s).Some? ==> ExtractOrRaw(ExtractOrRaw(s)) == ExtractOrRaw(s)
  {
  }

  // ---------------------------------------------------------------- hour and minute

  /**
   * `Number(piece)`: white space around the digits is ignored, an empty piece
   * is 0, and anything that is not a plain run of digits is NaN (None).
   */
  function JsNumber(piece: string): (r: Option<nat>)
    ensures AllDigits(piece) && piece != "" ==> r == Some(DigitsValue(piece))
  {
    var t := Trim(piece);
    if t == "" then Some(0)
    else if AllDigits(t) then Some(DigitsValue(t))
    else None
  }

  /** The longest run of digits at the start of `s`. */
  function DigitPrefix(s: string): (r: string)
    ensures AllDigits(r) && |r| <= |s| && r == s[..|r|]
    ensures AllDigits(s) ==> r == s
  {
    if s == [] || !IsDigit(s[0]) then []
    else [s[0]] + DigitPrefix(s[1..])
  }

  /**
   * `parseInt(piece)` in base 10: leading white space is skipped and the
   * leading digits are read; no digits is NaN (None).
   */
  function ParseInt(piece: string): (r: Option<nat>)
    ensures AllDigits(piece) && piece != "" ==> r == Some(DigitsValue(piece))
  {
    var d := DigitPrefix(TrimLeft(piece));
    if d == [] then None else Some(DigitsValue(d))
  }

  /**
   * `const [hours, minutes] = text.split(':').map(Number)` followed by the
   * `isNaN` checks: None when either is NaN, a missing second piece being
   * `undefined`, hence NaN.
   */
  function ParseHourMinute(text: string): (r: Option<(nat, nat)>)
  {
    var pieces := Split(text, ':');
    var h := JsNumber(pieces[0]);
    var m := if |pieces| >= 2 then JsNumber(pieces[1]) else None;
    if h.Some? && m.Some? then Some((h.value, m.value)) else None
  }

  /** The digits before the `:` of a clock text. */
  function ClockHour(s: string): string requires IsClock(s) { if |s| == 4 then s[..1] else s[..2] }

  /** The two digits after the `:` of a clock text. */
  function ClockMinute(s: string): string requires IsClock(s) { s[|s| - 2..] }

  lemma ClockSplit(s: string)
    requires IsClock(s)
    ensures ClockHour(s) != "" && AllDigits(ClockHour(s)) && |ClockHour(s)| <= 2
    ensures |ClockMinute(s)| == 2 && AllDigits(ClockMinute(s))
    ensures Split(s, ':') == [ClockHour(s), ClockMinute(s)]
  {
    var h, m := ClockHour(s), ClockMinute(s);
    assert ':' !in h && ':' !in m;
    assert s == h + [':'] + m;
    SplitAt(h, ':', m);
    SplitNoSep(m, ':');
  }

  /** A clock text always parses, to the values of its two digit groups. */
  lemma ParseClock(s: string)
    requires IsClock(s)
    ensures AllDigits(ClockHour(s)) && AllDigits(ClockMinute(s))
    ensures ParseHourMinute(s) == Some((DigitsValue(ClockHour(s)), DigitsValue(ClockMinute(s))))
    ensures DigitsValue(ClockHour(s)) < 100 && DigitsValue(ClockMinute(s)) < 100
  {
    ClockSplit(s);
    ShortDigitsBound(ClockHour(s));
    ShortDigitsBound(ClockMinute(s));
  }

  lemma ShortDigitsBound(s: string)
    requires AllDigits(s) && |s| <= 2
    ensures DigitsValue(s) < 100
  {
    if s != [] {
      assert s[..|s| - 1] == [] || s[..|s| - 1] == [s[0]];
      assert s[..|s| - 1] != [] ==> [s[0]][..0] == [];
    }
  }

  /** Rule 1 accepts `9:05` and `09:05` alike, and both give hour 9 and minute 5. */
  lemma LeadingZeroHour(d: char, m1: char, m2: char)
    requires IsDigit(d) && IsDigit(m1) && IsDigit(m2)
    ensures ExtractOrNull([d, ':', m1, m2]) == Some([d, ':', m1, m2])
    ensures ExtractOrNull(['0', d, ':', m1, m2]) == Some(['0', d, ':', m1, m2])
    ensures ParseHourMinute([d, ':', m1, m2]) == ParseHourMinute(['0', d, ':', m1, m2])
  {
    var short, long := [d, ':', m1, m2], ['0', d, ':', m1, m2];
    assert IsClock(short) && IsClock(long);
    var value := Some((DigitsValue([d]), DigitsValue([m1, m2])));
    assert ParseHourMinute(short) == value by {
      ParseClock(short);
      assert ClockHour(short) == [d] && ClockMinute(short) == [m1, m2];
    }
    assert ParseHourMinute(long) == value by {
      ParseClock(long);
      assert ClockHour(long) == "0" + [d] && ClockMinute(long) == [m1, m2];
      LeadingZero([d]);
    }
  }

  // ---------------------------------------------------------------- form round trips

  predicate IsIsoDate(date: string) {
    |date| == 10 && AllDigits(date[..4]) && date[4] == '-' && AllDigits(date[5..7]) && date[7] == '-'
    && AllDigits(date[8..])
  }

  /** `d.split('-').reverse().join('/')`: `YYYY-MM-DD` becomes `DD/MM/YYYY`. */
  function ReverseDate(date: string): string
  {
    Join(Reverse(Split(date, '-')), '/')
  }

  lemma ReverseIsoDate(date: string)
    requires IsIsoDate(date)
    ensures ReverseDate(date) == date[8..] + "/" + date[5..7] + "/" + date[..4]
  {
    var y, mo, d := date[..4], date[5..7], date[8..];
    assert Split(date, '-') == [y, mo, d] by {
      assert '-' !in y && '-' !in mo && '-' !in d;
      assert date == y + ['-'] + (mo + ['-'] + d);
      SplitAt(y, '-', mo + ['-'] + d);
      SplitAt(mo, '-', d);
      SplitNoSep(d, '-');
    }
    assert Reverse([y, mo, d]) == [d, mo, y] by { ReverseIndex([y, mo, d]); }
    assert Join([d, mo, y], '/') == d + "/" + mo + "/" + y by {
      assert Join([y], '/') == y;
      assert Join([mo, y], '/') == mo + "/" + y;
    }
  }

  predicate IsTimeInput(time: string) {
    |time| == 5 && IsDigit(time[0]) && IsDigit(time[1]) && time[2] == ':' && IsDigit(time[3]) && IsDigit(time[4])
  }

  /** The text the manual-entry form stores: `DD/MM/YYYY HH:MM`. */
  function ManualDepartureText(date: string, time: string): string
  {
    ReverseDate(date) + " " + time
  }

  /** The shape of a manual-entry text: `DD/MM/YYYY HH:MM`. */
  predicate IsManualText(s: string) {
    && |s| == 16 && IsDigit(s[0]) && IsDigit(s[1]) && s[2] == '/' && IsDigit(s[3]) && IsDigit(s[4])
    && s[5] == '/' && IsDigit(s[6]) && IsDigit(s[7]) && IsDigit(s[8]) && IsDigit(s[9]) && s[10] == ' '
    && IsTimeInput(s[11..])
  }

  lemma ManualTextShape(date: string, time: string)
    requires IsIsoDate(date) && IsTimeInput(time)
    ensures IsManualText(ManualDepartureText(date, time))
    ensures ManualDepartureText(date, time)[11..] == time
  {
    ReverseIsoDate(date);
    IsoDateChars(date);
    var s := ManualDepartureText(date, time);
    assert s == date[8..] + "/" + date[5..7] + "/" + date[..4] + " " + time;
    assert s[0] == date[8] && s[1] == date[9] && s[3] == date[5] && s[4] == date[6];
    assert s[6] == date[0] && s[7] == date[1] && s[8] == date[2] && s[9] == date[3];
    assert s[11..] == time;
  }

  /** Groups 1 to 3 take the whole `DD/MM/YYYY` of a manual-entry text. */
  lemma ManualTextDate(s: string)
    requires IsManualText(s)
    ensures DateEnd(s, 0) == Some(10)
  {
    assert DigitRun(s, 0) == 2 by { assert DigitRun(s, 2) == 0; }
    assert DigitRun(s, 3) == 2 by { assert DigitRun(s, 5) == 0; }
    assert DigitRun(s, 6) == 4 by {
      assert DigitRun(s, 10) == 0;
      assert DigitRun(s, 9) == 1;
      assert DigitRun(s, 8) == 2;
      assert DigitRun(s, 7) == 3;
    }
  }

  /** Groups 4 and 5 after the date of a manual-entry text are its `HH:MM`. */
  lemma ManualTextClock(s: string)
    requires IsManualText(s)
    ensures ClockAfterDate(s, 10) == Some(s[11..])
  {
    var time := s[11..];
    assert s[11] == time[0] && s[12] == time[1] && s[13] == time[2];
    assert s[14] == time[3] && s[15] == time[4];
    assert SpaceRun(s, 10) == 1 by { assert SpaceRun(s, 11) == 0; }
    assert DigitRun(s, 11) == 2 by { assert DigitRun(s, 13) == 0; }
    assert s[11..13] + ":" + s[14..16] == time;
  }

  /** The date-time rule gives back exactly the time typed into the manual-entry form. */
  lemma ManualDepartureRoundTrip(date: string, time: string)
    requires IsIsoDate(date) && IsTimeInput(time)
    ensures ExtractOrNull(ManualDepartureText(date, time)) == Some(time)
    ensures ExtractOrRaw(ManualDepartureText(date, time)) == time
  {
    var s := ManualDepartureText(date, time);
    ManualTextShape(date, time);
    ManualTextDate(s);
    ManualTextClock(s);
    assert !IsClock(s);
    assert DateTimeAt(s, 0) == Some(time);
    LeftmostFinds(s, DateTimeAt, 0, 0);
  }

  predicate IsDateTimeLocal(v: string) {
    |v| == 16 && IsIsoDate(v[..10]) && v[10] == 'T' && IsTimeInput(v[11..])
  }

  /**
   * A `datetime-local` value `YYYY-MM-DDTHH:MM` has no white space, so the
   * date-time rule never matches it; the ISO rule finds `HH:MM` after the `T`.
   */
  lemma DateTimeLocalUsesIsoRule(v: string)
    requires IsDateTimeLocal(v)
    ensures forall k :: 0 <= k < |v| ==> DateTimeAt(v, k).None?
    ensures ExtractOrNull(v) == Some(v[11..])
  {
    var date, time := v[..10], v[11..];
    IsoDateChars(date);
    forall k | 0 <= k < |v| ensures !IsSpace(v[k]) && (k < 10 ==> v[k] != 'T') {
      if k < 10 {
        assert v[k] == date[k];
      } else if k > 10 {
        assert v[k] == time[k - 11];
      }
    }
    forall k | 0 <= k < |v| ensures DateTimeAt(v, k).None? {
      NoSpaceNoDateTime(v, k);
    }
    assert forall k :: 0 <= k < 10 ==> IsoAt(v, k).None?;
    assert v[11..16] == time;
    assert IsoAt(v, 10) == Some(time);
    LeftmostFinds(v, IsoAt, 0, 10);
  }

  lemma IsoDateChars(date: string)
    requires IsIsoDate(date)
    ensures forall k :: 0 <= k < 10 ==> IsDigit(date[k]) || date[k] == '-'
  {
    forall k | 0 <= k < 10 ensures IsDigit(date[k]) || date[k] == '-' {
      if k < 4 {
        assert date[k] == date[..4][k];
      } else if 5 <= k < 7 {
        assert date[k] == date[5..7][k - 5];
      } else if 8 <= k {
        assert date[k] == date[8..][k - 8];
      }
    }
  }

  lemma NoSpaceNoDateTime(s: string, i: nat)
    requires forall k :: 0 <= k < |s| ==> !IsSpace(s[k])
    ensures DateTimeAt(s, i).None?
  {
  }
}
