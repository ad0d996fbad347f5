/** Upstream timestamps (uipath_etl/client.py, parse_dt and clean_date) and the text of a
    duration as Python's `str(timedelta)` writes it.

    A timestamp is read with `datetime.fromisoformat(s.replace("Z", "+00:00"))`. The model
    accepts the date-time form of section 5.6 of RFC 3339, restricted to what CPython 3.11's
    `fromisoformat` also accepts: YYYY-MM-DD, a 'T', 't' or ' ' separator, HH:MM:SS, an optional
    fraction of one or more digits (only the first six are kept), and an optional offset
    "+HH:MM" / "-HH:MM". The offset is checked and then dropped: both the stored text and the
    durations use the wall-clock fields as written. The other forms CPython 3.11 reads (a date
    alone, HH:MM, the basic forms, week dates, other separators, a ',' fraction) give None. */
module Timestamps {
  import opened Wrappers
  import opened Digits
  import opened Json

  /** A naive datetime: the wall-clock fields, microsecond precision. */
  datatype DateTime = DateTime(year: int, month: int, day: int,
                               hour: int, minute: int, second: int, micro: int)

  /** What Python raises when a truthy value that is not a string reaches `.replace`. */
  datatype AttributeError = NoReplace(value: Json)

  predicate IsLeap(y: int) {
    y % 4 == 0 && (y % 100 != 0 || y % 400 == 0)
  }

  function DaysInMonth(y: int, m: int): int
    requires 1 <= m <= 12
  {
    if m == 2 then (if IsLeap(y) then 29 else 28)
    else if m == 4 || m == 6 || m == 9 || m == 11 then 30
    else 31
  }

  /** The ranges `datetime` enforces (MINYEAR = 1, MAXYEAR = 9999). */
  predicate Valid(t: DateTime) {
    && 1 <= t.year <= 9999
    && 1 <= t.month <= 12
    && 1 <= t.day <= DaysInMonth(t.year, t.month)
    && 0 <= t.hour < 24
    && 0 <= t.minute < 60
    && 0 <= t.second < 60
    && 0 <= t.micro < 1000000
  }

  /** `s.replace("Z", "+00:00")`: every 'Z', not only a trailing one. */
  function ReplaceZ(s: string): (r: string)
    ensures 'Z' !in r
    ensures 'Z' !in s ==> r == s
  {
    if s == [] then []
    else (if s[0] == 'Z' then "+00:00" else [s[0]]) + ReplaceZ(s[1..])
  }

  predicate DigitsAt(s: string, i: nat, n: nat) {
    i + n <= |s| && AllDigits(s[i..i + n])
  }

  function NumAt(s: string, i: nat, n: nat): nat
    requires DigitsAt(s, i, n)
  {
    ParseNat(s[i..i + n])
  }

  predicate IsSeparator(c: char) {
    c == 'T' || c == 't' || c == ' '
  }

  /** The first nineteen characters read YYYY-MM-DD?HH:MM:SS. */
  predicate HasDateTimeLayout(s: string) {
    && |s| >= 19
    && DigitsAt(s, 0, 4) && s[4] == '-' && DigitsAt(s, 5, 2) && s[7] == '-' && DigitsAt(s, 8, 2)
    && IsSeparator(s[10])
    && DigitsAt(s, 11, 2) && s[13] == ':' && DigitsAt(s, 14, 2) && s[16] == ':' && DigitsAt(s, 17, 2)
  }

  /** Length of the run of digits that starts s. */
  function DigitRun(s: string): (n: nat)
    ensures n <= |s| && AllDigits(s[..n])
    ensures n < |s| ==> !IsDigit(s[n])
  {
    if s == [] || !IsDigit(s[0]) then 0
    else
      var k := DigitRun(s[1..]);
      assert s[..k + 1] == [s[0]] + s[1..][..k];
      k + 1
  }

  lemma {:induction false} Pow10Add(a: nat, b: nat)
    ensures Pow10(a + b) == Pow10(a) * Pow10(b)
  {
    if a > 0 {
      Pow10Add(a - 1, b);
    }
  }

  /** The microseconds a fraction denotes: its first six digits, padded on the right. */
  function FractionMicros(d: string): (us: nat)
    requires AllDigits(d) && |d| >= 1
    ensures us < 1000000
  {
    if |d| >= 6 then
      ParseNatBound(d[..6]);
      ParseNat(d[..6])
    else
      ParseNatBound(d);
      Pow10Add(|d|, 6 - |d|);
      assert ParseNat(d) * Pow10(6 - |d|) < Pow10(|d|) * Pow10(6 - |d|);
      ParseNat(d) * Pow10(6 - |d|)
  }

  /** A UTC offset "+HH:MM" or "-HH:MM"; like CPython, any offset strictly inside one day. */
  predicate IsOffset(t: string) {
    && |t| == 6
    && (t[0] == '+' || t[0] == '-')
    && DigitsAt(t, 1, 2) && t[3] == ':' && DigitsAt(t, 4, 2)
    && NumAt(t, 1, 2) * 60 + NumAt(t, 4, 2) < 1440
  }

  /** `datetime.fromisoformat(s)` with the offset dropped, on the grammar described above. */
  function ParseIso(s: string): (r: Option<DateTime>)
    ensures r.Some? ==> Valid(r.value)
    ensures r.Some? ==> HasDateTimeLayout(s) && r.value.year == NumAt(s, 0, 4)
                        && r.value.month == NumAt(s, 5, 2) && r.value.day == NumAt(s, 8, 2)
    ensures r.Some? ==> r.value.hour == NumAt(s, 11, 2) && r.value.minute == NumAt(s, 14, 2)
                        && r.value.second == NumAt(s, 17, 2)
  {
    if !HasDateTimeLayout(s) then None
    else
      var rest := s[19..];
      var dotted := rest != [] && rest[0] == '.';
      var digits := if dotted then DigitRun(rest[1..]) else 0;
      if dotted && digits == 0 then None
      else
        assert dotted ==> rest[1..1 + digits] == rest[1..][..digits];
        var micro := if dotted then FractionMicros(rest[1..1 + digits]) else 0;
        var tail := if dotted then rest[1 + digits..] else rest;
        if tail != [] && !IsOffset(tail) then None
        else
          var t := DateTime(NumAt(s, 0, 4), NumAt(s, 5, 2), NumAt(s, 8, 2),
                            NumAt(s, 11, 2), NumAt(s, 14, 2), NumAt(s, 17, 2), micro);
          if Valid(t) then Some(t) else None
  }

  // ---- The accepted texts, independently of the parser ----------------------------------

  /** A timestamp as written: the 19 characters YYYY-MM-DD?HH:MM:SS, then a fraction after a
      '.' unless `frac` is empty, then an offset unless `offset` is empty. */
  function IsoText(head: string, frac: string, offset: string): string {
    head + (if frac == [] then "" else "." + frac) + offset
  }

  /** The parts are well formed: the date-time layout, digits, and a "±HH:MM" offset or none. */
  predicate IsoParts(head: string, frac: string, offset: string) {
    |head| == 19 && HasDateTimeLayout(head) && AllDigits(frac) && (offset == [] || IsOffset(offset))
  }

  /** The wall-clock fields the parts denote; the offset plays no part. */
  function IsoFields(head: string, frac: string): DateTime
    requires HasDateTimeLayout(head) && AllDigits(frac)
  {
    DateTime(NumAt(head, 0, 4), NumAt(head, 5, 2), NumAt(head, 8, 2),
             NumAt(head, 11, 2), NumAt(head, 14, 2), NumAt(head, 17, 2),
             if frac == [] then 0 else FractionMicros(frac))
  }

  /** A text that starts with `head` has the layout and the fields of `head`. */
  lemma LayoutOfPrefix(s: string, head: string)
    requires |head| == 19 && |s| >= 19 && s[..19] == head
    ensures HasDateTimeLayout(s) <==> HasDateTimeLayout(head)
    ensures HasDateTimeLayout(s) ==>
              && NumAt(s, 0, 4) == NumAt(head, 0, 4) && NumAt(s, 5, 2) == NumAt(head, 5, 2)
              && NumAt(s, 8, 2) == NumAt(head, 8, 2) && NumAt(s, 11, 2) == NumAt(head, 11, 2)
              && NumAt(s, 14, 2) == NumAt(head, 14, 2) && NumAt(s, 17, 2) == NumAt(head, 17, 2)
  {
    assert s[0..4] == head[0..4] && s[5..7] == head[5..7] && s[8..10] == head[8..10];
    assert s[11..13] == head[11..13] && s[14..16] == head[14..16] && s[17..19] == head[17..19];
    assert forall i | 0 <= i < 19 :: s[i] == head[i];
  }

  lemma {:induction false} DigitRunAppend(a: string, b: string)
    requires AllDigits(a) && (b == [] || !IsDigit(b[0]))
    ensures DigitRun(a + b) == |a|
  {
    if a != [] {
      assert (a + b)[1..] == a[1..] + b;
      DigitRunAppend(a[1..], b);
    }
  }

  /** Every well-formed text parses, whatever its offset, to the fields it writes, as long as
      they form a valid datetime; it parses to None otherwise. */
  lemma ParseIsoParts(head: string, frac: string, offset: string)
    requires IsoParts(head, frac, offset)
    ensures ParseIso(IsoText(head, frac, offset))
            == if Valid(IsoFields(head, frac)) then Some(IsoFields(head, frac)) else None
  {
    var s := IsoText(head, frac, offset);
    assert s[..19] == head;
    LayoutOfPrefix(s, head);
    var rest := s[19..];
    if frac != [] {
      assert rest == "." + frac + offset;
      assert rest[1..] == frac + offset;
      DigitRunAppend(frac, offset);
      assert rest[1..1 + |frac|] == frac;
      assert rest[1 + |frac|..] == offset;
    } else {
      assert rest == offset;
    }
  }

  /** Only well-formed texts parse: whatever parses is the text of some parts. */
  lemma ParseIsoOnlyParts(s: string)
    requires ParseIso(s).Some?
    ensures exists frac, offset :: IsoParts(s[..19], frac, offset) && s == IsoText(s[..19], frac, offset)
  {
    var rest := s[19..];
    assert s == s[..19] + rest;
    LayoutOfPrefix(s, s[..19]);
    if rest != [] && rest[0] == '.' {
      var digits := DigitRun(rest[1..]);
      var frac := rest[1..1 + digits];
      var offset := rest[1 + digits..];
      assert frac == rest[1..][..digits];
      assert rest == "." + frac + offset;
      assert IsoParts(s[..19], frac, offset) && s == IsoText(s[..19], frac, offset);
    } else {
      assert IsoParts(s[..19], [], rest) && s == IsoText(s[..19], [], rest);
    }
  }

  /** `s.replace` changes nothing in a text without 'Z', and works piecewise. */
  lemma {:induction false} ReplaceZAppend(a: string, b: string)
    ensures ReplaceZ(a + b) == ReplaceZ(a) + ReplaceZ(b)
  {
    if a == [] {
      assert a + b == b;
    } else {
      assert (a + b)[0] == a[0];
      assert (a + b)[1..] == a[1..] + b;
      ReplaceZAppend(a[1..], b);
    }
  }

  /** No character of the date-time layout or of a fraction is a 'Z'. */
  lemma NoZ(head: string, frac: string)
    requires |head| == 19 && HasDateTimeLayout(head) && AllDigits(frac)
    ensures 'Z' !in head && 'Z' !in frac
  {
    assert forall i | 0 <= i < 4 :: IsDigit(head[0..4][i]);
    assert forall i | 0 <= i < 2 :: IsDigit(head[5..7][i]) && IsDigit(head[8..10][i]);
    assert forall i | 0 <= i < 2 :: IsDigit(head[11..13][i]) && IsDigit(head[14..16][i]);
    assert forall i | 0 <= i < 2 :: IsDigit(head[17..19][i]);
    assert forall i | 0 <= i < 19 :: head[i] != 'Z' by {
      forall i | 0 <= i < 19 ensures head[i] != 'Z' {
        if i < 4 { assert head[i] == head[0..4][i]; }
        else if 5 <= i < 7 { assert head[i] == head[5..7][i - 5]; }
        else if 8 <= i < 10 { assert head[i] == head[8..10][i - 8]; }
        else if 11 <= i < 13 { assert head[i] == head[11..13][i - 11]; }
        else if 14 <= i < 16 { assert head[i] == head[14..16][i - 14]; }
        else if 17 <= i < 19 { assert head[i] == head[17..19][i - 17]; }
      }
    }
    assert forall i | 0 <= i < |frac| :: IsDigit(frac[i]);
  }

  /** "+00:00", what `replace` puts for a 'Z', is an offset. */
  lemma UtcOffset()
    ensures IsOffset("+00:00")
  {
    var t := "+00:00";
    assert t[1..3] == "00" && t[4..6] == "00";
    assert "00"[..1] == "0" && "0"[..0] == "";
    assert AllDigits("00");
    assert ParseNat("0") == 0;
    assert ParseNat("00") == 0;
  }

  /** The form UiPath sends, with a fraction and a trailing 'Z' for UTC: `parse_dt` reads the
      fields as written. */
  lemma UtcFormParses(head: string, frac: string)
    requires IsoParts(head, frac, []) && frac != [] && Valid(IsoFields(head, frac))
    ensures ParseIso(ReplaceZ(IsoText(head, frac, "Z"))) == Some(IsoFields(head, frac))
  {
    NoZ(head, frac);
    var dotted := "." + frac;
    assert 'Z' !in dotted;
    assert IsoText(head, frac, "Z") == head + dotted + "Z";
    ReplaceZAppend(head + dotted, "Z");
    ReplaceZAppend(head, dotted);
    assert ReplaceZ("Z") == "+00:00";
    UtcOffset();
    assert IsoText(head, frac, "+00:00") == head + dotted + "+00:00";
    ParseIsoParts(head, frac, "+00:00");
  }

  /** Two digits denote ten times the first plus the second. */
  lemma ParseTwo(d: string)
    requires |d| == 2 && AllDigits(d)
    ensures ParseNat(d) == 10 * DigitValue(d[0]) + DigitValue(d[1])
  {
    var first := d[..1];
    assert first == [d[0]] && first[..0] == [];
    assert ParseNat(first) == DigitValue(d[0]);
  }

  /** Four digits, most significant first. */
  lemma ParseFour(d: string)
    requires |d| == 4 && AllDigits(d)
    ensures ParseNat(d) == 1000 * DigitValue(d[0]) + 100 * DigitValue(d[1])
                           + 10 * DigitValue(d[2]) + DigitValue(d[3])
  {
    assert d[..3][..2] == d[..2] && d[..3][2] == d[2];
    ParseTwo(d[..2]);
  }

  /** The date and time of UiPath's sample timestamp (client.py, `calculate_duration`) have the layout. */
  lemma ExampleLayout(head: string)
    requires head == "2025-11-18T14:00:44"
    ensures |head| == 19 && HasDateTimeLayout(head)
  {
    assert head[0..4] == "2025" && head[5..7] == "11" && head[8..10] == "18";
    assert head[11..13] == "14" && head[14..16] == "00" && head[17..19] == "44";
    assert AllDigits("2025") && AllDigits("11") && AllDigits("18");
    assert AllDigits("14") && AllDigits("00") && AllDigits("44");
  }

  /** Its date fields. */
  lemma ExampleDate(head: string)
    requires head == "2025-11-18T14:00:44"
    ensures HasDateTimeLayout(head)
    ensures NumAt(head, 0, 4) == 2025 && NumAt(head, 5, 2) == 11 && NumAt(head, 8, 2) == 18
  {
    ExampleLayout(head);
    ParseFour(head[0..4]);
    ParseTwo(head[5..7]);
    ParseTwo(head[8..10]);
  }

  /** Its time fields. */
  lemma ExampleTime(head: string)
    requires head == "2025-11-18T14:00:44"
    ensures HasDateTimeLayout(head)
    ensures NumAt(head, 11, 2) == 14 && NumAt(head, 14, 2) == 0 && NumAt(head, 17, 2) == 44
  {
    ExampleLayout(head);
    ParseTwo(head[11..13]);
    ParseTwo(head[14..16]);
    ParseTwo(head[17..19]);
  }

  /** The fraction ".18" of that timestamp is 180000 microseconds. */
  lemma ExampleFraction(frac: string)
    requires frac == "18"
    ensures AllDigits(frac) && FractionMicros(frac) == 180000
  {
    assert AllDigits(frac);
    ParseTwo(frac);
    assert Pow10(4) == 10000;
  }

  /** UiPath's sample timestamp `2025-11-18T14:00:44.18Z` (client.py, `calculate_duration`) reads as written. */
  lemma UpstreamExampleParses()
    ensures ParseIso(ReplaceZ("2025-11-18T14:00:44.18Z"))
            == Some(DateTime(2025, 11, 18, 14, 0, 44, 180000))
  {
    var head, frac := "2025-11-18T14:00:44", "18";
    ExampleLayout(head);
    ExampleDate(head);
    ExampleTime(head);
    ExampleFraction(frac);
    assert IsoFields(head, frac) == DateTime(2025, 11, 18, 14, 0, 44, 180000);
    assert "2025-11-18T14:00:44.18Z" == IsoText(head, frac, "Z");
    UtcFormParses(head, frac);
  }

  /** `dt.strftime('%Y-%m-%d %H:%M:%S.%f')`. */
  function CleanText(t: DateTime): (s: string)
    requires Valid(t)
    ensures |s| == 26
  {
    Fixed(t.year, 4) + "-" + Fixed(t.month, 2) + "-" + Fixed(t.day, 2) + " "
    + Fixed(t.hour, 2) + ":" + Fixed(t.minute, 2) + ":" + Fixed(t.second, 2)
    + "." + Fixed(t.micro, 6)
  }

  /** The fixed layout YYYY-MM-DD HH:MM:SS.ffffff of the text written to the database. */
  predicate IsStoredLayout(s: string) {
    && |s| == 26
    && DigitsAt(s, 0, 4) && s[4] == '-' && DigitsAt(s, 5, 2) && s[7] == '-' && DigitsAt(s, 8, 2)
    && s[10] == ' '
    && DigitsAt(s, 11, 2) && s[13] == ':' && DigitsAt(s, 14, 2) && s[16] == ':' && DigitsAt(s, 17, 2)
    && s[19] == '.' && DigitsAt(s, 20, 6)
  }

  /** The stored text has the fixed layout and reads back as the same timestamp. */
  lemma CleanTextRoundTrip(t: DateTime)
    requires Valid(t)
    ensures IsStoredLayout(CleanText(t))
    ensures ParseIso(CleanText(t)) == Some(t)
  {
    var s := CleanText(t);
    assert s[0..4] == Fixed(t.year, 4);
    assert s[5..7] == Fixed(t.month, 2);
    assert s[8..10] == Fixed(t.day, 2);
    assert s[11..13] == Fixed(t.hour, 2);
    assert s[14..16] == Fixed(t.minute, 2);
    assert s[17..19] == Fixed(t.second, 2);
    assert s[20..26] == Fixed(t.micro, 6);
    ParseFixed(t.year, 4);
    ParseFixed(t.month, 2);
    ParseFixed(t.day, 2);
    ParseFixed(t.hour, 2);
    ParseFixed(t.minute, 2);
    ParseFixed(t.second, 2);
    ParseFixed(t.micro, 6);
    var rest := s[19..];
    assert rest[1..] == Fixed(t.micro, 6);
    assert DigitRun(rest[1..]) == 6;
    assert rest[1..7] == Fixed(t.micro, 6);
    assert Fixed(t.micro, 6)[..6] == Fixed(t.micro, 6);
    assert rest[7..] == [];
  }

  /** `parse_dt`: a falsy value gives None, a string is parsed (None when malformed), and any
      other truthy value makes `.replace` raise. */
  function ParseDt(v: Json): (r: Result<Option<DateTime>, AttributeError>)
    ensures r.Failure? <==> Truthy(v) && !v.JStr?
    ensures v.JNull? ==> r == Success(None)
    ensures v.JStr? ==> r == Success(if v.s == "" then None else ParseIso(ReplaceZ(v.s)))
    ensures r.Success? && r.value.Some? ==> Valid(r.value.value)
  {
    if !Truthy(v) then Success(None)
    else if !v.JStr? then Failure(NoReplace(v))
    else Success(ParseIso(ReplaceZ(v.s)))
  }

  /** `clean_date`: the same parse, written back as database text. */
  function CleanDate(v: Json): (r: Result<Option<string>, AttributeError>)
    ensures r.Failure? <==> Truthy(v) && !v.JStr?
    ensures r.Success? ==> (r.value.Some? <==> ParseDt(v).value.Some?)
    ensures r.Success? && r.value.Some? ==>
              IsStoredLayout(r.value.value) && ParseIso(r.value.value) == ParseDt(v).value
  {
    match ParseDt(v)
    case Failure(e) => Failure(e)
    case Success(None) => Success(None)
    case Success(Some(t)) =>
      CleanTextRoundTrip(t);
      Success(Some(CleanText(t)))
  }

  // ---- Durations -----------------------------------------------------------------------

  function DaysBeforeYear(y: int): int
    requires y >= 1
  {
    var p := y - 1;
    365 * p + p / 4 - p / 100 + p / 400
  }

  function DaysBeforeMonth(y: int, m: int): int
    requires 1 <= m <= 12
  {
    if m == 1 then 0 else DaysBeforeMonth(y, m - 1) + DaysInMonth(y, m - 1)
  }

  /** Python's `date.toordinal()`: 0001-01-01 is day 1. */
  function Ordinal(t: DateTime): int
    requires Valid(t)
  {
    DaysBeforeYear(t.year) + DaysBeforeMonth(t.year, t.month) + t.day
  }

  /** Microseconds since 0001-01-01 00:00 of the wall-clock fields. */
  function Micros(t: DateTime): int
    requires Valid(t)
  {
    ((Ordinal(t) * 86400 + t.hour * 3600 + t.minute * 60 + t.second) * 1000000) + t.micro
  }

  /** `str(timedelta(seconds=secs))`: "H:MM:SS" with unpadded hours, preceded by
      "D day, " or "D days, " when the normalised day count is not zero. As in Python, the
      days are the floor of secs / 86400 and the remaining seconds are never negative. */
  function DurationText(secs: int): string {
    var days := secs / 86400;
    var rem := secs % 86400;
    var clock := Dec(rem / 3600) + ":" + Fixed(rem % 3600 / 60, 2) + ":" + Fixed(rem % 60, 2);
    if days == 0 then clock
    else IntText(days) + " day" + (if days == 1 || days == -1 then "" else "s") + ", " + clock
  }

  /** `str(timedelta(microseconds=us))`: the whole-second text, then ".ffffff" when the
      microsecond part is not zero. */
  function TimedeltaText(us: int): string {
    DurationText(us / 1000000)
    + (if us % 1000000 != 0 then "." + Fixed(us % 1000000, 6) else "")
  }

  /** `s.split('.')[0]`. */
  function BeforeFirstDot(s: string): (r: string)
    ensures '.' !in r && r <= s
    ensures '.' !in s ==> r == s
  {
    if s == [] || s[0] == '.' then [] else [s[0]] + BeforeFirstDot(s[1..])
  }

  lemma {:induction false} NoDotInDigits(s: string)
    requires AllDigits(s)
    ensures '.' !in s
  {
  }

  lemma NoDotInDuration(secs: int)
    ensures '.' !in DurationText(secs)
  {
    var days := secs / 86400;
    var rem := secs % 86400;
    NoDotInDigits(Dec(rem / 3600));
    NoDotInDigits(Fixed(rem % 3600 / 60, 2));
    NoDotInDigits(Fixed(rem % 60, 2));
    if days != 0 {
      NoDotInDigits(Dec(if days < 0 then -days else days));
    }
  }

  lemma {:induction false} BeforeFirstDotAppend(a: string, b: string)
    requires '.' !in a
    requires b == [] || b[0] == '.'
    ensures BeforeFirstDot(a + b) == a
  {
    if a != [] {
      assert (a + b)[1..] == a[1..] + b;
      BeforeFirstDotAppend(a[1..], b);
    } else {
      assert a + b == b;
    }
  }

  /** `str(delta).split('.')[0]` is the whole-second text of the floor of the delta. */
  lemma TruncatedTimedelta(us: int)
    ensures BeforeFirstDot(TimedeltaText(us)) == DurationText(us / 1000000)
  {
    NoDotInDuration(us / 1000000);
    BeforeFirstDotAppend(DurationText(us / 1000000),
                         if us % 1000000 != 0 then "." + Fixed(us % 1000000, 6) else "");
  }

  /** The duration field the transformer derives from two timestamps:
      `str(later - earlier).split('.')[0]`, i.e. the difference of the wall-clock fields in
      whole seconds, rounded down. */
  function Elapsed(earlier: DateTime, later: DateTime): (r: string)
    requires Valid(earlier) && Valid(later)
    ensures r == DurationText((Micros(later) - Micros(earlier)) / 1000000)
  {
    Truncated(Micros(later) - Micros(earlier))
  }

  /** `str(timedelta(microseconds=us)).split('.')[0]`. */
  function Truncated(us: int): (r: string)
    ensures r == DurationText(us / 1000000)
  {
    TruncatedTimedelta(us);
    BeforeFirstDot(TimedeltaText(us))
  }
}
