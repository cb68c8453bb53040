/**
 * The prefix the logger writes in front of every message:
 * `<severity> | <uptime> | ` followed by `<source tag> | ` when the message has a known source.
 * The uptime is a 32-bit millisecond counter split into days, hours, minutes, seconds and
 * milliseconds and printed in one of two zero-padded layouts.
 */
module Logger {
  import opened Wrappers
  import opened Format

  type Uint32 = x: int | 0 <= x < 0x1_0000_0000

  const Separator: string := " | "
  const SeparatorLen: nat := 3
  const SeverityInfo: string := "I"
  const SeverityInfoLen: nat := 1
  const SeverityError: string := "E"
  const SeverityErrorLen: nat := 1

  const MsPerSecond: nat := 1_000
  const MsPerMinute: nat := 60_000
  const MsPerHour: nat := 3_600_000
  const MsPerDay: nat := 86_400_000

  /** Size of the stack buffer the time text is printed into. */
  const TimeTextSize: nat := 20

  /** Where a message comes from; the first four index the tag table, `Unknown` prints no tag. */
  datatype LogSource = Hal | Camera | Ble | Wifi | Unknown

  datatype LogInfos = LogInfos(tag: string, length: nat)

  const TypeInfos: seq<LogInfos> := [
    LogInfos("HAL", 3),
    LogInfos("CAMERA", 6),
    LogInfos("BLE", 3),
    LogInfos("WIFI", 4)
  ]

  function SourceIndex(source: LogSource): (k: nat)
    requires source != Unknown
    ensures k < |TypeInfos|
  {
    match source
    case Hal => 0
    case Camera => 1
    case Ble => 2
    case Wifi => 3
  }

  /** Every tag entry records the length of its own tag text, so writing `length` bytes writes the whole tag. */
  lemma TypeInfosLengths()
    ensures forall k :: 0 <= k < |TypeInfos| ==> TypeInfos[k].length == |TypeInfos[k].tag|
  {
  }

  /** The five fields of an uptime, as the logger computes them. */
  datatype Uptime = Uptime(days: int, hours: int, minutes: int, seconds: int, milliseconds: int)

  function Recompose(t: Uptime): int {
    t.days * MsPerDay + t.hours * MsPerHour + t.minutes * MsPerMinute + t.seconds * MsPerSecond + t.milliseconds
  }

  /**
   * The unit split of a millisecond counter. The day count is taken modulo 99, but a 32-bit counter
   * never reaches 99 days, so the split is exact: the fields stay within their clock ranges and
   * recompose to the counter.
   */
  function Split(ms: Uint32): (t: Uptime)
    ensures 0 <= t.milliseconds < 1000
    ensures 0 <= t.seconds < 60 && 0 <= t.minutes < 60 && 0 <= t.hours < 24
    ensures t.days == ms / MsPerDay && 0 <= t.days <= 49
    ensures Recompose(t) == ms
  {
    SplitIsExact(ms);
    Uptime(
      (ms / (1000 * 60 * 60 * 24)) % 99,
      (ms / (1000 * 60 * 60)) % 24,
      (ms / (1000 * 60)) % 60,
      (ms / 1000) % 60,
      ms % 1000)
  }

  /** The successive quotients of the counter by the clock units, each a whole multiple of the next. */
  lemma SplitIsExact(ms: Uint32)
    ensures var days := ms / (1000 * 60 * 60 * 24);
            && days <= 49 && days % 99 == days
            && days * MsPerDay + ((ms / (1000 * 60 * 60)) % 24) * MsPerHour
               + ((ms / (1000 * 60)) % 60) * MsPerMinute + ((ms / 1000) % 60) * MsPerSecond + ms % 1000 == ms
  {
    var q1, r1 := ms / 1000, ms % 1000;
    var q2, s := q1 / 60, q1 % 60;
    var q3, m := q2 / 60, q2 % 60;
    var q4, h := q3 / 24, q3 % 24;
    assert ms == 1000 * q1 + r1;
    assert q1 == 60 * q2 + s;
    assert q2 == 60 * q3 + m;
    assert q3 == 24 * q4 + h;
    assert ms == 86400000 * q4 + 3600000 * h + 60000 * m + 1000 * s + r1;
    assert ms / 60000 == q2;
    assert ms / 3600000 == q3;
    assert ms / 86400000 == q4;
  }

  /** `%02d:%02d:%02d.%03d` of hours, minutes, seconds and milliseconds. */
  function ClockText(t: Uptime): string
    requires 0 <= t.hours && 0 <= t.minutes && 0 <= t.seconds && 0 <= t.milliseconds
  {
    ZeroPadded(t.hours, 2) + ":" + ZeroPadded(t.minutes, 2) + ":" + ZeroPadded(t.seconds, 2)
      + "." + ZeroPadded(t.milliseconds, 3)
  }

  /** The uptime text: the clock layout below one day, and the unpadded day count and ':' in front of it after. */
  function FormatTime(ms: Uint32): (text: string)
    ensures ms < MsPerDay <==> |text| == 12
    ensures |text| <= 15
  {
    var t := Split(ms);
    ClockLayout(t);
    if ms >= MsPerDay then
      DecimalTextLength(t.days, 2);
      DecimalText(t.days) + ":" + ClockText(t)
    else
      ClockText(t)
  }

  /** The shape of `HH:MM:SS.mmm`: twelve characters, separators at 2, 5 and 8, digits elsewhere. */
  predicate IsClockText(c: string) {
    && |c| == 12
    && c[2] == ':' && c[5] == ':' && c[8] == '.'
    && AllDigits(c[0..2]) && AllDigits(c[3..5]) && AllDigits(c[6..8]) && AllDigits(c[9..12])
  }

  function ClockValue(c: string): nat
    requires IsClockText(c)
  {
    DigitsValue(c[0..2]) * MsPerHour + DigitsValue(c[3..5]) * MsPerMinute
      + DigitsValue(c[6..8]) * MsPerSecond + DigitsValue(c[9..12])
  }

  /** How a reader of the log turns an uptime text back into milliseconds; None for text of neither layout. */
  function ReadTime(text: string): Option<int> {
    if |text| < 12 then None
    else
      var k := |text| - 12;
      var clock := text[k..];
      if !IsClockText(clock) then None
      else if k == 0 then Some(ClockValue(clock))
      else if k >= 2 && text[k - 1] == ':' && AllDigits(text[..k - 1]) then
        Some(DigitsValue(text[..k - 1]) * MsPerDay + ClockValue(clock))
      else None
  }

  /** The clock layout of an uptime is twelve characters whose fields read back as the uptime's fields. */
  lemma ClockLayout(t: Uptime)
    requires 0 <= t.hours < 24 && 0 <= t.minutes < 60 && 0 <= t.seconds < 60 && 0 <= t.milliseconds < 1000
    ensures IsClockText(ClockText(t))
    ensures var c := ClockText(t);
            && DigitsValue(c[0..2]) == t.hours && DigitsValue(c[3..5]) == t.minutes
            && DigitsValue(c[6..8]) == t.seconds && DigitsValue(c[9..12]) == t.milliseconds
    ensures ClockValue(ClockText(t)) == t.hours * MsPerHour + t.minutes * MsPerMinute
      + t.seconds * MsPerSecond + t.milliseconds
  {
    var h, m, s, f := ZeroPadded(t.hours, 2), ZeroPadded(t.minutes, 2), ZeroPadded(t.seconds, 2),
      ZeroPadded(t.milliseconds, 3);
    ZeroPaddedLength(t.hours, 2);
    ZeroPaddedLength(t.minutes, 2);
    ZeroPaddedLength(t.seconds, 2);
    ZeroPaddedLength(t.milliseconds, 3);
    ZeroPaddedValue(t.hours, 2);
    ZeroPaddedValue(t.minutes, 2);
    ZeroPaddedValue(t.seconds, 2);
    ZeroPaddedValue(t.milliseconds, 3);
    ClockSlices(h, m, s, f);
  }

  /** Four digit fields of widths 2, 2, 2 and 3 joined by ':', ':' and '.' make a clock text with those fields. */
  lemma ClockSlices(h: string, m: string, s: string, f: string)
    requires |h| == 2 && |m| == 2 && |s| == 2 && |f| == 3
    requires AllDigits(h) && AllDigits(m) && AllDigits(s) && AllDigits(f)
    ensures var c := h + ":" + m + ":" + s + "." + f;
            IsClockText(c) && c[0..2] == h && c[3..5] == m && c[6..8] == s && c[9..12] == f
  {
    var c := h + ":" + m + ":" + s + "." + f;
    assert c[0..2] == h;
    assert c[3..5] == m;
    assert c[6..8] == s;
    assert c[9..12] == f;
  }

  /**
   * From one day on, the uptime text is the day count as plain `%d` (no padding, no leading
   * zero), a ':' and then the clock text.
   */
  lemma DayCountUnpadded(ms: Uint32)
    requires ms >= MsPerDay
    ensures var text := FormatTime(ms);
            && |text| >= 14 && text[|text| - 13] == ':'
            && text[..|text| - 13] == DecimalText(ms / MsPerDay)
            && text[|text| - 12..] == ClockText(Split(ms))
  {
    var t := Split(ms);
    ClockLayout(t);
    var d, c := DecimalText(t.days), ClockText(t);
    assert FormatTime(ms) == d + ":" + c;
    assert (d + ":" + c)[..|d|] == d;
    assert (d + ":" + c)[|d| + 1..] == c;
  }

  /** A bare clock text reads back as its clock value. */
  lemma ReadClockOnly(c: string)
    requires IsClockText(c)
    ensures ReadTime(c) == Some(ClockValue(c))
  {
    assert c[0..] == c;
  }

  /** A day count, ':' and a clock text read back as that many days plus the clock value. */
  lemma ReadDayAndClock(d: string, c: string)
    requires 1 <= |d| && AllDigits(d) && IsClockText(c)
    ensures ReadTime(d + ":" + c).Some?
    ensures ReadTime(d + ":" + c).value == DigitsValue(d) * MsPerDay + ClockValue(c)
  {
    var text := d + ":" + c;
    var k := |text| - 12;
    assert text[k..] == c;
    assert text[..k - 1] == d;
    assert text[k - 1] == ':';
    ReadDayLayout(text, k);
  }

  /** The day layout, stated on the positions of `text` alone. */
  lemma ReadDayLayout(text: string, k: nat)
    requires |text| >= 14 && k == |text| - 12
    requires text[k - 1] == ':' && IsClockText(text[k..]) && AllDigits(text[..k - 1])
    ensures ReadTime(text) == Some(DigitsValue(text[..k - 1]) * MsPerDay + ClockValue(text[k..]))
  {
  }

  /** Round trip: reading back the uptime text of any 32-bit counter gives the counter. */
  lemma FormatTimeReadsBack(ms: Uint32)
    ensures ReadTime(FormatTime(ms)) == Some(ms)
  {
    if ms < MsPerDay {
      ClockTimeReadsBack(ms);
    } else {
      DayTimeReadsBack(ms);
    }
  }

  /** Below one day the text is the clock layout alone, whose value is the counter. */
  lemma ClockTimeReadsBack(ms: Uint32)
    requires ms < MsPerDay
    ensures ReadTime(FormatTime(ms)) == Some(ms)
  {
    var t := Split(ms);
    ClockLayout(t);
    var c := ClockText(t);
    assert FormatTime(ms) == c;
    ReadClockOnly(c);
  }

  /** From one day on, the day count in front of the clock layout accounts for the whole days. */
  lemma DayTimeReadsBack(ms: Uint32)
    requires ms >= MsPerDay
    ensures ReadTime(FormatTime(ms)) == Some(ms)
  {
    var t := Split(ms);
    ClockLayout(t);
    var c := ClockText(t);
    var d := DecimalText(t.days);
    assert FormatTime(ms) == d + ":" + c;
    DecimalTextValue(t.days);
    assert DigitsValue(d) * MsPerDay == t.days * MsPerDay;
    ReadDayAndClock(d, c);
  }

  /** `snprintf` into a buffer of `size` bytes: the buffer keeps at most `size - 1` characters, the count is the full length. */
  function Snprintf(text: string, size: nat): (r: (string, nat))
    requires size >= 1
    ensures |r.0| < size && |r.0| <= |text| && r.0 == text[..|r.0|]
    ensures |text| < size ==> r.0 == text
    ensures |text| >= size ==> r.0 == text[..size - 1]
    ensures r.1 == |text|
  {
    if |text| < size then (text, |text|) else (text[..size - 1], |text|)
  }

  /** The tag column of the prefix. */
  function SourceField(source: LogSource): string {
    if source == Unknown then [] else TypeInfos[SourceIndex(source)].tag + Separator
  }

  /** Different sources print different tag columns, so the source can be told from the prefix. */
  lemma SourceFieldInjective(a: LogSource, b: LogSource)
    requires a != b
    ensures SourceField(a) != SourceField(b)
  {
    if a == Unknown || b == Unknown {
      assert |SourceField(a)| != |SourceField(b)|;
    } else {
      // The four tags start with four different letters: 'H', 'C', 'B' and 'W'.
      assert SourceField(a)[0] == TypeInfos[SourceIndex(a)].tag[0];
      assert SourceField(b)[0] == TypeInfos[SourceIndex(b)].tag[0];
      assert SourceIndex(a) != SourceIndex(b);
    }
  }

  /** Everything one call of the prefix writer sends to the console. */
  function PrefixText(severity: string, source: LogSource, ms: Uint32): string {
    severity + Separator + FormatTime(ms) + Separator + SourceField(source)
  }

  /**
   * The prefix reads back as its parts: the severity, a separator, an uptime text that reads back as
   * `ms`, a separator, and the tag column.
   */
  lemma PrefixTextLayout(severity: string, source: LogSource, ms: Uint32)
    ensures var p := PrefixText(severity, source, ms);
            var n := |severity| + 3;
            var m := n + |FormatTime(ms)|;
            && m + 3 <= |p|
            && p[..|severity|] == severity && p[|severity|..n] == Separator
            && p[n..m] == FormatTime(ms)
            && p[m..m + 3] == Separator && p[m + 3..] == SourceField(source)
  {
    Pieces(severity, Separator, FormatTime(ms), Separator, SourceField(source));
  }

  /** The uptime column of the prefix reads back as the counter it was printed from. */
  lemma PrefixTimeReadsBack(severity: string, source: LogSource, ms: Uint32)
    ensures var n := |severity| + 3;
            var m := n + |FormatTime(ms)|;
            && m <= |PrefixText(severity, source, ms)|
            && ReadTime(PrefixText(severity, source, ms)[n..m]) == Some(ms)
  {
    PrefixTextLayout(severity, source, ms);
    FormatTimeReadsBack(ms);
  }

  /** The prefix is at most 30 characters longer than the severity: 15 for the uptime, 9 for the widest tag column. */
  lemma PrefixTextLength(severity: string, source: LogSource, ms: Uint32)
    ensures |PrefixText(severity, source, ms)| <= |severity| + 30
  {
    assert |SourceField(source)| <= 9;
  }

  /** Where each piece of a five-piece concatenation sits. */
  lemma Pieces(a: string, b: string, c: string, d: string, e: string)
    ensures var p := a + b + c + d + e;
            var n := |a| + |b|;
            var m := n + |c|;
            && |p| == m + |d| + |e|
            && p[..|a|] == a && p[|a|..n] == b && p[n..m] == c && p[m..m + |d|] == d && p[m + |d|..] == e
  {
  }

  /** Appending the pieces one after the other appends their concatenation. */
  lemma AppendPieces(x: string, a: string, b: string, c: string, d: string, e: string)
    ensures x + a + b + c + d + e == x + (a + b + c + d + e)
  {
  }

  /** The console the logger writes to, as the sequence of characters written so far. */
  class Stdout {
    var written: seq<char>

    constructor ()
      ensures written == []
    {
      written := [];
    }

    /** `fwrite(data, 1, count, stdout)`: appends the first `count` characters of `data`. */
    method Write(data: string, count: nat)
      requires count <= |data|
      modifies this
      ensures written == old(written) + data[..count]
    {
      written := written + data[..count];
    }
  }

  /**
   * The uptime printed into the 20-byte stack buffer, with the count `snprintf` returns kept in a byte.
   * The text always fits, so the buffer holds the whole uptime text and the count is its length.
   */
  method PrintTime(ms: Uint32) returns (timeText: string, len: nat)
    ensures len < 256 && len <= |timeText|
    ensures timeText == FormatTime(ms) && len == |FormatTime(ms)|
  {
    var printed := Snprintf(FormatTime(ms), TimeTextSize);
    timeText := printed.0;
    len := printed.1 % 256;
  }

  /** The tag column: for a known source, its `typeInfos` tag and a separator; nothing for `Unknown`. */
  method WriteSource(out: Stdout, source: LogSource)
    modifies out
    ensures out.written == old(out.written) + SourceField(source)
  {
    if source != Unknown {
      var item := TypeInfos[SourceIndex(source)];
      TypeInfosLengths();
      out.Write(item.tag, item.length);
      out.Write(Separator, SeparatorLen);
      assert item.tag[..item.length] == item.tag;
    } else {
      assert old(out.written) + [] == old(out.written);
    }
  }

  /**
   * `Logger::createPrefix`: writes the severity, the uptime and, for a known source, its tag, each followed
   * by a separator. The uptime text is printed into a 20-byte buffer and its length kept in a byte;
   * both are wide enough, so what is written is exactly the prefix text. It always reports success.
   */
  method CreatePrefix(out: Stdout, prefix: string, prefixLen: nat, source: LogSource, ms: Uint32)
    returns (ok: bool)
    requires prefixLen <= |prefix|
    modifies out
    ensures ok
    ensures out.written == old(out.written) + PrefixText(prefix[..prefixLen], source, ms)
  {
    ghost var before := out.written;
    out.Write(prefix, prefixLen);
    out.Write(Separator, SeparatorLen);
    var timeText, len := PrintTime(ms);
    out.Write(timeText, len);
    out.Write(Separator, SeparatorLen);
    assert timeText[..len] == timeText && Separator[..SeparatorLen] == Separator;
    WriteSource(out, source);
    AppendPieces(before, prefix[..prefixLen], Separator, FormatTime(ms), Separator, SourceField(source));
    ok := true;
  }

  /**
   * The prefix `LogInfo` and `LogError` ask for: the severity "I" or "E" passed with its one-byte
   * length, so the whole severity text is written and the call always succeeds.
   */
  method WriteLogPrefix(out: Stdout, isError: bool, source: LogSource, ms: Uint32) returns (ok: bool)
    modifies out
    ensures ok
    ensures out.written == old(out.written) + PrefixText(if isError then "E" else "I", source, ms)
  {
    var severity, severityLen := SeverityInfo, SeverityInfoLen;
    if isError {
      severity, severityLen := SeverityError, SeverityErrorLen;
    }
    assert severity[..severityLen] == severity;
    ok := CreatePrefix(out, severity, severityLen, source, ms);
  }
}
