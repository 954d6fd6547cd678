/** Caption timestamps, HH:MM:SS,mmm in SubRip and HH:MM:SS.mmm in WebVTT, and reading them back. */
module CaptionTimestamp {
  import opened Wrappers
  import opened Decimal

  datatype Format = Srt | Vtt

  function Separator(format: Format): char {
    if format.Srt? then ',' else '.'
  }

  /** `Math.max(0, Math.floor(milliseconds))` */
  function WholeMilliseconds(milliseconds: real): nat {
    if milliseconds.Floor < 0 then 0 else milliseconds.Floor
  }

  function FormatTimestamp(milliseconds: real, format: Format): string {
    var total := WholeMilliseconds(milliseconds);
    Pad(total / 3_600_000, 2) + ":" + Pad(total % 3_600_000 / 60_000, 2) + ":" + Pad(total % 60_000 / 1_000, 2)
      + [Separator(format)] + Pad(total % 1_000, 3)
  }

  /** At least two hour digits, more only without a leading zero; minutes and seconds below 60. */
  predicate WellFormed(s: string, format: Format) {
    var n := |s|;
    && n >= 12
    && AllDigits(s[..n - 10]) && (n > 12 ==> s[0] != '0')
    && s[n - 10] == ':' && AllDigits(s[n - 9..n - 7]) && Value(s[n - 9..n - 7]) < 60
    && s[n - 7] == ':' && AllDigits(s[n - 6..n - 4]) && Value(s[n - 6..n - 4]) < 60
    && s[n - 4] == Separator(format) && AllDigits(s[n - 3..])
  }

  function ParseTimestamp(s: string, format: Format): Option<nat> {
    if !WellFormed(s, format) then None
    else
      var n := |s|;
      Some(Total(Value(s[..n - 10]), Value(s[n - 9..n - 7]), Value(s[n - 6..n - 4]), Value(s[n - 3..])))
  }

  function Compose(hours: string, minutes: string, seconds: string, millis: string, format: Format): string {
    hours + ":" + minutes + ":" + seconds + [Separator(format)] + millis
  }

  lemma {:induction false} PartsOfComposed(hours: string, minutes: string, seconds: string, millis: string, format: Format)
    requires |minutes| == 2 && |seconds| == 2 && |millis| == 3
    ensures var s := Compose(hours, minutes, seconds, millis, format);
            var n := |s|;
            && n == |hours| + 10 && s[..n - 10] == hours && s[n - 10] == ':' && s[n - 9..n - 7] == minutes
            && s[n - 7] == ':' && s[n - 6..n - 4] == seconds && s[n - 4] == Separator(format) && s[n - 3..] == millis
  {
  }

  lemma {:induction false} TwoDigits(x: nat)
    requires x < 100
    ensures |Pad(x, 2)| == 2
  {
    assert Pow10(2) == 100 by { assert Pow10(1) == 10; }
    TextFits(x, 2);
  }

  lemma {:induction false} ThreeDigits(x: nat)
    requires x < 1000
    ensures |Pad(x, 3)| == 3
  {
    assert Pow10(3) == 1000 by { assert Pow10(2) == 100 by { assert Pow10(1) == 10; } }
    TextFits(x, 3);
  }

  lemma {:induction false} NoLeadingZero(n: nat)
    ensures n > 0 ==> Text(n)[0] != '0'
    ensures n >= 100 ==> |Text(n)| > 2
  {
    if n >= 10 { NoLeadingZero(n / 10); }
    if n >= 100 { assert Text(n) == Text(n / 10 / 10) + [Digit(n / 10 % 10)] + [Digit(n % 10)]; }
  }

  lemma {:induction false} SplitHour(h: nat, inHour: nat)
    requires inHour < 3_600_000
    ensures (3_600_000 * h + inHour) / 3_600_000 == h && (3_600_000 * h + inHour) % 3_600_000 == inHour
  {
  }

  lemma {:induction false} SplitMinute(minutes: nat, inMinute: nat)
    requires inMinute < 60_000
    ensures (60_000 * minutes + inMinute) / 60_000 == minutes && (60_000 * minutes + inMinute) % 60_000 == inMinute
  {
  }

  lemma {:induction false} SplitSecond(seconds: nat, r: nat)
    requires r < 1_000
    ensures (1_000 * seconds + r) / 1_000 == seconds && (1_000 * seconds + r) % 1_000 == r
  {
  }

  function Total(h: nat, m: nat, s: nat, r: nat): nat {
    h * 3_600_000 + m * 60_000 + s * 1_000 + r
  }

  /** The parts that are printed make up the whole time, */
  lemma {:induction false} Decompose(total: nat)
    ensures Total(total / 3_600_000, total % 3_600_000 / 60_000, total % 60_000 / 1_000, total % 1_000) == total
    ensures total % 3_600_000 / 60_000 < 60 && total % 60_000 / 1_000 < 60 && total % 1_000 < 1_000
  {
    var h, inHour := total / 3_600_000, total % 3_600_000;
    var m, inMinute := inHour / 60_000, inHour % 60_000;
    var s, r := inMinute / 1_000, inMinute % 1_000;
    assert h * 3_600_000 + m * 60_000 + s * 1_000 + r == total;
    SplitMinute(60 * h + m, inMinute);
    SplitSecond(60 * (60 * h + m) + s, r);
  }

  /** and a time made up of parts is printed as them. */
  lemma {:induction false} Recompose(h: nat, m: nat, s: nat, r: nat)
    requires m < 60 && s < 60 && r < 1000
    ensures var total := Total(h, m, s, r);
            total / 3_600_000 == h && total % 3_600_000 / 60_000 == m && total % 60_000 / 1_000 == s && total % 1_000 == r
  {
    var inMinute := s * 1_000 + r;
    var inHour := m * 60_000 + inMinute;
    assert Total(h, m, s, r) == 3_600_000 * h + inHour == 60_000 * (60 * h + m) + inMinute
        == 1_000 * (60 * (60 * h + m) + s) + r;
    SplitHour(h, inHour);
    SplitMinute(m, inMinute);
    SplitMinute(60 * h + m, inMinute);
    SplitSecond(s, r);
    SplitSecond(60 * (60 * h + m) + s, r);
  }

  lemma {:induction false} ReadComposed(hours: string, minutes: string, seconds: string, millis: string, format: Format)
    requires AllDigits(hours) && AllDigits(minutes) && AllDigits(seconds) && AllDigits(millis)
    requires |hours| == 2 || (|hours| > 2 && hours[0] != '0')
    requires |minutes| == 2 && |seconds| == 2 && |millis| == 3 && Value(minutes) < 60 && Value(seconds) < 60
    ensures ParseTimestamp(Compose(hours, minutes, seconds, millis, format), format)
         == Some(Total(Value(hours), Value(minutes), Value(seconds), Value(millis)))
  {
    PartsOfComposed(hours, minutes, seconds, millis, format);
  }

  lemma {:induction false} HourText(h: nat)
    ensures Value(Pad(h, 2)) == h && (|Pad(h, 2)| == 2 || Pad(h, 2)[0] != '0')
  {
    PadRoundTrip(h, 2);
    NoLeadingZero(h);
  }

  /** Reading a printed timestamp gives the whole milliseconds it was printed from, negative ones as zero. */
  lemma {:induction false} PrintThenRead(milliseconds: real, format: Format)
    ensures ParseTimestamp(FormatTimestamp(milliseconds, format), format) == Some(WholeMilliseconds(milliseconds))
  {
    var total := WholeMilliseconds(milliseconds);
    var h, m, s, r := total / 3_600_000, total % 3_600_000 / 60_000, total % 60_000 / 1_000, total % 1_000;
    Decompose(total);
    TwoDigits(m); TwoDigits(s); ThreeDigits(r);
    HourText(h); PadRoundTrip(m, 2); PadRoundTrip(s, 2); PadRoundTrip(r, 3);
    assert FormatTimestamp(milliseconds, format) == Compose(Pad(h, 2), Pad(m, 2), Pad(s, 2), Pad(r, 3), format);
    ReadComposed(Pad(h, 2), Pad(m, 2), Pad(s, 2), Pad(r, 3), format);
  }

  lemma {:induction false} BelowThousand(s: string)
    requires AllDigits(s) && |s| == 3
    ensures Value(s) < 1000
  {
    ValueFits(s);
    assert Pow10(3) == 1000 by { assert Pow10(2) == 100 by { assert Pow10(1) == 10; } }
  }

  lemma {:induction false} TakenApart(s: string, format: Format)
    requires WellFormed(s, format)
    ensures var n := |s|; s == Compose(s[..n - 10], s[n - 9..n - 7], s[n - 6..n - 4], s[n - 3..], format)
  {
    var n := |s|;
    assert s == s[..n - 10] + [s[n - 10]] + s[n - 9..n - 7] + [s[n - 7]] + s[n - 6..n - 4] + [s[n - 4]] + s[n - 3..];
  }

  /** And every well-formed timestamp is printed from what it reads as. */
  lemma {:induction false} ReadThenPrint(s: string, format: Format)
    requires ParseTimestamp(s, format).Some?
    ensures FormatTimestamp(ParseTimestamp(s, format).value as real, format) == s
  {
    var n := |s|;
    var hours, minutes, seconds, millis := s[..n - 10], s[n - 9..n - 7], s[n - 6..n - 4], s[n - 3..];
    var h, m, sec, r := Value(hours), Value(minutes), Value(seconds), Value(millis);
    BelowThousand(millis);
    var total := Total(h, m, sec, r);
    Recompose(h, m, sec, r);
    PadOfValue(hours, 2); PadOfValue(minutes, 2); PadOfValue(seconds, 2); PadOfValue(millis, 3);
    assert WholeMilliseconds(total as real) == total;
    assert s == Compose(hours, minutes, seconds, millis, format) by { TakenApart(s, format); }
  }

  /** Below 100 hours, sorting the texts is sorting the times. */
  lemma {:induction false} TextOrderIsTimeOrder(a: real, b: real, format: Format)
    requires WholeMilliseconds(a) < 360_000_000 && WholeMilliseconds(b) < 360_000_000
    ensures Before(FormatTimestamp(a, format), FormatTimestamp(b, format)) <==> WholeMilliseconds(a) < WholeMilliseconds(b)
  {
    var x, y := WholeMilliseconds(a), WholeMilliseconds(b);
    var h, m, s, r := x / 3_600_000, x % 3_600_000 / 60_000, x % 60_000 / 1_000, x % 1_000;
    var h', m', s', r' := y / 3_600_000, y % 3_600_000 / 60_000, y % 60_000 / 1_000, y % 1_000;
    Decompose(x); Decompose(y);
    PaddedPartsInOrder(h, h', 2); PaddedPartsInOrder(m, m', 2); PaddedPartsInOrder(s, s', 2); PaddedPartsInOrder(r, r', 3);
    assert FormatTimestamp(a, format) == Compose(Pad(h, 2), Pad(m, 2), Pad(s, 2), Pad(r, 3), format);
    assert FormatTimestamp(b, format) == Compose(Pad(h', 2), Pad(m', 2), Pad(s', 2), Pad(r', 3), format);
    ComposedInOrder(Pad(h, 2), Pad(m, 2), Pad(s, 2), Pad(r, 3), Pad(h', 2), Pad(m', 2), Pad(s', 2), Pad(r', 3), format);
  }

  lemma {:induction false} Same(prefix: string)
    ensures !Before(prefix, prefix)
  {
    if prefix != [] { Same(prefix[1..]); }
  }

  /** Texts that start with the same separator are in the order of what follows it. */
  lemma {:induction false} SeparatedInOrder(part: string, rest: string, part': string, rest': string, sep: char)
    requires |part| == |part'|
    ensures Before(part + ([sep] + rest), part' + ([sep] + rest')) <==> Before(part, part') || (part == part' && Before(rest, rest'))
  {
    Same([sep]);
    BeforeByParts([sep], [sep], rest, rest');
    BeforeByParts(part, part', [sep] + rest, [sep] + rest');
  }

  lemma {:induction false} ComposedInOrder(h: string, m: string, s: string, r: string,
                                           h': string, m': string, s': string, r': string, format: Format)
    requires |h| == |h'| && |m| == |m'| && |s| == |s'|
    ensures Before(Compose(h, m, s, r, format), Compose(h', m', s', r', format)) <==>
              Before(h, h') || (h == h' && (Before(m, m') || (m == m' && (Before(s, s') || (s == s' && Before(r, r'))))))
  {
    var sep := Separator(format);
    var inMinute, inMinute' := s + ([sep] + r), s' + ([sep] + r');
    var inHour, inHour' := m + ([':'] + inMinute), m' + ([':'] + inMinute');
    SeparatedInOrder(s, r, s', r', sep);
    SeparatedInOrder(m, inMinute, m', inMinute', ':');
    SeparatedInOrder(h, inHour, h', inHour', ':');
    assert Compose(h, m, s, r, format) == h + ([':'] + inHour);
    assert Compose(h', m', s', r', format) == h' + ([':'] + inHour');
  }

  lemma {:induction false} PaddedPartsInOrder(x: nat, y: nat, width: nat)
    requires (width == 2 && x < 100 && y < 100) || (width == 3 && x < 1000 && y < 1000)
    ensures |Pad(x, width)| == |Pad(y, width)| == width
    ensures Before(Pad(x, width), Pad(y, width)) <==> x < y
    ensures Pad(x, width) == Pad(y, width) <==> x == y
  {
    if width == 2 { TwoDigits(x); TwoDigits(y); } else { ThreeDigits(x); ThreeDigits(y); }
    DigitsInOrder(Pad(x, width), Pad(y, width));
    PadRoundTrip(x, width); PadRoundTrip(y, width);
  }
}
