/** Instants and the `TimeFormat` layout "2006-01-02T15:04:05" of
    interface.go, the xs:dateTime profile without fraction or zone. */
module TimeFmt {
  import opened Base

  /** An instant in whole seconds since 1970-01-01T00:00:00 UTC. */
  type Instant = int

  /** The zero `time.Time`, January 1 of year 1, 00:00:00 UTC: what a
      struct field of type time.Time holds until it is set. */
  const ZeroInstant: Instant := -62135596800

  const SecondsPerMinute: int := 60
  const SecondsPerDay: int := 86400

  /** time.Time.Add of a whole number of minutes. */
  function AddMinutes(t: Instant, minutes: int): (r: Instant)
    ensures r - t == minutes * SecondsPerMinute
  {
    t + minutes * SecondsPerMinute
  }

  /** The calendar fields of an instant in the proleptic Gregorian calendar. */
  datatype Civil = Civil(year: int, month: int, day: int, hour: int, minute: int, second: int)

  ghost predicate ValidFields(c: Civil) {
    1 <= c.month <= 12 && 1 <= c.day <= 31 &&
    0 <= c.hour < 24 && 0 <= c.minute < 60 && 0 <= c.second < 60
  }

  function IsLeap(y: int): bool {
    y % 4 == 0 && (y % 100 != 0 || y % 400 == 0)
  }

  function YearDays(y: int): int {
    if IsLeap(y) then 366 else 365
  }

  function MonthDays(y: int, m: int): int
    requires 1 <= m <= 12
  {
    if m == 2 then (if IsLeap(y) then 29 else 28)
    else if m in {4, 6, 9, 11} then 30
    else 31
  }

  /** The year containing the day `days` days after 1 January of year `y`,
      and the day's 0-based position in that year. */
  function SplitYear(days: int, y: int): (r: (int, int))
    ensures 0 <= r.1 < YearDays(r.0)
    decreases if days < 0 then 1 else 0, if days < 0 then -days else days
  {
    if days < 0 then SplitYear(days + YearDays(y - 1), y - 1)
    else if days < YearDays(y) then (y, days)
    else SplitYear(days - YearDays(y), y + 1)
  }

  /** Days from 1 January of year 1 to 1 January of year `y`, counting
      the leap days of the proleptic Gregorian calendar. */
  function DaysBefore(y: int): int {
    365 * (y - 1) + (y - 1) / 4 - (y - 1) / 100 + (y - 1) / 400
  }

  /** Consecutive new years lie one year's length apart. */
  lemma DaysBeforeStep(y: int)
    ensures DaysBefore(y + 1) - DaysBefore(y) == YearDays(y)
  {
    DivStep(y, 4);
    DivStep(y, 100);
    DivStep(y, 400);
  }

  /** `y / k` gains one exactly at a multiple of `k`. */
  lemma DivStep(y: int, k: int)
    requires k > 0
    ensures y / k - (y - 1) / k == if y % k == 0 then 1 else 0
  {
    var q, r := (y - 1) / k, (y - 1) % k;
    assert y == k * q + (r + 1);
    if r + 1 < k {
      DivUnique(y, k, q, r + 1);
    } else {
      assert y == k * (q + 1) + 0;
      DivUnique(y, k, q + 1, 0);
    }
  }

  /** Euclidean division has one quotient and one remainder. */
  lemma DivUnique(y: int, k: int, q: int, r: int)
    requires k > 0 && 0 <= r < k && y == k * q + r
    ensures y / k == q && y % k == r
  {
    var q', r' := y / k, y % k;
    assert y == k * q' + r';
    if q' > q {
      MulAtLeast(k, q' - q);
    } else if q' < q {
      MulAtLeast(k, q - q');
    }
  }

  lemma {:induction false} MulAtLeast(k: int, d: int)
    requires k > 0 && d >= 1
    ensures k * d >= k
    decreases d
  {
    if d > 1 {
      MulAtLeast(k, d - 1);
      assert k * d == k * (d - 1) + k;
    }
  }

  /** Later years start later: by at least the length of the earlier one. */
  lemma {:induction false} DaysBeforeGrows(a: int, b: int)
    requires a < b
    ensures DaysBefore(b) - DaysBefore(a) >= YearDays(a)
    decreases b - a
  {
    DaysBeforeStep(a);
    if a + 1 < b {
      DaysBeforeGrows(a + 1, b);
    }
  }

  /** `SplitYear` finds the one year and day position that lie `days` days
      after 1 January of year `y`. */
  lemma {:induction false} SplitYearAt(days: int, y: int, y2: int, doy: int)
    requires 0 <= doy < YearDays(y2)
    requires DaysBefore(y2) - DaysBefore(y) + doy == days
    ensures SplitYear(days, y) == (y2, doy)
    decreases if days < 0 then 1 else 0, if days < 0 then -days else days
  {
    if days < 0 {
      DaysBeforeStep(y - 1);
      SplitYearAt(days + YearDays(y - 1), y - 1, y2, doy);
    } else if days < YearDays(y) {
      if y2 > y {
        DaysBeforeGrows(y, y2);
      } else if y2 < y {
        DaysBeforeGrows(y2, y);
      }
    } else {
      DaysBeforeStep(y);
      SplitYearAt(days - YearDays(y), y + 1, y2, doy);
    }
  }

  /** The month, from `m` on, containing day `doy` (0-based, counted from the
      first day of month `m`) of year `y`, and the 1-based day in it. */
  function SplitMonth(doy: int, y: int, m: int): (r: (int, int))
    requires 1 <= m <= 12 && 0 <= doy
    requires doy < MonthsFrom(y, m)
    ensures m <= r.0 <= 12 && 1 <= r.1 <= MonthDays(y, r.0)
    decreases 12 - m
  {
    if doy < MonthDays(y, m) then (m, doy + 1) else SplitMonth(doy - MonthDays(y, m), y, m + 1)
  }

  /** Days in months `m` to 12 of year `y`. */
  function MonthsFrom(y: int, m: int): int
    requires 1 <= m <= 12
    decreases 12 - m
  {
    if m == 12 then 31 else MonthDays(y, m) + MonthsFrom(y, m + 1)
  }

  /** The calendar fields of an instant (proleptic Gregorian calendar, UTC). */
  function CivilOf(t: Instant): (c: Civil)
    ensures ValidFields(c)
  {
    var days, secs := t / SecondsPerDay, t % SecondsPerDay;
    var (y, doy) := SplitYear(days, 1970);
    assert MonthsFrom(y, 1) == YearDays(y);
    var (m, d) := SplitMonth(doy, y, 1);
    Civil(y, m, d, secs / 3600, secs % 3600 / 60, secs % 60)
  }

  /** `n` in decimal, left-padded with zeros to at least `width` digits. */
  function Pad(n: nat, width: nat): string
    decreases width
  {
    var digits := NatToString(n);
    if |digits| >= width then digits else "0" + Pad(n, width - 1)
  }

  /** A padded field is all digits, `width` of them unless the number
      needs more. */
  lemma {:induction false} PadShape(n: nat, width: nat)
    ensures var s := Pad(n, width);
      |s| == (if |NatToString(n)| < width then width else |NatToString(n)|) &&
      forall i :: 0 <= i < |s| ==> '0' <= s[i] <= '9'
    decreases width
  {
    if |NatToString(n)| < width {
      PadShape(n, width - 1);
    }
  }

  /** Go's appendInt for a time field: a '-' for negative values, then the
      magnitude zero-padded to `width`. */
  function Field(n: int, width: nat): string {
    if n < 0 then "-" + Pad(-n, width) else Pad(n, width)
  }

  /** The pieces a layout is made of, as Go's time package splits it: a
      calendar field or a literal character. */
  datatype Chunk = LongYear | ZeroMonth | ZeroDay | Hour | ZeroMinute | ZeroSecond | Lit(ch: char)

  /** The layout "2006-01-02T15:04:05" split into its pieces. */
  const TimeLayout: seq<Chunk> :=
    [LongYear, Lit('-'), ZeroMonth, Lit('-'), ZeroDay, Lit('T'), Hour, Lit(':'), ZeroMinute, Lit(':'), ZeroSecond]

  function RenderChunk(k: Chunk, c: Civil): string {
    match k
    case LongYear => Field(c.year, 4)
    case ZeroMonth => Field(c.month, 2)
    case ZeroDay => Field(c.day, 2)
    case Hour => Field(c.hour, 2)
    case ZeroMinute => Field(c.minute, 2)
    case ZeroSecond => Field(c.second, 2)
    case Lit(ch) => [ch]
  }

  /** The text of a layout for the given calendar fields, piece by piece. */
  function Render(layout: seq<Chunk>, c: Civil): string {
    if layout == [] then "" else Render(layout[..|layout| - 1], c) + RenderChunk(layout[|layout| - 1], c)
  }

  /** `t.Format(TimeFormat)`. */
  function Format(t: Instant): string {
    Render(TimeLayout, CivilOf(t))
  }

  /** The layout is rendered piece after piece. */
  lemma RenderStep(layout: seq<Chunk>, k: nat, c: Civil)
    requires k < |layout|
    ensures Render(layout[..k + 1], c) == Render(layout[..k], c) + RenderChunk(layout[k], c)
  {
    assert layout[..k + 1][..k] == layout[..k] && layout[..k + 1][k] == layout[k];
  }

  /** A piece added at the end is rendered after the rest. */
  lemma RenderAppend(layout: seq<Chunk>, k: Chunk, c: Civil)
    ensures Render(layout + [k], c) == Render(layout, c) + RenderChunk(k, c)
  {
    assert (layout + [k])[..|layout|] == layout;
  }

  /** Five pieces are rendered one after the other. */
  lemma RenderFive(a: Chunk, b: Chunk, d: Chunk, e: Chunk, f: Chunk, c: Civil)
    ensures Render([a] + [b] + [d] + [e] + [f], c) ==
      RenderChunk(a, c) + RenderChunk(b, c) + RenderChunk(d, c) + RenderChunk(e, c) + RenderChunk(f, c)
  {
    var ra := RenderChunk(a, c);
    assert Render([a], c) == Render([], c) + ra;
    assert "" + ra == ra;
    RenderAppend([a], b, c);
    RenderAppend([a] + [b], d, c);
    RenderAppend([a] + [b] + [d], e, c);
    RenderAppend([a] + [b] + [d] + [e], f, c);
  }

  /** The date half of the layout. */
  lemma RenderDate(c: Civil)
    ensures Render(TimeLayout[..5], c) ==
      Field(c.year, 4) + "-" + Field(c.month, 2) + "-" + Field(c.day, 2)
  {
    assert TimeLayout[..5] == [LongYear] + [Lit('-')] + [ZeroMonth] + [Lit('-')] + [ZeroDay];
    RenderFive(LongYear, Lit('-'), ZeroMonth, Lit('-'), ZeroDay, c);
  }

  /** The layout spelled out: the six fields with their separators. */
  lemma RenderLayout(c: Civil)
    requires Render(TimeLayout[..5], c) ==
      Field(c.year, 4) + "-" + Field(c.month, 2) + "-" + Field(c.day, 2)
    ensures Render(TimeLayout, c) ==
      Field(c.year, 4) + "-" + Field(c.month, 2) + "-" + Field(c.day, 2) + "T" +
      Field(c.hour, 2) + ":" + Field(c.minute, 2) + ":" + Field(c.second, 2)
  {
    var l := TimeLayout;
    RenderStep(l, 5, c);
    RenderStep(l, 6, c);
    RenderStep(l, 7, c);
    RenderStep(l, 8, c);
    RenderStep(l, 9, c);
    RenderStep(l, 10, c);
    assert l[..11] == l;
  }

  lemma {:induction false} NatToStringLength(n: nat, k: nat)
    requires n < Pow10(k)
    ensures |NatToString(n)| <= if k == 0 then 1 else k
    decreases n
  {
    if n >= 10 {
      assert k >= 2;
      NatToStringLength(n / 10, k - 1);
    }
  }

  function Pow10(k: nat): nat {
    if k == 0 then 1 else 10 * Pow10(k - 1)
  }

  /** A zero-padded field keeps its value: reading the digits back gives `n`. */
  lemma {:induction false} PadValue(n: nat, width: nat)
    ensures var s := Pad(n, width); (forall i :: 0 <= i < |s| ==> '0' <= s[i] <= '9') && DigitsValue(s) == n
    decreases width
  {
    var digits := NatToString(n);
    PadShape(n, width);
    if |digits| >= width {
      NatToStringRoundTrip(n);
    } else {
      PadValue(n, width - 1);
      PadShape(n, width - 1);
      LeadingZero(Pad(n, width - 1));
    }
  }

  lemma {:induction false} LeadingZero(s: string)
    requires forall i :: 0 <= i < |s| ==> '0' <= s[i] <= '9'
    ensures DigitsValue("0" + s) == DigitsValue(s)
    decreases |s|
  {
    if s != [] {
      var t := "0" + s;
      assert t[..|t| - 1] == "0" + s[..|s| - 1];
      LeadingZero(s[..|s| - 1]);
    }
  }

  /** The layout: 19 characters, '-' '-' 'T' ':' ':' at fixed places, digits
      elsewhere, no fraction and no zone; each field reads back as the
      instant's calendar field. Holds for every instant in years 0 to 9999. */
  lemma FormatLayout(t: Instant)
    requires 0 <= CivilOf(t).year <= 9999
    ensures var s, c := Format(t), CivilOf(t);
      |s| == 19 &&
      s[4] == '-' && s[7] == '-' && s[10] == 'T' && s[13] == ':' && s[16] == ':' &&
      (forall i :: 0 <= i < 19 && i !in {4, 7, 10, 13, 16} ==> '0' <= s[i] <= '9') &&
      DigitsValue(s[0..4]) == c.year && DigitsValue(s[5..7]) == c.month &&
      DigitsValue(s[8..10]) == c.day && DigitsValue(s[11..13]) == c.hour &&
      DigitsValue(s[14..16]) == c.minute && DigitsValue(s[17..19]) == c.second
  {
    var c := CivilOf(t);
    RenderDate(c);
    RenderLayout(c);
    var y := PaddedField(c.year, 4);
    var mo := PaddedField(c.month, 2);
    var d := PaddedField(c.day, 2);
    var h := PaddedField(c.hour, 2);
    var mi := PaddedField(c.minute, 2);
    var se := PaddedField(c.second, 2);
    Assemble(y, mo, d, h, mi, se);
  }

  /** A field that fits its width: exactly `width` digits that read back as `n`. */
  lemma PaddedField(n: int, width: nat) returns (s: string)
    requires 0 <= n < Pow10(width) && width > 0
    ensures s == Field(n, width) && |s| == width
    ensures forall i :: 0 <= i < |s| ==> '0' <= s[i] <= '9'
    ensures DigitsValue(s) == n
  {
    NatToStringLength(n, width);
    PadShape(n, width);
    PadValue(n, width);
    s := Pad(n, width);
  }

  lemma Assemble(y: string, mo: string, d: string, h: string, mi: string, se: string)
    requires |y| == 4 && |mo| == 2 && |d| == 2 && |h| == 2 && |mi| == 2 && |se| == 2
    requires forall i :: 0 <= i < 4 ==> '0' <= y[i] <= '9'
    requires forall i :: 0 <= i < 2 ==> '0' <= mo[i] <= '9' && '0' <= d[i] <= '9'
    requires forall i :: 0 <= i < 2 ==> '0' <= h[i] <= '9' && '0' <= mi[i] <= '9' && '0' <= se[i] <= '9'
    ensures var s := y + "-" + mo + "-" + d + "T" + h + ":" + mi + ":" + se;
      |s| == 19 &&
      s[4] == '-' && s[7] == '-' && s[10] == 'T' && s[13] == ':' && s[16] == ':' &&
      (forall i :: 0 <= i < 19 && i !in {4, 7, 10, 13, 16} ==> '0' <= s[i] <= '9') &&
      s[0..4] == y && s[5..7] == mo && s[8..10] == d &&
      s[11..13] == h && s[14..16] == mi && s[17..19] == se
  {
  }

  /** The epoch itself formats as 1970-01-01T00:00:00. */
  lemma EpochFormat()
    ensures Format(0) == "1970-01-01T00:00:00"
  {
    EpochCivil();
    EpochRender(CivilOf(0));
  }

  lemma EpochRender(c: Civil)
    requires c == Civil(1970, 1, 1, 0, 0, 0)
    ensures Render(TimeLayout, c) == "1970-01-01T00:00:00"
  {
    RenderDate(c);
    RenderLayout(c);
    EpochFields();
    assert Render(TimeLayout, c) == "1970" + "-" + "01" + "-" + "01" + "T" + "00" + ":" + "00" + ":" + "00";
  }

  /** The zero time.Time formats as 0001-01-01T00:00:00, the value Go
      writes for an instant that was never set. */
  lemma ZeroFormat()
    ensures Format(ZeroInstant) == "0001-01-01T00:00:00"
  {
    ZeroCivil();
    ZeroRender(CivilOf(ZeroInstant));
  }

  lemma ZeroCivil()
    ensures CivilOf(ZeroInstant) == Civil(1, 1, 1, 0, 0, 0)
  {
    assert ZeroInstant / SecondsPerDay == -719162 && ZeroInstant % SecondsPerDay == 0;
    assert DaysBefore(1970) == 719162;
    SplitYearAt(-719162, 1970, 1, 0);
  }

  lemma ZeroRender(c: Civil)
    requires c == Civil(1, 1, 1, 0, 0, 0)
    ensures Render(TimeLayout, c) == "0001-01-01T00:00:00"
  {
    RenderDate(c);
    RenderLayout(c);
    ZeroFields();
    assert Render(TimeLayout, c) == "0001" + "-" + "01" + "-" + "01" + "T" + "00" + ":" + "00" + ":" + "00";
  }

  lemma ZeroFields()
    ensures Field(1, 4) == "0001" && Field(1, 2) == "01" && Field(0, 2) == "00"
  {
    assert NatToString(1) == "1" && NatToString(0) == "0";
  }

  lemma EpochCivil()
    ensures CivilOf(0) == Civil(1970, 1, 1, 0, 0, 0)
  {
  }

  lemma EpochFields()
    ensures Field(1970, 4) == "1970" && Field(1, 2) == "01" && Field(0, 2) == "00"
  {
    assert NatToString(1970) == "1970";
    assert NatToString(1) == "1" && NatToString(0) == "0";
  }
}
