/** Canonical UTC timestamps: printed by strftime, read back by fromisoformat. */
module Timestamps {
  import opened Basics
  import Decimals

  /** A UTC instant with microseconds. */
  datatype Moment = Moment(year: nat, month: nat, day: nat, hour: nat, minute: nat, second: nat, micro: nat)

  predicate Leap(year: nat) { year % 4 == 0 && (year % 100 != 0 || year % 400 == 0) }

  function DaysIn(year: nat, month: nat): nat {
    if month == 2 then if Leap(year) then 29 else 28
    else if month == 4 || month == 6 || month == 9 || month == 11 then 30
    else 31
  }

  /** The values a Python datetime can have. */
  predicate InRange(m: Moment) {
    && 1 <= m.year <= 9999 && 1 <= m.month <= 12 && 1 <= m.day <= DaysIn(m.year, m.month)
    && m.hour < 24 && m.minute < 60 && m.second < 60 && m.micro < 1000000
  }

  function Part(m: Moment, i: nat): nat
    requires i < 7
  {
    match i
    case 0 => m.year
    case 1 => m.month
    case 2 => m.day
    case 3 => m.hour
    case 4 => m.minute
    case 5 => m.second
    case _ => m.micro
  }

  function Width(i: nat): nat { if i == 0 then 4 else if i == 6 then 6 else 2 }

  /** The text after part i; the last one is the zone. */
  function Separator(i: nat, zone: string): string {
    match i
    case 0 => "-"
    case 1 => "-"
    case 2 => "T"
    case 3 => ":"
    case 4 => ":"
    case 5 => "."
    case _ => zone
  }

  /** strftime pads every part but, before Python normalised %Y, the year. */
  function PartText(m: Moment, i: nat, padded: bool): string
    requires i < 7
  {
    if i == 0 && !padded then Decimals.Text(m.year) else Decimals.Padded(Part(m, i), Width(i))
  }

  function TextFrom(m: Moment, i: nat, padded: bool, zone: string): string
    requires i <= 7
    decreases 7 - i
  {
    if i == 7 then "" else PartText(m, i, padded) + (Separator(i, zone) + TextFrom(m, i + 1, padded, zone))
  }

  /** _canon_dt */
  function Canonical(m: Moment, padded: bool): string { TextFrom(m, 0, padded, "Z") }

  /** s.replace("Z", "+00:00") */
  function ZoneReplaced(s: string): string {
    if s == "" then "" else (if s[0] == 'Z' then "+00:00" else [s[0]]) + ZoneReplaced(s[1..])
  }

  /** datetime.fromisoformat on the extended form with a UTC offset: the parts from part i on. */
  function ReadParts(s: string, i: nat): (r: Option<seq<nat>>)
    requires i <= 7
    ensures r.Some? ==> |r.value| == 7 - i
    decreases 7 - i
  {
    if i == 7 then if s == "" then Some([]) else None
    else
      var w, separator := Width(i), Separator(i, "+00:00");
      if |s| < w + |separator| || !Decimals.AllDigits(s[..w]) || s[w..w + |separator|] != separator then None
      else
        match ReadParts(s[w + |separator|..], i + 1)
        case None => None
        case Some(rest) => Some([Decimals.Value(s[..w])] + rest)
  }

  function ReadMoment(s: string): Option<Moment> {
    match ReadParts(s, 0)
    case None => None
    case Some(p) =>
      var m := Moment(p[0], p[1], p[2], p[3], p[4], p[5], p[6]);
      if InRange(m) then Some(m) else None
  }

  function Parts(m: Moment, i: nat): (r: seq<nat>)
    requires i <= 7
    ensures |r| == 7 - i
    decreases 7 - i
  {
    if i == 7 then [] else [Part(m, i)] + Parts(m, i + 1)
  }

  lemma {:induction false} ZoneReplacedAppend(s: string, t: string)
    requires 'Z' !in s
    ensures ZoneReplaced(s + t) == s + ZoneReplaced(t)
  {
    if s == "" {
      assert s + t == t;
    } else {
      ZoneReplacedAppend(s[1..], t);
      assert (s + t)[1..] == s[1..] + t;
      assert s == [s[0]] + s[1..];
    }
  }

  lemma {:induction false} ZoneOfText(m: Moment, i: nat, padded: bool)
    requires i <= 7
    ensures ZoneReplaced(TextFrom(m, i, padded, "Z")) == TextFrom(m, i, padded, "+00:00")
    decreases 7 - i
  {
    if i < 7 {
      hide TextFrom, ZoneReplaced, PartText, Separator;
      ZoneOfText(m, i + 1, padded);
      PartHasNoZone(m, i, padded);
      TextStep(m, i, padded, "Z");
      TextStep(m, i, padded, "+00:00");
      ZoneOfPart(PartText(m, i, padded), i, TextFrom(m, i + 1, padded, "Z"));
    }
  }

  lemma PartHasNoZone(m: Moment, i: nat, padded: bool)
    requires i < 7
    ensures 'Z' !in PartText(m, i, padded)
  {
    assert Decimals.AllDigits(PartText(m, i, padded));
    hide PartText;
  }

  lemma ZoneOfPart(part: string, i: nat, rest: string)
    requires i < 7 && 'Z' !in part
    ensures ZoneReplaced(part + (Separator(i, "Z") + rest)) == part + (Separator(i, "+00:00") + ZoneReplaced(rest))
  {
    ZoneReplacedAppend(part, Separator(i, "Z") + rest);
    if i == 6 {
      assert ("Z" + rest)[1..] == rest;
    } else {
      hide ZoneReplaced;
      ZoneReplacedAppend(Separator(i, "Z"), rest);
    }
  }

  lemma TextStep(m: Moment, i: nat, padded: bool, zone: string)
    requires i < 7
    ensures TextFrom(m, i, padded, zone)
      == PartText(m, i, padded) + (Separator(i, zone) + TextFrom(m, i + 1, padded, zone))
  {
  }

  lemma PartFits(m: Moment, i: nat)
    requires i < 7 && InRange(m)
    ensures Part(m, i) < Decimals.Pow10(Width(i))
  {
    assert Decimals.Pow10(2) == 10 * Decimals.Pow10(1) == 100;
    assert Decimals.Pow10(4) == 10 * Decimals.Pow10(3) == 10000;
    assert Decimals.Pow10(6) == 10 * Decimals.Pow10(5) == 100 * Decimals.Pow10(4);
  }

  lemma {:induction false} ReadOfText(m: Moment, i: nat, padded: bool)
    requires i <= 7 && InRange(m) && (i > 0 || padded)
    ensures ReadParts(TextFrom(m, i, padded, "+00:00"), i) == Some(Parts(m, i))
    decreases 7 - i
  {
    if i < 7 {
      ReadOfText(m, i + 1, padded);
      PartFits(m, i);
      Decimals.ValueOfPadded(Part(m, i), Width(i));
      ReadPart(Decimals.Padded(Part(m, i), Width(i)), TextFrom(m, i + 1, padded, "+00:00"), i, Parts(m, i + 1));
      TextStep(m, i, padded, "+00:00");
      hide TextFrom, ReadParts;
    }
  }

  lemma ReadPart(digits: string, rest: string, i: nat, parts: seq<nat>)
    requires i < 7 && |digits| == Width(i) && Decimals.AllDigits(digits) && ReadParts(rest, i + 1) == Some(parts)
    ensures ReadParts(digits + (Separator(i, "+00:00") + rest), i) == Some([Decimals.Value(digits)] + parts)
  {
    var separator := Separator(i, "+00:00");
    Slices(digits, separator, rest);
    hide Width, Separator, Decimals.AllDigits, Decimals.Value;
    ReadStep(digits + (separator + rest), i, rest, parts);
  }

  lemma Slices(a: string, b: string, c: string)
    ensures var s := a + (b + c);
      |s| >= |a| + |b| && s[..|a|] == a && s[|a|..|a| + |b|] == b && s[|a| + |b|..] == c
  {
  }

  lemma ReadStep(s: string, i: nat, rest: string, parts: seq<nat>)
    requires i < 7
    requires var w, separator := Width(i), Separator(i, "+00:00");
      |s| >= w + |separator| && Decimals.AllDigits(s[..w]) && s[w..w + |separator|] == separator
        && s[w + |separator|..] == rest
    requires ReadParts(rest, i + 1) == Some(parts)
    ensures ReadParts(s, i) == Some([Decimals.Value(s[..Width(i)])] + parts)
  {
    hide Width, Separator, Decimals.AllDigits, Decimals.Value;
  }

  lemma ShortYearUnreadable(m: Moment)
    requires 1 <= m.year < 1000
    ensures ReadParts(TextFrom(m, 0, false, "+00:00"), 0).None?
  {
    var year := Decimals.Text(m.year);
    var s := TextFrom(m, 0, false, "+00:00");
    assert Decimals.Pow10(3) == 10 * Decimals.Pow10(2) == 1000 by {
      assert Decimals.Pow10(2) == 10 * Decimals.Pow10(1) == 100;
    }
    Decimals.TextLength(m.year, 3);
    TextStep(m, 0, false, "+00:00");
    hide TextFrom;
    assert s[|year|] == '-';
    assert |s| >= 4 ==> s[..4][|year|] == '-';
  }

  lemma LongYearPadded(m: Moment, i: nat)
    requires 1000 <= m.year <= 9999 && i < 7
    ensures PartText(m, i, false) == PartText(m, i, true)
  {
    if i == 0 {
      var y := m.year;
      assert Decimals.Text(y) == Decimals.Text(y / 10) + [Decimals.Digit(y % 10)];
      assert Decimals.Text(y / 10) == Decimals.Text(y / 100) + [Decimals.Digit(y / 10 % 10)];
      assert Decimals.Text(y / 100) == Decimals.Text(y / 1000) + [Decimals.Digit(y / 100 % 10)];
      assert Decimals.Text(y / 1000) == [Decimals.Digit(y / 1000)];
      assert Decimals.Padded(y, 4) == Decimals.Padded(y / 10, 3) + [Decimals.Digit(y % 10)];
      assert Decimals.Padded(y / 10, 3) == Decimals.Padded(y / 100, 2) + [Decimals.Digit(y / 10 % 10)];
      assert Decimals.Padded(y / 100, 2) == Decimals.Padded(y / 1000, 1) + [Decimals.Digit(y / 100 % 10)];
      assert Decimals.Padded(y / 1000, 1) == "" + [Decimals.Digit(y / 1000)];
    }
  }

  lemma {:induction false} SameText(m: Moment, i: nat)
    requires i <= 7 && 1000 <= m.year <= 9999
    ensures TextFrom(m, i, false, "+00:00") == TextFrom(m, i, true, "+00:00")
    decreases 7 - i
  {
    if i < 7 {
      SameText(m, i + 1);
      LongYearPadded(m, i);
      hide PartText;
    }
  }

  /** A printed instant reads back as itself exactly if its year has four digits in print. */
  lemma MomentRoundTrip(m: Moment, padded: bool)
    requires InRange(m)
    ensures ReadMoment(ZoneReplaced(Canonical(m, padded))) == if padded || m.year >= 1000 then Some(m) else None
  {
    ZoneOfText(m, 0, padded);
    CanonicalMeans(m, padded);
    hide TextFrom, ReadParts, ZoneReplaced, Canonical;
    if padded || m.year >= 1000 {
      if !padded { SameText(m, 0); }
      ReadOfText(m, 0, true);
      PartsAre(m);
    } else {
      ShortYearUnreadable(m);
    }
  }

  lemma CanonicalMeans(m: Moment, padded: bool)
    ensures Canonical(m, padded) == TextFrom(m, 0, padded, "Z")
  {
    hide TextFrom;
  }

  lemma PartsAre(m: Moment)
    ensures Parts(m, 0) == [m.year, m.month, m.day, m.hour, m.minute, m.second, m.micro]
  {
    assert Parts(m, 4) == [m.minute] + ([m.second] + ([m.micro] + []));
    assert Parts(m, 0) == [m.year] + ([m.month] + ([m.day] + ([m.hour] + Parts(m, 4))));
  }

  // ---- the format and the calendar ----

  function Digits(n: nat, width: nat): string { Decimals.Padded(n, width) }

  /** YYYY-MM-DDTHH:MM:SS.ffffffZ */
  lemma CanonicalForm(m: Moment)
    ensures Canonical(m, true)
      == Digits(m.year, 4) + ("-" + (Digits(m.month, 2) + ("-" + (Digits(m.day, 2) + ("T" + (
         Digits(m.hour, 2) + (":" + (Digits(m.minute, 2) + (":" + (Digits(m.second, 2) + ("." + (
         Digits(m.micro, 6) + ("Z" + "")))))))))))))
  {
    hide Decimals.Padded;
    assert TextFrom(m, 5, true, "Z") == Digits(m.second, 2) + ("." + (Digits(m.micro, 6) + ("Z" + "")));
    assert TextFrom(m, 3, true, "Z")
      == Digits(m.hour, 2) + (":" + (Digits(m.minute, 2) + (":" + TextFrom(m, 5, true, "Z"))));
    assert TextFrom(m, 0, true, "Z")
      == Digits(m.year, 4)
         + ("-" + (Digits(m.month, 2) + ("-" + (Digits(m.day, 2) + ("T" + TextFrom(m, 3, true, "Z"))))));
  }

  /** The days of the months up to this one. */
  function DaysThrough(year: nat, month: nat): nat {
    if month == 0 then 0 else DaysThrough(year, month - 1) + DaysIn(year, month)
  }

  /** The days before the first of January of a year, by the rule of the Gregorian calendar. */
  function DaysBefore(year: nat): int
    requires year >= 1
  {
    var y := year - 1;
    365 * y + y / 4 - y / 100 + y / 400
  }

  lemma LeapExactly(year: nat)
    requires year >= 1
    ensures year / 4 - (year - 1) / 4 == if year % 4 == 0 then 1 else 0
    ensures year / 100 - (year - 1) / 100 == if year % 100 == 0 then 1 else 0
    ensures year / 400 - (year - 1) / 400 == if year % 400 == 0 then 1 else 0
  {
  }

  /** The twelve months fill the year exactly, and each has 30 or 31 days but the second. */
  lemma MonthsFillYear(year: nat, month: nat)
    requires year >= 1
    ensures DaysThrough(year, 12) == DaysBefore(year + 1) - DaysBefore(year)
    ensures 1 <= month <= 12 && month != 2 ==> DaysIn(year, month) == 30 + (month + month / 8) % 2
  {
    LeapExactly(year);
    assert DaysThrough(year, 0) == 0;
    assert DaysThrough(year, 1) == 31;
    assert DaysThrough(year, 2) == 31 + DaysIn(year, 2);
    assert DaysThrough(year, 3) == 62 + DaysIn(year, 2);
    assert DaysThrough(year, 4) == 92 + DaysIn(year, 2);
    assert DaysThrough(year, 5) == 123 + DaysIn(year, 2);
    assert DaysThrough(year, 6) == 153 + DaysIn(year, 2);
    assert DaysThrough(year, 7) == 184 + DaysIn(year, 2);
    assert DaysThrough(year, 8) == 215 + DaysIn(year, 2);
    assert DaysThrough(year, 9) == 245 + DaysIn(year, 2);
    assert DaysThrough(year, 10) == 276 + DaysIn(year, 2);
    assert DaysThrough(year, 11) == 306 + DaysIn(year, 2);
  }

  /** The parts fit the digits that they are printed with. */
  predicate Fits(m: Moment) {
    && m.year <= 9999 && m.month <= 99 && m.day <= 99 && m.hour <= 99 && m.minute <= 99 && m.second <= 99
    && m.micro <= 999999
  }

  /** What is printed is read back exactly if the parts are those of a clock and a calendar. */
  lemma ReadBackExactly(m: Moment)
    requires Fits(m)
    ensures ReadMoment(ZoneReplaced(Canonical(m, true))) == Some(m) <==>
      && m.year > 0 && 0 < m.month < 13 && 0 < m.day <= DaysIn(m.year, m.month)
      && m.hour <= 23 && m.minute <= 59 && m.second <= 59
  {
    ZoneOfText(m, 0, true);
    ReadOfWide(m, 0);
    PartsAre(m);
    hide TextFrom, ReadParts, DaysIn;
  }

  lemma WideFits(m: Moment, i: nat)
    requires i < 7 && Fits(m)
    ensures Part(m, i) < Decimals.Pow10(Width(i))
  {
    assert Decimals.Pow10(2) == 10 * Decimals.Pow10(1) == 100;
    assert Decimals.Pow10(4) == 10 * Decimals.Pow10(3) == 10000;
    assert Decimals.Pow10(6) == 10 * Decimals.Pow10(5) == 100 * Decimals.Pow10(4);
  }

  lemma {:induction false} ReadOfWide(m: Moment, i: nat)
    requires i <= 7 && Fits(m)
    ensures ReadParts(TextFrom(m, i, true, "+00:00"), i) == Some(Parts(m, i))
    decreases 7 - i
  {
    if i < 7 {
      ReadOfWide(m, i + 1);
      WideFits(m, i);
      Decimals.ValueOfPadded(Part(m, i), Width(i));
      ReadPart(Decimals.Padded(Part(m, i), Width(i)), TextFrom(m, i + 1, true, "+00:00"), i, Parts(m, i + 1));
      TextStep(m, i, true, "+00:00");
      hide TextFrom, ReadParts;
    }
  }
}
