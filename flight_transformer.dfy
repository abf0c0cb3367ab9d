/**
 * The offer transformer (lib/flight-transformer.ts): reshapes one Amadeus flight offer
 * into the UI's `FlightData` record, enriched from the cabin-specification table.
 * Every operation is a pure function.
 */
module FlightTransformer {
  import opened Wrappers
  import opened JsString
  import opened MockData
  import opened AmadeusTypes
  import Specs = CabinSpecsDatabase

  // ===========================================================================
  // Time formatting
  // ===========================================================================

  /**
   * One optional group `(\d+U)` of the duration pattern, tried at position `i`: one or
   * more digits followed by the letter `unit`. Greedy matching with backtracking succeeds
   * exactly when the maximal digit run is followed by the letter.
   */
  function UnitGroup(s: string, i: nat, unit: char): (g: Option<string>)
    requires i <= |s|
    requires !IsDigit(unit)
    ensures g.Some? ==> 2 <= |g.value| && i + |g.value| <= |s| && g.value == s[i..i + |g.value|]
    ensures g.Some? ==> AllDigits(g.value[..|g.value| - 1]) && g.value[|g.value| - 1] == unit
    ensures g.None? ==> forall j :: i < j < |s| && AllDigits(s[i..j]) ==> s[j] != unit
  {
    var k := DigitRun(s, i);
    if k > 0 && i + k < |s| && s[i + k] == unit then
      var g := s[i..i + k + 1];
      assert g[..|g| - 1] == s[i..i + k];
      Some(g)
    else
      None
  }

  /** The length of a matched group; 0 when the group is absent. */
  function GroupLength(g: Option<string>): nat {
    if g.Some? then |g.value| else 0
  }

  /**
   * The two groups of `/PT(\d+H)?(\d+M)?/` at its leftmost match, or `None` when the
   * pattern does not match, which happens exactly when `"PT"` does not occur.
   */
  function MatchDuration(d: string): (m: Option<(Option<string>, Option<string>)>)
    ensures m.None? <==> !Contains(d, "PT")
  {
    match IndexOf(d, "PT")
    case None => None
    case Some(p) =>
      var hours := UnitGroup(d, p + 2, 'H');
      Some((hours, UnitGroup(d, p + 2 + GroupLength(hours), 'M')))
  }

  /** `formatDuration`: "PT9H15M" reads "9h 15m"; input without "PT" comes back unchanged. */
  function FormatDuration(duration: string): (r: string)
    ensures !Contains(duration, "PT") ==> r == duration
  {
    match MatchDuration(duration)
    case None => duration
    case Some((h, m)) =>
      var hours := if h.Some? then ReplaceFirst(h.value, 'H', "h ") else "";
      var minutes := if m.Some? then ReplaceFirst(m.value, 'M', "m") else "";
      Trim(hours + minutes)
  }

  /** The designator `<digits><unit>` of an ISO 8601 duration, or nothing when absent. */
  function Designator(digits: Option<string>, unit: char): string {
    if digits.Some? then digits.value + [unit] else ""
  }

  /** How hours and minutes (digit strings, each possibly absent) are meant to be displayed. */
  function DurationText(hours: Option<string>, minutes: Option<string>): string {
    match (hours, minutes)
    case (Some(h), Some(m)) => h + "h " + m + "m"
    case (Some(h), None) => h + "h"
    case (None, Some(m)) => m + "m"
    case (None, None) => ""
  }

  predicate IsNumeral(x: Option<string>) {
    x.Some? ==> x.value != [] && AllDigits(x.value)
  }

  /** The group at `i` is `ds + unit` when the text there is those digits and that letter. */
  lemma UnitGroupPresent(s: string, i: nat, ds: string, unit: char)
    requires !IsDigit(unit) && ds != [] && AllDigits(ds)
    requires i + |ds| < |s| && s[i..i + |ds|] == ds && s[i + |ds|] == unit
    ensures UnitGroup(s, i, unit) == Some(ds + [unit])
  {
    assert s[i..i + |ds| + 1] == ds + [unit];
  }

  /** No hour group where the digits are followed by a different letter. */
  lemma UnitGroupOtherLetter(s: string, i: nat, ds: string, other: char, unit: char)
    requires !IsDigit(unit) && !IsDigit(other) && other != unit && ds != [] && AllDigits(ds)
    requires i + |ds| < |s| && s[i..i + |ds|] == ds && s[i + |ds|] == other
    ensures UnitGroup(s, i, unit).None?
  {
    UnitGroupPresent(s, i, ds, other);
  }

  lemma ReplaceDesignator(ds: string, unit: char, with: string)
    requires AllDigits(ds) && !IsDigit(unit)
    ensures ReplaceFirst(ds + [unit], unit, with) == ds + with
  {
    assert unit !in ds;
    ReplaceFirstAt(ds, unit, [], with);
    assert ds + [unit] + [] == ds + [unit];
    assert ds + with + [] == ds + with;
  }

  /** The group the pattern captures for a designator that is present, or none. */
  function Captured(digits: Option<string>, unit: char): Option<string> {
    if digits.Some? then Some(digits.value + [unit]) else None
  }

  /** A well-formed duration text: "PT", the optional hour and minute designators, then `rest`. */
  function DurationString(hours: Option<string>, minutes: Option<string>, rest: string): string {
    "PT" + Designator(hours, 'H') + (Designator(minutes, 'M') + rest)
  }

  /** Where the digits and the letter of a designator sit when it follows `pre`. */
  lemma DesignatorAt(pre: string, ds: string, unit: char, post: string)
    ensures var s := pre + (ds + [unit]) + post;
            |pre| + |ds| < |s| && s[|pre|..|pre| + |ds|] == ds && s[|pre| + |ds|] == unit
  {
    var s := pre + (ds + [unit]) + post;
    assert forall k :: 0 <= k < |ds| ==> s[|pre| + k] == ds[k];
  }

  lemma DesignatorFirst(pre: string, ds: string, unit: char, post: string)
    ensures var s := pre + ((ds + [unit]) + post);
            |pre| + |ds| < |s| && s[|pre|..|pre| + |ds|] == ds && s[|pre| + |ds|] == unit
  {
    assert pre + ((ds + [unit]) + post) == pre + (ds + [unit]) + post;
    DesignatorAt(pre, ds, unit, post);
  }

  /**
   * The text after the designators does not read as a group itself: no minutes group when
   * the minutes are absent, and no hours group either when both are absent.
   */
  predicate RestIsInert(hours: Option<string>, minutes: Option<string>, rest: string) {
    && (minutes.None? ==> !StartsWithGroup(rest, 'M'))
    && (hours.None? && minutes.None? ==> !StartsWithGroup(rest, 'H'))
  }

  /** `rest` begins with digits followed by `unit`. */
  predicate StartsWithGroup(rest: string, unit: char) {
    var k := DigitRun(rest, 0);
    0 < k < |rest| && rest[k] == unit
  }

  /** A group is read the same way whatever text precedes it. */
  lemma UnitGroupShift(pre: string, rest: string, unit: char)
    requires !IsDigit(unit)
    ensures UnitGroup(pre + rest, |pre|, unit) == UnitGroup(rest, 0, unit)
  {
    var s := pre + rest;
    DigitRunShift(pre, rest, 0);
    var k := DigitRun(rest, 0);
    if k > 0 && k < |rest| {
      assert s[|pre| + k] == rest[k];
      assert s[|pre|..|pre| + k + 1] == rest[0..k + 1];
    }
  }

  lemma HourGroupOf(hours: Option<string>, minutes: Option<string>, rest: string)
    requires IsNumeral(hours) && IsNumeral(minutes)
    requires RestIsInert(hours, minutes, rest)
    ensures UnitGroup(DurationString(hours, minutes, rest), 2, 'H') == Captured(hours, 'H')
  {
    var s := DurationString(hours, minutes, rest);
    var tail := Designator(minutes, 'M') + rest;
    if hours.Some? {
      DesignatorAt("PT", hours.value, 'H', tail);
      UnitGroupPresent(s, 2, hours.value, 'H');
    } else {
      assert s == "PT" + tail;
      if minutes.Some? {
        DesignatorFirst("PT", minutes.value, 'M', rest);
        UnitGroupOtherLetter(s, 2, minutes.value, 'M', 'H');
      } else {
        assert s == "PT" + rest;
        UnitGroupShift("PT", rest, 'H');
      }
    }
  }

  lemma MinuteGroupOf(hours: Option<string>, minutes: Option<string>, rest: string)
    requires IsNumeral(hours) && IsNumeral(minutes)
    requires RestIsInert(hours, minutes, rest)
    ensures var next := 2 + GroupLength(Captured(hours, 'H'));
            next <= |DurationString(hours, minutes, rest)|
            && UnitGroup(DurationString(hours, minutes, rest), next, 'M') == Captured(minutes, 'M')
  {
    var pre := "PT" + Designator(hours, 'H');
    assert |pre| == 2 + GroupLength(Captured(hours, 'H'));
    GroupAfter(pre, minutes, 'M', rest);
  }

  /** Whatever precedes it, a designator (or its absence) is read back as the group there. */
  lemma GroupAfter(pre: string, digits: Option<string>, unit: char, rest: string)
    requires IsNumeral(digits) && !IsDigit(unit)
    requires digits.None? ==> !StartsWithGroup(rest, unit)
    ensures |pre| <= |pre + (Designator(digits, unit) + rest)|
    ensures UnitGroup(pre + (Designator(digits, unit) + rest), |pre|, unit) == Captured(digits, unit)
  {
    var s := pre + (Designator(digits, unit) + rest);
    if digits.Some? {
      DesignatorFirst(pre, digits.value, unit, rest);
      UnitGroupPresent(s, |pre|, digits.value, unit);
    } else {
      assert s == pre + rest;
      UnitGroupShift(pre, rest, unit);
    }
  }

  lemma MatchDurationString(hours: Option<string>, minutes: Option<string>, rest: string)
    requires IsNumeral(hours) && IsNumeral(minutes)
    requires RestIsInert(hours, minutes, rest)
    ensures MatchDuration(DurationString(hours, minutes, rest)) == Some((Captured(hours, 'H'), Captured(minutes, 'M')))
  {
    StartsWith("PT", Designator(hours, 'H'), Designator(minutes, 'M') + rest);
    HourGroupOf(hours, minutes, rest);
    MinuteGroupOf(hours, minutes, rest);
    MatchDurationFromGroups(DurationString(hours, minutes, rest), Captured(hours, 'H'), Captured(minutes, 'M'));
  }

  /** On a string that starts with "PT", the groups are read from index 2 on. */
  lemma MatchDurationFromGroups(d: string, hours: Option<string>, minutes: Option<string>)
    requires OccursAt(d, "PT", 0)
    requires UnitGroup(d, 2, 'H') == hours
    requires 2 + GroupLength(hours) <= |d|
    requires UnitGroup(d, 2 + GroupLength(hours), 'M') == minutes
    ensures MatchDuration(d) == Some((hours, minutes))
  {
    IndexOfAtStart(d, "PT");
  }

  lemma StartsWith(pat: string, b: string, c: string)
    ensures OccursAt(pat + b + c, pat, 0)
  {
    assert (pat + b + c)[..|pat|] == pat;
  }

  /** Rewriting the captured groups and trimming gives the intended text. */
  lemma RenderCaptured(hours: Option<string>, minutes: Option<string>)
    requires IsNumeral(hours) && IsNumeral(minutes)
    ensures var h := Captured(hours, 'H');
            var m := Captured(minutes, 'M');
            Trim((if h.Some? then ReplaceFirst(h.value, 'H', "h ") else "")
                 + (if m.Some? then ReplaceFirst(m.value, 'M', "m") else ""))
            == DurationText(hours, minutes)
  {
    if hours.Some? {
      ReplaceDesignator(hours.value, 'H', "h ");
    }
    if minutes.Some? {
      ReplaceDesignator(minutes.value, 'M', "m");
    }
    match (hours, minutes)
    case (Some(h), Some(m)) => RenderHoursAndMinutes(h, m);
    case (Some(h), None) => RenderHoursOnly(h);
    case (None, Some(m)) => RenderMinutesOnly(m);
    case (None, None) => assert "" + "" == "";
  }

  lemma RenderHoursAndMinutes(h: string, m: string)
    requires h != [] && AllDigits(h)
    ensures Trim((h + "h ") + (m + "m")) == h + "h " + m + "m"
  {
    var x := h + "h " + m + "m";
    assert (h + "h ") + (m + "m") == x;
    assert x[0] == h[0] && x[|x| - 1] == 'm';
    DigitIsNotSpace(h[0]);
    TrimUntouched(x);
  }

  lemma RenderHoursOnly(h: string)
    requires h != [] && AllDigits(h)
    ensures Trim((h + "h ") + "") == h + "h"
  {
    var x := h + "h";
    assert (h + "h ") + "" == x + " ";
    assert x[0] == h[0] && x[|x| - 1] == 'h';
    DigitIsNotSpace(h[0]);
    TrimTrailingSpace(x);
  }

  lemma RenderMinutesOnly(m: string)
    requires m != [] && AllDigits(m)
    ensures Trim("" + (m + "m")) == m + "m"
  {
    var x := m + "m";
    assert "" + x == x;
    assert x[0] == m[0] && x[|x| - 1] == 'm';
    DigitIsNotSpace(m[0]);
    TrimUntouched(x);
  }

  /**
   * On a duration of the form `PT[<h>H][<m>M]<rest>` the formatter prints hours and minutes
   * as intended, whenever `rest` does not read as a group the pattern would take instead.
   * Whatever else `rest` holds, seconds included, is dropped.
   */
  lemma FormatDurationReadsDesignators(hours: Option<string>, minutes: Option<string>, rest: string)
    requires IsNumeral(hours) && IsNumeral(minutes)
    requires RestIsInert(hours, minutes, rest)
    ensures FormatDuration(DurationString(hours, minutes, rest)) == DurationText(hours, minutes)
  {
    MatchDurationString(hours, minutes, rest);
    RenderCaptured(hours, minutes);
  }

  /** Seconds are not shown: "PT1H30S" gives "1h". */
  lemma FormatDurationDropsSeconds()
    ensures FormatDuration("PT1H30S") == "1h"
  {
    SecondsAreInert();
    assert "PT1H30S" == "PT" + Designator(Some("1"), 'H') + (Designator(None, 'M') + "30S");
    FormatDurationReadsDesignators(Some("1"), None, "30S");
  }

  /** A duration of seconds alone gives the empty text. */
  lemma FormatDurationSecondsOnly()
    ensures FormatDuration("PT30S") == ""
  {
    SecondsAreInert();
    assert "PT30S" == "PT" + Designator(None, 'H') + (Designator(None, 'M') + "30S");
    FormatDurationReadsDesignators(None, None, "30S");
  }

  lemma SecondsAreInert()
    ensures !StartsWithGroup("30S", 'M') && !StartsWithGroup("30S", 'H')
  {
    assert DigitRun("30S", 2) == 0;
    assert DigitRun("30S", 0) == 2;
  }

  lemma DayDurationHasNoPT(s: string)
    requires s == "P1DT2H"
    ensures !Contains(s, "PT")
  {
    forall i: nat | i <= |s| ensures !OccursAt(s, "PT", i) {
      if i + 2 <= |s| {
        assert s[i..i + 2] == [s[i], s[i + 1]];
      }
    }
  }

  /** A duration with a day part, "P1DT2H", has no "PT" and is returned as it is. */
  lemma FormatDurationWithDays()
    ensures FormatDuration("P1DT2H") == "P1DT2H"
  {
    DayDurationHasNoPT("P1DT2H");
  }

  /**
   * `formatTime`: the text between the first and the second 'T', cut to five characters;
   * the input itself when there is no 'T' or that text is empty.
   */
  function FormatTime(datetime: string): (r: string)
    ensures r == datetime || 0 < |r| <= 5
  {
    var parts := Split(datetime, 'T');
    if |parts| < 2 then datetime
    else
      var piece := parts[1];
      var cut := piece[..if |piece| < 5 then |piece| else 5];
      if cut == [] then datetime else cut
  }

  lemma FormatTimeWithoutT(datetime: string)
    requires 'T' !in datetime
    ensures FormatTime(datetime) == datetime
  {
    SplitNoSeparator(datetime, 'T');
  }

  /** For `date + "T" + time + rest` (no 'T' in `date` or `time`), the result is the first five characters of `time`. */
  lemma FormatTimeBetweenSeparators(date: string, time: string, rest: string)
    requires 'T' !in date && 'T' !in time
    requires rest == [] || rest[0] == 'T'
    ensures FormatTime(date + "T" + time + rest)
            == if time == [] then date + "T" + time + rest else time[..if |time| < 5 then |time| else 5]
  {
    SplitFirstTwo(date, time, rest, 'T');
  }

  lemma FormatTimeExample()
    ensures FormatTime("2023-11-01T21:50:00") == "21:50"
  {
    assert "2023-11-01T21:50:00" == "2023-11-01" + "T" + "21:50:00" + "";
    FormatTimeBetweenSeparators("2023-11-01", "21:50:00", "");
  }

  // ===========================================================================
  // Cabin specifications
  // ===========================================================================

  /** The transformer's own copy of the lookup: same key, same `DEFAULT` fallback, so the same answer. */
  function GetCabinSpecs(airlineCode: string, aircraftCode: string, cabin: string): (r: Specs.CabinSpecs)
    ensures r == Specs.GetCabinSpecs(airlineCode, aircraftCode, cabin)
  {
    var key := airlineCode + "_" + aircraftCode + "_" + cabin;
    if key in Specs.Database then Specs.Database[key] else Specs.Database["DEFAULT"]
  }

  // ===========================================================================
  // Feature indicators
  // ===========================================================================

  /** `calculateStatus`: a three-way threshold grading; with `reverse`, lower values are better. */
  function CalculateStatus(value: int, excellent: int, fair: int, reverse: bool): (s: IndicatorStatus)
    ensures !reverse ==> (s == Excellent <==> value >= excellent)
    ensures !reverse ==> (s == Fair <==> value < excellent && value >= fair)
    ensures reverse ==> (s == Excellent <==> value <= excellent)
    ensures reverse ==> (s == Fair <==> value > excellent && value <= fair)
  {
    if reverse then
      if value <= excellent then Excellent else if value <= fair then Fair else Poor
    else
      if value >= excellent then Excellent else if value >= fair then Fair else Poor
  }

  /** Grades ordered from worst to best. */
  function Rank(s: IndicatorStatus): nat {
    match s
    case Poor => 0
    case Fair => 1
    case Excellent => 2
  }

  /** A better value never gets a worse grade, in either direction. */
  lemma CalculateStatusMonotone(v1: int, v2: int, excellent: int, fair: int)
    requires v1 <= v2
    ensures Rank(CalculateStatus(v1, excellent, fair, false)) <= Rank(CalculateStatus(v2, excellent, fair, false))
    ensures Rank(CalculateStatus(v1, excellent, fair, true)) >= Rank(CalculateStatus(v2, excellent, fair, true))
  {
  }

  /** `createFeature`: a feature that always carries a tooltip. */
  function CreateFeature(
    icon: string, name: string, value: string, status: IndicatorStatus,
    description: string, rank: string, average: string, best: string): (f: Feature)
    ensures f.tooltip == Some(Tooltip(description, rank, average, best))
    ensures f.icon == icon && f.name == name && f.value == value && f.status == status
  {
    Feature(icon, name, value, status, Some(Tooltip(description, rank, average, best)))
  }

  /** `parseInt(s) || fallback`: the fallback replaces NaN and also a parsed zero. */
  function ParseIntOr(s: string, fallback: int): (n: int)
    ensures ParseInt(s).Some? && ParseInt(s).value != 0 ==> n == ParseInt(s).value
    ensures ParseInt(s).None? || ParseInt(s) == Some(0) ==> n == fallback
    ensures n != 0 || fallback == 0
  {
    match ParseInt(s)
    case Some(v) => if v != 0 then v else fallback
    case None => fallback
  }

  function BedLengthCm(specs: Specs.CabinSpecs): int { ParseIntOr(specs.bedLength, 198) }
  function ScreenSizeInch(specs: Specs.CabinSpecs): int { ParseIntOr(specs.screenSize, 18) }
  function WifiSpeedMbps(specs: Specs.CabinSpecs): int { ParseIntOr(specs.wifiSpeed, 15) }
  function CabinAgeYears(specs: Specs.CabinSpecs): int { ParseIntOr(specs.cabinAge, 5) }

  const RankUnavailable := "Comparative rank unavailable"

  /** The word each grade's tooltip description opens with. */
  function Label(s: IndicatorStatus): string {
    match s
    case Excellent => "Excellent"
    case Fair => "Fair"
    case Poor => "Poor"
  }

  function Describe(s: IndicatorStatus, excellent: string, fair: string, poor: string): string {
    match s
    case Excellent => excellent
    case Fair => fair
    case Poor => poor
  }

  /** `cabinSpecs.privacyFeatures[0] || 'Standard'`. */
  function PrivacyHeadline(features: seq<string>): string {
    if |features| > 0 && features[0] != "" then features[0] else "Standard"
  }

  function AllFeatures(r: Features): seq<Feature> {
    [r.bedLength, r.aisleAccess, r.wifi, r.screenSize, r.privacy, r.cabinAge]
  }

  /** A tooltip as every indicator carries one: the fixed rank text and a description opening with the grade. */
  predicate GradedTooltip(f: Feature) {
    f.tooltip.Some? && f.tooltip.value.rank == RankUnavailable && Label(f.status) <= f.tooltip.value.description
  }

  /** Bed length graded on centimetres: at least 203 excellent, below 198 poor. */
  function BedFeature(specs: Specs.CabinSpecs): (f: Feature)
    ensures f.status == Excellent <==> BedLengthCm(specs) >= 203
    ensures f.status == Poor <==> BedLengthCm(specs) < 198
    ensures f.value == specs.bedLength && GradedTooltip(f)
  {
    var status := CalculateStatus(BedLengthCm(specs), 203, 198, false);
    CreateFeature(
      "\U{1F6CF}\U{FE0F}", "Bed Length", specs.bedLength, status,
      Describe(status, "Excellent - Among the longest available", "Fair - Acceptable length",
               "Poor - Shorter than average"),
      RankUnavailable, "198cm", "205cm")
  }

  /** Aisle access: excellent only with direct access from all seats, otherwise fair, never poor. */
  function AisleFeature(specs: Specs.CabinSpecs): (f: Feature)
    ensures f.status == Excellent <==> specs.directAisleAccess == "Yes - all seats"
    ensures f.status != Poor
    ensures f.value == specs.configuration && GradedTooltip(f)
  {
    var status := if specs.directAisleAccess == "Yes - all seats" then Excellent else Fair;
    CreateFeature(
      "\U{1F6AA}", "Aisle Access", specs.configuration, status,
      if status == Excellent then "Excellent - Direct aisle access" else "Fair - Limited access",
      RankUnavailable, "1-2-1 configuration", "1-2-1 Direct")
  }

  /** WiFi graded on megabits per second: at least 30 excellent, below 15 poor. */
  function WifiFeature(specs: Specs.CabinSpecs): (f: Feature)
    ensures f.status == Excellent <==> WifiSpeedMbps(specs) >= 30
    ensures f.status == Poor <==> WifiSpeedMbps(specs) < 15
    ensures f.value == specs.wifiPricing + ", " + specs.wifiSpeed && GradedTooltip(f)
  {
    var status := CalculateStatus(WifiSpeedMbps(specs), 30, 15, false);
    CreateFeature(
      "\U{1F4E1}", "WiFi", specs.wifiPricing + ", " + specs.wifiSpeed, status,
      Describe(status, "Excellent - Fast and reliable", "Fair - Moderate speed", "Poor - Slow connection"),
      RankUnavailable, "25 Mbps", "50+ Mbps")
  }

  /** Screen size graded on inches: at least 21 excellent, below 17 poor. */
  function ScreenFeature(specs: Specs.CabinSpecs): (f: Feature)
    ensures f.status == Excellent <==> ScreenSizeInch(specs) >= 21
    ensures f.status == Poor <==> ScreenSizeInch(specs) < 17
    ensures f.value == specs.screenSize && GradedTooltip(f)
  {
    var status := CalculateStatus(ScreenSizeInch(specs), 21, 17, false);
    CreateFeature(
      "\U{1F4FA}", "Screen Size", specs.screenSize, status,
      Describe(status, "Excellent - Large display", "Fair - Standard size", "Poor - Small screen"),
      RankUnavailable, "19.5\"", "24\"")
  }

  /** Privacy: a closing door is excellent, high dividers fair, anything else poor (whole-entry matches). */
  function PrivacyFeature(specs: Specs.CabinSpecs): (f: Feature)
    ensures f.status == Excellent <==> "Closing door" in specs.privacyFeatures
    ensures f.status == Poor <==>
              "Closing door" !in specs.privacyFeatures && "High dividers" !in specs.privacyFeatures
    ensures f.value == PrivacyHeadline(specs.privacyFeatures) && GradedTooltip(f)
  {
    var status :=
      if "Closing door" in specs.privacyFeatures then Excellent
      else if "High dividers" in specs.privacyFeatures then Fair
      else Poor;
    CreateFeature(
      "\U{1F512}", "Privacy", PrivacyHeadline(specs.privacyFeatures), status,
      Describe(status, "Excellent - Full privacy suite", "Fair - Partial privacy", "Poor - Limited privacy"),
      RankUnavailable, "Enclosed Suite", "Door Suite")
  }

  /** Cabin age graded in reverse on years: at most 3 excellent, above 6 poor. */
  function AgeFeature(specs: Specs.CabinSpecs): (f: Feature)
    ensures f.status == Excellent <==> CabinAgeYears(specs) <= 3
    ensures f.status == Poor <==> CabinAgeYears(specs) > 6
    ensures f.value == specs.cabinAge && GradedTooltip(f)
  {
    var status := CalculateStatus(CabinAgeYears(specs), 3, 6, true);
    CreateFeature(
      "\U{1F382}", "Cabin Age", specs.cabinAge, status,
      Describe(status, "Excellent - Brand new cabin", "Fair - Moderately aged", "Poor - Outdated cabin"),
      RankUnavailable, "6 years", "2 years")
  }

  /**
   * `buildFeatureIndicators`: the six graded features of a cabin. `allOffers` and
   * `dictionaries` are accepted and not used, as in the source.
   */
  function BuildFeatureIndicators(
    specs: Specs.CabinSpecs, allOffers: seq<AmadeusFlightOffer>, dictionaries: Dictionaries): (r: Features)
    ensures forall f | f in AllFeatures(r) :: GradedTooltip(f)
  {
    Features(BedFeature(specs), AisleFeature(specs), WifiFeature(specs),
             ScreenFeature(specs), PrivacyFeature(specs), AgeFeature(specs))
  }

  /**
   * A value such as "205cm (81 inches)" is read by its leading digits, and the default
   * takes over only when those digits spell zero.
   */
  lemma LeadingNumberRead(s: string, digits: string, rest: string, fallback: int)
    requires s == digits + rest && digits != [] && AllDigits(digits)
    requires rest == [] || !IsDigit(rest[0])
    ensures ParseIntOr(s, fallback) == if DecimalValue(digits) == 0 then fallback else DecimalValue(digits)
  {
    ParseIntLeadingDigits(digits, rest);
  }

  /** A bed length or screen size that does not parse, or parses as 0, takes its default, which grades as fair. */
  lemma UnparsableSizesGradeFair(specs: Specs.CabinSpecs, allOffers: seq<AmadeusFlightOffer>, dictionaries: Dictionaries)
    ensures ParseInt(specs.bedLength) in {None, Some(0)} ==>
              BedLengthCm(specs) == 198 && BuildFeatureIndicators(specs, allOffers, dictionaries).bedLength.status == Fair
    ensures ParseInt(specs.screenSize) in {None, Some(0)} ==>
              ScreenSizeInch(specs) == 18 && BuildFeatureIndicators(specs, allOffers, dictionaries).screenSize.status == Fair
  {
  }

  /** A Wi-Fi speed or cabin age that does not parse, or parses as 0, takes its default, which grades as fair. */
  lemma UnparsableServiceValuesGradeFair(specs: Specs.CabinSpecs, allOffers: seq<AmadeusFlightOffer>, dictionaries: Dictionaries)
    ensures ParseInt(specs.wifiSpeed) in {None, Some(0)} ==>
              WifiSpeedMbps(specs) == 15 && BuildFeatureIndicators(specs, allOffers, dictionaries).wifi.status == Fair
    ensures ParseInt(specs.cabinAge) in {None, Some(0)} ==>
              CabinAgeYears(specs) == 5 && BuildFeatureIndicators(specs, allOffers, dictionaries).cabinAge.status == Fair
  {
  }

  // ===========================================================================
  // Offer transformation
  // ===========================================================================

  const MissingSegments := "Invalid flight offer: missing segments"

  const PlaceholderImages: seq<string> := [
    "/placeholder-cabin.jpg", "/placeholder-seat.jpg",
    "/placeholder-entertainment.jpg", "/placeholder-dining.jpg"
  ]

  /** `offer.travelerPricings[0]?.fareDetailsBySegment[0]?.cabin || 'BUSINESS'`. */
  function OfferCabin(offer: AmadeusFlightOffer): (cabin: string)
    ensures cabin != ""
    ensures (|offer.travelerPricings| > 0 && |offer.travelerPricings[0].fareDetailsBySegment| > 0
             && offer.travelerPricings[0].fareDetailsBySegment[0].cabin != "")
            ==> cabin == offer.travelerPricings[0].fareDetailsBySegment[0].cabin
    ensures !(|offer.travelerPricings| > 0 && |offer.travelerPricings[0].fareDetailsBySegment| > 0
              && offer.travelerPricings[0].fareDetailsBySegment[0].cabin != "")
            ==> cabin == "BUSINESS"
  {
    if |offer.travelerPricings| > 0 && |offer.travelerPricings[0].fareDetailsBySegment| > 0
       && offer.travelerPricings[0].fareDetailsBySegment[0].cabin != ""
    then offer.travelerPricings[0].fareDetailsBySegment[0].cabin
    else "BUSINESS"
  }

  /** `table?.[code] || fallback`: a present, non-empty entry wins; otherwise the fallback. */
  function NameOr(table: Option<map<string, string>>, code: string, fallback: string): (name: string)
    ensures table.Some? && code in table.value && table.value[code] != "" ==> name == table.value[code]
    ensures !(table.Some? && code in table.value && table.value[code] != "") ==> name == fallback
  {
    if table.Some? && code in table.value && table.value[code] != "" then table.value[code] else fallback
  }

  /** The six detail panels, each field copied from the cabin record. */
  function DetailsOf(c: Specs.CabinSpecs): Details {
    Details(
      SeatAndSleep(c.seatWidth, c.seatPitch, c.recline, c.bedLength, c.bedWidth, c.bedType,
                   c.comfortFeatures, c.bedding),
      Entertainment(c.screenSize, c.resolution, c.systemName, c.contentLibrary, c.audio, c.gaming),
      Connectivity(c.wifiAvailability, c.wifiSpeed, c.wifiPricing, c.powerOutlets, c.deviceStorage, c.holders),
      Dining(c.serviceStyle, c.menuQuality, c.beverages, c.timingOptions),
      PrivacyAndLayout(c.configuration, c.directAisleAccess, c.privacyFeatures, c.windowVsAisle, c.totalSeats),
      Environment(c.cabinAltitude, c.noiseLevel, c.airQuality, c.lightingControl, c.temperatureControl, c.cabinAge))
  }

  /** Flattens the detail panels back into one cabin record. */
  function SpecsOf(d: Details): Specs.CabinSpecs {
    var s, e, c, n, p, v := d.seatAndSleep, d.entertainment, d.connectivity, d.dining, d.privacyAndLayout, d.environment;
    Specs.CabinSpecs(
      s.seatWidth, s.seatPitch, s.recline, s.bedLength, s.bedWidth, s.bedType, s.comfortFeatures, s.bedding,
      e.screenSize, e.resolution, e.systemName, e.contentLibrary, e.audio, e.gaming,
      c.wifiAvailability, c.wifiSpeed, c.wifiPricing, c.powerOutlets, c.deviceStorage, c.holders,
      n.serviceStyle, n.menuQuality, n.beverages, n.timingOptions,
      p.configuration, p.directAisleAccess, p.privacyFeatures, p.windowVsAisle, p.totalSeats,
      v.cabinAltitude, v.noiseLevel, v.airQuality, v.lightingControl, v.temperatureControl, v.cabinAge)
  }

  /** Regrouping into panels drops and invents nothing: the two shapes are in one-to-one correspondence. */
  lemma DetailsRoundTrip(c: Specs.CabinSpecs, d: Details)
    ensures SpecsOf(DetailsOf(c)) == c
    ensures DetailsOf(SpecsOf(d)) == d
  {
  }

  /** An offer can be transformed when its first itinerary exists and has a segment. */
  predicate HasSegments(offer: AmadeusFlightOffer) {
    |offer.itineraries| > 0 && |offer.itineraries[0].segments| > 0
  }

  /**
   * `transformFlightOffer`: the display record of one offer, built from the first and last
   * segments of its first itinerary; fails with "missing segments" when there are none.
   */
  function TransformFlightOffer(
    offer: AmadeusFlightOffer, dictionaries: Dictionaries, allOffers: seq<AmadeusFlightOffer>): (r: Result<FlightData, string>)
    ensures r.Err? <==> !HasSegments(offer)
    ensures r.Err? ==> r.error == MissingSegments
    ensures r.Ok? ==>
              var segments := offer.itineraries[0].segments;
              var first, last := segments[0], segments[|segments| - 1];
              var specs := GetCabinSpecs(first.carrierCode, first.aircraft.code, OfferCabin(offer));
              && r.value.id == offer.id
              && r.value.airline == NameOr(dictionaries.carriers, first.carrierCode, first.carrierCode)
              && r.value.aircraft == NameOr(dictionaries.aircraft, first.aircraft.code, "Aircraft " + first.aircraft.code)
              && r.value.route == Route(first.departure.iataCode, last.arrival.iataCode,
                                        FormatTime(first.departure.at), FormatTime(last.arrival.at),
                                        FormatDuration(offer.itineraries[0].duration))
              && r.value.flightNumber == first.carrierCode + first.number
              && r.value.price == ParseFloatOf(offer.price.total)
              && r.value.details == DetailsOf(specs)
              && r.value.features == BuildFeatureIndicators(specs, allOffers, dictionaries)
              && r.value.images == PlaceholderImages
  {
    if !HasSegments(offer) then Err(MissingSegments)
    else
      var segments := offer.itineraries[0].segments;
      var first, last := segments[0], segments[|segments| - 1];
      var cabin := OfferCabin(offer);
      var airlineCode := first.carrierCode;
      var aircraftCode := first.aircraft.code;
      var airlineName := NameOr(dictionaries.carriers, airlineCode, airlineCode);
      var aircraftName := NameOr(dictionaries.aircraft, aircraftCode, "Aircraft " + aircraftCode);
      var cabinSpecs := GetCabinSpecs(airlineCode, aircraftCode, cabin);
      var route := Route(
        first.departure.iataCode, last.arrival.iataCode,
        FormatTime(first.departure.at), FormatTime(last.arrival.at),
        FormatDuration(offer.itineraries[0].duration));
      Ok(FlightData(
        offer.id, airlineName, aircraftName, route, airlineCode + first.number,
        ParseFloatOf(offer.price.total), BuildFeatureIndicators(cabinSpecs, allOffers, dictionaries),
        DetailsOf(cabinSpecs), PlaceholderImages))
  }

  /**
   * `xs.map(f)` where `f` may throw: every result in order, or the error of the first
   * element that fails (later elements are not looked at).
   */
  function MapUntilError<A, B, E(==)>(f: A -> Result<B, E>, xs: seq<A>): (r: Result<seq<B>, E>)
    ensures r.Ok? <==> forall i :: 0 <= i < |xs| ==> f(xs[i]).Ok?
    ensures r.Ok? ==> |r.value| == |xs| && forall i :: 0 <= i < |xs| ==> r.value[i] == f(xs[i]).value
    ensures r.Err? ==> exists i :: 0 <= i < |xs| && f(xs[i]).Err? && f(xs[i]).error == r.error
                                   && forall j :: 0 <= j < i ==> f(xs[j]).Ok?
  {
    if xs == [] then Ok([])
    else
      var head := f(xs[0]);
      if head.Err? then Err(head.error)
      else
        var tail := MapUntilError(f, xs[1..]);
        assert forall i :: 1 <= i < |xs| ==> xs[i] == xs[1..][i - 1];
        if tail.Err? then tail
        else Ok([head.value] + tail.value)
  }

  /**
   * `transformFlightOffers`: one record per offer, in input order and with its id, each
   * offer transformed against the whole batch; one offer without segments fails the batch.
   */
  function TransformFlightOffers(offers: seq<AmadeusFlightOffer>, dictionaries: Dictionaries): (r: Result<seq<FlightData>, string>)
    ensures r.Ok? <==> forall i :: 0 <= i < |offers| ==> HasSegments(offers[i])
    ensures r.Err? ==> r.error == MissingSegments
    ensures r.Ok? ==> |r.value| == |offers|
    ensures r.Ok? ==> forall i :: 0 <= i < |offers| ==>
              r.value[i] == TransformFlightOffer(offers[i], dictionaries, offers).value
              && r.value[i].id == offers[i].id
  {
    MapUntilError(offer => TransformFlightOffer(offer, dictionaries, offers), offers)
  }
}
