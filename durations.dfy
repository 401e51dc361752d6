/** The duration parser of the tempban command and the human-readable duration sent to the
    banned member (`parse_duration` and the first half of `avert_banned_user`). */
module Durations {
  import opened Wrappers
  import opened Strings
  import opened Numerals

  /** Why a duration string is refused; each stands for the exception Python raises. */
  datatype DurationError =
    | Empty             // `duration[-1]` on "" raises IndexError
    | InvalidSuffix     // the lower-cased last character is not d, w or y: ValueError
    | InvalidMagnitude  // `int()` of the text before the suffix raises ValueError
    | SuffixCase        // an upper-case D, W or Y passes the check but is no key of the table

  /** The keys of both lookup tables. */
  predicate IsSuffix(c: char)
  {
    c == 'd' || c == 'w' || c == 'y'
  }

  /** `translate` of `parse_duration`: seconds per unit. */
  function Seconds(c: char): nat
    requires IsSuffix(c)
  {
    if c == 'd' then 86400 else if c == 'w' then 604800 else 31536000
  }

  /** `suffix_to_unit` of `avert_banned_user`. */
  function UnitName(c: char): string
    requires IsSuffix(c)
  {
    if c == 'd' then "day" else if c == 'w' then "week" else "year"
  }

  /** Each unit is a whole number of days: 1, 7 or 365 of them. */
  lemma WholeDays(n: int, c: char)
    requires IsSuffix(c)
    ensures (n * Seconds(c)) % 86400 == 0
  {
    var k := if c == 'd' then 1 else if c == 'w' then 7 else 365;
    assert n * Seconds(c) == (n * k) * 86400;
  }

  /** `duration[-1]`. */
  function Suffix(duration: string): char
    requires |duration| > 0
  {
    duration[|duration| - 1]
  }

  /** `duration[:-1]`. */
  function MagnitudeText(duration: string): string
    requires |duration| > 0
  {
    duration[..|duration| - 1]
  }

  /** `parse_duration`: seconds for "<magnitude><suffix>", checking the suffix before the
      magnitude. Only the empty string is refused as `Empty`, and only an upper-case D, W or Y
      as `SuffixCase`. */
  function ParseDuration(duration: string): (r: Result<int, DurationError>)
    ensures r == Err(Empty) <==> |duration| == 0
    ensures r == Err(SuffixCase) ==>
      |duration| > 0 && Suffix(duration) in "DWY"
  {
    if |duration| == 0 then Err(Empty)
    else if !IsSuffix(LowerChar(Suffix(duration))) then Err(InvalidSuffix)
    else match ParseInt(MagnitudeText(duration))
      case None => Err(InvalidMagnitude)
      case Some(n) =>
        if IsSuffix(Suffix(duration)) then
          Ok(n * Seconds(Suffix(duration)))
        else Err(SuffixCase)
  }

  /** The `duration_string` of `avert_banned_user`: the magnitude text as typed, a space, the
      unit, and "s" unless the magnitude is 1; refused in the same order as the parser. */
  function DescribeDuration(duration: string): (r: Result<string, DurationError>)
    ensures r.Ok? ==> |duration| > 0 && MagnitudeText(duration) + " " <= r.value
    ensures r.Ok? ==> |r.value| >= |duration| + 3
  {
    if |duration| == 0 then Err(Empty)
    else if !IsSuffix(LowerChar(Suffix(duration))) then Err(InvalidSuffix)
    else match ParseInt(MagnitudeText(duration))
      case None => Err(InvalidMagnitude)
      case Some(n) =>
        if IsSuffix(Suffix(duration))
        then Ok(MagnitudeText(duration) + " " + UnitName(Suffix(duration)) + (if n != 1 then "s" else ""))
        else Err(SuffixCase)
  }

  /** Every parsed duration is a whole number of days. */
  lemma ParsedWholeDays(duration: string)
    requires ParseDuration(duration).Ok?
    ensures ParseDuration(duration).value % 86400 == 0
  {
    WholeDays(ParseInt(MagnitudeText(duration)).value, Suffix(duration));
  }

  /** "<n>d", "<n>w" and "<n>y" parse to n days, weeks or years in seconds. */
  lemma ParseDurationOfUnit(n: int, c: char)
    requires IsSuffix(c)
    ensures ParseDuration(IntToString(n) + [c]) == Ok(n * Seconds(c))
  {
    var d := IntToString(n) + [c];
    assert Suffix(d) == c;
    assert MagnitudeText(d) == IntToString(n);
    ParseIntOfIntToString(n);
  }

  /** A last character that is not d, w or y in either case is refused whatever precedes it. */
  lemma SuffixCheckedFirst(magnitude: string, c: char)
    requires !IsSuffix(LowerChar(c))
    ensures ParseDuration(magnitude + [c]) == Err(InvalidSuffix)
  {
    assert Suffix(magnitude + [c]) == c;
  }

  /** A parsed duration had a lower-case suffix and an integer magnitude, and is their product. */
  lemma ParsedSuffixIsLowerCase(duration: string)
    requires ParseDuration(duration).Ok?
    ensures |duration| > 0 && IsSuffix(Suffix(duration))
    ensures ParseInt(MagnitudeText(duration)).Some?
    ensures ParseDuration(duration).value == ParseInt(MagnitudeText(duration)).value * Seconds(Suffix(duration))
  {
  }

  /** An upper-case suffix never parses, although it passes the suffix check. */
  lemma UpperCaseSuffixRefused(magnitude: string, c: char)
    requires IsSuffix(LowerChar(c)) && !IsSuffix(c)
    ensures ParseDuration(magnitude + [c]).Err?
    ensures ParseDuration(magnitude + [c]).error != InvalidSuffix
  {
    assert Suffix(magnitude + [c]) == c;
  }

  /** The description exists exactly when the duration parses, and fails with the same error. */
  lemma DescribeAgreesWithParse(duration: string)
    ensures DescribeDuration(duration).Ok? <==> ParseDuration(duration).Ok?
    ensures DescribeDuration(duration).Err? ==> DescribeDuration(duration).error == ParseDuration(duration).error
  {
  }

  /** "<n>d" reads "<n> day" when n is 1 and "<n> days" otherwise; likewise weeks and years. */
  lemma DescribeDurationOfUnit(n: int, c: char)
    requires IsSuffix(c)
    ensures DescribeDuration(IntToString(n) + [c]) == Ok(IntToString(n) + " " + UnitName(c) + (if n != 1 then "s" else ""))
  {
    var d := IntToString(n) + [c];
    assert Suffix(d) == c;
    assert MagnitudeText(d) == IntToString(n);
    ParseIntOfIntToString(n);
  }

  /** The description ends in "s" exactly when the parsed duration is not a single unit. */
  lemma PluralIffNotOneUnit(duration: string)
    requires ParseDuration(duration).Ok?
    ensures DescribeDuration(duration).Ok?
    ensures var text := DescribeDuration(duration).value;
      |text| > 0 && (text[|text| - 1] == 's' <==> ParseDuration(duration).value != Seconds(Suffix(duration)))
  {
    var c := Suffix(duration);
    var n := ParseInt(MagnitudeText(duration)).value;
    var text := DescribeDuration(duration).value;
    assert text == MagnitudeText(duration) + " " + UnitName(c) + (if n != 1 then "s" else "");
    assert ParseDuration(duration).value == n * Seconds(c);
    assert n * Seconds(c) == Seconds(c) <==> n == 1 by {
      if n * Seconds(c) == Seconds(c) {
        assert (n - 1) * Seconds(c) == 0;
      }
    }
  }
}
