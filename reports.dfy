/**
 * The computations behind the reports page: the response-time label, the
 * per-period message buckets of the volume chart with their scale, and the
 * 24-hour activity fill with its scale. Calendar arithmetic is outside the
 * model: the key of the bucket `i` units before today is a parameter.
 */
module Reports {
  import opened Wrappers
  import opened Text

  // ---------------------------------------------------------------- formatTime

  const Placeholder := "---"

  /** `formatTime(seconds)` for integer seconds; `None` stands for a missing value. */
  function FormatTime(seconds: Option<int>): (r: string)
    ensures seconds.None? || seconds.value <= 0 <==> r == Placeholder
  {
    if seconds.None? || seconds.value <= 0 then Placeholder
    else
      var shown := if seconds.value < 60 then NatToString(seconds.value) + "s"
        else
          var mins := seconds.value / 60;
          var secs := seconds.value % 60;
          if secs > 0 then NatToString(mins) + "m " + NatToString(secs) + "s"
          else NatToString(mins) + " min";
      assert IsDigit(shown[0]);
      shown
  }

  /** Reads a label of `FormatTime` back into seconds; anything else, the placeholder included, is `None`. */
  function ParseDuration(shown: string): Option<nat> {
    var (digits, rest) := SplitDigits(shown);
    if digits == [] then None else ParseUnit(DigitsValue(digits), rest)
  }

  /** What follows the leading number: "s", " min", or "m " and a seconds part. */
  function ParseUnit(n: nat, rest: string): Option<nat> {
    if rest == "s" then Some(n)
    else if rest == " min" then Some(60 * n)
    else if |rest| >= 2 && rest[..2] == "m " then ParseSeconds(n, rest[2..])
    else None
  }

  function ParseSeconds(mins: nat, rest: string): Option<nat> {
    var (digits, tail) := SplitDigits(rest);
    if digits != [] && tail == "s" then Some(60 * mins + DigitsValue(digits)) else None
  }

  lemma SecondsRoundTrip(n: nat)
    requires 0 < n < 60
    ensures ParseDuration(NatToString(n) + "s") == Some(n)
  {
    SplitDigitsOf(NatToString(n), "s");
    NatToStringValue(n);
  }

  lemma MinutesRoundTrip(mins: nat)
    ensures ParseDuration(NatToString(mins) + " min") == Some(60 * mins)
  {
    SplitDigitsOf(NatToString(mins), " min");
    NatToStringValue(mins);
  }

  lemma SecondsPart(mins: nat, secs: nat)
    ensures ParseSeconds(mins, NatToString(secs) + "s") == Some(60 * mins + secs)
  {
    SplitDigitsOf(NatToString(secs), "s");
    NatToStringValue(secs);
  }

  /** A leading run of digits followed by a non-digit is read as one number. */
  lemma ParseDurationSplit(digits: string, rest: string)
    requires digits != [] && AllDigits(digits)
    requires rest == [] || !IsDigit(rest[0])
    ensures ParseDuration(digits + rest) == ParseUnit(DigitsValue(digits), rest)
  {
    SplitDigitsOf(digits, rest);
  }

  lemma ParseUnitMinutes(n: nat, t: string)
    requires |t| >= 1
    ensures ParseUnit(n, "m " + t) == ParseSeconds(n, t)
  {
    var rest := "m " + t;
    assert rest[0] == 'm' && |rest| >= 3;
    assert rest[..2] == "m " && rest[2..] == t;
  }

  lemma MinutesSecondsRoundTrip(mins: nat, secs: nat)
    ensures ParseDuration(NatToString(mins) + "m " + NatToString(secs) + "s") == Some(60 * mins + secs)
  {
    var t := NatToString(secs) + "s";
    var tail := "m " + t;
    assert NatToString(mins) + "m " + NatToString(secs) + "s" == NatToString(mins) + tail;
    ParseDurationSplit(NatToString(mins), tail);
    NatToStringValue(mins);
    ParseUnitMinutes(mins, t);
    SecondsPart(mins, secs);
  }

  /** Every positive duration is read back from its label, so distinct durations get distinct labels. */
  lemma FormatTimeRoundTrip(seconds: Option<int>)
    ensures ParseDuration(FormatTime(seconds)) ==
      if seconds.None? || seconds.value <= 0 then None else Some(seconds.value)
  {
    if seconds.None? || seconds.value <= 0 {
      assert SplitDigits(Placeholder) == ([], Placeholder);
    } else if seconds.value < 60 {
      assert FormatTime(seconds) == NatToString(seconds.value) + "s";
      SecondsRoundTrip(seconds.value);
    } else if seconds.value % 60 > 0 {
      var mins, secs := seconds.value / 60, seconds.value % 60;
      assert FormatTime(seconds) == NatToString(mins) + "m " + NatToString(secs) + "s";
      MinutesSecondsRoundTrip(mins, secs);
      assert 60 * mins + secs == seconds.value;
    } else {
      var mins := seconds.value / 60;
      assert FormatTime(seconds) == NatToString(mins) + " min";
      MinutesRoundTrip(mins);
      assert 60 * mins == seconds.value;
    }
  }

  /** Under a minute the label is "<s>s"; from a minute on it names whole minutes first. */
  lemma FormatTimeShape(seconds: int)
    ensures 0 < seconds < 60 ==> FormatTime(Some(seconds)) == NatToString(seconds) + "s"
    ensures seconds >= 60 && seconds % 60 > 0 ==>
      FormatTime(Some(seconds)) == NatToString(seconds / 60) + "m " + NatToString(seconds % 60) + "s"
    ensures seconds >= 60 && seconds % 60 == 0 ==> FormatTime(Some(seconds)) == NatToString(seconds / 60) + " min"
  {
  }

  // ------------------------------------------------------------- MessageChart

  /** One row of `/api/stats/messages-by-day`; a count may be null. */
  datatype DayRow = DayRow(day: string, visitorCount: Option<nat>, agentCount: Option<nat>)

  /** One bar pair of the chart; `labelled` says whether its axis label is non-empty. */
  datatype Bucket = Bucket(day: string, visitorCount: nat, agentCount: nat, labelled: bool)

  /** Number of buckets for a period selector. */
  function BucketCount(period: string): (n: nat)
    ensures n in {7, 30, 12, 36}
  {
    if period == "7d" then 7 else if period == "30d" then 30 else if period == "1y" then 12 else 36
  }

  /** Buckets are months for "1y" and "all", days otherwise. */
  predicate IsMonthly(period: string) {
    period == "1y" || period == "all"
  }

  /** Position of the first row whose key is `key` (`data.find(d => d.day === key)`). */
  function FindDay(rows: seq<DayRow>, key: string): (o: Option<nat>)
    ensures o.Some? ==> o.value < |rows| && rows[o.value].day == key
    ensures o.Some? ==> forall j :: 0 <= j < o.value ==> rows[j].day != key
    ensures o.None? ==> forall j :: 0 <= j < |rows| ==> rows[j].day != key
  {
    if rows == [] then None
    else if rows[0].day == key then Some(0)
    else match FindDay(rows[1..], key)
      case None => None
      case Some(i) => Some(i + 1)
  }

  /** `count || 0`. */
  function OrZero(count: Option<nat>): nat {
    match count
    case None => 0
    case Some(c) => c
  }

  /** Whether the bucket `i` units before today gets an axis label. */
  predicate Labelled(period: string, i: nat)
    ensures period == "7d" || (i % 3 == 0 && i % 5 == 0) ==> Labelled(period, i)
    ensures Labelled(period, i) ==> period == "7d" || i % 3 == 0 || i % 5 == 0
    ensures IsMonthly(period) ==> (Labelled(period, i) <==> i % 3 == 0)
    ensures !IsMonthly(period) && period != "7d" ==> (Labelled(period, i) <==> i % 5 == 0)
  {
    if IsMonthly(period) then i % 3 == 0 else period == "7d" || i % 5 == 0
  }

  /** The bucket for the unit `i` before today, whose key is `key`. */
  function BucketFor(period: string, rows: seq<DayRow>, key: string, i: nat): (b: Bucket)
    ensures b.day == key && b.labelled == Labelled(period, i)
    ensures FindDay(rows, key).None? ==> b.visitorCount == 0 && b.agentCount == 0
    ensures FindDay(rows, key).Some? ==>
      var row := rows[FindDay(rows, key).value];
      b.visitorCount == OrZero(row.visitorCount) && b.agentCount == OrZero(row.agentCount)
  {
    match FindDay(rows, key)
    case None => Bucket(key, 0, 0, Labelled(period, i))
    case Some(k) => Bucket(key, OrZero(rows[k].visitorCount), OrZero(rows[k].agentCount), Labelled(period, i))
  }

  /** `periodData`: one bucket per unit, oldest first, counted down from `count - 1` to today. */
  method PeriodData(period: string, rows: seq<DayRow>, keyAt: nat -> string) returns (days: seq<Bucket>)
    ensures |days| == BucketCount(period)
    ensures forall j :: 0 <= j < |days| ==>
      days[j] == BucketFor(period, rows, keyAt(|days| - 1 - j), |days| - 1 - j)
  {
    var count := BucketCount(period);
    days := [];
    var i := count - 1;
    while i >= 0
      invariant -1 <= i < count
      invariant |days| == count - 1 - i
      invariant forall j :: 0 <= j < |days| ==> days[j] == BucketFor(period, rows, keyAt(count - 1 - j), count - 1 - j)
    {
      var key := keyAt(i);
      var bucket := match FindDay(rows, key)
        case None => Bucket(key, 0, 0, Labelled(period, i))
        case Some(k) => Bucket(key, OrZero(rows[k].visitorCount), OrZero(rows[k].agentCount), Labelled(period, i));
      days := days + [bucket];
      i := i - 1;
    }
  }

  /** `maxCount`: the chart's scale, at least 5 and at least every bar. */
  function MaxCount(days: seq<Bucket>): (r: nat)
    ensures r >= 5
    ensures forall j :: 0 <= j < |days| ==> days[j].visitorCount <= r && days[j].agentCount <= r
    ensures r == 5 || exists j :: 0 <= j < |days| && (r == days[j].visitorCount || r == days[j].agentCount)
  {
    if days == [] then 5
    else
      var rest := MaxCount(days[1..]);
      var here := if days[0].visitorCount >= days[0].agentCount then days[0].visitorCount else days[0].agentCount;
      if here > rest then here else rest
  }

  // ------------------------------------------------------- HourlyActivityChart

  /** One row of the hourly activity data. */
  datatype HourRow = HourRow(hour: int, count: nat)

  datatype HourBucket = HourBucket(hour: nat, count: nat)

  function FindHour(rows: seq<HourRow>, h: int): (o: Option<nat>)
    ensures o.Some? ==> o.value < |rows| && rows[o.value].hour == h
    ensures o.Some? ==> forall j :: 0 <= j < o.value ==> rows[j].hour != h
    ensures o.None? ==> forall j :: 0 <= j < |rows| ==> rows[j].hour != h
  {
    if rows == [] then None
    else if rows[0].hour == h then Some(0)
    else match FindHour(rows[1..], h)
      case None => None
      case Some(i) => Some(i + 1)
  }

  /** `hours`: the 24 hours in order, each with the count of the first row for that hour, or 0. */
  function HourlyFill(rows: seq<HourRow>): (hours: seq<HourBucket>)
    ensures |hours| == 24
    ensures forall i :: 0 <= i < 24 ==> hours[i].hour == i
    ensures forall i :: 0 <= i < 24 && (forall k :: 0 <= k < |rows| ==> rows[k].hour != i) ==> hours[i].count == 0
    ensures forall i, k :: (0 <= i < 24 && 0 <= k < |rows| && rows[k].hour == i &&
      (forall k' :: 0 <= k' < k ==> rows[k'].hour != i)) ==> hours[i].count == rows[k].count
  {
    seq(24, i requires 0 <= i < 24 =>
      HourBucket(i, match FindHour(rows, i) case None => 0 case Some(k) => rows[k].count))
  }

  /** `max`: at least 1 and at least every row's count, over all rows of the data. */
  function HourlyMax(rows: seq<HourRow>): (r: nat)
    ensures r >= 1
    ensures forall k :: 0 <= k < |rows| ==> rows[k].count <= r
    ensures r == 1 || exists k :: 0 <= k < |rows| && r == rows[k].count
  {
    if rows == [] then 1
    else
      var rest := HourlyMax(rows[1..]);
      if rows[0].count > rest then rows[0].count else rest
  }

  /** No bar of the 24-hour fill exceeds the scale. */
  lemma HourlyMaxCoversFill(rows: seq<HourRow>)
    ensures forall i :: 0 <= i < 24 ==> HourlyFill(rows)[i].count <= HourlyMax(rows)
  {
    var hours := HourlyFill(rows);
    forall i | 0 <= i < 24 ensures hours[i].count <= HourlyMax(rows) {
      match FindHour(rows, i)
      case None =>
      case Some(k) =>
    }
  }
}
