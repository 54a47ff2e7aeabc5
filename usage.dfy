/** Usage aggregation: half-hourly consumption samples bucketed by day, hour and half-hour
    slot (`get_daily_usage`, the consumption block of the server's `fetch_data`), the day cost
    estimate (`_calculate_cost`) and the derived display fields. */
module Usage {
  import opened Common
  import Rates

  type Hour = h: int | 0 <= h < 24
  type Minute = m: int | 0 <= m < 60

  /** A consumption reading, its start already split into a day, an hour and a minute. */
  datatype Sample = Sample(day: int, hour: Hour, minute: Minute, kwh: real)

  /** Slot 0 is 00:00, slot 1 is 00:30, ..., slot 47 is 23:30. */
  function SlotOf(hour: Hour, minute: Minute): (slot: int)
    ensures 0 <= slot < 48
    ensures slot / 2 == hour
    ensures slot % 2 == 1 <==> minute >= 30
  {
    hour * 2 + (if minute >= 30 then 1 else 0)
  }

  function Days(s: seq<Sample>): set<int> {
    set i | 0 <= i < |s| :: s[i].day
  }

  // Reference sums over the samples, each defined by peeling off the newest sample.

  function DayTotal(s: seq<Sample>, d: int): real {
    if s == [] then 0.0
    else DayTotal(s[..|s| - 1], d) + (if s[|s| - 1].day == d then s[|s| - 1].kwh else 0.0)
  }

  function HourTotal(s: seq<Sample>, d: int, h: int): real {
    if s == [] then 0.0
    else
      var x := s[|s| - 1];
      HourTotal(s[..|s| - 1], d, h) + (if x.day == d && x.hour == h then x.kwh else 0.0)
  }

  /** The reading of the newest sample that falls in slot `k` of day `d`. */
  function LastInSlot(s: seq<Sample>, d: int, k: int): Option<real> {
    if s == [] then None
    else
      var x := s[|s| - 1];
      if x.day == d && SlotOf(x.hour, x.minute) == k then Some(x.kwh) else LastInSlot(s[..|s| - 1], d, k)
  }

  lemma {:induction false} LastInSlotMeaning(s: seq<Sample>, d: int, k: int)
    ensures LastInSlot(s, d, k).Some? ==>
      exists i :: 0 <= i < |s| && s[i].day == d && SlotOf(s[i].hour, s[i].minute) == k
        && s[i].kwh == LastInSlot(s, d, k).value
        && forall j :: i < j < |s| ==> !(s[j].day == d && SlotOf(s[j].hour, s[j].minute) == k)
    ensures LastInSlot(s, d, k).None? <==>
      forall i :: 0 <= i < |s| ==> !(s[i].day == d && SlotOf(s[i].hour, s[i].minute) == k)
  {
    if s != [] {
      var n := |s| - 1;
      LastInSlotMeaning(s[..n], d, k);
      assert forall i :: 0 <= i < n ==> s[..n][i] == s[i];
    }
  }

  lemma {:induction false} AbsentDayIsEmpty(s: seq<Sample>, d: int, h: int, k: int)
    requires d !in Days(s)
    ensures DayTotal(s, d) == 0.0 && HourTotal(s, d, h) == 0.0 && LastInSlot(s, d, k).None?
  {
    if s != [] {
      var n := |s| - 1;
      assert Days(s[..n]) <= Days(s) by {
        forall i | 0 <= i < n ensures s[..n][i].day in Days(s) { assert s[..n][i] == s[i]; }
      }
      assert s[n].day in Days(s);
      AbsentDayIsEmpty(s[..n], d, h, k);
    }
  }

  lemma DaysSnoc(s: seq<Sample>, i: nat)
    requires i < |s|
    ensures Days(s[..i + 1]) == Days(s[..i]) + {s[i].day}
  {
    var a, b := s[..i + 1], s[..i];
    forall x | x in Days(a) ensures x in Days(b) + {s[i].day} {
      var j :| 0 <= j < |a| && a[j].day == x;
      if j < i { assert a[j] == b[j]; }
    }
    forall x | x in Days(b) + {s[i].day} ensures x in Days(a) {
      if x in Days(b) {
        var j :| 0 <= j < |b| && b[j].day == x;
        assert a[j] == b[j];
      } else {
        assert a[i] == s[i];
      }
    }
  }

  // One sample added to each dictionary, and what each dictionary holds after a prefix.

  /** `daily[day] += kwh` on a default dictionary. */
  function AddDaily(daily: map<int, real>, c: Sample): map<int, real> {
    daily[c.day := Get(daily, c.day) + c.kwh]
  }

  /** `hourly_by_day[day][hour] += kwh`. */
  function AddHourly(hourly: map<int, map<int, real>>, c: Sample): map<int, map<int, real>> {
    var dayHours := if c.day in hourly then hourly[c.day] else map[];
    hourly[c.day := dayHours[c.hour := Get(dayHours, c.hour) + c.kwh]]
  }

  /** `half_hourly_by_day[day][slot] = kwh`. */
  function SetSlot(half: map<int, map<int, real>>, c: Sample): map<int, map<int, real>> {
    var daySlots := if c.day in half then half[c.day] else map[];
    half[c.day := daySlots[SlotOf(c.hour, c.minute) := c.kwh]]
  }

  ghost predicate DailyHolds(daily: map<int, real>, s: seq<Sample>) {
    daily.Keys == Days(s) && forall d :: d in daily ==> daily[d] == DayTotal(s, d)
  }

  ghost predicate HourlyHolds(hourly: map<int, map<int, real>>, s: seq<Sample>) {
    hourly.Keys == Days(s) && forall d, h :: d in hourly ==> Get(hourly[d], h) == HourTotal(s, d, h)
  }

  ghost predicate SlotsHold(half: map<int, map<int, real>>, s: seq<Sample>) {
    half.Keys == Days(s) && forall d, k :: d in half ==> Get(half[d], k) == LastInSlot(s, d, k).GetOr(0.0)
  }

  lemma DailyStep(daily: map<int, real>, s: seq<Sample>, i: nat)
    requires i < |s| && DailyHolds(daily, s[..i])
    ensures DailyHolds(AddDaily(daily, s[i]), s[..i + 1])
  {
    assert s[..i + 1][..i] == s[..i];
    DaysSnoc(s, i);
    if s[i].day !in daily {
      AbsentDayIsEmpty(s[..i], s[i].day, 0, 0);
    }
  }

  lemma HourlyStep(hourly: map<int, map<int, real>>, s: seq<Sample>, i: nat)
    requires i < |s| && HourlyHolds(hourly, s[..i])
    ensures HourlyHolds(AddHourly(hourly, s[i]), s[..i + 1])
  {
    var c, t, next := s[i], s[..i + 1], AddHourly(hourly, s[i]);
    assert t[..i] == s[..i] && t[i] == c;
    DaysSnoc(s, i);
    forall d, h | d in next ensures Get(next[d], h) == HourTotal(t, d, h) {
      assert HourTotal(t, d, h) == HourTotal(s[..i], d, h) + (if c.day == d && c.hour == h then c.kwh else 0.0);
      if d == c.day && c.day !in hourly {
        AbsentDayIsEmpty(s[..i], c.day, h, 0);
      }
    }
  }

  lemma SlotStep(half: map<int, map<int, real>>, s: seq<Sample>, i: nat)
    requires i < |s| && SlotsHold(half, s[..i])
    ensures SlotsHold(SetSlot(half, s[i]), s[..i + 1])
  {
    var c, t, next := s[i], s[..i + 1], SetSlot(half, s[i]);
    assert t[..i] == s[..i] && t[i] == c;
    DaysSnoc(s, i);
    forall d, k | d in next ensures Get(next[d], k) == LastInSlot(t, d, k).GetOr(0.0) {
      assert LastInSlot(t, d, k) ==
        if c.day == d && SlotOf(c.hour, c.minute) == k then Some(c.kwh) else LastInSlot(s[..i], d, k);
      if d == c.day && c.day !in half {
        AbsentDayIsEmpty(s[..i], c.day, 0, k);
      }
    }
  }

  /** `get_daily_usage`: one entry per day with data, holding the sum of that day's readings. */
  method DailyUsage(samples: seq<Sample>) returns (daily: map<int, real>)
    ensures daily.Keys == Days(samples)
    ensures forall d :: d in daily ==> daily[d] == DayTotal(samples, d)
  {
    daily := map[];
    var i := 0;
    while i < |samples|
      invariant 0 <= i <= |samples|
      invariant DailyHolds(daily, samples[..i])
    {
      DailyStep(daily, samples, i);
      daily := AddDaily(daily, samples[i]);
      i := i + 1;
    }
    assert samples[..i] == samples;
  }

  /** The three dictionaries the server builds in one pass over the samples. */
  datatype Buckets = Buckets(
    daily: map<int, real>,
    hourly: map<int, map<int, real>>,
    halfHourly: map<int, map<int, real>>)

  /** Daily and hourly totals grow by summation; a half-hour slot keeps only the reading of
      its newest sample, by assignment. */
  method BucketSamples(samples: seq<Sample>) returns (b: Buckets)
    ensures b.daily.Keys == Days(samples) && b.hourly.Keys == Days(samples)
    ensures b.halfHourly.Keys == Days(samples)
    ensures forall d :: d in b.daily ==> b.daily[d] == DayTotal(samples, d)
    ensures forall d, h :: d in b.hourly ==> Get(b.hourly[d], h) == HourTotal(samples, d, h)
    ensures forall d, k :: d in b.halfHourly ==>
      Get(b.halfHourly[d], k) == LastInSlot(samples, d, k).GetOr(0.0)
  {
    var daily: map<int, real> := map[];
    var hourly: map<int, map<int, real>> := map[];
    var half: map<int, map<int, real>> := map[];
    var i := 0;
    while i < |samples|
      invariant 0 <= i <= |samples|
      invariant DailyHolds(daily, samples[..i])
      invariant HourlyHolds(hourly, samples[..i])
      invariant SlotsHold(half, samples[..i])
    {
      DailyStep(daily, samples, i);
      HourlyStep(hourly, samples, i);
      SlotStep(half, samples, i);
      daily, hourly, half := AddDaily(daily, samples[i]), AddHourly(hourly, samples[i]), SetSlot(half, samples[i]);
      i := i + 1;
    }
    assert samples[..i] == samples;
    b := Buckets(daily, hourly, half);
  }

  // The day cost estimate.

  /** The server's cost estimate counts hours 0-5 and 23 as off-peak. */
  predicate OffPeakHour(h: int) {
    h < 6 || h == 23
  }

  /** The off-peak kWh of a day's hourly dictionary: hours 0-5 plus hour 23. */
  function OffPeakEstimate(hourly: map<int, real>): real {
    Get(hourly, 0) + Get(hourly, 1) + Get(hourly, 2) + Get(hourly, 3) + Get(hourly, 4)
      + Get(hourly, 5) + Get(hourly, 23)
  }

  /** Pounds per kWh used when there is no tariff. */
  const FlatEstimate: real := 0.245

  /** A day's cost in pounds from its off-peak and total kWh, the two unit rates and the
      standing charge (all in pence). */
  function TariffCost(offKwh: real, totalKwh: real, offRate: real, peakRate: real, standing: real): real {
    (offKwh * offRate + (totalKwh - offKwh) * peakRate) / 100.0 + standing / 100.0
  }

  /** `_calculate_cost`: the day's cost in pounds. */
  function DayCost(totalKwh: real, hourly: map<int, real>, tariff: Option<Rates.Tariff>): (c: real)
    ensures tariff.None? ==> c == totalKwh * FlatEstimate
    ensures tariff.Some? ==>
      var off, a, b := OffPeakEstimate(hourly), Rates.OffPeakRateOf(tariff.value), Rates.PeakRateOf(tariff.value);
      c * 100.0 == totalKwh * b - off * (b - a) + tariff.value.standingCharge
  {
    if tariff.None? then totalKwh * FlatEstimate
    else
      var t := tariff.value;
      TariffCost(OffPeakEstimate(hourly), totalKwh, Rates.OffPeakRateOf(t), Rates.PeakRateOf(t), t.standingCharge)
  }

  /** Every second of the rate engine's off-peak window lies in an hour the estimate counts as
      off-peak; the estimate over-counts exactly 23:00-23:30 and 05:30-06:00. */
  lemma OffPeakHoursCoverWindow(sec: int)
    requires 0 <= sec < SecondsPerDay
    ensures Rates.OffPeakSecond(sec) ==> OffPeakHour(sec / 3600)
    ensures OffPeakHour(sec / 3600) && !Rates.OffPeakSecond(sec) <==>
      (23 * 3600 <= sec < 23 * 3600 + 1800) || (5 * 3600 + 1800 <= sec < 6 * 3600)
  {
  }

  function OffPeakSamples(s: seq<Sample>, d: int): real {
    if s == [] then 0.0
    else
      var x := s[|s| - 1];
      OffPeakSamples(s[..|s| - 1], d) + (if x.day == d && OffPeakHour(x.hour) then x.kwh else 0.0)
  }

  function PeakSamples(s: seq<Sample>, d: int): real {
    if s == [] then 0.0
    else
      var x := s[|s| - 1];
      PeakSamples(s[..|s| - 1], d) + (if x.day == d && !OffPeakHour(x.hour) then x.kwh else 0.0)
  }

  /** Each reading of day `d` priced at the rate of its hour. */
  function PricedSamples(s: seq<Sample>, d: int, offRate: real, peakRate: real): real {
    if s == [] then 0.0
    else
      var x := s[|s| - 1];
      PricedSamples(s[..|s| - 1], d, offRate, peakRate)
        + (if x.day == d then x.kwh * (if OffPeakHour(x.hour) then offRate else peakRate) else 0.0)
  }

  /** The seven counted hours add up to the off-peak readings, and a day's total is its
      off-peak plus its peak readings. */
  lemma {:induction false} HourSplit(s: seq<Sample>, d: int)
    ensures HourTotal(s, d, 0) + HourTotal(s, d, 1) + HourTotal(s, d, 2) + HourTotal(s, d, 3)
      + HourTotal(s, d, 4) + HourTotal(s, d, 5) + HourTotal(s, d, 23) == OffPeakSamples(s, d)
    ensures DayTotal(s, d) == OffPeakSamples(s, d) + PeakSamples(s, d)
  {
    if s != [] {
      HourSplit(s[..|s| - 1], d);
    }
  }

  lemma {:induction false} PricedSplit(s: seq<Sample>, d: int, a: real, b: real)
    ensures PricedSamples(s, d, a, b) == OffPeakSamples(s, d) * a + PeakSamples(s, d) * b
  {
    if s != [] {
      var n := |s| - 1;
      PricedSplit(s[..n], d, a, b);
      var o, p := OffPeakSamples(s[..n], d), PeakSamples(s[..n], d);
      var k := s[n].kwh;
      assert (o + k) * a == o * a + k * a;
      assert (p + k) * b == p * b + k * b;
    }
  }

  predicate NonNegative(s: seq<Sample>) {
    forall i :: 0 <= i < |s| ==> s[i].kwh >= 0.0
  }

  lemma {:induction false} SplitNonNegative(s: seq<Sample>, d: int)
    requires NonNegative(s)
    ensures OffPeakSamples(s, d) >= 0.0 && PeakSamples(s, d) >= 0.0
  {
    if s != [] {
      var n := |s| - 1;
      assert NonNegative(s[..n]) by { forall i | 0 <= i < n ensures s[..n][i].kwh >= 0.0 { assert s[..n][i] == s[i]; } }
      SplitNonNegative(s[..n], d);
    }
  }

  /** The seven hours the estimate reads hold exactly the day's off-peak readings. */
  lemma OffPeakEstimateIsOffPeakReadings(s: seq<Sample>, d: int, hourly: map<int, real>)
    requires forall h :: Get(hourly, h) == HourTotal(s, d, h)
    ensures OffPeakEstimate(hourly) == OffPeakSamples(s, d)
    ensures NonNegative(s) ==> 0.0 <= OffPeakEstimate(hourly) <= DayTotal(s, d)
  {
    HourSplit(s, d);
    assert Get(hourly, 0) == HourTotal(s, d, 0) && Get(hourly, 1) == HourTotal(s, d, 1);
    assert Get(hourly, 2) == HourTotal(s, d, 2) && Get(hourly, 3) == HourTotal(s, d, 3);
    assert Get(hourly, 4) == HourTotal(s, d, 4) && Get(hourly, 5) == HourTotal(s, d, 5);
    assert Get(hourly, 23) == HourTotal(s, d, 23);
    if NonNegative(s) {
      SplitNonNegative(s, d);
    }
  }

  /** Reference reading of the cost of day `d` under tariff `t`, in pounds: every reading priced
      at the rate of its hour, plus the standing charge. */
  function PricedCost(s: seq<Sample>, d: int, t: Rates.Tariff): real {
    PricedSamples(s, d, Rates.OffPeakRateOf(t), Rates.PeakRateOf(t)) / 100.0 + t.standingCharge / 100.0
  }

  /** With a tariff, the estimate from the day's total and hourly dictionary is the priced
      readings. */
  lemma DayCostIsPricedReadings(s: seq<Sample>, d: int, hourly: map<int, real>, t: Rates.Tariff)
    requires forall h :: Get(hourly, h) == HourTotal(s, d, h)
    ensures DayCost(DayTotal(s, d), hourly, Some(t)) == PricedCost(s, d, t)
  {
    OffPeakEstimateIsOffPeakReadings(s, d, hourly);
    PricedCostSplit(s, d, t);
  }

  lemma PricedCostSplit(s: seq<Sample>, d: int, t: Rates.Tariff)
    ensures PricedCost(s, d, t) ==
      TariffCost(OffPeakSamples(s, d), DayTotal(s, d), Rates.OffPeakRateOf(t), Rates.PeakRateOf(t), t.standingCharge)
  {
    var a, b := Rates.OffPeakRateOf(t), Rates.PeakRateOf(t);
    var o, p, x := OffPeakSamples(s, d), PeakSamples(s, d), PricedSamples(s, d, a, b);
    assert x == o * a + p * b by { PricedSplit(s, d, a, b); }
    assert DayTotal(s, d) == o + p by { HourSplit(s, d); }
    CostArith(o, p, DayTotal(s, d), a, b, t.standingCharge, x);
  }

  lemma CostArith(o: real, p: real, total: real, a: real, b: real, sc: real, x: real)
    requires x == o * a + p * b && total == o + p
    ensures TariffCost(o, total, a, b, sc) == x / 100.0 + sc / 100.0
  {
  }

  // The derived fields of the snapshot.

  predicate Before(d: int, bound: Option<int>) {
    bound.None? || d < bound.value
  }

  /** The latest day with data (`bound` None), or the latest one before `bound`. */
  function LatestDay(s: seq<Sample>, bound: Option<int>): (r: Option<int>)
    ensures r.None? <==> forall i :: 0 <= i < |s| ==> !Before(s[i].day, bound)
    ensures r.Some? ==>
      r.value in Days(s) && Before(r.value, bound)
      && forall i :: 0 <= i < |s| && Before(s[i].day, bound) ==> s[i].day <= r.value
  {
    if s == [] then None
    else
      var n := |s| - 1;
      var init := LatestDay(s[..n], bound);
      assert forall i :: 0 <= i < n ==> s[..n][i] == s[i];
      assert Days(s[..n]) <= Days(s) by {
        forall x | x in Days(s[..n]) ensures x in Days(s) {
          var i :| 0 <= i < n && s[..n][i].day == x;
        }
      }
      assert s[n].day in Days(s);
      if !Before(s[n].day, bound) then init
      else if init.Some? && init.value >= s[n].day then init
      else Some(s[n].day)
  }

  /** The two most recent days with data, falling back to the calendar today and yesterday. */
  function DisplayDays(s: seq<Sample>, today: int): (r: (int, int))
    ensures s != [] ==> r.0 in Days(s) && forall d :: d in Days(s) ==> d <= r.0
    ensures s == [] ==> r.0 == today
    ensures Days(s) - {r.0} != {} ==>
      r.1 in Days(s) && r.1 < r.0 && forall d :: d in Days(s) && d < r.0 ==> d <= r.1
    ensures Days(s) - {r.0} == {} ==> r.1 == today - 1
  {
    var latest := LatestDay(s, None);
    if latest.None? then
      assert forall d :: d in Days(s) ==> false;
      (today, today - 1)
    else
      var previous := LatestDay(s, latest);
      assert forall d :: d in Days(s) && d != latest.value ==> d < latest.value;
      assert previous.None? <==> Days(s) - {latest.value} == {} by {
        if previous.None? {
          forall d | d in Days(s) ensures d == latest.value { var i :| 0 <= i < |s| && s[i].day == d; }
        } else {
          assert previous.value in Days(s) - {latest.value};
        }
      }
      assert forall d :: d in Days(s) && d < latest.value ==> previous.Some? && d <= previous.value by {
        forall d | d in Days(s) && d < latest.value ensures previous.Some? && d <= previous.value {
          var i :| 0 <= i < |s| && s[i].day == d;
        }
      }
      (latest.value, previous.GetOr(today - 1))
  }

  /** The values of `m` at the keys `lo, ..., hi - 1`, a missing key counting as zero. */
  function Range(m: map<int, real>, lo: int, hi: int): (r: seq<real>)
    ensures |r| == if lo <= hi then hi - lo else 0
    ensures forall k :: 0 <= k < |r| ==> r[k] == Get(m, lo + k)
  {
    if lo < hi then seq(hi - lo, k requires 0 <= k < hi - lo => Get(m, lo + k)) else []
  }

  /** `for h in range(lo, hi): bars.append(m.get(h, 0))`. */
  method Bars(m: map<int, real>, lo: int, hi: int) returns (bars: seq<real>)
    ensures bars == Range(m, lo, hi)
  {
    bars := [];
    var h := lo;
    while h < hi
      invariant lo <= h && h <= (if lo <= hi then hi else lo)
      invariant |bars| == h - lo
      invariant forall k :: 0 <= k < |bars| ==> bars[k] == Get(m, lo + k)
    {
      bars := bars + [Get(m, h)];
      h := h + 1;
    }
  }

  /** The bars of the days `yesterday` and `today` that have data, one after the other, cut to
      the last `n`: today's `n` bars whenever today has data, else yesterday's. */
  method TwoDayBars(m: map<int, map<int, real>>, yesterday: int, today: int, n: nat)
    returns (bars: seq<real>)
    requires n > 0
    ensures today in m ==> bars == Range(m[today], 0, n)
    ensures today !in m && yesterday in m ==> bars == Range(m[yesterday], 0, n)
    ensures today !in m && yesterday !in m ==> bars == []
  {
    var all: seq<real> := [];
    if yesterday in m {
      var b := Bars(m[yesterday], 0, n);
      all := all + b;
    }
    if today in m {
      var b := Bars(m[today], 0, n);
      LastNOfSuffix(all, b, n);
      all := all + b;
    }
    bars := if all == [] then [] else LastN(all, n);
  }

  datatype UsageFields = UsageFields(
    dataDateLatest: int,
    dataDatePrevious: int,
    todayKwh: real,
    todayCost: real,
    yesterdayKwh: real,
    yesterdayCost: real,
    hourlyUsage: seq<real>,
    halfHourlyUsage: seq<real>,
    offPeakPercentage: real,
    monthlyProjection: real)

  /** `monthly_projection`: thirty times yesterday's cost, else today's, else zero. */
  function Projection(yesterdayCost: real, todayCost: real): (p: real)
    ensures yesterdayCost > 0.0 ==> p == 30.0 * yesterdayCost
    ensures yesterdayCost <= 0.0 && todayCost > 0.0 ==> p == 30.0 * todayCost
    ensures yesterdayCost <= 0.0 && todayCost <= 0.0 ==> p == 0.0
    ensures p >= 0.0
  {
    if yesterdayCost > 0.0 then yesterdayCost * 30.0
    else if todayCost > 0.0 then todayCost * 30.0
    else 0.0
  }

  /** What the buckets of `s` hold, as established by `BucketSamples`. */
  ghost predicate Describes(b: Buckets, s: seq<Sample>) {
    && b.daily.Keys == Days(s) && b.hourly.Keys == Days(s) && b.halfHourly.Keys == Days(s)
    && (forall d :: d in b.daily ==> b.daily[d] == DayTotal(s, d))
    && (forall d, h :: d in b.hourly ==> Get(b.hourly[d], h) == HourTotal(s, d, h))
    && (forall d, k :: d in b.halfHourly ==> Get(b.halfHourly[d], k) == LastInSlot(s, d, k).GetOr(0.0))
  }

  /** `today_kwh`/`today_cost` (or the yesterday pair) for one display day. */
  method DayFigures(b: Buckets, ghost s: seq<Sample>, d: int, tariff: Option<Rates.Tariff>)
    returns (kwh: real, cost: real)
    requires Describes(b, s)
    ensures kwh == DayTotal(s, d)
    ensures tariff.None? ==> cost == kwh * FlatEstimate
    ensures tariff.Some? && d in Days(s) ==> cost == PricedCost(s, d, tariff.value)
    ensures tariff.Some? && d !in Days(s) ==> cost == 0.0
  {
    kwh, cost := 0.0, 0.0;
    if d in b.daily {
      kwh := b.daily[d];
      cost := DayCost(kwh, b.hourly[d], tariff);
      if tariff.Some? {
        DayCostIsPricedReadings(s, d, b.hourly[d], tariff.value);
      }
    } else {
      AbsentDayIsEmpty(s, d, 0, 0);
    }
  }

  /** `off_peak_percentage` for the display today. */
  method OffPeakPercentage(b: Buckets, ghost s: seq<Sample>, d: int, kwh: real) returns (pct: real)
    requires Describes(b, s) && kwh == DayTotal(s, d)
    ensures kwh > 0.0 ==> pct == OffPeakSamples(s, d) / kwh * 100.0
    ensures kwh <= 0.0 ==> pct == 0.0
    ensures NonNegative(s) ==> 0.0 <= pct <= 100.0
  {
    pct := 0.0;
    if d !in b.hourly {
      AbsentDayIsEmpty(s, d, 0, 0);
      HourSplit(s, d);
      if NonNegative(s) {
        SplitNonNegative(s, d);
      }
    }
    if d in b.hourly && kwh > 0.0 {
      var offPeak := OffPeakEstimate(b.hourly[d]);
      OffPeakEstimateIsOffPeakReadings(s, d, b.hourly[d]);
      pct := offPeak / kwh * 100.0;
      if NonNegative(s) {
        PercentageBounds(offPeak, kwh);
      }
    }
  }

  lemma PercentageBounds(part: real, whole: real)
    requires 0.0 <= part <= whole && whole > 0.0
    ensures 0.0 <= part / whole * 100.0 <= 100.0
  {
    assert part / whole <= 1.0;
  }

  /** The consumption block of `fetch_data` on the samples fetched, the calendar day `today`
      and the tariff (if any): the two display days, their kWh and cost, the latest day's bars,
      its off-peak share and the monthly projection. */
  ghost predicate UsageOf(samples: seq<Sample>, today: int, tariff: Option<Rates.Tariff>, u: UsageFields) {
    && (samples == [] ==>
        u == UsageFields(today, today - 1, 0.0, 0.0, 0.0, 0.0, [], [], 0.0, 0.0))
    && (samples != [] ==>
        && u.dataDateLatest in Days(samples)
        && (forall d :: d in Days(samples) ==> d <= u.dataDateLatest)
        && |u.hourlyUsage| == 24
        && (forall h :: 0 <= h < 24 ==> u.hourlyUsage[h] == HourTotal(samples, u.dataDateLatest, h))
        && |u.halfHourlyUsage| == 48
        && (forall k :: 0 <= k < 48 ==>
              u.halfHourlyUsage[k] == LastInSlot(samples, u.dataDateLatest, k).GetOr(0.0)))
    && (Days(samples) - {u.dataDateLatest} != {} ==>
        && u.dataDatePrevious in Days(samples) && u.dataDatePrevious < u.dataDateLatest
        && forall d :: d in Days(samples) && d < u.dataDateLatest ==> d <= u.dataDatePrevious)
    && (Days(samples) - {u.dataDateLatest} == {} ==> u.dataDatePrevious == today - 1)
    && (u.todayKwh == DayTotal(samples, u.dataDateLatest))
    && (u.yesterdayKwh == DayTotal(samples, u.dataDatePrevious))
    && (tariff.None? ==> u.todayCost == u.todayKwh * FlatEstimate)
    && (tariff.None? ==> u.yesterdayCost == u.yesterdayKwh * FlatEstimate)
    && (tariff.Some? && samples != [] ==> u.todayCost == PricedCost(samples, u.dataDateLatest, tariff.value))
    && (tariff.Some? && u.dataDatePrevious in Days(samples) ==>
        u.yesterdayCost == PricedCost(samples, u.dataDatePrevious, tariff.value))
    && (tariff.Some? && u.dataDatePrevious !in Days(samples) ==> u.yesterdayCost == 0.0)
    && (u.todayKwh > 0.0 ==>
        u.offPeakPercentage == OffPeakSamples(samples, u.dataDateLatest) / u.todayKwh * 100.0)
    && (u.todayKwh <= 0.0 ==> u.offPeakPercentage == 0.0)
    && (NonNegative(samples) ==> 0.0 <= u.offPeakPercentage <= 100.0)
    && (u.monthlyProjection == Projection(u.yesterdayCost, u.todayCost))
  }

  /** The consumption block of `fetch_data`. */
  method UsageBlock(samples: seq<Sample>, today: int, tariff: Option<Rates.Tariff>)
    returns (u: UsageFields)
    ensures UsageOf(samples, today, tariff, u)
  {
    var b := BucketSamples(samples);
    var days := DisplayDays(samples, today);
    var displayToday, displayYesterday := days.0, days.1;
    if samples == [] {
      assert Days(samples) == {};
    }
    var todayKwh, todayCost := DayFigures(b, samples, displayToday, tariff);
    var yesterdayKwh, yesterdayCost := DayFigures(b, samples, displayYesterday, tariff);
    var hourlyUsage := TwoDayBars(b.hourly, displayYesterday, displayToday, 24);
    var halfHourlyUsage := TwoDayBars(b.halfHourly, displayYesterday, displayToday, 48);
    var percentage := OffPeakPercentage(b, samples, displayToday, todayKwh);
    u := UsageFields(displayToday, displayYesterday, todayKwh, todayCost, yesterdayKwh, yesterdayCost,
                     hourlyUsage, halfHourlyUsage, percentage, Projection(yesterdayCost, todayCost));
  }
}
