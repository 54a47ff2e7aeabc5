/** The tariff and the rate engine of the client (`get_tariff`, `get_current_rate`).
    Intelligent Octopus Go always has its off-peak window at 23:30-05:30. */
module Rates {
  import opened Common

  /** Start and end of the off-peak window, in seconds of the day. */
  const OffPeakStart: int := 23 * 3600 + 30 * 60
  const OffPeakEnd: int := 5 * 3600 + 30 * 60
  /** Unit rates below this many pence per kWh are taken as off-peak. */
  const OffPeakThreshold: real := 15.0
  const DefaultOffPeakRate: real := 7.0
  const DefaultPeakRate: real := 30.0

  datatype RateKind = OffPeak | Peak

  datatype Tariff = Tariff(
    name: string,
    productCode: string,
    standingCharge: real,
    rates: map<RateKind, real>,
    offPeakRate: Option<real>,
    peakRate: Option<real>,
    offPeakStart: string,
    offPeakEnd: string)

  /** One entry of the unit-rate listing; `valueIncVat` is None when the key is absent. */
  datatype UnitRate = UnitRate(valueIncVat: Option<real>)

  /** The agreement's tariff object; every field may be absent. */
  datatype TariffData = TariffData(
    displayName: Option<string>,
    productCode: Option<string>,
    standingCharge: Option<real>)

  datatype Rate = Rate(rate: real, isOffPeak: bool, periodEnd: int, nextRate: real)

  function ValueOf(u: UnitRate): real {
    u.valueIncVat.GetOr(0.0)
  }

  function KindOf(v: real): RateKind {
    if v < OffPeakThreshold then OffPeak else Peak
  }

  /** The value of the last entry of `us` whose value falls in class `k`. */
  function LastOfKind(us: seq<UnitRate>, k: RateKind): Option<real> {
    if us == [] then None
    else if KindOf(ValueOf(us[|us| - 1])) == k then Some(ValueOf(us[|us| - 1]))
    else LastOfKind(us[..|us| - 1], k)
  }

  /** LastOfKind picks a value of the right class that no later entry of that class overwrites,
      and is None exactly when no entry has that class. */
  lemma {:induction false} LastOfKindMeaning(us: seq<UnitRate>, k: RateKind)
    ensures LastOfKind(us, k).None? <==> forall i :: 0 <= i < |us| ==> KindOf(ValueOf(us[i])) != k
    ensures LastOfKind(us, k).Some? ==>
      exists i :: 0 <= i < |us| && ValueOf(us[i]) == LastOfKind(us, k).value && KindOf(ValueOf(us[i])) == k
        && forall j :: i < j < |us| ==> KindOf(ValueOf(us[j])) != k
  {
    if us != [] {
      var n := |us| - 1;
      LastOfKindMeaning(us[..n], k);
      assert forall i :: 0 <= i < n ==> us[..n][i] == us[i];
      if KindOf(ValueOf(us[n])) != k {
        if LastOfKind(us, k).Some? {
          var i :| 0 <= i < n && ValueOf(us[..n][i]) == LastOfKind(us[..n], k).value
            && KindOf(ValueOf(us[..n][i])) == k
            && forall j :: i < j < n ==> KindOf(ValueOf(us[..n][j])) != k;
          assert forall j :: i < j < |us| ==> KindOf(ValueOf(us[j])) != k;
        }
      }
    }
  }

  /** The rate loop of `get_tariff`: looks at no more than the first four results; a value
      below 15 sets the off-peak rate, any other value the peak rate, later values overwriting. */
  method ParseRates(results: seq<UnitRate>)
    returns (rates: map<RateKind, real>, offPeakRate: Option<real>, peakRate: Option<real>)
    ensures var seen := results[..if |results| < 4 then |results| else 4];
      offPeakRate == LastOfKind(seen, OffPeak) && peakRate == LastOfKind(seen, Peak)
    ensures rates.Keys <= {OffPeak, Peak}
    ensures OffPeak in rates <==> offPeakRate.Some?
    ensures Peak in rates <==> peakRate.Some?
    ensures OffPeak in rates ==> rates[OffPeak] == offPeakRate.value
    ensures Peak in rates ==> rates[Peak] == peakRate.value
  {
    var n := if |results| < 4 then |results| else 4;
    rates, offPeakRate, peakRate := map[], None, None;
    var i := 0;
    while i < n
      invariant 0 <= i <= n
      invariant offPeakRate == LastOfKind(results[..i], OffPeak)
      invariant peakRate == LastOfKind(results[..i], Peak)
      invariant rates.Keys <= {OffPeak, Peak}
      invariant OffPeak in rates <==> offPeakRate.Some?
      invariant Peak in rates <==> peakRate.Some?
      invariant OffPeak in rates ==> rates[OffPeak] == offPeakRate.value
      invariant Peak in rates ==> rates[Peak] == peakRate.value
    {
      assert results[..i + 1][..i] == results[..i];
      var val := ValueOf(results[i]);
      if val < OffPeakThreshold {
        offPeakRate := Some(val);
        rates := rates[OffPeak := val];
      } else {
        peakRate := Some(val);
        rates := rates[Peak := val];
      }
      i := i + 1;
    }
  }

  /** `get_tariff` after both fetches: no agreement gives no tariff; absent fields take their
      defaults; a failed unit-rate fetch (`None`) counts as an empty listing. */
  method GetTariff(agreements: seq<TariffData>, unitRates: Option<seq<UnitRate>>)
    returns (t: Option<Tariff>)
    ensures agreements == [] <==> t.None?
    ensures t.Some? ==>
      var d := agreements[0];
      var results := unitRates.GetOr([]);
      var seen := results[..if |results| < 4 then |results| else 4];
      && t.value.name == d.displayName.GetOr("Unknown")
      && t.value.productCode == d.productCode.GetOr("")
      && t.value.standingCharge == d.standingCharge.GetOr(0.0)
      && t.value.offPeakRate == LastOfKind(seen, OffPeak)
      && t.value.peakRate == LastOfKind(seen, Peak)
      && t.value.offPeakStart == "23:30" && t.value.offPeakEnd == "05:30"
    ensures t.Some? ==>
      && t.value.rates.Keys <= {OffPeak, Peak}
      && (OffPeak in t.value.rates <==> t.value.offPeakRate.Some?)
      && (Peak in t.value.rates <==> t.value.peakRate.Some?)
      && (OffPeak in t.value.rates ==> t.value.rates[OffPeak] == t.value.offPeakRate.value)
      && (Peak in t.value.rates ==> t.value.rates[Peak] == t.value.peakRate.value)
  {
    if agreements == [] {
      return None;
    }
    var d := agreements[0];
    var rates, off, peak := ParseRates(unitRates.GetOr([]));
    t := Some(Tariff(d.displayName.GetOr("Unknown"), d.productCode.GetOr(""),
                     d.standingCharge.GetOr(0.0), rates, off, peak, "23:30", "05:30"));
  }

  /** Off-peak at a second of the day: 23:30 or later, or before 05:30. */
  predicate OffPeakSecond(s: int) {
    s >= OffPeakStart || s < OffPeakEnd
  }

  predicate IsOffPeakAt(t: int) {
    OffPeakSecond(SecOfDay(t))
  }

  /** The source compares "%H:%M" strings, so it looks at the minute of the day only. */
  function MinuteOfDay(t: int): (m: int)
    ensures 0 <= m < 24 * 60
  {
    SecOfDay(t) / 60
  }

  function OffPeakRateOf(t: Tariff): real {
    OrDefault(t.offPeakRate, DefaultOffPeakRate)
  }

  function PeakRateOf(t: Tariff): real {
    OrDefault(t.peakRate, DefaultPeakRate)
  }

  /** `get_current_rate`: classify `now`, find the end of its pricing period and pick the rate. */
  function CurrentRate(t: Tariff, now: int): (r: Rate)
    ensures r.isOffPeak <==> MinuteOfDay(now) >= 23 * 60 + 30 || MinuteOfDay(now) < 5 * 60 + 30
    ensures r.isOffPeak <==> IsOffPeakAt(now)
    ensures r.rate == if r.isOffPeak then OffPeakRateOf(t) else PeakRateOf(t)
    ensures r.nextRate == if r.isOffPeak then PeakRateOf(t) else OffPeakRateOf(t)
    ensures now < r.periodEnd
    ensures r.isOffPeak ==> r.periodEnd - now <= 6 * 3600
    ensures !r.isOffPeak ==> r.periodEnd - now <= 18 * 3600
    ensures SecOfDay(r.periodEnd) == if r.isOffPeak then OffPeakEnd else OffPeakStart
  {
    var minute := MinuteOfDay(now);
    var midnight := Midnight(now);
    SplitUnique(midnight + SecondsPerDay + OffPeakEnd, DayOf(now) + 1, OffPeakEnd);
    SplitUnique(midnight + OffPeakEnd, DayOf(now), OffPeakEnd);
    SplitUnique(midnight + OffPeakStart, DayOf(now), OffPeakStart);
    if minute >= 23 * 60 + 30 || minute < 5 * 60 + 30 then
      var periodEnd :=
        if minute >= 23 * 60 + 30 then midnight + SecondsPerDay + OffPeakEnd
        else midnight + OffPeakEnd;
      Rate(OffPeakRateOf(t), true, periodEnd, PeakRateOf(t))
    else
      var todayEnd := midnight + OffPeakStart;
      var periodEnd := if now >= todayEnd then todayEnd + SecondsPerDay else todayEnd;
      Rate(PeakRateOf(t), false, periodEnd, OffPeakRateOf(t))
  }

  /** The period end is the next switch of classification: every instant from `now` up to
      (not including) the period end has the classification of `now`, the end itself the other. */
  lemma PeriodEndIsNextSwitch(t: Tariff, now: int, x: int)
    requires now <= x < CurrentRate(t, now).periodEnd
    ensures IsOffPeakAt(x) == CurrentRate(t, now).isOffPeak
    ensures IsOffPeakAt(CurrentRate(t, now).periodEnd) != CurrentRate(t, now).isOffPeak
  {
    var r := CurrentRate(t, now);
    var midnight := Midnight(now);
    var s := SecOfDay(now);
    if x < midnight + SecondsPerDay {
      SplitUnique(x, DayOf(now), x - midnight);
    } else {
      SplitUnique(x, DayOf(now) + 1, x - midnight - SecondsPerDay);
    }
  }

  /** The peak branch's "already past 23:30, move to tomorrow" correction never fires. */
  lemma PeakEndIsToday(t: Tariff, now: int)
    requires !CurrentRate(t, now).isOffPeak
    ensures CurrentRate(t, now).periodEnd == Midnight(now) + OffPeakStart
  {
  }

  /** The server's `rate_ends_in_seconds`: the whole seconds left, clamped at zero, measured
      at the instant `later` of the second clock read. */
  function RateEndsInSeconds(r: Rate, later: int): (secs: int)
    ensures secs >= 0
    ensures later < r.periodEnd ==> secs == r.periodEnd - later
    ensures later >= r.periodEnd ==> secs == 0
  {
    if r.periodEnd - later > 0 then r.periodEnd - later else 0
  }
}
