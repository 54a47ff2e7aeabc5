/** The macOS menu bar app: the state refreshed from the provider every 30 seconds
    (`_refresh`) and the title and menu lines recomputed every second (`_update_title`). */
module MenuBar {
  import opened Common
  import Rates
  import Dispatches
  import SavingSessions
  import Usage
  import Sparkline

  /** Live power readings kept for the sparkline. */
  const HistoryLength: nat := 60

  /** `hours, mins` of a wait of `secs` seconds, with Python's floor division and modulo. */
  function Countdown(secs: int): (hm: (int, int))
    ensures 0 <= hm.1 < 60
    ensures hm.0 * 3600 + hm.1 * 60 <= secs < hm.0 * 3600 + hm.1 * 60 + 60
  {
    (secs / 3600, (secs % 3600) / 60)
  }

  /** There is only one way to write a wait as whole hours and minutes of the hour. */
  lemma CountdownUnique(secs: int, hours: int, mins: int)
    requires 0 <= mins < 60
    requires hours * 3600 + mins * 60 <= secs < hours * 3600 + mins * 60 + 60
    ensures Countdown(secs) == (hours, mins)
  {
    var c := Countdown(secs);
    var r := secs - hours * 3600;
    assert 0 <= r < 3600;
    SplitHours(secs, hours, r);
    assert (secs % 3600) / 60 == mins by {
      assert secs % 3600 == r;
      assert mins * 60 <= r < mins * 60 + 60;
    }
  }

  lemma SplitHours(secs: int, hours: int, r: int)
    requires 0 <= r < 3600 && secs == hours * 3600 + r
    ensures secs / 3600 == hours && secs % 3600 == r
  {
    var q, m := secs / 3600, secs % 3600;
    assert (q - hours) * 3600 == r - m;
  }

  /** Pence per hour of a demand of `watts` at `rate` pence per kWh. */
  function CostPerHour(watts: int, rate: real): (c: real)
    ensures c * 1000.0 == watts as real * rate
    ensures watts >= 0 && rate >= 0.0 ==> c >= 0.0
  {
    watts as real / 1000.0 * rate
  }

  /** The line of the live-power item: the reading and what it costs per hour at the rate. */
  datatype LiveLine = LiveLine(watts: int, costPerHour: real)

  datatype DispatchLine =
    | DispatchLoading
    | ChargingUntil(end: int)
    | ChargingNow
    | ChargingIn(hours: int, mins: int, start: int, end: int)
    | NoScheduledCharge

  datatype RateLine =
    | RateLoading
    | RateCountdown(isOffPeak: bool, rate: real, hours: int, mins: int)

  datatype SessionLine = SessionHidden | FreeUntil(end: int) | FreeFrom(start: int, end: int)

  /** The pieces joined by " | " into the menu bar title. */
  datatype TitlePart = Free | Power(watts: int) | Charging | RateIcon(isOffPeak: bool, rate: real)

  /** The title before the first tick, the title with nothing to show, and a joined title. */
  datatype Title = Placeholder | Loading | Joined(parts: seq<TitlePart>)

  /** The dispatch item for the status held and the instant `now` of the tick. */
  function DispatchLineOf(dispatch: Option<Dispatches.DispatchStatus>, now: int): (l: DispatchLine)
    ensures dispatch.Some? && dispatch.value.isDispatching ==> l.ChargingUntil? || l.ChargingNow?
    ensures l.ChargingUntil? ==>
      && dispatch.Some? && dispatch.value.isDispatching && dispatch.value.currentDispatch.Some?
      && l.end == dispatch.value.currentDispatch.value.end
    ensures l.ChargingNow? ==>
      dispatch.Some? && dispatch.value.isDispatching && dispatch.value.currentDispatch.None?
    ensures l.ChargingIn? ==>
      && dispatch.Some? && !dispatch.value.isDispatching && dispatch.value.nextDispatch.Some?
      && l.start == dispatch.value.nextDispatch.value.start && l.end == dispatch.value.nextDispatch.value.end
      && l.start > now && Countdown(l.start - now) == (l.hours, l.mins)
    ensures l == NoScheduledCharge <==>
      (dispatch.None? || (!dispatch.value.isDispatching &&
        (dispatch.value.nextDispatch.None? || dispatch.value.nextDispatch.value.start <= now)))
    ensures l != DispatchLoading
  {
    if dispatch.Some? && dispatch.value.isDispatching then
      if dispatch.value.currentDispatch.Some? then ChargingUntil(dispatch.value.currentDispatch.value.end)
      else ChargingNow
    else if dispatch.Some? && dispatch.value.nextDispatch.Some? then
      var d := dispatch.value.nextDispatch.value;
      var totalSecs := d.start - now;
      if totalSecs > 0 then
        var hm := Countdown(totalSecs);
        ChargingIn(hm.0, hm.1, d.start, d.end)
      else NoScheduledCharge
    else NoScheduledCharge
  }

  /** The saving-session item: only the first session counts; whether it is active or upcoming
      is decided by the session itself and given here. */
  function SessionLineOf(sessions: seq<SavingSessions.SavingSession>, active: bool, upcoming: bool): (l: SessionLine)
    ensures l.FreeUntil? <==> sessions != [] && active
    ensures l.FreeFrom? <==> sessions != [] && !active && upcoming
    ensures l.FreeUntil? ==> l.end == sessions[0].end
    ensures l.FreeFrom? ==> l.start == sessions[0].start && l.end == sessions[0].end
  {
    if sessions == [] then SessionHidden
    else if active then FreeUntil(sessions[0].end)
    else if upcoming then FreeFrom(sessions[0].start, sessions[0].end)
    else SessionHidden
  }

  /** The title parts in display order: the saving-session marker first, then the live power,
      the charging marker and, always last, the rate. */
  function TitleParts(free: bool, livePower: Option<int>, charging: bool, r: Rates.Rate): (parts: seq<TitlePart>)
    ensures |parts| == 1 + (if free then 1 else 0) + (if livePower.Some? then 1 else 0) + (if charging then 1 else 0)
    ensures parts[|parts| - 1] == RateIcon(r.isOffPeak, r.rate)
    ensures free ==> parts[0] == Free
  {
    (if free then [Free] else [])
      + (if livePower.Some? then [Power(livePower.value)] else [])
      + (if charging then [Charging] else [])
      + [RateIcon(r.isOffPeak, r.rate)]
  }

  /** Each part other than the rate is in the title exactly when its condition holds. */
  lemma TitlePartsShape(free: bool, livePower: Option<int>, charging: bool, r: Rates.Rate)
    ensures var parts := TitleParts(free, livePower, charging, r);
      && (Free in parts <==> free)
      && (forall w :: Power(w) in parts <==> livePower == Some(w))
      && (Charging in parts <==> charging)
  {
    var parts := TitleParts(free, livePower, charging, r);
    forall w ensures Power(w) in parts <==> livePower == Some(w) {
      if Power(w) in parts {
        var i :| 0 <= i < |parts| && parts[i] == Power(w);
      }
    }
  }

  function AsReals(s: seq<int>): (r: seq<real>)
    ensures |r| == |s| && forall i :: 0 <= i < |s| ==> r[i] == s[i] as real
  {
    seq(|s|, i requires 0 <= i < |s| => s[i] as real)
  }

  /** Replaying readings one at a time into the buffer. */
  function Replay(history: seq<int>, readings: seq<int>): seq<int>
    decreases readings
  {
    if readings == [] then history
    else Replay(LastN(history + [readings[0]], HistoryLength), readings[1..])
  }

  /** However many readings arrive, the buffer holds the last 60 of everything seen, in arrival
      order, ending with the newest reading. */
  lemma {:induction false} ReplayKeepsLastReadings(history: seq<int>, readings: seq<int>)
    requires |history| <= HistoryLength
    ensures Replay(history, readings) == LastN(history + readings, HistoryLength)
    decreases readings
  {
    if readings != [] {
      var x, rest := readings[0], readings[1..];
      var h' := LastN(history + [x], HistoryLength);
      calc {
        Replay(history, readings);
        Replay(h', rest);
        { ReplayKeepsLastReadings(h', rest); }
        LastN(h' + rest, HistoryLength);
        { LastNConcat(history + [x], rest); }
        LastN(history + [x] + rest, HistoryLength);
        { assert readings == [x] + rest; assert history + [x] + rest == history + readings; }
        LastN(history + readings, HistoryLength);
      }
    }
  }

  lemma {:induction false} LastNConcat(s: seq<int>, t: seq<int>)
    ensures LastN(LastN(s, HistoryLength) + t, HistoryLength) == LastN(s + t, HistoryLength)
  {
    if t != [] {
      var n := |t| - 1;
      LastNConcat(s, t[..n]);
      assert LastN(s, HistoryLength) + t == (LastN(s, HistoryLength) + t[..n]) + [t[n]];
      assert s + t == (s + t[..n]) + [t[n]];
      LastNSnoc(LastN(s, HistoryLength) + t[..n], t[n], HistoryLength);
      LastNSnoc(s + t[..n], t[n], HistoryLength);
    } else {
      assert LastN(s, HistoryLength) + t == LastN(s, HistoryLength);
      assert s + t == s;
    }
  }

  /** Everything a refresh asks of the provider, each either a value or an exception. */
  datatype Fetched = Fetched(
    account: Result<real>,
    tariff: Result<Option<Rates.Tariff>>,
    dispatch: Result<Dispatches.DispatchStatus>,
    sessions: Result<seq<SavingSessions.SavingSession>>,
    livePower: Result<Option<int>>,
    consumption: Result<seq<Usage.Sample>>)

  /** The first `step` provider calls of a refresh all returned. */
  predicate Reaches(f: Fetched, step: nat) {
    && (step > 0 ==> f.account.Ok?)
    && (step > 1 ==> f.tariff.Ok?)
    && (step > 2 ==> f.dispatch.Ok?)
    && (step > 3 ==> f.sessions.Ok?)
    && (step > 4 ==> f.livePower.Ok?)
  }

  /** The fields the consumption block of a refresh sets. */
  datatype Consumption = Consumption(
    latestDay: Option<int>,
    latestKwh: real,
    hourlyUsage: seq<real>,
    latestCost: real)

  /** Yesterday's hours from `currentHour` to 23, then today's hours from 0 to `currentHour`. */
  function HourlyWindow(s: seq<Usage.Sample>, yesterday: int, today: int, currentHour: Usage.Hour): (w: seq<real>)
    ensures |w| == 25
  {
    seq(25, k requires 0 <= k < 25 =>
      if k < 24 - currentHour then Usage.HourTotal(s, yesterday, currentHour + k)
      else Usage.HourTotal(s, today, k - (24 - currentHour)))
  }

  /** The consumption block on the fetched samples, the tariff just fetched and the hour of
      the clock: the latest day and its kWh and cost, and, with at least two days of data, the
      25 hourly bars from yesterday's `currentHour` to today's `currentHour`. */
  ghost predicate ConsumptionOf(s: seq<Usage.Sample>, tariff: Option<Rates.Tariff>, currentHour: Usage.Hour, c: Consumption) {
    var previous := if c.latestDay.Some? then Usage.LatestDay(s, c.latestDay) else None;
    && c.latestDay == Usage.LatestDay(s, None)
    && c.latestKwh == (if c.latestDay.Some? then Usage.DayTotal(s, c.latestDay.value) else 0.0)
    && (c.latestDay.Some? && tariff.Some? ==> c.latestCost == Usage.PricedCost(s, c.latestDay.value, tariff.value))
    && (c.latestDay.None? || tariff.None? ==> c.latestCost == c.latestKwh * Usage.FlatEstimate)
    && (previous.None? ==> c.hourlyUsage == [])
    && (previous.Some? ==> c.hourlyUsage == HourlyWindow(s, previous.value, c.latestDay.value, currentHour))
  }

  /** The two loops that collect the 25 hourly bars. */
  method HourlyBars(b: Usage.Buckets, ghost s: seq<Usage.Sample>, yesterday: int, today: int, currentHour: Usage.Hour)
    returns (bars: seq<real>)
    requires Usage.Describes(b, s) && yesterday in b.hourly && today in b.hourly
    ensures bars == HourlyWindow(s, yesterday, today, currentHour)
  {
    var first := Usage.Bars(b.hourly[yesterday], currentHour, 24);
    var second := Usage.Bars(b.hourly[today], 0, currentHour + 1);
    bars := first + second;
    forall k | 0 <= k < 25 ensures bars[k] == HourlyWindow(s, yesterday, today, currentHour)[k] {
      if k < 24 - currentHour {
        assert bars[k] == first[k];
      } else {
        assert bars[k] == second[k - (24 - currentHour)];
      }
    }
  }

  method ConsumptionBlock(s: seq<Usage.Sample>, tariff: Option<Rates.Tariff>, currentHour: Usage.Hour)
    returns (c: Consumption)
    ensures ConsumptionOf(s, tariff, currentHour, c)
  {
    var b := Usage.BucketSamples(s);
    var latestDay := Usage.LatestDay(s, None);
    var latestKwh, latestCost := 0.0, 0.0;
    var hourlyUsage: seq<real> := [];
    if latestDay.Some? {
      var previous := Usage.LatestDay(s, latestDay);
      if previous.Some? {
        hourlyUsage := HourlyBars(b, s, previous.value, latestDay.value, currentHour);
      }
      latestKwh, latestCost := Usage.DayFigures(b, s, latestDay.value, tariff);
    }
    if latestDay.None? || tariff.None? {
      latestCost := latestKwh * Usage.FlatEstimate;
    }
    c := Consumption(latestDay, latestKwh, hourlyUsage, latestCost);
  }

  class MenuBarApp {
    /** Both the meter point and the meter serial are configured. */
    const hasMeter: bool

    var tariff: Option<Rates.Tariff>
    var dispatch: Option<Dispatches.DispatchStatus>
    var savingSessions: seq<SavingSessions.SavingSession>
    var livePower: Option<int>
    var balance: real
    var latestKwh: real
    var latestCost: real
    var latestDay: Option<int>
    var lastRefresh: Option<int>
    var hourlyUsage: seq<real>
    var liveHistory: seq<int>

    // What the title tick shows.
    var title: Title
    var liveLine: Option<LiveLine>
    var liveSparkline: Option<string>
    var dispatchLine: DispatchLine
    var rateLine: RateLine
    var sessionLine: SessionLine
    var secondsSinceRefresh: Option<int>

    constructor (hasMeter: bool)
      ensures this.hasMeter == hasMeter
      ensures tariff.None? && dispatch.None? && savingSessions == [] && livePower.None?
      ensures balance == 0.0 && latestKwh == 0.0 && latestCost == 0.0 && latestDay.None?
      ensures lastRefresh.None? && hourlyUsage == [] && liveHistory == []
      ensures title == Placeholder && liveLine.None? && liveSparkline.None?
      ensures dispatchLine == DispatchLoading && rateLine == RateLoading && sessionLine == SessionHidden
    {
      this.hasMeter := hasMeter;
      tariff, dispatch, savingSessions, livePower := None, None, [], None;
      balance, latestKwh, latestCost, latestDay := 0.0, 0.0, 0.0, None;
      lastRefresh, hourlyUsage, liveHistory := None, [], [];
      title, liveLine, liveSparkline := Placeholder, None, None;
      dispatchLine, rateLine, sessionLine := DispatchLoading, RateLoading, SessionHidden;
      secondsSinceRefresh := None;
    }

    /** One live reading into the 60-entry buffer. */
    method RecordLiveReading(watts: int)
      modifies this`liveHistory
      ensures liveHistory == LastN(old(liveHistory) + [watts], HistoryLength)
      ensures |liveHistory| <= HistoryLength
      ensures liveHistory[|liveHistory| - 1] == watts
    {
      liveHistory := liveHistory + [watts];
      if |liveHistory| > HistoryLength {
        liveHistory := liveHistory[|liveHistory| - HistoryLength..];
      }
    }

    /** The live-power part of a title tick at the current unit rate. */
    method UpdateLive(rate: real)
      modifies this`liveHistory, this`liveLine, this`liveSparkline
      ensures livePower.Some? ==>
        && liveHistory == LastN(old(liveHistory) + [livePower.value], HistoryLength)
        && liveLine == Some(LiveLine(livePower.value, CostPerHour(livePower.value, rate)))
        && liveSparkline == (if |liveHistory| >= 3 then Some(Sparkline.Sparkline(AsReals(liveHistory), 30)) else None)
      ensures livePower.None? ==>
        liveHistory == old(liveHistory) && liveLine.None? && liveSparkline.None?
    {
      if livePower.Some? {
        var watts := livePower.value;
        liveLine := Some(LiveLine(watts, CostPerHour(watts, rate)));
        RecordLiveReading(watts);
        UpdateSparkline();
      } else {
        liveLine, liveSparkline := None, None;
      }
    }

    /** The sparkline item: shown once there are three readings, over the last 30 of them. */
    method UpdateSparkline()
      modifies this`liveSparkline
      ensures liveSparkline == (if |liveHistory| >= 3 then Some(Sparkline.Sparkline(AsReals(liveHistory), 30)) else None)
    {
      if |liveHistory| >= 3 {
        var line := Sparkline.MakeSparkline(AsReals(liveHistory), 30);
        liveSparkline := Some(line);
      } else {
        liveSparkline := None;
      }
    }

    /** `_update_title` at the tick `now`; `rateNow` is the clock reading taken by the rate
        engine, `sessionActive`/`sessionUpcoming` what the first saving session reports. */
    method UpdateTitle(now: int, rateNow: int, sessionActive: bool, sessionUpcoming: bool)
      modifies this`liveHistory, this`title, this`liveLine, this`liveSparkline, this`dispatchLine
      modifies this`rateLine, this`sessionLine, this`secondsSinceRefresh
      ensures tariff.None? ==>
        && title == Loading && liveHistory == old(liveHistory) && liveLine == old(liveLine)
        && liveSparkline == old(liveSparkline) && dispatchLine == old(dispatchLine)
        && rateLine == old(rateLine) && sessionLine == old(sessionLine)
      ensures tariff.Some? && livePower.Some? ==>
        var r := Rates.CurrentRate(tariff.value, rateNow);
        && liveHistory == LastN(old(liveHistory) + [livePower.value], HistoryLength)
        && liveLine == Some(LiveLine(livePower.value, CostPerHour(livePower.value, r.rate)))
        && liveSparkline == (if |liveHistory| >= 3 then Some(Sparkline.Sparkline(AsReals(liveHistory), 30)) else None)
      ensures tariff.Some? && livePower.None? ==>
        liveHistory == old(liveHistory) && liveLine.None? && liveSparkline.None?
      ensures tariff.Some? ==> dispatchLine == DispatchLineOf(dispatch, now)
      ensures tariff.Some? ==>
        var r := Rates.CurrentRate(tariff.value, rateNow);
        && rateLine.RateCountdown? && rateLine.isOffPeak == r.isOffPeak && rateLine.rate == r.rate
        && Countdown(r.periodEnd - now) == (rateLine.hours, rateLine.mins)
      ensures tariff.Some? ==> sessionLine == SessionLineOf(savingSessions, sessionActive, sessionUpcoming)
      ensures tariff.Some? ==>
        var r := Rates.CurrentRate(tariff.value, rateNow);
        var charging := dispatch.Some? && dispatch.value.isDispatching;
        var free := savingSessions != [] && sessionActive;
        title == Joined(TitleParts(free, livePower, charging, r))
      ensures lastRefresh.Some? ==> secondsSinceRefresh == Some(now - lastRefresh.value)
      ensures lastRefresh.None? ==> secondsSinceRefresh == old(secondsSinceRefresh)
    {
      if tariff.Some? {
        var rateInfo := Rates.CurrentRate(tariff.value, rateNow);
        UpdateLive(rateInfo.rate);
        UpdateLines(rateInfo, now, sessionActive, sessionUpcoming);
        AssembleTitle(Some(rateInfo), sessionActive);
      } else {
        AssembleTitle(None, sessionActive);
      }
      if lastRefresh.Some? {
        secondsSinceRefresh := Some(now - lastRefresh.value);
      }
    }

    /** The dispatch, rate and saving-session items of a tick with a tariff. */
    method UpdateLines(rateInfo: Rates.Rate, now: int, sessionActive: bool, sessionUpcoming: bool)
      modifies this`dispatchLine, this`rateLine, this`sessionLine
      ensures dispatchLine == DispatchLineOf(dispatch, now)
      ensures rateLine.RateCountdown? && rateLine.isOffPeak == rateInfo.isOffPeak && rateLine.rate == rateInfo.rate
      ensures Countdown(rateInfo.periodEnd - now) == (rateLine.hours, rateLine.mins)
      ensures sessionLine == SessionLineOf(savingSessions, sessionActive, sessionUpcoming)
    {
      dispatchLine := DispatchLineOf(dispatch, now);
      var hm := Countdown(rateInfo.periodEnd - now);
      rateLine := RateCountdown(rateInfo.isOffPeak, rateInfo.rate, hm.0, hm.1);
      sessionLine := SessionLineOf(savingSessions, sessionActive, sessionUpcoming);
    }

    /** The title parts of a tick, collected in the order `_update_title` collects them; with
        no tariff (`rateInfo` None) there are none and the title says it is loading. */
    method AssembleTitle(rateInfo: Option<Rates.Rate>, sessionActive: bool)
      modifies this`title
      ensures rateInfo.None? ==> title == Loading
      ensures rateInfo.Some? ==>
        var charging := dispatch.Some? && dispatch.value.isDispatching;
        var free := savingSessions != [] && sessionActive;
        title == Joined(TitleParts(free, livePower, charging, rateInfo.value))
    {
      var parts: seq<TitlePart> := [];
      if rateInfo.Some? {
        var r := rateInfo.value;
        if livePower.Some? {
          parts := parts + [Power(livePower.value)];
        }
        if dispatch.Some? && dispatch.value.isDispatching {
          parts := parts + [Charging];
        }
        parts := parts + [RateIcon(r.isOffPeak, r.rate)];
        ghost var charging := dispatch.Some? && dispatch.value.isDispatching;
        assert parts == TitleParts(false, livePower, charging, r);
        if savingSessions != [] && sessionActive {
          parts := [Free] + parts;
          assert parts == TitleParts(true, livePower, charging, r);
        }
      }
      if parts != [] {
        title := Joined(parts);
      } else {
        title := Loading;
      }
    }

    /** `_refresh` at the instant `now` with the clock's hour `currentHour`: the provider calls
        run in order and an exception ends the refresh, keeping what was stored before it. */
    method Refresh(f: Fetched, now: int, currentHour: Usage.Hour)
      modifies this`balance, this`tariff, this`dispatch, this`savingSessions, this`livePower
      modifies this`latestDay, this`latestKwh, this`latestCost, this`hourlyUsage, this`lastRefresh
      ensures Reaches(f, 1) ==> balance == f.account.value
      ensures !Reaches(f, 1) ==> balance == old(balance)
      ensures Reaches(f, 2) ==> tariff == f.tariff.value
      ensures !Reaches(f, 2) ==> tariff == old(tariff)
      ensures Reaches(f, 3) ==> dispatch == Some(f.dispatch.value)
      ensures !Reaches(f, 3) ==> dispatch == old(dispatch)
      ensures Reaches(f, 4) ==> savingSessions == f.sessions.value
      ensures !Reaches(f, 4) ==> savingSessions == old(savingSessions)
      ensures Reaches(f, 5) ==> livePower == f.livePower.value
      ensures !Reaches(f, 5) ==> livePower == old(livePower)
      ensures Reaches(f, 5) && hasMeter && f.consumption.Ok? ==>
        ConsumptionOf(f.consumption.value, tariff, currentHour, Consumption(latestDay, latestKwh, hourlyUsage, latestCost))
      ensures !(Reaches(f, 5) && hasMeter && f.consumption.Ok?) ==>
        latestDay == old(latestDay) && latestKwh == old(latestKwh)
        && hourlyUsage == old(hourlyUsage) && latestCost == old(latestCost)
      ensures Reaches(f, 5) && (!hasMeter || f.consumption.Ok?) ==> lastRefresh == Some(now)
      ensures !(Reaches(f, 5) && (!hasMeter || f.consumption.Ok?)) ==> lastRefresh == old(lastRefresh)
    {
      if f.account.Err? { return; }
      balance := f.account.value;
      if f.tariff.Err? { return; }
      tariff := f.tariff.value;
      if f.dispatch.Err? { return; }
      dispatch := Some(f.dispatch.value);
      if f.sessions.Err? { return; }
      savingSessions := f.sessions.value;
      if f.livePower.Err? { return; }
      livePower := f.livePower.value;
      if hasMeter {
        if f.consumption.Err? { return; }
        var c := ConsumptionBlock(f.consumption.value, tariff, currentHour);
        latestDay, latestKwh, hourlyUsage, latestCost := c.latestDay, c.latestKwh, c.hourlyUsage, c.latestCost;
      }
      lastRefresh := Some(now);
    }
  }

  /** With at least two days of data there is also a day before the latest one, so the hourly
      bars always number 25, whatever the hour, and today's run of them ends at the current hour. */
  lemma HourlyWindowHas25Bars(s: seq<Usage.Sample>, tariff: Option<Rates.Tariff>, currentHour: Usage.Hour, c: Consumption)
    requires ConsumptionOf(s, tariff, currentHour, c)
    requires |Usage.Days(s)| >= 2
    ensures c.latestDay.Some? && |c.hourlyUsage| == 25
    ensures c.hourlyUsage[24 - currentHour] == Usage.HourTotal(s, c.latestDay.value, 0)
    ensures c.hourlyUsage[24] == Usage.HourTotal(s, c.latestDay.value, currentHour)
  {
    var x :| x in Usage.Days(s);
    var first :| 0 <= first < |s| && s[first].day == x;
    assert Usage.Before(s[first].day, None);
    var latest := c.latestDay.value;
    var i := OtherDay(s, latest);
    assert Usage.Before(s[i].day, c.latestDay);
  }

  /** A sample of another day than `d`, when there are at least two days. */
  lemma OtherDay(s: seq<Usage.Sample>, d: int) returns (i: int)
    requires |Usage.Days(s)| >= 2
    ensures 0 <= i < |s| && s[i].day != d
  {
    assert |Usage.Days(s) - {d}| >= 1;
    var x :| x in Usage.Days(s) - {d};
    i :| 0 <= i < |s| && s[i].day == x;
  }
}
