/** The JSON server's snapshot (`fetch_data`), the response to a question (`_base_response`,
    `handle_ask`) and the field mappings they use. The wire dictionary is flat; here its keys
    are grouped by the step of `fetch_data` that fills them. */
module Snapshot {
  import opened Common
  import Rates
  import Dispatches
  import SavingSessions
  import Usage

  /** `balance` and `balance_is_credit`. */
  datatype BalanceFields = BalanceFields(balance: real, isCredit: bool)

  /** `tariff_name`, `standing_charge`, `peak_rate`, `off_peak_rate`, `rate`, `is_off_peak`
      and `rate_ends_in_seconds`. */
  datatype RateFields = RateFields(
    tariffName: Option<string>,
    standingCharge: real,
    peakRate: Option<real>,
    offPeakRate: Option<real>,
    rate: Option<real>,
    isOffPeak: bool,
    rateEndsInSeconds: int)

  /** The values of `dispatch_status`. */
  datatype DispatchState = NoDispatch | Charging | Scheduled {
    function WireName(): string {
      match this
      case NoDispatch => "none"
      case Charging => "charging"
      case Scheduled => "scheduled"
    }
  }

  /** `dispatch_status`, `dispatch_end`, `next_dispatch_start` and `next_dispatch_end`. */
  datatype DispatchFields = DispatchFields(
    status: DispatchState,
    dispatchEnd: Option<int>,
    nextStart: Option<int>,
    nextEnd: Option<int>)

  /** One completed charge as the provider reports it. */
  datatype CompletedCharge = CompletedCharge(start: int, end: int, kwh: real)

  /** One entry of `charge_history`. */
  datatype ChargeRecord = ChargeRecord(start: int, end: int, kwh: real, durationMins: int, cost: real)

  /** `has_saving_session`, `saving_session_start`, `saving_session_end` and
      `saving_session_active`. */
  datatype SessionFields = SessionFields(has: bool, start: Option<int>, end: Option<int>, active: bool)

  /** The consumption keys: their defaults (with or without the `half_hourly_usage` key; the
      `data_date_*` keys are absent) or the values the consumption block computed. */
  datatype UsageSection = UsageDefaults(halfHourlyKey: bool) | UsageComputed(fields: Usage.UsageFields)

  datatype Snapshot = Snapshot(
    timestamp: int,
    livePowerWatts: Option<int>,
    rate: RateFields,
    balance: BalanceFields,
    dispatch: DispatchFields,
    usage: UsageSection,
    liveHistory: seq<int>,
    sessions: SessionFields,
    offPeakStart: string,
    offPeakEnd: string,
    chargerProvider: Option<string>,
    chargeHistory: seq<ChargeRecord>,
    error: Option<string>,
    response: Option<string>)

  const NoRate := RateFields(None, 0.0, None, None, None, false, 0)
  const NoBalance := BalanceFields(0.0, false)
  const NoDispatchFields := DispatchFields(NoDispatch, None, None, None)
  const NoSession := SessionFields(false, None, None, false)

  /** The dictionary `fetch_data` starts from, stamped at `timestamp`. */
  function InitialSnapshot(timestamp: int): (s: Snapshot)
    ensures s.timestamp == timestamp && s.error.None? && s.response.None?
    ensures s.livePowerWatts.None? && s.liveHistory == [] && s.chargeHistory == [] && s.chargerProvider.None?
    ensures s.rate == NoRate && s.balance == NoBalance && s.dispatch == NoDispatchFields && s.sessions == NoSession
    ensures s.usage == UsageDefaults(false) && !s.usage.halfHourlyKey
  {
    Snapshot(timestamp, None, NoRate, NoBalance, NoDispatchFields, UsageDefaults(false), [], NoSession,
             "23:30", "05:30", None, [], None, None)
  }

  /** `_base_response`: the same keys and defaults, plus an empty `half_hourly_usage`. */
  function BaseResponse(timestamp: int): (s: Snapshot)
    ensures s.error.None? && s.response.None?
  {
    Snapshot(timestamp, None, NoRate, NoBalance, NoDispatchFields, UsageDefaults(true), [], NoSession,
             "23:30", "05:30", None, [], None, None)
  }

  /** The base response differs from the initial snapshot only in carrying the half-hourly key,
      and its off-peak window is the rate engine's. */
  lemma BaseResponseMatchesSnapshot(timestamp: int)
    ensures BaseResponse(timestamp) == InitialSnapshot(timestamp).(usage := UsageDefaults(true))
    ensures BaseResponse(timestamp).offPeakStart == "23:30" && BaseResponse(timestamp).offPeakEnd == "05:30"
    ensures Rates.OffPeakStart == 23 * 3600 + 30 * 60 && Rates.OffPeakEnd == 5 * 3600 + 30 * 60
  {
  }

  /** The agent's answer to a question: missing extra, an answer, or an exception. */
  datatype AgentOutcome = NotInstalled | Answered(text: string) | Raised(message: string)

  const NotInstalledMessage: string := "Agent not installed. Run: pip install 'open-octopus[agent]'"

  /** `handle_ask`: the base response with exactly one of `response` and `error` set. */
  function HandleAsk(timestamp: int, outcome: AgentOutcome): (s: Snapshot)
    ensures s.response.Some? != s.error.Some?
    ensures s.response.Some? <==> outcome.Answered?
    ensures outcome.Answered? ==> s.response == Some(outcome.text)
    ensures outcome.Raised? ==> s.error == Some(outcome.message)
    ensures outcome.NotInstalled? ==> s.error == Some(NotInstalledMessage)
    ensures s.(error := None, response := None) == BaseResponse(timestamp)
  {
    var base := BaseResponse(timestamp);
    match outcome
    case NotInstalled => base.(error := Some(NotInstalledMessage))
    case Answered(text) => base.(response := Some(text))
    case Raised(message) => base.(error := Some(message))
  }

  /** The provider reports the balance negative when owed and positive in credit; the snapshot
      carries its magnitude and a credit flag. */
  function BalanceOf(raw: real): (b: BalanceFields)
    ensures b.balance >= 0.0
    ensures b.isCredit <==> raw > 0.0
    ensures raw == if b.isCredit then b.balance else -b.balance
  {
    BalanceFields(if raw < 0.0 then -raw else raw, raw > 0.0)
  }

  /** The balance is recovered from the snapshot, so the mapping loses nothing. */
  lemma BalanceOfInjective(x: real, y: real)
    requires BalanceOf(x) == BalanceOf(y)
    ensures x == y
  {
  }

  /** The dispatch keys for a status: charging when dispatching (with the end of the current
      slot if there is one), scheduled with both times of the next slot, or none. */
  function DispatchFieldsOf(st: Dispatches.DispatchStatus): (d: DispatchFields)
    ensures d.status == Charging <==> st.isDispatching
    ensures d.status == Scheduled <==> !st.isDispatching && st.nextDispatch.Some?
    ensures d.dispatchEnd.Some? <==> st.isDispatching && st.currentDispatch.Some?
    ensures d.dispatchEnd.Some? ==> d.dispatchEnd.value == st.currentDispatch.value.end
    ensures d.nextStart.Some? <==> d.status == Scheduled
    ensures d.nextEnd.Some? <==> d.status == Scheduled
    ensures d.status == Scheduled ==>
      d.nextStart == Some(st.nextDispatch.value.start) && d.nextEnd == Some(st.nextDispatch.value.end)
  {
    if st.isDispatching then
      DispatchFields(Charging, if st.currentDispatch.Some? then Some(st.currentDispatch.value.end) else None, None, None)
    else if st.nextDispatch.Some? then
      DispatchFields(Scheduled, None, Some(st.nextDispatch.value.start), Some(st.nextDispatch.value.end))
    else NoDispatchFields
  }

  /** Python's `int(a / b)` for whole numbers: the quotient truncated toward zero. */
  function TruncDiv(a: int, b: int): (q: int)
    requires b > 0
    ensures a >= 0 ==> q * b <= a < q * b + b
    ensures a < 0 ==> q * b - b < a <= q * b
  {
    if a >= 0 then a / b else -((-a) / b)
  }

  /** A completed charge at `rate` pence per kWh: its duration in whole minutes and its cost
      in pounds. */
  function ChargeRecordOf(c: CompletedCharge, rate: real): (r: ChargeRecord)
    ensures r.start == c.start && r.end == c.end && r.kwh == c.kwh
    ensures c.end >= c.start ==> 0 <= r.durationMins * 60 <= c.end - c.start < r.durationMins * 60 + 60
    ensures r.cost * 100.0 == c.kwh * rate
  {
    ChargeRecord(c.start, c.end, c.kwh, TruncDiv(c.end - c.start, 60), c.kwh * rate / 100.0)
  }

  /** One record per completed charge, in order. */
  function ChargeRecords(completed: seq<CompletedCharge>, rate: real): (h: seq<ChargeRecord>)
    ensures |h| == |completed|
    ensures forall i :: 0 <= i < |h| ==> h[i] == ChargeRecordOf(completed[i], rate)
  {
    seq(|completed|, i requires 0 <= i < |completed| => ChargeRecordOf(completed[i], rate))
  }

  /** The charge-history loop. */
  method ChargeHistory(completed: seq<CompletedCharge>, rate: real) returns (h: seq<ChargeRecord>)
    ensures h == ChargeRecords(completed, rate)
  {
    h := [];
    for i := 0 to |completed|
      invariant |h| == i
      invariant forall k :: 0 <= k < i ==> h[k] == ChargeRecordOf(completed[k], rate)
    {
      h := h + [ChargeRecordOf(completed[i], rate)];
    }
  }

  /** The saving-session keys for the upcoming sessions; only the first one counts, and whether
      it is active is decided by the session itself and given here. */
  function SessionFieldsOf(sessions: seq<SavingSessions.SavingSession>, active: bool): (s: SessionFields)
    ensures s.has <==> sessions != []
    ensures s.has ==> s.start == Some(sessions[0].start) && s.end == Some(sessions[0].end) && s.active == active
    ensures !s.has ==> s == NoSession
  {
    if sessions == [] then NoSession
    else SessionFields(true, Some(sessions[0].start), Some(sessions[0].end), active)
  }

  /** The rate keys for a fetched tariff: `tariff_name` is the product code; `rateNow` is the
      clock reading inside the rate engine, `now` the one taken right after it. */
  function RateFieldsOf(t: Rates.Tariff, rateNow: int, now: int): (r: RateFields)
    ensures r.tariffName == Some(t.productCode) && r.standingCharge == t.standingCharge
    ensures r.peakRate == t.peakRate && r.offPeakRate == t.offPeakRate
    ensures r.rate == Some(Rates.CurrentRate(t, rateNow).rate)
    ensures r.isOffPeak == Rates.IsOffPeakAt(rateNow)
    ensures r.rateEndsInSeconds >= 0
    ensures var periodEnd := Rates.CurrentRate(t, rateNow).periodEnd;
      r.rateEndsInSeconds == if now < periodEnd then periodEnd - now else 0
    ensures now <= rateNow ==> r.rateEndsInSeconds > 0
    ensures rateNow <= now ==> r.rateEndsInSeconds <= 18 * 3600
  {
    var info := Rates.CurrentRate(t, rateNow);
    RateFields(Some(t.productCode), t.standingCharge, t.peakRate, t.offPeakRate, Some(info.rate),
               info.isOffPeak, Rates.RateEndsInSeconds(info, now))
  }

  /** The rate charges are priced at: the `off_peak_rate` key as the rate step left it, or 7p
      when it is missing or zero. */
  function ChargeRate(tariff: Option<Rates.Tariff>): (r: real)
    ensures tariff.Some? ==> r == OrDefault(RateFieldsOf(tariff.value, 0, 0).offPeakRate, Rates.DefaultOffPeakRate)
    ensures tariff.None? ==> r == OrDefault(NoRate.offPeakRate, Rates.DefaultOffPeakRate)
  {
    if tariff.Some? then OrDefault(tariff.value.offPeakRate, Rates.DefaultOffPeakRate)
    else Rates.DefaultOffPeakRate
  }

  /** Everything `fetch_data` asks of the provider, each either a value or an exception, in the
      order asked; `sessionActive` is what the first saving session reports. */
  datatype ServerFetch = ServerFetch(
    account: Result<real>,
    tariff: Result<Option<Rates.Tariff>>,
    dispatch: Result<Dispatches.DispatchStatus>,
    devices: Result<seq<string>>,
    completed: Result<seq<CompletedCharge>>,
    livePower: Result<Option<int>>,
    sessions: Result<seq<SavingSessions.SavingSession>>,
    sessionActive: bool,
    consumption: Result<seq<Usage.Sample>>)

  /** The clock readings of one `fetch_data`: the timestamp, the rate engine's reading and the
      one after it, and the calendar day. */
  datatype Clock = Clock(timestamp: int, rateNow: int, now: int, today: int)

  /** The first `step` provider calls returned. */
  predicate Reaches(f: ServerFetch, step: nat) {
    && (step > 0 ==> f.account.Ok?)
    && (step > 1 ==> f.tariff.Ok?)
    && (step > 2 ==> f.dispatch.Ok?)
    && (step > 3 ==> f.devices.Ok?)
    && (step > 4 ==> f.completed.Ok?)
    && (step > 5 ==> f.livePower.Ok?)
    && (step > 6 ==> f.sessions.Ok?)
  }

  /** The message of the first call that raised (the consumption call is made only with a
      configured meter), or None. */
  function FirstError(f: ServerFetch, hasMeter: bool): (e: Option<string>)
    ensures e.None? <==> Reaches(f, 7) && (hasMeter ==> f.consumption.Ok?)
  {
    if f.account.Err? then Some(f.account.message)
    else if f.tariff.Err? then Some(f.tariff.message)
    else if f.dispatch.Err? then Some(f.dispatch.message)
    else if f.devices.Err? then Some(f.devices.message)
    else if f.completed.Err? then Some(f.completed.message)
    else if f.livePower.Err? then Some(f.livePower.message)
    else if f.sessions.Err? then Some(f.sessions.message)
    else if hasMeter && f.consumption.Err? then Some(f.consumption.message)
    else None
  }

  /** The snapshot `fetch_data` returns, key group by key group: each group holds what its step
      computed when every call before it returned, and its defaults otherwise; `error` holds
      the first exception. */
  ghost predicate FetchedSnapshot(f: ServerFetch, clock: Clock, hasMeter: bool, s: Snapshot) {
    var tariff := if Reaches(f, 2) then f.tariff.value else None;
    && s.timestamp == clock.timestamp
    && s.offPeakStart == "23:30" && s.offPeakEnd == "05:30" && s.liveHistory == [] && s.response.None?
    && s.balance == (if Reaches(f, 1) then BalanceOf(f.account.value) else NoBalance)
    && s.rate == (if tariff.Some? then RateFieldsOf(tariff.value, clock.rateNow, clock.now) else NoRate)
    && s.dispatch == (if Reaches(f, 3) then DispatchFieldsOf(f.dispatch.value) else NoDispatchFields)
    && s.chargerProvider == (if Reaches(f, 4) && f.devices.value != [] then Some(f.devices.value[0]) else None)
    && s.chargeHistory == (if Reaches(f, 5)
                           then ChargeRecords(f.completed.value, ChargeRate(tariff))
                           else [])
    && s.livePowerWatts == (if Reaches(f, 6) then f.livePower.value else None)
    && s.sessions == (if Reaches(f, 7) then SessionFieldsOf(f.sessions.value, f.sessionActive) else NoSession)
    && (Reaches(f, 7) && hasMeter && f.consumption.Ok? ==>
          s.usage.UsageComputed? && Usage.UsageOf(f.consumption.value, clock.today, tariff, s.usage.fields))
    && (!(Reaches(f, 7) && hasMeter && f.consumption.Ok?) ==> s.usage == UsageDefaults(false))
    && s.error == FirstError(f, hasMeter)
  }

  /** `fetch_data`: fills the initial dictionary step by step; an exception ends the steps and
      is recorded under `error`, keeping what the earlier steps filled in. The `raised` flag
      plays the part of the exception unwinding past the remaining steps. */
  method FetchData(f: ServerFetch, clock: Clock, hasMeter: bool) returns (s: Snapshot)
    ensures FetchedSnapshot(f, clock, hasMeter, s)
  {
    var initial := InitialSnapshot(clock.timestamp);
    var balance, rate, dispatch := initial.balance, initial.rate, initial.dispatch;
    var charger, history, live := initial.chargerProvider, initial.chargeHistory, initial.livePowerWatts;
    var sessions, usage := initial.sessions, initial.usage;
    var raised: Option<string> := None;

    if f.account.Err? {
      raised := Some(f.account.message);
    } else {
      balance := BalanceOf(f.account.value);
    }

    var tariff: Option<Rates.Tariff> := None;
    if raised.None? {
      if f.tariff.Err? {
        raised := Some(f.tariff.message);
      } else {
        tariff := f.tariff.value;
        if tariff.Some? {
          rate := RateFieldsOf(tariff.value, clock.rateNow, clock.now);
        }
      }
    }

    if raised.None? {
      if f.dispatch.Err? {
        raised := Some(f.dispatch.message);
      } else {
        dispatch := DispatchFieldsOf(f.dispatch.value);
      }
    }

    if raised.None? {
      if f.devices.Err? {
        raised := Some(f.devices.message);
      } else if f.devices.value != [] {
        charger := Some(f.devices.value[0]);
      }
    }

    if raised.None? {
      if f.completed.Err? {
        raised := Some(f.completed.message);
      } else {
        history := ChargeRecords(f.completed.value, ChargeRate(tariff));
      }
    }

    if raised.None? {
      if f.livePower.Err? {
        raised := Some(f.livePower.message);
      } else if f.livePower.value.Some? {
        live := f.livePower.value;
      }
    }

    if raised.None? {
      if f.sessions.Err? {
        raised := Some(f.sessions.message);
      } else {
        sessions := SessionFieldsOf(f.sessions.value, f.sessionActive);
      }
    }

    if raised.None? && hasMeter {
      if f.consumption.Err? {
        raised := Some(f.consumption.message);
      } else {
        var u := Usage.UsageBlock(f.consumption.value, clock.today, tariff);
        usage := UsageComputed(u);
      }
    }

    s := Snapshot(clock.timestamp, live, rate, balance, dispatch, usage, initial.liveHistory, sessions,
                  initial.offPeakStart, initial.offPeakEnd, charger, history, raised, initial.response);
  }
}
