/** Intelligent Octopus dispatch slots (`get_dispatches`, `get_dispatch_status`). The status
    is recomputed from the slot list and `now` on every call; nothing is cached. */
module Dispatches {
  import opened Common

  datatype Dispatch = Dispatch(start: int, end: int, source: string)

  /** A planned dispatch as delivered: `start`/`end` are None when the key is missing or the
      timestamp does not parse, `source` is None when the key is missing. */
  datatype RawDispatch = RawDispatch(start: Option<int>, end: Option<int>, source: Option<string>)

  datatype DispatchStatus = DispatchStatus(
    isDispatching: bool,
    currentDispatch: Option<Dispatch>,
    nextDispatch: Option<Dispatch>)

  function StartOf(d: Dispatch): int { d.start }

  predicate WellFormed(r: RawDispatch) {
    r.start.Some? && r.end.Some?
  }

  function ToDispatch(r: RawDispatch): Dispatch
    requires WellFormed(r)
  {
    Dispatch(r.start.value, r.end.value, r.source.GetOr("smart-charge"))
  }

  /** The slots that parse, in the order delivered. */
  function Parsed(raw: seq<RawDispatch>): (ds: seq<Dispatch>)
    ensures forall d :: d in ds <==> exists i :: 0 <= i < |raw| && WellFormed(raw[i]) && ToDispatch(raw[i]) == d
  {
    if raw == [] then []
    else
      var last := raw[|raw| - 1];
      var init := Parsed(raw[..|raw| - 1]);
      assert forall i :: 0 <= i < |raw| - 1 ==> raw[..|raw| - 1][i] == raw[i];
      if WellFormed(last) then init + [ToDispatch(last)] else init
  }

  /** `get_dispatches` after the fetch: malformed entries are skipped, the rest sorted by start. */
  method ParseDispatches(raw: seq<RawDispatch>) returns (ds: seq<Dispatch>)
    ensures ds == SortBy(Parsed(raw), StartOf)
    ensures SortedBy(ds, StartOf)
    ensures multiset(ds) == multiset(Parsed(raw))
    ensures forall d :: d in ds <==> exists i :: 0 <= i < |raw| && WellFormed(raw[i]) && ToDispatch(raw[i]) == d
  {
    var parsed: seq<Dispatch> := [];
    var i := 0;
    while i < |raw|
      invariant 0 <= i <= |raw|
      invariant parsed == Parsed(raw[..i])
    {
      assert raw[..i + 1][..i] == raw[..i];
      if WellFormed(raw[i]) {
        parsed := parsed + [ToDispatch(raw[i])];
      }
      i := i + 1;
    }
    assert raw[..|raw|] == raw;
    ds := SortBy(parsed, StartOf);
    assert forall d :: d in ds <==> d in multiset(ds);
    assert forall d :: d in parsed <==> d in multiset(parsed);
  }

  /** Containment is inclusive at both ends. */
  predicate Contains(d: Dispatch, now: int) {
    d.start <= now <= d.end
  }

  /** `get_dispatch_status`: the current dispatch is the last slot in list order containing
      `now`; the next dispatch is the first slot in list order starting after `now`. */
  method GetDispatchStatus(ds: seq<Dispatch>, now: int) returns (st: DispatchStatus)
    ensures st.isDispatching <==> st.currentDispatch.Some?
    ensures st.isDispatching <==> exists i :: 0 <= i < |ds| && Contains(ds[i], now)
    ensures st.currentDispatch.Some? ==>
      exists i :: 0 <= i < |ds| && ds[i] == st.currentDispatch.value && Contains(ds[i], now)
        && forall j :: i < j < |ds| ==> !Contains(ds[j], now)
    ensures st.nextDispatch.Some? <==> exists i :: 0 <= i < |ds| && ds[i].start > now
    ensures st.nextDispatch.Some? ==>
      exists i :: 0 <= i < |ds| && ds[i] == st.nextDispatch.value && ds[i].start > now
        && forall j :: 0 <= j < i ==> ds[j].start <= now
    ensures st.nextDispatch.Some? ==> !Contains(st.nextDispatch.value, now)
    ensures st.nextDispatch.Some? && SortedBy(ds, StartOf) ==>
      forall j :: 0 <= j < |ds| && ds[j].start > now ==> st.nextDispatch.value.start <= ds[j].start
  {
    var current: Option<Dispatch> := None;
    var next: Option<Dispatch> := None;
    ghost var ci, ni := -1, -1;
    var i := 0;
    while i < |ds|
      invariant 0 <= i <= |ds|
      invariant current.None? <==> forall j :: 0 <= j < i ==> !Contains(ds[j], now)
      invariant current.Some? ==>
        0 <= ci < i && ds[ci] == current.value && Contains(ds[ci], now)
        && forall j :: ci < j < i ==> !Contains(ds[j], now)
      invariant next.None? <==> forall j :: 0 <= j < i ==> ds[j].start <= now
      invariant next.Some? ==>
        0 <= ni < i && ds[ni] == next.value && ds[ni].start > now
        && forall j :: 0 <= j < ni ==> ds[j].start <= now
    {
      var d := ds[i];
      if d.start <= now <= d.end {
        current, ci := Some(d), i;
      } else if d.start > now && next.None? {
        next, ni := Some(d), i;
      }
      i := i + 1;
    }
    st := DispatchStatus(current.Some?, current, next);
  }
}

/** Saving Sessions (`get_saving_sessions`): the events that have not yet ended, by start. */
module SavingSessions {
  import opened Common

  datatype SavingSession = SavingSession(code: string, start: int, end: int, rewardPerKwh: int)

  /** An event as delivered: `startAt`/`endAt` are None when missing or unparseable. */
  datatype RawEvent = RawEvent(
    code: Option<string>, startAt: Option<int>, endAt: Option<int>, reward: Option<int>)

  function StartOf(s: SavingSession): int { s.start }

  predicate WellFormed(e: RawEvent) {
    e.startAt.Some? && e.endAt.Some?
  }

  function ToSession(e: RawEvent): SavingSession
    requires WellFormed(e)
  {
    SavingSession(e.code.GetOr(""), e.startAt.value, e.endAt.value, e.reward.GetOr(0))
  }

  /** The well-formed events ending after `now`, in the order delivered. */
  function Upcoming(events: seq<RawEvent>, now: int): seq<SavingSession> {
    if events == [] then []
    else
      var last := events[|events| - 1];
      var init := Upcoming(events[..|events| - 1], now);
      if WellFormed(last) && ToSession(last).end > now then init + [ToSession(last)] else init
  }

  lemma {:induction false} UpcomingMembers(events: seq<RawEvent>, now: int)
    ensures forall s :: s in Upcoming(events, now) <==>
      exists i :: 0 <= i < |events| && WellFormed(events[i]) && ToSession(events[i]) == s && s.end > now
  {
    if events != [] {
      var n := |events| - 1;
      UpcomingMembers(events[..n], now);
      assert forall i :: 0 <= i < n ==> events[..n][i] == events[i];
    }
  }

  /** `get_saving_sessions` after the fetch: exactly the well-formed events with `end > now`,
      each as often as delivered, sorted by start; malformed events are skipped. */
  method GetSavingSessions(events: seq<RawEvent>, now: int) returns (sessions: seq<SavingSession>)
    ensures SortedBy(sessions, StartOf)
    ensures multiset(sessions) == multiset(Upcoming(events, now))
    ensures forall s :: s in sessions <==>
      exists i :: 0 <= i < |events| && WellFormed(events[i]) && ToSession(events[i]) == s && s.end > now
    ensures forall s :: s in sessions ==> s.end > now
  {
    var found: seq<SavingSession> := [];
    var i := 0;
    while i < |events|
      invariant 0 <= i <= |events|
      invariant found == Upcoming(events[..i], now)
    {
      assert events[..i + 1][..i] == events[..i];
      var e := events[i];
      if e.startAt.Some? && e.endAt.Some? {
        var s := ToSession(e);
        if s.end > now {
          found := found + [s];
        }
      }
      i := i + 1;
    }
    assert events[..|events|] == events;
    UpcomingMembers(events, now);
    sessions := SortBy(found, StartOf);
    assert forall s :: s in sessions <==> s in multiset(sessions);
    assert forall s :: s in found <==> s in multiset(found);
  }
}
