/** The client's authentication token cache (`_get_token`). */
module Auth {
  import opened Common

  /** A fetched token lives for 55 minutes. */
  const TokenLifetime: int := 55 * 60

  /** What the token mutation answers: a token, or an error that is raised. */
  datatype TokenResponse = Obtained(token: string) | Refused(message: string)

  /** The cached token is reused only when it is a non-empty string and has not expired. */
  predicate CacheHit(token: Option<string>, expires: Option<int>, now: int)
    ensures token.None? || token == Some("") ==> !CacheHit(token, expires, now)
    ensures expires.None? ==> !CacheHit(token, expires, now)
    ensures expires.Some? && now >= expires.value ==> !CacheHit(token, expires, now)
  {
    token.Some? && token.value != "" && expires.Some? && now < expires.value
  }

  class OctopusClient {
    var token: Option<string>
    var tokenExpires: Option<int>

    constructor ()
      ensures token.None? && tokenExpires.None?
    {
      token, tokenExpires := None, None;
    }

    /** `_get_token` at instant `now`. When the cache misses, `response` is the provider's
        answer, received at instant `answeredAt`. */
    method GetToken(now: int, response: TokenResponse, answeredAt: int) returns (r: Result<string>)
      modifies this
      ensures CacheHit(old(token), old(tokenExpires), now) ==>
        r == Ok(old(token).value) && token == old(token) && tokenExpires == old(tokenExpires)
      ensures !CacheHit(old(token), old(tokenExpires), now) && response.Obtained? ==>
        r == Ok(response.token) && token == Some(response.token)
        && tokenExpires == Some(answeredAt + TokenLifetime)
      ensures !CacheHit(old(token), old(tokenExpires), now) && response.Refused? ==>
        r == Err(response.message) && token == old(token) && tokenExpires == old(tokenExpires)
    {
      if token.Some? && token.value != "" && tokenExpires.Some? && now < tokenExpires.value {
        return Ok(token.value);
      }
      match response
      case Refused(message) =>
        r := Err(message);
      case Obtained(t) =>
        token := Some(t);
        tokenExpires := Some(answeredAt + TokenLifetime);
        r := Ok(t);
    }
  }

  /** A non-empty token fetched at `answeredAt` is reused exactly until 55 minutes later. */
  lemma TokenReusedUntilExpiry(t: string, answeredAt: int, now: int)
    requires t != ""
    ensures CacheHit(Some(t), Some(answeredAt + TokenLifetime), now) <==> now < answeredAt + 3300
  {
  }
}

/** `_discover_meter_device`: a depth-first walk over properties, meter points, meters and
    smart devices that returns the first non-empty device id. A list that is JSON null makes
    the walk raise a TypeError, which the source catches and answers with no device. */
module MeterDiscovery {
  import opened Common

  datatype Device = Device(deviceId: Option<string>)
  /** Each list is None when its value is null (iterating it raises); a missing key is []. */
  datatype Meter = Meter(smartDevices: Option<seq<Device>>)
  datatype MeterPoint = MeterPoint(meters: Option<seq<Meter>>)
  datatype Property = Property(meterPoints: Option<seq<MeterPoint>>)

  /** The outcome of walking part of the tree. */
  datatype Search = Missing | Found(id: string) | Fault

  /** Walks `xs` in order and stops at the first element that is not Missing. */
  function FirstHit<T>(xs: seq<T>, f: T -> Search): Search {
    if xs == [] then Missing
    else
      var r := FirstHit(xs[..|xs| - 1], f);
      if r != Missing then r else f(xs[|xs| - 1])
  }

  /** The walk over one list finds nothing in an empty list, and whatever it stops at is the
      step's result on one of the list's elements. */
  lemma {:induction false} FirstHitIsSomeStep<T>(xs: seq<T>, f: T -> Search)
    ensures xs == [] ==> FirstHit(xs, f) == Missing
    ensures FirstHit(xs, f) != Missing ==> exists i :: 0 <= i < |xs| && f(xs[i]) == FirstHit(xs, f)
  {
    if xs != [] {
      var n := |xs| - 1;
      FirstHitIsSomeStep(xs[..n], f);
      if FirstHit(xs[..n], f) != Missing {
        var i :| 0 <= i < n && f(xs[..n][i]) == FirstHit(xs[..n], f);
        assert f(xs[i]) == FirstHit(xs, f);
      } else {
        assert f(xs[n]) == FirstHit(xs, f);
      }
    }
  }

  function StepDevice(d: Device): (r: Search)
    ensures r.Found? <==> d.deviceId.Some? && d.deviceId.value != ""
    ensures r.Found? ==> r.id == d.deviceId.value
    ensures !r.Fault?
  {
    if d.deviceId.Some? && d.deviceId.value != "" then Found(d.deviceId.value) else Missing
  }

  function StepMeter(m: Meter): (r: Search)
    ensures m.smartDevices.None? ==> r == Fault
    ensures r.Found? ==> r.id != ""
  {
    if m.smartDevices.None? then Fault
    else
      FirstHitIsSomeStep(m.smartDevices.value, StepDevice);
      FirstHit(m.smartDevices.value, StepDevice)
  }

  function StepMeterPoint(mp: MeterPoint): (r: Search)
    ensures mp.meters.None? ==> r == Fault
    ensures r.Found? ==> r.id != ""
  {
    if mp.meters.None? then Fault
    else
      FirstHitIsSomeStep(mp.meters.value, StepMeter);
      FirstHit(mp.meters.value, StepMeter)
  }

  function StepProperty(p: Property): (r: Search)
    ensures p.meterPoints.None? ==> r == Fault
    ensures r.Found? ==> r.id != ""
  {
    if p.meterPoints.None? then Fault
    else
      FirstHitIsSomeStep(p.meterPoints.value, StepMeterPoint);
      FirstHit(p.meterPoints.value, StepMeterPoint)
  }

  /** `props` is None when `account` or `properties` is missing or null. */
  function Discover(props: Option<seq<Property>>): (r: Option<string>)
    ensures props.None? ==> r.None?
    ensures props == Some([]) ==> r.None?
    ensures r.Some? ==> r.value != ""
  {
    if props.None? then None
    else
      FirstHitIsSomeStep(props.value, StepProperty);
      match FirstHit(props.value, StepProperty)
      case Found(id) => Some(id)
      case _ => None
  }

  lemma {:induction false} FirstHitExtends<T>(xs: seq<T>, k: nat, f: T -> Search)
    requires k <= |xs|
    requires FirstHit(xs[..k], f) != Missing
    ensures FirstHit(xs, f) == FirstHit(xs[..k], f)
  {
    if k < |xs| {
      var n := |xs| - 1;
      assert xs[..n][..k] == xs[..k];
      FirstHitExtends(xs[..n], k, f);
    } else {
      assert xs[..k] == xs;
    }
  }

  lemma FirstHitStops<T>(xs: seq<T>, i: nat, f: T -> Search)
    requires i < |xs|
    requires FirstHit(xs[..i], f) == Missing && f(xs[i]) != Missing
    ensures FirstHit(xs, f) == f(xs[i])
  {
    assert xs[..i + 1][..i] == xs[..i];
    FirstHitExtends(xs, i + 1, f);
  }

  /** The walk with its nested loops and early returns. */
  method DiscoverMeterDevice(props: Option<seq<Property>>) returns (device: Option<string>)
    ensures device == Discover(props)
    ensures device.Some? ==> device.value != ""
    ensures props.Some? && NoNullLists(props.value) ==> device == FirstNonEmpty(AllDeviceIds(props.value))
  {
    if props.Some? && NoNullLists(props.value) {
      DiscoverFindsFirstId(props.value);
    }
    if props.None? {
      return None;
    }
    var ps := props.value;
    var i := 0;
    while i < |ps|
      invariant 0 <= i <= |ps|
      invariant FirstHit(ps[..i], StepProperty) == Missing
    {
      assert ps[..i + 1][..i] == ps[..i];
      if ps[i].meterPoints.None? {
        FirstHitStops(ps, i, StepProperty);
        return None;
      }
      var mps := ps[i].meterPoints.value;
      var j := 0;
      while j < |mps|
        invariant 0 <= j <= |mps|
        invariant FirstHit(mps[..j], StepMeterPoint) == Missing
      {
        assert mps[..j + 1][..j] == mps[..j];
        if mps[j].meters.None? {
          FirstHitStops(mps, j, StepMeterPoint);
          FirstHitStops(ps, i, StepProperty);
          return None;
        }
        var ms := mps[j].meters.value;
        var k := 0;
        while k < |ms|
          invariant 0 <= k <= |ms|
          invariant FirstHit(ms[..k], StepMeter) == Missing
        {
          assert ms[..k + 1][..k] == ms[..k];
          if ms[k].smartDevices.None? {
            FirstHitStops(ms, k, StepMeter);
            FirstHitStops(mps, j, StepMeterPoint);
            FirstHitStops(ps, i, StepProperty);
            return None;
          }
          var ds := ms[k].smartDevices.value;
          var l := 0;
          while l < |ds|
            invariant 0 <= l <= |ds|
            invariant FirstHit(ds[..l], StepDevice) == Missing
          {
            assert ds[..l + 1][..l] == ds[..l];
            if ds[l].deviceId.Some? && ds[l].deviceId.value != "" {
              FirstHitStops(ds, l, StepDevice);
              FirstHitStops(ms, k, StepMeter);
              FirstHitStops(mps, j, StepMeterPoint);
              FirstHitStops(ps, i, StepProperty);
              return Some(ds[l].deviceId.value);
            }
            l := l + 1;
          }
          assert ds[..l] == ds;
          k := k + 1;
        }
        assert ms[..k] == ms;
        j := j + 1;
      }
      assert mps[..j] == mps;
      i := i + 1;
    }
    assert ps[..i] == ps;
    return None;
  }

  // An independent reading: flatten the tree into the device ids in walk order.

  function Concat<T>(xs: seq<T>, g: T -> seq<Option<string>>): seq<Option<string>> {
    if xs == [] then [] else Concat(xs[..|xs| - 1], g) + g(xs[|xs| - 1])
  }

  function IdsOfDevices(ds: seq<Device>): seq<Option<string>> {
    if ds == [] then [] else IdsOfDevices(ds[..|ds| - 1]) + [ds[|ds| - 1].deviceId]
  }

  function IdsOfMeter(m: Meter): seq<Option<string>> { IdsOfDevices(m.smartDevices.GetOr([])) }

  function IdsOfMeterPoint(mp: MeterPoint): seq<Option<string>> {
    Concat(mp.meters.GetOr([]), IdsOfMeter)
  }

  function IdsOfProperty(p: Property): seq<Option<string>> {
    Concat(p.meterPoints.GetOr([]), IdsOfMeterPoint)
  }

  /** Every device id in the account, in the order the walk visits them. */
  function AllDeviceIds(ps: seq<Property>): seq<Option<string>> { Concat(ps, IdsOfProperty) }

  function FirstNonEmpty(ids: seq<Option<string>>): Option<string> {
    if ids == [] then None
    else if ids[0].Some? && ids[0].value != "" then ids[0]
    else FirstNonEmpty(ids[1..])
  }

  function AsSearch(o: Option<string>): Search {
    if o.Some? then Found(o.value) else Missing
  }

  /** No list on the way is null. */
  predicate NoNullLists(ps: seq<Property>) {
    forall p :: p in ps ==> PropertyHasLists(p)
  }

  predicate PropertyHasLists(p: Property) {
    p.meterPoints.Some? && forall mp :: mp in p.meterPoints.value ==> MeterPointHasLists(mp)
  }

  predicate MeterPointHasLists(mp: MeterPoint) {
    mp.meters.Some? && forall m :: m in mp.meters.value ==> m.smartDevices.Some?
  }

  lemma {:induction false} FirstNonEmptyAppend(a: seq<Option<string>>, b: seq<Option<string>>)
    ensures FirstNonEmpty(a + b) == if FirstNonEmpty(a).Some? then FirstNonEmpty(a) else FirstNonEmpty(b)
  {
    if a != [] {
      assert (a + b)[1..] == a[1..] + b;
      FirstNonEmptyAppend(a[1..], b);
    } else {
      assert a + b == b;
    }
  }

  lemma {:induction false} FirstHitIsFirstOfConcat<T>(xs: seq<T>, f: T -> Search, g: T -> seq<Option<string>>)
    requires forall x :: x in xs ==> f(x) == AsSearch(FirstNonEmpty(g(x)))
    ensures FirstHit(xs, f) == AsSearch(FirstNonEmpty(Concat(xs, g)))
  {
    if xs != [] {
      var n := |xs| - 1;
      assert forall x :: x in xs[..n] ==> x in xs;
      FirstHitIsFirstOfConcat(xs[..n], f, g);
      FirstNonEmptyAppend(Concat(xs[..n], g), g(xs[n]));
      assert xs[n] in xs;
    }
  }

  lemma {:induction false} DevicesFirst(ds: seq<Device>)
    ensures FirstHit(ds, StepDevice) == AsSearch(FirstNonEmpty(IdsOfDevices(ds)))
  {
    if ds != [] {
      var n := |ds| - 1;
      DevicesFirst(ds[..n]);
      FirstNonEmptyAppend(IdsOfDevices(ds[..n]), [ds[n].deviceId]);
    }
  }

  /** On a tree with no null list, the walk answers the first non-empty device id in walk
      order, and no device exactly when there is no non-empty id. */
  lemma DiscoverFindsFirstId(ps: seq<Property>)
    requires NoNullLists(ps)
    ensures Discover(Some(ps)) == FirstNonEmpty(AllDeviceIds(ps))
  {
    forall p | p in ps
      ensures StepProperty(p) == AsSearch(FirstNonEmpty(IdsOfProperty(p)))
    {
      var mps := p.meterPoints.value;
      forall mp | mp in mps
        ensures StepMeterPoint(mp) == AsSearch(FirstNonEmpty(IdsOfMeterPoint(mp)))
      {
        var ms := mp.meters.value;
        forall m | m in ms
          ensures StepMeter(m) == AsSearch(FirstNonEmpty(IdsOfMeter(m)))
        {
          DevicesFirst(m.smartDevices.value);
        }
        FirstHitIsFirstOfConcat(ms, StepMeter, IdsOfMeter);
      }
      FirstHitIsFirstOfConcat(mps, StepMeterPoint, IdsOfMeterPoint);
    }
    FirstHitIsFirstOfConcat(ps, StepProperty, IdsOfProperty);
  }

  /** Whatever the walk answers is a non-empty id that some device of the account carries. */
  lemma {:induction false} FirstNonEmptyIsMember(ids: seq<Option<string>>)
    ensures FirstNonEmpty(ids).Some? ==> FirstNonEmpty(ids).value != "" && FirstNonEmpty(ids) in ids
    ensures FirstNonEmpty(ids).None? <==> forall i :: 0 <= i < |ids| ==> ids[i].None? || ids[i].value == ""
  {
    if ids != [] {
      FirstNonEmptyIsMember(ids[1..]);
      assert forall i :: 1 <= i < |ids| ==> ids[i] == ids[1..][i - 1];
    }
  }
}
