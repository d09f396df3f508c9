/**
  The live ride map (frontend/components/RideBookingMap.tsx): a five-state
  ride lifecycle, two readiness flags that gate the start of the ride, and a
  frame-by-frame animation that moves the car marker along a fetched route.

  Timers, animation frames and route responses are events handed to the
  model. `Ride` is the observable state; `Next` says what each event does to
  it, and the class `RideMap` performs the same updates step by step, as
  the component's handlers and callbacks do.
*/
module RideBookingMap {
  import opened Wrappers
  import opened Types
  import Text

  datatype RideState = Searching | DriverEnRoute | Arrived | InRide | Completed

  /** The position of a state along searching → driverEnRoute → arrived → inRide → completed. */
  function Rank(s: RideState): nat {
    match s
    case Searching => 0
    case DriverEnRoute => 1
    case Arrived => 2
    case InRide => 3
    case Completed => 4
  }

  /** The two animated legs: driver to pickup, then pickup to destination. */
  datatype Leg = DriverLeg | TravelLeg

  const DriverLegSeconds: nat := 20
  const TravelLegSeconds: nat := 25

  function LegSeconds(leg: Leg): nat {
    match leg
    case DriverLeg => DriverLegSeconds
    case TravelLeg => TravelLegSeconds
  }

  /** The state a leg's animation runs in. */
  function LegState(leg: Leg): RideState {
    match leg
    case DriverLeg => DriverEnRoute
    case TravelLeg => InRide
  }

  /** The state onFinish sets when a leg's animation is over. */
  function LegEnd(leg: Leg): RideState {
    match leg
    case DriverLeg => Arrived
    case TravelLeg => Completed
  }

  datatype Payload = Payload(pickup: Location, destination: Location)

  /** A directions request in flight, awaiting its route. */
  datatype RouteRequest = RouteRequest(leg: Leg, from: Coord, to: Coord)

  /** A running `animateCar`: route, duration in ms, start time in ms, and the leg whose onFinish it calls. */
  datatype Animation = Animation(route: seq<Coord>, durationMs: nat, startTime: int, leg: Leg)

  /** The observable ride: state, readiness flags, car marker, pending animation frame, pending route fetch. */
  datatype Ride = Ride(
    state: RideState,
    clientReady: bool,
    driverReady: bool,
    marker: Option<Coord>,
    frame: Option<Animation>,
    pending: Option<RouteRequest>)

  datatype Event =
    | DispatchTimer(driverStart: Coord)       // the 3 s timer armed while searching
    | RouteResolved(route: seq<Coord>, now: int)
    | AnimationFrame(now: int)
    | DriverReadyClicked
    | ClientReadyClicked
    | CloseClicked

  // -----------------------------------------------------------------------
  // The frame-index rule: floor(min(elapsed / duration, 1) * (n - 1))
  // -----------------------------------------------------------------------

  lemma MulMonotone(a: int, b: int, d: nat)
    ensures a <= b ==> a * d <= b * d
  {
    if a <= b { assert b * d - a * d == (b - a) * d; }
  }

  /**
    The route index shown `elapsed` ms into an animation of `durationMs` ms
    over a route of `n` points. Below the duration it is the floor of
    elapsed * (n - 1) / duration; from the duration on it is the last index.
  */
  function FrameIndex(elapsed: int, durationMs: int, n: nat): (i: int)
    requires durationMs > 0
    ensures elapsed >= durationMs ==> i == n - 1
    ensures elapsed < durationMs ==> i * durationMs <= elapsed * (n - 1) < (i + 1) * durationMs
  {
    if elapsed >= durationMs then n - 1 else (elapsed * (n - 1)) / durationMs
  }

  /** For a route of at least one point and a non-negative elapsed time the index is a valid one. */
  lemma FrameIndexInRange(elapsed: int, durationMs: int, n: nat)
    requires durationMs > 0 && n >= 1 && elapsed >= 0
    ensures 0 <= FrameIndex(elapsed, durationMs, n) <= n - 1
  {
    var i := FrameIndex(elapsed, durationMs, n);
    if elapsed < durationMs {
      MulMonotone(elapsed, durationMs, n - 1);
      MulMonotone(n, i, durationMs);
      MulMonotone(i, -1, durationMs);
    }
  }

  /** A later frame never shows an earlier point: the index grows with elapsed time. */
  lemma FrameIndexMonotone(e1: int, e2: int, durationMs: int, n: nat)
    requires durationMs > 0 && n >= 1 && e1 <= e2
    ensures FrameIndex(e1, durationMs, n) <= FrameIndex(e2, durationMs, n)
  {
    var i1, i2 := FrameIndex(e1, durationMs, n), FrameIndex(e2, durationMs, n);
    if e2 < durationMs {
      MulMonotone(e1, e2, n - 1);
      MulMonotone(i2 + 1, i1, durationMs);
    } else if e1 < durationMs {
      MulMonotone(e1, durationMs, n - 1);
      MulMonotone(n, i1, durationMs);
    }
  }

  // -----------------------------------------------------------------------
  // The lifecycle
  // -----------------------------------------------------------------------

  function Initial(): Ride {
    Ride(Searching, false, false, None, None, None)
  }

  /** The effect at lines 169-173: once arrived with both flags set, start the ride and fetch its route. */
  function StartRideIfReady(p: Payload, r: Ride): Ride {
    if r.state == Arrived && r.clientReady && r.driverReady then
      r.(state := InRide, pending := Some(RouteRequest(TravelLeg, p.pickup.coordinates, p.destination.coordinates)))
    else r
  }

  /** Which events can happen: the timer runs only while searching, callbacks only once requested, the ready buttons only show on arrival. */
  predicate Enabled(r: Ride, ev: Event) {
    match ev
    case DispatchTimer(_) => r.state == Searching
    case RouteResolved(_, _) => r.pending.Some?
    case AnimationFrame(_) => r.frame.Some?
    case DriverReadyClicked => r.state == Arrived
    case ClientReadyClicked => r.state == Arrived
    case CloseClicked => true
  }

  /** One animation frame: move the marker to the indexed point if there is one, then reschedule or finish. */
  function Frame(p: Payload, r: Ride, now: int): Ride
    requires r.frame.Some? && r.frame.value.durationMs > 0
  {
    var a := r.frame.value;
    var elapsed := now - a.startTime;
    var i := FrameIndex(elapsed, a.durationMs, |a.route|);
    var moved := if 0 <= i < |a.route| then r.(marker := Some(a.route[i])) else r;
    if elapsed < a.durationMs then moved
    else StartRideIfReady(p, moved.(frame := None, state := LegEnd(a.leg)))
  }

  function Next(p: Payload, r: Ride, ev: Event): Ride
    requires Enabled(r, ev)
    requires r.frame.Some? ==> r.frame.value.durationMs > 0
  {
    match ev
    case DispatchTimer(driverStart) =>
      r.(state := DriverEnRoute, marker := Some(driverStart),
         pending := Some(RouteRequest(DriverLeg, driverStart, p.pickup.coordinates)))
    case RouteResolved(route, now) =>
      var leg := r.pending.value.leg;
      if r.marker.None? then r.(pending := None)
      else r.(pending := None, frame := Some(Animation(route, LegSeconds(leg) * 1000, now, leg)))
    case AnimationFrame(now) => Frame(p, r, now)
    case DriverReadyClicked => StartRideIfReady(p, r.(driverReady := true))
    case ClientReadyClicked => StartRideIfReady(p, r.(clientReady := true))
    case CloseClicked => r.(frame := None)
  }

  /** What every reachable ride satisfies. */
  ghost predicate RideValid(r: Ride) {
    && (r.frame.Some? ==>
          && r.marker.Some? && r.pending.None?
          && r.frame.value.durationMs == LegSeconds(r.frame.value.leg) * 1000
          && r.state == LegState(r.frame.value.leg))
    && (r.pending.Some? ==> r.state == LegState(r.pending.value.leg))
    && (r.state == Searching <==> r.marker.None?)
    && (r.state == Searching ==> r.frame.None? && r.pending.None?)
    && (Rank(r.state) < 2 ==> !r.clientReady && !r.driverReady)
    && (Rank(r.state) > 2 ==> r.clientReady && r.driverReady)
    && (r.state == Arrived ==> !(r.clientReady && r.driverReady))
  }

  lemma InitialValid()
    ensures RideValid(Initial()) && Initial().state == Searching
  {
  }

  lemma {:induction false} NextValid(p: Payload, r: Ride, ev: Event)
    requires RideValid(r) && Enabled(r, ev)
    ensures RideValid(Next(p, r, ev))
  {
    match ev
    case AnimationFrame(now) =>
      var a := r.frame.value;
      assert a.durationMs > 0;
    case _ =>
  }

  /** The ride only moves forward, one state at a time. */
  lemma {:induction false} NextMovesForward(p: Payload, r: Ride, ev: Event)
    requires RideValid(r) && Enabled(r, ev)
    ensures var r' := Next(p, r, ev);
      Rank(r'.state) == Rank(r.state) || Rank(r'.state) == Rank(r.state) + 1
  {
    match ev
    case AnimationFrame(now) =>
      var a := r.frame.value;
      assert r.state == LegState(a.leg);
    case _ =>
  }

  /** Completed has no outgoing transition. */
  lemma CompletedIsFinal(p: Payload, r: Ride, ev: Event)
    requires RideValid(r) && Enabled(r, ev) && r.state == Completed
    ensures Next(p, r, ev).state == Completed
  {
  }

  /** Leaving arrived takes both flags and leads into the ride. */
  lemma LeavingArrivedNeedsBothFlags(p: Payload, r: Ride, ev: Event)
    requires RideValid(r) && Enabled(r, ev) && r.state == Arrived
    ensures var r' := Next(p, r, ev);
      r'.state != Arrived ==> r'.state == InRide && r'.clientReady && r'.driverReady
  {
  }

  /** The readiness flags are set-only. */
  lemma {:induction false} FlagsOnlyRise(p: Payload, r: Ride, ev: Event)
    requires RideValid(r) && Enabled(r, ev)
    ensures r.clientReady ==> Next(p, r, ev).clientReady
    ensures r.driverReady ==> Next(p, r, ev).driverReady
  {
    match ev
    case AnimationFrame(now) =>
      assert r.frame.value.durationMs > 0;
    case _ =>
  }

  /** Pressing a ready button a second time changes nothing. */
  lemma ReadyClickTwice(p: Payload, r: Ride)
    requires RideValid(r) && r.state == Arrived
    ensures r.driverReady ==> Next(p, r, DriverReadyClicked) == r
    ensures r.clientReady ==> Next(p, r, ClientReadyClicked) == r
  {
  }

  /** On arrival with no flag set: one flag alone keeps the ride waiting, both in either order start it. */
  lemma BothFlagsInEitherOrder(p: Payload, r: Ride)
    requires RideValid(r) && r.state == Arrived && !r.clientReady && !r.driverReady
    ensures Next(p, r, DriverReadyClicked).state == Arrived
    ensures Next(p, r, ClientReadyClicked).state == Arrived
    ensures Next(p, Next(p, r, DriverReadyClicked), ClientReadyClicked).state == InRide
    ensures Next(p, Next(p, r, ClientReadyClicked), DriverReadyClicked).state == InRide
  {
  }

  /** The driver leg runs 20 s towards the pickup; the travel leg 25 s from pickup to destination. */
  lemma LegTimings(p: Payload, r: Ride, route: seq<Coord>, now: int)
    requires RideValid(r) && r.pending.Some?
    ensures var r' := Next(p, r, RouteResolved(route, now));
      && r'.frame.Some? && r'.frame.value.route == route && r'.frame.value.startTime == now
      && (r.state == DriverEnRoute ==> r'.frame.value.durationMs == 20000 && LegEnd(r'.frame.value.leg) == Arrived)
      && (r.state == InRide ==> r'.frame.value.durationMs == 25000 && LegEnd(r'.frame.value.leg) == Completed)
  {
  }

  // -----------------------------------------------------------------------
  // A run of animation frames
  // -----------------------------------------------------------------------

  /** Frames are delivered while one is requested; once none is, later timestamps are not seen. */
  function RunFrames(p: Payload, r: Ride, times: seq<int>): Ride
    requires RideValid(r)
    decreases |times|
  {
    if |times| == 0 || r.frame.None? then r
    else
      NextValid(p, r, AnimationFrame(times[0]));
      RunFrames(p, Next(p, r, AnimationFrame(times[0])), times[1..])
  }

  /** Frames before the duration has elapsed keep the animation going and the state unchanged. */
  lemma {:induction false} FramesBeforeEnd(p: Payload, r: Ride, times: seq<int>)
    requires RideValid(r) && r.frame.Some?
    requires forall k :: 0 <= k < |times| ==> times[k] - r.frame.value.startTime < r.frame.value.durationMs
    ensures RunFrames(p, r, times).frame == r.frame
    ensures RunFrames(p, r, times).state == r.state
    decreases |times|
  {
    if |times| > 0 {
      var r1 := Next(p, r, AnimationFrame(times[0]));
      NextValid(p, r, AnimationFrame(times[0]));
      assert r1.frame == r.frame && r1.state == r.state;
      FramesBeforeEnd(p, r1, times[1..]);
    }
  }

  /**
    onFinish runs exactly once, on the first frame whose elapsed time reaches
    the duration: before it the animation is still pending in the same state,
    after it no frame is pending and the state is the leg's end (or, on
    arrival with both flags already set, the ride), whatever frames follow.
  */
  lemma {:induction false} FinishOnFirstFullFrame(p: Payload, r: Ride, times: seq<int>, k: nat)
    requires RideValid(r) && r.frame.Some?
    requires k < |times|
    requires forall j :: 0 <= j < k ==> times[j] - r.frame.value.startTime < r.frame.value.durationMs
    requires times[k] - r.frame.value.startTime >= r.frame.value.durationMs
    ensures var r' := RunFrames(p, r, times);
      r'.frame.None? && r'.state == StartRideIfReady(p, r.(state := LegEnd(r.frame.value.leg))).state
    decreases k
  {
    NextValid(p, r, AnimationFrame(times[0]));
    var r1 := Next(p, r, AnimationFrame(times[0]));
    if k == 0 {
      assert r1.frame.None?;
      assert RunFrames(p, r, times) == RunFrames(p, r1, times[1..]);
    } else {
      assert r1.frame == r.frame && r1.state == r.state && r1.clientReady == r.clientReady && r1.driverReady == r.driverReady;
      FinishOnFirstFullFrame(p, r1, times[1..], k - 1);
    }
  }

  // -----------------------------------------------------------------------
  // The directions request URL (fetchRoute, lines 80-82)
  // -----------------------------------------------------------------------

  const DirectionsBase := "https://api.mapbox.com/directions/v5/mapbox/driving/"
  const DirectionsQuery := "?geometries=geojson&access_token="

  function DirectionsUrl(start: Coord, end: Coord, token: string): string {
    DirectionsBase + CoordText(start) + ";" + CoordText(end) + DirectionsQuery + token
  }

  /**
    The path of the directions URL is the start point then the end point,
    separated by ';', each "lon,lat": splitting the path gives the four
    numbers back in that order.
  */
  lemma DirectionsPath(start: Coord, end: Coord, token: string)
    requires PlainNumber(start.lon) && PlainNumber(start.lat) && PlainNumber(end.lon) && PlainNumber(end.lat)
    ensures var url := DirectionsUrl(start, end, token);
      var path := CoordText(start) + ";" + CoordText(end);
      && url == DirectionsBase + path + DirectionsQuery + token
      && Text.Split(path, ';') == [CoordText(start), CoordText(end)]
      && Text.Split(CoordText(start), ',') == [start.lon, start.lat]
      && Text.Split(CoordText(end), ',') == [end.lon, end.lat]
  {
    Text.SplitPair(start.lon, ',', start.lat);
    Text.SplitPair(end.lon, ',', end.lat);
    assert ';' !in CoordText(start) && ';' !in CoordText(end);
    Text.SplitPair(CoordText(start), ';', CoordText(end));
  }

  // -----------------------------------------------------------------------
  // The component
  // -----------------------------------------------------------------------

  class RideMap {
    const payload: Payload
    var state: RideState
    var clientReady: bool
    var driverReady: bool
    var carMarker: Option<Coord>
    var animationFrame: Option<Animation>
    var routeRequest: Option<RouteRequest>

    function Snapshot(): Ride
      reads this
    {
      Ride(state, clientReady, driverReady, carMarker, animationFrame, routeRequest)
    }

    ghost predicate Valid()
      reads this
    {
      RideValid(Snapshot())
    }

    constructor (payload: Payload)
      ensures Valid() && Snapshot() == Initial() && this.payload == payload
    {
      this.payload := payload;
      state := Searching;
      clientReady, driverReady := false, false;
      carMarker, animationFrame, routeRequest := None, None, None;
    }

    /** startDriverEnRoute: the driver is found; place the car and ask for the driver's route. */
    method OnDispatchTimer(driverStart: Coord)
      requires Valid() && state == Searching
      modifies this
      ensures Valid() && Snapshot() == Next(payload, old(Snapshot()), DispatchTimer(driverStart))
    {
      state := DriverEnRoute;
      carMarker := Some(driverStart);
      routeRequest := Some(RouteRequest(DriverLeg, driverStart, payload.pickup.coordinates));
    }

    /** The awaited route arrives: animate the leg it was asked for. */
    method OnRouteResolved(route: seq<Coord>, now: int)
      requires Valid() && routeRequest.Some?
      modifies this
      ensures Valid() && Snapshot() == Next(payload, old(Snapshot()), RouteResolved(route, now))
    {
      ghost var r := Snapshot();
      var leg := routeRequest.value.leg;
      routeRequest := None;
      AnimateCar(route, LegSeconds(leg), leg, now);
      NextValid(payload, r, RouteResolved(route, now));
    }

    method AnimateCar(route: seq<Coord>, durationSeconds: nat, leg: Leg, now: int)
      modifies this`animationFrame
      ensures animationFrame == if carMarker.None? then old(animationFrame)
                                else Some(Animation(route, durationSeconds * 1000, now, leg))
    {
      if carMarker.None? {
        return;
      }
      animationFrame := Some(Animation(route, durationSeconds * 1000, now, leg));
    }

    /** One `animate` callback. */
    method OnAnimationFrame(now: int)
      requires Valid() && animationFrame.Some?
      modifies this
      ensures Valid() && Snapshot() == Next(payload, old(Snapshot()), AnimationFrame(now))
    {
      ghost var r := Snapshot();
      var a := animationFrame.value;
      var index := FrameIndex(now - a.startTime, a.durationMs, |a.route|);
      if 0 <= index < |a.route| {
        carMarker := Some(a.route[index]);
      }
      if now - a.startTime < a.durationMs {
        animationFrame := Some(a);
      } else {
        animationFrame := None;
        state := LegEnd(a.leg);
        StartTravelWhenReady();
      }
      NextValid(payload, r, AnimationFrame(now));
    }

    method OnDriverReady()
      requires Valid() && state == Arrived
      modifies this
      ensures Valid() && Snapshot() == Next(payload, old(Snapshot()), DriverReadyClicked)
    {
      ghost var r := Snapshot();
      driverReady := true;
      StartTravelWhenReady();
      NextValid(payload, r, DriverReadyClicked);
    }

    method OnClientReady()
      requires Valid() && state == Arrived
      modifies this
      ensures Valid() && Snapshot() == Next(payload, old(Snapshot()), ClientReadyClicked)
    {
      ghost var r := Snapshot();
      clientReady := true;
      StartTravelWhenReady();
      NextValid(payload, r, ClientReadyClicked);
    }

    /** handleClose cancels the pending frame only: a route still in flight will animate when it lands. */
    method HandleClose()
      requires Valid()
      modifies this
      ensures Valid() && Snapshot() == Next(payload, old(Snapshot()), CloseClicked)
    {
      animationFrame := None;
    }

    /** The effect on [clientReady, driverReady, state], with startRide. */
    method StartTravelWhenReady()
      modifies this
      ensures Snapshot() == StartRideIfReady(payload, old(Snapshot()))
    {
      if state == Arrived && clientReady && driverReady {
        state := InRide;
        routeRequest := Some(RouteRequest(TravelLeg, payload.pickup.coordinates, payload.destination.coordinates));
      }
    }
  }
}
