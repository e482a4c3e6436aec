/** One run of the `useEffect` body of app/components/StreetViewPlayer.tsx. */
module StreetViewPlayer {
  import opened Options
  import opened Coords

  /** The single search radius passed to `getPanorama`, in metres. */
  const SearchRadius: nat := 50000

  /** A `getPanorama` request as issued to the street view service. */
  datatype Request = Request(location: LatLng, radius: nat)

  /** Where the effect run stands:
      Inactive  - no `location` prop, the effect returned at once and registered no cleanup;
      Polling   - a call of `tryInit` is due (the first one, or one scheduled by `setTimeout`);
      Awaiting  - the `getPanorama` request is out and its callback has not come yet;
      Settled   - nothing more will happen: the callback came, or a cancelled `tryInit` ended the retries. */
  datatype Phase = Inactive | Polling | Awaiting | Settled

  /** The coordinate the callback hands to `onFound`: the panorama's own one on "OK", the requested one otherwise. */
  function Reported(requested: LatLng, status: string, panoramaLatLng: Option<LatLng>): LatLng
  {
    if status == "OK" && panoramaLatLng.Some? then panoramaLatLng.value else requested
  }

  /** The closure state of one effect run, together with the component's `panoramaRef`. */
  class Effect {
    /** The `location` prop the run captured. */
    const location: Option<LatLng>
    var cancelled: bool
    var phase: Phase
    /** Every `getPanorama` request issued, in order. */
    var requests: seq<Request>
    /** `panoramaRef.current`: the position of the panorama it holds, if any. */
    var panorama: Option<LatLng>
    /** Every coordinate passed to `onFound`, in order. */
    var reported: seq<LatLng>

    ghost predicate Valid()
      reads this
    {
      (phase == Inactive <==> location.None?) &&
      (phase == Inactive ==> !cancelled) &&
      (phase in {Inactive, Polling} ==> requests == []) &&
      (phase == Awaiting ==> requests == [Request(location.value, SearchRadius)]) &&
      (requests == [] || requests == [Request(location.value, SearchRadius)]) &&
      (phase != Settled ==> reported == [] && panorama == None) &&
      |reported| <= 1 &&
      (reported != [] ==> |requests| == 1) &&
      (panorama.Some? ==> reported == [panorama.value])
    }

    /** The effect body up to and including its first `tryInit()` call. */
    constructor (location: Option<LatLng>, googleLoaded: bool, containerMounted: bool)
      ensures Valid() && this.location == location
      ensures !cancelled && reported == [] && panorama == None
      ensures location.None? ==> phase == Inactive && requests == []
      ensures location.Some? && !(googleLoaded && containerMounted) ==> phase == Polling && requests == []
      ensures location.Some? && googleLoaded && containerMounted ==>
        phase == Awaiting && requests == [Request(location.value, SearchRadius)]
    {
      this.location := location;
      cancelled := false;
      phase := if location.Some? then Polling else Inactive;
      requests := [];
      panorama := None;
      reported := [];
      new;
      if location.Some? {
        TryInit(googleLoaded, containerMounted);
      }
    }

    /** `tryInit`: stop once cancelled, reschedule until the library and container exist, then request. */
    method TryInit(googleLoaded: bool, containerMounted: bool)
      requires Valid() && phase == Polling
      modifies this
      ensures Valid()
      ensures cancelled == old(cancelled) && reported == old(reported) && panorama == old(panorama)
      ensures old(cancelled) ==> phase == Settled && requests == old(requests)
      ensures !old(cancelled) && !(googleLoaded && containerMounted) ==>
        phase == Polling && requests == old(requests)
      ensures !old(cancelled) && googleLoaded && containerMounted ==>
        phase == Awaiting && requests == old(requests) + [Request(location.value, SearchRadius)]
    {
      if cancelled {
        phase := Settled;
        return;
      }
      if !googleLoaded || !containerMounted {
        // a retry is scheduled, so the phase stays Polling
        return;
      }
      requests := requests + [Request(location.value, SearchRadius)];
      phase := Awaiting;
    }

    /** The `getPanorama` callback: ignored once cancelled, otherwise exactly one `onFound` report. */
    method Callback(status: string, panoramaLatLng: Option<LatLng>)
      requires Valid() && phase == Awaiting
      modifies this
      ensures Valid() && phase == Settled
      ensures cancelled == old(cancelled) && requests == old(requests)
      ensures old(cancelled) ==> reported == old(reported) && panorama == old(panorama)
      ensures !old(cancelled) ==> reported == old(reported) + [Reported(location.value, status, panoramaLatLng)]
      ensures !old(cancelled) ==>
        panorama == if status == "OK" && panoramaLatLng.Some? then panoramaLatLng else old(panorama)
    {
      phase := Settled;
      if cancelled {
        return;
      }
      if status == "OK" && panoramaLatLng.Some? {
        panorama := panoramaLatLng;
        reported := reported + [panoramaLatLng.value];
      } else {
        reported := reported + [location.value];
      }
    }

    /** The cleanup the effect returns: set `cancelled`, hide and drop the panorama unless `setVisible` throws. */
    method Cleanup(setVisibleThrows: bool)
      requires Valid() && location.Some?
      modifies this
      ensures Valid() && cancelled
      ensures phase == old(phase) && requests == old(requests) && reported == old(reported)
      ensures panorama == if old(panorama).Some? && setVisibleThrows then old(panorama) else None
    {
      cancelled := true;
      if panorama.Some? && !setVisibleThrows {
        panorama := None;
      }
    }
  }

  /** The index of the first `true` in `ready`, or `|ready|` when there is none. */
  function FirstReady(ready: seq<bool>): (k: nat)
    ensures k <= |ready|
    ensures forall i :: 0 <= i < k ==> !ready[i]
    ensures k < |ready| ==> ready[k]
  {
    if ready == [] then 0
    else if ready[0] then 0
    else 1 + FirstReady(ready[1..])
  }

  /** A run without cleanup: `tryInit` polls `ready` (library and container both there) until it
      can request, then the service answers. The result is what `onFound` received and what was requested. */
  method RunUncancelled(location: LatLng, ready: seq<bool>, status: string, panoramaLatLng: Option<LatLng>)
    returns (reported: seq<LatLng>, requests: seq<Request>)
    requires |ready| > 0
    ensures FirstReady(ready) < |ready| ==>
      requests == [Request(location, SearchRadius)] && reported == [Reported(location, status, panoramaLatLng)]
    ensures FirstReady(ready) == |ready| ==> requests == [] && reported == []
  {
    var e := new Effect(Some(location), ready[0], ready[0]);
    var i := 1;
    while i < |ready| && e.phase == Polling
      invariant 1 <= i <= |ready|
      invariant e.Valid() && e.location == Some(location) && !e.cancelled
      invariant e.phase == Polling || e.phase == Awaiting
      invariant e.phase == Polling <==> (forall j :: 0 <= j < i ==> !ready[j])
      invariant e.reported == [] && e.panorama == None
      decreases |ready| - i
    {
      e.TryInit(ready[i], ready[i]);
      i := i + 1;
    }
    if e.phase == Awaiting {
      assert FirstReady(ready) < |ready|;
      e.Callback(status, panoramaLatLng);
    }
    reported, requests := e.reported, e.requests;
  }

  /** A run whose cleanup comes while the request is out: the late callback reports nothing. */
  method RunCancelledInFlight(location: LatLng, status: string, panoramaLatLng: Option<LatLng>, setVisibleThrows: bool)
    returns (reported: seq<LatLng>, panorama: Option<LatLng>)
    ensures reported == [] && panorama == None
  {
    var e := new Effect(Some(location), true, true);
    e.Cleanup(setVisibleThrows);
    e.Callback(status, panoramaLatLng);
    reported, panorama := e.reported, e.panorama;
  }

  /** A run whose cleanup comes while still polling: the next `tryInit` neither requests nor reports. */
  method RunCancelledWhilePolling(location: LatLng, setVisibleThrows: bool, googleLoaded: bool, containerMounted: bool)
    returns (reported: seq<LatLng>, requests: seq<Request>)
    ensures reported == [] && requests == []
  {
    var e := new Effect(Some(location), false, containerMounted);
    e.Cleanup(setVisibleThrows);
    e.TryInit(googleLoaded, containerMounted);
    reported, requests := e.reported, e.requests;
  }

  /** A run after a successful answer and a cleanup: `onFound` got the panorama's coordinate, the ref is clear. */
  method RunFoundThenCleanup(location: LatLng, found: LatLng)
    returns (reported: seq<LatLng>, panorama: Option<LatLng>)
    ensures reported == [found] && panorama == None
  {
    var e := new Effect(Some(location), true, true);
    e.Callback("OK", Some(found));
    e.Cleanup(false);
    reported, panorama := e.reported, e.panorama;
  }

  /** Without a `location` prop nothing is requested and nothing is reported. */
  method RunWithoutLocation(googleLoaded: bool, containerMounted: bool)
    returns (reported: seq<LatLng>, requests: seq<Request>)
    ensures reported == [] && requests == []
  {
    var e := new Effect(None, googleLoaded, containerMounted);
    reported, requests := e.reported, e.requests;
  }
}
