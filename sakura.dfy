/**
 * The `Sakura` petal emitter: the run-state marker on its container, the
 * map from creation timestamp to petal, the container's petal children,
 * and the callbacks that create, sweep and remove petals. Timers, animation
 * frames and DOM queries are the caller's: each callback body is one
 * method call, and the values the host would supply (timestamps, frame
 * handles, random draws, bounding boxes, window sizes, the outcome of the
 * selector lookup) are parameters.
 */
module Sakura {
  import opened Wrappers
  import opened Options
  import opened Random
  import opened Viewport
  import opened Petals
  import opened Elements
  import opened Lifetime

  /** Errors the constructor and `start` throw. */
  datatype Error =
    | NoSelector       // the constructor was called without a selector
    | InvalidSelector  // `document.querySelector` rejected the selector's syntax
    | NoElement        // the selector matched no element, so `this.el` is null
    | AlreadyRunning   // `start` was called while running

  /** What `document.querySelector(selector)` does with the selector. */
  datatype Lookup =
    | BadSyntax  // the string is not a valid selector, so the call throws
    | NoMatch    // no element matches, so the call returns null
    | Match      // the first matching element is returned

  class Emitter {
    /** `this.settings`, the merged options. */
    const settings: Settings
    /**
     * The run-state marker, `data-sakura-anim-id` on the container: the frame
     * handle while running, None once cleared. The source keeps it on the
     * element, so emitters sharing an element share it; here each emitter
     * owns its container and its marker.
     */
    var running: Option<nat>
    /** `this.petalsWeak`: creation timestamp to petal. */
    var petals: map<int, nat>
    /** The petals attached to the container, in document order. */
    var container: seq<nat>
    /** The identity the next created petal element receives. */
    var nextId: nat
    /** Delayed purges scheduled by non-graceful stops that have not yet run. */
    var purgesPending: nat

    /** Element identities are unique and only ever handed out once. */
    ghost predicate Valid()
      reads this
    {
      && Distinct(container)
      && (forall id :: id in container ==> id < nextId)
      && (forall t :: t in petals ==> petals[t] < nextId)
      && Injective(petals)
    }

    /** The state the constructor leaves: merged options, an empty map, the first frame requested. */
    constructor (settings: Settings, handle: nat)
      ensures Valid()
      ensures this.settings == settings && running == Some(handle)
      ensures petals == map[] && container == [] && nextId == 0 && purgesPending == 0
    {
      this.settings := settings;
      running := Some(handle);
      petals := map[];
      container := [];
      nextId := 0;
      purgesPending := 0;
    }

    /** `element.remove()` on a petal: detaches it if it is attached, otherwise does nothing. */
    method Detach(id: nat)
      requires Valid()
      modifies this`container
      ensures Valid()
      ensures container == Without(old(container), {id})
      ensures id !in container
    {
      container := Without(container, {id});
    }

    /**
     * `start`: requests a frame and records its handle when stopped; throws
     * when already running, leaving the handle as it was.
     */
    method Start(handle: nat) returns (r: Outcome<Error>)
      requires Valid()
      modifies this`running
      ensures Valid()
      ensures old(running).None? ==> r == Pass && running == Some(handle)
      ensures old(running).Some? ==> r == Fail(AlreadyRunning) && running == old(running)
    {
      if running.None? {
        running := Some(handle);
        r := Pass;
      } else {
        r := Fail(AlreadyRunning);
      }
    }

    /**
     * `stop(graceful)`: cancels the recorded frame, if any, and clears the
     * marker; a non-graceful stop also schedules the purge of every petal.
     * `cancelled` is the handle passed to `cancelAnimationFrame`.
     */
    method Stop(graceful: bool) returns (cancelled: Option<nat>)
      requires Valid()
      modifies this`running, this`purgesPending
      ensures Valid()
      ensures cancelled == old(running)
      ensures running == None
      ensures purgesPending == old(purgesPending) + if graceful then 0 else 1
    {
      cancelled := running;
      if running.Some? {
        running := None;
      }
      if !graceful {
        purgesPending := purgesPending + 1;
      }
    }

    /** The purge a non-graceful stop schedules: removes the first petal until none is left. */
    method FirePurge()
      requires Valid() && purgesPending > 0
      modifies this`container, this`purgesPending
      ensures Valid()
      ensures container == [] && purgesPending == old(purgesPending) - 1
    {
      purgesPending := purgesPending - 1;
      while |container| > 0
        invariant Valid()
        invariant purgesPending == old(purgesPending) - 1
        decreases |container|
      {
        WithoutFirst(container);
        Detach(container[0]);
      }
    }

    /**
     * The one-second lifetime tick: does nothing when `lifeTime` is 0;
     * otherwise removes from the container every petal whose
     * `timestamp + lifeTime < now`, then deletes those timestamps from the map.
     */
    method Sweep(now: int)
      requires Valid()
      modifies this`petals, this`container
      ensures Valid()
      ensures settings.lifeTime == 0 ==> petals == old(petals) && container == old(container)
      ensures settings.lifeTime != 0 ==>
        && petals == Survivors(old(petals), settings.lifeTime, now)
        && container == Without(old(container), ExpiredPetals(old(petals), settings.lifeTime, now))
      ensures forall t :: t in petals ==> (petals[t] in container <==> petals[t] in old(container))
    {
      var lifeTime := settings.lifeTime;
      if lifeTime == 0 {
        return;
      }
      var keysForRemove := DetachExpired(lifeTime, now);
      ghost var removed := set key | key in keysForRemove;
      DeleteKeys(keysForRemove);
      assert forall key :: key in removed <==> key in Expired(old(petals), lifeTime, now);
      assert removed == Expired(old(petals), lifeTime, now);
      DeleteExpired(old(petals), lifeTime, now);
      SurvivorsNotRemoved(old(petals), lifeTime, now);
    }

    /**
     * The tick's first phase: walks the timestamp map, detaches every petal
     * with `timestamp + lifeTime < now` and collects its timestamp.
     */
    method DetachExpired(lifeTime: int, now: int) returns (keysForRemove: seq<int>)
      requires Valid()
      modifies this`container
      ensures Valid()
      ensures forall key :: key in keysForRemove <==> key in Expired(petals, lifeTime, now)
      ensures container == Without(old(container), ExpiredPetals(petals, lifeTime, now))
    {
      keysForRemove := [];
      var unvisited := petals.Keys;
      ghost var gone: set<nat> := {};
      WithoutAbsent(container, gone);
      while unvisited != {}
        invariant Valid()
        invariant unvisited <= petals.Keys
        invariant forall key :: key in keysForRemove <==> key in Expired(petals, lifeTime, now) && key !in unvisited
        invariant gone == set key | key in keysForRemove :: petals[key]
        invariant container == Without(old(container), gone)
        decreases unvisited
      {
        NonEmptyHasKey(unvisited);
        var key :| key in unvisited;
        if key + lifeTime < now {
          keysForRemove := keysForRemove + [key];
          Detach(petals[key]);
          WithoutTwice(old(container), gone, {petals[key]});
          gone := gone + {petals[key]};
        }
        unvisited := unvisited - {key};
      }
      assert gone == ExpiredPetals(petals, lifeTime, now);
    }

    /** The tick's second phase: `Map.delete` of each collected timestamp. */
    method DeleteKeys(keys: seq<int>)
      requires Valid()
      modifies this`petals
      ensures Valid()
      ensures petals == old(petals) - set key | key in keys
    {
      var i := 0;
      while i < |keys|
        invariant 0 <= i <= |keys|
        invariant Valid()
        invariant petals == old(petals) - set key | key in keys[..i]
      {
        assert keys[..i + 1] == keys[..i] + [keys[i]];
        petals := petals - {keys[i]};
        i := i + 1;
      }
      assert keys[..i] == keys;
    }

    /**
     * `createPetal`: re-arms itself when running (checked first), creates a
     * petal element, styles it from the draws, records it under `now`
     * (replacing an entry with the same timestamp) and appends it to the
     * container. When the class name is rejected or `colors` is empty it
     * throws before recording or appending anything. `rearmed` says whether the next call was scheduled.
     */
    method CreatePetal(now: int, fallTime: real, d: Draws) returns (rearmed: bool, r: Result<Petal, PetalError>)
      requires Valid() && ValidDraws(d)
      modifies this`petals, this`container, this`nextId
      ensures Valid()
      ensures rearmed <==> running.Some?
      ensures r == Build(settings, fallTime, d)
      ensures nextId == old(nextId) + 1
      ensures r.Failure? ==> petals == old(petals) && container == old(container)
      ensures r.Success? ==> petals == old(petals)[now := old(nextId)]
      ensures r.Success? ==> container == old(container) + [old(nextId)] && old(nextId) !in old(container)
    {
      rearmed := running.Some?;
      var petal := nextId;
      nextId := nextId + 1;
      r := Build(settings, fallTime, d);
      if r.Success? {
        petals := petals[now := petal];
        AppendFresh(container, petal);
        container := container + [petal];
      }
    }

    /**
     * The animation-end and animation-iteration handlers: remove the petal
     * only when its bounding box has left the viewport, whose size is the
     * window's, or the document element's where the window reports 0.
     */
    method OnAnimationBoundary(id: nat, box: Rect, innerWidth: int, innerHeight: int, clientWidth: int, clientHeight: int)
      requires Valid()
      modifies this`container
      ensures Valid()
      ensures InViewport(box, WindowView(innerWidth, innerHeight, clientWidth, clientHeight)) ==>
        container == old(container)
      ensures !InViewport(box, WindowView(innerWidth, innerHeight, clientWidth, clientHeight)) ==>
        container == Without(old(container), {id})
    {
      if !InViewport(box, WindowView(innerWidth, innerHeight, clientWidth, clientHeight)) {
        Detach(id);
      }
    }
  }

  /**
   * The `Sakura` constructor: throws without a selector, or with one
   * `querySelector` rejects, before anything is merged or scheduled; throws
   * when the selector matches no element;
   * otherwise merges the options into the defaults and starts running under
   * the first frame's handle.
   */
  method Create(selector: Option<string>, lookup: Lookup, options: Option<map<string, Value>>, handle: nat)
    returns (r: Result<Emitter, Error>)
    requires options.Some? ==> WellKinded(options.value)
    ensures selector.None? ==> r == Failure(NoSelector)
    ensures selector.Some? && lookup == BadSyntax ==> r == Failure(InvalidSelector)
    ensures selector.Some? && lookup == NoMatch ==> r == Failure(NoElement)
    ensures selector.Some? && lookup == Match ==> r.Success?
    ensures r.Success? ==>
      && fresh(r.value) && r.value.Valid()
      && r.value.settings == MergedSettings(options)
      && r.value.running == Some(handle)
      && r.value.petals == map[] && r.value.container == []
      && r.value.nextId == 0 && r.value.purgesPending == 0
  {
    if selector.None? {
      return Failure(NoSelector);
    }
    if lookup == BadSyntax {
      return Failure(InvalidSelector);
    }
    var merged := Extend(Defaults(), options);
    MergeKeepsKinds(options);
    if lookup == NoMatch {
      return Failure(NoElement);
    }
    var emitter := new Emitter(ToSettings(merged), handle);
    return Success(emitter);
  }
}
