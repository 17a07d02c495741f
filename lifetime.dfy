/**
 * The lifetime sweep's specification: which entries of the
 * creation-timestamp map (`petalsWeak`) a tick at time `now` drops.
 */
module Lifetime {

  /** Distinct timestamps map to distinct petals. */
  predicate Injective(petals: map<int, nat>)
  {
    forall t1, t2 :: t1 in petals && t2 in petals && t1 != t2 ==> petals[t1] != petals[t2]
  }

  /** The timestamps whose petals have outlived `lifeTime` at `now`. */
  function Expired(petals: map<int, nat>, lifeTime: int, now: int): set<int>
  {
    set key | key in petals && key + lifeTime < now
  }

  /** The petals created at the expired timestamps. */
  function ExpiredPetals(petals: map<int, nat>, lifeTime: int, now: int): set<nat>
  {
    set key | key in petals && key + lifeTime < now :: petals[key]
  }

  /** The entries a sweep keeps: those with `key + lifeTime >= now`, values unchanged. */
  function Survivors(petals: map<int, nat>, lifeTime: int, now: int): map<int, nat>
  {
    map key | key in petals && key + lifeTime >= now :: petals[key]
  }

  /** A non-empty set of timestamps has a member to visit next. */
  lemma NonEmptyHasKey(keys: set<int>)
    requires keys != {}
    ensures exists key :: key in keys
  {
    if forall key :: key !in keys {
      assert false;
    }
  }

  /** Deleting the expired keys leaves exactly the survivors. */
  lemma DeleteExpired(petals: map<int, nat>, lifeTime: int, now: int)
    ensures petals - Expired(petals, lifeTime, now) == Survivors(petals, lifeTime, now)
  {
  }

  /** Every entry is either kept or expired, never both. */
  lemma {:induction false} SweepPartitions(petals: map<int, nat>, lifeTime: int, now: int)
    ensures Survivors(petals, lifeTime, now).Keys !! Expired(petals, lifeTime, now)
    ensures |Survivors(petals, lifeTime, now)| + |Expired(petals, lifeTime, now)| == |petals|
  {
    var kept := Survivors(petals, lifeTime, now).Keys;
    var gone := Expired(petals, lifeTime, now);
    assert kept + gone == petals.Keys;
    assert |kept + gone| == |kept| + |gone|;
  }

  /** A surviving petal is never one of the petals the sweep removes. */
  lemma SurvivorsNotRemoved(petals: map<int, nat>, lifeTime: int, now: int)
    requires Injective(petals)
    ensures forall t :: t in Survivors(petals, lifeTime, now) ==>
      Survivors(petals, lifeTime, now)[t] !in ExpiredPetals(petals, lifeTime, now)
  {
  }

  /** A sweep at `now` followed by one at a later time is the later sweep alone. */
  lemma LaterSweepSubsumes(petals: map<int, nat>, lifeTime: int, now: int, later: int)
    requires now <= later
    ensures Survivors(Survivors(petals, lifeTime, now), lifeTime, later) == Survivors(petals, lifeTime, later)
  {
  }

  /** `Map.set` adds at most one entry: none when the timestamp is already a key. */
  lemma SetGrowsByAtMostOne(petals: map<int, nat>, now: int, petal: nat)
    ensures |petals[now := petal]| == if now in petals then |petals| else |petals| + 1
  {
  }
}
