/** Clients of the emitter: what a caller can conclude from the contracts alone. */
module Scenarios {
  import opened Wrappers
  import opened Options
  import opened Petals
  import opened Sakura
  import Lifetime

  /** Constructing without options gives a running emitter on the documented defaults. */
  method DefaultScenario() returns (e: Emitter)
    ensures e.Valid() && e.running == Some(1) && e.container == []
    ensures e.settings.className == "sakura" && ValidToken(e.settings.className)
    ensures e.settings.minSize == 10 && e.settings.maxSize == 14 && |e.settings.colors| == 1
  {
    var created := Create(Some("body"), Match, None, 1);
    e := created.value;
    DefaultSettings();
    DefaultClassNameAccepted();
  }

  /**
   * A second `start` is refused, and a graceful stop leaves the three petals
   * created before it attached.
   */
  method GracefulStopScenario(e: Emitter, fallTime: real, d: Draws)
    requires e.Valid() && ValidDraws(d) && e.running == Some(1) && e.container == []
    requires ValidToken(e.settings.className) && |e.settings.colors| > 0
    modifies e
  {
    var again := e.Start(2);
    assert again == Fail(AlreadyRunning) && e.running == Some(1);
    var first := e.nextId;
    var rearmed, p := e.CreatePetal(100, fallTime, d);
    assert rearmed && p.Success?;
    rearmed, p := e.CreatePetal(200, fallTime, d);
    rearmed, p := e.CreatePetal(300, fallTime, d);
    assert e.container == [first, first + 1, first + 2];
    var cancelled := e.Stop(true);
    assert cancelled == Some(1) && e.container == [first, first + 1, first + 2];
  }

  /**
   * Stopping twice cancels the frame once, a petal created after the stop
   * does not re-arm, and the purge of a non-graceful stop removes every petal.
   */
  method PurgeScenario(e: Emitter, fallTime: real, d: Draws)
    requires e.Valid() && ValidDraws(d)
    modifies e
  {
    var first := e.Stop(true);
    var second := e.Stop(false);
    assert second == None && e.purgesPending >= 1;
    var rearmed, p := e.CreatePetal(400, fallTime, d);
    assert !rearmed;
    e.FirePurge();
    assert e.container == [];
  }

  /** Constructing with `{ lifeTime: 500, delay: 0 }` gives a running emitter with those settings. */
  method ConfiguredScenario() returns (e: Emitter)
    ensures e.Valid() && e.settings.lifeTime == 500 && e.settings.delay == 0
  {
    var options := map["lifeTime" := Num(500), "delay" := Num(0)];
    var created := Create(Some("body"), Match, Some(options), 1);
    e := created.value;
    SettingsFromOverrides(Some(options));
    assert e.running == Some(1) && e.container == [];
  }

  /**
   * With `lifeTime = 500`, a tick 400 ms after a petal was created keeps it,
   * and a tick 1600 ms after removes it from the container and the map.
   */
  method LifetimeScenario(e: Emitter, fallTime: real, d: Draws)
    requires e.Valid() && ValidDraws(d) && e.settings.lifeTime == 500
    requires ValidToken(e.settings.className) && |e.settings.colors| > 0
    requires e.petals == map[] && e.container == []
    modifies e
  {
    var id := e.nextId;
    var rearmed, p := e.CreatePetal(1000, fallTime, d);
    assert e.petals == map[1000 := id] && e.container == [id];
    e.Sweep(1400);
    assert e.petals == map[1000 := id] && e.container == [id];
    assert 1000 in e.petals && e.petals[1000] == id;
    assert id in Lifetime.ExpiredPetals(e.petals, 500, 2600);
    e.Sweep(2600);
    assert e.petals == map[] && e.container == [];
  }

  /** With the default `lifeTime = 0`, no tick ever removes a petal. */
  method NoLifetimeScenario(fallTime: real, d: Draws, now: int)
    requires ValidDraws(d)
  {
    var plain := Create(Some("body"), Match, None, 1);
    var f := plain.value;
    DefaultSettings();
    DefaultClassNameAccepted();
    var rearmed, p := f.CreatePetal(1000, fallTime, d);
    f.Sweep(now);
    assert f.petals == map[1000 := 0] && f.container == [0];
  }
}
