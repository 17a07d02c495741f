/**
 * The emitter's configuration: the default option object, the shallow
 * merge `extend` that folds the caller's overrides into it, and the typed
 * view of the merged object that the rest of the emitter reads.
 */
module Options {
  import opened Wrappers

  /** One entry of the `colors` option: a linear-gradient descriptor. */
  datatype Color = Color(gradientStart: string, gradientEnd: string, degree: int)

  /** The JavaScript values an option may hold. */
  datatype Value = Undefined | Num(n: int) | Text(s: string) | Palette(colors: seq<Color>)

  /** The default option object of the `Sakura` constructor. */
  function Defaults(): map<string, Value>
  {
    map[
      "className" := Text("sakura"),
      "fallSpeed" := Num(1),
      "maxSize" := Num(14),
      "minSize" := Num(10),
      "delay" := Num(300),
      "colors" := Palette([Color("rgba(255, 183, 197, 0.9)", "rgba(255, 197, 208, 0.9)", 120)]),
      "lifeTime" := Num(0)
    ]
  }

  /** `newObj && hasOwnProperty(newObj, key)`: a missing override object owns no key. */
  predicate Overrides<V>(newObj: Option<map<string, V>>, key: string)
  {
    newObj.Some? && key in newObj.value
  }

  /** The object `extend` produces, defined key by key. */
  function Merge<V>(originalObj: map<string, V>, newObj: Option<map<string, V>>): map<string, V>
  {
    map key | key in originalObj :: if Overrides(newObj, key) then newObj.value[key] else originalObj[key]
  }

  /**
   * `extend`: walks the keys of `originalObj` and, for each key the
   * override object owns, replaces the value with the override's.
   */
  method Extend<V>(originalObj: map<string, V>, newObj: Option<map<string, V>>) returns (r: map<string, V>)
    ensures r.Keys == originalObj.Keys
    ensures forall key :: key in r ==> r[key] == if Overrides(newObj, key) then newObj.value[key] else originalObj[key]
    ensures r == Merge(originalObj, newObj)
  {
    r := originalObj;
    var keys := originalObj.Keys;
    while keys != {}
      invariant keys <= originalObj.Keys
      invariant r.Keys == originalObj.Keys
      invariant forall key :: key in r && key !in keys ==>
        r[key] == if Overrides(newObj, key) then newObj.value[key] else originalObj[key]
      invariant forall key :: key in keys ==> r[key] == originalObj[key]
      decreases keys
    {
      var key :| key in keys;
      if newObj.Some? && key in newObj.value {
        r := r[key := newObj.value[key]];
      }
      keys := keys - {key};
    }
  }

  /** Keys that only the override object has never reach the result. */
  lemma MergeIgnoresUnknownKeys<V>(originalObj: map<string, V>, newObj: Option<map<string, V>>, key: string)
    requires key !in originalObj
    ensures key !in Merge(originalObj, newObj)
  {
  }

  /** A missing override object leaves the defaults as they are. */
  lemma MergeWithoutOverrides<V>(originalObj: map<string, V>)
    ensures Merge(originalObj, None) == originalObj
  {
  }

  /** Applying the same overrides a second time changes nothing. */
  lemma MergeIdempotent<V>(originalObj: map<string, V>, newObj: Option<map<string, V>>)
    ensures Merge(Merge(originalObj, newObj), newObj) == Merge(originalObj, newObj)
  {
  }

  /** Two values of the same JavaScript kind. */
  predicate SameKind(a: Value, b: Value)
  {
    (a.Num? && b.Num?) || (a.Text? && b.Text?) || (a.Palette? && b.Palette?)
  }

  /** An override object whose known keys hold values of the defaults' kinds. */
  predicate WellKinded(newObj: map<string, Value>)
  {
    forall key :: key in newObj && key in Defaults() ==> SameKind(newObj[key], Defaults()[key])
  }

  /** A complete option object: every default key, each holding a value of its default's kind. */
  predicate Complete(settings: map<string, Value>)
  {
    && settings.Keys == Defaults().Keys
    && settings["className"].Text?
    && settings["fallSpeed"].Num?
    && settings["maxSize"].Num?
    && settings["minSize"].Num?
    && settings["delay"].Num?
    && settings["colors"].Palette?
    && settings["lifeTime"].Num?
  }

  /** Merging well-kinded overrides into the defaults gives a complete option object. */
  lemma MergeKeepsKinds(newObj: Option<map<string, Value>>)
    requires newObj.Some? ==> WellKinded(newObj.value)
    ensures Complete(Merge(Defaults(), newObj))
  {
    var d, m := Defaults(), Merge(Defaults(), newObj);
    assert SameKind(m["className"], d["className"]);
    assert SameKind(m["fallSpeed"], d["fallSpeed"]);
    assert SameKind(m["maxSize"], d["maxSize"]);
    assert SameKind(m["minSize"], d["minSize"]);
    assert SameKind(m["delay"], d["delay"]);
    assert SameKind(m["colors"], d["colors"]);
    assert SameKind(m["lifeTime"], d["lifeTime"]);
  }

  /** The merged options as the emitter reads them (`this.settings`). */
  datatype Settings = Settings(
    className: string,
    fallSpeed: int,
    maxSize: int,
    minSize: int,
    delay: int,
    colors: seq<Color>,
    lifeTime: int)

  /** Reads a complete option object into its typed fields. */
  function ToSettings(settings: map<string, Value>): Settings
    requires Complete(settings)
  {
    Settings(
      settings["className"].s,
      settings["fallSpeed"].n,
      settings["maxSize"].n,
      settings["minSize"].n,
      settings["delay"].n,
      settings["colors"].colors,
      settings["lifeTime"].n)
  }

  /** `this.settings`: the defaults merged with the overrides, read as typed fields. */
  function MergedSettings(newObj: Option<map<string, Value>>): Settings
    requires newObj.Some? ==> WellKinded(newObj.value)
  {
    MergeKeepsKinds(newObj);
    ToSettings(Merge(Defaults(), newObj))
  }

  /** Without overrides the emitter runs on the documented defaults. */
  lemma DefaultSettings()
    ensures Complete(Defaults())
    ensures MergedSettings(None) ==
      Settings("sakura", 1, 14, 10, 300, [Color("rgba(255, 183, 197, 0.9)", "rgba(255, 197, 208, 0.9)", 120)], 0)
  {
    MergeWithoutOverrides(Defaults());
  }

  /**
   * Each setting the emitter reads is the override's value when the
   * override object owns that key, and the documented default otherwise.
   */
  lemma SettingsFromOverrides(newObj: Option<map<string, Value>>)
    requires newObj.Some? ==> WellKinded(newObj.value)
    ensures var s := MergedSettings(newObj);
      && (if Overrides(newObj, "className") then Text(s.className) == newObj.value["className"] else s.className == "sakura")
      && (if Overrides(newObj, "fallSpeed") then Num(s.fallSpeed) == newObj.value["fallSpeed"] else s.fallSpeed == 1)
      && (if Overrides(newObj, "maxSize") then Num(s.maxSize) == newObj.value["maxSize"] else s.maxSize == 14)
      && (if Overrides(newObj, "minSize") then Num(s.minSize) == newObj.value["minSize"] else s.minSize == 10)
      && (if Overrides(newObj, "delay") then Num(s.delay) == newObj.value["delay"] else s.delay == 300)
      && (if Overrides(newObj, "colors") then Palette(s.colors) == newObj.value["colors"]
          else s.colors == [Color("rgba(255, 183, 197, 0.9)", "rgba(255, 197, 208, 0.9)", 120)])
      && (if Overrides(newObj, "lifeTime") then Num(s.lifeTime) == newObj.value["lifeTime"] else s.lifeTime == 0)
  {
  }
}
