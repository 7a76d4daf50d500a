/**
 Overrides of a task manifest: a nested dictionary of replacements is written into a nested dictionary in
 place, and a dictionary of the same shape records what each replaced value was and became.
 */
module NestedOverrides {
  import opened Wrappers
  import opened ReplayNormalForm

  // ---------------------------------------------------------------- as functions

  /** d.get(key). */
  function Get(v: Json, key: string): Option<Json> {
    if v.JObject? && key in v.fields then Some(v.fields[key]) else None
  }

  predicate IsObject(v: Option<Json>) {
    v.Some? && v.value.JObject?
  }

  /** An override that is itself an object descends; it needs an object to descend into. */
  predicate Applies(source: Option<Json>, overrides: Json)
    decreases overrides
  {
    overrides.JObject? ==>
      && IsObject(source)
      && forall key :: key in overrides.fields ==> Applies(Get(source.value, key), overrides.fields[key])
  }

  /** What stands in a slot after its override was applied. */
  function Overridden(source: Option<Json>, overrides: Json): Json
    requires Applies(source, overrides)
    decreases overrides
  {
    if !overrides.JObject? then overrides
    else JObject(source.value.fields + map key | key in overrides.fields :: Overridden(Get(source.value, key), overrides.fields[key]))
  }

  datatype Diff = Changed(from: Json, to: Json) | Nested(diffs: map<string, Diff>)

  /** source.get(key) as it is recorded: a missing value and a null one look the same. */
  function Recorded(v: Option<Json>): Json {
    if v.Some? then v.value else JNull
  }

  /** _nested_override_diff. */
  function OverrideDiff(source: Option<Json>, overrides: Json): Option<Diff>
    decreases overrides
  {
    if !overrides.JObject? then Some(Changed(Recorded(source), overrides))
    else if !IsObject(source) then None
    else if forall key :: key in overrides.fields ==> OverrideDiff(Get(source.value, key), overrides.fields[key]).Some? then
      Some(Nested(map key | key in overrides.fields :: OverrideDiff(Get(source.value, key), overrides.fields[key]).value))
    else None
  }

  /** Applying and recording succeed on the same inputs. */
  lemma {:induction false} DiffExistsIffApplies(source: Option<Json>, overrides: Json)
    ensures OverrideDiff(source, overrides).Some? <==> Applies(source, overrides)
    decreases overrides
  {
    if overrides.JObject? && IsObject(source) {
      forall key | key in overrides.fields
        ensures OverrideDiff(Get(source.value, key), overrides.fields[key]).Some? <==> Applies(Get(source.value, key), overrides.fields[key])
      {
        DiffExistsIffApplies(Get(source.value, key), overrides.fields[key]);
      }
    }
  }

  // ---------------------------------------------------------------- what overriding does, path by path

  type Route = seq<string>

  /** The value a route of keys leads to. */
  function Lookup(v: Option<Json>, route: Route): Option<Json>
    decreases |route|
  {
    if v.None? || |route| == 0 then v else Lookup(Get(v.value, route[0]), route[1..])
  }

  datatype Touch = Untouched | Replaced(value: Json, rest: Route) | PassedThrough

  /** Where a route ends up among the overrides: beside them, at or below a leaf, or at an inner node. */
  function TouchOf(overrides: Json, route: Route): Touch
    decreases |route|
  {
    if !overrides.JObject? then Replaced(overrides, route)
    else if |route| == 0 then PassedThrough
    else if route[0] !in overrides.fields then Untouched
    else TouchOf(overrides.fields[route[0]], route[1..])
  }

  /** Leaves hold the override, everything beside them what it held before, inner nodes stay objects. */
  lemma {:induction false} OverridesLand(source: Option<Json>, overrides: Json, route: Route)
    requires Applies(source, overrides)
    ensures var after := Some(Overridden(source, overrides));
      match TouchOf(overrides, route)
      case Untouched => Lookup(after, route) == Lookup(source, route)
      case Replaced(value, rest) => Lookup(after, route) == Lookup(Some(value), rest)
      case PassedThrough => IsObject(Lookup(source, route)) && IsObject(Lookup(after, route))
    decreases |route|
  {
    if overrides.JObject? && |route| > 0 && route[0] in overrides.fields {
      OverridesLand(Get(source.value, route[0]), overrides.fields[route[0]], route[1..]);
    }
  }

  // ---------------------------------------------------------------- what the diff records

  /** Writes the recorded `from` values back. */
  function Restored(after: Option<Json>, d: Diff): Json
    decreases d
  {
    match d
    case Changed(from, _) => from
    case Nested(diffs) =>
      if IsObject(after) then JObject(after.value.fields + map key | key in diffs :: Restored(Get(after.value, key), diffs[key]))
      else JNull
  }

  /** Every replaced key was there before. */
  predicate LeavesExisted(source: Option<Json>, overrides: Json)
    decreases overrides
  {
    if overrides.JObject? then
      IsObject(source) && forall key :: key in overrides.fields ==> LeavesExisted(Get(source.value, key), overrides.fields[key])
    else source.Some?
  }

  /** A value that differs from an object in overridden keys only is that object exactly when those keys agree. */
  lemma SameFieldsIff(source: Json, overrides: Json, restored: Json)
    requires source.JObject? && overrides.JObject? && restored.JObject?
    requires restored.fields.Keys == source.fields.Keys + overrides.fields.Keys
    requires forall key :: key in source.fields && key !in overrides.fields ==> restored.fields[key] == source.fields[key]
    ensures restored == source <==> forall key :: key in overrides.fields ==> Some(restored.fields[key]) == Get(source, key)
  {
    if forall key :: key in overrides.fields ==> Some(restored.fields[key]) == Get(source, key) {
      assert restored.fields.Keys == source.fields.Keys;
      assert restored.fields == source.fields;
    }
  }

  /** The record undoes the overrides exactly when no override added a key: an added key would stay behind as null. */
  lemma {:induction false} DiffUndoesOverrideIff(source: Option<Json>, overrides: Json)
    requires Applies(source, overrides)
    ensures OverrideDiff(source, overrides).Some?
    ensures Some(Restored(Some(Overridden(source, overrides)), OverrideDiff(source, overrides).value)) == source
       <==> LeavesExisted(source, overrides)
    decreases overrides
  {
    DiffExistsIffApplies(source, overrides);
    if overrides.JObject? {
      var after, diffs := Overridden(source, overrides), OverrideDiff(source, overrides).value.diffs;
      var restored := Restored(Some(after), Nested(diffs));
      forall key | key in overrides.fields
        ensures restored.fields[key] == Restored(Get(after, key), diffs[key])
        ensures Some(restored.fields[key]) == Get(source.value, key) <==> LeavesExisted(Get(source.value, key), overrides.fields[key])
      {
        DiffUndoesOverrideIff(Get(source.value, key), overrides.fields[key]);
      }
      SameFieldsIff(source.value, overrides, restored);
    }
  }

  /** On its own the recording helper cannot tell a missing key from a null one, so an added key would stay behind. */
  lemma AddedKeyStaysBehind(key: string, value: Json)
    requires !value.JObject?
    ensures var source, overrides := JObject(map[]), JObject(map[key := value]);
      && Applies(Some(source), overrides) && OverrideDiff(Some(source), overrides).Some?
      && Restored(Some(Overridden(Some(source), overrides)), OverrideDiff(Some(source), overrides).value) == JObject(map[key := JNull])
  {
    var source, overrides := JObject(map[]), JObject(map[key := value]);
    assert Applies(Get(source, key), overrides.fields[key]);
    DiffExistsIffApplies(Some(source), overrides);
    var diff := OverrideDiff(Some(source), overrides).value;
    assert diff.diffs[key] == Changed(JNull, value);
    var after := Overridden(Some(source), overrides);
    assert Restored(Some(after), diff).fields == map[key := JNull];
  }

  // ---------------------------------------------------------------- the overrides an audit case may ask for

  /** ManifestOverrides: one new timeout and nothing else. */
  function TimeoutOverride(seconds: int): Json {
    JObject(map["limits" := JObject(map["timeout_seconds" := JNumber(seconds)])])
  }

  /** A manifest that was loaded before the case runs: its limits name a timeout. */
  predicate HasTimeout(manifest: Json) {
    IsObject(Get(manifest, "limits")) && Get(Get(manifest, "limits").value, "timeout_seconds").Some?
  }

  /**
   For every override the case schema admits and every manifest that loads: applying succeeds and changes the timeout
   alone, recording succeeds, and the record undoes the override.
   */
  lemma AdmittedOverrideIsUndone(manifest: Json, seconds: int, route: Route)
    requires HasTimeout(manifest)
    ensures Applies(Some(manifest), TimeoutOverride(seconds)) && OverrideDiff(Some(manifest), TimeoutOverride(seconds)).Some?
    ensures var after := Overridden(Some(manifest), TimeoutOverride(seconds));
      && Lookup(Some(after), ["limits", "timeout_seconds"]) == Some(JNumber(seconds))
      && (!(route <= ["limits", "timeout_seconds"]) && !(["limits", "timeout_seconds"] <= route) ==>
            Lookup(Some(after), route) == Lookup(Some(manifest), route))
      && Restored(Some(after), OverrideDiff(Some(manifest), TimeoutOverride(seconds)).value) == manifest
  {
    var source, overrides := Some(manifest), TimeoutOverride(seconds);
    var limits := Get(manifest, "limits");
    TimeoutApplies(limits.value, seconds);
    DiffUndoesOverrideIff(source, overrides);
    TimeoutIsTouched(seconds);
    OverridesLand(source, overrides, ["limits", "timeout_seconds"]);
    OverridesLand(source, overrides, route);
    if !(route <= ["limits", "timeout_seconds"]) && !(["limits", "timeout_seconds"] <= route) {
      OthersAreUntouched(seconds, route);
    }
  }

  lemma TimeoutApplies(limits: Json, seconds: int)
    requires IsObject(Some(limits)) && Get(limits, "timeout_seconds").Some?
    ensures var inner := JObject(map["timeout_seconds" := JNumber(seconds)]);
      Applies(Some(limits), inner) && LeavesExisted(Some(limits), inner)
  {
  }

  lemma TimeoutIsTouched(seconds: int)
    ensures TouchOf(TimeoutOverride(seconds), ["limits", "timeout_seconds"]) == Replaced(JNumber(seconds), [])
  {
    var route := ["limits", "timeout_seconds"];
    assert route[1..] == ["timeout_seconds"] && route[1..][1..] == [];
    assert TouchOf(JNumber(seconds), []) == Replaced(JNumber(seconds), []);
  }

  lemma OthersAreUntouched(seconds: int, route: Route)
    requires !(route <= ["limits", "timeout_seconds"]) && !(["limits", "timeout_seconds"] <= route)
    ensures TouchOf(TimeoutOverride(seconds), route).Untouched?
  {
    if |route| >= 2 && route[0] == "limits" {
      assert route[1..][0] == route[1] && route[..2] == [route[0], route[1]];
    }
  }
}
