/** A loaded manifest as the dictionaries it is made of, overridden in place. */
module ManifestInPlace {
  import opened Wrappers
  import opened ReplayNormalForm
  import opened NestedOverrides

  datatype Entry = Plain(value: Json) | Child(node: Mapping)

  class Mapping {
    var entries: map<string, Entry>
    ghost var Repr: set<Mapping>
    ghost var fields: map<string, Json>

    /** The dictionaries below form a tree, and `fields` is the value it stands for. */
    ghost predicate Valid()
      reads this, Repr
      decreases Repr
    {
      && this in Repr
      && entries.Keys == fields.Keys
      && (forall key :: key in entries && entries[key].Plain? ==> !entries[key].value.JObject? && fields[key] == entries[key].value)
      && (forall key :: key in entries && entries[key].Child? ==>
            && entries[key].node in Repr && entries[key].node.Repr <= Repr && this !in entries[key].node.Repr
            && entries[key].node.Valid() && fields[key] == JObject(entries[key].node.fields))
      && (forall k1, k2 :: k1 in entries && k2 in entries && k1 != k2 && entries[k1].Child? && entries[k2].Child? ==>
            entries[k1].node.Repr !! entries[k2].node.Repr)
    }

    constructor ()
      ensures Valid() && Repr == {this} && fields == map[]
    {
      entries, Repr, fields := map[], {this}, map[];
    }

    /** target[key] = value, for anything but an object. */
    method Put(key: string, value: Json)
      requires Valid() && !value.JObject?
      modifies this
      ensures Valid() && Repr == old(Repr) && fields == old(fields)[key := value]
      ensures forall k :: k in old(entries) && k != key ==> k in entries && entries[k] == old(entries)[k]
    {
      entries := entries[key := Plain(value)];
      fields := fields[key := value];
    }

    /** One key of the overrides: descend or replace.  False when there is no object to descend into. */
    method ApplyOne(key: string, v: Json) returns (ok: bool)
      requires Valid()
      modifies Repr
      ensures Valid() && Repr == old(Repr)
      ensures ok <==> Applies(old(Get(JObject(fields), key)), v)
      ensures ok ==> fields == old(fields)[key := Overridden(old(Get(JObject(fields), key)), v)]
      decreases v, 1
    {
      if !v.JObject? {
        Put(key, v);
        return true;
      }
      if key !in entries || !entries[key].Child? {
        return false;
      }
      var child := entries[key].node;
      ok := child.Apply(v);
      fields := fields[key := JObject(child.fields)];
    }

    /** _apply_nested_overrides: key by key, in whatever order the overrides list them, until one fails. */
    method Apply(overrides: Json) returns (ok: bool)
      requires Valid() && overrides.JObject?
      modifies Repr
      ensures Valid() && Repr == old(Repr)
      ensures ok <==> Applies(Some(JObject(old(fields))), overrides)
      ensures ok ==> JObject(fields) == Overridden(Some(JObject(old(fields))), overrides)
      decreases overrides, 0
    {
      var left := overrides.fields.Keys;
      ghost var source := JObject(fields);
      NothingSoFar(source, overrides);
      while left != {}
        invariant left <= overrides.fields.Keys
        invariant Valid() && Repr == old(Repr)
        invariant AppliesExcept(source, overrides, left) && fields == OverriddenExcept(source, overrides, left)
        decreases |left|
      {
        var key :| key in left;
        StillToDo(source, overrides, left, key);
        ok := ApplyOne(key, overrides.fields[key]);
        if !ok {
          return;
        }
        OneMore(source, overrides, left, key);
        left := left - {key};
      }
      SoFarAll(source, overrides);
      ok := true;
    }
  }

  /** The keys already dealt with could be. */
  predicate AppliesExcept(source: Json, overrides: Json, left: set<string>)
    requires source.JObject? && overrides.JObject?
  {
    forall key :: key in overrides.fields && key !in left ==> Applies(Get(source, key), overrides.fields[key])
  }

  function OverriddenExcept(source: Json, overrides: Json, left: set<string>): map<string, Json>
    requires source.JObject? && overrides.JObject? && AppliesExcept(source, overrides, left)
  {
    source.fields + map key | key in overrides.fields && key !in left :: Overridden(Get(source, key), overrides.fields[key])
  }

  lemma NothingSoFar(source: Json, overrides: Json)
    requires source.JObject? && overrides.JObject?
    ensures AppliesExcept(source, overrides, overrides.fields.Keys)
    ensures OverriddenExcept(source, overrides, overrides.fields.Keys) == source.fields
  {
  }

  /** A key not yet dealt with still has its old value, and a failure there is a failure of the whole. */
  lemma StillToDo(source: Json, overrides: Json, left: set<string>, key: string)
    requires source.JObject? && overrides.JObject? && AppliesExcept(source, overrides, left)
    requires key in left && key in overrides.fields
    ensures Get(JObject(OverriddenExcept(source, overrides, left)), key) == Get(source, key)
    ensures !Applies(Get(source, key), overrides.fields[key]) ==> !Applies(Some(source), overrides)
  {
  }

  lemma OneMore(source: Json, overrides: Json, left: set<string>, key: string)
    requires source.JObject? && overrides.JObject? && AppliesExcept(source, overrides, left)
    requires key in left && key in overrides.fields && Applies(Get(source, key), overrides.fields[key])
    ensures AppliesExcept(source, overrides, left - {key})
    ensures OverriddenExcept(source, overrides, left - {key})
         == OverriddenExcept(source, overrides, left)[key := Overridden(Get(source, key), overrides.fields[key])]
  {
  }

  lemma SoFarAll(source: Json, overrides: Json)
    requires source.JObject? && overrides.JObject? && AppliesExcept(source, overrides, {})
    ensures Applies(Some(source), overrides)
    ensures JObject(OverriddenExcept(source, overrides, {})) == Overridden(Some(source), overrides)
  {
    AllApply(source, overrides);
    AllOverridden(source, overrides);
  }

  lemma AllApply(source: Json, overrides: Json)
    requires source.JObject? && overrides.JObject? && AppliesExcept(source, overrides, {})
    ensures Applies(Some(source), overrides)
  {
  }

  lemma AllOverridden(source: Json, overrides: Json)
    requires source.JObject? && overrides.JObject? && AppliesExcept(source, overrides, {}) && Applies(Some(source), overrides)
    ensures JObject(OverriddenExcept(source, overrides, {})) == Overridden(Some(source), overrides)
  {
    OneLevel(source, overrides);
    ExceptNothing(source, overrides);
  }

  lemma OneLevel(source: Json, overrides: Json)
    requires source.JObject? && overrides.JObject? && Applies(Some(source), overrides)
    ensures Overridden(Some(source), overrides)
         == JObject(source.fields + map key | key in overrides.fields :: Overridden(Get(source, key), overrides.fields[key]))
  {
  }

  lemma ExceptNothing(source: Json, overrides: Json)
    requires source.JObject? && overrides.JObject? && AppliesExcept(source, overrides, {})
    ensures forall key :: key in overrides.fields ==> Applies(Get(source, key), overrides.fields[key])
    ensures OverriddenExcept(source, overrides, {})
         == source.fields + map key | key in overrides.fields :: Overridden(Get(source, key), overrides.fields[key])
  {
  }
}
