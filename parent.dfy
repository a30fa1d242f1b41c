/**
 * The managed object class Parent: its fetch request, the stored fields the
 * build declares (which depend on the CORE_DATA_VERSION_n flags), and the
 * version-independent accessor `nameValue` with its key `nameKeyValue`.
 */
module ParentObject {
  import opened Wrappers
  import opened ObjectModel
  import opened DataManager

  /** An NSFetchRequest, reduced to the entity it targets. */
  datatype FetchRequest = FetchRequest(entityName: string)

  /** `Parent.fetchRequest()`: the request targets an entity every registered model has. */
  function ParentFetchRequest(): (r: FetchRequest)
    ensures forall v :: 0 <= v <= 3 ==> EntityNamed(ModelFor(v), r.entityName).Some?
    ensures forall v :: 0 <= v <= 3 ==> EntityNamed(ModelFor(v), r.entityName).value.name == ParentName
  {
    Model1Shape();
    Model2Shape();
    FetchRequest("Parent")
  }

  /** `#if CORE_DATA_VERSION_0 #else email #endif`. */
  predicate DeclaresEmail(flags: BuildFlags)
  {
    0 !in flags
  }

  /** `#if CORE_DATA_VERSION_0 || CORE_DATA_VERSION_1`: the build stores the name in `title1`. */
  predicate UsesTitle1(flags: BuildFlags)
  {
    0 in flags || 1 in flags
  }

  /** `Parent.nameKeyValue`. */
  function NameKeyValue(flags: BuildFlags): string
  {
    if UsesTitle1(flags) then "title1" else "title2"
  }

  /** The optional string fields the build declares: `email` when declared, and `title1` or `title2`. */
  function StringFields(flags: BuildFlags): set<string>
  {
    (if DeclaresEmail(flags) then {"email"} else {}) + (if UsesTitle1(flags) then {"title1"} else {"title2"})
  }

  /** Every `@NSManaged` property the build declares on Parent. */
  function DeclaredProperties(flags: BuildFlags): set<string>
  {
    {"orderIndex", "childs"} + StringFields(flags)
  }

  function NameSet(e: Entity): set<string>
  {
    set k | 0 <= k < |e.properties| :: e.properties[k].name
  }

  /** `nameKeyValue` is "title1" exactly when version 0 or 1 is configured. */
  lemma NameKeyChoice(flags: BuildFlags)
    requires CurrentVersion(flags).Some?
    ensures NameKeyValue(flags) == "title1" <==> CurrentVersion(flags).value <= 1
    ensures NameKeyValue(flags) == "title2" <==> CurrentVersion(flags).value >= 2
  {
  }

  /**
   * The fields Parent declares for a build are exactly the properties of the
   * Parent entity in the model that build selects: `email` exactly when the
   * version is not 0, `orderIndex` and `childs` always, and the attribute
   * named by `nameKeyValue` is a string attribute of that entity.
   */
  lemma ParentMatchesRegistry(flags: BuildFlags)
    requires CurrentVersion(flags).Some?
    ensures var parent := EntityNamed(CurrentModel(flags).value, ParentName);
      && parent.Some?
      && DeclaredProperties(flags) == NameSet(parent.value)
      && (DeclaresEmail(flags) <==> CurrentVersion(flags).value != 0)
      && (DeclaresEmail(flags) <==> "email" in NameSet(parent.value))
      && {"orderIndex", "childs"} <= NameSet(parent.value)
      && PropertyNamed(parent.value, NameKeyValue(flags)).Some?
      && PropertyNamed(parent.value, NameKeyValue(flags)).value.Attribute?
      && PropertyNamed(parent.value, NameKeyValue(flags)).value.attributeType == StringAttributeType
  {
    Model1Shape();
    Model2Shape();
    var v := CurrentVersion(flags).value;
    var m := ModelFor(v);
    var parent := m.entities[0];
    assert EntityNamed(m, ParentName) == Some(parent);
    var title := if v <= 1 then Title1Attribute() else WithName(Title1Attribute(), "title2");
    var common := [title, OrderIndexAttribute(), ChildsRelationship()];
    assert parent.properties == if v == 0 then common else common + [EmailAttribute()];
    PropertyNamedIsFirst(parent, 0, NameKeyValue(flags));
    NameSetOf(parent);
  }

  /** The name set of an entity, computed element by element. */
  lemma NameSetOf(e: Entity)
    ensures |e.properties| == 3 ==>
      NameSet(e) == {e.properties[0].name, e.properties[1].name, e.properties[2].name}
    ensures |e.properties| == 4 ==>
      NameSet(e) == {e.properties[0].name, e.properties[1].name, e.properties[2].name, e.properties[3].name}
  {
  }

  /**
   * A Parent object: its stored `orderIndex` and its optional string fields,
   * keyed by the field names the build declares.
   */
  class Parent {
    const flags: BuildFlags
    var orderIndex: int
    var strings: map<string, Option<string>>

    ghost predicate Valid()
      reads this
    {
      strings.Keys == StringFields(flags)
    }

    /** A newly inserted object: every optional field is nil and `orderIndex` is 0. */
    constructor (flags: BuildFlags)
      ensures this.flags == flags && Valid()
      ensures orderIndex == 0
      ensures forall k :: k in strings ==> strings[k] == None
    {
      this.flags := flags;
      orderIndex := 0;
      strings := map k | k in StringFields(flags) :: None;
    }

    /** The getter of `nameValue`. */
    function NameValue(): Option<string>
      reads this
      requires Valid()
    {
      if UsesTitle1(flags) then strings["title1"] else strings["title2"]
    }

    /** The setter of `nameValue`: writes the field `nameKeyValue` names and nothing else. */
    method SetNameValue(newValue: Option<string>)
      requires Valid()
      modifies this
      ensures Valid()
      ensures strings == old(strings)[NameKeyValue(flags) := newValue]
      ensures orderIndex == old(orderIndex)
      ensures NameValue() == newValue
    {
      if UsesTitle1(flags) {
        strings := strings["title1" := newValue];
      } else {
        strings := strings["title2" := newValue];
      }
    }
  }

  /** The getter reads the same stored field that `nameKeyValue` names. */
  lemma NameValueReadsNameKey(p: Parent)
    requires p.Valid()
    ensures NameKeyValue(p.flags) in p.strings
    ensures p.NameValue() == p.strings[NameKeyValue(p.flags)]
  {
  }
}
