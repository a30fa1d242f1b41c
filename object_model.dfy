/**
 * The object-model description that Core Data builds at run time
 * (NSManagedObjectModel, NSEntityDescription, NSAttributeDescription,
 * NSRelationshipDescription), written as plain values, together with the
 * model object whose fields the schema builders update in place, and the
 * version stamp that CoreDataManager writes into and reads out of a model.
 */
module ObjectModel {
  import opened Wrappers

  /** One element of a model's `versionIdentifiers` (a set of AnyHashable values). */
  datatype Identifier = IntIdentifier(n: int) | OtherIdentifier(text: string)

  datatype AttributeType = StringAttributeType | Integer64AttributeType

  datatype DeleteRule = NoActionDeleteRule | NullifyDeleteRule | CascadeDeleteRule | DenyDeleteRule

  /**
   * A property of an entity. A relationship names its destination entity and
   * its inverse relationship; the source links the description objects instead.
   */
  datatype Property =
    | Attribute(name: string, renamingIdentifier: Option<string>,
                attributeType: AttributeType, isOptional: bool)
    | Relationship(name: string, isOptional: bool, destination: string,
                   inverse: Option<string>, minCount: nat, maxCount: nat,
                   deleteRule: DeleteRule)

  /** Core Data's reading of maxCount: a relationship is to-many unless maxCount is exactly 1 (0 = unbounded). */
  predicate IsToMany(p: Property)
    requires p.Relationship?
  {
    p.maxCount != 1
  }

  datatype Entity = Entity(name: string, className: string, properties: seq<Property>)

  datatype Model = Model(versionIdentifiers: seq<Identifier>, entities: seq<Entity>)

  function EntityName(e: Entity): string
  {
    e.name
  }

  function PropertyName(p: Property): string
  {
    p.name
  }

  /** `first(where: { name($0) == key })`, as an index: the first element whose name is `key`. */
  function FirstIndex<T>(s: seq<T>, name: T -> string, key: string): (r: Option<nat>)
    ensures r.Some? ==> r.value < |s| && name(s[r.value]) == key
    ensures r.Some? ==> forall j :: 0 <= j < r.value ==> name(s[j]) != key
    ensures r.None? ==> forall j :: 0 <= j < |s| ==> name(s[j]) != key
  {
    if |s| == 0 then None
    else if name(s[0]) == key then Some(0)
    else match FirstIndex(s[1..], name, key)
      case None => None
      case Some(i) => Some(i + 1)
  }

  function EntityNamed(m: Model, name: string): Option<Entity>
  {
    match FirstIndex(m.entities, EntityName, name)
    case None => None
    case Some(i) => Some(m.entities[i])
  }

  function PropertyNamed(e: Entity, name: string): Option<Property>
  {
    match FirstIndex(e.properties, PropertyName, name)
    case None => None
    case Some(i) => Some(e.properties[i])
  }

  /** The first property carrying a name is the one `PropertyNamed` finds. */
  lemma PropertyNamedIsFirst(e: Entity, k: nat, name: string)
    requires k < |e.properties| && e.properties[k].name == name
    requires forall j :: 0 <= j < k ==> e.properties[j].name != name
    ensures PropertyNamed(e, name) == Some(e.properties[k])
  {
  }

  /** The names an entity declares, in declaration order. */
  function PropertyNames(e: Entity): seq<string>
  {
    seq(|e.properties|, i requires 0 <= i < |e.properties| => e.properties[i].name)
  }

  /**
   * Every relationship of `e` leads to an entity of `m` whose relationship
   * named as the inverse leads back to `e` and names this one as its inverse.
   */
  ghost predicate InverseConsistent(m: Model, e: Entity)
  {
    forall k :: 0 <= k < |e.properties| && e.properties[k].Relationship? ==>
      var r := e.properties[k];
      && r.inverse.Some?
      && EntityNamed(m, r.destination).Some?
      && var back := PropertyNamed(EntityNamed(m, r.destination).value, r.inverse.value);
         && back.Some?
         && back.value.Relationship?
         && back.value.destination == e.name
         && back.value.inverse == Some(r.name)
  }

  /** The invariant a model description keeps: every relationship declares a consistent inverse. */
  ghost predicate RelationshipsConsistent(m: Model)
  {
    forall i :: 0 <= i < |m.entities| ==> InverseConsistent(m, m.entities[i])
  }

  /** `setVersion`: the model's version identifiers become exactly `[version]`. */
  function WithVersion(m: Model, version: int): Model
  {
    m.(versionIdentifiers := [IntIdentifier(version)])
  }

  /** `getVersion`: the first version identifier, when it is an integer. */
  function GetVersion(m: Model): Option<int>
  {
    if |m.versionIdentifiers| > 0 && m.versionIdentifiers[0].IntIdentifier?
    then Some(m.versionIdentifiers[0].n)
    else None
  }

  /**
   * Stamping a model and reading the stamp back gives the stamp; stamping
   * replaces any earlier identifiers rather than adding to them, and leaves
   * the entities alone.
   */
  lemma VersionRoundTrip(m: Model, u: int, v: int)
    ensures GetVersion(WithVersion(m, v)) == Some(v)
    ensures WithVersion(WithVersion(m, u), v) == WithVersion(m, v)
    ensures |WithVersion(m, v).versionIdentifiers| == 1
    ensures WithVersion(m, v).entities == m.entities
  {
  }

  /** `entities.first(where: name == entityName)?.properties.append(p)`. */
  function AppendProperty(m: Model, entityName: string, p: Property): Model
  {
    match FirstIndex(m.entities, EntityName, entityName)
    case None => m
    case Some(i) =>
      m.(entities := m.entities[i := m.entities[i].(properties := m.entities[i].properties + [p])])
  }

  /** The same property under another name. */
  function WithName(p: Property, name: string): Property
  {
    match p
    case Attribute(_, renaming, attributeType, isOptional) =>
      Attribute(name, renaming, attributeType, isOptional)
    case Relationship(_, isOptional, destination, inverse, minCount, maxCount, deleteRule) =>
      Relationship(name, isOptional, destination, inverse, minCount, maxCount, deleteRule)
  }

  /**
   * Find the entity named `entityName`, find its first property named `from`,
   * and set that property's name to `to`; no-op when either is missing.
   */
  function RenameProperty(m: Model, entityName: string, from: string, to: string): Model
  {
    match FirstIndex(m.entities, EntityName, entityName)
    case None => m
    case Some(i) =>
      var e := m.entities[i];
      match FirstIndex(e.properties, PropertyName, from)
      case None => m
      case Some(j) =>
        m.(entities := m.entities[i := e.(properties := e.properties[j := WithName(e.properties[j], to)])])
  }

  /** NSManagedObjectModel: the object the builders create and then update field by field. */
  class ManagedObjectModel {
    var versionIdentifiers: seq<Identifier>
    var entities: seq<Entity>

    constructor ()
      ensures versionIdentifiers == [] && entities == []
    {
      versionIdentifiers := [];
      entities := [];
    }

    function Value(): Model
      reads this
    {
      Model(versionIdentifiers, entities)
    }
  }

  /** `CoreDataManager.setVersion(_:forModel:)`: overwrite the identifiers with `[version]`. */
  method SetVersion(version: int, model: ManagedObjectModel)
    modifies model
    ensures model.Value() == WithVersion(old(model.Value()), version)
    ensures GetVersion(model.Value()) == Some(version)
    ensures model.entities == old(model.entities)
  {
    model.versionIdentifiers := [IntIdentifier(version)];
  }
}
