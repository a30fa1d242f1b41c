/**
 * The schema version registry of DataManager: the builders of the object
 * model for schema versions 0 to 3, the build-time choice of the current
 * model, and the single-step migration lookup.
 *
 *   version 0: entities Parent and Child
 *   version 1: Parent gains an optional string attribute `email`
 *   version 2: Parent's `title1` is renamed `title2` (renaming identifier kept)
 *   version 3: only the version stamp changes
 */
module DataManager {
  import opened Wrappers
  import opened ObjectModel

  const ParentName: string := "Parent"
  const ChildName: string := "Child"
  const Title1RenamingIdentifier: string := "rename-parent-title1-identifier"

  /** The CORE_DATA_VERSION_n compilation conditions defined in the build settings: n is in the set when it is defined. */
  type BuildFlags = set<int>

  function Title1Attribute(): Property
  {
    Attribute("title1", Some(Title1RenamingIdentifier), StringAttributeType, true)
  }

  function OrderIndexAttribute(): Property
  {
    Attribute("orderIndex", None, Integer64AttributeType, false)
  }

  function ChildsRelationship(): Property
  {
    Relationship("childs", true, ChildName, Some("parent"), 0, 0, CascadeDeleteRule)
  }

  function TextAttribute(): Property
  {
    Attribute("text", None, StringAttributeType, true)
  }

  function RatingAttribute(): Property
  {
    Attribute("rating", None, Integer64AttributeType, false)
  }

  function ParentRelationship(): Property
  {
    Relationship("parent", true, ParentName, Some("childs"), 1, 1, NullifyDeleteRule)
  }

  function EmailAttribute(): Property
  {
    Attribute("email", None, StringAttributeType, true)
  }

  /** The model of schema version 0. */
  function Model0(): Model
  {
    Model([IntIdentifier(0)],
          [Entity(ParentName, ParentName, [Title1Attribute(), OrderIndexAttribute(), ChildsRelationship()]),
           Entity(ChildName, ChildName, [TextAttribute(), RatingAttribute(), ParentRelationship()])])
  }

  /** Version 1 is version 0, restamped, with `email` appended to Parent. */
  function Model1(): Model
  {
    AppendProperty(WithVersion(Model0(), 1), ParentName, EmailAttribute())
  }

  /** Version 2 is version 1, restamped, with Parent's `title1` renamed `title2`. */
  function Model2(): Model
  {
    RenameProperty(WithVersion(Model1(), 2), ParentName, "title1", "title2")
  }

  /** Version 3 is version 2, restamped. */
  function Model3(): Model
  {
    WithVersion(Model2(), 3)
  }

  function ModelFor(version: nat): Model
    requires version <= 3
  {
    match version
    case 0 => Model0()
    case 1 => Model1()
    case 2 => Model2()
    case 3 => Model3()
  }

  /** The schema version the build selects: the first of CORE_DATA_VERSION_0 … _3 that is defined; None is the build error. */
  function CurrentVersion(flags: BuildFlags): Option<nat>
  {
    if 0 in flags then Some(0)
    else if 1 in flags then Some(1)
    else if 2 in flags then Some(2)
    else if 3 in flags then Some(3)
    else None
  }

  /** `currentModel`: the `#if CORE_DATA_VERSION_n` chain over the builders. */
  function CurrentModel(flags: BuildFlags): (r: Option<Model>)
    ensures r.Some? <==> CurrentVersion(flags).Some?
    ensures r.Some? ==> CurrentVersion(flags).value <= 3 && r.value == ModelFor(CurrentVersion(flags).value)
    ensures r.Some? ==> GetVersion(r.value) == CurrentVersion(flags)
  {
    ModelVersionStamps();
    if 0 in flags then Some(Model0())
    else if 1 in flags then Some(Model1())
    else if 2 in flags then Some(Model2())
    else if 3 in flags then Some(Model3())
    else None
  }

  /** The source and destination models an NSMigrationManager is built from. */
  datatype MigrationPair = MigrationPair(source: Model, destination: Model)

  /**
   * `migrationManager(forOldVersion:)`: the models of the single step
   * `oldVersion -> oldVersion + 1`; None is the `fatalError()` of the default case.
   */
  function MigrationManager(oldVersion: int): (r: Option<MigrationPair>)
    ensures r.Some? <==> 0 <= oldVersion <= 2
    ensures r.Some? ==> r.value.source == ModelFor(oldVersion) && r.value.destination == ModelFor(oldVersion + 1)
    ensures r.Some? ==> GetVersion(r.value.source) == Some(oldVersion)
    ensures r.Some? ==> GetVersion(r.value.destination) == Some(oldVersion + 1)
  {
    ModelVersionStamps();
    match oldVersion
    case 0 => Some(MigrationPair(Model0(), Model1()))
    case 1 => Some(MigrationPair(Model1(), Model2()))
    case 2 => Some(MigrationPair(Model2(), Model3()))
    case _ => None
  }

  /** Each builder overwrites its predecessor's stamp: model n carries exactly `[n]`. */
  lemma ModelVersionStamps()
    ensures forall v :: 0 <= v <= 3 ==> GetVersion(ModelFor(v)) == Some(v)
    ensures forall v :: 0 <= v <= 3 ==> ModelFor(v).versionIdentifiers == [IntIdentifier(v)]
  {
    Model1Shape();
    Model2Shape();
  }

  /** Model 0: exactly the entities Parent and Child, each with the properties the builder gives it. */
  lemma Model0Shape()
    ensures |Model0().entities| == 2
    ensures EntityNamed(Model0(), ParentName) == Some(Model0().entities[0])
    ensures EntityNamed(Model0(), ChildName) == Some(Model0().entities[1])
    ensures PropertyNames(Model0().entities[0]) == ["title1", "orderIndex", "childs"]
    ensures PropertyNames(Model0().entities[1]) == ["text", "rating", "parent"]
    ensures var title1 := Model0().entities[0].properties[0];
      title1.Attribute? && title1.attributeType == StringAttributeType && title1.isOptional
    ensures var orderIndex := Model0().entities[0].properties[1];
      orderIndex.Attribute? && orderIndex.attributeType == Integer64AttributeType && !orderIndex.isOptional
    ensures var childs := Model0().entities[0].properties[2];
      childs.Relationship? && childs.destination == ChildName && IsToMany(childs) && childs.deleteRule == CascadeDeleteRule
    ensures var text := Model0().entities[1].properties[0];
      text.Attribute? && text.attributeType == StringAttributeType && text.isOptional
    ensures var rating := Model0().entities[1].properties[1];
      rating.Attribute? && rating.attributeType == Integer64AttributeType && !rating.isOptional
    ensures var parent := Model0().entities[1].properties[2];
      parent.Relationship? && parent.destination == ParentName && !IsToMany(parent) && parent.deleteRule == NullifyDeleteRule
  {
  }

  /** Model 1 is model 0 plus one optional string attribute `email` at the end of Parent; Child is unchanged. */
  lemma Model1Shape()
    ensures Model1().versionIdentifiers == [IntIdentifier(1)]
    ensures |Model1().entities| == 2
    ensures Model1().entities[0].name == ParentName && Model1().entities[0].className == ParentName
    ensures Model1().entities[0].properties == Model0().entities[0].properties + [EmailAttribute()]
    ensures Model1().entities[1] == Model0().entities[1]
    ensures EmailAttribute().Attribute? && EmailAttribute().attributeType == StringAttributeType && EmailAttribute().isOptional
  {
    assert FirstIndex(WithVersion(Model0(), 1).entities, EntityName, ParentName) == Some(0);
  }

  /**
   * Model 2 is model 1 with Parent's first property renamed from `title1` to
   * `title2`; its type, optionality and renaming identifier are kept and
   * nothing else changes.
   */
  lemma Model2Shape()
    ensures Model2().versionIdentifiers == [IntIdentifier(2)]
    ensures |Model2().entities| == 2
    ensures Model2().entities[0] ==
      Model1().entities[0].(properties := Model1().entities[0].properties[0 := WithName(Title1Attribute(), "title2")])
    ensures Model2().entities[0].properties[0].renamingIdentifier == Some(Title1RenamingIdentifier)
    ensures Model2().entities[1] == Model1().entities[1]
    ensures PropertyNamed(Model2().entities[0], "title1").None?
  {
    Model1Shape();
    assert FirstIndex(WithVersion(Model1(), 2).entities, EntityName, ParentName) == Some(0);
    assert FirstIndex(Model1().entities[0].properties, PropertyName, "title1") == Some(0);
  }

  /** Model 3 has the entities of model 2; only the stamp differs. */
  lemma Model3Shape()
    ensures Model3().entities == Model2().entities
    ensures Model3().versionIdentifiers == [IntIdentifier(3)]
  {
  }

  /**
   * A two-entity model whose Parent holds `childs` third among attributes and
   * whose Child is model 0's Child keeps every relationship's inverse consistent.
   */
  lemma ParentChildInverses(m: Model, parentProperties: seq<Property>)
    requires m.entities == [Entity(ParentName, ParentName, parentProperties), Model0().entities[1]]
    requires |parentProperties| >= 3 && parentProperties[2] == ChildsRelationship()
    requires forall k :: 0 <= k < |parentProperties| && k != 2 ==> parentProperties[k].Attribute?
    requires parentProperties[0].name != "childs" && parentProperties[1].name != "childs"
    ensures RelationshipsConsistent(m)
  {
    var parent, child := m.entities[0], m.entities[1];
    assert EntityNamed(m, ParentName) == Some(parent);
    assert EntityNamed(m, ChildName) == Some(child);
    PropertyNamedIsFirst(child, 2, "parent");
    PropertyNamedIsFirst(parent, 2, "childs");
    assert InverseConsistent(m, parent);
    assert InverseConsistent(m, child);
  }

  /** `childs` and `parent` are each other's inverse, in every registered version. */
  lemma RegistryInversesConsistent(version: nat)
    requires version <= 3
    ensures RelationshipsConsistent(ModelFor(version))
  {
    Model1Shape();
    Model2Shape();
    var m := ModelFor(version);
    ParentChildInverses(m, m.entities[0].properties);
  }

  /** `model0()`: builds the two entities, wires the inverses, stamps version 0. */
  method BuildModel0() returns (model: ManagedObjectModel)
    ensures fresh(model) && model.Value() == Model0()
  {
    var childDescription := Entity(ChildName, ChildName, []);
    var parentDescription := Entity(ParentName, ParentName, []);

    var parentTitle1Attribute := Attribute("title1", Some(Title1RenamingIdentifier), StringAttributeType, true);
    var parentOrderIndexAttribute := Attribute("orderIndex", None, Integer64AttributeType, false);
    var parentChildsRelationship := Relationship("childs", true, childDescription.name, None, 0, 0, CascadeDeleteRule);
    parentDescription := parentDescription.(properties := [parentTitle1Attribute, parentOrderIndexAttribute, parentChildsRelationship]);

    var childTextAttribute := Attribute("text", None, StringAttributeType, true);
    var childRatingAttribute := Attribute("rating", None, Integer64AttributeType, false);
    var childParentRelationship := Relationship("parent", true, parentDescription.name, Some(parentChildsRelationship.name), 1, 1, NullifyDeleteRule);
    childDescription := childDescription.(properties := [childTextAttribute, childRatingAttribute, childParentRelationship]);

    // The source wires the inverse on the shared relationship object after
    // Parent already holds it; here the copy Parent holds is updated.
    parentChildsRelationship := parentChildsRelationship.(inverse := Some(childParentRelationship.name));
    parentDescription := parentDescription.(properties := parentDescription.properties[2 := parentChildsRelationship]);
    assert parentDescription.properties == [Title1Attribute(), OrderIndexAttribute(), ChildsRelationship()];

    model := new ManagedObjectModel();
    SetVersion(0, model);
    model.entities := [parentDescription, childDescription];
  }

  /** `model1()`: model 0, restamped 1, with `email` appended to Parent in place. */
  method BuildModel1() returns (model: ManagedObjectModel)
    ensures fresh(model) && model.Value() == Model1()
  {
    model := BuildModel0();
    SetVersion(1, model);
    var parentIndex := FirstIndex(model.entities, EntityName, ParentName);
    if parentIndex.Some? {
      var emailAttribute := Attribute("email", None, StringAttributeType, true);
      var parentEntity := model.entities[parentIndex.value];
      model.entities := model.entities[parentIndex.value := parentEntity.(properties := parentEntity.properties + [emailAttribute])];
    }
  }

  /** `model2()`: model 1, restamped 2, with Parent's `title1` renamed `title2` in place. */
  method BuildModel2() returns (model: ManagedObjectModel)
    ensures fresh(model) && model.Value() == Model2()
  {
    model := BuildModel1();
    SetVersion(2, model);
    var parentIndex := FirstIndex(model.entities, EntityName, ParentName);
    if parentIndex.Some? {
      var parentEntity := model.entities[parentIndex.value];
      var title1Index := FirstIndex(parentEntity.properties, PropertyName, "title1");
      if title1Index.Some? {
        var title1Description := parentEntity.properties[title1Index.value];
        parentEntity := parentEntity.(properties := parentEntity.properties[title1Index.value := WithName(title1Description, "title2")]);
        model.entities := model.entities[parentIndex.value := parentEntity];
      }
    }
  }

  /** `model3()`: model 2, restamped 3. */
  method BuildModel3() returns (model: ManagedObjectModel)
    ensures fresh(model) && model.Value() == Model3()
  {
    model := BuildModel2();
    SetVersion(3, model);
  }

  /** `currentModel`, evaluated by running the builder the build flags select. */
  method BuildCurrentModel(flags: BuildFlags) returns (model: ManagedObjectModel)
    requires CurrentVersion(flags).Some?
    ensures fresh(model) && Some(model.Value()) == CurrentModel(flags)
  {
    if 0 in flags {
      model := BuildModel0();
    } else if 1 in flags {
      model := BuildModel1();
    } else if 2 in flags {
      model := BuildModel2();
    } else {
      model := BuildModel3();
    }
  }
}
