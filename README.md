# CoreDataStack in Dafny

A model of the core of CoreDataStack, a small iOS Core Data wrapper with a
hand-rolled, version-by-version schema migration. It covers three parts.

- **The model registry** (`DataManager.swift`): `model0()` … `model3()`
  build the entities Parent and Child with their attributes and their
  `childs`/`parent` relationships. Each builder after the first takes its
  predecessor's model, restamps it with its own version, and changes one
  thing: `email` is appended, then `title1` is renamed to `title2`.
  `currentModel` picks a builder by the `CORE_DATA_VERSION_n` build flags.
  `migrationManager(forOldVersion:)` returns the model pair of the step
  `n -> n + 1` for n in 0…2 and traps for any other n.
- **The migration driver** (`CoreDataManager.swift`): `setVersion` and
  `getVersion` stamp and read a model's version. `migrateOfNeeded` reads a
  store's metadata and acts on it:
  - it destroys an unusable or newer store;
  - it leaves a current store alone;
  - it migrates an older store one step at a time through `<store>.tmp`.

  Its error handler destroys the store on any error other than
  NSFileReadNoSuchFileError, and traps when that destroy fails. `init` runs
  the procedure for every store description and then loads the stores.
- **The managed object Parent** (`Parent.swift`): its fetch request, the
  stored fields each build declares, and the accessor `nameValue`. That
  accessor reads and writes `title1` or `title2` depending on the build,
  and `nameKeyValue` names the same field.

Modules:

- `ObjectModel`:
  - entity and property descriptions as values;
  - `NSManagedObjectModel` as a class whose fields the builders update;
  - `setVersion` and `getVersion`.
- `DataManager`: the registry. Each builder is a method on that class,
  proved equal to a function `Model0` … `Model3`. `Model1` … `Model3` are
  each defined as their predecessor plus one change.
- `ParentObject`: Parent, as a class holding its stored fields.
- `Storage`: the disk and the Core Data and FileManager calls made on it.
  - A `FileSystem` object holds the store files keyed by URL, a fault plan
    (the call made at log position k fails with the error code the plan
    holds for k) and the log of calls made.
  - Each call is a method proved equal to a function on `World` values.
- `CoreDataManager`: `migrateOfNeeded` and `init` as methods on a
  `FileSystem`. Each is proved equal to a specification function on
  `World` values, with loop invariants for the two loops.
- `MigrationProperties`: what those functions promise, branch by branch.

The build flags are a set of the `n` whose `CORE_DATA_VERSION_n` is
defined. An empty set is the `#error` of `currentModel`, so a build that
compiles has at least one flag.

In four places the code does less than a reader might expect, and the
model follows the code:

- A failed migration step is not cleaned up. When `migrateStore` fails,
  the catch block destroys the original store (`FailedMigrateDestroysStore`).
- When `replacePersistentStore` fails, the store is destroyed and only the
  migrated copy at `<store>.tmp` is left on disk
  (`FailedReplaceLeavesOnlyTemporaryCopy`).
- `init` has no guard against running twice.
- The version-3 step, described as raising every Child's rating by 1, is a
  TODO in the source. Model 3 differs from model 2 only in its stamp.

A store whose metadata carries a negative first version traps. The loop
then starts at that version, and the registry's `default` case is
`fatalError()` (`NegativeStampTraps`). The fault-free guarantees below
therefore assume stamps that are not negative and a current version in 0…3.

## Model

| member | source | states |
|---|---|---|
| ObjectModel.FirstIndex | CoreDataStack/DataManager.swift:122-127 | `first(where:)` by name, over entities or properties: the index found holds an element with the name and no earlier element has it; none found means no element has it |
| ObjectModel.VersionRoundTrip | CoreDataStack/CoreDataManager.swift:44-49 | `getVersion` after `setVersion(v)` gives v; a second `setVersion` replaces the first rather than adding to it; exactly one identifier remains; entities are untouched |
| ObjectModel.SetVersion | CoreDataStack/CoreDataManager.swift:44-46 | the model's identifiers become `[version]`, `getVersion` then reads `version`, and the entities do not change |
| DataManager.CurrentModel | CoreDataStack/DataManager.swift:26-38 | a model exists exactly when some flag 0…3 is defined; it is the registry model of the lowest defined flag, and it is stamped with that version |
| DataManager.MigrationManager | CoreDataStack/DataManager.swift:139-163 | a step exists exactly for old versions 0, 1 and 2; its pair is (model n, model n + 1), stamped n and n + 1; every other version is the `fatalError()` case |
| DataManager.ModelVersionStamps | CoreDataStack/DataManager.swift:94-137 | model n carries exactly the identifiers `[n]`: each builder overwrites its predecessor's stamp |
| DataManager.Model0Shape | CoreDataStack/DataManager.swift:40-98 | model 0 holds Parent (`title1`, `orderIndex`, `childs`) and Child (`text`, `rating`, `parent`) with the types, optionality, to-many-ness and delete rules the builder sets |
| DataManager.Model1Shape | CoreDataStack/DataManager.swift:101-116 | model 1 is model 0 restamped 1, with one optional string attribute `email` appended to Parent; Child is unchanged |
| DataManager.Model2Shape | CoreDataStack/DataManager.swift:118-132 | model 2 is model 1 restamped 2; Parent is model 1's Parent, with the same name and class name, whose first property `title1` is renamed `title2` with its renaming identifier and type kept; no `title1` remains; Child is unchanged |
| DataManager.Model3Shape | CoreDataStack/DataManager.swift:133-137 | model 3 has model 2's entities and only the stamp 3 differs |
| DataManager.RegistryInversesConsistent | CoreDataStack/DataManager.swift:81-92 | in every registered model, `childs` and `parent` each lead to the other's entity and name each other as inverse |
| DataManager.BuildModel0 | CoreDataStack/DataManager.swift:40-98 | the model built field by field, inverses wired and stamped 0, equals `Model0` |
| DataManager.BuildModel1 | CoreDataStack/DataManager.swift:101-116 | building model 0, restamping it and appending `email` to Parent in place gives `Model1` |
| DataManager.BuildModel2 | CoreDataStack/DataManager.swift:118-132 | building model 1, restamping it and renaming Parent's `title1` in place gives `Model2` |
| DataManager.BuildModel3 | CoreDataStack/DataManager.swift:133-137 | building model 2 and restamping it gives `Model3` |
| DataManager.BuildCurrentModel | CoreDataStack/DataManager.swift:26-38 | the builder the flags select produces the current model |
| ParentObject.ParentFetchRequest | CoreDataStack/Parent.swift:15-17 | the request targets an entity that every registered model has, and that entity is Parent |
| ParentObject.NameKeyChoice | CoreDataStack/Parent.swift:51-57 | `nameKeyValue` is `title1` exactly when the build's version is 0 or 1, and `title2` exactly when it is 2 or 3 |
| ParentObject.ParentMatchesRegistry | CoreDataStack/Parent.swift:19-32 | the fields Parent declares are exactly the property names of Parent in the build's current model; `email` is declared exactly when the version is not 0; the field `nameKeyValue` names is a string attribute of that entity |
| ParentObject.Parent.SetNameValue | CoreDataStack/Parent.swift:35-41 | the setter writes the field `nameKeyValue` names and nothing else; the getter then returns the value written |
| ParentObject.NameValueReadsNameKey | CoreDataStack/Parent.swift:42-57 | the getter reads the very field `nameKeyValue` names |
| Storage.FileSystem.ReadMetadata | CoreDataStack/CoreDataManager.swift:95 | a read logs the call and fails with a planned fault, fails with NSFileReadNoSuchFileError when no store exists, and otherwise returns the stored metadata |
| Storage.FileSystem.MigrateStore | CoreDataStack/CoreDataManager.swift:109-112 | the destination gets a store stamped with the destination model's version unless the call fails or the source is missing |
| Storage.FileSystem.ReplaceStore | CoreDataStack/CoreDataManager.swift:113-115 | the target takes the source's store unless the call fails or the source is missing; the source file stays |
| Storage.FileSystem.DestroyStore | CoreDataStack/CoreDataManager.swift:116 | unless the call fails, no store is left at the URL |
| Storage.FileSystem.RemoveItem | CoreDataStack/CoreDataManager.swift:117 | unless the call fails, nothing is left at the URL |
| Storage.FileSystem.LoadPersistentStores | CoreDataStack/CoreDataManager.swift:32-38 | records the load call; its effect on the files is not modelled |
| CoreDataManager.MigrateStep | CoreDataStack/CoreDataManager.swift:107-117 | one loop iteration leaves the disk, log and result its specification gives |
| CoreDataManager.MigrateBody | CoreDataStack/CoreDataManager.swift:94-118 | the `do` block, including its loop over `oldVersion..<currentVersion`, leaves the state its specification gives |
| CoreDataManager.MigrateIfNeeded | CoreDataStack/CoreDataManager.swift:87-131 | `migrateOfNeeded` leaves the disk, log and outcome its specification gives |
| CoreDataManager.Initialize | CoreDataStack/CoreDataManager.swift:22-42 | `init` builds the current model, migrates each described store in order, stops on a trap, and otherwise loads the stores; it leaves the state its specification gives |
| MigrationProperties.StepLog | CoreDataStack/CoreDataManager.swift:107-117 | an iteration makes the mapping, migrate, replace, destroy and remove calls in that order up to the first that fails, and all five when it completes |
| MigrationProperties.StepsRequestInOrder | CoreDataStack/CoreDataManager.swift:106-118 | the loop requests steps `lo, lo + 1, …` in ascending order, once each, stopping only at a failing step; when it completes it has requested exactly `lo … hi - 1`; it never loads |
| MigrationProperties.StepsCompose | CoreDataStack/CoreDataManager.swift:106-118 | migrating a → c step by step is migrating a → b and then, if that completed, b → c |
| MigrationProperties.StepWithoutFaults | CoreDataStack/CoreDataManager.swift:107-117 | without faults, a registered step leaves the store stamped with the next version and no temporary file |
| MigrationProperties.CleanUpWithoutFaults | CoreDataStack/CoreDataManager.swift:113-117 | without faults, replace, destroy and remove put the migrated copy in the store's place and leave no temporary file |
| MigrationProperties.StepsWithoutFaults | CoreDataStack/CoreDataManager.swift:103-118 | without faults, migrating from a registered version to a registered later one leaves the store stamped with the target and no temporary file, after exactly the calls of the steps in order |
| MigrationProperties.StepsNeverFatal | CoreDataStack/CoreDataManager.swift:106-107 | for registered versions the loop never reaches the registry's `fatalError()` |
| MigrationProperties.NothingToDo | CoreDataStack/CoreDataManager.swift:88-89 | without a URL, or without an integer version on the current model, nothing happens |
| MigrationProperties.AbsentStoreLeftAlone | CoreDataStack/CoreDataManager.swift:94-130 | with no store on disk, the metadata read fails with NSFileReadNoSuchFileError and nothing else happens |
| MigrationProperties.CurrentStoreLeftAlone | CoreDataStack/CoreDataManager.swift:100-102 | a store at the current version is read and left untouched |
| MigrationProperties.IncompatibleStoreDestroyed | CoreDataStack/CoreDataManager.swift:96-98 | a store with no integer version list, or a newer one, is never migrated; without faults it is destroyed and nothing else changes |
| MigrationProperties.OlderStoreMigrated | CoreDataStack/CoreDataManager.swift:103-118 | without faults, an older registered store ends stamped with the current version, with no temporary file left, after exactly the calls of the steps from its version |
| MigrationProperties.MigrationRequestsStepsInOrder | CoreDataStack/CoreDataManager.swift:87-131 | whatever fails, steps are requested only for an older store, in ascending order from its version, once each; migration never loads and keeps earlier log entries |
| MigrationProperties.RegistryNeverTraps | CoreDataStack/CoreDataManager.swift:120-129 | with a registered current version and no negative stamp, every requested step is one the registry knows; a trap comes only from a failing destroy of the store in the catch block |
| MigrationProperties.CatchTraps | CoreDataStack/CoreDataManager.swift:120-129 | unless the `do` block trapped, the procedure traps only when the destroy in the catch block fails |
| MigrationProperties.ErrorHandling | CoreDataStack/CoreDataManager.swift:120-129 | NSFileReadNoSuchFileError ends quietly; any other error destroys the store; the procedure traps exactly when that destroy fails |
| MigrationProperties.FaultFreeStoreEndsCurrentOrGone | CoreDataStack/CoreDataManager.swift:87-131 | without faults, with a current version in 0…3 and a stamp that is not negative, the procedure finishes, and the store is either gone or at the current version; no other file changes except the temporary one |
| MigrationProperties.NegativeStampTraps | CoreDataStack/CoreDataManager.swift:103-107 | a store stamped with a negative version below the current one traps in the registry's `fatalError()` right after the mapping request, with the disk untouched |
| MigrationProperties.FailedMigrateDestroysStore | CoreDataStack/CoreDataManager.swift:109-129 | for any older registered store, when the first step's `migrateStore` is the only call that fails, with an error other than NSFileReadNoSuchFileError, the procedure finishes with the store destroyed and no other file changed |
| MigrationProperties.FailedReplaceLeavesOnlyTemporaryCopy | CoreDataStack/CoreDataManager.swift:113-129 | for any older registered store at version v, when the first step's `replacePersistentStore` is the only call that fails, with an error other than NSFileReadNoSuchFileError, the procedure finishes with the store destroyed and `<store>.tmp` holding the copy migrated to v + 1 |
| MigrationProperties.MigrateReadsFirst | CoreDataStack/CoreDataManager.swift:94-95 | the first call of a migration with a URL and a current version is the metadata read of that URL |
| MigrationProperties.MigrateAllLog | CoreDataStack/CoreDataManager.swift:29-31 | the migration loop never loads; when it finishes, it has read the metadata of every described store with a URL |
| MigrationProperties.InitializeMigratesBeforeLoading | CoreDataStack/CoreDataManager.swift:27-40 | without store descriptions nothing happens; otherwise the stores are loaded once, as the last call, after every described store's metadata was read; after a trap they are never loaded |
| MigrationProperties.StartupWithoutFaults | CoreDataStack/CoreDataManager.swift:28-31 | without faults, with a current version in 0…3 and no negative stamp on disk, every migration finishes, and every store left on disk is either untouched or a described store at the current version |

## Left out

- The `accessQueue` dispatch in `init`, and the semaphore in `performBackgroundTask`, are left out: the model is sequential.
- `viewContext`, `performBackgroundTask` and `saveContext` only forward to Core Data contexts, which are not part of this model.
- Storage.FileSystem.LoadPersistentStores: records the load call only. Loading happens inside Core Data, so the model leaves out three things: the store it creates at the current model where none exists, the stores' availability afterwards, and what a load error does.
- Row contents are left out: what the migration does to rows, and the relationship set `childs` of a Parent object. Core Data's inferred mapping is opaque.
- The `print` calls and the initialization timing are left out: they are output and clocks.
- `DataManager.name` is left out: it is the constant container name "Model", and nothing depends on it.
- `Child.swift`, `AppDelegate.swift` and the view controllers are not part of this model.
- Storage.FileSystem.DestroyStore: destroying and removing a store are both modelled as deleting the URL. Removing an absent URL succeeds, because the model tracks stores per URL rather than the SQLite side files.
- ObjectModel.GetVersion: `versionIdentifiers` is a Swift `Set`, whose `first` has no fixed order. The model keeps the identifiers as a sequence and reads the first element; `setVersion` always leaves exactly one identifier.
- The object identity of entity and relationship descriptions is left out. Descriptions are values naming their destination and inverse. The builder wires the `childs` inverse on its copy in Parent, where the source mutates one shared object.
- Which call fails, and with which code, is a parameter of the world: the fault plan. The model does not predict when Core Data fails.
