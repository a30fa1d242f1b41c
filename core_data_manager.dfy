/**
 * CoreDataManager's store migration: the decision procedure `migrateOfNeeded`
 * run on one persistent store, and the start-up sequence of `init` that runs
 * it for every store description before loading the stores.
 *
 * Each procedure is an imperative method over a FileSystem, proved equal to a
 * specification function over World values; the lemmas below state what
 * those functions promise on every branch.
 */
module CoreDataManager {
  import opened Wrappers
  import opened ObjectModel
  import opened Storage
  import DataManager

  /** NSPersistentStoreDescription, reduced to its URL. */
  datatype StoreDescription = StoreDescription(url: Option<Url>)

  /** How the procedure ends: normally, or by `fatalError()`. */
  datatype Outcome = Finished | Trapped

  /** How the `do` block of `migrateOfNeeded` ends: normally, by throwing an error code, or by a trap. */
  datatype Run = Done(w: World) | Threw(w: World, code: int) | Fatal(w: World)

  /** `sourceUrl.appendingPathExtension("tmp")`. */
  function TemporaryUrl(source: Url): Url
  {
    source + ".tmp"
  }

  function IntVersions(ids: seq<Identifier>): Option<seq<int>>
  {
    if |ids| == 0 then Some([])
    else if !ids[0].IntIdentifier? then None
    else match IntVersions(ids[1..])
      case None => None
      case Some(rest) => Some([ids[0].n] + rest)
  }

  /** The metadata of a store migrated to model `m`: `m`'s version identifiers, when all are integers. */
  function StampFor(m: Model): StoreFile
  {
    match IntVersions(m.versionIdentifiers)
    case Some(versions) => Stamped(versions)
    case None => Unstamped
  }

  /** The `guard` of `migrateOfNeeded`: an integer version list whose first element is at most `current`. */
  predicate Compatible(f: StoreFile, current: int)
  {
    f.Stamped? && |f.versions| > 0 && f.versions[0] <= current
  }

  /** The end of a step: replace the store with the migrated copy, then destroy and remove the copy. */
  function ReplaceAndCleanUp(w: World, source: Url, destination: Url): Run
  {
    var (w1, r1) := ReplaceStoreFile(w, source, destination);
    if r1.Failed? then Threw(w1, r1.code)
    else
      var (w2, r2) := DestroyStoreFile(w1, destination);
      if r2.Failed? then Threw(w2, r2.code)
      else
        var (w3, r3) := RemoveFile(w2, destination);
        if r3.Failed? then Threw(w3, r3.code) else Done(w3)
  }

  /** Migrate the store into `<source>.tmp` with metadata `stamp`, then replace and clean up. */
  function MigrateThroughTemporary(w: World, source: Url, stamp: StoreFile): Run
  {
    var destination := TemporaryUrl(source);
    var (w1, r1) := MigrateStoreFile(w, source, destination, stamp);
    if r1.Failed? then Threw(w1, r1.code) else ReplaceAndCleanUp(w1, source, destination)
  }

  /** One iteration of the migration loop, for step `version -> version + 1`. */
  function StepSpec(w: World, source: Url, version: int): Run
  {
    var (w1, fault) := Issue(w, MappingCall(version));
    match DataManager.MigrationManager(version)
    case None => Fatal(w1)
    case Some(pair) =>
      if fault.Some? then Threw(w1, fault.value)
      else MigrateThroughTemporary(w1, source, StampFor(pair.destination))
  }

  /** The loop `for version in from..<current`, stopping at the first step that does not complete. */
  function StepsSpec(w: World, source: Url, from: int, current: int): Run
    decreases current - from
  {
    if from >= current then Done(w)
    else match StepSpec(w, source, from)
      case Done(w1) => StepsSpec(w1, source, from + 1, current)
      case stopped => stopped
  }

  /** The `do` block of `migrateOfNeeded`. */
  function BodySpec(w: World, source: Url, current: int): Run
  {
    var (w1, metadata) := ReadStoreMetadata(w, source);
    if metadata.Failed? then Threw(w1, metadata.code)
    else if !Compatible(metadata.value, current) then
      var (w2, destroyed) := DestroyStoreFile(w1, source);
      if destroyed.Failed? then Threw(w2, destroyed.code) else Done(w2)
    else if metadata.value.versions[0] == current then Done(w1)
    else StepsSpec(w1, source, metadata.value.versions[0], current)
  }

  /** The `catch` block: errors other than NSFileReadNoSuchFileError destroy the store; a failing destroy traps. */
  function CatchSpec(run: Run, source: Url): (World, Outcome)
  {
    match run
    case Done(w) => (w, Finished)
    case Fatal(w) => (w, Trapped)
    case Threw(w, code) =>
      if code == FileReadNoSuchFileError then (w, Finished)
      else
        var (w1, destroyed) := DestroyStoreFile(w, source);
        (w1, if destroyed.Failed? then Trapped else Finished)
  }

  /** `migrateOfNeeded(storeDescription:currentModel:configurator:)`. */
  function MigrateSpec(w: World, description: StoreDescription, currentModel: Model): (World, Outcome)
  {
    match description.url
    case None => (w, Finished)
    case Some(source) =>
      match GetVersion(currentModel)
      case None => (w, Finished)
      case Some(current) => CatchSpec(BodySpec(w, source, current), source)
  }

  /** The `for persistentStoreDescription in …` loop of `init`; a trap ends the process. */
  function MigrateAll(w: World, descriptions: seq<StoreDescription>, currentModel: Model): (World, Outcome)
    decreases |descriptions|
  {
    if |descriptions| == 0 then (w, Finished)
    else
      var (w1, outcome) := MigrateSpec(w, descriptions[0], currentModel);
      if outcome == Trapped then (w1, Trapped)
      else MigrateAll(w1, descriptions[1..], currentModel)
  }

  /** The body `init` dispatches: nothing without store descriptions; else migrate each, then load. */
  function InitializeSpec(w: World, descriptions: seq<StoreDescription>, currentModel: Model): (World, Outcome)
  {
    if |descriptions| == 0 then (w, Finished)
    else
      var (w1, outcome) := MigrateAll(w, descriptions, currentModel);
      if outcome == Trapped then (w1, Trapped)
      else (Issue(w1, LoadCall).0, Finished)
  }

  // ---------------------------------------------------------------------
  // The procedures, imperatively

  method MigrateStep(fs: FileSystem, source: Url, destination: Url, version: int) returns (run: Run)
    requires destination == TemporaryUrl(source)
    modifies fs
    ensures run == StepSpec(old(fs.State()), source, version) && fs.State() == run.w
  {
    var fault := fs.Attempt(MappingCall(version));
    var pair := DataManager.MigrationManager(version);
    if pair.None? {
      return Fatal(fs.State());
    }
    if fault.Some? {
      return Threw(fs.State(), fault.value);
    }
    var r := fs.MigrateStore(source, destination, StampFor(pair.value.destination));
    if r.Failed? {
      return Threw(fs.State(), r.code);
    }
    r := fs.ReplaceStore(source, destination);
    if r.Failed? {
      return Threw(fs.State(), r.code);
    }
    r := fs.DestroyStore(destination);
    if r.Failed? {
      return Threw(fs.State(), r.code);
    }
    r := fs.RemoveItem(destination);
    if r.Failed? {
      return Threw(fs.State(), r.code);
    }
    run := Done(fs.State());
  }

  method MigrateBody(fs: FileSystem, sourceUrl: Url, currentVersion: int) returns (run: Run)
    modifies fs
    ensures run == BodySpec(old(fs.State()), sourceUrl, currentVersion) && fs.State() == run.w
  {
    var metadata := fs.ReadMetadata(sourceUrl);
    if metadata.Failed? {
      return Threw(fs.State(), metadata.code);
    }
    if !Compatible(metadata.value, currentVersion) {
      var destroyed := fs.DestroyStore(sourceUrl);
      if destroyed.Failed? {
        return Threw(fs.State(), destroyed.code);
      }
      return Done(fs.State());
    }
    var oldVersion := metadata.value.versions[0];
    if oldVersion == currentVersion {
      return Done(fs.State());
    }
    var destinationUrl := TemporaryUrl(sourceUrl);
    ghost var start := fs.State();
    var version := oldVersion;
    while version < currentVersion
      invariant oldVersion <= version <= currentVersion
      invariant StepsSpec(start, sourceUrl, oldVersion, currentVersion) == StepsSpec(fs.State(), sourceUrl, version, currentVersion)
      decreases currentVersion - version
    {
      var step := MigrateStep(fs, sourceUrl, destinationUrl, version);
      if !step.Done? {
        return step;
      }
      version := version + 1;
    }
    run := Done(fs.State());
  }

  method MigrateIfNeeded(fs: FileSystem, storeDescription: StoreDescription, currentModel: Model) returns (outcome: Outcome)
    modifies fs
    ensures (fs.State(), outcome) == MigrateSpec(old(fs.State()), storeDescription, currentModel)
  {
    if storeDescription.url.None? {
      return Finished;
    }
    var sourceUrl := storeDescription.url.value;
    var currentVersion := GetVersion(currentModel);
    if currentVersion.None? {
      return Finished;
    }
    var run := MigrateBody(fs, sourceUrl, currentVersion.value);
    if run.Threw? && run.code != FileReadNoSuchFileError {
      var destroyed := fs.DestroyStore(sourceUrl);
      if destroyed.Failed? {
        return Trapped;
      }
    }
    outcome := if run.Fatal? then Trapped else Finished;
  }

  /** `init(configurator:)`: build the current model, migrate every store, then load them. */
  method Initialize(fs: FileSystem, flags: DataManager.BuildFlags, descriptions: seq<StoreDescription>) returns (outcome: Outcome)
    requires DataManager.CurrentVersion(flags).Some?
    modifies fs
    ensures (fs.State(), outcome) == InitializeSpec(old(fs.State()), descriptions, DataManager.CurrentModel(flags).value)
  {
    var model := DataManager.BuildCurrentModel(flags);
    var currentModel := model.Value();
    if |descriptions| == 0 {
      return Finished;
    }
    ghost var start := fs.State();
    var i := 0;
    while i < |descriptions|
      invariant 0 <= i <= |descriptions|
      invariant MigrateAll(start, descriptions, currentModel) == MigrateAll(fs.State(), descriptions[i..], currentModel)
    {
      outcome := MigrateIfNeeded(fs, descriptions[i], currentModel);
      if outcome == Trapped {
        return;
      }
      assert descriptions[i..][1..] == descriptions[i + 1..];
      i := i + 1;
    }
    fs.LoadPersistentStores();
    outcome := Finished;
  }
}
