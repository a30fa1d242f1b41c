/**
 * What `migrateOfNeeded` and the start-up sequence of `init` promise, branch
 * by branch, stated over their specification functions.
 */
module MigrationProperties {
  import opened Wrappers
  import opened ObjectModel
  import opened Storage
  import opened CoreDataManager
  import DataManager

  /** The versions of the migration steps requested in a call log, in order. */
  function Requested(calls: seq<Call>): seq<int>
  {
    if |calls| == 0 then []
    else (if calls[0].MappingCall? then [calls[0].version] else []) + Requested(calls[1..])
  }

  /** `lo, lo + 1, …, hi - 1`. */
  function Range(lo: int, hi: int): seq<int>
    decreases hi - lo
  {
    if lo >= hi then [] else [lo] + Range(lo + 1, hi)
  }

  predicate IsPrefix<T(==)>(a: seq<T>, b: seq<T>)
  {
    |a| <= |b| && b[..|a|] == a
  }

  /** The calls that replace the store with `<source>.tmp` and clean up after it, in order. */
  function CleanUpCalls(source: Url): seq<Call>
  {
    var destination := TemporaryUrl(source);
    [ReplaceCall(source, destination), DestroyCall(destination), RemoveCall(destination)]
  }

  /** The calls that migrate the store into `<source>.tmp` and then replace and clean up, in order. */
  function MigrateCalls(source: Url): seq<Call>
  {
    [MigrateCall(source, TemporaryUrl(source))] + CleanUpCalls(source)
  }

  /** The calls one completed step makes, in order. */
  function StepCalls(source: Url, version: int): seq<Call>
  {
    [MappingCall(version)] + MigrateCalls(source)
  }

  /** The calls the completed steps `lo … hi - 1` make, in order. */
  function StepsCalls(source: Url, lo: int, hi: int): seq<Call>
    decreases hi - lo
  {
    if lo >= hi then [] else StepCalls(source, lo) + StepsCalls(source, lo + 1, hi)
  }

  /** The calls a run made after the log `before`. */
  function NewCalls(before: World, after: World): seq<Call>
    requires |before.log| <= |after.log|
  {
    after.log[|before.log|..]
  }

  /** The log only grows, and the fault plan never changes. */
  predicate Extends(before: World, after: World)
  {
    && after.faults == before.faults
    && |before.log| <= |after.log|
    && after.log[..|before.log|] == before.log
  }

  lemma {:induction false} RequestedAppend(a: seq<Call>, b: seq<Call>)
    ensures Requested(a + b) == Requested(a) + Requested(b)
    decreases |a|
  {
    if |a| == 0 {
      assert a + b == b;
    } else {
      var ab := a + b;
      assert ab[0] == a[0];
      assert ab[1..] == a[1..] + b;
      RequestedAppend(a[1..], b);
      assert Requested(ab) == (if a[0].MappingCall? then [a[0].version] else []) + Requested(ab[1..]);
    }
  }

  lemma RequestedSingle(c: Call)
    ensures Requested([c]) == if c.MappingCall? then [c.version] else []
  {
    assert [c][1..] == [];
  }

  /** Calls that request no migration step and do not load: metadata reads and destroys. */
  predicate Quiet(calls: seq<Call>)
  {
    forall i :: 0 <= i < |calls| ==> calls[i].MetadataCall? || calls[i].DestroyCall?
  }

  lemma {:induction false} QuietRequestsNothing(calls: seq<Call>)
    requires Quiet(calls)
    ensures Requested(calls) == [] && LoadCall !in calls
    decreases |calls|
  {
    if |calls| > 0 {
      assert Quiet(calls[1..]);
      QuietRequestsNothing(calls[1..]);
    }
  }

  lemma QuietConcat(a: seq<Call>, b: seq<Call>)
    requires Quiet(a) && Quiet(b)
    ensures Quiet(a + b)
  {
    forall i | 0 <= i < |a + b|
      ensures (a + b)[i].MetadataCall? || (a + b)[i].DestroyCall?
    {
      if i >= |a| {
        assert (a + b)[i] == b[i - |a|];
      }
    }
  }

  /** Logs compose: what `w0 … w2` added is what `w0 … w1` added and then what `w1 … w2` added. */
  lemma ChainCalls(w0: World, w1: World, w2: World)
    requires Extends(w0, w1) && Extends(w1, w2)
    ensures Extends(w0, w2)
    ensures NewCalls(w0, w2) == NewCalls(w0, w1) + NewCalls(w1, w2)
  {
    assert w1.log == w0.log + NewCalls(w0, w1);
    assert w2.log == w1.log + NewCalls(w1, w2);
    assert w2.log == w0.log + (NewCalls(w0, w1) + NewCalls(w1, w2));
  }

  lemma {:induction false} PrefixOfRange(lo: int, hi: int, s: seq<int>)
    requires lo < hi && IsPrefix(s, Range(lo + 1, hi))
    ensures IsPrefix([lo] + s, Range(lo, hi))
  {
    assert Range(lo, hi) == [lo] + Range(lo + 1, hi);
  }

  lemma AppendAssociates<T>(a: seq<T>, b: seq<T>, c: seq<T>)
    ensures (a + b) + c == a + (b + c)
  {
  }

  lemma ConsTake<T>(x: T, s: seq<T>, n: nat)
    requires n <= |s|
    ensures ([x] + s)[..n + 1] == [x] + s[..n]
  {
  }

  lemma CleanUpLog(w: World, source: Url)
    ensures var run := ReplaceAndCleanUp(w, source, TemporaryUrl(source));
      && run.w.faults == w.faults
      && var n := |run.w.log| - |w.log|;
         && 1 <= n <= 3
         && run.w.log == w.log + CleanUpCalls(source)[..n]
         && (run.Done? ==> n == 3)
  {
  }

  lemma MigrateLog(w: World, source: Url, stamp: StoreFile)
    ensures var run := MigrateThroughTemporary(w, source, stamp);
      && run.w.faults == w.faults
      && var n := |run.w.log| - |w.log|;
         && 1 <= n <= 4
         && run.w.log == w.log + MigrateCalls(source)[..n]
         && (run.Done? ==> n == 4)
  {
    var head := MigrateCall(source, TemporaryUrl(source));
    var w1 := MigrateStoreFile(w, source, TemporaryUrl(source), stamp).0;
    assert w1.log == w.log + [head];
    var run := MigrateThroughTemporary(w, source, stamp);
    if run != ReplaceAndCleanUp(w1, source, TemporaryUrl(source)) {
      assert run.w == w1;
      assert MigrateCalls(source)[..1] == [head];
    } else {
      CleanUpLog(w1, source);
      var m := |run.w.log| - |w1.log|;
      ConsTake(head, CleanUpCalls(source), m);
      AppendAssociates(w.log, [head], CleanUpCalls(source)[..m]);
    }
  }

  /**
   * One step makes the calls of a completed step, in order, up to the first
   * that fails.
   */
  lemma StepLog(w: World, source: Url, version: int)
    ensures var run := StepSpec(w, source, version);
      && Extends(w, run.w)
      && var n := |run.w.log| - |w.log|;
         && 1 <= n <= 5
         && run.w.log == w.log + StepCalls(source, version)[..n]
         && (run.Done? ==> n == 5)
  {
    var head := MappingCall(version);
    var (w1, fault) := Issue(w, head);
    var run := StepSpec(w, source, version);
    var pair := DataManager.MigrationManager(version);
    if pair.None? || fault.Some? {
      assert run.w == w1;
      assert StepCalls(source, version)[..1] == [head];
    } else {
      var stamp := StampFor(pair.value.destination);
      assert run == MigrateThroughTemporary(w1, source, stamp);
      MigrateLog(w1, source, stamp);
      var m := |run.w.log| - |w1.log|;
      ConsTake(head, MigrateCalls(source), m);
      AppendAssociates(w.log, [head], MigrateCalls(source)[..m]);
    }
  }

  lemma StepCallsRequested(source: Url, version: int, n: nat)
    requires 1 <= n <= 5
    ensures Requested(StepCalls(source, version)[..n]) == [version]
    ensures LoadCall !in StepCalls(source, version)[..n]
  {
    var c := StepCalls(source, version)[..n];
    assert c == [MappingCall(version)] + c[1..];
    QuietMappingFree(source, version, n);
    RequestedAppend([MappingCall(version)], c[1..]);
    RequestedSingle(MappingCall(version));
  }

  lemma QuietMappingFree(source: Url, version: int, n: nat)
    requires 1 <= n <= 5
    ensures var c := StepCalls(source, version)[..n];
      Requested(c[1..]) == [] && LoadCall !in c[1..]
  {
    var c := StepCalls(source, version)[..n];
    NoMappingNoneRequested(c[1..]);
  }

  /**
   * The loop requests its steps in ascending order, once each, starting at
   * `lo` and stopping early only when a step does not complete; when it
   * completes, it has requested exactly `lo, …, hi - 1`. It never loads.
   */
  lemma {:induction false} StepsRequestInOrder(w: World, source: Url, lo: int, hi: int)
    ensures var run := StepsSpec(w, source, lo, hi);
      && Extends(w, run.w)
      && IsPrefix(Requested(NewCalls(w, run.w)), Range(lo, hi))
      && (run.Done? ==> Requested(NewCalls(w, run.w)) == Range(lo, hi))
      && LoadCall !in NewCalls(w, run.w)
    decreases hi - lo
  {
    var run := StepsSpec(w, source, lo, hi);
    if lo >= hi {
      assert NewCalls(w, run.w) == [];
    } else {
      var step := StepSpec(w, source, lo);
      StepLog(w, source, lo);
      var n := |step.w.log| - |w.log|;
      var first := StepCalls(source, lo)[..n];
      StepCallsRequested(source, lo, n);
      assert NewCalls(w, step.w) == first;
      if step.Done? {
        StepsRequestInOrder(step.w, source, lo + 1, hi);
        var rest := NewCalls(step.w, run.w);
        ChainCalls(w, step.w, run.w);
        RequestedAppend(first, rest);
        PrefixOfRange(lo, hi, Requested(rest));
      } else {
        assert run == step;
        assert IsPrefix([lo], Range(lo, hi));
      }
    }
  }

  /**
   * Chain composition: running the steps `a … c - 1` is running `a … b - 1`
   * and then, if those completed, `b … c - 1`.
   */
  lemma {:induction false} StepsCompose(w: World, source: Url, a: int, b: int, c: int)
    requires a <= b <= c
    ensures StepsSpec(w, source, a, c) ==
      match StepsSpec(w, source, a, b)
      case Done(w1) => StepsSpec(w1, source, b, c)
      case stopped => stopped
    decreases b - a
  {
    if a < b {
      match StepSpec(w, source, a)
      case Done(w1) => StepsCompose(w1, source, a + 1, b, c);
      case _ =>
    }
  }

  /** The stamp a store gets when migrated to registry model v. */
  lemma RegistryStamp(v: nat)
    requires v <= 3
    ensures StampFor(DataManager.ModelFor(v)) == Stamped([v])
  {
    DataManager.ModelVersionStamps();
    assert DataManager.ModelFor(v).versionIdentifiers == [IntIdentifier(v)];
    var ids := [IntIdentifier(v)];
    assert ids[1..] == [];
    assert IntVersions(ids[1..]) == Some([]);
    assert [ids[0].n] + [] == [v];
    assert IntVersions(ids) == Some([v]);
  }

  /**
   * Without faults, a registered step migrates into `<source>.tmp`, replaces
   * the store with it, and destroys and removes the temporary file: the store
   * ends stamped with the next version and no temporary file is left.
   */
  lemma StepWithoutFaults(w: World, source: Url, version: int)
    requires FaultFree(w) && source in w.files
    requires 0 <= version <= 2
    ensures StepSpec(w, source, version) ==
      Done(World(w.files[source := Stamped([version + 1])] - {TemporaryUrl(source)}, w.faults,
                 w.log + StepCalls(source, version)))
  {
    RegistryStamp(version + 1);
    var destination := TemporaryUrl(source);
    assert source != destination by {
      assert |destination| == |source| + 4;
    }
    var w1 := Issue(w, MappingCall(version)).0;
    assert StepSpec(w, source, version) == MigrateThroughTemporary(w1, source, Stamped([version + 1]));
    var w2 := World(w.files[destination := Stamped([version + 1])], w.faults, w1.log + [MigrateCall(source, destination)]);
    assert MigrateThroughTemporary(w1, source, Stamped([version + 1])) == ReplaceAndCleanUp(w2, source, destination);
    CleanUpWithoutFaults(w2, source);
  }

  lemma CleanUpWithoutFaults(w: World, source: Url)
    requires FaultFree(w) && TemporaryUrl(source) in w.files
    ensures var destination := TemporaryUrl(source);
      ReplaceAndCleanUp(w, source, destination) ==
        Done(World(w.files[source := w.files[destination]] - {destination}, w.faults, w.log + CleanUpCalls(source)))
  {
  }

  /**
   * Without faults, the steps `lo … hi - 1` from a registered version all
   * complete: the store ends stamped `[hi]`, the temporary file is gone, and
   * the calls are exactly those of the steps, in order.
   */
  lemma {:induction false} StepsWithoutFaults(w: World, source: Url, lo: int, hi: int)
    requires FaultFree(w) && source in w.files
    requires 0 <= lo < hi <= 3
    ensures StepsSpec(w, source, lo, hi) ==
      Done(World(w.files[source := Stamped([hi])] - {TemporaryUrl(source)}, w.faults,
                 w.log + StepsCalls(source, lo, hi)))
    decreases hi - lo
  {
    StepWithoutFaults(w, source, lo);
    var first, rest := StepCalls(source, lo), StepsCalls(source, lo + 1, hi);
    var w1 := World(w.files[source := Stamped([lo + 1])] - {TemporaryUrl(source)}, w.faults, w.log + first);
    assert StepsSpec(w, source, lo, hi) == StepsSpec(w1, source, lo + 1, hi);
    assert StepsCalls(source, lo, hi) == first + rest;
    if lo + 1 < hi {
      assert FaultFree(w1);
      StepsWithoutFaults(w1, source, lo + 1, hi);
      StepFilesCompose(w.files, source, lo + 1, hi);
      AppendAssociates(w.log, first, rest);
    } else {
      assert rest == [];
    }
  }

  lemma StepFilesCompose(files: map<Url, StoreFile>, source: Url, mid: int, hi: int)
    ensures var tmp := TemporaryUrl(source);
      (files[source := Stamped([mid])] - {tmp})[source := Stamped([hi])] - {tmp} == files[source := Stamped([hi])] - {tmp}
  {
    var tmp := TemporaryUrl(source);
    assert source != tmp by {
      assert |tmp| == |source| + 4;
    }
  }

  /** Registered versions never reach the registry's `fatalError()`. */
  lemma {:induction false} StepsNeverFatal(w: World, source: Url, lo: int, hi: int)
    requires 0 <= lo && hi <= 3
    ensures !StepsSpec(w, source, lo, hi).Fatal?
    decreases hi - lo
  {
    if lo < hi {
      match StepSpec(w, source, lo)
      case Done(w1) => StepsNeverFatal(w1, source, lo + 1, hi);
      case _ =>
    }
  }

  // ---------------------------------------------------------------------
  // migrateOfNeeded, branch by branch

  /** The store at `source` is older than `current`: an integer version list whose first element is below it. */
  predicate Older(w: World, source: Url, current: int)
  {
    source in w.files && Compatible(w.files[source], current) && w.files[source].versions[0] < current
  }

  /** Without a store URL, or when the current model carries no integer version, nothing happens. */
  lemma NothingToDo(w: World, description: StoreDescription, currentModel: Model)
    requires description.url.None? || GetVersion(currentModel).None?
    ensures MigrateSpec(w, description, currentModel) == (w, Finished)
  {
  }

  /** No store on disk yet: the metadata read fails with NSFileReadNoSuchFileError and nothing else happens. */
  lemma AbsentStoreLeftAlone(w: World, source: Url, currentModel: Model)
    requires GetVersion(currentModel).Some?
    requires source !in w.files && NextFault(w).None?
    ensures MigrateSpec(w, StoreDescription(Some(source)), currentModel) ==
      (w.(log := w.log + [MetadataCall(source)]), Finished)
  {
  }

  /** A store at the current version is left untouched. */
  lemma CurrentStoreLeftAlone(w: World, source: Url, currentModel: Model)
    requires GetVersion(currentModel).Some?
    requires source in w.files && w.files[source].Stamped? && |w.files[source].versions| > 0
    requires w.files[source].versions[0] == GetVersion(currentModel).value
    requires NextFault(w).None?
    ensures MigrateSpec(w, StoreDescription(Some(source)), currentModel) ==
      (w.(log := w.log + [MetadataCall(source)]), Finished)
  {
  }

  /** The `catch` block only ever adds a destroy of the store. */
  lemma CatchLog(run: Run, source: Url)
    ensures var (w1, _) := CatchSpec(run, source);
      Extends(run.w, w1) && Quiet(NewCalls(run.w, w1))
  {
    var (w1, _) := CatchSpec(run, source);
    if run.Threw? && run.code != FileReadNoSuchFileError {
      assert NewCalls(run.w, w1) == [DestroyCall(source)];
    } else {
      assert NewCalls(run.w, w1) == [];
    }
  }

  /** Unless the metadata read succeeds on an older store, the `do` block only reads metadata and destroys. */
  lemma QuietBody(w: World, source: Url, current: int)
    requires NextFault(w).Some? || !Older(w, source, current)
    ensures var body := BodySpec(w, source, current);
      Extends(w, body.w) && Quiet(NewCalls(w, body.w))
  {
    var (wm, metadata) := ReadStoreMetadata(w, source);
    var body := BodySpec(w, source, current);
    if metadata.Ok? && !Compatible(metadata.value, current) {
      assert NewCalls(w, body.w) == [MetadataCall(source), DestroyCall(source)];
    } else {
      assert NewCalls(w, body.w) == [MetadataCall(source)];
    }
  }

  /** When the metadata read succeeds on an older store, the `do` block runs the steps from its version. */
  lemma StepsBody(w: World, source: Url, current: int)
    requires NextFault(w).None? && Older(w, source, current)
    ensures BodySpec(w, source, current) ==
      StepsSpec(Issue(w, MetadataCall(source)).0, source, w.files[source].versions[0], current)
  {
  }

  /**
   * A store without an integer version list, or one newer than the current
   * model, is never migrated; without faults it is destroyed.
   */
  lemma IncompatibleStoreDestroyed(w: World, source: Url, currentModel: Model)
    requires GetVersion(currentModel).Some?
    requires source in w.files && !Compatible(w.files[source], GetVersion(currentModel).value)
    ensures var (w1, outcome) := MigrateSpec(w, StoreDescription(Some(source)), currentModel);
      && Extends(w, w1)
      && Requested(NewCalls(w, w1)) == []
      && (FaultFree(w) ==>
            && outcome == Finished
            && w1.files == w.files - {source}
            && w1.log == w.log + [MetadataCall(source), DestroyCall(source)])
  {
    var current := GetVersion(currentModel).value;
    var body := BodySpec(w, source, current);
    var (w1, outcome) := MigrateSpec(w, StoreDescription(Some(source)), currentModel);
    QuietBody(w, source, current);
    CatchLog(body, source);
    ChainCalls(w, body.w, w1);
    QuietConcat(NewCalls(w, body.w), NewCalls(body.w, w1));
    QuietRequestsNothing(NewCalls(w, w1));
  }

  lemma {:induction false} NoMappingNoneRequested(calls: seq<Call>)
    requires forall i :: 0 <= i < |calls| ==> !calls[i].MappingCall?
    ensures Requested(calls) == []
  {
    if |calls| > 0 {
      NoMappingNoneRequested(calls[1..]);
    }
  }

  /**
   * Without faults, a store at registered version `old` below a registered
   * current version is migrated step by step to the current version, through
   * `<source>.tmp`, which is gone afterwards.
   */
  lemma OlderStoreMigrated(w: World, source: Url, currentModel: Model)
    requires FaultFree(w)
    requires GetVersion(currentModel).Some? && GetVersion(currentModel).value <= 3
    requires Older(w, source, GetVersion(currentModel).value) && w.files[source].versions[0] >= 0
    ensures var current := GetVersion(currentModel).value;
      var oldVersion := w.files[source].versions[0];
      MigrateSpec(w, StoreDescription(Some(source)), currentModel) ==
        (World(w.files[source := Stamped([current])] - {TemporaryUrl(source)}, w.faults,
               w.log + [MetadataCall(source)] + StepsCalls(source, oldVersion, current)),
         Finished)
  {
    var current := GetVersion(currentModel).value;
    var w1 := ReadStoreMetadata(w, source).0;
    assert FaultFree(w1);
    StepsWithoutFaults(w1, source, w.files[source].versions[0], current);
  }

  /**
   * Whatever fails, the steps requested are `old, old + 1, …` in ascending
   * order, once each, and only for a store older than the current model;
   * migration never loads the stores.
   */
  lemma MigrationRequestsStepsInOrder(w: World, description: StoreDescription, currentModel: Model)
    ensures var (w1, _) := MigrateSpec(w, description, currentModel);
      && Extends(w, w1)
      && LoadCall !in NewCalls(w, w1)
      && if description.url.Some? && GetVersion(currentModel).Some?
            && Older(w, description.url.value, GetVersion(currentModel).value)
         then IsPrefix(Requested(NewCalls(w, w1)),
                       Range(w.files[description.url.value].versions[0], GetVersion(currentModel).value))
         else Requested(NewCalls(w, w1)) == []
  {
    var (w1, _) := MigrateSpec(w, description, currentModel);
    if description.url.Some? && GetVersion(currentModel).Some? {
      var source, current := description.url.value, GetVersion(currentModel).value;
      var body := BodySpec(w, source, current);
      CatchLog(body, source);
      var tail := NewCalls(body.w, w1);
      QuietRequestsNothing(tail);
      if NextFault(w).None? && Older(w, source, current) {
        var wm := Issue(w, MetadataCall(source)).0;
        StepsBody(w, source, current);
        StepsRequestInOrder(wm, source, w.files[source].versions[0], current);
        var steps := NewCalls(wm, body.w);
        assert NewCalls(w, wm) == [MetadataCall(source)];
        ChainCalls(w, wm, body.w);
        ChainCalls(w, body.w, w1);
        RequestedSingle(MetadataCall(source));
        RequestedAppend([MetadataCall(source)], steps);
        RequestedAppend([MetadataCall(source)] + steps, tail);
      } else {
        QuietBody(w, source, current);
        ChainCalls(w, body.w, w1);
        QuietConcat(NewCalls(w, body.w), tail);
        QuietRequestsNothing(NewCalls(w, w1));
      }
    } else {
      assert NewCalls(w, w1) == [];
    }
  }

  /**
   * With a registered current version and a store whose stamp is not
   * negative, every requested step is one the registry knows, so its
   * `fatalError()` is never reached; a trap can then only come from a
   * failing destroy in the error handler.
   */
  lemma RegistryNeverTraps(w: World, source: Url, currentModel: Model)
    requires GetVersion(currentModel).Some? && GetVersion(currentModel).value <= 3
    requires Older(w, source, GetVersion(currentModel).value) ==> w.files[source].versions[0] >= 0
    ensures var (w1, outcome) := MigrateSpec(w, StoreDescription(Some(source)), currentModel);
      && |w.log| <= |w1.log|
      && (forall v :: v in Requested(NewCalls(w, w1)) ==> 0 <= v <= 2 && DataManager.MigrationManager(v).Some?)
      && (outcome == Trapped ==>
            |w1.log| > 0 && w1.log[|w1.log| - 1] == DestroyCall(source) && |w1.log| - 1 in w.faults)
  {
    var current := GetVersion(currentModel).value;
    var description := StoreDescription(Some(source));
    MigrationRequestsStepsInOrder(w, description, currentModel);
    var (w1, outcome) := MigrateSpec(w, description, currentModel);
    var body := BodySpec(w, source, current);
    if NextFault(w).None? && Older(w, source, current) {
      var oldVersion := w.files[source].versions[0];
      RangeBounds(oldVersion, current, Requested(NewCalls(w, w1)));
      StepsBody(w, source, current);
      StepsNeverFatal(Issue(w, MetadataCall(source)).0, source, oldVersion, current);
      StepsRequestInOrder(Issue(w, MetadataCall(source)).0, source, oldVersion, current);
    } else {
      QuietBody(w, source, current);
      NotFatalUnlessSteps(w, source, current);
    }
    assert body.w.faults == w.faults;
    CatchTraps(body, source);
  }

  /** The `do` block reaches `fatalError()` only through the steps. */
  lemma NotFatalUnlessSteps(w: World, source: Url, current: int)
    requires NextFault(w).Some? || !Older(w, source, current)
    ensures !BodySpec(w, source, current).Fatal?
  {
  }

  /** Unless the `do` block trapped, the procedure traps only when the destroy in the `catch` block fails. */
  lemma CatchTraps(run: Run, source: Url)
    requires !run.Fatal?
    ensures var (w1, outcome) := CatchSpec(run, source);
      outcome == Trapped ==>
        && w1.log == run.w.log + [DestroyCall(source)]
        && |run.w.log| in run.w.faults
  {
  }

  lemma {:induction false} RangeBounds(lo: int, hi: int, s: seq<int>)
    requires IsPrefix(s, Range(lo, hi))
    ensures forall v :: v in s ==> lo <= v < hi
    decreases hi - lo
  {
    if lo < hi && |s| > 0 {
      assert s == [lo] + s[1..];
      RangeBounds(lo + 1, hi, s[1..]);
    }
  }

  /**
   * Error handling: NSFileReadNoSuchFileError ends the procedure quietly;
   * any other error destroys the store at the source URL, and a failing
   * destroy traps.
   */
  lemma ErrorHandling(w: World, source: Url, currentModel: Model)
    requires GetVersion(currentModel).Some?
    requires BodySpec(w, source, GetVersion(currentModel).value).Threw?
    ensures var run := BodySpec(w, source, GetVersion(currentModel).value);
      var (w1, outcome) := MigrateSpec(w, StoreDescription(Some(source)), currentModel);
      && (run.code == FileReadNoSuchFileError ==> w1 == run.w && outcome == Finished)
      && (run.code != FileReadNoSuchFileError ==>
            && w1.log == run.w.log + [DestroyCall(source)]
            && (outcome == Trapped <==> NextFault(run.w).Some?)
            && (outcome == Finished ==> source !in w1.files))
  {
  }

  /**
   * Without faults, with a registered current version and no negative stamp,
   * the procedure finishes and the store is either gone or at the current
   * version; a store that was there and not destroyed never keeps an older
   * or newer stamp.
   */
  lemma FaultFreeStoreEndsCurrentOrGone(w: World, source: Url, currentModel: Model)
    requires FaultFree(w)
    requires GetVersion(currentModel).Some? && 0 <= GetVersion(currentModel).value <= 3
    requires Older(w, source, GetVersion(currentModel).value) ==> w.files[source].versions[0] >= 0
    ensures var (w1, outcome) := MigrateSpec(w, StoreDescription(Some(source)), currentModel);
      && outcome == Finished
      && FaultFree(w1)
      && (source in w1.files ==> AtVersion(w1.files[source], GetVersion(currentModel).value))
      && (forall u :: u in w1.files && u != source ==> u in w.files && w1.files[u] == w.files[u])
      && (forall u :: u in w.files && u != source && u != TemporaryUrl(source) ==> u in w1.files)
  {
    var current := GetVersion(currentModel).value;
    if source !in w.files {
      AbsentStoreLeftAlone(w, source, currentModel);
    } else if !Compatible(w.files[source], current) {
      IncompatibleStoreDestroyed(w, source, currentModel);
    } else if w.files[source].versions[0] == current {
      CurrentStoreLeftAlone(w, source, currentModel);
    } else {
      OlderStoreMigrated(w, source, currentModel);
    }
  }

  /**
   * A store stamped with a negative version older than the current one makes
   * the loop ask the registry for that version's step, whose `default` case
   * is `fatalError()`: the procedure traps after the metadata read and the
   * mapping request, without touching the disk.
   */
  lemma NegativeStampTraps(w: World, source: Url, currentModel: Model)
    requires GetVersion(currentModel).Some?
    requires Older(w, source, GetVersion(currentModel).value) && w.files[source].versions[0] < 0
    requires NextFault(w).None?
    ensures var v := w.files[source].versions[0];
      MigrateSpec(w, StoreDescription(Some(source)), currentModel) ==
        (w.(log := w.log + [MetadataCall(source), MappingCall(v)]), Trapped)
  {
    var current, v := GetVersion(currentModel).value, w.files[source].versions[0];
    StepsBody(w, source, current);
    var wm := Issue(w, MetadataCall(source)).0;
    var w2 := Issue(wm, MappingCall(v)).0;
    assert StepSpec(wm, source, v) == Fatal(w2);
    assert BodySpec(w, source, current) == Fatal(w2);
    AppendAssociates(w.log, [MetadataCall(source)], [MappingCall(v)]);
    assert [MetadataCall(source)] + [MappingCall(v)] == [MetadataCall(source), MappingCall(v)];
    assert w2 == w.(log := w.log + [MetadataCall(source), MappingCall(v)]);
  }

  /** From the log `w.log` on, the only call that fails is the k-th, with error `code`. */
  predicate OnlyFaultAt(w: World, k: nat, code: int)
  {
    && |w.log| + k in w.faults
    && w.faults[|w.log| + k] == code
    && forall j :: j in w.faults ==> j < |w.log| || j == |w.log| + k
  }

  /**
   * A step that fails before the replace does not leave the store intact:
   * when `migrateStore` fails during the first step with an error other than
   * NSFileReadNoSuchFileError, the catch block destroys the store itself.
   */
  lemma FailedMigrateDestroysStore(w: World, source: Url, currentModel: Model, code: int)
    requires GetVersion(currentModel).Some? && GetVersion(currentModel).value <= 3
    requires Older(w, source, GetVersion(currentModel).value) && w.files[source].versions[0] >= 0
    requires code != FileReadNoSuchFileError && OnlyFaultAt(w, 2, code)
    ensures var v := w.files[source].versions[0];
      var (w1, outcome) := MigrateSpec(w, StoreDescription(Some(source)), currentModel);
      && outcome == Finished
      && source !in w1.files
      && w1.files == w.files - {source}
      && w1.log == w.log + [MetadataCall(source), MappingCall(v), MigrateCall(source, TemporaryUrl(source)), DestroyCall(source)]
  {
    var current, v := GetVersion(currentModel).value, w.files[source].versions[0];
    var tmp := TemporaryUrl(source);
    StepsBody(w, source, current);
    var wm := Issue(w, MetadataCall(source)).0;
    var w2 := Issue(wm, MappingCall(v)).0;
    var w3 := w2.(log := w2.log + [MigrateCall(source, tmp)]);
    assert MigrateThroughTemporary(w2, source, StampFor(DataManager.ModelFor(v + 1))) == Threw(w3, code);
    assert StepSpec(wm, source, v) == Threw(w3, code);
    assert BodySpec(w, source, current) == Threw(w3, code);
  }

  /**
   * Nothing cleans up after a failed step: when `replacePersistentStore`
   * fails during the first step with an error other than
   * NSFileReadNoSuchFileError, the catch block destroys the store, and only
   * the migrated copy at `<source>.tmp` is left in its place.
   */
  lemma FailedReplaceLeavesOnlyTemporaryCopy(w: World, source: Url, currentModel: Model, code: int)
    requires GetVersion(currentModel).Some? && GetVersion(currentModel).value <= 3
    requires Older(w, source, GetVersion(currentModel).value) && w.files[source].versions[0] >= 0
    requires code != FileReadNoSuchFileError && OnlyFaultAt(w, 3, code)
    ensures var v := w.files[source].versions[0];
      var tmp := TemporaryUrl(source);
      var (w1, outcome) := MigrateSpec(w, StoreDescription(Some(source)), currentModel);
      && outcome == Finished
      && source !in w1.files
      && tmp in w1.files && w1.files[tmp] == Stamped([v + 1])
      && w1.files == w.files[tmp := Stamped([v + 1])] - {source}
      && w1.log == w.log + [MetadataCall(source), MappingCall(v), MigrateCall(source, tmp), ReplaceCall(source, tmp), DestroyCall(source)]
  {
    var current, v := GetVersion(currentModel).value, w.files[source].versions[0];
    var tmp := TemporaryUrl(source);
    assert source != tmp by {
      assert |tmp| == |source| + 4;
    }
    RegistryStamp(v + 1);
    StepsBody(w, source, current);
    var wm := Issue(w, MetadataCall(source)).0;
    var w2 := Issue(wm, MappingCall(v)).0;
    var w3 := World(w.files[tmp := Stamped([v + 1])], w.faults, w2.log + [MigrateCall(source, tmp)]);
    var w4 := w3.(log := w3.log + [ReplaceCall(source, tmp)]);
    assert ReplaceAndCleanUp(w3, source, tmp) == Threw(w4, code);
    assert MigrateThroughTemporary(w2, source, Stamped([v + 1])) == Threw(w4, code);
    assert StepSpec(wm, source, v) == Threw(w4, code);
    assert BodySpec(w, source, current) == Threw(w4, code);
  }

  // ---------------------------------------------------------------------
  // init

  /** A migration run starts with reading the store's metadata when it has a URL and a current version. */
  lemma MigrateReadsFirst(w: World, description: StoreDescription, currentModel: Model)
    requires description.url.Some? && GetVersion(currentModel).Some?
    ensures var (w1, _) := MigrateSpec(w, description, currentModel);
      |w.log| < |w1.log| && w1.log[|w.log|] == MetadataCall(description.url.value)
  {
    var source, current := description.url.value, GetVersion(currentModel).value;
    var wm := ReadStoreMetadata(w, source).0;
    var body := BodySpec(w, source, current);
    assert Extends(wm, body.w) by {
      var (_, metadata) := ReadStoreMetadata(w, source);
      if metadata.Ok? && Compatible(metadata.value, current) && metadata.value.versions[0] < current {
        StepsRequestInOrder(wm, source, metadata.value.versions[0], current);
      }
    }
  }

  /**
   * The migrations `init` runs make no load call, keep the fault plan, and
   * read the metadata of every described store that has a URL.
   */
  lemma {:induction false} MigrateAllLog(w: World, descriptions: seq<StoreDescription>, currentModel: Model)
    ensures var (w1, _) := MigrateAll(w, descriptions, currentModel);
      && Extends(w, w1)
      && LoadCall !in NewCalls(w, w1)
    ensures var (w1, outcome) := MigrateAll(w, descriptions, currentModel);
      outcome == Finished && GetVersion(currentModel).Some? ==>
        forall i :: 0 <= i < |descriptions| && descriptions[i].url.Some? ==>
          MetadataCall(descriptions[i].url.value) in NewCalls(w, w1)
    decreases |descriptions|
  {
    if |descriptions| > 0 {
      var (wm, outcome) := MigrateSpec(w, descriptions[0], currentModel);
      MigrationRequestsStepsInOrder(w, descriptions[0], currentModel);
      var first := NewCalls(w, wm);
      if outcome != Trapped {
        MigrateAllLog(wm, descriptions[1..], currentModel);
        var (w1, outcome1) := MigrateAll(wm, descriptions[1..], currentModel);
        var rest := NewCalls(wm, w1);
        assert NewCalls(w, w1) == first + rest;
        if outcome1 == Finished && GetVersion(currentModel).Some? {
          forall i | 0 <= i < |descriptions| && descriptions[i].url.Some?
            ensures MetadataCall(descriptions[i].url.value) in NewCalls(w, w1)
          {
            if i == 0 {
              MigrateReadsFirst(w, descriptions[0], currentModel);
              assert first[0] == MetadataCall(descriptions[0].url.value);
            } else {
              assert descriptions[1..][i - 1] == descriptions[i];
            }
          }
        }
      }
    } else {
      assert NewCalls(w, w) == [];
    }
  }

  /**
   * `init` loads the stores once, as its last call, after `migrateOfNeeded`
   * has run for every store description; without descriptions it does
   * nothing, and a trap during migration means the stores are never loaded.
   */
  lemma InitializeMigratesBeforeLoading(w: World, descriptions: seq<StoreDescription>, currentModel: Model)
    ensures var (w1, outcome) := InitializeSpec(w, descriptions, currentModel);
      && Extends(w, w1)
      && (|descriptions| == 0 ==> w1 == w && outcome == Finished)
      && (outcome == Trapped ==> LoadCall !in NewCalls(w, w1))
      && (outcome == Finished && |descriptions| > 0 ==>
            var calls := NewCalls(w, w1);
            && |calls| > 0
            && calls[|calls| - 1] == LoadCall
            && LoadCall !in calls[..|calls| - 1]
            && (GetVersion(currentModel).Some? ==>
                  forall i :: 0 <= i < |descriptions| && descriptions[i].url.Some? ==>
                    MetadataCall(descriptions[i].url.value) in calls[..|calls| - 1]))
  {
    if |descriptions| > 0 {
      MigrateAllLog(w, descriptions, currentModel);
      var (wm, outcome) := MigrateAll(w, descriptions, currentModel);
      if outcome != Trapped {
        var w1 := Issue(wm, LoadCall).0;
        var calls := NewCalls(w, w1);
        assert calls[..|calls| - 1] == NewCalls(w, wm);
      }
    }
  }

  /** A store whose integer version list starts with `v`. */
  predicate AtVersion(f: StoreFile, v: int)
  {
    f.Stamped? && |f.versions| > 0 && f.versions[0] == v
  }

  /** Stamps on disk are never negative. */
  predicate NoNegativeStamps(w: World)
  {
    forall u :: u in w.files && w.files[u].Stamped? && |w.files[u].versions| > 0 ==> w.files[u].versions[0] >= 0
  }

  /**
   * Start-up without faults and with no negative stamps on disk: every
   * migration finishes, and afterwards each store on disk is either one that
   * was already there, untouched, or a described store at the current
   * version.
   */
  lemma {:induction false} StartupWithoutFaults(w: World, descriptions: seq<StoreDescription>, currentModel: Model)
    requires GetVersion(currentModel).Some? && 0 <= GetVersion(currentModel).value <= 3
    requires FaultFree(w) && NoNegativeStamps(w)
    ensures var (w1, outcome) := MigrateAll(w, descriptions, currentModel);
      && outcome == Finished
      && FaultFree(w1)
      && forall u :: u in w1.files ==>
           || (u in w.files && w1.files[u] == w.files[u])
           || (AtVersion(w1.files[u], GetVersion(currentModel).value) && StoreDescription(Some(u)) in descriptions)
    decreases |descriptions|
  {
    if |descriptions| > 0 {
      var d := descriptions[0];
      var (wm, _) := MigrateSpec(w, d, currentModel);
      if d.url.Some? {
        FaultFreeStoreEndsCurrentOrGone(w, d.url.value, currentModel);
      } else {
        NothingToDo(w, d, currentModel);
      }
      assert NoNegativeStamps(wm);
      StartupWithoutFaults(wm, descriptions[1..], currentModel);
      var (w1, _) := MigrateAll(wm, descriptions[1..], currentModel);
      forall u | u in w1.files
        ensures || (u in w.files && w1.files[u] == w.files[u])
                || (AtVersion(w1.files[u], GetVersion(currentModel).value) && StoreDescription(Some(u)) in descriptions)
      {
        if StoreDescription(Some(u)) in descriptions[1..] {
          assert StoreDescription(Some(u)) in descriptions;
        }
      }
    }
  }
}
