/**
 * The world outside the process that store migration talks to: the store
 * files on disk, keyed by URL, and the Core Data and FileManager calls that
 * read, migrate, replace, destroy and remove them. What those calls do to
 * the bytes of a store is opaque; what matters here is which store state a
 * URL holds afterwards and whether the call threw.
 *
 * Any call may fail. A World carries a fault plan, `faults`: the call made
 * when the log holds k calls fails with error code `faults[k]` when k is a
 * key. Every call is appended to the log, failed or not.
 */
module Storage {
  import opened Wrappers

  type Url = string

  /** Cocoa's NSFileReadNoSuchFileError: the file to read does not exist. */
  const FileReadNoSuchFileError: int := 260

  /**
   * What the metadata of a store on disk says about its model version:
   * an integer version list, or no integer version list at all.
   */
  datatype StoreFile = Stamped(versions: seq<int>) | Unstamped

  datatype Call =
    | MetadataCall(url: Url)
    | MappingCall(version: int)
    | MigrateCall(source: Url, destination: Url)
    | ReplaceCall(target: Url, source: Url)
    | DestroyCall(url: Url)
    | RemoveCall(url: Url)
    | LoadCall

  datatype World = World(files: map<Url, StoreFile>, faults: map<nat, int>, log: seq<Call>)

  datatype Reply<+T> = Ok(value: T) | Failed(code: int)

  /** The error the next call fails with, by the fault plan. */
  function NextFault(w: World): Option<int>
  {
    if |w.log| in w.faults then Some(w.faults[|w.log|]) else None
  }

  /** No call from now on fails by the fault plan. */
  predicate FaultFree(w: World)
  {
    forall k :: k in w.faults ==> k < |w.log|
  }

  /** Make a call: log it and report the fault the plan holds for it. */
  function Issue(w: World, c: Call): (World, Option<int>)
  {
    (w.(log := w.log + [c]), NextFault(w))
  }

  /** `metadataForPersistentStore(ofType:at:)`: reading an absent store fails with NSFileReadNoSuchFileError. */
  function ReadStoreMetadata(w: World, url: Url): (World, Reply<StoreFile>)
  {
    var (w1, fault) := Issue(w, MetadataCall(url));
    if fault.Some? then (w1, Failed(fault.value))
    else if url !in w.files then (w1, Failed(FileReadNoSuchFileError))
    else (w1, Ok(w.files[url]))
  }

  /** `migrateStore(from:…toDestinationURL:…)`: writes a store stamped `stamp` at the destination. */
  function MigrateStoreFile(w: World, source: Url, destination: Url, stamp: StoreFile): (World, Reply<()>)
  {
    var (w1, fault) := Issue(w, MigrateCall(source, destination));
    if fault.Some? then (w1, Failed(fault.value))
    else if source !in w.files then (w1, Failed(FileReadNoSuchFileError))
    else (w1.(files := w.files[destination := stamp]), Ok(()))
  }

  /** `replacePersistentStore(at:…withPersistentStoreFrom:…)`: the target takes the source's contents; the source stays. */
  function ReplaceStoreFile(w: World, target: Url, source: Url): (World, Reply<()>)
  {
    var (w1, fault) := Issue(w, ReplaceCall(target, source));
    if fault.Some? then (w1, Failed(fault.value))
    else if source !in w.files then (w1, Failed(FileReadNoSuchFileError))
    else (w1.(files := w.files[target := w.files[source]]), Ok(()))
  }

  /** `destroyPersistentStore(at:…)`: the store at the URL is gone. */
  function DestroyStoreFile(w: World, url: Url): (World, Reply<()>)
  {
    var (w1, fault) := Issue(w, DestroyCall(url));
    if fault.Some? then (w1, Failed(fault.value))
    else (w1.(files := w.files - {url}), Ok(()))
  }

  /** `FileManager.removeItem(at:)`: nothing is left at the URL. */
  function RemoveFile(w: World, url: Url): (World, Reply<()>)
  {
    var (w1, fault) := Issue(w, RemoveCall(url));
    if fault.Some? then (w1, Failed(fault.value))
    else (w1.(files := w.files - {url}), Ok(()))
  }

  /** The disk and the calls made on it, as an object the migration code updates. */
  class FileSystem {
    var files: map<Url, StoreFile>
    const faults: map<nat, int>
    var log: seq<Call>

    constructor (files: map<Url, StoreFile>, faults: map<nat, int>)
      ensures State() == World(files, faults, [])
    {
      this.files := files;
      this.faults := faults;
      log := [];
    }

    function State(): World
      reads this
    {
      World(files, faults, log)
    }

    method Attempt(c: Call) returns (fault: Option<int>)
      modifies this
      ensures (State(), fault) == Issue(old(State()), c)
    {
      fault := if |log| in faults then Some(faults[|log|]) else None;
      log := log + [c];
    }

    method ReadMetadata(url: Url) returns (r: Reply<StoreFile>)
      modifies this
      ensures (State(), r) == ReadStoreMetadata(old(State()), url)
    {
      var fault := Attempt(MetadataCall(url));
      if fault.Some? {
        r := Failed(fault.value);
      } else if url !in files {
        r := Failed(FileReadNoSuchFileError);
      } else {
        r := Ok(files[url]);
      }
    }

    method MigrateStore(source: Url, destination: Url, stamp: StoreFile) returns (r: Reply<()>)
      modifies this
      ensures (State(), r) == MigrateStoreFile(old(State()), source, destination, stamp)
    {
      var fault := Attempt(MigrateCall(source, destination));
      if fault.Some? {
        r := Failed(fault.value);
      } else if source !in files {
        r := Failed(FileReadNoSuchFileError);
      } else {
        files := files[destination := stamp];
        r := Ok(());
      }
    }

    method ReplaceStore(target: Url, source: Url) returns (r: Reply<()>)
      modifies this
      ensures (State(), r) == ReplaceStoreFile(old(State()), target, source)
    {
      var fault := Attempt(ReplaceCall(target, source));
      if fault.Some? {
        r := Failed(fault.value);
      } else if source !in files {
        r := Failed(FileReadNoSuchFileError);
      } else {
        files := files[target := files[source]];
        r := Ok(());
      }
    }

    method DestroyStore(url: Url) returns (r: Reply<()>)
      modifies this
      ensures (State(), r) == DestroyStoreFile(old(State()), url)
    {
      var fault := Attempt(DestroyCall(url));
      if fault.Some? {
        r := Failed(fault.value);
      } else {
        files := files - {url};
        r := Ok(());
      }
    }

    method RemoveItem(url: Url) returns (r: Reply<()>)
      modifies this
      ensures (State(), r) == RemoveFile(old(State()), url)
    {
      var fault := Attempt(RemoveCall(url));
      if fault.Some? {
        r := Failed(fault.value);
      } else {
        files := files - {url};
        r := Ok(());
      }
    }

    /** `loadPersistentStores`: recorded as a call; what loading does to the store is not modelled. */
    method LoadPersistentStores()
      modifies this
      ensures State() == Issue(old(State()), LoadCall).0
    {
      log := log + [LoadCall];
    }
  }
}
