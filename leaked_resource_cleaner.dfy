/** One pass of the server's `LeakedResourceCleaner`, as its test pins it down:
    every storage engine in a snapshot of the local engines is checked against
    its store's version list in the metadata repository and against the running
    consumption tasks, and the leaked ones are removed through the storage
    service. The test's mock-building helper is modelled too, so that the test's
    scenario is a lemma. */
module LeakedResourceCleaner {
  import opened VersionTopic

  /** The leak rule. A version is leaked when its store does list versions, it is
      not one of them, and no consumption task is running for it. A store that
      lists no versions at all loses nothing, and a running task keeps an unlisted
      version. */
  predicate IsLeaked(storeHasVersions: bool, listed: bool, running: bool)
  {
    storeHasVersions && !listed && !running
  }

  /** The leak rule applied to one engine, given the store's version list and
      the set of topics with a running consumption task. */
  predicate Leaked(engine: Topic, versionsOf: string -> seq<int>, running: set<Topic>)
  {
    var versions := versionsOf(engine.storeName);
    IsLeaked(|versions| > 0, engine.versionNumber in versions, engine in running)
  }

  /** The `removeStorageEngine` calls of one pass, in snapshot order. */
  function LeakedEngines(snapshot: seq<Topic>, versionsOf: string -> seq<int>, running: set<Topic>): (removed: seq<Topic>)
    ensures |removed| <= |snapshot|
    ensures forall t :: t in removed <==> t in snapshot && Leaked(t, versionsOf, running)
  {
    if snapshot == [] then []
    else
      var rest := LeakedEngines(snapshot[1..], versionsOf, running);
      if Leaked(snapshot[0], versionsOf, running) then [snapshot[0]] + rest else rest
  }

  /** The pass: the engine list is read once, up front, and every engine in it
      is checked in turn. A failing removal does not stop the scan, so the calls
      made do not depend on their outcomes. */
  method CleanupLeakedResources(snapshot: seq<Topic>, versionsOf: string -> seq<int>, running: set<Topic>)
    returns (removed: seq<Topic>)
    ensures removed == LeakedEngines(snapshot, versionsOf, running)
    ensures forall t :: t in removed ==> t in snapshot && t !in running && t.versionNumber !in versionsOf(t.storeName)
  {
    removed := [];
    var i := 0;
    while i < |snapshot|
      invariant 0 <= i <= |snapshot|
      invariant removed == LeakedEngines(snapshot[..i], versionsOf, running)
    {
      LeakedEnginesAppend(snapshot[..i], [snapshot[i]], versionsOf, running);
      assert snapshot[..i + 1] == snapshot[..i] + [snapshot[i]];
      if Leaked(snapshot[i], versionsOf, running) {
        removed := removed + [snapshot[i]];
      }
      i := i + 1;
    }
    assert snapshot[..|snapshot|] == snapshot;
  }

  predicate NoDuplicates(engines: seq<Topic>)
  {
    forall i, j :: 0 <= i < j < |engines| ==> engines[i] != engines[j]
  }

  /** No engine is removed twice in one pass when the snapshot names each engine
      once. */
  lemma {:induction false} RemovedAtMostOnce(snapshot: seq<Topic>, versionsOf: string -> seq<int>, running: set<Topic>)
    requires NoDuplicates(snapshot)
    ensures NoDuplicates(LeakedEngines(snapshot, versionsOf, running))
  {
    if snapshot != [] {
      var tail := snapshot[1..];
      assert forall i, j :: 0 <= i < j < |tail| ==> tail[i] != tail[j] by {
        forall i, j | 0 <= i < j < |tail| ensures tail[i] != tail[j] {
          assert tail[i] == snapshot[i + 1] && tail[j] == snapshot[j + 1];
        }
      }
      RemovedAtMostOnce(tail, versionsOf, running);
      assert snapshot[0] !in tail;
      var rest := LeakedEngines(tail, versionsOf, running);
      assert NoDuplicates(rest);
      assert snapshot[0] !in rest;
      if Leaked(snapshot[0], versionsOf, running) {
        var removed := [snapshot[0]] + rest;
        forall i, j | 0 <= i < j < |removed| ensures removed[i] != removed[j] {
          assert removed[j] == rest[j - 1];
          if i > 0 {
            assert removed[i] == rest[i - 1];
            assert rest[i - 1] != rest[j - 1];
          } else {
            assert rest[j - 1] in rest;
          }
        }
      }
    }
  }

  /** A pass over two engine lists is the pass over the first followed by the
      pass over the second: whether an engine leaks depends on it alone. */
  lemma {:induction false} LeakedEnginesAppend(a: seq<Topic>, b: seq<Topic>, versionsOf: string -> seq<int>, running: set<Topic>)
    ensures LeakedEngines(a + b, versionsOf, running) ==
      LeakedEngines(a, versionsOf, running) + LeakedEngines(b, versionsOf, running)
  {
    if a != [] {
      assert (a + b)[1..] == a[1..] + b;
      LeakedEnginesAppend(a[1..], b, versionsOf, running);
    } else {
      assert a + b == b;
    }
  }

  // ---------------------------------------------------------------------------
  // The test's scenario

  /** `StorageEngineMockConfig`: one on-disk version of a store, whether the
      metadata repository lists it, and whether it has a running task. */
  datatype StorageEngineMockConfig = StorageEngineMockConfig(version: int, existingInZK: bool, hasIngestionTask: bool)

  /** The engines built for a store: one per config, named by its topic. */
  function EnginesOf(storeName: string, configs: seq<StorageEngineMockConfig>): (engines: seq<Topic>)
    ensures |engines| == |configs|
    ensures forall i :: 0 <= i < |configs| ==> engines[i] == Topic(storeName, configs[i].version)
  {
    if configs == [] then [] else [Topic(storeName, configs[0].version)] + EnginesOf(storeName, configs[1..])
  }

  /** The version numbers the store's metadata lists: those of the configs that
      exist in ZooKeeper, in order. */
  function VersionsInZK(configs: seq<StorageEngineMockConfig>): (versions: seq<int>)
    ensures forall v :: v in versions <==> exists c :: c in configs && c.existingInZK && c.version == v
  {
    if configs == [] then []
    else
      var rest := VersionsInZK(configs[1..]);
      assert forall c :: c in configs <==> c == configs[0] || c in configs[1..];
      if configs[0].existingInZK then [configs[0].version] + rest else rest
  }

  /** The topics the mocked ingestion service reports a running task for. */
  function RunningTopics(storeName: string, configs: seq<StorageEngineMockConfig>): (running: set<Topic>)
    ensures forall t :: t in running <==>
      exists c :: c in configs && c.hasIngestionTask && t == Topic(storeName, c.version)
  {
    set c | c in configs && c.hasIngestionTask :: Topic(storeName, c.version)
  }

  /** `constructStorageEngineForStore`: walks the configs once, building the
      engine list, the store's version list and the running-task answers. */
  method ConstructStorageEngineForStore(storeName: string, configs: seq<StorageEngineMockConfig>)
    returns (engines: seq<Topic>, versions: seq<int>, running: set<Topic>)
    ensures engines == EnginesOf(storeName, configs)
    ensures versions == VersionsInZK(configs)
    ensures running == RunningTopics(storeName, configs)
  {
    engines, versions, running := [], [], {};
    var i := 0;
    while i < |configs|
      invariant 0 <= i <= |configs|
      invariant engines == EnginesOf(storeName, configs[..i])
      invariant versions == VersionsInZK(configs[..i])
      invariant running == RunningTopics(storeName, configs[..i])
    {
      var config := configs[i];
      VersionsInZKAppend(configs[..i], config);
      EnginesOfAppend(storeName, configs[..i], config);
      RunningTopicsAppend(storeName, configs[..i], config);
      assert configs[..i + 1] == configs[..i] + [config];
      engines := engines + [Topic(storeName, config.version)];
      if config.existingInZK {
        versions := versions + [config.version];
      }
      if config.hasIngestionTask {
        running := running + {Topic(storeName, config.version)};
      }
      i := i + 1;
    }
    assert configs[..i] == configs;
  }

  lemma {:induction false} EnginesOfAppend(storeName: string, configs: seq<StorageEngineMockConfig>, config: StorageEngineMockConfig)
    ensures EnginesOf(storeName, configs + [config]) == EnginesOf(storeName, configs) + [Topic(storeName, config.version)]
  {
  }

  lemma RunningTopicsAppend(storeName: string, configs: seq<StorageEngineMockConfig>, config: StorageEngineMockConfig)
    ensures RunningTopics(storeName, configs + [config]) ==
      RunningTopics(storeName, configs) + (if config.hasIngestionTask then {Topic(storeName, config.version)} else {})
  {
  }

  lemma {:induction false} VersionsInZKAppend(configs: seq<StorageEngineMockConfig>, config: StorageEngineMockConfig)
    ensures VersionsInZK(configs + [config]) ==
      VersionsInZK(configs) + (if config.existingInZK then [config.version] else [])
  {
    if configs != [] {
      assert (configs + [config])[1..] == configs[1..] + [config];
      VersionsInZKAppend(configs[1..], config);
    }
  }

  /** The three stores of the test; their names come from `getUniqueString`, so
      all that matters is that they differ. */
  datatype StoreNames = StoreNames(noVersion: string, clean: string, leaky: string)

  predicate Unique(names: StoreNames)
  {
    names.noVersion != names.clean && names.noVersion != names.leaky && names.clean != names.leaky
  }

  const NoVersionConfigs := [StorageEngineMockConfig(1, false, false)]
  const CleanConfigs := [StorageEngineMockConfig(1, true, true), StorageEngineMockConfig(2, true, true)]
  const LeakyConfigs := [
    StorageEngineMockConfig(1, false, true),
    StorageEngineMockConfig(2, false, false),
    StorageEngineMockConfig(3, true, true),
    StorageEngineMockConfig(4, true, true),
    StorageEngineMockConfig(5, false, false)
  ]

  /** The store repository of the test: each store lists the versions its
      configs mark as existing in ZooKeeper. */
  function ScenarioVersions(names: StoreNames): string -> seq<int>
  {
    s =>
      if s == names.noVersion then VersionsInZK(NoVersionConfigs)
      else if s == names.clean then VersionsInZK(CleanConfigs)
      else if s == names.leaky then VersionsInZK(LeakyConfigs)
      else []
  }

  /** The topics the test's ingestion service reports a running task for. */
  function ScenarioRunning(names: StoreNames): set<Topic>
  {
    RunningTopics(names.noVersion, NoVersionConfigs) + RunningTopics(names.clean, CleanConfigs)
      + RunningTopics(names.leaky, LeakyConfigs)
  }

  /** The engine list `getAllLocalStorageEngines` returns. */
  function ScenarioSnapshot(names: StoreNames): seq<Topic>
  {
    EnginesOf(names.noVersion, NoVersionConfigs) + EnginesOf(names.clean, CleanConfigs)
      + EnginesOf(names.leaky, LeakyConfigs)
  }

  /** One step of a pass. */
  lemma LeakedEnginesStep(engines: seq<Topic>, versionsOf: string -> seq<int>, running: set<Topic>)
    requires engines != []
    ensures LeakedEngines(engines, versionsOf, running) ==
      (if Leaked(engines[0], versionsOf, running) then [engines[0]] else []) + LeakedEngines(engines[1..], versionsOf, running)
  {
  }

  /** The store that lists no versions keeps its single idle version. */
  lemma NoVersionStoreKept(names: StoreNames)
    requires Unique(names)
    ensures LeakedEngines(EnginesOf(names.noVersion, NoVersionConfigs), ScenarioVersions(names), ScenarioRunning(names)) == []
  {
    var engines := EnginesOf(names.noVersion, NoVersionConfigs);
    assert engines == [Topic(names.noVersion, 1)];
    assert ScenarioVersions(names)(names.noVersion) == [];
    LeakedEnginesStep(engines, ScenarioVersions(names), ScenarioRunning(names));
  }

  /** The store whose versions are all listed keeps them. */
  lemma CleanStoreKept(names: StoreNames)
    requires Unique(names)
    ensures LeakedEngines(EnginesOf(names.clean, CleanConfigs), ScenarioVersions(names), ScenarioRunning(names)) == []
  {
    var engines := EnginesOf(names.clean, CleanConfigs);
    assert engines == [Topic(names.clean, 1), Topic(names.clean, 2)];
    assert ScenarioVersions(names)(names.clean) == [1, 2] by {
      assert VersionsInZK(CleanConfigs) == [1, 2];
    }
    LeakedEnginesStep(engines, ScenarioVersions(names), ScenarioRunning(names));
    LeakedEnginesStep(engines[1..], ScenarioVersions(names), ScenarioRunning(names));
  }

  /** The leaky store lists versions 3 and 4 only. */
  lemma LeakyStoreListed(names: StoreNames)
    requires Unique(names)
    ensures ScenarioVersions(names)(names.leaky) == [3, 4]
  {
    assert VersionsInZK(LeakyConfigs) == [3, 4];
  }

  /** Which of the leaky store's versions have a running task: only version 1. */
  lemma LeakyStoreRunning(names: StoreNames)
    requires Unique(names)
    ensures Topic(names.leaky, 1) in ScenarioRunning(names)
    ensures Topic(names.leaky, 2) !in ScenarioRunning(names) && Topic(names.leaky, 5) !in ScenarioRunning(names)
  {
    assert LeakyConfigs[0] in LeakyConfigs;
    assert forall c | c in LeakyConfigs && c.hasIngestionTask :: c.version != 2 && c.version != 5;
  }

  /** The leak rule's verdict on one engine, once its store's version list is
      known. */
  lemma LeakedGiven(engine: Topic, versionsOf: string -> seq<int>, running: set<Topic>, listed: seq<int>)
    requires versionsOf(engine.storeName) == listed
    ensures Leaked(engine, versionsOf, running) <==> |listed| > 0 && engine.versionNumber !in listed && engine !in running
  {
  }

  /** The leaky store's versions the leak rule spares: 1 has a running task,
      3 and 4 are listed. */
  lemma LeakyStoreKept(names: StoreNames)
    requires Unique(names)
    ensures !Leaked(Topic(names.leaky, 1), ScenarioVersions(names), ScenarioRunning(names))
    ensures !Leaked(Topic(names.leaky, 3), ScenarioVersions(names), ScenarioRunning(names))
    ensures !Leaked(Topic(names.leaky, 4), ScenarioVersions(names), ScenarioRunning(names))
  {
    LeakyStoreListed(names);
    LeakyStoreRunning(names);
    var versions, running := ScenarioVersions(names), ScenarioRunning(names);
    LeakedGiven(Topic(names.leaky, 1), versions, running, [3, 4]);
    LeakedGiven(Topic(names.leaky, 3), versions, running, [3, 4]);
    LeakedGiven(Topic(names.leaky, 4), versions, running, [3, 4]);
  }

  /** The leaky store's versions the leak rule condemns: 2 and 5 are neither
      listed nor running. */
  lemma LeakyStoreLeaked(names: StoreNames)
    requires Unique(names)
    ensures Leaked(Topic(names.leaky, 2), ScenarioVersions(names), ScenarioRunning(names))
    ensures Leaked(Topic(names.leaky, 5), ScenarioVersions(names), ScenarioRunning(names))
  {
    LeakyStoreListed(names);
    LeakyStoreRunning(names);
    var versions, running := ScenarioVersions(names), ScenarioRunning(names);
    LeakedGiven(Topic(names.leaky, 2), versions, running, [3, 4]);
    LeakedGiven(Topic(names.leaky, 5), versions, running, [3, 4]);
  }

  /** A pass over five engines of which only the second and the fifth leak. */
  lemma PassOverFive(engines: seq<Topic>, versionsOf: string -> seq<int>, running: set<Topic>)
    requires |engines| == 5
    requires !Leaked(engines[0], versionsOf, running) && Leaked(engines[1], versionsOf, running)
    requires !Leaked(engines[2], versionsOf, running) && !Leaked(engines[3], versionsOf, running)
    requires Leaked(engines[4], versionsOf, running)
    ensures LeakedEngines(engines, versionsOf, running) == [engines[1], engines[4]]
  {
    LeakedEnginesStep(engines, versionsOf, running);
    LeakedEnginesStep(engines[1..], versionsOf, running);
    LeakedEnginesStep(engines[2..], versionsOf, running);
    LeakedEnginesStep(engines[3..], versionsOf, running);
    LeakedEnginesStep(engines[4..], versionsOf, running);
    assert engines[1..][1..] == engines[2..];
    assert engines[2..][1..] == engines[3..];
    assert engines[3..][1..] == engines[4..];
    assert engines[4..][1..] == [];
  }

  /** The leaky store loses its idle unlisted versions 2 and 5, and keeps the
      unlisted version 1 whose task runs and the listed versions 3 and 4. */
  lemma LeakyStoreLosesIdleUnlisted(names: StoreNames)
    requires Unique(names)
    ensures LeakedEngines(EnginesOf(names.leaky, LeakyConfigs), ScenarioVersions(names), ScenarioRunning(names)) ==
      [Topic(names.leaky, 2), Topic(names.leaky, 5)]
  {
    var leaky := EnginesOf(names.leaky, LeakyConfigs);
    assert leaky == [Topic(names.leaky, 1), Topic(names.leaky, 2), Topic(names.leaky, 3), Topic(names.leaky, 4), Topic(names.leaky, 5)];
    LeakyStoreKept(names);
    LeakyStoreLeaked(names);
    PassOverFive(leaky, ScenarioVersions(names), ScenarioRunning(names));
  }

  /** `testCleanupLeakedResources`: of the eight engines, only versions 2 and 5 of
      the leaky store are removed. Version 1 of that store is kept because its
      task is running; version 5 is removed although it is newer than every
      listed version; the store that lists no versions keeps its one version. */
  lemma TestCleanupLeakedResources(names: StoreNames)
    requires Unique(names)
    ensures LeakedEngines(ScenarioSnapshot(names), ScenarioVersions(names), ScenarioRunning(names)) ==
      [Topic(names.leaky, 2), Topic(names.leaky, 5)]
  {
    var noVersion := EnginesOf(names.noVersion, NoVersionConfigs);
    var clean := EnginesOf(names.clean, CleanConfigs);
    var leaky := EnginesOf(names.leaky, LeakyConfigs);
    LeakedEnginesAppend(noVersion, clean, ScenarioVersions(names), ScenarioRunning(names));
    LeakedEnginesAppend(noVersion + clean, leaky, ScenarioVersions(names), ScenarioRunning(names));
    NoVersionStoreKept(names);
    CleanStoreKept(names);
    LeakyStoreLosesIdleUnlisted(names);
  }
}
