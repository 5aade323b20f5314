/** The two Helix transitions of a leader/follower partition state model that
    depend on whether the partition's resource is its store's current version:
    OFFLINE to STANDBY places a latch and waits for consumption to catch up only
    for the current version, and OFFLINE to DROPPED counts the transition thread
    as blocked only for the current version. Whether the resource is current is
    read from the store at every transition. */
module LeaderFollowerStateModel {
  import opened Java
  import opened VersionTopic

  /** The side effects of a transition, in the order they happen. */
  datatype Effect =
    | LatchPlaced(resource: Topic, partition: int)                              // notifier.startConsumption
    | ConsumptionStarted(resource: Topic, partition: int)                       // the ingestion backend starts consuming
    | WaitedForConsumption(resource: Topic, partition: int, timeoutHours: int)  // notifier.waitConsumptionCompleted
    | PartitionDropped(resource: Topic, partition: int)

  /** OFFLINE to STANDBY. Consumption always starts; for the current version the
      latch is placed before it starts, so its completion cannot be missed, and
      the transition then waits on it with the bootstrap timeout. Any other
      version neither places a latch nor waits. */
  function StandbyFromOfflineEffects(resource: Topic, partition: int, timeoutHours: int, isCurrent: bool): (effects: seq<Effect>)
    ensures ConsumptionStarted(resource, partition) in effects
    ensures multiset(effects)[LatchPlaced(resource, partition)] == (if isCurrent then 1 else 0)
    ensures multiset(effects)[WaitedForConsumption(resource, partition, timeoutHours)] == (if isCurrent then 1 else 0)
    ensures !isCurrent ==> forall e :: e in effects ==> !e.WaitedForConsumption? && !e.LatchPlaced?
    ensures isCurrent ==>
      effects[0] == LatchPlaced(resource, partition) &&
      effects[|effects| - 1] == WaitedForConsumption(resource, partition, timeoutHours)
  {
    (if isCurrent then [LatchPlaced(resource, partition)] else [])
    + [ConsumptionStarted(resource, partition)]
    + (if isCurrent then [WaitedForConsumption(resource, partition, timeoutHours)] else [])
  }

  /** Two OFFLINE to STANDBY transitions of which only the second finds the
      resource current place one latch and wait once, with the wait last. */
  lemma StandbyTwiceLatchesOnce(resource: Topic, partition: int, timeoutHours: int)
    ensures var effects := StandbyFromOfflineEffects(resource, partition, timeoutHours, false)
        + StandbyFromOfflineEffects(resource, partition, timeoutHours, true);
      multiset(effects)[LatchPlaced(resource, partition)] == 1 &&
      multiset(effects)[WaitedForConsumption(resource, partition, timeoutHours)] == 1 &&
      effects[|effects| - 1] == WaitedForConsumption(resource, partition, timeoutHours)
  {
    var first := StandbyFromOfflineEffects(resource, partition, timeoutHours, false);
    var second := StandbyFromOfflineEffects(resource, partition, timeoutHours, true);
    assert multiset(first + second) == multiset(first) + multiset(second);
  }

  /** The participant's state-transition statistics: the live gauge of threads
      blocked in OFFLINE to DROPPED, and how often it was moved each way. */
  class ParticipantStateTransitionStats {
    var threadBlockedOnOfflineToDroppedCount: int
    var increments: nat
    var decrements: nat

    constructor ()
      ensures threadBlockedOnOfflineToDroppedCount == 0 && increments == 0 && decrements == 0
    {
      threadBlockedOnOfflineToDroppedCount, increments, decrements := 0, 0, 0;
    }

    method IncrementThreadBlockedOnOfflineToDroppedTransitionCount()
      modifies this
      ensures threadBlockedOnOfflineToDroppedCount == old(threadBlockedOnOfflineToDroppedCount) + 1
      ensures increments == old(increments) + 1 && decrements == old(decrements)
    {
      threadBlockedOnOfflineToDroppedCount := threadBlockedOnOfflineToDroppedCount + 1;
      increments := increments + 1;
    }

    method DecrementThreadBlockedOnOfflineToDroppedTransitionCount()
      modifies this
      ensures threadBlockedOnOfflineToDroppedCount == old(threadBlockedOnOfflineToDroppedCount) - 1
      ensures decrements == old(decrements) + 1 && increments == old(increments)
    {
      threadBlockedOnOfflineToDroppedCount := threadBlockedOnOfflineToDroppedCount - 1;
      decrements := decrements + 1;
    }
  }

  /** `LeaderFollowerPartitionStateModel` for one partition of one resource. */
  class LeaderFollowerPartitionStateModel {
    const resource: Topic
    const partition: int
    /** `Store.BOOTSTRAP_TO_ONLINE_TIMEOUT_IN_HOURS`. */
    const bootstrapToOnlineTimeoutInHours: int
    const stats: ParticipantStateTransitionStats
    var effects: seq<Effect>

    constructor (resource: Topic, partition: int, bootstrapToOnlineTimeoutInHours: int, stats: ParticipantStateTransitionStats)
      ensures this.resource == resource && this.partition == partition
      ensures this.bootstrapToOnlineTimeoutInHours == bootstrapToOnlineTimeoutInHours && this.stats == stats
      ensures effects == []
    {
      this.resource := resource;
      this.partition := partition;
      this.bootstrapToOnlineTimeoutInHours := bootstrapToOnlineTimeoutInHours;
      this.stats := stats;
      effects := [];
    }

    /** Whether the resource is the version the store currently serves. */
    predicate IsCurrentVersion(currentVersion: int)
    {
      resource.versionNumber == currentVersion
    }

    /** `onBecomeStandbyFromOffline`, with the store's current version as read at
        this transition. */
    method OnBecomeStandbyFromOffline(currentVersion: int)
      modifies this
      ensures effects == old(effects) +
        StandbyFromOfflineEffects(resource, partition, bootstrapToOnlineTimeoutInHours, IsCurrentVersion(currentVersion))
    {
      var isCurrent := resource.versionNumber == currentVersion;
      if isCurrent {
        effects := effects + [LatchPlaced(resource, partition)];
      }
      effects := effects + [ConsumptionStarted(resource, partition)];
      if isCurrent {
        effects := effects + [WaitedForConsumption(resource, partition, bootstrapToOnlineTimeoutInHours)];
      }
    }

    /** `onBecomeDroppedFromOffline`, with the store's current version as read at
        this transition and the exception dropping the partition throws, if any.
        For the current version the gauge is raised on entry and lowered in a
        `finally`, so it is back to its prior value even when the drop fails. */
    method OnBecomeDroppedFromOffline(currentVersion: int, dropFault: Option<Throwable>) returns (failure: Option<Throwable>)
      modifies this, stats
      ensures failure == dropFault
      ensures effects == old(effects) + [PartitionDropped(resource, partition)]
      ensures stats.threadBlockedOnOfflineToDroppedCount == old(stats.threadBlockedOnOfflineToDroppedCount)
      ensures stats.increments == old(stats.increments) + (if IsCurrentVersion(currentVersion) then 1 else 0)
      ensures stats.decrements == old(stats.decrements) + (if IsCurrentVersion(currentVersion) then 1 else 0)
    {
      var isCurrent := resource.versionNumber == currentVersion;
      if isCurrent {
        stats.IncrementThreadBlockedOnOfflineToDroppedTransitionCount();
      }
      effects := effects + [PartitionDropped(resource, partition)];
      failure := dropFault;
      if isCurrent {
        stats.DecrementThreadBlockedOnOfflineToDroppedTransitionCount();
      }
    }
  }

  /** `testOnBecomeFollowerFromOffline`: the resource is version 1. While the store
      serves version 2 the transition does not wait; once it serves version 1 the
      same model places the latch and waits with the bootstrap timeout. Across
      both calls the latch is placed once and the wait happens once. */
  method TestOnBecomeFollowerFromOffline(model: LeaderFollowerPartitionStateModel)
    requires model.resource.versionNumber == 1 && model.effects == []
    modifies model
    ensures var r, p := model.resource, model.partition;
      multiset(model.effects)[LatchPlaced(r, p)] == 1 &&
      multiset(model.effects)[WaitedForConsumption(r, p, model.bootstrapToOnlineTimeoutInHours)] == 1
  {
    var r, p, t := model.resource, model.partition, model.bootstrapToOnlineTimeoutInHours;
    model.OnBecomeStandbyFromOffline(2);
    assert forall e :: e in model.effects ==> !e.WaitedForConsumption?;
    model.OnBecomeStandbyFromOffline(1);
    StandbyTwiceLatchesOnce(r, p, t);
  }

  /** `testGracefulDropForCurrentVersionResource`: while the store serves version
      2, dropping version 1 leaves the gauge untouched; once it serves version 1,
      the gauge is raised once and lowered once. */
  method TestGracefulDropForCurrentVersionResource(model: LeaderFollowerPartitionStateModel)
    requires model.resource.versionNumber == 1
    requires model.stats.increments == 0 && model.stats.decrements == 0
    modifies model, model.stats
    ensures model.stats.increments == 1 && model.stats.decrements == 1
    ensures model.stats.threadBlockedOnOfflineToDroppedCount == old(model.stats.threadBlockedOnOfflineToDroppedCount)
  {
    var failure := model.OnBecomeDroppedFromOffline(2, None);
    assert model.stats.increments == 0 && model.stats.decrements == 0;
    failure := model.OnBecomeDroppedFromOffline(1, None);
  }
}
