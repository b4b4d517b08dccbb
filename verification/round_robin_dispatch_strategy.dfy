/** Choosing the partition a broker request is sent to: round robin over the
    partitions, skipping those that currently have no leader. */
module Dispatch {
  import opened Wrappers

  /** The node id that stands for "no leader". */
  const NodeIdNull: int := -1
  /** The partition id that stands for "no partition could be determined". */
  const PartitionIdNull: int := -1

  /** The cluster view the strategy consults: how many partitions there are,
      the partition an offset maps to, and each partition's leader. */
  datatype BrokerClusterState = BrokerClusterState(
    partitionsCount: int,
    partitionAt: int -> int,
    leaderFor: int -> int)

  /** Whether the partition that `offset` maps to has a leader. */
  predicate HasLeader(topology: BrokerClusterState, offset: int)
  {
    topology.leaderFor(topology.partitionAt(offset)) != NodeIdNull
  }

  /** How many partitions one call probes at most. */
  function ProbeLimit(topology: BrokerClusterState): (n: nat)
    ensures topology.partitionsCount >= 0 ==> n == topology.partitionsCount
    ensures topology.partitionsCount < 0 ==> n == 0
  {
    if topology.partitionsCount < 0 then 0 else topology.partitionsCount
  }

  /** Among the `n` offsets from `start`, how many come before the first one
      whose partition has a leader; `n` when none has. */
  function FirstLed(topology: BrokerClusterState, start: int, n: nat): (k: nat)
    ensures k <= n
    ensures forall offset :: start <= offset < start + k ==> !HasLeader(topology, offset)
    ensures k < n ==> HasLeader(topology, start + k)
    decreases n
  {
    if n == 0 then 0
    else if HasLeader(topology, start) then 0
    else 1 + FirstLed(topology, start + 1, n - 1)
  }

  class RoundRobinDispatchStrategy {
    /** The round-robin counter: the next offset to probe. */
    var partitions: int

    constructor ()
      ensures partitions == 0
    {
      partitions := 0;
    }

    /** `determinePartition`: with no topology, PARTITION_ID_NULL and the
        counter unchanged. Otherwise probe offsets from the counter on, one
        per partition at most, advancing the counter by one per probe, and
        return the first probed partition that has a leader; when none has,
        PARTITION_ID_NULL with the counter advanced by the partition count. */
    method DeterminePartition(topology: Option<BrokerClusterState>) returns (p: int)
      modifies this
      ensures topology.None? ==> p == PartitionIdNull && partitions == old(partitions)
      ensures topology.Some? ==>
                var t := topology.value;
                var n := ProbeLimit(t);
                var k := FirstLed(t, old(partitions), n);
                && (k < n ==> p == t.partitionAt(old(partitions) + k) && partitions == old(partitions) + k + 1)
                && (k == n ==> p == PartitionIdNull && partitions == old(partitions) + n)
    {
      if topology.Some? {
        var t := topology.value;
        ghost var start := partitions;
        for i := 0 to ProbeLimit(t)
          invariant partitions == start + i
          invariant forall offset :: start <= offset < partitions ==> !HasLeader(t, offset)
        {
          var offset := partitions;
          partitions := partitions + 1;
          var partition := t.partitionAt(offset);
          if t.leaderFor(partition) != NodeIdNull {
            FirstLedIsFirst(t, start, ProbeLimit(t), i);
            return partition;
          }
        }
        FirstLedIsFirst(t, start, ProbeLimit(t), ProbeLimit(t));
      }
      return PartitionIdNull;
    }
  }

  /** `FirstLed` is the only count with its two properties: if the `k`
      offsets from `start` have no leader and the next one (when within `n`)
      has, then `k` is `FirstLed`. */
  lemma {:induction false} FirstLedIsFirst(topology: BrokerClusterState, start: int, n: nat, k: nat)
    requires k <= n
    requires forall offset :: start <= offset < start + k ==> !HasLeader(topology, offset)
    requires k < n ==> HasLeader(topology, start + k)
    ensures FirstLed(topology, start, n) == k
    decreases n
  {
    if n == 0 {
    } else if k == 0 {
    } else {
      assert !HasLeader(topology, start);
      FirstLedIsFirst(topology, start + 1, n - 1, k - 1);
    }
  }
}
