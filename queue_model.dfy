/**
 * The packet queue as a value: a FIFO of packet lengths, bounded (M/M/1/K) or
 * unbounded (M/M/1), with the counters the simulator keeps.  Each operation of
 * the `Queue` class is specified by the function of the same name here.
 */
module QueueModel {
  import opened Options

  /**
   * packetCounter counts every offered packet, droppedPacket the refused ones
   * (None for an unbounded queue); packetObserverCount and queueEmptyCount
   * accumulate the occupancy and the empty observations.
   */
  datatype QueueState = QueueState(
    isFinite: bool,
    capacity: Option<int>,
    packets: seq<real>,
    packetCounter: nat,
    queueEmptyCount: nat,
    packetObserverCount: nat,
    droppedPacket: Option<nat>)

  /** The three running estimators returned by one observation: E[N], P_idle and P_loss. */
  datatype Observation = Observation(meanOccupancy: real, idleRatio: real, lossRatio: Option<real>)

  /** A finite queue is always given an integer capacity. */
  predicate WellConfigured(isFinite: bool, capacity: Option<int>) {
    isFinite ==> capacity.Some?
  }

  /** The admission check only applies to a finite queue with a positive capacity. */
  predicate Bounded(q: QueueState) {
    q.isFinite && q.capacity.Some? && q.capacity.value > 0
  }

  predicate IsFull(q: QueueState) {
    Bounded(q) && |q.packets| == q.capacity.value
  }

  function Dropped(q: QueueState): nat {
    if q.droppedPacket.Some? then q.droppedPacket.value else 0
  }

  /**
   * The queue invariant: a bounded queue never holds more than its capacity,
   * only a finite queue counts drops, and the dropped packets and the packets
   * still queued were all counted as offered.
   */
  predicate Valid(q: QueueState) {
    && WellConfigured(q.isFinite, q.capacity)
    && (q.isFinite <==> q.droppedPacket.Some?)
    && (Bounded(q) ==> |q.packets| <= q.capacity.value)
    && Dropped(q) + |q.packets| <= q.packetCounter
  }

  function NewQueue(isFinite: bool, capacity: Option<int>): (q: QueueState)
    requires WellConfigured(isFinite, capacity)
    ensures Valid(q)
    ensures q.isFinite == isFinite && q.capacity == capacity
    ensures q.packets == [] && q.packetCounter == 0 && Dropped(q) == 0
    ensures q.queueEmptyCount == 0 && q.packetObserverCount == 0
  {
    QueueState(isFinite, capacity, [], 0, 0, 0, if isFinite then Some(0) else None)
  }

  predicate IsQueueEmpty(q: QueueState) {
    |q.packets| <= 0
  }

  /**
   * add_packet: every offered packet is counted; a full bounded queue drops it
   * and counts the drop, any other queue appends it.  A finite queue whose
   * capacity is not positive appends like an unbounded one.
   */
  function AddPacket(q: QueueState, packet: real): (r: QueueState)
    requires Valid(q)
    ensures Valid(r)
    ensures Bounded(q) ==> |r.packets| <= q.capacity.value
    ensures r.packetCounter == q.packetCounter + 1
    ensures IsFull(q) ==> r.packets == q.packets && Dropped(r) == Dropped(q) + 1
    ensures !IsFull(q) ==> r.packets == q.packets + [packet] && Dropped(r) == Dropped(q)
    ensures r.isFinite == q.isFinite && r.capacity == q.capacity
    ensures r.queueEmptyCount == q.queueEmptyCount && r.packetObserverCount == q.packetObserverCount
  {
    if q.isFinite && q.capacity.value > 0 then
      if |q.packets| == q.capacity.value then
        q.(droppedPacket := Some(q.droppedPacket.value + 1), packetCounter := q.packetCounter + 1)
      else
        q.(packets := q.packets + [packet], packetCounter := q.packetCounter + 1)
    else
      q.(packets := q.packets + [packet], packetCounter := q.packetCounter + 1)
  }

  /** remove_packet: drop the head of a non-empty queue; nothing happens on an empty one. */
  function RemovePacket(q: QueueState): (r: QueueState)
    requires Valid(q)
    ensures Valid(r)
    ensures q.packets != [] ==> r.packets == q.packets[1..]
    ensures q.packets == [] ==> r == q
    ensures r.(packets := q.packets) == q
  {
    if !IsQueueEmpty(q) then q.(packets := q.packets[1..]) else q
  }

  /**
   * _runningTimeAverage: for a positive observation count, add the current
   * occupancy to the running sum and return the sum per observation; for a
   * zero count, change nothing and return 0.
   */
  function RunningTimeAverage(q: QueueState, observerEventCount: nat): (r: (QueueState, real))
    ensures observerEventCount == 0 ==> r.0 == q && r.1 == 0.0
    ensures 0 < observerEventCount ==>
      r.0 == q.(packetObserverCount := q.packetObserverCount + |q.packets|) &&
      r.1 * (observerEventCount as real) == r.0.packetObserverCount as real
    ensures 0.0 <= r.1
  {
    if observerEventCount > 0 then
      var sum := q.packetObserverCount + |q.packets|;
      (q.(packetObserverCount := sum), (sum as real) / (observerEventCount as real))
    else
      (q, 0.0)
  }

  /**
   * _runningQueueEmpty: for a positive observation count, count this
   * observation if the queue is empty and return the empty observations per
   * observation; for a zero count, change nothing and return 0.
   */
  function RunningQueueEmpty(q: QueueState, observerEventCount: nat): (r: (QueueState, real))
    ensures observerEventCount == 0 ==> r.0 == q && r.1 == 0.0
    ensures 0 < observerEventCount ==>
      r.0 == q.(queueEmptyCount := q.queueEmptyCount + if IsQueueEmpty(q) then 1 else 0) &&
      r.1 * (observerEventCount as real) == r.0.queueEmptyCount as real
    ensures q.queueEmptyCount < observerEventCount || observerEventCount == 0 ==> 0.0 <= r.1 <= 1.0
  {
    if observerEventCount > 0 then
      var count := if IsQueueEmpty(q) then q.queueEmptyCount + 1 else q.queueEmptyCount;
      assert count <= observerEventCount ==> (count as real) / (observerEventCount as real) <= 1.0;
      (q.(queueEmptyCount := count), (count as real) / (observerEventCount as real))
    else
      (q, 0.0)
  }

  /**
   * _runningDroppedPacketRatio: None for an unbounded queue, 0 before any
   * packet was offered, and otherwise the dropped share of the offered packets.
   */
  function RunningDroppedPacketRatio(q: QueueState): (ratio: Option<real>)
    requires Valid(q)
    ensures ratio.None? <==> !q.isFinite
    ensures q.isFinite && q.packetCounter == 0 ==> ratio == Some(0.0)
    ensures q.isFinite && 0 < q.packetCounter ==> ratio.value * (q.packetCounter as real) == Dropped(q) as real
    ensures ratio.Some? ==> 0.0 <= ratio.value <= 1.0
  {
    if !q.isFinite then None
    else if q.packetCounter > 0 then
      assert (q.droppedPacket.value as real) / (q.packetCounter as real) <= 1.0;
      Some((q.droppedPacket.value as real) / (q.packetCounter as real))
    else Some(0.0)
  }

  /**
   * queueObserve: the three estimators, computed in the source's order.  The
   * packets and the admission counters are left alone; a zero count
   * accumulates nothing.
   */
  function QueueObserve(q: QueueState, observerEventCount: nat): (r: (QueueState, Observation))
    requires Valid(q)
    ensures Valid(r.0)
    ensures r.0.packets == q.packets && r.0.packetCounter == q.packetCounter
    ensures r.0.droppedPacket == q.droppedPacket
    ensures r.0.isFinite == q.isFinite && r.0.capacity == q.capacity
    ensures observerEventCount == 0 ==>
      r.0 == q && r.1.meanOccupancy == 0.0 && r.1.idleRatio == 0.0
    ensures 0 < observerEventCount ==>
      && r.0.packetObserverCount == q.packetObserverCount + |q.packets|
      && r.0.queueEmptyCount == q.queueEmptyCount + (if q.packets == [] then 1 else 0)
      && r.1.meanOccupancy * (observerEventCount as real) == r.0.packetObserverCount as real
      && r.1.idleRatio * (observerEventCount as real) == r.0.queueEmptyCount as real
    ensures 0.0 <= r.1.meanOccupancy
    ensures q.queueEmptyCount < observerEventCount || observerEventCount == 0 ==>
      0.0 <= r.1.idleRatio <= 1.0
    ensures r.1.lossRatio == RunningDroppedPacketRatio(q)
  {
    var (q1, meanOccupancy) := RunningTimeAverage(q, observerEventCount);
    var (q2, idleRatio) := RunningQueueEmpty(q1, observerEventCount);
    (q2, Observation(meanOccupancy, idleRatio, RunningDroppedPacketRatio(q2)))
  }

  /** Offer the packets one after another. */
  function AddPackets(q: QueueState, packets: seq<real>): (r: QueueState)
    requires Valid(q)
    ensures Valid(r)
    decreases |packets|
  {
    if packets == [] then q else AddPackets(AddPacket(q, packets[0]), packets[1..])
  }

  /**
   * Over any run of offers, the counter grows by exactly the number of offers,
   * each offer is either queued or dropped, and the configuration is kept.
   */
  lemma {:induction false} AddPacketsCounts(q: QueueState, packets: seq<real>)
    requires Valid(q)
    ensures AddPackets(q, packets).packetCounter == q.packetCounter + |packets|
    ensures Dropped(AddPackets(q, packets)) + |AddPackets(q, packets).packets|
            == Dropped(q) + |q.packets| + |packets|
    ensures AddPackets(q, packets).isFinite == q.isFinite
    ensures AddPackets(q, packets).capacity == q.capacity
    decreases |packets|
  {
    if packets != [] {
      AddPacketsCounts(AddPacket(q, packets[0]), packets[1..]);
    }
  }

  /**
   * A finite queue whose capacity is zero or negative never drops: it takes
   * every offered packet, exactly like an unbounded queue.
   */
  lemma {:induction false} NonPositiveCapacityAdmitsAll(q: QueueState, packets: seq<real>)
    requires Valid(q) && q.isFinite && q.capacity.value <= 0
    ensures AddPackets(q, packets).packets == q.packets + packets
    ensures Dropped(AddPackets(q, packets)) == Dropped(q)
    decreases |packets|
  {
    if packets != [] {
      var q' := AddPacket(q, packets[0]);
      NonPositiveCapacityAdmitsAll(q', packets[1..]);
      assert q.packets + packets == q'.packets + packets[1..];
    }
  }

  /**
   * FIFO order: a packet admitted behind a non-empty queue stays behind the
   * current tail when the head is served; admitted to an empty queue, it is
   * itself the head that is served.
   */
  lemma AddThenRemove(q: QueueState, packet: real)
    requires Valid(q) && !IsFull(q)
    ensures q.packets != [] ==>
      RemovePacket(AddPacket(q, packet)).packets == RemovePacket(q).packets + [packet]
    ensures q.packets == [] ==> RemovePacket(AddPacket(q, packet)).packets == []
  {
    if q.packets != [] {
      assert (q.packets + [packet])[1..] == q.packets[1..] + [packet];
    }
  }

  /** An empty queue has room: a packet offered to it is always queued. */
  lemma EmptyQueueAdmits(q: QueueState, packet: real)
    requires Valid(q) && q.packets == []
    ensures AddPacket(q, packet).packets == [packet]
  {
  }
}
