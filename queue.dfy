/**
 * The simulator's `Queue` object: the same state as `QueueModel.QueueState`,
 * held in fields that its methods update in place.  Every method is proved to
 * leave the fields equal to the specifying function applied to the old ones.
 */
module PacketQueue {
  import opened Options
  import QueueModel

  class Queue {
    const isFinite: bool
    const capacity: Option<int>
    var packetQueue: seq<real>
    var packetCounter: nat
    var queueEmptyCount: nat
    var packetObserverCount: nat
    var droppedPacket: Option<nat>

    /** The value this object currently stands for. */
    function Model(): QueueModel.QueueState
      reads this
    {
      QueueModel.QueueState(isFinite, capacity, packetQueue, packetCounter,
                            queueEmptyCount, packetObserverCount, droppedPacket)
    }

    ghost predicate Valid()
      reads this
    {
      QueueModel.Valid(Model())
    }

    constructor (isFinite: bool, capacity: Option<int>)
      requires QueueModel.WellConfigured(isFinite, capacity)
      ensures Model() == QueueModel.NewQueue(isFinite, capacity)
      ensures Valid()
    {
      this.isFinite := isFinite;
      this.capacity := capacity;
      packetQueue := [];
      packetCounter := 0;
      queueEmptyCount := 0;
      packetObserverCount := 0;
      droppedPacket := if isFinite then Some(0) else None;
    }

    method AddPacket(packet: real)
      requires Valid()
      modifies this
      ensures Model() == QueueModel.AddPacket(old(Model()), packet)
      ensures Valid()
    {
      if isFinite && capacity.value > 0 {
        if |packetQueue| == capacity.value {
          droppedPacket := Some(droppedPacket.value + 1);
          packetCounter := packetCounter + 1;
          return;
        } else {
          packetQueue := packetQueue + [packet];
          packetCounter := packetCounter + 1;
          return;
        }
      }
      packetQueue := packetQueue + [packet];
      packetCounter := packetCounter + 1;
    }

    method RemovePacket()
      requires Valid()
      modifies this
      ensures Model() == QueueModel.RemovePacket(old(Model()))
      ensures Valid()
    {
      if !IsQueueEmpty() {
        packetQueue := packetQueue[1..];
      }
    }

    predicate IsQueueEmpty()
      reads this
      ensures IsQueueEmpty() <==> packetQueue == []
    {
      |packetQueue| <= 0
    }

    method QueueObserve(observerEventCount: nat) returns (meanOccupancy: real, idleRatio: real, lossRatio: Option<real>)
      requires Valid()
      modifies this
      ensures (Model(), QueueModel.Observation(meanOccupancy, idleRatio, lossRatio))
              == QueueModel.QueueObserve(old(Model()), observerEventCount)
      ensures Valid()
    {
      meanOccupancy := RunningTimeAverage(observerEventCount);
      idleRatio := RunningQueueEmpty(observerEventCount);
      lossRatio := RunningDroppedPacketRatio();
    }

    method RunningTimeAverage(observerEventCount: nat) returns (average: real)
      modifies this
      ensures (Model(), average) == QueueModel.RunningTimeAverage(old(Model()), observerEventCount)
    {
      if observerEventCount > 0 {
        packetObserverCount := packetObserverCount + |packetQueue|;
        return (packetObserverCount as real) / (observerEventCount as real);
      }
      return 0.0;
    }

    method RunningQueueEmpty(observerEventCount: nat) returns (ratio: real)
      modifies this
      ensures (Model(), ratio) == QueueModel.RunningQueueEmpty(old(Model()), observerEventCount)
    {
      if observerEventCount > 0 {
        queueEmptyCount := if IsQueueEmpty() then queueEmptyCount + 1 else queueEmptyCount;
        return (queueEmptyCount as real) / (observerEventCount as real);
      }
      return 0.0;
    }

    function RunningDroppedPacketRatio(): (ratio: Option<real>)
      reads this
      requires Valid()
      ensures ratio == QueueModel.RunningDroppedPacketRatio(Model())
      ensures ratio.Some? ==> 0.0 <= ratio.value <= 1.0
    {
      if !isFinite then None
      else if packetCounter > 0 then Some((droppedPacket.value as real) / (packetCounter as real))
      else Some(0.0)
    }
  }
}
