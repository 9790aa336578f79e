/**
 * The `DiscreteEventSimulator` object: its constructor pre-builds the arrival
 * and observer streams, and `RunSimulation` drives one run of the event loop,
 * proved to end in the state that `Simulation.Run` specifies.
 */
module Simulator {
  import opened Options
  import opened Events
  import opened Sampling
  import opened EventStreams
  import QueueModel
  import opened PacketQueue
  import opened Simulation

  class DiscreteEventSimulator {
    const rate: real
    const simTime: real
    const arrivalEvents: seq<real>
    const observerEvents: seq<real>
    /** E_n, P_i and P_l: the estimators recorded at the last observation. */
    var meanOccupancy: real
    var idleRatio: real
    var lossRatio: Option<real>

    ghost predicate Valid()
      reads this
    {
      && NonNegative(arrivalEvents) && NonDecreasing(arrivalEvents)
      && NonNegative(observerEvents) && NonDecreasing(observerEvents)
      && OutputsInRange(meanOccupancy, idleRatio, lossRatio)
    }

    /**
     * Arrivals are drawn at `rate` and observations at five times that rate,
     * each from its own supply of standard variates.
     */
    constructor (rate: real, simTime: real, arrivalUnits: seq<real>, observerUnits: seq<real>)
      requires NonNegative(arrivalUnits) && NonNegative(observerUnits)
      ensures this.rate == rate && this.simTime == simTime
      ensures arrivalEvents == StreamFrom(0.0, Draws(arrivalUnits, rate), simTime)
      ensures observerEvents == StreamFrom(0.0, Draws(observerUnits, 5.0 * rate), simTime)
      ensures meanOccupancy == 0.0 && idleRatio == 0.0 && lossRatio == Some(0.0)
      ensures Valid()
    {
      this.rate := rate;
      this.simTime := simTime;
      var arrivals := AccumulateEvents(arrivalUnits, rate, simTime);
      var observers := AccumulateEvents(observerUnits, 5.0 * rate, simTime);
      StreamNonDecreasing(0.0, Draws(arrivalUnits, rate), simTime);
      StreamNonDecreasing(0.0, Draws(observerUnits, 5.0 * rate), simTime);
      arrivalEvents := arrivals;
      observerEvents := observers;
      meanOccupancy := 0.0;
      idleRatio := 0.0;
      lossRatio := Some(0.0);
    }

    /**
     * One run of the event loop up to the horizon `simTime`, on a fresh queue.
     * `packetUnits(k)` is the standard variate behind the packet length drawn
     * in iteration k.
     */
    method RunSimulation(transmissionRate: real, isFinite: bool, capacity: Option<int>, packetUnits: nat -> real)
      requires Valid()
      requires 0.0 < transmissionRate
      requires QueueModel.WellConfigured(isFinite, capacity)
      requires ReachesHorizon(arrivalEvents, simTime) && ReachesHorizon(observerEvents, simTime)
      requires forall k: nat :: 0.0 <= packetUnits(k)
      modifies this
      ensures Valid()
      ensures OutputsInRange(meanOccupancy, idleRatio, lossRatio)
      ensures var setup := Setup(arrivalEvents, observerEvents, 1.0 * simTime, transmissionRate, isFinite,
                                 if isFinite then capacity else None, packetUnits);
              var final := Run(setup, Initial(setup, old(meanOccupancy), old(idleRatio), old(lossRatio)));
              meanOccupancy == final.meanOccupancy && idleRatio == final.idleRatio && lossRatio == final.lossRatio
    {
      var maxSimulationTime := 1.0 * simTime;
      // An unbounded queue is built without a capacity, whatever the caller passed.
      var queueCapacity := if isFinite then capacity else None;
      ghost var setup := Setup(arrivalEvents, observerEvents, maxSimulationTime, transmissionRate, isFinite, queueCapacity, packetUnits);
      var departureEvent := NullDeparture;
      var arrivalEventPointer: nat := 0;
      var observerEventPointer: nat := 0;
      var simulationTime := 0.0;
      var packetsDrawn: nat := 0;
      var packetQueue := new Queue(isFinite, queueCapacity);

      ghost var state := Initial(setup, meanOccupancy, idleRatio, lossRatio);
      ghost var initial := state;
      InitialInv(setup, meanOccupancy, idleRatio, lossRatio);

      while simulationTime < maxSimulationTime
        invariant state == SimState(arrivalEventPointer, observerEventPointer, departureEvent, simulationTime,
                                    packetQueue.Model(), meanOccupancy, idleRatio, lossRatio, packetsDrawn)
        invariant Inv(setup, state)
        invariant Run(setup, state) == Run(setup, initial)
        decreases Measure(setup, state)
      {
        StepPreservesInv(setup, state);
        ghost var next := Step(setup, state);
        assert Run(setup, state) == Run(setup, next);
        arrivalEventPointer, observerEventPointer, departureEvent, simulationTime, packetsDrawn :=
          ProcessNextEvent(setup, state, packetQueue, maxSimulationTime, transmissionRate, packetUnits,
                           arrivalEventPointer, observerEventPointer, departureEvent, packetsDrawn);
        state := next;
      }
    }

    /**
     * One pass of the loop body: draw the packet length for this iteration,
     * pick the next event and dispatch it to its branch.
     */
    method ProcessNextEvent(ghost setup: Setup, ghost state: SimState, packetQueue: Queue,
                            maxSimulationTime: real, transmissionRate: real, packetUnits: nat -> real,
                            arrivalEventPointer: nat, observerEventPointer: nat,
                            departureEvent: PendingDeparture, packetsDrawn: nat)
      returns (arrivalPointer: nat, observerPointer: nat, departure: PendingDeparture,
               simulationTime: real, drawn: nat)
      requires setup == Setup(arrivalEvents, observerEvents, maxSimulationTime, transmissionRate,
                              setup.isFinite, setup.capacity, packetUnits)
      requires Inv(setup, state) && state.simulationTime < setup.maxSimulationTime
      requires state == SimState(arrivalEventPointer, observerEventPointer, departureEvent, state.simulationTime,
                                 packetQueue.Model(), meanOccupancy, idleRatio, lossRatio, packetsDrawn)
      modifies this, packetQueue
      ensures SimState(arrivalPointer, observerPointer, departure, simulationTime,
                       packetQueue.Model(), meanOccupancy, idleRatio, lossRatio, drawn)
              == Step(setup, state)
    {
      var packet := PacketLength(AverageLength, packetUnits(packetsDrawn));
      drawn := packetsDrawn + 1;
      arrivalPointer, observerPointer, departure := arrivalEventPointer, observerEventPointer, departureEvent;

      var nextEvent := GetNextEvent(
        Event(Arrival, arrivalEvents[arrivalEventPointer]),
        Event(Observer, observerEvents[observerEventPointer]),
        DepartureEvent(departureEvent, maxSimulationTime));

      if nextEvent.eventType == Arrival {
        if packetQueue.IsQueueEmpty() {
          departure := Scheduled(arrivalEvents[arrivalEventPointer] + packet / transmissionRate);
        }
        packetQueue.AddPacket(packet);
        arrivalPointer :=
          if arrivalEventPointer < |arrivalEvents| - 1 then arrivalEventPointer + 1 else arrivalEventPointer;
        simulationTime := nextEvent.nominalSimTime;
      } else if nextEvent.eventType == Observer {
        meanOccupancy, idleRatio, lossRatio := packetQueue.QueueObserve(observerEventPointer);
        observerPointer :=
          if observerEventPointer < |observerEvents| - 1 then observerEventPointer + 1 else observerEventPointer;
        simulationTime := nextEvent.nominalSimTime;
      } else {
        packetQueue.RemovePacket();
        simulationTime := nextEvent.nominalSimTime;
        if !packetQueue.IsQueueEmpty() {
          departure := Scheduled(DepartureEvent(departureEvent, maxSimulationTime).nominalSimTime + packet / transmissionRate);
        } else {
          departure := NullDeparture;
        }
      }
    }
  }
}
