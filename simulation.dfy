/**
 * The dispatch loop of runSimulation as a state-transition function.  One
 * `Step` is one iteration of the loop: draw a packet length, pick the next of
 * the three candidate events and apply its effect.  `Run` iterates `Step`
 * until the simulated time reaches the horizon.
 */
module Simulation {
  import opened Options
  import opened Events
  import opened Sampling
  import opened QueueModel
  import opened EventStreams

  /** The pending departure: none scheduled (the null sentinel) or one at a time. */
  datatype PendingDeparture = NullDeparture | Scheduled(departureTime: real)

  /** The departure candidate; the null sentinel is a departure fixed at the horizon. */
  function DepartureEvent(pending: PendingDeparture, maxSimulationTime: real): Event {
    match pending
    case NullDeparture => Event(Departure, maxSimulationTime)
    case Scheduled(time) => Event(Departure, time)
  }

  /**
   * What one run works from: the two pre-built streams, the horizon, the
   * transmission rate, the queue discipline and the standard variates from
   * which the packet length of each loop iteration is drawn.
   */
  datatype Setup = Setup(
    arrivalEvents: seq<real>,
    observerEvents: seq<real>,
    maxSimulationTime: real,
    transmissionRate: real,
    isFinite: bool,
    capacity: Option<int>,
    packetUnits: nat -> real)

  /**
   * The loop's variables: the two cursors, the pending departure, the clock,
   * the queue, the last recorded estimators (E[N], P_idle, P_loss) and the
   * number of packet lengths drawn so far.
   */
  datatype SimState = SimState(
    arrivalPointer: nat,
    observerPointer: nat,
    departure: PendingDeparture,
    simulationTime: real,
    queue: QueueState,
    meanOccupancy: real,
    idleRatio: real,
    lossRatio: Option<real>,
    packetsDrawn: nat)

  ghost predicate WellFormed(setup: Setup) {
    && 0.0 < setup.transmissionRate
    && NonNegative(setup.arrivalEvents) && NonDecreasing(setup.arrivalEvents)
    && ReachesHorizon(setup.arrivalEvents, setup.maxSimulationTime)
    && NonNegative(setup.observerEvents) && NonDecreasing(setup.observerEvents)
    && ReachesHorizon(setup.observerEvents, setup.maxSimulationTime)
    && WellConfigured(setup.isFinite, setup.capacity)
    && forall k: nat :: 0.0 <= setup.packetUnits(k)
  }

  /** The estimators are in range: E[N] >= 0, P_idle and P_loss in [0, 1]. */
  predicate OutputsInRange(meanOccupancy: real, idleRatio: real, lossRatio: Option<real>) {
    && 0.0 <= meanOccupancy
    && 0.0 <= idleRatio <= 1.0
    && (lossRatio.Some? ==> 0.0 <= lossRatio.value <= 1.0)
  }

  /** A cursor is inside its stream and does not point into the past. */
  predicate InStream(pointer: nat, stream: seq<real>, time: real) {
    if stream == [] then pointer == 0 else pointer < |stream| && time <= stream[pointer]
  }

  /** The clamped cursor advance: the last event is repeated rather than overrun. */
  function Advance(pointer: nat, length: nat): (next: nat)
    ensures pointer < length ==> next < length
    ensures pointer + 1 < length ==> next == pointer + 1
    ensures length <= pointer + 1 ==> next == pointer
  {
    if pointer < length - 1 then pointer + 1 else pointer
  }

  ghost predicate Inv(setup: Setup, s: SimState) {
    && WellFormed(setup)
    && QueueModel.Valid(s.queue)
    && s.queue.isFinite == setup.isFinite && s.queue.capacity == setup.capacity
    && 0.0 <= s.simulationTime
    && InStream(s.arrivalPointer, setup.arrivalEvents, s.simulationTime)
    && InStream(s.observerPointer, setup.observerEvents, s.simulationTime)
    && (s.departure.Scheduled? ==> s.simulationTime <= s.departure.departureTime)
    && (s.departure.NullDeparture? <==> s.queue.packets == [])
    && s.queue.queueEmptyCount <= s.observerPointer
    && (s.simulationTime < setup.maxSimulationTime ==>
          s.observerPointer == 0 || s.queue.queueEmptyCount < s.observerPointer)
    && OutputsInRange(s.meanOccupancy, s.idleRatio, s.lossRatio)
  }

  /** The state at the top of the loop, keeping whatever estimators the simulator held before. */
  function Initial(setup: Setup, meanOccupancy: real, idleRatio: real, lossRatio: Option<real>): SimState
    requires WellConfigured(setup.isFinite, setup.capacity)
  {
    SimState(0, 0, NullDeparture, 0.0, NewQueue(setup.isFinite, setup.capacity),
             meanOccupancy, idleRatio, lossRatio, 0)
  }

  lemma InitialInv(setup: Setup, meanOccupancy: real, idleRatio: real, lossRatio: Option<real>)
    requires WellFormed(setup)
    requires OutputsInRange(meanOccupancy, idleRatio, lossRatio)
    ensures Inv(setup, Initial(setup, meanOccupancy, idleRatio, lossRatio))
  {
  }

  /** The event the loop dispatches next from state `s`. */
  function NextEvent(setup: Setup, s: SimState): (next: Event)
    requires Inv(setup, s)
    requires s.simulationTime < setup.maxSimulationTime
  {
    GetNextEvent(
      Event(Arrival, setup.arrivalEvents[s.arrivalPointer]),
      Event(Observer, setup.observerEvents[s.observerPointer]),
      DepartureEvent(s.departure, setup.maxSimulationTime))
  }

  /**
   * An arrival: a packet arriving at an empty queue starts service at once, so
   * its departure is scheduled at the arrival time plus its transmission time;
   * then the packet is offered to the queue.
   */
  function ArrivalStep(setup: Setup, s: SimState, packet: real, time: real): SimState
    requires 0.0 < setup.transmissionRate
    requires QueueModel.Valid(s.queue)
    requires s.arrivalPointer < |setup.arrivalEvents|
  {
    var pending :=
      if IsQueueEmpty(s.queue) then Scheduled(setup.arrivalEvents[s.arrivalPointer] + packet / setup.transmissionRate)
      else s.departure;
    s.(departure := pending,
       queue := AddPacket(s.queue, packet),
       arrivalPointer := Advance(s.arrivalPointer, |setup.arrivalEvents|),
       simulationTime := time)
  }

  /** An observation: record the estimators, passing the cursor before it advances. */
  function ObserverStep(setup: Setup, s: SimState, time: real): SimState
    requires QueueModel.Valid(s.queue)
  {
    var (queue, observation) := QueueObserve(s.queue, s.observerPointer);
    s.(queue := queue,
       meanOccupancy := observation.meanOccupancy,
       idleRatio := observation.idleRatio,
       lossRatio := observation.lossRatio,
       observerPointer := Advance(s.observerPointer, |setup.observerEvents|),
       simulationTime := time)
  }

  /**
   * A departure: serve the head; if packets remain, the next one starts
   * service at once and departs after the transmission time of the packet
   * drawn in this iteration; otherwise the server goes idle.
   */
  function DepartureStep(setup: Setup, s: SimState, packet: real, time: real): SimState
    requires 0.0 < setup.transmissionRate
    requires QueueModel.Valid(s.queue)
  {
    var queue := RemovePacket(s.queue);
    var pending :=
      if !IsQueueEmpty(queue)
      then Scheduled(DepartureEvent(s.departure, setup.maxSimulationTime).nominalSimTime + packet / setup.transmissionRate)
      else NullDeparture;
    s.(queue := queue, departure := pending, simulationTime := time)
  }

  /** One iteration of the loop body: draw a packet length, then dispatch the next event. */
  function Step(setup: Setup, s: SimState): SimState
    requires Inv(setup, s)
    requires s.simulationTime < setup.maxSimulationTime
  {
    var packet := PacketLength(AverageLength, setup.packetUnits(s.packetsDrawn));
    var next := NextEvent(setup, s);
    var s' := s.(packetsDrawn := s.packetsDrawn + 1);
    match next.eventType
    case Arrival => ArrivalStep(setup, s', packet, next.nominalSimTime)
    case Observer => ObserverStep(setup, s', next.nominalSimTime)
    case Departure => DepartureStep(setup, s', packet, next.nominalSimTime)
  }

  /** What is left to do: unconsumed arrivals (weighted twice), unconsumed observers and queued packets. */
  ghost function Measure(setup: Setup, s: SimState): nat
    requires Inv(setup, s)
  {
    if setup.maxSimulationTime <= s.simulationTime then 0
    else
      2 * (|setup.arrivalEvents| - 1 - s.arrivalPointer)
      + (|setup.observerEvents| - 1 - s.observerPointer)
      + |s.queue.packets| + 1
  }

  /** A step keeps the invariant, never moves the clock backwards and makes progress. */
  lemma StepPreservesInv(setup: Setup, s: SimState)
    requires Inv(setup, s)
    requires s.simulationTime < setup.maxSimulationTime
    ensures Inv(setup, Step(setup, s))
    ensures s.simulationTime <= Step(setup, s).simulationTime
    ensures Measure(setup, Step(setup, s)) < Measure(setup, s)
  {
    var packet := PacketLength(AverageLength, setup.packetUnits(s.packetsDrawn));
    var next := NextEvent(setup, s);
    var r := Step(setup, s);
    assert 0.0 <= packet / setup.transmissionRate;
    match next.eventType
    case Arrival =>
      if IsQueueEmpty(s.queue) {
        EmptyQueueAdmits(s.queue, packet);
      }
      assert r.simulationTime == setup.arrivalEvents[s.arrivalPointer];
    case Observer =>
      assert r.simulationTime == setup.observerEvents[s.observerPointer];
    case Departure =>
      assert r.simulationTime == DepartureEvent(s.departure, setup.maxSimulationTime).nominalSimTime;
  }

  /**
   * Departures are scheduled in two places: an arrival that finds the queue
   * empty schedules its own departure at the arrival time plus the drawn
   * packet's transmission time; a departure that leaves packets behind
   * schedules the next one at its own time plus that transmission time.
   */
  lemma StepSchedulesDepartures(setup: Setup, s: SimState)
    requires Inv(setup, s)
    requires s.simulationTime < setup.maxSimulationTime
    ensures var packet := PacketLength(AverageLength, setup.packetUnits(s.packetsDrawn));
            var next := NextEvent(setup, s);
            var r := Step(setup, s);
            && (next.eventType == Arrival && s.queue.packets == [] ==>
                  r.departure == Scheduled(setup.arrivalEvents[s.arrivalPointer] + packet / setup.transmissionRate))
            && (next.eventType == Arrival && s.queue.packets != [] ==> r.departure == s.departure)
            && (next.eventType == Observer ==> r.departure == s.departure)
            && (next.eventType == Departure && r.queue.packets != [] ==>
                  r.departure == Scheduled(s.departure.departureTime + packet / setup.transmissionRate))
            && (next.eventType == Departure && r.queue.packets == [] ==> r.departure == NullDeparture)
  {
  }

  /** The loop run to its end from `s`. */
  ghost function Run(setup: Setup, s: SimState): (final: SimState)
    requires Inv(setup, s)
    ensures Inv(setup, final)
    ensures setup.maxSimulationTime <= final.simulationTime
    ensures s.simulationTime <= final.simulationTime
    decreases Measure(setup, s)
  {
    if setup.maxSimulationTime <= s.simulationTime then s
    else
      StepPreservesInv(setup, s);
      Run(setup, Step(setup, s))
  }
}
