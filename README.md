# Discrete-event M/M/1 and M/M/1/K queue simulator in Dafny

This project models the engine of `DiscreteEventSimulator.py`, a discrete-event simulator for a
single-server queue. The queue is either unbounded (M/M/1) or holds at most K packets (M/M/1/K).
Arrivals are Poisson and service times are exponential. The engine estimates:

- E[N], the mean number of packets in the queue;
- P_idle, the share of observations that find the queue empty;
- P_loss, the share of offered packets that a full bounded queue drops.

The model has these parts:

- `Events` (`events.dfy`): the tagged `Event` datatype (ARRIVAL / DEPARTURE / OBSERVER plus a `real`
  time) and `getNextEvent`, the three-way choice with its strict `<` tie-break.
- `QueueModel` (`queue_model.dfy`): the `Queue` state as a value. Each operation is a function, and
  the invariants and FIFO behaviour are proved as lemmas.
- `PacketQueue` (`queue.dfy`): the `Queue` class itself. Its fields are updated in place, and every
  method is proved to leave the object in the state the matching `QueueModel` function gives.
- `Sampling` (`sampling.dfy`): the arithmetic of `getExponential`, `getPacketLength` and
  `exponentialRateParameter`.
- `EventStreams` (`streams.dfy`): the prefix-sum loops that build the arrival and observer streams,
  with lemmas on their order and on where they stop relative to the horizon.
- `Simulation` (`simulation.dfy`): one iteration of the `runSimulation` loop as a function `Step` on
  the loop's variables. `Run` iterates `Step` until the clock reaches the horizon. The invariant
  `Inv` and the termination measure are proved for every step.
- `Simulator` (`simulator.dfy`): the `DiscreteEventSimulator` class. Its constructor runs the two
  stream loops. `RunSimulation` runs the event loop on a fresh `Queue` and is proved to end in the
  state `Run` specifies.

All timestamps and lengths are `real`. Randomness is an input. The random part of an exponential
draw, the standard variate -ln(1 - U), is supplied as a "unit". A draw at rate λ is then (1/λ)·unit.
This keeps the rates visible: observers are drawn at `5*rate`, and packet lengths at
`1/AVERAGE_LENGTH`.

Behaviour of the code worth knowing, which the model keeps:

- Ties go to Departure, then Observer, then Arrival.
- A finite queue whose capacity is 0 (or negative) never counts as full, so it appends every packet.
- An observation passes the observer cursor before it is incremented. The first observation
  therefore passes 0 and accumulates nothing.
- The back-to-back departure is scheduled with the packet length drawn at the top of that loop
  iteration. It does not use the length stored for the packet entering service.

## Model

| member | source | states |
|---|---|---|
| `Events.GetNextEvent` | DiscreteEventSimulator.py:222-229 | The result is one of the three candidates and is no later than any of them. Arrival is chosen iff it is strictly earliest. Observer is chosen iff it is strictly before Departure and no later than Arrival. Departure is chosen iff it is no later than both others. |
| `Events.GetNextEventTies` | DiscreteEventSimulator.py:225-229 | All three equal gives Departure. Arrival = Observer < Departure gives Observer. Arrival = Departure < Observer gives Departure. Observer = Departure < Arrival gives Departure. |
| `Sampling.ExponentialDraw` | DiscreteEventSimulator.py:194-203 | A non-positive rate gives 0. A positive rate gives a sample s with s·rate = unit. A non-negative unit gives a non-negative sample. |
| `Sampling.PacketLength` | DiscreteEventSimulator.py:205-217 | A non-positive average length gives 0. Otherwise the length is unit × average length: drawing at rate 1/average scales by the average. It is non-negative for a non-negative unit. |
| `Sampling.ExponentialRateParameter` | DiscreteEventSimulator.py:307-308 | The rate r satisfies r · averageLength = rho · transmissionRate. |
| `Sampling.UtilizationOfRateParameter` | DiscreteEventSimulator.py:307-308 | The utilisation rate·L/R of the rate chosen for rho is rho again. |
| `Sampling.RateParameterOfUtilization` | DiscreteEventSimulator.py:307-308 | The rate parameter of a rate's utilisation is that rate again. |
| `QueueModel.NewQueue` | DiscreteEventSimulator.py:69-83 | A new queue is empty, has all counters at 0, satisfies the queue invariant, and counts drops only when finite. |
| `QueueModel.AddPacket` | DiscreteEventSimulator.py:89-106 | Every call adds exactly 1 to packetCounter. A full bounded queue keeps its packets and adds 1 to the drop count. Any other queue appends the packet and keeps the drop count. A bounded queue never exceeds its capacity. The invariant (drops + queued ≤ offered) is kept. |
| `QueueModel.RemovePacket` | DiscreteEventSimulator.py:109-112 | A non-empty queue loses exactly its head. An empty queue is unchanged. No counter changes. |
| `QueueModel.RunningTimeAverage` | DiscreteEventSimulator.py:127-131 | Count 0 changes nothing and returns 0. A positive count c adds the occupancy to the running sum, and the result times c equals the new sum. The result is never negative. |
| `QueueModel.RunningQueueEmpty` | DiscreteEventSimulator.py:134-138 | Count 0 changes nothing and returns 0. A positive count adds 1 to the empty count exactly when the queue is empty, and the result times c equals the new empty count. The result is in [0,1] when the old empty count is below c. |
| `QueueModel.RunningDroppedPacketRatio` | DiscreteEventSimulator.py:141-149 | The result is None iff the queue is unbounded. It is 0.0 for a finite queue before any offer. Otherwise it is the dropped share of offered packets, always in [0,1]. |
| `QueueModel.QueueObserve` | DiscreteEventSimulator.py:119-123 | The packets and admission counters are unchanged. Count 0 accumulates nothing and returns 0 and 0. A positive count adds the occupancy and the emptiness to the accumulators and returns each sum divided by the count. E[N] ≥ 0. P_idle is in [0,1] when the empty count is below the count. P_loss is the dropped-packet ratio. |
| `QueueModel.AddPacketsCounts` | DiscreteEventSimulator.py:89-106 | After any sequence of offers, packetCounter has grown by their number. Each offer is either queued or dropped. The configuration is unchanged. |
| `QueueModel.NonPositiveCapacityAdmitsAll` | DiscreteEventSimulator.py:92-106 | A finite queue with capacity ≤ 0 appends every offered packet in order and never drops. |
| `QueueModel.AddThenRemove` | DiscreteEventSimulator.py:98-112 | FIFO order: a packet admitted behind a non-empty queue stays at the tail after the head is served. A packet admitted to an empty queue is the one served. |
| `QueueModel.EmptyQueueAdmits` | DiscreteEventSimulator.py:92-100 | An empty queue always accepts the offered packet. |
| `PacketQueue.Queue.constructor` | DiscreteEventSimulator.py:69-83 | The new object stands for `NewQueue(isFinite, capacity)` and is valid. |
| `PacketQueue.Queue.AddPacket` | DiscreteEventSimulator.py:89-106 | The object's new state is `QueueModel.AddPacket` of its old state, and it stays valid. |
| `PacketQueue.Queue.RemovePacket` | DiscreteEventSimulator.py:109-112 | The object's new state is `QueueModel.RemovePacket` of its old state, and it stays valid. |
| `PacketQueue.Queue.IsQueueEmpty` | DiscreteEventSimulator.py:116-117 | True iff the deque is empty. |
| `PacketQueue.Queue.QueueObserve` | DiscreteEventSimulator.py:119-123 | The returned triple and the new state are those of `QueueModel.QueueObserve`, and the object stays valid. |
| `PacketQueue.Queue.RunningTimeAverage` | DiscreteEventSimulator.py:127-131 | The new state and the result are those of `QueueModel.RunningTimeAverage`. |
| `PacketQueue.Queue.RunningQueueEmpty` | DiscreteEventSimulator.py:134-138 | The new state and the result are those of `QueueModel.RunningQueueEmpty`. |
| `PacketQueue.Queue.RunningDroppedPacketRatio` | DiscreteEventSimulator.py:141-149 | The result is that of `QueueModel.RunningDroppedPacketRatio`, and a present ratio is in [0,1]. |
| `EventStreams.StreamFrom` | DiscreteEventSimulator.py:168-173 | A stream never has more timestamps than there are draws. |
| `EventStreams.Draws` | DiscreteEventSimulator.py:171 | Draw k is the exponential draw at the given rate from unit k. Non-negative units give non-negative draws. |
| `EventStreams.AccumulateEvents` | DiscreteEventSimulator.py:168-181 | The loop's output is `StreamFrom(0, Draws(units, rate), horizon)`: it keeps appending the running sum while the sum is below the horizon. |
| `EventStreams.StreamIsPrefixSums` | DiscreteEventSimulator.py:168-173 | Timestamp k is the start plus the sum of the first k+1 draws. |
| `EventStreams.StreamAboveStart` | DiscreteEventSimulator.py:168-173 | With non-negative draws, no timestamp is below the start. |
| `EventStreams.StreamNonDecreasing` | DiscreteEventSimulator.py:168-181 | With non-negative draws, the timestamps are non-decreasing (and non-negative from start 0). |
| `EventStreams.StreamBeforeHorizon` | DiscreteEventSimulator.py:169 | Every timestamp except the last is strictly below the horizon. |
| `EventStreams.StreamReachesHorizon` | DiscreteEventSimulator.py:169-173 | When the draws add up to the horizon, the stream is non-empty and its last timestamp is at or past the horizon. |
| `EventStreams.ShortStreamUsesAllDraws` | DiscreteEventSimulator.py:169-173 | A stream that ends below the horizon has used every draw. |
| `Simulation.Advance` | DiscreteEventSimulator.py:271 | A cursor inside its stream stays inside it. It moves by one except at the last event, where it stays put, so the last event repeats. |
| `Simulation.InitialInv` | DiscreteEventSimulator.py:231-244 | The loop's starting state satisfies the invariant: cursors 0, clock 0, null departure, empty queue. |
| `Simulation.StepPreservesInv` | DiscreteEventSimulator.py:246-302 | One iteration keeps the invariant and never moves the clock back. The invariant says: both cursors within [0, len-1]; no candidate in the past; the pending departure is the null sentinel exactly when the queue is empty; the empty-observation count stays below the cursor; E[N] ≥ 0, P_idle and P_loss in [0,1]; queue invariant. The termination measure strictly decreases. |
| `Simulation.StepSchedulesDepartures` | DiscreteEventSimulator.py:261-302 | An arrival to an empty queue schedules departure at arrival time + packet/R. A departure that leaves packets schedules the next at previous departure time + packet/R. A departure that empties the queue restores the null sentinel. Other steps keep the pending departure. |
| `Simulation.Run` | DiscreteEventSimulator.py:246-302 | The loop run to its end reaches a state with the clock at or past the horizon. That state satisfies the invariant, and the clock has not gone back. |
| `Simulator.DiscreteEventSimulator.constructor` | DiscreteEventSimulator.py:152-181 | The arrival stream is the prefix-sum stream of draws at `rate`, and the observer stream uses draws at `5*rate`. Both are non-decreasing and non-negative. The estimators start at 0, 0, 0. |
| `Simulator.DiscreteEventSimulator.ProcessNextEvent` | DiscreteEventSimulator.py:248-302 | One pass of the loop body yields exactly `Step` of the loop state. |
| `Simulator.DiscreteEventSimulator.RunSimulation` | DiscreteEventSimulator.py:220-302 | The queue is built with the given capacity when finite and without one otherwise. The final E[N], P_idle and P_loss are those of `Run` from the initial state, and they are in range: E[N] ≥ 0, P_idle in [0,1], P_loss absent or in [0,1]. |

## Left out

- `simulateExponential` and the uniform/log sampling inside `getExponential` and `getPacketLength`
  are not modelled. The standard variate -ln(1 - U) is an input. Statistical claims about the
  sample mean and variance cannot be stated over supplied values.
- Floating-point rounding: times and lengths are exact reals.
- `simulateM_M_1`, `simulateM_M_1_K`, their `_f` percent-error helpers, the module-level result lists
  and the script at the end of the file are left out. They are the pandas/CSV experiment driver and
  the printed output.
- The Python event class hierarchy and the `isinstance` dispatch: both become the tagged `Event`
  datatype.
- `departure_event_counter` and `self.network_queue` are written but never read, so they are left
  out.
- The crash of a finite queue built with capacity `None` (`None > 0`) is excluded by the
  precondition `WellConfigured`.
- `Simulator.DiscreteEventSimulator.constructor`: the stream loops draw from finite supplied
  sequences and also stop when these run out. The source's generator never runs out. With a
  non-positive rate every draw is 0, so the source's loop never ends.
- `Simulator.DiscreteEventSimulator.RunSimulation`: requires both streams to reach the horizon
  (`EventStreams.StreamReachesHorizon` gives this when the draws add up to it). Otherwise the
  source's loop can spin on a clamped cursor. It also requires a positive transmission rate: the
  source fails on 0 and would schedule departures in the past for a negative rate.
- `Sampling.ExponentialRateParameter`: requires a non-zero average length; the source raises
  ZeroDivisionError on 0. Its default arguments (average length 2000, transmission rate 1e6) are
  explicit parameters, as the defaults belong to the experiment driver that is left out.
- The packet length of each loop iteration comes from a supplied function of the iteration number.
  It is drawn at the default average length 2000, as `getPacketLength()` is called with no argument.
