/** The three kinds of simulation event and the choice of the next one to dispatch. */
module Events {

  datatype EventType = Arrival | Departure | Observer

  /** An event is its kind and the nominal simulated time at which it occurs. */
  datatype Event = Event(eventType: EventType, nominalSimTime: real)

  /**
   * getNextEvent: the earliest of the three candidates.  The strict comparisons
   * make Departure win every tie it is part of, and Observer win a tie with
   * Arrival; Arrival is chosen only when it is strictly earliest.
   */
  function GetNextEvent(arrivalEvent: Event, observerEvent: Event, departureEvent: Event): (next: Event)
    requires arrivalEvent.eventType == Arrival
    requires observerEvent.eventType == Observer
    requires departureEvent.eventType == Departure
    ensures next == arrivalEvent || next == observerEvent || next == departureEvent
    ensures next.nominalSimTime <= arrivalEvent.nominalSimTime
    ensures next.nominalSimTime <= observerEvent.nominalSimTime
    ensures next.nominalSimTime <= departureEvent.nominalSimTime
    ensures next.eventType == Arrival <==>
      arrivalEvent.nominalSimTime < observerEvent.nominalSimTime &&
      arrivalEvent.nominalSimTime < departureEvent.nominalSimTime
    ensures next.eventType == Observer <==>
      observerEvent.nominalSimTime < departureEvent.nominalSimTime &&
      observerEvent.nominalSimTime <= arrivalEvent.nominalSimTime
    ensures next.eventType == Departure <==>
      departureEvent.nominalSimTime <= observerEvent.nominalSimTime &&
      departureEvent.nominalSimTime <= arrivalEvent.nominalSimTime
  {
    if arrivalEvent.nominalSimTime < observerEvent.nominalSimTime
       && arrivalEvent.nominalSimTime < departureEvent.nominalSimTime then
      arrivalEvent
    else if observerEvent.nominalSimTime < departureEvent.nominalSimTime then
      observerEvent
    else
      departureEvent
  }

  /** The tie cases spelled out: Departure before Observer before Arrival. */
  lemma GetNextEventTies(a: real, o: real, d: real)
    ensures a == o == d ==>
      GetNextEvent(Event(Arrival, a), Event(Observer, o), Event(Departure, d)).eventType == Departure
    ensures a == o < d ==>
      GetNextEvent(Event(Arrival, a), Event(Observer, o), Event(Departure, d)).eventType == Observer
    ensures a == d < o ==>
      GetNextEvent(Event(Arrival, a), Event(Observer, o), Event(Departure, d)).eventType == Departure
    ensures o == d < a ==>
      GetNextEvent(Event(Arrival, a), Event(Observer, o), Event(Departure, d)).eventType == Departure
  {
  }
}
