/** The Hertz quote request: one supplier call per vehicle, collected through two queues. */
module QuoteRequest {
  import opened Schema
  import opened Interleaving
  import opened QuoteProtocol

  class Request<V> {
    // the response
    var vehicles: seq<V>
    const bucket: ErrorsBucket
    // goroutines, queues and the WaitGroup
    var main: Main
    var spawned: nat
    var sent: seq<bool>
    var wait: int
    var vehicleQueue: seq<V>
    var errQueue: seq<SupplierResponseError>
    var vehicleCollector: Collector<V>
    var errorCollector: Collector<SupplierResponseError>
    var closed: bool
    // what was there before, and who sent what since
    ghost var errorsBefore: seq<SupplierResponseError>
    ghost var vehiclesFrom: seq<nat>
    ghost var errorsFrom: seq<nat>

    constructor ()
      ensures bucket.errors == [] && fresh(bucket)
    {
      bucket := new ErrorsBucket();
      vehicles, main, spawned, sent, wait := [], Spawning, 0, [], 0;
      vehicleQueue, errQueue, vehicleCollector, errorCollector := [], [], NotStarted, NotStarted;
      closed, errorsBefore, vehiclesFrom, errorsFrom := false, [], [], [];
    }

    ghost predicate Holds(s: State<V>)
      reads this, bucket
    {
      && s.main == main && s.spawned == spawned && s.sent == sent && s.counter == wait && s.closed == closed
      && s.vehicles == Lane(vehicleQueue, vehicleCollector, vehicles, vehiclesFrom)
      && s.errors.queue == errQueue && s.errors.collector == errorCollector && s.errors.from == errorsFrom
      && bucket.errors == errorsBefore + s.errors.collected
    }

    predicate Ready(attempts: seq<Attempt<V>>, step: Step)
      requires |sent| == |attempts|
      reads this
    {
      Possible(attempts, main, spawned, sent, wait, vehicleQueue, vehicleCollector, errQueue, errorCollector, step)
    }

    lemma ReadyIsEnabled(attempts: seq<Attempt<V>>, s: State<V>, step: Step)
      requires Holds(s) && |s.sent| == |attempts|
      ensures Ready(attempts, step) <==> Enabled(attempts, s, step)
    {
    }

    method SendResult(attempts: seq<Attempt<V>>, i: nat, ghost s: State<V>)
      requires Holds(s) && |s.sent| == |attempts| && Enabled(attempts, s, Send(i))
      modifies this
      ensures Holds(Apply(attempts, s, Send(i))) && errorsBefore == old(errorsBefore)
    {
      sent := sent[i := true];
      vehicleQueue := vehicleQueue + VehiclePart(attempts[i]);
      vehiclesFrom := vehiclesFrom + seq(|VehiclePart(attempts[i])|, k => i);
      errQueue := errQueue + ErrorPart(attempts[i]);
      errorsFrom := errorsFrom + seq(|ErrorPart(attempts[i])|, k => i);
    }

    /** `for vehicle := range vehicleQueue { append; Done }`, one step of it. */
    method CollectVehicle(attempts: seq<Attempt<V>>, step: LaneStep, ghost s: State<V>)
      requires Holds(s) && |s.sent| == |attempts| && Enabled(attempts, s, OnVehicles(step))
      modifies this
      ensures Holds(Apply(attempts, s, OnVehicles(step))) && errorsBefore == old(errorsBefore)
    {
      match step
      case Receive =>
        vehicleCollector := Received(vehicleQueue[0]);
        vehicleQueue := vehicleQueue[1..];
      case Append =>
        vehicles := vehicles + [vehicleCollector.item];
        vehicleCollector := Appended;
      case CallDone =>
        vehicleCollector := Idle;
        wait := wait - 1;
    }

    method CollectError(attempts: seq<Attempt<V>>, step: LaneStep, ghost s: State<V>)
      requires Holds(s) && |s.sent| == |attempts| && Enabled(attempts, s, OnErrors(step))
      modifies this, bucket
      ensures Holds(Apply(attempts, s, OnErrors(step))) && errorsBefore == old(errorsBefore)
    {
      match step
      case Receive =>
        errorCollector := Received(errQueue[0]);
        errQueue := errQueue[1..];
      case Append =>
        bucket.AddError(errorCollector.item);
        errorCollector := Appended;
      case CallDone =>
        errorCollector := Idle;
        wait := wait - 1;
    }

    /** One step of the scheduler's choice, carried out on the fields. */
    method Take(attempts: seq<Attempt<V>>, step: Step, ghost s: State<V>)
      requires Holds(s) && |s.sent| == |attempts| && Enabled(attempts, s, step)
      modifies this, bucket
      ensures Holds(Apply(attempts, s, step)) && errorsBefore == old(errorsBefore)
    {
      match step
      case Spawn =>
        wait := wait + 1;
        spawned := spawned + 1;
      case StartVehicleCollector =>
        vehicleCollector := Idle;
      case StartErrorCollector =>
        errorCollector := Idle;
        main := Waiting;
      case Send(i) => SendResult(attempts, i, s);
      case OnVehicles(laneStep) => CollectVehicle(attempts, laneStep, s);
      case OnErrors(laneStep) => CollectError(attempts, laneStep, s);
      case CloseAndReturn =>
        closed := true;
        main := Returned;
    }

    /** The scheduler picks any step that is possible; there is one, and it makes progress. */
    method Schedule(attempts: seq<Attempt<V>>, ghost s: State<V>) returns (ghost t: State<V>)
      requires Holds(s) && Inv(attempts, s) && !s.main.Returned?
      modifies this, bucket
      ensures Holds(t) && Inv(attempts, t) && Measure(t) < Measure(s)
      ensures errorsBefore == old(errorsBefore)
    {
      hide Apply, LaneInv, Measure, Possible;
      ghost var possible := NeverStuck(attempts, s);
      ReadyIsEnabled(attempts, s, possible);
      var step: Step :| Ready(attempts, step);
      ReadyIsEnabled(attempts, s, step);
      InvStep(attempts, s, step);
      MeasureDecreases(attempts, s, step);
      Take(attempts, step, s);
      t := Apply(attempts, s, step);
    }

    method Reset(attempts: seq<Attempt<V>>, ratesErrors: seq<SupplierResponseError>)
      requires bucket.errors == []
      modifies this, bucket
      ensures Holds(Start(attempts)) && errorsBefore == ratesErrors
    {
      bucket.AddErrors(ratesErrors);
      vehicles, main, spawned, sent, wait := [], Spawning, 0, seq(|attempts|, i => false), 0;
      vehicleQueue, errQueue, vehicleCollector, errorCollector := [], [], NotStarted, NotStarted;
      closed, errorsBefore, vehiclesFrom, errorsFrom := false, ratesErrors, [], [];
      assert bucket.errors == ratesErrors + [];
    }

    /** Under any scheduler the request ends, with the error list of the rates request extended by
        an interleaving of the failures, and an interleaving of the successful parses as vehicles. */
    method Execute(attempts: seq<Attempt<V>>, ratesErrors: seq<SupplierResponseError>)
      requires bucket.errors == []
      modifies this, bucket
      ensures ratesErrors <= bucket.errors
      ensures IsInterleaving(vehicles, VehicleParts(attempts))
      ensures IsInterleaving(bucket.errors[|ratesErrors|..], ErrorParts(attempts))
      ensures closed && vehicleQueue == [] && errQueue == [] && wait == 0
      ensures |sent| == |attempts| && forall i | 0 <= i < |sent| :: sent[i]
    {
      Reset(attempts, ratesErrors);
      ghost var s := Start(attempts);
      InvStart(attempts);
      while !main.Returned?
        invariant Holds(s) && Inv(attempts, s) && errorsBefore == ratesErrors
        decreases Measure(s)
      {
        s := Schedule(attempts, s);
      }
      hide LaneInv, Conserved, Merges;
      ReturnedIsComplete(attempts, s);
      assert Merges(s.vehicles.collected, s.vehicles.from, VehicleParts(attempts));
      assert Merges(s.errors.collected, s.errors.from, ErrorParts(attempts));
      assert bucket.errors[|ratesErrors|..] == s.errors.collected;
    }
  }
}
