/**
  The goroutines of the Hertz quote request as interleaved steps: one worker per vehicle, a
  vehicle queue as long as the vehicle list, an error queue of capacity 1, two collectors, and
  the main goroutine waiting on a WaitGroup.
  */
module QuoteProtocol {
  import opened Wrappers
  import opened Schema
  import opened Interleaving

  /** How the request for one vehicle ends. */
  datatype Attempt<V> =
    | Panics
    | RequestFails(error: SupplierResponseError)
    | BadBody
    | Refused(message: string)
    | Unpriced(message: string)
    | Quoted(vehicle: V)

  function VehiclePart<V>(a: Attempt<V>): seq<V> {
    if a.Quoted? then [a.vehicle] else []
  }

  function ErrorPart<V>(a: Attempt<V>): seq<SupplierResponseError> {
    match a
    case Panics => [SupplierResponseError(ConnectionError, "requesting supplier failed")]
    case RequestFails(error) => [error]
    case BadBody => [NewSupplierError("Invalid response from supplier")]
    case Refused(message) => [NewSupplierError(message)]
    case Unpriced(message) => [NewSupplierError(message)]
    case Quoted(_) => []
  }

  datatype Collector<T> = NotStarted | Idle | Received(item: T) | Appended

  datatype Main = Spawning | Waiting | Returned

  /** A queue with the list its collector has built; `from` remembers the sender of every item
      ever sent. */
  datatype Lane<T> = Lane(queue: seq<T>, collector: Collector<T>, collected: seq<T>, from: seq<nat>)

  datatype State<V> = State(
    main: Main, spawned: nat, sent: seq<bool>, counter: int,
    vehicles: Lane<V>, errors: Lane<SupplierResponseError>, closed: bool)

  datatype LaneStep = Receive | Append | CallDone

  datatype Step =
    | Spawn
    | StartVehicleCollector
    | StartErrorCollector
    | Send(i: nat)
    | OnVehicles(step: LaneStep)
    | OnErrors(step: LaneStep)
    | CloseAndReturn

  const ERR_QUEUE_CAPACITY: nat := 1

  function Start<V>(attempts: seq<Attempt<V>>): State<V> {
    State(Spawning, 0, seq(|attempts|, i => false), 0,
          Lane([], NotStarted, [], []), Lane([], NotStarted, [], []), false)
  }

  predicate LaneReady<T>(queue: seq<T>, collector: Collector<T>, step: LaneStep) {
    match step
    case Receive => collector.Idle? && queue != []
    case Append => collector.Received?
    case CallDone => collector.Appended?
  }

  /** What the scheduler can do next: a send needs room in its queue, the return a zero counter. */
  predicate Possible<V>(
    attempts: seq<Attempt<V>>, main: Main, spawned: nat, sent: seq<bool>, counter: int,
    vehicleQueue: seq<V>, vehicleCollector: Collector<V>,
    errQueue: seq<SupplierResponseError>, errorCollector: Collector<SupplierResponseError>, step: Step)
    requires |sent| == |attempts|
  {
    match step
    case Spawn => main.Spawning? && spawned < |attempts|
    case StartVehicleCollector => main.Spawning? && spawned == |attempts| && vehicleCollector.NotStarted?
    case StartErrorCollector => main.Spawning? && !vehicleCollector.NotStarted? && errorCollector.NotStarted?
    case Send(i) =>
      i < spawned && i < |attempts| && !sent[i] &&
      if attempts[i].Quoted? then |vehicleQueue| < |attempts| else |errQueue| < ERR_QUEUE_CAPACITY
    case OnVehicles(laneStep) => LaneReady(vehicleQueue, vehicleCollector, laneStep)
    case OnErrors(laneStep) => LaneReady(errQueue, errorCollector, laneStep)
    case CloseAndReturn => main.Waiting? && counter == 0
  }

  predicate Enabled<V>(attempts: seq<Attempt<V>>, s: State<V>, step: Step)
    requires |s.sent| == |attempts|
  {
    Possible(attempts, s.main, s.spawned, s.sent, s.counter, s.vehicles.queue, s.vehicles.collector,
             s.errors.queue, s.errors.collector, step)
  }

  function MoveLane<T>(lane: Lane<T>, step: LaneStep): Lane<T>
    requires LaneReady(lane.queue, lane.collector, step)
  {
    match step
    case Receive => lane.(queue := lane.queue[1..], collector := Received(lane.queue[0]))
    case Append => lane.(collected := lane.collected + [lane.collector.item], collector := Appended)
    case CallDone => lane.(collector := Idle)
  }

  function Enqueue<T>(lane: Lane<T>, part: seq<T>, i: nat): Lane<T> {
    lane.(queue := lane.queue + part, from := lane.from + seq(|part|, k => i))
  }

  function Apply<V>(attempts: seq<Attempt<V>>, s: State<V>, step: Step): State<V>
    requires |s.sent| == |attempts| && Enabled(attempts, s, step)
  {
    match step
    case Spawn => s.(spawned := s.spawned + 1, counter := s.counter + 1)
    case StartVehicleCollector => s.(vehicles := s.vehicles.(collector := Idle))
    case StartErrorCollector => s.(errors := s.errors.(collector := Idle), main := Waiting)
    case Send(i) =>
      s.(sent := s.sent[i := true],
         vehicles := Enqueue(s.vehicles, VehiclePart(attempts[i]), i),
         errors := Enqueue(s.errors, ErrorPart(attempts[i]), i))
    case OnVehicles(step) =>
      s.(vehicles := MoveLane(s.vehicles, step), counter := s.counter - if step.CallDone? then 1 else 0)
    case OnErrors(step) =>
      s.(errors := MoveLane(s.errors, step), counter := s.counter - if step.CallDone? then 1 else 0)
    case CloseAndReturn => s.(main := Returned, closed := true)
  }

  // ---- The invariant

  function InHand<T>(c: Collector<T>): seq<T> {
    if c.Received? then [c.item] else []
  }

  /** Everything ever sent into the lane, in order: no step but a send changes it. */
  function Pipeline<T>(lane: Lane<T>): seq<T> {
    lane.collected + InHand(lane.collector) + lane.queue
  }

  /** Items sent whose Done is still to come. */
  function Pending<T>(lane: Lane<T>): nat {
    |lane.queue| + if lane.collector.Received? || lane.collector.Appended? then 1 else 0
  }

  function Unsent(sent: seq<bool>): nat {
    if sent == [] then 0 else Unsent(sent[1..]) + if sent[0] then 0 else 1
  }

  /** `all` merges the parts of those who have sent. */
  ghost predicate MergesSent<T>(all: seq<T>, from: seq<nat>, parts: seq<seq<T>>, sent: seq<bool>)
    requires |sent| == |parts|
  {
    && |all| == |from|
    && (forall k | 0 <= k < |from| :: from[k] < |parts|)
    && (forall i: nat | i < |parts| :: Pick(all, from, i) == if sent[i] then parts[i] else [])
  }

  ghost predicate LaneInv<T>(lane: Lane<T>, parts: seq<seq<T>>, sent: seq<bool>)
    requires |sent| == |parts|
  {
    MergesSent(Pipeline(lane), lane.from, parts, sent)
  }

  function VehicleParts<V>(attempts: seq<Attempt<V>>): seq<seq<V>> {
    seq(|attempts|, i requires 0 <= i < |attempts| => VehiclePart(attempts[i]))
  }

  function ErrorParts<V>(attempts: seq<Attempt<V>>): seq<seq<SupplierResponseError>> {
    seq(|attempts|, i requires 0 <= i < |attempts| => ErrorPart(attempts[i]))
  }

  /** The WaitGroup counts the spawned workers that have not sent, the queued items and the item
      each collector holds before its Done. */
  ghost predicate Conserved<V>(s: State<V>)
  {
    && s.spawned <= |s.sent|
    && s.counter + (|s.sent| - s.spawned) == Unsent(s.sent) + Pending(s.vehicles) + Pending(s.errors)
    && (forall i | s.spawned <= i < |s.sent| :: !s.sent[i])
  }

  ghost predicate Inv<V>(attempts: seq<Attempt<V>>, s: State<V>) {
    && |s.sent| == |attempts|
    && Conserved(s)
    && LaneInv(s.vehicles, VehicleParts(attempts), s.sent)
    && LaneInv(s.errors, ErrorParts(attempts), s.sent)
    && (s.main.Spawning? ==> s.errors.collector.NotStarted?)
    && (!s.main.Spawning? ==> s.spawned == |attempts|)
    && (!s.vehicles.collector.NotStarted? ==> s.spawned == |attempts|)
    && (!s.main.Spawning? ==> !s.vehicles.collector.NotStarted? && !s.errors.collector.NotStarted?)
    && (s.closed <==> s.main.Returned?)
    && (s.main.Returned? ==> s.counter == 0)
    && |s.vehicles.queue| <= |attempts| && |s.errors.queue| <= 1
  }

  lemma {:induction false} UnsentUpdate(sent: seq<bool>, i: nat)
    requires i < |sent| && !sent[i]
    ensures Unsent(sent[i := true]) + 1 == Unsent(sent)
  {
    if i > 0 {
      UnsentUpdate(sent[1..], i - 1);
      assert sent[i := true][1..] == sent[1..][i - 1 := true];
    } else {
      assert sent[i := true][1..] == sent[1..];
    }
  }

  lemma {:induction false} UnsentAtLeast(sent: seq<bool>, from: nat)
    requires from <= |sent| && forall i | from <= i < |sent| :: !sent[i]
    ensures Unsent(sent) >= |sent| - from
    ensures Unsent(sent) == 0 <==> forall i | 0 <= i < |sent| :: sent[i]
    ensures Unsent(sent) > |sent| - from ==> exists i :: 0 <= i < from && !sent[i]
  {
    if sent != [] {
      UnsentAtLeast(sent[1..], if from == 0 then 0 else from - 1);
      assert forall i | 0 < i < |sent| :: sent[i] == sent[1..][i - 1];
      if Unsent(sent[1..]) > |sent[1..]| - (if from == 0 then 0 else from - 1) {
        var i :| 0 <= i < (if from == 0 then 0 else from - 1) && !sent[1..][i];
        assert !sent[i + 1];
      } else if from > 0 && !sent[0] {
        assert 0 < from;
      }
    }
  }

  lemma {:induction false} AllUnsent(sent: seq<bool>)
    requires forall i | 0 <= i < |sent| :: !sent[i]
    ensures Unsent(sent) == |sent|
  {
    if sent != [] {
      AllUnsent(sent[1..]);
    }
  }

  lemma InvStart<V>(attempts: seq<Attempt<V>>)
    ensures Inv(attempts, Start(attempts))
  {
    AllUnsent(Start(attempts).sent);
  }

  lemma LaneInvMove<T>(lane: Lane<T>, parts: seq<seq<T>>, sent: seq<bool>, step: LaneStep)
    requires |sent| == |parts| && LaneInv(lane, parts, sent) && LaneReady(lane.queue, lane.collector, step)
    ensures LaneInv(MoveLane(lane, step), parts, sent)
    ensures Pending(MoveLane(lane, step)) == Pending(lane) - if step.CallDone? then 1 else 0
  {
    assert Pipeline(MoveLane(lane, step)) == Pipeline(lane);
  }

  lemma PipelineEnqueue<T>(lane: Lane<T>, part: seq<T>, i: nat)
    ensures Pipeline(Enqueue(lane, part, i)) == Pipeline(lane) + part
    ensures part == [] ==> Enqueue(lane, part, i) == lane
    ensures |part| == 1 ==> Enqueue(lane, part, i).from == lane.from + [i]
    ensures Pending(Enqueue(lane, part, i)) == Pending(lane) + |part|
    ensures Enqueue(lane, part, i).collector == lane.collector
    ensures |Enqueue(lane, part, i).queue| == |lane.queue| + |part|
  {
    assert part == [] ==> lane.queue + part == lane.queue && lane.from + seq(|part|, k => i) == lane.from;
  }

  lemma LaneInvEnqueue<T>(lane: Lane<T>, parts: seq<seq<T>>, sent: seq<bool>, i: nat)
    requires |sent| == |parts| && LaneInv(lane, parts, sent) && i < |parts| && !sent[i] && |parts[i]| <= 1
    ensures LaneInv(Enqueue(lane, parts[i], i), parts, sent[i := true])
  {
    PipelineEnqueue(lane, parts[i], i);
    hide MergesSent, Pipeline, Enqueue, Pending;
    if parts[i] == [] {
      NothingSent(Pipeline(lane), lane.from, parts, sent, i);
    } else {
      assert parts[i] == [parts[i][0]];
      OneSent(Pipeline(lane), lane.from, parts, sent, i, parts[i][0]);
    }
  }

  lemma NothingSent<T>(all: seq<T>, from: seq<nat>, parts: seq<seq<T>>, sent: seq<bool>, i: nat)
    requires |sent| == |parts| && MergesSent(all, from, parts, sent) && i < |parts| && parts[i] == []
    ensures MergesSent(all, from, parts, sent[i := true])
  {
    hide Pick;
  }

  lemma OneSent<T>(all: seq<T>, from: seq<nat>, parts: seq<seq<T>>, sent: seq<bool>, i: nat, x: T)
    requires |sent| == |parts| && MergesSent(all, from, parts, sent)
    requires i < |parts| && !sent[i] && parts[i] == [x]
    ensures MergesSent(all + [x], from + [i], parts, sent[i := true])
  {
    hide Pick;
    forall w: nat | w < |parts| ensures Pick(all + [x], from + [i], w) == if sent[i := true][w] then parts[w] else [] {
      PickSnoc(all, from, x, i, w);
    }
  }

  lemma InvSend<V>(attempts: seq<Attempt<V>>, s: State<V>, i: nat)
    requires Inv(attempts, s) && Enabled(attempts, s, Send(i))
    ensures Inv(attempts, Apply(attempts, s, Send(i)))
  {
    hide LaneInv, Unsent, Pending, Enqueue;
    var vehicleParts, errorParts := VehicleParts(attempts), ErrorParts(attempts);
    assert vehicleParts[i] == VehiclePart(attempts[i]) && errorParts[i] == ErrorPart(attempts[i]);
    LaneInvEnqueue(s.vehicles, vehicleParts, s.sent, i);
    LaneInvEnqueue(s.errors, errorParts, s.sent, i);
    PipelineEnqueue(s.vehicles, vehicleParts[i], i);
    PipelineEnqueue(s.errors, errorParts[i], i);
    UnsentUpdate(s.sent, i);
  }

  lemma InvStep<V>(attempts: seq<Attempt<V>>, s: State<V>, step: Step)
    requires Inv(attempts, s) && Enabled(attempts, s, step)
    ensures Inv(attempts, Apply(attempts, s, step))
  {
    match step
    case Send(i) => InvSend(attempts, s, i);
    case OnVehicles(laneStep) => LaneInvMove(s.vehicles, VehicleParts(attempts), s.sent, laneStep);
    case OnErrors(laneStep) => LaneInvMove(s.errors, ErrorParts(attempts), s.sent, laneStep);
    case _ =>
  }

  // ---- What every interleaving guarantees

  /** The WaitGroup counter never goes negative. */
  lemma CounterIsNeverNegative<V>(attempts: seq<Attempt<V>>, s: State<V>)
    requires Inv(attempts, s)
    ensures s.counter >= 0
  {
    UnsentAtLeast(s.sent, s.spawned);
  }

  /** After the close no send is left and both queues are drained; every attempt has become one
      collected vehicle or one collected error. */
  lemma ReturnedIsComplete<V>(attempts: seq<Attempt<V>>, s: State<V>)
    requires Inv(attempts, s) && s.closed
    ensures forall i | 0 <= i < |attempts| :: s.sent[i]
    ensures s.vehicles.queue == [] && s.errors.queue == []
    ensures Merges(s.vehicles.collected, s.vehicles.from, VehicleParts(attempts))
    ensures Merges(s.errors.collected, s.errors.from, ErrorParts(attempts))
  {
    UnsentAtLeast(s.sent, s.spawned);
    assert Pipeline(s.vehicles) == s.vehicles.collected;
    assert Pipeline(s.errors) == s.errors.collected;
  }

  /** No reachable state before the return is stuck, although the error queue holds one item. */
  lemma NeverStuck<V>(attempts: seq<Attempt<V>>, s: State<V>) returns (step: Step)
    requires Inv(attempts, s) && !s.main.Returned?
    ensures Enabled(attempts, s, step)
  {
    UnsentAtLeast(s.sent, s.spawned);
    if s.main.Spawning? {
      step := if s.spawned < |attempts| then Spawn
              else if s.vehicles.collector.NotStarted? then StartVehicleCollector
              else StartErrorCollector;
    } else if s.counter == 0 {
      step := CloseAndReturn;
    } else if Pending(s.vehicles) > 0 {
      step := OnVehicles(NextOf(s.vehicles));
    } else if Pending(s.errors) > 0 {
      step := OnErrors(NextOf(s.errors));
    } else {
      var i :| 0 <= i < s.spawned && !s.sent[i];
      step := Send(i);
    }
  }

  function NextOf<T>(lane: Lane<T>): LaneStep {
    match lane.collector
    case Received(_) => Append
    case Appended => CallDone
    case _ => Receive
  }

  // ---- Termination

  function LaneWork<T>(lane: Lane<T>): nat {
    3 * |lane.queue| + match lane.collector
                       case NotStarted => 1
                       case Idle => 0
                       case Received(_) => 2
                       case Appended => 1
  }

  /** Spawns, collector starts, sends, receives, appends and Dones still to come. */
  function Measure<V>(s: State<V>): nat
    requires s.spawned <= |s.sent|
  {
    (|s.sent| - s.spawned) + 4 * Unsent(s.sent) + LaneWork(s.vehicles) + LaneWork(s.errors)
    + if s.main.Returned? then 0 else 1
  }

  lemma LaneWorkMove<T>(lane: Lane<T>, step: LaneStep)
    requires LaneReady(lane.queue, lane.collector, step)
    ensures LaneWork(MoveLane(lane, step)) + 1 == LaneWork(lane)
  {
  }

  lemma LaneWorkEnqueue<T>(lane: Lane<T>, part: seq<T>, i: nat)
    ensures LaneWork(Enqueue(lane, part, i)) == LaneWork(lane) + 3 * |part|
  {
  }

  /** Every step, whichever the scheduler picks, brings the fan-in closer to its end. */
  lemma MeasureDecreases<V>(attempts: seq<Attempt<V>>, s: State<V>, step: Step)
    requires |s.sent| == |attempts| && s.spawned <= |s.sent| && Enabled(attempts, s, step)
    ensures var t := Apply(attempts, s, step);
            t.spawned <= |t.sent| && Measure(t) < Measure(s)
  {
    match step
    case Send(i) =>
      UnsentUpdate(s.sent, i);
      LaneWorkEnqueue(s.vehicles, VehiclePart(attempts[i]), i);
      LaneWorkEnqueue(s.errors, ErrorPart(attempts[i]), i);
      hide LaneWork, Enqueue;
    case OnVehicles(laneStep) =>
      LaneWorkMove(s.vehicles, laneStep);
      hide LaneWork, MoveLane;
    case OnErrors(laneStep) =>
      LaneWorkMove(s.errors, laneStep);
      hide LaneWork, MoveLane;
    case _ =>
  }

  // ---- What the result means

  lemma {:induction false} PartsCount<V>(attempts: seq<Attempt<V>>)
    ensures |Concat(VehicleParts(attempts))| + |Concat(ErrorParts(attempts))| == |attempts|
  {
    if attempts != [] {
      PartsCount(attempts[1..]);
      assert VehicleParts(attempts)[1..] == VehicleParts(attempts[1..]);
      assert ErrorParts(attempts)[1..] == ErrorParts(attempts[1..]);
    }
  }

  /** Conservation: vehicles and new errors together are as many as the vehicles asked for; the
      vehicles are a permutation of the successful parses, the errors of the failures. */
  lemma NothingLostNothingAdded<V(!new)>(attempts: seq<Attempt<V>>, vehicles: seq<V>,
      errors: seq<SupplierResponseError>)
    requires IsInterleaving(vehicles, VehicleParts(attempts)) && IsInterleaving(errors, ErrorParts(attempts))
    ensures |vehicles| + |errors| == |attempts|
    ensures multiset(vehicles) == multiset(Concat(VehicleParts(attempts)))
    ensures multiset(errors) == multiset(Concat(ErrorParts(attempts)))
  {
    var vehiclesFrom :| Merges(vehicles, vehiclesFrom, VehicleParts(attempts));
    var errorsFrom :| Merges(errors, errorsFrom, ErrorParts(attempts));
    MergesPermutes(vehicles, vehiclesFrom, VehicleParts(attempts));
    MergesPermutes(errors, errorsFrom, ErrorParts(attempts));
    PartsCount(attempts);
    assert |vehicles| == |multiset(vehicles)| && |errors| == |multiset(errors)|;
    assert |multiset(Concat(VehicleParts(attempts)))| == |Concat(VehicleParts(attempts))|;
    assert |multiset(Concat(ErrorParts(attempts)))| == |Concat(ErrorParts(attempts))|;
  }

  // ---- Every run

  function After<V>(attempts: seq<Attempt<V>>, steps: seq<Step>): (s: Option<State<V>>)
    ensures s.Some? ==> |s.value.sent| == |attempts| && s.value.spawned <= |s.value.sent|
  {
    if steps == [] then Some(Start(attempts))
    else
      var s := After(attempts, steps[..|steps| - 1]);
      if s.Some? && Enabled(attempts, s.value, steps[|steps| - 1])
      then Some(Apply(attempts, s.value, steps[|steps| - 1])) else None
  }

  lemma {:induction false} RunKeepsInv<V>(attempts: seq<Attempt<V>>, steps: seq<Step>)
    requires After(attempts, steps).Some?
    ensures Inv(attempts, After(attempts, steps).value)
    ensures |steps| + Measure(After(attempts, steps).value) <= Measure(Start(attempts))
  {
    if steps == [] {
      InvStart(attempts);
    } else {
      hide Inv, Measure, Apply, Enabled;
      var front := steps[..|steps| - 1];
      RunKeepsInv(attempts, front);
      InvStep(attempts, After(attempts, front).value, steps[|steps| - 1]);
      MeasureDecreases(attempts, After(attempts, front).value, steps[|steps| - 1]);
    }
  }

  /** A run takes at most five steps per vehicle and three more. It can go on exactly until the
      queues are closed: it is never stuck before, and afterwards nobody sends or calls Done. */
  lemma RunsEndClosed<V>(attempts: seq<Attempt<V>>, steps: seq<Step>)
    requires After(attempts, steps).Some?
    ensures |steps| <= 5 * |attempts| + 3
    ensures var s := After(attempts, steps).value;
            && s.counter >= 0 && |s.vehicles.queue| <= |attempts| && |s.errors.queue| <= 1
            && (s.closed ==> forall i | 0 <= i < |attempts| :: s.sent[i])
            && (s.closed <==> forall step :: !Enabled(attempts, s, step))
  {
    RunKeepsInv(attempts, steps);
    var s := After(attempts, steps).value;
    CounterIsNeverNegative(attempts, s);
    AllUnsent(Start(attempts).sent);
    if s.closed {
      ReturnedIsComplete(attempts, s);
    } else {
      var step := NeverStuck(attempts, s);
    }
  }
}
