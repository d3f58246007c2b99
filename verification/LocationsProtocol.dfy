/**
  The page workers and the select loop of the AnyRent locations request, as interleaved steps:
  unbuffered channels for locations and errors (a send is a rendezvous with the loop), and a
  done channel that buffers one value.
  */
module LocationsProtocol {
  import opened Wrappers
  import opened Schema
  import opened Interleaving

  datatype Location = Location(code: string, rawData: string)

  /** What page 2, 3, ... gives its worker: no response, all its locations, or the locations
      before one that cannot be parsed. */
  datatype Page =
    | Unavailable(message: string)
    | Complete(locations: seq<Location>)
    | Broken(locations: seq<Location>, message: string)

  datatype Message = Loc(location: Location) | Err(error: SupplierResponseError) | Done

  datatype Worker = Asking | Sending(rest: seq<Message>)

  /** `locationsFrom` and `errorsFrom` remember which worker sent each received item. */
  datatype State = State(
    workers: seq<Worker>, doneBuffered: bool, finished: nat,
    locations: seq<Location>, locationsFrom: seq<nat>,
    errors: seq<SupplierResponseError>, errorsFrom: seq<nat>,
    selecting: bool, closed: bool)

  datatype Step =
    | Respond(w: nat)
    | PassLocation(w: nat)
    | PassError(w: nat)
    | SendDone(w: nat)
    | ReceiveDone
    | CloseChannels

  function PageLocations(page: Page): seq<Location> {
    if page.Unavailable? then [] else page.locations
  }

  predicate Fails(page: Page) {
    !page.Complete?
  }

  function PageErrors(page: Page): seq<SupplierResponseError> {
    if Fails(page) then [NewSupplierError(page.message)] else []
  }

  function Locs(locations: seq<Location>): seq<Message> {
    seq(|locations|, i requires 0 <= i < |locations| => Loc(locations[i]))
  }

  /** The sends of makeExtraRequest, in order. */
  function Script(page: Page): seq<Message> {
    match page
    case Unavailable(message) => [Err(NewSupplierError(message)), Done]
    case Complete(locations) => Locs(locations) + [Done]
    case Broken(locations, message) => Locs(locations) + [Err(NewSupplierError(message)), Done]
  }

  function LocationsIn(ms: seq<Message>): seq<Location> {
    if ms == [] then []
    else (if ms[0].Loc? then [ms[0].location] else []) + LocationsIn(ms[1..])
  }

  function ErrorsIn(ms: seq<Message>): seq<SupplierResponseError> {
    if ms == [] then []
    else (if ms[0].Err? then [ms[0].error] else []) + ErrorsIn(ms[1..])
  }

  function Start(pages: seq<Page>): State {
    State(seq(|pages|, i => Asking), false, 0, [], [], [], [], true, false)
  }

  predicate HasNext(workers: seq<Worker>, w: nat) {
    w < |workers| && workers[w].Sending? && workers[w].rest != []
  }

  /** A location or an error goes through only while the loop is selecting; a done value needs
      only room in the buffer. */
  predicate Ready(workers: seq<Worker>, doneBuffered: bool, selecting: bool, closed: bool, step: Step) {
    match step
    case Respond(w) => w < |workers| && workers[w].Asking?
    case PassLocation(w) => HasNext(workers, w) && workers[w].rest[0].Loc? && selecting
    case PassError(w) => HasNext(workers, w) && workers[w].rest[0].Err? && selecting
    case SendDone(w) => HasNext(workers, w) && workers[w].rest[0].Done? && !doneBuffered
    case ReceiveDone => doneBuffered && selecting
    case CloseChannels => !selecting && !closed
  }

  predicate Enabled(s: State, step: Step) {
    Ready(s.workers, s.doneBuffered, s.selecting, s.closed, step)
  }

  function Apply(pages: seq<Page>, s: State, step: Step): State
    requires |s.workers| == |pages| && Enabled(s, step)
  {
    match step
    case Respond(w) => s.(workers := s.workers[w := Sending(Script(pages[w]))])
    case PassLocation(w) =>
      var rest := s.workers[w].rest;
      s.(workers := s.workers[w := Sending(rest[1..])],
         locations := s.locations + [rest[0].location], locationsFrom := s.locationsFrom + [w],
         selecting := s.finished < |pages|)
    case PassError(w) =>
      var rest := s.workers[w].rest;
      s.(workers := s.workers[w := Sending(rest[1..])],
         errors := s.errors + [rest[0].error], errorsFrom := s.errorsFrom + [w],
         selecting := s.finished < |pages|)
    case SendDone(w) =>
      s.(workers := s.workers[w := Sending(s.workers[w].rest[1..])], doneBuffered := true)
    case ReceiveDone =>
      s.(doneBuffered := false, finished := s.finished + 1, selecting := s.finished + 1 < |pages|)
    case CloseChannels => s.(closed := true)
  }

  // ---- The invariant

  function Remaining(page: Page, worker: Worker): seq<Message> {
    if worker.Asking? then Script(page) else worker.rest
  }

  function Completed(workers: seq<Worker>): nat {
    if workers == [] then 0
    else Completed(workers[1..]) + if workers[0] == Sending([]) then 1 else 0
  }

  /** The last message of an unfinished worker, and no other, is its done value. */
  predicate EndsWithDone(ms: seq<Message>) {
    ms == [] || (ms[|ms| - 1] == Done && forall i | 0 <= i < |ms| - 1 :: ms[i] != Done)
  }

  /** What a worker delivered and what it still has to send make up its page. */
  predicate Accounted(page: Page, worker: Worker, locations: seq<Location>, errors: seq<SupplierResponseError>) {
    var rest := Remaining(page, worker);
    && EndsWithDone(rest)
    && locations + LocationsIn(rest) == PageLocations(page)
    && errors + ErrorsIn(rest) == PageErrors(page)
  }

  ghost predicate Inv(pages: seq<Page>, s: State) {
    && |s.workers| == |pages|
    && |s.locations| == |s.locationsFrom| && |s.errors| == |s.errorsFrom|
    && (forall i | 0 <= i < |s.locationsFrom| :: s.locationsFrom[i] < |pages|)
    && (forall i | 0 <= i < |s.errorsFrom| :: s.errorsFrom[i] < |pages|)
    && (forall w | 0 <= w < |pages| ::
          WorkerInv(pages, s, w))
    && s.finished + (if s.doneBuffered then 1 else 0) == Completed(s.workers)
    && s.selecting == (s.finished < |pages|)
    && (s.closed ==> !s.selecting)
  }

  lemma {:induction false} LocsMessages(locations: seq<Location>, tail: seq<Message>)
    ensures LocationsIn(Locs(locations) + tail) == locations + LocationsIn(tail)
    ensures ErrorsIn(Locs(locations) + tail) == ErrorsIn(tail)
  {
    if locations == [] {
      assert Locs(locations) + tail == tail;
    } else {
      LocsFirst(locations, tail);
      hide *;
      LocsMessages(locations[1..], tail);
      FirstMessage(Loc(locations[0]), Locs(locations[1..]) + tail);
      assert [locations[0]] + (locations[1..] + LocationsIn(tail)) == locations + LocationsIn(tail);
      assert [] + ErrorsIn(tail) == ErrorsIn(tail);
    }
  }

  lemma LocsFirst(locations: seq<Location>, tail: seq<Message>)
    requires locations != []
    ensures Locs(locations) + tail == [Loc(locations[0])] + (Locs(locations[1..]) + tail)
  {
  }

  lemma FirstMessage(m: Message, ms: seq<Message>)
    ensures LocationsIn([m] + ms) == (if m.Loc? then [m.location] else []) + LocationsIn(ms)
    ensures ErrorsIn([m] + ms) == (if m.Err? then [m.error] else []) + ErrorsIn(ms)
  {
    assert ([m] + ms)[1..] == ms;
  }

  lemma ScriptMessages(page: Page)
    ensures LocationsIn(Script(page)) == PageLocations(page)
    ensures ErrorsIn(Script(page)) == PageErrors(page)
  {
    var tail := if Fails(page) then [Err(NewSupplierError(page.message)), Done] else [Done];
    assert tail[1..] == if Fails(page) then [Done] else [];
    LocsMessages(PageLocations(page), tail);
    assert Script(page) == Locs(PageLocations(page)) + tail;
    assert LocationsIn([Done]) == [] && ErrorsIn([Done]) == [] by { assert [Done][1..] == []; }
  }

  lemma {:induction false} CompletedUpdate(workers: seq<Worker>, w: nat, worker: Worker)
    requires w < |workers|
    ensures Completed(workers[w := worker]) + (if workers[w] == Sending([]) then 1 else 0)
         == Completed(workers) + if worker == Sending([]) then 1 else 0
  {
    var updated := workers[w := worker];
    if w == 0 {
      assert updated[1..] == workers[1..];
    } else {
      CompletedUpdate(workers[1..], w - 1, worker);
      assert updated[1..] == workers[1..][w - 1 := worker];
    }
  }

  lemma {:induction false} CompletedBound(workers: seq<Worker>)
    ensures Completed(workers) <= |workers|
    ensures Completed(workers) == |workers| <==> forall w | 0 <= w < |workers| :: workers[w] == Sending([])
  {
    if workers != [] {
      CompletedBound(workers[1..]);
      assert (forall w | 0 <= w < |workers| :: workers[w] == Sending([])) ==>
          forall w | 0 <= w < |workers| - 1 :: workers[1..][w] == workers[w + 1];
      assert forall w | 0 < w < |workers| :: workers[w] == workers[1..][w - 1];
    }
  }

  lemma InvStart(pages: seq<Page>)
    requires pages != []
    ensures Inv(pages, Start(pages))
  {
    forall w | 0 <= w < |pages| ensures Accounted(pages[w], Asking, [], []) {
      ScriptMessages(pages[w]);
      assert EndsWithDone(Script(pages[w]));
    }
    NoneCompleted(Start(pages).workers);
  }

  lemma {:induction false} NoneCompleted(workers: seq<Worker>)
    requires forall w | 0 <= w < |workers| :: workers[w].Asking?
    ensures Completed(workers) == 0
  {
    if workers != [] {
      NoneCompleted(workers[1..]);
    }
  }

  lemma EndsAfterSend(rest: seq<Message>)
    requires rest != [] && EndsWithDone(rest)
    ensures EndsWithDone(rest[1..]) && (rest[0].Done? <==> |rest| == 1)
  {
  }

  lemma LocationsAfterSend(rest: seq<Message>, got: seq<Location>)
    requires rest != []
    ensures (if rest[0].Loc? then got + [rest[0].location] else got) + LocationsIn(rest[1..]) == got + LocationsIn(rest)
  {
  }

  lemma ErrorsAfterSend(rest: seq<Message>, got: seq<SupplierResponseError>)
    requires rest != []
    ensures (if rest[0].Err? then got + [rest[0].error] else got) + ErrorsIn(rest[1..]) == got + ErrorsIn(rest)
  {
  }

  lemma AccountedAfterSend(page: Page, rest: seq<Message>, locations: seq<Location>, errors: seq<SupplierResponseError>)
    requires rest != [] && Accounted(page, Sending(rest), locations, errors)
    ensures Accounted(page, Sending(rest[1..]),
                      if rest[0].Loc? then locations + [rest[0].location] else locations,
                      if rest[0].Err? then errors + [rest[0].error] else errors)
    ensures rest[0].Done? <==> |rest| == 1
  {
    hide EndsWithDone, LocationsIn, ErrorsIn;
    EndsAfterSend(rest);
    LocationsAfterSend(rest, locations);
    ErrorsAfterSend(rest, errors);
  }

  /** The invariant of one worker, given what the loop has received from it. */
  ghost predicate WorkerInv(pages: seq<Page>, s: State, w: nat)
    requires |s.workers| == |pages| && w < |pages|
    requires |s.locations| == |s.locationsFrom| && |s.errors| == |s.errorsFrom|
  {
    Accounted(pages[w], s.workers[w], Pick(s.locations, s.locationsFrom, w), Pick(s.errors, s.errorsFrom, w))
  }

  predicate Sends(step: Step) {
    step.PassLocation? || step.PassError? || step.SendDone?
  }

  lemma WorkerInvStep(pages: seq<Page>, s: State, step: Step, w: nat)
    requires |s.workers| == |pages| && w < |pages|
    requires |s.locations| == |s.locationsFrom| && |s.errors| == |s.errorsFrom|
    requires Enabled(s, step) && WorkerInv(pages, s, w)
    ensures WorkerInv(pages, Apply(pages, s, step), w)
    ensures Sends(step) && step.w == w ==> (s.workers[w].rest[0].Done? <==> |s.workers[w].rest| == 1)
  {
    if Sends(step) {
      hide Accounted;
      var rest := s.workers[step.w].rest;
      if step.w == w {
        AccountedAfterSend(pages[w], rest, Pick(s.locations, s.locationsFrom, w), Pick(s.errors, s.errorsFrom, w));
      }
      if step.PassLocation? {
        PickSnoc(s.locations, s.locationsFrom, rest[0].location, step.w, w);
      } else if step.PassError? {
        PickSnoc(s.errors, s.errorsFrom, rest[0].error, step.w, w);
      }
    }
  }

  lemma CompletedStep(pages: seq<Page>, s: State, step: Step)
    requires |s.workers| == |pages| && Enabled(s, step)
    requires Sends(step) ==>
               (s.workers[step.w].rest[0].Done? <==> |s.workers[step.w].rest| == 1)
    ensures Completed(Apply(pages, s, step).workers) == Completed(s.workers) + if step.SendDone? then 1 else 0
  {
    if step.Respond? || Sends(step) {
      var worker := Apply(pages, s, step).workers[step.w];
      CompletedUpdate(s.workers, step.w, worker);
      if step.Respond? {
        assert |Script(pages[step.w])| > 0;
      } else {
        assert s.workers[step.w].rest[1..] == [] <==> |s.workers[step.w].rest| == 1;
      }
    }
  }

  lemma InvStep(pages: seq<Page>, s: State, step: Step)
    requires Inv(pages, s) && Enabled(s, step)
    ensures Inv(pages, Apply(pages, s, step))
  {
    hide WorkerInv, Script, Completed;
    var t := Apply(pages, s, step);
    forall w: nat | w < |pages|
      ensures WorkerInv(pages, t, w)
      ensures Sends(step) && step.w == w ==> (s.workers[w].rest[0].Done? <==> |s.workers[w].rest| == 1)
    {
      WorkerInvStep(pages, s, step, w);
    }
    CompletedBound(s.workers);
    CompletedStep(pages, s, step);
  }

  // ---- What every interleaving guarantees

  /** When the select loop is over, every worker has made its last send: nothing can be sent on
      the channels that are closed next. What was collected is an interleaving of the pages that
      keeps each page's own order, and likewise for the errors, one per failed page. */
  lemma LoopEndsComplete(pages: seq<Page>, s: State)
    requires Inv(pages, s) && !s.selecting
    ensures forall w | 0 <= w < |s.workers| :: s.workers[w] == Sending([])
    ensures !s.doneBuffered
    ensures Merges(s.locations, s.locationsFrom, seq(|pages|, w requires 0 <= w < |pages| => PageLocations(pages[w])))
    ensures Merges(s.errors, s.errorsFrom, seq(|pages|, w requires 0 <= w < |pages| => PageErrors(pages[w])))
  {
    CompletedBound(s.workers);
    forall w: nat | w < |pages|
      ensures Pick(s.locations, s.locationsFrom, w) == PageLocations(pages[w])
      ensures Pick(s.errors, s.errorsFrom, w) == PageErrors(pages[w])
    {
      assert WorkerInv(pages, s, w);
    }
  }

  /** No reachable state is stuck before the channels are closed. */
  lemma NeverStuck(pages: seq<Page>, s: State) returns (step: Step)
    requires Inv(pages, s) && !s.closed
    ensures Enabled(s, step)
  {
    CompletedBound(s.workers);
    if s.doneBuffered {
      step := ReceiveDone;
    } else if exists w: nat :: w < |pages| && s.workers[w] != Sending([]) {
      var w: nat :| w < |pages| && s.workers[w] != Sending([]);
      assert WorkerInv(pages, s, w);
      step := match s.workers[w]
              case Asking => Respond(w)
              case Sending(rest) =>
                match rest[0] case Loc(_) => PassLocation(w) case Err(_) => PassError(w) case Done => SendDone(w);
    } else {
      step := CloseChannels;
    }
  }

  // ---- Termination

  function Work(pages: seq<Page>, workers: seq<Worker>): nat
    requires |workers| == |pages|
  {
    if workers == [] then 0
    else
      |Remaining(pages[0], workers[0])| + (if workers[0].Asking? then 1 else 0)
      + Work(pages[1..], workers[1..])
  }

  /** Sends, receives and the final close still to come. */
  function Measure(pages: seq<Page>, s: State): nat
    requires |s.workers| == |pages|
  {
    2 * Work(pages, s.workers) + (if s.doneBuffered then 1 else 0) + if s.closed then 0 else 1
  }

  lemma {:induction false} WorkUpdate(pages: seq<Page>, workers: seq<Worker>, w: nat, worker: Worker)
    requires |workers| == |pages| && w < |workers|
    requires |Remaining(pages[w], worker)| + (if worker.Asking? then 1 else 0)
           < |Remaining(pages[w], workers[w])| + (if workers[w].Asking? then 1 else 0)
    ensures Work(pages, workers[w := worker]) < Work(pages, workers)
  {
    var updated := workers[w := worker];
    if w == 0 {
      assert updated[1..] == workers[1..];
    } else {
      WorkUpdate(pages[1..], workers[1..], w - 1, worker);
      assert updated[1..] == workers[1..][w - 1 := worker];
    }
  }

  /** Every step, whichever the scheduler picks, brings the fan-in closer to its end. */
  lemma MeasureDecreases(pages: seq<Page>, s: State, step: Step)
    requires |s.workers| == |pages| && Enabled(s, step)
    ensures Measure(pages, Apply(pages, s, step)) < Measure(pages, s)
  {
    if !step.ReceiveDone? && !step.CloseChannels? {
      WorkUpdate(pages, s.workers, step.w, Apply(pages, s, step).workers[step.w]);
    }
  }

  // ---- Every run

  function After(pages: seq<Page>, steps: seq<Step>): (s: Option<State>)
    ensures s.Some? ==> |s.value.workers| == |pages|
  {
    if steps == [] then Some(Start(pages))
    else
      var s := After(pages, steps[..|steps| - 1]);
      if s.Some? && Enabled(s.value, steps[|steps| - 1]) then Some(Apply(pages, s.value, steps[|steps| - 1])) else None
  }

  lemma {:induction false} RunKeepsInv(pages: seq<Page>, steps: seq<Step>)
    requires pages != [] && After(pages, steps).Some?
    ensures Inv(pages, After(pages, steps).value)
    ensures |steps| + Measure(pages, After(pages, steps).value) <= Measure(pages, Start(pages))
  {
    if steps == [] {
      InvStart(pages);
    } else {
      hide Inv, Measure, Apply, Enabled, Start;
      var front := steps[..|steps| - 1];
      RunKeepsInv(pages, front);
      InvStep(pages, After(pages, front).value, steps[|steps| - 1]);
      MeasureDecreases(pages, After(pages, front).value, steps[|steps| - 1]);
    }
  }

  /** No run is longer than the work there is, and a run can go on exactly until the channels are
      closed: it is never stuck before, and afterwards nobody sends. */
  lemma RunsEndClosed(pages: seq<Page>, steps: seq<Step>)
    requires pages != [] && After(pages, steps).Some?
    ensures |steps| <= Measure(pages, Start(pages))
    ensures var s := After(pages, steps).value;
            && (s.closed ==> forall worker <- s.workers :: worker == Sending([]))
            && (s.closed <==> forall step :: !Enabled(s, step))
  {
    RunKeepsInv(pages, steps);
    var s := After(pages, steps).value;
    if s.closed {
      LoopEndsComplete(pages, s);
    } else {
      var step := NeverStuck(pages, s);
    }
  }
}
