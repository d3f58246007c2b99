/** The AnyRent locations request: authorization, the first page, and the fan-in of the rest. */
module LocationsRequest {
  import opened Wrappers
  import opened Schema
  import opened Interleaving
  import opened LocationsProtocol

  // ---- auth.go

  /** How an authorization goes: a cached token, a failed request, an unreadable body, or an
      answer (its message empty when there is no error) whose token is or is not stored. */
  datatype AuthAttempt =
    | InCache(token: string)
    | NoAnswer(error: SupplierResponseError)
    | Unreadable
    | Answered(message: string, token: string, stored: bool)

  datatype AuthResponse = AuthResponse(token: Option<string>, errors: seq<SupplierResponseError>, failed: bool)

  function Authorize(a: AuthAttempt): AuthResponse {
    match a
    case InCache(token) => AuthResponse(Some(token), [], false)
    case NoAnswer(error) => AuthResponse(None, [error], false)
    case Unreadable => AuthResponse(None, [], true)
    case Answered(message, token, stored) =>
      if message != "" then AuthResponse(None, [NewSupplierError(message)], false)
      else AuthResponse(Some(token), [], !stored)
  }

  // ---- locations.go

  function LocationParts(pages: seq<Page>): seq<seq<Location>> {
    seq(|pages|, w requires 0 <= w < |pages| => PageLocations(pages[w]))
  }

  function ErrorParts(pages: seq<Page>): seq<seq<SupplierResponseError>> {
    seq(|pages|, w requires 0 <= w < |pages| => PageErrors(pages[w]))
  }

  /** What a page has to send: all its locations, or those before a broken one and an error, or
      an error alone. */
  lemma PartsOfPages(pages: seq<Page>, w: nat)
    requires w < |pages|
    ensures |LocationParts(pages)| == |pages| == |ErrorParts(pages)|
    ensures match pages[w]
            case Unavailable(message) =>
              LocationParts(pages)[w] == [] && ErrorParts(pages)[w] == [SupplierResponseError(SupplierError, message)]
            case Complete(locations) =>
              LocationParts(pages)[w] == locations && ErrorParts(pages)[w] == []
            case Broken(locations, message) =>
              LocationParts(pages)[w] == locations
              && ErrorParts(pages)[w] == [SupplierResponseError(SupplierError, message)]
  {
  }

  class Request {
    // the response
    var locations: seq<Location>
    const bucket: ErrorsBucket
    // goroutines and channels
    var workers: seq<Worker>
    var doneBuffered: bool
    var finished: nat
    var selecting: bool
    var closed: bool
    // what was there before the fan-in, and who sent what since
    ghost var locationsBefore: seq<Location>
    ghost var errorsBefore: seq<SupplierResponseError>
    ghost var locationsFrom: seq<nat>
    ghost var errorsFrom: seq<nat>

    constructor ()
      ensures locations == [] && bucket.errors == [] && fresh(bucket)
    {
      bucket := new ErrorsBucket();
      locations, workers := [], [];
      doneBuffered, finished, selecting, closed := false, 0, false, false;
      locationsBefore, errorsBefore, locationsFrom, errorsFrom := [], [], [], [];
    }

    ghost predicate Holds(s: State)
      reads this, bucket
    {
      && s.workers == workers && s.doneBuffered == doneBuffered && s.finished == finished
      && s.selecting == selecting && s.closed == closed
      && locations == locationsBefore + s.locations && s.locationsFrom == locationsFrom
      && bucket.errors == errorsBefore + s.errors && s.errorsFrom == errorsFrom
    }

    /** One step of the scheduler's choice, carried out on the fields. */
    method Take(pages: seq<Page>, step: Step, ghost s: State)
      requires Holds(s) && |s.workers| == |pages| && Enabled(s, step)
      modifies this, bucket
      ensures Holds(Apply(pages, s, step))
      ensures locationsBefore == old(locationsBefore) && errorsBefore == old(errorsBefore)
    {
      match step
      case Respond(w) =>
        workers := workers[w := Sending(Script(pages[w]))];
      case PassLocation(w) =>
        var location := workers[w].rest[0].location;
        workers := workers[w := Sending(workers[w].rest[1..])];
        locations := locations + [location];
        locationsFrom := locationsFrom + [w];
        selecting := finished < |pages|;
      case PassError(w) =>
        var error := workers[w].rest[0].error;
        workers := workers[w := Sending(workers[w].rest[1..])];
        bucket.AddError(error);
        errorsFrom := errorsFrom + [w];
        selecting := finished < |pages|;
      case SendDone(w) =>
        workers := workers[w := Sending(workers[w].rest[1..])];
        doneBuffered := true;
      case ReceiveDone =>
        doneBuffered := false;
        finished := finished + 1;
        selecting := finished < |pages|;
      case CloseChannels =>
        closed := true;
    }

    method Begin(pages: seq<Page>)
      modifies this
      ensures Holds(Start(pages)) && locations == old(locations)
      ensures locationsBefore == locations && errorsBefore == bucket.errors
    {
      workers := seq(|pages|, i => Asking);
      doneBuffered, finished, selecting, closed := false, 0, true, false;
      locationsBefore, errorsBefore, locationsFrom, errorsFrom := locations, bucket.errors, [], [];
    }

    /** The scheduler picks any step that is possible; there is one, and it makes progress. */
    method Schedule(pages: seq<Page>, ghost s: State) returns (ghost t: State)
      requires Holds(s) && Inv(pages, s) && !s.closed
      modifies this, bucket
      ensures Holds(t) && Inv(pages, t) && Measure(pages, t) < Measure(pages, s)
      ensures locationsBefore == old(locationsBefore) && errorsBefore == old(errorsBefore)
    {
      hide Apply, WorkerInv, Measure, Ready;
      ghost var possible := NeverStuck(pages, s);
      var step: Step :| Ready(workers, doneBuffered, selecting, closed, step);
      InvStep(pages, s, step);
      MeasureDecreases(pages, s, step);
      Take(pages, step, s);
      t := Apply(pages, s, step);
    }

    /** The fan-in of pages 2, 3, ...: under any scheduler it ends, with every worker done before
        the channels are closed, and appends an interleaving of the pages. */
    method FetchRestOfPages(pages: seq<Page>)
      requires pages != []
      modifies this, bucket
      ensures old(locations) <= locations && old(bucket.errors) <= bucket.errors
      ensures IsInterleaving(locations[|old(locations)|..], LocationParts(pages))
      ensures IsInterleaving(bucket.errors[|old(bucket.errors)|..], ErrorParts(pages))
      ensures closed && |workers| == |pages| && !doneBuffered
      ensures forall w | 0 <= w < |workers| :: workers[w] == Sending([])
    {
      Begin(pages);
      ghost var s := Start(pages);
      InvStart(pages);
      while !closed
        invariant Holds(s) && Inv(pages, s)
        invariant locationsBefore == old(locations) && errorsBefore == old(bucket.errors)
        decreases Measure(pages, s)
      {
        s := Schedule(pages, s);
      }
      hide WorkerInv, Merges;
      LoopEndsComplete(pages, s);
      assert locations[|old(locations)|..] == s.locations;
      assert bucket.errors[|old(bucket.errors)|..] == s.errors;
      assert Merges(s.locations, s.locationsFrom, LocationParts(pages));
      assert Merges(s.errors, s.errorsFrom, ErrorParts(pages));
    }

    /** The whole request. `pages` are the outcomes of pages 2, 3, ..., as many as the first page
        announces; the result is the pair of the locations and the error list. */
    method Execute(auth: AuthAttempt, first: Page, pages: seq<Page>) returns (err: bool)
      requires locations == [] && bucket.errors == []
      modifies this, bucket
      // without a token
      ensures auth.NoAnswer? ==> locations == [] && bucket.errors == [auth.error] && !err
      ensures auth.Unreadable? ==> locations == [] && bucket.errors == [] && err
      ensures auth.Answered? && auth.message != "" ==>
                locations == [] && bucket.errors == [SupplierResponseError(SupplierError, auth.message)] && !err
      ensures auth.Answered? && auth.message == "" && !auth.stored ==>
                locations == [] && bucket.errors == [] && err
      // with a token
      ensures auth.InCache? || (auth.Answered? && auth.message == "" && auth.stored) ==>
                match first
                case Unavailable(message) =>
                  locations == [] && bucket.errors == [SupplierResponseError(SupplierError, message)] && !err
                case Broken(parsed, message) =>
                  locations == parsed && bucket.errors == [SupplierResponseError(SupplierError, message)] && err
                case Complete(parsed) =>
                  !err && IsInterleaving(bucket.errors, ErrorParts(pages)) &&
                  if bucket.errors == [] then
                    parsed <= locations && IsInterleaving(locations[|parsed|..], LocationParts(pages))
                  else
                    locations == []
    {
      var response := Authorize(auth);
      bucket.AddErrors(response.errors);
      if response.failed {
        return true;
      }
      if response.token.None? {
        return false;
      }

      match first
      case Unavailable(message) =>
        bucket.AddError(NewSupplierError(message));
        return false;
      case Broken(parsed, message) =>
        locations := locations + parsed;
        bucket.AddError(NewSupplierError(message));
        return true;
      case Complete(parsed) =>
        locations := locations + parsed;
        if pages != [] {
          FetchRestOfPages(pages);
        } else {
          assert Merges(bucket.errors, [], ErrorParts(pages));
          assert Merges(locations[|first.locations|..], [], LocationParts(pages));
        }
        assert bucket.errors[0..] == bucket.errors;
        if |bucket.errors| > 0 {
          locations := [];
        }
        return false;
    }
  }

  // ---- What the result of Execute means

  /** All or nothing: an error list that interleaves the pages' errors is empty exactly when no
      page failed, and otherwise holds exactly one error per failed page. */
  lemma ErrorsCountFailedPages(errors: seq<SupplierResponseError>, pages: seq<Page>)
    requires IsInterleaving(errors, ErrorParts(pages))
    ensures multiset(errors) == multiset(Concat(ErrorParts(pages)))
    ensures |errors| == |set w | 0 <= w < |pages| && !pages[w].Complete?|
    ensures errors == [] <==> forall page <- pages :: page.Complete?
    ensures forall e <- errors :: exists w | 0 <= w < |pages| ::
              !pages[w].Complete? && e == SupplierResponseError(SupplierError, pages[w].message)
  {
    var senders :| Merges(errors, senders, ErrorParts(pages));
    hide *;
    MergesPermutes(errors, senders, ErrorParts(pages));
    FailedPagesCount(pages);
    assert |errors| == |multiset(errors)| == |multiset(Concat(ErrorParts(pages)))|;
    var failed := set w | 0 <= w < |pages| && !pages[w].Complete?;
    NoneFailed(pages);
    forall e <- errors
      ensures exists w | 0 <= w < |pages| ::
                !pages[w].Complete? && e == SupplierResponseError(SupplierError, pages[w].message)
    {
      assert e in multiset(errors);
      var w := InConcat(ErrorParts(pages), e);
      PartLengths(pages);
      PartsOfPages(pages, w);
    }
  }

  lemma PartLengths(pages: seq<Page>)
    ensures |ErrorParts(pages)| == |pages| == |LocationParts(pages)|
  {
  }

  lemma NoneFailed(pages: seq<Page>)
    ensures |set w | 0 <= w < |pages| && !pages[w].Complete?| == 0 <==> forall page <- pages :: page.Complete?
  {
    var failed := set w | 0 <= w < |pages| && !pages[w].Complete?;
    if |failed| == 0 {
      forall page <- pages ensures page.Complete? {
        var w :| 0 <= w < |pages| && pages[w] == page;
        assert w !in failed;
      }
    } else {
      var w :| w in failed;
      assert pages[w] in pages;
    }
  }

  lemma {:induction false} InConcat<T>(parts: seq<seq<T>>, e: T) returns (w: nat)
    requires e in Concat(parts)
    ensures w < |parts| && e in parts[w]
  {
    if e in parts[0] {
      w := 0;
    } else {
      var v := InConcat(parts[1..], e);
      w := v + 1;
    }
  }

  lemma FailedPagesCount(pages: seq<Page>)
    ensures |Concat(ErrorParts(pages))| == |set w | 0 <= w < |pages| && !pages[w].Complete?|
  {
    ConcatCounts(ErrorParts(pages));
    assert (set w | 0 <= w < |pages| && !pages[w].Complete?)
        == set w | 0 <= w < |ErrorParts(pages)| && ErrorParts(pages)[w] != [];
  }

  /** The locations of pages 2, 3, ... all arrive, whatever the interleaving. */
  lemma AllLocationsArrive(collected: seq<Location>, pages: seq<Page>)
    requires IsInterleaving(collected, LocationParts(pages))
    ensures multiset(collected) == multiset(Concat(LocationParts(pages)))
  {
    var senders :| Merges(collected, senders, LocationParts(pages));
    MergesPermutes(collected, senders, LocationParts(pages));
  }
}
