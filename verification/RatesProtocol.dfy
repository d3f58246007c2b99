/**
  The two goroutines of the Hertz rates request, one asking for rates and one for extras, each with
  a result and an error channel of capacity 1, and the main goroutine that takes the extras first.
  */
module RatesProtocol {
  import opened Wrappers
  import opened Schema

  datatype Outcome<T> = Delivers(result: T) | Errs(error: SupplierResponseError)

  /** One goroutine with its two channels. */
  datatype Source<T> = Source(sent: bool, res: Option<T>, err: Option<SupplierResponseError>)

  datatype Main<R, E> = AwaitExtras | AwaitRates(extras: Outcome<E>) | Returned(extras: Outcome<E>, rates: Outcome<R>)

  datatype State<R, E> = State(rates: Source<R>, extras: Source<E>, main: Main<R, E>, closed: bool)

  datatype Step = RatesSend | ExtrasSend | SelectExtras | SelectRates | CloseChannels

  function Start<R, E>(): State<R, E> {
    State(Source(false, None, None), Source(false, None, None), AwaitExtras, false)
  }

  predicate HasItem<T>(s: Source<T>) {
    s.res.Some? || s.err.Some?
  }

  predicate Enabled<R, E>(s: State<R, E>, step: Step) {
    match step
    case RatesSend => !s.rates.sent
    case ExtrasSend => !s.extras.sent
    case SelectExtras => s.main.AwaitExtras? && HasItem(s.extras)
    case SelectRates => s.main.AwaitRates? && HasItem(s.rates)
    case CloseChannels => s.main.Returned? && !s.closed
  }

  function SendInto<T>(s: Source<T>, o: Outcome<T>): Source<T> {
    if o.Delivers? then Source(true, Some(o.result), s.err) else Source(true, s.res, Some(o.error))
  }

  function Selected<T>(s: Source<T>): Outcome<T>
    requires HasItem(s)
  {
    if s.res.Some? then Delivers(s.res.value) else Errs(s.err.value)
  }

  function Emptied<T>(s: Source<T>): Source<T> {
    if s.res.Some? then s.(res := None) else s.(err := None)
  }

  function Apply<R, E>(rates: Outcome<R>, extras: Outcome<E>, s: State<R, E>, step: Step): State<R, E>
    requires Enabled(s, step)
  {
    match step
    case RatesSend => s.(rates := SendInto(s.rates, rates))
    case ExtrasSend => s.(extras := SendInto(s.extras, extras))
    case SelectExtras => s.(main := AwaitRates(Selected(s.extras)), extras := Emptied(s.extras))
    case SelectRates => s.(main := Returned(s.main.extras, Selected(s.rates)), rates := Emptied(s.rates))
    case CloseChannels => s.(closed := true)
  }

  /** A source holds its outcome exactly between its one send and its receipt. */
  ghost predicate SourceInv<T>(s: Source<T>, o: Outcome<T>, received: bool) {
    && s.res == (if s.sent && !received && o.Delivers? then Some(o.result) else None)
    && s.err == (if s.sent && !received && o.Errs? then Some(o.error) else None)
    && (received ==> s.sent)
  }

  ghost predicate Inv<R, E>(rates: Outcome<R>, extras: Outcome<E>, s: State<R, E>) {
    && SourceInv(s.extras, extras, !s.main.AwaitExtras?)
    && SourceInv(s.rates, rates, s.main.Returned?)
    && (!s.main.AwaitExtras? ==> s.main.extras == extras)
    && (s.main.Returned? ==> s.main.rates == rates)
    && (s.closed ==> s.main.Returned?)
  }

  lemma InvStep<R, E>(rates: Outcome<R>, extras: Outcome<E>, s: State<R, E>, step: Step)
    requires Inv(rates, extras, s) && Enabled(s, step)
    ensures Inv(rates, extras, Apply(rates, extras, s, step))
  {
  }

  /** The main goroutine returns only after both goroutines have made their single send, so no
      send meets a closed channel; what it returns with are the two outcomes. */
  lemma ReturnsAfterBothSends<R, E>(rates: Outcome<R>, extras: Outcome<E>, s: State<R, E>)
    requires Inv(rates, extras, s) && s.main.Returned?
    ensures s.rates.sent && s.extras.sent
    ensures !HasItem(s.rates) && !HasItem(s.extras)
    ensures s.main == Returned(extras, rates)
  {
  }

  lemma NeverStuck<R, E>(rates: Outcome<R>, extras: Outcome<E>, s: State<R, E>) returns (step: Step)
    requires Inv(rates, extras, s) && !s.closed
    ensures Enabled(s, step)
  {
    step := if s.main.Returned? then CloseChannels
            else if !s.extras.sent then ExtrasSend
            else if s.main.AwaitExtras? then SelectExtras
            else if !s.rates.sent then RatesSend
            else SelectRates;
  }

  function Measure<R, E>(s: State<R, E>): nat {
    (if s.rates.sent then 0 else 1) + (if s.extras.sent then 0 else 1) + (if s.closed then 0 else 1)
    + match s.main case AwaitExtras => 2 case AwaitRates(_) => 1 case Returned(_, _) => 0
  }

  lemma MeasureDecreases<R, E>(rates: Outcome<R>, extras: Outcome<E>, s: State<R, E>, step: Step)
    requires Enabled(s, step)
    ensures Measure(Apply(rates, extras, s, step)) == Measure(s) - 1
  {
  }

  /** Whatever the scheduler picks, the request gets both outcomes and ends. */
  method Run<R, E>(rates: Outcome<R>, extras: Outcome<E>) returns (s: State<R, E>)
    ensures s.closed && s.main == Returned(extras, rates)
    ensures s.rates.sent && s.extras.sent
  {
    s := Start();
    while !s.closed
      invariant Inv(rates, extras, s)
      decreases Measure(s)
    {
      ghost var possible := NeverStuck(rates, extras, s);
      var step: Step :| Enabled(s, step);
      InvStep(rates, extras, s, step);
      MeasureDecreases(rates, extras, s, step);
      s := Apply(rates, extras, s, step);
    }
    ReturnsAfterBothSends(rates, extras, s);
  }

  // ---- Every run

  function After<R, E>(rates: Outcome<R>, extras: Outcome<E>, steps: seq<Step>): Option<State<R, E>> {
    if steps == [] then Some(Start())
    else
      var s := After(rates, extras, steps[..|steps| - 1]);
      if s.Some? && Enabled(s.value, steps[|steps| - 1])
      then Some(Apply(rates, extras, s.value, steps[|steps| - 1])) else None
  }

  lemma {:induction false} RunKeepsInv<R, E>(rates: Outcome<R>, extras: Outcome<E>, steps: seq<Step>)
    requires After(rates, extras, steps).Some?
    ensures Inv(rates, extras, After(rates, extras, steps).value)
    ensures |steps| + Measure(After(rates, extras, steps).value) == 5
  {
    if steps != [] {
      var front := steps[..|steps| - 1];
      RunKeepsInv(rates, extras, front);
      InvStep(rates, extras, After(rates, extras, front).value, steps[|steps| - 1]);
      MeasureDecreases(rates, extras, After(rates, extras, front).value, steps[|steps| - 1]);
    }
  }

  /** Every run that goes on as long as it can has five steps and ends with the channels closed. In
      every run the request returns only after both sends, and with the two outcomes. */
  lemma RunsEndClosed<R, E>(rates: Outcome<R>, extras: Outcome<E>, steps: seq<Step>)
    requires After(rates, extras, steps).Some?
    ensures var s := After(rates, extras, steps).value;
            && |steps| <= 5 && (s.closed <==> |steps| == 5)
            && (s.main.Returned? ==> s.rates.sent && s.extras.sent && s.main == Returned(extras, rates))
            && (s.closed <==> forall step :: !Enabled(s, step))
  {
    RunKeepsInv(rates, extras, steps);
    var s := After(rates, extras, steps).value;
    if s.main.Returned? {
      ReturnsAfterBothSends(rates, extras, s);
    }
    if !s.closed {
      var step := NeverStuck(rates, extras, s);
    }
  }
}
