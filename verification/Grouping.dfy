/**
  The traffic-light grouping protocol: any number of service processes that share
  one Redis lock key and one Redis response key.

  A label names one atomic step together with everything the environment decided in
  it (time passed, a Redis failure, the supplier's answer), so the step function is
  deterministic and a run is a sequence of labels.
  */
module Grouping {
  import opened Wrappers

  // storage.go: TTL of the lock; requesst_manager.go: TTLs of a response, poll interval.
  const LOCK_TTL: nat := 60_000
  const GOOD_TTL: nat := 600_000
  const BAD_TTL: nat := 60_000
  const POLL_INTERVAL: nat := 400
  const HIT_HEADER := "x-trafficlight-grouping-hit"

  type Pid = nat
  type Headers = map<string, seq<string>>

  /** A response body, seen through the attempt to parse it as a rates response. */
  datatype Body = Unparsable(text: string) | Rates(text: string, errors: seq<string>)

  datatype Response = Response(code: int, headers: Headers, body: Body)

  /** What a call of the requester gives back. */
  datatype Reply = Answer(response: Response) | Fault(error: string)

  datatype Result =
    | Canceled
    | Failed(error: string)
    | Fresh(response: Response)
    | Cached(response: Response)
    | Bypassed(reply: Reply)
    | Crashed

  /** Where a process is; each value but the last names the operation it does next. */
  datatype Pc =
    | Checking
    | Fetching
    | Locking
    | Sleeping(until: nat)
    | Bypassing
    | Requesting
    | Storing(response: Response)
    | Releasing(result: Result)
    | Finished(result: Result)

  datatype Stored = Stored(response: Response, storedAt: nat, expires: nat)

  /** The clock in ms, the lock key (its expiry time), the response key, the processes. */
  datatype State = State(now: nat, lock: Option<nat>, cache: Option<Stored>, procs: map<Pid, Pc>)

  datatype Label =
    | Tick(ms: nat)
    | Cancel(p: Pid)
    | Proceed(p: Pid)
    | FetchError(p: Pid)
    | FetchHit(p: Pid)
    | FetchMiss(p: Pid)
    | LockWin(p: Pid)
    | LockLose(p: Pid)
    | LockError(p: Pid, applied: bool)
    | Wake(p: Pid)
    | SupplierReply(p: Pid, reply: Reply)
    | StoreResponse(p: Pid, applied: bool)
    | ReleaseLock(p: Pid, applied: bool)
    | Crash(p: Pid)

  predicate IsStatusCodeAcceptable(code: int) {
    200 <= code < 300
  }

  /** A response kept for the short time: non-2xx, unparsable, or carrying errors. */
  predicate IsBad(r: Response) {
    r.body.Unparsable? || !IsStatusCodeAcceptable(r.code) || r.body.errors != []
  }

  function Duration(r: Response): nat {
    if IsBad(r) then BAD_TTL else GOOD_TTL
  }

  function MarkHit(r: Response): Response {
    r.(headers := r.headers[HIT_HEADER := ["hit"]])
  }

  predicate Initial(s: State) {
    s.lock.None? && s.cache.None? && forall p <- s.procs :: s.procs[p].Checking?
  }

  predicate Enabled(s: State, l: Label) {
    l.Tick? || (l.p in s.procs && CanStep(s, l, s.procs[l.p]))
  }

  predicate CanStep(s: State, l: Label, pc: Pc)
    requires !l.Tick?
  {
    match l
    case Cancel(_) => pc.Checking?
    case Proceed(_) => pc.Checking?
    case FetchError(_) => pc.Fetching?
    case FetchHit(_) => pc.Fetching? && s.cache.Some?
    case FetchMiss(_) => pc.Fetching? && s.cache.None?
    case LockWin(_) => pc.Locking? && s.lock.None?
    case LockLose(_) => pc.Locking? && s.lock.Some?
    case LockError(_, _) => pc.Locking?
    case Wake(_) => pc.Sleeping? && pc.until <= s.now
    case SupplierReply(_, _) => pc.Requesting? || pc.Bypassing?
    case StoreResponse(_, _) => pc.Storing?
    case ReleaseLock(_, _) => pc.Releasing?
    case Crash(_) => !pc.Finished?
  }

  function NextPc(s: State, l: Label, pc: Pc): Pc
    requires !l.Tick? && CanStep(s, l, pc)
  {
    match l
    case Cancel(_) => Finished(Canceled)
    case Proceed(_) => Fetching
    case FetchError(_) => Bypassing
    case FetchHit(_) => Finished(Cached(MarkHit(s.cache.value.response)))
    case FetchMiss(_) => Locking
    case LockWin(_) => Requesting
    case LockLose(_) => Sleeping(s.now + POLL_INTERVAL)
    case LockError(_, _) => Requesting
    case Wake(_) => Checking
    case SupplierReply(_, reply) =>
      if pc.Bypassing? then Finished(Bypassed(reply))
      else if reply.Answer? then Storing(reply.response)
      else Releasing(Failed(reply.error))
    case StoreResponse(_, _) => Releasing(Fresh(pc.response))
    case ReleaseLock(_, _) => Finished(pc.result)
    case Crash(_) => Finished(Crashed)
  }

  /** SETNX writes only an absent key; DEL removes whatever lock is there. */
  function NextLock(s: State, l: Label): Option<nat> {
    match l
    case LockWin(_) => Some(s.now + LOCK_TTL)
    case LockError(_, applied) => if applied && s.lock.None? then Some(s.now + LOCK_TTL) else s.lock
    case ReleaseLock(_, applied) => if applied then None else s.lock
    case _ => s.lock
  }

  function NextCache(s: State, l: Label): Option<Stored>
    requires Enabled(s, l)
  {
    if l.StoreResponse? && l.applied then
      var r := s.procs[l.p].response;
      Some(Stored(r, s.now, s.now + Duration(r)))
    else
      s.cache
  }

  /** Time passes; Redis drops every key whose time to live is over. */
  function Advance(s: State, ms: nat): State {
    var now := s.now + ms;
    s.(now := now,
       lock := if s.lock.Some? && s.lock.value <= now then None else s.lock,
       cache := if s.cache.Some? && s.cache.value.expires <= now then None else s.cache)
  }

  function Apply(s: State, l: Label): State
    requires Enabled(s, l)
  {
    if l.Tick? then
      Advance(s, l.ms)
    else
      State(s.now, NextLock(s, l), NextCache(s, l), s.procs[l.p := NextPc(s, l, s.procs[l.p])])
  }

  // ---- Runs

  function After(s: State, ls: seq<Label>): Option<State> {
    if ls == [] then Some(s)
    else
      var t := After(s, ls[..|ls| - 1]);
      if t.Some? && Enabled(t.value, ls[|ls| - 1]) then Some(Apply(t.value, ls[|ls| - 1])) else None
  }

  predicate IsRun(s: State, ls: seq<Label>) {
    After(s, ls).Some?
  }

  /** The state `k` steps into a run. */
  function At(s: State, ls: seq<Label>, k: nat): State
    requires IsRun(s, ls) && k <= |ls|
  {
    PrefixIsRun(s, ls, k);
    After(s, ls[..k]).value
  }

  lemma {:induction false} PrefixIsRun(s: State, ls: seq<Label>, k: nat)
    requires IsRun(s, ls) && k <= |ls|
    ensures IsRun(s, ls[..k])
  {
    if k == |ls| {
      assert ls[..k] == ls;
    } else {
      PrefixIsRun(s, ls[..|ls| - 1], k);
      assert ls[..|ls| - 1][..k] == ls[..k];
    }
  }

  // ---- What a run is observed to do

  /** SETNX polls of `p` that found the lock taken. */
  function FailedPolls(ls: seq<Label>, p: Pid): nat {
    if ls == [] then 0
    else FailedPolls(ls[..|ls| - 1], p) + if ls[|ls| - 1] == LockLose(p) then 1 else 0
  }

  function LockErrors(ls: seq<Label>): nat {
    if ls == [] then 0
    else LockErrors(ls[..|ls| - 1]) + if ls[|ls| - 1].LockError? then 1 else 0
  }

  predicate StartsCall(l: Label) {
    l.LockWin? || l.LockError? || l.FetchError?
  }

  /** Supplier calls that start: under the lock, after a SETNX error, after a fetch error. */
  function SupplierCalls(ls: seq<Label>): nat {
    if ls == [] then 0
    else SupplierCalls(ls[..|ls| - 1]) + if StartsCall(ls[|ls| - 1]) then 1 else 0
  }

  predicate ExpiresLock(s: State, l: Label) {
    l.Tick? && s.lock.Some? && Advance(s, l.ms).lock.None?
  }

  /** Times the lock key ran out of its TTL instead of being deleted. */
  function Expiries(s: State, ls: seq<Label>): nat
    requires IsRun(s, ls)
  {
    if ls == [] then 0
    else
      var t := After(s, ls[..|ls| - 1]).value;
      Expiries(s, ls[..|ls| - 1])
      + if ExpiresLock(t, ls[|ls| - 1]) then 1 else 0
  }

  predicate IsInside(pc: Pc) {
    pc.Requesting? || pc.Storing? || pc.Releasing?
  }

  /** The processes inside requestSupplierAndStore, before their release of the lock. */
  function Inside(s: State): set<Pid> {
    set p | p in s.procs && IsInside(s.procs[p])
  }

  /** The processes whose fetch missed and that have not reached SETNX. */
  function Missed(s: State): set<Pid> {
    set p | p in s.procs && s.procs[p].Locking?
  }

  /** One more step, and what it adds to each observation. */
  lemma Extend(s: State, ls: seq<Label>, l: Label)
    requires IsRun(s, ls) && Enabled(After(s, ls).value, l)
    ensures var t := After(s, ls).value;
            && After(s, ls + [l]) == Some(Apply(t, l))
            && Expiries(s, ls + [l]) == Expiries(s, ls) + (if ExpiresLock(t, l) then 1 else 0)
    ensures LockErrors(ls + [l]) == LockErrors(ls) + if l.LockError? then 1 else 0
    ensures SupplierCalls(ls + [l]) == SupplierCalls(ls) + if StartsCall(l) then 1 else 0
    ensures forall p :: FailedPolls(ls + [l], p) == FailedPolls(ls, p) + if l == LockLose(p) then 1 else 0
  {
    assert (ls + [l])[..|ls|] == ls;
  }
}
