/** The bounds on waiting, concurrency and supplier calls are met, for every number of processes. */
module GroupingSharpness {
  import opened Wrappers
  import opened Grouping
  import opened GroupingSafety
  import opened GroupingCache

  /** What is counted along a run; the polls are those of process 0. */
  datatype Tally = Tally(polls: nat, expiries: nat, errors: nat)

  ghost predicate Reaches(s0: State, ls: seq<Label>, s: State, tally: Tally) {
    && Initial(s0) && After(s0, ls) == Some(s)
    && tally == Tally(FailedPolls(ls, 0), Expiries(s0, ls), LockErrors(ls))
  }

  function Count(s: State, l: Label, tally: Tally): Tally {
    Tally(tally.polls + (if l == LockLose(0) then 1 else 0),
          tally.expiries + (if ExpiresLock(s, l) then 1 else 0),
          tally.errors + if l.LockError? then 1 else 0)
  }

  lemma Step(s0: State, ls: seq<Label>, s: State, tally: Tally, l: Label) returns (ls': seq<Label>)
    requires Reaches(s0, ls, s, tally) && Enabled(s, l)
    ensures Reaches(s0, ls', Apply(s, l), Count(s, l, tally))
  {
    hide Apply, Enabled, ExpiresLock;
    Extend(s0, ls, l);
    ls' := ls + [l];
  }

  /** Processes 0, ..., n - 1: the first k at `done`, the others at `still`. */
  function Procs(n: nat, k: nat, done: Pc, still: Pc): map<Pid, Pc> {
    map p | p in Pids(n) :: if p < k then done else still
  }

  function Pids(n: nat): (ids: set<Pid>)
    ensures forall p: Pid :: p in ids <==> p < n
    ensures |ids| == n
  {
    if n == 0 then {} else Pids(n - 1) + {n - 1}
  }

  lemma Next(n: nat, k: nat, done: Pc, still: Pc)
    requires k < n
    ensures k in Procs(n, k, done, still) && Procs(n, k, done, still)[k] == still
    ensures Procs(n, k, done, still)[k := done] == Procs(n, k + 1, done, still)
  {
  }

  /** All n processes have missed the cache. */
  lemma {:induction false} AllMiss(n: nat, k: nat) returns (s0: State, ls: seq<Label>)
    requires k <= n
    ensures s0 == State(0, None, None, Procs(n, 0, Locking, Checking))
    ensures Reaches(s0, ls, State(0, None, None, Procs(n, k, Locking, Checking)), Tally(0, 0, 0))
  {
    if k == 0 {
      s0, ls := State(0, None, None, Procs(n, 0, Locking, Checking)), [];
    } else {
      hide *;
      s0, ls := AllMiss(n, k - 1);
      Next(n, k - 1, Locking, Checking);
      ls := Miss(s0, ls, State(0, None, None, Procs(n, k - 1, Locking, Checking)), Tally(0, 0, 0), k - 1);
    }
  }

  lemma Miss(s0: State, ls: seq<Label>, s: State, tally: Tally, p: Pid) returns (ls': seq<Label>)
    requires Reaches(s0, ls, s, tally) && s.cache.None? && p in s.procs && s.procs[p] == Checking
    ensures Reaches(s0, ls', s.(procs := s.procs[p := Locking]), tally)
  {
    hide Reaches;
    var t := Apply(s, Proceed(p));
    ls' := Step(s0, ls, s, tally, Proceed(p));
    ls' := Step(s0, ls', t, tally, FetchMiss(p));
    assert t.procs[p := Locking] == s.procs[p := Locking];
  }

  // ---- Waiting

  /** One failed poll of process 0, the sleep, and the way back to SETNX. */
  lemma PollOnce(s0: State, ls: seq<Label>, s: State, tally: Tally) returns (ls': seq<Label>, t: State)
    requires Reaches(s0, ls, s, tally) && s.cache.None?
    requires 0 in s.procs && s.procs[0] == Locking && s.lock.Some?
    ensures Reaches(s0, ls', t, Tally(tally.polls + 1, tally.expiries + (if t.lock.None? then 1 else 0), tally.errors))
    ensures t == Advance(s, POLL_INTERVAL)
  {
    hide Reaches;
    var a := Apply(s, LockLose(0));
    ls' := Step(s0, ls, s, tally, LockLose(0));
    var b := Apply(a, Tick(POLL_INTERVAL));
    ls' := Step(s0, ls', a, Count(s, LockLose(0), tally), Tick(POLL_INTERVAL));
    var sum := Tally(tally.polls + 1, tally.expiries + (if b.lock.None? then 1 else 0), tally.errors);
    var c, d := Apply(b, Wake(0)), Apply(Apply(b, Wake(0)), Proceed(0));
    ls' := Step(s0, ls', b, sum, Wake(0));
    ls' := Step(s0, ls', c, sum, Proceed(0));
    ls' := Step(s0, ls', d, sum, FetchMiss(0));
    t := Apply(d, FetchMiss(0));
    assert t.procs == s.procs;
  }

  /** Process 0 polls n times, until the lock expires. */
  lemma {:induction false} PollUntilExpiry(n: nat, s0: State, ls: seq<Label>, s: State, tally: Tally)
    returns (ls': seq<Label>)
    requires n > 0 && Reaches(s0, ls, s, tally) && s.cache.None?
    requires 0 in s.procs && s.procs[0] == Locking && s.lock == Some(s.now + POLL_INTERVAL * n)
    ensures Reaches(s0, ls', State(s.now + POLL_INTERVAL * n, None, None, s.procs),
                    Tally(tally.polls + n, tally.expiries + 1, tally.errors))
  {
    hide Reaches;
    var t: State;
    ls', t := PollOnce(s0, ls, s, tally);
    if n > 1 {
      ls' := PollUntilExpiry(n - 1, s0, ls', t, Tally(tally.polls + 1, tally.expiries, tally.errors));
    }
  }

  /** Processes 1, ..., k hold the lock in turn, each until it expires, while process 0 polls. */
  lemma {:induction false} Tenures(n: nat, k: nat) returns (s0: State, ls: seq<Label>)
    requires k < n
    ensures s0 == State(0, None, None, Procs(n, 0, Locking, Checking))
    ensures Reaches(s0, ls, State(LOCK_TTL * k, None, None, Procs(n, k + 1, Requesting, Locking)[0 := Locking]),
                    Tally(150 * k, k, 0))
  {
    hide Reaches;
    if k == 0 {
      s0, ls := AllMiss(n, n);
      assert Procs(n, n, Locking, Checking) == Procs(n, 1, Requesting, Locking)[0 := Locking];
    } else {
      s0, ls := Tenures(n, k - 1);
      var s := State(LOCK_TTL * (k - 1), None, None, Procs(n, k, Requesting, Locking)[0 := Locking]);
      ls := Step(s0, ls, s, Tally(150 * (k - 1), k - 1, 0), LockWin(k));
      var t := Apply(s, LockWin(k));
      assert t.procs == Procs(n, k + 1, Requesting, Locking)[0 := Locking];
      ls := PollUntilExpiry(150, s0, ls, t, Tally(150 * (k - 1), k - 1, 0));
    }
  }

  /** Among n requests one can be made to poll in vain exactly 150 * (n - 1) times. */
  lemma WaitingIsSharp(n: nat) returns (s0: State, ls: seq<Label>)
    requires n > 0
    ensures Initial(s0) && IsRun(s0, ls) && |s0.procs| == n && 0 in s0.procs
    ensures FailedPolls(ls, 0) == 150 * (n - 1)
  {
    s0, ls := Tenures(n, n - 1);
    assert s0.procs.Keys == Pids(n) && |s0.procs| == |s0.procs.Keys|;
  }

  // ---- Concurrency

  /** The first k of n processes take the lock one after the other, each after an expiry. */
  lemma {:induction false} ExpireInTurn(n: nat, k: nat) returns (s0: State, ls: seq<Label>)
    requires k <= n
    ensures Reaches(s0, ls, State(LOCK_TTL * k, None, None, Procs(n, k, Requesting, Locking)), Tally(0, k, 0))
  {
    hide Reaches;
    if k == 0 {
      s0, ls := AllMiss(n, n);
      assert Procs(n, n, Locking, Checking) == Procs(n, 0, Requesting, Locking);
    } else {
      hide *;
      s0, ls := ExpireInTurn(n, k - 1);
      Next(n, k - 1, Requesting, Locking);
      ls := WinAndExpire(s0, ls, State(LOCK_TTL * (k - 1), None, None, Procs(n, k - 1, Requesting, Locking)),
                         Tally(0, k - 1, 0), k - 1);
    }
  }

  lemma WinAndExpire(s0: State, ls: seq<Label>, s: State, tally: Tally, p: Pid) returns (ls': seq<Label>)
    requires Reaches(s0, ls, s, tally) && s.lock.None? && s.cache.None? && p in s.procs && s.procs[p] == Locking
    ensures Reaches(s0, ls', State(s.now + LOCK_TTL, None, None, s.procs[p := Requesting]),
                    tally.(expiries := tally.expiries + 1))
  {
    hide Reaches;
    ls' := Step(s0, ls, s, tally, LockWin(p));
    ls' := Step(s0, ls', Apply(s, LockWin(p)), tally, Tick(LOCK_TTL));
  }

  /** Then j more are let through by failing SETNX commands. */
  lemma {:induction false} FailInTurn(n: nat, k: nat, j: nat) returns (s0: State, ls: seq<Label>)
    requires k + j <= n
    ensures Reaches(s0, ls, State(LOCK_TTL * k, None, None, Procs(n, k + j, Requesting, Locking)), Tally(0, k, j))
  {
    hide Reaches;
    if j == 0 {
      s0, ls := ExpireInTurn(n, k);
    } else {
      hide *;
      s0, ls := FailInTurn(n, k, j - 1);
      Next(n, k + j - 1, Requesting, Locking);
      ls := FailOnce(s0, ls, State(LOCK_TTL * k, None, None, Procs(n, k + j - 1, Requesting, Locking)),
                     Tally(0, k, j - 1), k + j - 1);
    }
  }

  lemma FailOnce(s0: State, ls: seq<Label>, s: State, tally: Tally, p: Pid) returns (ls': seq<Label>)
    requires Reaches(s0, ls, s, tally) && p in s.procs && s.procs[p] == Locking
    ensures Reaches(s0, ls', s.(procs := s.procs[p := Requesting]), tally.(errors := tally.errors + 1))
  {
    hide Reaches;
    ls' := Step(s0, ls, s, tally, LockError(p, false));
  }

  /** For any number of expiries and of SETNX errors as many processes, and the holder of the
      lock, can be inside together. */
  lemma ConcurrencyIsSharp(expiries: nat, errors: nat) returns (s0: State, ls: seq<Label>)
    ensures Initial(s0) && IsRun(s0, ls)
    ensures Expiries(s0, ls) == expiries && LockErrors(ls) == errors
    ensures LockCount(After(s0, ls).value) == 1
    ensures |Inside(After(s0, ls).value)| == 1 + expiries + errors
  {
    var n := expiries + errors + 1;
    s0, ls := FailInTurn(n, expiries, errors);
    var s := State(LOCK_TTL * expiries, None, None, Procs(n, n - 1, Requesting, Locking));
    Next(n, n - 1, Requesting, Locking);
    ls := Step(s0, ls, s, Tally(0, expiries, errors), LockWin(n - 1));
    hide Expiries, LockErrors, FailedPolls, After;
    AllInside(n, After(s0, ls).value);
  }

  lemma AllInside(n: nat, s: State)
    requires s.procs == Procs(n, n, Requesting, Locking)
    ensures |Inside(s)| == n
  {
    assert Inside(s) == Pids(n);
  }

  // ---- Supplier calls

  /** Process n has stored its answer while the others were between their miss and SETNX. */
  lemma OneAnswerStored(n: nat, r: Response) returns (s0: State, ls: seq<Label>, s: State)
    ensures Reaches(s0, ls, s, Tally(0, 0, 0))
    ensures s == State(0, None, Some(Stored(r, 0, Duration(r))),
                       Procs(n, 0, Finished(Fresh(r)), Locking)[n := Finished(Fresh(r))])
  {
    s0, ls := AllMiss(n + 1, n + 1);
    s := State(0, None, None, Procs(n + 1, n + 1, Locking, Checking));
    ls, s := OneCall(s0, ls, s, Tally(0, 0, 0), n, r);
    assert s.procs == Procs(n, 0, Finished(Fresh(r)), Locking)[n := Finished(Fresh(r))];
  }

  /** What the whole call of one process, from SETNX to the release, leaves behind. */
  function AfterCall(s: State, p: Pid, r: Response): State {
    State(s.now, None, Some(Stored(r, s.now, s.now + Duration(r))), s.procs[p := Finished(Fresh(r))])
  }

  lemma OneCall(s0: State, ls: seq<Label>, s: State, tally: Tally, p: Pid, r: Response)
    returns (ls': seq<Label>, t: State)
    requires Reaches(s0, ls, s, tally) && s.lock.None? && p in s.procs && s.procs[p] == Locking
    ensures t == AfterCall(s, p, r) && Reaches(s0, ls', t, tally)
  {
    hide Reaches, Duration;
    var a := Apply(s, LockWin(p));
    ls' := Step(s0, ls, s, tally, LockWin(p));
    var b := Apply(a, SupplierReply(p, Answer(r)));
    ls' := Step(s0, ls', a, tally, SupplierReply(p, Answer(r)));
    var c := Apply(b, StoreResponse(p, true));
    ls' := Step(s0, ls', b, tally, StoreResponse(p, true));
    ls' := Step(s0, ls', c, tally, ReleaseLock(p, true));
    t := Apply(c, ReleaseLock(p, true));
    assert t.procs == s.procs[p := Finished(Fresh(r))];
  }

  ghost predicate WarmCalls(s: State, ls: seq<Label>, t: State, calls: nat) {
    Warm(s, ls) && After(s, ls) == Some(t) && SupplierCalls(ls) == calls
  }

  lemma WarmStep(s: State, ls: seq<Label>, t: State, calls: nat, l: Label) returns (ls': seq<Label>)
    requires WarmCalls(s, ls, t, calls) && Enabled(t, l) && !l.FetchError? && Apply(t, l).cache.Some?
    ensures WarmCalls(s, ls', Apply(t, l), calls + if StartsCall(l) then 1 else 0)
  {
    hide Apply, Enabled, Warm;
    WarmSnoc(s, ls, l);
    Extend(s, ls, l);
    ls' := ls + [l];
  }

  lemma WarmCall(s: State, ls: seq<Label>, t: State, calls: nat, p: Pid, r: Response) returns (ls': seq<Label>)
    requires WarmCalls(s, ls, t, calls) && t.lock.None? && t.cache.Some? && p in t.procs && t.procs[p] == Locking
    ensures WarmCalls(s, ls', AfterCall(t, p, r), calls + 1)
  {
    hide WarmCalls, Duration;
    var a := Apply(t, LockWin(p));
    ls' := WarmStep(s, ls, t, calls, LockWin(p));
    var b := Apply(a, SupplierReply(p, Answer(r)));
    ls' := WarmStep(s, ls', a, calls + 1, SupplierReply(p, Answer(r)));
    var c := Apply(b, StoreResponse(p, true));
    ls' := WarmStep(s, ls', b, calls + 1, StoreResponse(p, true));
    ls' := WarmStep(s, ls', c, calls + 1, ReleaseLock(p, true));
    assert Apply(c, ReleaseLock(p, true)).procs == t.procs[p := Finished(Fresh(r))];
  }

  lemma {:induction false} CallsInTurn(n: nat, k: nat, r: Response, s: State) returns (ls: seq<Label>)
    requires k <= n && s == State(0, None, Some(Stored(r, 0, Duration(r))),
                                  Procs(n, 0, Finished(Fresh(r)), Locking)[n := Finished(Fresh(r))])
    ensures WarmCalls(s, ls, s.(procs := Procs(n, k, Finished(Fresh(r)), Locking)[n := Finished(Fresh(r))]), k)
  {
    var done := Finished(Fresh(r));
    if k == 0 {
      ls := [];
      assert Warm(s, []);
    } else {
      ls := CallsInTurn(n, k - 1, r, s);
      hide WarmCalls;
      var t := s.(procs := Procs(n, k - 1, done, Locking)[n := done]);
      ls := WarmCall(s, ls, t, k - 1, k - 1, r);
      assert t.procs[k - 1 := done] == Procs(n, k, done, Locking)[n := done];
    }
  }

  /** From a reachable state with the answer in the cache, n processes that had missed before can
      all call the supplier, without any expiry or error. */
  lemma NearSingleFlightIsSharp(n: nat, r: Response) returns (s0: State, before: seq<Label>, s: State, ls: seq<Label>)
    ensures Initial(s0) && After(s0, before) == Some(s)
    ensures Warm(s, ls) && |Missed(s)| == n && SupplierCalls(ls) == n
    ensures Expiries(s0, before) == 0 && LockErrors(before) == 0
  {
    s0, before, s := OneAnswerStored(n, r);
    ls := CallsInTurn(n, n, r, s);
    assert Missed(s) == Pids(n);
  }
}
