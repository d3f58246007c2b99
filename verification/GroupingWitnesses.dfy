/** Concrete runs that show where the protocol is weaker than textbook locking. */
module GroupingWitnesses {
  import opened Wrappers
  import opened Grouping
  import opened GroupingCache
  import opened GroupingSharpness

  function Two(lock: Option<nat>, cache: Option<Stored>, zero: Pc, one: Pc): State {
    State(0, lock, cache, map[0 := zero, 1 := one])
  }

  /** One step of process 0 or 1 at time 0, other than a SETNX error. */
  lemma StepOfTwo(s0: State, ls: seq<Label>, lock: Option<nat>, cache: Option<Stored>, zero: Pc, one: Pc, l: Label)
    returns (ls': seq<Label>)
    requires After(s0, ls) == Some(Two(lock, cache, zero, one))
    requires !l.Tick? && !l.LockError? && l.p < 2
    requires CanStep(Two(lock, cache, zero, one), l, if l.p == 0 then zero else one)
    ensures var s := Two(lock, cache, zero, one);
            After(s0, ls') == Some(Two(NextLock(s, l), NextCache(s, l),
                                       if l.p == 0 then NextPc(s, l, zero) else zero,
                                       if l.p == 1 then NextPc(s, l, one) else one))
    ensures Expiries(s0, ls') == Expiries(s0, ls) && LockErrors(ls') == LockErrors(ls)
    ensures SupplierCalls(ls') == SupplierCalls(ls) + if StartsCall(l) then 1 else 0
  {
    hide After, Expiries, LockErrors, SupplierCalls, FailedPolls;
    Extend(s0, ls, l);
    ls' := ls + [l];
    var s := Two(lock, cache, zero, one);
    assert Apply(s, l).procs == map[0 := if l.p == 0 then NextPc(s, l, zero) else zero,
                                    1 := if l.p == 1 then NextPc(s, l, one) else one];
  }

  lemma BothMiss() returns (s0: State, ls: seq<Label>)
    ensures Initial(s0) && After(s0, ls) == Some(Two(None, None, Locking, Locking))
    ensures SupplierCalls(ls) == 0 && LockErrors(ls) == 0 && Expiries(s0, ls) == 0
  {
    s0, ls := Two(None, None, Checking, Checking), [];
    ls := StepOfTwo(s0, ls, None, None, Checking, Checking, Proceed(0));
    ls := StepOfTwo(s0, ls, None, None, Fetching, Checking, Proceed(1));
    ls := StepOfTwo(s0, ls, None, None, Fetching, Fetching, FetchMiss(0));
    ls := StepOfTwo(s0, ls, None, None, Locking, Fetching, FetchMiss(1));
  }

  lemma FirstCall(r: Response) returns (s0: State, ls: seq<Label>)
    ensures Initial(s0) && After(s0, ls) == Some(Two(Some(LOCK_TTL), None, Storing(r), Locking))
    ensures SupplierCalls(ls) == 1 && LockErrors(ls) == 0 && Expiries(s0, ls) == 0
  {
    s0, ls := BothMiss();
    ls := StepOfTwo(s0, ls, None, None, Locking, Locking, LockWin(0));
    ls := StepOfTwo(s0, ls, Some(LOCK_TTL), None, Requesting, Locking, SupplierReply(0, Answer(r)));
  }

  lemma AnswerStored(r: Response) returns (s0: State, ls: seq<Label>)
    ensures Initial(s0)
    ensures After(s0, ls) == Some(Two(None, Some(Stored(r, 0, Duration(r))), Finished(Fresh(r)), Locking))
    ensures SupplierCalls(ls) == 1 && LockErrors(ls) == 0 && Expiries(s0, ls) == 0
  {
    s0, ls := FirstCall(r);
    var lock, stored := Some(LOCK_TTL), Some(Stored(r, 0, Duration(r)));
    ls := StepOfTwo(s0, ls, lock, None, Storing(r), Locking, StoreResponse(0, true));
    ls := StepOfTwo(s0, ls, lock, stored, Releasing(Fresh(r)), Locking, ReleaseLock(0, true));
  }

  /** Without any expiry, SETNX error or fetch error, a process with a stale miss repeats the
      call although the answer is in the cache. */
  lemma SecondCallForAStaleMiss(r: Response) returns (s0: State, ls: seq<Label>, s: State)
    ensures Initial(s0) && After(s0, ls) == Some(s)
    ensures SupplierCalls(ls) == 1 && LockErrors(ls) == 0 && Expiries(s0, ls) == 0
    ensures |Missed(s)| == 1 && Warm(s, [LockWin(1)]) && SupplierCalls([LockWin(1)]) == 1
  {
    s0, ls := AnswerStored(r);
    s := Two(None, Some(Stored(r, 0, Duration(r))), Finished(Fresh(r)), Locking);
    hide After, Expiries, LockErrors;
    assert Missed(s) == {1};
    WarmStep(s, LockWin(1));
  }

  lemma WarmStep(s: State, l: Label)
    requires Enabled(s, l) && !l.FetchError? && s.cache.Some? && Apply(s, l).cache.Some?
    ensures Warm(s, [l]) && SupplierCalls([l]) == if StartsCall(l) then 1 else 0
  {
    Extend(s, [], l);
    var ls := [l];
    assert [] + [l] == ls;
    forall k | 0 <= k <= 1 ensures At(s, ls, k).cache.Some? {
      assert ls[..0] == [] && ls[..1] == ls;
    }
  }

  lemma OneInside() returns (s0: State, ls: seq<Label>)
    ensures Initial(s0) && After(s0, ls) == Some(Two(Some(LOCK_TTL), None, Requesting, Locking))
    ensures LockErrors(ls) == 0 && Expiries(s0, ls) == 0
  {
    s0, ls := BothMiss();
    ls := StepOfTwo(s0, ls, None, None, Locking, Locking, LockWin(0));
  }

  /** A SETNX error lets a second process in beside the owner of the lock. */
  lemma ExclusionLostByError() returns (s0: State, ls: seq<Label>, s: State)
    ensures Initial(s0) && After(s0, ls) == Some(s) && Inside(s) == {0, 1}
    ensures Expiries(s0, ls) == 0 && LockErrors(ls) == 1
  {
    s0, ls := OneInside();
    s := Two(Some(LOCK_TTL), None, Requesting, Locking);
    Extend(s0, ls, LockError(1, false));
    ls, s := ls + [LockError(1, false)], Apply(s, LockError(1, false));
  }

  /** A lock that expires under its owner lets a second process in. */
  lemma ExclusionLostByExpiry() returns (s0: State, ls: seq<Label>, s: State)
    ensures Initial(s0) && After(s0, ls) == Some(s) && Inside(s) == {0, 1}
    ensures Expiries(s0, ls) == 1 && LockErrors(ls) == 0
  {
    s0, ls := OneInside();
    s := Two(Some(LOCK_TTL), None, Requesting, Locking);
    Extend(s0, ls, Tick(LOCK_TTL));
    ls, s := ls + [Tick(LOCK_TTL)], Advance(s, LOCK_TTL);
    Extend(s0, ls, LockWin(1));
    ls, s := ls + [LockWin(1)], Apply(s, LockWin(1));
  }

  function Trio<T>(zero: T, one: T, two: T): map<nat, T> {
    map[0 := zero, 1 := one, 2 := two]
  }

  lemma TrioUpdate<T>(zero: T, one: T, two: T, p: nat, next: T)
    requires p < 3
    ensures p in Trio(zero, one, two)
    ensures Trio(zero, one, two)[p] == if p == 0 then zero else if p == 1 then one else two
    ensures Trio(zero, one, two)[p := next]
         == Trio(if p == 0 then next else zero, if p == 1 then next else one, if p == 2 then next else two)
  {
    var trio := Trio(zero, one, two)[p := next];
    if p == 0 {
      assert trio == Trio(next, one, two);
    } else if p == 1 {
      assert trio == Trio(zero, next, two);
    } else {
      assert trio == Trio(zero, one, next);
    }
  }

  function Three(now: nat, lock: Option<nat>, zero: Pc, one: Pc, two: Pc): State {
    State(now, lock, None, Trio(zero, one, two))
  }

  /** One step of process 0, 1 or 2, other than a SETNX error or a store. */
  lemma StepOfThree(s0: State, ls: seq<Label>, now: nat, lock: Option<nat>, zero: Pc, one: Pc, two: Pc, l: Label)
    returns (ls': seq<Label>)
    requires After(s0, ls) == Some(Three(now, lock, zero, one, two))
    requires !l.Tick? && !l.LockError? && !l.StoreResponse? && l.p < 3
    requires CanStep(Three(now, lock, zero, one, two), l, if l.p == 0 then zero else if l.p == 1 then one else two)
    ensures var s := Three(now, lock, zero, one, two);
            After(s0, ls') == Some(Three(now, NextLock(s, l),
                                         if l.p == 0 then NextPc(s, l, zero) else zero,
                                         if l.p == 1 then NextPc(s, l, one) else one,
                                         if l.p == 2 then NextPc(s, l, two) else two))
    ensures ls' == ls + [l] && Expiries(s0, ls') == Expiries(s0, ls) && LockErrors(ls') == LockErrors(ls)
  {
    hide After, Expiries, LockErrors, SupplierCalls, FailedPolls, Trio, CanStep, NextPc, NextLock;
    var s := Three(now, lock, zero, one, two);
    var pc := if l.p == 0 then zero else if l.p == 1 then one else two;
    TrioUpdate(zero, one, two, l.p, NextPc(s, l, pc));
    Extend(s0, ls, l);
    ls' := ls + [l];
  }

  lemma AllThreeMiss() returns (s0: State, ls: seq<Label>)
    ensures Initial(s0) && After(s0, ls) == Some(Three(0, None, Locking, Locking, Locking))
    ensures LockErrors(ls) == 0 && Expiries(s0, ls) == 0
  {
    s0, ls := AllMiss(3, 3);
    assert Procs(3, 3, Locking, Checking) == Trio(Locking, Locking, Locking);
  }

  /** Process 0 wins and its lock expires; process 1 wins. */
  lemma LateOwner() returns (s0: State, ls: seq<Label>)
    ensures Initial(s0) && After(s0, ls) == Some(Three(LOCK_TTL, Some(2 * LOCK_TTL), Requesting, Requesting, Locking))
    ensures LockErrors(ls) == 0 && Expiries(s0, ls) == 1
  {
    s0, ls := AllThreeMiss();
    hide After, Expiries, LockErrors, Trio;
    ls := StepOfThree(s0, ls, 0, None, Locking, Locking, Locking, LockWin(0));
    Extend(s0, ls, Tick(LOCK_TTL));
    ls := ls + [Tick(LOCK_TTL)];
    ls := StepOfThree(s0, ls, LOCK_TTL, None, Requesting, Locking, Locking, LockWin(1));
  }

  /** The release of a process whose lock has expired deletes the lock of the next owner: with
      one expiry, of a lock that nobody inside holds any more, two other processes are inside. */
  lemma ExclusionLostByForeignRelease() returns (s0: State, ls: seq<Label>, s: State)
    ensures Initial(s0) && After(s0, ls) == Some(s) && Inside(s) == {1, 2}
    ensures Expiries(s0, ls) == 1 && LockErrors(ls) == 0
    ensures |ls| > 2 && ls[|ls| - 2..] == [ReleaseLock(0, true), LockWin(2)]
    ensures s.now < 2 * LOCK_TTL
  {
    s0, ls := LateOwner();
    hide After, Expiries, LockErrors, Trio;
    var lock, failed := Some(2 * LOCK_TTL), Failed("");
    ls := StepOfThree(s0, ls, LOCK_TTL, lock, Requesting, Requesting, Locking, SupplierReply(0, Fault("")));
    var before := ls;
    ls := StepOfThree(s0, ls, LOCK_TTL, lock, Releasing(failed), Requesting, Locking, ReleaseLock(0, true));
    ls := StepOfThree(s0, ls, LOCK_TTL, None, Finished(failed), Requesting, Locking, LockWin(2));
    s := Three(LOCK_TTL, lock, Finished(failed), Requesting, Requesting);
    assert ls == before + [ReleaseLock(0, true), LockWin(2)];
    OneAndTwo(s, failed);
  }

  lemma OneAndTwo(s: State, failed: Result)
    requires s.procs == Trio(Finished(failed), Requesting, Requesting)
    ensures Inside(s) == {1, 2}
  {
  }

  lemma OneMissesOneFetches() returns (s0: State, ls: seq<Label>)
    ensures Initial(s0) && After(s0, ls) == Some(Two(None, None, Locking, Fetching))
    ensures SupplierCalls(ls) == 0 && LockErrors(ls) == 0 && Expiries(s0, ls) == 0
  {
    s0, ls := Two(None, None, Checking, Checking), [];
    ls := StepOfTwo(s0, ls, None, None, Checking, Checking, Proceed(0));
    ls := StepOfTwo(s0, ls, None, None, Fetching, Checking, Proceed(1));
    ls := StepOfTwo(s0, ls, None, None, Fetching, Fetching, FetchMiss(0));
  }

  /** A fetch error starts a second call beside the owner of the lock, without any expiry or
      SETNX error. */
  lemma SecondCallByFetchError() returns (s0: State, ls: seq<Label>, s: State)
    ensures Initial(s0) && After(s0, ls) == Some(s) && SupplierCalls(ls) == 2
    ensures Inside(s) == {0} && 1 in s.procs && s.procs[1] == Bypassing
    ensures Expiries(s0, ls) == 0 && LockErrors(ls) == 0
  {
    s0, ls := OneMissesOneFetches();
    ls := StepOfTwo(s0, ls, None, None, Locking, Fetching, LockWin(0));
    ls := StepOfTwo(s0, ls, Some(LOCK_TTL), None, Requesting, Fetching, FetchError(1));
    s := Two(Some(LOCK_TTL), None, Requesting, Bypassing);
    hide After, Expiries, LockErrors, SupplierCalls;
    assert Inside(s) == {0};
  }
}
