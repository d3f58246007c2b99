/** Bounded concurrency and bounded waiting, over every run. */
module GroupingSafety {
  import opened Wrappers
  import opened Grouping

  function LockCount(s: State): nat {
    if s.lock.Some? then 1 else 0
  }

  /** Replacing one process's position changes only that process's membership. */
  lemma InsideUpdate(s: State, t: State, p: Pid, pc: Pc)
    requires p in s.procs && t.procs == s.procs[p := pc]
    ensures Inside(t) == if IsInside(pc) then Inside(s) + {p} else Inside(s) - {p}
  {
  }

  lemma InsideStep(s: State, l: Label)
    requires Enabled(s, l)
    ensures l.LockWin? || l.LockError? ==> |Inside(Apply(s, l))| == |Inside(s)| + 1
    ensures l.ReleaseLock? ==> |Inside(Apply(s, l))| == |Inside(s)| - 1
    ensures !l.LockWin? && !l.LockError? ==> |Inside(Apply(s, l))| <= |Inside(s)|
  {
    if l.Tick? {
      assert Apply(s, l).procs == s.procs;
      assert Inside(Apply(s, l)) == Inside(s);
    } else {
      var pc := s.procs[l.p];
      var next := NextPc(s, l, pc);
      InsideUpdate(s, Apply(s, l), l.p, next);
      InsideUpdate(s, s, l.p, pc);
      assert IsInside(next) && !IsInside(pc) ==> l.LockWin? || l.LockError?;
    }
  }

  /** In every run the processes between winning (or failing) SETNX and their release are
      at most the lock itself, plus the locks that expired, plus the SETNX errors, although
      a release deletes the lock whoever holds it. */
  lemma {:induction false} BoundedConcurrency(s0: State, ls: seq<Label>)
    requires Initial(s0) && IsRun(s0, ls)
    ensures |Inside(After(s0, ls).value)|
         <= LockCount(After(s0, ls).value) + Expiries(s0, ls) + LockErrors(ls)
  {
    if ls == [] {
      assert Inside(s0) == {};
    } else {
      var front, l := ls[..|ls| - 1], ls[|ls| - 1];
      BoundedConcurrency(s0, front);
      InsideStep(After(s0, front).value, l);
    }
  }

  lemma MutualExclusion(s0: State, ls: seq<Label>, p: Pid, q: Pid)
    requires Initial(s0) && IsRun(s0, ls)
    requires Expiries(s0, ls) == 0 && LockErrors(ls) == 0
    requires p in Inside(After(s0, ls).value) && q in Inside(After(s0, ls).value)
    ensures p == q && After(s0, ls).value.lock.Some?
  {
    BoundedConcurrency(s0, ls);
    var inside := Inside(After(s0, ls).value);
    SubsetCardinality({p, q}, inside);
    assert p != q ==> |{p, q}| == 2;
  }

  // ---- Bounded waiting

  /** When `p` last polled in vain; meaningful once FailedPolls is positive. */
  function LastPoll(s: State, ls: seq<Label>, p: Pid): nat
    requires IsRun(s, ls)
  {
    if ls == [] then 0
    else if ls[|ls| - 1] == LockLose(p) then After(s, ls[..|ls| - 1]).value.now
    else LastPoll(s, ls[..|ls| - 1], p)
  }

  /** Does this step create the lock key? */
  predicate TakesLock(s: State, l: Label)
  {
    l.LockWin? || (l.LockError? && l.applied && s.lock.None?)
  }

  function Tenures(s: State, ls: seq<Label>): nat
    requires IsRun(s, ls)
  {
    if ls == [] then 0
    else Tenures(s, ls[..|ls| - 1])
         + if TakesLock(After(s, ls[..|ls| - 1]).value, ls[|ls| - 1]) then 1 else 0
  }

  predicate Starts(l: Label) {
    l.LockWin? || l.LockError?
  }

  /** The processes that have been let through SETNX, by winning it or by its failure. */
  function Starters(ls: seq<Label>): set<Pid> {
    if ls == [] then {}
    else Starters(ls[..|ls| - 1])
         + if Starts(ls[|ls| - 1]) then {ls[|ls| - 1].p} else {}
  }

  predicate IsWaiting(pc: Pc) {
    pc.Checking? || pc.Fetching? || pc.Locking? || pc.Sleeping?
  }

  const POLLS_PER_TENURE: nat := LOCK_TTL / POLL_INTERVAL

  /** Nobody comes back to waiting, and only a waiting process polls or starts. */
  lemma WaitingStep(s: State, l: Label)
    requires Enabled(s, l)
    ensures Apply(s, l).procs.Keys == s.procs.Keys
    ensures l.LockLose? || Starts(l) ==> IsWaiting(s.procs[l.p])
    ensures forall q <- s.procs ::
              IsWaiting(Apply(s, l).procs[q]) ==> IsWaiting(s.procs[q]) && !(Starts(l) && l.p == q)
  {
    hide NextCache, NextLock, Duration;
  }

  lemma {:induction false} StartersLeave(s0: State, ls: seq<Label>)
    requires Initial(s0) && IsRun(s0, ls)
    ensures After(s0, ls).value.procs.Keys == s0.procs.Keys
    ensures Starters(ls) <= s0.procs.Keys
    ensures forall p <- s0.procs :: IsWaiting(After(s0, ls).value.procs[p]) ==> p !in Starters(ls)
    ensures Tenures(s0, ls) <= |Starters(ls)|
  {
    if ls != [] {
      var front, l := ls[..|ls| - 1], ls[|ls| - 1];
      hide Apply, CanStep, NextCache;
      StartersLeave(s0, front);
      WaitingStep(After(s0, front).value, l);
      if Starts(l) {
        assert l.p !in Starters(front);
      }
    }
  }

  /** Polls of one process are POLL_INTERVAL apart. */
  predicate Spaced(s: State, pc: Pc, last: nat) {
    && last <= s.now
    && (pc.Sleeping? ==> last + POLL_INTERVAL <= pc.until)
    && (pc.Checking? || pc.Fetching? || pc.Locking? ==> last + POLL_INTERVAL <= s.now)
  }

  lemma SpacedStep(s: State, l: Label, p: Pid, last: nat)
    requires Enabled(s, l) && p in s.procs
    requires l == LockLose(p) || Spaced(s, s.procs[p], last)
    ensures p in Apply(s, l).procs
    ensures Spaced(Apply(s, l), Apply(s, l).procs[p], if l == LockLose(p) then s.now else last)
  {
  }

  lemma {:induction false} PollsAreSpaced(s0: State, ls: seq<Label>, p: Pid)
    requires Initial(s0) && IsRun(s0, ls) && p in s0.procs && FailedPolls(ls, p) > 0
    ensures p in After(s0, ls).value.procs
    ensures Spaced(After(s0, ls).value, After(s0, ls).value.procs[p], LastPoll(s0, ls, p))
  {
    var front, l := ls[..|ls| - 1], ls[|ls| - 1];
    hide Apply, Enabled, Spaced;
    StartersLeave(s0, front);
    if l != LockLose(p) {
      PollsAreSpaced(s0, front, p);
    }
    SpacedStep(After(s0, front).value, l, p, LastPoll(s0, front, p));
  }

  /** Polls that fit into the current tenure up to `p`'s last poll. */
  function PollsInTenure(expires: int, last: nat): nat {
    var since := expires - LOCK_TTL;
    if last < since then 0 else (last - since) / POLL_INTERVAL + 1
  }

  lemma OnePollLater(expires: int, last: nat, now: nat)
    requires last + POLL_INTERVAL <= now < expires <= now + LOCK_TTL
    ensures PollsInTenure(expires, last) + 1 <= PollsInTenure(expires, now) <= POLLS_PER_TENURE
  {
  }

  lemma {:induction false} LastPollFollows(s0: State, ls: seq<Label>, p: Pid, i: nat)
    requires IsRun(s0, ls) && i < |ls| && ls[i] == LockLose(p)
    ensures FailedPolls(ls, p) > 0 && At(s0, ls, i).now <= LastPoll(s0, ls, p) <= After(s0, ls).value.now
  {
    var n := |ls| - 1;
    PrefixIsRun(s0, ls, n);
    if i < n {
      LastPollFollows(s0, ls[..n], p, i);
      assert ls[..n][..i] == ls[..i];
    }
  }

  /** Two failed polls of one process are at least 400 ms apart. */
  lemma PollsApart(s0: State, ls: seq<Label>, p: Pid, i: nat, j: nat)
    requires Initial(s0) && IsRun(s0, ls) && p in s0.procs
    requires i < j < |ls| && ls[i] == LockLose(p) && ls[j] == LockLose(p)
    ensures At(s0, ls, i).now + 400 <= At(s0, ls, j).now
  {
    PrefixIsRun(s0, ls, j + 1);
    assert ls[..j + 1][..j] == ls[..j] && ls[..j][..i] == ls[..i];
    LastPollFollows(s0, ls[..j], p, i);
    PollsAreSpaced(s0, ls[..j], p);
  }

  predicate WithinTenures(s: State, polls: nat, tenures: nat, last: nat) {
    && polls <= POLLS_PER_TENURE * tenures
    && (s.lock.Some? ==> s.now < s.lock.value <= s.now + LOCK_TTL && tenures > 0)
    && (s.lock.Some? && polls > 0 ==>
          polls <= POLLS_PER_TENURE * (tenures - 1) + PollsInTenure(s.lock.value, last))
  }

  /** Every finished tenure costs `p` at most POLLS_PER_TENURE polls, the running one at most
      the polls that fit between its beginning and `p`'s last poll. */
  lemma {:induction false} PollsPerTenure(s0: State, ls: seq<Label>, p: Pid)
    requires Initial(s0) && IsRun(s0, ls) && p in s0.procs
    ensures WithinTenures(After(s0, ls).value, FailedPolls(ls, p), Tenures(s0, ls), LastPoll(s0, ls, p))
  {
    hide *;
    if ls == [] {
      NothingYet(s0, p);
    } else {
      var front, l := ls[..|ls| - 1], ls[|ls| - 1];
      OneStepLater(s0, ls, p);
      PollsPerTenure(s0, front, p);
      StartersLeave(s0, front);
      if FailedPolls(front, p) > 0 {
        PollsAreSpaced(s0, front, p);
      }
      TenureStep(After(s0, front).value, l, p, FailedPolls(front, p), Tenures(s0, front), LastPoll(s0, front, p));
    }
  }

  lemma NothingYet(s0: State, p: Pid)
    requires Initial(s0)
    ensures IsRun(s0, [])
            && WithinTenures(After(s0, []).value, FailedPolls([], p), Tenures(s0, []), LastPoll(s0, [], p))
  {
  }

  /** How the last step of a run changes what is counted. */
  lemma OneStepLater(s0: State, ls: seq<Label>, p: Pid)
    requires IsRun(s0, ls) && ls != []
    ensures var front, l := ls[..|ls| - 1], ls[|ls| - 1];
            && IsRun(s0, front) && After(s0, front).Some? && Enabled(After(s0, front).value, l)
            && After(s0, ls) == Some(Apply(After(s0, front).value, l))
            && FailedPolls(ls, p) == FailedPolls(front, p) + (if l == LockLose(p) then 1 else 0)
            && Tenures(s0, ls) == Tenures(s0, front) + (if TakesLock(After(s0, front).value, l) then 1 else 0)
            && LastPoll(s0, ls, p) == if l == LockLose(p) then After(s0, front).value.now else LastPoll(s0, front, p)
  {
    hide Apply, Enabled;
  }

  /** What a step does to the clock and the lock. */
  lemma LockStep(s: State, l: Label)
    requires Enabled(s, l)
    ensures var t := Apply(s, l);
            && s.now <= t.now && (!l.Tick? ==> t.now == s.now)
            && (TakesLock(s, l) ==> s.lock.None? && t.lock == Some(s.now + LOCK_TTL))
            && (!TakesLock(s, l) && t.lock.Some? ==>
                  t.lock == s.lock && (s.now < s.lock.value ==> t.now < t.lock.value))
    ensures l.LockLose? ==> s.lock.Some?
  {
    hide NextPc, NextCache;
  }

  lemma TenureStep(s: State, l: Label, p: Pid, polls: nat, tenures: nat, last: nat)
    requires Enabled(s, l) && p in s.procs && WithinTenures(s, polls, tenures, last)
    requires polls > 0 ==> Spaced(s, s.procs[p], last)
    ensures WithinTenures(Apply(s, l),
                          polls + if l == LockLose(p) then 1 else 0,
                          tenures + if TakesLock(s, l) then 1 else 0,
                          if l == LockLose(p) then s.now else last)
  {
    LockStep(s, l);
    assert l == LockLose(p) ==> s.procs[p].Locking?;
    hide Apply, Enabled, TakesLock;
    if l == LockLose(p) && polls > 0 {
      OnePollLater(s.lock.value, last, s.now);
    }
  }

  lemma PollsFit(polls: nat, tenures: nat, starters: set<Pid>, procs: set<Pid>, p: Pid)
    requires polls <= POLLS_PER_TENURE * tenures && tenures <= |starters|
    requires starters <= procs - {p} && p in procs
    ensures polls <= 150 * (|procs| - 1)
  {
    SubsetCardinality(starters, procs - {p});
  }

  /** Among the N requests for one key, each makes at most 150 * (N - 1) failed polls. */
  lemma {:induction false} BoundedWaiting(s0: State, ls: seq<Label>, p: Pid)
    requires Initial(s0) && IsRun(s0, ls) && p in s0.procs
    ensures FailedPolls(ls, p) <= 150 * (|s0.procs| - 1)
  {
    assert |s0.procs| == |s0.procs.Keys|;
    if ls == [] {
      PollsFit(0, 0, {}, s0.procs.Keys, p);
    } else if ls[|ls| - 1] == LockLose(p) {
      hide Apply, NextCache, NextLock, LastPoll;
      PollsPerTenure(s0, ls, p);
      StartersLeave(s0, ls);
      StartersLeave(s0, ls[..|ls| - 1]);
      WaitingStep(After(s0, ls[..|ls| - 1]).value, LockLose(p));
      PollsFit(FailedPolls(ls, p), Tenures(s0, ls), Starters(ls), s0.procs.Keys, p);
    } else {
      BoundedWaiting(s0, ls[..|ls| - 1], p);
    }
  }

  lemma {:induction false} SubsetCardinality(a: set<Pid>, b: set<Pid>)
    requires a <= b
    ensures |a| <= |b|
  {
    if a != {} {
      var x :| x in a;
      SubsetCardinality(a - {x}, b - {x});
    }
  }
}
