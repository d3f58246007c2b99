/**
  The request manager in the source's own form: methods over shared Redis state, with arbitrary
  steps of the other processes between any two of its Redis operations. Every method is tied to
  the transition system of module Grouping, and the wait, a tail recursion, is proved to end.
  */
module GroupingService {
  import opened Wrappers
  import opened Grouping
  import opened GroupingSafety
  import opened GroupingCache

  /** The two Redis keys of one group and the Redis clock; a failing command may have been
      carried out all the same. */
  class Storage {
    var now: nat
    var lock: Option<nat>
    var cache: Option<Stored>

    constructor (now: nat)
      ensures this.now == now && lock == None && cache == None
    {
      this.now, lock, cache := now, None, None;
    }

    method AcquireLock() returns (acquired: bool, err: bool, ghost applied: bool)
      modifies this`lock
      ensures err ==> !acquired
      ensures !err ==> acquired == old(lock).None?
      ensures lock == if old(lock).None? && (acquired || (err && applied)) then Some(now + 60_000) else old(lock)
    {
      var fails: bool, carriedOut: bool := *, *;
      applied := carriedOut;
      acquired, err := !fails && lock.None?, fails;
      if lock.None? && (acquired || (fails && carriedOut)) {
        lock := Some(now + LOCK_TTL);
      }
    }

    method ReleaseLock() returns (ghost applied: bool)
      modifies this`lock
      ensures lock == if applied then None else old(lock)
    {
      var carriedOut: bool := *;
      applied := carriedOut;
      if carriedOut {
        lock := None;
      }
    }

    method StoreResponse(response: Response, duration: nat) returns (ghost applied: bool)
      modifies this`cache
      ensures cache == if applied then Some(Stored(response, now, now + duration)) else old(cache)
    {
      var carriedOut: bool := *;
      applied := carriedOut;
      if carriedOut {
        cache := Some(Stored(response, now, now + duration));
      }
    }

    method FetchResponse() returns (value: Option<Response>, err: bool)
      ensures err ==> value.None?
      ensures !err ==> value == if cache.Some? then Some(cache.value.response) else None
    {
      err := *;
      value := if err || cache.None? then None else Some(cache.value.response);
    }
  }

  lemma DurationOf(r: Response)
    ensures Duration(r)
         == if r.body.Unparsable? || !IsStatusCodeAcceptable(r.code) || r.body.errors != [] then BAD_TTL else GOOD_TTL
  {
  }

  class RequestManager {
    const redis: Storage
    var procs: map<Pid, Pc>
    ghost const init: State
    ghost var trace: seq<Label>

    function Snapshot(): State
      reads this, redis
    {
      State(redis.now, redis.lock, redis.cache, procs)
    }

    ghost predicate Valid()
      reads this, redis
    {
      && Initial(init)
      && After(init, trace) == Some(Snapshot())
      && procs.Keys == init.procs.Keys
    }

    constructor (pids: set<Pid>, now: nat)
      ensures Valid() && fresh(redis) && trace == []
      ensures procs == map p | p in pids :: Checking
    {
      redis := new Storage(now);
      procs := map p | p in pids :: Checking;
      init := State(now, None, None, map p | p in pids :: Checking);
      trace := [];
    }

    /** Process `p` goes on at `next`, having done on Redis the operation that step `l` of the
        protocol does in state `s`. */
    method Continue(p: Pid, next: Pc, ghost s: State, ghost l: Label)
      requires Initial(init) && After(init, trace) == Some(s)
      requires s.procs == procs && procs.Keys == init.procs.Keys
      requires !l.Tick? && l.p == p && p in procs && CanStep(s, l, procs[p]) && next == NextPc(s, l, procs[p])
      requires redis.now == s.now && redis.lock == NextLock(s, l) && redis.cache == NextCache(s, l)
      modifies this
      ensures Valid() && trace == old(trace) + [l]
      ensures procs == old(procs)[p := next]
      ensures FailedPolls(trace, p) == FailedPolls(old(trace), p) + if l == LockLose(p) then 1 else 0
    {
      Extend(init, trace, l);
      procs := procs[p := next];
      trace := trace + [l];
    }

    /** Any enabled step of the protocol, taken by another process or by the clock. */
    method TakeStep(l: Label)
      requires Valid() && Enabled(Snapshot(), l)
      modifies this, redis
      ensures Valid() && trace == old(trace) + [l] && Snapshot() == Apply(old(Snapshot()), l)
      ensures forall p :: FailedPolls(trace, p) == FailedPolls(old(trace), p) + if l == LockLose(p) then 1 else 0
    {
      Extend(init, trace, l);
      var s := Apply(Snapshot(), l);
      redis.now, redis.lock, redis.cache, procs := s.now, s.lock, s.cache, s.procs;
      trace := trace + [l];
    }

    /** The run went on from `before`, and `p` has polled in vain no more often. */
    ghost predicate Since(p: Pid, before: seq<Label>)
      reads this, redis
    {
      Valid() && p in procs && before <= trace && FailedPolls(trace, p) == FailedPolls(before, p)
    }

    /** The others move, and time passes, any number of times between two steps of `p`. */
    method Interfere(p: Pid)
      requires Valid() && p in procs
      modifies this, redis
      ensures Since(p, old(trace)) && procs[p] == old(procs[p])
    {
      var n: nat :| true;
      for i := 0 to n
        invariant Since(p, old(trace)) && procs[p] == old(procs[p])
      {
        var l: Label :| true;
        if Enabled(Snapshot(), l) && (l.Tick? || l.p != p) {
          TakeStep(l);
        }
      }
    }

    /** The requester runs, for as long as it likes, and gives back any reply. */
    method CallRequester(p: Pid) returns (reply: Reply)
      requires Valid() && p in procs && (procs[p].Requesting? || procs[p].Bypassing?)
      modifies this, redis
      ensures Since(p, old(trace))
      ensures procs[p] == if old(procs[p]).Bypassing? then Finished(Bypassed(reply))
                          else if reply.Answer? then Storing(reply.response) else Releasing(Failed(reply.error))
      ensures |old(trace)| < |trace| && trace[|trace| - 1] == SupplierReply(p, reply)
    {
      Interfere(p);
      reply :| true;
      Continue(p, NextPc(Snapshot(), SupplierReply(p, reply), procs[p]), Snapshot(), SupplierReply(p, reply));
    }

    /** Step `k` of the run is process `p`'s SET of `r`, for the time `r` deserves, unless Redis
        failed to carry it out. */
    ghost predicate IsStoreOf(k: nat, p: Pid, r: Response)
      reads this
    {
      && k < |trace| && trace[k].StoreResponse? && trace[k].p == p
      && var t := After(init, trace[..k + 1]);
         && t.Some?
         && (trace[k].applied ==>
               && t.value.cache.Some? && t.value.cache.value.response == r
               && t.value.cache.value.storedAt == t.value.now
               && t.value.cache.value.expires - t.value.now
                  == if 200 <= r.code <= 299 && r.body.Rates? && r.body.errors == [] then 600_000 else 60_000)
    }

    method Store(p: Pid, response: Response, duration: nat)
      requires Valid() && p in procs && procs[p] == Storing(response) && duration == Duration(response)
      modifies this, redis
      ensures Since(p, old(trace)) && procs[p] == Releasing(Fresh(response))
      ensures |old(trace)| < |trace| && IsStoreOf(|trace| - 1, p, response)
    {
      Interfere(p);
      ghost var s := Snapshot();
      ghost var applied := redis.StoreResponse(response, duration);
      Continue(p, Releasing(Fresh(response)), s, StoreResponse(p, applied));
      assert trace[..|trace|] == trace;
    }

    method Release(p: Pid, res: Result)
      requires Valid() && p in procs && procs[p] == Releasing(res)
      modifies this, redis
      ensures Since(p, old(trace)) && procs[p] == Finished(res)
      ensures |old(trace)| < |trace| && trace[|trace| - 1].ReleaseLock? && trace[|trace| - 1].p == p
    {
      Interfere(p);
      ghost var s := Snapshot();
      ghost var applied := redis.ReleaseLock();
      Continue(p, Finished(res), s, ReleaseLock(p, applied));
    }

    /** Every way out releases the lock last; the result is what the requester gave this process.
        A successful reply is stored in between. */
    method RequestSupplierAndStore(p: Pid) returns (res: Result)
      requires Valid() && p in procs && procs[p].Requesting?
      modifies this, redis
      ensures Since(p, old(trace)) && procs[p] == Finished(res) && (res.Fresh? || res.Failed?)
      ensures SupplierReply(p, if res.Fresh? then Answer(res.response) else Fault(res.error)) in trace
      ensures trace[|trace| - 1].ReleaseLock? && trace[|trace| - 1].p == p
      ensures res.Fresh? ==> exists i, k | |old(trace)| <= i < k < |trace| - 1 ::
                && trace[i] == SupplierReply(p, Answer(res.response)) && trace[k].StoreResponse? && trace[k].p == p
                && var t := After(init, trace[..k + 1]);
                   && t.Some?
                   && (trace[k].applied ==>
                         && t.value.cache.Some? && t.value.cache.value.response == res.response
                         && t.value.cache.value.expires - t.value.now
                            == if 200 <= res.response.code <= 299 && res.response.body.Rates?
                                  && res.response.body.errors == []
                               then 600_000 else 60_000)
    {
      hide After, FailedPolls, CanStep, Initial, Duration;
      var reply := CallRequester(p);
      ghost var answered := trace;
      if reply.Fault? {
        res := Failed(reply.error);
        Release(p, res);
        return;
      }

      var duration := GOOD_TTL;
      var response := reply.response;
      if response.body.Unparsable? || !IsStatusCodeAcceptable(response.code) || response.body.errors != [] {
        duration := BAD_TTL;
      }
      assert duration == Duration(response) by {
        DurationOf(response);
      }
      Store(p, response, duration);
      ghost var stored := trace;
      res := Fresh(response);
      Release(p, res);
      ghost var k: nat := |stored| - 1;
      assert trace[..k + 1] == stored[..k + 1];
      assert trace[|answered| - 1] == SupplierReply(p, reply) && IsStoreOf(k, p, response);
    }

    method CheckContext(p: Pid) returns (done: bool)
      requires Valid() && p in procs && procs[p].Checking?
      modifies this, redis
      ensures Since(p, old(trace)) && procs[p] == if done then Finished(Canceled) else Fetching
    {
      Interfere(p);
      done := *;
      ghost var l := if done then Cancel(p) else Proceed(p);
      Continue(p, if done then Finished(Canceled) else Fetching, Snapshot(), l);
    }

    ghost predicate WasAnswered(r: Response)
      reads this
    {
      exists i: nat, k: nat, a ::
        && AnsweredThenStored(trace, a, i, k)
        && r == Response(a.code, a.headers["x-trafficlight-grouping-hit" := ["hit"]], a.body)
    }

    lemma HitWasAnswered(p: Pid, r: Response)
      requires Valid() && trace != [] && trace[|trace| - 1] == FetchHit(p)
      requires p in procs && procs[p] == Finished(Cached(r))
      ensures WasAnswered(r)
    {
      var h := |trace| - 1;
      assert trace[..h + 1] == trace;
      hide IsBad, Initial;
      var i, k, a := BoundedStaleness(init, trace, h);
    }

    /** GET, and on a hit the marked response. */
    method Fetch(p: Pid) returns (cached: Option<Response>, err: bool)
      requires Valid() && p in procs && procs[p].Fetching?
      modifies this, redis
      ensures Since(p, old(trace))
      ensures procs[p] == if err then Bypassing
                          else if cached.Some? then Finished(Cached(cached.value)) else Locking
      ensures !err && cached.Some? ==> WasAnswered(cached.value)
      ensures trace != [] && trace[|trace| - 1]
              == if err then FetchError(p) else if cached.Some? then FetchHit(p) else FetchMiss(p)
    {
      Interfere(p);
      cached, err := redis.FetchResponse();
      if cached.Some? {
        var response := cached.value;
        cached := Some(response.(headers := response.headers[HIT_HEADER := ["hit"]]));
        Continue(p, Finished(Cached(cached.value)), Snapshot(), FetchHit(p));
        HitWasAnswered(p, cached.value);
      } else {
        Continue(p, if err then Bypassing else Locking, Snapshot(), if err then FetchError(p) else FetchMiss(p));
      }
    }

    /** SETNX: a process goes on to the supplier when it wins and when Redis fails. */
    method TryLock(p: Pid) returns (enter: bool)
      requires Valid() && p in procs && procs[p].Locking?
      modifies this, redis
      ensures Valid() && p in procs && old(trace) <= trace
      ensures enter <==> procs[p].Requesting?
      ensures !enter ==> procs[p] == Sleeping(redis.now + 400)
      ensures trace != [] && if enter then Starts(trace[|trace| - 1]) && trace[|trace| - 1].p == p
                             else trace[|trace| - 1] == LockLose(p)
      ensures FailedPolls(trace, p) == FailedPolls(old(trace), p) + if enter then 0 else 1
    {
      Interfere(p);
      ghost var s := Snapshot();
      var canMakeTheRequest, err, applied := redis.AcquireLock();
      enter := err || canMakeTheRequest;
      ghost var l := if err then LockError(p, applied) else if canMakeTheRequest then LockWin(p) else LockLose(p);
      Continue(p, if enter then Requesting else Sleeping(redis.now + POLL_INTERVAL), s, l);
    }

    method Sleep(p: Pid)
      requires Valid() && p in procs && procs[p].Sleeping?
      modifies this, redis
      ensures Since(p, old(trace)) && procs[p] == Checking
    {
      Interfere(p);
      if redis.now < procs[p].until {
        TakeStep(Tick(procs[p].until - redis.now));
      }
      Continue(p, Checking, Snapshot(), Wake(p));
    }

    lemma PollsBounded(p: Pid)
      requires Valid() && p in procs
      ensures FailedPolls(trace, p) <= 150 * (|init.procs| - 1)
    {
      BoundedWaiting(init, trace, p);
    }

    /** One request from its first check to its result. It always ends: the failed polls it can
        still make are bounded. A cached result is an answer the supplier gave earlier in the run
        and some process stored; any other response is this process's own. */
    method RequestOrWait(p: Pid) returns (res: Result)
      requires Valid() && p in procs && procs[p].Checking?
      modifies this, redis
      ensures Valid() && p in procs && procs[p] == Finished(res) && old(trace) <= trace
      ensures FailedPolls(trace, p) <= 150 * (|init.procs| - 1)
      ensures match res
              case Cached(r) => WasAnswered(r)
              case Fresh(r) => SupplierReply(p, Answer(r)) in trace
              case Failed(e) => SupplierReply(p, Fault(e)) in trace
              case Bypassed(reply) => SupplierReply(p, reply) in trace
              case Canceled => true
              case Crashed => false
      decreases 150 * (|init.procs| - 1) - FailedPolls(trace, p)
    {
      hide Valid, FailedPolls, WasAnswered;
      PollsBounded(p);
      var done := CheckContext(p);
      if done {
        return Canceled;
      }
      var cached, err := Fetch(p);
      if err {
        var reply := CallRequester(p);
        return Bypassed(reply);
      }
      if cached.Some? {
        return Cached(cached.value);
      }
      var enter := TryLock(p);
      if enter {
        res := RequestSupplierAndStore(p);
        return;
      }
      Sleep(p);
      PollsBounded(p);
      res := RequestOrWait(p);
    }
  }
}
