/** What the response key guarantees: near-single-flight and bounded staleness. */
module GroupingCache {
  import opened Grouping

  // ---- Near-single-flight

  /** A run segment throughout which the response key is present and no fetch errors. */
  predicate Warm(s: State, ls: seq<Label>) {
    && IsRun(s, ls)
    && (forall k | 0 <= k <= |ls| :: At(s, ls, k).cache.Some?)
    && (forall l <- ls :: !l.FetchError?)
  }

  lemma WarmPrefix(s: State, ls: seq<Label>)
    requires Warm(s, ls) && ls != []
    ensures Warm(s, ls[..|ls| - 1])
    ensures After(s, ls[..|ls| - 1]).value.cache.Some? && !ls[|ls| - 1].FetchMiss?
  {
    var front := ls[..|ls| - 1];
    PrefixIsRun(s, ls, |front|);
    forall k | 0 <= k <= |front| ensures At(s, front, k) == At(s, ls, k) {
      assert front[..k] == ls[..k];
    }
    assert front[..|front|] == front;
    assert At(s, front, |front|).cache.Some?;
  }

  lemma WarmSnoc(s: State, ls: seq<Label>, l: Label)
    requires Warm(s, ls) && Enabled(After(s, ls).value, l) && !l.FetchError?
    requires Apply(After(s, ls).value, l).cache.Some?
    ensures Warm(s, ls + [l])
  {
    hide Apply, Enabled;
    Extend(s, ls, l);
    var longer := ls + [l];
    forall k | 0 <= k <= |longer| ensures At(s, longer, k).cache.Some? {
      if k <= |ls| {
        assert longer[..k] == ls[..k] && At(s, ls, k).cache.Some?;
      } else {
        assert longer[..k] == longer;
      }
    }
  }

  lemma MissedStep(s: State, l: Label)
    requires Enabled(s, l) && !l.FetchMiss?
    ensures |Missed(Apply(s, l))| <= |Missed(s)|
    ensures l.LockWin? || l.LockError? ==> |Missed(Apply(s, l))| == |Missed(s)| - 1
  {
    var t := Apply(s, l);
    if l.LockWin? || l.LockError? {
      assert Missed(t) == Missed(s) - {l.p};
    } else if l.Tick? {
      assert Missed(t) == Missed(s);
    } else {
      assert Missed(t) == if s.procs[l.p].Locking? then Missed(s) - {l.p} else Missed(s);
    }
  }

  /** While the response key stays present, the supplier calls that start are paid for by
      processes that had already missed and not reached SETNX. */
  lemma {:induction false} NearSingleFlight(s: State, ls: seq<Label>)
    requires Warm(s, ls)
    ensures SupplierCalls(ls) + |Missed(After(s, ls).value)| <= |Missed(s)|
  {
    if ls != [] {
      var front, l := ls[..|ls| - 1], ls[|ls| - 1];
      WarmPrefix(s, ls);
      NearSingleFlight(s, front);
      MissedStep(After(s, front).value, l);
      assert l in ls;
    }
  }

  predicate IsFetch(l: Label) {
    l.FetchError? || l.FetchHit? || l.FetchMiss?
  }

  /** Every fetch inside such a segment ends its process with the cached response. */
  lemma WarmFetchHits(s: State, ls: seq<Label>, k: nat)
    requires Warm(s, ls) && k < |ls| && IsFetch(ls[k])
    ensures ls[k].p in At(s, ls, k + 1).procs
    ensures At(s, ls, k + 1).procs[ls[k].p]
         == var r := At(s, ls, k).cache.value.response;
            Finished(Cached(Response(r.code, r.headers["x-trafficlight-grouping-hit" := ["hit"]], r.body)))
  {
    PrefixIsRun(s, ls, k + 1);
    assert ls[..k + 1][..k] == ls[..k];
    assert ls[k] in ls;
    assert At(s, ls, k).cache.Some?;
  }

  // ---- Bounded staleness

  /** Step `i` of the run is an answer `r` of the requester, step `k` a later store of that answer
      by the same process: one that SETNX let through, by succeeding or by failing. */
  predicate AnsweredThenStored(ls: seq<Label>, r: Response, i: nat, k: nat) {
    && i < k < |ls|
    && ls[i].SupplierReply? && ls[i].reply == Answer(r)
    && ls[k] == StoreResponse(ls[i].p, true)
  }

  /** A process about to store holds an answer the requester gave it earlier. */
  lemma {:induction false} StoringAnAnswer(s0: State, ls: seq<Label>, p: Pid) returns (i: nat)
    requires Initial(s0) && IsRun(s0, ls)
    requires p in After(s0, ls).value.procs && After(s0, ls).value.procs[p].Storing?
    ensures i < |ls| && ls[i] == SupplierReply(p, Answer(After(s0, ls).value.procs[p].response))
  {
    var front, l := ls[..|ls| - 1], ls[|ls| - 1];
    var s := After(s0, front).value;
    if !l.Tick? && l.p == p {
      i := |ls| - 1;
    } else {
      i := StoringAnAnswer(s0, front, p);
    }
  }

  /** The response key holds an error-free answer stored at a step of the run, with the expiry
      that answer deserves. */
  lemma {:induction false} CacheProvenance(s0: State, ls: seq<Label>) returns (i: nat, k: nat)
    requires Initial(s0) && IsRun(s0, ls) && After(s0, ls).value.cache.Some?
    ensures var c := After(s0, ls).value.cache.value;
            && AnsweredThenStored(ls, c.response, i, k)
            && At(s0, ls, k).now == c.storedAt <= After(s0, ls).value.now < c.expires
            && c.expires == c.storedAt + Duration(c.response)
            && c.expires - c.storedAt
               == if 200 <= c.response.code <= 299 && c.response.body.Rates? && c.response.body.errors == []
                  then 600_000 else 60_000
  {
    var front, l := ls[..|ls| - 1], ls[|ls| - 1];
    var s := After(s0, front).value;
    if l.StoreResponse? && l.applied {
      i := StoringAnAnswer(s0, front, l.p);
      k := |ls| - 1;
    } else {
      i, k := CacheProvenance(s0, front);
      assert front[..k] == ls[..k];
    }
  }

  /** A hit at step `h`: its code and body, and its headers but for the hit marker, are those of
      an earlier error-free answer to a request for the same key, stored less than 10 minutes
      before the fetch when its code is 2xx and it parses without errors, else less than 1 minute. */
  lemma BoundedStaleness(s0: State, ls: seq<Label>, h: nat) returns (i: nat, k: nat, r: Response)
    requires Initial(s0) && IsRun(s0, ls) && h < |ls| && ls[h].FetchHit?
    ensures k < h && AnsweredThenStored(ls, r, i, k)
    ensures ls[h].p in At(s0, ls, h + 1).procs
    ensures At(s0, ls, h + 1).procs[ls[h].p]
         == Finished(Cached(Response(r.code, r.headers["x-trafficlight-grouping-hit" := ["hit"]], r.body)))
    ensures var stored, fetched := At(s0, ls, k).now, At(s0, ls, h).now;
            && stored <= fetched
            && fetched - stored
               < if 200 <= r.code <= 299 && r.body.Rates? && r.body.errors == [] then 600_000 else 60_000
  {
    PrefixIsRun(s0, ls, h + 1);
    assert ls[..h + 1][..h] == ls[..h];
    i, k := CacheProvenance(s0, ls[..h]);
    r := At(s0, ls, h).cache.value.response;
    assert ls[..h][..k] == ls[..k];
  }
}
