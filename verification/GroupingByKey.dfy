/**
  Many keys in one Redis: the processes of all groups share a single keyspace, in which the lock
  of a group is stored under its key and its response under "res:" followed by the key.
  Seen through one key, a run of the whole system is a run of the single-key protocol.
  */
module GroupingByKey {
  import opened Wrappers
  import opened Grouping
  import opened GroupingKeys
  import opened GroupingSafety
  import opened GroupingCache

  datatype Cell = LockCell(expires: nat) | ResponseCell(stored: Stored)

  datatype Client = Client(key: string, pc: Pc)

  datatype Shared = Shared(now: nat, db: map<string, Cell>, clients: map<Pid, Client>)

  function CellExpiry(c: Cell): nat {
    if c.LockCell? then c.expires else c.stored.expires
  }

  /** What the commands on `key` and on its response key find. */
  function Observe(m: Shared, key: string, procs: map<Pid, Pc>): State {
    var res := ResponseKey(key);
    State(m.now,
          if key in m.db then Some(CellExpiry(m.db[key])) else None,
          if res in m.db && m.db[res].ResponseCell? then Some(m.db[res].stored) else None,
          procs)
  }

  function Project(m: Shared, key: string): State {
    Observe(m, key, map p | p in m.clients && m.clients[p].key == key :: m.clients[p].pc)
  }

  predicate SharedEnabled(m: Shared, l: Label) {
    l.Tick? ||
    (l.p in m.clients &&
     var c := m.clients[l.p];
     CanStep(Observe(m, c.key, map[]), l, c.pc) && (l.FetchMiss? ==> ResponseKey(c.key) !in m.db))
  }

  /** The writes on the keyspace: SETNX on the lock key, SET on the response key, DEL. */
  function SharedDb(m: Shared, l: Label): map<string, Cell>
    requires !l.Tick? && SharedEnabled(m, l)
  {
    var c := m.clients[l.p];
    match l
    case LockWin(_) => m.db[c.key := LockCell(m.now + LOCK_TTL)]
    case LockError(_, applied) =>
      if applied && c.key !in m.db then m.db[c.key := LockCell(m.now + LOCK_TTL)] else m.db
    case ReleaseLock(_, applied) => if applied then m.db - {c.key} else m.db
    case StoreResponse(_, applied) =>
      var r := c.pc.response;
      if applied then m.db[ResponseKey(c.key) := ResponseCell(Stored(r, m.now, m.now + Duration(r)))] else m.db
    case _ => m.db
  }

  function SharedApply(m: Shared, l: Label): Shared
    requires SharedEnabled(m, l)
  {
    if l.Tick? then
      var now := m.now + l.ms;
      Shared(now, map k | k in m.db && now < CellExpiry(m.db[k]) :: m.db[k], m.clients)
    else
      var c := m.clients[l.p];
      Shared(m.now, SharedDb(m, l),
             m.clients[l.p := Client(c.key, NextPc(Observe(m, c.key, map[]), l, c.pc))])
  }

  function SharedAfter(m: Shared, ls: seq<Label>): Option<Shared> {
    if ls == [] then Some(m)
    else
      var t := SharedAfter(m, ls[..|ls| - 1]);
      if t.Some? && SharedEnabled(t.value, ls[|ls| - 1]) then Some(SharedApply(t.value, ls[|ls| - 1])) else None
  }

  /** All clients work under lock names, and the keyspace is used accordingly. */
  ghost predicate Separate(m: Shared) {
    && (forall p <- m.clients :: IsLockName(m.clients[p].key))
    && (forall k <- m.db :: IsLockName(k) ==> m.db[k].LockCell?)
    && (forall k | IsLockName(k) && ResponseKey(k) in m.db :: m.db[ResponseKey(k)].ResponseCell?)
  }

  lemma NamesApart(k: string, n: string)
    requires IsLockName(k) && IsLockName(n)
    ensures ResponseKey(k) != n && !IsLockName(ResponseKey(k))
    ensures ResponseKey(k) == ResponseKey(n) ==> k == n
  {
    assert n[0] == 'g' && ResponseKey(k)[0] == 'r';
    assert ResponseKey(k)[4..] == k && ResponseKey(n)[4..] == n;
  }

  lemma SeparateStep(m: Shared, l: Label)
    requires Separate(m) && SharedEnabled(m, l)
    ensures Separate(SharedApply(m, l))
  {
    if !l.Tick? {
      var key := m.clients[l.p].key;
      forall k | IsLockName(k) ensures ResponseKey(k) != key && !IsLockName(ResponseKey(key)) {
        NamesApart(k, key);
      }
    }
  }

  /** A step of a client under another key is invisible through `key`. */
  lemma ForeignStep(m: Shared, l: Label, key: string)
    requires Separate(m) && IsLockName(key) && SharedEnabled(m, l)
    requires !l.Tick? && m.clients[l.p].key != key
    ensures Project(SharedApply(m, l), key) == Project(m, key)
  {
    NamesApart(key, m.clients[l.p].key);
    NamesApart(m.clients[l.p].key, key);
    assert Project(SharedApply(m, l), key).procs == Project(m, key).procs;
  }

  lemma OwnTick(m: Shared, l: Label, key: string)
    requires Separate(m) && IsLockName(key) && l.Tick?
    ensures Project(SharedApply(m, l), key) == Advance(Project(m, key), l.ms)
  {
    NamesApart(key, key);
    assert Project(SharedApply(m, l), key).procs == Project(m, key).procs;
  }

  lemma OwnWrites(m: Shared, l: Label, key: string)
    requires Separate(m) && IsLockName(key) && SharedEnabled(m, l) && !l.Tick? && m.clients[l.p].key == key
    ensures Enabled(Project(m, key), l)
    ensures Project(SharedApply(m, l), key).lock == NextLock(Project(m, key), l)
    ensures Project(SharedApply(m, l), key).cache == NextCache(Project(m, key), l)
  {
    NamesApart(key, key);
    hide NextPc;
  }

  /** A step under `key`, and the passing of time, is the same step of the single-key protocol. */
  lemma OwnStep(m: Shared, l: Label, key: string)
    requires Separate(m) && IsLockName(key) && SharedEnabled(m, l)
    requires l.Tick? || m.clients[l.p].key == key
    ensures Enabled(Project(m, key), l)
    ensures Project(SharedApply(m, l), key) == Apply(Project(m, key), l)
  {
    if l.Tick? {
      OwnTick(m, l, key);
    } else {
      OwnWrites(m, l, key);
      hide SharedDb, NextLock, NextCache;
      assert Project(SharedApply(m, l), key).procs == Apply(Project(m, key), l).procs;
    }
  }

  function OwnLabels(m: Shared, ls: seq<Label>, key: string): seq<Label> {
    if ls == [] then []
    else
      var l := ls[|ls| - 1];
      OwnLabels(m, ls[..|ls| - 1], key)
      + if l.Tick? || (l.p in m.clients && m.clients[l.p].key == key) then [l] else []
  }

  predicate SameKeys(m: Shared, t: Shared) {
    && m.clients.Keys == t.clients.Keys
    && forall p <- m.clients :: t.clients[p].key == m.clients[p].key
  }

  /** Key by key, a run over many keys projects onto runs of the single-key protocol. */
  lemma {:induction false} RunProjects(m: Shared, ls: seq<Label>, key: string)
    requires Separate(m) && IsLockName(key) && SharedAfter(m, ls).Some?
    ensures Separate(SharedAfter(m, ls).value) && SameKeys(m, SharedAfter(m, ls).value)
    ensures After(Project(m, key), OwnLabels(m, ls, key)) == Some(Project(SharedAfter(m, ls).value, key))
  {
    if ls != [] {
      var front, l := ls[..|ls| - 1], ls[|ls| - 1];
      RunProjects(m, front, key);
      var t := SharedAfter(m, front).value;
      SeparateStep(t, l);
      if l.Tick? || t.clients[l.p].key == key {
        OwnStep(t, l, key);
        Extend(Project(m, key), OwnLabels(m, front, key), l);
      } else {
        ForeignStep(t, l, key);
        assert OwnLabels(m, ls, key) == OwnLabels(m, front, key);
      }
    }
  }

  /** A run in which the requests of one group start fresh, whatever the other groups have stored
      in Redis before and wherever their requests are. */
  ghost predicate GroupStart(m: Shared, ls: seq<Label>, key: string) {
    Separate(m) && IsLockName(key) && Initial(Project(m, key)) && SharedAfter(m, ls).Some?
  }

  function Group(m: Shared, key: string): set<Pid> {
    set p | p in m.clients && m.clients[p].key == key
  }

  /** Each group keeps its own bounds, whatever the other groups do. Waiting is bounded by the
      number of requests for the same key. */
  lemma WaitingPerKey(m: Shared, ls: seq<Label>, key: string, p: Pid)
    requires GroupStart(m, ls, key) && p in Group(m, key)
    ensures FailedPolls(ls, p) <= 150 * (|Group(m, key)| - 1)
  {
    RunProjects(m, ls, key);
    var s0 := Project(m, key);
    assert s0.procs.Keys == Group(m, key) && |s0.procs| == |s0.procs.Keys|;
    BoundedWaiting(s0, OwnLabels(m, ls, key), p);
    OwnPolls(m, ls, key, p);
  }

  /** The clients of one group between SETNX and release. */
  function InsideGroup(m: Shared, key: string): set<Pid> {
    set p | p in m.clients && m.clients[p].key == key && IsInside(m.clients[p].pc)
  }

  /** Concurrency within a group is bounded by its own lock, expiries and SETNX errors. */
  lemma ConcurrencyPerKey(m: Shared, ls: seq<Label>, key: string)
    requires GroupStart(m, ls, key)
    ensures IsRun(Project(m, key), OwnLabels(m, ls, key))
    ensures |InsideGroup(SharedAfter(m, ls).value, key)|
         <= (if key in SharedAfter(m, ls).value.db then 1 else 0)
            + Expiries(Project(m, key), OwnLabels(m, ls, key)) + LockErrors(OwnLabels(m, ls, key))
  {
    RunProjects(m, ls, key);
    BoundedConcurrency(Project(m, key), OwnLabels(m, ls, key));
    assert InsideGroup(SharedAfter(m, ls).value, key) == Inside(Project(SharedAfter(m, ls).value, key));
  }

  /** Two processes of one group are between SETNX and release only after an expiry of their
      own lock or a SETNX error of their own group. */
  lemma ExclusionPerKey(m: Shared, ls: seq<Label>, key: string, p: Pid, q: Pid)
    requires GroupStart(m, ls, key) && p in Group(m, key) && q in Group(m, key) && p != q
    requires SharedAfter(m, ls).value.clients.Keys >= {p, q}
    requires IsInside(SharedAfter(m, ls).value.clients[p].pc) && IsInside(SharedAfter(m, ls).value.clients[q].pc)
    ensures IsRun(Project(m, key), OwnLabels(m, ls, key))
    ensures Expiries(Project(m, key), OwnLabels(m, ls, key)) > 0 || LockErrors(OwnLabels(m, ls, key)) > 0
  {
    RunProjects(m, ls, key);
    if Expiries(Project(m, key), OwnLabels(m, ls, key)) == 0 && LockErrors(OwnLabels(m, ls, key)) == 0 {
      MutualExclusion(Project(m, key), OwnLabels(m, ls, key), p, q);
    }
  }

  lemma {:induction false} OwnPolls(m: Shared, ls: seq<Label>, key: string, p: Pid)
    requires p in m.clients && m.clients[p].key == key
    ensures FailedPolls(OwnLabels(m, ls, key), p) == FailedPolls(ls, p)
  {
    if ls != [] {
      var front, l := ls[..|ls| - 1], ls[|ls| - 1];
      OwnPolls(m, front, key, p);
      var own := OwnLabels(m, front, key);
      assert (own + [l])[..|own|] == own && own + [] == own;
    }
  }

  // ---- Cache properties of one key

  lemma {:induction false} SharedPrefix(m: Shared, ls: seq<Label>, k: nat)
    requires SharedAfter(m, ls).Some? && k <= |ls|
    ensures SharedAfter(m, ls[..k]).Some?
  {
    if k == |ls| {
      assert ls[..k] == ls;
    } else {
      SharedPrefix(m, ls[..|ls| - 1], k);
      assert ls[..|ls| - 1][..k] == ls[..k];
    }
  }

  predicate IsOwn(m: Shared, l: Label, key: string) {
    l.Tick? || (l.p in m.clients && m.clients[l.p].key == key)
  }

  /** The response of the group stays in the keyspace, and none of its fetches fails. */
  predicate WarmKey(m: Shared, ls: seq<Label>, key: string) {
    && (forall k | 0 <= k <= |ls| ::
          var t := SharedAfter(m, ls[..k]); t.Some? && ResponseKey(key) in t.value.db)
    && (forall l <- ls :: IsOwn(m, l, key) ==> !l.FetchError?)
  }

  lemma WarmKeyFront(m: Shared, ls: seq<Label>, key: string)
    requires WarmKey(m, ls, key) && ls != []
    ensures WarmKey(m, ls[..|ls| - 1], key)
    ensures SharedAfter(m, ls).Some? && ResponseKey(key) in SharedAfter(m, ls).value.db
  {
    var front := ls[..|ls| - 1];
    forall k | 0 <= k <= |front| ensures front[..k] == ls[..k] {
    }
    assert ls[..|ls|] == ls;
  }

  lemma {:induction false} WarmProjects(m: Shared, ls: seq<Label>, key: string)
    requires Separate(m) && IsLockName(key) && WarmKey(m, ls, key)
    ensures Warm(Project(m, key), OwnLabels(m, ls, key))
  {
    var s := Project(m, key);
    if ls == [] {
      assert ls[..0] == [];
      assert OwnLabels(m, ls, key) == [];
    } else {
      var front, l := ls[..|ls| - 1], ls[|ls| - 1];
      WarmKeyFront(m, ls, key);
      WarmProjects(m, front, key);
      RunProjects(m, front, key);
      RunProjects(m, ls, key);
      var t := SharedAfter(m, front).value;
      assert l in ls;
      hide Warm, Apply, Enabled;
      if IsOwn(m, l, key) {
        OwnStep(t, l, key);
        WarmSnoc(s, OwnLabels(m, front, key), l);
      } else {
        assert OwnLabels(m, ls, key) == OwnLabels(m, front, key) + [] == OwnLabels(m, front, key);
      }
    }
  }

  /** While the response of a group stays in Redis, the supplier calls of the group that start,
      and its misses still pending, are at most its misses pending before. */
  lemma NearSingleFlightPerKey(m: Shared, ls: seq<Label>, key: string)
    requires Separate(m) && IsLockName(key) && WarmKey(m, ls, key)
    ensures SharedAfter(m, ls).Some?
    ensures SupplierCalls(OwnLabels(m, ls, key)) + |Missed(Project(SharedAfter(m, ls).value, key))|
         <= |Missed(Project(m, key))|
  {
    assert ls[..|ls|] == ls;
    WarmProjects(m, ls, key);
    RunProjects(m, ls, key);
    NearSingleFlight(Project(m, key), OwnLabels(m, ls, key));
  }

  lemma OwnSnoc(m: Shared, ls: seq<Label>, key: string)
    requires ls != []
    ensures OwnLabels(m, ls, key)
         == OwnLabels(m, ls[..|ls| - 1], key) + if IsOwn(m, ls[|ls| - 1], key) then [ls[|ls| - 1]] else []
  {
  }

  /** Where a step of the run under one key is found in the shared run. */
  lemma {:induction false} OwnIndex(m: Shared, ls: seq<Label>, key: string, j: nat) returns (i: nat)
    requires j < |OwnLabels(m, ls, key)|
    ensures i < |ls| && ls[i] == OwnLabels(m, ls, key)[j] && IsOwn(m, ls[i], key)
    ensures OwnLabels(m, ls[..i], key) == OwnLabels(m, ls, key)[..j]
  {
    var front, l := ls[..|ls| - 1], ls[|ls| - 1];
    OwnSnoc(m, ls, key);
    hide OwnLabels;
    var own := OwnLabels(m, front, key);
    if j < |own| {
      i := OwnIndex(m, front, key, j);
      assert front[..i] == ls[..i];
    } else {
      i := |ls| - 1;
      assert own == OwnLabels(m, ls, key)[..j];
    }
  }

  /** And the other way round. */
  lemma {:induction false} OwnPosition(m: Shared, ls: seq<Label>, key: string, h: nat)
    requires h < |ls| && IsOwn(m, ls[h], key)
    ensures OwnLabels(m, ls[..h], key) + [ls[h]] == OwnLabels(m, ls[..h + 1], key) <= OwnLabels(m, ls, key)
  {
    OwnSnoc(m, ls[..h + 1], key);
    assert ls[..h + 1][..h] == ls[..h];
    if h + 1 == |ls| {
      assert ls[..h + 1] == ls;
    } else {
      OwnPosition(m, ls[..|ls| - 1], key, h);
      OwnSnoc(m, ls, key);
      assert ls[..|ls| - 1][..h] == ls[..h] && ls[..|ls| - 1][..h + 1] == ls[..h + 1];
    }
  }

  lemma {:induction false} OwnGrows(m: Shared, ls: seq<Label>, key: string, i: nat, k: nat)
    requires i <= k <= |ls|
    ensures |OwnLabels(m, ls[..i], key)| <= |OwnLabels(m, ls[..k], key)|
  {
    if i < k {
      OwnGrows(m, ls, key, i, k - 1);
      OwnSnoc(m, ls[..k], key);
      assert ls[..k][..k - 1] == ls[..k - 1];
    }
  }

  /** What one group sees of a prefix of the shared run. */
  lemma ProjectedPrefix(m: Shared, ls: seq<Label>, key: string, i: nat, j: nat)
    requires GroupStart(m, ls, key) && IsRun(Project(m, key), OwnLabels(m, ls, key))
    requires i <= |ls| && j <= |OwnLabels(m, ls, key)| && OwnLabels(m, ls[..i], key) == OwnLabels(m, ls, key)[..j]
    ensures SharedAfter(m, ls[..i]).Some?
    ensures At(Project(m, key), OwnLabels(m, ls, key), j) == Project(SharedAfter(m, ls[..i]).value, key)
  {
    SharedPrefix(m, ls, i);
    RunProjects(m, ls[..i], key);
  }

  /** The same hit in the run of the single-key protocol. */
  lemma ProjectedHit(m: Shared, ls: seq<Label>, key: string, h: nat)
    returns (i: nat, k: nat, own: seq<Label>, h': nat, r: Response)
    requires GroupStart(m, ls, key) && h < |ls| && ls[h].FetchHit? && ls[h].p in Group(m, key)
    ensures own == OwnLabels(m, ls, key) && IsRun(Project(m, key), own) && h' < |own|
    ensures own[..h'] == OwnLabels(m, ls[..h], key) && own[..h' + 1] == OwnLabels(m, ls[..h + 1], key)
    ensures k < h' && AnsweredThenStored(own, r, i, k)
    ensures ls[h].p in At(Project(m, key), own, h' + 1).procs
    ensures At(Project(m, key), own, h' + 1).procs[ls[h].p]
         == Finished(Cached(Response(r.code, r.headers["x-trafficlight-grouping-hit" := ["hit"]], r.body)))
    ensures var stored, fetched := At(Project(m, key), own, k).now, At(Project(m, key), own, h').now;
            && stored <= fetched
            && fetched - stored
               < if 200 <= r.code <= 299 && r.body.Rates? && r.body.errors == [] then 600_000 else 60_000
  {
    own, h' := OwnLabels(m, ls, key), |OwnLabels(m, ls[..h], key)|;
    RunProjects(m, ls, key);
    OwnPosition(m, ls, key, h);
    assert own[h'] == ls[h] && own[..h'] == OwnLabels(m, ls[..h], key);
    assert own[..h' + 1] == OwnLabels(m, ls[..h + 1], key);
    assert Initial(Project(m, key));
    hide *;
    i, k, r := BoundedStaleness(Project(m, key), own, h');
  }

  lemma OwnBefore(m: Shared, ls: seq<Label>, key: string, i: nat, k: nat)
    requires i <= |ls| && k <= |ls| && |OwnLabels(m, ls[..i], key)| < |OwnLabels(m, ls[..k], key)|
    ensures i < k
  {
    if k <= i {
      OwnGrows(m, ls, key, k, i);
    }
  }

  lemma FoundInShared(m: Shared, ls: seq<Label>, key: string, h: nat, r: Response, i': nat, k': nat)
    returns (i: nat, k: nat)
    requires h < |ls| && AnsweredThenStored(OwnLabels(m, ls, key), r, i', k')
    requires k' < |OwnLabels(m, ls[..h], key)|
    ensures k < h && AnsweredThenStored(ls, r, i, k) && ls[k].p in Group(m, key)
    ensures OwnLabels(m, ls[..k], key) == OwnLabels(m, ls, key)[..k']
  {
    i := OwnIndex(m, ls, key, i');
    k := OwnIndex(m, ls, key, k');
    hide OwnLabels;
    OwnBefore(m, ls, key, i, k);
    OwnBefore(m, ls, key, k, h);
  }

  lemma ProjectedClient(m: Shared, key: string, p: Pid)
    requires p in Project(m, key).procs
    ensures p in m.clients && m.clients[p] == Client(key, Project(m, key).procs[p])
  {
  }

  lemma ProjectedClock(m: Shared, key: string)
    ensures Project(m, key).now == m.now
  {
  }

  /** A hit of one group is an answer that a request of the same group received and stored earlier
      in the shared run, less than 10 minutes before the fetch, or less than 1 minute when it is a
      bad one. */
  lemma BoundedStalenessPerKey(m: Shared, ls: seq<Label>, key: string, h: nat)
    returns (i: nat, k: nat, r: Response)
    requires GroupStart(m, ls, key) && h < |ls| && ls[h].FetchHit?
    requires ls[h].p in Group(m, key)
    ensures k < h && AnsweredThenStored(ls, r, i, k) && ls[k].p in Group(m, key)
    ensures SharedAfter(m, ls[..k]).Some? && SharedAfter(m, ls[..h]).Some? && SharedAfter(m, ls[..h + 1]).Some?
    ensures ls[h].p in SharedAfter(m, ls[..h + 1]).value.clients
    ensures SharedAfter(m, ls[..h + 1]).value.clients[ls[h].p]
         == Client(key, Finished(Cached(Response(r.code, r.headers["x-trafficlight-grouping-hit" := ["hit"]], r.body))))
    ensures var stored, fetched := SharedAfter(m, ls[..k]).value.now, SharedAfter(m, ls[..h]).value.now;
            && stored <= fetched
            && fetched - stored
               < if 200 <= r.code <= 299 && r.body.Rates? && r.body.errors == [] then 600_000 else 60_000
  {
    hide *;
    var i', k', h': nat, own;
    i', k', own, h', r := ProjectedHit(m, ls, key, h);
    i, k := FoundInShared(m, ls, key, h, r, i', k');
    ProjectedPrefix(m, ls, key, k, k');
    ProjectedPrefix(m, ls, key, h, h');
    ProjectedPrefix(m, ls, key, h + 1, h' + 1);
    ProjectedClock(SharedAfter(m, ls[..k]).value, key);
    ProjectedClock(SharedAfter(m, ls[..h]).value, key);
    ProjectedClient(SharedAfter(m, ls[..h + 1]).value, key, ls[h].p);
  }
}
