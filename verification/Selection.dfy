/** Picking items of a list by ascending positions. */
module Selection {

  /** Positions below `n`, each once and in order. */
  predicate Ascending(from: seq<nat>, n: nat) {
    && (forall j | 0 <= j < |from| :: from[j] < n)
    && (forall j, k | 0 <= j < k < |from| :: from[j] < from[k])
  }

  /** The positions of the raised flags, among the first `n`. */
  function Raised(flags: seq<bool>, n: nat): seq<nat>
    requires n <= |flags|
  {
    if n == 0 then [] else Raised(flags, n - 1) + if flags[n - 1] then [n - 1] else []
  }

  lemma RaisedStep(flags: seq<bool>, n: nat)
    requires n < |flags|
    ensures Raised(flags, 0) == []
    ensures Raised(flags, n + 1) == if flags[n] then Raised(flags, n) + [n] else Raised(flags, n)
  {
    assert Raised(flags, n) + [] == Raised(flags, n);
  }

  lemma RaisedAscends(flags: seq<bool>, n: nat)
    requires n <= |flags|
    ensures Ascending(Raised(flags, n), n)
    ensures forall i: nat | i < n :: i in Raised(flags, n) <==> flags[i]
  {
    RaisedInOrder(flags, n);
    forall i: nat | i < n ensures i in Raised(flags, n) <==> flags[i] {
      RaisedHas(flags, n, i);
    }
  }

  lemma {:induction false} RaisedInOrder(flags: seq<bool>, n: nat)
    requires n <= |flags|
    ensures Ascending(Raised(flags, n), n)
  {
    if n > 0 {
      RaisedInOrder(flags, n - 1);
    }
  }

  lemma {:induction false} RaisedHas(flags: seq<bool>, n: nat, i: nat)
    requires i < n <= |flags|
    ensures i in Raised(flags, n) <==> flags[i]
  {
    RaisedInOrder(flags, n - 1);
    if i < n - 1 {
      RaisedHas(flags, n - 1, i);
    }
  }
}
