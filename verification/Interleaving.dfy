/** Merging of several ordered senders into one list. */
module Interleaving {

  function Concat<T>(parts: seq<seq<T>>): seq<T> {
    if parts == [] then [] else parts[0] + Concat(parts[1..])
  }

  /** The items of `merged` that came from sender `w`, in their order. */
  function Pick<T>(merged: seq<T>, senders: seq<nat>, w: nat): seq<T>
    requires |merged| == |senders|
  {
    if merged == [] then []
    else
      var n := |merged| - 1;
      Pick(merged[..n], senders[..n], w) + if senders[n] == w then [merged[n]] else []
  }

  /** `merged` holds every item of every part once, each part in its own order. */
  ghost predicate Merges<T>(merged: seq<T>, senders: seq<nat>, parts: seq<seq<T>>) {
    && |merged| == |senders|
    && (forall i | 0 <= i < |senders| :: senders[i] < |parts|)
    && (forall w | 0 <= w < |parts| :: Pick(merged, senders, w) == parts[w])
  }

  ghost predicate IsInterleaving<T>(merged: seq<T>, parts: seq<seq<T>>) {
    exists senders :: Merges(merged, senders, parts)
  }

  lemma PickSnoc<T>(merged: seq<T>, senders: seq<nat>, x: T, from: nat, w: nat)
    requires |merged| == |senders|
    ensures Pick(merged + [x], senders + [from], w)
         == if from == w then Pick(merged, senders, w) + [x] else Pick(merged, senders, w)
  {
    assert (merged + [x])[..|merged|] == merged && (senders + [from])[..|senders|] == senders;
  }

  ghost function Count<T>(xs: seq<T>, x: T): nat {
    multiset(xs)[x]
  }

  lemma {:induction false} ConcatUpdate<T>(parts: seq<seq<T>>, w: nat, part: seq<T>, x: T)
    requires w < |parts|
    ensures Count(Concat(parts[w := part]), x) + Count(parts[w], x) == Count(Concat(parts), x) + Count(part, x)
  {
    var updated := parts[w := part];
    ConcatHead(parts, x);
    ConcatHead(updated, x);
    hide Count, Concat;
    if w == 0 {
      assert updated[1..] == parts[1..];
    } else {
      ConcatUpdate(parts[1..], w - 1, part, x);
      assert updated[1..] == parts[1..][w - 1 := part] && parts[1..][w - 1] == parts[w];
    }
  }

  lemma ConcatHead<T>(parts: seq<seq<T>>, x: T)
    requires parts != []
    ensures Count(Concat(parts), x) == Count(parts[0], x) + Count(Concat(parts[1..]), x)
  {
  }

  lemma SnocCount<T>(xs: seq<T>, y: T, x: T)
    ensures Count(xs + [y], x) == Count(xs, x) + if x == y then 1 else 0
  {
  }

  lemma LastCount<T>(xs: seq<T>, x: T)
    requires xs != []
    ensures Count(xs, x) == Count(xs[..|xs| - 1], x) + if x == xs[|xs| - 1] then 1 else 0
  {
    assert xs == xs[..|xs| - 1] + [xs[|xs| - 1]];
  }

  lemma {:induction false} ConcatEmpty<T>(parts: seq<seq<T>>)
    requires forall i | 0 <= i < |parts| :: parts[i] == []
    ensures Concat(parts) == []
  {
    if parts != [] {
      ConcatEmpty(parts[1..]);
    }
  }

  /** Without its last item, a merged list merges the parts without that item. */
  lemma MergesFront<T>(merged: seq<T>, senders: seq<nat>, parts: seq<seq<T>>) returns (part: seq<T>)
    requires Merges(merged, senders, parts) && merged != []
    ensures var n := |merged| - 1;
            && parts[senders[n]] == part + [merged[n]]
            && Merges(merged[..n], senders[..n], parts[senders[n] := part])
  {
    var n := |merged| - 1;
    part := Pick(merged[..n], senders[..n], senders[n]);
  }

  lemma ConcatFront<T>(parts: seq<seq<T>>, w: nat, part: seq<T>, y: T, x: T)
    requires w < |parts| && parts[w] == part + [y]
    ensures Count(Concat(parts), x) == Count(Concat(parts[w := part]), x) + if x == y then 1 else 0
  {
    hide Concat, Count;
    ConcatUpdate(parts, w, part, x);
    SnocCount(part, y, x);
  }

  lemma MergesNothing<T>(senders: seq<nat>, parts: seq<seq<T>>)
    requires Merges([], senders, parts)
    ensures Concat(parts) == []
  {
    forall w | 0 <= w < |parts| ensures parts[w] == [] {
      assert Pick<T>([], senders, w) == [];
    }
    ConcatEmpty(parts);
  }

  lemma {:induction false} MergesCounts<T>(merged: seq<T>, senders: seq<nat>, parts: seq<seq<T>>, x: T)
    requires Merges(merged, senders, parts)
    ensures Count(merged, x) == Count(Concat(parts), x)
  {
    if merged == [] {
      MergesNothing(senders, parts);
    } else {
      hide Concat, Pick, Count;
      var n := |merged| - 1;
      var part := MergesFront(merged, senders, parts);
      LastCount(merged, x);
      ConcatFront(parts, senders[n], part, merged[n], x);
      MergesCounts(merged[..n], senders[..n], parts[senders[n] := part], x);
    }
  }

  lemma {:induction false} ConcatSnoc<T>(parts: seq<seq<T>>, part: seq<T>)
    ensures Concat(parts + [part]) == Concat(parts) + part
  {
    if parts != [] {
      ConcatSnoc(parts[1..], part);
      assert (parts + [part])[1..] == parts[1..] + [part];
    }
  }

  /** Parts of at most one item make up as many items as there are nonempty parts. */
  lemma {:induction false} ConcatCounts<T>(parts: seq<seq<T>>)
    requires forall i | 0 <= i < |parts| :: |parts[i]| <= 1
    ensures |Concat(parts)| == |set i | 0 <= i < |parts| && parts[i] != []|
  {
    if parts != [] {
      var n := |parts| - 1;
      ConcatCounts(parts[..n]);
      ConcatSnoc(parts[..n], parts[n]);
      assert parts == parts[..n] + [parts[n]];
      hide Concat;
      NonemptySnoc(parts[..n], parts[n]);
    }
  }

  lemma NonemptySnoc<T>(parts: seq<seq<T>>, part: seq<T>)
    ensures var longer := parts + [part];
            |set i | 0 <= i < |longer| && longer[i] != []|
            == |set i | 0 <= i < |parts| && parts[i] != []| + if part == [] then 0 else 1
  {
    var longer := parts + [part];
    var before, after := set i | 0 <= i < |parts| && parts[i] != [], set i | 0 <= i < |longer| && longer[i] != [];
    assert after == before + if part == [] then {} else {|parts|};
  }

  /** An interleaving is a permutation of all the parts together. */
  lemma MergesPermutes<T(!new)>(merged: seq<T>, senders: seq<nat>, parts: seq<seq<T>>)
    requires Merges(merged, senders, parts)
    ensures multiset(merged) == multiset(Concat(parts))
  {
    forall x: T ensures multiset(merged)[x] == multiset(Concat(parts))[x] {
      MergesCounts(merged, senders, parts, x);
    }
  }
}
