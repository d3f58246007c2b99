/** Joining, splitting and lower-casing strings, as Go's `strings` package does. */
module Text {

  function Join(parts: seq<string>, sep: char): string {
    if |parts| == 0 then ""
    else if |parts| == 1 then parts[0]
    else parts[0] + [sep] + Join(parts[1..], sep)
  }

  function Split(s: string, sep: char): (parts: seq<string>)
    ensures parts != []
  {
    if s == "" then [""]
    else
      var rest := Split(s[1..], sep);
      if s[0] == sep then [""] + rest else [[s[0]] + rest[0]] + rest[1..]
  }

  predicate AllFree(parts: seq<string>, sep: char) {
    forall part <- parts :: sep !in part
  }

  /** The pieces of the parts, one part after the other. */
  function SplitAll(parts: seq<string>, sep: char): seq<string> {
    if parts == [] then [] else Split(parts[0], sep) + SplitAll(parts[1..], sep)
  }

  lemma {:induction false} SplitFree(s: string, sep: char)
    ensures Split(s, sep) == [s] <==> sep !in s
    ensures |Split(s, sep)| == 1 ==> sep !in s
  {
    if s != "" {
      SplitFree(s[1..], sep);
      assert s == [s[0]] + s[1..];
    }
  }

  lemma {:induction false} SplitAppend(a: string, b: string, sep: char)
    ensures Split(a + [sep] + b, sep) == Split(a, sep) + Split(b, sep)
  {
    if a == "" {
      SplitCons(sep, b, sep);
      assert a + [sep] + b == [sep] + b;
    } else {
      hide Split;
      var x, rest := a[0], a[1..];
      SplitAppend(rest, b, sep);
      FirstApart(a, [sep], b);
      SplitCons(x, rest + [sep] + b, sep);
      SplitCons(x, rest, sep);
      FirstOfTwo(x, Split(rest, sep), Split(b, sep));
    }
  }

  lemma FirstApart(a: string, m: string, b: string)
    requires a != ""
    ensures a + m + b == [a[0]] + (a[1..] + m + b) && a == [a[0]] + a[1..]
  {
  }

  lemma FirstOfTwo(x: char, a: seq<string>, b: seq<string>)
    requires a != []
    ensures [[x] + (a + b)[0]] + (a + b)[1..] == ([[x] + a[0]] + a[1..]) + b
    ensures [""] + (a + b) == ([""] + a) + b
  {
  }

  lemma SplitCons(c: char, s: string, sep: char)
    ensures Split([c] + s, sep)
         == if c == sep then [""] + Split(s, sep) else [[c] + Split(s, sep)[0]] + Split(s, sep)[1..]
  {
    assert ([c] + s)[1..] == s;
  }

  /** Splitting joined parts splits each of them. */
  lemma {:induction false} SplitJoinAll(parts: seq<string>, sep: char)
    requires parts != []
    ensures Split(Join(parts, sep), sep) == SplitAll(parts, sep)
  {
    if |parts| == 1 {
      assert SplitAll(parts[1..], sep) == [];
    } else {
      SplitJoinAll(parts[1..], sep);
      SplitAppend(parts[0], Join(parts[1..], sep), sep);
    }
  }

  /** The pieces are as many as the parts exactly when no part contains the separator. */
  lemma {:induction false} SplitAllFree(parts: seq<string>, sep: char)
    ensures |SplitAll(parts, sep)| >= |parts|
    ensures |SplitAll(parts, sep)| == |parts| <==> AllFree(parts, sep)
    ensures AllFree(parts, sep) ==> SplitAll(parts, sep) == parts
  {
    if parts != [] {
      SplitAllFree(parts[1..], sep);
      SplitFree(parts[0], sep);
      assert parts == [parts[0]] + parts[1..];
    }
  }

  /** Splitting undoes joining parts that do not contain the separator. */
  lemma SplitJoin(parts: seq<string>, sep: char)
    requires parts != [] && AllFree(parts, sep)
    ensures Split(Join(parts, sep), sep) == parts
  {
    SplitJoinAll(parts, sep);
    SplitAllFree(parts, sep);
  }

  lemma {:induction false} JoinAppend(a: seq<string>, b: seq<string>, sep: char)
    requires a != [] && b != []
    ensures Join(a + b, sep) == Join(a, sep) + [sep] + Join(b, sep)
  {
    if |a| == 1 {
      assert (a + b)[1..] == b;
    } else {
      JoinAppend(a[1..], b, sep);
      assert (a + b)[1..] == a[1..] + b;
      assert a[0] + [sep] + (Join(a[1..], sep) + [sep] + Join(b, sep))
          == a[0] + [sep] + Join(a[1..], sep) + [sep] + Join(b, sep);
    }
  }

  /** Parts that join to the same text can stand for each other inside a longer list. */
  lemma JoinInside(head: seq<string>, a: seq<string>, b: seq<string>, tail: seq<string>, sep: char)
    requires a != [] && b != [] && Join(a, sep) == Join(b, sep)
    ensures Join(head + a + tail, sep) == Join(head + b + tail, sep)
  {
    if tail == [] {
      assert head + a + tail == head + a && head + b + tail == head + b;
    } else {
      JoinAppend(head + a, tail, sep);
      JoinAppend(head + b, tail, sep);
    }
    if head == [] {
      assert head + a == a && head + b == b;
    } else {
      JoinAppend(head, a, sep);
      JoinAppend(head, b, sep);
    }
  }

  /** A separator inside part `i` lets text move to a neighbour: other parts, as many, join to
      the same text. */
  lemma ShiftSeparator(parts: seq<string>, i: nat, sep: char) returns (moved: seq<string>)
    requires i < |parts| && |parts| >= 2 && sep in parts[i]
    ensures |moved| == |parts| && Join(moved, sep) == Join(parts, sep)
    ensures |moved[i]| < |parts[i]|
  {
    var k :| 0 <= k < |parts[i]| && parts[i][k] == sep;
    var a, b := parts[i][..k], parts[i][k + 1..];
    assert parts[i] == a + [sep] + b;
    if i + 1 < |parts| {
      var c := parts[i + 1];
      assert Join([a + [sep] + b, c], sep) == Join([a, b + [sep] + c], sep) by {
        assert a + [sep] + b + [sep] + c == a + [sep] + (b + [sep] + c);
      }
      JoinInside(parts[..i], [a + [sep] + b, c], [a, b + [sep] + c], parts[i + 2..], sep);
      moved := parts[..i] + [a, b + [sep] + c] + parts[i + 2..];
      assert parts == parts[..i] + [a + [sep] + b, c] + parts[i + 2..];
    } else {
      var c := parts[i - 1];
      assert Join([c, a + [sep] + b], sep) == Join([c + [sep] + a, b], sep) by {
        assert c + [sep] + (a + [sep] + b) == c + [sep] + a + [sep] + b;
      }
      JoinInside(parts[..i - 1], [c, a + [sep] + b], [c + [sep] + a, b], [], sep);
      moved := parts[..i - 1] + [c + [sep] + a, b] + [];
      assert parts == parts[..i - 1] + [c, a + [sep] + b] + [];
    }
  }

  lemma {:induction false} SplitPartsAreFree(s: string, sep: char)
    ensures AllFree(Split(s, sep), sep)
  {
    if s != "" {
      SplitPartsAreFree(s[1..], sep);
      var rest := Split(s[1..], sep);
      forall part <- Split(s, sep) ensures sep !in part {
        assert part in rest || part == "" || part == [s[0]] + rest[0];
      }
    }
  }

  /** Joining undoes splitting. */
  lemma {:induction false} JoinSplit(s: string, sep: char)
    ensures Join(Split(s, sep), sep) == s
  {
    if s != "" {
      JoinSplit(s[1..], sep);
      var rest := Split(s[1..], sep);
      if s[0] == sep {
        assert ([""] + rest)[1..] == rest;
        assert "" + [sep] + s[1..] == s;
      } else {
        var first := [s[0]] + rest[0];
        assert ([first] + rest[1..])[1..] == rest[1..];
        assert s == [s[0]] + s[1..];
        if |rest| > 1 {
          assert first + [sep] + Join(rest[1..], sep) == [s[0]] + (rest[0] + [sep] + Join(rest[1..], sep));
        }
      }
    }
  }

  function Map(f: char -> char, s: string): string {
    seq(|s|, i requires 0 <= i < |s| => f(s[i]))
  }

  function MapAll(f: char -> char, parts: seq<string>): seq<string> {
    seq(|parts|, i requires 0 <= i < |parts| => Map(f, parts[i]))
  }

  /** Mapping characters commutes with joining when the separator is a fixed point. */
  lemma {:induction false} MapJoin(f: char -> char, parts: seq<string>, sep: char)
    requires f(sep) == sep
    ensures Map(f, Join(parts, sep)) == Join(MapAll(f, parts), sep)
  {
    if |parts| > 1 {
      MapJoin(f, parts[1..], sep);
      assert MapAll(f, parts)[1..] == MapAll(f, parts[1..]);
      var tail := Join(parts[1..], sep);
      assert Map(f, parts[0] + [sep] + tail) == Map(f, parts[0]) + [sep] + Map(f, tail);
    }
  }
}
