/** The lists of extra and tax codes of an AnyRent booking: printed codes joined by commas. */
module CodeList {
  import opened Wrappers
  import opened Text

  datatype BookingExtraOrFee = BookingExtraOrFee(code: string, isExtra: bool, quantity: Option<int>)

  function Quantity(e: BookingExtraOrFee): int {
    e.quantity.GetOr(1)
  }

  /** strings.Repeat panics on a negative count. */
  predicate NonNegative(items: seq<BookingExtraOrFee>) {
    forall e <- items :: Quantity(e) >= 0
  }

  function Repeat<T>(x: T, n: nat): seq<T> {
    if n == 0 then [] else Repeat(x, n - 1) + [x]
  }

  /** The codes of the extras (or of the others), in order, each as often as its quantity says. */
  function Codes(items: seq<BookingExtraOrFee>, extras: bool): seq<string>
    requires NonNegative(items)
  {
    if items == [] then []
    else
      var last := items[|items| - 1];
      Codes(items[..|items| - 1], extras) + if last.isExtra == extras then Repeat(last.code, Quantity(last)) else []
  }

  /** One more item adds its code as often as its quantity says, once without a quantity, to the
      list it belongs to. */
  lemma CodesGrow(items: seq<BookingExtraOrFee>, e: BookingExtraOrFee, extras: bool)
    requires NonNegative(items) && (e.quantity.Some? ==> e.quantity.value >= 0)
    ensures NonNegative(items + [e]) && Codes([], extras) == []
    ensures var before, after := Codes(items, extras), Codes(items + [e], extras);
            if e.isExtra == extras then
              && |after| == |before| + (if e.quantity.Some? then e.quantity.value else 1)
              && after[..|before|] == before
              && forall i | |before| <= i < |after| :: after[i] == e.code
            else
              after == before
  {
    assert (items + [e])[..|items|] == items;
    assert forall x <- items + [e] :: x in items || x == e;
    RepeatIs(e.code, Quantity(e));
  }

  /** Every code followed by a comma. */
  function Printed(codes: seq<string>): string {
    if codes == [] then "" else Printed(codes[..|codes| - 1]) + (codes[|codes| - 1] + ",")
  }

  function Copies(s: string, n: nat): string {
    if n == 0 then "" else Copies(s, n - 1) + s
  }

  function TrimRight(s: string, c: char): string {
    if s != "" && s[|s| - 1] == c then TrimRight(s[..|s| - 1], c) else s
  }

  /** The field of the request for a list of codes. */
  function Field(codes: seq<string>): Option<string> {
    if Printed(codes) == "" then None else Some(TrimRight(Printed(codes), ','))
  }

  lemma PrintedSnoc(codes: seq<string>, code: string)
    ensures Printed(codes + [code]) == Printed(codes) + (code + ",")
  {
    assert (codes + [code])[..|codes|] == codes;
  }

  lemma {:induction false} PrintedAppend(a: seq<string>, b: seq<string>)
    ensures Printed(a + b) == Printed(a) + Printed(b)
  {
    if b == [] {
      assert a + b == a;
    } else {
      var front, x := b[..|b| - 1], b[|b| - 1];
      PrintedAppend(a, front);
      PrintedSnoc(a + front, x);
      PrintedSnoc(front, x);
      hide Printed;
      assert b == front + [x] && a + b == a + front + [x];
    }
  }

  /** Printing a code n times is n copies of its text. */
  lemma {:induction false} PrintedRepeat(code: string, n: nat)
    ensures Printed(Repeat(code, n)) == Copies(code + ",", n)
  {
    if n > 0 {
      PrintedRepeat(code, n - 1);
      PrintedSnoc(Repeat(code, n - 1), code);
    }
  }

  method RepeatString(s: string, n: nat) returns (r: string)
    ensures r == Copies(s, n)
  {
    r := "";
    for i := 0 to n
      invariant r == Copies(s, i)
    {
      r := r + s;
    }
  }

  /** requestBody, as far as the two lists are concerned. */
  method RequestBody(items: Option<seq<BookingExtraOrFee>>) returns (extraList: Option<string>, taxList: Option<string>)
    requires items.Some? ==> NonNegative(items.value)
    ensures extraList == Field(Codes(items.GetOr([]), true))
    ensures taxList == Field(Codes(items.GetOr([]), false))
  {
    var extras, taxes := "", "";
    if items.Some? {
      var list := items.value;
      for i := 0 to |list|
        invariant extras == Printed(Codes(list[..i], true))
        invariant taxes == Printed(Codes(list[..i], false))
      {
        var extra := list[i];
        assert list[..i + 1][..i] == list[..i];
        var quantity := 1;
        if extra.quantity.Some? {
          quantity := extra.quantity.value;
        }
        assert quantity == Quantity(extra) && extra in list;
        var codes := RepeatString(extra.code + ",", quantity);
        PrintedRepeat(extra.code, quantity);
        PrintedAppend(Codes(list[..i], true), Repeat(extra.code, quantity));
        PrintedAppend(Codes(list[..i], false), Repeat(extra.code, quantity));
        assert Codes(list[..i], true) + [] == Codes(list[..i], true);
        assert Codes(list[..i], false) + [] == Codes(list[..i], false);
        if extra.isExtra {
          extras := extras + codes;
        } else {
          taxes := taxes + codes;
        }
      }
      assert list[..|list|] == list;
    }
    extraList := None;
    if extras != "" {
      extraList := Some(TrimRight(extras, ','));
    }
    taxList := None;
    if taxes != "" {
      taxList := Some(TrimRight(taxes, ','));
    }
  }

  // ---- What the receiver can recover

  /** The receiver reads no field as no code, and any other field piece by piece. */
  function Recovered(field: Option<string>): seq<string> {
    if field.None? then [] else Split(field.value, ',')
  }

  lemma {:induction false} PrintedIsJoined(codes: seq<string>)
    requires codes != []
    ensures Printed(codes) == Join(codes, ',') + ","
  {
    if |codes| == 1 {
      assert codes[..0] == [];
    } else {
      var n := |codes| - 1;
      PrintedIsJoined(codes[..n]);
      JoinSnoc(codes[..n], codes[n]);
      assert codes == codes[..n] + [codes[n]];
    }
  }

  lemma {:induction false} JoinSnoc(parts: seq<string>, part: string)
    requires parts != []
    ensures Join(parts + [part], ',') == Join(parts, ',') + "," + part
  {
    if |parts| > 1 {
      JoinSnoc(parts[1..], part);
      assert (parts + [part])[1..] == parts[1..] + [part];
    } else {
      assert (parts + [part])[1..] == [part];
    }
  }

  lemma {:induction false} Trimmed(s: string, c: char)
    ensures var t := TrimRight(s, c); t <= s && (t == "" || t[|t| - 1] != c)
    ensures s == "" || s[|s| - 1] != c ==> TrimRight(s, c) == s
  {
    if s != "" && s[|s| - 1] == c {
      Trimmed(s[..|s| - 1], c);
    }
  }

  lemma TrimOne(s: string)
    ensures TrimRight(s + ",", ',') == TrimRight(s, ',')
  {
    assert (s + ",")[..|s|] == s;
  }

  lemma JoinEnd(codes: seq<string>)
    requires codes != []
    ensures codes[|codes| - 1] != "" ==>
              Join(codes, ',') != ""
              && Join(codes, ',')[|Join(codes, ',')| - 1] == codes[|codes| - 1][|codes[|codes| - 1]| - 1]
    ensures |codes| > 1 && codes[|codes| - 1] == "" ==>
              Join(codes, ',') != "" && Join(codes, ',')[|Join(codes, ',')| - 1] == ','
  {
    if |codes| > 1 {
      var n := |codes| - 1;
      JoinSnoc(codes[..n], codes[n]);
      assert codes == codes[..n] + [codes[n]];
    }
  }

  /** Lists that survive printing: no code holds a comma, and the last one is not empty unless
      it is the only one. */
  predicate Survives(codes: seq<string>) {
    AllFree(codes, ',') && (|codes| <= 1 || codes[|codes| - 1] != "")
  }

  /** Splitting the field gives back the codes exactly for the lists that survive. */
  lemma RoundTrip(codes: seq<string>)
    ensures Recovered(Field(codes)) == codes <==> Survives(codes)
    ensures Field(codes).None? <==> codes == []
  {
    if codes != [] {
      PrintedIsJoined(codes);
      var joined := Join(codes, ',');
      TrimOne(joined);
      Trimmed(joined, ',');
      JoinEnd(codes);
      var field := TrimRight(joined, ',');
      SplitPartsAreFree(field, ',');
      JoinSplit(field, ',');
      if Survives(codes) {
        SplitJoin(codes, ',');
        assert codes[|codes| - 1] in codes;
      }
    }
  }

  lemma {:induction false} RepeatIs<T>(x: T, n: nat)
    ensures |Repeat(x, n)| == n && forall i | 0 <= i < n :: Repeat(x, n)[i] == x
  {
    if n > 0 {
      RepeatIs(x, n - 1);
    }
  }

  function TotalQuantity(items: seq<BookingExtraOrFee>, extras: bool): int {
    if items == [] then 0
    else
      var last := items[|items| - 1];
      TotalQuantity(items[..|items| - 1], extras) + if last.isExtra == extras then Quantity(last) else 0
  }

  predicate GoodCodes(items: seq<BookingExtraOrFee>) {
    forall e <- items :: e.code != "" && ',' !in e.code
  }

  lemma {:induction false} CodesOf(items: seq<BookingExtraOrFee>, extras: bool)
    requires NonNegative(items)
    ensures |Codes(items, extras)| == TotalQuantity(items, extras)
    ensures GoodCodes(items) ==> forall code <- Codes(items, extras) :: code != "" && ',' !in code
  {
    if items != [] {
      var front, last := items[..|items| - 1], items[|items| - 1];
      CodesOf(front, extras);
      assert last in items;
      RepeatIs(last.code, Quantity(last));
    }
  }

  /** With nonempty comma-free codes the receiver recovers the extras (or the taxes) in order,
      each as often as its quantity says, and the field is absent exactly when that total is 0. */
  lemma BookingRoundTrip(items: seq<BookingExtraOrFee>, extras: bool)
    requires NonNegative(items)
    ensures GoodCodes(items) ==> Recovered(Field(Codes(items, extras))) == Codes(items, extras)
    ensures Field(Codes(items, extras)).None? <==> TotalQuantity(items, extras) == 0
  {
    CodesOf(items, extras);
    var codes := Codes(items, extras);
    hide Codes, TotalQuantity, Recovered, Field, NonNegative;
    RoundTrip(codes);
    assert codes != [] ==> codes[|codes| - 1] in codes;
  }
}
