/** The cache keys of the grouping protocol, platform by platform. */
module GroupingKeys {
  import opened Wrappers
  import opened Text

  /** The part of a rates request every key is made of, dates and durations already printed. */
  datatype Trip = Trip(pickUpCode: string, dropOffCode: string, pickUpDate: string, minutes: string)

  datatype HertzFields = HertzFields(
    bookingAgent: Option<string>, cp: Option<string>, clubNumber: Option<string>,
    corpDiscountNmbr: Option<string>, promotionCode: Option<string>, rateQualifier: Option<string>,
    taco: Option<string>, tour: Option<string>, travelPurpose: Option<string>,
    vc: Option<string>, vn: Option<string>, vendorCode: string)

  datatype ProfitMaxFields = ProfitMaxFields(
    cp: Option<string>, rateQualifier: Option<string>, travelPurpose: Option<string>,
    vn: Option<string>, vendorCode: Option<string>, destination: string)

  datatype Query =
    | Hertz(trip: Trip, hertz: HertzFields)
    | ProfitMax(trip: Trip, profitMax: ProfitMaxFields)
    | BookingCom(trip: Trip, supplierName: string)

  function Codes(t: Trip): seq<string> {
    [t.pickUpCode, t.dropOffCode]
  }

  function Times(t: Trip): seq<string> {
    [t.pickUpDate, t.minutes]
  }

  function Platform(q: Query): string {
    match q
    case Hertz(_, _) => "supplier-hertz"
    case ProfitMax(_, _) => "supplier-profitmaxdht"
    case BookingCom(_, _) => "supplier-booking-com"
  }

  /** The pieces that come from the supplier's configuration, any text. */
  function Settings(q: Query): seq<string> {
    match q
    case Hertz(_, c) =>
      [c.bookingAgent.GetOr(""), c.cp.GetOr(""), c.clubNumber.GetOr(""), c.corpDiscountNmbr.GetOr(""),
       c.promotionCode.GetOr(""), c.rateQualifier.GetOr(""), c.taco.GetOr(""), c.tour.GetOr(""),
       c.travelPurpose.GetOr(""), c.vc.GetOr(""), c.vn.GetOr(""), c.vendorCode]
    case ProfitMax(_, c) =>
      [c.cp.GetOr(""), c.rateQualifier.GetOr(""), c.travelPurpose.GetOr(""), c.vn.GetOr(""),
       c.vendorCode.GetOr(""), c.destination]
    case BookingCom(_, name) => [name]
  }

  /** ProfitMax fills 13 places of an array of 19, so six empty pieces follow. */
  function Padding(q: Query): seq<string> {
    if q.ProfitMax? then ["", "", "", "", "", ""] else []
  }

  function Head(q: Query): seq<string> {
    ["grouping", Platform(q), "5"]
  }

  function Pieces(q: Query): seq<string> {
    Head(q) + Codes(q.trip) + Times(q.trip) + Settings(q) + Padding(q)
  }

  // ---- Printed dates and durations

  predicate AreDigits(s: string) {
    forall i | 0 <= i < |s| :: '0' <= s[i] <= '9'
  }

  function Number(digits: string): nat
    requires AreDigits(digits)
  {
    if digits == "" then 0 else 10 * Number(digits[..|digits| - 1]) + (digits[|digits| - 1] as int - '0' as int)
  }

  function DaysIn(year: nat, month: nat): nat {
    if month == 2 then if year % 4 == 0 && (year % 100 != 0 || year % 400 == 0) then 29 else 28
    else if month in {4, 6, 9, 11} then 30
    else 31
  }

  /** A date as time.DateOnly prints it: year, month and day with four, two and two digits. */
  predicate IsDate(s: string) {
    && |s| == 10 && s[4] == '-' && s[7] == '-'
    && AreDigits(s[..4]) && AreDigits(s[5..7]) && AreDigits(s[8..])
    && 1 <= Number(s[5..7]) <= 12
    && 1 <= Number(s[8..]) <= DaysIn(Number(s[..4]), Number(s[5..7]))
  }

  /** The longest time.Duration, in minutes. */
  const MAX_MINUTES: nat := 153_722_867

  /** A number of minutes as "%.0f" prints it; small negative ones give "-0". */
  predicate IsMinutes(s: string) {
    var digits := if s != "" && s[0] == '-' then s[1..] else s;
    && digits != "" && AreDigits(digits) && Number(digits) <= MAX_MINUTES
    && (digits[0] == '0' ==> |digits| == 1)
  }

  /** Queries as they come: a date and a duration between two times, and any other text. */
  predicate WellFormed(q: Query) {
    IsDate(q.trip.pickUpDate) && IsMinutes(q.trip.minutes)
  }

  /** A character-by-character lower-casing: ASCII letters as usual, the rest free, except that
      nothing but the colon becomes a colon. */
  ghost predicate IsLowering(f: char -> char) {
    && (forall c: char :: c < 128 as char ==>
          f(c) == if 'A' <= c <= 'Z' then ((c as int) + 32) as char else c)
    && (forall c: char :: f(c) == ':' <==> c == ':')
  }

  function CacheKey(f: char -> char, q: Query): string {
    Map(f, Join(Pieces(q), ':'))
  }

  function ResponseKey(key: string): string {
    "res:" + key
  }

  predicate IsLockName(key: string) {
    "grouping:" <= key
  }

  /** Lower-casing leaves the text of the first two pieces alone. */
  lemma LowerCaseText(f: char -> char, q: Query)
    requires IsLowering(f)
    ensures Map(f, "grouping") == "grouping" && Map(f, Platform(q)) == Platform(q)
  {
    assert forall s: string, i | 0 <= i < |s| && 'a' <= s[i] <= 'z' :: Map(f, s)[i] == s[i];
  }

  lemma KeyBeginning(f: char -> char, q: Query)
    requires IsLowering(f)
    ensures "grouping:" + Platform(q) + ":" <= CacheKey(f, q)
  {
    var ps := MapAll(f, Pieces(q));
    MapJoin(f, Pieces(q), ':');
    LowerCaseText(f, q);
    JoinTwo(ps, ':');
    assert "grouping" + [':'] == "grouping:";
  }

  lemma JoinTwo(parts: seq<string>, sep: char)
    requires |parts| > 2
    ensures Join(parts, sep) == parts[0] + [sep] + parts[1] + [sep] + Join(parts[2..], sep)
  {
    assert parts[1..][1..] == parts[2..];
  }

  /** No response key is a lock key, response keys differ when lock keys do, and keys of
      different platforms never meet. */
  lemma KeysAreSeparate(f: char -> char, q: Query, r: Query)
    requires IsLowering(f)
    ensures IsLockName(CacheKey(f, q))
    ensures ResponseKey(CacheKey(f, q))[..4] == "res:" && ResponseKey(CacheKey(f, q))[4..] == CacheKey(f, q)
    ensures ResponseKey(CacheKey(f, q)) != CacheKey(f, r)
    ensures ResponseKey(CacheKey(f, q)) == ResponseKey(CacheKey(f, r)) <==> CacheKey(f, q) == CacheKey(f, r)
    ensures Platform(q) != Platform(r) ==> CacheKey(f, q) != CacheKey(f, r)
  {
    KeyBeginning(f, q);
    KeyBeginning(f, r);
    PlatformLetter(q, r);
    hide CacheKey, IsLowering, Platform;
    var k, n := CacheKey(f, q), CacheKey(f, r);
    var ks, ns := "grouping:" + Platform(q) + ":", "grouping:" + Platform(r) + ":";
    assert k[..|ks|] == ks && n[..|ns|] == ns;
    assert IsLockName(k) && k[18] == ks[18] == Platform(q)[9];
    assert IsLockName(n) && n[18] == ns[18] == Platform(r)[9];
    assert ResponseKey(k)[0] == 'r' && ResponseKey(k)[..4] == "res:" && ResponseKey(k)[4..] == k;
    assert ResponseKey(n)[4..] == n;
  }

  lemma PlatformLetter(q: Query, r: Query)
    ensures |Platform(q)| > 9 && |Platform(r)| > 9
    ensures Platform(q) != Platform(r) ==> Platform(q)[9] != Platform(r)[9]
  {
  }

  // ---- What a key determines

  lemma FreeAfterLowering(f: char -> char, parts: seq<string>)
    requires IsLowering(f)
    ensures AllFree(MapAll(f, parts), ':') <==> AllFree(parts, ':')
  {
    forall i | 0 <= i < |parts| ensures ':' in Map(f, parts[i]) <==> ':' in parts[i] {
      LoweredColon(f, parts[i]);
    }
    assert |MapAll(f, parts)| == |parts| && forall i | 0 <= i < |parts| :: MapAll(f, parts)[i] == Map(f, parts[i]);
  }

  lemma LoweredColon(f: char -> char, s: string)
    requires IsLowering(f)
    ensures ':' in Map(f, s) <==> ':' in s
  {
    assert forall i | 0 <= i < |s| :: Map(f, s)[i] == ':' <==> s[i] == ':';
    if ':' in s {
      var i :| 0 <= i < |s| && s[i] == ':';
      assert Map(f, s)[i] == ':';
    }
  }

  lemma SplitKey(f: char -> char, q: Query)
    requires IsLowering(f)
    ensures CacheKey(f, q) == Join(MapAll(f, Pieces(q)), ':')
    ensures Split(CacheKey(f, q), ':') == SplitAll(MapAll(f, Pieces(q)), ':')
  {
    MapJoin(f, Pieces(q), ':');
    SplitJoinAll(MapAll(f, Pieces(q)), ':');
  }

  lemma SamePlatform(f: char -> char, q: Query, r: Query)
    requires IsLowering(f) && CacheKey(f, q) == CacheKey(f, r)
    ensures Platform(q) == Platform(r) && |Pieces(q)| == |Pieces(r)|
    ensures q.BookingCom? <==> r.BookingCom?
  {
    KeysAreSeparate(f, q, r);
    assert Platform(q)[9] == Platform(r)[9];
  }

  /** When no piece of a query holds a colon, exactly the queries with its lower-cased pieces
      have its key, and splitting the key gives these pieces. */
  lemma KeyDeterminesPieces(f: char -> char, q: Query, r: Query)
    requires IsLowering(f) && AllFree(Pieces(q), ':')
    ensures CacheKey(f, q) == CacheKey(f, r) <==> MapAll(f, Pieces(q)) == MapAll(f, Pieces(r))
    ensures Split(CacheKey(f, q), ':') == MapAll(f, Pieces(q))
  {
    SplitKey(f, q);
    SplitKey(f, r);
    FreeAfterLowering(f, Pieces(q));
    SplitAllFree(MapAll(f, Pieces(q)), ':');
    SplitAllFree(MapAll(f, Pieces(r)), ':');
    if CacheKey(f, q) == CacheKey(f, r) {
      SamePlatform(f, q, r);
    }
  }

  /** What a Hertz key is made of; two queries share it exactly when all these fields, lower-cased,
      agree. */
  lemma HertzKeyFields(f: char -> char, q: Query, r: Query)
    requires IsLowering(f) && q.Hertz? && r.Hertz? && AllFree(Pieces(q), ':')
    ensures Split(CacheKey(f, q), ':')
         == ["grouping", "supplier-hertz", "5"]
            + ([Map(f, q.trip.pickUpCode), Map(f, q.trip.dropOffCode)]
            + ([Map(f, q.trip.pickUpDate), Map(f, q.trip.minutes)]
            + ([Map(f, q.hertz.bookingAgent.GetOr("")), Map(f, q.hertz.cp.GetOr("")),
               Map(f, q.hertz.clubNumber.GetOr("")), Map(f, q.hertz.corpDiscountNmbr.GetOr("")),
               Map(f, q.hertz.promotionCode.GetOr("")), Map(f, q.hertz.rateQualifier.GetOr("")),
               Map(f, q.hertz.taco.GetOr("")), Map(f, q.hertz.tour.GetOr("")),
               Map(f, q.hertz.travelPurpose.GetOr("")), Map(f, q.hertz.vc.GetOr("")),
               Map(f, q.hertz.vn.GetOr("")), Map(f, q.hertz.vendorCode)])))
    ensures CacheKey(f, q) == CacheKey(f, r) <==>
            && Map(f, q.trip.pickUpCode) == Map(f, r.trip.pickUpCode)
            && Map(f, q.trip.dropOffCode) == Map(f, r.trip.dropOffCode)
            && Map(f, q.trip.pickUpDate) == Map(f, r.trip.pickUpDate)
            && Map(f, q.trip.minutes) == Map(f, r.trip.minutes)
            && Map(f, q.hertz.bookingAgent.GetOr("")) == Map(f, r.hertz.bookingAgent.GetOr(""))
            && Map(f, q.hertz.cp.GetOr("")) == Map(f, r.hertz.cp.GetOr(""))
            && Map(f, q.hertz.clubNumber.GetOr("")) == Map(f, r.hertz.clubNumber.GetOr(""))
            && Map(f, q.hertz.corpDiscountNmbr.GetOr("")) == Map(f, r.hertz.corpDiscountNmbr.GetOr(""))
            && Map(f, q.hertz.promotionCode.GetOr("")) == Map(f, r.hertz.promotionCode.GetOr(""))
            && Map(f, q.hertz.rateQualifier.GetOr("")) == Map(f, r.hertz.rateQualifier.GetOr(""))
            && Map(f, q.hertz.taco.GetOr("")) == Map(f, r.hertz.taco.GetOr(""))
            && Map(f, q.hertz.tour.GetOr("")) == Map(f, r.hertz.tour.GetOr(""))
            && Map(f, q.hertz.travelPurpose.GetOr("")) == Map(f, r.hertz.travelPurpose.GetOr(""))
            && Map(f, q.hertz.vc.GetOr("")) == Map(f, r.hertz.vc.GetOr(""))
            && Map(f, q.hertz.vn.GetOr("")) == Map(f, r.hertz.vn.GetOr(""))
            && Map(f, q.hertz.vendorCode) == Map(f, r.hertz.vendorCode)
  {
    KeyDeterminesPieces(f, q, r);
    LoweredPieces(f, q);
    LoweredPieces(f, r);
    HertzSettings(f, q);
    HertzSettings(f, r);
    assert Head(q) == Head(r) == ["grouping", "supplier-hertz", "5"] && Padding(q) == Padding(r) == [];
    assert MapAll(f, Settings(q)) + [] == MapAll(f, Settings(q));
    hide Head, Settings, Padding, Pieces, MapAll, Map, Split, CacheKey, IsLowering, AllFree;
    SameSegments(Head(q), [Map(f, q.trip.pickUpCode), Map(f, q.trip.dropOffCode)],
                 [Map(f, q.trip.pickUpDate), Map(f, q.trip.minutes)], MapAll(f, Settings(q)), Padding(q),
                 [Map(f, r.trip.pickUpCode), Map(f, r.trip.dropOffCode)],
                 [Map(f, r.trip.pickUpDate), Map(f, r.trip.minutes)], MapAll(f, Settings(r)));
  }

  lemma HertzSettings(f: char -> char, q: Query)
    requires q.Hertz?
    ensures MapAll(f, Settings(q))
         == [Map(f, q.hertz.bookingAgent.GetOr("")), Map(f, q.hertz.cp.GetOr("")),
             Map(f, q.hertz.clubNumber.GetOr("")), Map(f, q.hertz.corpDiscountNmbr.GetOr("")),
             Map(f, q.hertz.promotionCode.GetOr("")), Map(f, q.hertz.rateQualifier.GetOr("")),
             Map(f, q.hertz.taco.GetOr("")), Map(f, q.hertz.tour.GetOr("")),
             Map(f, q.hertz.travelPurpose.GetOr("")), Map(f, q.hertz.vc.GetOr("")),
             Map(f, q.hertz.vn.GetOr("")), Map(f, q.hertz.vendorCode)]
  {
    hide Map;
  }

  /** What a ProfitMax key is made of. */
  lemma ProfitMaxKeyFields(f: char -> char, q: Query, r: Query)
    requires IsLowering(f) && q.ProfitMax? && r.ProfitMax? && AllFree(Pieces(q), ':')
    ensures Split(CacheKey(f, q), ':')
         == ["grouping", "supplier-profitmaxdht", "5"]
            + ([Map(f, q.trip.pickUpCode), Map(f, q.trip.dropOffCode)]
            + ([Map(f, q.trip.pickUpDate), Map(f, q.trip.minutes)]
            + ([Map(f, q.profitMax.cp.GetOr("")), Map(f, q.profitMax.rateQualifier.GetOr("")),
               Map(f, q.profitMax.travelPurpose.GetOr("")), Map(f, q.profitMax.vn.GetOr("")),
               Map(f, q.profitMax.vendorCode.GetOr("")), Map(f, q.profitMax.destination)] + ["", "", "", "", "", ""])))
    ensures CacheKey(f, q) == CacheKey(f, r) <==>
            && Map(f, q.trip.pickUpCode) == Map(f, r.trip.pickUpCode)
            && Map(f, q.trip.dropOffCode) == Map(f, r.trip.dropOffCode)
            && Map(f, q.trip.pickUpDate) == Map(f, r.trip.pickUpDate)
            && Map(f, q.trip.minutes) == Map(f, r.trip.minutes)
            && Map(f, q.profitMax.cp.GetOr("")) == Map(f, r.profitMax.cp.GetOr(""))
            && Map(f, q.profitMax.rateQualifier.GetOr("")) == Map(f, r.profitMax.rateQualifier.GetOr(""))
            && Map(f, q.profitMax.travelPurpose.GetOr("")) == Map(f, r.profitMax.travelPurpose.GetOr(""))
            && Map(f, q.profitMax.vn.GetOr("")) == Map(f, r.profitMax.vn.GetOr(""))
            && Map(f, q.profitMax.vendorCode.GetOr("")) == Map(f, r.profitMax.vendorCode.GetOr(""))
            && Map(f, q.profitMax.destination) == Map(f, r.profitMax.destination)
  {
    KeyDeterminesPieces(f, q, r);
    LoweredPieces(f, q);
    LoweredPieces(f, r);
    ProfitMaxSettings(f, q);
    ProfitMaxSettings(f, r);
    assert Head(q) == Head(r) == ["grouping", "supplier-profitmaxdht", "5"];
    assert Padding(q) == Padding(r) == ["", "", "", "", "", ""];
    hide Head, Settings, Padding, Pieces, MapAll, Map, Split, CacheKey, IsLowering, AllFree;
    SameSegments(Head(q), [Map(f, q.trip.pickUpCode), Map(f, q.trip.dropOffCode)],
                 [Map(f, q.trip.pickUpDate), Map(f, q.trip.minutes)], MapAll(f, Settings(q)), Padding(q),
                 [Map(f, r.trip.pickUpCode), Map(f, r.trip.dropOffCode)],
                 [Map(f, r.trip.pickUpDate), Map(f, r.trip.minutes)], MapAll(f, Settings(r)));
  }

  lemma ProfitMaxSettings(f: char -> char, q: Query)
    requires q.ProfitMax?
    ensures MapAll(f, Settings(q))
         == [Map(f, q.profitMax.cp.GetOr("")), Map(f, q.profitMax.rateQualifier.GetOr("")),
             Map(f, q.profitMax.travelPurpose.GetOr("")), Map(f, q.profitMax.vn.GetOr("")),
             Map(f, q.profitMax.vendorCode.GetOr("")), Map(f, q.profitMax.destination)]
  {
    hide Map;
  }

  /** What a Booking.com key is made of. */
  lemma BookingComKeyFields(f: char -> char, q: Query, r: Query)
    requires IsLowering(f) && q.BookingCom? && r.BookingCom? && AllFree(Pieces(q), ':')
    ensures Split(CacheKey(f, q), ':')
         == ["grouping", "supplier-booking-com", "5"]
            + ([Map(f, q.trip.pickUpCode), Map(f, q.trip.dropOffCode)]
            + ([Map(f, q.trip.pickUpDate), Map(f, q.trip.minutes)]
            + ([Map(f, q.supplierName)])))
    ensures CacheKey(f, q) == CacheKey(f, r) <==>
            && Map(f, q.trip.pickUpCode) == Map(f, r.trip.pickUpCode)
            && Map(f, q.trip.dropOffCode) == Map(f, r.trip.dropOffCode)
            && Map(f, q.trip.pickUpDate) == Map(f, r.trip.pickUpDate)
            && Map(f, q.trip.minutes) == Map(f, r.trip.minutes)
            && Map(f, q.supplierName) == Map(f, r.supplierName)
  {
    KeyDeterminesPieces(f, q, r);
    LoweredPieces(f, q);
    LoweredPieces(f, r);
    BookingComSettings(f, q);
    BookingComSettings(f, r);
    assert Head(q) == Head(r) == ["grouping", "supplier-booking-com", "5"] && Padding(q) == Padding(r) == [];
    assert MapAll(f, Settings(q)) + [] == MapAll(f, Settings(q));
    hide Head, Settings, Padding, Pieces, MapAll, Map, Split, CacheKey, IsLowering, AllFree;
    SameSegments(Head(q), [Map(f, q.trip.pickUpCode), Map(f, q.trip.dropOffCode)],
                 [Map(f, q.trip.pickUpDate), Map(f, q.trip.minutes)], MapAll(f, Settings(q)), Padding(q),
                 [Map(f, r.trip.pickUpCode), Map(f, r.trip.dropOffCode)],
                 [Map(f, r.trip.pickUpDate), Map(f, r.trip.minutes)], MapAll(f, Settings(r)));
  }

  lemma BookingComSettings(f: char -> char, q: Query)
    requires q.BookingCom?
    ensures MapAll(f, Settings(q))
         == [Map(f, q.supplierName)]
  {
    hide Map;
  }

  lemma LoweredPieces(f: char -> char, q: Query)
    requires IsLowering(f)
    ensures MapAll(f, Pieces(q))
         == Head(q) + ([Map(f, q.trip.pickUpCode), Map(f, q.trip.dropOffCode)]
            + ([Map(f, q.trip.pickUpDate), Map(f, q.trip.minutes)] + (MapAll(f, Settings(q)) + Padding(q))))
  {
    FreeHead(f, q);
    assert MapAll(f, Codes(q.trip)) == [Map(f, q.trip.pickUpCode), Map(f, q.trip.dropOffCode)];
    assert MapAll(f, Times(q.trip)) == [Map(f, q.trip.pickUpDate), Map(f, q.trip.minutes)];
    assert MapAll(f, Padding(q)) == Padding(q) by {
      assert Map(f, "") == "";
    }
    Nested(Head(q), Codes(q.trip), Times(q.trip), Settings(q), Padding(q));
    hide *;
    MapAllAppend(f, Head(q), Codes(q.trip) + (Times(q.trip) + (Settings(q) + Padding(q))));
    MapAllAppend(f, Codes(q.trip), Times(q.trip) + (Settings(q) + Padding(q)));
    MapAllAppend(f, Times(q.trip), Settings(q) + Padding(q));
    MapAllAppend(f, Settings(q), Padding(q));
  }

  lemma Nested(a: seq<string>, b: seq<string>, c: seq<string>, d: seq<string>, e: seq<string>)
    ensures a + b + c + d + e == a + (b + (c + (d + e)))
  {
  }

  lemma SameSegments(head: seq<string>, a: seq<string>, b: seq<string>, c: seq<string>, tail: seq<string>,
                     a': seq<string>, b': seq<string>, c': seq<string>)
    requires |a| == |a'| && |b| == |b'| && |c| == |c'|
    ensures head + (a + (b + (c + tail))) == head + (a' + (b' + (c' + tail))) <==> a == a' && b == b' && c == c'
  {
    var left, right := head + (a + (b + (c + tail))), head + (a' + (b' + (c' + tail)));
    var i, j, k := |head|, |head| + |a|, |head| + |a| + |b|;
    assert left[i..j] == a && left[j..k] == b && left[k..k + |c|] == c;
    assert right[i..j] == a' && right[j..k] == b' && right[k..k + |c|] == c';
  }

  /** Could a date and a duration be read out of the text, with something after them? */
  predicate HoldsTimes(s: string) {
    var parts := Split(s, ':');
    exists j | 0 <= j < |parts| - 2 :: IsDate(parts[j]) && IsMinutes(parts[j + 1])
  }

  /** No piece holds a colon, or only the last piece of a Booking.com key does: it cannot give
      text to a neighbour, unless a date and a duration can be read out of it. */
  predicate IsUnambiguous(f: char -> char, q: Query) {
    || AllFree(Pieces(q), ':')
    || (q.BookingCom? && AllFree(Codes(q.trip), ':') && !HoldsTimes(Map(f, q.supplierName)))
  }

  /** For every query: all queries that share its key share its lower-cased pieces, if and only
      if it is unambiguous. */
  lemma KeyIsExact(f: char -> char, q: Query)
    requires IsLowering(f) && WellFormed(q)
    ensures IsUnambiguous(f, q) <==>
            forall r | WellFormed(r) && CacheKey(f, r) == CacheKey(f, q) :: MapAll(f, Pieces(r)) == MapAll(f, Pieces(q))
  {
    if IsUnambiguous(f, q) {
      forall r | WellFormed(r) && CacheKey(f, r) == CacheKey(f, q)
        ensures MapAll(f, Pieces(r)) == MapAll(f, Pieces(q))
      {
        if AllFree(Pieces(q), ':') {
          KeyDeterminesPieces(f, q, r);
        } else {
          SupplierNameStays(f, q, r);
        }
      }
    } else {
      var r := ColonsCollide(f, q);
    }
  }

  // ---- Two queries with one key

  function WithSettings(q: Query, s: seq<string>): (r: Query)
    requires |s| == |Settings(q)|
    ensures r.trip == q.trip && Settings(r) == s && Padding(r) == Padding(q) && Platform(r) == Platform(q)
  {
    match q
    case Hertz(trip, _) =>
      Hertz(trip, HertzFields(Some(s[0]), Some(s[1]), Some(s[2]), Some(s[3]), Some(s[4]), Some(s[5]),
                              Some(s[6]), Some(s[7]), Some(s[8]), Some(s[9]), Some(s[10]), s[11]))
    case ProfitMax(trip, _) =>
      ProfitMax(trip, ProfitMaxFields(Some(s[0]), Some(s[1]), Some(s[2]), Some(s[3]), Some(s[4]), s[5]))
    case BookingCom(trip, _) => BookingCom(trip, s[0])
  }

  lemma ColonFreeTimes(t: Trip)
    requires IsDate(t.pickUpDate) && IsMinutes(t.minutes)
    ensures AllFree(Times(t), ':')
  {
    DateCharacters(t.pickUpDate);
    MinutesCharacters(t.minutes);
  }

  lemma FreeHead(f: char -> char, q: Query)
    requires IsLowering(f)
    ensures AllFree(Head(q), ':') && AllFree(Padding(q), ':') && MapAll(f, Head(q)) == Head(q)
  {
    LowerCaseText(f, q);
    assert Map(f, "5") == "5";
  }

  lemma AppendFree(a: seq<string>, b: seq<string>)
    ensures AllFree(a + b, ':') <==> AllFree(a, ':') && AllFree(b, ':')
  {
    assert forall part :: part in a + b <==> part in a || part in b;
  }

  /** With constant pieces, date and duration free of colons, the codes and settings decide. */
  lemma FreePieces(f: char -> char, q: Query)
    requires IsLowering(f) && WellFormed(q)
    ensures AllFree(Pieces(q), ':') <==> AllFree(Codes(q.trip), ':') && AllFree(Settings(q), ':')
  {
    ColonFreeTimes(q.trip);
    FreeHead(f, q);
    hide AllFree, Head, Codes, Times, Settings, Padding;
    AppendFree(Head(q), Codes(q.trip));
    AppendFree(Head(q) + Codes(q.trip), Times(q.trip));
    AppendFree(Head(q) + Codes(q.trip) + Times(q.trip), Settings(q));
    AppendFree(Head(q) + Codes(q.trip) + Times(q.trip) + Settings(q), Padding(q));
  }

  lemma DateCharacters(s: string)
    requires IsDate(s)
    ensures forall i | 0 <= i < |s| :: '-' <= s[i] <= '9'
  {
    forall i | 0 <= i < |s| ensures '-' <= s[i] <= '9' {
      if i < 4 {
        assert s[i] == s[..4][i];
      } else if 4 < i < 7 {
        assert s[i] == s[5..7][i - 5];
      } else if 7 < i {
        assert s[i] == s[8..][i - 8];
      }
    }
  }

  lemma MinutesCharacters(s: string)
    requires IsMinutes(s)
    ensures s != "" && forall i | 0 <= i < |s| :: '-' <= s[i] <= '9' && (i > 0 ==> s[i] != '-')
  {
    forall i | 0 <= i < |s| ensures '-' <= s[i] <= '9' && (i > 0 ==> s[i] != '-') {
      if s[0] == '-' && i > 0 {
        assert s[i] == s[1..][i - 1];
      }
    }
  }

  /** Dates and durations have no letters to lower. */
  lemma TimesStay(f: char -> char, date: string, minutes: string)
    requires IsLowering(f) && IsDate(date) && IsMinutes(minutes)
    ensures Map(f, date) == date && Map(f, minutes) == minutes
  {
    DateCharacters(date);
    MinutesCharacters(minutes);
  }

  /** An ambiguous query has the same key as some other query with other pieces. */
  lemma ColonsCollide(f: char -> char, q: Query) returns (r: Query)
    requires IsLowering(f) && WellFormed(q) && !IsUnambiguous(f, q)
    ensures WellFormed(r) && CacheKey(f, r) == CacheKey(f, q)
    ensures MapAll(f, Pieces(r)) != MapAll(f, Pieces(q))
  {
    FreePieces(f, q);
    hide WellFormed, CacheKey, Pieces, HoldsTimes, Codes;
    if !AllFree(Codes(q.trip), ':') {
      r := ShiftCodes(f, q);
    } else if !q.BookingCom? {
      r := ShiftSettings(f, q);
    } else {
      r := ReadTimesFromName(f, q);
    }
  }

  /** Text moved between two neighbouring pieces changes the pieces, not the key. */
  lemma MovedText(f: char -> char, head: seq<string>, parts: seq<string>, tail: seq<string>)
    returns (moved: seq<string>)
    requires |parts| >= 2 && !AllFree(parts, ':')
    ensures |moved| == |parts| && Join(head + moved + tail, ':') == Join(head + parts + tail, ':')
    ensures MapAll(f, head + moved + tail) != MapAll(f, head + parts + tail)
  {
    var part :| part in parts && ':' in part;
    var i: nat :| i < |parts| && parts[i] == part;
    moved := ShiftSeparator(parts, i, ':');
    JoinInside(head, parts, moved, tail, ':');
    assert |MapAll(f, head + moved + tail)[|head| + i]| == |moved[i]|;
    assert |MapAll(f, head + parts + tail)[|head| + i]| == |parts[i]|;
  }

  lemma ShiftCodes(f: char -> char, q: Query) returns (r: Query)
    requires WellFormed(q) && !AllFree(Codes(q.trip), ':')
    ensures WellFormed(r) && CacheKey(f, r) == CacheKey(f, q) && MapAll(f, Pieces(r)) != MapAll(f, Pieces(q))
  {
    var tail := Times(q.trip) + Settings(q) + Padding(q);
    var moved := MovedText(f, Head(q), Codes(q.trip), tail);
    r := q.(trip := q.trip.(pickUpCode := moved[0], dropOffCode := moved[1]));
    assert moved == Codes(r.trip);
    assert Head(r) == Head(q) && Times(r.trip) == Times(q.trip)
           && Settings(r) == Settings(q) && Padding(r) == Padding(q);
    hide Head, Codes, Times, Settings, Padding, MapAll, Map, Join;
    Tail(q);
    Tail(r);
  }

  lemma Tail(q: Query)
    ensures Pieces(q) == Head(q) + Codes(q.trip) + (Times(q.trip) + Settings(q) + Padding(q))
    ensures Pieces(q) == (Head(q) + Codes(q.trip) + Times(q.trip)) + Settings(q) + Padding(q)
  {
    hide Head, Codes, Times, Settings, Padding;
  }

  lemma ShiftSettings(f: char -> char, q: Query) returns (r: Query)
    requires WellFormed(q) && !AllFree(Settings(q), ':') && !q.BookingCom?
    ensures WellFormed(r) && CacheKey(f, r) == CacheKey(f, q) && MapAll(f, Pieces(r)) != MapAll(f, Pieces(q))
  {
    var head := Head(q) + Codes(q.trip) + Times(q.trip);
    var moved := MovedText(f, head, Settings(q), Padding(q));
    r := WithSettings(q, moved);
    assert Head(r) == Head(q);
    hide Head, Codes, Times, Settings, Padding, MapAll, Map, Join;
    Tail(q);
    Tail(r);
  }

  // ---- Colons in the supplier name of a Booking.com query

  lemma {:induction false} SplitAllAppend(a: seq<string>, b: seq<string>)
    ensures SplitAll(a + b, ':') == SplitAll(a, ':') + SplitAll(b, ':')
  {
    if a == [] {
      assert a + b == b;
    } else {
      hide Split;
      SplitAllAppend(a[1..], b);
      assert (a + b)[1..] == a[1..] + b;
      Associate(Split(a[0], ':'), SplitAll(a[1..], ':'), SplitAll(b, ':'));
    }
  }

  lemma SplitTwo(a: string, b: string)
    ensures SplitAll([a, b], ':') == Split(a, ':') + Split(b, ':')
    ensures SplitAll([a], ':') == Split(a, ':')
  {
    hide Split;
    forall x | x in {a, b} ensures SplitAll([x], ':') == Split(x, ':') {
      assert SplitAll([x][1..], ':') == [];
    }
    SplitAllAppend([a], [b]);
    assert [a] + [b] == [a, b];
  }

  lemma MapAllAppend(f: char -> char, a: seq<string>, b: seq<string>)
    ensures MapAll(f, a + b) == MapAll(f, a) + MapAll(f, b)
  {
    var left, right := MapAll(f, a + b), MapAll(f, a) + MapAll(f, b);
    hide Map;
    assert |left| == |right|;
    forall i | 0 <= i < |left| ensures left[i] == right[i] {
      assert left[i] == Map(f, (a + b)[i]);
      if i < |a| {
        assert right[i] == Map(f, a[i]);
      } else {
        assert right[i] == Map(f, b[i - |a|]);
      }
    }
  }

  lemma LoweredBookingPieces(f: char -> char, q: Query)
    requires IsLowering(f) && WellFormed(q) && q.BookingCom?
    ensures MapAll(f, Pieces(q)) 
         == Head(q) + ([Map(f, q.trip.pickUpCode), Map(f, q.trip.dropOffCode)]
                       + (Times(q.trip) + [Map(f, q.supplierName)]))
  {
    FreeHead(f, q);
    TimesStay(f, q.trip.pickUpDate, q.trip.minutes);
    assert MapAll(f, Times(q.trip)) == Times(q.trip) && MapAll(f, Settings(q)) == [Map(f, q.supplierName)];
    assert MapAll(f, Codes(q.trip)) == [Map(f, q.trip.pickUpCode), Map(f, q.trip.dropOffCode)];
    var settings := [q.supplierName];
    assert Settings(q) == settings && Padding(q) == [];
    hide IsLowering, WellFormed, Map, MapAll, Head, Codes, Times, Settings, Padding;
    MapAllAppend(f, Head(q), Codes(q.trip));
    MapAllAppend(f, Head(q) + Codes(q.trip), Times(q.trip));
    MapAllAppend(f, Head(q) + Codes(q.trip) + Times(q.trip), settings);
    assert Pieces(q) == Head(q) + Codes(q.trip) + Times(q.trip) + settings;
  }

  /** Everything behind the constant pieces of a Booking.com key. */
  lemma BookingParts(f: char -> char, q: Query)
    requires IsLowering(f) && WellFormed(q) && q.BookingCom?
    ensures Split(CacheKey(f, q), ':')
         == Head(q) + (Split(Map(f, q.trip.pickUpCode), ':')
                       + (Split(Map(f, q.trip.dropOffCode), ':')
                          + (Times(q.trip) + Split(Map(f, q.supplierName), ':'))))
  {
    SplitKey(f, q);
    LoweredBookingPieces(f, q);
    ColonFreeTimes(q.trip);
    FreeHead(f, q);
    hide *;
    SplitGroups(Head(q), Map(f, q.trip.pickUpCode), Map(f, q.trip.dropOffCode), Times(q.trip), Map(f, q.supplierName));
  }

  lemma SplitGroups(head: seq<string>, c: string, d: string, times: seq<string>, name: string)
    requires AllFree(head, ':') && AllFree(times, ':')
    ensures SplitAll(head + ([c, d] + (times + [name])), ':')
         == head + (Split(c, ':') + (Split(d, ':') + (times + Split(name, ':'))))
  {
    SplitAllFree(head, ':');
    SplitAllFree(times, ':');
    SplitTwo(c, d);
    SplitTwo(name, name);
    hide *;
    SplitAllAppend(head, [c, d] + (times + [name]));
    SplitAllAppend([c, d], times + [name]);
    SplitAllAppend(times, [name]);
    Associate(Split(c, ':'), Split(d, ':'), times + Split(name, ':'));
  }

  lemma Associate<T>(a: seq<T>, b: seq<T>, c: seq<T>)
    ensures a + b + c == a + (b + c)
  {
  }

  /** The two ways to read the end of a Booking.com key are one. */
  lemma SameReading(c: string, d: string, times: seq<string>, name: seq<string>,
                    cs: seq<string>, ds: seq<string>, times': seq<string>, name': seq<string>)
    requires [c] + ([d] + (times + name)) == cs + (ds + (times' + name'))
    requires cs != [] && ds != [] && name' != [] && |times| == |times'| == 2
    requires IsDate(times'[0]) && IsMinutes(times'[1]) && IsMinutes(times[1])
    requires !exists j | 0 <= j < |name| - 2 :: IsDate(name[j]) && IsMinutes(name[j + 1])
    ensures cs == [c] && ds == [d] && times == times' && name == name'
  {
    DatesAreNotMinutes(times[1]);
    hide *;
    var n := |cs| + |ds|;
    FourGroups([c], [d], times, name);
    FourGroups(cs, ds, times', name');
    if n == 3 {
      assert false;
    } else if n >= 4 {
      assert false;
    }
  }

  lemma FourGroups(a: seq<string>, b: seq<string>, two: seq<string>, c: seq<string>)
    requires |two| == 2
    ensures var all, n := a + (b + (two + c)), |a| + |b|;
            && |all| == n + 2 + |c| && all[..|a|] == a && all[|a|..n] == b && all[n..n + 2] == two && all[n + 2..] == c
            && all[n] == two[0] && all[n + 1] == two[1] && forall i | 0 <= i < |c| :: all[n + 2 + i] == c[i]
  {
  }

  lemma DatesAreNotMinutes(s: string)
    requires IsMinutes(s)
    ensures !IsDate(s)
  {
    MinutesCharacters(s);
  }

  lemma SplitInjective(s: string, t: string)
    requires Split(s, ':') == Split(t, ':')
    ensures s == t
  {
    JoinSplit(s, ':');
    JoinSplit(t, ':');
  }

  lemma SupplierNameStays(f: char -> char, q: Query, r: Query)
    requires IsLowering(f) && WellFormed(q) && WellFormed(r) && CacheKey(f, r) == CacheKey(f, q)
    requires q.BookingCom? && AllFree(Codes(q.trip), ':') && !HoldsTimes(Map(f, q.supplierName))
    ensures MapAll(f, Pieces(r)) == MapAll(f, Pieces(q))
  {
    SamePlatform(f, q, r);
    BookingParts(f, q);
    BookingParts(f, r);
    var c, d, name := Map(f, q.trip.pickUpCode), Map(f, q.trip.dropOffCode), Split(Map(f, q.supplierName), ':');
    var cs, ds := Split(Map(f, r.trip.pickUpCode), ':'), Split(Map(f, r.trip.dropOffCode), ':');
    var name' := Split(Map(f, r.supplierName), ':');
    FreeCodes(f, q.trip);
    assert Head(q) == Head(r);
    hide IsDate, IsMinutes, Split, CacheKey, Map, Head, IsLowering;
    BehindHead(Head(q), [c] + ([d] + (Times(q.trip) + name)), cs + (ds + (Times(r.trip) + name')));
    SameReading(c, d, Times(q.trip), name, cs, ds, Times(r.trip), name');
    SplitInjective(c, Map(f, r.trip.pickUpCode));
    SplitInjective(d, Map(f, r.trip.dropOffCode));
    SplitInjective(Map(f, q.supplierName), Map(f, r.supplierName));
    LoweredBookingPieces(f, q);
    LoweredBookingPieces(f, r);
    assert MapAll(f, Codes(q.trip)) == MapAll(f, Codes(r.trip));
  }

  lemma FreeCodes(f: char -> char, t: Trip)
    requires IsLowering(f) && AllFree(Codes(t), ':')
    ensures Split(Map(f, t.pickUpCode), ':') == [Map(f, t.pickUpCode)]
    ensures Split(Map(f, t.dropOffCode), ':') == [Map(f, t.dropOffCode)]
  {
    assert t.pickUpCode in Codes(t) && t.dropOffCode in Codes(t);
    LoweredColon(f, t.pickUpCode);
    LoweredColon(f, t.dropOffCode);
    SplitFree(Map(f, t.pickUpCode), ':');
    SplitFree(Map(f, t.dropOffCode), ':');
  }

  lemma BehindHead(head: seq<string>, a: seq<string>, b: seq<string>)
    requires head + a == head + b
    ensures a == b
  {
    assert (head + a)[|head|..] == a && (head + b)[|head|..] == b;
  }

  lemma SplitLowered(f: char -> char, s: string)
    requires IsLowering(f)
    ensures Split(Map(f, s), ':') == MapAll(f, Split(s, ':'))
  {
    JoinSplit(s, ':');
    MapJoin(f, Split(s, ':'), ':');
    SplitPartsAreFree(s, ':');
    FreeAfterLowering(f, Split(s, ':'));
    SplitJoin(MapAll(f, Split(s, ':')), ':');
  }

  /** A date and a duration inside the supplier name can be read as those of the trip, with
      everything before them as the drop-off code. */
  lemma ReadTimesFromName(f: char -> char, q: Query) returns (r: Query)
    requires IsLowering(f) && WellFormed(q) && q.BookingCom?
    requires AllFree(Codes(q.trip), ':') && HoldsTimes(Map(f, q.supplierName))
    ensures WellFormed(r) && CacheKey(f, r) == CacheKey(f, q) && MapAll(f, Pieces(r)) != MapAll(f, Pieces(q))
  {
    hide IsDate, IsMinutes, Split, CacheKey, IsLowering, Pieces, Codes, AllFree, Map;
    var name := Split(q.supplierName, ':');
    SplitLowered(f, q.supplierName);
    var j :| 0 <= j < |name| - 2 && IsDate(MapAll(f, name)[j]) && IsMinutes(MapAll(f, name)[j + 1]);
    var code := LongerCode(q, name[..j]);
    r := BookingCom(Trip(q.trip.pickUpCode, Join(code, ':'), Map(f, name[j]), Map(f, name[j + 1])),
                    Join(name[j + 2..], ':'));
    ReadingsJoin(f, q, r, j);
    JoinLonger(code[0], code[1..]);
    OtherDropOff(f, q, r);
  }

  lemma OtherDropOff(f: char -> char, q: Query, r: Query)
    requires |q.trip.dropOffCode| != |r.trip.dropOffCode|
    ensures MapAll(f, Pieces(q)) != MapAll(f, Pieces(r))
  {
    hide Map;
    assert Pieces(q)[4] == q.trip.dropOffCode && Pieces(r)[4] == r.trip.dropOffCode;
    assert MapAll(f, Pieces(q))[4] == Map(f, q.trip.dropOffCode);
    assert MapAll(f, Pieces(r))[4] == Map(f, r.trip.dropOffCode);
    MapLength(f, q.trip.dropOffCode);
    MapLength(f, r.trip.dropOffCode);
  }

  lemma MapLength(f: char -> char, s: string)
    ensures |Map(f, s)| == |s|
  {
  }

  lemma JoinLonger(part: string, parts: seq<string>)
    requires parts != []
    ensures |Join([part] + parts, ':')| > |part|
  {
  }

  /** The drop-off code of the other reading. */
  function LongerCode(q: Query, before: seq<string>): (code: seq<string>)
    ensures |code| > 1 && code[0] == q.trip.dropOffCode && code == [code[0]] + code[1..]
  {
    [q.trip.dropOffCode] + (Times(q.trip) + before)
  }

  lemma ReadingsJoin(f: char -> char, q: Query, r: Query, j: nat)
    requires IsLowering(f) && WellFormed(q) && WellFormed(r) && q.BookingCom? && r.BookingCom?
    requires AllFree(Codes(q.trip), ':') && j + 2 < |Split(q.supplierName, ':')|
    requires r.trip.pickUpCode == q.trip.pickUpCode
    requires var name := Split(q.supplierName, ':');
             && r.trip.dropOffCode == Join(LongerCode(q, name[..j]), ':')
             && Times(r.trip) == [Map(f, name[j]), Map(f, name[j + 1])]
             && r.supplierName == Join(name[j + 2..], ':')
    ensures CacheKey(f, r) == CacheKey(f, q)
  {
    var name := Split(q.supplierName, ':');
    assert Head(q) == Head(r);
    hide *;
    SplitPartsAreFree(q.supplierName, ':');
    SliceParts(f, name, j);
    LongerCodeSplits(f, q, name[..j]);
    SplitJoin(name[j + 2..], ':');
    SplitLowered(f, r.supplierName);
    SplitLowered(f, q.supplierName);
    FreeCodes(f, q.trip);
    BookingParts(f, q);
    BookingParts(f, r);
    Regroup(Split(Map(f, q.trip.pickUpCode), ':'), [Map(f, q.trip.dropOffCode)], Times(q.trip), MapAll(f, name), j);
    SplitInjective(CacheKey(f, q), CacheKey(f, r));
  }

  lemma SliceParts(f: char -> char, name: seq<string>, j: nat)
    requires AllFree(name, ':') && j + 2 < |name|
    ensures AllFree(name[..j], ':') && AllFree(name[j + 2..], ':') && |MapAll(f, name)| == |name|
    ensures MapAll(f, name[..j]) == MapAll(f, name)[..j] && MapAll(f, name[j + 2..]) == MapAll(f, name)[j + 2..]
    ensures [Map(f, name[j]), Map(f, name[j + 1])] == [MapAll(f, name)[j], MapAll(f, name)[j + 1]]
  {
    hide Map;
  }

  lemma LongerCodeSplits(f: char -> char, q: Query, before: seq<string>)
    requires IsLowering(f) && WellFormed(q) && AllFree(Codes(q.trip), ':') && AllFree(before, ':')
    ensures Split(Map(f, Join(LongerCode(q, before), ':')), ':')
         == [Map(f, q.trip.dropOffCode)] + (Times(q.trip) + MapAll(f, before))
  {
    var code := LongerCode(q, before);
    ColonFreeTimes(q.trip);
    assert q.trip.dropOffCode in Codes(q.trip);
    assert AllFree(code, ':');
    SplitJoin(code, ':');
    SplitLowered(f, Join(code, ':'));
    TimesStay(f, q.trip.pickUpDate, q.trip.minutes);
    assert MapAll(f, Times(q.trip)) == Times(q.trip) && MapAll(f, [q.trip.dropOffCode]) == [Map(f, q.trip.dropOffCode)];
    hide Split, Join, Map, MapAll, IsDate, IsMinutes, Times, IsLowering;
    MapAllAppend(f, [q.trip.dropOffCode], Times(q.trip) + before);
    MapAllAppend(f, Times(q.trip), before);
  }

  lemma Regroup(cs: seq<string>, d: seq<string>, times: seq<string>, name: seq<string>, j: nat)
    requires j + 2 < |name|
    ensures cs + (d + (times + name))
         == cs + ((d + (times + name[..j])) + ([name[j], name[j + 1]] + name[j + 2..]))
  {
    var middle := [name[j], name[j + 1]] + name[j + 2..];
    assert name == name[..j] + middle;
    Associate(d, times + name[..j], middle);
    Associate(times, name[..j], middle);
  }
}
