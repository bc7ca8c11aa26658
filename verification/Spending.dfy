/**
 The spending summary of the year bill: workers add card rows to shared totals under a mutex,
 in whatever order they happen to run.
 */
module Spending {
  import opened Common

  /** A decoded card row; a field that is missing or of another type is None. */
  datatype Row = Row(time: Option<nat>, place: Option<string>, amount: Option<real>)

  const RESTAURANT := "\U{9910}\U{5385}"
  const LIBRARY := "\U{56FE}\U{4E66}\U{9986}"
  const UNKNOWN := "\U{672A}\U{77E5}"

  /** EarlyCount starts at the largest int, LastCount at zero. */
  const MAX_INT := 0x7FFF_FFFF_FFFF_FFFF

  datatype Totals = Totals(perPlace: map<string, real>, restaurant: real, library: real, other: real,
                           earlyCount: int, lastCount: int)

  datatype PayData = PayData(totals: Totals, best: string)

  const EMPTY := PayData(Totals(map[], 0.0, 0.0, 0.0, MAX_INT, 0), "")

  predicate Contains(s: string, part: string) {
    exists i :: 0 <= i <= |s| && part <= s[i..]
  }

  function PlaceOf(r: Row): string { if r.place.Some? then r.place.value else UNKNOWN }

  /** Rows without a time or an amount, and rows that are not debits, are skipped. */
  predicate Counts(r: Row) { r.time.Some? && r.amount.Some? && r.amount.value < 0.0 }

  function Spent(r: Row): real { if Counts(r) then -r.amount.value else 0.0 }

  function At(m: map<string, real>, place: string): real { if place in m then m[place] else 0.0 }

  predicate IsRestaurant(place: string) { Contains(place, RESTAURANT) }

  predicate IsLibrary(place: string) { !IsRestaurant(place) && Contains(place, LIBRARY) }

  function Max(a: int, b: int): int { if a >= b then a else b }

  function Min(a: int, b: int): int { if a <= b then a else b }

  function Raise(m: map<string, real>, place: string, value: real): map<string, real> {
    m[place := At(m, place) + value]
  }

  /** What one row adds to each total. */
  function AddTotals(t: Totals, r: Row): Totals {
    if !Counts(r) then t
    else
      var place, value, count := PlaceOf(r), Spent(r), r.time.value;
      Totals(Raise(t.perPlace, place, value),
             t.restaurant + (if IsRestaurant(place) then value else 0.0),
             t.library + (if IsLibrary(place) then value else 0.0),
             t.other + (if !IsRestaurant(place) && !IsLibrary(place) then value else 0.0),
             if IsRestaurant(place) then Min(t.earlyCount, count) else t.earlyCount,
             if IsRestaurant(place) then Max(t.lastCount, count) else t.lastCount)
  }

  function Add(d: PayData, r: Row): PayData {
    var t := AddTotals(d.totals, r);
    var place := PlaceOf(r);
    if Counts(r) && IsRestaurant(place) && At(t.perPlace, place) > At(t.perPlace, d.best)
    then PayData(t, place)
    else PayData(t, d.best)
  }

  /** One order in which the workers got the mutex. */
  function AddAll(d: PayData, rows: seq<Row>): PayData {
    if rows == [] then d else Add(AddAll(d, rows[..|rows| - 1]), rows[|rows| - 1])
  }

  class PayTotals {
    var maps: map<string, real>
    var bestRestaurant: string
    var restaurantPay: real
    var libraryPay: real
    var otherPay: real
    var earlyCount: int
    var lastCount: int

    function View(): PayData
      reads this
    {
      PayData(Totals(maps, restaurantPay, libraryPay, otherPay, earlyCount, lastCount), bestRestaurant)
    }

    constructor ()
      ensures View() == EMPTY
    {
      maps, bestRestaurant := map[], "";
      restaurantPay, libraryPay, otherPay := 0.0, 0.0, 0.0;
      earlyCount, lastCount := MAX_INT, 0;
    }

    /** One worker's row, from decoding to the end of the critical section. */
    method Record(r: Row)
      modifies this
      ensures View() == Add(old(View()), r)
    {
      if r.time.None? { return; }
      var count := r.time.value;
      var place := UNKNOWN;
      if r.place.Some? { place := r.place.value; }
      if r.amount.None? { return; }
      var value := r.amount.value;
      if value >= 0.0 { return; }
      Charge(place, value, count);
    }

    /** The critical section: value is the negative amount of a debit. */
    method Charge(place: string, value: real, count: nat)
      requires value < 0.0
      modifies this
      ensures View() == Add(old(View()), Row(Some(count), Some(place), Some(value)))
    {
      maps := maps[place := At(maps, place) - value];
      if Contains(place, RESTAURANT) {
        restaurantPay := restaurantPay - value;
        if At(maps, place) > At(maps, bestRestaurant) {
          bestRestaurant := place;
        }
        if count > lastCount { lastCount := count; }
        if count < earlyCount { earlyCount := count; }
      } else if Contains(place, LIBRARY) {
        libraryPay := libraryPay - value;
      } else {
        otherPay := otherPay - value;
      }
    }
  }

  // ---------------------------------------------------------------- order does not matter

  function AddAllTotals(t: Totals, rows: seq<Row>): Totals {
    if rows == [] then t else AddTotals(AddAllTotals(t, rows[..|rows| - 1]), rows[|rows| - 1])
  }

  lemma {:induction false} TotalsOf(d: PayData, rows: seq<Row>)
    ensures AddAll(d, rows).totals == AddAllTotals(d.totals, rows)
  {
    if rows != [] { TotalsOf(d, rows[..|rows| - 1]); }
  }

  lemma RaisesCommute(m: map<string, real>, p: string, v: real, q: string, w: real)
    ensures Raise(Raise(m, p, v), q, w) == Raise(Raise(m, q, w), p, v)
  {}

  lemma AddsCommute(t: Totals, a: Row, b: Row)
    ensures AddTotals(AddTotals(t, a), b) == AddTotals(AddTotals(t, b), a)
  {
    RaisesCommute(t.perPlace, PlaceOf(a), Spent(a), PlaceOf(b), Spent(b));
  }

  /** A row may be taken out of the middle and added last. */
  lemma {:induction false} MoveToEnd(t: Totals, front: seq<Row>, r: Row, back: seq<Row>)
    ensures AddAllTotals(t, front + [r] + back) == AddTotals(AddAllTotals(t, front + back), r)
    decreases |back|
  {
    if back == [] {
      assert front + [r] + back == front + [r] && front + back == front;
      assert (front + [r])[..|front|] == front;
    } else {
      var n := |back| - 1;
      assert (front + [r] + back)[..|front| + 1 + n] == front + [r] + back[..n];
      assert (front + back)[..|front| + n] == front + back[..n];
      MoveToEnd(t, front, r, back[..n]);
      AddsCommute(AddAllTotals(t, front + back[..n]), r, back[n]);
    }
  }

  lemma Removed(front: seq<Row>, r: Row, back: seq<Row>)
    ensures multiset(front + [r] + back) == multiset(front + back) + multiset{r}
  {}

  lemma Cancel(a: multiset<Row>, b: multiset<Row>, r: Row)
    requires a + multiset{r} == b + multiset{r}
    ensures a == b
  {
    assert a == a + multiset{r} - multiset{r} && b == b + multiset{r} - multiset{r};
  }

  lemma Find(rows: seq<Row>, r: Row) returns (front: seq<Row>, back: seq<Row>)
    requires r in multiset(rows)
    ensures rows == front + [r] + back
  {
    var k :| 0 <= k < |rows| && rows[k] == r;
    front, back := rows[..k], rows[k + 1..];
  }

  lemma SameLength(rows: seq<Row>, rows': seq<Row>)
    requires multiset(rows) == multiset(rows')
    ensures |rows| == |rows'|
  {
    assert |multiset(rows)| == |rows| && |multiset(rows')| == |rows'|;
  }

  /** The totals depend on the rows alone, not on the interleaving of the workers. */
  lemma {:induction false} OrderDoesNotMatter(t: Totals, rows: seq<Row>, rows': seq<Row>)
    requires multiset(rows) == multiset(rows')
    ensures AddAllTotals(t, rows) == AddAllTotals(t, rows')
    decreases |rows|
  {
    SameLength(rows, rows');
    if rows != [] {
      var n := |rows| - 1;
      assert rows == rows[..n] + [rows[n]] + [] && rows[..n] + [] == rows[..n];
      Removed(rows[..n], rows[n], []);
      var front, back := Find(rows', rows[n]);
      Removed(front, rows[n], back);
      Cancel(multiset(rows[..n]), multiset(front + back), rows[n]);
      OrderDoesNotMatter(t, rows[..n], front + back);
      MoveToEnd(t, front, rows[n], back);
    }
  }

  // ---------------------------------------------------------------- the totals add up

  function SpentAll(rows: seq<Row>): real {
    if rows == [] then 0.0 else SpentAll(rows[..|rows| - 1]) + Spent(rows[|rows| - 1])
  }

  /** What was spent at places of one kind. */
  function SpentAt(rows: seq<Row>, place: string): real {
    if rows == [] then 0.0
    else
      var last := rows[|rows| - 1];
      SpentAt(rows[..|rows| - 1], place) + (if PlaceOf(last) == place then Spent(last) else 0.0)
  }

  ghost function Sum(m: map<string, real>): real {
    if m == map[] then 0.0
    else
      var k :| k in m;
      m[k] + Sum(m - {k})
  }

  lemma {:induction false} SumTakes(m: map<string, real>, k: string)
    requires k in m
    ensures Sum(m) == m[k] + Sum(m - {k})
    decreases |m|
  {
    var c :| c in m && Sum(m) == m[c] + Sum(m - {c});
    if c != k {
      SumTakes(m - {c}, k);
      SumTakes(m - {k}, c);
      assert m - {c} - {k} == m - {k} - {c};
    }
  }

  lemma SumUpdate(m: map<string, real>, k: string, v: real)
    ensures Sum(m[k := At(m, k) + v]) == Sum(m) + v
  {
    var m' := m[k := At(m, k) + v];
    SumTakes(m', k);
    assert m' - {k} == m - {k};
    if k in m { SumTakes(m, k); } else { assert m - {k} == m; }
  }

  /** The three totals, the per-merchant totals and the debits all sum to the same amount. */
  lemma {:induction false} TotalsAddUp(rows: seq<Row>)
    ensures var t := AddAllTotals(EMPTY.totals, rows);
            t.restaurant + t.library + t.other == Sum(t.perPlace) == SpentAll(rows)
  {
    if rows != [] {
      var n := |rows| - 1;
      TotalsAddUp(rows[..n]);
      SumUpdate(AddAllTotals(EMPTY.totals, rows[..n]).perPlace, PlaceOf(rows[n]), Spent(rows[n]));
    }
  }

  /** A merchant's entry is what was spent there. */
  lemma {:induction false} PlaceTotals(rows: seq<Row>, place: string)
    ensures At(AddAllTotals(EMPTY.totals, rows).perPlace, place) == SpentAt(rows, place) >= 0.0
    ensures place in AddAllTotals(EMPTY.totals, rows).perPlace <==> SpentAt(rows, place) > 0.0
  {
    if rows != [] { PlaceTotals(rows[..|rows| - 1], place); }
  }

  // ---------------------------------------------------------------- each total by itself

  /** What a row spends at places of a kind: a debit with a time, at its merchant or at the unknown one. */
  ghost function SpentIn(r: Row, kind: string -> bool): real {
    if r.time != None && r.amount.Some? && r.amount.value < 0.0
       && kind(if r.place.Some? then r.place.value else "\U{672A}\U{77E5}")
    then 0.0 - r.amount.value else 0.0
  }

  ghost function SumIn(rows: seq<Row>, kind: string -> bool): real {
    if rows == [] then 0.0 else SumIn(rows[..|rows| - 1], kind) + SpentIn(rows[|rows| - 1], kind)
  }

  ghost predicate Dining(place: string) { Contains(place, "\U{9910}\U{5385}") }

  ghost predicate Reading(place: string) { !Dining(place) && Contains(place, "\U{56FE}\U{4E66}\U{9986}") }

  /** Each total is the sum over the debits at its kind of place. */
  lemma {:induction false} TotalsByKind(rows: seq<Row>, place: string)
    ensures var t := AddAllTotals(EMPTY.totals, rows);
            && t.restaurant == SumIn(rows, p => Dining(p))
            && t.library == SumIn(rows, p => Reading(p))
            && t.other == SumIn(rows, p => !Dining(p) && !Reading(p))
            && At(t.perPlace, place) == SumIn(rows, p => p == place)
  {
    if rows != [] { TotalsByKind(rows[..|rows| - 1], place); }
  }

  /** A debit at a restaurant, at that time of day. */
  ghost predicate DinesAt(r: Row, time: int) {
    && r.time.Some? && r.time.value == time && r.amount.Some? && r.amount.value < 0.0
    && r.place.Some? && Dining(r.place.value)
  }

  ghost predicate SomeDinesAt(rows: seq<Row>, time: int) { exists k :: 0 <= k < |rows| && DinesAt(rows[k], time) }

  lemma UnknownIsNoRestaurant()
    ensures !IsRestaurant(UNKNOWN)
  {
    assert UNKNOWN[0] != RESTAURANT[0];
    forall i | 0 <= i <= |UNKNOWN| ensures !(RESTAURANT <= UNKNOWN[i..]) {}
  }

  /** The two times are the earliest and the latest of the restaurant debits, or the initial values. */
  lemma {:induction false} TimesAreExtremes(rows: seq<Row>)
    ensures var t := AddAllTotals(EMPTY.totals, rows);
            && (forall time :: SomeDinesAt(rows, time) ==> t.earlyCount <= time <= t.lastCount)
            && (t.earlyCount == 0x7FFF_FFFF_FFFF_FFFF || SomeDinesAt(rows, t.earlyCount))
            && (t.lastCount == 0 || SomeDinesAt(rows, t.lastCount))
  {
    UnknownIsNoRestaurant();
    if rows != [] {
      var n := |rows| - 1;
      TimesAreExtremes(rows[..n]);
      forall time ensures SomeDinesAt(rows, time) <==> SomeDinesAt(rows[..n], time) || DinesAt(rows[n], time) {
        if SomeDinesAt(rows[..n], time) {
          var k :| 0 <= k < n && DinesAt(rows[..n][k], time);
          assert DinesAt(rows[k], time);
        }
        if k :| 0 <= k < |rows| && DinesAt(rows[k], time) {
          if k < n { assert DinesAt(rows[..n][k], time); }
        }
      }
      var r := rows[n];
      if Counts(r) && IsRestaurant(PlaceOf(r)) { assert DinesAt(r, r.time.value); }
    }
  }

  // ---------------------------------------------------------------- the favourite restaurant

  /** No restaurant's total is above the one stored under the reported name. */
  ghost predicate Leads(d: PayData) {
    && (d.best == "" || IsRestaurant(d.best))
    && (forall p :: IsRestaurant(p) ==> At(d.totals.perPlace, p) <= At(d.totals.perPlace, d.best))
  }

  lemma {:induction false} BestLeads(rows: seq<Row>)
    ensures Leads(AddAll(EMPTY, rows))
  {
    if rows != [] {
      var n := |rows| - 1;
      BestLeads(rows[..n]);
    }
  }

  /** The report is right: a restaurant is named, and none received more. */
  ghost predicate ReportsFavourite(rows: seq<Row>) {
    var best := AddAll(EMPTY, rows).best;
    IsRestaurant(best) && forall p :: IsRestaurant(p) ==> SpentAt(rows, p) <= SpentAt(rows, best)
  }

  /** Money was spent at some restaurant, and more than on rows with an empty merchant name. */
  ghost predicate RestaurantBeatsNameless(rows: seq<Row>) {
    exists p :: IsRestaurant(p) && SpentAt(rows, p) > SpentAt(rows, "")
  }

  lemma EmptyNameIsNoRestaurant()
    ensures !IsRestaurant("")
  {}

  lemma {:induction false} SpentAtPermuted(rows: seq<Row>, rows': seq<Row>, place: string)
    requires multiset(rows) == multiset(rows')
    ensures SpentAt(rows, place) == SpentAt(rows', place)
  {
    OrderDoesNotMatter(EMPTY.totals, rows, rows');
    PlaceTotals(rows, place);
    PlaceTotals(rows', place);
  }

  /** Whenever some restaurant beats the nameless rows, the report is right. */
  lemma FavouriteReported(rows: seq<Row>)
    requires RestaurantBeatsNameless(rows)
    ensures ReportsFavourite(rows)
  {
    var d := AddAll(EMPTY, rows);
    BestLeads(rows);
    TotalsOf(EMPTY, rows);
    forall p ensures At(d.totals.perPlace, p) == SpentAt(rows, p) { PlaceTotals(rows, p); }
    var q :| IsRestaurant(q) && SpentAt(rows, q) > SpentAt(rows, "");
    assert At(d.totals.perPlace, q) <= At(d.totals.perPlace, d.best);
    assert d.best != "";
  }

  /** The rows with an empty merchant name, or the others. */
  function Select(rows: seq<Row>, nameless: bool): seq<Row> {
    if rows == [] then []
    else Select(rows[..|rows| - 1], nameless)
         + (if (PlaceOf(rows[|rows| - 1]) == "") == nameless then [rows[|rows| - 1]] else [])
  }

  lemma {:induction false} SelectPlaces(rows: seq<Row>, nameless: bool)
    ensures forall r :: r in Select(rows, nameless) ==> ((PlaceOf(r) == "") == nameless)
  {
    if rows != [] { SelectPlaces(rows[..|rows| - 1], nameless); }
  }

  lemma CountLast(s: seq<Row>, x: Row)
    requires s != []
    ensures multiset(s)[x] == multiset(s[..|s| - 1])[x] + (if s[|s| - 1] == x then 1 else 0)
  {
    assert s == s[..|s| - 1] + [s[|s| - 1]];
  }

  lemma {:induction false} SelectCount(rows: seq<Row>, nameless: bool, x: Row)
    ensures multiset(Select(rows, nameless))[x] == if (PlaceOf(x) == "") == nameless then multiset(rows)[x] else 0
  {
    if rows != [] {
      var n := |rows| - 1;
      SelectCount(rows[..n], nameless, x);
      CountLast(rows, x);
      var r := Select(rows, nameless);
      if (PlaceOf(rows[n]) == "") == nameless {
        CountLast(r, x);
        assert r[..|r| - 1] == Select(rows[..n], nameless);
      } else {
        assert r == Select(rows[..n], nameless);
      }
    }
  }

  lemma SelectSplits(rows: seq<Row>)
    ensures multiset(Select(rows, true) + Select(rows, false)) == multiset(rows)
  {
    forall x ensures multiset(Select(rows, true) + Select(rows, false))[x] == multiset(rows)[x] {
      SelectCount(rows, true, x);
      SelectCount(rows, false, x);
    }
  }

  lemma {:induction false} SpentAtGrows(rows: seq<Row>, k: nat, place: string)
    requires k <= |rows|
    ensures SpentAt(rows[..k], place) <= SpentAt(rows, place)
    ensures (forall i :: k <= i < |rows| ==> PlaceOf(rows[i]) != place) ==>
              SpentAt(rows[..k], place) == SpentAt(rows, place)
    decreases |rows| - k
  {
    if k < |rows| {
      assert rows[..k + 1][..k] == rows[..k];
      SpentAtGrows(rows, k + 1, place);
    } else {
      assert rows[..k] == rows;
    }
  }

  /** With the nameless rows first and never beaten, no restaurant is ever named. */
  lemma {:induction false} NothingNamed(rows: seq<Row>, m: nat, k: nat)
    requires m <= |rows| && k <= |rows| && !RestaurantBeatsNameless(rows)
    requires forall i :: 0 <= i < m ==> PlaceOf(rows[i]) == ""
    requires forall i :: m <= i < |rows| ==> PlaceOf(rows[i]) != ""
    ensures AddAll(EMPTY, rows[..k]).best == ""
    decreases k
  {
    EmptyNameIsNoRestaurant();
    if k > 0 {
      NothingNamed(rows, m, k - 1);
      assert rows[..k][..k - 1] == rows[..k - 1];
      var place := PlaceOf(rows[k - 1]);
      if IsRestaurant(place) {
        TotalsOf(EMPTY, rows[..k]);
        PlaceTotals(rows[..k], place);
        PlaceTotals(rows[..k], "");
        SpentAtGrows(rows, k, place);
        SpentAtGrows(rows, k, "");
      }
    }
  }

  /**
   The favourite is reported right whatever the order of the workers exactly when some
   restaurant beats the total of the rows whose merchant name is empty.
   */
  lemma FavouriteExactly(rows: seq<Row>)
    ensures (forall order :: multiset(order) == multiset(rows) ==> ReportsFavourite(order))
            <==> RestaurantBeatsNameless(rows)
  {
    if RestaurantBeatsNameless(rows) {
      var q :| IsRestaurant(q) && SpentAt(rows, q) > SpentAt(rows, "");
      forall order | multiset(order) == multiset(rows) ensures ReportsFavourite(order) {
        SpentAtPermuted(rows, order, q);
        SpentAtPermuted(rows, order, "");
        FavouriteReported(order);
      }
    } else {
      SelectSplits(rows);
      SelectPlaces(rows, true);
      SelectPlaces(rows, false);
      var order := Select(rows, true) + Select(rows, false);
      forall p ensures SpentAt(order, p) == SpentAt(rows, p) { SpentAtPermuted(order, rows, p); }
      assert !RestaurantBeatsNameless(order);
      NothingNamed(order, |Select(rows, true)|, |order|);
      assert order[..|order|] == order;
      EmptyNameIsNoRestaurant();
      assert !ReportsFavourite(order);
    }
  }

  /** With every merchant named, one restaurant debit is enough. */
  lemma NamedRowsReportFavourite(rows: seq<Row>, k: nat)
    requires forall i :: 0 <= i < |rows| ==> PlaceOf(rows[i]) != ""
    requires k < |rows| && Counts(rows[k]) && IsRestaurant(PlaceOf(rows[k]))
    ensures ReportsFavourite(rows)
  {
    var place := PlaceOf(rows[k]);
    SpentAtGrows(rows, 0, "");
    SpentAtGrows(rows, k + 1, place);
    assert rows[..k + 1][..k] == rows[..k];
    PlaceTotals(rows[..k], place);
    assert SpentAt(rows, place) > SpentAt(rows, "");
    FavouriteReported(rows);
  }
}
