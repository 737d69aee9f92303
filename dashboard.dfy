/**
 * The pure rules of the dashboard: the actual-plus-forecast revenue series merged by period label,
 * the percentage change between two periods, and the material stock-status list.
 */
module Dashboard {
  import opened Common
  import opened Schema
  import Sorting

  /**
   * One point of the revenue series and one of the forecast series; a NULL figure counts as 0.
   * `period` is the SQL `label` column (a day, week or month name).
   */
  datatype RevenuePoint = RevenuePoint(period: string, revenue: Option<real>)
  datatype ForecastPoint = ForecastPoint(period: string, forecast: Option<real>)
  datatype CombinedPoint = CombinedPoint(period: string, revenue: real)

  /** The forecast point the label map keeps for l: the last one with that label. */
  function Latest(fs: seq<ForecastPoint>, l: string): Option<ForecastPoint>
  {
    if fs == [] then None
    else if fs[|fs| - 1].period == l then Some(fs[|fs| - 1])
    else Latest(fs[..|fs| - 1], l)
  }

  /** There is a kept point exactly when some point has the label. */
  lemma {:induction false} LatestNone(fs: seq<ForecastPoint>, l: string)
    ensures Latest(fs, l).None? <==> forall i :: 0 <= i < |fs| ==> fs[i].period != l
  {
    if fs != [] {
      var init := fs[..|fs| - 1];
      LatestNone(init, l);
      assert forall i :: 0 <= i < |init| ==> init[i] == fs[i];
    }
  }

  /** When labels repeat, the last point with the label wins. */
  lemma {:induction false} LatestIsLast(fs: seq<ForecastPoint>, l: string, i: nat)
    requires i < |fs| && fs[i].period == l
    requires forall j :: i < j < |fs| ==> fs[j].period != l
    ensures Latest(fs, l) == Some(fs[i])
  {
    if i < |fs| - 1 {
      var init := fs[..|fs| - 1];
      assert forall j :: i < j < |init| ==> init[j] == fs[j];
      LatestIsLast(init, l, i);
    }
  }

  /** The forecast map: filled point by point, a later point replacing an earlier one with its label. */
  method ForecastMap(fs: seq<ForecastPoint>) returns (m: map<string, ForecastPoint>)
    ensures forall l :: l in m <==> Latest(fs, l).Some?
    ensures forall l :: l in m ==> m[l] == Latest(fs, l).value
  {
    m := map[];
    var i := 0;
    while i < |fs|
      invariant 0 <= i <= |fs|
      invariant forall l :: l in m <==> Latest(fs[..i], l).Some?
      invariant forall l :: l in m ==> m[l] == Latest(fs[..i], l).value
    {
      assert fs[..i + 1][..i] == fs[..i];
      m := m[fs[i].period := fs[i]];
      i := i + 1;
    }
    assert fs[..|fs|] == fs;
  }

  /** The forecast added to a day: that of the kept point, 0 when there is none or it is NULL. */
  function ForecastFor(fs: seq<ForecastPoint>, l: string): real
  {
    if Latest(fs, l).Some? then Latest(fs, l).value.forecast.GetOr(0.0) else 0.0
  }

  function Combine(daily: seq<RevenuePoint>, m: map<string, ForecastPoint>): seq<CombinedPoint>
  {
    seq(|daily|, i requires 0 <= i < |daily| =>
      CombinedPoint(daily[i].period,
                    daily[i].revenue.GetOr(0.0) + (if daily[i].period in m then m[daily[i].period].forecast.GetOr(0.0) else 0.0)))
  }

  /**
   * The combined series of getDashboardDataByTimeframe: one point per revenue point, in its
   * order and with its label, carrying the revenue plus the forecast with that label.
   */
  method CombinedForecast(daily: seq<RevenuePoint>, fs: seq<ForecastPoint>) returns (r: seq<CombinedPoint>)
    ensures |r| == |daily|
    ensures forall i :: 0 <= i < |daily| ==>
      r[i].period == daily[i].period && r[i].revenue == daily[i].revenue.GetOr(0.0) + ForecastFor(fs, daily[i].period)
  {
    var m := ForecastMap(fs);
    r := Combine(daily, m);
  }

  /** A day with no forecast of its label keeps its own revenue. */
  lemma NoForecastKeepsRevenue(fs: seq<ForecastPoint>, l: string)
    requires forall i :: 0 <= i < |fs| ==> fs[i].period != l
    ensures ForecastFor(fs, l) == 0.0
  {
    LatestNone(fs, l);
  }

  /** A percentage: a finite value, or minus infinity for a drop from 0. */
  datatype Percentage = Percent(value: real) | MinusInfinity

  /**
   * calculatePercentageChange: 0 for no change from 0, 100 for a rise from 0, otherwise the
   * change relative to the previous figure, in percent.
   */
  function PercentageChange(previous: real, current: real): (r: Percentage)
    ensures previous == 0.0 && current == 0.0 ==> r == Percent(0.0)
    ensures previous == 0.0 && current > 0.0 ==> r == Percent(100.0)
    ensures previous == 0.0 && current < 0.0 ==> r == MinusInfinity
    ensures previous != 0.0 ==> r.Percent? && r.value * previous == (current - previous) * 100.0
    ensures previous > 0.0 ==> (r.value > 0.0 <==> current > previous) && (r.value == 0.0 <==> current == previous)
  {
    if previous == 0.0 && current == 0.0 then Percent(0.0)
    else if previous == 0.0 && current > 0.0 then Percent(100.0)
    else if previous == 0.0 then MinusInfinity
    else Percent((current - previous) / previous * 100.0)
  }

  datatype StockLevel = Out | Low | InStock

  /** The level a material is shown with. */
  function Level(m: Material): (s: StockLevel)
    ensures s == Out <==> m.quantity == 0
    ensures s == Low <==> m.quantity != 0 && m.quantity <= m.threshold
    ensures s == InStock <==> m.quantity != 0 && m.quantity > m.threshold
  {
    if m.quantity == 0 then Out else if m.quantity <= m.threshold then Low else InStock
  }

  function StatusText(s: StockLevel): string
  {
    match s
    case Out => "Out"
    case Low => "Low"
    case InStock => "In stock"
  }

  /** The sort key of a level: Out first, then Low, then In stock. */
  function Rank(s: StockLevel): nat
  {
    match s
    case Out => 1
    case Low => 2
    case InStock => 3
  }

  /** A row of the stock list. */
  datatype StockEntry = StockEntry(id: Id, name: string, remainingQuantity: int, unit: string, status: StockLevel)

  function EntryOf(m: Material): StockEntry
  {
    StockEntry(m.id, m.name, m.quantity, m.unit, Level(m))
  }

  /** ORDER BY level rank, then name. */
  function Urgent(a: Material, b: Material): bool
  {
    Rank(Level(a)) < Rank(Level(b)) || (Rank(Level(a)) == Rank(Level(b)) && Sorting.TextLe(a.name, b.name))
  }

  /** The same order read off the listed rows. */
  function EntryUrgent(a: StockEntry, b: StockEntry): bool
  {
    Rank(a.status) < Rank(b.status) || (Rank(a.status) == Rank(b.status) && Sorting.TextLe(a.name, b.name))
  }

  function Entries(ms: seq<Material>): (r: seq<StockEntry>)
    ensures |r| == |ms|
  {
    if ms == [] then [] else [EntryOf(ms[0])] + Entries(ms[1..])
  }

  lemma {:induction false} EntriesAt(ms: seq<Material>, i: nat)
    requires i < |ms|
    ensures Entries(ms)[i] == EntryOf(ms[i])
  {
    if i > 0 {
      EntriesAt(ms[1..], i - 1);
    }
  }

  /** getStockStatus: every material ordered by urgency, at most 7 of them. */
  function StockStatus(ms: seq<Material>): seq<StockEntry>
  {
    Sorting.Take(Entries(Sorting.Sort(ms, Urgent)), 7)
  }

  lemma UrgentOrders()
    ensures Sorting.TotalPreorder(Urgent)
  {
    forall a: Material, b: Material
      ensures Urgent(a, b) || Urgent(b, a)
    {
      Sorting.TextLeTotal(a.name, b.name);
    }
    forall a: Material, b: Material, c: Material | Urgent(a, b) && Urgent(b, c)
      ensures Urgent(a, c)
    {
      if Rank(Level(a)) == Rank(Level(b)) == Rank(Level(c)) {
        Sorting.TextLeTrans(a.name, b.name, c.name);
      }
    }
  }

  /** Row i of the list shows the i-th material in urgency order. */
  lemma StockStatusAt(ms: seq<Material>, i: nat)
    requires i < |StockStatus(ms)|
    ensures |StockStatus(ms)| == if |ms| < 7 then |ms| else 7
    ensures StockStatus(ms)[i] == EntryOf(Sorting.Sort(ms, Urgent)[i])
  {
    EntriesAt(Sorting.Sort(ms, Urgent), i);
  }

  lemma StockStatusSorted(ms: seq<Material>)
    ensures Sorting.SortedBy(StockStatus(ms), EntryUrgent)
  {
    var s := Sorting.Sort(ms, Urgent);
    UrgentOrders();
    Sorting.SortCorrect(ms, Urgent);
    forall i, j | 0 <= i < j < |StockStatus(ms)|
      ensures EntryUrgent(StockStatus(ms)[i], StockStatus(ms)[j])
    {
      StockStatusAt(ms, i);
      StockStatusAt(ms, j);
      assert Urgent(s[i], s[j]);
    }
  }

  lemma StockStatusShows(ms: seq<Material>, e: StockEntry)
    requires e in StockStatus(ms)
    ensures exists m :: m in ms && e == EntryOf(m)
  {
    var s := Sorting.Sort(ms, Urgent);
    var i :| 0 <= i < |StockStatus(ms)| && StockStatus(ms)[i] == e;
    StockStatusAt(ms, i);
    assert s[i] in multiset(s);
  }

  lemma StockStatusLeftOff(ms: seq<Material>, m: Material, k: nat)
    requires m in ms && EntryOf(m) !in StockStatus(ms) && k < |StockStatus(ms)|
    ensures EntryUrgent(StockStatus(ms)[k], EntryOf(m))
    ensures Rank(StockStatus(ms)[k].status) <= Rank(Level(m))
  {
    var s := Sorting.Sort(ms, Urgent);
    UrgentOrders();
    Sorting.SortCorrect(ms, Urgent);
    assert m in multiset(s);
    var j :| 0 <= j < |s| && s[j] == m;
    StockStatusAt(ms, k);
    if j < |StockStatus(ms)| {
      StockStatusAt(ms, j);
      assert false;
    }
    assert Urgent(s[k], s[j]);
  }

  lemma {:induction false} EntriesAppend(a: seq<Material>, b: seq<Material>)
    ensures Entries(a + b) == Entries(a) + Entries(b)
  {
    if a == [] {
      assert a + b == b;
    } else {
      assert (a + b)[0] == a[0] && (a + b)[1..] == a[1..] + b;
      EntriesAppend(a[1..], b);
    }
  }

  /** Reordering the materials reorders their rows. */
  lemma {:induction false} EntriesPerm(a: seq<Material>, b: seq<Material>)
    requires multiset(a) == multiset(b)
    ensures multiset(Entries(a)) == multiset(Entries(b))
  {
    if a == [] {
      assert |b| == |multiset(b)| == 0;
    } else {
      var x := a[0];
      assert x in multiset(b);
      var j :| 0 <= j < |b| && b[j] == x;
      var rest := b[..j] + b[j + 1..];
      assert b == b[..j] + [x] + b[j + 1..];
      assert a == [x] + a[1..];
      assert multiset(b) == multiset(b[..j]) + multiset{x} + multiset(b[j + 1..]);
      assert multiset(a) == multiset{x} + multiset(a[1..]);
      assert multiset(rest) == multiset(b[..j]) + multiset(b[j + 1..]);
      assert multiset(a[1..]) == multiset(a) - multiset{x};
      assert multiset(rest) == multiset(b) - multiset{x};
      EntriesPerm(a[1..], rest);
      EntriesAppend(b[..j] + [x], b[j + 1..]);
      EntriesAppend(b[..j], [x]);
      EntriesAppend(b[..j], b[j + 1..]);
    }
  }

  /** The listed rows are rows of the table's materials, none more often than the table holds it. */
  lemma StockStatusDistinct(ms: seq<Material>)
    ensures multiset(StockStatus(ms)) <= multiset(Entries(ms))
  {
    var s := Sorting.Sort(ms, Urgent);
    UrgentOrders();
    Sorting.SortCorrect(ms, Urgent);
    EntriesPerm(s, ms);
    var es := Entries(s);
    if |es| > 7 {
      assert es == es[..7] + es[7..];
    }
  }

  /**
   * The stock list holds min(7, n) rows, ordered Out, Low, In stock and then by name; each row
   * shows a material with its level, no row more often than the table holds it; and a material left off the list
   * comes after every listed one in the (level, name) order.
   */
  lemma StockStatusCorrect(ms: seq<Material>)
    ensures |StockStatus(ms)| == if |ms| < 7 then |ms| else 7
    ensures Sorting.SortedBy(StockStatus(ms), EntryUrgent)
    ensures forall e :: e in StockStatus(ms) ==> exists m :: m in ms && e == EntryOf(m)
    ensures multiset(StockStatus(ms)) <= multiset(Entries(ms))
    ensures forall m, k :: m in ms && EntryOf(m) !in StockStatus(ms) && 0 <= k < |StockStatus(ms)| ==>
      EntryUrgent(StockStatus(ms)[k], EntryOf(m)) && Rank(StockStatus(ms)[k].status) <= Rank(Level(m))
  {
    StockStatusSorted(ms);
    StockStatusDistinct(ms);
    forall e | e in StockStatus(ms)
      ensures exists m :: m in ms && e == EntryOf(m)
    {
      StockStatusShows(ms, e);
    }
    forall m, k | m in ms && EntryOf(m) !in StockStatus(ms) && 0 <= k < |StockStatus(ms)|
      ensures EntryUrgent(StockStatus(ms)[k], EntryOf(m)) && Rank(StockStatus(ms)[k].status) <= Rank(Level(m))
    {
      StockStatusLeftOff(ms, m, k);
    }
  }
}
