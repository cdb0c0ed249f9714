/**
 * The order-metrics aggregator behind the Analytics screen: one pass over
 * the fetched orders (each joined with a snapshot of its product) into
 * revenue, order count, the most popular product, per-product revenue,
 * stock-versus-sold and velocity lists, and a 24-bucket hour histogram.
 */
module Analytics {
  import opened Wrappers
  import opened Seqs
  import opened Text
  import opened Records
  import Assoc

  /** The joined `products ( name, price, quantity )` columns; any may be missing. */
  datatype ProductJoin = ProductJoin(name: Option<string>, price: Option<int>, quantity: Option<int>)

  /** One fetched order row; `products` is `None` when the join found nothing. */
  datatype AnalyticsRow = AnalyticsRow(
    id: string,
    quantity: int,
    createdAt: Timestamp,
    productId: string,
    products: Option<ProductJoin>)

  /** `order.products?.name || 'Unknown'` */
  function NameOf(o: AnalyticsRow): string {
    if o.products.Some? then OrString(o.products.value.name, "Unknown") else "Unknown"
  }

  /** `order.products?.price || 0` */
  function PriceOf(o: AnalyticsRow): int {
    if o.products.Some? then OrInt(o.products.value.price, 0) else 0
  }

  /** `order.products?.quantity || 0` */
  function StockOf(o: AnalyticsRow): int {
    if o.products.Some? then OrInt(o.products.value.quantity, 0) else 0
  }

  function RevenueOf(o: AnalyticsRow): int {
    o.quantity * PriceOf(o)
  }

  datatype NameRevenue = NameRevenue(name: string, revenue: int)
  datatype HourCount = HourCount(hour: string, count: int)
  datatype StockSales = StockSales(name: string, sold: int, stock: int)
  /** Units per day, kept as the exact quotient `sold / days` (`days >= 1`). */
  datatype Velocity = Velocity(name: string, sold: int, days: int)

  datatype OrderStats = OrderStats(
    totalRevenue: int,
    totalOrders: int,
    mostPopularProduct: string,
    revenueByProduct: seq<NameRevenue>,
    ordersByHour: seq<HourCount>,
    stockVsSales: seq<StockSales>,
    salesVelocity: seq<Velocity>)

  const EmptyStats := OrderStats(0, 0, "None", [], [], [], [])

  // ---------------------------------------------------------------------
  // The accumulation loop: `productCount`, `productRevenue`, `productStock`
  // and `hourlyCount`, updated once per order in iteration order.
  // ---------------------------------------------------------------------

  datatype Tally = Tally(count: Assoc.Assoc, revenue: Assoc.Assoc, stock: Assoc.Assoc, hourly: map<int, int>)

  function HourValue(m: map<int, int>, h: int): int {
    if h in m then m[h] else 0
  }

  function Step(t: Tally, o: AnalyticsRow): Tally {
    var name := NameOf(o);
    var h := o.createdAt.hour;
    Tally(
      Assoc.Put(t.count, name, Assoc.Get(t.count, name).GetOr(0) + o.quantity),
      Assoc.Put(t.revenue, name, Assoc.Get(t.revenue, name).GetOr(0) + RevenueOf(o)),
      Assoc.Put(t.stock, name, StockOf(o)),
      t.hourly[h := HourValue(t.hourly, h) + 1])
  }

  function Fold(rows: seq<AnalyticsRow>): Tally {
    if |rows| == 0 then Tally([], [], [], map[])
    else Step(Fold(rows[..|rows| - 1]), rows[|rows| - 1])
  }

  // ---------------------------------------------------------------------
  // Reference definitions, stated directly over the input.
  // ---------------------------------------------------------------------

  function Names(rows: seq<AnalyticsRow>): (ns: seq<string>)
    ensures |ns| == |rows|
    ensures forall i :: 0 <= i < |rows| ==> ns[i] == NameOf(rows[i])
  {
    if |rows| == 0 then [] else [NameOf(rows[0])] + Names(rows[1..])
  }

  function SoldTerm(name: string): AnalyticsRow -> int {
    (o: AnalyticsRow) => if NameOf(o) == name then o.quantity else 0
  }

  function RevenueTerm(name: string): AnalyticsRow -> int {
    (o: AnalyticsRow) => if NameOf(o) == name then RevenueOf(o) else 0
  }

  /** Units ordered under `name`. */
  function SoldFor(rows: seq<AnalyticsRow>, name: string): int {
    SumBy(rows, SoldTerm(name))
  }

  /** Revenue earned under `name`. */
  function RevenueFor(rows: seq<AnalyticsRow>, name: string): int {
    SumBy(rows, RevenueTerm(name))
  }

  function InHour(h: int): AnalyticsRow -> bool {
    (o: AnalyticsRow) => o.createdAt.hour == h
  }

  /** Orders placed during local hour `h`. */
  function OrdersInHour(rows: seq<AnalyticsRow>, h: int): int {
    |Filter(rows, InHour(h))|
  }

  /** Row `i` is the last row carrying `name`. */
  ghost predicate LastWithName(rows: seq<AnalyticsRow>, name: string, i: int) {
    && 0 <= i < |rows|
    && NameOf(rows[i]) == name
    && forall j :: i < j < |rows| ==> NameOf(rows[j]) != name
  }

  // ---------------------------------------------------------------------
  // What the accumulation loop computes.
  // ---------------------------------------------------------------------

  lemma NamesSnoc(p: seq<AnalyticsRow>, y: AnalyticsRow)
    ensures Names(p + [y]) == Names(p) + [NameOf(y)]
  {
  }

  lemma FoldSnoc(p: seq<AnalyticsRow>, y: AnalyticsRow)
    ensures Fold(p + [y]) == Step(Fold(p), y)
  {
    assert (p + [y])[..|p|] == p;
  }

  /** The three accumulators list the distinct names in first-seen order. */
  lemma {:induction false} FoldKeys(rows: seq<AnalyticsRow>)
    ensures Assoc.Keys(Fold(rows).count) == Distinct(Names(rows))
    ensures Assoc.Keys(Fold(rows).revenue) == Distinct(Names(rows))
    ensures Assoc.Keys(Fold(rows).stock) == Distinct(Names(rows))
  {
    if |rows| > 0 {
      var p, y := rows[..|rows| - 1], rows[|rows| - 1];
      assert rows == p + [y];
      FoldKeys(p);
      FoldKeysStep(p, y);
    }
  }

  lemma FoldKeysStep(p: seq<AnalyticsRow>, y: AnalyticsRow)
    requires Assoc.Keys(Fold(p).count) == Distinct(Names(p))
    requires Assoc.Keys(Fold(p).revenue) == Distinct(Names(p))
    requires Assoc.Keys(Fold(p).stock) == Distinct(Names(p))
    ensures Assoc.Keys(Fold(p + [y]).count) == Distinct(Names(p + [y]))
    ensures Assoc.Keys(Fold(p + [y]).revenue) == Distinct(Names(p + [y]))
    ensures Assoc.Keys(Fold(p + [y]).stock) == Distinct(Names(p + [y]))
  {
    FoldSnoc(p, y);
    NamesSnoc(p, y);
    DistinctSnoc(Names(p), NameOf(y));
    StepKeys(Fold(p), y);
  }

  lemma StepKeys(t: Tally, y: AnalyticsRow)
    ensures Assoc.Keys(Step(t, y).count) == AddKey(Assoc.Keys(t.count), NameOf(y))
    ensures Assoc.Keys(Step(t, y).revenue) == AddKey(Assoc.Keys(t.revenue), NameOf(y))
    ensures Assoc.Keys(Step(t, y).stock) == AddKey(Assoc.Keys(t.stock), NameOf(y))
  {
    var name := NameOf(y);
    Assoc.PutKeys(t.count, name, Assoc.Get(t.count, name).GetOr(0) + y.quantity);
    Assoc.PutKeys(t.revenue, name, Assoc.Get(t.revenue, name).GetOr(0) + RevenueOf(y));
    Assoc.PutKeys(t.stock, name, StockOf(y));
  }

  function AddKey(ks: seq<string>, k: string): seq<string> {
    if k in ks then ks else ks + [k]
  }

  /** `productCount[name]` is the units ordered under the name, present iff the name occurs. */
  lemma {:induction false} FoldCount(rows: seq<AnalyticsRow>, name: string)
    ensures Assoc.Get(Fold(rows).count, name) ==
              if name in Names(rows) then Some(SoldFor(rows, name)) else None
  {
    if |rows| > 0 {
      var p, y := rows[..|rows| - 1], rows[|rows| - 1];
      assert rows == p + [y];
      FoldCount(p, name);
      FoldSnoc(p, y);
      CountStep(Fold(p), p, y, name);
    }
  }

  lemma CountStep(t: Tally, p: seq<AnalyticsRow>, y: AnalyticsRow, name: string)
    requires Assoc.Get(t.count, name) == if name in Names(p) then Some(SoldFor(p, name)) else None
    ensures Assoc.Get(Step(t, y).count, name) ==
              if name in Names(p + [y]) then Some(SoldFor(p + [y], name)) else None
  {
    NamesSnocIn(p, y, name);
    SumBySnoc(p, y, SoldTerm(name));
    StepGet(t, y, name);
    if name !in Names(p) {
      AbsentSums(p, name);
    }
    TallyCase(Assoc.Get(t.count, name), Assoc.Get(Step(t, y).count, name), name in Names(p),
              SoldFor(p, name), SoldFor(p + [y], name), name == NameOf(y), y.quantity, SoldTerm(name)(y));
  }

  lemma NamesSnocIn(p: seq<AnalyticsRow>, y: AnalyticsRow, name: string)
    ensures name in Names(p + [y]) <==> name in Names(p) || name == NameOf(y)
  {
    NamesSnoc(p, y);
  }

  /** One accumulator update, over plain values: `rec[name] = (rec[name] || 0) + q`. */
  lemma TallyCase(g: Option<int>, g': Option<int>, present: bool, s: int, s': int, hit: bool, q: int, term: int)
    requires g == if present then Some(s) else None
    requires !present ==> s == 0
    requires g' == if hit then Some(g.GetOr(0) + q) else g
    requires term == if hit then q else 0
    requires s' == s + term
    ensures g' == if present || hit then Some(s') else None
  {
  }

  lemma StepGet(t: Tally, y: AnalyticsRow, name: string)
    ensures Assoc.Get(Step(t, y).count, name) ==
              if name == NameOf(y) then Some(Assoc.Get(t.count, name).GetOr(0) + y.quantity)
              else Assoc.Get(t.count, name)
    ensures Assoc.Get(Step(t, y).revenue, name) ==
              if name == NameOf(y) then Some(Assoc.Get(t.revenue, name).GetOr(0) + RevenueOf(y))
              else Assoc.Get(t.revenue, name)
    ensures Assoc.Get(Step(t, y).stock, name) ==
              if name == NameOf(y) then Some(StockOf(y)) else Assoc.Get(t.stock, name)
  {
    var n := NameOf(y);
    Assoc.PutGet(t.count, n, Assoc.Get(t.count, n).GetOr(0) + y.quantity, name);
    Assoc.PutGet(t.revenue, n, Assoc.Get(t.revenue, n).GetOr(0) + RevenueOf(y), name);
    Assoc.PutGet(t.stock, n, StockOf(y), name);
  }

  /** A name that never occurs has sold nothing and earned nothing. */
  lemma {:induction false} AbsentSums(rows: seq<AnalyticsRow>, name: string)
    requires name !in Names(rows)
    ensures SoldFor(rows, name) == 0 && RevenueFor(rows, name) == 0
  {
    if |rows| > 0 {
      assert Names(rows) == [NameOf(rows[0])] + Names(rows[1..]);
      AbsentSums(rows[1..], name);
    }
  }

  /** `productRevenue[name]` is the revenue earned under the name. */
  lemma {:induction false} FoldRevenue(rows: seq<AnalyticsRow>, name: string)
    ensures Assoc.Get(Fold(rows).revenue, name) ==
              if name in Names(rows) then Some(RevenueFor(rows, name)) else None
  {
    if |rows| > 0 {
      var p, y := rows[..|rows| - 1], rows[|rows| - 1];
      assert rows == p + [y];
      FoldRevenue(p, name);
      FoldSnoc(p, y);
      RevenueStep(Fold(p), p, y, name);
    }
  }

  lemma RevenueStep(t: Tally, p: seq<AnalyticsRow>, y: AnalyticsRow, name: string)
    requires Assoc.Get(t.revenue, name) == if name in Names(p) then Some(RevenueFor(p, name)) else None
    ensures Assoc.Get(Step(t, y).revenue, name) ==
              if name in Names(p + [y]) then Some(RevenueFor(p + [y], name)) else None
  {
    NamesSnocIn(p, y, name);
    SumBySnoc(p, y, RevenueTerm(name));
    StepGet(t, y, name);
    if name !in Names(p) {
      AbsentSums(p, name);
    }
    TallyCase(Assoc.Get(t.revenue, name), Assoc.Get(Step(t, y).revenue, name), name in Names(p),
              RevenueFor(p, name), RevenueFor(p + [y], name), name == NameOf(y), RevenueOf(y), RevenueTerm(name)(y));
  }

  /** `productStock[name]` is the stock snapshot of the last row with that name. */
  lemma {:induction false} FoldStock(rows: seq<AnalyticsRow>, name: string, i: int)
    requires LastWithName(rows, name, i)
    ensures Assoc.Get(Fold(rows).stock, name) == Some(StockOf(rows[i]))
  {
    var p, y := rows[..|rows| - 1], rows[|rows| - 1];
    assert rows == p + [y];
    FoldSnoc(p, y);
    StepGet(Fold(p), y, name);
    if i < |p| {
      assert NameOf(y) != name;
      assert LastWithName(p, name, i);
      FoldStock(p, name, i);
    }
  }

  /** `hourlyCount` holds the number of orders per hour, and hours only. */
  lemma {:induction false} FoldHourly(rows: seq<AnalyticsRow>, h: int)
    ensures h in Fold(rows).hourly ==> 0 <= h < 24
    ensures HourValue(Fold(rows).hourly, h) == OrdersInHour(rows, h)
  {
    if |rows| > 0 {
      var p, y := rows[..|rows| - 1], rows[|rows| - 1];
      assert rows == p + [y];
      FoldHourly(p, h);
      FoldSnoc(p, y);
      FilterAppend(p, [y], InHour(h));
      assert [y][1..] == [];
    }
  }

  // ---------------------------------------------------------------------
  // Assembling the snapshot.
  // ---------------------------------------------------------------------

  /** `Array.from({ length: k }, (_, hour) => ({ hour: `${hour}:00`, count: hourlyCount[hour] || 0 }))` */
  function HourBuckets(m: map<int, int>, k: nat): (b: seq<HourCount>)
    ensures |b| == k
    ensures forall h :: 0 <= h < k ==> b[h] == HourCount(NatToString(h) + ":00", HourValue(m, h))
  {
    if k == 0 then [] else HourBuckets(m, k - 1) + [HourCount(NatToString(k - 1) + ":00", HourValue(m, k - 1))]
  }

  function RevenueList(al: Assoc.Assoc): (l: seq<NameRevenue>)
    ensures |l| == |al|
    ensures forall i :: 0 <= i < |al| ==> l[i] == NameRevenue(al[i].0, al[i].1)
  {
    if |al| == 0 then [] else [NameRevenue(al[0].0, al[0].1)] + RevenueList(al[1..])
  }

  function StockList(names: seq<string>, count: Assoc.Assoc, stock: Assoc.Assoc): (l: seq<StockSales>)
    ensures |l| == |names|
    ensures forall i :: 0 <= i < |names| ==>
              l[i] == StockSales(names[i], Assoc.Get(count, names[i]).GetOr(0), Assoc.Get(stock, names[i]).GetOr(0))
  {
    if |names| == 0 then []
    else
      [StockSales(names[0], Assoc.Get(count, names[0]).GetOr(0), Assoc.Get(stock, names[0]).GetOr(0))]
        + StockList(names[1..], count, stock)
  }

  function VelocityList(names: seq<string>, count: Assoc.Assoc, days: int): (l: seq<Velocity>)
    ensures |l| == |names|
    ensures forall i :: 0 <= i < |names| ==> l[i] == Velocity(names[i], Assoc.Get(count, names[i]).GetOr(0), days)
  {
    if |names| == 0 then []
    else [Velocity(names[0], Assoc.Get(count, names[0]).GetOr(0), days)] + VelocityList(names[1..], count, days)
  }

  /** `new Set(allDates).size || 1` */
  function UniqueDays(rows: seq<AnalyticsRow>): (n: int)
    ensures n >= 1
    ensures |rows| > 0 ==> n == |Days(rows)|
  {
    var n := |Days(rows)|;
    if n == 0 then 1 else n
  }

  /** The calendar days on which the rows were placed. */
  function Days(rows: seq<AnalyticsRow>): (ds: set<int>)
    ensures |rows| > 0 ==> rows[0].createdAt.day in ds && |ds| >= 1
  {
    set i | 0 <= i < |rows| :: rows[i].createdAt.day
  }

  /** The snapshot built from non-empty rows and their accumulators. */
  function Snapshot(rows: seq<AnalyticsRow>, t: Tally): OrderStats
    requires |t.count| > 0
  {
    var names := Assoc.Keys(t.count);
    OrderStats(
      SumBy(rows, RevenueOf),
      |rows|,
      t.count[Assoc.TopIndex(t.count)].0,
      RevenueList(t.revenue),
      HourBuckets(t.hourly, 24),
      StockList(names, t.count, t.stock),
      VelocityList(names, t.count, UniqueDays(rows)))
  }

  /** The accumulators of a non-empty list are non-empty. */
  lemma FoldNonEmpty(rows: seq<AnalyticsRow>)
    requires |rows| > 0
    ensures |Fold(rows).count| > 0
  {
    FoldKeys(rows);
    DistinctMembers(Names(rows));
    assert NameOf(rows[0]) in Names(rows);
  }

  /** The aggregation in `fetchAnalytics`, on the rows the store returned (`None` for `null`). */
  function Aggregate(data: Option<seq<AnalyticsRow>>): (r: OrderStats)
    ensures data.None? || |data.value| == 0 ==> r == EmptyStats
    ensures data.Some? && |data.value| > 0 ==> r.totalOrders == |data.value| && |r.ordersByHour| == 24
  {
    if data.None? || |data.value| == 0 then EmptyStats
    else
      FoldNonEmpty(data.value);
      Snapshot(data.value, Fold(data.value))
  }

  /** What the Analytics screen holds after a fetch: a failed fetch keeps the previous stats. */
  function FetchAnalytics(prev: Option<OrderStats>, fetched: Result<Option<seq<AnalyticsRow>>, StoreError>): (r: Option<OrderStats>)
    ensures fetched.Err? ==> r == prev
    ensures fetched.Ok? ==> r == Some(Aggregate(fetched.value))
  {
    match fetched
    case Err(_) => prev
    case Ok(data) => Some(Aggregate(data))
  }

  // ---------------------------------------------------------------------
  // What the snapshot says about the rows.
  // ---------------------------------------------------------------------

  function CountOf(c: HourCount): int { c.count }
  function RevenueOfEntry(e: NameRevenue): int { e.revenue }

  /** Orders placed during hours `0 .. k - 1`. */
  function OrdersBefore(rows: seq<AnalyticsRow>, k: nat): int {
    if k == 0 then 0 else OrdersBefore(rows, k - 1) + OrdersInHour(rows, k - 1)
  }

  lemma {:induction false} OrdersBeforeCons(rows: seq<AnalyticsRow>, k: nat)
    requires |rows| > 0
    ensures OrdersBefore(rows, k) == (if rows[0].createdAt.hour < k then 1 else 0) + OrdersBefore(rows[1..], k)
  {
    if k > 0 {
      var tail := rows[1..];
      var h := rows[0].createdAt.hour;
      OrdersBeforeCons(rows, k - 1);
      OrdersInHourCons(rows, k - 1);
      assert OrdersBefore(rows, k) == OrdersBefore(rows, k - 1) + OrdersInHour(rows, k - 1);
      assert OrdersBefore(tail, k) == OrdersBefore(tail, k - 1) + OrdersInHour(tail, k - 1);
      assert (if h < k then 1 else 0) == (if h < k - 1 then 1 else 0) + (if h == k - 1 then 1 else 0);
    }
  }

  lemma OrdersInHourCons(rows: seq<AnalyticsRow>, h: int)
    requires |rows| > 0
    ensures OrdersInHour(rows, h) == (if rows[0].createdAt.hour == h then 1 else 0) + OrdersInHour(rows[1..], h)
  {
  }

  /** Every order falls in exactly one of the 24 hours. */
  lemma {:induction false} OrdersBeforeAll(rows: seq<AnalyticsRow>)
    ensures OrdersBefore(rows, 24) == |rows|
  {
    if |rows| > 0 {
      OrdersBeforeCons(rows, 24);
      OrdersBeforeAll(rows[1..]);
      assert rows[0].createdAt.hour < 24;
    } else {
      OrdersBeforeNone(rows, 24);
    }
  }

  lemma {:induction false} OrdersBeforeNone(rows: seq<AnalyticsRow>, k: nat)
    requires |rows| == 0
    ensures OrdersBefore(rows, k) == 0
  {
    if k > 0 {
      OrdersBeforeNone(rows, k - 1);
    }
  }

  lemma {:induction false} BucketSum(rows: seq<AnalyticsRow>, k: nat)
    requires forall h :: 0 <= h < k ==> HourValue(Fold(rows).hourly, h) == OrdersInHour(rows, h)
    ensures SumBy(HourBuckets(Fold(rows).hourly, k), CountOf) == OrdersBefore(rows, k)
  {
    if k > 0 {
      var m := Fold(rows).hourly;
      BucketSum(rows, k - 1);
      SumBySnoc(HourBuckets(m, k - 1), HourCount(NatToString(k - 1) + ":00", HourValue(m, k - 1)), CountOf);
    }
  }

  /** The histogram has the 24 hours in order, each with its number of orders, adding up to the order count. */
  lemma AggregateHours(rows: seq<AnalyticsRow>)
    requires |rows| > 0
    ensures var r := Aggregate(Some(rows));
      && |r.ordersByHour| == 24
      && (forall h :: 0 <= h < 24 ==> r.ordersByHour[h] == HourCount(NatToString(h) + ":00", OrdersInHour(rows, h)))
      && SumBy(r.ordersByHour, CountOf) == r.totalOrders
  {
    forall h | 0 <= h < 24
      ensures HourValue(Fold(rows).hourly, h) == OrdersInHour(rows, h)
    {
      FoldHourly(rows, h);
    }
    BucketSum(rows, 24);
    OrdersBeforeAll(rows);
  }

  /** Revenue list entries add up to the total revenue. */
  lemma {:induction false} RevenueListSum(al: Assoc.Assoc)
    ensures SumBy(RevenueList(al), RevenueOfEntry) == Assoc.SumValues(al)
  {
    if |al| > 0 {
      RevenueListSum(al[1..]);
    }
  }

  lemma {:induction false} FoldRevenueSum(rows: seq<AnalyticsRow>)
    ensures Assoc.SumValues(Fold(rows).revenue) == SumBy(rows, RevenueOf)
  {
    if |rows| > 0 {
      var p, y := rows[..|rows| - 1], rows[|rows| - 1];
      assert rows == p + [y];
      FoldRevenueSum(p);
      FoldSnoc(p, y);
      StepRevenueSum(Fold(p), y);
      SumBySnoc(p, y, RevenueOf);
    }
  }

  lemma StepRevenueSum(t: Tally, y: AnalyticsRow)
    ensures Assoc.SumValues(Step(t, y).revenue) == Assoc.SumValues(t.revenue) + RevenueOf(y)
  {
    Assoc.AddToSum(t.revenue, NameOf(y), RevenueOf(y));
  }

  /** The per-product revenues partition the total revenue. */
  lemma AggregateRevenue(rows: seq<AnalyticsRow>)
    requires |rows| > 0
    ensures var r := Aggregate(Some(rows));
      && r.totalRevenue == SumBy(rows, RevenueOf)
      && SumBy(r.revenueByProduct, RevenueOfEntry) == r.totalRevenue
  {
    RevenueListSum(Fold(rows).revenue);
    FoldRevenueSum(rows);
  }

  /** The distinct product names in the order they first occur. */
  function ProductNames(rows: seq<AnalyticsRow>): seq<string> {
    Distinct(Names(rows))
  }

  /** The three per-product lists name the same products, once each, by first occurrence. */
  lemma AggregateNames(rows: seq<AnalyticsRow>)
    requires |rows| > 0
    ensures var r := Aggregate(Some(rows)); var d := ProductNames(rows);
      && FirstSeenOrder(Names(rows), d)
      && |r.revenueByProduct| == |d| && |r.stockVsSales| == |d| && |r.salesVelocity| == |d|
      && (forall i :: 0 <= i < |d| ==>
            && r.revenueByProduct[i].name == d[i]
            && r.stockVsSales[i].name == d[i]
            && r.salesVelocity[i].name == d[i])
  {
    FoldKeys(rows);
    DistinctSpec(Names(rows));
  }

  /** Position of the last row carrying `name`. */
  function LastIndex(rows: seq<AnalyticsRow>, name: string): (i: int)
    requires name in Names(rows)
    ensures LastWithName(rows, name, i)
  {
    if NameOf(rows[|rows| - 1]) == name then |rows| - 1
    else
      NamesSnoc(rows[..|rows| - 1], rows[|rows| - 1]);
      assert rows[..|rows| - 1] + [rows[|rows| - 1]] == rows;
      LastIndex(rows[..|rows| - 1], name)
  }

  /** Entry `i` of each list, read off accumulators whose keys are `d`. */
  lemma TallyEntry(t: Tally, d: seq<string>, i: int, days: int, sold: int, revenue: int, stock: int)
    requires Assoc.Keys(t.count) == d && Assoc.Keys(t.revenue) == d && NoDuplicates(d) && 0 <= i < |d|
    requires Assoc.Get(t.count, d[i]) == Some(sold)
    requires Assoc.Get(t.revenue, d[i]) == Some(revenue)
    requires Assoc.Get(t.stock, d[i]) == Some(stock)
    ensures RevenueList(t.revenue)[i] == NameRevenue(d[i], revenue)
    ensures StockList(d, t.count, t.stock)[i] == StockSales(d[i], sold, stock)
    ensures VelocityList(d, t.count, days)[i] == Velocity(d[i], sold, days)
  {
    Assoc.GetAt(t.revenue, i);
  }

  /**
   * Entry `i` of each list carries that product's units sold, revenue and the
   * stock snapshot of its last order; velocity divides by the global day count.
   */
  lemma AggregateValues(rows: seq<AnalyticsRow>, i: int)
    requires |rows| > 0 && 0 <= i < |ProductNames(rows)|
    ensures var r := Aggregate(Some(rows)); var n := ProductNames(rows)[i];
      && n in Names(rows)
      && i < |r.revenueByProduct| && i < |r.stockVsSales| && i < |r.salesVelocity|
      && r.revenueByProduct[i] == NameRevenue(n, RevenueFor(rows, n))
      && r.stockVsSales[i] == StockSales(n, SoldFor(rows, n), StockOf(rows[LastIndex(rows, n)]))
      && r.salesVelocity[i] == Velocity(n, SoldFor(rows, n), UniqueDays(rows))
  {
    var t := Fold(rows);
    var d := ProductNames(rows);
    var n := d[i];
    FoldKeys(rows);
    DistinctSpec(Names(rows));
    assert n in Names(rows);
    FoldCount(rows, n);
    FoldRevenue(rows, n);
    var last := LastIndex(rows, n);
    FoldStock(rows, n, last);
    TallyEntry(t, d, i, UniqueDays(rows), SoldFor(rows, n), RevenueFor(rows, n), StockOf(rows[last]));
    AggregateLists(rows);
    AggregateNames(rows);
  }

  lemma AggregateLists(rows: seq<AnalyticsRow>)
    requires |rows| > 0
    ensures var r := Aggregate(Some(rows)); var t := Fold(rows);
      && r.revenueByProduct == RevenueList(t.revenue)
      && r.stockVsSales == StockList(Assoc.Keys(t.count), t.count, t.stock)
      && r.salesVelocity == VelocityList(Assoc.Keys(t.count), t.count, UniqueDays(rows))
  {
  }

  /** The top entry of accumulators keyed by `d`, in terms of the values `sold` gives each key. */
  lemma TallyTop(count: Assoc.Assoc, d: seq<string>, ns: seq<string>, sold: string -> int)
    requires |count| > 0 && Assoc.Keys(count) == d && FirstSeenOrder(ns, d)
    requires forall k :: 0 <= k < |d| ==> Assoc.Get(count, d[k]) == Some(sold(d[k]))
    ensures var top := count[Assoc.TopIndex(count)].0;
      && top in ns
      && (forall n :: n in ns ==> sold(n) <= sold(top))
      && (forall n :: n in ns && FirstIndex(ns, n) < FirstIndex(ns, top) ==> sold(n) < sold(top))
  {
    var i := Assoc.TopIndex(count);
    var top := count[i].0;
    assert top == d[i];
    forall n | n in ns
      ensures sold(n) <= sold(top)
      ensures FirstIndex(ns, n) < FirstIndex(ns, top) ==> sold(n) < sold(top)
    {
      TallyTopAt(count, d, ns, sold, n);
    }
  }

  lemma TallyTopAt(count: Assoc.Assoc, d: seq<string>, ns: seq<string>, sold: string -> int, n: string)
    requires |count| > 0 && Assoc.Keys(count) == d && FirstSeenOrder(ns, d)
    requires forall k :: 0 <= k < |d| ==> Assoc.Get(count, d[k]) == Some(sold(d[k]))
    requires n in ns
    ensures var top := count[Assoc.TopIndex(count)].0;
      && sold(n) <= sold(top)
      && (FirstIndex(ns, n) < FirstIndex(ns, top) ==> sold(n) < sold(top))
  {
    var i := Assoc.TopIndex(count);
    var top := count[i].0;
    assert top == d[i];
    Assoc.GetAt(count, i);
    assert sold(top) == count[i].1;
    var j := FirstIndex(ns, n);
    assert n in d by {
      assert ns[j] in d;
    }
    var k := FirstIndex(d, n);
    Assoc.GetAt(count, k);
    assert sold(n) == count[k].1;
    if i < k {
      assert FirstIndex(ns, d[i]) < FirstIndex(ns, d[k]);
    }
  }

  function SoldBy(rows: seq<AnalyticsRow>): string -> int {
    (n: string) => SoldFor(rows, n)
  }

  /**
   * The most popular product is a product that sold the most units, and no
   * product first seen before it sold as many.
   */
  lemma AggregateTop(rows: seq<AnalyticsRow>)
    requires |rows| > 0
    ensures var top := Aggregate(Some(rows)).mostPopularProduct; var ns := Names(rows);
      && top in ns
      && (forall n :: n in ns ==> SoldFor(rows, n) <= SoldFor(rows, top))
      && (forall n :: n in ns && FirstIndex(ns, n) < FirstIndex(ns, top) ==> SoldFor(rows, n) < SoldFor(rows, top))
  {
    var t := Fold(rows);
    var ns := Names(rows);
    var d := Distinct(ns);
    FoldKeys(rows);
    DistinctSpec(ns);
    FoldCountAll(rows);
    FoldNonEmpty(rows);
    TallyTop(t.count, d, ns, SoldBy(rows));
    AggregatePopular(rows);
  }

  /** Every product's count entry holds its units sold. */
  lemma FoldCountAll(rows: seq<AnalyticsRow>)
    ensures var d := Distinct(Names(rows));
      forall k :: 0 <= k < |d| ==> Assoc.Get(Fold(rows).count, d[k]) == Some(SoldBy(rows)(d[k]))
  {
    var d := Distinct(Names(rows));
    forall k | 0 <= k < |d|
      ensures Assoc.Get(Fold(rows).count, d[k]) == Some(SoldBy(rows)(d[k]))
    {
      DistinctMembers(Names(rows));
      assert d[k] in Names(rows);
      FoldCount(rows, d[k]);
    }
  }

  lemma AggregatePopular(rows: seq<AnalyticsRow>)
    requires |rows| > 0
    ensures |Fold(rows).count| > 0
    ensures Aggregate(Some(rows)).mostPopularProduct == Fold(rows).count[Assoc.TopIndex(Fold(rows).count)].0
  {
    FoldNonEmpty(rows);
  }
}
