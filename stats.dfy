/**
  The admin statistics route (src/app/api/admin/stats/route.ts): after the
  admin guards, the paid orders of the café since the start of the chosen
  range are counted, summed, broken down by status, and their order lines
  are tallied by item name into the five best sellers.
 */
module Stats {
  import opened Common
  import opened Types
  import AdminAuth

  /** An `order_items` row as the route selects it. */
  datatype StatsItem = StatsItem(itemName: string, quantity: Option<int>)

  /** An `orders` row as the route selects it; the status is the stored string. */
  datatype StatsOrder = StatsOrder(
    id: string, cafeId: string, status: string, paymentStatus: string,
    totalAmount: int, createdAt: string, items: Option<seq<StatsItem>>)

  // ---------------------------------------------------------------------
  // Range and query
  // ---------------------------------------------------------------------

  /**
    The lower bound of `created_at`. `today`, `weekAgo` and `monthStart` are
    the three values the route derives from the clock; an absent range means
    'today', and so does any value the route does not recognise.
   */
  function RangeStart(timeRange: Option<string>, today: string, weekAgo: string, monthStart: string): (from: string)
    ensures timeRange == Some("week") ==> from == weekAgo
    ensures timeRange == Some("month") ==> from == monthStart
    ensures timeRange != Some("week") && timeRange != Some("month") ==> from == today
  {
    var range := timeRange.GetOr("today");
    if range == "today" then today
    else if range == "week" then weekAgo
    else if range == "month" then monthStart
    else today
  }

  predicate InRange(o: StatsOrder, cafeId: string, from: string) {
    o.cafeId == cafeId && LexLe(from, o.createdAt) && o.paymentStatus == "paid"
  }

  /**
    The fetched orders: the café's paid orders created at or after `from`, in
    table order. A failed query yields no data, which the route counts as no
    orders.
   */
  function Fetched(table: seq<StatsOrder>, queryOk: bool, cafeId: string, from: string): (r: seq<StatsOrder>)
    ensures forall k :: 0 <= k < |r| ==> r[k] in table && InRange(r[k], cafeId, from)
    ensures queryOk ==> forall o :: o in table && InRange(o, cafeId, from) ==> o in r
    ensures !queryOk ==> r == []
  {
    if queryOk then Filter(table, (o: StatsOrder) => InRange(o, cafeId, from)) else []
  }

  // ---------------------------------------------------------------------
  // Totals
  // ---------------------------------------------------------------------

  function Revenue(orders: seq<StatsOrder>): int {
    if orders == [] then 0 else orders[0].totalAmount + Revenue(orders[1..])
  }

  /** The average order value; 0 when there are no orders. */
  function Average(orders: seq<StatsOrder>): (avg: real)
    ensures |orders| == 0 ==> avg == 0.0
    ensures |orders| > 0 ==> avg * (|orders| as real) == Revenue(orders) as real
  {
    if |orders| > 0 then (Revenue(orders) as real) / (|orders| as real) else 0.0
  }

  lemma {:induction false} RevenueBounds(orders: seq<StatsOrder>, lo: int, hi: int)
    requires forall k :: 0 <= k < |orders| ==> lo <= orders[k].totalAmount <= hi
    ensures |orders| * lo <= Revenue(orders) <= |orders| * hi
  {
    if orders != [] {
      RevenueBounds(orders[1..], lo, hi);
    }
  }

  lemma ScaleBack(a: real, b: real, n: real)
    requires n > 0.0 && a * n <= b * n
    ensures a <= b
  {
    assert (b - a) * n == b * n - a * n;
  }

  lemma MeanBetween(total: real, n: real, lo: real, hi: real)
    requires n > 0.0 && n * lo <= total <= n * hi
    ensures lo <= total / n <= hi
  {
    var a := total / n;
    assert a * n == total;
    ScaleBack(lo, a, n);
    ScaleBack(a, hi, n);
  }

  /** The average lies between the smallest and the largest order total. */
  lemma AverageBetween(orders: seq<StatsOrder>, lo: int, hi: int)
    requires orders != []
    requires forall k :: 0 <= k < |orders| ==> lo <= orders[k].totalAmount <= hi
    ensures lo as real <= Average(orders) <= hi as real
  {
    RevenueBounds(orders, lo, hi);
    var n := |orders|;
    assert ((n * lo) as real) == (n as real) * (lo as real);
    assert ((n * hi) as real) == (n as real) * (hi as real);
    MeanBetween(Revenue(orders) as real, n as real, lo as real, hi as real);
  }

  // ---------------------------------------------------------------------
  // Status breakdown
  // ---------------------------------------------------------------------

  function StatusCount(orders: seq<StatsOrder>, name: string): (n: nat)
    ensures n <= |orders|
  {
    |Filter(orders, (o: StatsOrder) => o.status == name)|
  }

  lemma StatusCountFirst(orders: seq<StatsOrder>, name: string)
    requires orders != []
    ensures StatusCount(orders, name) == (if orders[0].status == name then 1 else 0) + StatusCount(orders[1..], name)
  {
  }

  datatype Breakdown = Breakdown(
    pending: nat, confirmed: nat, preparing: nat, ready: nat,
    completed: nat, cancelled: nat, refunded: nat)

  function BreakdownOf(orders: seq<StatsOrder>): Breakdown {
    Breakdown(
      StatusCount(orders, StatusName(Pending)),
      StatusCount(orders, StatusName(Confirmed)),
      StatusCount(orders, StatusName(Preparing)),
      StatusCount(orders, StatusName(Ready)),
      StatusCount(orders, StatusName(Completed)),
      StatusCount(orders, StatusName(Cancelled)),
      StatusCount(orders, StatusName(Refunded)))
  }

  function Sum(b: Breakdown): nat {
    b.pending + b.confirmed + b.preparing + b.ready + b.completed + b.cancelled + b.refunded
  }

  predicate IsKnownStatus(s: string) {
    exists st: OrderStatus :: StatusName(st) == s
  }

  lemma KnownStatusCounts(s: string)
    ensures (if s == StatusName(Pending) then 1 else 0) + (if s == StatusName(Confirmed) then 1 else 0)
      + (if s == StatusName(Preparing) then 1 else 0) + (if s == StatusName(Ready) then 1 else 0)
      + (if s == StatusName(Completed) then 1 else 0) + (if s == StatusName(Cancelled) then 1 else 0)
      + (if s == StatusName(Refunded) then 1 else 0)
      == (if IsKnownStatus(s) then 1 else 0)
  {
    if IsKnownStatus(s) {
      var st: OrderStatus :| StatusName(st) == s;
    }
  }

  /**
    Each order is counted under at most one status, so the breakdown never
    exceeds the number of orders, and accounts for all of them exactly when
    every stored status is one of the seven the application writes.
   */
  lemma {:induction false} BreakdownAccounts(orders: seq<StatsOrder>)
    ensures Sum(BreakdownOf(orders)) <= |orders|
    ensures Sum(BreakdownOf(orders)) == |orders| <==> forall k :: 0 <= k < |orders| ==> IsKnownStatus(orders[k].status)
  {
    if orders != [] {
      BreakdownAccounts(orders[1..]);
      StatusCountFirst(orders, StatusName(Pending));
      StatusCountFirst(orders, StatusName(Confirmed));
      StatusCountFirst(orders, StatusName(Preparing));
      StatusCountFirst(orders, StatusName(Ready));
      StatusCountFirst(orders, StatusName(Completed));
      StatusCountFirst(orders, StatusName(Cancelled));
      StatusCountFirst(orders, StatusName(Refunded));
      KnownStatusCounts(orders[0].status);
      assert Sum(BreakdownOf(orders)) == (if IsKnownStatus(orders[0].status) then 1 else 0) + Sum(BreakdownOf(orders[1..]));
      if forall k :: 0 <= k < |orders| ==> IsKnownStatus(orders[k].status) {
        assert forall k :: 0 <= k < |orders[1..]| ==> IsKnownStatus(orders[1..][k].status) by {
          forall k | 0 <= k < |orders[1..]| ensures IsKnownStatus(orders[1..][k].status) {
            assert orders[1..][k] == orders[k + 1];
          }
        }
      } else {
        var k :| 0 <= k < |orders| && !IsKnownStatus(orders[k].status);
        if k > 0 {
          assert orders[1..][k - 1] == orders[k];
        }
      }
    }
  }

  // ---------------------------------------------------------------------
  // Top items
  // ---------------------------------------------------------------------

  /** `item.quantity || 1`: a missing or zero quantity counts as one. */
  function Qty(it: StatsItem): (q: int)
    ensures q != 0
    ensures it.quantity.Some? && it.quantity.value != 0 ==> q == it.quantity.value
    ensures it.quantity.None? || it.quantity.value == 0 ==> q == 1
  {
    if it.quantity.Some? && it.quantity.value != 0 then it.quantity.value else 1
  }

  /** The order lines of all orders, in order (an order without lines adds none). */
  function AllItems(orders: seq<StatsOrder>): seq<StatsItem> {
    if orders == [] then []
    else AllItems(orders[..|orders| - 1]) + orders[|orders| - 1].items.GetOr([])
  }

  /** The distinct item names, in order of first appearance. */
  function Names(items: seq<StatsItem>): seq<string> {
    if items == [] then []
    else
      var ns := Names(items[..|items| - 1]);
      var n := items[|items| - 1].itemName;
      if n in ns then ns else ns + [n]
  }

  /** The quantity sold of the item called `name`. */
  function Tally(items: seq<StatsItem>, name: string): int {
    if items == [] then 0
    else
      var last := items[|items| - 1];
      Tally(items[..|items| - 1], name) + (if last.itemName == name then Qty(last) else 0)
  }

  lemma {:induction false} NamesDistinct(items: seq<StatsItem>)
    ensures NoDuplicates(Names(items))
  {
    if items != [] {
      NamesDistinct(items[..|items| - 1]);
    }
  }

  lemma {:induction false} NamesAreTheNames(items: seq<StatsItem>, n: string)
    ensures n in Names(items) <==> exists k :: 0 <= k < |items| && items[k].itemName == n
  {
    if items != [] {
      var init := items[..|items| - 1];
      NamesAreTheNames(init, n);
      if exists k :: 0 <= k < |init| && init[k].itemName == n {
        var k :| 0 <= k < |init| && init[k].itemName == n;
        assert items[k].itemName == n;
      }
      if exists k :: 0 <= k < |items| && items[k].itemName == n {
        var k :| 0 <= k < |items| && items[k].itemName == n;
        if k < |init| {
          assert init[k].itemName == n;
        }
      }
    }
  }

  /**
    An item that was never ordered has no tally; one that was, with no
    negative quantity recorded, has a tally of at least one.
   */
  lemma {:induction false} TallyOfNames(items: seq<StatsItem>, n: string)
    ensures n !in Names(items) ==> Tally(items, n) == 0
    ensures (forall k :: 0 <= k < |items| ==> items[k].quantity.GetOr(0) >= 0) && n in Names(items)
      ==> Tally(items, n) >= 1
  {
    if items != [] {
      var init := items[..|items| - 1];
      assert forall k :: 0 <= k < |init| ==> init[k] == items[k];
      TallyOfNames(init, n);
      if forall k :: 0 <= k < |items| ==> items[k].quantity.GetOr(0) >= 0 {
        TallyNonNegative(init, n);
      }
    }
  }

  lemma {:induction false} TallyNonNegative(items: seq<StatsItem>, n: string)
    requires forall k :: 0 <= k < |items| ==> items[k].quantity.GetOr(0) >= 0
    ensures Tally(items, n) >= 0
  {
    if items != [] {
      var init := items[..|items| - 1];
      assert forall k :: 0 <= k < |init| ==> init[k] == items[k];
      TallyNonNegative(init, n);
    }
  }

  /** Tallies of two batches of lines add up. */
  lemma {:induction false} TallyAppend(a: seq<StatsItem>, b: seq<StatsItem>, n: string)
    ensures Tally(a + b, n) == Tally(a, n) + Tally(b, n)
  {
    if b != [] {
      var ab := a + b;
      assert ab[..|ab| - 1] == a + b[..|b| - 1];
      TallyAppend(a, b[..|b| - 1], n);
    } else {
      assert a + b == a;
    }
  }

  lemma NextLine(prev: seq<StatsItem>, it: StatsItem)
    ensures Names(prev + [it]) == if it.itemName in Names(prev) then Names(prev) else Names(prev) + [it.itemName]
    ensures forall n :: Tally(prev + [it], n) == Tally(prev, n) + (if it.itemName == n then Qty(it) else 0)
  {
    assert (prev + [it])[..|prev|] == prev;
  }

  lemma ExtendByOne<T>(done: seq<T>, xs: seq<T>, j: nat)
    requires j < |xs|
    ensures done + xs[..j + 1] == (done + xs[..j]) + [xs[j]]
  {
    assert xs[..j + 1] == xs[..j] + [xs[j]];
  }

  lemma NextOrder(orders: seq<StatsOrder>, i: nat)
    requires i < |orders|
    ensures AllItems(orders[..i + 1]) == AllItems(orders[..i]) + orders[i].items.GetOr([])
  {
    assert orders[..i + 1][..i] == orders[..i];
  }

  /** `names` and `counts` are the item map after the lines `lines`. */
  ghost predicate Tallied(lines: seq<StatsItem>, names: seq<string>, counts: map<string, int>) {
    && names == Names(lines)
    && (forall n :: n in counts <==> n in names)
    && (forall n :: n in counts ==> counts[n] == Tally(lines, n))
  }

  /** One `itemMap.set` keeps the map equal to the tally of the lines seen. */
  lemma AddLineKeepsTally(prev: seq<StatsItem>, it: StatsItem, names: seq<string>, counts: map<string, int>)
    requires Tallied(prev, names, counts)
    ensures Tallied(prev + [it],
      if it.itemName in counts then names else names + [it.itemName],
      counts[it.itemName := (if it.itemName in counts then counts[it.itemName] else 0) + Qty(it)])
  {
    TallyOfNames(prev, it.itemName);
    NextLine(prev, it);
  }

  /** One step of the inner loop keeps the map equal to the tally of the lines seen. */
  lemma NextLineKeepsTally(done: seq<StatsItem>, items: seq<StatsItem>, j: nat, names: seq<string>, counts: map<string, int>)
    requires j < |items| && Tallied(done + items[..j], names, counts)
    ensures var it := items[j];
      Tallied(done + items[..j + 1],
        if it.itemName in counts then names else names + [it.itemName],
        counts[it.itemName := (if it.itemName in counts then counts[it.itemName] else 0) + Qty(it)])
  {
    AddLineKeepsTally(done + items[..j], items[j], names, counts);
    ExtendByOne(done, items, j);
  }

  /** The inner `forEach` of the route: adds one order's lines to the item map. */
  method AddLines(ghost done: seq<StatsItem>, items: seq<StatsItem>, names0: seq<string>, counts0: map<string, int>)
    returns (names: seq<string>, counts: map<string, int>)
    requires Tallied(done, names0, counts0)
    ensures Tallied(done + items, names, counts)
  {
    names, counts := names0, counts0;
    assert done + items[..0] == done;
    var j := 0;
    while j < |items|
      invariant 0 <= j <= |items|
      invariant Tallied(done + items[..j], names, counts)
    {
      var it := items[j];
      NextLineKeepsTally(done, items, j, names, counts);
      var existing := if it.itemName in counts then counts[it.itemName] else 0;
      names := if it.itemName in counts then names else names + [it.itemName];
      counts := counts[it.itemName := existing + Qty(it)];
      j := j + 1;
    }
    assert items[..|items|] == items;
  }

  /**
    The tally of the lines of all orders. The route builds a `Map` from item
    name to tally with two nested loops; `names` is the map's key order
    (insertion order) and `counts` its contents.
   */
  method BuildItemMap(orders: seq<StatsOrder>) returns (names: seq<string>, counts: map<string, int>)
    ensures names == Names(AllItems(orders))
    ensures forall n :: n in counts <==> n in names
    ensures forall n :: n in counts ==> counts[n] == Tally(AllItems(orders), n)
  {
    names := [];
    counts := map[];
    var i := 0;
    while i < |orders|
      invariant 0 <= i <= |orders|
      invariant Tallied(AllItems(orders[..i]), names, counts)
    {
      names, counts := AddLines(AllItems(orders[..i]), orders[i].items.GetOr([]), names, counts);
      NextOrder(orders, i);
      i := i + 1;
    }
    assert orders[..|orders|] == orders;
  }

  datatype TopItem = TopItem(name: string, quantity: int)

  /** `Array.from(itemMap.values())`: one entry per name, in insertion order. */
  function ItemEntries(items: seq<StatsItem>): (r: seq<TopItem>)
    ensures |r| == |Names(items)|
    ensures forall k :: 0 <= k < |r| ==> r[k] == TopItem(Names(items)[k], Tally(items, Names(items)[k]))
  {
    var ns := Names(items);
    seq(|ns|, k requires 0 <= k < |ns| => TopItem(ns[k], Tally(items, ns[k])))
  }

  /** The comparator `b.count - a.count`: larger tallies first. */
  predicate MoreSold(a: TopItem, b: TopItem) {
    a.quantity >= b.quantity
  }

  lemma MoreSoldIsPreorder()
    ensures TotalPreorder(MoreSold)
  {
  }

  /** Sorted by tally, larger first (a stable sort), and cut to five. */
  function TopItems(items: seq<StatsItem>): seq<TopItem> {
    var sorted := SortBy(ItemEntries(items), MoreSold);
    sorted[..if |sorted| < 5 then |sorted| else 5]
  }

  lemma {:induction false} NoDuplicatesSingleCopy<T>(s: seq<T>, x: T)
    requires NoDuplicates(s)
    ensures multiset(s)[x] <= 1
  {
    if s != [] {
      assert s == [s[0]] + s[1..];
      assert NoDuplicates(s[1..]);
      NoDuplicatesSingleCopy(s[1..], x);
      if x == s[0] {
        assert x !in s[1..];
      }
    }
  }

  lemma TwoCopies<T>(s: seq<T>, i: nat, j: nat)
    requires i < j < |s| && s[i] == s[j]
    ensures multiset(s)[s[i]] >= 2
  {
    assert s == s[..j] + [s[j]] + s[j + 1..];
    assert s[i] in s[..j];
  }

  /** The best sellers are the first five entries of the sorted list. */
  lemma TopItemsArePrefix(items: seq<StatsItem>)
    ensures var sorted := SortBy(ItemEntries(items), MoreSold);
      var r := TopItems(items);
      && |r| == (if |Names(items)| < 5 then |Names(items)| else 5)
      && r == sorted[..|r|]
  {
  }

  /** Every sorted entry is an item that was ordered, with its full tally. */
  lemma SortedEntriesAreTallies(items: seq<StatsItem>)
    ensures var sorted := SortBy(ItemEntries(items), MoreSold);
      forall x | x in sorted :: x in ItemEntries(items) && x.name in Names(items) && x.quantity == Tally(items, x.name)
  {
    var entries := ItemEntries(items);
    var sorted := SortBy(entries, MoreSold);
    forall x | x in sorted
      ensures x in entries && x.name in Names(items) && x.quantity == Tally(items, x.name)
    {
      assert x in multiset(sorted);
    }
  }

  /** Reordering a list without duplicates keeps it without duplicates. */
  lemma PermutedNoDuplicates<T>(s: seq<T>, t: seq<T>)
    requires multiset(s) == multiset(t) && NoDuplicates(s)
    ensures NoDuplicates(t)
  {
    forall i, j | 0 <= i < j < |t| ensures t[i] != t[j] {
      if t[i] == t[j] {
        TwoCopies(t, i, j);
        NoDuplicatesSingleCopy(s, t[i]);
      }
    }
  }

  /** Distinct names make distinct entries. */
  lemma EntriesDistinct(items: seq<StatsItem>)
    ensures NoDuplicates(ItemEntries(items))
  {
    NamesDistinct(items);
  }

  /** The best sellers are distinct items, each with its full tally. */
  lemma TopItemsDistinct(items: seq<StatsItem>)
    ensures var r := TopItems(items);
      && (forall k :: 0 <= k < |r| ==> r[k].name in Names(items) && r[k].quantity == Tally(items, r[k].name))
      && (forall i, j :: 0 <= i < j < |r| ==> r[i].name != r[j].name)
  {
    var sorted := SortBy(ItemEntries(items), MoreSold);
    var r := TopItems(items);
    TopItemsArePrefix(items);
    SortedEntriesAreTallies(items);
    EntriesDistinct(items);
    PermutedNoDuplicates(ItemEntries(items), sorted);
    forall k | 0 <= k < |r|
      ensures r[k].name in Names(items) && r[k].quantity == Tally(items, r[k].name)
    {
      assert r[k] == sorted[k] && sorted[k] in sorted;
    }
    forall i, j | 0 <= i < j < |r| ensures r[i].name != r[j].name {
      assert r[i] == sorted[i] && r[j] == sorted[j];
      assert sorted[i] in sorted && sorted[j] in sorted;
    }
  }

  /** In a list sorted by tally, an entry outside the first m sold no more than any of them. */
  lemma PrefixOutsells(sorted: seq<TopItem>, m: nat, e: TopItem)
    requires SortedBy(sorted, MoreSold) && m <= |sorted|
    requires e in sorted && e !in sorted[..m]
    ensures forall k :: 0 <= k < m ==> sorted[k].quantity >= e.quantity
  {
    var q :| 0 <= q < |sorted| && sorted[q] == e;
  }

  /** The best sellers come in non-increasing order of tally. */
  lemma TopItemsOrdered(items: seq<StatsItem>)
    ensures var r := TopItems(items);
      forall i, j :: 0 <= i < j < |r| ==> r[i].quantity >= r[j].quantity
  {
    var sorted := SortBy(ItemEntries(items), MoreSold);
    MoreSoldIsPreorder();
    SortBySorted(ItemEntries(items), MoreSold);
    TopItemsArePrefix(items);
    var r := TopItems(items);
    assert forall i, j :: 0 <= i < j < |r| ==> r[i] == sorted[i] && r[j] == sorted[j] && MoreSold(sorted[i], sorted[j]);
  }

  /** No item left out of the best sellers sold more than any item listed. */
  lemma TopItemsBeatTheRest(items: seq<StatsItem>, n: string)
    requires n in Names(items)
    requires forall m :: 0 <= m < |TopItems(items)| ==> TopItems(items)[m].name != n
    ensures forall k :: 0 <= k < |TopItems(items)| ==> Tally(items, n) <= TopItems(items)[k].quantity
  {
    var entries := ItemEntries(items);
    var sorted := SortBy(entries, MoreSold);
    var r := TopItems(items);
    MoreSoldIsPreorder();
    SortBySorted(entries, MoreSold);
    TopItemsArePrefix(items);
    var p :| 0 <= p < |Names(items)| && Names(items)[p] == n;
    var e := entries[p];
    assert e in multiset(entries);
    assert e in sorted;
    assert e !in r;
    PrefixOutsells(sorted, |r|, e);
  }

  // ---------------------------------------------------------------------
  // The route
  // ---------------------------------------------------------------------

  datatype Report = Report(
    timeRange: string, totalOrders: nat, totalRevenue: int, averageOrderValue: real,
    statusBreakdown: Breakdown, topItems: seq<TopItem>)

  datatype StatsResponse = StatsDenied(reason: AdminAuth.Denial) | StatsReport(report: Report)

  /** The report over the fetched orders. */
  function ReportOf(timeRange: Option<string>, orders: seq<StatsOrder>): Report {
    Report(
      timeRange.GetOr("today"), |orders|, Revenue(orders), Average(orders),
      BreakdownOf(orders), TopItems(AllItems(orders)))
  }

  /**
    The report counts every fetched order, its breakdown does not exceed
    that count, it lists at most five items, and its average is 0 when there
    are no orders.
   */
  lemma ReportBounds(timeRange: Option<string>, orders: seq<StatsOrder>)
    ensures var rep := ReportOf(timeRange, orders);
      && rep.totalOrders == |orders|
      && Sum(rep.statusBreakdown) <= rep.totalOrders
      && |rep.topItems| <= 5
      && (rep.totalOrders == 0 ==> rep.averageOrderValue == 0.0)
  {
    BreakdownAccounts(orders);
    TopItemsArePrefix(AllItems(orders));
  }

  /**
    The answer of the route. `table` is the `orders` table, `queryOk`
    whether the query returned data, and `today`, `weekAgo` and `monthStart`
    the clock-derived bounds.
   */
  function StatsOf(
    signedIn: bool, profile: Option<Profile>, timeRange: Option<string>,
    table: seq<StatsOrder>, queryOk: bool, today: string, weekAgo: string, monthStart: string): (r: StatsResponse)
    ensures r.StatsDenied? <==> AdminAuth.CheckAdmin(signedIn, profile).Denied?
    ensures r.StatsDenied? ==> r.reason == AdminAuth.CheckAdmin(signedIn, profile).reason
    ensures r.StatsReport? ==>
      var cafeId := profile.value.cafeId.value;
      r.report == ReportOf(timeRange, Fetched(table, queryOk, cafeId, RangeStart(timeRange, today, weekAgo, monthStart)))
  {
    match AdminAuth.CheckAdmin(signedIn, profile)
    case Denied(d) => StatsDenied(d)
    case Granted(cafeId) =>
      StatsReport(ReportOf(timeRange, Fetched(table, queryOk, cafeId, RangeStart(timeRange, today, weekAgo, monthStart))))
  }

  /** `POST /api/admin/stats`. */
  method Post(
    signedIn: bool, profile: Option<Profile>, timeRange: Option<string>,
    table: seq<StatsOrder>, queryOk: bool, today: string, weekAgo: string, monthStart: string)
    returns (r: StatsResponse)
    ensures r == StatsOf(signedIn, profile, timeRange, table, queryOk, today, weekAgo, monthStart)
  {
    var access := AdminAuth.CheckAdmin(signedIn, profile);
    if access.Denied? {
      return StatsDenied(access.reason);
    }
    var from := RangeStart(timeRange, today, weekAgo, monthStart);
    var orders := Fetched(table, queryOk, access.cafeId, from);
    var names, counts := BuildItemMap(orders);
    var entries := seq(|names|, k requires 0 <= k < |names| => TopItem(names[k], counts[names[k]]));
    assert entries == ItemEntries(AllItems(orders));
    var sorted := SortBy(entries, MoreSold);
    var top := sorted[..if |sorted| < 5 then |sorted| else 5];
    r := StatsReport(Report(
      timeRange.GetOr("today"), |orders|, Revenue(orders), Average(orders),
      BreakdownOf(orders), top));
    assert r.report == ReportOf(timeRange, orders);
  }
}
