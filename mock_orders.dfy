/**
 * The in-memory orders (`src/mocks/orders.ts`): the 24 seeded orders and
 * `listOrders` (text and status filters, newest first, one page).
 */
module MockOrders {
  import opened Common
  import opened Sorting
  import OrdersRoute

  datatype Status = New | Processing | Shipped | Completed | Cancelled
  datatype Carrier = Nova | Ukr
  datatype Provider = Fondy | Liqpay | Cod
  datatype PaymentStatus = Pending | Paid | Failed

  datatype DeliveryInfo = DeliveryInfo(carrier: Carrier, cityRef: Option<string>,
                                       warehouseRef: Option<string>, address: Option<string>)

  datatype Payment = Payment(provider: Provider, status: PaymentStatus)

  /** An order as `src/types/order.ts` describes it; `createdAt` is its ISO text. */
  datatype Order = Order(id: string, number: string, items: seq<OrdersRoute.OrderItem>,
                         customer: OrdersRoute.Customer, delivery: DeliveryInfo,
                         totals: OrdersRoute.Totals, payment: Payment, ttn: Option<string>,
                         status: Status, createdAt: string)

  // ------------------------------------------------------------ the seed

  /** The status of the `i`-th seeded order: multiples of 5, then of 4, then of 3. */
  function SeedStatus(i: int): Status {
    if i % 5 == 0 then Completed
    else if i % 4 == 0 then Shipped
    else if i % 3 == 0 then Processing
    else New
  }

  /** The two lines every seeded order holds; the first's quantity alternates 2, 1. */
  function SeedItems(i: int): seq<OrdersRoute.OrderItem> {
    [OrdersRoute.OrderItem("p1", i % 2 + 1, "Книга 1", "SKU-P1", Some("https://picsum.photos/seed/p1/200/200"),
                           300, Some(250), 250),
     OrdersRoute.OrderItem("p2", 1, "Книга 2", "SKU-P2", Some("https://picsum.photos/seed/p2/200/200"),
                           230, None, 230)]
  }

  /**
   * The `i`-th seeded order, created `i` hours before `now` (in
   * milliseconds); `toIso` is `Date.prototype.toISOString`.
   */
  function SeedOrder(now: int, toIso: int -> string, i: int): Order {
    var itemsTotal := 250 * (i % 2 + 1) + 230;
    Order("o" + IntToString(i),
          IntToString(100000 + i),
          SeedItems(i),
          OrdersRoute.Customer("Customer " + IntToString(i), "+3805000" + PadStart(IntToString(i), 4, '0'),
                               Some("c" + IntToString(i) + "@mail.com")),
          DeliveryInfo(if i % 2 != 0 then Nova else Ukr, Some("city"), Some("wh"), None),
          OrdersRoute.Totals(itemsTotal, 60, itemsTotal + 60),
          Payment(if i % 2 != 0 then Cod else Fondy, if i % 5 == 0 then Paid else Pending),
          if i % 4 == 0 then Some("2040" + IntToString(i)) else None,
          SeedStatus(i),
          toIso(now - i * 3600 * 1000))
  }

  /** The `j`-th seeded order from 0, that is the order numbered `j + 1`. */
  function SeedAt(now: int, toIso: int -> string): int -> Order {
    (j: int) => SeedOrder(now, toIso, j + 1)
  }

  /** The first `k` seeded orders. */
  function Seeded(now: int, toIso: int -> string, k: nat): seq<Order> {
    seq(k, SeedAt(now, toIso))
  }

  /** The seeding loop: orders 1 to 24, pushed in turn. */
  method SeedOrders(now: int, toIso: int -> string) returns (orders: seq<Order>)
    ensures |orders| == 24
    ensures forall j :: 0 <= j < 24 ==> orders[j] == SeedOrder(now, toIso, j + 1)
  {
    orders := [];
    var i := 1;
    while i <= 24
      invariant 1 <= i <= 25 && orders == Seeded(now, toIso, i - 1)
    {
      var o := SeedOrder(now, toIso, i);
      SeedStep(now, toIso, i);
      orders := orders + [o];
      i := i + 1;
    }
  }

  /** Pushing order `i` extends the first `i - 1`. */
  lemma SeedStep(now: int, toIso: int -> string, i: nat)
    requires i >= 1
    ensures Seeded(now, toIso, i) == Seeded(now, toIso, i - 1) + [SeedOrder(now, toIso, i)]
  {
    SeqSnoc(i - 1, SeedAt(now, toIso));
    assert SeedAt(now, toIso)(i - 1) == SeedOrder(now, toIso, i);
  }

  /**
   * The seeded statuses among orders 1 to 24: 5, 10, 15, 20 completed;
   * 4, 8, 12, 16, 24 shipped; 3, 6, 9, 18, 21 processing; the other ten new.
   */
  lemma SeedStatusCensus(i: nat)
    requires 1 <= i <= 24
    ensures SeedStatus(i) == Completed <==> i in {5, 10, 15, 20}
    ensures SeedStatus(i) == Shipped <==> i in {4, 8, 12, 16, 24}
    ensures SeedStatus(i) == Processing <==> i in {3, 6, 9, 18, 21}
    ensures SeedStatus(i) == New <==> i in {1, 2, 7, 11, 13, 14, 17, 19, 22, 23}
    ensures SeedStatus(i) != Cancelled
  {
  }

  /**
   * In every seeded order the grand total is items plus shipping, the items
   * total is what its lines cost, paid is exactly completed, and shipped
   * orders carry a waybill (`ttn`).
   */
  lemma SeedOrderConsistent(now: int, toIso: int -> string, i: nat)
    ensures var o := SeedOrder(now, toIso, i);
      o.totals.grand == o.totals.items + o.totals.shipping
      && o.totals.items == OrdersRoute.ItemsTotal(o.items)
      && (o.payment.status == Paid <==> o.status == Completed)
      && (o.status == Shipped ==> o.ttn.Some?)
  {
    var o := SeedOrder(now, toIso, i);
    var itemsTotal := 250 * (i % 2 + 1) + 230;
    assert o.totals == OrdersRoute.Totals(itemsTotal, 60, itemsTotal + 60);
    assert o.items == SeedItems(i);
    SeedItemsTotal(i);
    assert o.payment.status == (if i % 5 == 0 then Paid else Pending);
    assert o.status == SeedStatus(i);
    assert o.ttn == if i % 4 == 0 then Some("2040" + IntToString(i)) else None;
  }

  /** The two seeded lines cost 250 per copy of the first and 230 for the second. */
  lemma SeedItemsTotal(i: int)
    ensures OrdersRoute.ItemsTotal(SeedItems(i)) == 250 * (i % 2 + 1) + 230
  {
    var items := SeedItems(i);
    var a, b := items[0], items[1];
    assert a.price == 250 && a.qty == i % 2 + 1 && b.price == 230 && b.qty == 1;
    assert items == [a, b] && items[..1] == [a] && items[..1][..0] == [];
    assert OrdersRoute.ItemsTotal([a]) == a.price * a.qty;
  }

  /**
   * The seed charges 60 for shipping, where the order route's rule would
   * charge 80 for the same lines.
   */
  lemma SeedShippingDiffersFromRoute(now: int, toIso: int -> string, i: nat)
    ensures var o := SeedOrder(now, toIso, i);
      o.totals.shipping == 60 && OrdersRoute.CalcTotals(o.items).shipping == 80
  {
    SeedOrderConsistent(now, toIso, i);
  }

  /** The customer phone is `+3805000` and the order number padded to four digits. */
  lemma SeedPhone(now: int, toIso: int -> string, i: nat)
    requires 1 <= i <= 24
    ensures var phone := SeedOrder(now, toIso, i).customer.phone;
      |phone| == 12 && phone[..8] == "+3805000" && phone[8..10] == "00"
  {
    var digits := NatToString(i);
    assert IntToString(i) == digits;
    NatToStringValue(i);
    assert |digits| <= 2 by {
      if i >= 10 {
        assert digits == NatToString(i / 10) + [DigitChar(i % 10)];
      }
    }
    var padded := PadStart(digits, 4, '0');
    var phone := "+3805000" + padded;
    assert phone[8..10] == padded[..2];
  }

  /**
   * When `toIso` keeps the time order in its text, a lower-numbered seed
   * order (created later) may be listed before a higher-numbered one.
   */
  lemma LowerNumberListedFirst(now: int, toIso: int -> string, i: int, j: int)
    requires forall a, b :: a <= b ==> LexLe(toIso(a), toIso(b))
    requires i <= j
    ensures NewerFirst(SeedOrder(now, toIso, i), SeedOrder(now, toIso, j))
  {
    assert now - j * 3600 * 1000 <= now - i * 3600 * 1000;
  }

  // ------------------------------------------------------------ listOrders

  /** `OrderFilters`; `None` where the field is absent. */
  datatype OrderFilters = OrderFilters(q: Option<string>, status: Option<Status>,
                                       page: Option<int>, perPage: Option<int>)

  function PageOf(f: OrderFilters): int { if f.page.Some? then f.page.value else 1 }
  function PerPageOf(f: OrderFilters): int { if f.perPage.Some? then f.perPage.value else 20 }

  /** The lower-cased number, customer name or phone contains `s`. */
  predicate HasText(o: Order, s: string) {
    Contains(Lower(o.number), s) || Contains(Lower(o.customer.fullName), s)
    || Contains(Lower(o.customer.phone), s)
  }

  /** The text filter, applied when `q` is truthy (present and non-empty). */
  function ByQuery(f: OrderFilters): Order -> bool {
    (o: Order) => f.q.Some? && f.q.value != "" ==> HasText(o, Lower(f.q.value))
  }

  /** The status filter: only that status, when one is given. */
  function ByStatus(f: OrderFilters): Order -> bool {
    (o: Order) => f.status.Some? ==> o.status == f.status.value
  }

  /** `b.createdAt.localeCompare(a.createdAt)`, as "may stay before": later texts first. */
  predicate NewerFirst(a: Order, b: Order) {
    LexLe(b.createdAt, a.createdAt)
  }

  /** The listed orders before paging. */
  function ListedOrders(orders: seq<Order>, f: OrderFilters): seq<Order> {
    SortBy(Filter(Filter(orders, ByQuery(f)), ByStatus(f)), NewerFirst)
  }

  datatype OrderPage = OrderPage(items: seq<Order>, total: int, page: int, perPage: int)

  /** `listOrders`: filters a copy, sorts it newest first and slices the page. */
  method ListOrders(orders: seq<Order>, f: OrderFilters) returns (r: OrderPage)
    ensures r.page == PageOf(f) && r.perPage == PerPageOf(f)
    ensures r.total == |ListedOrders(orders, f)|
    ensures r.items == PageItems(ListedOrders(orders, f), PageOf(f), PerPageOf(f))
  {
    var page := PageOf(f);
    var perPage := PerPageOf(f);
    var list := orders;
    if f.q.Some? && f.q.value != "" {
      var s := Lower(f.q.value);
      list := Filter(list, (o: Order) => HasText(o, s));
      FilterCongruent(orders, (o: Order) => HasText(o, s), ByQuery(f));
    } else {
      FilterAll(orders, ByQuery(f));
    }
    assert list == Filter(orders, ByQuery(f));
    ghost var afterQuery := list;
    if f.status.Some? {
      var st := f.status.value;
      list := Filter(list, (o: Order) => o.status == st);
      FilterCongruent(afterQuery, (o: Order) => o.status == st, ByStatus(f));
    } else {
      FilterAll(afterQuery, ByStatus(f));
    }
    list := SortBy(list, NewerFirst);
    var total := |list|;
    var items := PageItems(list, page, perPage);
    return OrderPage(items, total, page, perPage);
  }

  /** An order is listed exactly when it is stored and passes both filters. */
  lemma ListedOrdersMembers(orders: seq<Order>, f: OrderFilters, o: Order)
    ensures o in ListedOrders(orders, f)
        <==> o in orders && (f.q.Some? && f.q.value != "" ==> HasText(o, Lower(f.q.value)))
             && (f.status.Some? ==> o.status == f.status.value)
  {
    SortByMembers(Filter(Filter(orders, ByQuery(f)), ByStatus(f)), NewerFirst);
  }

  /** Every stored order that passes is listed as many times as it is stored. */
  lemma ListedOrdersPermutation(orders: seq<Order>, f: OrderFilters)
    ensures multiset(ListedOrders(orders, f)) == multiset(Filter(Filter(orders, ByQuery(f)), ByStatus(f)))
  {
  }

  /** The listing is newest first: a later `createdAt` text never follows an earlier one. */
  lemma ListedOrdersNewestFirst(orders: seq<Order>, f: OrderFilters)
    ensures SortedBy(ListedOrders(orders, f), NewerFirst)
  {
    LexLeTotalOrder();
    forall a: Order, b: Order ensures NewerFirst(a, b) || NewerFirst(b, a) {
      LexLeTotalAt(a.createdAt, b.createdAt);
    }
    forall a: Order, b: Order, c: Order | NewerFirst(a, b) && NewerFirst(b, c) ensures NewerFirst(a, c) {
      LexLeTransitiveAt(c.createdAt, b.createdAt, a.createdAt);
    }
    SortBySorted(Filter(Filter(orders, ByQuery(f)), ByStatus(f)), NewerFirst);
  }

  /** With no filters, every order is listed, twenty to a page, first page first. */
  lemma DefaultOrderListing(orders: seq<Order>, o: Order)
    ensures var f := OrderFilters(None, None, None, None);
      PageOf(f) == 1 && PerPageOf(f) == 20 && (o in ListedOrders(orders, f) <==> o in orders)
  {
    ListedOrdersMembers(orders, OrderFilters(None, None, None, None), o);
  }

  /** An empty `q` filters nothing, as an absent one does. */
  lemma EmptyQueryFiltersNothing(orders: seq<Order>, f: OrderFilters)
    ensures ListedOrders(orders, f.(q := Some(""))) == ListedOrders(orders, f.(q := None))
  {
    FilterCongruent(orders, ByQuery(f.(q := Some(""))), ByQuery(f.(q := None)));
    assert ByStatus(f.(q := Some(""))) == ByStatus(f.(q := None));
  }
}
