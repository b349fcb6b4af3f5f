/**
 * `POST /api/orders` (`src/app/api/orders/route.ts`): validates the
 * payload, checks every product id, normalises each cart line against the
 * stored product and prices the order. The database is the list of
 * stored products, ObjectId validity a predicate given by the caller, the
 * order number an input, and the stored order numbers a set. Saving checks
 * the Order schema (`src/lib/models/Order.ts`): its item rules, its two
 * enums and its unique order number.
 */
module OrdersRoute {
  import opened Common

  /** One element of `items`: `null`, or a line whose `productId` is "" when absent and whose `qty` is `None` when not a number. */
  datatype LineIn = NullLine | LineIn(productId: string, qty: Option<int>)

  datatype Customer = Customer(fullName: string, phone: string, email: Option<string>)

  /** The delivery fields; "" stands for an absent or empty field. */
  datatype DeliveryIn = DeliveryIn(carrier: string, city: string, cityRef: string,
                                   warehouse: string, warehouseRef: string, address: string)

  /** The payload; `None` for an `items` that is not an array, or an absent object. */
  datatype Payload = Payload(items: Option<seq<LineIn>>, customer: Option<Customer>,
                             delivery: Option<DeliveryIn>, provider: Option<string>, notes: string)

  /** A stored product as the route reads it. */
  datatype ProductDoc = ProductDoc(id: string, title: string, sku: string, price: int,
                                   salePrice: Option<int>, stock: Option<int>, images: seq<string>)

  datatype OrderItem = OrderItem(productId: string, qty: int, title: string, sku: string,
                                 image: Option<string>, basePrice: int, salePrice: Option<int>, price: int)

  datatype Totals = Totals(items: int, shipping: int, grand: int)

  /** The delivery object built with only the truthy fields. */
  datatype Delivery = Delivery(carrier: string, city: Option<string>, cityRef: Option<string>,
                               warehouse: Option<string>, warehouseRef: Option<string>, address: Option<string>)

  datatype OrderData = OrderData(number: string, items: seq<OrderItem>, customer: Customer,
                                 delivery: Delivery, totals: Totals, provider: string,
                                 paymentStatus: string, status: string, notes: Option<string>)

  datatype Outcome =
    | Rejected(status: int, error: string)
    | Crashed                        // a property read on `null`/`undefined` throws: status 500
    | SaveFailed                     // the Order schema or its unique index refuses the save: status 500
    | Accepted(order: OrderData)     // saved and answered with status 201

  datatype LineResult = LineOk(item: OrderItem) | LineErr(status: int, error: string)

  // ------------------------------------------------------------ totals

  const FreeShippingFrom: int := 1500
  const ShippingFee: int := 80

  function ItemsTotal(items: seq<OrderItem>): int {
    if items == [] then 0 else ItemsTotal(items[..|items| - 1]) + items[|items| - 1].price * items[|items| - 1].qty
  }

  /** `calcTotals`: free shipping from 1500, 80 below it; the grand total adds the two. */
  function CalcTotals(items: seq<OrderItem>): (t: Totals)
    ensures t.items == ItemsTotal(items)
    ensures t.shipping == (if t.items >= FreeShippingFrom then 0 else ShippingFee)
    ensures t.grand == t.items + t.shipping
  {
    var itemsTotal := ItemsTotal(items);
    var shipping := if itemsTotal >= 1500 then 0 else 80;
    Totals(itemsTotal, shipping, itemsTotal + shipping)
  }

  // ------------------------------------------------------------ product ids

  /** `Array.from(new Set(xs))`: first occurrences in order. */
  function Distinct(xs: seq<string>): (r: seq<string>)
    ensures forall x :: x in r <==> x in xs
  {
    if xs == [] then []
    else
      var d := Distinct(xs[..|xs| - 1]);
      assert forall x :: x in xs <==> x in xs[..|xs| - 1] || x == xs[|xs| - 1];
      if xs[|xs| - 1] in d then d else d + [xs[|xs| - 1]]
  }

  function ProductIds(items: seq<LineIn>): seq<string>
    requires NullLine !in items
  {
    if items == [] then [] else [items[0].productId] + ProductIds(items[1..])
  }

  /** The ids the route checks: distinct, and non-empty (`.filter(Boolean)`). */
  function CheckedIds(items: seq<LineIn>): seq<string>
    requires NullLine !in items
  {
    Filter(Distinct(ProductIds(items)), (id: string) => id != "")
  }

  /** The first id that is not a valid ObjectId. */
  function FirstInvalid(ids: seq<string>, isValid: string -> bool): (r: Option<string>)
    ensures r.None? <==> forall id :: id in ids ==> isValid(id)
    ensures r.Some? ==> r.value in ids && !isValid(r.value)
  {
    if ids == [] then None
    else
      var init := ids[..|ids| - 1];
      assert forall x :: x in ids <==> x in init || x == ids[|ids| - 1];
      var r := FirstInvalid(init, isValid);
      if r.Some? then r else if !isValid(ids[|ids| - 1]) then Some(ids[|ids| - 1]) else None
  }

  // ------------------------------------------------------------ lines

  /** The stored product with this id. */
  function FindProduct(db: seq<ProductDoc>, id: string): (r: Option<ProductDoc>)
    ensures r.Some? ==> r.value in db && r.value.id == id
    ensures r.None? <==> forall p :: p in db ==> p.id != id
  {
    if db == [] then None else if db[0].id == id then Some(db[0]) else FindProduct(db[1..], id)
  }

  /** `salePrice ?? basePrice`. */
  function UnitPrice(p: ProductDoc): int {
    if p.salePrice.Some? then p.salePrice.value else p.price
  }

  /** The first image when it is a non-empty string. */
  function FirstImage(images: seq<string>): Option<string> {
    if |images| > 0 && images[0] != "" then Some(images[0]) else None
  }

  /** One line on its own: its shape, then its product, then that product's stock. */
  function NormalizeLine(line: LineIn, db: seq<ProductDoc>): LineResult
    requires line.LineIn?
  {
    if line.productId == "" || line.qty.None? || line.qty.value <= 0 then
      LineErr(400, "Each item must have productId and qty > 0")
    else
      var found := FindProduct(db, line.productId);
      if found.None? then LineErr(400, "Product not found: " + line.productId)
      else
        var p := found.value;
        var stock := if p.stock.Some? then p.stock.value else 0;
        if stock < line.qty.value then LineErr(409, "Insufficient stock for product " + p.sku)
        else LineOk(OrderItem(p.id, line.qty.value, p.title, p.sku, FirstImage(p.images),
                              p.price, p.salePrice, UnitPrice(p)))
  }

  /** The normalised lines in input order, or the error of the first line that fails. */
  function NormalizeAll(items: seq<LineIn>, db: seq<ProductDoc>): Result
    requires NullLine !in items
  {
    if items == [] then Lines([])
    else
      var prev := NormalizeAll(items[..|items| - 1], db);
      if prev.LinesErr? then prev
      else match NormalizeLine(items[|items| - 1], db)
        case LineErr(st, e) => LinesErr(st, e)
        case LineOk(it) => Lines(prev.lines + [it])
  }

  datatype Result = Lines(lines: seq<OrderItem>) | LinesErr(status: int, error: string)

  // ------------------------------------------------------------ the route

  function DeliveryOf(d: DeliveryIn): Delivery {
    Delivery(d.carrier, NonEmpty(d.city), NonEmpty(d.cityRef), NonEmpty(d.warehouse),
             NonEmpty(d.warehouseRef), NonEmpty(d.address))
  }

  function NonEmpty(s: string): Option<string> {
    if s != "" then Some(s) else None
  }

  // ------------------------------------------------------------ the save

  /** The `enum`s of `delivery.carrier` and `payment.provider` in the Order schema. */
  const OrderCarriers: set<string> := {"nova", "ukr"}
  const OrderProviders: set<string> := {"fondy", "liqpay", "cod"}

  /** An item the item schema accepts: a quantity of at least 1, a title, and prices not below 0. */
  predicate ItemSavable(it: OrderItem) {
    it.qty >= 1 && it.title != "" && it.basePrice >= 0 && it.price >= 0
  }

  /**
   * What `order.save()` lets through: every item, a carrier and a provider
   * of their enums, and a number not yet stored. `providers` is the enum of
   * `payment.provider`.
   */
  predicate Savable(o: OrderData, providers: set<string>, stored: set<string>) {
    (forall it :: it in o.items ==> ItemSavable(it))
    && o.delivery.carrier in OrderCarriers && o.provider in providers
    && o.number != "" && o.number !in stored
  }

  /** `order.save()`: the order is created when the schema and the unique index let it through, and answered 500 otherwise. */
  function Save(o: OrderData, providers: set<string>, stored: set<string>): Outcome {
    if Savable(o, providers, stored) then Accepted(o) else SaveFailed
  }

  /** The order the route builds from a payload whose lines all passed. */
  function BuildOrder(p: Payload, lines: seq<OrderItem>, number: string): OrderData
    requires p.customer.Some? && p.delivery.Some? && p.provider.Some?
  {
    OrderData(number, lines, p.customer.value, DeliveryOf(p.delivery.value),
              CalcTotals(lines), p.provider.value, "pending", "new", NonEmpty(p.notes))
  }

  /** The route's answer when the save admits the providers `providers`. */
  function PostWith(p: Payload, isValid: string -> bool, db: seq<ProductDoc>, number: string,
                    stored: set<string>, providers: set<string>): Outcome
  {
    if p.items.None? || p.items.value == [] then Rejected(400, "Items are required")
    else if p.customer.None? || p.customer.value.fullName == "" || p.customer.value.phone == "" then
      Rejected(400, "Customer fullName and phone are required")
    else if NullLine in p.items.value then Crashed
    else
      var bad := FirstInvalid(CheckedIds(p.items.value), isValid);
      if bad.Some? then Rejected(400, "Invalid productId: " + bad.value)
      else
        var r := NormalizeAll(p.items.value, db);
        if r.LinesErr? then Rejected(r.status, r.error)
        else if p.delivery.None? || p.provider.None? then Crashed
        else Save(BuildOrder(p, r.lines, number), providers, stored)
  }

  /** What `POST` answers for a payload, given the stored products, a fresh order number and the numbers stored. */
  function Post(p: Payload, isValid: string -> bool, db: seq<ProductDoc>, number: string, stored: set<string>): Outcome {
    PostWith(p, isValid, db, number, stored, OrderProviders)
  }

  /** `POST`: the checks in order, the loop over the ids, the loop over the lines, and the order it saves. */
  method HandlePost(p: Payload, isValid: string -> bool, db: seq<ProductDoc>, number: string, stored: set<string>)
    returns (outcome: Outcome)
    ensures outcome == Post(p, isValid, db, number, stored)
  {
    if p.items.None? || |p.items.value| == 0 {
      return Rejected(400, "Items are required");
    }
    var items := p.items.value;
    if p.customer.None? || p.customer.value.fullName == "" || p.customer.value.phone == "" {
      return Rejected(400, "Customer fullName and phone are required");
    }
    if NullLine in items {
      return Crashed;
    }
    var bad := CheckIds(CheckedIds(items), isValid);
    if bad.Some? {
      return Rejected(400, "Invalid productId: " + bad.value);
    }
    var r := NormalizeLines(items, db);
    if r.LinesErr? {
      return Rejected(r.status, r.error);
    }
    if p.delivery.None? || p.provider.None? {
      return Crashed;
    }
    var order := BuildOrder(p, r.lines, number);
    if !Savable(order, OrderProviders, stored) {
      return SaveFailed;
    }
    outcome := Accepted(order);
  }

  /** The loop over the distinct ids: the first one that is not a valid ObjectId, checked in order. */
  method CheckIds(ids: seq<string>, isValid: string -> bool) returns (bad: Option<string>)
    ensures bad == FirstInvalid(ids, isValid)
  {
    var objectIds: seq<string> := [];
    var i := 0;
    while i < |ids|
      invariant 0 <= i <= |ids|
      invariant FirstInvalid(ids[..i], isValid).None? && objectIds == ids[..i]
    {
      assert ids[..i + 1][..i] == ids[..i];
      if !isValid(ids[i]) {
        FirstInvalidPrefix(ids, i + 1, isValid);
        return Some(ids[i]);
      }
      objectIds := objectIds + [ids[i]];
      i := i + 1;
    }
    assert ids[..i] == ids;
    return None;
  }

  /** The loop over the lines: each normalised in turn, stopping at the first that fails. */
  method NormalizeLines(items: seq<LineIn>, db: seq<ProductDoc>) returns (r: Result)
    requires NullLine !in items
    ensures r == NormalizeAll(items, db)
  {
    var normalized: seq<OrderItem> := [];
    var j := 0;
    while j < |items|
      invariant 0 <= j <= |items|
      invariant NormalizeAll(items[..j], db) == Lines(normalized)
    {
      assert items[j] in items;
      var line := NormalizeLine(items[j], db);
      NormalizeAllStep(items, j, db, normalized);
      if line.LineErr? {
        return LinesErr(line.status, line.error);
      }
      normalized := normalized + [line.item];
      j := j + 1;
    }
    assert items[..j] == items;
    return Lines(normalized);
  }

  /** An invalid id among the first `k` is the first invalid id of all of them. */
  lemma {:induction false} FirstInvalidPrefix(ids: seq<string>, k: nat, isValid: string -> bool)
    requires k <= |ids| && FirstInvalid(ids[..k], isValid).Some?
    ensures FirstInvalid(ids, isValid) == FirstInvalid(ids[..k], isValid)
    decreases |ids| - k
  {
    if k < |ids| {
      assert ids[..k + 1][..k] == ids[..k];
      FirstInvalidPrefix(ids, k + 1, isValid);
    } else {
      assert ids[..k] == ids;
    }
  }

  /** One more line: its item is appended, or its error is the answer for all the lines. */
  lemma NormalizeAllStep(items: seq<LineIn>, j: nat, db: seq<ProductDoc>, acc: seq<OrderItem>)
    requires NullLine !in items && j < |items| && NormalizeAll(items[..j], db) == Lines(acc)
    ensures NormalizeLine(items[j], db).LineOk? ==>
      NormalizeAll(items[..j + 1], db) == Lines(acc + [NormalizeLine(items[j], db).item])
    ensures NormalizeLine(items[j], db).LineErr? ==>
      NormalizeAll(items, db) == LinesErr(NormalizeLine(items[j], db).status, NormalizeLine(items[j], db).error)
  {
    assert items[..j + 1][..j] == items[..j];
    assert items[j] in items;
    assert NullLine !in items[..j + 1] by {
      assert forall x :: x in items[..j + 1] ==> x in items;
    }
    if NormalizeLine(items[j], db).LineErr? {
      NormalizeAllPrefix(items, j + 1, db);
    }
  }

  /** A line error among the first `k` lines is the answer for all of them. */
  lemma {:induction false} NormalizeAllPrefix(items: seq<LineIn>, k: nat, db: seq<ProductDoc>)
    requires NullLine !in items && k <= |items|
    requires NullLine !in items[..k] && NormalizeAll(items[..k], db).LinesErr?
    ensures NormalizeAll(items, db) == NormalizeAll(items[..k], db)
    decreases |items| - k
  {
    if k < |items| {
      assert items[..k + 1][..k] == items[..k];
      assert NullLine !in items[..k + 1] by {
        assert forall x :: x in items[..k + 1] ==> x in items;
      }
      NormalizeAllPrefix(items, k + 1, db);
    } else {
      assert items[..k] == items;
    }
  }

  // ------------------------------------------------------------ what a response means

  /** No items, or items that are not an array, are refused first. */
  lemma EmptyItemsRejected(p: Payload, isValid: string -> bool, db: seq<ProductDoc>, number: string, stored: set<string>)
    requires p.items.None? || p.items.value == []
    ensures Post(p, isValid, db, number, stored) == Rejected(400, "Items are required")
  {
  }

  /** With items, a missing customer name or phone is refused before any id is looked at. */
  lemma MissingCustomerRejected(p: Payload, isValid: string -> bool, db: seq<ProductDoc>, number: string, stored: set<string>)
    requires p.items.Some? && p.items.value != []
    requires p.customer.None? || p.customer.value.fullName == "" || p.customer.value.phone == ""
    ensures Post(p, isValid, db, number, stored) == Rejected(400, "Customer fullName and phone are required")
  {
  }

  /**
   * An invalid product id anywhere in the items is refused with 400 before
   * any line is checked, whatever the lines' quantities or stock.
   */
  lemma InvalidIdFirst(p: Payload, isValid: string -> bool, db: seq<ProductDoc>, number: string, stored: set<string>, k: int)
    requires p.items.Some? && p.items.value != [] && NullLine !in p.items.value
    requires p.customer.Some? && p.customer.value.fullName != "" && p.customer.value.phone != ""
    requires 0 <= k < |p.items.value| && p.items.value[k].productId != "" && !isValid(p.items.value[k].productId)
    ensures Post(p, isValid, db, number, stored).Rejected? && Post(p, isValid, db, number, stored).status == 400
    ensures StartsWith(Post(p, isValid, db, number, stored).error, "Invalid productId: ")
  {
    var items := p.items.value;
    ProductIdsHas(items, k);
    var id := items[k].productId;
    assert id in CheckedIds(items);
    var bad := FirstInvalid(CheckedIds(items), isValid);
    var e := "Invalid productId: " + bad.value;
    assert e[..|"Invalid productId: "|] == "Invalid productId: ";
  }

  lemma {:induction false} ProductIdsHas(items: seq<LineIn>, k: int)
    requires NullLine !in items && 0 <= k < |items|
    ensures items[k].productId in ProductIds(items)
  {
    if k > 0 {
      assert items[1..][k - 1] == items[k];
      ProductIdsHas(items[1..], k - 1);
    }
  }

  /** A payload with items, no `null` line, a named customer with a phone, a delivery and a payment. */
  predicate WellFormed(p: Payload) {
    p.items.Some? && p.items.value != [] && NullLine !in p.items.value
    && p.customer.Some? && p.customer.value.fullName != "" && p.customer.value.phone != ""
    && p.delivery.Some? && p.provider.Some?
  }

  /**
   * A well-formed payload never crashes the route. It is refused exactly for
   * its ids or its lines; past them it is saved exactly when the order passes
   * the Order schema with a new number, and answered 500 otherwise.
   */
  lemma WellFormedDecidedByLines(p: Payload, isValid: string -> bool, db: seq<ProductDoc>, number: string, stored: set<string>)
    requires WellFormed(p)
    ensures !Post(p, isValid, db, number, stored).Crashed?
    ensures Post(p, isValid, db, number, stored).Rejected? <==>
      FirstInvalid(CheckedIds(p.items.value), isValid).Some? || NormalizeAll(p.items.value, db).LinesErr?
    ensures !Post(p, isValid, db, number, stored).Rejected? ==>
      NormalizeAll(p.items.value, db).Lines?
      && (Post(p, isValid, db, number, stored).Accepted? <==>
          Savable(BuildOrder(p, NormalizeAll(p.items.value, db).lines, number), OrderProviders, stored))
      && (Post(p, isValid, db, number, stored).SaveFailed? <==>
          !Savable(BuildOrder(p, NormalizeAll(p.items.value, db).lines, number), OrderProviders, stored))
  {
    if FirstInvalid(CheckedIds(p.items.value), isValid).None? && NormalizeAll(p.items.value, db).Lines? {
      PastChecks(p, isValid, db, number, stored, OrderProviders);
    }
  }

  /** A payment provider outside the schema's enum is never saved. */
  lemma ProviderOutsideEnumNeverAccepted(p: Payload, isValid: string -> bool, db: seq<ProductDoc>, number: string, stored: set<string>)
    requires p.provider.Some? && p.provider.value !in OrderProviders
    ensures !Post(p, isValid, db, number, stored).Accepted?
  {
  }

  /** A carrier outside the schema's enum is never saved. */
  lemma CarrierOutsideEnumNeverAccepted(p: Payload, isValid: string -> bool, db: seq<ProductDoc>, number: string, stored: set<string>)
    requires p.delivery.Some? && p.delivery.value.carrier !in OrderCarriers
    ensures !Post(p, isValid, db, number, stored).Accepted?
  {
  }

  /** An order number already stored breaks the unique index, so nothing is saved. */
  lemma TakenNumberNeverAccepted(p: Payload, isValid: string -> bool, db: seq<ProductDoc>, number: string, stored: set<string>)
    requires number in stored
    ensures !Post(p, isValid, db, number, stored).Accepted?
  {
  }

  /**
   * The provider enum with `requisites` added: the payment method the
   * checkout page offers beside `cod`, which the schema as written lacks.
   */
  const IntendedProviders: set<string> := OrderProviders + {"requisites"}

  /** A well-formed payload whose provider is outside the enum is refused for its lines or fails to save. */
  lemma OutsideEnumRefusedOrFails(p: Payload, isValid: string -> bool, db: seq<ProductDoc>, number: string, stored: set<string>)
    requires WellFormed(p) && p.provider.value !in OrderProviders
    ensures Post(p, isValid, db, number, stored).Rejected? || Post(p, isValid, db, number, stored).SaveFailed?
  {
    WellFormedDecidedByLines(p, isValid, db, number, stored);
  }

  /**
   * A well-formed payload past the route's checks, with a carrier of the
   * enum, savable products and a new number, is created under the enum
   * `providers` exactly when its provider is in it.
   */
  lemma SavedIffProvider(p: Payload, isValid: string -> bool, db: seq<ProductDoc>, number: string,
                         stored: set<string>, providers: set<string>)
    requires WellFormed(p) && p.delivery.value.carrier in OrderCarriers
    requires number != "" && number !in stored
    requires forall d :: d in db ==> ProductSavable(d)
    requires !Post(p, isValid, db, number, stored).Rejected?
    ensures PostWith(p, isValid, db, number, stored, providers).Accepted? <==> p.provider.value in providers
  {
    WellFormedDecidedByLines(p, isValid, db, number, stored);
    var r := NormalizeAll(p.items.value, db);
    PastChecks(p, isValid, db, number, stored, providers);
    NormalizedSavable(p.items.value, db);
    var o := BuildOrder(p, r.lines, number);
    assert Savable(o, providers, stored) <==> o.provider in providers;
  }

  /** Past the ids and the lines, only the save decides, under any provider enum. */
  lemma PastChecks(p: Payload, isValid: string -> bool, db: seq<ProductDoc>, number: string,
                   stored: set<string>, providers: set<string>)
    requires WellFormed(p) && FirstInvalid(CheckedIds(p.items.value), isValid).None?
    requires NormalizeAll(p.items.value, db).Lines?
    ensures var o := BuildOrder(p, NormalizeAll(p.items.value, db).lines, number);
      PostWith(p, isValid, db, number, stored, providers) == Save(o, providers, stored)
  {
    var r := NormalizeAll(p.items.value, db);
    assert !r.LinesErr?;
  }

  /** A stored product the item schema accepts once ordered: a title and prices not below 0. */
  predicate ProductSavable(d: ProductDoc) {
    d.title != "" && d.price >= 0 && (d.salePrice.Some? ==> d.salePrice.value >= 0)
  }

  /** When every stored product is savable, so is every normalised line. */
  lemma NormalizedSavable(items: seq<LineIn>, db: seq<ProductDoc>)
    requires NullLine !in items && NormalizeAll(items, db).Lines?
    requires forall d :: d in db ==> ProductSavable(d)
    ensures forall it :: it in NormalizeAll(items, db).lines ==> ItemSavable(it)
  {
    NormalizedLines(items, db);
    var ls := NormalizeAll(items, db).lines;
    forall it | it in ls ensures ItemSavable(it) {
      var i :| 0 <= i < |ls| && ls[i] == it;
      assert LineMatches(items[i], ls[i], db);
    }
  }

  /** Every refusal is a 400 or, for a product short of stock, a 409. */
  lemma RejectionStatuses(p: Payload, isValid: string -> bool, db: seq<ProductDoc>, number: string, stored: set<string>)
    requires Post(p, isValid, db, number, stored).Rejected?
    ensures Post(p, isValid, db, number, stored).status in {400, 409}
  {
    if p.items.Some? && NullLine !in p.items.value {
      NormalizeAllStatuses(p.items.value, db);
    }
  }

  lemma {:induction false} NormalizeAllStatuses(items: seq<LineIn>, db: seq<ProductDoc>)
    requires NullLine !in items
    ensures NormalizeAll(items, db).LinesErr? ==> NormalizeAll(items, db).status in {400, 409}
  {
    if items != [] {
      var init := items[..|items| - 1];
      assert NullLine !in init by {
        assert forall x :: x in init ==> x in items;
      }
      NormalizeAllStatuses(init, db);
    }
  }

  /**
   * A normalised line carries its quantity, its product's id, the sale
   * price when there is one and the base price otherwise, the first image,
   * and a quantity within its product's stock.
   */
  predicate LineMatches(line: LineIn, it: OrderItem, db: seq<ProductDoc>) {
    line.LineIn? &&
    var pr := FindProduct(db, line.productId);
    line.qty.Some? && it.qty == line.qty.value > 0
    && pr.Some? && it.productId == pr.value.id == line.productId
    && it.title == pr.value.title
    && it.price == UnitPrice(pr.value) && it.basePrice == pr.value.price
    && it.salePrice == pr.value.salePrice && it.image == FirstImage(pr.value.images)
    && it.qty <= (if pr.value.stock.Some? then pr.value.stock.value else 0)
  }

  lemma LineOkMatches(line: LineIn, db: seq<ProductDoc>)
    requires line.LineIn? && NormalizeLine(line, db).LineOk?
    ensures LineMatches(line, NormalizeLine(line, db).item, db)
  {
  }

  /** When every line passes, there is one normalised line per input line, in input order. */
  lemma {:induction false} NormalizedLines(items: seq<LineIn>, db: seq<ProductDoc>)
    requires NullLine !in items && NormalizeAll(items, db).Lines?
    ensures |NormalizeAll(items, db).lines| == |items|
    ensures forall i :: 0 <= i < |items| ==> LineMatches(items[i], NormalizeAll(items, db).lines[i], db)
  {
    if items != [] {
      var init := items[..|items| - 1];
      assert NullLine !in init by {
        assert forall x :: x in init ==> x in items;
      }
      NormalizedLines(init, db);
      var last := items[|items| - 1];
      assert last in items;
      LineOkMatches(last, db);
      var ls := NormalizeAll(items, db).lines;
      assert ls == NormalizeAll(init, db).lines + [NormalizeLine(last, db).item];
      forall i | 0 <= i < |items| ensures LineMatches(items[i], ls[i], db) {
        if i < |init| {
          assert items[i] == init[i];
        }
      }
    }
  }

  /**
   * Lines are checked one at a time, not against the running total: two
   * lines of the same product each within its stock are both accepted
   * even when together they exceed it.
   */
  lemma StockCheckedPerLine(pr: ProductDoc, q: int, db: seq<ProductDoc>)
    requires pr.id != "" && db == [pr] && pr.stock.Some? && 0 < q <= pr.stock.value < 2 * q
    ensures var items := [LineIn(pr.id, Some(q)), LineIn(pr.id, Some(q))];
      NormalizeAll(items, db).Lines? && |NormalizeAll(items, db).lines| == 2
  {
    var line := LineIn(pr.id, Some(q));
    var items := [line, line];
    assert FindProduct(db, pr.id) == Some(pr);
    assert NormalizeLine(line, db).LineOk?;
    assert items[..1] == [line] && items[..1][..0] == [] && items[..2] == items;
    assert NormalizeAll([], db) == Lines([]);
    assert NormalizeAll([line], db).Lines? && |NormalizeAll([line], db).lines| == 1;
  }

  /** An accepted order is new, awaits payment, and is priced by `calcTotals` over its lines. */
  lemma AcceptedOrder(p: Payload, isValid: string -> bool, db: seq<ProductDoc>, number: string, stored: set<string>)
    requires Post(p, isValid, db, number, stored).Accepted?
    ensures var o := Post(p, isValid, db, number, stored).order;
      o.status == "new" && o.paymentStatus == "pending" && o.number == number
      && o.totals == CalcTotals(o.items) && o.totals.grand == o.totals.items + o.totals.shipping
      && p.items.Some? && |o.items| == |p.items.value|
      && (forall id :: id in CheckedIds(p.items.value) ==> isValid(id))
  {
    NormalizedLines(p.items.value, db);
  }
}
