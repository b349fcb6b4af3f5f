/**
 * The checkout page (`src/app/checkout/page.tsx`): the form state, its
 * validation, the three-step wizard, the city and warehouse pickers, the
 * totals shown, and the submit handler that sends the order and empties
 * the cart. The order request's answer and the delivery-cost lookup are
 * inputs; rendering, routing and the autocomplete fetches are left out.
 */
module Checkout {
  import opened Common
  import opened Cart
  import OrdersRoute

  /** The form's fields, which are also the keys an error can be recorded under. */
  datatype Field = Name | Email | Phone | Address | City | CityRef | Warehouse | WarehouseRef | PaymentMethod | Notes

  datatype Form = Form(name: string, email: string, phone: string, address: string,
                       city: string, cityRef: string, warehouse: string, warehouseRef: string,
                       paymentMethod: string, notes: string)

  datatype Step = CartStep | Shipping | Payment

  datatype SubmitOutcome =
    | NotSent                  // the form failed validation: no order was requested
    | SendFailed               // the order request failed: an alert is shown, the cart is kept
    | Confirmed(url: string)   // the order exists: the cart is emptied and the page moves on

  /** The values the form starts with. */
  function InitialForm(): Form {
    Form("Имя Фамилия", "email@example.com", "+380991234567", "Адрес доставки", "Город",
         "city_1234567890", "Відділення №1", "warehouse_1234567890", "cod", "Примітка до замовлення")
  }

  function Get(f: Form, k: Field): string {
    match k
      case Name => f.name
      case Email => f.email
      case Phone => f.phone
      case Address => f.address
      case City => f.city
      case CityRef => f.cityRef
      case Warehouse => f.warehouse
      case WarehouseRef => f.warehouseRef
      case PaymentMethod => f.paymentMethod
      case Notes => f.notes
  }

  /** `{ ...prev, [name]: value }`: the field is set and every other field kept. */
  function SetField(f: Form, k: Field, v: string): (r: Form)
    ensures Get(r, k) == v
    ensures forall j :: j != k ==> Get(r, j) == Get(f, j)
  {
    match k
      case Name => f.(name := v)
      case Email => f.(email := v)
      case Phone => f.(phone := v)
      case Address => f.(address := v)
      case City => f.(city := v)
      case CityRef => f.(cityRef := v)
      case Warehouse => f.(warehouse := v)
      case WarehouseRef => f.(warehouseRef := v)
      case PaymentMethod => f.(paymentMethod := v)
      case Notes => f.(notes := v)
  }

  // ------------------------------------------------------------ formats

  /** No character is white space (`\S` throughout). */
  predicate NoSpace(s: string) {
    s == [] || (!IsJsSpace(s[0]) && NoSpace(s[1..]))
  }

  /** A `.` with at least one character before it and one after it. */
  predicate DotInside(t: string) {
    |t| >= 3 && (t[1] == '.' || DotInside(t[1..]))
  }

  /** An `@` with at least one character before it, followed by a `DotInside` part. */
  predicate AtThenDot(s: string) {
    |s| >= 2 && ((s[1] == '@' && DotInside(s[2..])) || AtThenDot(s[1..]))
  }

  /**
   * `/^\S+@\S+\.\S+$/`: no white space, an `@` after at least one
   * character, and a `.` after at least one more character and before at
   * least one more (lemma `EmailOkIff` states it with positions).
   */
  predicate EmailOk(s: string) {
    NoSpace(s) && AtThenDot(s)
  }

  lemma {:induction false} DotInsideIff(t: string)
    ensures DotInside(t) <==> exists j | 1 <= j <= |t| - 2 :: t[j] == '.'
  {
    if |t| >= 3 {
      DotInsideIff(t[1..]);
      if exists j | 1 <= j <= |t| - 2 :: t[j] == '.' {
        var j :| 1 <= j <= |t| - 2 && t[j] == '.';
        if j > 1 { assert t[1..][j - 1] == '.'; }
      }
      if DotInside(t[1..]) {
        var j :| 1 <= j <= |t[1..]| - 2 && t[1..][j] == '.';
        assert t[j + 1] == '.';
      }
    }
  }

  lemma {:induction false} AtThenDotIff(s: string)
    ensures AtThenDot(s) <==> exists i, j | 0 < i && i + 1 < j < |s| - 1 :: s[i] == '@' && s[j] == '.'
  {
    if |s| >= 2 {
      AtThenDotIff(s[1..]);
      DotInsideIff(s[2..]);
      if exists i, j | 0 < i && i + 1 < j < |s| - 1 :: s[i] == '@' && s[j] == '.' {
        var i, j :| 0 < i && i + 1 < j < |s| - 1 && s[i] == '@' && s[j] == '.';
        if i == 1 {
          assert s[2..][j - 2] == '.';
        } else {
          assert s[1..][i - 1] == '@' && s[1..][j - 1] == '.';
        }
      }
      if AtThenDot(s[1..]) {
        var i, j :| 0 < i && i + 1 < j < |s[1..]| - 1 && s[1..][i] == '@' && s[1..][j] == '.';
        assert s[i + 1] == '@' && s[j + 1] == '.';
      }
      if s[1] == '@' && DotInside(s[2..]) {
        var j :| 1 <= j <= |s[2..]| - 2 && s[2..][j] == '.';
        assert s[j + 2] == '.';
      }
    }
  }

  /** The email format, by positions. */
  lemma EmailOkIff(s: string)
    ensures EmailOk(s) <==> NoSpace(s) && exists i, j | 0 < i && i + 1 < j < |s| - 1 :: s[i] == '@' && s[j] == '.'
  {
    AtThenDotIff(s);
  }

  predicate PhoneChar(c: char) {
    IsAsciiDigit(c) || IsJsSpace(c) || c == '-'
  }

  predicate PhoneChars(s: string) {
    s == [] || (PhoneChar(s[0]) && PhoneChars(s[1..]))
  }

  /** `/^\+?[0-9\s-]{10,15}$/`: an optional `+`, then 10 to 15 digits, spaces or dashes. */
  predicate PhoneOk(s: string) {
    var body := if |s| > 0 && s[0] == '+' then s[1..] else s;
    10 <= |body| <= 15 && PhoneChars(body)
  }

  // ------------------------------------------------------------ validation

  /** The messages `validateForm` can record. */
  datatype Message = NameRequired | EmailRequired | PhoneRequired | CityRequired | WarehouseRequired
                   | EmailInvalid | PhoneInvalid

  /** The text shown under the field. */
  function MessageText(m: Message): string {
    match m
      case NameRequired => "Ім'я обов'язкове"
      case EmailRequired => "Email обов'язковий"
      case PhoneRequired => "Телефон обов'язковий"
      case CityRequired => "Оберіть місто зі списку"
      case WarehouseRequired => "Оберіть відділення зі списку"
      case EmailInvalid => "Некоректний email"
      case PhoneInvalid => "Некоректний телефон"
  }

  /**
   * The message `validateForm` leaves on a field: a format error replaces
   * the required message, the city and its reference share the 'city'
   * key, and the warehouse and its reference report on 'address'.
   */
  function FieldError(f: Form, k: Field): Option<Message> {
    match k
      case Name => if Blank(f.name) then Some(NameRequired) else None
      case Email =>
        if f.email != "" && !EmailOk(f.email) then Some(EmailInvalid)
        else if Blank(f.email) then Some(EmailRequired) else None
      case Phone =>
        if f.phone != "" && !PhoneOk(f.phone) then Some(PhoneInvalid)
        else if Blank(f.phone) then Some(PhoneRequired) else None
      case City => if f.city == "" || f.cityRef == "" then Some(CityRequired) else None
      case Address => if f.warehouse == "" || f.warehouseRef == "" then Some(WarehouseRequired) else None
      case _ => None
  }

  /** What a submittable form is, field by field. */
  predicate FormValid(f: Form) {
    !Blank(f.name) && !Blank(f.email) && !Blank(f.phone)
    && f.city != "" && f.cityRef != "" && f.warehouse != "" && f.warehouseRef != ""
    && EmailOk(f.email) && PhoneOk(f.phone)
  }

  /** A form is valid exactly when no field has an error. */
  lemma FormValidIff(f: Form)
    ensures FormValid(f) <==> forall k :: FieldError(f, k).None?
  {
    if FormValid(f) {
      forall k ensures FieldError(f, k).None? {
        ValidFieldHasNoError(f, k);
      }
    } else {
      InvalidFormHasError(f);
    }
  }

  lemma ValidFieldHasNoError(f: Form, k: Field)
    requires FormValid(f)
    ensures FieldError(f, k).None?
  {
  }

  lemma InvalidFormHasError(f: Form)
    requires !FormValid(f)
    ensures exists k :: FieldError(f, k).Some?
  {
    if Blank(f.name) {
      assert FieldError(f, Name).Some?;
    } else if Blank(f.email) || !EmailOk(f.email) {
      assert FieldError(f, Email).Some?;
    } else if Blank(f.phone) || !PhoneOk(f.phone) {
      assert FieldError(f, Phone).Some?;
    } else if f.city == "" || f.cityRef == "" {
      assert FieldError(f, City).Some?;
    } else {
      assert FieldError(f, Address).Some?;
    }
  }

  /** The seven fields the shipping step looks at, checked for emptiness only. */
  predicate ShippingFilled(f: Form) {
    f.name != "" && f.email != "" && f.phone != "" && f.city != "" && f.cityRef != ""
    && f.warehouse != "" && f.warehouseRef != ""
  }

  /** `goToNextStep`: the step it leads to. */
  function NextStep(s: Step, f: Form): Step {
    match s
      case CartStep => Shipping
      case Shipping => if ShippingFilled(f) then Payment else Shipping
      case Payment => Payment
  }

  /** `goToPrevStep`: the step it leads to. */
  function PrevStep(s: Step): Step {
    match s
      case Payment => Shipping
      case Shipping => CartStep
      case CartStep => CartStep
  }

  function StepIndex(s: Step): nat {
    match s
      case CartStep => 0
      case Shipping => 1
      case Payment => 2
  }

  /** Forward moves one step at most and never back; backward the other way round. */
  lemma StepMoves(s: Step, f: Form)
    ensures StepIndex(s) <= StepIndex(NextStep(s, f)) <= StepIndex(s) + 1
    ensures StepIndex(PrevStep(s)) <= StepIndex(s) <= StepIndex(PrevStep(s)) + 1
    ensures NextStep(s, f) != s ==> PrevStep(NextStep(s, f)) == s
    ensures NextStep(Shipping, f) == Payment <==> ShippingFilled(f)
  {
  }

  /** A valid form can always leave the shipping step. */
  lemma ValidFormAdvances(f: Form)
    requires FormValid(f)
    ensures NextStep(Shipping, f) == Payment
  {
  }

  /**
   * The shipping step tests emptiness, not the trimmed value or the
   * formats: a blank name still reaches the payment step, where the
   * submit then refuses the form.
   */
  lemma BlankNameReachesPayment()
    ensures var f := InitialForm().(name := " ");
      NextStep(Shipping, f) == Payment && !FormValid(f)
  {
    var f := InitialForm().(name := " ");
    assert Blank(f.name[1..]);
  }

  // ------------------------------------------------------------ order payload and totals

  /** `Object.values(cart.items).reduce((sum, item) => sum + item.price * item.qty, 0)`. */
  function ValuesTotal(items: seq<CartItem>): int {
    if items == [] then 0 else ValuesTotal(items[..|items| - 1]) + items[|items| - 1].price * items[|items| - 1].qty
  }

  /** The page's subtotal is the cart's own subtotal. */
  lemma {:induction false} ValuesTotalIsSumPrice(items: seq<CartItem>)
    ensures ValuesTotal(items) == SumPrice(items)
  {
    if items != [] {
      var init := items[..|items| - 1];
      ValuesTotalIsSumPrice(init);
      if |items| > 1 {
        assert init[1..] == items[1..][..|items[1..]| - 1];
        ValuesTotalIsSumPrice(items[1..]);
        ValuesTotalIsSumPrice(init[1..]);
      }
    }
  }

  function OrderLines(items: seq<CartItem>): (r: seq<OrdersRoute.LineIn>)
    ensures |r| == |items|
    ensures forall i :: 0 <= i < |items| ==> r[i] == OrdersRoute.LineIn(items[i].productId, Some(items[i].qty))
  {
    if items == [] then [] else [OrdersRoute.LineIn(items[0].productId, Some(items[0].qty))] + OrderLines(items[1..])
  }

  /** The order request built from the form and the cart's lines. */
  function OrderPayload(f: Form, items: seq<CartItem>): OrdersRoute.Payload {
    OrdersRoute.Payload(
      Some(OrderLines(items)),
      Some(OrdersRoute.Customer(f.name, f.phone, Some(f.email))),
      Some(OrdersRoute.DeliveryIn("nova", f.city, f.cityRef, f.warehouse, f.warehouseRef, f.address)),
      Some(f.paymentMethod),
      f.notes)
  }

  /**
   * What the page sends from a valid form and a non-empty cart passes the
   * route's payload checks and names a carrier of the schema's enum: the
   * route can then refuse it only for its ids, products or stock, and the
   * save can still fail on the payment provider or the order number.
   */
  lemma PayloadPassesRouteChecks(f: Form, items: seq<CartItem>)
    requires FormValid(f) && items != []
    ensures OrdersRoute.WellFormed(OrderPayload(f, items))
    ensures OrderPayload(f, items).delivery.value.carrier in OrdersRoute.OrderCarriers
    ensures OrderPayload(f, items).provider == Some(f.paymentMethod)
  {
    ValidFormAdvances(f);
    var lines := OrderLines(items);
    assert OrdersRoute.NullLine !in lines by {
      forall i | 0 <= i < |lines| ensures lines[i].LineIn? { }
    }
  }

  /** The two payment methods the page's radio buttons offer. */
  const PaymentMethods: set<string> := {"cod", "requisites"}

  /**
   * The page offers `requisites`, which the Order schema's provider enum
   * lacks: such an order from a valid form is refused for its lines or
   * fails to save with 500, and is never created.
   */
  lemma RequisitesNeverOrdered(f: Form, items: seq<CartItem>, isValid: string -> bool,
                               db: seq<OrdersRoute.ProductDoc>, number: string, stored: set<string>)
    requires FormValid(f) && items != [] && f.paymentMethod == "requisites"
    ensures var r := OrdersRoute.Post(OrderPayload(f, items), isValid, db, number, stored);
      r.Rejected? || r.SaveFailed?
  {
    PayloadPassesRouteChecks(f, items);
    OrdersRoute.OutsideEnumRefusedOrFails(OrderPayload(f, items), isValid, db, number, stored);
  }

  /**
   * An order of the page that passes the route's checks, of stored products
   * the item schema accepts and with a new number, is created under the
   * intended provider enum whichever offered method was chosen; as written
   * it is created exactly when the method is `cod`.
   */
  lemma PageOrdersUnderIntendedSchema(f: Form, items: seq<CartItem>, isValid: string -> bool,
                                      db: seq<OrdersRoute.ProductDoc>, number: string, stored: set<string>)
    requires FormValid(f) && items != [] && f.paymentMethod in PaymentMethods
    requires number != "" && number !in stored
    requires forall d :: d in db ==> OrdersRoute.ProductSavable(d)
    requires !OrdersRoute.Post(OrderPayload(f, items), isValid, db, number, stored).Rejected?
    ensures OrdersRoute.PostWith(OrderPayload(f, items), isValid, db, number, stored,
                                 OrdersRoute.IntendedProviders).Accepted?
    ensures OrdersRoute.Post(OrderPayload(f, items), isValid, db, number, stored).Accepted?
            <==> f.paymentMethod == "cod"
  {
    var p := OrderPayload(f, items);
    PayloadPassesRouteChecks(f, items);
    OrdersRoute.SavedIffProvider(p, isValid, db, number, stored, OrdersRoute.IntendedProviders);
    OrdersRoute.SavedIffProvider(p, isValid, db, number, stored, OrdersRoute.OrderProviders);
  }

  // ------------------------------------------------------------ the page

  /** The messages of `validateForm`'s checks, recorded one after the other into a fresh record. */
  method CollectErrors(f: Form) returns (newErrors: map<Field, Message>)
    ensures RecordsErrorsOf(newErrors, f)
  {
    newErrors := RecordPresence(f);
    newErrors := RecordFormats(f, newErrors);
  }

  /** The five presence checks, each recording its message when its field is missing. */
  method RecordPresence(f: Form) returns (m: map<Field, Message>)
    ensures forall k :: (k in m <==> RequiredError(f, k).Some?) && (k in m ==> m[k] == RequiredError(f, k).value)
  {
    m := map[];
    m := RecordIf(m, Blank(f.name), Name, NameRequired);
    m := RecordIf(m, Blank(f.email), Email, EmailRequired);
    m := RecordIf(m, Blank(f.phone), Phone, PhoneRequired);
    m := RecordIf(m, f.city == "" || f.cityRef == "", City, CityRequired);
    m := RecordIf(m, f.warehouse == "" || f.warehouseRef == "", Address, WarehouseRequired);
    forall k ensures (k in m <==> RequiredError(f, k).Some?) && (k in m ==> m[k] == RequiredError(f, k).value) {
      match k
      case Name =>
      case Email =>
      case Phone =>
      case Address =>
      case City =>
      case CityRef =>
      case Warehouse =>
      case WarehouseRef =>
      case PaymentMethod =>
      case Notes =>
    }
  }

  /** The two format checks, each overwriting the presence message of its field. */
  method RecordFormats(f: Form, m0: map<Field, Message>) returns (m: map<Field, Message>)
    requires forall k :: (k in m0 <==> RequiredError(f, k).Some?) && (k in m0 ==> m0[k] == RequiredError(f, k).value)
    ensures RecordsErrorsOf(m, f)
  {
    m := RecordIf(m0, f.email != "" && !EmailOk(f.email), Email, EmailInvalid);
    m := RecordIf(m, f.phone != "" && !PhoneOk(f.phone), Phone, PhoneInvalid);
    forall k ensures (k in m <==> FieldError(f, k).Some?) && (k in m ==> m[k] == FieldError(f, k).value) {
      match k
      case Name =>
      case Email =>
      case Phone =>
      case Address =>
      case City =>
      case CityRef =>
      case Warehouse =>
      case WarehouseRef =>
      case PaymentMethod =>
      case Notes =>
    }
  }

  /** The error of field `k` from the presence checks alone, before the format checks. */
  function RequiredError(f: Form, k: Field): Option<Message> {
    match k
      case Name => if Blank(f.name) then Some(NameRequired) else None
      case Email => if Blank(f.email) then Some(EmailRequired) else None
      case Phone => if Blank(f.phone) then Some(PhoneRequired) else None
      case City => if f.city == "" || f.cityRef == "" then Some(CityRequired) else None
      case Address => if f.warehouse == "" || f.warehouseRef == "" then Some(WarehouseRequired) else None
      case _ => None
  }

  /** The record holds exactly the fields with an error, each with its message. */
  predicate RecordsErrorsOf(m: map<Field, Message>, f: Form) {
    forall k :: (k in m <==> FieldError(f, k).Some?) && (k in m ==> m[k] == FieldError(f, k).value)
  }

  /** The record is empty exactly when the form is valid. */
  lemma NoErrorsIffValid(f: Form, m: map<Field, Message>)
    requires RecordsErrorsOf(m, f)
    ensures |m| == 0 <==> FormValid(f)
  {
    FormValidIff(f);
    if |m| != 0 {
      var k :| k in m;
      assert FieldError(f, k).Some?;
    }
  }

  /** `if (cond) newErrors[k] = message`. */
  function RecordIf(m: map<Field, Message>, cond: bool, k: Field, message: Message): (r: map<Field, Message>)
    ensures cond ==> r == m[k := message]
    ensures !cond ==> r == m
  {
    if cond then m[k := message] else m
  }

  class CheckoutPage {
    const cart: CartStore
    var form: Form
    var errors: map<Field, Message>
    var step: Step
    var isSubmitting: bool
    var deliveryCost: int
    var citySearch: string
    var showCities: bool
    var showWarehouses: bool

    constructor(cart: CartStore)
      ensures this.cart == cart
      ensures form == InitialForm() && errors == map[] && step == CartStep
      ensures !isSubmitting && deliveryCost == 0 && citySearch == "" && !showCities && !showWarehouses
    {
      this.cart := cart;
      form := InitialForm();
      errors := map[];
      step := CartStep;
      isSubmitting := false;
      deliveryCost := 0;
      citySearch := "";
      showCities := false;
      showWarehouses := false;
    }

    /** The sum of price times quantity over the cart's lines. */
    function Subtotal(): int
      reads this, cart
    {
      ValuesTotal(cart.items)
    }

    /** The subtotal plus the delivery cost last looked up. */
    function Total(): int
      reads this, cart
    {
      Subtotal() + deliveryCost
    }

    /** `validateForm`: fills a fresh error record field by field and replaces `errors` with it. */
    method ValidateForm() returns (valid: bool)
      modifies this
      ensures RecordsErrorsOf(errors, form)
      ensures valid <==> FormValid(form)
      ensures form == old(form) && step == old(step) && deliveryCost == old(deliveryCost)
      ensures isSubmitting == old(isSubmitting) && citySearch == old(citySearch)
      ensures showCities == old(showCities) && showWarehouses == old(showWarehouses)
    {
      var newErrors := CollectErrors(form);
      errors := newErrors;
      valid := |newErrors| == 0;
      NoErrorsIffValid(form, newErrors);
    }

    /** `handleChange`: the edited field takes the value and only its own error is cleared. */
    method HandleChange(k: Field, v: string)
      modifies this
      ensures form == SetField(old(form), k, v)
      ensures errors == old(errors) - {k}
      ensures step == old(step) && deliveryCost == old(deliveryCost) && isSubmitting == old(isSubmitting)
      ensures citySearch == old(citySearch) && showCities == old(showCities) && showWarehouses == old(showWarehouses)
    {
      form := SetField(form, k, v);
      if k in errors {
        errors := errors - {k};
      }
    }

    /** Typing in the city box: only the search text changes, and the list opens. */
    method TypeCity(v: string)
      modifies this
      ensures citySearch == v && showCities
      ensures form == old(form) && errors == old(errors) && step == old(step)
      ensures deliveryCost == old(deliveryCost) && isSubmitting == old(isSubmitting)
      ensures showWarehouses == old(showWarehouses)
    {
      citySearch := v;
      showCities := true;
    }

    /** Picking a city: it and its reference are set, and any chosen warehouse and address are cleared. */
    method SelectCity(name: string, ref: string)
      modifies this
      ensures form == old(form).(city := name, cityRef := ref, warehouse := "", warehouseRef := "", address := "")
      ensures citySearch == name && !showCities
      ensures errors == old(errors) && step == old(step) && deliveryCost == old(deliveryCost)
      ensures isSubmitting == old(isSubmitting) && showWarehouses == old(showWarehouses)
    {
      form := form.(city := name, cityRef := ref, warehouse := "", warehouseRef := "", address := "");
      citySearch := name;
      showCities := false;
    }

    /** Typing in the warehouse box: only the warehouse text changes, and the list opens. */
    method TypeWarehouse(v: string)
      modifies this
      ensures form == old(form).(warehouse := v) && showWarehouses
      ensures errors == old(errors) && step == old(step) && deliveryCost == old(deliveryCost)
      ensures isSubmitting == old(isSubmitting) && citySearch == old(citySearch) && showCities == old(showCities)
    {
      form := form.(warehouse := v);
      showWarehouses := true;
    }

    /** Picking a warehouse: its description becomes both the warehouse and the address. */
    method SelectWarehouse(description: string, ref: string)
      modifies this
      ensures form == old(form).(warehouse := description, warehouseRef := ref, address := description)
      ensures !showWarehouses
      ensures errors == old(errors) && step == old(step) && deliveryCost == old(deliveryCost)
      ensures isSubmitting == old(isSubmitting) && citySearch == old(citySearch) && showCities == old(showCities)
    {
      form := form.(warehouse := description, warehouseRef := ref, address := description);
      showWarehouses := false;
    }

    /** The delivery-cost effect: a cost is taken only once a city is chosen and the cart has a price. */
    method ApplyDeliveryCost(cost: int)
      modifies this
      ensures deliveryCost == (if form.cityRef != "" && Subtotal() > 0 then cost else old(deliveryCost))
      ensures form == old(form) && errors == old(errors) && step == old(step)
      ensures isSubmitting == old(isSubmitting) && citySearch == old(citySearch)
      ensures showCities == old(showCities) && showWarehouses == old(showWarehouses)
    {
      if form.cityRef != "" && ValuesTotal(cart.items) > 0 {
        deliveryCost := cost;
      }
    }

    /** `goToNextStep`: on the shipping step an incomplete form stays put and is validated. */
    method GoToNextStep()
      modifies this
      ensures step == NextStep(old(step), old(form))
      ensures form == old(form)
      ensures old(step) == Shipping && !ShippingFilled(form) ==> RecordsErrorsOf(errors, form)
      ensures !(old(step) == Shipping && !ShippingFilled(form)) ==> errors == old(errors)
    {
      if step == CartStep {
        step := Shipping;
      } else if step == Shipping {
        if ShippingFilled(form) {
          step := Payment;
        } else {
          var _ := ValidateForm();
        }
      }
    }

    /** `goToPrevStep`. */
    method GoToPrevStep()
      modifies this
      ensures step == PrevStep(old(step))
      ensures form == old(form) && errors == old(errors)
    {
      if step == Payment {
        step := Shipping;
      } else if step == Shipping {
        step := CartStep;
      }
    }

    /**
     * `handleSubmit`, given the answer of the order request: `Some(number)`
     * for a created order, `None` for a failed request. An invalid form
     * sends nothing; only a created order empties the cart.
     */
    method HandleSubmit(created: Option<string>) returns (outcome: SubmitOutcome)
      requires cart.Valid()
      modifies this, cart
      ensures outcome == NotSent <==> !FormValid(old(form))
      ensures outcome == SendFailed <==> FormValid(old(form)) && created.None?
      ensures outcome.Confirmed? <==> FormValid(old(form)) && created.Some?
      ensures outcome.Confirmed? ==> outcome.url == "/order/confirmed?order=" + created.value && cart.items == []
      ensures !outcome.Confirmed? ==> cart.items == old(cart.items)
      ensures cart.Valid() && !isSubmitting && form == old(form)
    {
      var valid := ValidateForm();
      if !valid {
        isSubmitting := false;
        return NotSent;
      }
      isSubmitting := true;
      if created.Some? {
        cart.Clear();
        outcome := Confirmed("/order/confirmed?order=" + created.value);
      } else {
        outcome := SendFailed;
      }
      isSubmitting := false;
    }
  }

  /** The total shown is the cart store's subtotal plus the delivery cost. */
  lemma TotalIsCartSubtotalPlusDelivery(p: CheckoutPage)
    ensures p.Total() == p.cart.Subtotal() + p.deliveryCost
  {
    ValuesTotalIsSumPrice(p.cart.items);
  }
}
