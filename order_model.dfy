/** The Order document of models/Order.js: its lines, shipping address and
    enums, the schema's validators and defaults, and the `pre('save')` hook
    that stamps an order number. The clock and the random source of the hook
    are parameters. */
module OrderModel {
  import opened Common

  /** The `paymentMethod` enum. */
  datatype PaymentMethod = CreditCard | DebitCard | Paypal | CashOnDelivery | BankTransfer

  /** The `paymentStatus` enum; no handler changes it after creation. */
  datatype PaymentStatus = PaymentPending | PaymentProcessing | PaymentCompleted | PaymentFailed | PaymentRefunded

  /** The `orderStatus` enum. */
  datatype OrderStatus = Pending | Processing | Shipped | Delivered | Cancelled | Returned

  function PaymentMethodName(m: PaymentMethod): string
  {
    match m
    case CreditCard => "credit_card"
    case DebitCard => "debit_card"
    case Paypal => "paypal"
    case CashOnDelivery => "cash_on_delivery"
    case BankTransfer => "bank_transfer"
  }

  /** The enum validator on `paymentMethod`: a string is accepted exactly when
      it names one of the five methods. */
  function ParsePaymentMethod(s: string): (r: Option<PaymentMethod>)
    ensures forall m :: r == Some(m) <==> PaymentMethodName(m) == s
  {
    if s == "credit_card" then Some(CreditCard)
    else if s == "debit_card" then Some(DebitCard)
    else if s == "paypal" then Some(Paypal)
    else if s == "cash_on_delivery" then Some(CashOnDelivery)
    else if s == "bank_transfer" then Some(BankTransfer)
    else None
  }

  function OrderStatusName(s: OrderStatus): string
  {
    match s
    case Pending => "pending"
    case Processing => "processing"
    case Shipped => "shipped"
    case Delivered => "delivered"
    case Cancelled => "cancelled"
    case Returned => "returned"
  }

  /** The enum validator on `orderStatus`: a string is accepted exactly when it
      names one of the six statuses. */
  function ParseOrderStatus(s: string): (r: Option<OrderStatus>)
    ensures forall st :: r == Some(st) <==> OrderStatusName(st) == s
  {
    if s == "pending" then Some(Pending)
    else if s == "processing" then Some(Processing)
    else if s == "shipped" then Some(Shipped)
    else if s == "delivered" then Some(Delivered)
    else if s == "cancelled" then Some(Cancelled)
    else if s == "returned" then Some(Returned)
    else None
  }

  /** A frozen order line: the product's name, thumbnail, price and seller as
      they were when the order was placed. */
  datatype OrderItem = OrderItem(
    product: ProductId,
    name: string,
    image: string,
    price: real,
    quantity: int,
    variant: Option<VariantChoice>,
    seller: UserId)

  datatype Address = Address(street: string, city: string, state: string, zipCode: string, country: string)

  /** Times (`estimatedDelivery`, `actualDelivery`) are milliseconds since the epoch. */
  datatype Order = Order(
    user: UserId,
    orderNumber: Option<string>,
    items: seq<OrderItem>,
    shippingAddress: Option<Address>,
    paymentMethod: PaymentMethod,
    paymentStatus: PaymentStatus,
    orderStatus: OrderStatus,
    subtotal: real,
    shippingFee: real,
    tax: real,
    discount: real,
    totalAmount: real,
    trackingNumber: Option<string>,
    estimatedDelivery: Option<int>,
    actualDelivery: Option<int>,
    notes: Option<string>)

  /** A line passes validation when its quantity is at least 1 and its
      required strings are not empty. */
  predicate ValidLine(l: OrderItem)
  {
    l.quantity >= 1 && l.name != "" && l.image != ""
  }

  predicate ValidAddress(a: Address)
  {
    a.street != "" && a.city != "" && a.state != "" && a.zipCode != "" && a.country != ""
  }

  /** The schema's validators: an order number is present, every line is
      valid and a complete shipping address is given. */
  predicate ValidOrder(o: Order)
  {
    && Truthy(o.orderNumber)
    && (forall i :: 0 <= i < |o.items| ==> ValidLine(o.items[i]))
    && o.shippingAddress.Some?
    && ValidAddress(o.shippingAddress.value)
  }

  /** Whether the unique index on `orderNumber` already holds `number`. */
  predicate NumberTaken(orders: map<OrderId, Order>, number: string)
  {
    exists id :: id in orders && orders[id].orderNumber == Some(number)
  }

  /** The stored orders: each one validated, and no two share an order number. */
  predicate OrdersValid(orders: map<OrderId, Order>)
  {
    && (forall id :: id in orders ==> ValidOrder(orders[id]))
    && (forall a, b :: a in orders && b in orders && a != b ==> orders[a].orderNumber != orders[b].orderNumber)
  }

  /** An order as `new Order({...})` builds it: no order number yet, both
      statuses pending, and shipping fee, tax and discount 0 unless given. */
  function NewOrder(user: UserId, items: seq<OrderItem>, shippingAddress: Option<Address>,
                    paymentMethod: PaymentMethod, subtotal: real, shippingFee: Option<real>,
                    tax: Option<real>, discount: Option<real>, totalAmount: real,
                    notes: Option<string>, estimatedDelivery: Option<int>): (o: Order)
    ensures o.orderNumber.None?
    ensures o.paymentStatus == PaymentPending && o.orderStatus == Pending
    ensures shippingFee.None? ==> o.shippingFee == 0.0
    ensures shippingFee.Some? ==> o.shippingFee == shippingFee.value
    ensures tax.None? ==> o.tax == 0.0
    ensures tax.Some? ==> o.tax == tax.value
    ensures discount.None? ==> o.discount == 0.0
    ensures discount.Some? ==> o.discount == discount.value
    ensures o.shippingAddress == shippingAddress && o.paymentMethod == paymentMethod
    ensures o.notes == notes && o.estimatedDelivery == estimatedDelivery
    ensures o.trackingNumber.None? && o.actualDelivery.None?
    ensures o.items == items && o.user == user && o.subtotal == subtotal && o.totalAmount == totalAmount
  {
    Order(user, None, items, shippingAddress, paymentMethod, PaymentPending, Pending, subtotal,
          if shippingFee.Some? then shippingFee.value else 0.0,
          if tax.Some? then tax.value else 0.0,
          if discount.Some? then discount.value else 0.0,
          totalAmount, None, estimatedDelivery, None, notes)
  }

  // ---------------------------------------------------------------------
  // Order numbers: 'ORD' + Date.now() + Math.random().toString(36).substr(2, 5).toUpperCase()
  // ---------------------------------------------------------------------

  predicate IsDigit(c: char)
  {
    '0' <= c <= '9'
  }

  predicate IsLowerBase36(c: char)
  {
    IsDigit(c) || 'a' <= c <= 'z'
  }

  predicate IsUpperBase36(c: char)
  {
    IsDigit(c) || 'A' <= c <= 'Z'
  }

  function DigitChar(d: int): (c: char)
    requires 0 <= d < 10
    ensures IsDigit(c) && c as int - '0' as int == d
  {
    ('0' as int + d) as char
  }

  /** The decimal digits of a natural number, as JavaScript converts
      `Date.now()` to a string: no leading zero. */
  function Decimal(n: nat): (s: string)
    ensures |s| >= 1
    ensures forall i :: 0 <= i < |s| ==> IsDigit(s[i])
    ensures s[0] == '0' ==> n == 0
  {
    if n < 10 then [DigitChar(n)] else Decimal(n / 10) + [DigitChar(n % 10)]
  }

  /** The number a string of decimal digits denotes. */
  function DecimalValue(s: string): nat
    requires forall i :: 0 <= i < |s| ==> IsDigit(s[i])
  {
    if s == [] then 0
    else
      assert IsDigit(s[|s| - 1]);
      DecimalValue(s[..|s| - 1]) * 10 + (s[|s| - 1] as int - '0' as int)
  }

  /** Reading back the digits gives the timestamp that was written. */
  lemma {:induction false} DecimalRoundTrip(n: nat)
    ensures DecimalValue(Decimal(n)) == n
  {
    if n >= 10 {
      DecimalRoundTrip(n / 10);
      var s := Decimal(n);
      assert s[..|s| - 1] == Decimal(n / 10);
    }
  }

  /** `String.prototype.toUpperCase` on the characters base 36 uses. */
  function UpperChar(c: char): (u: char)
    ensures IsLowerBase36(c) ==> IsUpperBase36(u)
    ensures !('a' <= u <= 'z')
  {
    if 'a' <= c <= 'z' then (c as int - 32) as char else c
  }

  /** `s.substr(start, length)` for a non-negative start. */
  function Substr(s: string, start: nat, length: nat): (r: string)
    ensures |r| == if start >= |s| then 0 else if |s| - start < length then |s| - start else length
    ensures forall i :: 0 <= i < |r| ==> r[i] == s[start + i]
  {
    if start >= |s| then "" else if start + length <= |s| then s[start..start + length] else s[start..]
  }

  /** What `Math.random().toString(36)` produces: "0." and base-36 digits. */
  predicate Base36Fraction(t: string)
  {
    |t| >= 2 && t[..2] == "0." && forall i :: 2 <= i < |t| ==> IsLowerBase36(t[i])
  }

  /** The number the hook generates from the clock reading and the text of
      `Math.random().toString(36)`. */
  function GenerateOrderNumber(timestamp: nat, randomText: string): (n: string)
    ensures |n| >= 4 && n[..3] == "ORD"
    ensures 3 + |Decimal(timestamp)| <= |n| <= 3 + |Decimal(timestamp)| + 5
    ensures n[3..3 + |Decimal(timestamp)|] == Decimal(timestamp)
    ensures forall i :: 3 + |Decimal(timestamp)| <= i < |n| ==> !('a' <= n[i] <= 'z')
    ensures Base36Fraction(randomText) ==>
              forall i :: 3 + |Decimal(timestamp)| <= i < |n| ==> IsUpperBase36(n[i])
  {
    var suffix := Substr(randomText, 2, 5);
    var upper := seq(|suffix|, i requires 0 <= i < |suffix| => UpperChar(suffix[i]));
    var n := "ORD" + Decimal(timestamp) + upper;
    assert n[3..3 + |Decimal(timestamp)|] == Decimal(timestamp);
    assert forall i :: 3 + |Decimal(timestamp)| <= i < |n| ==> n[i] == upper[i - 3 - |Decimal(timestamp)|];
    n
  }

  /** The timestamp can be read back from the digits after "ORD". */
  lemma {:induction false} OrderNumberEncodesTimestamp(timestamp: nat, randomText: string)
    ensures var n := GenerateOrderNumber(timestamp, randomText);
            var k := |Decimal(timestamp)|;
            (forall i :: 3 <= i < 3 + k ==> IsDigit(n[i])) && DecimalValue(n[3..3 + k]) == timestamp
  {
    DecimalRoundTrip(timestamp);
  }

  /** The `pre('save')` hook: when the order has no number (or an empty one)
      it gets a generated one; an existing number is never replaced. */
  function AssignOrderNumber(o: Order, timestamp: nat, randomText: string): (r: Order)
    ensures Truthy(r.orderNumber)
    ensures Truthy(o.orderNumber) ==> r == o
    ensures !Truthy(o.orderNumber) ==> r.orderNumber == Some(GenerateOrderNumber(timestamp, randomText))
    ensures r.(orderNumber := o.orderNumber) == o
  {
    if Truthy(o.orderNumber) then o
    else o.(orderNumber := Some(GenerateOrderNumber(timestamp, randomText)))
  }

  /** `order.save()` in the order the hook evidently relies on: the hook
      stamps the number, then validation runs, then the unique index on
      `orderNumber` is consulted. Any failure is a 500. */
  function SaveOrder(o: Order, orders: map<OrderId, Order>, timestamp: nat, randomText: string): (r: Result<Order>)
    ensures r.Ok? <==> ValidOrder(AssignOrderNumber(o, timestamp, randomText)) &&
                       !NumberTaken(orders, AssignOrderNumber(o, timestamp, randomText).orderNumber.value)
    ensures r.Ok? ==> r.value == AssignOrderNumber(o, timestamp, randomText)
    ensures r.Err? ==> r.failure == ServerError
  {
    var stamped := AssignOrderNumber(o, timestamp, randomText);
    if !ValidOrder(stamped) then Err(ServerError)
    else if NumberTaken(orders, stamped.orderNumber.value) then Err(ServerError)
    else Ok(stamped)
  }

  /** `order.save()` as Mongoose runs it: validation is itself a built-in
      save hook that runs before the schema's own `pre('save')` hooks, so the
      required `orderNumber` is checked before the hook has set it. */
  function SaveOrderAsWritten(o: Order, orders: map<OrderId, Order>, timestamp: nat, randomText: string): (r: Result<Order>)
    ensures r.Ok? ==> ValidOrder(o) && r.value == o
    ensures r.Err? ==> r.failure == ServerError
  {
    if !ValidOrder(o) then Err(ServerError)
    else
      var stamped := AssignOrderNumber(o, timestamp, randomText);
      if NumberTaken(orders, stamped.orderNumber.value) then Err(ServerError) else Ok(stamped)
  }

  /** The discrepancy: an order built without a number (as checkout builds
      every order) never saves as written, while the intended order of hook
      and validation saves it whenever the stamped order is valid and its
      number is new. */
  lemma {:induction false} UnnumberedOrderNeverSavesAsWritten(o: Order, orders: map<OrderId, Order>, timestamp: nat, randomText: string)
    requires o.orderNumber.None?
    ensures SaveOrderAsWritten(o, orders, timestamp, randomText) == Err(ServerError)
    ensures ValidOrder(o.(orderNumber := Some(GenerateOrderNumber(timestamp, randomText)))) &&
            !NumberTaken(orders, GenerateOrderNumber(timestamp, randomText))
            ==> SaveOrder(o, orders, timestamp, randomText).Ok?
  {
  }

  /** Saving a new order under a fresh id keeps the stored orders valid and
      their numbers distinct. */
  lemma {:induction false} SaveKeepsOrdersValid(orders: map<OrderId, Order>, id: OrderId, o: Order, timestamp: nat, randomText: string)
    requires OrdersValid(orders)
    requires id !in orders
    requires SaveOrder(o, orders, timestamp, randomText).Ok?
    ensures OrdersValid(orders[id := SaveOrder(o, orders, timestamp, randomText).value])
  {
    var saved := SaveOrder(o, orders, timestamp, randomText).value;
    var orders' := orders[id := saved];
    forall a, b | a in orders' && b in orders' && a != b
      ensures orders'[a].orderNumber != orders'[b].orderNumber
    {
      if a == id {
        assert orders'[b] == orders[b];
        assert !NumberTaken(orders, saved.orderNumber.value);
      } else if b == id {
        assert orders'[a] == orders[a];
        assert !NumberTaken(orders, saved.orderNumber.value);
      }
    }
  }

  /** Saving an existing order again under the same number keeps the stored
      orders valid: the hook leaves the number alone and the unique index
      sees the same document. */
  lemma {:induction false} ResaveKeepsOrdersValid(orders: map<OrderId, Order>, id: OrderId, o: Order)
    requires OrdersValid(orders)
    requires id in orders && ValidOrder(o) && o.orderNumber == orders[id].orderNumber
    ensures OrdersValid(orders[id := o])
  {
    var orders' := orders[id := o];
    forall a, b | a in orders' && b in orders' && a != b
      ensures orders'[a].orderNumber != orders'[b].orderNumber
    {
      assert orders'[a].orderNumber == orders[a].orderNumber;
      assert orders'[b].orderNumber == orders[b].orderNumber;
    }
  }
}
