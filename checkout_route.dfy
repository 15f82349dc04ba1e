/**
 * POST /api/checkout: validate the cart, total it, upsert the customer by email, insert the order
 * header, insert its lines, open a payment session with the gateway and answer with an envelope.
 * Every step may fail; a failure answers at once and nothing already written is undone.
 */
module CheckoutRoute {
  import opened Optional
  import opened Seqs
  import opened Pricing
  import opened Store

  datatype CustomerData = CustomerData(
    name: string, email: string, phone: string, address: string, city: string, postalCode: string)

  /** The request body after JSON parsing; either part may be missing. */
  datatype CheckoutRequest = CheckoutRequest(customer: Option<CustomerData>, items: Option<seq<CheckoutItem>>)

  /** The transaction-creation payload posted to the payment gateway. */
  datatype TransactionDetails = TransactionDetails(orderId: string, grossAmount: int)
  datatype CustomerDetails = CustomerDetails(firstName: string, email: string, phone: string)
  datatype ItemDetail = ItemDetail(id: string, price: int, quantity: int, name: string)
  datatype GatewayPayload = GatewayPayload(
    transactionDetails: TransactionDetails,
    customerDetails: CustomerDetails,
    itemDetails: seq<ItemDetail>)

  /**
   * What the gateway call produced: `Thrown` when `fetch` or the JSON decoding of the reply throws,
   * otherwise the reply's `ok` flag and its `token` field (which may be absent).
   */
  datatype GatewayReply = Thrown | Reply(ok: bool, token: Option<string>)

  /** The outcomes of the calls the handler makes to the database and the gateway. */
  datatype Outcomes = Outcomes(
    userFails: bool, newUserId: string,
    orderFails: bool, newOrderId: string,
    itemsFail: bool,
    gateway: GatewayReply)

  /** The JSON envelope answered to the caller; `orderId` is the internal order key. */
  datatype Response =
    | Success(snapToken: Option<string>, orderId: string)
    | Failure(status: int, error: string)

  /** The steps of the handler, in the order they run. */
  datatype Step = Validate | UpsertUser | InsertOrder | InsertItems | CallGateway | Respond

  function Rank(s: Step): nat
  {
    match s
    case Validate => 0
    case UpsertUser => 1
    case InsertOrder => 2
    case InsertItems => 3
    case CallGateway => 4
    case Respond => 5
  }

  /** `!customer || !items || items.length === 0` rejects the request. */
  predicate ValidRequest(req: CheckoutRequest)
  {
    req.customer.Some? && req.items.Some? && |req.items.value| > 0
  }

  /** The step at which the handler stops: the first that fails, or Respond when none does. */
  function StopsAt(req: CheckoutRequest, ext: Outcomes): Step
  {
    if !ValidRequest(req) then Validate
    else if ext.userFails then UpsertUser
    else if ext.orderFails then InsertOrder
    else if ext.itemsFail then InsertItems
    else if !(ext.gateway.Reply? && ext.gateway.ok) then CallGateway
    else Respond
  }

  /** The handler got past step `s`: the step's write is stored. */
  predicate Passed(req: CheckoutRequest, ext: Outcomes, s: Step)
  {
    Rank(StopsAt(req, ext)) > Rank(s)
  }

  /** The decimal digits of `n`, most significant first, without leading zeros. */
  function DecimalString(n: nat): (r: string)
    ensures |r| > 0
    ensures forall i :: 0 <= i < |r| ==> '0' <= r[i] <= '9'
    ensures r[0] == '0' ==> n == 0
    decreases n
  {
    var digit := ['0' + (n % 10) as char];
    if n < 10 then digit else DecimalString(n / 10) + digit
  }

  /** Reads a string of decimal digits back as a number. */
  function ParseDecimal(s: string): nat
    decreases |s|
  {
    if s == [] then 0
    else
      var d := s[|s| - 1] as int - '0' as int;
      ParseDecimal(s[..|s| - 1]) * 10 + (if 0 <= d then d else 0)
  }

  lemma {:induction false} DecimalRoundTrip(n: nat)
    ensures ParseDecimal(DecimalString(n)) == n
    decreases n
  {
    var s := DecimalString(n);
    if n >= 10 {
      DecimalRoundTrip(n / 10);
      assert s[..|s| - 1] == DecimalString(n / 10);
    }
  }

  /** `ORDER-${Date.now()}`: the order id the gateway sees, from the clock reading `now`. */
  function MidtransOrderId(now: nat): (r: string)
    ensures |r| > 6 && r[..6] == "ORDER-"
    ensures forall i :: 6 <= i < |r| ==> '0' <= r[i] <= '9'
  {
    "ORDER-" + DecimalString(now)
  }

  /**
   * Two checkouts get the same gateway order id exactly when they read the same clock value: the id
   * is unique only as long as no two checkouts start in the same millisecond.
   */
  lemma {:induction false} MidtransOrderIdCollision(now1: nat, now2: nat)
    ensures MidtransOrderId(now1) == MidtransOrderId(now2) <==> now1 == now2
  {
    if MidtransOrderId(now1) == MidtransOrderId(now2) {
      assert DecimalString(now1) == MidtransOrderId(now1)[6..];
      assert DecimalString(now2) == MidtransOrderId(now2)[6..];
      DecimalRoundTrip(now1);
      DecimalRoundTrip(now2);
    }
  }

  function ShippingOf(c: CustomerData): ShippingAddress
  {
    ShippingAddress(c.name, c.phone, c.address, c.city, c.postalCode)
  }

  /** The order header the handler inserts. */
  function NewOrder(id: string, userId: string, total: int, midtransOrderId: string, c: CustomerData): Order
  {
    Order(id, userId, total, "pending", "midtrans", midtransOrderId, ShippingOf(c))
  }

  /** `items.map(item => ({order_id, product_id, quantity, price}))`: the order's line rows. */
  function OrderItemsFor(orderId: string, items: seq<CheckoutItem>): (r: seq<OrderItem>)
    ensures |r| == |items|
    ensures forall i :: 0 <= i < |items| ==>
      r[i] == OrderItem(orderId, items[i].product.id, items[i].quantity, items[i].product.price)
  {
    if items == [] then []
    else
      var line := OrderItem(orderId, items[0].product.id, items[0].quantity, items[0].product.price);
      [line] + OrderItemsFor(orderId, items[1..])
  }

  /** `items.map(item => ({id, price, quantity, name}))`: the gateway's item manifest. */
  function ItemDetailsFor(items: seq<CheckoutItem>): (r: seq<ItemDetail>)
    ensures |r| == |items|
    ensures forall i :: 0 <= i < |items| ==>
      r[i] == ItemDetail(items[i].product.id, items[i].product.price, items[i].quantity, items[i].product.name)
  {
    if items == [] then []
    else
      var detail := ItemDetail(items[0].product.id, items[0].product.price, items[0].quantity, items[0].product.name);
      [detail] + ItemDetailsFor(items[1..])
  }

  function PayloadFor(midtransOrderId: string, total: int, c: CustomerData, items: seq<CheckoutItem>): GatewayPayload
  {
    GatewayPayload(
      TransactionDetails(midtransOrderId, total),
      CustomerDetails(c.name, c.email, c.phone),
      ItemDetailsFor(items))
  }

  /** Sum of `price * quantity` over stored order lines. */
  function LinesTotal(lines: seq<OrderItem>): int
  {
    if lines == [] then 0 else lines[0].price * lines[0].quantity + LinesTotal(lines[1..])
  }

  /** Sum of `price * quantity` over the gateway's item manifest. */
  function ManifestTotal(details: seq<ItemDetail>): int
  {
    if details == [] then 0 else details[0].price * details[0].quantity + ManifestTotal(details[1..])
  }

  lemma {:induction false} OrderItemsTotal(orderId: string, items: seq<CheckoutItem>)
    ensures LinesTotal(OrderItemsFor(orderId, items)) == Total(items)
    decreases |items|
  {
    if items != [] {
      OrderItemsTotal(orderId, items[1..]);
      assert OrderItemsFor(orderId, items)[1..] == OrderItemsFor(orderId, items[1..]);
      assert LineAmounts(items)[1..] == LineAmounts(items[1..]);
    }
  }

  lemma {:induction false} ManifestTotalIsTotal(items: seq<CheckoutItem>)
    ensures ManifestTotal(ItemDetailsFor(items)) == Total(items)
    decreases |items|
  {
    if items != [] {
      ManifestTotalIsTotal(items[1..]);
      assert ItemDetailsFor(items)[1..] == ItemDetailsFor(items[1..]);
      assert LineAmounts(items)[1..] == LineAmounts(items[1..]);
    }
  }

  /**
   * The amounts of one checkout agree: the stored order's `total_amount`, the gateway's
   * `gross_amount`, the sum over the stored lines and the sum over the gateway's manifest; and the
   * gateway's `order_id` is the stored `midtrans_order_id`.
   */
  lemma {:induction false} AmountsAgree(c: CustomerData, items: seq<CheckoutItem>, now: nat, orderId: string, userId: string)
    ensures var order := NewOrder(orderId, userId, Total(items), MidtransOrderId(now), c);
      var payload := PayloadFor(MidtransOrderId(now), Total(items), c, items);
      && payload.transactionDetails.orderId == order.midtransOrderId
      && payload.transactionDetails.grossAmount == order.totalAmount
      && LinesTotal(OrderItemsFor(orderId, items)) == order.totalAmount
      && ManifestTotal(payload.itemDetails) == payload.transactionDetails.grossAmount
  {
    OrderItemsTotal(orderId, items);
    ManifestTotalIsTotal(items);
  }

  /**
   * The handler. The database is `db`; `now` is the clock reading; `ext` fixes what each database
   * and gateway call returns. `gatewayRequest` is the payload handed to the gateway, if any.
   */
  method Checkout(db: Database, req: CheckoutRequest, now: nat, ext: Outcomes)
    returns (resp: Response, gatewayRequest: Option<GatewayPayload>)
    requires db.Valid()
    modifies db
    ensures db.Valid()
    ensures db.products == old(db.products)
    // Exactly the writes of the steps before the one that stopped the handler are stored.
    ensures !Passed(req, ext, UpsertUser) ==> db.users == old(db.users)
    ensures Passed(req, ext, UpsertUser) ==>
      db.users == UpsertByEmail(old(db.users), req.customer.value.email, req.customer.value.name,
                                req.customer.value.phone, ext.newUserId)
    ensures !Passed(req, ext, InsertOrder) ==> db.orders == old(db.orders)
    ensures Passed(req, ext, InsertOrder) ==>
      db.orders == old(db.orders) + [NewOrder(ext.newOrderId, db.users[req.customer.value.email].id,
                                              Total(req.items.value), MidtransOrderId(now), req.customer.value)]
    ensures !Passed(req, ext, InsertItems) ==> db.orderItems == old(db.orderItems) && gatewayRequest == None
    ensures Passed(req, ext, InsertItems) ==>
      && db.orderItems == old(db.orderItems) + OrderItemsFor(ext.newOrderId, req.items.value)
      && gatewayRequest == Some(PayloadFor(MidtransOrderId(now), Total(req.items.value), req.customer.value, req.items.value))
    // The answer names the step that stopped the handler.
    ensures StopsAt(req, ext) == Validate ==> resp == Failure(400, "Invalid request data")
    ensures StopsAt(req, ext) == UpsertUser ==> resp == Failure(500, "Failed to create user")
    ensures StopsAt(req, ext) == InsertOrder ==> resp == Failure(500, "Failed to create order")
    ensures StopsAt(req, ext) == InsertItems ==> resp == Failure(500, "Failed to create order items")
    ensures StopsAt(req, ext) == CallGateway ==>
      resp == Failure(500, if ext.gateway.Thrown? then "Internal server error" else "Failed to create payment")
    ensures StopsAt(req, ext) == Respond ==> resp == Success(ext.gateway.token, ext.newOrderId)
  {
    if !(req.customer.Some? && req.items.Some? && |req.items.value| > 0) {
      return Failure(400, "Invalid request data"), None;
    }
    var customer, items := req.customer.value, req.items.value;
    var totalAmount := Total(items);
    var orderId := MidtransOrderId(now);

    var user := db.Upsert(customer.email, customer.name, customer.phone, ext.userFails, ext.newUserId);
    if user.None? {
      return Failure(500, "Failed to create user"), None;
    }
    assert user.value.id in UserIds(db.users);

    var order := db.InsertOrder(NewOrder(ext.newOrderId, user.value.id, totalAmount, orderId, customer), ext.orderFails);
    if order.None? {
      return Failure(500, "Failed to create order"), None;
    }
    assert db.orders[|db.orders| - 1].id == order.value.id;

    var lines := OrderItemsFor(order.value.id, items);
    var stored := db.InsertOrderItems(lines, ext.itemsFail);
    if !stored {
      return Failure(500, "Failed to create order items"), None;
    }

    var payload := PayloadFor(orderId, totalAmount, customer, items);
    gatewayRequest := Some(payload);
    match ext.gateway {
      case Thrown =>
        resp := Failure(500, "Internal server error");
      case Reply(ok, token) =>
        if !ok {
          resp := Failure(500, "Failed to create payment");
        } else {
          resp := Success(token, order.value.id);
        }
    }
  }
}
