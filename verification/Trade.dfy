/** Carts, stock, orders, payments and the wallet ledger (commerce.py, food_delivery.py,
    pos.py, merchant_os.py, payments.py, ledger_v2.py and the writers of payment status in
    financial.py, payment_provider_service.py and payment_orchestration.py), on top of the
    marketplace tables. Money is in cents and quantities are in thousandths of a unit. */
module Trade {
  import opened Prelude
  import opened Money
  import M = Marketplace
  import Pay = Payments

  datatype Product = Product(merchant: Id, price: int, stock: int)

  datatype CartStatus = Active | CheckedOut
  datatype Line = Line(product: Id, quantity: int)
  // `prices` is the unit_price column: each line's product price when it was last written.
  datatype Cart = Cart(user: Id, merchant: Id, status: CartStatus, lines: seq<Line>, prices: map<Id, int>)

  datatype OrderStatus = AwaitingPayment | Paid | Preparing | Ready | OutForDelivery | Fulfilled | Cancelled
  datatype OrderLine = OrderLine(product: Id, quantity: int, unitPrice: int, total: int)
  datatype Order = Order(user: Id, merchant: Id, payment: Id, status: OrderStatus, currency: string,
                         lines: seq<OrderLine>, subtotal: int, fee: int, total: int)
  datatype Sale = Sale(merchant: Id, lines: seq<OrderLine>, total: int)

  datatype Payment = Payment(user: Id, request: Option<Id>, reference: string, amount: int, currency: string,
                             status: Pay.Status)

  // The wallet ledger is keyed by its unique index (account, reference, direction), an
  // account by its unique (owner, currency).
  datatype Account = Buyer(user: Id, currency: string) | Seller(provider: Id, currency: string)
  datatype EntryKey = EntryKey(account: Account, reference: string, debit: bool)
  datatype Earning = Earning(provider: Id, request: Id, amount: int)

  // History of the stock column: a merchant sets it, a sale takes units off it.
  datatype StockEvent = Set(product: Id, quantity: int) | Took(product: Id, quantity: int)

  datatype Db = Db(
    market: M.Db,
    products: seq<Product>,
    carts: seq<Cart>,
    orders: seq<Order>,
    counterSales: seq<Sale>,
    payments: seq<Payment>,
    entries: map<EntryKey, int>,
    earnings: map<string, Earning>,
    history: seq<StockEvent>)

  const EmptyDb := Db(M.EmptyDb, [], [], [], [], [], map[], map[], [])

  datatype Error =
    | NotFound | BadQuantity | OutOfStock | EmptyCart | BadAmount | UniqueViolation
    | BadState | BadAction | NotOwner

  datatype Reply = Reply(db: Db, error: Option<Error>)

  // ----- products -----

  function CreateProduct(db: Db, merchant: Id, price: int, stock: int): Reply {
    if price < 0 || stock < 0 then Reply(db, Some(BadQuantity))
    else Reply(db.(products := db.products + [Product(merchant, price, stock)],
                   history := db.history + [Set(|db.products|, stock)]), None)
  }

  function UpdateStock(db: Db, merchant: Id, pid: Id, quantity: int): Reply {
    if quantity < 0 then Reply(db, Some(BadQuantity))
    else if pid >= |db.products| || db.products[pid].merchant != merchant then Reply(db, Some(NotFound))
    else Reply(db.(products := db.products[pid := db.products[pid].(stock := quantity)],
                   history := db.history + [Set(pid, quantity)]), None)
  }

  // ----- carts -----

  function FindCart(carts: seq<Cart>, user: Id, merchant: Id, status: CartStatus): (r: Option<Id>)
    ensures r.Some? ==> r.value < |carts| && carts[r.value].user == user && carts[r.value].merchant == merchant
                        && carts[r.value].status == status
    ensures r.None? ==> forall i :: 0 <= i < |carts| ==>
                          !(carts[i].user == user && carts[i].merchant == merchant && carts[i].status == status)
  {
    Find(carts, (c: Cart) => c.user == user && c.merchant == merchant && c.status == status)
  }

  function FindLine(lines: seq<Line>, pid: Id): (r: Option<nat>)
    ensures r.Some? ==> r.value < |lines| && lines[r.value].product == pid
    ensures r.None? ==> forall i :: 0 <= i < |lines| ==> lines[i].product != pid
  {
    Find(lines, (line: Line) => line.product == pid)
  }

  /** `insert ... on conflict (cart_id, product_id) do update` */
  function PutLine(lines: seq<Line>, pid: Id, quantity: int): seq<Line> {
    match FindLine(lines, pid)
    case Some(i) => lines[i := Line(pid, quantity)]
    case None => lines + [Line(pid, quantity)]
  }

  function DropLine(lines: seq<Line>, pid: Id): seq<Line> {
    match FindLine(lines, pid)
    case Some(i) => lines[..i] + lines[i + 1..]
    case None => lines
  }

  function PutInCart(cart: Cart, pid: Id, quantity: int, price: int): Cart {
    cart.(lines := PutLine(cart.lines, pid, quantity), prices := cart.prices[pid := price])
  }

  function DropFromCart(cart: Cart, pid: Id): Cart {
    cart.(lines := DropLine(cart.lines, pid), prices := cart.prices - {pid})
  }

  function QuantityOf(lines: seq<Line>, pid: Id): int {
    match FindLine(lines, pid)
    case Some(i) => lines[i].quantity
    case None => 0
  }

  /** The active cart of this user at this merchant, created when there is none. */
  function WithCart(carts: seq<Cart>, user: Id, merchant: Id): seq<Cart> {
    if FindCart(carts, user, merchant, Active).Some? then carts
    else carts + [Cart(user, merchant, Active, [], map[])]
  }

  function CartOf(carts: seq<Cart>, user: Id, merchant: Id): (r: Id)
    ensures r < |WithCart(carts, user, merchant)|
  {
    match FindCart(carts, user, merchant, Active)
    case Some(i) => i
    case None => |carts|
  }

  /** add_to_cart. A refused call may leave a freshly created, empty cart behind. */
  function AddToCart(db: Db, user: Id, merchant: Id, pid: Id, quantity: int): Reply {
    if quantity <= 0 then Reply(db, Some(BadQuantity))
    else
      var carts := WithCart(db.carts, user, merchant);
      var cid := CartOf(db.carts, user, merchant);
      var db1 := db.(carts := carts);
      if pid >= |db.products| || db.products[pid].merchant != merchant then Reply(db1, Some(NotFound))
      else
        var wanted := QuantityOf(carts[cid].lines, pid) + quantity;
        if wanted > db.products[pid].stock then Reply(db1, Some(OutOfStock))
        else Reply(db1.(carts := carts[cid := PutInCart(carts[cid], pid, wanted, db.products[pid].price)]), None)
  }

  /** update_cart_item on the user's active cart `cid` that holds the product. */
  function UpdateCartItem(db: Db, user: Id, cid: Id, pid: Id, quantity: int): Reply {
    if cid >= |db.carts| || db.carts[cid].user != user || db.carts[cid].status != Active
       || FindLine(db.carts[cid].lines, pid).None? || pid >= |db.products|
    then Reply(db, Some(NotFound))
    else if quantity < 0 then Reply(db, Some(BadQuantity))
    else
      var cart := db.carts[cid];
      if quantity == 0 then Reply(db.(carts := db.carts[cid := DropFromCart(cart, pid)]), None)
      else if quantity > db.products[pid].stock then Reply(db, Some(OutOfStock))
      else Reply(db.(carts := db.carts[cid := PutInCart(cart, pid, quantity, db.products[pid].price)]), None)
  }

  // ----- stock -----

  predicate Stocked(products: seq<Product>, lines: seq<Line>) {
    forall i :: 0 <= i < |lines| ==> lines[i].product < |products| && lines[i].quantity <= products[lines[i].product].stock
  }

  predicate KnownProducts(products: seq<Product>, lines: seq<Line>) {
    forall i :: 0 <= i < |lines| ==> lines[i].product < |products|
  }

  /** One `stock_quantity = stock_quantity - qty` per line, in order. */
  function TakeStock(products: seq<Product>, lines: seq<Line>): (r: seq<Product>)
    requires KnownProducts(products, lines)
    ensures |r| == |products|
    decreases |lines|
  {
    if lines == [] then products
    else
      var p := lines[0].product;
      TakeStock(products[p := products[p].(stock := products[p].stock - lines[0].quantity)], lines[1..])
  }

  function TookEvents(lines: seq<Line>): seq<StockEvent> {
    seq(|lines|, i requires 0 <= i < |lines| => Took(lines[i].product, lines[i].quantity))
  }

  /** Checkout prices: the current price of each product, the line total rounded to cents. */
  function Priced(products: seq<Product>, lines: seq<Line>): seq<OrderLine>
    requires KnownProducts(products, lines)
  {
    seq(|lines|, i requires 0 <= i < |lines| =>
      var price := products[lines[i].product].price;
      OrderLine(lines[i].product, lines[i].quantity, price, HalfUp(lines[i].quantity * price, 1000)))
  }

  function Sum(lines: seq<OrderLine>): int {
    if lines == [] then 0 else Sum(lines[..|lines| - 1]) + lines[|lines| - 1].total
  }

  // ----- payments -----

  function FindReference(payments: seq<Payment>, reference: string): (r: Option<Id>)
    ensures r.Some? ==> r.value < |payments| && payments[r.value].reference == reference
    ensures r.None? ==> forall i :: 0 <= i < |payments| ==> payments[i].reference != reference
  {
    Find(payments, (p: Payment) => p.reference == reference)
  }

  /** create_payment: on a known reference the existing payment is returned untouched. */
  function WithPayment(payments: seq<Payment>, user: Id, amount: int, reference: string, request: Option<Id>,
                       currency: string): seq<Payment>
  {
    if FindReference(payments, reference).Some? then payments
    else payments + [Payment(user, request, reference, amount, currency, Pay.Pending)]
  }

  function PaymentOf(payments: seq<Payment>, reference: string): Id {
    match FindReference(payments, reference)
    case Some(i) => i
    case None => |payments|
  }

  function CreatePayment(db: Db, user: Id, amount: int, reference: string, request: Option<Id>, currency: string): Reply {
    if amount < 0 then Reply(db, Some(BadAmount))
    else if request.Some? && request.value >= |db.market.requests| then Reply(db, Some(NotFound))
    else Reply(db.(payments := WithPayment(db.payments, user, amount, reference, request, currency)), None)
  }

  function PayWith(db: Db, pid: Id, status: Pay.Status): Db
    requires pid < |db.payments|
  {
    db.(payments := db.payments[pid := db.payments[pid].(status := status)])
  }

  /** authorize_payment */
  function Authorize(db: Db, pid: Id): Reply {
    if pid < |db.payments| && db.payments[pid].status == Pay.Pending then Reply(PayWith(db, pid, Pay.Authorized), None)
    else Reply(db, Some(BadState))
  }

  /** capture_payment and mark_paid share this guard and this write. */
  function Capture(db: Db, pid: Id): Reply {
    if pid < |db.payments| && db.payments[pid].status in {Pay.Pending, Pay.Authorized} then Reply(PayWith(db, pid, Pay.Paid), None)
    else Reply(db, Some(BadState))
  }

  /** What a provider webhook, a MoPay verification or a completed refund does to the status:
      an unguarded rewrite. */
  function RewriteStatus(db: Db, pid: Id, status: Pay.Status): Reply {
    if pid < |db.payments| then Reply(PayWith(db, pid, status), None) else Reply(db, Some(NotFound))
  }

  /** post_entry: the first entry under a key stands. */
  function Post(entries: map<EntryKey, int>, key: EntryKey, amount: int): map<EntryKey, int> {
    if key in entries then entries else entries[key := amount]
  }

  function AcceptedProvider(market: M.Db, request: Option<Id>): Option<Id> {
    if request.Some? && request.value < |market.requests| then market.requests[request.value].provider else None
  }

  function BuyerKey(p: Payment): EntryKey {
    EntryKey(Buyer(p.user, p.currency), p.reference, true)
  }

  function SellerKey(p: Payment, provider: Id): EntryKey {
    EntryKey(Seller(provider, p.currency), p.reference, false)
  }

  function FindOrder(orders: seq<Order>, pid: Id): (r: Option<Id>)
    ensures r.Some? ==> r.value < |orders| && orders[r.value].payment == pid
    ensures r.None? ==> forall i :: 0 <= i < |orders| ==> orders[i].payment != pid
  {
    Find(orders, (o: Order) => o.payment == pid)
  }

  /** mark_order_paid */
  function MarkOrderPaid(orders: seq<Order>, pid: Id): seq<Order> {
    match FindOrder(orders, pid)
    case Some(i) => if orders[i].status == AwaitingPayment then orders[i := orders[i].(status := Paid)] else orders
    case None => orders
  }

  /** settle_verified_payment: payment, buyer debit, provider credit and earning, and order,
      in one transaction. A non-positive amount is refused only when it is posted, after the
      payment was marked; the caller rolls that back. */
  function Settle(db: Db, pid: Id): Reply {
    if pid >= |db.payments| then Reply(db, Some(NotFound))
    else
      var p := db.payments[pid];
      if p.status == Pay.Paid then Reply(db, None)
      else if p.status !in {Pay.Pending, Pay.Authorized} then Reply(db, Some(BadState))
      else if p.amount <= 0 then Reply(PayWith(db, pid, Pay.Paid), Some(BadAmount))
      else
        var db1 := PayWith(db, pid, Pay.Paid);
        var debited := Post(db1.entries, BuyerKey(p), p.amount);
        var provider := AcceptedProvider(db.market, p.request);
        var db2 :=
          if provider.Some? then
            db1.(entries := Post(debited, SellerKey(p, provider.value), p.amount),
                 earnings := if p.reference in db1.earnings then db1.earnings
                             else db1.earnings[p.reference := Earning(provider.value, p.request.value, p.amount)])
          else db1.(entries := debited);
        Reply(db2.(orders := MarkOrderPaid(db2.orders, pid)), None)
  }

  // ----- checkout -----

  /** checkout. The reference is derived from the cart; `milliFee` is the delivery fee in
      thousandths of a cent. Two unique indexes can refuse it: one order per payment, and one
      checked-out cart per user and merchant. */
  function Checkout(db: Db, user: Id, cid: Id, milliFee: int, reference: string): Reply {
    if cid >= |db.carts| || db.carts[cid].user != user || db.carts[cid].status != Active then Reply(db, Some(NotFound))
    else
      var cart := db.carts[cid];
      if cart.lines == [] then Reply(db, Some(EmptyCart))
      else if !KnownProducts(db.products, cart.lines) then Reply(db, Some(NotFound))
      else if !Stocked(db.products, cart.lines) then Reply(db, Some(OutOfStock))
      else
        var lines := Priced(db.products, cart.lines);
        var fee := HalfUp(milliFee, 1000);
        var total := Sum(lines) + fee;
        var pid := PaymentOf(db.payments, reference);
        if fee < 0 || total < 0 then Reply(db, Some(BadAmount))
        else if FindOrder(db.orders, pid).Some? || FindCart(db.carts, user, cart.merchant, CheckedOut).Some?
        then Reply(db, Some(UniqueViolation))
        else
          Reply(db.(
            products := TakeStock(db.products, cart.lines),
            history := db.history + TookEvents(cart.lines),
            payments := WithPayment(db.payments, user, total, reference, None, "LSL"),
            orders := db.orders + [Order(user, cart.merchant, pid, AwaitingPayment, "LSL", lines, Sum(lines), fee, total)],
            carts := db.carts[cid := cart.(status := CheckedOut)]), None)
  }

  // ----- point of sale -----

  predicate DistinctProducts(lines: seq<Line>) {
    forall i, j :: 0 <= i < j < |lines| ==> lines[i].product != lines[j].product
  }

  /** The exact worth of lines, in thousandths of a cent. */
  function Worth(lines: seq<OrderLine>): int {
    if lines == [] then 0
    else Worth(lines[..|lines| - 1]) + lines[|lines| - 1].quantity * lines[|lines| - 1].unitPrice
  }

  /** pos.create_order: a repeated product makes the id count disagree and is refused too. The
      line totals and the total are each rounded to cents when they are stored. */
  function CounterSale(db: Db, merchant: Id, lines: seq<Line>): Reply {
    if !KnownProducts(db.products, lines) || !DistinctProducts(lines) then Reply(db, Some(NotFound))
    else if exists i :: 0 <= i < |lines| && lines[i].quantity <= 0 then Reply(db, Some(BadQuantity))
    else if !Stocked(db.products, lines) then Reply(db, Some(OutOfStock))
    else
      var items := Priced(db.products, lines);
      Reply(db.(products := TakeStock(db.products, lines),
                history := db.history + TookEvents(lines),
                counterSales := db.counterSales + [Sale(merchant, items, HalfUp(Worth(items), 1000))]), None)
  }

  // ----- orders -----

  datatype Action = Accept | Reject | Prepare | MakeReady | Complete | Cancel

  function OrderSuccessors(s: OrderStatus): set<OrderStatus> {
    match s
    case Paid => {Preparing, Cancelled}
    case Preparing => {Ready, Cancelled}
    case Ready => {OutForDelivery, Fulfilled, Cancelled}
    case OutForDelivery => {Fulfilled, Cancelled}
    case _ => {}
  }

  function TargetOf(action: Action): OrderStatus {
    match action
    case Accept => Preparing
    case Reject => Cancelled
    case Prepare => Preparing
    case MakeReady => Ready
    case Complete => Fulfilled
    case Cancel => Cancelled
  }

  function WithOrder(db: Db, oid: Id, status: OrderStatus): Db
    requires oid < |db.orders|
  {
    db.(orders := db.orders[oid := db.orders[oid].(status := status)])
  }

  /** merchant_transition. Making an order ready creates its delivery job when both ends have
      coordinates (`deliverable`), and sends the order out. */
  function MerchantTransition(db: Db, merchant: Id, oid: Id, action: Action, deliverable: bool, ranked: seq<Id>, now: int): Reply {
    if oid >= |db.orders| || db.orders[oid].merchant != merchant then Reply(db, Some(NotFound))
    else
      var target := TargetOf(action);
      if target !in OrderSuccessors(db.orders[oid].status) then Reply(db, Some(BadAction))
      else if target == Ready && deliverable then
        var job := M.CreateJob(db.market, oid, db.orders[oid].user, ranked, now);
        if job.error.Some? then Reply(db, Some(UniqueViolation))
        else Reply(WithOrder(db.(market := job.db), oid, OutForDelivery), None)
      else Reply(WithOrder(db, oid, target), None)
  }

  /** cancel_customer_order */
  function CancelOrder(db: Db, user: Id, oid: Id): Reply {
    if oid < |db.orders| && db.orders[oid].user == user && db.orders[oid].status == AwaitingPayment
    then Reply(WithOrder(db, oid, Cancelled), None)
    else Reply(db, Some(BadState))
  }

  // ----- runs -----

  datatype Op =
    | OpMarket(call: M.Call)
    | OpCreateProduct(merchant: Id, price: int, stock: int)
    | OpUpdateStock(merchant: Id, pid: Id, quantity: int)
    | OpAddToCart(user: Id, merchant: Id, pid: Id, quantity: int)
    | OpUpdateCartItem(user: Id, cid: Id, pid: Id, quantity: int)
    | OpCheckout(user: Id, cid: Id, milliFee: int, reference: string)
    | OpCounterSale(merchant: Id, lines: seq<Line>)
    | OpCreatePayment(user: Id, amount: int, reference: string, request: Option<Id>, currency: string)
    | OpAuthorize(pid: Id)
    | OpCapture(pid: Id)
    | OpRewrite(pid: Id, status: Pay.Status)
    | OpSettle(pid: Id)
    | OpMerchant(merchant: Id, oid: Id, action: Action, deliverable: bool, ranked: seq<Id>, now: int)
    | OpCancelOrder(user: Id, oid: Id)

  function Execute(db: Db, op: Op): Reply {
    match op
    case OpMarket(call) => Reply(db.(market := M.Commit(db.market, call)), None)
    case OpCreateProduct(merchant, price, stock) => CreateProduct(db, merchant, price, stock)
    case OpUpdateStock(merchant, pid, quantity) => UpdateStock(db, merchant, pid, quantity)
    case OpAddToCart(user, merchant, pid, quantity) => AddToCart(db, user, merchant, pid, quantity)
    case OpUpdateCartItem(user, cid, pid, quantity) => UpdateCartItem(db, user, cid, pid, quantity)
    case OpCheckout(user, cid, milliFee, reference) => Checkout(db, user, cid, milliFee, reference)
    case OpCounterSale(merchant, lines) => CounterSale(db, merchant, lines)
    case OpCreatePayment(user, amount, reference, request, currency) => CreatePayment(db, user, amount, reference, request, currency)
    case OpAuthorize(pid) => Authorize(db, pid)
    case OpCapture(pid) => Capture(db, pid)
    case OpRewrite(pid, status) => RewriteStatus(db, pid, status)
    case OpSettle(pid) => Settle(db, pid)
    case OpMerchant(merchant, oid, action, deliverable, ranked, now) =>
      MerchantTransition(db, merchant, oid, action, deliverable, ranked, now)
    case OpCancelOrder(user, oid) => CancelOrder(db, user, oid)
  }

  /** `keep`: the caller commits although the function raised. */
  datatype Call = Call(op: Op, keep: bool)

  function Commit(db: Db, call: Call): Db {
    var r := Execute(db, call.op);
    if r.error.None? || call.keep then r.db else db
  }

  function Run(db: Db, calls: seq<Call>): Db
    decreases |calls|
  {
    if calls == [] then db else Run(Commit(db, calls[0]), calls[1..])
  }
}
