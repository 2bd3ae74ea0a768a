/**
 * The life of an order after it has been placed: payment, cancellation and
 * refund, and what each does to the wallet, the product counters and the
 * entitlements.  Each function is one committed transaction; an error rolls
 * everything back.  Orders are numbered by their position in the table.
 */
module Shop {
  import opened Sums
  import P = OrderProtocol

  datatype Kind = Study | Vip

  datatype Channel = Balance | Wechat | Mock

  datatype RefundState = NotAsked | Requested | Processing | Succeeded | Abnormal

  datatype Item = Item(product: int, kind: Kind, quantity: nat, stockDeducted: bool, status: P.Status)

  /** `paidAt` and `refundedAt`: whether those time stamps are set. */
  datatype Order = Order(user: nat, payable: int, items: seq<Item>, status: P.Status, payment: P.Payment,
                         channel: Channel, transaction: string, paidAt: bool, refundState: RefundState,
                         refundNo: Option<string>, refundId: string, refundedAt: bool)

  datatype RowKind = Purchase | Refund | Adjustment

  /** A wallet row; `order` is the order it was written for. */
  datatype WalletRow = WalletRow(user: nat, income: bool, amount: int, before: int, after: int,
                                 kind: RowKind, order: Option<nat>, number: string)

  /** Stock -1 means unlimited. */
  datatype Product = Product(stock: int, sales: int)

  datatype Entitlement = Entitlement(user: nat, product: int, order: nat, active: bool)

  /** A payment sync that has read the row of an order, without locking it, and has yet to act on it. */
  datatype Sync = Sync(order: nat, row: Order, live: bool)

  /**
   * `keys` are the Redis stock keys.  `stamps`: WeChat sessions opened on a
   * pending order whose channel column is still to be written.  `readings`:
   * the sales counters that a payment in progress has read, by its order.
   */
  datatype Books = Books(balances: map<nat, int>, wallet: seq<WalletRow>, products: map<int, Product>, keys: map<int, int>,
                         orders: seq<Order>, grants: seq<Entitlement>, stamps: multiset<nat>, readings: map<nat, map<int, int>>,
                         syncs: seq<Sync>)

  datatype Error =
    | OrderNotFound
    | OrderNotPayable
    | UserNotFound
    | InvalidOrderAmount
    | InsufficientBalance
    | DuplicateNumber
    | TransactionMismatch
    | RefundMismatch
    | OrderNotRefundable
    | OrderAlreadyPaid
    | GatewayUnavailable
    | RowLocked

  datatype Outcome = Done(books: Books) | Raised(error: Error)

  /** The state a caller leaves behind: an error is rolled back. */
  function After(before: Books, o: Outcome): Books { if o.Done? then o.books else before }

  // ---------------------------------------------------------------- rows

  function Signed(r: WalletRow): int { if r.income then r.amount else -r.amount }

  predicate NumberTaken(wallet: seq<WalletRow>, number: string) { exists i | 0 <= i < |wallet| :: wallet[i].number == number }

  predicate RefundNoTaken(orders: seq<Order>, k: nat, no: string) {
    exists i | 0 <= i < |orders| && i != k :: orders[i].refundNo == Some(no)
  }

  predicate RefundRowExists(wallet: seq<WalletRow>, k: nat) {
    exists i | 0 <= i < |wallet| :: wallet[i].kind == Refund && wallet[i].order == Some(k)
  }

  predicate SettledPaid(o: Order) { o.payment == P.PaidUp && o.status == P.Paid }

  /** Move money in one wallet and write the row for it. */
  function Post(b: Books, user: nat, income: bool, amount: int, kind: RowKind, order: Option<nat>, number: string): Books
    requires user in b.balances
  {
    var before := b.balances[user];
    var after := if income then before + amount else before - amount;
    b.(balances := b.balances[user := after],
       wallet := b.wallet + [WalletRow(user, income, amount, before, after, kind, order, number)])
  }

  // ---------------------------------------------------------------- item loops

  predicate Sells(items: seq<Item>, p: int) { exists i | 0 <= i < |items| :: items[i].kind == Study && items[i].product == p }

  /** The product rows of an order as a payment reads them: unlocked. */
  function Counters(products: map<int, Product>, items: seq<Item>): map<int, int> {
    map p | p in products && Sells(items, p) :: products[p].sales
  }

  predicate Sellable(counters: map<int, int>, it: Item) { it.kind == Study && it.product in counters }

  /** The counters read, each raised by the items sold. */
  function Tally(counters: map<int, int>, items: seq<Item>): map<int, int> {
    if items == [] then counters
    else
      var it := items[|items| - 1];
      var m := Tally(counters, items[..|items| - 1]);
      if Sellable(counters, it) && it.product in m then m[it.product := m[it.product] + it.quantity] else m
  }

  /** The commit writes the counters it has computed, whatever the rows hold by then. */
  function Written(products: map<int, Product>, tally: map<int, int>): map<int, Product> {
    map p | p in products :: if p in tally then products[p].(sales := tally[p]) else products[p]
  }

  /** One entitlement per unit. */
  function Copies(e: Entitlement, n: nat): seq<Entitlement> { if n == 0 then [] else Copies(e, n - 1) + [e] }

  function Granted(k: nat, user: nat, items: seq<Item>, counters: map<int, int>): seq<Entitlement> {
    if items == [] then []
    else
      var it := items[|items| - 1];
      Granted(k, user, items[..|items| - 1], counters) +
      (if Sellable(counters, it) then Copies(Entitlement(user, it.product, k, true), it.quantity) else [])
  }

  function Abs(x: int): (r: int)
    ensures r >= 0 && (r == x || r == -x)
  {
    if x < 0 then -x else x
  }

  /** An item is marked paid when its product, or its VIP plan and the member, were found. */
  function PayItem(it: Item, counters: map<int, int>, plans: set<int>, member: bool): Item {
    if Sellable(counters, it) || (it.kind == Vip && member && Abs(it.product) in plans) then it.(status := P.Paid) else it
  }

  function PayItems(items: seq<Item>, counters: map<int, int>, plans: set<int>, member: bool): seq<Item> {
    seq(|items|, i requires 0 <= i < |items| => PayItem(items[i], counters, plans, member))
  }

  function Max0(x: int): (r: int)
    ensures r >= 0 && r >= x && (r == 0 || r == x)
  {
    if x < 0 then 0 else x
  }

  /** Give one item back to its product: the sale when `unsell`, the stock when it was taken and is finite. */
  function GiveBack(m: map<int, Product>, it: Item, unsell: bool): map<int, Product> {
    if it.product !in m then m
    else
      var p := m[it.product];
      var sales := if unsell then Max0(p.sales - it.quantity) else p.sales;
      var stock := if it.stockDeducted && p.stock >= 0 then p.stock + it.quantity else p.stock;
      m[it.product := Product(stock, sales)]
  }

  function GiveBackAll(products: map<int, Product>, items: seq<Item>, unsell: bool): map<int, Product> {
    if items == [] then products
    else GiveBack(GiveBackAll(products, items[..|items| - 1], unsell), items[|items| - 1], unsell)
  }

  /** INCRBY for an item whose stock went back. */
  function KeyBack(keys: map<int, int>, m: map<int, Product>, it: Item): map<int, int> {
    if it.stockDeducted && it.product in m && m[it.product].stock >= 0
    then keys[it.product := (if it.product in keys then keys[it.product] else 0) + it.quantity] else keys
  }

  function KeysBackAll(keys: map<int, int>, products: map<int, Product>, items: seq<Item>, unsell: bool): map<int, int> {
    if items == [] then keys
    else
      var front := items[..|items| - 1];
      KeyBack(KeysBackAll(keys, products, front, unsell), GiveBackAll(products, front, unsell), items[|items| - 1])
  }

  function Close(it: Item): Item { it.(stockDeducted := false, status := P.Canceled) }

  function CloseItems(items: seq<Item>): seq<Item> { seq(|items|, i requires 0 <= i < |items| => Close(items[i])) }

  function Lapse(e: Entitlement, k: nat): Entitlement { if e.order == k then e.(active := false) else e }

  function LapseAll(grants: seq<Entitlement>, k: nat): seq<Entitlement> {
    seq(|grants|, i requires 0 <= i < |grants| => Lapse(grants[i], k))
  }

  // ---------------------------------------------------------------- operations

  /** The counters a payment works from: read earlier, or just now. */
  function Reading(b: Books, k: nat): map<int, int>
    requires k < |b.orders|
  {
    if k in b.readings then b.readings[k] else Counters(b.products, b.orders[k].items)
  }

  predicate Payable(o: Order) { o.status == P.Pending && o.payment != P.PaidUp }

  /** A payment has passed its checks and read the product rows; it holds the order row until it commits. */
  function BeginPayment(b: Books, k: nat): Outcome {
    if k >= |b.orders| || !Payable(b.orders[k]) || k in b.readings then Done(b)
    else Done(b.(readings := b.readings[k := Counters(b.products, b.orders[k].items)]))
  }

  function Paying(b: Books, k: nat, channel: Channel, transaction: string, plans: set<int>): Books
    requires k < |b.orders|
  {
    var o := b.orders[k];
    var read := Reading(b, k);
    var items := PayItems(o.items, read, plans, o.user in b.balances);
    b.(orders := b.orders[k := o.(status := P.Paid, payment := P.PaidUp, channel := channel,
                                  transaction := transaction, paidAt := true, items := items)],
       products := Written(b.products, Tally(read, o.items)),
       grants := b.grants + Granted(k, o.user, o.items, read),
       readings := b.readings - {k})
  }

  function MarkPaid(b: Books, k: nat, channel: Channel, transaction: string, plans: set<int>): Outcome {
    if k >= |b.orders| then Raised(OrderNotFound)
    else if SettledPaid(b.orders[k]) then Done(b)
    else if b.orders[k].status != P.Pending || b.orders[k].payment == P.PaidUp then Raised(OrderNotPayable)
    else Done(Paying(b, k, channel, transaction, plans))
  }

  function PayWithBalance(b: Books, user: nat, k: nat, number: string, plans: set<int>): Outcome {
    if k >= |b.orders| || b.orders[k].user != user then Raised(OrderNotFound)
    else
      var o := b.orders[k];
      if SettledPaid(o) then Done(b)
      else if o.status != P.Pending || o.payment == P.PaidUp then Raised(OrderNotPayable)
      else if user !in b.balances then Raised(UserNotFound)
      else if o.payable < 0 then Raised(InvalidOrderAmount)
      else if b.balances[user] < o.payable then Raised(InsufficientBalance)
      else if NumberTaken(b.wallet, number) then Raised(DuplicateNumber)
      else MarkPaid(Post(b, user, false, o.payable, Purchase, Some(k), number), k, Balance, number, plans)
  }

  /** The rows a cancellation writes, whatever they hold by then; what it gives back are the items it has read. */
  function Closing(b: Books, k: nat, items: seq<Item>): Books
    requires k < |b.orders|
  {
    var o := b.orders[k];
    b.(products := GiveBackAll(b.products, items, false),
       keys := KeysBackAll(b.keys, b.products, items, false),
       orders := b.orders[k := o.(status := P.Canceled, payment := P.Voided, items := CloseItems(o.items))])
  }

  /**
   * A cancellation that judges the order by the row it was handed.  It cannot
   * write the order row while a payment in progress holds it.
   */
  function CancelAs(b: Books, k: nat, row: Order): Outcome
    requires k < |b.orders|
  {
    if row.payment == P.PaidUp || row.status != P.Pending then Done(b)
    else if k in b.readings then Raised(RowLocked)
    else Done(Closing(b, k, row.items))
  }

  /** A cancellation that holds the order row. */
  function CancelUnpaid(b: Books, k: nat): Outcome {
    if k >= |b.orders| then Raised(OrderNotFound) else CancelAs(b, k, b.orders[k])
  }

  /** The payment sync reads its order without a lock and goes on only when it is unpaid and filed under WeChat. */
  function ReadUnlocked(b: Books, user: nat, k: nat): Outcome {
    if k >= |b.orders| || b.orders[k].user != user then Raised(OrderNotFound)
    else if b.orders[k].payment == P.PaidUp then Done(b)
    else if b.orders[k].channel != Wechat || b.orders[k].status != P.Pending then Raised(OrderNotPayable)
    else Done(b.(syncs := b.syncs + [Sync(k, b.orders[k], true)]))
  }

  predicate Syncing(b: Books, i: nat) { i < |b.syncs| && b.syncs[i].live && b.syncs[i].order < |b.orders| }

  /** It reads the items of the order again. */
  function ReadItems(b: Books, i: nat): Outcome {
    if !Syncing(b, i) then Done(b)
    else
      var y := b.syncs[i];
      Done(b.(syncs := b.syncs[i := y.(row := y.row.(items := b.orders[y.order].items))]))
  }

  /** The gateway says that the payment is closed, and the sync cancels the order by the row it has read. */
  function SyncCancels(b: Books, i: nat): Outcome {
    if !Syncing(b, i) then Done(b)
    else
      var y := b.syncs[i];
      CancelAs(b.(syncs := b.syncs[i := y.(live := false)]), y.order, y.row)
  }

  function Refunding(b: Books, k: nat, refundNo: string, refundId: string): Books
    requires k < |b.orders|
  {
    var o := b.orders[k];
    b.(products := GiveBackAll(b.products, o.items, true),
       keys := KeysBackAll(b.keys, b.products, o.items, true),
       grants := LapseAll(b.grants, k),
       orders := b.orders[k := o.(status := P.Canceled, payment := P.Refunded, items := CloseItems(o.items),
                                  refundState := Succeeded, refundNo := Some(refundNo), refundId := refundId,
                                  refundedAt := true)])
  }

  function FinalizeRefund(b: Books, k: nat, refundNo: string, refundId: string, toWallet: bool, number: string): Outcome {
    if k >= |b.orders| then Raised(OrderNotFound)
    else
      var o := b.orders[k];
      if o.payment == P.Refunded then Done(b)
      else if !SettledPaid(o) then Raised(OrderNotRefundable)
      else if o.user !in b.balances then Raised(UserNotFound)
      else
        var pays := toWallet && !RefundRowExists(b.wallet, k);
        if (pays && NumberTaken(b.wallet, number)) || RefundNoTaken(b.orders, k, refundNo) then Raised(DuplicateNumber)
        else Done(Refunding(if pays then Post(b, o.user, true, o.payable, Refund, Some(k), number) else b, k, refundNo, refundId))
  }

  /** A validated successful WeChat transaction. */
  function WechatPaid(b: Books, k: nat, transaction: string, plans: set<int>): Outcome {
    if k >= |b.orders| then Raised(OrderNotFound)
    else
      var o := b.orders[k];
      if o.payment == P.PaidUp || o.payment == P.Refunded then
        if o.transaction != "" && o.transaction != transaction then Raised(TransactionMismatch) else Done(b)
      else MarkPaid(b, k, Wechat, transaction, plans)
  }

  /** What the gateway says about an order whose payment window has closed. */
  datatype Gateway = Unknown | QueryFailed | Success(transaction: string) | UserPaying | NotPaid(closed: bool) | OtherState

  function TimeOut(b: Books, k: nat, configured: bool, gateway: Gateway, plans: set<int>): Outcome {
    if k >= |b.orders| then Raised(OrderNotFound)
    else if b.orders[k].channel != Wechat || !configured then CancelUnpaid(b, k)
    else
      match gateway
      case QueryFailed => Raised(GatewayUnavailable)
      case Success(transaction) => MarkPaid(b, k, Wechat, transaction, plans)
      case UserPaying => Done(b)
      case NotPaid(closed) => if closed then CancelUnpaid(b, k) else Raised(GatewayUnavailable)
      case _ => CancelUnpaid(b, k)
  }

  /** Whether that call, unless it fails, answers that it changed the order; finding it paid counts as a change. */
  predicate Reported(b: Books, k: nat, configured: bool, gateway: Gateway) {
    k < |b.orders| &&
    var cancels := b.orders[k].payment != P.PaidUp && b.orders[k].status == P.Pending;
    if b.orders[k].channel != Wechat || !configured then cancels
    else
      match gateway
      case Success(_) => true
      case NotPaid(closed) => closed && cancels
      case Unknown => cancels
      case OtherState => cancels
      case _ => false
  }

  /** The sweep stops at the first error; what it did before stays, but its report is then empty. */
  function Sweep(b: Books, rows: seq<nat>, configured: bool, answers: seq<Gateway>, plans: set<int>): (Books, Option<seq<nat>>)
    requires |answers| == |rows|
  {
    if rows == [] then (b, Some([]))
    else
      var n := |rows| - 1;
      var (front, canceled) := Sweep(b, rows[..n], configured, answers[..n], plans);
      if canceled.None? then (front, None)
      else
        var o := TimeOut(front, rows[n], configured, answers[n], plans);
        if Aborts(front, rows[n], o) then (front, None)
        else (After(front, o), Some(if Reported(front, rows[n], configured, answers[n]) then canceled.value + [rows[n]] else canceled.value))
  }

  /** A missing order and an unreachable gateway are answers; only a refused payment is an exception. */
  predicate Aborts(b: Books, k: nat, o: Outcome) { k < |b.orders| && o.Raised? && o.error != GatewayUnavailable }

  function RequestRefund(b: Books, user: nat, k: nat): Outcome {
    if k >= |b.orders| || b.orders[k].user != user then Raised(OrderNotFound)
    else
      var o := b.orders[k];
      if o.payment == P.Refunded || o.refundState == Requested || o.refundState == Processing then Done(b)
      else if !SettledPaid(o) then Raised(OrderNotRefundable)
      else Done(b.(orders := b.orders[k := o.(refundState := Requested)]))
  }

  /** The provider's validated answer about a refund. */
  datatype Answer = Answer(state: RefundState, id: string)

  function Noted(b: Books, k: nat, refundNo: Option<string>, state: RefundState, id: string): Books
    requires k < |b.orders|
  {
    b.(orders := b.orders[k := b.orders[k].(refundNo := refundNo, refundState := state, refundId := id)])
  }

  function Text(no: Option<string>): string { if no.Some? then no.value else "" }

  function AdminRefund(b: Books, k: nat, newNo: string, answer: Answer, number: string): Outcome {
    if k >= |b.orders| then Raised(OrderNotFound)
    else
      var o := b.orders[k];
      if o.payment == P.Refunded then Done(b)
      else if o.refundState == Processing && o.channel == Wechat then
        if answer.state == Succeeded then FinalizeRefund(b, k, Text(o.refundNo), answer.id, false, number)
        else Done(Noted(b, k, o.refundNo, answer.state, answer.id))
      else if !SettledPaid(o) then Raised(OrderNotRefundable)
      else
        var no := if Text(o.refundNo) != "" then Text(o.refundNo) else newNo;
        if o.channel != Wechat then FinalizeRefund(b, k, no, "", o.channel == Balance, number)
        else ProviderRefund(b, k, no, answer, number)
  }

  /** A refund that the provider is asked for. */
  function ProviderRefund(b: Books, k: nat, no: string, answer: Answer, number: string): Outcome
    requires k < |b.orders|
  {
    if RefundNoTaken(b.orders, k, no) then Raised(DuplicateNumber)
    else if answer.state == Succeeded then FinalizeRefund(Noted(b, k, Some(no), answer.state, answer.id), k, no, answer.id, false, number)
    else Done(Noted(b, k, Some(no), answer.state, answer.id))
  }

  function RefundNotified(b: Books, k: nat, refundNo: string, answer: Answer, number: string): Outcome {
    if k >= |b.orders| then Raised(OrderNotFound)
    else
      var o := b.orders[k];
      if Text(o.refundNo) != "" && refundNo != Text(o.refundNo) then Raised(RefundMismatch)
      else if answer.state == Succeeded then FinalizeRefund(b, k, refundNo, answer.id, false, number)
      else Done(b.(orders := b.orders[k := o.(refundState := answer.state)]))
  }

  /** The unlocked first half of opening a WeChat payment: the order looked payable. */
  function OpenWechat(b: Books, user: nat, k: nat): Outcome {
    if k >= |b.orders| || b.orders[k].user != user then Raised(OrderNotFound)
    else if b.orders[k].payment == P.PaidUp then Raised(OrderAlreadyPaid)
    else if b.orders[k].status != P.Pending then Raised(OrderNotPayable)
    else if b.orders[k].channel == Wechat then Done(b)
    else Done(b.(stamps := b.stamps + multiset{k}))
  }

  /** Its second half, after the call to the gateway: the channel column is written, whatever the order is by now. */
  function StampWechat(b: Books, k: nat): Outcome {
    if k !in b.stamps || k >= |b.orders| then Done(b)
    else Done(b.(stamps := b.stamps - multiset{k}, orders := b.orders[k := b.orders[k].(channel := Wechat)]))
  }

  function AdjustWallet(b: Books, user: nat, income: bool, amount: nat, number: string): Outcome {
    if user !in b.balances then Raised(UserNotFound)
    else if (if income then b.balances[user] + amount else b.balances[user] - amount) < 0 then Raised(InsufficientBalance)
    else if NumberTaken(b.wallet, number) then Raised(DuplicateNumber)
    else Done(Post(b, user, income, amount, Adjustment, None, number))
  }

  /** A committed new order, as order creation or a VIP purchase leaves it. */
  function Fresh(user: nat, payable: int, items: seq<Item>, channel: Channel): Order {
    Order(user, payable, items, P.Pending, P.Unpaid, channel, "", false, NotAsked, None, "", false)
  }

  // ---------------------------------------------------------------- runs

  /** SetStock stands for whatever else moves stock: order creation, product edits. */
  datatype Event =
    | Place(user: nat, payable: int, items: seq<Item>, channel: Channel)
    | PayBalance(user: nat, order: nat, number: string, plans: set<int>)
    | PayMock(order: nat, transaction: string, plans: set<int>)
    | Notify(order: nat, transaction: string, plans: set<int>)
    | Timeout(order: nat, configured: bool, gateway: Gateway, plans: set<int>)
    | AskRefund(user: nat, order: nat)
    | RefundByAdmin(order: nat, newNo: string, answer: Answer, number: string)
    | RefundNotice(order: nat, refundNo: string, answer: Answer, number: string)
    | StartWechat(user: nat, order: nat)
    | Stamp(order: nat)
    | Adjust(user: nat, income: bool, amount: nat, number: string)
    | SetStock(product: int, stock: int)
    | BeginPay(order: nat)
    | AbortPay(order: nat)
    | SyncRead(user: nat, order: nat)
    | SyncItems(call: nat)
    | SyncCancel(call: nat)

  /** The items order creation can commit: study lines of known products, or one VIP line. */
  predicate Orderable(b: Books, user: nat, items: seq<Item>) {
    user in b.balances &&
    forall i | 0 <= i < |items| ::
      items[i].status == P.Pending && items[i].quantity >= 1 && (items[i].kind == Study ==> items[i].product in b.products) &&
      (items[i].kind == Vip ==> items[i].product !in b.products && !items[i].stockDeducted)
  }

  /** The event needs the order row, and a payment in progress holds it. */
  predicate Blocked(b: Books, e: Event) {
    match e
    case AskRefund(_, k) => k in b.readings
    case RefundByAdmin(k, _, _, _) => k in b.readings
    case RefundNotice(k, _, _, _) => k in b.readings
    case Stamp(k) => k in b.readings
    case _ => false
  }

  /** A payment event on an order whose payment is in progress is the commit of that payment. */
  function Perform(b: Books, e: Event): Outcome { if Blocked(b, e) then Raised(RowLocked) else Execute(b, e) }

  function Execute(b: Books, e: Event): Outcome {
    match e
    case Place(user, payable, items, channel) =>
      if Orderable(b, user, items) then Done(b.(orders := b.orders + [Fresh(user, payable, items, channel)])) else Raised(OrderNotFound)
    case PayBalance(user, k, number, plans) => PayWithBalance(b, user, k, number, plans)
    case PayMock(k, transaction, plans) => MarkPaid(b, k, Mock, transaction, plans)
    case Notify(k, transaction, plans) => WechatPaid(b, k, transaction, plans)
    case Timeout(k, configured, gateway, plans) => TimeOut(b, k, configured, gateway, plans)
    case AskRefund(user, k) => RequestRefund(b, user, k)
    case RefundByAdmin(k, newNo, answer, number) => AdminRefund(b, k, newNo, answer, number)
    case RefundNotice(k, refundNo, answer, number) => RefundNotified(b, k, refundNo, answer, number)
    case StartWechat(user, k) => OpenWechat(b, user, k)
    case Stamp(k) => StampWechat(b, k)
    case Adjust(user, income, amount, number) => AdjustWallet(b, user, income, amount, number)
    case SetStock(p, stock) =>
      Done(if p in b.products then b.(products := b.products[p := b.products[p].(stock := stock)]) else b)
    case BeginPay(k) => BeginPayment(b, k)
    case AbortPay(k) => Done(b.(readings := b.readings - {k}))
    case SyncRead(user, k) => ReadUnlocked(b, user, k)
    case SyncItems(i) => ReadItems(b, i)
    case SyncCancel(i) => SyncCancels(b, i)
  }

  function Step(b: Books, e: Event): Books { After(b, Perform(b, e)) }

  function Run(b: Books, events: seq<Event>): Books
    decreases |events|
  {
    if events == [] then b else Step(Run(b, events[..|events| - 1]), events[|events| - 1])
  }

  /** Wallets at zero or more, no orders yet. */
  predicate Opening(b: Books) {
    && b.wallet == [] && b.orders == [] && b.grants == [] && b.stamps == multiset{} && b.readings == map[] && b.syncs == []
    && (forall u | u in b.balances :: b.balances[u] >= 0)
    && (forall p | p in b.products :: b.products[p].sales >= 0)
  }
}
