/**
 * Travel orders bought with points.  Every endpoint is one transaction over
 * the order table, the route stock and the point books; an error rolls it
 * back.  Orders are numbered by their position; a check-in token is a number,
 * and issuing one always takes the next unused number.
 */
module Travel {
  import opened Sums
  import B = PointBook
  import H = PointHistory

  datatype Contract = Unsigned | Pending | Approved | Rejected

  datatype Fulfillment =
    | Blank
    | ContractPending
    | ContractReviewing
    | ContractRejected
    | InfoPending
    | InfoSubmitted
    | PickupConfirmed
    | UserConfirmed
    | QrIssued
    | CheckedIn
    | InTrip
    | Completed
    | Exception
    | Cancelled

  /** `departure` is the travel date as far as it parses. */
  datatype Order = Order(user: B.User, route: nat, number: string, key: string, cost: int, departure: Option<int>,
                         contract: Contract, fulfillment: Fulfillment, address: string,
                         qr: Option<nat>, qrExpires: Option<int>, pointsRefunded: bool, stockRestored: bool)

  datatype Route = Route(stock: int, price: int, offered: bool)

  datatype Scan = Scan(order: nat, token: nat)

  /** `issued` counts tokens handed out; `scans` are the successful check-ins. */
  datatype Desk = Desk(orders: seq<Order>, routes: map<nat, Route>, books: map<B.User, B.Book>, issued: nat, scans: seq<Scan>)

  datatype Error =
    | OrderNotFound
    | UserNotFound
    | RouteOffline
    | RouteSoldOut
    | DuplicateNumber
    | PointsRefused(cause: B.PointError)
    | ContractState
    | WrongStatus
    | InvalidInput
    | ReasonMissing
    | NotCancellable
    | RequiresAdmin
    | TokenExpired
    | TokenInvalid

  /** Kept carries a change that is committed although the caller gets an error. */
  datatype Outcome = Done(desk: Desk) | Raised(error: Error) | Kept(kept: Desk, why: Error)

  function After(d: Desk, o: Outcome): Desk {
    match o
    case Done(desk) => desk
    case Raised(_) => d
    case Kept(kept, _) => kept
  }

  const HOUR := 3600
  const DAY := 86400

  function Max(a: int, b: int): (r: int)
    ensures r >= a && r >= b && (r == a || r == b)
  {
    if a >= b then a else b
  }

  function QrExpiry(departure: Option<int>, now: int): int {
    if departure.Some? then Max(now + 24 * HOUR, departure.value + DAY) else now + 3 * DAY
  }

  // ---------------------------------------------------------------- status sets

  predicate UserCancellable(f: Fulfillment) {
    f == ContractPending || f == ContractReviewing || f == ContractRejected || f == InfoPending || f == InfoSubmitted
  }

  predicate NonCancellable(f: Fulfillment) { f == CheckedIn || f == InTrip || f == Completed }

  /** Anything from the approved contract to the completed trip. */
  predicate Underway(f: Fulfillment) {
    || f == InfoPending || f == InfoSubmitted || f == PickupConfirmed || f == UserConfirmed
    || f == QrIssued || f == CheckedIn || f == InTrip || f == Completed
  }

  function Normalize(o: Order): Order {
    if o.contract == Approved && (o.fulfillment == Blank || o.fulfillment == ContractPending || o.fulfillment == ContractReviewing)
    then o.(fulfillment := InfoPending) else o
  }

  // ---------------------------------------------------------------- exchanging a route for points

  const EXCHANGE: string := "travel_exchange"
  const EXCHANGE_REFUND: string := "travel_exchange_refund"

  function DebitKey(number: string): string { "travel-exchange:" + number }

  function RefundKey(number: string): string { "travel-exchange-refund:" + number }

  predicate KeyOf(user: B.User, key: string, o: Order) { o.user == user && o.key == key }

  function FindOrder(orders: seq<Order>, user: B.User, key: string): (r: Option<nat>)
    ensures r.Some? ==> r.value < |orders| && KeyOf(user, key, orders[r.value])
    ensures r.None? ==> forall j | 0 <= j < |orders| :: !KeyOf(user, key, orders[j])
  {
    B.FirstWhere(orders, o => KeyOf(user, key, o))
  }

  predicate NumberTaken(orders: seq<Order>, number: string) { exists i | 0 <= i < |orders| :: orders[i].number == number }

  /** The debit of an exchange, or the book unchanged when the route is free. */
  function Charge(u: B.User, b: B.Book, cost: int, order: nat, number: string, now: int): B.Outcome {
    if cost > 0 then B.Debit(u, b, cost, B.Biz(EXCHANGE, order, number), DebitKey(number), now, now, now) else B.Done(b, None)
  }

  function Exchange(d: Desk, user: B.User, route: nat, key: string, number: string, departure: Option<int>, now: int): Outcome {
    if FindOrder(d.orders, user, key).Some? then Done(d)
    else if user !in d.books then Raised(UserNotFound)
    else if route !in d.routes || !d.routes[route].offered then Raised(RouteOffline)
    else if d.routes[route].stock <= 0 then Raised(RouteSoldOut)
    else if NumberTaken(d.orders, number) || |number| > 40 then Raised(DuplicateNumber)
    else
      var r := d.routes[route];
      var charged := Charge(user, d.books[user], r.price, |d.orders|, number, now);
      if charged.Raised? then Raised(PointsRefused(charged.error))
      else Done(d.(orders := d.orders + [Order(user, route, number, key, r.price, departure, Unsigned, ContractPending, "", None, None, false, false)],
                   routes := d.routes[route := r.(stock := r.stock - 1)],
                   books := d.books[user := charged.book]))
  }

  // ---------------------------------------------------------------- cancelling

  /** Give the points of an order back: by refunding its debit, or as a plain credit when no debit is on the ledger. */
  function GiveBack(b: B.Book, cost: int, order: nat, number: string, now: int, fallback: int): B.Outcome {
    if B.FindExpense(b, EXCHANGE, number).Some?
    then B.Refund(b, EXCHANGE, number, EXCHANGE_REFUND, order, RefundKey(number), now, Some(fallback))
    else B.Credit(b, cost, B.Biz(EXCHANGE_REFUND, order, number), RefundKey(number), Some(fallback))
  }

  predicate OwesPoints(o: Order) { o.cost > 0 && !o.pointsRefunded }

  /** The row part of a cancellation, once the points are settled. */
  function Drop(d: Desk, k: nat): Desk
    requires k < |d.orders|
  {
    var o := d.orders[k];
    var routes := if !o.stockRestored && o.route in d.routes
                  then d.routes[o.route := d.routes[o.route].(stock := d.routes[o.route].stock + 1)] else d.routes;
    d.(routes := routes,
       orders := d.orders[k := o.(fulfillment := Cancelled, qr := None, qrExpires := None, stockRestored := true,
                                  pointsRefunded := o.pointsRefunded || OwesPoints(o))])
  }

  /** `actor` is the user who cancels, or nobody for an administrator. */
  function Cancel(d: Desk, k: nat, actor: Option<B.User>, validDays: int, now: int): Outcome {
    if k >= |d.orders| || (actor.Some? && d.orders[k].user != actor.value) then Raised(OrderNotFound)
    else
      var o := d.orders[k];
      if o.fulfillment == Cancelled then Done(d)
      else if NonCancellable(o.fulfillment) then Raised(NotCancellable)
      else if actor.Some? && !UserCancellable(o.fulfillment) then Raised(RequiresAdmin)
      else if !OwesPoints(o) then Done(Drop(d, k))
      else if o.user !in d.books then Raised(UserNotFound)
      else
        var back := GiveBack(d.books[o.user], o.cost, k, o.number, now, now + Max(1, validDays) * DAY);
        if back.Raised? then Raised(PointsRefused(back.error))
        else Done(Drop(d.(books := d.books[o.user := back.book]), k))
  }

  // ---------------------------------------------------------------- the other endpoints

  predicate Owned(d: Desk, k: nat, user: B.User) { k < |d.orders| && d.orders[k].user == user }

  /** `valid`: the date is in range and the signature image was accepted. */
  function Sign(d: Desk, k: nat, user: B.User, departure: Option<int>, valid: bool): Outcome {
    if !Owned(d, k, user) then Raised(OrderNotFound)
    else
      var o := Normalize(d.orders[k]);
      if o.contract == Approved then Raised(ContractState)
      else if !(o.fulfillment == ContractPending || o.fulfillment == ContractReviewing || o.fulfillment == ContractRejected)
      then Raised(WrongStatus)
      else if !valid then Raised(InvalidInput)
      else Done(d.(orders := d.orders[k := o.(contract := Pending, fulfillment := ContractReviewing, departure := departure)]))
  }

  function Review(d: Desk, k: nat, approved: bool, reason: string): Outcome {
    if k >= |d.orders| then Raised(OrderNotFound)
    else
      var o := d.orders[k];
      if o.contract != Pending && o.contract != Rejected then Raised(ContractState)
      else if approved then
        var early := o.fulfillment == Blank || o.fulfillment == ContractPending || o.fulfillment == ContractReviewing || o.fulfillment == ContractRejected;
        Done(d.(orders := d.orders[k := o.(contract := Approved, fulfillment := if early then InfoPending else o.fulfillment)]))
      else if reason == "" then Raised(ReasonMissing)
      else Done(d.(orders := d.orders[k := o.(contract := Rejected, fulfillment := ContractRejected)]))
  }

  function SubmitPickup(d: Desk, k: nat, user: B.User, address: string): Outcome {
    if !Owned(d, k, user) then Raised(OrderNotFound)
    else
      var o := Normalize(d.orders[k]);
      if o.contract != Approved then Raised(ContractState)
      else if !(o.fulfillment == InfoPending || o.fulfillment == InfoSubmitted || o.fulfillment == PickupConfirmed)
      then Raised(WrongStatus)
      else Done(d.(orders := d.orders[k := o.(fulfillment := InfoSubmitted, address := address, qr := None, qrExpires := None)]))
  }

  function Schedule(d: Desk, k: nat): Outcome {
    if k >= |d.orders| then Raised(OrderNotFound)
    else
      var o := d.orders[k];
      if o.contract != Approved then Raised(ContractState)
      else if o.address == "" then Raised(InvalidInput)
      else if o.fulfillment == CheckedIn || o.fulfillment == InTrip || o.fulfillment == Completed || o.fulfillment == Cancelled
      then Raised(WrongStatus)
      else Done(d.(orders := d.orders[k := o.(fulfillment := PickupConfirmed, qr := None, qrExpires := None)]))
  }

  function Confirm(d: Desk, k: nat, user: B.User, now: int): Outcome {
    if !Owned(d, k, user) then Raised(OrderNotFound)
    else
      var o := Normalize(d.orders[k]);
      if o.contract != Approved then Raised(ContractState)
      else if o.fulfillment != PickupConfirmed then Raised(WrongStatus)
      else if o.qr.Some? then Done(d.(orders := d.orders[k := o.(fulfillment := UserConfirmed)]))
      else Done(d.(issued := d.issued + 1,
                   orders := d.orders[k := o.(fulfillment := UserConfirmed, qr := Some(d.issued), qrExpires := Some(QrExpiry(o.departure, now)))]))
  }

  function IssueQr(d: Desk, k: nat, now: int): Outcome {
    if k >= |d.orders| then Raised(OrderNotFound)
    else
      var o := d.orders[k];
      if o.fulfillment != UserConfirmed && o.fulfillment != QrIssued then Raised(WrongStatus)
      else if o.qr.None? || o.qrExpires.None? || o.qrExpires.value <= now then
        Done(d.(issued := d.issued + 1,
                orders := d.orders[k := o.(fulfillment := QrIssued, qr := Some(d.issued), qrExpires := Some(QrExpiry(o.departure, now)))]))
      else Done(d.(orders := d.orders[k := o.(fulfillment := QrIssued)]))
  }

  function CheckIn(d: Desk, k: nat, token: nat, now: int): Outcome {
    if k >= |d.orders| then Raised(OrderNotFound)
    else
      var o := d.orders[k];
      if o.fulfillment != UserConfirmed && o.fulfillment != QrIssued then Raised(WrongStatus)
      else if o.qrExpires.Some? && o.qrExpires.value <= now then Kept(d.(orders := d.orders[k := o.(qr := None)]), TokenExpired)
      else if o.qr != Some(token) then Raised(TokenInvalid)
      else Done(d.(scans := d.scans + [Scan(k, token)],
                   orders := d.orders[k := o.(fulfillment := CheckedIn, qr := None)]))
  }

  function StartTrip(d: Desk, k: nat): Outcome {
    if k >= |d.orders| then Raised(OrderNotFound)
    else if d.orders[k].fulfillment != CheckedIn && d.orders[k].fulfillment != InTrip then Raised(WrongStatus)
    else Done(d.(orders := d.orders[k := d.orders[k].(fulfillment := InTrip)]))
  }

  function Complete(d: Desk, k: nat): Outcome {
    if k >= |d.orders| then Raised(OrderNotFound)
    else if !NonCancellable(d.orders[k].fulfillment) then Raised(WrongStatus)
    else Done(d.(orders := d.orders[k := d.orders[k].(fulfillment := Completed)]))
  }

  function MarkException(d: Desk, k: nat): Outcome {
    if k >= |d.orders| then Raised(OrderNotFound)
    else if d.orders[k].fulfillment == Completed then Raised(WrongStatus)
    else Done(d.(orders := d.orders[k := d.orders[k].(fulfillment := Exception)]))
  }

  /** Listing the orders normalizes them all and commits. */
  function NormalizeAll(orders: seq<Order>): seq<Order> {
    seq(|orders|, i requires 0 <= i < |orders| => Normalize(orders[i]))
  }

  // ---------------------------------------------------------------- runs

  datatype Event =
    | DoExchange(user: B.User, route: nat, key: string, number: string, departure: Option<int>, now: int)
    | DoCancel(order: nat, actor: Option<B.User>, validDays: int, now: int)
    | DoSign(order: nat, user: B.User, departure: Option<int>, valid: bool)
    | DoReview(order: nat, approved: bool, reason: string)
    | DoSubmitPickup(order: nat, user: B.User, address: string)
    | DoSchedule(order: nat)
    | DoConfirm(order: nat, user: B.User, now: int)
    | DoIssueQr(order: nat, now: int)
    | DoCheckIn(order: nat, token: nat, now: int)
    | DoStart(order: nat)
    | DoComplete(order: nat)
    | DoException(order: nat)
    | DoList
    | Points(user: B.User, event: H.Event)
    | Offer(route: nat, price: int, offered: bool)

  /** The rest of the platform stays out of the keys and ledger kinds of travel orders. */
  predicate Foreign(op: H.Op) {
    match op
    case DoCredit(_, biz, key, _) => !TravelKind(biz.kind) && !TravelKey(key)
    case DoDebit(_, biz, key) => !TravelKind(biz.kind) && !TravelKey(key)
    case DoRefund(kind, _, refundKind, _, key, _) => !TravelKind(kind) && !TravelKind(refundKind) && !TravelKey(key)
    case DoRevoke(creditKey, key, biz) => !TravelKey(creditKey) && !TravelKey(key) && !TravelKind(biz.kind)
    case DoExpire => true
  }

  predicate TravelKind(kind: string) { kind == EXCHANGE || kind == EXCHANGE_REFUND }

  predicate TravelKey(key: string) { "travel-exchange" <= key }

  function Perform(d: Desk, e: Event): Outcome {
    match e
    case DoExchange(user, route, key, number, departure, now) => Exchange(d, user, route, key, number, departure, now)
    case DoCancel(k, actor, validDays, now) => Cancel(d, k, actor, validDays, now)
    case DoSign(k, user, departure, valid) => Sign(d, k, user, departure, valid)
    case DoReview(k, approved, reason) => Review(d, k, approved, reason)
    case DoSubmitPickup(k, user, address) => SubmitPickup(d, k, user, address)
    case DoSchedule(k) => Schedule(d, k)
    case DoConfirm(k, user, now) => Confirm(d, k, user, now)
    case DoIssueQr(k, now) => IssueQr(d, k, now)
    case DoCheckIn(k, token, now) => CheckIn(d, k, token, now)
    case DoStart(k) => StartTrip(d, k)
    case DoComplete(k) => Complete(d, k)
    case DoException(k) => MarkException(d, k)
    case DoList => Done(d.(orders := NormalizeAll(d.orders)))
    case Points(user, event) =>
      if user !in d.books || !Foreign(event.op) then Raised(UserNotFound)
      else
        var o := H.Perform(user, d.books[user], event);
        if o.Raised? then Raised(PointsRefused(o.error)) else Done(d.(books := d.books[user := o.book]))
    case Offer(route, price, offered) =>
      if route !in d.routes then Raised(RouteOffline)
      else Done(d.(routes := d.routes[route := d.routes[route].(price := price, offered := offered)]))
  }

  function Step(d: Desk, e: Event): Desk { After(d, Perform(d, e)) }

  function Run(d: Desk, events: seq<Event>): Desk
    decreases |events|
  {
    if events == [] then d else Step(Run(d, events[..|events| - 1]), events[|events| - 1])
  }

  /** A ledger row that looks like the exchange or the refund of a travel order. */
  predicate TravelRow(r: B.LedgerRow) { TravelKind(r.biz.kind) || TravelKey(r.key) }

  predicate NoTravelRows(b: B.Book) { forall i | 0 <= i < |b.ledger| :: !TravelRow(b.ledger[i]) }

  /** No orders yet; accounts may already hold points. */
  predicate Opening(d: Desk) {
    d.orders == [] && d.scans == [] && d.issued == 0 && forall u | u in d.books :: NoTravelRows(d.books[u])
  }
}
