/** What a travel endpoint may change, and what becomes of the points a cancellation returns. */
module TravelEffects {
  import opened Sums
  import opened Travel
  import opened TravelHistory
  import opened TravelLedger
  import opened TravelTheorems
  import B = PointBook
  import H = PointHistory

  // ---------------------------------------------------------------- who writes which column

  /** Order k keeps the columns that this event has no business with. */
  predicate ColumnsKept(o: Order, n: Order, e: Event, k: nat) {
    var mine := k == Touched(e);
    && n.user == o.user && n.route == o.route && n.number == o.number && n.key == o.key && n.cost == o.cost
    && (n.departure != o.departure ==> mine && e.DoSign? && n.departure == e.departure)
    && (n.address != o.address ==> mine && e.DoSubmitPickup? && n.address == e.address)
    && (n.contract != o.contract ==>
          mine && ((e.DoSign? && n.contract == Pending) || (e.DoReview? && n.contract == if e.approved then Approved else Rejected)))
    && ((n.pointsRefunded != o.pointsRefunded || n.stockRestored != o.stockRestored) ==> mine && e.DoCancel?)
    && (n.fulfillment != o.fulfillment ==> mine || e.DoList?)
    && ((n.qr != o.qr || n.qrExpires != o.qrExpires) ==> mine)
  }

  /** The order an endpoint is called on. */
  function Touched(e: Event): int {
    match e
    case DoCancel(k, _, _, _) => k
    case DoSign(k, _, _, _) => k
    case DoReview(k, _, _) => k
    case DoSubmitPickup(k, _, _) => k
    case DoSchedule(k) => k
    case DoConfirm(k, _, _) => k
    case DoIssueQr(k, _) => k
    case DoCheckIn(k, _, _) => k
    case DoStart(k) => k
    case DoComplete(k) => k
    case DoException(k) => k
    case _ => -1
  }

  lemma KeptSelf(o: Order, e: Event, k: nat)
    ensures ColumnsKept(o, o, e, k)
  {
  }

  lemma SignColumns(d: Desk, e: Event, k: nat)
    requires SignStep(e) && k < |d.orders|
    ensures k < |Step(d, e).orders| && ColumnsKept(d.orders[k], Step(d, e).orders[k], e, k)
  {
    hide Step, ColumnsKept;
    KeptSelf(d.orders[k], e, k);
    SignDeal(d, e);
    if k == e.order {
      match e
      case DoSign(_, _, _, _) => SignOwn(d, e);
      case DoReview(_, _, _) => ReviewOwn(d, e);
      case DoSubmitPickup(_, _, _) => PickupOwn(d, e);
      case _ => ScheduleOwn(d, e);
    }
  }

  lemma SignOwn(d: Desk, e: Event)
    requires e.DoSign? && e.order < |d.orders|
    ensures e.order < |Step(d, e).orders| && ColumnsKept(d.orders[e.order], Step(d, e).orders[e.order], e, e.order)
  {
  }

  lemma ReviewOwn(d: Desk, e: Event)
    requires e.DoReview? && e.order < |d.orders|
    ensures e.order < |Step(d, e).orders| && ColumnsKept(d.orders[e.order], Step(d, e).orders[e.order], e, e.order)
  {
  }

  lemma PickupOwn(d: Desk, e: Event)
    requires e.DoSubmitPickup? && e.order < |d.orders|
    ensures e.order < |Step(d, e).orders| && ColumnsKept(d.orders[e.order], Step(d, e).orders[e.order], e, e.order)
  {
  }

  lemma ScheduleOwn(d: Desk, e: Event)
    requires e.DoSchedule? && e.order < |d.orders|
    ensures e.order < |Step(d, e).orders| && ColumnsKept(d.orders[e.order], Step(d, e).orders[e.order], e, e.order)
  {
  }

  lemma TripColumns(d: Desk, e: Event, k: nat)
    requires TripStep(e) && k < |d.orders|
    ensures k < |Step(d, e).orders| && ColumnsKept(d.orders[k], Step(d, e).orders[k], e, k)
  {
    hide Step, ColumnsKept;
    KeptSelf(d.orders[k], e, k);
    TripDeal(d, e);
    if k == e.order { TripOwn(d, e); }
  }

  lemma TripOwn(d: Desk, e: Event)
    requires TripStep(e) && e.order < |d.orders|
    ensures e.order < |Step(d, e).orders| && ColumnsKept(d.orders[e.order], Step(d, e).orders[e.order], e, e.order)
  {
    hide QrExpiry;
  }

  lemma CancelColumns(d: Desk, e: Event, k: nat)
    requires e.DoCancel? && k < |d.orders|
    ensures k < |Step(d, e).orders| && ColumnsKept(d.orders[k], Step(d, e).orders[k], e, k)
  {
    hide GiveBack;
  }

  lemma OtherColumns(d: Desk, e: Event, k: nat)
    requires !SignStep(e) && !TripStep(e) && !e.DoCancel? && k < |d.orders|
    ensures k < |Step(d, e).orders| && ColumnsKept(d.orders[k], Step(d, e).orders[k], e, k)
  {
    hide Charge, FindOrder, H.Perform, Foreign;
  }

  /**
   * Every column has its writers: the departure is the owner's signature, the
   * address the pickup form, the contract signature and review, refund and seat
   * the cancellation; identity and price never change.
   */
  lemma ColumnsHaveWriters(d: Desk, e: Event, k: nat)
    requires k < |d.orders|
    ensures k < |Step(d, e).orders| && ColumnsKept(d.orders[k], Step(d, e).orders[k], e, k)
  {
    hide Step, ColumnsKept;
    if SignStep(e) {
      SignColumns(d, e, k);
    } else if TripStep(e) {
      TripColumns(d, e, k);
    } else if e.DoCancel? {
      CancelColumns(d, e, k);
    } else {
      OtherColumns(d, e, k);
    }
  }

  // ---------------------------------------------------------------- the points a cancellation returns

  /** A lot that got points back although it had run out of time lasts for the fallback; others keep their date. */
  predicate ExpiryRenewed(b: B.Book, a: B.Book, now: int, days: int) {
    && |b.lots| <= |a.lots|
    && (forall i | 0 <= i < |b.lots| ::
          a.lots[i].expiresAt == if a.lots[i].remaining > b.lots[i].remaining && b.lots[i].expiresAt.Some? && b.lots[i].expiresAt.value <= now
                                 then Some(now + days * 86400) else b.lots[i].expiresAt)
    && (forall i | |b.lots| <= i < |a.lots| :: a.lots[i].expiresAt == Some(now + days * 86400))
  }

  lemma RefundRenews(b: B.Book, number: string, k: nat, key: string, now: int, days: int)
    requires B.Refund(b, EXCHANGE, number, EXCHANGE_REFUND, k, key, now, Some(now + days * DAY)).Done?
    ensures var a := B.Refund(b, EXCHANGE, number, EXCHANGE_REFUND, k, key, now, Some(now + days * DAY)).book;
            ExpiryRenewed(b, a, now, days)
  {
    hide B.FindLedger, B.FindExpense, B.Cut, Sum;
  }

  /** Over every run: the points a cancellation returns last at least a day, and as long as the rule says. */
  lemma CancelRenewsExpiry(start: Desk, events: seq<Event>, k: nat, actor: Option<B.User>, validDays: int, now: int)
    requires Opening(start) && k < |Run(start, events).orders| && OwesPoints(Run(start, events).orders[k])
    requires Cancel(Run(start, events), k, actor, validDays, now).Done? && Run(start, events).orders[k].fulfillment != Cancelled
    ensures var d := Run(start, events); var a := Cancel(d, k, actor, validDays, now).desk; var u := d.orders[k].user;
            u in d.books && u in a.books && ExpiryRenewed(d.books[u], a.books[u], now, if validDays < 1 then 1 else validDays)
  {
    hide Run, Opening, StagesSound, TokensSound, StockSound, FlagsSound, KeysSound, ExpiryRenewed, B.Refund, GiveBack, RefundKey;
    RunKeepsSound(start, events);
    var d := Run(start, events);
    var o := d.orders[k];
    OrderIsPaid(d, k);
    PaidOnBook(d, k);
    GiveBackRefunds(d.books[o.user], o, k, now, now + Max(1, validDays) * DAY);
    RefundRenews(d.books[o.user], o.number, k, RefundKey(o.number), now, Max(1, validDays));
  }

  // ---------------------------------------------------------------- who may do what, and where it leads

  /** The calls that belong to the owner of the order. */
  predicate OwnerOnly(e: Event) { e.DoSign? || e.DoSubmitPickup? || e.DoConfirm? }

  predicate MayCall(d: Desk, e: Event) {
    0 <= Touched(e) < |d.orders| && (OwnerOnly(e) ==> d.orders[Touched(e)].user == e.user)
  }

  /** The statuses from which a call goes ahead, the contract being as it must be. */
  predicate Ready(o: Order, e: Event) {
    var f := o.fulfillment;
    match e
    case DoSign(_, _, _, valid) =>
      valid && o.contract != Approved && f in {ContractPending, ContractReviewing, ContractRejected}
    case DoReview(_, approved, reason) => o.contract in {Pending, Rejected} && (approved || reason != "")
    case DoSubmitPickup(_, _, _) =>
      o.contract == Approved && f in {Blank, ContractPending, ContractReviewing, InfoPending, InfoSubmitted, PickupConfirmed}
    case DoSchedule(_) => o.contract == Approved && o.address != "" && f !in {CheckedIn, InTrip, Completed, Cancelled}
    case DoConfirm(_, _, _) => o.contract == Approved && f == PickupConfirmed
    case DoIssueQr(_, _) => f in {UserConfirmed, QrIssued}
    case DoCheckIn(_, token, now) =>
      f in {UserConfirmed, QrIssued} && o.qr == Some(token) && (o.qrExpires.Some? ==> now < o.qrExpires.value)
    case DoStart(_) => f in {CheckedIn, InTrip}
    case DoComplete(_) => f in {CheckedIn, InTrip, Completed}
    case DoException(_) => f != Completed
    case _ => false
  }

  /** The status it leads to. */
  function Goal(o: Order, e: Event): Fulfillment {
    match e
    case DoSign(_, _, _, _) => ContractReviewing
    case DoReview(_, approved, _) =>
      if !approved then ContractRejected
      else if o.fulfillment in {Blank, ContractPending, ContractReviewing, ContractRejected} then InfoPending else o.fulfillment
    case DoSubmitPickup(_, _, _) => InfoSubmitted
    case DoSchedule(_) => PickupConfirmed
    case DoConfirm(_, _, _) => UserConfirmed
    case DoIssueQr(_, _) => QrIssued
    case DoCheckIn(_, _, _) => CheckedIn
    case DoStart(_) => InTrip
    case DoComplete(_) => Completed
    case DoException(_) => Exception
    case _ => o.fulfillment
  }

  /** What a call that goes ahead writes besides the status. */
  predicate Written(o: Order, n: Order, e: Event) {
    && n.fulfillment == Goal(o, e)
    && (e.DoSign? ==> n.departure == e.departure && n.contract == Pending)
    && (e.DoReview? ==> n.contract == if e.approved then Approved else Rejected)
    && (e.DoSubmitPickup? ==> n.address == e.address)
    && (e.DoSubmitPickup? || e.DoSchedule? || e.DoCheckIn? ==> n.qr == None)
    && (e.DoStart? || e.DoComplete? || e.DoException? || e.DoReview? || e.DoSign? ==> n.qr == o.qr && n.qrExpires == o.qrExpires)
  }

  /**
   * The trip is driven by its diagram: a call goes ahead exactly when the caller
   * may make it and the order is ready for it, and then leads where the diagram
   * says; otherwise it is refused.
   */
  lemma DiagramHolds(d: Desk, e: Event)
    requires SignStep(e) || TripStep(e)
    ensures Perform(d, e).Done? <==> MayCall(d, e) && Ready(d.orders[e.order], e)
    ensures Perform(d, e).Done? ==> e.order < |Step(d, e).orders| && Written(d.orders[e.order], Step(d, e).orders[e.order], e)
  {
    hide Written;
    match e
    case DoSign(_, _, _, _) => SignDiagram(d, e);
    case DoReview(_, _, _) => ReviewDiagram(d, e);
    case DoSubmitPickup(_, _, _) => PickupDiagram(d, e);
    case DoSchedule(_) => ScheduleDiagram(d, e);
    case _ => TripDiagram(d, e);
  }

  lemma SignDiagram(d: Desk, e: Event)
    requires e.DoSign?
    ensures Perform(d, e).Done? <==> MayCall(d, e) && Ready(d.orders[e.order], e)
    ensures Perform(d, e).Done? ==> e.order < |Step(d, e).orders| && Written(d.orders[e.order], Step(d, e).orders[e.order], e)
  {
  }

  lemma ReviewDiagram(d: Desk, e: Event)
    requires e.DoReview?
    ensures Perform(d, e).Done? <==> MayCall(d, e) && Ready(d.orders[e.order], e)
    ensures Perform(d, e).Done? ==> e.order < |Step(d, e).orders| && Written(d.orders[e.order], Step(d, e).orders[e.order], e)
  {
  }

  lemma PickupDiagram(d: Desk, e: Event)
    requires e.DoSubmitPickup?
    ensures Perform(d, e).Done? <==> MayCall(d, e) && Ready(d.orders[e.order], e)
    ensures Perform(d, e).Done? ==> e.order < |Step(d, e).orders| && Written(d.orders[e.order], Step(d, e).orders[e.order], e)
  {
  }

  lemma ScheduleDiagram(d: Desk, e: Event)
    requires e.DoSchedule?
    ensures Perform(d, e).Done? <==> MayCall(d, e) && Ready(d.orders[e.order], e)
    ensures Perform(d, e).Done? ==> e.order < |Step(d, e).orders| && Written(d.orders[e.order], Step(d, e).orders[e.order], e)
  {
  }

  lemma TripDiagram(d: Desk, e: Event)
    requires TripStep(e)
    ensures Perform(d, e).Done? <==> MayCall(d, e) && Ready(d.orders[e.order], e)
    ensures Perform(d, e).Done? ==> e.order < |Step(d, e).orders| && Written(d.orders[e.order], Step(d, e).orders[e.order], e)
  {
    hide QrExpiry;
  }

  /** The owner may cancel until the pickup is confirmed, an administrator until the check-in. */
  predicate MayCancel(o: Order, actor: Option<B.User>) {
    && (actor.Some? ==> o.user == actor.value)
    && (|| o.fulfillment == Cancelled
        || (actor.None? && o.fulfillment !in {CheckedIn, InTrip, Completed})
        || o.fulfillment in {ContractPending, ContractReviewing, ContractRejected, InfoPending, InfoSubmitted})
  }

  /** Over every run: a cancellation goes ahead exactly when the caller may cancel; it never fails for the points or the seat. */
  lemma CancelIffPermitted(start: Desk, events: seq<Event>, k: nat, actor: Option<B.User>, validDays: int, now: int)
    requires Opening(start)
    ensures var d := Run(start, events);
            Cancel(d, k, actor, validDays, now).Done? <==> k < |d.orders| && MayCancel(d.orders[k], actor)
  {
    hide Run, Opening, StagesSound, TokensSound, StockSound, LedgersSound, FlagsSound, KeysSound, GiveBack;
    var d := Run(start, events);
    if k < |d.orders| && MayCancel(d.orders[k], actor) && OwesPoints(d.orders[k]) && d.orders[k].fulfillment != Cancelled {
      CancelAlwaysRefunds(start, events, k, actor, validDays, now);
    }
  }

  // ---------------------------------------------------------------- exchanging

  predicate KeyUnused(d: Desk, user: B.User, key: string) { forall i | 0 <= i < |d.orders| :: !(d.orders[i].user == user && d.orders[i].key == key) }

  /** The account pays: what is due lapses first, then exactly the price goes. */
  predicate Pays(u: B.User, b: B.Book, a: B.Book, price: int, now: int) {
    if price <= 0 then a == b
    else B.ExpireDue(u, b, now).Done? && 0 <= a.points == B.ExpireDue(u, b, now).book.points - price
  }

  lemma ChargePays(u: B.User, b: B.Book, price: int, order: nat, number: string, now: int)
    requires Charge(u, b, price, order, number, now).Done? && B.FindLedger(b, DebitKey(number)).None?
    ensures Pays(u, b, Charge(u, b, price, order, number, now).book, price, now)
  {
    hide B.ExpireDue, B.EnsureCoverage, B.FindLedger, B.Draw, B.SpendOrder, B.AfterDraw, B.Cut, DebitKey;
  }

  /**
   * Over every run, an exchange under a new key and a new order number goes
   * ahead exactly when the route is offered with seats left and the account can
   * be charged; the order then records the route, its price, the key and the
   * date, one seat is gone and exactly the price has left the account.
   */
  lemma ExchangeDoes(start: Desk, events: seq<Event>, user: B.User, route: nat, key: string, number: string, departure: Option<int>, now: int)
    requires Opening(start) && user in Run(start, events).books && KeyUnused(Run(start, events), user, key) && |number| <= 40
    requires forall i | 0 <= i < |Run(start, events).orders| :: Run(start, events).orders[i].number != number
    ensures var d := Run(start, events); var r := Exchange(d, user, route, key, number, departure, now);
            && (r.Done? <==> route in d.routes && d.routes[route].offered && d.routes[route].stock > 0
                             && Charge(user, d.books[user], d.routes[route].price, |d.orders|, number, now).Done?)
            && (r.Done? ==>
                  var a, o := r.desk, d.routes[route];
                  && |a.orders| == |d.orders| + 1 && a.orders[..|d.orders|] == d.orders
                  && a.routes == d.routes[route := o.(stock := o.stock - 1)]
                  && a.scans == d.scans && a.issued == d.issued
                  && a.books.Keys == d.books.Keys && (forall u | u in d.books && u != user :: a.books[u] == d.books[u])
                  && Pays(user, d.books[user], a.books[user], o.price, now)
                  && NewOrder(a.orders[|d.orders|], user, route, number, key, o.price, departure))
  {
    hide Run, Opening, Charge, StagesSound, TokensSound, StockSound, FlagsSound, KeysSound, Pays, DebitKey;
    var d := Run(start, events);
    RunKeepsSound(start, events);
    var found := FindOrder(d.orders, user, key);
    NoDebitYet(d, user, number);
    if route in d.routes && Charge(user, d.books[user], d.routes[route].price, |d.orders|, number, now).Done? {
      ChargePays(user, d.books[user], d.routes[route].price, |d.orders|, number, now);
    }
  }

  predicate NewOrder(o: Order, user: B.User, route: nat, number: string, key: string, price: int, departure: Option<int>) {
    && o.user == user && o.route == route && o.number == number && o.key == key && o.cost == price && o.departure == departure
    && o.contract == Unsigned && o.fulfillment == ContractPending && o.address == "" && o.qr == None && o.qrExpires == None
    && !o.pointsRefunded && !o.stockRestored
  }
}
