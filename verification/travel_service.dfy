/**
 * The travel endpoints as the code runs them: check, then assign columns of
 * one order row.  Each is proved to take the step of Travel that its event stands
 * for, to keep everything that holds in every reachable state, and to leave a
 * state with the properties its caller relies on.
 */
module TravelService {
  import opened Sums
  import opened Travel
  import opened TravelHistory
  import opened TravelLedger
  import opened TravelTheorems
  import B = PointBook

  datatype Reply = Fine | Failed(error: Error)

  predicate Answers(before: Desk, after: Desk, reply: Reply, o: Outcome) {
    after == After(before, o) &&
    match o
    case Done(_) => reply == Fine
    case Raised(e) => reply == Failed(e)
    case Kept(_, e) => reply == Failed(e)
  }

  // ---------------------------------------------------------------- what a caller can rely on afterwards

  /** The token is nowhere but on order k, and no scan has used it. */
  predicate OnlyOn(d: Desk, k: nat, token: nat) {
    && (forall j | 0 <= j < |d.orders| && j != k :: d.orders[j].qr != Some(token))
    && (forall i | 0 <= i < |d.scans| :: d.scans[i].token != token)
  }

  /** Whatever token is presented, the order cannot be checked in. */
  ghost predicate CheckInBarred(d: Desk, k: nat) { forall token: nat, at: int :: !CheckIn(d, k, token, at).Done? }

  /** The token checks in no order. */
  ghost predicate TokenBarred(d: Desk, token: nat) { forall j: nat, at: int :: !CheckIn(d, j, token, at).Done? }

  /** Nobody can cancel the order. */
  ghost predicate CancelBarred(d: Desk, k: nat) { forall actor, days: int, at: int :: Cancel(d, k, actor, days, at).Raised? }

  /** What is known of one order in a reachable state. */
  lemma OrderFacts(d: Desk, start: Desk, k: nat)
    requires Sound(d, start) && k < |d.orders|
    ensures StageSound(d.orders[k], d.issued) && FlagSound(d.orders[k])
    ensures d.orders[k].qr.Some? ==> OnlyOn(d, k, d.orders[k].qr.value)
  {
    hide StockSound, LedgersSound, KeysSound;
  }

  /** A cancelled order owes nothing and cannot be checked in. */
  lemma CancelledOwesNothing(d: Desk, start: Desk, k: nat)
    requires Sound(d, start) && k < |d.orders| && d.orders[k].fulfillment == Cancelled
    ensures d.orders[k].stockRestored && !OwesPoints(d.orders[k]) && CheckInBarred(d, k)
  {
    OrderFacts(d, start, k);
    StatusBarsCheckIn(d, k);
  }

  /** How long a token issued now checks in: a day at least and the day of departure in full, or three days without a departure date. */
  predicate InWindow(departure: Option<int>, now: int, at: int) {
    match departure
    case Some(day) => at < now + 86400 || at < day + 86400
    case None => at < now + 3 * 86400
  }

  /** Order k carries a token issued now: it checks in exactly within its window. */
  ghost predicate FreshToken(d: Desk, k: nat, token: nat, now: int) {
    && k < |d.orders| && d.orders[k].qr == Some(token)
    && forall at: int :: CheckIn(d, k, token, at).Done? <==> InWindow(d.orders[k].departure, now, at)
  }

  lemma ConfirmWindow(d: Desk, k: nat, user: B.User, now: int)
    requires Confirm(d, k, user, now).Done? && k < |d.orders| && d.orders[k].qr.None?
    ensures FreshToken(Confirm(d, k, user, now).desk, k, d.issued, now)
  {
  }

  /** A token still live is kept as it is; one that is missing or expired is replaced. */
  lemma IssueWindow(d: Desk, k: nat, now: int)
    requires IssueQr(d, k, now).Done?
    ensures k < |d.orders|
    ensures var o, a := d.orders[k], IssueQr(d, k, now).desk;
            if o.qr.Some? && o.qrExpires.Some? && now < o.qrExpires.value
            then a.issued == d.issued && a.orders[k] == o.(fulfillment := QrIssued)
            else a.issued == d.issued + 1 && FreshToken(a, k, d.issued, now)
  {
  }

  /** An issued token is live at that moment, and asking again at that moment keeps it. */
  lemma IssueOpens(d: Desk, k: nat, now: int)
    requires IssueQr(d, k, now).Done?
    ensures var a := IssueQr(d, k, now).desk;
            && k < |a.orders| && a.orders[k].qr.Some? && CheckIn(a, k, a.orders[k].qr.value, now).Done? && IssueQr(a, k, now) == Done(a)
  {
  }

  lemma StatusBarsCheckIn(d: Desk, k: nat)
    requires k < |d.orders| && d.orders[k].fulfillment != UserConfirmed && d.orders[k].fulfillment != QrIssued
    ensures CheckInBarred(d, k)
  {
  }

  lemma StatusBarsCancel(d: Desk, k: nat)
    requires k < |d.orders| && NonCancellable(d.orders[k].fulfillment)
    ensures CancelBarred(d, k)
  {
  }

  /** No event moves a completed order. */
  lemma CompletedStays(d: Desk, start: Desk, k: nat, e: Event)
    requires Sound(d, start) && k < |d.orders| && d.orders[k].fulfillment == Completed
    ensures k < |Step(d, e).orders| && Step(d, e).orders[k].fulfillment == Completed
  {
    hide StagesSound, TokensSound, StockSound, LedgersSound, FlagsSound, KeysSound, Step;
    StepKeepsFinal(d, e, k);
  }

  /** A used token checks in nowhere. */
  lemma UsedTokenBarred(d: Desk, start: Desk, i: nat)
    requires Sound(d, start) && i < |d.scans|
    ensures TokenBarred(d, d.scans[i].token)
  {
    hide StockSound, LedgersSound, KeysSound, FlagsSound, StagesSound;
  }

  /** A token taken off the one order that held it checks in nowhere. */
  lemma DroppedTokenBarred(d: Desk, k: nat, token: nat)
    requires k < |d.orders| && OnlyOn(d, k, token)
    ensures TokenBarred(d.(orders := d.orders[k := d.orders[k].(qr := None)]), token)
  {
  }

  class TravelDesk {
    var orders: seq<Order>
    var routes: map<nat, Route>
    var books: map<B.User, B.Book>
    var issued: nat
    var scans: seq<Scan>
    ghost const opening: Desk

    function Contents(): Desk
      reads this
    {
      Desk(orders, routes, books, issued, scans)
    }

    /** Whatever holds in every reachable state of the desk. */
    ghost predicate Valid()
      reads this
    {
      Sound(Contents(), opening)
    }

    constructor (routes: map<nat, Route>, books: map<B.User, B.Book>)
      requires Opening(Desk([], routes, books, 0, []))
      ensures Contents() == opening == Desk([], routes, books, 0, [])
      ensures Valid()
    {
      this.routes, this.books := routes, books;
      orders, issued, scans := [], 0, [];
      opening := Desk([], routes, books, 0, []);
      OpeningSound(Desk([], routes, books, 0, []));
    }

    method ExchangeRoute(user: B.User, route: nat, key: string, number: string, departure: Option<int>, now: int) returns (reply: Reply)
      requires Valid()
      modifies this
      ensures Valid()
      ensures Answers(old(Contents()), Contents(), reply, Perform(old(Contents()), DoExchange(user, route, key, number, departure, now)))
      ensures reply == Fine ==> FindOrder(orders, user, key).Some?
      ensures reply == Fine && FindOrder(old(orders), user, key).Some? ==> Contents() == old(Contents())
    {
      hide Sound, B.Debit;
      ghost var was := Contents();
      StepKeepsSound(was, opening, DoExchange(user, route, key, number, departure, now));
      var existing := FindOrder(orders, user, key);
      if existing.Some? { return Fine; }
      if user !in books { return Failed(UserNotFound); }
      if route !in routes || !routes[route].offered { return Failed(RouteOffline); }
      var r := routes[route];
      if r.stock <= 0 { return Failed(RouteSoldOut); }
      if NumberTaken(orders, number) || |number| > 40 { return Failed(DuplicateNumber); }
      var order := Order(user, route, number, key, r.price, departure, Unsigned, ContractPending, "", None, None, false, false);
      if r.price > 0 {
        var debit := B.Debit(user, books[user], r.price, B.Biz(EXCHANGE, |orders|, number), DebitKey(number), now, now, now);
        if debit.Raised? { return Failed(PointsRefused(debit.error)); }
        books := books[user := debit.book];
      }
      assert books == old(books)[user := books[user]];
      orders := orders + [order];
      routes := routes[route := r.(stock := r.stock - 1)];
      return Fine;
    }

    /** The points of an order go back through its debit, or as a plain credit when there is none. */
    method ReturnPoints(book: B.Book, cost: int, k: nat, number: string, now: int, fallback: int) returns (back: B.Outcome)
      ensures back == GiveBack(book, cost, k, number, now, fallback)
    {
      hide B.Refund, B.Credit, B.FindExpense, RefundKey;
      var original := B.FindExpense(book, EXCHANGE, number);
      if original.Some? {
        back := B.Refund(book, EXCHANGE, number, EXCHANGE_REFUND, k, RefundKey(number), now, Some(fallback));
      } else {
        back := B.Credit(book, cost, B.Biz(EXCHANGE_REFUND, k, number), RefundKey(number), Some(fallback));
      }
    }

    /** The seat goes back unless it has gone back before, and the row is closed without a token. */
    method DropRow(k: nat, refunded: bool)
      requires k < |orders| && refunded == (orders[k].pointsRefunded || OwesPoints(orders[k]))
      modifies `orders, `routes
      ensures Contents() == Drop(old(Contents()), k)
      ensures k < |orders| && orders[k].fulfillment == Cancelled
    {
      var order := orders[k].(pointsRefunded := refunded);
      if !order.stockRestored {
        if order.route in routes {
          var r := routes[order.route];
          routes := routes[order.route := r.(stock := r.stock + 1)];
        }
        order := order.(stockRestored := true);
      }
      orders := orders[k := order.(fulfillment := Cancelled, qr := None, qrExpires := None)];
    }

    method CancelTravelOrder(k: nat, actor: Option<B.User>, validDays: int, now: int) returns (reply: Reply)
      requires Valid()
      modifies this
      ensures Valid()
      ensures Answers(old(Contents()), Contents(), reply, Perform(old(Contents()), DoCancel(k, actor, validDays, now)))
      ensures reply == Fine ==>
                && k < |orders| && orders[k].fulfillment == Cancelled
                && orders[k].stockRestored && !OwesPoints(orders[k]) && CheckInBarred(Contents(), k)
    {
      hide Sound, GiveBack, UserCancellable, NonCancellable, Max, CheckInBarred, Drop;
      ghost var was := Contents();
      StepKeepsSound(was, opening, DoCancel(k, actor, validDays, now));
      if k >= |orders| { return Failed(OrderNotFound); }
      var order := orders[k];
      if actor.Some? && order.user != actor.value { return Failed(OrderNotFound); }
      if order.fulfillment == Cancelled {
        CancelledOwesNothing(was, opening, k);
        return Fine;
      }
      if NonCancellable(order.fulfillment) { return Failed(NotCancellable); }
      if actor.Some? && !UserCancellable(order.fulfillment) { return Failed(RequiresAdmin); }
      if order.cost > 0 && !order.pointsRefunded {
        var user := order.user;
        if user !in books { return Failed(UserNotFound); }
        var back := ReturnPoints(books[user], order.cost, k, order.number, now, now + Max(1, validDays) * DAY);
        if back.Raised? { return Failed(PointsRefused(back.error)); }
        books := books[user := back.book];
        DropRow(k, true);
      } else {
        DropRow(k, order.pointsRefunded);
      }
      CancelledOwesNothing(Contents(), opening, k);
      return Fine;
    }

    method GetMyOrder(k: nat, user: B.User) returns (found: Option<Order>)
      ensures found == if Owned(Contents(), k, user) then Some(Normalize(orders[k])) else None
    {
      if k >= |orders| || orders[k].user != user { return None; }
      var order := orders[k];
      if order.contract == Approved {
        match order.fulfillment
        case Blank => order := order.(fulfillment := InfoPending);
        case ContractPending => order := order.(fulfillment := InfoPending);
        case ContractReviewing => order := order.(fulfillment := InfoPending);
        case _ =>
      }
      return Some(order);
    }

    method SignContract(k: nat, user: B.User, departure: Option<int>, valid: bool) returns (reply: Reply)
      requires Valid()
      modifies `orders
      ensures Valid()
      ensures Answers(old(Contents()), Contents(), reply, Perform(old(Contents()), DoSign(k, user, departure, valid)))
      ensures reply == Fine ==> old(orders)[k].contract != Approved
      ensures reply == Fine ==> UserCancellable(orders[k].fulfillment) && orders[k].qr.None? && CheckInBarred(Contents(), k)
      ensures reply == Fine ==> Review(Contents(), k, true, "").Done?
    {
      hide Sound, CheckInBarred;
      ghost var was := Contents();
      StepKeepsSound(was, opening, DoSign(k, user, departure, valid));
      var found := GetMyOrder(k, user);
      if found.None? { return Failed(OrderNotFound); }
      var order := found.value;
      if order.contract == Approved { return Failed(ContractState); }
      if order.fulfillment != ContractPending && order.fulfillment != ContractReviewing && order.fulfillment != ContractRejected {
        return Failed(WrongStatus);
      }
      if !valid { return Failed(InvalidInput); }
      order := order.(contract := Pending, fulfillment := ContractReviewing, departure := departure);
      orders := orders[k := order];
      OrderFacts(Contents(), opening, k);
      StatusBarsCheckIn(Contents(), k);
      return Fine;
    }

    method ReviewContract(k: nat, approved: bool, reason: string) returns (reply: Reply)
      requires Valid()
      modifies `orders
      ensures Valid()
      ensures Answers(old(Contents()), Contents(), reply, Perform(old(Contents()), DoReview(k, approved, reason)))
      ensures reply == Fine && approved ==>
                forall who, day, ok :: !Sign(Contents(), k, who, day, ok).Done?
      ensures reply == Fine && !approved ==>
                orders[k].qr.None? && forall day :: Sign(Contents(), k, orders[k].user, day, true).Done?
    {
      hide Sound;
      ghost var was := Contents();
      StepKeepsSound(was, opening, DoReview(k, approved, reason));
      if k >= |orders| { return Failed(OrderNotFound); }
      var order := orders[k];
      if order.contract != Pending && order.contract != Rejected { return Failed(ContractState); }
      if approved {
        order := order.(contract := Approved);
        if order.fulfillment == Blank || order.fulfillment == ContractPending ||
           order.fulfillment == ContractReviewing || order.fulfillment == ContractRejected {
          order := order.(fulfillment := InfoPending);
        }
      } else {
        if reason == "" { return Failed(ReasonMissing); }
        order := order.(contract := Rejected, fulfillment := ContractRejected);
      }
      orders := orders[k := order];
      OrderFacts(Contents(), opening, k);
      return Fine;
    }

    method SubmitPickupInfo(k: nat, user: B.User, address: string) returns (reply: Reply)
      requires Valid()
      modifies `orders
      ensures Valid()
      ensures Answers(old(Contents()), Contents(), reply, Perform(old(Contents()), DoSubmitPickup(k, user, address)))
      ensures reply == Fine ==> orders[k].contract == Approved && UserCancellable(orders[k].fulfillment)
      ensures reply == Fine ==> orders[k].qr.None? && CheckInBarred(Contents(), k)
    {
      hide Sound, CheckInBarred;
      ghost var was := Contents();
      StepKeepsSound(was, opening, DoSubmitPickup(k, user, address));
      var found := GetMyOrder(k, user);
      if found.None? { return Failed(OrderNotFound); }
      var order := found.value;
      if order.contract != Approved { return Failed(ContractState); }
      if order.fulfillment != InfoPending && order.fulfillment != InfoSubmitted && order.fulfillment != PickupConfirmed {
        return Failed(WrongStatus);
      }
      orders := orders[k := order.(fulfillment := InfoSubmitted, address := address, qr := None, qrExpires := None)];
      StatusBarsCheckIn(Contents(), k);
      return Fine;
    }

    method SchedulePickup(k: nat) returns (reply: Reply)
      requires Valid()
      modifies `orders
      ensures Valid()
      ensures Answers(old(Contents()), Contents(), reply, Perform(old(Contents()), DoSchedule(k)))
      ensures reply == Fine ==> orders[k].contract == Approved && orders[k].qr.None? && CheckInBarred(Contents(), k)
      ensures reply == Fine ==>
                forall days, at :: Cancel(Contents(), k, Some(orders[k].user), days, at) == Raised(RequiresAdmin)
    {
      hide Sound, CheckInBarred, B.Refund, B.Credit;
      ghost var was := Contents();
      StepKeepsSound(was, opening, DoSchedule(k));
      if k >= |orders| { return Failed(OrderNotFound); }
      var order := orders[k];
      if order.contract != Approved { return Failed(ContractState); }
      if order.address == "" { return Failed(InvalidInput); }
      if NonCancellable(order.fulfillment) || order.fulfillment == Cancelled { return Failed(WrongStatus); }
      orders := orders[k := order.(fulfillment := PickupConfirmed, qr := None, qrExpires := None)];
      StatusBarsCheckIn(Contents(), k);
      return Fine;
    }

    method ConfirmPickup(k: nat, user: B.User, now: int) returns (reply: Reply)
      requires Valid()
      modifies `orders, `issued
      ensures Valid()
      ensures Answers(old(Contents()), Contents(), reply, Perform(old(Contents()), DoConfirm(k, user, now)))
      ensures reply == Fine ==> orders[k].contract == Approved && orders[k].qr == Some(old(issued)) && OnlyOn(Contents(), k, old(issued))
      ensures reply == Fine ==> FreshToken(Contents(), k, old(issued), now)
    {
      hide Sound, OnlyOn, FreshToken, QrExpiry;
      ghost var was := Contents();
      StepKeepsSound(was, opening, DoConfirm(k, user, now));
      if k < |orders| { OrderFacts(was, opening, k); }
      var found := GetMyOrder(k, user);
      if found.None? { return Failed(OrderNotFound); }
      var order := found.value;
      if order.contract != Approved { return Failed(ContractState); }
      if order.fulfillment != PickupConfirmed { return Failed(WrongStatus); }
      order := order.(fulfillment := UserConfirmed);
      if order.qr.None? {
        order := order.(qr := Some(issued), qrExpires := Some(QrExpiry(order.departure, now)));
        issued := issued + 1;
      }
      orders := orders[k := order];
      OrderFacts(Contents(), opening, k);
      ConfirmWindow(was, k, user, now);
      return Fine;
    }

    method IssueOrderQr(k: nat, now: int) returns (reply: Reply)
      requires Valid()
      modifies `orders, `issued
      ensures Valid()
      ensures Answers(old(Contents()), Contents(), reply, Perform(old(Contents()), DoIssueQr(k, now)))
      ensures reply == Fine ==> orders[k].contract == Approved && orders[k].qr.Some? && OnlyOn(Contents(), k, orders[k].qr.value)
      ensures reply == Fine ==> CheckIn(Contents(), k, orders[k].qr.value, now).Done?
      ensures reply == Fine ==> IssueQr(Contents(), k, now) == Done(Contents())
      ensures reply == Fine ==>
                if old(orders)[k].qr.Some? && old(orders)[k].qrExpires.Some? && now < old(orders)[k].qrExpires.value
                then orders[k] == old(orders)[k].(fulfillment := QrIssued)
                else FreshToken(Contents(), k, old(issued), now)
    {
      hide Sound, OnlyOn, FreshToken, QrExpiry, CheckIn;
      ghost var was := Contents();
      StepKeepsSound(was, opening, DoIssueQr(k, now));
      if k >= |orders| { return Failed(OrderNotFound); }
      var order := orders[k];
      if order.fulfillment != UserConfirmed && order.fulfillment != QrIssued { return Failed(WrongStatus); }
      if order.qr.None? || order.qrExpires.None? || order.qrExpires.value <= now {
        order := order.(qr := Some(issued), qrExpires := Some(QrExpiry(order.departure, now)));
        issued := issued + 1;
      }
      orders := orders[k := order.(fulfillment := QrIssued)];
      OrderFacts(Contents(), opening, k);
      IssueOpens(was, k, now);
      IssueWindow(was, k, now);
      return Fine;
    }

    method CheckInOrder(k: nat, token: nat, now: int) returns (reply: Reply)
      requires Valid()
      modifies `orders, `scans
      ensures Valid()
      ensures Answers(old(Contents()), Contents(), reply, Perform(old(Contents()), DoCheckIn(k, token, now)))
      ensures reply == Fine ==> orders[k].contract == Approved && OnlyOn(old(Contents()), k, token)
      ensures reply == Fine ==> TokenBarred(Contents(), token)
      ensures reply == Failed(TokenExpired) && old(orders)[k].qr.Some? ==> TokenBarred(Contents(), old(orders)[k].qr.value)
    {
      hide Sound, OnlyOn, TokenBarred;
      ghost var was := Contents();
      StepKeepsSound(was, opening, DoCheckIn(k, token, now));
      if k < |orders| { OrderFacts(was, opening, k); }
      if k >= |orders| { return Failed(OrderNotFound); }
      var order := orders[k];
      if order.fulfillment != UserConfirmed && order.fulfillment != QrIssued { return Failed(WrongStatus); }
      if order.qrExpires.Some? && order.qrExpires.value <= now {
        orders := orders[k := order.(qr := None)];
        if order.qr.Some? { DroppedTokenBarred(was, k, order.qr.value); }
        return Failed(TokenExpired);
      }
      if order.qr.None? || order.qr.value != token { return Failed(TokenInvalid); }
      scans := scans + [Scan(k, token)];
      orders := orders[k := order.(fulfillment := CheckedIn, qr := None)];
      UsedTokenBarred(Contents(), opening, |scans| - 1);
      OrderFacts(Contents(), opening, k);
      return Fine;
    }

    method StartOrderTrip(k: nat) returns (reply: Reply)
      requires Valid()
      modifies `orders
      ensures Valid()
      ensures Answers(old(Contents()), Contents(), reply, Perform(old(Contents()), DoStart(k)))
      ensures reply == Fine ==> orders[k].contract == Approved && CancelBarred(Contents(), k) && CheckInBarred(Contents(), k)
    {
      hide Sound, CheckInBarred, CancelBarred;
      ghost var was := Contents();
      StepKeepsSound(was, opening, DoStart(k));
      if k >= |orders| { return Failed(OrderNotFound); }
      if orders[k].fulfillment != CheckedIn && orders[k].fulfillment != InTrip { return Failed(WrongStatus); }
      orders := orders[k := orders[k].(fulfillment := InTrip)];
      OrderFacts(Contents(), opening, k);
      StatusBarsCheckIn(Contents(), k);
      StatusBarsCancel(Contents(), k);
      return Fine;
    }

    method CompleteOrder(k: nat) returns (reply: Reply)
      requires Valid()
      modifies `orders
      ensures Valid()
      ensures Answers(old(Contents()), Contents(), reply, Perform(old(Contents()), DoComplete(k)))
      ensures reply == Fine ==> orders[k].contract == Approved && CancelBarred(Contents(), k)
      ensures reply == Fine ==>
                forall e: Event :: k < |Step(Contents(), e).orders| && Step(Contents(), e).orders[k].fulfillment == Completed
    {
      hide Sound, CancelBarred;
      ghost var was := Contents();
      StepKeepsSound(was, opening, DoComplete(k));
      if k >= |orders| { return Failed(OrderNotFound); }
      var f := orders[k].fulfillment;
      if f != CheckedIn && f != InTrip && f != Completed { return Failed(WrongStatus); }
      orders := orders[k := orders[k].(fulfillment := Completed)];
      OrderFacts(Contents(), opening, k);
      StatusBarsCancel(Contents(), k);
      forall e: Event ensures k < |Step(Contents(), e).orders| && Step(Contents(), e).orders[k].fulfillment == Completed {
        CompletedStays(Contents(), opening, k, e);
      }
      return Fine;
    }

    method MarkOrderException(k: nat) returns (reply: Reply)
      requires Valid()
      modifies `orders
      ensures Valid()
      ensures Answers(old(Contents()), Contents(), reply, Perform(old(Contents()), DoException(k)))
      ensures reply == Fine ==> CheckInBarred(Contents(), k) && SameDeal(old(orders)[k], orders[k])
      ensures reply == Fine ==> old(orders)[k].fulfillment != Completed && orders[k].qr == old(orders)[k].qr
    {
      hide Sound, CheckInBarred;
      ghost var was := Contents();
      StepKeepsSound(was, opening, DoException(k));
      if k >= |orders| { return Failed(OrderNotFound); }
      if orders[k].fulfillment == Completed { return Failed(WrongStatus); }
      orders := orders[k := orders[k].(fulfillment := Exception)];
      StatusBarsCheckIn(Contents(), k);
      return Fine;
    }

    /** Listing all orders normalizes the rows it shows. */
    method ListOrders()
      modifies `orders
      ensures orders == NormalizeAll(old(orders))
    {
      var i := 0;
      while i < |orders|
        invariant 0 <= i <= |orders| == |old(orders)|
        invariant forall j | 0 <= j < |orders| :: orders[j] == if j < i then Normalize(old(orders)[j]) else old(orders)[j]
      {
        orders := orders[i := Normalize(orders[i])];
        i := i + 1;
      }
      assert orders == NormalizeAll(old(orders));
    }
  }
}
