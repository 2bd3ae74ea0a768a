/** What every run of travel endpoints and point operations keeps. */
module TravelHistory {
  import opened Sums
  import opened Travel
  import B = PointBook
  import H = PointHistory

  // ---------------------------------------------------------------- contract, status, token

  /** A trip under way has an approved contract; a token exists only where it can be used or was set aside. */
  predicate StageSound(o: Order, issued: nat) {
    && (Underway(o.fulfillment) ==> o.contract == Approved)
    && (o.qr.Some? ==>
         && o.contract == Approved && o.qr.value < issued
         && (o.fulfillment == UserConfirmed || o.fulfillment == QrIssued || o.fulfillment == Exception))
  }

  predicate StagesSound(d: Desk) { forall k | 0 <= k < |d.orders| :: StageSound(d.orders[k], d.issued) }

  /** A token is live on one order at most, and never again once it has been used. */
  predicate TokensSound(d: Desk) {
    && (forall j, k | 0 <= j < k < |d.orders| :: d.orders[j].qr.Some? ==> d.orders[j].qr != d.orders[k].qr)
    && (forall i | 0 <= i < |d.scans| :: d.scans[i].token < d.issued)
    && (forall i, j | 0 <= i < j < |d.scans| :: d.scans[i].token != d.scans[j].token)
    && (forall i, k | 0 <= i < |d.scans| && 0 <= k < |d.orders| :: d.orders[k].qr != Some(d.scans[i].token))
  }

  /** One order is rewritten soundly, and no token is taken back. */
  lemma OneStage(d: Desk, a: Desk, k: nat)
    requires StagesSound(d) && a.issued >= d.issued && k < |a.orders| == |d.orders|
    requires a.orders == d.orders[k := a.orders[k]] && StageSound(a.orders[k], a.issued)
    ensures StagesSound(a)
  {
    forall j | 0 <= j < |a.orders| ensures StageSound(a.orders[j], a.issued) {
      if j != k { assert StageSound(d.orders[j], d.issued); }
    }
  }

  predicate SignStep(e: Event) { e.DoSign? || e.DoReview? || e.DoSubmitPickup? || e.DoSchedule? }

  predicate TripStep(e: Event) { e.DoConfirm? || e.DoIssueQr? || e.DoCheckIn? || e.DoStart? || e.DoComplete? || e.DoException? }

  /** The order an endpoint rewrites, or nothing at all. */
  predicate RewritesOne(d: Desk, a: Desk, k: nat) {
    a == d || (k < |a.orders| == |d.orders| && a.issued >= d.issued && a.orders == d.orders[k := a.orders[k]] && StageSound(a.orders[k], a.issued))
  }

  lemma SignStage(d: Desk, e: Event)
    requires SignStep(e) && (e.order < |d.orders| ==> StageSound(d.orders[e.order], d.issued))
    ensures RewritesOne(d, Step(d, e), e.order)
  {
  }

  lemma TripStage(d: Desk, e: Event)
    requires TripStep(e) && (e.order < |d.orders| ==> StageSound(d.orders[e.order], d.issued))
    ensures RewritesOne(d, Step(d, e), e.order)
  {
    hide QrExpiry;
  }

  lemma StepKeepsStages(d: Desk, e: Event)
    requires StagesSound(d)
    ensures StagesSound(Step(d, e))
  {
    if SignStep(e) || TripStep(e) {
      hide Step;
      if SignStep(e) { SignStage(d, e); } else { TripStage(d, e); }
      if Step(d, e) != d { OneStage(d, Step(d, e), e.order); }
    } else {
      OtherStage(d, e);
    }
  }

  lemma OtherStage(d: Desk, e: Event)
    requires StagesSound(d) && !SignStep(e) && !TripStep(e)
    ensures StagesSound(Step(d, e))
  {
    hide Exchange, Cancel, H.Perform, Foreign;
    match e
    case DoExchange(user, route, key, number, departure, now) => ExchangeShape(d, user, route, key, number, departure, now);
    case DoCancel(k, actor, validDays, now) => CancelShape(d, k, actor, validDays, now);
    case _ =>
  }

  /** No token appears: each order keeps its token or loses it. */
  predicate TokensOnlyLost(d: Desk, a: Desk) {
    && a.issued == d.issued && a.scans == d.scans && |a.orders| >= |d.orders|
    && (forall k | 0 <= k < |d.orders| :: a.orders[k].qr == d.orders[k].qr || a.orders[k].qr.None?)
    && (forall k | |d.orders| <= k < |a.orders| :: a.orders[k].qr.None?)
  }

  /** The next unused token is put on order k. */
  predicate TokenIssued(d: Desk, a: Desk, k: nat) {
    && a.issued == d.issued + 1 && a.scans == d.scans && k < |a.orders| == |d.orders|
    && a.orders == d.orders[k := a.orders[k]] && a.orders[k].qr == Some(d.issued)
  }

  /** The token of order k is used. */
  predicate TokenUsed(d: Desk, a: Desk, k: nat) {
    && k < |a.orders| == |d.orders| && d.orders[k].qr.Some? && a.issued == d.issued
    && a.scans == d.scans + [Scan(k, d.orders[k].qr.value)]
    && a.orders == d.orders[k := a.orders[k]] && a.orders[k].qr.None?
  }

  lemma LostKeepsTokens(d: Desk, a: Desk)
    requires TokensSound(d) && TokensOnlyLost(d, a)
    ensures TokensSound(a)
  {
  }

  lemma IssueKeepsTokens(d: Desk, a: Desk, k: nat)
    requires StagesSound(d) && TokensSound(d) && TokenIssued(d, a, k)
    ensures TokensSound(a)
  {
    forall j | 0 <= j < |d.orders| ensures d.orders[j].qr != Some(d.issued) {
      assert StageSound(d.orders[j], d.issued);
    }
  }

  lemma UseKeepsTokens(d: Desk, a: Desk, k: nat)
    requires StagesSound(d) && TokensSound(d) && TokenUsed(d, a, k)
    ensures TokensSound(a)
  {
    assert StageSound(d.orders[k], d.issued);
  }

  lemma StepTokens(d: Desk, e: Event)
    ensures var a := Step(d, e);
            || TokensOnlyLost(d, a)
            || ((e.DoConfirm? || e.DoIssueQr?) && TokenIssued(d, a, e.order))
            || (e.DoCheckIn? && TokenUsed(d, a, e.order))
  {
    hide Exchange, Cancel, QrExpiry;
    if SignStep(e) {
      hide Step;
      SignTokens(d, e);
    } else if TripStep(e) {
      hide Step;
      TripTokens(d, e);
    } else {
      match e
      case DoExchange(user, route, key, number, departure, now) => ExchangeShape(d, user, route, key, number, departure, now);
      case DoCancel(k, actor, validDays, now) => CancelShape(d, k, actor, validDays, now);
      case _ =>
    }
  }

  lemma TripTokens(d: Desk, e: Event)
    requires TripStep(e)
    ensures var a := Step(d, e);
            || TokensOnlyLost(d, a)
            || ((e.DoConfirm? || e.DoIssueQr?) && TokenIssued(d, a, e.order))
            || (e.DoCheckIn? && TokenUsed(d, a, e.order))
  {
    hide QrExpiry;
  }

  lemma SignTokens(d: Desk, e: Event)
    requires SignStep(e)
    ensures TokensOnlyLost(d, Step(d, e))
  {
  }

  lemma StepKeepsTokens(d: Desk, e: Event)
    requires StagesSound(d) && TokensSound(d)
    ensures TokensSound(Step(d, e))
  {
    hide Step, StagesSound, TokensSound, TokensOnlyLost, TokenIssued, TokenUsed;
    StepTokens(d, e);
    var a := Step(d, e);
    if TokensOnlyLost(d, a) {
      LostKeepsTokens(d, a);
    } else if e.DoCheckIn? {
      UseKeepsTokens(d, a, e.order);
    } else {
      IssueKeepsTokens(d, a, e.order);
    }
  }

  /** An exchange appends one order, or nothing. */
  lemma ExchangeShape(d: Desk, user: B.User, route: nat, key: string, number: string, departure: Option<int>, now: int)
    ensures var a := After(d, Exchange(d, user, route, key, number, departure, now));
            && a.issued == d.issued && a.scans == d.scans
            && (a == d || (a.orders[..|d.orders|] == d.orders && |a.orders| == |d.orders| + 1 &&
                           a.orders[|d.orders|].fulfillment == ContractPending && a.orders[|d.orders|].qr.None?))
  {
  }

  /** A cancellation rewrites one order, or nothing. */
  lemma CancelShape(d: Desk, k: nat, actor: Option<B.User>, validDays: int, now: int)
    ensures var a := After(d, Cancel(d, k, actor, validDays, now));
            && a.issued == d.issued && a.scans == d.scans
            && (a == d || (k < |d.orders| && |a.orders| == |d.orders| && a.orders == d.orders[k := a.orders[k]] &&
                           a.orders[k].fulfillment == Cancelled && a.orders[k].qr.None? && a.orders[k].contract == d.orders[k].contract))
  {
  }

  // ---------------------------------------------------------------- route stock

  function HeldOn(p: nat): Order -> int { (o: Order) => if o.route == p && !o.stockRestored then 1 else 0 }

  /** Seats left plus seats held by orders is the opening stock. */
  ghost predicate StockSound(d: Desk, start: map<nat, Route>) {
    && d.routes.Keys == start.Keys
    && (forall k | 0 <= k < |d.orders| :: d.orders[k].route in d.routes)
    && forall p | p in start ::
         && d.routes[p].stock + Sum(d.orders, HeldOn(p)) == start[p].stock
         && (start[p].stock >= 0 ==> d.routes[p].stock >= 0)
  }

  /** The columns that carry stock and points stay as they are. */
  predicate SameDeal(o: Order, n: Order) {
    && n.user == o.user && n.route == o.route && n.number == o.number && n.key == o.key && n.cost == o.cost
    && n.pointsRefunded == o.pointsRefunded && n.stockRestored == o.stockRestored
  }

  predicate SameDeals(os: seq<Order>, ns: seq<Order>) {
    |ns| == |os| && forall k | 0 <= k < |os| :: SameDeal(os[k], ns[k])
  }

  predicate SameStock(m: map<nat, Route>, n: map<nat, Route>) {
    n.Keys == m.Keys && forall p | p in m :: n[p].stock == m[p].stock
  }

  predicate Settles(e: Event) { e.DoExchange? || e.DoCancel? || e.Points? }

  /** The order rewritten by an endpoint keeps its deal. */
  predicate RewritesDeal(d: Desk, a: Desk, k: nat) {
    && a.routes == d.routes && a.books == d.books
    && (a.orders == d.orders ||
        (k < |d.orders| && |a.orders| == |d.orders| && a.orders == d.orders[k := a.orders[k]] && SameDeal(d.orders[k], a.orders[k])))
  }

  lemma SignDeal(d: Desk, e: Event)
    requires SignStep(e)
    ensures RewritesDeal(d, Step(d, e), e.order)
  {
  }

  lemma TripDeal(d: Desk, e: Event)
    requires TripStep(e)
    ensures RewritesDeal(d, Step(d, e), e.order)
  {
    hide QrExpiry, Sign, Review, SubmitPickup, Schedule, Exchange, Cancel;
  }

  lemma StepKeepsDeals(d: Desk, e: Event)
    requires !Settles(e)
    ensures SameDeals(d.orders, Step(d, e).orders) && SameStock(d.routes, Step(d, e).routes) && Step(d, e).books == d.books
  {
    if SignStep(e) || TripStep(e) {
      hide Step;
      if SignStep(e) { SignDeal(d, e); } else { TripDeal(d, e); }
    }
  }

  lemma DealsKeepStock(d: Desk, a: Desk, start: map<nat, Route>)
    requires StockSound(d, start) && SameDeals(d.orders, a.orders) && SameStock(d.routes, a.routes)
    ensures StockSound(a, start)
  {
    forall k | 0 <= k < |a.orders| ensures a.orders[k].route in a.routes {
      assert SameDeal(d.orders[k], a.orders[k]);
    }
    forall p | p in start ensures Sum(a.orders, HeldOn(p)) == Sum(d.orders, HeldOn(p)) {
      forall k | 0 <= k < |d.orders| ensures HeldOn(p)(a.orders[k]) == HeldOn(p)(d.orders[k]) {
        assert SameDeal(d.orders[k], a.orders[k]);
      }
      SumSame(a.orders, d.orders, HeldOn(p), HeldOn(p));
    }
  }

  lemma ExchangeKeepsStock(d: Desk, start: map<nat, Route>, user: B.User, route: nat, key: string, number: string, departure: Option<int>, now: int)
    requires StockSound(d, start)
    ensures StockSound(After(d, Exchange(d, user, route, key, number, departure, now)), start)
  {
    hide Charge, FindOrder;
    var result := Exchange(d, user, route, key, number, departure, now);
    if result.Done? && result.desk != d {
      var a := result.desk;
      forall p | p in start
        ensures a.routes[p].stock + Sum(a.orders, HeldOn(p)) == start[p].stock && (start[p].stock >= 0 ==> a.routes[p].stock >= 0)
      {
        SumPush(d.orders, a.orders[|d.orders|], HeldOn(p));
      }
    }
  }

  lemma DropKeepsStock(d: Desk, start: map<nat, Route>, k: nat)
    requires StockSound(d, start) && k < |d.orders|
    ensures StockSound(Drop(d, k), start)
  {
    var a := Drop(d, k);
    forall p | p in start
      ensures a.routes[p].stock + Sum(a.orders, HeldOn(p)) == start[p].stock && (start[p].stock >= 0 ==> a.routes[p].stock >= 0)
    {
      SumUpdate(d.orders, k, a.orders[k], HeldOn(p));
    }
  }

  lemma CancelKeepsStock(d: Desk, start: map<nat, Route>, k: nat, actor: Option<B.User>, validDays: int, now: int)
    requires StockSound(d, start)
    ensures StockSound(After(d, Cancel(d, k, actor, validDays, now)), start)
  {
    hide GiveBack, Drop;
    var result := Cancel(d, k, actor, validDays, now);
    if result.Done? && result.desk != d {
      DropKeepsStock(d, start, k);
      if OwesPoints(d.orders[k]) {
        var o := d.orders[k];
        var back := GiveBack(d.books[o.user], o.cost, k, o.number, now, now + Max(1, validDays) * DAY);
        DropKeepsStock(d.(books := d.books[o.user := back.book]), start, k);
      }
    }
  }

  lemma StepKeepsStock(d: Desk, start: map<nat, Route>, e: Event)
    requires StockSound(d, start)
    ensures StockSound(Step(d, e), start)
  {
    hide Exchange, Cancel, StockSound;
    match e
    case DoExchange(user, route, key, number, departure, now) => ExchangeKeepsStock(d, start, user, route, key, number, departure, now);
    case DoCancel(k, actor, validDays, now) => CancelKeepsStock(d, start, k, actor, validDays, now);
    case Points(_, _) =>
      SameDealsSelf(d);
      DealsKeepStock(d, Step(d, e), start);
    case _ =>
      StepKeepsDeals(d, e);
      DealsKeepStock(d, Step(d, e), start);
  }

  lemma SameDealsSelf(d: Desk)
    ensures SameDeals(d.orders, d.orders) && SameStock(d.routes, d.routes)
  {
  }
}
