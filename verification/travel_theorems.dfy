/** Main results about travel orders. */
module TravelTheorems {
  import opened Sums
  import opened Travel
  import opened TravelHistory
  import opened TravelLedger
  import B = PointBook
  import H = PointHistory

  // ---------------------------------------------------------------- flags and idempotency keys

  /** Seats and points are given back together, by a cancellation and by nothing else. */
  predicate FlagsSound(d: Desk) {
    forall k | 0 <= k < |d.orders| :: FlagSound(d.orders[k])
  }

  predicate KeysSound(d: Desk) {
    forall j, k | 0 <= j < k < |d.orders| :: !(d.orders[j].user == d.orders[k].user && d.orders[j].key == d.orders[k].key)
  }

  predicate FlagSound(o: Order) {
    && (o.fulfillment == Cancelled ==> o.stockRestored)
    && (o.cost > 0 ==> (o.pointsRefunded <==> o.stockRestored))
  }

  lemma SignFlags(d: Desk, e: Event)
    requires FlagsSound(d) && SignStep(e)
    ensures FlagsSound(Step(d, e))
  {
  }

  lemma TripFlags(d: Desk, e: Event)
    requires FlagsSound(d) && TripStep(e)
    ensures FlagsSound(Step(d, e))
  {
    hide QrExpiry;
  }

  lemma StepKeepsFlags(d: Desk, e: Event)
    requires FlagsSound(d)
    ensures FlagsSound(Step(d, e))
  {
    if SignStep(e) {
      SignFlags(d, e);
    } else if TripStep(e) {
      TripFlags(d, e);
    } else {
      hide Charge, GiveBack, FindOrder, H.Perform, Foreign;
    }
  }

  lemma StepKeepsKeys(d: Desk, e: Event)
    requires KeysSound(d)
    ensures KeysSound(Step(d, e))
  {
    hide Charge, GiveBack, H.Perform, QrExpiry, Foreign, FindOrder;
    match e
    case DoExchange(user, route, key, number, departure, now) =>
      var found := FindOrder(d.orders, user, key);
      assert found.None? ==> forall j | 0 <= j < |d.orders| :: !KeyOf(user, key, d.orders[j]);
    case DoCancel(_, _, _, _) =>
    case Points(_, _) =>
    case _ =>
      StepKeepsDeals(d, e);
      hide Step;
      assert forall k | 0 <= k < |d.orders| :: SameDeal(d.orders[k], Step(d, e).orders[k]);
  }

  ghost predicate Sound(d: Desk, start: Desk) {
    StagesSound(d) && TokensSound(d) && StockSound(d, start.routes) && LedgersSound(d) && FlagsSound(d) && KeysSound(d)
  }

  lemma StepKeepsSound(d: Desk, start: Desk, e: Event)
    requires Sound(d, start)
    ensures Sound(Step(d, e), start)
  {
    hide Step, StagesSound, TokensSound, StockSound, LedgersSound, FlagsSound, KeysSound;
    StepKeepsStages(d, e);
    StepKeepsTokens(d, e);
    StepKeepsStock(d, start.routes, e);
    StepKeepsLedgers(d, e);
    StepKeepsFlags(d, e);
    StepKeepsKeys(d, e);
  }

  lemma {:induction false} RunKeepsSound(start: Desk, events: seq<Event>)
    requires Opening(start)
    ensures Sound(Run(start, events), start)
  {
    hide Step, Sound, Opening;
    if events == [] {
      OpeningSound(start);
    } else {
      RunKeepsSound(start, events[..|events| - 1]);
      StepKeepsSound(Run(start, events[..|events| - 1]), start, events[|events| - 1]);
    }
  }

  lemma OpeningSound(start: Desk)
    requires Opening(start)
    ensures Sound(start, start)
  {
  }

  // ---------------------------------------------------------------- lifecycle safety

  /** From the pickup form to the completed trip the contract is approved, and a live token is only where it can be scanned or was set aside. */
  lemma UnderwayIsApproved(start: Desk, events: seq<Event>, k: nat)
    requires Opening(start) && k < |Run(start, events).orders|
    ensures var o := Run(start, events).orders[k];
            && (Underway(o.fulfillment) ==> o.contract == Approved)
            && (o.qr.Some? ==> o.fulfillment == UserConfirmed || o.fulfillment == QrIssued || o.fulfillment == Exception)
  {
    RunKeepsSound(start, events);
    assert StageSound(Run(start, events).orders[k], Run(start, events).issued);
  }

  /** An approved contract, a completed trip and a made refund stay. */
  predicate FinalKept(d: Desk, a: Desk, k: nat) {
    && k < |d.orders| && k < |a.orders|
    && (d.orders[k].contract == Approved ==> a.orders[k].contract == Approved)
    && (d.orders[k].fulfillment == Completed ==> a.orders[k].fulfillment == Completed)
    && (d.orders[k].pointsRefunded ==> a.orders[k].pointsRefunded)
  }

  lemma SignFinal(d: Desk, e: Event, k: nat)
    requires SignStep(e) && k < |d.orders| && StageSound(d.orders[k], d.issued)
    ensures FinalKept(d, Step(d, e), k)
  {
  }

  lemma TripFinal(d: Desk, e: Event, k: nat)
    requires TripStep(e) && k < |d.orders| && StageSound(d.orders[k], d.issued)
    ensures FinalKept(d, Step(d, e), k)
  {
    hide QrExpiry;
  }

  lemma StepKeepsFinal(d: Desk, e: Event, k: nat)
    requires StagesSound(d) && k < |d.orders|
    ensures FinalKept(d, Step(d, e), k)
  {
    assert StageSound(d.orders[k], d.issued);
    if SignStep(e) {
      SignFinal(d, e, k);
    } else if TripStep(e) {
      TripFinal(d, e, k);
    } else {
      hide Charge, GiveBack, FindOrder, H.Perform, Foreign;
    }
  }

  /** Nothing takes an approved contract, a completed trip or a made refund back. */
  lemma {:induction false} FinalStatesAbsorb(start: Desk, events: seq<Event>, more: seq<Event>, k: nat)
    requires Opening(start) && k < |Run(start, events).orders|
    ensures var d := Run(start, events); var a := Run(start, events + more);
            && k < |a.orders|
            && (d.orders[k].contract == Approved ==> a.orders[k].contract == Approved)
            && (d.orders[k].fulfillment == Completed ==> a.orders[k].fulfillment == Completed)
            && (d.orders[k].pointsRefunded ==> a.orders[k].pointsRefunded)
  {
    hide Step, Opening, StagesSound, TokensSound, StockSound, LedgersSound, FlagsSound, KeysSound;
    if more == [] {
      assert events + more == events;
    } else {
      var front := more[..|more| - 1];
      assert (events + more)[..|events + more| - 1] == events + front;
      FinalStatesAbsorb(start, events, front, k);
      RunKeepsSound(start, events + front);
      StepKeepsFinal(Run(start, events + front), more[|more| - 1], k);
    }
  }

  /** No token ever checks in twice, on its own order or on another. */
  lemma TokenChecksInOnce(start: Desk, events: seq<Event>, i: nat, j: nat)
    requires Opening(start) && i < j < |Run(start, events).scans|
    ensures Run(start, events).scans[i].token != Run(start, events).scans[j].token
  {
    RunKeepsSound(start, events);
  }

  /** An exception mark, or the rejection of a contract that is still open. */
  predicate Reopens(o: Order, e: Event, k: nat) {
    || (e.DoException? && e.order == k)
    || (e.DoReview? && e.order == k && !e.approved && e.reason != "" && (o.contract == Pending || o.contract == Rejected))
  }

  predicate LeavesCancelled(a: Desk, k: nat) { k < |a.orders| && a.orders[k].fulfillment != Cancelled }

  lemma SignLeaves(d: Desk, e: Event, k: nat)
    requires SignStep(e) && k < |d.orders| && d.orders[k].fulfillment == Cancelled
    ensures LeavesCancelled(Step(d, e), k) <==> Reopens(d.orders[k], e, k)
  {
  }

  lemma TripLeaves(d: Desk, e: Event, k: nat)
    requires TripStep(e) && k < |d.orders| && d.orders[k].fulfillment == Cancelled
    ensures LeavesCancelled(Step(d, e), k) <==> Reopens(d.orders[k], e, k)
  {
    hide QrExpiry;
  }

  /** An order leaves CANCELLED in one step exactly by an exception mark or by the rejection of a contract still open. */
  lemma LeavesCancelledIff(d: Desk, e: Event, k: nat)
    requires k < |d.orders| && d.orders[k].fulfillment == Cancelled
    ensures LeavesCancelled(Step(d, e), k) <==> Reopens(d.orders[k], e, k)
  {
    if SignStep(e) {
      SignLeaves(d, e, k);
    } else if TripStep(e) {
      TripLeaves(d, e, k);
    } else {
      hide Charge, GiveBack, FindOrder, H.Perform, Foreign;
    }
  }

  lemma StepKeepsOrders(d: Desk, e: Event)
    ensures |Step(d, e).orders| >= |d.orders|
  {
    hide Charge, GiveBack, FindOrder, H.Perform, Foreign, QrExpiry;
    if SignStep(e) {
      SignDeal(d, e);
    } else if TripStep(e) {
      hide Step;
      TripDeal(d, e);
    }
  }

  predicate CancelledAt(d: Desk, k: nat, more: seq<Event>, n: nat)
    requires n <= |more|
  {
    k < |Run(d, more[..n]).orders| && Run(d, more[..n]).orders[k].fulfillment == Cancelled
  }

  predicate ReopensAt(d: Desk, k: nat, more: seq<Event>, n: nat)
    requires n < |more|
  {
    k < |Run(d, more[..n]).orders| && Reopens(Run(d, more[..n]).orders[k], more[n], k)
  }

  /** A cancelled order stays cancelled through everything that follows exactly when nothing in it reopens the order. */
  lemma {:induction false} CancelledStaysIff(d: Desk, k: nat, more: seq<Event>)
    requires k < |d.orders| && d.orders[k].fulfillment == Cancelled
    ensures (forall n | 0 <= n <= |more| :: CancelledAt(d, k, more, n)) <==> (forall n | 0 <= n < |more| :: !ReopensAt(d, k, more, n))
  {
    hide Step, Reopens;
    if more == [] {
      assert more[..0] == [];
    } else {
      var m := |more| - 1;
      var front := more[..m];
      CancelledStaysIff(d, k, front);
      assert forall n | 0 <= n <= m :: front[..n] == more[..n];
      assert more[..|more|] == more;
      assert forall n | 0 <= n <= m :: CancelledAt(d, k, front, n) <==> CancelledAt(d, k, more, n);
      assert forall n | 0 <= n < m :: ReopensAt(d, k, front, n) <==> ReopensAt(d, k, more, n);
      if CancelledAt(d, k, more, m) {
        StepKeepsOrders(Run(d, front), more[m]);
        LeavesCancelledIff(Run(d, front), more[m], k);
        assert CancelledAt(d, k, more, m + 1) <==> !ReopensAt(d, k, more, m);
      }
    }
  }

  // ---------------------------------------------------------------- stock and points

  /** Every route keeps its seats: those left and those held by orders whose seat was not given back add up to the opening stock. */
  lemma SeatsConserved(start: Desk, events: seq<Event>, p: nat)
    requires Opening(start) && p in start.routes
    ensures var d := Run(start, events);
            && p in d.routes && d.routes[p].stock + Sum(d.orders, HeldOn(p)) == start.routes[p].stock
            && (start.routes[p].stock >= 0 ==> d.routes[p].stock >= 0)
  {
    RunKeepsSound(start, events);
    assert p in Run(start, events).routes.Keys;
  }

  /**
   * The rows of an order on its owner's ledger sum to minus its price until it
   * is cancelled and to zero from then on, whatever becomes of it later.
   */
  lemma ExchangeNetsOut(start: Desk, events: seq<Event>, k: nat)
    requires Opening(start) && k < |Run(start, events).orders|
    ensures var d := Run(start, events); var o := d.orders[k];
            && o.user in d.books
            && Sum(d.books[o.user].ledger, NetOf(o.number)) == (if o.cost > 0 && !o.pointsRefunded then -o.cost else 0)
            && (o.fulfillment == Cancelled ==> Sum(d.books[o.user].ledger, NetOf(o.number)) == 0)
  {
    RunKeepsSound(start, events);
    hide Opening, B.FindExpense, B.FindLedger, NetOf;
    assert OrderPaid(Run(start, events), k);
  }

  /** A cancellation that owes points always succeeds in giving them back, through the debit itself. */
  lemma CancelAlwaysRefunds(start: Desk, events: seq<Event>, k: nat, actor: Option<B.User>, validDays: int, now: int)
    requires Opening(start) && k < |Run(start, events).orders|
    requires var o := Run(start, events).orders[k];
             && OwesPoints(o) && o.fulfillment != Cancelled && !NonCancellable(o.fulfillment)
             && (actor.None? || (actor.value == o.user && UserCancellable(o.fulfillment)))
    ensures var d := Run(start, events); var o := d.orders[k];
            && o.user in d.books && B.FindExpense(d.books[o.user], EXCHANGE, o.number).Some?
            && Cancel(d, k, actor, validDays, now).Done?
            && var a := Cancel(d, k, actor, validDays, now).desk;
               o.user in a.books && a.books[o.user].points == d.books[o.user].points + o.cost
  {
    RunKeepsSound(start, events);
    var d := Run(start, events);
    hide Opening, StagesSound, TokensSound, StockSound, FlagsSound, KeysSound, B.AfterRestore, B.SettleAll, B.FindExpense, B.FindLedger, RefundKey, B.Cut;
    assert OrderPaid(d, k);
    var o := d.orders[k];
    var b := d.books[o.user];
    KeysApart(o.number, o.number);
    GiveBackRefunds(b, o, k, now, now + Max(1, validDays) * DAY);
    RefundKeyFree(b, o.number);
  }

  lemma RefundKeyFree(b: B.Book, number: string)
    requires B.FindLedger(b, RefundKey(number)).None?
    ensures !B.KeyTaken(b, RefundKey(number))
  {
    assert forall j | 0 <= j < |b.ledger| :: !B.KeyIs(RefundKey(number))(b.ledger[j]);
  }

  /** Repeating an exchange with a used key, whatever happened in between, changes nothing: one order, one debit. */
  lemma ExchangeOncePerKey(start: Desk, events: seq<Event>, first: Event, more: seq<Event>, again: Event)
    requires Opening(start) && first.DoExchange? && again.DoExchange?
    requires first.user == again.user && first.key == again.key
    requires Exchange(Run(start, events), first.user, first.route, first.key, first.number, first.departure, first.now).Done?
    ensures var d := Run(start, events + [first] + more);
            Step(d, again) == d && FindOrder(Run(start, events + [first]).orders, first.user, first.key).Some?
            && FindOrder(d.orders, first.user, first.key) == FindOrder(Run(start, events + [first]).orders, first.user, first.key)
  {
    var d1 := Run(start, events + [first]);
    assert (events + [first])[..|events|] == events;
    assert d1 == Step(Run(start, events), first);
    ExchangeFound(Run(start, events), first);
    FoundStays(start, events + [first], more, first.user, first.key);
  }

  lemma ExchangeFound(d: Desk, e: Event)
    requires e.DoExchange? && Exchange(d, e.user, e.route, e.key, e.number, e.departure, e.now).Done?
    ensures FindOrder(Step(d, e).orders, e.user, e.key).Some?
  {
    hide Charge, FindOrder;
    var a := Step(d, e);
    if FindOrder(d.orders, e.user, e.key).None? {
      assert KeyOf(e.user, e.key, a.orders[|d.orders|]);
    }
  }

  /** Rows keep their owner and key, so a lookup keeps its answer. */
  predicate SameKeys(d: Desk, a: Desk) {
    |d.orders| <= |a.orders| && forall k | 0 <= k < |d.orders| :: a.orders[k].user == d.orders[k].user && a.orders[k].key == d.orders[k].key
  }

  lemma StepSameKeys(d: Desk, e: Event)
    ensures SameKeys(d, Step(d, e))
  {
    hide Charge, GiveBack, FindOrder, H.Perform, QrExpiry, Foreign;
    if !Settles(e) {
      StepKeepsDeals(d, e);
      assert forall k | 0 <= k < |d.orders| :: SameDeal(d.orders[k], Step(d, e).orders[k]);
    }
  }

  lemma FoundMoves(d: Desk, a: Desk, user: B.User, key: string)
    requires SameKeys(d, a) && FindOrder(d.orders, user, key).Some?
    ensures FindOrder(a.orders, user, key) == FindOrder(d.orders, user, key)
  {
    var i := FindOrder(d.orders, user, key).value;
    assert KeyOf(user, key, a.orders[i]);
    var p := o => KeyOf(user, key, o);
    assert B.FirstWhere(d.orders, p) == Some(i);
    assert forall j | 0 <= j < i :: !p(d.orders[j]);
    assert forall j | 0 <= j < i :: !p(a.orders[j]);
    assert B.FirstWhere(a.orders, p) == Some(i);
  }

  lemma {:induction false} FoundStays(start: Desk, events: seq<Event>, more: seq<Event>, user: B.User, key: string)
    requires FindOrder(Run(start, events).orders, user, key).Some?
    ensures FindOrder(Run(start, events + more).orders, user, key) == FindOrder(Run(start, events).orders, user, key)
  {
    hide Step, FindOrder;
    if more == [] {
      assert events + more == events;
    } else {
      var front := more[..|more| - 1];
      assert (events + more)[..|events + more| - 1] == events + front;
      FoundStays(start, events, front, user, key);
      StepSameKeys(Run(start, events + front), more[|more| - 1]);
      FoundMoves(Run(start, events + front), Run(start, events + more), user, key);
    }
  }

  /** At most one order per user and key. */
  lemma OneOrderPerKey(start: Desk, events: seq<Event>, j: nat, k: nat)
    requires Opening(start) && j < k < |Run(start, events).orders|
    ensures var d := Run(start, events); d.orders[j].user != d.orders[k].user || d.orders[j].key != d.orders[k].key
  {
    RunKeepsSound(start, events);
  }

  // ---------------------------------------------------------------- a refunded order can still travel

  /**
   * Cancel a signed order, let the open contract be rejected, sign again and
   * go through the trip.  The check-in token is the next one to be issued.
   */
  function SecondLife(d: Desk, k: nat, departure: Option<int>, address: string, now: int): (events: seq<Event>)
    requires k < |d.orders|
    ensures |events| == 10
  {
    var user := d.orders[k].user;
    [DoCancel(k, Some(user), 365, now), DoReview(k, false, "late"), DoSign(k, user, departure, true), DoReview(k, true, ""),
     DoSubmitPickup(k, user, address), DoSchedule(k), DoConfirm(k, user, now), DoCheckIn(k, d.issued, now), DoStart(k), DoComplete(k)]
  }

  /** The order after the first n events of its second life. */
  function Stage(o: Order, n: nat, departure: Option<int>, address: string, token: nat, now: int): Order {
    var refunded := o.(fulfillment := Cancelled, qr := None, qrExpires := None, stockRestored := true, pointsRefunded := o.pointsRefunded || OwesPoints(o));
    var signed := refunded.(contract := Pending, fulfillment := ContractReviewing, departure := departure);
    var informed := signed.(contract := Approved, fulfillment := InfoSubmitted, address := address);
    var confirmed := informed.(fulfillment := UserConfirmed, qr := Some(token), qrExpires := Some(QrExpiry(departure, now)));
    match n
    case 0 => o
    case 1 => refunded
    case 2 => refunded.(contract := Rejected, fulfillment := ContractRejected)
    case 3 => signed
    case 4 => signed.(contract := Approved, fulfillment := InfoPending)
    case 5 => informed
    case 6 => informed.(fulfillment := PickupConfirmed)
    case 7 => confirmed
    case 8 => confirmed.(fulfillment := CheckedIn, qr := None)
    case 9 => confirmed.(fulfillment := InTrip, qr := None)
    case _ => confirmed.(fulfillment := Completed, qr := None)
  }

  predicate SignedAwaitingReview(o: Order) { o.contract == Pending && o.fulfillment == ContractReviewing }

  /** d is a desk at which order k of d0 has lived through the first n events of its second life. */
  predicate LivesOn(d: Desk, d0: Desk, k: nat, n: nat, departure: Option<int>, address: string, now: int)
    requires k < |d0.orders|
  {
    && k < |d.orders| && d.orders[k] == Stage(d0.orders[k], n, departure, address, d0.issued, now)
    && d.issued == d0.issued + (if n < 7 then 0 else 1)
  }

  lemma SecondLifeReviews(d: Desk, d0: Desk, k: nat, n: nat, departure: Option<int>, address: string, now: int)
    requires k < |d0.orders| && SignedAwaitingReview(d0.orders[k]) && address != "" && (n == 1 || n == 3)
    requires LivesOn(d, d0, k, n, departure, address, now)
    ensures LivesOn(Step(d, SecondLife(d0, k, departure, address, now)[n]), d0, k, n + 1, departure, address, now)
  {
    hide Exchange, Cancel, Sign, SubmitPickup, Schedule, Confirm, IssueQr, CheckIn, StartTrip, Complete, MarkException, QrExpiry;
  }

  lemma SecondLifeSigns(d: Desk, d0: Desk, k: nat, n: nat, departure: Option<int>, address: string, now: int)
    requires k < |d0.orders| && SignedAwaitingReview(d0.orders[k]) && address != "" && n == 2
    requires LivesOn(d, d0, k, n, departure, address, now)
    ensures LivesOn(Step(d, SecondLife(d0, k, departure, address, now)[n]), d0, k, n + 1, departure, address, now)
  {
    hide Exchange, Cancel, Review, SubmitPickup, Schedule, Confirm, IssueQr, CheckIn, StartTrip, Complete, MarkException, QrExpiry;
  }

  lemma SecondLifeInforms(d: Desk, d0: Desk, k: nat, n: nat, departure: Option<int>, address: string, now: int)
    requires k < |d0.orders| && SignedAwaitingReview(d0.orders[k]) && address != "" && n == 4
    requires LivesOn(d, d0, k, n, departure, address, now)
    ensures LivesOn(Step(d, SecondLife(d0, k, departure, address, now)[n]), d0, k, n + 1, departure, address, now)
  {
    hide Exchange, Cancel, Sign, Review, Schedule, Confirm, IssueQr, CheckIn, StartTrip, Complete, MarkException, QrExpiry;
  }

  lemma SecondLifeSchedules(d: Desk, d0: Desk, k: nat, n: nat, departure: Option<int>, address: string, now: int)
    requires k < |d0.orders| && SignedAwaitingReview(d0.orders[k]) && address != "" && n == 5
    requires LivesOn(d, d0, k, n, departure, address, now)
    ensures LivesOn(Step(d, SecondLife(d0, k, departure, address, now)[n]), d0, k, n + 1, departure, address, now)
  {
    hide Exchange, Cancel, Sign, Review, SubmitPickup, Confirm, IssueQr, CheckIn, StartTrip, Complete, MarkException, QrExpiry;
  }

  lemma SecondLifeConfirms(d: Desk, d0: Desk, k: nat, n: nat, departure: Option<int>, address: string, now: int)
    requires k < |d0.orders| && SignedAwaitingReview(d0.orders[k]) && address != "" && n == 6
    requires LivesOn(d, d0, k, n, departure, address, now)
    ensures LivesOn(Step(d, SecondLife(d0, k, departure, address, now)[n]), d0, k, n + 1, departure, address, now)
  {
    hide Exchange, Cancel, Sign, Review, SubmitPickup, Schedule, IssueQr, CheckIn, StartTrip, Complete, MarkException, QrExpiry;
  }

  lemma SecondLifeChecksIn(d: Desk, d0: Desk, k: nat, n: nat, departure: Option<int>, address: string, now: int)
    requires k < |d0.orders| && SignedAwaitingReview(d0.orders[k]) && address != "" && n == 7
    requires LivesOn(d, d0, k, n, departure, address, now)
    ensures LivesOn(Step(d, SecondLife(d0, k, departure, address, now)[n]), d0, k, n + 1, departure, address, now)
  {
    hide Exchange, Cancel, Sign, Review, SubmitPickup, Schedule, Confirm, IssueQr, StartTrip, Complete, MarkException, QrExpiry;
    ExpiryAhead(departure, now);
  }

  lemma SecondLifeTravels(d: Desk, d0: Desk, k: nat, n: nat, departure: Option<int>, address: string, now: int)
    requires k < |d0.orders| && SignedAwaitingReview(d0.orders[k]) && address != "" && 8 <= n < 10
    requires LivesOn(d, d0, k, n, departure, address, now)
    ensures LivesOn(Step(d, SecondLife(d0, k, departure, address, now)[n]), d0, k, n + 1, departure, address, now)
  {
    hide Exchange, Cancel, Sign, Review, SubmitPickup, Schedule, Confirm, IssueQr, CheckIn, MarkException, QrExpiry;
  }

  lemma SecondLifeStep(d: Desk, d0: Desk, k: nat, n: nat, departure: Option<int>, address: string, now: int)
    requires k < |d0.orders| && SignedAwaitingReview(d0.orders[k]) && address != "" && 1 <= n < 10
    requires LivesOn(d, d0, k, n, departure, address, now)
    ensures LivesOn(Step(d, SecondLife(d0, k, departure, address, now)[n]), d0, k, n + 1, departure, address, now)
  {
    hide Step, Stage, SecondLife, LivesOn;
    match n
    case 2 => SecondLifeSigns(d, d0, k, n, departure, address, now);
    case 4 => SecondLifeInforms(d, d0, k, n, departure, address, now);
    case 5 => SecondLifeSchedules(d, d0, k, n, departure, address, now);
    case 6 => SecondLifeConfirms(d, d0, k, n, departure, address, now);
    case 7 => SecondLifeChecksIn(d, d0, k, n, departure, address, now);
    case _ =>
      if n < 4 {
        SecondLifeReviews(d, d0, k, n, departure, address, now);
      } else {
        SecondLifeTravels(d, d0, k, n, departure, address, now);
      }
  }

  lemma ExpiryAhead(departure: Option<int>, now: int)
    ensures QrExpiry(departure, now) > now
  {
  }

  lemma {:induction false} SecondLifeRuns(start: Desk, events: seq<Event>, k: nat, departure: Option<int>, address: string, now: int, n: nat)
    requires Opening(start) && k < |Run(start, events).orders| && SignedAwaitingReview(Run(start, events).orders[k])
    requires address != "" && 1 <= n <= 10
    ensures var d0 := Run(start, events);
            LivesOn(Run(start, events + SecondLife(d0, k, departure, address, now)[..n]), d0, k, n, departure, address, now)
  {
    hide Step, Opening, Stage, SecondLife, LivesOn;
    var d0 := Run(start, events);
    var life := SecondLife(d0, k, departure, address, now);
    assert (events + life[..n])[..|events + life[..n]| - 1] == events + life[..n - 1];
    if n == 1 {
      assert events + life[..0] == events;
      SecondLifeStarts(start, events, k, departure, address, now);
    } else {
      SecondLifeRuns(start, events, k, departure, address, now, n - 1);
      SecondLifeStep(Run(start, events + life[..n - 1]), d0, k, n - 1, departure, address, now);
    }
  }

  lemma SecondLifeStarts(start: Desk, events: seq<Event>, k: nat, departure: Option<int>, address: string, now: int)
    requires Opening(start) && k < |Run(start, events).orders| && SignedAwaitingReview(Run(start, events).orders[k])
    ensures var d0 := Run(start, events);
            LivesOn(Step(d0, SecondLife(d0, k, departure, address, now)[0]), d0, k, 1, departure, address, now)
  {
    hide GiveBack, Exchange, Run, Opening;
    var d0 := Run(start, events);
    if OwesPoints(d0.orders[k]) {
      CancelAlwaysRefunds(start, events, k, Some(d0.orders[k].user), 365, now);
    }
  }

  /** Every signed order can be cancelled, refunded and then completed, with its price given back and its seat free for another. */
  lemma RefundedOrderTravels(start: Desk, events: seq<Event>, k: nat, departure: Option<int>, address: string, now: int)
    requires Opening(start) && k < |Run(start, events).orders| && SignedAwaitingReview(Run(start, events).orders[k])
    requires address != ""
    ensures var d0 := Run(start, events);
            var a := Run(start, events + SecondLife(d0, k, departure, address, now));
            && k < |a.orders| && a.orders[k].fulfillment == Completed && a.orders[k].stockRestored
            && (a.orders[k].cost > 0 ==> a.orders[k].pointsRefunded)
            && a.orders[k].user in a.books
            && Sum(a.books[a.orders[k].user].ledger, NetOf(a.orders[k].number)) == 0
  {
    hide Opening, Run, NetOf;
    var d0 := Run(start, events);
    var life := SecondLife(d0, k, departure, address, now);
    assert life[..10] == life;
    SecondLifeRuns(start, events, k, departure, address, now, 10);
    ExchangeNetsOut(start, events + life, k);
  }
}
