/**
 * Sales counters.  A payment reads them without a lock and writes what it has
 * computed, so a counter can lose what others did in between; a refund takes
 * back units but stops at zero.  Over every run the counter of a product is its
 * opening value plus the units in paid orders, less what was overwritten, plus
 * what was clipped.
 */
module ShopCounters {
  import opened Sums
  import opened Shop
  import opened ShopHistory
  import P = OrderProtocol

  /** The order that the event can pay or refund. */
  function Target(e: Event): Option<nat> {
    match e
    case PayBalance(_, k, _, _) => Some(k)
    case PayMock(k, _, _) => Some(k)
    case Notify(k, _, _) => Some(k)
    case Timeout(k, _, _, _) => Some(k)
    case RefundByAdmin(k, _, _, _) => Some(k)
    case RefundNotice(k, _, _, _) => Some(k)
    case _ => None
  }

  /** The event commits a payment of order k. */
  predicate PaysNow(b: Books, e: Event, k: nat) {
    && Target(e) == Some(k) && k < |b.orders| && k < |Step(b, e).orders|
    && b.orders[k].payment != P.PaidUp && Step(b, e).orders[k].payment == P.PaidUp
  }

  /** The event commits a refund of order k. */
  predicate RefundsNow(b: Books, e: Event, k: nat) {
    && Target(e) == Some(k) && k < |b.orders| && k < |Step(b, e).orders|
    && b.orders[k].payment == P.PaidUp && Step(b, e).orders[k].payment == P.Refunded
  }

  /** What happened to the counter between the payment's read and its commit: the commit undoes it. */
  function StepOverwrite(b: Books, e: Event, p: int): int {
    match Target(e)
    case None => 0
    case Some(k) =>
      if PaysNow(b, e, k) && p in b.products && p in Reading(b, k) then b.products[p].sales - Reading(b, k)[p] else 0
  }

  /** The units a refund would have taken below zero. */
  function StepClip(b: Books, e: Event, p: int): int {
    match Target(e)
    case None => 0
    case Some(k) =>
      if RefundsNow(b, e, k) && p in b.products then Max0(Sum(b.orders[k].items, Units(p)) - b.products[p].sales) else 0
  }

  function Overwritten(start: Books, events: seq<Event>, p: int): int {
    if events == [] then 0
    else
      var front := events[..|events| - 1];
      Overwritten(start, front, p) + StepOverwrite(Run(start, front), events[|events| - 1], p)
  }

  function Clipped(start: Books, events: seq<Event>, p: int): int {
    if events == [] then 0
    else
      var front := events[..|events| - 1];
      Clipped(start, front, p) + StepClip(Run(start, front), events[|events| - 1], p)
  }

  function BoughtUnits(b: Books, p: int): int { Sum(b.orders, BoughtOn(p)) }

  function PaidOn(p: int): Order -> int { (o: Order) => if o.payment == P.PaidUp then Sum(o.items, Units(p)) else 0 }

  /** The units in paid orders. */
  function PaidUnits(b: Books, p: int): int { Sum(b.orders, PaidOn(p)) }

  function StrandedOn(p: int): Order -> int { (o: Order) => if Stranded(o) then Sum(o.items, Units(p)) else 0 }

  /** The units of orders that were voided after being paid. */
  function StrandedUnits(b: Books, p: int): int { Sum(b.orders, StrandedOn(p)) }

  lemma {:induction false} SumsAdd(orders: seq<Order>, p: int)
    requires forall k | 0 <= k < |orders| :: Pair(orders[k])
    ensures Sum(orders, BoughtOn(p)) == Sum(orders, PaidOn(p)) + Sum(orders, StrandedOn(p))
    ensures Sum(orders, StrandedOn(p)) >= 0
  {
    if orders != [] {
      var n := |orders| - 1;
      SumsAdd(orders[..n], p);
      UnitsNonNegative(orders[n].items, p);
    }
  }

  /** What has been bought is what is paid and what is stranded. */
  lemma BoughtIsPaidOrStranded(b: Books, p: int)
    requires OrdersSound(b)
    ensures BoughtUnits(b, p) == PaidUnits(b, p) + StrandedUnits(b, p) && StrandedUnits(b, p) >= 0
  {
    forall k | 0 <= k < |b.orders| ensures Pair(b.orders[k]) { OrderFacts(b, k); }
    SumsAdd(b.orders, p);
  }

  // ---------------------------------------------------------------- three kinds of step

  predicate SameSettled(o: Order, n: Order) { SameDeal(o, n) && (Bought(n) <==> Bought(o)) && Unmoved(o, n) }

  predicate SameDeal(o: Order, n: Order) { n.user == o.user && n.payable == o.payable && SameGoods(o.items, n.items) }

  /** Neither paid nor refunded by the change. */
  predicate Unmoved(o: Order, n: Order) {
    (n.payment == P.PaidUp ==> o.payment == P.PaidUp) && (n.payment == P.Refunded ==> o.payment == P.Refunded)
  }

  predicate Calm(b: Books, a: Books) {
    && |b.orders| <= |a.orders| && QuietProducts(b.products, a.products)
    && (forall k | 0 <= k < |b.orders| :: SameSettled(b.orders[k], a.orders[k]))
    && (forall k | |b.orders| <= k < |a.orders| :: !Bought(a.orders[k]))
  }

  predicate OnlyOrder(b: Books, a: Books, k: nat) {
    k < |b.orders| == |a.orders| && a.orders == b.orders[k := a.orders[k]] && SameDeal(b.orders[k], a.orders[k])
  }

  predicate Settled(b: Books, a: Books, k: nat) {
    && OnlyOrder(b, a, k) && b.orders[k].payment != P.PaidUp && a.orders[k].payment == P.PaidUp
    && !Bought(b.orders[k]) && Bought(a.orders[k])
    && a.products == Written(b.products, Tally(Reading(b, k), b.orders[k].items))
  }

  predicate Unsettled(b: Books, a: Books, k: nat) {
    && OnlyOrder(b, a, k) && b.orders[k].payment == P.PaidUp && a.orders[k].payment == P.Refunded
    && Bought(b.orders[k]) && !Bought(a.orders[k])
    && a.products == GiveBackAll(b.products, b.orders[k].items, true)
  }

  lemma SameIsCalm(b: Books)
    ensures Calm(b, b)
  {
  }

  lemma MarkKind(b: Books, k: nat, channel: Channel, transaction: string, plans: set<int>)
    requires OrdersSound(b)
    ensures var a := After(b, MarkPaid(b, k, channel, transaction, plans)); a == b || Settled(b, a, k)
  {
    hide Tally, Granted, Written, Counters;
  }

  lemma BuyKind(b: Books, user: nat, k: nat, number: string, plans: set<int>)
    requires OrdersSound(b)
    ensures var a := After(b, PayWithBalance(b, user, k, number, plans)); a == b || Settled(b, a, k)
  {
    hide Tally, Granted, Written, Counters;
  }

  lemma ClosingKind(b: Books, k: nat, items: seq<Item>)
    requires OrdersSound(b) && k < |b.orders|
    ensures Calm(b, Closing(b, k, items))
  {
    hide GiveBackAll, KeysBackAll, OrdersSound;
    RestockQuiet(b.products, items);
  }

  lemma CancelAsKind(b: Books, k: nat, row: Order)
    requires OrdersSound(b) && k < |b.orders|
    ensures Calm(b, After(b, CancelAs(b, k, row)))
  {
    hide Calm, Closing;
    SameIsCalm(b);
    if k !in b.readings { ClosingKind(b, k, row.items); }
  }

  lemma CancelKind(b: Books, k: nat)
    requires OrdersSound(b)
    ensures Calm(b, After(b, CancelUnpaid(b, k)))
  {
    hide Calm, CancelAs;
    SameIsCalm(b);
    if k < |b.orders| { CancelAsKind(b, k, b.orders[k]); }
  }

  lemma SyncKind(b: Books, i: nat)
    requires OrdersSound(b)
    ensures Calm(b, After(b, SyncCancels(b, i)))
  {
    hide Calm, CancelAs, OrdersSound;
    SameIsCalm(b);
    if Syncing(b, i) {
      var y := b.syncs[i];
      var c := b.(syncs := b.syncs[i := y.(live := false)]);
      SyncsSound(b, c);
      CancelAsKind(c, y.order, y.row);
      SameTables(b, c, After(c, CancelAs(c, y.order, y.row)));
    }
  }

  lemma SyncsSound(b: Books, c: Books)
    requires OrdersSound(b) && c.orders == b.orders && c.balances == b.balances && c.products == b.products
    ensures OrdersSound(c)
  {
    forall k | 0 <= k < |c.orders| ensures OrderSound(c.orders[k], c.balances.Keys, c.products.Keys) { OrderFacts(b, k); }
  }

  lemma SameTables(b: Books, c: Books, a: Books)
    requires Calm(c, a) && c.orders == b.orders && c.products == b.products
    ensures Calm(b, a)
  {
  }

  lemma FinalizeKind(b: Books, k: nat, no: string, id: string, toWallet: bool, number: string)
    requires OrdersSound(b)
    ensures var a := After(b, FinalizeRefund(b, k, no, id, toWallet, number)); a == b || Unsettled(b, a, k)
  {
    hide GiveBackAll, KeysBackAll, LapseAll;
  }

  /** Recording a provider's answer changes nothing that counts, also not for the refund that follows it. */
  lemma NotedKind(b: Books, k: nat, no: Option<string>, state: RefundState, id: string, a: Books)
    requires OrdersSound(b) && k < |b.orders|
    ensures var c := Noted(b, k, no, state, id);
            && OrdersSound(c) && Calm(b, c) && (Calm(c, a) && |c.orders| == |a.orders| ==> Calm(b, a)) && (Unsettled(c, a, k) ==> Unsettled(b, a, k))
  {
    hide GiveBackAll;
    var c := Noted(b, k, no, state, id);
    forall j | 0 <= j < |c.orders| ensures OrderSound(c.orders[j], c.balances.Keys, c.products.Keys) { OrderFacts(b, j); }
    if Calm(c, a) && |c.orders| == |a.orders| {
      forall j | 0 <= j < |b.orders| ensures SameSettled(b.orders[j], a.orders[j]) {
        assert SameSettled(c.orders[j], a.orders[j]);
      }
    }
  }

  lemma AdminKind(b: Books, k: nat, newNo: string, answer: Answer, number: string)
    requires OrdersSound(b)
    ensures var a := After(b, AdminRefund(b, k, newNo, answer, number)); Calm(b, a) || Unsettled(b, a, k)
  {
    hide FinalizeRefund, Calm, Unsettled, Noted, SettledPaid;
    SameIsCalm(b);
    if k < |b.orders| {
      var o := b.orders[k];
      var no := if Text(o.refundNo) != "" then Text(o.refundNo) else newNo;
      var a := After(b, AdminRefund(b, k, newNo, answer, number));
      var c := Noted(b, k, Some(no), answer.state, answer.id);
      NotedKind(b, k, o.refundNo, answer.state, answer.id, a);
      NotedKind(b, k, Some(no), answer.state, answer.id, a);
      FinalizeKind(b, k, Text(o.refundNo), answer.id, false, number);
      FinalizeKind(b, k, no, "", o.channel == Balance, number);
      FinalizeKind(c, k, no, answer.id, false, number);
    }
  }

  lemma NoticeKind(b: Books, k: nat, no: string, answer: Answer, number: string)
    requires OrdersSound(b)
    ensures var a := After(b, RefundNotified(b, k, no, answer, number)); Calm(b, a) || Unsettled(b, a, k)
  {
    hide FinalizeRefund, GiveBackAll;
    FinalizeKind(b, k, no, answer.id, false, number);
  }

  lemma TimeOutKind(b: Books, k: nat, configured: bool, gateway: Gateway, plans: set<int>)
    requires OrdersSound(b)
    ensures var a := After(b, TimeOut(b, k, configured, gateway, plans)); Calm(b, a) || Settled(b, a, k)
  {
    hide CancelUnpaid, MarkPaid, Calm, Settled;
    SameIsCalm(b);
    CancelKind(b, k);
    if gateway.Success? { MarkKind(b, k, Wechat, gateway.transaction, plans); }
  }

  lemma NotifyKind(b: Books, k: nat, transaction: string, plans: set<int>)
    requires OrdersSound(b)
    ensures var a := After(b, WechatPaid(b, k, transaction, plans)); a == b || Settled(b, a, k)
  {
    hide MarkPaid, Settled;
    MarkKind(b, k, Wechat, transaction, plans);
  }

  lemma OtherKind(b: Books, e: Event)
    requires OrdersSound(b) && Target(e).None?
    ensures Calm(b, Step(b, e))
  {
    if e.SyncCancel? {
      hide Calm, SyncCancels;
      SyncKind(b, e.call);
    } else {
      PlainKind(b, e);
    }
  }

  lemma PlainKind(b: Books, e: Event)
    requires OrdersSound(b) && Target(e).None? && !e.SyncCancel?
    ensures Calm(b, Step(b, e))
  {
    hide Step, OrdersSound, Calm;
    if e.Place? || e.AskRefund? || e.Stamp? {
      RowKind(b, e);
    } else {
      SameRowsKind(b, e);
      SameRowsCalm(b, Step(b, e));
    }
  }

  lemma RowKind(b: Books, e: Event)
    requires e.Place? || e.AskRefund? || e.Stamp?
    ensures Calm(b, Step(b, e))
  {
    hide Orderable, Calm, RequestRefund, StampWechat, Blocked;
    SameIsCalm(b);
    match e
    case Place(user, payable, items, channel) => PlacedCalm(b, Fresh(user, payable, items, channel));
    case AskRefund(user, k) => AskCalm(b, user, k);
    case Stamp(k) => StampCalm(b, k);
  }

  lemma AskCalm(b: Books, user: nat, k: nat)
    ensures Calm(b, After(b, RequestRefund(b, user, k)))
  {
    hide Calm;
    SameIsCalm(b);
    if k < |b.orders| { OneRowCalm(b, b.(orders := b.orders[k := b.orders[k].(refundState := Requested)]), k); }
  }

  lemma StampCalm(b: Books, k: nat)
    ensures Calm(b, After(b, StampWechat(b, k)))
  {
    hide Calm;
    SameIsCalm(b);
    if k < |b.orders| { OneRowCalm(b, After(b, StampWechat(b, k)), k); }
  }

  lemma PlacedCalm(b: Books, o: Order)
    requires !Bought(o)
    ensures Calm(b, b.(orders := b.orders + [o]))
  {
  }

  lemma OneRowCalm(b: Books, a: Books, k: nat)
    requires k < |b.orders| == |a.orders| && a.orders == b.orders[k := a.orders[k]] && a.products == b.products
    requires SameSettled(b.orders[k], a.orders[k])
    ensures Calm(b, a)
  {
    hide SameGoods;
    forall j | 0 <= j < |b.orders| ensures SameSettled(b.orders[j], a.orders[j]) {
      if j != k { SameGoodsSelf(b.orders[j].items); }
    }
  }

  lemma SameGoodsSelf(items: seq<Item>)
    ensures SameGoods(items, items)
  {
  }

  lemma SameRowsKind(b: Books, e: Event)
    requires Target(e).None? && !e.SyncCancel? && !e.Place? && !e.AskRefund? && !e.Stamp?
    ensures Step(b, e).orders == b.orders && QuietProducts(b.products, Step(b, e).products)
  {
    hide Counters, NumberTaken, SyncCancels;
  }

  lemma SameRowsCalm(b: Books, a: Books)
    requires a.orders == b.orders && QuietProducts(b.products, a.products)
    ensures Calm(b, a)
  {
  }

  predicate Changes(b: Books, a: Books, target: Option<nat>) {
    Calm(b, a) || (target.Some? && (Settled(b, a, target.value) || Unsettled(b, a, target.value)))
  }

  lemma StepKind(b: Books, e: Event)
    requires OrdersSound(b)
    ensures Changes(b, Step(b, e), Target(e))
  {
    hide Calm, Settled, Unsettled, Blocked, MarkPaid, PayWithBalance, WechatPaid, TimeOut, AdminRefund, RefundNotified;
    SameIsCalm(b);
    if Blocked(b, e) {
    } else {
      match e
      case PayBalance(user, k, number, plans) => BuyKind(b, user, k, number, plans);
      case PayMock(k, transaction, plans) => MarkKind(b, k, Mock, transaction, plans);
      case Notify(k, transaction, plans) => NotifyKind(b, k, transaction, plans);
      case Timeout(k, configured, gateway, plans) => TimeOutKind(b, k, configured, gateway, plans);
      case RefundByAdmin(k, newNo, answer, number) => AdminKind(b, k, newNo, answer, number);
      case RefundNotice(k, no, answer, number) => NoticeKind(b, k, no, answer, number);
      case _ => OtherKind(b, e);
    }
  }

  // ---------------------------------------------------------------- what each kind does to a counter

  lemma CalmCounts(b: Books, a: Books, p: int)
    requires Calm(b, a)
    ensures BoughtUnits(a, p) == BoughtUnits(b, p)
  {
    var n := |b.orders|;
    forall k | 0 <= k < n ensures BoughtOn(p)(b.orders[k]) == BoughtOn(p)(a.orders[..n][k]) {
      assert SameSettled(b.orders[k], a.orders[k]);
      UnitsSame(b.orders[k].items, a.orders[k].items, p);
    }
    SumSame(b.orders, a.orders[..n], BoughtOn(p), BoughtOn(p));
    assert a.orders == a.orders[..n] + a.orders[n..];
    SumAppend(a.orders[..n], a.orders[n..], BoughtOn(p));
    SumZero(a.orders[n..], BoughtOn(p));
  }

  lemma SettledCounts(b: Books, a: Books, k: nat, start: Books, p: int)
    requires Sound(b, start) && Settled(b, a, k) && p in b.products
    ensures p in a.products
    ensures var lost := if p in Reading(b, k) then b.products[p].sales - Reading(b, k)[p] else 0;
            a.products[p].sales - BoughtUnits(a, p) == b.products[p].sales - BoughtUnits(b, p) - lost
  {
    hide GrantsSound, HoldersSound, WalletSound, PostingsSound, Reading, Tally;
    var items := b.orders[k].items;
    OrderFacts(b, k);
    SalesReadings(b, start.products);
    ReadingFits(b, k);
    TallyCounts(Reading(b, k), items, p);
    UnitsSame(items, a.orders[k].items, p);
    SumUpdate(b.orders, k, a.orders[k], BoughtOn(p));
    if p !in Reading(b, k) { UnsoldUnits(items, p); }
  }

  lemma UnsettledCounts(b: Books, a: Books, k: nat, start: Books, p: int)
    requires Sound(b, start) && Unsettled(b, a, k) && p in b.products
    ensures p in a.products
    ensures a.products[p].sales - BoughtUnits(a, p)
         == b.products[p].sales - BoughtUnits(b, p) + Max0(Sum(b.orders[k].items, Units(p)) - b.products[p].sales)
  {
    hide GrantsSound, HoldersSound, WalletSound, PostingsSound, GiveBackAll;
    OrderFacts(b, k);
    GiveBackCounts(b.products, b.orders[k].items, true, p);
    SumUpdate(b.orders, k, a.orders[k], BoughtOn(p));
  }

  lemma KindFlags(b: Books, e: Event, k: nat)
    requires Target(e) == Some(k)
    ensures Calm(b, Step(b, e)) ==> !PaysNow(b, e, k) && !RefundsNow(b, e, k)
    ensures Settled(b, Step(b, e), k) ==> PaysNow(b, e, k) && !RefundsNow(b, e, k)
    ensures Unsettled(b, Step(b, e), k) ==> RefundsNow(b, e, k) && !PaysNow(b, e, k)
  {
    hide Step, Written, Tally, GiveBackAll, Reading;
    if Calm(b, Step(b, e)) && k < |b.orders| { assert SameSettled(b.orders[k], Step(b, e).orders[k]); }
  }

  lemma StepCounts(b: Books, start: Books, e: Event, p: int)
    requires Sound(b, start) && p in b.products
    ensures var a := Step(b, e);
            && p in a.products
            && a.products[p].sales - BoughtUnits(a, p)
               == b.products[p].sales - BoughtUnits(b, p) - StepOverwrite(b, e, p) + StepClip(b, e, p)
  {
    hide Step, Sound, Calm, Settled, Unsettled, PaysNow, RefundsNow, BoughtUnits, Reading;
    var a := Step(b, e);
    SoundOrders(b, start);
    StepKind(b, e);
    if Calm(b, a) {
      CalmCounts(b, a, p);
      CalmSales(b, a, p);
      if Target(e).Some? { KindFlags(b, e, Target(e).value); }
    } else {
      var k := Target(e).value;
      KindFlags(b, e, k);
      if Settled(b, a, k) {
        SettledCounts(b, a, k, start, p);
      } else {
        UnsettledCounts(b, a, k, start, p);
      }
    }
  }

  lemma CalmSales(b: Books, a: Books, p: int)
    requires Calm(b, a) && p in b.products
    ensures p in a.products && a.products[p].sales == b.products[p].sales
  {
  }

  // ---------------------------------------------------------------- every run

  lemma ProductsStay(b: Books, start: Books, p: int)
    requires Sound(b, start) && p in start.products
    ensures p in b.products && b.products[p].sales >= 0
  {
    assert p in b.products.Keys;
  }

  /**
   * Over every run, however payments and cancels overlap: a counter is its
   * opening value plus the units in paid orders and in orders voided after
   * being paid, less the units overwritten, plus the units clipped.
   */
  lemma SalesMatchPaidOrders(start: Books, events: seq<Event>, p: int)
    requires Opening(start) && p in start.products
    ensures var b := Run(start, events);
            && p in b.products && b.products[p].sales >= 0 && StrandedUnits(b, p) >= 0
            && b.products[p].sales
               == start.products[p].sales + PaidUnits(b, p) + StrandedUnits(b, p) - Overwritten(start, events, p) + Clipped(start, events, p)
  {
    hide Run, Sound, Opening, Overwritten, Clipped, BoughtUnits, PaidUnits, StrandedUnits;
    SalesMatchBought(start, events, p);
    RunKeepsSound(start, events);
    SoundOrders(Run(start, events), start);
    BoughtIsPaidOrStranded(Run(start, events), p);
  }

  lemma SoundOrders(b: Books, start: Books)
    requires Sound(b, start)
    ensures OrdersSound(b)
  {
  }

  lemma {:induction false} SalesMatchBought(start: Books, events: seq<Event>, p: int)
    requires Opening(start) && p in start.products
    ensures var b := Run(start, events);
            && p in b.products && b.products[p].sales >= 0
            && b.products[p].sales
               == start.products[p].sales + BoughtUnits(b, p) - Overwritten(start, events, p) + Clipped(start, events, p)
  {
    hide Step, Sound, Opening, StepOverwrite, StepClip;
    RunKeepsSound(start, events);
    ProductsStay(Run(start, events), start, p);
    if events == [] {
      NothingPaid(start, p);
    } else {
      var front := events[..|events| - 1];
      SalesMatchBought(start, front, p);
      RunKeepsSound(start, front);
      StepCounts(Run(start, front), start, events[|events| - 1], p);
    }
  }

  lemma NothingPaid(start: Books, p: int)
    requires Opening(start)
    ensures BoughtUnits(start, p) == 0
  {
  }

  /** The counter shows exactly the units in paid orders. */
  predicate Right(start: Books, events: seq<Event>, p: int) {
    var b := Run(start, events);
    p in start.products && p in b.products && b.products[p].sales == start.products[p].sales + PaidUnits(b, p)
  }

  /**
   * A refund of a paid order takes back all its units unless the counter holds
   * fewer; it does so exactly when more was overwritten than the opening value,
   * the other paid orders and the stranded ones make up for.
   */
  lemma RefundClipsIff(start: Books, events: seq<Event>, k: nat, p: int)
    requires Opening(start) && p in start.products
    requires k < |Run(start, events).orders| && Run(start, events).orders[k].payment == P.PaidUp
    ensures var b := Run(start, events); var units := Sum(b.orders[k].items, Units(p));
            && p in b.products && p in GiveBackAll(b.products, b.orders[k].items, true)
            && (GiveBackAll(b.products, b.orders[k].items, true)[p].sales != b.products[p].sales - units <==> b.products[p].sales < units)
            && (b.products[p].sales < units
                <==> Overwritten(start, events, p) - Clipped(start, events, p)
                     > start.products[p].sales + PaidUnits(b, p) + StrandedUnits(b, p) - units)
  {
    hide Run, Overwritten, Clipped, Sound, Opening, GiveBackAll, PaidUnits, StrandedUnits;
    RunKeepsSound(start, events);
    SalesMatchPaidOrders(start, events, p);
    ClipsIffShort(Run(start, events), start, k, p);
  }

  lemma ClipsIffShort(b: Books, start: Books, k: nat, p: int)
    requires Sound(b, start) && p in b.products && k < |b.orders|
    ensures var units := Sum(b.orders[k].items, Units(p));
            && p in GiveBackAll(b.products, b.orders[k].items, true)
            && (GiveBackAll(b.products, b.orders[k].items, true)[p].sales != b.products[p].sales - units <==> b.products[p].sales < units)
  {
    hide GrantsSound, HoldersSound, WalletSound, PostingsSound, GiveBackAll;
    OrderFacts(b, k);
    GiveBackCounts(b.products, b.orders[k].items, true, p);
  }
}
