/** When a sales counter is right, and which overlaps of payments make it wrong. */
module ShopOverlap {
  import opened Sums
  import opened Shop
  import opened ShopHistory
  import opened ShopCounters
  import opened ShopStranded
  import P = OrderProtocol

  /** If the event commits a payment, the counter of p still holds what the payment read. */
  predicate FreshPay(b: Books, e: Event, p: int) {
    match Target(e)
    case None => true
    case Some(k) => PaysNow(b, e, k) && p in b.products && p in Reading(b, k) ==> Reading(b, k)[p] == b.products[p].sales
  }

  predicate AllFresh(start: Books, events: seq<Event>, p: int) {
    forall n | 0 <= n < |events| :: FreshPay(Before(start, events, n), events[n], p)
  }

  predicate AlwaysRight(start: Books, events: seq<Event>, p: int) {
    forall n | 0 <= n <= |events| :: Right(start, events[..n], p)
  }

  lemma AllFreshStep(start: Books, events: seq<Event>, p: int)
    requires events != []
    ensures var n := |events| - 1;
            AllFresh(start, events, p) <==> AllFresh(start, events[..n], p) && FreshPay(Before(start, events, n), events[n], p)
  {
    hide FreshPay, Run;
    var n := |events| - 1;
    assert forall m | 0 <= m < n :: events[..n][..m] == events[..m] && events[..n][m] == events[m];
  }

  lemma AlwaysRightStep(start: Books, events: seq<Event>, p: int)
    requires events != []
    ensures AlwaysRight(start, events, p) <==> AlwaysRight(start, events[..|events| - 1], p) && Right(start, events, p)
  {
    hide Right;
    var n := |events| - 1;
    assert forall m | 0 <= m <= n :: events[..n][..m] == events[..m];
    assert events[..|events|] == events;
    if AlwaysRight(start, events[..n], p) && Right(start, events, p) {
      forall m | 0 <= m <= |events| ensures Right(start, events[..m], p) {
        if m <= n { assert Right(start, events[..n][..m], p); }
      }
    }
  }

  /** The units of one paid order are among the units of all. */
  lemma UnitsAmongPaid(b: Books, k: nat, p: int)
    requires k < |b.orders| && b.orders[k].payment == P.PaidUp
    ensures PaidUnits(b, p) >= Sum(b.orders[k].items, Units(p))
  {
    forall j | 0 <= j < |b.orders| ensures PaidOn(p)(b.orders[j]) >= 0 { UnitsNonNegative(b.orders[j].items, p); }
    SumAtLeast(b.orders, PaidOn(p));
    assert PaidOn(p)(b.orders[k]) == Sum(b.orders[k].items, Units(p));
  }

  /** A refund is not clipped while the counter holds the units of all paid orders. */
  lemma EnoughNotClipped(b: Books, e: Event, p: int)
    requires p in b.products && b.products[p].sales >= PaidUnits(b, p)
    ensures StepClip(b, e, p) == 0
  {
    if Target(e).Some? && RefundsNow(b, e, Target(e).value) { UnitsAmongPaid(b, Target(e).value, p); }
  }

  lemma FreshIsNoOverwrite(b: Books, e: Event, p: int)
    ensures FreshPay(b, e, p) <==> StepOverwrite(b, e, p) == 0
  {
    hide PaysNow, Reading;
  }

  /** While every payment is fresh nothing is overwritten and nothing clipped. */
  lemma {:induction false} FreshTotals(start: Books, events: seq<Event>, p: int)
    requires Opening(start) && p in start.products && AllFresh(start, events, p)
    ensures Overwritten(start, events, p) == 0 && Clipped(start, events, p) == 0
  {
    hide Step, AllFresh, FreshPay, StepOverwrite, StepClip, PaidUnits, StrandedUnits, Run, Sound;
    if events != [] {
      var n := |events| - 1;
      AllFreshStep(start, events, p);
      FreshTotals(start, events[..n], p);
      SalesMatchPaidOrders(start, events[..n], p);
      OpeningCounter(start, p);
      EnoughNotClipped(Run(start, events[..n]), events[n], p);
      FreshIsNoOverwrite(Run(start, events[..n]), events[n], p);
    }
  }

  lemma OpeningCounter(start: Books, p: int)
    requires Opening(start) && p in start.products
    ensures start.products[p].sales >= 0
  {
  }

  /** As long as every payment commits on the counter it read, no refund is ever clipped. */
  lemma FreshNeverClips(start: Books, events: seq<Event>, e: Event, p: int)
    requires Opening(start) && p in start.products && AllFresh(start, events, p)
    ensures StepClip(Run(start, events), e, p) == 0
  {
    hide Run, AllFresh, StepClip, Overwritten, Clipped, PaidUnits, StrandedUnits, Opening;
    FreshTotals(start, events, p);
    SalesMatchPaidOrders(start, events, p);
    OpeningCounter(start, p);
    EnoughNotClipped(Run(start, events), e, p);
  }

  // ---------------------------------------------------------------- when a counter is right

  /** No order that sells p was paid inside a sync that cancelled it. */
  ghost predicate NoneStranded(start: Books, events: seq<Event>, p: int) {
    forall k: nat | k < |Run(start, events).orders| && Sells(Run(start, events).orders[k].items, p) :: !PaidDuringSync(start, events, k)
  }

  /** Stranded units are there exactly when a stranded order sells the product. */
  lemma StrandedUnitsIff(b: Books, p: int)
    requires OrdersSound(b)
    ensures StrandedUnits(b, p) == 0 <==> forall k: nat | k < |b.orders| && Sells(b.orders[k].items, p) :: !StrandedAt(b, k)
  {
    hide OrdersSound, Pair, Sells;
    forall k | 0 <= k < |b.orders| ensures StrandedOn(p)(b.orders[k]) >= 0 { UnitsNonNegative(b.orders[k].items, p); }
    SumAtLeast(b.orders, StrandedOn(p));
    if k: nat :| k < |b.orders| && Sells(b.orders[k].items, p) && StrandedAt(b, k) {
      OrderFacts(b, k);
      SoldUnits(b.orders[k].items, p);
      assert StrandedOn(p)(b.orders[k]) >= 1;
    } else {
      forall k | 0 <= k < |b.orders| ensures StrandedOn(p)(b.orders[k]) == 0 {
        if !Sells(b.orders[k].items, p) { UnsoldUnits(b.orders[k].items, p); }
      }
      SumZero(b.orders, StrandedOn(p));
    }
  }

  lemma NoneStrandedIff(start: Books, events: seq<Event>, p: int)
    requires Opening(start)
    ensures NoneStranded(start, events, p) <==> StrandedUnits(Run(start, events), p) == 0
  {
    hide Run, Opening, PaidDuringSync, StrandedUnits, StrandedAt, OrdersSound, Sells;
    RunOrders(start, events);
    StrandedUnitsIff(Run(start, events), p);
    forall k: nat ensures StrandedAt(Run(start, events), k) <==> PaidDuringSync(start, events, k) {
      StrandedIffPaidDuringSync(start, events, k);
    }
  }

  /** Stranded orders are never fewer after a step, and a payment strands none. */
  lemma StrandedUnitsMove(b: Books, e: Event, p: int)
    requires OrdersSound(b) && OrdersSound(Step(b, e))
    ensures StrandedUnits(Step(b, e), p) >= StrandedUnits(b, p)
    ensures StepOverwrite(b, e, p) != 0 ==> StrandedUnits(Step(b, e), p) == StrandedUnits(b, p)
  {
    hide Step, OrdersSound, Reading;
    StrandedGrow(b, e, p);
    if StepOverwrite(b, e, p) != 0 {
      var a, k := Step(b, e), Target(e).value;
      StepKind(b, e);
      KindFlags(b, e, k);
      PayStrandsNone(b, a, k, p);
    }
  }

  lemma PayStrandsNone(b: Books, a: Books, k: nat, p: int)
    requires Settled(b, a, k)
    ensures StrandedUnits(a, p) == StrandedUnits(b, p)
  {
    SumUpdate(b.orders, k, a.orders[k], StrandedOn(p));
  }

  lemma StrandedGrow(b: Books, e: Event, p: int)
    requires OrdersSound(b) && OrdersSound(Step(b, e))
    ensures StrandedUnits(Step(b, e), p) >= StrandedUnits(b, p)
  {
    hide Step, OrdersSound, Stranded;
    var a, n := Step(b, e), |b.orders|;
    StepGrows(b, e);
    forall k | 0 <= k < n ensures StrandedOn(p)(b.orders[k]) <= StrandedOn(p)(a.orders[..n][k]) {
      UnitsNonNegative(a.orders[k].items, p);
      if Stranded(b.orders[k]) {
        StrandedStays(b, e, k);
        UnitsSame(b.orders[k].items, a.orders[k].items, p);
      }
    }
    SumBelow(b.orders, a.orders[..n], StrandedOn(p));
    assert a.orders == a.orders[..n] + a.orders[n..];
    SumAppend(a.orders[..n], a.orders[n..], StrandedOn(p));
    forall k | 0 <= k < |a.orders[n..]| ensures StrandedOn(p)(a.orders[n..][k]) >= 0 { UnitsNonNegative(a.orders[n..][k].items, p); }
    SumAtLeast(a.orders[n..], StrandedOn(p));
  }

  /**
   * In a run whose counter has been right so far, with nothing stranded, one
   * more event keeps it right exactly when it is no stale payment and strands
   * nothing.
   */
  lemma RightStep(start: Books, events: seq<Event>, e: Event, p: int)
    requires Opening(start) && p in start.products && Right(start, events, p) && StrandedUnits(Run(start, events), p) == 0
    ensures Right(start, events + [e], p)
            <==> FreshPay(Run(start, events), e, p) && StrandedUnits(Run(start, events + [e]), p) == 0
  {
    hide Step, Sound, StepOverwrite, StepClip, PaidUnits, StrandedUnits, BoughtUnits, FreshPay, OrdersSound;
    assert (events + [e])[..|events|] == events;
    var b := Run(start, events);
    RunKeepsSound(start, events);
    RunOrders(start, events);
    RunOrders(start, events + [e]);
    ProductsStay(b, start, p);
    OpeningCounter(start, p);
    StepCounts(b, start, e, p);
    EnoughNotClipped(b, e, p);
    FreshIsNoOverwrite(b, e, p);
    BoughtIsPaidOrStranded(b, p);
    BoughtIsPaidOrStranded(Step(b, e), p);
    StrandedUnitsMove(b, e, p);
  }

  /**
   * A counter is right after every event of a run exactly when every payment in
   * it commits while the counter still holds what the payment read, and no
   * order that sells the product was paid inside a sync that cancelled it.
   */
  lemma AlwaysRightIffFresh(start: Books, events: seq<Event>, p: int)
    requires Opening(start) && p in start.products
    ensures AlwaysRight(start, events, p) <==> AllFresh(start, events, p) && NoneStranded(start, events, p)
  {
    hide AlwaysRight, AllFresh, NoneStranded, StrandedUnits, Run, Opening;
    RightIffFreshUnstranded(start, events, p);
    NoneStrandedIff(start, events, p);
  }

  lemma {:induction false} RightIffFreshUnstranded(start: Books, events: seq<Event>, p: int)
    requires Opening(start) && p in start.products
    ensures AlwaysRight(start, events, p) <==> AllFresh(start, events, p) && StrandedUnits(Run(start, events), p) == 0
  {
    hide AlwaysRight, AllFresh, Right, FreshPay, Opening, Step, StrandedUnits, OrdersSound;
    if events == [] {
      StartsRight(start, p);
    } else {
      var n := |events| - 1;
      var b := Run(start, events[..n]);
      RightIffFreshUnstranded(start, events[..n], p);
      AlwaysRightStep(start, events, p);
      AllFreshStep(start, events, p);
      assert events[..n] + [events[n]] == events;
      RunOrders(start, events[..n]);
      RunOrders(start, events);
      StrandedUnitsMove(b, events[n], p);
      BoughtIsPaidOrStranded(b, p);
      if AlwaysRight(start, events[..n], p) {
        RightAtEnd(start, events[..n], p);
        RightStep(start, events[..n], events[n], p);
      }
    }
  }

  lemma StartsRight(start: Books, p: int)
    requires Opening(start) && p in start.products
    ensures AlwaysRight(start, [], p) && AllFresh(start, [], p) && StrandedUnits(Run(start, []), p) == 0
  {
    var none: seq<Event> := [];
    assert none[..0] == [];
  }

  lemma RightAtEnd(start: Books, events: seq<Event>, p: int)
    requires AlwaysRight(start, events, p)
    ensures Right(start, events, p)
  {
    assert events[..|events|] == events;
  }

  // ---------------------------------------------------------------- overlaps

  predicate Open(start: Books, events: seq<Event>, k: nat, n: nat) { n <= |events| && k in Before(start, events, n).readings }

  predicate OpenThroughout(start: Books, events: seq<Event>, k: nat, m: nat, n: nat) {
    forall j: nat | m <= j <= n :: Open(start, events, k, j)
  }

  /** The event commits the payment of an order that sells p. */
  predicate Sale(b: Books, e: Event, k: nat, p: int) { PaysNow(b, e, k) && Sells(b.orders[k].items, p) }

  /** At m another order's sale of p commits, between the read and the commit, at n, of order k's. */
  predicate Overlap(start: Books, events: seq<Event>, p: int, k: nat, m: nat, n: nat) {
    && m < n < |events| && OpenThroughout(start, events, k, m, n) && Sale(Before(start, events, n), events[n], k, p)
    && Target(events[m]).Some? && Target(events[m]).value != k
    && Sale(Before(start, events, m), events[m], Target(events[m]).value, p)
  }

  /** As an overlap, but at m the order may also be refunded. */
  predicate Touch(start: Books, events: seq<Event>, p: int, k: nat, m: nat, n: nat) {
    && m < n < |events| && OpenThroughout(start, events, k, m, n) && Sale(Before(start, events, n), events[n], k, p)
    && Target(events[m]).Some? && Target(events[m]).value != k
    && (Sale(Before(start, events, m), events[m], Target(events[m]).value, p)
        || RefundsNow(Before(start, events, m), events[m], Target(events[m]).value))
  }

  ghost predicate AnyOverlap(start: Books, events: seq<Event>, p: int) {
    exists k: nat, m: nat, n: nat :: Overlap(start, events, p, k, m, n)
  }

  predicate RefundFree(start: Books, events: seq<Event>) {
    forall n | 0 <= n < |events| && Target(events[n]).Some? :: !RefundsNow(Before(start, events, n), events[n], Target(events[n]).value)
  }

  /** An open reading stays what it is; a new one holds the counters of its moment. */
  lemma ReadingKept(b: Books, e: Event, k: nat)
    requires k in Step(b, e).readings
    ensures k in b.readings ==> Step(b, e).readings[k] == b.readings[k]
    ensures k !in b.readings ==>
              k < |b.orders| && Step(b, e).products == b.products && Step(b, e).readings[k] == Counters(b.products, b.orders[k].items)
  {
    hide Tally, Granted, Written, Counters, GiveBackAll, KeysBackAll, PayItems, CloseItems, LapseAll, Post, Orderable, NumberTaken, RefundNoTaken, RefundRowExists;
    if e.BeginPay? {
      hide Execute, Blocked;
      BeginReads(b, e.order, k);
    } else {
      OtherReads(b, e);
    }
  }

  lemma BeginReads(b: Books, j: nat, k: nat)
    requires k in Step(b, BeginPay(j)).readings
    ensures k in b.readings ==> Step(b, BeginPay(j)).readings[k] == b.readings[k]
    ensures k !in b.readings ==>
              k < |b.orders| && Step(b, BeginPay(j)).products == b.products
              && Step(b, BeginPay(j)).readings[k] == Counters(b.products, b.orders[k].items)
  {
    hide Counters;
  }

  predicate FewerReadings(b: Books, a: Books) {
    a.readings.Keys <= b.readings.Keys && forall k | k in a.readings :: a.readings[k] == b.readings[k]
  }

  lemma FinalizeReads(b: Books, k: nat, no: string, id: string, toWallet: bool, number: string)
    ensures After(b, FinalizeRefund(b, k, no, id, toWallet, number)).readings == b.readings
  {
    hide GiveBackAll, KeysBackAll, CloseItems, LapseAll, RefundRowExists, NumberTaken, RefundNoTaken;
  }

  lemma RefundReads(b: Books, e: Event)
    requires e.RefundByAdmin? || e.RefundNotice?
    ensures After(b, Execute(b, e)).readings == b.readings
  {
    hide FinalizeRefund;
    match e
    case RefundByAdmin(k, newNo, answer, number) =>
      if k < |b.orders| {
        var o := b.orders[k];
        var no := if Text(o.refundNo) != "" then Text(o.refundNo) else newNo;
        FinalizeReads(b, k, Text(o.refundNo), answer.id, false, number);
        FinalizeReads(b, k, no, "", o.channel == Balance, number);
        FinalizeReads(Noted(b, k, Some(no), answer.state, answer.id), k, no, answer.id, false, number);
      }
    case RefundNotice(k, no, answer, number) => FinalizeReads(b, k, no, answer.id, false, number);
  }

  lemma PayReads(b: Books, e: Event)
    requires e.PayBalance? || e.PayMock? || e.Notify? || e.Timeout?
    ensures FewerReadings(b, After(b, Execute(b, e)))
  {
    hide Tally, Granted, Written, Counters, PayItems, GiveBackAll, KeysBackAll, CloseItems, NumberTaken;
  }

  lemma OtherReads(b: Books, e: Event)
    requires !e.BeginPay?
    ensures FewerReadings(b, Step(b, e))
  {
    hide FewerReadings, Blocked;
    SameReadings(b);
    if !Blocked(b, e) {
      if e.RefundByAdmin? || e.RefundNotice? {
        hide Execute;
        RefundReads(b, e);
        FewerOf(b, After(b, Execute(b, e)));
      } else if e.PayBalance? || e.PayMock? || e.Notify? || e.Timeout? {
        hide Execute;
        PayReads(b, e);
      } else {
        PlainReads(b, e);
      }
    }
  }

  lemma SameReadings(b: Books)
    ensures FewerReadings(b, b)
  {
  }

  lemma FewerOf(b: Books, a: Books)
    requires a.readings == b.readings
    ensures FewerReadings(b, a)
  {
  }

  lemma PlainReads(b: Books, e: Event)
    requires !e.BeginPay? && Target(e).None?
    ensures FewerReadings(b, After(b, Execute(b, e)))
  {
    hide Orderable, NumberTaken;
  }

  // ---------------------------------------------------------------- a stale payment has been overlapped

  function SalesOf(b: Books, p: int): int { if p in b.products then b.products[p].sales else 0 }

  /** An open reading that no longer matches the counter: the counter has moved while it was open. */
  lemma {:induction false} MovedWhileOpen(start: Books, events: seq<Event>, p: int, k: nat, n: nat) returns (m: nat)
    requires Opening(start) && p in start.products && Open(start, events, k, n)
    requires p in Before(start, events, n).readings[k] && Before(start, events, n).readings[k][p] != SalesOf(Before(start, events, n), p)
    ensures m < n && OpenThroughout(start, events, k, m, n)
    ensures SalesOf(Before(start, events, m), p) != SalesOf(Before(start, events, m + 1), p)
  {
    hide Step, Opening, Sound, Run, Counters;
    m := 0;
    NothingOpen(start, events);
    if n > 0 {
      var b := Before(start, events, n - 1);
      BeforeNext(start, events, n - 1);
      ReadingKept(b, events[n - 1], k);
      if k !in b.readings { CountersAre(b.products, b.orders[k].items, p); }
      if b.readings[k][p] != SalesOf(b, p) {
        m := MovedWhileOpen(start, events, p, k, n - 1);
      } else {
        m := n - 1;
      }
    }
  }

  lemma NothingOpen(start: Books, events: seq<Event>)
    requires Opening(start)
    ensures Before(start, events, 0).readings == map[]
  {
    assert events[..0] == [];
  }

  lemma CountersAre(products: map<int, Product>, items: seq<Item>, p: int)
    ensures p in Counters(products, items) ==> p in products && Counters(products, items)[p] == products[p].sales
  {
  }

  /** A counter moves only when an order that sells its product is paid or refunded. */
  lemma MovedBySale(b: Books, start: Books, e: Event, p: int)
    requires Sound(b, start) && p in b.products && SalesOf(Step(b, e), p) != SalesOf(b, p)
    ensures Target(e).Some?
    ensures RefundsNow(b, e, Target(e).value) || Sale(b, e, Target(e).value, p)
    ensures Settled(b, Step(b, e), Target(e).value) ==> Target(e).value !in Step(b, e).readings
  {
    hide Step, GrantsSound, HoldersSound, WalletSound, PostingsSound, Written, Tally, Reading, GiveBackAll;
    StepKind(b, e);
    if Calm(b, Step(b, e)) {
      CalmSales(b, Step(b, e), p);
    }
    var k := Target(e).value;
    KindFlags(b, e, k);
    if Settled(b, Step(b, e), k) {
      SettledSells(b, start, e, k, p);
      SettledCloses(b, e, k);
    }
  }

  lemma SettledSells(b: Books, start: Books, e: Event, k: nat, p: int)
    requires Sound(b, start) && p in b.products && Settled(b, Step(b, e), k) && SalesOf(Step(b, e), p) != SalesOf(b, p)
    ensures Sells(b.orders[k].items, p)
  {
    hide Step, GrantsSound, HoldersSound, WalletSound, PostingsSound, Reading, Tally;
    OrderFacts(b, k);
    SalesReadings(b, start.products);
    ReadingFits(b, k);
    TallyCounts(Reading(b, k), b.orders[k].items, p);
  }

  lemma SettledCloses(b: Books, e: Event, k: nat)
    requires OrdersSound(b) && Target(e) == Some(k) && Settled(b, Step(b, e), k)
    ensures k !in Step(b, e).readings
  {
    hide Tally, Granted, Written, Counters, PayItems, GiveBackAll, KeysBackAll, CloseItems, NumberTaken, FinalizeRefund;
    if e.RefundByAdmin? || e.RefundNotice? {
      RefundNeverSettles(b, e, k);
    }
  }

  lemma RefundNeverSettles(b: Books, e: Event, k: nat)
    requires OrdersSound(b) && Target(e) == Some(k) && (e.RefundByAdmin? || e.RefundNotice?)
    ensures !Settled(b, Step(b, e), k)
  {
    hide Calm, Unsettled, Settled, AdminRefund, RefundNotified, Blocked;
    SameIsCalm(b);
    KindsApart(b, Step(b, e), k);
    match e
    case RefundByAdmin(_, newNo, answer, number) => AdminKind(b, k, newNo, answer, number);
    case RefundNotice(_, no, answer, number) => NoticeKind(b, k, no, answer, number);
  }

  lemma KindsApart(b: Books, a: Books, k: nat)
    ensures Settled(b, a, k) ==> !Calm(b, a) && !Unsettled(b, a, k)
  {
    hide Written, Tally, Reading, GiveBackAll;
    if Calm(b, a) && k < |b.orders| { assert SameSettled(b.orders[k], a.orders[k]); }
  }

  /** A stale payment: while it was in progress another order that sells the product was paid, or one was refunded. */
  lemma StaleIsTouched(start: Books, events: seq<Event>, p: int, n: nat) returns (k: nat, m: nat)
    requires Opening(start) && p in start.products && n < |events|
    requires !FreshPay(Before(start, events, n), events[n], p)
    ensures Touch(start, events, p, k, m, n)
  {
    hide Step, Opening, Run, Counters, PaysNow, RefundsNow, GrantsSound, HoldersSound, WalletSound, PostingsSound;
    var b := Before(start, events, n);
    k := Target(events[n]).value;
    RunKeepsSound(start, events[..n]);
    PaysFacts(b, events[n], k);
    OrderFacts(b, k);
    SalesReadings(b, start.products);
    ReadingFits(b, k);
    CountersAre(b.products, b.orders[k].items, p);
    m := MovedWhileOpen(start, events, p, k, n);
    BeforeNext(start, events, m);
    var c := Before(start, events, m);
    RunKeepsSound(start, events[..m]);
    ProductsStay(c, start, p);
    MovedBySale(c, start, events[m], p);
    StepKind(c, events[m]);
    assert Open(start, events, k, m) && Open(start, events, k, m + 1);
    var j := Target(events[m]).value;
    if Sale(c, events[m], j, p) {
      MoverIsSettled(c, events[m], p);
    } else {
      SalesReadings(c, start.products);
      assert ReadingSound(c, k);
      RefundedWasPaid(c, events[m], j);
    }
  }

  lemma RefundedWasPaid(b: Books, e: Event, k: nat)
    requires RefundsNow(b, e, k)
    ensures k < |b.orders| && b.orders[k].payment == P.PaidUp
  {
  }

  /** In a run without refunds, a stale payment was overlapped. */
  lemma StaleIsOverlapped(start: Books, events: seq<Event>, p: int, n: nat)
    requires Opening(start) && p in start.products && RefundFree(start, events) && n < |events|
    requires !FreshPay(Before(start, events, n), events[n], p)
    ensures AnyOverlap(start, events, p)
  {
    hide Before, Opening, FreshPay, OpenThroughout, Sale, RefundsNow;
    var k, m := StaleIsTouched(start, events, p, n);
    assert Overlap(start, events, p, k, m, n);
  }

  /**
   * With refunds too, a counter stays right while nothing that moves it commits
   * inside another payment, and nothing is stranded.
   */
  lemma UntouchedIsRight(start: Books, events: seq<Event>, p: int)
    requires Opening(start) && p in start.products
    requires forall k: nat, m: nat, n: nat :: !Touch(start, events, p, k, m, n)
    ensures AlwaysRight(start, events, p) <==> NoneStranded(start, events, p)
  {
    hide AlwaysRight, NoneStranded, Touch, FreshPay, Run, Opening;
    AlwaysRightIffFresh(start, events, p);
    if n :| 0 <= n < |events| && !FreshPay(Before(start, events, n), events[n], p) {
      var k, m := StaleIsTouched(start, events, p, n);
    }
  }

  lemma PaysFacts(b: Books, e: Event, k: nat)
    requires PaysNow(b, e, k)
    ensures k < |b.orders|
  {
  }

  lemma MoverIsSettled(b: Books, e: Event, p: int)
    requires OrdersSound(b) && Target(e).Some? && Sale(b, e, Target(e).value, p)
    ensures Settled(b, Step(b, e), Target(e).value)
  {
    hide Step, Written, Tally, Reading, GiveBackAll;
    StepKind(b, e);
    KindFlags(b, e, Target(e).value);
  }

  // ---------------------------------------------------------------- an overlapped payment is stale

  /** Fresh payments only raise a counter, and a sale of the product raises it properly. */
  lemma FreshRaises(b: Books, start: Books, e: Event, p: int)
    requires Sound(b, start) && p in start.products && FreshPay(b, e, p)
    requires Target(e).Some? ==> !RefundsNow(b, e, Target(e).value)
    ensures SalesOf(Step(b, e), p) >= SalesOf(b, p)
    ensures Target(e).Some? && Sale(b, e, Target(e).value, p) ==> SalesOf(Step(b, e), p) > SalesOf(b, p)
  {
    hide Step, GrantsSound, HoldersSound, WalletSound, PostingsSound, Tally, Reading, GiveBackAll;
    ProductsStay(b, start, p);
    StepKind(b, e);
    if Calm(b, Step(b, e)) {
      CalmSales(b, Step(b, e), p);
      if Target(e).Some? { KindFlags(b, e, Target(e).value); }
    } else {
      var k := Target(e).value;
      KindFlags(b, e, k);
      OrderFacts(b, k);
      SalesReadings(b, start.products);
      ReadingFits(b, k);
      TallyCounts(Reading(b, k), b.orders[k].items, p);
      UnitsNonNegative(b.orders[k].items, p);
      if Sells(b.orders[k].items, p) { SoldUnits(b.orders[k].items, p); }
    }
  }

  predicate RunOrderly(start: Books, events: seq<Event>, p: int) {
    Opening(start) && p in start.products && RefundFree(start, events) && AllFresh(start, events, p)
  }

  lemma OrderlyStep(start: Books, events: seq<Event>, p: int, n: nat)
    requires RunOrderly(start, events, p) && n < |events|
    ensures var b, a := Before(start, events, n), Before(start, events, n + 1);
            && SalesOf(a, p) >= SalesOf(b, p)
            && (Target(events[n]).Some? && Sale(b, events[n], Target(events[n]).value, p) ==> SalesOf(a, p) > SalesOf(b, p))
  {
    hide Step, FreshPay, Sale, RefundsNow, SalesOf, Sound, Run;
    BeforeNext(start, events, n);
    RunKeepsSound(start, events[..n]);
    FreshRaises(Before(start, events, n), start, events[n], p);
  }

  /** In an orderly run no open reading is ahead of the counter. */
  lemma {:induction false} ReadingsBehind(start: Books, events: seq<Event>, p: int, k: nat, n: nat)
    requires RunOrderly(start, events, p) && Open(start, events, k, n) && p in Before(start, events, n).readings[k]
    ensures Before(start, events, n).readings[k][p] <= SalesOf(Before(start, events, n), p)
  {
    hide Step, FreshPay, RefundsNow, Run, Counters, Opening, RefundFree, AllFresh;
    NothingOpen(start, events);
    if n > 0 {
      var b := Before(start, events, n - 1);
      BeforeNext(start, events, n - 1);
      OrderlyStep(start, events, p, n - 1);
      ReadingKept(b, events[n - 1], k);
      if k in b.readings {
        ReadingsBehind(start, events, p, k, n - 1);
      } else {
        CountersAre(b.products, b.orders[k].items, p);
      }
    }
  }

  /** From the sale of another order on, an open reading lags. */
  lemma {:induction false} ReadingLags(start: Books, events: seq<Event>, p: int, k: nat, m: nat, n: nat)
    requires RunOrderly(start, events, p) && m < n <= |events| && OpenThroughout(start, events, k, m, n)
    requires Target(events[m]).Some? && Sale(Before(start, events, m), events[m], Target(events[m]).value, p)
    requires Open(start, events, k, n) && p in Before(start, events, n).readings[k]
    ensures Before(start, events, n).readings[k][p] < SalesOf(Before(start, events, n), p)
  {
    hide Step, FreshPay, RefundsNow, Run, Counters, Opening, RefundFree, AllFresh, Sale;
    assert Open(start, events, k, n) && Open(start, events, k, n - 1);
    var b := Before(start, events, n - 1);
    BeforeNext(start, events, n - 1);
    ReadingKept(b, events[n - 1], k);
    OrderlyStep(start, events, p, n - 1);
    if n == m + 1 {
      ReadingsBehind(start, events, p, k, m);
    } else {
      ReadingLags(start, events, p, k, m, n - 1);
    }
  }

  lemma OverlapIsStale(start: Books, events: seq<Event>, p: int, k: nat, m: nat, n: nat)
    requires Opening(start) && p in start.products && RefundFree(start, events) && Overlap(start, events, p, k, m, n)
    ensures !AllFresh(start, events, p)
  {
    if AllFresh(start, events, p) {
      hide Step, Run, Counters, Opening, RefundFree, AllFresh, GrantsSound, HoldersSound, WalletSound, PostingsSound;
      var b := Before(start, events, n);
      assert Open(start, events, k, n);
      RunKeepsSound(start, events[..n]);
      ProductsStay(b, start, p);
      SalesReadings(b, start.products);
      assert ReadingSound(b, k);
      ReadingLags(start, events, p, k, m, n);
      FreshAt(start, events, p, n);
    }
  }

  lemma FreshAt(start: Books, events: seq<Event>, p: int, n: nat)
    requires AllFresh(start, events, p) && n < |events|
    ensures FreshPay(Before(start, events, n), events[n], p)
  {
  }

  /**
   * In a run without refunds, a counter is right after every event exactly when
   * no sale of the product commits between the read and the commit of another
   * order's payment that sells it too, and none commits inside a sync that then
   * cancels the order.
   */
  lemma AlwaysRightIffNoOverlap(start: Books, events: seq<Event>, p: int)
    requires Opening(start) && p in start.products && RefundFree(start, events)
    ensures AlwaysRight(start, events, p) <==> !AnyOverlap(start, events, p) && NoneStranded(start, events, p)
  {
    hide AlwaysRight, NoneStranded, Overlap, FreshPay, Run, Opening, RefundFree;
    AlwaysRightIffFresh(start, events, p);
    if k: nat, m: nat, n: nat :| Overlap(start, events, p, k, m, n) {
      OverlapIsStale(start, events, p, k, m, n);
    }
    if n :| 0 <= n < |events| && !FreshPay(Before(start, events, n), events[n], p) {
      StaleIsOverlapped(start, events, p, n);
    }
  }

  // ---------------------------------------------------------------- a lost sale

  const LINE := Item(7, Study, 1, false, P.Pending)
  const ORDERED := Fresh(1, 10, [LINE], Mock)

  /** Two orders for the same product, each read before the other is committed; then one of them is refunded. */
  const LOSING := [
    Place(1, 10, [LINE], Mock), Place(1, 10, [LINE], Mock), BeginPay(0), BeginPay(1),
    PayMock(0, "A", {}), PayMock(1, "B", {}), RefundByAdmin(0, "R", Answer(Succeeded, ""), "")]

  /**
   * The reachable wrong counter: two units paid for and one counted, then one
   * unit paid for and none counted, so that the next refund is clipped.
   */
  lemma LostSale()
    ensures Opening(BUYER)
    ensures var b := Run(BUYER, LOSING[..6]); 7 in b.products && b.products[7].sales == 1 && PaidUnits(b, 7) == 2
    ensures var b := Run(BUYER, LOSING);
            && 7 in b.products && b.products[7].sales == 0 && PaidUnits(b, 7) == 1
            && |b.orders| == 2 && b.orders[1].payment == P.PaidUp && Sum(b.orders[1].items, Units(7)) == 1
  {
    BuyerOpens();
    hide Step, PaidUnits, Run, Opening, Sum;
    assert LOSING[..7] == LOSING;
    NoSyncs(BUYER, LOSING);
    BeforeNext(BUYER, LOSING, 0);
    BeforeNext(BUYER, LOSING, 1);
    BeforeNext(BUYER, LOSING, 2);
    BeforeNext(BUYER, LOSING, 3);
    BeforeNext(BUYER, LOSING, 4);
    BeforeNext(BUYER, LOSING, 5);
    BeforeNext(BUYER, LOSING, 6);
    LosingOpens();
    LosingPays(Before(BUYER, LOSING, 4));
    LosingRefunds(Before(BUYER, LOSING, 6));
  }

  lemma BuyerOpens()
    ensures Opening(BUYER)
  {
  }

  lemma LosingReads()
    ensures Counters(map[7 := Product(-1, 0)], [LINE]) == map[7 := 0]
    ensures Tally(map[7 := 0], [LINE]) == map[7 := 1]
  {
    assert Sells([LINE], 7) by { assert [LINE][0].product == 7; }
    assert [LINE][..0] == [];
  }

  lemma LosingOpens()
    ensures Step(Step(Step(Step(BUYER, LOSING[0]), LOSING[1]), LOSING[2]), LOSING[3])
            == BUYER.(orders := [ORDERED, ORDERED], readings := map[0 := map[7 := 0], 1 := map[7 := 0]])
  {
    hide Counters, Tally;
    LosingReads();
    assert Step(BUYER, LOSING[0]) == BUYER.(orders := [ORDERED]);
    var b := BUYER.(orders := [ORDERED, ORDERED]);
    assert Step(BUYER.(orders := [ORDERED]), LOSING[1]) == b;
    assert Step(b, LOSING[2]) == b.(readings := map[0 := map[7 := 0]]);
  }

  /** A paid order for one unit of product 7. */
  predicate OneUnit(o: Order) {
    && |o.items| == 1 && o.items[0].product == 7 && Units(7)(o.items[0]) == 1 && SettledPaid(o)
    && o.channel == Mock && o.user == 1 && o.refundNo == None && o.refundState == NotAsked
  }

  lemma LosingPays(b: Books)
    requires b == BUYER.(orders := [ORDERED, ORDERED], readings := map[0 := map[7 := 0], 1 := map[7 := 0]])
    ensures var a := Step(Step(b, LOSING[4]), LOSING[5]);
            && a.products == map[7 := Product(-1, 1)] && |a.orders| == 2 && OneUnit(a.orders[0]) && OneUnit(a.orders[1])
            && a.balances == b.balances && a.readings == map[] && PaidUnits(a, 7) == 2
  {
    hide Counters, Tally, Granted;
    LosingReads();
    var c := Step(b, LOSING[4]);
    assert c.products == map[7 := Product(-1, 1)];
    var a := Step(c, LOSING[5]);
    PairUnits(a);
  }

  lemma PairUnits(b: Books)
    requires |b.orders| == 2 && |b.orders[0].items| == |b.orders[1].items| == 1
    ensures PaidUnits(b, 7) == (if b.orders[0].payment == P.PaidUp then Units(7)(b.orders[0].items[0]) else 0)
                             + (if b.orders[1].payment == P.PaidUp then Units(7)(b.orders[1].items[0]) else 0)
  {
    assert b.orders == [] + [b.orders[0]] + [b.orders[1]];
    SumPush([], b.orders[0], PaidOn(7));
    SumPush([b.orders[0]], b.orders[1], PaidOn(7));
    SumOne(b.orders[0].items[0], Units(7));
    SumOne(b.orders[1].items[0], Units(7));
  }

  lemma LosingRefunds(b: Books)
    requires && b.products == map[7 := Product(-1, 1)] && |b.orders| == 2 && OneUnit(b.orders[0]) && OneUnit(b.orders[1])
             && b.balances == map[1 := 100] && b.readings == map[]
    ensures var a := Step(b, LOSING[6]);
            && 7 in a.products && a.products[7].sales == 0 && PaidUnits(a, 7) == 1
            && |a.orders| == 2 && a.orders[1].payment == P.PaidUp && Sum(a.orders[1].items, Units(7)) == 1
  {
    hide LapseAll, KeysBackAll;
    var a := Step(b, LOSING[6]);
    var items := b.orders[0].items;
    assert items[..0] == [];
    assert GiveBackAll(b.products, items, true) == GiveBack(b.products, items[0], true);
    PairUnits(a);
    SumOne(a.orders[1].items[0], Units(7));
    assert a.orders[1].items == [a.orders[1].items[0]];
  }

  // ---------------------------------------------------------------- a counter too high

  /** A payment that starts and commits at once is fresh. */
  lemma AtOnceIsFresh(b: Books, e: Event, p: int)
    requires Target(e).Some? ==> Target(e).value !in b.readings
    ensures FreshPay(b, e, p)
  {
    hide Step;
  }

  /** Without any overlap of payments and without refunds: a unit counted of an order that a sync has voided. */
  lemma LateCounter()
    ensures AllFresh(BUYER, LATE, 7)
    ensures var b := Run(BUYER, LATE); 7 in b.products && b.products[7].sales == 1 && PaidUnits(b, 7) == 0
  {
    hide Step, FreshPay, PaidUnits;
    assert LATE[..4] == LATE && LATE[..0] == [];
    BeforeNext(BUYER, LATE, 0);
    BeforeNext(BUYER, LATE, 1);
    BeforeNext(BUYER, LATE, 2);
    BeforeNext(BUYER, LATE, 3);
    LateReads();
    LateSells(Before(BUYER, LATE, 2));
    forall n | 0 <= n < |LATE| ensures FreshPay(Before(BUYER, LATE, n), LATE[n], 7) {
      AtOnceIsFresh(Before(BUYER, LATE, n), LATE[n], 7);
    }
  }

  lemma LateSells(b: Books)
    requires b == BUYER.(orders := [BASKET], syncs := [Sync(0, BASKET, true)])
    ensures var a := Step(Step(b, LATE[2]), LATE[3]); 7 in a.products && a.products[7].sales == 1 && PaidUnits(a, 7) == 0
  {
    hide Step;
    LatePays(b);
    LateSale(b);
    LateVoids(Step(b, LATE[2]));
  }

  lemma LateSale(b: Books)
    requires b == BUYER.(orders := [BASKET], syncs := [Sync(0, BASKET, true)])
    ensures Step(b, LATE[2]).products == map[7 := Product(-1, 1)]
  {
    hide Counters, Tally, Granted;
    LosingReads();
  }

  lemma LateVoids(c: Books)
    requires c.products == map[7 := Product(-1, 1)] && c.syncs == [Sync(0, BASKET, true)] && c.readings == map[] && |c.orders| == 1
    ensures var a := Step(c, LATE[3]); 7 in a.products && a.products[7].sales == 1 && PaidUnits(a, 7) == 0
  {
    hide GiveBackAll, KeysBackAll;
    RestockQuiet(c.products, BASKET.items);
    SumZero(Step(c, LATE[3]).orders, PaidOn(7));
  }
}
