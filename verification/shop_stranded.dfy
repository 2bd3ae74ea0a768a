/**
 * Orders voided after they were paid.  The payment sync judges an order by a row
 * it has read without a lock; when the order is paid before the sync cancels it,
 * the order ends voided with its entitlements active and its price kept.
 */
module ShopStranded {
  import opened Sums
  import opened Shop
  import opened ShopHistory
  import opened ShopCounters
  import opened ShopTheorems
  import P = OrderProtocol

  function Before(start: Books, events: seq<Event>, n: nat): Books
    requires n <= |events|
  {
    Run(start, events[..n])
  }

  lemma BeforeNext(start: Books, events: seq<Event>, n: nat)
    requires n < |events|
    ensures Before(start, events, n + 1) == Step(Before(start, events, n), events[n])
  {
    hide Step;
    assert events[..n + 1][..n] == events[..n];
  }

  // ---------------------------------------------------------------- what a step leaves alone

  /** Sessions and syncs stay, wallet rows are only added, and a paid order keeps its channel and time stamps. */
  predicate Framed(b: Books, a: Books) {
    && a.stamps == b.stamps && a.syncs == b.syncs && WalletGrows(b, a) && PaidKept(b, a)
  }

  predicate WalletGrows(b: Books, a: Books) {
    a.wallet == b.wallet || (|a.wallet| == |b.wallet| + 1 && a.wallet[..|b.wallet|] == b.wallet)
  }

  predicate PaidKept(b: Books, a: Books) {
    && |b.orders| <= |a.orders|
    && forall k | 0 <= k < |b.orders| && b.orders[k].paidAt ::
         PaidOrderKept(b.orders[k], a.orders[k])
  }

  predicate PaidOrderKept(o: Order, n: Order) {
    && n.paidAt && n.channel == o.channel && (o.refundedAt ==> n.refundedAt)
    && (o.payment != P.Voided ==> n.payment != P.Voided)
  }

  predicate Unframed(e: Event) { e.StartWechat? || e.Stamp? || e.SyncRead? || e.SyncItems? || e.SyncCancel? }

  lemma SameFramed(b: Books)
    ensures Framed(b, b)
  {
  }

  lemma MarkFramed(b: Books, k: nat, channel: Channel, transaction: string, plans: set<int>)
    requires OrdersSound(b)
    ensures Framed(b, After(b, MarkPaid(b, k, channel, transaction, plans)))
  {
    hide Tally, Granted, Written, Counters, PayItems;
    if k < |b.orders| { OrderFacts(b, k); }
  }

  lemma BuyFramed(b: Books, user: nat, k: nat, number: string, plans: set<int>)
    requires OrdersSound(b)
    ensures Framed(b, After(b, PayWithBalance(b, user, k, number, plans)))
  {
    hide Tally, Granted, Written, Counters, PayItems, NumberTaken;
    if k < |b.orders| { OrderFacts(b, k); }
  }

  lemma CancelFramed(b: Books, k: nat)
    requires OrdersSound(b)
    ensures Framed(b, After(b, CancelUnpaid(b, k)))
  {
    hide GiveBackAll, KeysBackAll, CloseItems;
    if k < |b.orders| { OrderFacts(b, k); }
  }

  lemma FinalizeFramed(b: Books, k: nat, no: string, id: string, toWallet: bool, number: string)
    ensures Framed(b, After(b, FinalizeRefund(b, k, no, id, toWallet, number)))
  {
    hide GiveBackAll, KeysBackAll, CloseItems, LapseAll, RefundRowExists, NumberTaken, RefundNoTaken;
  }

  lemma NotedFramed(b: Books, k: nat, no: Option<string>, state: RefundState, id: string, a: Books)
    requires k < |b.orders|
    ensures var c := Noted(b, k, no, state, id); Framed(b, c) && (Framed(c, a) ==> Framed(b, a))
  {
  }

  lemma RefundFramed(b: Books, e: Event)
    requires e.RefundByAdmin? || e.RefundNotice?
    ensures Framed(b, After(b, Execute(b, e)))
  {
    hide FinalizeRefund, Framed, Noted, RefundNoTaken;
    SameFramed(b);
    match e
    case RefundByAdmin(k, newNo, answer, number) =>
      if k < |b.orders| {
        var o, a := b.orders[k], After(b, AdminRefund(b, k, newNo, answer, number));
        var no := if Text(o.refundNo) != "" then Text(o.refundNo) else newNo;
        NotedFramed(b, k, o.refundNo, answer.state, answer.id, a);
        NotedFramed(b, k, Some(no), answer.state, answer.id, a);
        FinalizeFramed(b, k, Text(o.refundNo), answer.id, false, number);
        FinalizeFramed(b, k, no, "", o.channel == Balance, number);
        FinalizeFramed(Noted(b, k, Some(no), answer.state, answer.id), k, no, answer.id, false, number);
      }
    case RefundNotice(k, no, answer, number) =>
      if k < |b.orders| {
        FinalizeFramed(b, k, no, answer.id, false, number);
        StateFramed(b, k, answer.state);
      }
  }

  lemma StateFramed(b: Books, k: nat, state: RefundState)
    requires k < |b.orders|
    ensures Framed(b, b.(orders := b.orders[k := b.orders[k].(refundState := state)]))
  {
  }

  lemma PlainFramed(b: Books, e: Event)
    requires !Unframed(e) && Target(e).None?
    ensures Framed(b, After(b, Execute(b, e)))
  {
    hide Orderable, NumberTaken, Counters;
  }

  lemma StepFramed(b: Books, e: Event)
    requires OrdersSound(b) && !Unframed(e)
    ensures Framed(b, Step(b, e))
  {
    hide Framed, Blocked, MarkPaid, PayWithBalance, CancelUnpaid, AdminRefund, RefundNotified, OrdersSound;
    SameFramed(b);
    if !Blocked(b, e) {
      match e
      case PayBalance(user, k, number, plans) => BuyFramed(b, user, k, number, plans);
      case PayMock(k, transaction, plans) => MarkFramed(b, k, Mock, transaction, plans);
      case Notify(k, transaction, plans) => MarkFramed(b, k, Wechat, transaction, plans);
      case Timeout(k, configured, gateway, plans) =>
        CancelFramed(b, k);
        if gateway.Success? { MarkFramed(b, k, Wechat, gateway.transaction, plans); }
      case RefundByAdmin(_, _, _, _) => RefundFramed(b, e);
      case RefundNotice(_, _, _, _) => RefundFramed(b, e);
      case _ => PlainFramed(b, e);
    }
  }

  /** Also a step of a session or a sync only adds wallet rows, and keeps what was paid. */
  lemma StepGrows(b: Books, e: Event)
    requires OrdersSound(b)
    ensures WalletGrows(b, Step(b, e))
    ensures |b.orders| <= |Step(b, e).orders|
    ensures forall k | 0 <= k < |b.orders| && b.orders[k].paidAt :: Step(b, e).orders[k].paidAt
  {
    if Unframed(e) {
      UnframedGrows(b, e);
    } else {
      hide Step;
      StepFramed(b, e);
    }
  }

  lemma UnframedGrows(b: Books, e: Event)
    requires Unframed(e)
    ensures Step(b, e).wallet == b.wallet && |Step(b, e).orders| == |b.orders|
    ensures forall k | 0 <= k < |b.orders| :: Step(b, e).orders[k].paidAt == b.orders[k].paidAt
    ensures !e.SyncCancel? ==> forall k | 0 <= k < |b.orders| :: Step(b, e).orders[k].payment == b.orders[k].payment
  {
    hide Step;
    if e.SyncCancel? { CancelGrows(b, e.call); } else { ReadGrows(b, e); }
  }

  lemma CancelGrows(b: Books, i: nat)
    ensures Step(b, SyncCancel(i)).wallet == b.wallet && |Step(b, SyncCancel(i)).orders| == |b.orders|
    ensures forall k | 0 <= k < |b.orders| :: Step(b, SyncCancel(i)).orders[k].paidAt == b.orders[k].paidAt
  {
    hide GiveBackAll, KeysBackAll, CloseItems;
  }

  lemma ReadGrows(b: Books, e: Event)
    requires Unframed(e) && !e.SyncCancel?
    ensures Step(b, e).wallet == b.wallet && |Step(b, e).orders| == |b.orders|
    ensures forall k | 0 <= k < |b.orders| :: Step(b, e).orders[k].paidAt == b.orders[k].paidAt && Step(b, e).orders[k].payment == b.orders[k].payment
  {
  }

  // ---------------------------------------------------------------- syncs

  /** Sync i has read order k and has not ended. */
  predicate SyncOpen(b: Books, i: nat, k: nat) { i < |b.syncs| && b.syncs[i].live && b.syncs[i].order == k }

  /** Sync i cancels order k: nobody holds the row it writes. */
  predicate SyncCommits(b: Books, e: Event, i: nat, k: nat) {
    e == SyncCancel(i) && SyncOpen(b, i, k) && k < |b.orders| && k !in b.readings
  }

  /** What a sync has read is a row, then unpaid, of an order with the same goods. */
  predicate RowFits(b: Books, y: Sync) {
    y.order < |b.orders| && Payable(y.row) && SameGoods(b.orders[y.order].items, y.row.items)
  }

  predicate RowsFit(b: Books) { forall i | 0 <= i < |b.syncs| :: RowFits(b, b.syncs[i]) }

  /** No step changes what an order is for. */
  lemma GoodsStay(b: Books, e: Event)
    requires OrdersSound(b)
    ensures |b.orders| <= |Step(b, e).orders|
    ensures forall k | 0 <= k < |b.orders| :: SameGoods(b.orders[k].items, Step(b, e).orders[k].items)
  {
    hide Step, OrdersSound, Written, Tally, GiveBackAll, Reading;
    StepKind(b, e);
    if Calm(b, Step(b, e)) {
      forall k | 0 <= k < |b.orders| ensures SameGoods(b.orders[k].items, Step(b, e).orders[k].items) {
        assert SameSettled(b.orders[k], Step(b, e).orders[k]);
      }
    }
  }

  lemma RowsStay(b: Books, e: Event)
    requires OrdersSound(b) && RowsFit(b) && Step(b, e).syncs == b.syncs
    ensures RowsFit(Step(b, e))
  {
    hide Step, OrdersSound;
    GoodsStay(b, e);
    forall i | 0 <= i < |b.syncs| ensures RowFits(Step(b, e), b.syncs[i]) { assert RowFits(b, b.syncs[i]); }
  }

  lemma SyncsMove(b: Books, e: Event)
    requires OrdersSound(b) && RowsFit(b)
    ensures RowsFit(Step(b, e))
    ensures forall i: nat, k: nat | SyncOpen(Step(b, e), i, k) ::
              SyncOpen(b, i, k) || (e.SyncRead? && k < |b.orders| && Payable(b.orders[k]))
  {
    if e.SyncRead? || e.SyncItems? || e.SyncCancel? {
      SyncsOwn(b, e);
    } else {
      hide Step;
      if Unframed(e) { SessionSyncs(b, e); } else { StepFramed(b, e); }
      RowsStay(b, e);
    }
  }

  lemma SessionSyncs(b: Books, e: Event)
    requires e.StartWechat? || e.Stamp?
    ensures Step(b, e).syncs == b.syncs
  {
  }

  lemma SyncsOwn(b: Books, e: Event)
    requires OrdersSound(b) && (e.SyncRead? || e.SyncItems? || e.SyncCancel?) && RowsFit(b)
    ensures RowsFit(Step(b, e))
    ensures forall i: nat, k: nat | SyncOpen(Step(b, e), i, k) ::
              SyncOpen(b, i, k) || (e.SyncRead? && k < |b.orders| && Payable(b.orders[k]))
  {
    hide Step, OrdersSound, SameGoods;
    GoodsStay(b, e);
    var a := Step(b, e);
    SyncSteps(b, e);
    forall i | 0 <= i < |a.syncs| ensures RowFits(a, a.syncs[i]) {
      if i < |b.syncs| {
        assert RowFits(b, b.syncs[i]);
        RowFollows(b, a, b.syncs[i], a.syncs[i]);
      } else {
        NewRowFits(a, a.syncs[i]);
      }
    }
  }

  /** A sync stays as it is, ends, or reads its items again; a new one holds the row as it is. */
  lemma SyncSteps(b: Books, e: Event)
    requires e.SyncRead? || e.SyncItems? || e.SyncCancel?
    ensures var a := Step(b, e);
            && |b.syncs| <= |a.syncs|
            && (forall i | 0 <= i < |b.syncs| :: RowMoves(b, b.syncs[i], a.syncs[i]))
            && (forall i | |b.syncs| <= i < |a.syncs| ::
                  a.syncs[i].order < |b.orders| && a.orders == b.orders && a.syncs[i].row == b.orders[a.syncs[i].order]
                  && Payable(a.syncs[i].row) && e.SyncRead?)
  {
    hide GiveBackAll, KeysBackAll, CloseItems;
  }

  predicate RowMoves(b: Books, y: Sync, z: Sync) {
    && z.order == y.order && (z.live ==> y.live)
    && (z.row == y.row || (y.order < |b.orders| && z.row == y.row.(items := b.orders[y.order].items)))
  }

  lemma RowFollows(b: Books, a: Books, y: Sync, z: Sync)
    requires RowFits(b, y) && RowMoves(b, y, z) && |b.orders| <= |a.orders|
    requires SameGoods(b.orders[y.order].items, a.orders[y.order].items)
    ensures RowFits(a, z)
  {
  }

  lemma NewRowFits(a: Books, y: Sync)
    requires y.order < |a.orders| && y.row == a.orders[y.order] && Payable(y.row)
    ensures RowFits(a, y)
  {
  }

  lemma {:induction false} RunRows(start: Books, events: seq<Event>, n: nat)
    requires Opening(start) && n <= |events|
    ensures OrdersSound(Before(start, events, n)) && RowsFit(Before(start, events, n))
  {
    hide Step, Opening, OrdersSound, RowsFit, Run;
    RunOrders(start, events[..n]);
    if n == 0 {
      NoSyncs(start, events);
    } else {
      BeforeNext(start, events, n - 1);
      RunRows(start, events, n - 1);
      SyncsMove(Before(start, events, n - 1), events[n - 1]);
    }
  }

  lemma NoSyncs(start: Books, events: seq<Event>)
    requires Opening(start)
    ensures Before(start, events, 0) == start && RowsFit(start)
  {
    assert events[..0] == [];
  }

  // ---------------------------------------------------------------- one order

  predicate BoughtAt(b: Books, k: nat) { k < |b.orders| && Bought(b.orders[k]) }

  predicate StrandedAt(b: Books, k: nat) { k < |b.orders| && Stranded(b.orders[k]) }

  /** What one step can do to the purchase of one order. */
  lemma BoughtMoves(b: Books, e: Event, k: nat)
    requires OrdersSound(b)
    ensures BoughtAt(b, k) ==> (BoughtAt(Step(b, e), k) <==> !RefundsNow(b, e, k))
    ensures !BoughtAt(b, k) && BoughtAt(Step(b, e), k) ==> PaysNow(b, e, k)
    ensures PaysNow(b, e, k) ==> BoughtAt(Step(b, e), k)
  {
    hide Step, OrdersSound, Written, Tally, GiveBackAll, Reading;
    StepKind(b, e);
    if k < |b.orders| { OrderFacts(b, k); }
    if Target(e).Some? { KindFlags(b, e, Target(e).value); }
    if Calm(b, Step(b, e)) && k < |b.orders| { assert SameSettled(b.orders[k], Step(b, e).orders[k]); }
  }

  /** A stranded order stays stranded, at its price and with its goods. */
  lemma StrandedStays(b: Books, e: Event, k: nat)
    requires OrdersSound(b) && OrdersSound(Step(b, e)) && StrandedAt(b, k)
    ensures StrandedAt(Step(b, e), k) && SameDeal(b.orders[k], Step(b, e).orders[k])
  {
    hide Step, OrdersSound, Written, Tally, GiveBackAll, Reading;
    StepKind(b, e);
    OrderFacts(b, k);
    if Calm(b, Step(b, e)) { assert SameSettled(b.orders[k], Step(b, e).orders[k]); }
    OrderFacts(Step(b, e), k);
  }

  /** Only the cancel of a sync strands an order. */
  lemma BecomesStranded(b: Books, e: Event, k: nat)
    requires OrdersSound(b) && RowsFit(b) && !StrandedAt(b, k) && StrandedAt(Step(b, e), k)
    ensures e.SyncCancel? && SyncCommits(b, e, e.call, k) && BoughtAt(b, k)
  {
    hide OrdersSound;
    if k < |b.orders| { OrderFacts(b, k); }
    BoughtMoves(b, e, k);
    if e.SyncCancel? {
      SyncCancelStrands(b, e.call, k);
    } else {
      hide Step;
      NeverVoidsPaid(b, e, k);
    }
  }

  lemma SyncCancelStrands(b: Books, i: nat, k: nat)
    requires RowsFit(b) && k < |Step(b, SyncCancel(i)).orders|
    ensures k < |b.orders|
    ensures SyncCommits(b, SyncCancel(i), i, k) ==>
              Step(b, SyncCancel(i)).orders[k] == b.orders[k].(status := P.Canceled, payment := P.Voided, items := CloseItems(b.orders[k].items))
    ensures !SyncCommits(b, SyncCancel(i), i, k) ==> Step(b, SyncCancel(i)).orders[k] == b.orders[k]
  {
    hide SameGoods, GiveBackAll, KeysBackAll, CloseItems;
  }

  /** No other event voids a paid order. */
  lemma NeverVoidsPaid(b: Books, e: Event, k: nat)
    requires OrdersSound(b) && !e.SyncCancel? && k < |b.orders| && b.orders[k].payment == P.PaidUp
    ensures k < |Step(b, e).orders| && Step(b, e).orders[k].payment != P.Voided
  {
    hide Step, OrdersSound;
    OrderFacts(b, k);
    if Unframed(e) { UnframedGrows(b, e); } else { StepFramed(b, e); }
  }

  // ---------------------------------------------------------------- the window

  /**
   * Order k is paid at m, while sync i is open on it, and not refunded before
   * that sync cancels it at n.
   */
  predicate Straddles(start: Books, events: seq<Event>, k: nat, i: nat, m: nat, n: nat) {
    && m < n < |events| && PaysNow(Before(start, events, m), events[m], k) && SyncOpen(Before(start, events, m), i, k)
    && SyncCommits(Before(start, events, n), events[n], i, k) && RefundFreeBetween(start, events, k, m, n)
  }

  predicate RefundFreeBetween(start: Books, events: seq<Event>, k: nat, m: nat, n: nat)
    requires n <= |events|
  {
    forall j: nat | m < j < n :: !RefundsNow(Before(start, events, j), events[j], k)
  }

  ghost predicate PaidDuringSync(start: Books, events: seq<Event>, k: nat) {
    exists i: nat, m: nat, n: nat :: Straddles(start, events, k, i, m, n)
  }

  lemma {:induction false} BoughtThrough(start: Books, events: seq<Event>, k: nat, m: nat, n: nat)
    requires Opening(start) && m < n <= |events|
    requires PaysNow(Before(start, events, m), events[m], k) && RefundFreeBetween(start, events, k, m, n)
    ensures BoughtAt(Before(start, events, n), k)
  {
    hide Step, Opening, OrdersSound, RowsFit, BoughtAt, PaysNow, RefundsNow, Run;
    RunRows(start, events, n - 1);
    BeforeNext(start, events, n - 1);
    BoughtMoves(Before(start, events, n - 1), events[n - 1], k);
    if n > m + 1 {
      BoughtThrough(start, events, k, m, n - 1);
    }
  }

  lemma {:induction false} StrandedThrough(start: Books, events: seq<Event>, k: nat, n: nat, t: nat)
    requires Opening(start) && n <= t <= |events| && StrandedAt(Before(start, events, n), k)
    ensures StrandedAt(Before(start, events, t), k)
    ensures SameDeal(Before(start, events, n).orders[k], Before(start, events, t).orders[k])
  {
    hide Step, Opening, OrdersSound, RowsFit, Run, Stranded;
    if n < t {
      StrandedThrough(start, events, k, n, t - 1);
      RunRows(start, events, t - 1);
      RunRows(start, events, t);
      BeforeNext(start, events, t - 1);
      StrandedStays(Before(start, events, t - 1), events[t - 1], k);
    }
  }

  lemma AtEnd(start: Books, events: seq<Event>)
    ensures Before(start, events, |events|) == Run(start, events)
  {
    assert events[..|events|] == events;
  }

  lemma StraddledIsStranded(start: Books, events: seq<Event>, k: nat, i: nat, m: nat, n: nat)
    requires Opening(start) && Straddles(start, events, k, i, m, n)
    ensures StrandedAt(Run(start, events), k)
  {
    hide Step, Opening, OrdersSound, RowsFit, Run, PaysNow, RefundsNow;
    BoughtThrough(start, events, k, m, n);
    RunRows(start, events, n);
    BeforeNext(start, events, n);
    CommitStrands(Before(start, events, n), i, k);
    StrandedThrough(start, events, k, n + 1, |events|);
    AtEnd(start, events);
  }

  lemma CommitStrands(b: Books, i: nat, k: nat)
    requires OrdersSound(b) && RowsFit(b) && BoughtAt(b, k) && SyncCommits(b, SyncCancel(i), i, k)
    ensures StrandedAt(Step(b, SyncCancel(i)), k)
  {
    hide Step, OrdersSound, RowsFit;
    StepGrows(b, SyncCancel(i));
    SyncCancelStrands(b, i, k);
  }

  /** The payment of an order bought, with nothing refunded since. */
  lemma {:induction false} PaidBefore(start: Books, events: seq<Event>, k: nat, n: nat) returns (m: nat)
    requires Opening(start) && n <= |events| && BoughtAt(Before(start, events, n), k)
    ensures m < n && PaysNow(Before(start, events, m), events[m], k) && RefundFreeBetween(start, events, k, m, n)
    ensures forall j: nat | m < j <= n :: BoughtAt(Before(start, events, j), k)
  {
    hide Step, Opening, OrdersSound, RowsFit, BoughtAt, PaysNow, RefundsNow, Run;
    m := 0;
    NothingBought(start, events, k);
    if n > 0 {
      RunRows(start, events, n - 1);
      BeforeNext(start, events, n - 1);
      BoughtMoves(Before(start, events, n - 1), events[n - 1], k);
      if BoughtAt(Before(start, events, n - 1), k) {
        m := PaidBefore(start, events, k, n - 1);
      } else {
        m := n - 1;
      }
    }
  }

  lemma NothingBought(start: Books, events: seq<Event>, k: nat)
    requires Opening(start)
    ensures !BoughtAt(Before(start, events, 0), k) && !StrandedAt(Before(start, events, 0), k)
  {
    assert events[..0] == [];
  }

  /** A sync still open on an order bought at m had read it before. */
  lemma {:induction false} OpenBefore(start: Books, events: seq<Event>, i: nat, k: nat, m: nat, n: nat)
    requires Opening(start) && m < n <= |events| && Target(events[m]).Some? && SyncOpen(Before(start, events, n), i, k)
    requires forall j: nat | m < j <= n :: BoughtAt(Before(start, events, j), k)
    ensures SyncOpen(Before(start, events, m), i, k)
  {
    hide Step, Opening, RowsFit, Run, SyncOpen, OrdersSound;
    var b := Before(start, events, n - 1);
    RunRows(start, events, n - 1);
    BeforeNext(start, events, n - 1);
    SyncsMove(b, events[n - 1]);
    if n > m + 1 {
      OrderFacts(b, k);
      OpenBefore(start, events, i, k, m, n - 1);
    }
  }

  /** A stranded order was paid while a sync was open on it, which then cancelled it. */
  lemma {:induction false} StrandedWas(start: Books, events: seq<Event>, k: nat, t: nat) returns (i: nat, m: nat, n: nat)
    requires Opening(start) && t <= |events| && StrandedAt(Before(start, events, t), k)
    ensures n < t && Straddles(start, events, k, i, m, n)
  {
    hide Step, Opening, OrdersSound, RowsFit, BoughtAt, StrandedAt, PaysNow, RefundsNow, Run, SyncOpen;
    i, m, n := 0, 0, 0;
    NothingBought(start, events, k);
    if t > 0 {
      var b := Before(start, events, t - 1);
      RunRows(start, events, t - 1);
      BeforeNext(start, events, t - 1);
      if StrandedAt(b, k) {
        i, m, n := StrandedWas(start, events, k, t - 1);
      } else {
        BecomesStranded(b, events[t - 1], k);
        i, n := events[t - 1].call, t - 1;
        m := PaidBefore(start, events, k, n);
        PayTargets(Before(start, events, m), events[m], k);
        OpenBefore(start, events, i, k, m, n);
      }
    }
  }

  lemma PayTargets(b: Books, e: Event, k: nat)
    requires PaysNow(b, e, k)
    ensures Target(e) == Some(k)
  {
  }

  // ---------------------------------------------------------------- main results

  /**
   * Over every run: an order is voided with its purchase still standing exactly
   * when it was paid after a sync had read it and before that sync cancelled
   * it, with no refund in between.
   */
  lemma StrandedIffPaidDuringSync(start: Books, events: seq<Event>, k: nat)
    requires Opening(start)
    ensures StrandedAt(Run(start, events), k) <==> PaidDuringSync(start, events, k)
  {
    hide StrandedAt, Straddles, Run, Opening;
    AtEnd(start, events);
    if StrandedAt(Run(start, events), k) {
      var i, m, n := StrandedWas(start, events, k, |events|);
    }
    if i: nat, m: nat, n: nat :| Straddles(start, events, k, i, m, n) {
      StraddledIsStranded(start, events, k, i, m, n);
    }
  }

  /** What the status of an order promises: one entitlement per unit if it is paid, none otherwise. */
  function Owed(b: Books, k: nat, p: int): int
    requires k < |b.orders|
  {
    if b.orders[k].payment == P.PaidUp then Sum(b.orders[k].items, Units(p)) else 0
  }

  /**
   * Over every run: the active entitlements of an order on a product differ from
   * what its status promises exactly when it sells the product and was paid
   * inside a sync that cancelled it.
   */
  lemma EntitlementsDisagreeIff(start: Books, events: seq<Event>, k: nat, p: int)
    requires Opening(start) && k < |Run(start, events).orders|
    ensures var b := Run(start, events);
            Sum(b.grants, ActiveOn(k, p)) != Owed(b, k, p) <==> Sells(b.orders[k].items, p) && PaidDuringSync(start, events, k)
  {
    hide Run, Opening, PaidDuringSync;
    EntitlementsMatchPayments(start, events, k, p);
    StrandedIffPaidDuringSync(start, events, k);
    RunOrders(start, events);
    var items := Run(start, events).orders[k].items;
    OrderFacts(Run(start, events), k);
    if Sells(items, p) { SoldUnits(items, p); } else { UnsoldUnits(items, p); }
  }

  lemma SoldUnits(items: seq<Item>, p: int)
    requires Sells(items, p) && Counted(items)
    ensures Sum(items, Units(p)) >= 1
  {
    var i :| 0 <= i < |items| && items[i].kind == Study && items[i].product == p;
    SumAtLeast(items, Units(p));
    assert Units(p)(items[i]) >= 1;
  }

  /** The wallet was charged for the order, and nothing of it has gone back. */
  predicate ChargedAt(b: Books, k: nat) { StrandedAt(b, k) && Purchases(b, k) == 1 }

  lemma PurchasesGrow(b: Books, a: Books, k: nat)
    requires WalletGrows(b, a)
    ensures Purchases(a, k) >= Purchases(b, k)
  {
    if a.wallet != b.wallet {
      assert a.wallet == b.wallet + [a.wallet[|b.wallet|]];
      SumPush(b.wallet, a.wallet[|b.wallet|], CountOf(Purchase, k));
    }
  }

  lemma {:induction false} ChargedThrough(start: Books, events: seq<Event>, k: nat, n: nat, t: nat)
    requires Opening(start) && n <= t <= |events| && ChargedAt(Before(start, events, n), k)
    ensures ChargedAt(Before(start, events, t), k)
  {
    hide Step, Opening, OrdersSound, Run, Purchases, WalletGrows, StrandedAt, Sound;
    StrandedThrough(start, events, k, n, t);
    if n < t {
      ChargedThrough(start, events, k, n, t - 1);
      RunRows(start, events, t - 1);
      BeforeNext(start, events, t - 1);
      StepGrows(Before(start, events, t - 1), events[t - 1]);
      PurchasesGrow(Before(start, events, t - 1), Before(start, events, t), k);
      RunKeepsSound(start, events[..t]);
      AtMostOnePurchase(Before(start, events, t), start, k);
    }
  }

  lemma AtMostOnePurchase(b: Books, start: Books, k: nat)
    requires Sound(b, start)
    ensures Purchases(b, k) <= 1
  {
    assert PostingSound(b, k);
  }

  /**
   * Once stranded, for good: whatever is refunded, notified or replayed later,
   * the order stays voided, its entitlements stay active, and a wallet that paid
   * for it has lost the price.
   */
  lemma StrandedForever(start: Books, events: seq<Event>, more: seq<Event>, k: nat, p: int)
    requires Opening(start) && PaidDuringSync(start, events, k)
    ensures k < |Run(start, events).orders| && k < |Run(start, events + more).orders|
    ensures var o, b, a := Run(start, events).orders[k], Run(start, events), Run(start, events + more);
            && Stranded(a.orders[k]) && SameDeal(o, a.orders[k])
            && Sum(a.grants, ActiveOn(k, p)) == Sum(o.items, Units(p))
            && (Purchases(b, k) == 1 ==> Purchases(a, k) == 1 && Refunds(a, k) == 0 && Sum(a.wallet, NetOn(k)) == -o.payable)
  {
    hide Run, Opening, PaidDuringSync, Sound;
    StrandedIffPaidDuringSync(start, events, k);
    var all, n := events + more, |events|;
    assert all[..n] == events;
    AtEnd(start, all);
    StrandedThrough(start, all, k, n, |all|);
    if ChargedAt(Before(start, all, n), k) { ChargedThrough(start, all, k, n, |all|); }
    var o, a := Run(start, events).orders[k], Run(start, all);
    EntitlementsMatchPayments(start, all, k, p);
    UnitsSame(o.items, a.orders[k].items, p);
    RunKeepsSound(start, all);
    LostPrice(a, start, k);
  }

  lemma LostPrice(b: Books, start: Books, k: nat)
    requires Sound(b, start) && StrandedAt(b, k)
    ensures Refunds(b, k) == 0 && Sum(b.wallet, NetOn(k)) == (if Purchases(b, k) == 1 then -b.orders[k].payable else 0)
  {
    assert PostingSound(b, k);
  }

  /**
   * In runs with an honest provider: an order with a price that a wallet was
   * charged for ends voided with its price kept exactly when it was paid inside
   * a sync that cancelled it.
   */
  lemma PriceLostIff(start: Books, events: seq<Event>, k: nat)
    requires Opening(start) && HonestRun(start, events) && k < |Run(start, events).orders|
    requires Purchases(Run(start, events), k) == 1 && Run(start, events).orders[k].payable > 0
    ensures var b := Run(start, events); var o := b.orders[k];
            (o.payment == P.Voided && Sum(b.wallet, NetOn(k)) == -o.payable) <==> PaidDuringSync(start, events, k)
  {
    hide Run, Opening, HonestRun, PaidDuringSync, Sound;
    StrandedIffPaidDuringSync(start, events, k);
    BalanceRefundNetsToZero(start, events, k);
    RunKeepsSound(start, events);
    var b := Run(start, events);
    if StrandedAt(b, k) { LostPrice(b, start, k); }
    PurchasedWasPaid(b, start, k);
  }

  lemma PurchasedWasPaid(b: Books, start: Books, k: nat)
    requires Sound(b, start) && k < |b.orders| && Purchases(b, k) == 1
    ensures b.orders[k].paidAt
  {
    assert PostingSound(b, k);
  }

  // ---------------------------------------------------------------- a reachable case

  const BUYER := Books(map[1 := 100], [], map[7 := Product(-1, 0)], map[], [], [], multiset{}, map[], [])

  /** The sync asks the gateway about an order, which is paid from the wallet before the answer is acted on. */
  const LATE := [
    Place(1, 100, [Item(7, Study, 1, false, P.Pending)], Wechat),
    SyncRead(1, 0),
    PayBalance(1, 0, "WT1", {}),
    SyncCancel(0)]

  const BASKET := Fresh(1, 100, [Item(7, Study, 1, false, P.Pending)], Wechat)

  lemma LateCancel(newNo: string, answer: Answer, number: string)
    ensures Opening(BUYER) && PaidDuringSync(BUYER, LATE, 0)
    ensures var b := Run(BUYER, LATE);
            && StrandedAt(b, 0) && Purchases(b, 0) == 1 && Sum(b.wallet, NetOn(0)) == -100
            && Sum(b.grants, ActiveOn(0, 7)) == 1
            && Step(b, RefundByAdmin(0, newNo, answer, number)) == b
  {
    hide Step, PaysNow, SyncOpen, SyncCommits, StrandedAt, PaidDuringSync, Purchases;
    assert LATE[..4] == LATE && LATE[..0] == [];
    BeforeNext(BUYER, LATE, 0);
    BeforeNext(BUYER, LATE, 1);
    BeforeNext(BUYER, LATE, 2);
    BeforeNext(BUYER, LATE, 3);
    LateReads();
    LatePays(Before(BUYER, LATE, 2));
    LateCancels(Before(BUYER, LATE, 3), newNo, answer, number);
    StrandedIffPaidDuringSync(BUYER, LATE, 0);
    StrandedForever(BUYER, LATE, [], 0, 7);
    assert LATE + [] == LATE;
    LateUnits(Run(BUYER, LATE).orders[0]);
  }

  lemma LateReads()
    ensures Step(Step(BUYER, LATE[0]), LATE[1]) == BUYER.(orders := [BASKET], syncs := [Sync(0, BASKET, true)])
  {
    assert Step(BUYER, LATE[0]) == BUYER.(orders := [BASKET]);
  }

  /** The order as it is paid: the one unit of it, and its price. */
  predicate LateOrder(o: Order) {
    o.payable == 100 && o.user == 1 && |o.items| == 1 && Units(7)(o.items[0]) == 1 && o.refundState == NotAsked
  }

  lemma LateUnits(o: Order)
    requires LateOrder(o)
    ensures Sum(o.items, Units(7)) == 1
  {
    assert o.items == [o.items[0]];
    SumOne(o.items[0], Units(7));
  }

  lemma LatePays(b: Books)
    requires b == BUYER.(orders := [BASKET], syncs := [Sync(0, BASKET, true)])
    ensures var a := Step(b, LATE[2]);
            && a.syncs == b.syncs && a.readings == map[] && |a.orders| == 1 && LateOrder(a.orders[0])
            && SettledPaid(a.orders[0]) && Bought(a.orders[0]) && Purchases(a, 0) == 1
  {
    hide Tally, Written, Counters, Granted;
    assert Purchases(b, 0) == 0;
    PostCounts(b, 1, false, 100, Purchase, Some(0), "WT1", 0);
  }

  lemma LateCancels(b: Books, newNo: string, answer: Answer, number: string)
    requires && b.syncs == [Sync(0, BASKET, true)] && b.readings == map[] && |b.orders| == 1 && LateOrder(b.orders[0])
             && Bought(b.orders[0]) && Purchases(b, 0) == 1
    ensures var a := Step(b, LATE[3]);
            && StrandedAt(a, 0) && LateOrder(a.orders[0]) && Purchases(a, 0) == 1
            && Step(a, RefundByAdmin(0, newNo, answer, number)) == a
  {
    hide GiveBackAll, KeysBackAll;
  }
}
