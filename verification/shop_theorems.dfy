/** Main results about the life of an order. */
module ShopTheorems {
  import opened Sums
  import opened Shop
  import opened ShopHistory
  import P = OrderProtocol

  /**
   * Whatever is replayed in whatever order, every order is in one of four
   * states, and has granted each product once per unit exactly when it is paid,
   * or was voided after being paid; otherwise it has granted nothing.
   */
  lemma EntitlementsMatchPayments(start: Books, events: seq<Event>, k: nat, p: int)
    requires Opening(start) && k < |Run(start, events).orders|
    ensures var b := Run(start, events); var o := b.orders[k];
            && Pair(o)
            && Sum(b.grants, ActiveOn(k, p)) == (if o.payment == P.PaidUp || Stranded(o) then Sum(o.items, Units(p)) else 0)
            && forall i | 0 <= i < |b.grants| && b.grants[i].order == k :: b.grants[i].user == o.user
  {
    RunKeepsSound(start, events);
    var b := Run(start, events);
    assert Sum(b.grants, ActiveOn(k, p)) == Due(b, k, p);
    assert OrderSound(b.orders[k], b.balances.Keys, b.products.Keys);
  }

  /** A wallet is its opening balance plus its rows, and never negative. */
  lemma WalletConserved(start: Books, events: seq<Event>, u: nat)
    requires Opening(start) && u in start.balances
    ensures var b := Run(start, events);
            u in b.balances && b.balances[u] == start.balances[u] + Sum(b.wallet, SignedOn(u)) && b.balances[u] >= 0
  {
    RunKeepsSound(start, events);
    var b := Run(start, events);
    assert u in b.balances.Keys;
    assert b.balances[u] == Expected(start.balances, b.wallet, u);
  }

  /** Two consecutive rows of one user chain. */
  lemma WalletRowsChain(start: Books, events: seq<Event>, i: nat, j: nat)
    requires Opening(start) && i < j < |Run(start, events).wallet|
    requires var w := Run(start, events).wallet;
             w[i].user == w[j].user && forall m | i < m < j :: w[m].user != w[j].user
    ensures var w := Run(start, events).wallet; w[j].before == w[i].after
  {
    hide Run, OrdersSound, GrantsSound, HoldersSound, SalesSound, PostingsSound, Opening;
    RunKeepsSound(start, events);
    var w := Run(start, events).wallet;
    var u := w[i].user;
    assert RowChained(start.balances, w, i) && RowChained(start.balances, w, j);
    assert w[..j] == (w[..i] + [w[i]]) + w[i + 1..j];
    SumPush(w[..i], w[i], SignedOn(u));
    SumAppend(w[..i] + [w[i]], w[i + 1..j], SignedOn(u));
    SumZero(w[i + 1..j], SignedOn(u));
  }

  /** An order is charged to the wallet at most once and refunded into it at most once, for its own price. */
  lemma OnePurchaseOneRefund(start: Books, events: seq<Event>, k: nat)
    requires Opening(start) && k < |Run(start, events).orders|
    ensures var b := Run(start, events); var o := b.orders[k];
            && 0 <= Refunds(b, k) <= Purchases(b, k) <= 1
            && Sum(b.wallet, NetOn(k)) == (if Refunds(b, k) == 1 then o.payable else 0) - (if Purchases(b, k) == 1 then o.payable else 0)
            && (Refunds(b, k) == 1 ==> o.refundedAt && Sum(b.wallet, NetOn(k)) == 0)
  {
    RunKeepsSound(start, events);
    assert PostingSound(Run(start, events), k);
  }

  // ---------------------------------------------------------------- refunds the provider cannot make

  /** The provider confirms no refund of an order it was never paid for. */
  predicate Honest(b: Books, e: Event) {
    match e
    case RefundByAdmin(k, _, answer, _) => answer.state == Succeeded ==> Purchases(b, k) == 0
    case RefundNotice(k, _, answer, _) => answer.state == Succeeded ==> Purchases(b, k) == 0
    case _ => true
  }

  predicate HonestRun(start: Books, events: seq<Event>)
    decreases |events|
  {
    events == [] || (HonestRun(start, events[..|events| - 1]) && Honest(Run(start, events[..|events| - 1]), events[|events| - 1]))
  }

  /** Money taken from a wallet for an order that has been refunded has gone back. */
  predicate Returned(b: Books, k: nat) {
    k < |b.orders| && b.orders[k].refundedAt && Purchases(b, k) == 1 ==> Refunds(b, k) == 1
  }

  lemma FinalizeReturns(b: Books, k: nat, no: string, id: string, toWallet: bool, number: string, j: nat)
    requires PostingSound(b, k) && Returned(b, j)
    requires toWallet || Purchases(b, k) == 0
    ensures Returned(After(b, FinalizeRefund(b, k, no, id, toWallet, number)), j)
  {
    RefundRowCounted(b, k);
    if k < |b.orders| && b.orders[k].user in b.balances {
      PostCounts(b, b.orders[k].user, true, b.orders[k].payable, Refund, Some(k), number, j);
    }
  }

  lemma NotedReturns(b: Books, k: nat, no: Option<string>, state: RefundState, id: string, j: nat)
    requires PostingSound(b, k) && Returned(b, j) && k < |b.orders|
    ensures var c := Noted(b, k, no, state, id); PostingSound(c, k) && Returned(c, j) && Purchases(c, k) == Purchases(b, k)
  {
  }

  lemma AdminReturns(b: Books, k: nat, newNo: string, answer: Answer, number: string, j: nat)
    requires PostingSound(b, k) && Returned(b, j)
    requires answer.state == Succeeded ==> Purchases(b, k) == 0
    ensures Returned(After(b, AdminRefund(b, k, newNo, answer, number)), j)
  {
    hide FinalizeRefund, PostingSound, SettledPaid, RefundNoTaken;
    if k < |b.orders| {
      var o := b.orders[k];
      var no := if Text(o.refundNo) != "" then Text(o.refundNo) else newNo;
      var c := Noted(b, k, Some(no), answer.state, answer.id);
      NotedReturns(b, k, o.refundNo, answer.state, answer.id, j);
      NotedReturns(b, k, Some(no), answer.state, answer.id, j);
      if answer.state == Succeeded {
        FinalizeReturns(b, k, Text(o.refundNo), answer.id, false, number, j);
        FinalizeReturns(c, k, no, answer.id, false, number, j);
      }
      if o.channel == Balance {
        FinalizeReturns(b, k, no, "", true, number, j);
      } else if o.channel == Mock {
        FinalizeReturns(b, k, no, "", false, number, j);
      }
    }
  }

  /** The step posts nothing, refunds nothing, and undoes no payment. */
  predicate Tame(b: Books, a: Books, j: nat) {
    && a.wallet == b.wallet
    && (j < |a.orders| && a.orders[j].refundedAt ==> j < |b.orders| && b.orders[j].refundedAt)
    && (j < |b.orders| && Bought(b.orders[j]) ==>
         j < |a.orders| && Bought(a.orders[j]) && (a.orders[j].channel == b.orders[j].channel || a.orders[j].channel == Wechat))
  }

  lemma MarkTame(b: Books, k: nat, channel: Channel, transaction: string, plans: set<int>, j: nat)
    requires OrdersSound(b)
    ensures Tame(b, After(b, MarkPaid(b, k, channel, transaction, plans)), j)
  {
    hide Tally, Written, Counters, Granted, PayItems;
  }

  lemma CancelTame(b: Books, k: nat, j: nat)
    requires OrdersSound(b)
    ensures Tame(b, After(b, CancelUnpaid(b, k)), j)
  {
    hide GiveBackAll, KeysBackAll, CloseItems;
  }

  lemma SyncTame(b: Books, e: Event, j: nat)
    requires e.SyncRead? || e.SyncItems? || e.SyncCancel?
    ensures Tame(b, Step(b, e), j)
  {
    hide GiveBackAll, KeysBackAll, CloseItems;
  }

  predicate MovesMoney(e: Event) { e.PayBalance? || e.Adjust? || e.RefundByAdmin? || e.RefundNotice? }

  lemma TameSelf(b: Books, j: nat)
    ensures Tame(b, b, j)
  {
  }

  lemma StepTame(b: Books, e: Event, j: nat)
    requires OrdersSound(b) && !MovesMoney(e)
    ensures Tame(b, Step(b, e), j)
  {
    hide MarkPaid, CancelUnpaid, Tame;
    TameSelf(b, j);
    match e
    case PayMock(k, transaction, plans) => MarkTame(b, k, Mock, transaction, plans, j);
    case Notify(k, transaction, plans) => MarkTame(b, k, Wechat, transaction, plans, j);
    case Timeout(k, configured, gateway, plans) =>
      CancelTame(b, k, j);
      if gateway.Success? { MarkTame(b, k, Wechat, gateway.transaction, plans, j); }
    case _ => OtherTame(b, e, j);
  }

  lemma OtherTame(b: Books, e: Event, j: nat)
    requires !MovesMoney(e) && !e.PayMock? && !e.Notify? && !e.Timeout?
    ensures Tame(b, Step(b, e), j)
  {
    hide Step, Tame;
    if e.SyncRead? || e.SyncItems? || e.SyncCancel? {
      SyncTame(b, e, j);
    } else {
      PlainTame(b, e, j);
    }
  }

  lemma PlainTame(b: Books, e: Event, j: nat)
    requires !MovesMoney(e) && !e.PayMock? && !e.Notify? && !e.Timeout? && !e.SyncRead? && !e.SyncItems? && !e.SyncCancel?
    ensures Tame(b, Step(b, e), j)
  {
    hide Orderable, Tame, RequestRefund, StampWechat, OpenWechat, BeginPayment, Blocked, Bought;
    TameSelf(b, j);
    match e
    case Place(user, payable, items, channel) => PlacedTame(b, Fresh(user, payable, items, channel), j);
    case AskRefund(user, k) => AskTame(b, user, k, j);
    case Stamp(k) => StampTame(b, k, j);
    case StartWechat(user, k) => OpenTame(b, user, k, j);
    case BeginPay(k) => BeginTame(b, k, j);
    case _ => RowsTame(b, Step(b, e), j);
  }

  lemma PlacedTame(b: Books, o: Order, j: nat)
    requires !o.refundedAt
    ensures Tame(b, b.(orders := b.orders + [o]), j)
  {
  }

  lemma AskTame(b: Books, user: nat, k: nat, j: nat)
    ensures Tame(b, After(b, RequestRefund(b, user, k)), j)
  {
  }

  lemma StampTame(b: Books, k: nat, j: nat)
    ensures Tame(b, After(b, StampWechat(b, k)), j)
  {
  }

  lemma OpenTame(b: Books, user: nat, k: nat, j: nat)
    ensures Tame(b, After(b, OpenWechat(b, user, k)), j)
  {
  }

  lemma BeginTame(b: Books, k: nat, j: nat)
    ensures Tame(b, After(b, BeginPayment(b, k)), j)
  {
    hide Counters;
  }

  lemma RowsTame(b: Books, a: Books, j: nat)
    ensures a.wallet == b.wallet && a.orders == b.orders ==> Tame(b, a, j)
  {
  }

  lemma BuyReturns(b: Books, user: nat, k: nat, number: string, plans: set<int>, j: nat)
    requires OrdersSound(b) && Returned(b, j)
    ensures Returned(After(b, PayWithBalance(b, user, k, number, plans)), j)
    ensures Misfiled(b, j) ==> Misfiled(After(b, PayWithBalance(b, user, k, number, plans)), j)
  {
    hide Tally, Written, Counters, Granted, PayItems, Post, CountOf, Sum;
    var result := PayWithBalance(b, user, k, number, plans);
    if result.Done? && result.books != b {
      PostFrame(b, user, false, b.orders[k].payable, Purchase, Some(k), number);
      PostCounts(b, user, false, b.orders[k].payable, Purchase, Some(k), number, j);
    }
  }

  lemma AdjustReturns(b: Books, user: nat, income: bool, amount: nat, number: string, j: nat)
    requires Returned(b, j)
    ensures Returned(After(b, AdjustWallet(b, user, income, amount, number)), j)
    ensures Misfiled(b, j) ==> Misfiled(After(b, AdjustWallet(b, user, income, amount, number)), j)
  {
    hide Post, CountOf, Sum;
    if user in b.balances {
      PostFrame(b, user, income, amount, Adjustment, None, number);
      PostCounts(b, user, income, amount, Adjustment, None, number, j);
    }
  }

  lemma NoticeReturns(b: Books, k: nat, no: string, answer: Answer, number: string, j: nat)
    requires PostingSound(b, k) && Returned(b, j)
    requires answer.state == Succeeded ==> Purchases(b, k) == 0
    ensures Returned(After(b, RefundNotified(b, k, no, answer, number)), j)
  {
    hide FinalizeRefund;
    if answer.state == Succeeded {
      FinalizeReturns(b, k, no, answer.id, false, number, j);
    }
  }

  lemma StepReturns(start: Books, b: Books, e: Event, j: nat)
    requires Sound(b, start) && Returned(b, j) && Honest(b, e)
    ensures Returned(Step(b, e), j)
  {
    hide GrantsSound, SalesSound, HoldersSound, WalletSound, PostingSound, RefundNotified, AdminRefund, PayWithBalance;
    hide AdjustWallet, MarkPaid, WechatPaid, TimeOut, CancelUnpaid, RequestRefund, OpenWechat, StampWechat, Orderable;
    if !MovesMoney(e) {
      StepTame(b, e, j);
    } else {
      match e
      case RefundByAdmin(k, newNo, answer, number) =>
        assert PostingSound(b, k);
        AdminReturns(b, k, newNo, answer, number, j);
      case RefundNotice(k, no, answer, number) =>
        assert PostingSound(b, k);
        NoticeReturns(b, k, no, answer, number, j);
      case PayBalance(user, k, number, plans) => BuyReturns(b, user, k, number, plans, j);
      case Adjust(user, income, amount, number) => AdjustReturns(b, user, income, amount, number, j);
    }
  }

  /** An order paid from the wallet and later refunded nets to zero, as long as the provider is honest. */
  lemma {:induction false} BalanceRefundNetsToZero(start: Books, events: seq<Event>, k: nat)
    requires Opening(start) && HonestRun(start, events)
    ensures var b := Run(start, events);
            && Returned(b, k)
            && (k < |b.orders| && b.orders[k].refundedAt ==> Sum(b.wallet, NetOn(k)) == 0)
  {
    hide Step, Opening, Honest, PostingSound, GrantsSound, SalesSound, HoldersSound, WalletSound;
    RunKeepsSound(start, events);
    if events == [] {
      EmptyReturned(start, k);
    } else {
      BalanceRefundNetsToZero(start, events[..|events| - 1], k);
      RunKeepsSound(start, events[..|events| - 1]);
      StepReturns(start, Run(start, events[..|events| - 1]), events[|events| - 1], k);
    }
    RefundedNet(Run(start, events), k);
  }

  lemma EmptyReturned(start: Books, k: nat)
    requires Opening(start)
    ensures Returned(start, k)
  {
  }

  lemma RefundedNet(b: Books, k: nat)
    requires PostingsSound(b)
    ensures Returned(b, k) && k < |b.orders| && b.orders[k].refundedAt ==> Sum(b.wallet, NetOn(k)) == 0
  {
    assert PostingSound(b, k);
  }

  /** Bought from the wallet, but recorded as paid through WeChat. */
  predicate Misfiled(b: Books, k: nat) {
    k < |b.orders| && Bought(b.orders[k]) && b.orders[k].channel == Wechat && Purchases(b, k) == 1
  }

  /** A refund of order j leaves the purchases of every order, and every other order, as they were. */
  lemma FinalizeElsewhere(b: Books, j: nat, no: string, id: string, toWallet: bool, number: string, k: nat)
    requires Misfiled(b, k) && k != j
    ensures Misfiled(After(b, FinalizeRefund(b, j, no, id, toWallet, number)), k)
  {
    hide Post, CountOf, Sum, GiveBackAll, CloseItems, LapseAll;
    if j < |b.orders| && b.orders[j].user in b.balances {
      PostFrame(b, b.orders[j].user, true, b.orders[j].payable, Refund, Some(j), number);
      PostCounts(b, b.orders[j].user, true, b.orders[j].payable, Refund, Some(j), number, k);
    }
  }

  lemma AdminKeepsMisfiled(b: Books, j: nat, newNo: string, answer: Answer, number: string, k: nat)
    requires Misfiled(b, k)
    requires answer.state == Succeeded ==> Purchases(b, j) == 0
    ensures Misfiled(After(b, AdminRefund(b, j, newNo, answer, number)), k)
  {
    hide FinalizeRefund, CountOf, Sum;
    if j < |b.orders| {
      var o := b.orders[j];
      var no := if Text(o.refundNo) != "" then Text(o.refundNo) else newNo;
      var c := Noted(b, j, Some(no), answer.state, answer.id);
      if j != k {
        FinalizeElsewhere(b, j, Text(o.refundNo), answer.id, false, number, k);
        FinalizeElsewhere(b, j, no, "", o.channel == Balance, number, k);
        FinalizeElsewhere(c, j, no, answer.id, false, number, k);
      }
    }
  }

  lemma NoticeKeepsMisfiled(b: Books, j: nat, no: string, answer: Answer, number: string, k: nat)
    requires Misfiled(b, k)
    requires answer.state == Succeeded ==> Purchases(b, j) == 0
    ensures Misfiled(After(b, RefundNotified(b, j, no, answer, number)), k)
  {
    hide FinalizeRefund, CountOf, Sum;
    if j != k {
      FinalizeElsewhere(b, j, no, answer.id, false, number, k);
    }
  }

  lemma StepKeepsMisfiled(b: Books, e: Event, k: nat)
    requires OrdersSound(b) && Misfiled(b, k) && Returned(b, k) && Honest(b, e)
    ensures Misfiled(Step(b, e), k)
  {
    hide RefundNotified, AdminRefund, PayWithBalance, AdjustWallet, MarkPaid, WechatPaid, TimeOut, CancelUnpaid, RequestRefund, OpenWechat, StampWechat, Orderable;
    if !MovesMoney(e) {
      StepTame(b, e, k);
    } else {
      match e
      case RefundByAdmin(j, newNo, answer, number) => AdminKeepsMisfiled(b, j, newNo, answer, number, k);
      case RefundNotice(j, no, answer, number) => NoticeKeepsMisfiled(b, j, no, answer, number, k);
      case PayBalance(user, j, number, plans) => BuyReturns(b, user, j, number, plans, k);
      case Adjust(user, income, amount, number) => AdjustReturns(b, user, income, amount, number, k);
    }
  }

  lemma MisfiledReturned(b: Books, k: nat)
    requires Misfiled(b, k)
    ensures Returned(b, k)
  {
  }

  /** Once an order is misfiled, no honest run ever refunds it. */
  lemma {:induction false} MisfiledForever(start: Books, events: seq<Event>, more: seq<Event>, k: nat)
    requires Opening(start) && HonestRun(start, events + more) && Misfiled(Run(start, events), k)
    ensures Misfiled(Run(start, events + more), k)
  {
    hide Step, Opening, Honest, Sound, Misfiled;
    if more == [] {
      assert events + more == events;
    } else {
      var front := more[..|more| - 1];
      assert (events + more)[..|events + more| - 1] == events + front;
      MisfiledForever(start, events, front, k);
      MisfiledReturned(Run(start, events + front), k);
      RunOrders(start, events + front);
      StepKeepsMisfiled(Run(start, events + front), more[|more| - 1], k);
    }
  }

  /**
   * An administrator's refund of an order that a wallet was charged for reaches
   * the wallet if and only if the order is still paid and still filed under the
   * wallet channel.
   */
  lemma RefundReachesWalletIffFiled(start: Books, events: seq<Event>, k: nat, newNo: string, answer: Answer, number: string)
    requires Opening(start) && k < |Run(start, events).orders|
    requires Chargeable(Run(start, events), k, newNo, answer, number)
    ensures RefundPays(Run(start, events), k, newNo, answer, number)
  {
    hide Run, Sound, Chargeable, RefundPays, Opening;
    RunKeepsSound(start, events);
    WalletRefundIffFiled(Run(start, events), start, k, newNo, answer, number);
  }

  /** The wallet was charged and not refunded, the provider is honest, and the numbers of the refund are new. */
  predicate Chargeable(b: Books, k: nat, newNo: string, answer: Answer, number: string)
    requires k < |b.orders|
  {
    && Bought(b.orders[k]) && Purchases(b, k) == 1 && Honest(b, RefundByAdmin(k, newNo, answer, number))
    && !NumberTaken(b.wallet, number) && !RefundNoTaken(b.orders, k, newNo)
    && (b.orders[k].refundNo.Some? ==> !RefundNoTaken(b.orders, k, b.orders[k].refundNo.value))
  }

  predicate RefundPays(b: Books, k: nat, newNo: string, answer: Answer, number: string)
    requires k < |b.orders|
  {
    var a, o := Step(b, RefundByAdmin(k, newNo, answer, number)), b.orders[k];
    var pays := o.payment == P.PaidUp && o.channel == Balance;
    && (k < |a.orders| && a.orders[k].refundedAt <==> pays)
    && o.user in b.balances && o.user in a.balances
    && a.balances[o.user] == b.balances[o.user] + (if pays then o.payable else 0)
  }

  lemma NotInProgress(b: Books, start: Books, k: nat)
    requires Sound(b, start) && k < |b.orders| && Bought(b.orders[k])
    ensures k !in b.readings
  {
    OrderFacts(b, k);
    assert k in b.readings ==> ReadingSound(b, k);
  }

  lemma WalletRefundIffFiled(b: Books, start: Books, k: nat, newNo: string, answer: Answer, number: string)
    requires Sound(b, start) && k < |b.orders| && Chargeable(b, k, newNo, answer, number)
    ensures RefundPays(b, k, newNo, answer, number)
  {
    hide GrantsSound, SalesSound, HoldersSound, WalletSound, GiveBackAll, KeysBackAll, CloseItems, LapseAll, RefundRowExists, NumberTaken, RefundNoTaken;
    assert PostingSound(b, k);
    OrderFacts(b, k);
    RefundRowCounted(b, k);
    NotInProgress(b, start, k);
  }

  const SHOPPER := Books(map[1 := 100], [], map[7 := Product(-1, 0)], map[], [], [], multiset{}, map[], [])

  /** Opening a WeChat payment and paying from the wallet while the gateway answers. */
  const MISFILING := [
    Place(1, 100, [Item(7, Study, 1, false, P.Pending)], Balance),
    StartWechat(1, 0),
    PayBalance(1, 0, "WT1", {}),
    Stamp(0)]

  /** The channel column is written without the row lock, so a misfiled order is reachable. */
  lemma MisfiledReachable()
    ensures Opening(SHOPPER) && HonestRun(SHOPPER, MISFILING)
    ensures Misfiled(Run(SHOPPER, MISFILING), 0)
  {
    hide Step, Misfiled, HonestRun, SettledPaid, Purchases;
    var e := MISFILING;
    assert e[..4] == e && e[..4][..3] == e[..3] && e[..3][..2] == e[..2] && e[..2][..1] == e[..1] && e[..1][..0] == [];
    var b1 := Step(SHOPPER, e[0]);
    var b2 := Step(b1, e[1]);
    var b3 := Step(b2, e[2]);
    assert Run(SHOPPER, e[..1]) == b1;
    assert Run(SHOPPER, e[..2]) == b2;
    assert Run(SHOPPER, e[..3]) == b3;
    assert Run(SHOPPER, e) == Step(b3, e[3]);
    RefundFreeHonest(SHOPPER, e);
    MisfilingOpens(b1, b2);
    MisfilingPays(b2);
    MisfilingStamps(b3);
  }

  lemma {:induction false} RefundFreeHonest(start: Books, events: seq<Event>)
    requires forall i | 0 <= i < |events| :: !events[i].RefundByAdmin? && !events[i].RefundNotice?
    ensures HonestRun(start, events)
  {
    if events != [] {
      RefundFreeHonest(start, events[..|events| - 1]);
    }
  }

  const BASKET := Fresh(1, 100, [Item(7, Study, 1, false, P.Pending)], Balance)

  lemma MisfilingOpens(b1: Books, b2: Books)
    requires b1 == Step(SHOPPER, MISFILING[0]) && b2 == Step(b1, MISFILING[1])
    ensures b2 == SHOPPER.(orders := [BASKET], stamps := multiset{0})
  {
    assert b1 == SHOPPER.(orders := [BASKET]);
  }

  lemma MisfilingPays(b2: Books)
    requires b2 == SHOPPER.(orders := [BASKET], stamps := multiset{0})
    ensures var b3 := Step(b2, MISFILING[2]);
            b3.stamps == multiset{0} && b3.readings == map[] && |b3.orders| == 1 && Bought(b3.orders[0]) && Purchases(b3, 0) == 1
  {
    hide Tally, Written, Counters, Granted, PayItems;
    assert Purchases(b2, 0) == 0;
    PostCounts(b2, 1, false, 100, Purchase, Some(0), "WT1", 0);
  }

  lemma MisfilingStamps(b3: Books)
    requires b3.stamps == multiset{0} && b3.readings == map[] && |b3.orders| == 1 && Bought(b3.orders[0]) && Purchases(b3, 0) == 1
    ensures Misfiled(Step(b3, MISFILING[3]), 0)
  {
  }

  // ---------------------------------------------------------------- what the timeout reports

  /** The call does not fail and answers that it changed the order. */
  predicate ReportGiven(b: Books, k: nat, configured: bool, gateway: Gateway, plans: set<int>) {
    TimeOut(b, k, configured, gateway, plans).Done? && Reported(b, k, configured, gateway)
  }

  /** The call took the order out of pending. */
  predicate Ended(b: Books, k: nat, configured: bool, gateway: Gateway, plans: set<int>) {
    var a := After(b, TimeOut(b, k, configured, gateway, plans));
    k < |b.orders| && k < |a.orders| && b.orders[k].status == P.Pending && a.orders[k].status != P.Pending
  }

  /** The order was paid before, and the gateway is asked and says so. */
  predicate AlreadyPaid(b: Books, k: nat, configured: bool, gateway: Gateway) {
    k < |b.orders| && SettledPaid(b.orders[k]) && b.orders[k].channel == Wechat && configured && gateway.Success?
  }

  lemma ReportIff(b: Books, start: Books, k: nat, configured: bool, gateway: Gateway, plans: set<int>)
    requires Sound(b, start)
    ensures ReportGiven(b, k, configured, gateway, plans)
            <==> Ended(b, k, configured, gateway, plans) || AlreadyPaid(b, k, configured, gateway)
    ensures AlreadyPaid(b, k, configured, gateway) ==> TimeOut(b, k, configured, gateway, plans) == Done(b)
  {
    hide GrantsSound, SalesSound, HoldersSound, WalletSound, PostingsSound, GiveBackAll, KeysBackAll, Tally, Written, Counters, Granted, PayItems, CloseItems;
    if k < |b.orders| { OrderFacts(b, k); }
  }

  /**
   * In every reachable state a timeout reports a change exactly when it ends
   * the order, or when the order is paid already, filed under WeChat, and the
   * gateway says so: then it reports a change and changes nothing.
   */
  lemma TimeoutReportIff(start: Books, events: seq<Event>, k: nat, configured: bool, gateway: Gateway, plans: set<int>)
    requires Opening(start)
    ensures var b := Run(start, events);
            && (ReportGiven(b, k, configured, gateway, plans)
                <==> Ended(b, k, configured, gateway, plans) || AlreadyPaid(b, k, configured, gateway))
            && (AlreadyPaid(b, k, configured, gateway) ==> TimeOut(b, k, configured, gateway, plans) == Done(b))
  {
    hide Run, Sound, TimeOut, Reported, Opening;
    RunKeepsSound(start, events);
    ReportIff(Run(start, events), start, k, configured, gateway, plans);
  }

  /** The state in which the sweep handles its j-th order. */
  function SweptTo(b: Books, rows: seq<nat>, configured: bool, answers: seq<Gateway>, plans: set<int>, j: nat): Books
    requires |answers| == |rows| && j <= |rows|
  {
    Sweep(b, rows[..j], configured, answers[..j], plans).0
  }

  /** At its turn, order k was ended by the sweep or had been paid before. */
  predicate ListedAt(b: Books, rows: seq<nat>, configured: bool, answers: seq<Gateway>, plans: set<int>, k: nat, j: nat)
    requires |answers| == |rows| && j < |rows|
  {
    var c := SweptTo(b, rows, configured, answers, plans, j);
    rows[j] == k && (Ended(c, k, configured, answers[j], plans) || AlreadyPaid(c, k, configured, answers[j]))
  }

  lemma {:induction false} SweepKeepsSound(b: Books, start: Books, rows: seq<nat>, configured: bool, answers: seq<Gateway>, plans: set<int>)
    requires Sound(b, start) && |answers| == |rows|
    ensures Sound(Sweep(b, rows, configured, answers, plans).0, start)
  {
    hide Sound, TimeOut, Reported;
    if rows == [] {
    } else {
      var n := |rows| - 1;
      SweepKeepsSound(b, start, rows[..n], configured, answers[..n], plans);
      TimeOutKeepsSound(Sweep(b, rows[..n], configured, answers[..n], plans).0, start, rows[n], configured, answers[n], plans);
    }
  }

  /** The call on order j is an exception: a missing order or an unreachable gateway is not. */
  predicate CutAt(b: Books, rows: seq<nat>, configured: bool, answers: seq<Gateway>, plans: set<int>, j: nat)
    requires |answers| == |rows| && j < |rows|
  {
    var c := SweptTo(b, rows, configured, answers, plans, j);
    var o := TimeOut(c, rows[j], configured, answers[j], plans);
    rows[j] < |c.orders| && o.Raised? && o.error != GatewayUnavailable
  }

  lemma {:induction false} SweepStopped(b: Books, rows: seq<nat>, configured: bool, answers: seq<Gateway>, plans: set<int>, i: nat)
    requires |answers| == |rows| && i <= |rows| && Sweep(b, rows[..i], configured, answers[..i], plans).1.None?
    ensures Sweep(b, rows, configured, answers, plans) == Sweep(b, rows[..i], configured, answers[..i], plans)
  {
    if i < |rows| {
      var n := |rows| - 1;
      assert rows[..n][..i] == rows[..i] && answers[..n][..i] == answers[..i];
      SweepStopped(b, rows[..n], configured, answers[..n], plans, i);
    } else {
      assert rows[..i] == rows && answers[..i] == answers;
    }
  }

  /** A sweep has no list exactly when it met an exception. */
  lemma {:induction false} SweepNoneIff(b: Books, rows: seq<nat>, configured: bool, answers: seq<Gateway>, plans: set<int>)
    requires |answers| == |rows|
    ensures Sweep(b, rows, configured, answers, plans).1.None? <==> exists j | 0 <= j < |rows| :: CutAt(b, rows, configured, answers, plans, j)
  {
    hide TimeOut, Reported;
    if rows != [] {
      var n := |rows| - 1;
      SweepNoneIff(b, rows[..n], configured, answers[..n], plans);
      SweptFront(b, rows, configured, answers, plans);
      if Sweep(b, rows[..n], configured, answers[..n], plans).1.Some? {
        assert CutAt(b, rows, configured, answers, plans, n) <==> Sweep(b, rows, configured, answers, plans).1.None?;
      } else {
        var j :| 0 <= j < n && CutAt(b, rows[..n], configured, answers[..n], plans, j);
        assert CutAt(b, rows, configured, answers, plans, j);
      }
    }
  }

  /** No exception up to order j. */
  predicate Uncut(b: Books, rows: seq<nat>, configured: bool, answers: seq<Gateway>, plans: set<int>, j: nat)
    requires |answers| == |rows| && j <= |rows|
  {
    forall i | 0 <= i < j :: !CutAt(b, rows, configured, answers, plans, i)
  }

  lemma UncutRuns(b: Books, rows: seq<nat>, configured: bool, answers: seq<Gateway>, plans: set<int>, j: nat)
    requires |answers| == |rows| && j <= |rows| && Uncut(b, rows, configured, answers, plans, j)
    ensures Sweep(b, rows[..j], configured, answers[..j], plans).1.Some?
  {
    hide TimeOut, Reported, Sweep;
    SweepNoneIff(b, rows[..j], configured, answers[..j], plans);
    forall i | 0 <= i < j ensures !CutAt(b, rows[..j], configured, answers[..j], plans, i) {
      assert rows[..j][..i] == rows[..i] && answers[..j][..i] == answers[..i];
      assert SweptTo(b, rows[..j], configured, answers[..j], plans, i) == SweptTo(b, rows, configured, answers, plans, i);
      assert !CutAt(b, rows, configured, answers, plans, i);
    }
  }

  /** Up to its first exception a sweep handles order after order, and there it stops, keeping what it did. */
  lemma SweepRuns(b: Books, rows: seq<nat>, configured: bool, answers: seq<Gateway>, plans: set<int>, j: nat)
    requires |answers| == |rows| && j < |rows| && Uncut(b, rows, configured, answers, plans, j)
    ensures SweptTo(b, rows, configured, answers, plans, 0) == b
    ensures var c := SweptTo(b, rows, configured, answers, plans, j);
            if CutAt(b, rows, configured, answers, plans, j) then Sweep(b, rows, configured, answers, plans) == (c, None)
            else SweptTo(b, rows, configured, answers, plans, j + 1) == After(c, TimeOut(c, rows[j], configured, answers[j], plans))
  {
    hide TimeOut, Reported, Uncut;
    UncutRuns(b, rows, configured, answers, plans, j);
    assert rows[..0] == [] && answers[..0] == [];
    assert rows[..j + 1][..j] == rows[..j] && answers[..j + 1][..j] == answers[..j];
    if CutAt(b, rows, configured, answers, plans, j) {
      SweepStopped(b, rows, configured, answers, plans, j + 1);
    }
  }

  lemma SweptFront(b: Books, rows: seq<nat>, configured: bool, answers: seq<Gateway>, plans: set<int>)
    requires rows != [] && |answers| == |rows|
    ensures var n := |rows| - 1;
            && (forall j | 0 <= j <= n :: SweptTo(b, rows[..n], configured, answers[..n], plans, j) == SweptTo(b, rows, configured, answers, plans, j))
            && (forall j | 0 <= j < n :: CutAt(b, rows[..n], configured, answers[..n], plans, j) <==> CutAt(b, rows, configured, answers, plans, j))
  {
    hide Sweep, TimeOut;
    var n := |rows| - 1;
    forall j | 0 <= j <= n
      ensures SweptTo(b, rows[..n], configured, answers[..n], plans, j) == SweptTo(b, rows, configured, answers, plans, j)
    {
      assert rows[..n][..j] == rows[..j] && answers[..n][..j] == answers[..j];
    }
  }

  /**
   * A sweep that is not cut short lists exactly the orders that it ended or
   * that had been paid before their turn came.
   */
  lemma {:induction false} SweepListsIff(b: Books, start: Books, rows: seq<nat>, configured: bool, answers: seq<Gateway>, plans: set<int>, k: nat)
    requires Sound(b, start) && |answers| == |rows| && Sweep(b, rows, configured, answers, plans).1.Some?
    ensures k in Sweep(b, rows, configured, answers, plans).1.value
            <==> exists j | 0 <= j < |rows| :: ListedAt(b, rows, configured, answers, plans, k, j)
  {
    hide Sound, TimeOut, Reported, Ended, AlreadyPaid, Aborts;
    if rows == [] {
    } else {
      var n := |rows| - 1;
      var c := Sweep(b, rows[..n], configured, answers[..n], plans).0;
      SweepListsIff(b, start, rows[..n], configured, answers[..n], plans, k);
      SweepKeepsSound(b, start, rows[..n], configured, answers[..n], plans);
      ReportIff(c, start, rows[n], configured, answers[n], plans);
      ReportOrAnswer(c, rows[n], configured, answers[n], plans);
      ListedFront(b, rows, configured, answers, plans, k);
    }
  }

  lemma ReportOrAnswer(b: Books, k: nat, configured: bool, gateway: Gateway, plans: set<int>)
    ensures Reported(b, k, configured, gateway) && !Aborts(b, k, TimeOut(b, k, configured, gateway, plans))
            ==> ReportGiven(b, k, configured, gateway, plans)
  {
    hide Tally, Written, Counters, Granted, PayItems, GiveBackAll, KeysBackAll, CloseItems;
  }

  lemma ListedFront(b: Books, rows: seq<nat>, configured: bool, answers: seq<Gateway>, plans: set<int>, k: nat)
    requires rows != [] && |answers| == |rows|
    ensures var n := |rows| - 1;
            (exists j | 0 <= j < |rows| :: ListedAt(b, rows, configured, answers, plans, k, j))
            <==> (exists j | 0 <= j < n :: ListedAt(b, rows[..n], configured, answers[..n], plans, k, j))
                 || ListedAt(b, rows, configured, answers, plans, k, n)
  {
    hide Ended, AlreadyPaid, Sweep;
    var n := |rows| - 1;
    forall j | 0 <= j < n
      ensures ListedAt(b, rows[..n], configured, answers[..n], plans, k, j) <==> ListedAt(b, rows, configured, answers, plans, k, j)
    {
      assert rows[..n][..j] == rows[..j] && answers[..n][..j] == answers[..j];
    }
  }

  /** Placed, paid through WeChat, and still handed to the timeout. */
  const PAID_EARLY := [
    Place(1, 100, [Item(7, Study, 1, false, P.Pending)], Wechat),
    Notify(0, "TX1", {})]

  /** The ordinary case: the order has been paid in time, the timeout reports a change and makes none. */
  lemma PaidOrderReported()
    ensures var b := Run(SHOPPER, PAID_EARLY);
            ReportGiven(b, 0, true, Success("TX1"), {}) && TimeOut(b, 0, true, Success("TX1"), {}) == Done(b)
  {
    hide WechatPaid, TimeOut, Tally, Written, Counters, Granted, PayItems;
    var e := PAID_EARLY;
    var o := Fresh(1, 100, [Item(7, Study, 1, false, P.Pending)], Wechat);
    assert e[..2] == e && e[..2][..1] == e[..1] && e[..1][..0] == [];
    var b1 := SHOPPER.(orders := [o]);
    assert Run(SHOPPER, e[..1]) == Step(SHOPPER, e[0]) == b1;
    assert Run(SHOPPER, e) == Step(b1, e[1]);
    EarlyPayment(b1);
    TimeoutReportIff(SHOPPER, e, 0, true, Success("TX1"), {});
  }

  lemma EarlyPayment(b: Books)
    requires |b.orders| == 1 && b.orders[0] == Fresh(1, 100, [Item(7, Study, 1, false, P.Pending)], Wechat)
    ensures AlreadyPaid(Step(b, PAID_EARLY[1]), 0, true, Success("TX1"))
  {
    hide Tally, Written, Counters, Granted, PayItems;
  }
}
