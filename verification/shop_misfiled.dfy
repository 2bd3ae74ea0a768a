/**
 * Orders bought from a wallet but filed under WeChat: exactly those whose
 * payment falls between the opening of a WeChat session and its late stamp.
 */
module ShopMisfiled {
  import opened Sums
  import opened Shop
  import opened ShopHistory
  import opened ShopCounters
  import opened ShopTheorems
  import opened ShopStranded
  import P = OrderProtocol

  /** The event pays order k from the wallet. */
  predicate Charges(b: Books, e: Event, k: nat) { e.PayBalance? && e.order == k && PaysNow(b, e, k) }

  /**
   * Order k is paid from the wallet at m, while a WeChat session opened on it
   * has not been stamped, and a session is stamped on it at n, after that.
   */
  predicate StampedLate(start: Books, events: seq<Event>, k: nat, m: nat, n: nat) {
    && m < n < |events| && Charges(Before(start, events, m), events[m], k) && k in Before(start, events, m).stamps
    && events[n] == Stamp(k) && k in Before(start, events, n).stamps
  }

  ghost predicate EverStampedLate(start: Books, events: seq<Event>, k: nat) {
    exists m: nat, n: nat :: StampedLate(start, events, k, m, n)
  }

  // ---------------------------------------------------------------- purchases

  lemma FinalizePurchases(b: Books, j: nat, no: string, id: string, toWallet: bool, number: string, k: nat)
    ensures Purchases(After(b, FinalizeRefund(b, j, no, id, toWallet, number)), k) == Purchases(b, k)
  {
    hide GiveBackAll, KeysBackAll, CloseItems, LapseAll, RefundRowExists, NumberTaken, RefundNoTaken, CountOf, Sum;
    if j < |b.orders| && b.orders[j].user in b.balances {
      PostCounts(b, b.orders[j].user, true, b.orders[j].payable, Refund, Some(j), number, k);
    }
  }

  lemma RefundPurchases(b: Books, e: Event, k: nat)
    requires e.RefundByAdmin? || e.RefundNotice?
    ensures Purchases(After(b, Execute(b, e)), k) == Purchases(b, k)
  {
    hide FinalizeRefund, CountOf, Sum, RefundNoTaken;
    match e
    case RefundByAdmin(j, newNo, answer, number) =>
      if j < |b.orders| {
        var o := b.orders[j];
        var no := if Text(o.refundNo) != "" then Text(o.refundNo) else newNo;
        FinalizePurchases(b, j, Text(o.refundNo), answer.id, false, number, k);
        FinalizePurchases(b, j, no, "", o.channel == Balance, number, k);
        FinalizePurchases(Noted(b, j, Some(no), answer.state, answer.id), j, no, answer.id, false, number, k);
      }
    case RefundNotice(j, no, answer, number) => FinalizePurchases(b, j, no, answer.id, false, number, k);
  }

  lemma AdjustPurchases(b: Books, user: nat, income: bool, amount: nat, number: string, k: nat)
    ensures Purchases(After(b, AdjustWallet(b, user, income, amount, number)), k) == Purchases(b, k)
  {
    hide CountOf, Sum, NumberTaken;
    if user in b.balances { PostCounts(b, user, income, amount, Adjustment, None, number, k); }
  }

  /** A payment from the wallet that goes through charges its order once and files it under the wallet. */
  predicate ChargedNow(b: Books, a: Books, j: nat, k: nat) {
    && Purchases(a, k) == Purchases(b, k) + (if j == k then 1 else 0) && a.stamps == b.stamps && j < |b.orders| == |a.orders|
    && b.orders[j].payment != P.PaidUp && a.orders[j].payment == P.PaidUp && a.orders[j].channel == Balance && a.orders[j].paidAt
  }

  lemma BuyCharges(b: Books, user: nat, j: nat, number: string, plans: set<int>, k: nat)
    ensures var a := After(b, PayWithBalance(b, user, j, number, plans)); a == b || ChargedNow(b, a, j, k)
  {
    hide Tally, Written, Counters, Granted, PayItems, CountOf, Sum, NumberTaken;
    if j < |b.orders| && user in b.balances { PostCounts(b, user, false, b.orders[j].payable, Purchase, Some(j), number, k); }
  }

  /** Only a payment from the wallet charges an order. */
  lemma PurchaseMoves(b: Books, e: Event, k: nat)
    requires OrdersSound(b)
    ensures Purchases(Step(b, e), k) != Purchases(b, k) ==> Charges(b, e, k)
    ensures Charges(b, e, k) ==> ChargedNow(b, Step(b, e), k, k)
  {
    hide Purchases, PayWithBalance, AdjustWallet, AdminRefund, RefundNotified, OrdersSound;
    if e.PayBalance? {
      BuyCharges(b, e.user, e.order, e.number, e.plans, k);
    } else if MovesMoney(e) {
      OtherPurchases(b, e, k);
    } else {
      hide Step;
      StepTame(b, e, k);
      SameRows(b, Step(b, e), k);
    }
  }

  lemma SameRows(b: Books, a: Books, k: nat)
    requires a.wallet == b.wallet
    ensures Purchases(a, k) == Purchases(b, k)
  {
  }

  lemma OtherPurchases(b: Books, e: Event, k: nat)
    requires e.Adjust? || e.RefundByAdmin? || e.RefundNotice?
    ensures Purchases(Step(b, e), k) == Purchases(b, k)
  {
    hide Purchases, AdjustWallet, AdminRefund, RefundNotified;
    if e.Adjust? {
      AdjustPurchases(b, e.user, e.income, e.amount, e.number, k);
    } else {
      RefundPurchases(b, e, k);
    }
  }

  // ---------------------------------------------------------------- the channel of a paid order

  predicate PaidFor(b: Books, k: nat) { k < |b.orders| && b.orders[k].paidAt }

  lemma PaidUnread(b: Books, start: Books, k: nat)
    requires Sound(b, start) && PaidFor(b, k)
    ensures k !in b.readings && b.orders[k].status != P.Pending
  {
    OrderFacts(b, k);
    assert k in b.readings ==> ReadingSound(b, k);
  }

  lemma StampFiles(b: Books, k: nat)
    requires PaidFor(b, k) && k !in b.readings && k in b.stamps
    ensures PaidFor(Step(b, Stamp(k)), k) && Step(b, Stamp(k)).orders[k].channel == Wechat
  {
  }

  /** Once paid, an order is filed anew by a late stamp only, and no further session is opened on it. */
  lemma ChannelMoves(b: Books, start: Books, e: Event, k: nat)
    requires Sound(b, start) && PaidFor(b, k)
    ensures PaidFor(Step(b, e), k)
    ensures Step(b, e).orders[k].channel == if e == Stamp(k) && k in b.stamps then Wechat else b.orders[k].channel
    ensures k in Step(b, e).stamps ==> k in b.stamps
  {
    hide Sound;
    PaidUnread(b, start, k);
    SoundOrders(b, start);
    if Unframed(e) {
      hide OrdersSound;
      SessionChannel(b, e, k);
    } else {
      hide Step, OrdersSound;
      StepFramed(b, e);
    }
  }

  lemma SessionChannel(b: Books, e: Event, k: nat)
    requires Unframed(e) && PaidFor(b, k) && k !in b.readings && b.orders[k].status != P.Pending
    ensures PaidFor(Step(b, e), k)
    ensures Step(b, e).orders[k].channel == if e == Stamp(k) && k in b.stamps then Wechat else b.orders[k].channel
    ensures k in Step(b, e).stamps ==> k in b.stamps
  {
    hide Step;
    if !e.StartWechat? && !e.Stamp? { SyncChannel(b, e, k); } else { WechatChannel(b, e, k); }
  }

  lemma WechatChannel(b: Books, e: Event, k: nat)
    requires (e.StartWechat? || e.Stamp?) && PaidFor(b, k) && k !in b.readings && b.orders[k].status != P.Pending
    ensures PaidFor(Step(b, e), k)
    ensures Step(b, e).orders[k].channel == if e == Stamp(k) && k in b.stamps then Wechat else b.orders[k].channel
    ensures k in Step(b, e).stamps ==> k in b.stamps
  {
  }

  lemma SyncChannel(b: Books, e: Event, k: nat)
    requires (e.SyncRead? || e.SyncItems? || e.SyncCancel?) && PaidFor(b, k)
    ensures PaidFor(Step(b, e), k) && Step(b, e).orders[k].channel == b.orders[k].channel && Step(b, e).stamps == b.stamps
  {
    hide GiveBackAll, KeysBackAll, CloseItems;
  }

  // ---------------------------------------------------------------- every run

  lemma {:induction false} FiledThrough(start: Books, events: seq<Event>, k: nat, n: nat, t: nat)
    requires Opening(start) && n <= t <= |events| && PaidFor(Before(start, events, n), k)
    ensures PaidFor(Before(start, events, t), k)
    ensures Before(start, events, n).orders[k].channel == Wechat ==> Before(start, events, t).orders[k].channel == Wechat
    ensures Purchases(Before(start, events, t), k) >= Purchases(Before(start, events, n), k)
  {
    hide Step, Opening, Run, Sound, Purchases, WalletGrows;
    if n < t {
      var b := Before(start, events, t - 1);
      FiledThrough(start, events, k, n, t - 1);
      RunKeepsSound(start, events[..t - 1]);
      SoundOrders(b, start);
      BeforeNext(start, events, t - 1);
      ChannelMoves(b, start, events[t - 1], k);
      StepGrows(b, events[t - 1]);
      PurchasesGrow(b, Before(start, events, t), k);
    }
  }

  lemma StampedIsMisfiled(start: Books, events: seq<Event>, k: nat, m: nat, n: nat)
    requires Opening(start) && StampedLate(start, events, k, m, n)
    ensures var b := Run(start, events);
            PaidFor(b, k) && b.orders[k].channel == Wechat && Purchases(b, k) == 1
  {
    hide Step, Opening, Run, Sound, Purchases, PaysNow, OrdersSound;
    var c, d := Before(start, events, m), Before(start, events, n);
    RunKeepsSound(start, events[..m]);
    RunKeepsSound(start, events[..n]);
    RunKeepsSound(start, events);
    SoundOrders(c, start);
    BeforeNext(start, events, m);
    BeforeNext(start, events, n);
    PurchaseMoves(c, events[m], k);
    OnePurchase(c, start, k);
    FiledThrough(start, events, k, m + 1, n);
    PaidUnread(d, start, k);
    StampFiles(d, k);
    FiledThrough(start, events, k, n + 1, |events|);
    FiledThrough(start, events, k, m + 1, |events|);
    AtEnd(start, events);
    OnePurchase(Run(start, events), start, k);
  }

  lemma OnePurchase(b: Books, start: Books, k: nat)
    requires Sound(b, start)
    ensures 0 <= Purchases(b, k) <= 1
  {
    assert PostingSound(b, k);
  }

  /** A charged order was charged by a payment. */
  lemma {:induction false} ChargedBefore(start: Books, events: seq<Event>, k: nat, n: nat) returns (m: nat)
    requires Opening(start) && n <= |events| && Purchases(Before(start, events, n), k) == 1
    ensures m < n && Charges(Before(start, events, m), events[m], k)
  {
    hide Step, Opening, Run, Purchases, OrdersSound, Charges;
    m := 0;
    NothingCharged(start, events, k);
    if n > 0 {
      RunRows(start, events, n - 1);
      BeforeNext(start, events, n - 1);
      PurchaseMoves(Before(start, events, n - 1), events[n - 1], k);
      if Purchases(Before(start, events, n - 1), k) == 1 {
        m := ChargedBefore(start, events, k, n - 1);
      } else {
        m := n - 1;
      }
    }
  }

  lemma NothingCharged(start: Books, events: seq<Event>, k: nat)
    requires Opening(start)
    ensures Purchases(Before(start, events, 0), k) == 0
  {
    assert events[..0] == [];
  }

  /** From a paid order filed under the wallet to the same order filed under WeChat: a stamp in between, of a session that was there all along. */
  lemma {:induction false} StampBetween(start: Books, events: seq<Event>, k: nat, m: nat, t: nat) returns (n: nat)
    requires Opening(start) && m < t <= |events| && PaidFor(Before(start, events, m), k) && Before(start, events, m).orders[k].channel != Wechat
    requires k < |Before(start, events, t).orders| && Before(start, events, t).orders[k].channel == Wechat
    ensures m <= n < t && events[n] == Stamp(k) && k in Before(start, events, n).stamps && k in Before(start, events, m).stamps
  {
    hide Step, Opening, Run, Sound;
    var b := Before(start, events, t - 1);
    FiledThrough(start, events, k, m, t - 1);
    RunKeepsSound(start, events[..t - 1]);
    BeforeNext(start, events, t - 1);
    ChannelMoves(b, start, events[t - 1], k);
    if t - 1 > m && b.orders[k].channel == Wechat {
      n := StampBetween(start, events, k, m, t - 1);
    } else {
      n := t - 1;
      SessionsBack(start, events, k, m, n);
    }
  }

  lemma {:induction false} SessionsBack(start: Books, events: seq<Event>, k: nat, m: nat, n: nat)
    requires Opening(start) && m <= n <= |events| && PaidFor(Before(start, events, m), k) && k in Before(start, events, n).stamps
    ensures k in Before(start, events, m).stamps
  {
    hide Step, Opening, Run, Sound;
    if m < n {
      FiledThrough(start, events, k, m, n - 1);
      RunKeepsSound(start, events[..n - 1]);
      BeforeNext(start, events, n - 1);
      ChannelMoves(Before(start, events, n - 1), start, events[n - 1], k);
      SessionsBack(start, events, k, m, n - 1);
    }
  }

  lemma MisfiledWasStamped(start: Books, events: seq<Event>, k: nat) returns (m: nat, n: nat)
    requires Opening(start) && Misfiled(Run(start, events), k)
    ensures StampedLate(start, events, k, m, n)
  {
    hide Step, Opening, Run, Purchases, OrdersSound, Charges;
    AtEnd(start, events);
    m := ChargedBefore(start, events, k, |events|);
    RunRows(start, events, m);
    BeforeNext(start, events, m);
    PurchaseMoves(Before(start, events, m), events[m], k);
    n := StampBetween(start, events, k, m + 1, |events|);
  }

  /**
   * Over every run: an order bought from the wallet is filed under WeChat
   * exactly when it was paid while a WeChat session opened before was still to
   * be stamped, and one was stamped after the payment.
   */
  lemma MisfiledIffStampedLate(start: Books, events: seq<Event>, k: nat)
    requires Opening(start)
    ensures Misfiled(Run(start, events), k) <==> BoughtAt(Run(start, events), k) && EverStampedLate(start, events, k)
  {
    hide Opening, Run, Purchases, StampedLate;
    if Misfiled(Run(start, events), k) {
      var m, n := MisfiledWasStamped(start, events, k);
    }
    if m: nat, n: nat :| StampedLate(start, events, k, m, n) {
      StampedIsMisfiled(start, events, k, m, n);
    }
  }
}
