/**
 * What each transaction of the shop leaves behind, row by row: which order it
 * settles and how, what it does to entitlements, counters, stock and wallets,
 * and what it does not touch.
 */
module ShopEffects {
  import opened Sums
  import opened Shop
  import opened ShopHistory
  import P = OrderProtocol

  // ---------------------------------------------------------------- what may be left behind

  /** Only order k is rewritten; owner, price and goods stay. */
  predicate OnlyRow(b: Books, a: Books, k: nat) {
    && k < |b.orders| == |a.orders| && a.orders == b.orders[k := a.orders[k]]
    && a.orders[k].user == b.orders[k].user && a.orders[k].payable == b.orders[k].payable
    && SameGoods(b.orders[k].items, a.orders[k].items)
  }

  predicate SameMoney(b: Books, a: Books) { a.balances == b.balances && a.wallet == b.wallet }

  predicate SamePending(b: Books, a: Books) { a.stamps == b.stamps && a.syncs == b.syncs && a.readings == b.readings }

  predicate AllClosed(items: seq<Item>) { forall i | 0 <= i < |items| :: items[i].status == P.Canceled && !items[i].stockDeducted }

  /** Entitlements of order k are no longer active; others stay as they are. */
  predicate Withdrawn(b: Books, a: Books, k: nat) {
    |a.grants| == |b.grants| &&
    forall i | 0 <= i < |b.grants| ::
      a.grants[i] == if b.grants[i].order == k then b.grants[i].(active := false) else b.grants[i]
  }

  /** Counters fall by the units of the items, down to zero. */
  predicate Unsold(b: Books, a: Books, items: seq<Item>) {
    a.products.Keys == b.products.Keys &&
    forall p | p in b.products :: a.products[p].sales == Max0(b.products[p].sales - Sum(items, Units(p)))
  }

  predicate SameSales(b: Books, a: Books) {
    a.products.Keys == b.products.Keys && forall p | p in b.products :: a.products[p].sales == b.products[p].sales
  }

  /** Stock and Redis keys have risen by what the items took. */
  ghost predicate Restored(b: Books, a: Books, items: seq<Item>) {
    StockReturned(b.products, a.products, items) && KeysReturned(b.keys, a.keys, b.products, items)
  }

  /** Order k is refunded under that number and id: closed, withdrawn, unsold and restored. */
  ghost predicate RefundDone(b: Books, a: Books, k: nat, no: string, id: string) {
    && OnlyRow(b, a, k) && SamePending(b, a) && Withdrawn(b, a, k)
    && Unsold(b, a, b.orders[k].items) && Restored(b, a, b.orders[k].items)
    && var o, n := b.orders[k], a.orders[k];
       && n.status == P.Canceled && n.payment == P.Refunded && n.refundedAt && n.refundState == Succeeded
       && n.refundNo == Some(no) && n.refundId == id && AllClosed(n.items)
       && n.channel == o.channel && n.transaction == o.transaction && n.paidAt == o.paidAt
  }

  /** Order k is voided, and what the items took is given back. */
  ghost predicate CancelDone(b: Books, a: Books, k: nat, items: seq<Item>) {
    && OnlyRow(b, a, k) && SamePending(b, a) && SameMoney(b, a) && a.grants == b.grants
    && SameSales(b, a) && Restored(b, a, items)
    && a.orders[k].status == P.Canceled && a.orders[k].payment == P.Voided && AllClosed(a.orders[k].items)
    && a.orders[k] == b.orders[k].(status := P.Canceled, payment := P.Voided, items := a.orders[k].items)
  }

  /** What a paid item looks like: marked when its product, or its plan and the member, were found. */
  predicate ItemPaid(it: Item, n: Item, known: bool, found: bool) {
    n == if (it.kind == Study && known) || (it.kind == Vip && found) then it.(status := P.Paid) else it
  }

  /** Order k is paid through the channel: one entitlement per unit, counters raised from what was read, stock untouched. */
  predicate PaymentDone(b: Books, a: Books, k: nat, channel: Channel, transaction: string, plans: set<int>) {
    && OnlyRow(b, a, k) && a.keys == b.keys && a.stamps == b.stamps && a.syncs == b.syncs && a.readings == b.readings - {k}
    && var o, n := b.orders[k], a.orders[k];
       && n == o.(status := P.Paid, payment := P.PaidUp, channel := channel, transaction := transaction, paidAt := true, items := n.items)
       && (forall i | 0 <= i < |o.items| ::
             ItemPaid(o.items[i], n.items[i], o.items[i].product in b.products, o.user in b.balances && Abs(o.items[i].product) in plans))
       && |b.grants| <= |a.grants| && a.grants[..|b.grants|] == b.grants
       && (forall i | |b.grants| <= i < |a.grants| :: a.grants[i].order == k && a.grants[i].user == o.user && a.grants[i].active)
       && a.products.Keys == b.products.Keys
       && forall p | p in b.products ::
            && a.products[p].stock == b.products[p].stock
            && Sum(a.grants[|b.grants|..], ActiveOn(k, p)) == Sum(o.items, Units(p))
            && a.products[p].sales == (if k in b.readings && p in b.readings[k] then b.readings[k][p] else b.products[p].sales) + Sum(o.items, Units(p))
  }

  /** The wallet of the user moves by one row, which chains to the balance and names the order. */
  predicate Posted(b: Books, a: Books, user: nat, income: bool, amount: int, kind: RowKind, order: Option<nat>, number: string) {
    && user in b.balances && a.balances == b.balances[user := b.balances[user] + if income then amount else -amount]
    && |a.wallet| == |b.wallet| + 1 && a.wallet[..|b.wallet|] == b.wallet
    && var r := a.wallet[|b.wallet|];
       && r.user == user && r.income == income && r.amount == amount && r.kind == kind && r.order == order && r.number == number
       && r.before == b.balances[user] && r.after == a.balances[user]
  }

  // ---------------------------------------------------------------- refunds

  lemma RefundingDoes(b: Books, k: nat, no: string, id: string)
    requires OrdersSound(b) && k < |b.orders| && forall p | p in b.products :: b.products[p].sales >= 0
    ensures RefundDone(b, Refunding(b, k, no, id), k, no, id) && SameMoney(b, Refunding(b, k, no, id))
  {
    hide GiveBackAll, KeysBackAll, StockReturned, KeyReturned, Pair;
    var items := b.orders[k].items;
    var a := Refunding(b, k, no, id);
    OrderFacts(b, k);
    GiveBackStock(b.products, items, true);
    forall p: int ensures KeyReturned(b.keys, a.keys, b.products, items, p) { KeysBackStock(b.keys, b.products, items, true, p); }
    KeysKept(b.products, items, true);
    forall p | p in b.products ensures a.products[p].sales == Max0(b.products[p].sales - Sum(items, Units(p))) {
      GiveBackCounts(b.products, items, true, p);
    }
  }

  lemma SoundSales(b: Books, start: Books)
    requires Sound(b, start)
    ensures OrdersSound(b)
    ensures forall p | p in b.products :: b.products[p].sales >= 0
  {
    forall p | p in b.products ensures b.products[p].sales >= 0 {
      assert p in b.products.Keys;
      assert p in start.products;
    }
  }

  lemma PostDoes(b: Books, user: nat, income: bool, amount: int, kind: RowKind, order: Option<nat>, number: string)
    requires user in b.balances
    ensures Posted(b, Post(b, user, income, amount, kind, order, number), user, income, amount, kind, order, number)
  {
  }

  /** The refund number is free: no other order holds it. */
  predicate NumberFree(b: Books, k: nat, no: string) { forall j | 0 <= j < |b.orders| && j != k :: b.orders[j].refundNo != Some(no) }

  /** A paid order, its row held by nobody. */
  predicate PaidAndFree(b: Books, k: nat) { k < |b.orders| && b.orders[k].payment == P.PaidUp && k !in b.readings }

  lemma FinalizeDoes(b: Books, start: Books, k: nat, no: string, id: string, number: string)
    requires Sound(b, start) && PaidAndFree(b, k) && NumberFree(b, k, no)
    ensures FinalizeRefund(b, k, no, id, false, number).Done?
    ensures var a := After(b, FinalizeRefund(b, k, no, id, false, number)); RefundDone(b, a, k, no, id) && SameMoney(b, a)
  {
    hide GrantsSound, HoldersSound, WalletSound, PostingsSound, SalesSound, Refunding, RefundDone;
    SoundSales(b, start);
    OrderFacts(b, k);
    RefundingDoes(b, k, no, id);
  }

  /** Into the wallet: one row, the price, once. */
  lemma ReturnDoes(b: Books, start: Books, k: nat, no: string, number: string)
    requires Sound(b, start) && PaidAndFree(b, k) && NumberFree(b, k, no) && b.orders[k].channel == Balance
    requires forall i | 0 <= i < |b.wallet| :: b.wallet[i].number != number
    ensures FinalizeRefund(b, k, no, "", true, number).Done?
    ensures var a := After(b, FinalizeRefund(b, k, no, "", true, number));
            RefundDone(b, a, k, no, "") && Posted(b, a, b.orders[k].user, true, b.orders[k].payable, Refund, Some(k), number)
  {
    hide GrantsSound, HoldersSound, WalletSound, SalesSound, Refunding, RefundDone;
    var o := b.orders[k];
    SoundSales(b, start);
    OrderFacts(b, k);
    assert PostingSound(b, k);
    RefundRowCounted(b, k);
    var c := Post(b, o.user, true, o.payable, Refund, Some(k), number);
    PostDoes(b, o.user, true, o.payable, Refund, Some(k), number);
    PostedRefund(b, c, k, no);
  }

  lemma PostedRefund(b: Books, c: Books, k: nat, no: string)
    requires OrdersSound(b) && k < |b.orders| && forall p | p in b.products :: b.products[p].sales >= 0
    requires c == b.(balances := c.balances, wallet := c.wallet) && c.balances.Keys == b.balances.Keys
    ensures RefundDone(b, Refunding(c, k, no, ""), k, no, "") && SameMoney(c, Refunding(c, k, no, ""))
  {
    hide Pair, GiveBackAll, KeysBackAll, StockReturned, KeyReturned;
    forall j | 0 <= j < |c.orders| ensures OrderSound(c.orders[j], c.balances.Keys, c.products.Keys) { OrderFacts(b, j); }
    RefundingDoes(c, k, no, "");
  }

  // ---------------------------------------------------------------- the refund notice

  /** The number on record is empty, or the one the notice carries. */
  predicate NumberMatches(o: Order, no: string) { o.refundNo == None || o.refundNo == Some("") || o.refundNo == Some(no) }

  /**
   * In every reachable state a success notice refunds a paid order whose number
   * it matches, and repeating it changes nothing; any other answer is recorded
   * and does nothing else; a notice with another number is refused.
   */
  lemma NoticeDoes(start: Books, events: seq<Event>, k: nat, no: string, answer: Answer, number: string)
    requires Opening(start) && k < |Run(start, events).orders| && k !in Run(start, events).readings
    ensures NoticeKept(Run(start, events), Perform(Run(start, events), RefundNotice(k, no, answer, number)), k, no, answer)
    ensures var b := Run(start, events); var e := RefundNotice(k, no, answer, number);
            b.orders[k].payment == P.PaidUp && NumberMatches(b.orders[k], no) && NumberFree(b, k, no) ==> Step(Step(b, e), e) == Step(b, e)
  {
    hide Run, Sound, NoticeKept, Opening, NumberFree, Step, NumberMatches;
    RunKeepsSound(start, events);
    NoticeAt(Run(start, events), start, k, no, answer, number);
  }

  /** What a notice about an order whose row is free must do. */
  ghost predicate NoticeKept(b: Books, r: Outcome, k: nat, no: string, answer: Answer)
    requires k < |b.orders|
  {
    && (!NumberMatches(b.orders[k], no) ==> r == Raised(RefundMismatch))
    && (NumberMatches(b.orders[k], no) && answer.state != Succeeded ==>
          r == Done(b.(orders := b.orders[k := b.orders[k].(refundState := answer.state)])))
    && (NumberMatches(b.orders[k], no) && answer.state == Succeeded && b.orders[k].payment == P.PaidUp && NumberFree(b, k, no) ==>
          r.Done? && RefundDone(b, r.books, k, no, answer.id) && SameMoney(b, r.books))
    && (NumberMatches(b.orders[k], no) && answer.state == Succeeded && b.orders[k].payment == P.PaidUp && !NumberFree(b, k, no) ==>
          r == Raised(DuplicateNumber))
    && (NumberMatches(b.orders[k], no) && answer.state == Succeeded && b.orders[k].payment != P.PaidUp ==>
          r == if b.orders[k].payment == P.Refunded then Done(b) else Raised(OrderNotRefundable))
  }

  lemma NoticeAt(b: Books, start: Books, k: nat, no: string, answer: Answer, number: string)
    requires Sound(b, start) && k < |b.orders| && k !in b.readings
    ensures NoticeKept(b, Perform(b, RefundNotice(k, no, answer, number)), k, no, answer)
    ensures var e := RefundNotice(k, no, answer, number);
            b.orders[k].payment == P.PaidUp && NumberMatches(b.orders[k], no) && NumberFree(b, k, no) ==> Step(Step(b, e), e) == Step(b, e)
  {
    hide Sound, RefundDone, SameMoney, FinalizeRefund, NumberFree;
    if b.orders[k].payment == P.PaidUp && NumberFree(b, k, no) && answer.state == Succeeded {
      FinalizeDoes(b, start, k, no, answer.id, number);
      RefundedStays(b, After(b, FinalizeRefund(b, k, no, answer.id, false, number)), k, no, answer, number);
    }
    SoundSales(b, start);
    OrderFacts(b, k);
    FinalizeRefused(b, k, no, answer.id, number);
  }

  lemma FinalizeRefused(b: Books, k: nat, no: string, id: string, number: string)
    requires OrdersSound(b) && k < |b.orders|
    ensures var r := FinalizeRefund(b, k, no, id, false, number);
            && (b.orders[k].payment == P.PaidUp && !NumberFree(b, k, no) ==> r == Raised(DuplicateNumber))
            && (b.orders[k].payment != P.PaidUp ==> r == if b.orders[k].payment == P.Refunded then Done(b) else Raised(OrderNotRefundable))
  {
    hide Refunding;
    OrderFacts(b, k);
  }

  /** A notice on the order it has refunded finds it refunded. */
  lemma RefundedStays(b: Books, a: Books, k: nat, no: string, answer: Answer, number: string)
    requires k !in b.readings && RefundDone(b, a, k, no, answer.id) && answer.state == Succeeded
    ensures Step(a, RefundNotice(k, no, answer, number)) == a
  {
    hide Withdrawn, Unsold, StockReturned, KeyReturned, AllClosed;
  }

  // ---------------------------------------------------------------- the administrator's refund

  /** The number on record, or a new one when there is none. */
  predicate Chosen(o: Order, newNo: string, no: string) {
    (NumberMatches(o, "") && no == newNo) || (o.refundNo == Some(no) && no != "")
  }

  /**
   * In every reachable state, an administrator's refund of a paid order: a mock
   * order is refunded without money, one paid from the wallet with its price
   * back in the wallet, and one filed under WeChat as the provider answers.
   * Anything but a paid order is refused, except for what is still processing.
   */
  lemma AdminRefundDoes(start: Books, events: seq<Event>, k: nat, newNo: string, no: string, answer: Answer, number: string)
    requires Opening(start) && PaidAndFree(Run(start, events), k) && Chosen(Run(start, events).orders[k], newNo, no)
    requires !(Run(start, events).orders[k].channel == Wechat && Run(start, events).orders[k].refundState == Processing)
    requires NumberFree(Run(start, events), k, no)
    requires forall i | 0 <= i < |Run(start, events).wallet| :: Run(start, events).wallet[i].number != number
    ensures var b := Run(start, events); var e := RefundByAdmin(k, newNo, answer, number); var a := Step(b, e); var o := b.orders[k];
            && Perform(b, e).Done?
            && (o.channel == Mock ==> RefundDone(b, a, k, no, "") && SameMoney(b, a))
            && (o.channel == Balance ==> RefundDone(b, a, k, no, "") && Posted(b, a, o.user, true, o.payable, Refund, Some(k), number))
            && (o.channel == Wechat ==>
                  if answer.state == Succeeded then RefundDone(b, a, k, no, answer.id) && SameMoney(b, a)
                  else a == b.(orders := b.orders[k := o.(refundNo := Some(no), refundState := answer.state, refundId := answer.id)]))
  {
    hide Run, Sound, RefundDone, SameMoney, FinalizeRefund, Opening, NumberFree, Posted;
    RunKeepsSound(start, events);
    AdminDoes(Run(start, events), start, k, newNo, no, answer, number);
  }

  lemma AdminDoes(b: Books, start: Books, k: nat, newNo: string, no: string, answer: Answer, number: string)
    requires Sound(b, start) && PaidAndFree(b, k) && Chosen(b.orders[k], newNo, no) && NumberFree(b, k, no)
    requires !(b.orders[k].channel == Wechat && b.orders[k].refundState == Processing)
    requires forall i | 0 <= i < |b.wallet| :: b.wallet[i].number != number
    ensures var e := RefundByAdmin(k, newNo, answer, number); var a := Step(b, e); var o := b.orders[k];
            && Perform(b, e).Done?
            && (o.channel == Mock ==> RefundDone(b, a, k, no, "") && SameMoney(b, a))
            && (o.channel == Balance ==> RefundDone(b, a, k, no, "") && Posted(b, a, o.user, true, o.payable, Refund, Some(k), number))
            && (o.channel == Wechat ==>
                  if answer.state == Succeeded then RefundDone(b, a, k, no, answer.id) && SameMoney(b, a)
                  else a == b.(orders := b.orders[k := o.(refundNo := Some(no), refundState := answer.state, refundId := answer.id)]))
  {
    hide Sound, RefundDone, SameMoney, FinalizeRefund, Posted;
    SoundSales(b, start);
    PaidIs(b, k);
    var o := b.orders[k];
    if o.channel == Mock { FinalizeDoes(b, start, k, no, "", number); }
    if o.channel == Balance { ReturnDoes(b, start, k, no, number); }
    if o.channel == Wechat && answer.state == Succeeded { NotedRefund(b, start, k, no, answer, number); }
  }

  lemma PaidIs(b: Books, k: nat)
    requires OrdersSound(b) && k < |b.orders| && b.orders[k].payment == P.PaidUp
    ensures SettledPaid(b.orders[k])
  {
    OrderFacts(b, k);
  }

  /** Recording the answer first changes nothing about the refund that follows it. */
  lemma NotedRefund(b: Books, start: Books, k: nat, no: string, answer: Answer, number: string)
    requires Sound(b, start) && PaidAndFree(b, k) && NumberFree(b, k, no)
    ensures var c := Noted(b, k, Some(no), answer.state, answer.id);
            && FinalizeRefund(c, k, no, answer.id, false, number).Done?
            && var a := FinalizeRefund(c, k, no, answer.id, false, number).books; RefundDone(b, a, k, no, answer.id) && SameMoney(b, a)
  {
    hide Sound, FinalizeRefund;
    var c := Noted(b, k, Some(no), answer.state, answer.id);
    NoteKeepsSound(b, start, k, c.orders[k]);
    FinalizeDoes(c, start, k, no, answer.id, number);
    NotedTables(b, c, After(c, FinalizeRefund(c, k, no, answer.id, false, number)), k, no, answer.id);
  }

  lemma NotedTables(b: Books, c: Books, a: Books, k: nat, no: string, id: string)
    requires k < |b.orders| == |c.orders| && c == b.(orders := b.orders[k := c.orders[k]])
    requires c.orders[k] == b.orders[k].(refundNo := c.orders[k].refundNo, refundState := c.orders[k].refundState, refundId := c.orders[k].refundId)
    requires RefundDone(c, a, k, no, id) && SameMoney(c, a)
    ensures RefundDone(b, a, k, no, id) && SameMoney(b, a)
  {
    hide StockReturned, KeyReturned;
  }

  /** Refused unless paid: an order neither paid nor refunded, and not in the provider's hands, stays as it is. */
  lemma AdminRefundRefused(b: Books, k: nat, newNo: string, answer: Answer, number: string)
    requires k !in b.readings && (k < |b.orders| ==> !SettledPaid(b.orders[k]) && b.orders[k].payment != P.Refunded)
    requires k < |b.orders| ==> !(b.orders[k].refundState == Processing && b.orders[k].channel == Wechat)
    ensures Perform(b, RefundByAdmin(k, newNo, answer, number)) == Raised(if k < |b.orders| then OrderNotRefundable else OrderNotFound)
  {
  }

  /** What the provider is still processing: its answer is recorded under the number on record, or settles the refund. */
  lemma ProcessingRefundDoes(start: Books, events: seq<Event>, k: nat, newNo: string, no: string, answer: Answer, number: string)
    requires Opening(start) && PaidAndFree(Run(start, events), k) && NumberFree(Run(start, events), k, no)
    requires var o := Run(start, events).orders[k]; o.channel == Wechat && o.refundState == Processing && o.refundNo == Some(no)
    ensures var b := Run(start, events); var e := RefundByAdmin(k, newNo, answer, number); var a := Step(b, e); var o := b.orders[k];
            && Perform(b, e).Done?
            && if answer.state == Succeeded then RefundDone(b, a, k, no, answer.id) && SameMoney(b, a)
               else a == b.(orders := b.orders[k := o.(refundState := answer.state, refundId := answer.id)])
  {
    hide Run, Sound, RefundDone, SameMoney, FinalizeRefund, Opening, NumberFree;
    RunKeepsSound(start, events);
    FinalizeDoes(Run(start, events), start, k, no, answer.id, number);
    NotYetRefunded(Run(start, events), k);
  }

  lemma NotYetRefunded(b: Books, k: nat)
    requires PaidAndFree(b, k)
    ensures b.orders[k].payment != P.Refunded
  {
  }

  // ---------------------------------------------------------------- payments

  lemma PaymentGrants(b: Books, k: nat, channel: Channel, transaction: string, plans: set<int>, p: int)
    requires OrdersSound(b) && ReadingsSound(b) && k < |b.orders|
    ensures var a := Paying(b, k, channel, transaction, plans);
            && |b.grants| <= |a.grants| && a.grants[..|b.grants|] == b.grants
            && Sum(a.grants[|b.grants|..], ActiveOn(k, p)) == Sum(b.orders[k].items, Units(p))
            && forall i | |b.grants| <= i < |a.grants| :: a.grants[i].order == k && a.grants[i].user == b.orders[k].user && a.grants[i].active
  {
    hide Tally, Counters, Granted;
    var o, a := b.orders[k], Paying(b, k, channel, transaction, plans);
    var granted := Granted(k, o.user, o.items, Reading(b, k));
    OrderFacts(b, k);
    ReadingFits(b, k);
    GrantedCount(k, o.user, o.items, Reading(b, k), k, p);
    GrantedHolders(k, o.user, o.items, Reading(b, k));
    GrantedActive(k, o.user, o.items, Reading(b, k));
    assert a.grants[|b.grants|..] == granted;
    forall i | |b.grants| <= i < |a.grants| ensures a.grants[i] == granted[i - |b.grants|] {}
  }

  lemma {:induction false} GrantedActive(k: nat, user: nat, items: seq<Item>, m: map<int, int>)
    ensures forall i | 0 <= i < |Granted(k, user, items, m)| :: Granted(k, user, items, m)[i].active
  {
    if items != [] {
      GrantedActive(k, user, items[..|items| - 1], m);
      CopiesAre(Entitlement(user, items[|items| - 1].product, k, true), items[|items| - 1].quantity);
    }
  }

  lemma PaymentSales(b: Books, k: nat, channel: Channel, transaction: string, plans: set<int>, p: int)
    requires OrdersSound(b) && ReadingsSound(b) && k < |b.orders| && p in b.products
    ensures p in Paying(b, k, channel, transaction, plans).products
    ensures var a := Paying(b, k, channel, transaction, plans);
            && a.products.Keys == b.products.Keys && a.products[p].stock == b.products[p].stock
            && a.products[p].sales == (if k in b.readings && p in b.readings[k] then b.readings[k][p] else b.products[p].sales)
                                      + Sum(b.orders[k].items, Units(p))
  {
    hide Tally, Granted;
    var o := b.orders[k];
    OrderFacts(b, k);
    ReadingFits(b, k);
    TallyCounts(Reading(b, k), o.items, p);
    if p !in Reading(b, k) { UnsoldUnits(o.items, p); }
    if k in b.readings { assert ReadingSound(b, k); }
  }

  lemma PayingDoes(b: Books, k: nat, channel: Channel, transaction: string, plans: set<int>)
    requires OrdersSound(b) && ReadingsSound(b) && k < |b.orders|
    ensures PaymentDone(b, Paying(b, k, channel, transaction, plans), k, channel, transaction, plans)
  {
    hide Tally, Granted, Counters, Written, Pair;
    var a := Paying(b, k, channel, transaction, plans);
    OrderFacts(b, k);
    ReadingFits(b, k);
    PaymentGrants(b, k, channel, transaction, plans, 0);
    SameKeysAfter(b, k, channel, transaction, plans);
    forall p | p in b.products
      ensures && a.products[p].stock == b.products[p].stock
              && Sum(a.grants[|b.grants|..], ActiveOn(k, p)) == Sum(b.orders[k].items, Units(p))
              && a.products[p].sales == (if k in b.readings && p in b.readings[k] then b.readings[k][p] else b.products[p].sales)
                                        + Sum(b.orders[k].items, Units(p))
    {
      PaymentGrants(b, k, channel, transaction, plans, p);
      PaymentSales(b, k, channel, transaction, plans, p);
    }
  }

  lemma SameKeysAfter(b: Books, k: nat, channel: Channel, transaction: string, plans: set<int>)
    requires k < |b.orders|
    ensures Paying(b, k, channel, transaction, plans).products.Keys == b.products.Keys
  {
    hide Tally, Granted, Counters;
  }

  predicate Unpaid(b: Books, k: nat) { k < |b.orders| && b.orders[k].payment == P.Unpaid }

  /** Over every run: a payment of an unpaid order pays it, of a paid one changes nothing, and of any other is refused. */
  lemma MarkDoes(b: Books, start: Books, k: nat, channel: Channel, transaction: string, plans: set<int>)
    requires Sound(b, start) && k < |b.orders|
    ensures var o := MarkPaid(b, k, channel, transaction, plans);
            match b.orders[k].payment
            case Unpaid => o.Done? && PaymentDone(b, o.books, k, channel, transaction, plans) && SameMoney(b, o.books)
            case PaidUp => o == Done(b)
            case _ => o == Raised(OrderNotPayable)
  {
    hide GrantsSound, HoldersSound, WalletSound, PostingsSound, PaymentDone, Paying;
    OrderFacts(b, k);
    SalesReadings(b, start.products);
    PayingDoes(b, k, channel, transaction, plans);
    PayingMoney(b, k, channel, transaction, plans);
  }

  lemma PayingMoney(b: Books, k: nat, channel: Channel, transaction: string, plans: set<int>)
    requires k < |b.orders|
    ensures SameMoney(b, Paying(b, k, channel, transaction, plans))
  {
  }

  /** The wallet pays in full or not at all: one row for the price, and the order paid under the row's number. */
  lemma BuyDoes(start: Books, events: seq<Event>, user: nat, k: nat, number: string, plans: set<int>)
    requires Opening(start) && Unpaid(Run(start, events), k) && Run(start, events).orders[k].user == user
    ensures user in Run(start, events).balances
    ensures var b := Run(start, events); var e := PayBalance(user, k, number, plans); var a := Step(b, e); var o := b.orders[k];
            && (Perform(b, e).Done? <==> 0 <= o.payable <= b.balances[user] && forall i | 0 <= i < |b.wallet| :: b.wallet[i].number != number)
            && (Perform(b, e).Done? ==>
                  PaymentDone(b, a, k, Balance, number, plans) && Posted(b, a, user, false, o.payable, Purchase, Some(k), number))
  {
    hide Run, Sound, PaymentDone, Posted, Opening, PayWithBalance;
    RunKeepsSound(start, events);
    BuyAt(Run(start, events), start, user, k, number, plans);
  }

  lemma BuyAt(b: Books, start: Books, user: nat, k: nat, number: string, plans: set<int>)
    requires Sound(b, start) && Unpaid(b, k) && b.orders[k].user == user
    ensures user in b.balances
    ensures var r := PayWithBalance(b, user, k, number, plans); var o := b.orders[k];
            && (r.Done? <==> 0 <= o.payable <= b.balances[user] && forall i | 0 <= i < |b.wallet| :: b.wallet[i].number != number)
            && (r.Done? ==>
                  PaymentDone(b, r.books, k, Balance, number, plans) && Posted(b, r.books, user, false, o.payable, Purchase, Some(k), number))
  {
    hide GrantsSound, HoldersSound, WalletSound, PostingsSound, PaymentDone, Paying;
    OrderFacts(b, k);
    SalesReadings(b, start.products);
    var c := Post(b, user, false, b.orders[k].payable, Purchase, Some(k), number);
    PostDoes(b, user, false, b.orders[k].payable, Purchase, Some(k), number);
    PostedPayment(b, c, k, number, plans);
    PayingMoney(c, k, Balance, number, plans);
  }

  lemma PostedPayment(b: Books, c: Books, k: nat, number: string, plans: set<int>)
    requires OrdersSound(b) && ReadingsSound(b) && k < |b.orders|
    requires c == b.(balances := c.balances, wallet := c.wallet) && c.balances.Keys == b.balances.Keys
    ensures PaymentDone(b, Paying(c, k, Balance, number, plans), k, Balance, number, plans)
  {
    hide Paying, Pair;
    forall j | 0 <= j < |c.orders| ensures OrderSound(c.orders[j], c.balances.Keys, c.products.Keys) { OrderFacts(b, j); }
    forall j | j in c.readings ensures ReadingSound(c, j) { assert ReadingSound(b, j); }
    PayingDoes(c, k, Balance, number, plans);
    assert c.orders[k].user in c.balances <==> b.orders[k].user in b.balances.Keys;
  }

  /**
   * A WeChat success: pays an unpaid order under its transaction, changes nothing
   * for one settled under the same transaction or none on record, and is refused
   * for one settled under another, or voided.
   */
  lemma NotifyDoes(start: Books, events: seq<Event>, k: nat, transaction: string, plans: set<int>)
    requires Opening(start) && k < |Run(start, events).orders|
    ensures SuccessKept(Run(start, events), Perform(Run(start, events), Notify(k, transaction, plans)), k, transaction, plans)
  {
    hide Run, Sound, SuccessKept, Opening;
    RunKeepsSound(start, events);
    NotifyAt(Run(start, events), start, k, transaction, plans);
  }

  predicate SuccessKept(b: Books, r: Outcome, k: nat, transaction: string, plans: set<int>)
    requires k < |b.orders|
  {
    var o := b.orders[k];
    match o.payment
    case Unpaid => r.Done? && PaymentDone(b, r.books, k, Wechat, transaction, plans) && SameMoney(b, r.books)
    case Voided => r == Raised(OrderNotPayable)
    case _ => r == if o.transaction == "" || o.transaction == transaction then Done(b) else Raised(TransactionMismatch)
  }

  lemma NotifyAt(b: Books, start: Books, k: nat, transaction: string, plans: set<int>)
    requires Sound(b, start) && k < |b.orders|
    ensures SuccessKept(b, Perform(b, Notify(k, transaction, plans)), k, transaction, plans)
  {
    hide Sound, PaymentDone, SameMoney, MarkPaid;
    MarkDoes(b, start, k, Wechat, transaction, plans);
  }

  // ---------------------------------------------------------------- cancels and timeouts

  lemma ClosingDoes(b: Books, k: nat, items: seq<Item>)
    requires k < |b.orders|
    ensures CancelDone(b, Closing(b, k, items), k, items)
  {
    hide GiveBackAll, KeysBackAll, StockReturned, KeyReturned;
    var a := Closing(b, k, items);
    GiveBackStock(b.products, items, false);
    RestockQuiet(b.products, items);
    forall p: int ensures KeyReturned(b.keys, a.keys, b.products, items, p) { KeysBackStock(b.keys, b.products, items, false, p); }
  }

  /** A cancel by the row it was handed: done if that row was unpaid and nobody holds the order. */
  lemma CancelDoes(b: Books, k: nat, row: Order)
    requires k < |b.orders|
    ensures var r := CancelAs(b, k, row);
            if row.payment == P.PaidUp || row.status != P.Pending then r == Done(b)
            else if k in b.readings then r == Raised(RowLocked)
            else r.Done? && CancelDone(b, r.books, k, row.items)
  {
    hide CancelDone, Closing;
    if k !in b.readings { ClosingDoes(b, k, row.items); }
  }

  /** What the timeout should do about an unpaid order, and when it cannot tell. */
  datatype Verdict = Pay(transaction: string) | Cancel | Leave | Unclear

  predicate Judged(o: Order, configured: bool, gateway: Gateway, v: Verdict) {
    if !configured || o.channel != Wechat then v == Cancel
    else
      && (v == Leave <==> gateway == UserPaying)
      && (v == Unclear <==> gateway == QueryFailed || gateway == NotPaid(false))
      && (v.Pay? <==> gateway.Success?) && (v.Pay? ==> gateway == Success(v.transaction))
  }

  /**
   * Over every run, for an unpaid order whose row is free: paid if the gateway
   * says so, left alone while the user is paying, an error while the gateway is
   * unclear, and cancelled in every other case.
   */
  lemma TimeoutDoes(start: Books, events: seq<Event>, k: nat, configured: bool, gateway: Gateway, plans: set<int>, v: Verdict)
    requires Opening(start) && Unpaid(Run(start, events), k) && k !in Run(start, events).readings
    requires Judged(Run(start, events).orders[k], configured, gateway, v)
    ensures var b := Run(start, events); var r := Perform(b, Timeout(k, configured, gateway, plans));
            match v
            case Pay(transaction) => r.Done? && PaymentDone(b, r.books, k, Wechat, transaction, plans) && SameMoney(b, r.books)
            case Cancel => r.Done? && CancelDone(b, r.books, k, b.orders[k].items)
            case Leave => r == Done(b)
            case Unclear => r == Raised(GatewayUnavailable)
    ensures Reported(Run(start, events), k, configured, gateway) <==> v.Pay? || v.Cancel?
  {
    hide Run, Sound, PaymentDone, CancelDone, SameMoney, Opening, MarkPaid, CancelAs;
    RunKeepsSound(start, events);
    var b := Run(start, events);
    SoundSales(b, start);
    UnpaidIs(b, k);
    CancelDoes(b, k, b.orders[k]);
    if gateway.Success? { MarkDoes(b, start, k, Wechat, gateway.transaction, plans); }
  }

  lemma UnpaidIs(b: Books, k: nat)
    requires OrdersSound(b) && Unpaid(b, k)
    ensures b.orders[k].status == P.Pending
  {
    OrderFacts(b, k);
  }

  // ---------------------------------------------------------------- requests and sessions

  /** What a request for a refund must do: recorded for the owner of a paid order, unless one is under way. */
  predicate RequestKept(b: Books, r: Outcome, user: nat, k: nat)
    requires k < |b.orders|
  {
    var o := b.orders[k];
    var underway := o.refundState == Requested || o.refundState == Processing;
    && (o.user != user ==> r == Raised(OrderNotFound))
    && (o.user == user && (o.payment == P.Refunded || underway) ==> r == Done(b))
    && (o.user == user && o.payment == P.PaidUp && !underway ==> r == Done(b.(orders := b.orders[k := o.(refundState := Requested)])))
    && (o.user == user && (o.payment == P.Unpaid || o.payment == P.Voided) && !underway ==> r == Raised(OrderNotRefundable))
  }

  lemma RequestAt(b: Books, start: Books, user: nat, k: nat)
    requires Sound(b, start) && k < |b.orders| && k !in b.readings
    ensures RequestKept(b, Perform(b, AskRefund(user, k)), user, k)
  {
    hide GrantsSound, HoldersSound, SalesSound, WalletSound, PostingsSound;
    OrderFacts(b, k);
  }

  lemma RequestDoes(start: Books, events: seq<Event>, user: nat, k: nat)
    requires Opening(start) && k < |Run(start, events).orders| && k !in Run(start, events).readings
    ensures RequestKept(Run(start, events), Perform(Run(start, events), AskRefund(user, k)), user, k)
  {
    hide Run, Sound, Opening, RequestKept;
    RunKeepsSound(start, events);
    RequestAt(Run(start, events), start, user, k);
  }

  /** A WeChat session is opened on an unpaid order of the user; its stamp files the order under WeChat, once per session. */
  lemma SessionDoes(start: Books, events: seq<Event>, user: nat, k: nat)
    requires Opening(start) && k < |Run(start, events).orders|
    ensures var b := Run(start, events); var o := b.orders[k]; var r := Perform(b, StartWechat(user, k));
            && (o.user != user ==> r == Raised(OrderNotFound))
            && (o.user == user && o.payment == P.PaidUp ==> r == Raised(OrderAlreadyPaid))
            && (o.user == user && (o.payment == P.Voided || o.payment == P.Refunded) ==> r == Raised(OrderNotPayable))
            && (o.user == user && o.payment == P.Unpaid ==>
                  r == Done(b.(stamps := if o.channel == Wechat then b.stamps else b.stamps + multiset{k})))
    ensures var b := Run(start, events);
            k in b.stamps && k !in b.readings ==>
              Step(b, Stamp(k)) == b.(stamps := b.stamps - multiset{k}, orders := b.orders[k := b.orders[k].(channel := Wechat)])
  {
    hide Run, Sound, Opening;
    RunKeepsSound(start, events);
    var b := Run(start, events);
    SoundSales(b, start);
    OrderFacts(b, k);
  }

  /**
   * A payment sync keeps the row of an unpaid WeChat order of its user as it
   * finds it, and its items as they are when it reads them again; when it
   * cancels, what that row took is given back and the order voided.
   */
  lemma SyncDoes(start: Books, events: seq<Event>, user: nat, k: nat, i: nat)
    requires Opening(start) && k < |Run(start, events).orders|
    ensures var b := Run(start, events); var o := b.orders[k]; var r := Perform(b, SyncRead(user, k));
            && (o.user != user ==> r == Raised(OrderNotFound))
            && (o.user == user && o.payment == P.PaidUp ==> r == Done(b))
            && (o.user == user && o.payment != P.PaidUp && (o.payment != P.Unpaid || o.channel != Wechat) ==> r == Raised(OrderNotPayable))
            && (o.user == user && o.payment == P.Unpaid && o.channel == Wechat ==> r == Done(b.(syncs := b.syncs + [Sync(k, o, true)])))
    ensures var b := Run(start, events);
            i < |b.syncs| && b.syncs[i].live && b.syncs[i].order == k ==>
              && Step(b, SyncItems(i)) == b.(syncs := b.syncs[i := Sync(k, b.syncs[i].row.(items := b.orders[k].items), true)])
              && var c := b.(syncs := b.syncs[i := Sync(k, b.syncs[i].row, false)]);
                 Payable(b.syncs[i].row) && k !in b.readings ==> CancelDone(c, Step(b, SyncCancel(i)), k, b.syncs[i].row.items)
  {
    hide Run, Sound, Opening, CancelDone, CancelAs;
    RunKeepsSound(start, events);
    var b := Run(start, events);
    SoundSales(b, start);
    OrderFacts(b, k);
    if i < |b.syncs| && b.syncs[i].live && b.syncs[i].order == k {
      CancelDoes(b.(syncs := b.syncs[i := Sync(k, b.syncs[i].row, false)]), k, b.syncs[i].row);
    }
  }

  /** A payment that begins on an unpaid order reads the counters of the products the order sells, and nothing else happens. */
  lemma BeginDoes(start: Books, events: seq<Event>, k: nat)
    requires Opening(start) && Unpaid(Run(start, events), k) && k !in Run(start, events).readings
    ensures var b := Run(start, events); var a := Step(b, BeginPay(k));
            && k in a.readings && a == b.(readings := b.readings[k := a.readings[k]])
            && (forall p :: p in a.readings[k] <==> p in b.products && Sells(b.orders[k].items, p))
            && (forall p | p in a.readings[k] :: a.readings[k][p] == b.products[p].sales)
  {
    hide Run, Sound, Opening;
    RunKeepsSound(start, events);
    SoundSales(Run(start, events), start);
    UnpaidIs(Run(start, events), k);
  }
}
