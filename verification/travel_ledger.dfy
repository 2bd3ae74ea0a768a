/** The point rows of travel orders: exactly one debit each, and one refund once refunded. */
module TravelLedger {
  import opened Sums
  import opened Travel
  import opened TravelHistory
  import B = PointBook
  import H = PointHistory

  function NetOf(number: string): B.LedgerRow -> int {
    (r: B.LedgerRow) => if TravelKind(r.biz.kind) && r.biz.no == number then H.Signed(r) else 0
  }

  /** What an order has cost its owner so far: its price until the points are refunded, nothing afterwards. */
  function NetDue(o: Order): int { if o.pointsRefunded || o.cost <= 0 then 0 else -o.cost }

  predicate PaidFor(b: B.Book, o: Order) {
    && |o.number| <= 40
    && (o.cost > 0 ==>
         B.FindExpense(b, EXCHANGE, o.number).Some? && b.ledger[B.FindExpense(b, EXCHANGE, o.number).value].amount == o.cost)
    && (B.FindLedger(b, RefundKey(o.number)).Some? <==> o.pointsRefunded)
    && (o.cost <= 0 ==> !o.pointsRefunded)
    && Sum(b.ledger, NetOf(o.number)) == NetDue(o)
  }

  /** A row written for this order of this user. */
  predicate RowOf(o: Order, u: B.User, r: B.LedgerRow) {
    && o.user == u && r.biz.no == o.number
    && ((r.biz.kind == EXCHANGE && r.key == DebitKey(o.number)) || (r.biz.kind == EXCHANGE_REFUND && r.key == RefundKey(o.number)))
  }

  predicate Accounted(orders: seq<Order>, u: B.User, r: B.LedgerRow) {
    TravelRow(r) ==> exists k | 0 <= k < |orders| :: RowOf(orders[k], u, r)
  }

  predicate RowsAccounted(orders: seq<Order>, u: B.User, b: B.Book) {
    forall i | 0 <= i < |b.ledger| :: Accounted(orders, u, b.ledger[i])
  }

  predicate NumbersDistinct(orders: seq<Order>) { forall j, k | 0 <= j < k < |orders| :: orders[j].number != orders[k].number }

  predicate OrderPaid(d: Desk, k: nat)
    requires k < |d.orders|
  {
    d.orders[k].user in d.books && PaidFor(d.books[d.orders[k].user], d.orders[k])
  }

  predicate LedgersSound(d: Desk) {
    && NumbersDistinct(d.orders)
    && (forall u | u in d.books :: RowsAccounted(d.orders, u, d.books[u]))
    && forall k | 0 <= k < |d.orders| :: OrderPaid(d, k)
  }

  // ---------------------------------------------------------------- keys

  lemma KeysApart(n: string, m: string)
    ensures DebitKey(n) != RefundKey(m)
    ensures DebitKey(n) == DebitKey(m) ==> n == m
    ensures RefundKey(n) == RefundKey(m) ==> n == m
    ensures TravelKey(DebitKey(n)) && TravelKey(RefundKey(n))
    ensures |n| <= 40 ==> B.Cut(DebitKey(n)) == DebitKey(n) && B.Cut(RefundKey(n)) == RefundKey(n)
  {
    assert DebitKey(n)[15] == ':' && RefundKey(m)[15] == '-';
    assert DebitKey(n)[16..] == n && DebitKey(m)[16..] == m;
    assert RefundKey(n)[23..] == n && RefundKey(m)[23..] == m;
    assert "travel-exchange" == DebitKey(n)[..15] && "travel-exchange" == RefundKey(n)[..15];
  }

  lemma CutKeepsTravelKey(key: string)
    ensures TravelKey(B.Cut(key)) <==> TravelKey(key)
  {
    if |key| > 160 {
      assert key[..160][..15] == key[..15];
    }
  }

  lemma ServiceKeysForeign(u: B.User, lot: nat)
    ensures !TravelKey(B.Cut(B.ExpiryKey(u, lot))) && !TravelKey(B.Cut(B.OpeningKey(u)))
  {
    CutKeepsTravelKey(B.ExpiryKey(u, lot));
    CutKeepsTravelKey(B.OpeningKey(u));
    assert B.ExpiryKey(u, lot)[0] == 'p' && B.OpeningKey(u)[0] == 'l';
  }

  // ---------------------------------------------------------------- how point operations extend a ledger

  /** The ledger grows by rows that have nothing to do with travel orders. */
  predicate GrowsForeign(b: B.Book, b': B.Book) {
    && |b.ledger| <= |b'.ledger| && b'.ledger[..|b.ledger|] == b.ledger
    && forall i | |b.ledger| <= i < |b'.ledger| :: !TravelRow(b'.ledger[i])
  }

  lemma ExpiryForeign(u: B.User, b: B.Book, now: int)
    requires B.ExpireDue(u, b, now).Done?
    ensures GrowsForeign(b, B.ExpireDue(u, b, now).book)
  {
    hide B.DueIds, B.DueTotal, B.AfterExpiry, B.Draw, B.ExpiryKey, B.Cut;
    var due := B.DueIds(b.lots, now);
    if due != [] {
      ServiceKeysForeign(u, due[|due| - 1]);
    }
  }

  lemma CoverageForeign(u: B.User, b: B.Book, now: int)
    requires B.EnsureCoverage(u, b, now).Done?
    ensures GrowsForeign(b, B.EnsureCoverage(u, b, now).book)
  {
    hide B.Covered, B.OpeningKey, B.Cut;
    ServiceKeysForeign(u, 0);
  }

  /** A debit that really debits: foreign rows, then its own row. */
  predicate DebitRow(b: B.Book, b': B.Book, amount: int, biz: B.Biz, key: string) {
    && |b.ledger| < |b'.ledger| && b'.ledger[..|b.ledger|] == b.ledger
    && (forall i | |b.ledger| <= i < |b'.ledger| - 1 :: !TravelRow(b'.ledger[i]))
    && var r := b'.ledger[|b'.ledger| - 1];
       r.direction == B.Expense && r.amount == amount && r.biz == biz && r.key == B.Cut(key)
  }

  lemma DebitAppends(u: B.User, b: B.Book, amount: int, biz: B.Biz, key: string, now: int)
    requires amount > 0 && B.FindLedger(b, key).None? && B.Debit(u, b, amount, biz, key, now, now, now).Done?
    ensures DebitRow(b, B.Debit(u, b, amount, biz, key, now, now, now).book, amount, biz, key)
  {
    hide B.ExpireDue, B.EnsureCoverage, B.Covered, B.Draw, B.SpendOrder, B.AfterDraw, B.Cut, B.FindLedger;
    var expired := B.ExpireDue(u, b, now).book;
    ExpiryForeign(u, b, now);
    var backed := B.EnsureCoverage(u, expired, now).book;
    CoverageForeign(u, expired, now);
    assert backed.ledger[..|b.ledger|] == b.ledger;
    var last := B.Debit(u, b, amount, biz, key, now, now, now).book;
    assert last.ledger[..|backed.ledger|] == backed.ledger;
    assert last.ledger[..|b.ledger|] == b.ledger;
    forall i | |b.ledger| <= i < |backed.ledger| ensures !TravelRow(backed.ledger[i]) {
      if i < |expired.ledger| {
        assert backed.ledger[..|expired.ledger|][i] == expired.ledger[i];
      }
    }
  }

  lemma ForeignGrows(u: B.User, b: B.Book, e: H.Event)
    requires Foreign(e.op) && H.Perform(u, b, e).Done?
    ensures GrowsForeign(b, H.Perform(u, b, e).book)
  {
    hide B.ExpireDue, B.Debit, B.Covered, B.Draw, B.SpendOrder, B.AfterDraw, B.AfterRestore, B.SettleAll, B.Cut, B.FindLedger, B.FindExpense, B.RevocableLot;
    match e.op
    case DoCredit(_, _, key, _) => CutKeepsTravelKey(key);
    case DoDebit(amount, biz, key) =>
      DebitFinds(u, b, amount, biz, key, e.now);
      if amount > 0 && B.FindLedger(b, key).None? {
        DebitAppends(u, b, amount, biz, key, e.now);
        CutKeepsTravelKey(key);
      }
    case DoRefund(_, _, _, _, key, _) => CutKeepsTravelKey(key);
    case DoRevoke(_, key, _) => CutKeepsTravelKey(key);
    case DoExpire => ExpiryForeign(u, b, e.now);
  }

  lemma DebitFinds(u: B.User, b: B.Book, amount: int, biz: B.Biz, key: string, now: int)
    ensures B.Debit(u, b, amount, biz, key, now, now, now).Done? ==> amount > 0
    ensures B.FindLedger(b, key).Some? && amount > 0 ==> B.Debit(u, b, amount, biz, key, now, now, now) == B.Done(b, B.FindLedger(b, key))
  {
  }

  // ---------------------------------------------------------------- rows that do not concern an order

  predicate Irrelevant(r: B.LedgerRow, number: string) {
    !(TravelKind(r.biz.kind) && r.biz.no == number) && r.key != RefundKey(number)
  }

  lemma {:induction false} FirstWhereExtends<T>(s: seq<T>, t: seq<T>, p: T -> bool)
    requires |s| <= |t| && t[..|s|] == s
    requires B.FirstWhere(s, p).Some? || forall i | |s| <= i < |t| :: !p(t[i])
    ensures B.FirstWhere(t, p) == B.FirstWhere(s, p)
    decreases |t|
  {
    if |s| < |t| {
      assert t[..|t| - 1][..|s|] == s;
      FirstWhereExtends(s, t[..|t| - 1], p);
    } else {
      assert s == t;
    }
  }

  lemma IrrelevantRowsKeep(b: B.Book, b': B.Book, o: Order)
    requires PaidFor(b, o)
    requires |b.ledger| <= |b'.ledger| && b'.ledger[..|b.ledger|] == b.ledger
    requires forall i | |b.ledger| <= i < |b'.ledger| :: Irrelevant(b'.ledger[i], o.number)
    ensures PaidFor(b', o)
  {
    hide RefundKey, TravelKind;
    var n := |b.ledger|;
    FirstWhereExtends(b.ledger, b'.ledger, B.KeyIs(RefundKey(o.number)));
    if o.cost > 0 {
      FirstWhereExtends(b.ledger, b'.ledger, B.ExpenseOf(EXCHANGE, o.number));
    }
    assert b'.ledger == b.ledger + b'.ledger[n..];
    SumAppend(b.ledger, b'.ledger[n..], NetOf(o.number));
    SumZero(b'.ledger[n..], NetOf(o.number));
  }

  lemma ForeignIrrelevant(r: B.LedgerRow, number: string)
    requires !TravelRow(r)
    ensures Irrelevant(r, number)
  {
    KeysApart(number, number);
  }

  lemma ForeignKeepsPaid(b: B.Book, b': B.Book, o: Order)
    requires PaidFor(b, o) && GrowsForeign(b, b')
    ensures PaidFor(b', o)
  {
    hide PaidFor, TravelRow, Irrelevant;
    forall i | |b.ledger| <= i < |b'.ledger| ensures Irrelevant(b'.ledger[i], o.number) {
      ForeignIrrelevant(b'.ledger[i], o.number);
    }
    IrrelevantRowsKeep(b, b', o);
  }

  /** A row of another order does not concern this one. */
  lemma OtherOrderIrrelevant(r: B.LedgerRow, other: Order, u: B.User, number: string)
    requires RowOf(other, u, r) && other.number != number
    ensures Irrelevant(r, number)
  {
    KeysApart(other.number, number);
  }

  // ---------------------------------------------------------------- each kind of step

  lemma DealsKeepPaid(b: B.Book, o: Order, n: Order)
    requires PaidFor(b, o) && SameDeal(o, n)
    ensures PaidFor(b, n)
  {
  }

  lemma AccountedMoves(orders: seq<Order>, more: seq<Order>, u: B.User, r: B.LedgerRow)
    requires Accounted(orders, u, r) && |orders| <= |more|
    requires forall k | 0 <= k < |orders| :: more[k].user == orders[k].user && more[k].number == orders[k].number
    ensures Accounted(more, u, r)
  {
    if TravelRow(r) {
      var k :| 0 <= k < |orders| && RowOf(orders[k], u, r);
      assert RowOf(more[k], u, r);
    }
  }

  lemma DealsKeepLedgers(d: Desk, a: Desk)
    requires LedgersSound(d) && SameDeals(d.orders, a.orders) && a.books == d.books
    ensures LedgersSound(a)
  {
    hide PaidFor, TravelRow, RowOf, Accounted;
    assert forall k | 0 <= k < |d.orders| :: SameDeal(d.orders[k], a.orders[k]);
    forall u | u in a.books ensures RowsAccounted(a.orders, u, a.books[u]) {
      forall i | 0 <= i < |a.books[u].ledger| ensures Accounted(a.orders, u, a.books[u].ledger[i]) {
        AccountedMoves(d.orders, a.orders, u, d.books[u].ledger[i]);
      }
    }
    forall k | 0 <= k < |a.orders| ensures OrderPaid(a, k) {
      assert OrderPaid(d, k);
      DealsKeepPaid(d.books[d.orders[k].user], d.orders[k], a.orders[k]);
    }
  }

  lemma PointsKeepLedgers(d: Desk, u: B.User, e: H.Event)
    requires LedgersSound(d)
    ensures LedgersSound(Step(d, Points(u, e)))
  {
    hide PaidFor, TravelRow, RowOf, Accounted, H.Perform, Foreign, GrowsForeign;
    if u in d.books && Foreign(e.op) && H.Perform(u, d.books[u], e).Done? {
      var a := Step(d, Points(u, e));
      var b, b' := d.books[u], a.books[u];
      ForeignGrows(u, b, e);
      ForeignAccounted(d.orders, u, b, b');
      forall k | 0 <= k < |a.orders| ensures OrderPaid(a, k) {
        assert OrderPaid(d, k);
        if d.orders[k].user == u {
          ForeignKeepsPaid(b, b', d.orders[k]);
        }
      }
    }
  }

  lemma ForeignAccounted(orders: seq<Order>, u: B.User, b: B.Book, b': B.Book)
    requires RowsAccounted(orders, u, b) && GrowsForeign(b, b')
    ensures RowsAccounted(orders, u, b')
  {
    forall i | 0 <= i < |b'.ledger| ensures Accounted(orders, u, b'.ledger[i]) {
      if i < |b.ledger| {
        assert Accounted(orders, u, b.ledger[i]);
      }
    }
  }

  /** A number no order carries is on no ledger. */
  lemma NumberUnused(d: Desk, u: B.User, number: string, i: nat)
    requires LedgersSound(d) && u in d.books && !NumberTaken(d.orders, number) && i < |d.books[u].ledger|
    ensures Irrelevant(d.books[u].ledger[i], number) && d.books[u].ledger[i].key != DebitKey(number)
  {
    hide PaidFor, B.FindExpense, B.FindLedger;
    var r := d.books[u].ledger[i];
    assert RowsAccounted(d.orders, u, d.books[u]);
    assert Accounted(d.orders, u, r);
    KeysApart(number, number);
    if TravelRow(r) {
      var k :| 0 <= k < |d.orders| && RowOf(d.orders[k], u, r);
      KeysApart(d.orders[k].number, number);
      KeysApart(number, d.orders[k].number);
    }
  }

  /** The account of a new order right after its debit. */
  lemma NewOrderPaid(b: B.Book, b': B.Book, o: Order, biz: B.Biz)
    requires o.cost > 0 && !o.pointsRefunded && |o.number| <= 40
    requires biz.kind == EXCHANGE && biz.no == o.number && DebitRow(b, b', o.cost, biz, DebitKey(o.number))
    requires forall i | 0 <= i < |b.ledger| :: Irrelevant(b.ledger[i], o.number)
    ensures PaidFor(b', o)
  {
    hide RefundKey, DebitKey, B.Cut;
    var n := |b'.ledger| - 1;
    KeysApart(o.number, o.number);
    forall i | 0 <= i < n ensures Irrelevant(b'.ledger[i], o.number) {
      if i < |b.ledger| {
        assert b'.ledger[..|b.ledger|][i] == b.ledger[i];
      } else {
        ForeignIrrelevant(b'.ledger[i], o.number);
      }
    }
    assert b'.ledger == b'.ledger[..n] + [b'.ledger[n]];
    SumPush(b'.ledger[..n], b'.ledger[n], NetOf(o.number));
    SumZero(b'.ledger[..n], NetOf(o.number));
    assert B.ExpenseOf(EXCHANGE, o.number)(b'.ledger[n]);
    assert B.FindExpense(b', EXCHANGE, o.number).Some?;
    assert B.FindExpense(b', EXCHANGE, o.number).value == n;
  }

  lemma NewFreeOrderPaid(b: B.Book, o: Order)
    requires o.cost <= 0 && !o.pointsRefunded && |o.number| <= 40
    requires forall i | 0 <= i < |b.ledger| :: Irrelevant(b.ledger[i], o.number)
    ensures PaidFor(b, o)
  {
    SumZero(b.ledger, NetOf(o.number));
  }

  lemma DebitAccounted(orders: seq<Order>, o: Order, b: B.Book, b': B.Book, biz: B.Biz)
    requires RowsAccounted(orders, o.user, b) && |o.number| <= 40
    requires biz.kind == EXCHANGE && biz.no == o.number && DebitRow(b, b', o.cost, biz, DebitKey(o.number))
    ensures RowsAccounted(orders + [o], o.user, b')
  {
    hide TravelRow, RowOf, Accounted, B.Cut;
    KeysApart(o.number, o.number);
    forall i | 0 <= i < |b'.ledger| ensures Accounted(orders + [o], o.user, b'.ledger[i]) {
      if i < |b.ledger| {
        assert b'.ledger[..|b.ledger|][i] == b.ledger[i];
        AccountedMoves(orders, orders + [o], o.user, b.ledger[i]);
      } else if i < |b'.ledger| - 1 {
        AccountedForeign(orders + [o], o.user, b'.ledger[i]);
      } else {
        AccountedBy(orders + [o], |orders|, b'.ledger[i]);
      }
    }
  }

  lemma AccountedForeign(orders: seq<Order>, u: B.User, r: B.LedgerRow)
    requires !TravelRow(r)
    ensures Accounted(orders, u, r)
  {
  }

  lemma AccountedBy(orders: seq<Order>, k: nat, r: B.LedgerRow)
    requires k < |orders| && r.biz.no == orders[k].number
    requires (r.biz.kind == EXCHANGE && r.key == DebitKey(orders[k].number)) || (r.biz.kind == EXCHANGE_REFUND && r.key == RefundKey(orders[k].number))
    ensures Accounted(orders, orders[k].user, r) && RowOf(orders[k], orders[k].user, r)
  {
  }

  /** The rows a debit adds concern no other order. */
  lemma DebitKeepsOther(o: Order, b: B.Book, b': B.Book, biz: B.Biz, other: Order)
    requires PaidFor(b, other) && other.number != o.number && |o.number| <= 40
    requires biz.kind == EXCHANGE && biz.no == o.number && DebitRow(b, b', o.cost, biz, DebitKey(o.number))
    ensures PaidFor(b', other)
  {
    hide PaidFor, Irrelevant, TravelRow, B.Cut, RowOf;
    KeysApart(o.number, o.number);
    forall i | |b.ledger| <= i < |b'.ledger| ensures Irrelevant(b'.ledger[i], other.number) {
      if i < |b'.ledger| - 1 {
        ForeignIrrelevant(b'.ledger[i], other.number);
      } else {
        AccountedBy([o], 0, b'.ledger[i]);
        OtherOrderIrrelevant(b'.ledger[i], o, o.user, other.number);
      }
    }
    IrrelevantRowsKeep(b, b', other);
  }

  predicate Appended(d: Desk, a: Desk, o: Order) { a.orders == d.orders + [o] && o.user in d.books && !NumberTaken(d.orders, o.number) }

  lemma NumbersStayDistinct(orders: seq<Order>, o: Order)
    requires NumbersDistinct(orders) && !NumberTaken(orders, o.number)
    ensures NumbersDistinct(orders + [o])
  {
  }

  lemma PaidExchangeKeepsLedgers(d: Desk, a: Desk, o: Order, b': B.Book, biz: B.Biz)
    requires LedgersSound(d) && Appended(d, a, o) && a.books == d.books[o.user := b']
    requires o.cost > 0 && !o.pointsRefunded && |o.number| <= 40
    requires biz.kind == EXCHANGE && biz.no == o.number && DebitRow(d.books[o.user], b', o.cost, biz, DebitKey(o.number))
    ensures LedgersSound(a)
  {
    hide PaidFor, TravelRow, RowOf, Accounted, DebitRow, Irrelevant;
    var b := d.books[o.user];
    NumbersStayDistinct(d.orders, o);
    forall i | 0 <= i < |b.ledger| ensures Irrelevant(b.ledger[i], o.number) { NumberUnused(d, o.user, o.number, i); }
    NewOrderPaid(b, b', o, biz);
    DebitAccounted(d.orders, o, b, b', biz);
    OthersAccounted(d, a, o);
    forall k | 0 <= k < |a.orders| ensures OrderPaid(a, k) {
      if k < |d.orders| {
        assert OrderPaid(d, k);
        if d.orders[k].user == o.user {
          DebitKeepsOther(o, b, b', biz, d.orders[k]);
        }
      }
    }
  }

  lemma OthersAccounted(d: Desk, a: Desk, o: Order)
    requires LedgersSound(d) && Appended(d, a, o)
    ensures forall u | u in d.books :: RowsAccounted(a.orders, u, d.books[u])
  {
    hide TravelRow, RowOf, Accounted, PaidFor;
    forall u | u in d.books ensures RowsAccounted(a.orders, u, d.books[u]) {
      forall i | 0 <= i < |d.books[u].ledger| ensures Accounted(a.orders, u, d.books[u].ledger[i]) {
        AccountedMoves(d.orders, a.orders, u, d.books[u].ledger[i]);
      }
    }
  }

  lemma FreeExchangeKeepsLedgers(d: Desk, a: Desk, o: Order)
    requires LedgersSound(d) && Appended(d, a, o) && a.books == d.books
    requires o.cost <= 0 && !o.pointsRefunded && |o.number| <= 40
    ensures LedgersSound(a)
  {
    hide PaidFor, TravelRow, RowOf, Accounted, Irrelevant;
    var b := d.books[o.user];
    NumbersStayDistinct(d.orders, o);
    forall i | 0 <= i < |b.ledger| ensures Irrelevant(b.ledger[i], o.number) { NumberUnused(d, o.user, o.number, i); }
    NewFreeOrderPaid(b, o);
    OthersAccounted(d, a, o);
    forall k | 0 <= k < |a.orders| ensures OrderPaid(a, k) {
      if k < |d.orders| { assert OrderPaid(d, k); }
    }
  }

  lemma ExchangeKeepsLedgers(d: Desk, user: B.User, route: nat, key: string, number: string, departure: Option<int>, now: int)
    requires LedgersSound(d)
    ensures LedgersSound(After(d, Exchange(d, user, route, key, number, departure, now)))
  {
    hide LedgersSound, DebitRow, B.Debit, FindOrder, NumberTaken;
    var result := Exchange(d, user, route, key, number, departure, now);
    if result.Done? && result.desk != d {
      var a := result.desk;
      var o := a.orders[|d.orders|];
      var b := d.books[user];
      if o.cost > 0 {
        NoDebitYet(d, user, number);
        DebitAppends(user, b, o.cost, B.Biz(EXCHANGE, |d.orders|, number), DebitKey(number), now);
        PaidExchangeKeepsLedgers(d, a, o, a.books[user], B.Biz(EXCHANGE, |d.orders|, number));
      } else {
        assert a.books == d.books;
        FreeExchangeKeepsLedgers(d, a, o);
      }
    }
  }

  lemma NoDebitYet(d: Desk, u: B.User, number: string)
    requires LedgersSound(d) && u in d.books && !NumberTaken(d.orders, number)
    ensures B.FindLedger(d.books[u], DebitKey(number)).None?
  {
    hide LedgersSound, DebitKey;
    var found := B.FindLedger(d.books[u], DebitKey(number));
    if found.Some? {
      NumberUnused(d, u, number, found.value);
    }
  }

  // ---------------------------------------------------------------- giving points back

  /** The one row of a refund. */
  predicate ReturnRow(b: B.Book, b': B.Book, o: Order) {
    && |b'.ledger| == |b.ledger| + 1 && b'.ledger[..|b.ledger|] == b.ledger
    && var r := b'.ledger[|b.ledger|];
       r.direction == B.Income && r.amount == o.cost && r.biz.kind == EXCHANGE_REFUND && r.biz.no == o.number && r.key == RefundKey(o.number)
  }

  /** In every sound state the debit is found, so the points come back by refund, never as a plain credit. */
  lemma GiveBackRefunds(b: B.Book, o: Order, k: nat, now: int, fallback: int)
    requires PaidFor(b, o) && OwesPoints(o)
    ensures B.FindExpense(b, EXCHANGE, o.number).Some? && B.FindLedger(b, RefundKey(o.number)).None?
    ensures var back := GiveBack(b, o.cost, k, o.number, now, fallback);
            back == B.Refund(b, EXCHANGE, o.number, EXCHANGE_REFUND, k, RefundKey(o.number), now, Some(fallback))
            && (back.Done? ==> ReturnRow(b, back.book, o))
  {
    hide B.FindExpense, B.FindLedger, RefundKey, B.Cut, B.AfterRestore, B.SettleAll;
    KeysApart(o.number, o.number);
  }

  lemma ReturnSettles(b: B.Book, b': B.Book, o: Order)
    requires PaidFor(b, o) && OwesPoints(o) && ReturnRow(b, b', o)
    ensures PaidFor(b', o.(pointsRefunded := true))
  {
    hide RefundKey;
    var n := |b.ledger|;
    FirstWhereExtends(b.ledger, b'.ledger, B.ExpenseOf(EXCHANGE, o.number));
    assert B.KeyIs(RefundKey(o.number))(b'.ledger[n]);
    assert B.FindLedger(b', RefundKey(o.number)).Some?;
    assert b'.ledger == b.ledger + [b'.ledger[n]];
    SumPush(b.ledger, b'.ledger[n], NetOf(o.number));
  }

  lemma ReturnKeepsOther(b: B.Book, b': B.Book, o: Order, other: Order)
    requires PaidFor(b, other) && other.number != o.number && ReturnRow(b, b', o)
    ensures PaidFor(b', other)
  {
    hide PaidFor, Irrelevant, RowOf;
    AccountedBy([o], 0, b'.ledger[|b.ledger|]);
    OtherOrderIrrelevant(b'.ledger[|b.ledger|], o, o.user, other.number);
    IrrelevantRowsKeep(b, b', other);
  }

  lemma ReturnAccounted(orders: seq<Order>, k: nat, b: B.Book, b': B.Book)
    requires k < |orders| && RowsAccounted(orders, orders[k].user, b) && ReturnRow(b, b', orders[k])
    ensures RowsAccounted(orders, orders[k].user, b')
  {
    hide TravelRow, RowOf, Accounted;
    forall i | 0 <= i < |b'.ledger| ensures Accounted(orders, orders[k].user, b'.ledger[i]) {
      if i < |b.ledger| {
        assert b'.ledger[..|b.ledger|][i] == b.ledger[i];
      } else {
        AccountedBy(orders, k, b'.ledger[i]);
      }
    }
  }

  /** Order k changes only columns that carry no points, apart from the refund flag. */
  lemma FlaggedKeepsLedgers(d: Desk, a: Desk, k: nat, b': B.Book)
    requires LedgersSound(d) && k < |d.orders| && OwesPoints(d.orders[k])
    requires d.orders[k].user in d.books
    requires ReturnRow(d.books[d.orders[k].user], b', d.orders[k]) && a.books == d.books[d.orders[k].user := b']
    requires |a.orders| == |d.orders| && a.orders == d.orders[k := a.orders[k]]
    requires SameMoney(d.orders[k].(pointsRefunded := true), a.orders[k])
    ensures LedgersSound(a)
  {
    hide PaidFor, TravelRow, RowOf, Accounted, ReturnRow, RowsAccounted;
    var o := d.orders[k];
    var b := d.books[o.user];
    assert OrderPaid(d, k);
    ReturnSettles(b, b', o);
    SameMoneyKeepsPaid(b', o.(pointsRefunded := true), a.orders[k]);
    ReturnAccounted(d.orders, k, b, b');
    forall u | u in a.books ensures RowsAccounted(a.orders, u, a.books[u]) {
      RowsAccountedMove(d.orders, a.orders, u, if u == o.user then b' else d.books[u]);
    }
    forall j | 0 <= j < |a.orders| ensures OrderPaid(a, j) {
      assert OrderPaid(d, j);
      if j != k && d.orders[j].user == o.user {
        ReturnKeepsOther(b, b', o, d.orders[j]);
      }
    }
  }

  predicate SameMoney(o: Order, n: Order) {
    n.user == o.user && n.number == o.number && n.cost == o.cost && n.pointsRefunded == o.pointsRefunded
  }

  lemma SameMoneyKeepsPaid(b: B.Book, o: Order, n: Order)
    requires PaidFor(b, o) && SameMoney(o, n)
    ensures PaidFor(b, n)
  {
  }

  lemma RowsAccountedMove(orders: seq<Order>, more: seq<Order>, u: B.User, b: B.Book)
    requires RowsAccounted(orders, u, b) && |orders| <= |more|
    requires forall k | 0 <= k < |orders| :: more[k].user == orders[k].user && more[k].number == orders[k].number
    ensures RowsAccounted(more, u, b)
  {
    hide TravelRow, RowOf, Accounted;
    forall i | 0 <= i < |b.ledger| ensures Accounted(more, u, b.ledger[i]) {
      AccountedMoves(orders, more, u, b.ledger[i]);
    }
  }

  /** A cancellation that owes nothing leaves every account as it is. */
  lemma FreeDropKeepsLedgers(d: Desk, k: nat)
    requires LedgersSound(d) && k < |d.orders| && !OwesPoints(d.orders[k])
    ensures LedgersSound(Drop(d, k))
  {
    hide PaidFor, TravelRow, RowOf, Accounted, RowsAccounted;
    var a := Drop(d, k);
    forall u | u in a.books ensures RowsAccounted(a.orders, u, a.books[u]) {
      RowsAccountedMove(d.orders, a.orders, u, d.books[u]);
    }
    forall j | 0 <= j < |a.orders| ensures OrderPaid(a, j) {
      assert OrderPaid(d, j);
      SameMoneyKeepsPaid(d.books[d.orders[j].user], d.orders[j], a.orders[j]);
    }
  }

  lemma CancelKeepsLedgers(d: Desk, k: nat, actor: Option<B.User>, validDays: int, now: int)
    requires LedgersSound(d)
    ensures LedgersSound(After(d, Cancel(d, k, actor, validDays, now)))
  {
    hide LedgersSound, GiveBack, PaidFor, ReturnRow, NonCancellable, UserCancellable, OrderPaid, Drop, SameMoney, B.FindExpense, B.FindLedger, Max, RefundKey;
    var result := Cancel(d, k, actor, validDays, now);
    if result.Done? && result.desk != d {
      var o := d.orders[k];
      if OwesPoints(o) {
        OrderIsPaid(d, k);
        PaidOnBook(d, k);
        GiveBackRefunds(d.books[o.user], o, k, now, now + Max(1, validDays) * DAY);
        var back := GiveBack(d.books[o.user], o.cost, k, o.number, now, now + Max(1, validDays) * DAY);
        DropFlags(d.(books := d.books[o.user := back.book]), k);
        FlaggedKeepsLedgers(d, result.desk, k, back.book);
      } else {
        FreeDropKeepsLedgers(d, k);
      }
    }
  }

  lemma PaidOnBook(d: Desk, k: nat)
    requires k < |d.orders| && OrderPaid(d, k)
    ensures d.orders[k].user in d.books && PaidFor(d.books[d.orders[k].user], d.orders[k])
  {
  }

  lemma DropFlags(d: Desk, k: nat)
    requires k < |d.orders| && OwesPoints(d.orders[k])
    ensures var a := Drop(d, k);
            && a.books == d.books && |a.orders| == |d.orders| && a.orders == d.orders[k := a.orders[k]]
            && SameMoney(d.orders[k].(pointsRefunded := true), a.orders[k])
  {
  }

  lemma OrderIsPaid(d: Desk, k: nat)
    requires LedgersSound(d) && k < |d.orders|
    ensures OrderPaid(d, k)
  {
  }

  lemma StepKeepsLedgers(d: Desk, e: Event)
    requires LedgersSound(d)
    ensures LedgersSound(Step(d, e))
  {
    hide LedgersSound, Exchange, Cancel;
    match e
    case DoExchange(user, route, key, number, departure, now) => ExchangeKeepsLedgers(d, user, route, key, number, departure, now);
    case DoCancel(k, actor, validDays, now) => CancelKeepsLedgers(d, k, actor, validDays, now);
    case Points(u, event) => PointsKeepLedgers(d, u, event);
    case _ =>
      StepKeepsDeals(d, e);
      DealsKeepLedgers(d, Step(d, e));
  }
}
