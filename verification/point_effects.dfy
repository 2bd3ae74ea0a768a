/** What each points operation writes: its one ledger row, the lots it moves, the allocations it books. */
module PointEffects {
  import opened Sums
  import opened PointBook
  import opened PointLots
  import opened PointHistory
  import opened PointTheorems
  import opened PointRevocation
  import opened Digits

  // ---------------------------------------------------------------- rows

  /** One more row, which takes the balance from before to after under the stored form of the key. */
  predicate RowAdded(b: Book, a: Book, direction: Direction, amount: int, biz: Biz, key: string) {
    && a.points == (if direction == Income then b.points + amount else b.points - amount)
    && a.ledger == b.ledger + [LedgerRow(direction, amount, b.points, a.points, biz, Cut(key))]
  }

  /** The row that a known key stands for. */
  predicate Replays(b: Book, o: Outcome, key: string) {
    o.Done? && o.book == b && o.row.Some? && o.row.value < |b.ledger| && b.ledger[o.row.value].key == key
  }

  /** A credit: refused for no amount, answered for a known key, refused for a taken stored key, and otherwise one row and one lot. */
  lemma CreditDoes(b: Book, amount: int, biz: Biz, key: string, expiresAt: Option<int>)
    ensures var o := Credit(b, amount, biz, key, expiresAt);
            if amount <= 0 then o == Raised(InvalidAmount)
            else if !KeyFree(b, key) then Replays(b, o, key)
            else if !KeyFree(b, Cut(key)) then o == Raised(DuplicateKey)
            else
              && o.Done? && o.row == Some(|b.ledger|) && RowAdded(b, o.book, Income, amount, biz, key)
              && o.book.lots == b.lots + [Lot(|b.ledger|, amount, amount, expiresAt, Active)] && o.book.allocations == b.allocations
  {
    hide Cut;
    NotFound(b, key);
    NotFound(b, Cut(key));
    if FindLedger(b, key).Some? { assert KeyIs(key)(b.ledger[FindLedger(b, key).value]); }
  }

  // ---------------------------------------------------------------- expiry

  /** The new allocations book the shares of that row, lot by lot. */
  predicate Booked(b: Book, a: Book, row: nat) {
    && |b.allocations| <= |a.allocations| && a.allocations[..|b.allocations|] == b.allocations
    && (forall k | |b.allocations| <= k < |a.allocations| ::
          a.allocations[k].expense == row && a.allocations[k].restored == 0 && a.allocations[k].lot < |b.lots|)
  }

  /** What lot i has paid in the new allocations. */
  function Share(b: Book, a: Book, i: nat): int
    requires |b.allocations| <= |a.allocations|
  {
    Sum(a.allocations[|b.allocations|..], AmountOn(i))
  }

  lemma {:induction false} DrawRows(lots: seq<Lot>, order: seq<nat>, n: int, e: nat)
    requires Below(order, |lots|)
    ensures forall k | 0 <= k < |Draw(lots, order, n, e)| ::
              Draw(lots, order, n, e)[k].expense == e && Draw(lots, order, n, e)[k].restored == 0 && Draw(lots, order, n, e)[k].lot < |lots|
  {
    if order != [] && n > 0 {
      DrawRows(lots, order[1..], n - Min(lots[order[0]].remaining, n), e);
    }
  }

  /** The expiry row: it names the highest lot that was due. */
  predicate ExpiryRow(b: Book, r: LedgerRow, now: int) {
    && r.direction == Expense && r.before == b.points && r.after == b.points - r.amount
    && r.amount == Sum(b.lots, RemainingIf(DueAt(now))) && r.biz.kind == "points_expired"
    && 0 <= r.biz.id < |b.lots| && Due(b.lots[r.biz.id], now) && r.biz.no == Str(r.biz.id)
    && forall i | 0 <= i < |b.lots| && Due(b.lots[i], now) :: i <= r.biz.id
  }

  /** In sound books an expiry that goes through empties exactly the due lots, each booked in full against its one row. */
  lemma ExpiryDoes(u: User, h: History, now: int)
    requires Sound(h) && ExpireDue(u, h.book, now).Done?
    ensures var b, a := h.book, ExpireDue(u, h.book, now).book;
            && |a.lots| == |b.lots|
            && (forall i | 0 <= i < |b.lots| ::
                  a.lots[i] == if Due(b.lots[i], now) then b.lots[i].(remaining := 0, status := Expired) else b.lots[i])
            && (if exists i | 0 <= i < |b.lots| :: Due(b.lots[i], now) then
                  && |a.ledger| == |b.ledger| + 1 && a.ledger[..|b.ledger|] == b.ledger
                  && ExpiryRow(b, a.ledger[|b.ledger|], now) && a.points == a.ledger[|b.ledger|].after
                  && Booked(b, a, |b.ledger|)
                  && forall i: nat | i < |b.lots| :: Share(b, a, i) == if Due(b.lots[i], now) then b.lots[i].remaining else 0
                else a == b)
  {
    hide Cut, ExpiryKey, DueTotal, DoubleEntry, RowsBacked, Chained, AllocationsSound, RevocationsSound, KeyTaken, DueIds, Draw;
    var b, a := h.book, ExpireDue(u, h.book, now).book;
    SoundParts(h);
    ExpiryTakesAllDue(b, now);
    NoneDue(b, now);
    DueIsDrawable(b.lots, now);
    if DueIds(b.lots, now) != [] {
      DrawRows(b.lots, DueIds(b.lots, now), DueTotal(b.lots, now), |b.ledger|);
      DueSum(b.lots, now);
      ExpiryDraws(b.lots, now, |b.ledger|);
      assert a.allocations[|b.allocations|..] == Draw(b.lots, DueIds(b.lots, now), DueTotal(b.lots, now), |b.ledger|);
    }
  }

  /** On any book, also one whose balance no longer covers its lots: what is due is written off, and the balance never goes below zero for it. */
  lemma ExpiryWritesOff(u: User, b: Book, now: int)
    requires ExpireDue(u, b, now).Done?
    ensures var a := ExpireDue(u, b, now).book;
            && |a.lots| == |b.lots|
            && (forall i | 0 <= i < |b.lots| ::
                  a.lots[i] == if Due(b.lots[i], now) then b.lots[i].(remaining := 0, status := Expired) else b.lots[i])
            && a.points == b.points - Max0(Min(b.points, Sum(b.lots, RemainingIf(DueAt(now)))))
  {
    hide Cut, ExpiryKey, KeyTaken, DueIds, Draw, DueTotal;
    NoneDue(b, now);
    DueSum(b.lots, now);
    if DueIds(b.lots, now) == [] { SumZero(b.lots, RemainingIf(DueAt(now))); }
  }

  lemma DueSum(lots: seq<Lot>, now: int)
    ensures DueTotal(lots, now) == Sum(lots, RemainingIf(DueAt(now)))
  {
    SelectedTotal(lots, DueAt(now));
  }

  lemma NoneDue(b: Book, now: int)
    ensures DueIds(b.lots, now) != [] <==> exists i | 0 <= i < |b.lots| :: Due(b.lots[i], now)
    ensures DueIds(b.lots, now) != [] ==>
              var last := DueIds(b.lots, now)[|DueIds(b.lots, now)| - 1];
              last < |b.lots| && Due(b.lots[last], now) && forall i | 0 <= i < |b.lots| && Due(b.lots[i], now) :: i <= last
  {
    var due := DueIds(b.lots, now);
    if due != [] {
      assert due[|due| - 1] in due && DueAt(now)(b.lots[due[|due| - 1]]);
    }
    forall i | 0 <= i < |b.lots| && Due(b.lots[i], now) ensures due != [] && i <= due[|due| - 1] {
      assert DueAt(now)(b.lots[i]);
      assert i in due;
      var k :| 0 <= k < |due| && due[k] == i;
      assert k < |due| - 1 ==> due[k] < due[|due| - 1];
    }
  }

  // ---------------------------------------------------------------- debits

  /** A lot that has paid s: as much less, used up if nothing is left, otherwise as it was. */
  predicate LotPaid(l: Lot, n: Lot, s: int) {
    n == l.(remaining := l.remaining - s, status := if s > 0 && l.remaining == s then Consumed else l.status)
  }

  /**
   * In sound books a debit under a new key goes through exactly when what is
   * left after expiry suffices and the stored key is new; then its row takes the
   * amount from that balance, and what each lot lost is booked against it.
   */
  lemma DebitDoes(u: User, h: History, amount: int, biz: Biz, key: string, now: int)
    requires Sound(h) && amount > 0 && KeyFree(h.book, key) && ExpireDue(u, h.book, now).Done?
    ensures var b, o := ExpireDue(u, h.book, now).book, Debit(u, h.book, amount, biz, key, now, now, now);
            && (o.Done? <==> amount <= b.points && KeyFree(b, Cut(key)))
            && (amount > b.points ==> o == Raised(InsufficientPoints))
            && (amount <= b.points && !KeyFree(b, Cut(key)) ==> o == Raised(DuplicateKey))
            && (o.Done? ==>
                  && o.row == Some(|b.ledger|) && RowAdded(b, o.book, Expense, amount, biz, key)
                  && |o.book.lots| == |b.lots| && Booked(b, o.book, |b.ledger|)
                  && (forall i: nat | i < |b.lots| :: Share(b, o.book, i) >= 0 && LotPaid(b.lots[i], o.book.lots[i], Share(b, o.book, i))))
  {
    hide Sound, ExpireDue, EnsureCoverage, Spend, Cut, KeyFree, RowAdded, Booked, LotPaid;
    NotFound(h.book, key);
    ExpireKeepsSound(u, h, now);
    var e := History(ExpireDue(u, h.book, now).book, h.revoked);
    SoundBook(e);
    CoverageIsNoOp(u, e.book, now);
    SpendDoes(e, amount, biz, key, now);
  }

  lemma SpendDoes(h: History, amount: int, biz: Biz, key: string, now: int)
    requires Sound(h) && amount > 0 && DueIds(h.book.lots, now) == []
    ensures var b, o := h.book, Spend(h.book, h.book.points, amount, biz, key, now);
            && (amount <= b.points && KeyFree(b, Cut(key)) ==> o.Done?)
            && (amount <= b.points && !KeyFree(b, Cut(key)) ==> o == Raised(DuplicateKey))
            && (o.Done? ==>
                  && KeyFree(b, Cut(key)) && o.row == Some(|b.ledger|) && RowAdded(b, o.book, Expense, amount, biz, key)
                  && |o.book.lots| == |b.lots| && Booked(b, o.book, |b.ledger|)
                  && (forall i: nat | i < |b.lots| :: Share(b, o.book, i) >= 0 && LotPaid(b.lots[i], o.book.lots[i], Share(b, o.book, i))))
  {
    hide Cut, SpendOrder, Draw, Covered, DoubleEntry, RowsBacked, Chained, KeysDistinct, AllocationsSound, RevocationsSound;
    var b := h.book;
    var draw := Draw(b.lots, SpendOrder(b.lots, now), amount, |b.ledger|);
    NotFound(b, Cut(key));
    SoundParts(h);
    AllCovered(h, now);
    SpendOrderIs(b.lots, now);
    SpendableIsDrawable(b.lots, now);
    DrawRows(b.lots, SpendOrder(b.lots, now), amount, |b.ledger|);
    DrawPositive(b.lots, SpendOrder(b.lots, now), amount, |b.ledger|);
    if Spend(b, b.points, amount, biz, key, now).Done? {
      assert Spend(b, b.points, amount, biz, key, now).book.allocations[|b.allocations|..] == draw;
      forall i: nat | i < |b.lots| ensures Sum(draw, AmountOn(i)) >= 0 { SumAtLeast(draw, AmountOn(i)); }
    }
  }

  lemma {:induction false} DrawPositive(lots: seq<Lot>, order: seq<nat>, n: int, e: nat)
    requires Drawable(lots, order)
    ensures forall k | 0 <= k < |Draw(lots, order, n, e)| :: Draw(lots, order, n, e)[k].amount >= 0
  {
    if order != [] && n > 0 {
      DrawPositive(lots, order[1..], n - Min(lots[order[0]].remaining, n), e);
    }
  }

  /** With nothing due, every point of a sound book can be spent. */
  lemma AllCovered(h: History, now: int)
    requires Sound(h) && DueIds(h.book.lots, now) == []
    ensures Covered(h.book.lots, now) == h.book.points
  {
    hide DoubleEntry, RowsBacked, Chained, KeysDistinct, AllocationsSound, RevocationsSound, Covered;
    SoundParts(h);
    forall i | 0 <= i < |h.book.lots|
      ensures h.book.lots[i].remaining >= 0 && (h.book.lots[i].status != Active ==> h.book.lots[i].remaining == 0)
    {
      assert LotSound(h.book.lots[i], |h.book.ledger|);
    }
    TotalSplits(h.book.lots, now);
  }

  // ---------------------------------------------------------------- refunds

  predicate IsExpenseOf(r: LedgerRow, kind: string, no: string) { r.direction == Expense && r.biz.kind == kind && r.biz.no == no }

  /** Row e is the first expense row of that business. */
  predicate Original(b: Book, kind: string, no: string, e: nat) {
    && e < |b.ledger| && IsExpenseOf(b.ledger[e], kind, no) && forall j | 0 <= j < e :: !IsExpenseOf(b.ledger[j], kind, no)
  }

  /** A lot that gets s back: active again, with a new date if the old one has passed. */
  predicate LotRestored(l: Lot, n: Lot, s: int, now: int, fallback: Option<int>) {
    if s <= 0 then n == l
    else
      && n.remaining == l.remaining + s && n.status == Active && n.source == l.source && n.original == l.original
      && n.expiresAt == if l.expiresAt.Some? && l.expiresAt.value <= now then fallback else l.expiresAt
  }

  /**
   * A refund under a new key of an expense on the ledger: one row for the full
   * amount, every lot back what it still had open for that expense, the rest on
   * a lot of its own, and nothing left open.
   */
  lemma RefundDoes(b: Book, kind: string, no: string, refundKind: string, bizId: int, key: string, now: int, fallback: Option<int>)
    ensures var o := Refund(b, kind, no, refundKind, bizId, key, now, fallback);
            && (!KeyFree(b, key) ==> Replays(b, o, key))
            && (KeyFree(b, key) && (forall e: nat :: !Original(b, kind, no, e)) ==> o == Raised(DebitNotFound))
            && (KeyFree(b, key) && (exists e: nat :: Original(b, kind, no, e)) && !KeyFree(b, Cut(key)) ==> o == Raised(DuplicateKey))
            && (KeyFree(b, key) && KeyFree(b, Cut(key)) ==> forall e: nat | Original(b, kind, no, e) :: Refunded(b, o, e, Biz(refundKind, bizId, no), key, now, fallback))
  {
    hide Cut, KeyFree, KeyTaken, FindLedger, Refunded;
    NotFound(b, key);
    NotFound(b, Cut(key));
    KnownReplays(b, key);
    var found := FindExpense(b, kind, no);
    OriginalFound(b, kind, no);
    if KeyFree(b, key) && KeyFree(b, Cut(key)) && found.Some? {
      assert Original(b, kind, no, found.value);
      RefundedAt(b, kind, no, refundKind, bizId, key, now, fallback, found.value);
    }
  }

  lemma OriginalFound(b: Book, kind: string, no: string)
    ensures var found := FindExpense(b, kind, no);
            && (found.Some? ==> Original(b, kind, no, found.value))
            && (forall e: nat | Original(b, kind, no, e) :: found == Some(e))
  {
  }

  lemma KnownReplays(b: Book, key: string)
    ensures FindLedger(b, key).Some? ==> FindLedger(b, key).value < |b.ledger| && b.ledger[FindLedger(b, key).value].key == key
  {
    if FindLedger(b, key).Some? { assert KeyIs(key)(b.ledger[FindLedger(b, key).value]); }
  }

  predicate Refunded(b: Book, o: Outcome, e: nat, biz: Biz, key: string, now: int, fallback: Option<int>)
    requires e < |b.ledger|
  {
    var amount := b.ledger[e].amount;
    var restored := Sum(b.allocations, OpenOf(e, |b.lots|));
    && o.Done? && o.row == Some(|b.ledger|) && RowAdded(b, o.book, Income, amount, biz, key)
    && |b.lots| <= |o.book.lots|
    && (forall i: nat | i < |b.lots| ::
          LotRestored(b.lots[i], o.book.lots[i], Sum(b.allocations, OpenOfOn(e, |b.lots|, i)), now, fallback))
    && (if restored < amount then o.book.lots[|b.lots|..] == [Lot(|b.ledger|, amount - restored, amount - restored, fallback, Active)]
        else |o.book.lots| == |b.lots|)
    && |o.book.allocations| == |b.allocations|
    && (forall k | 0 <= k < |b.allocations| ::
          o.book.allocations[k] == if Restorable(b.allocations[k], e, |b.lots|) then b.allocations[k].(restored := b.allocations[k].amount)
                                   else b.allocations[k])
  }

  lemma RefundedAt(b: Book, kind: string, no: string, refundKind: string, bizId: int, key: string, now: int, fallback: Option<int>, e: nat)
    requires FindLedger(b, key).None? && FindExpense(b, kind, no) == Some(e) && !KeyTaken(b, Cut(key))
    ensures Refunded(b, Refund(b, kind, no, refundKind, bizId, key, now, fallback), e, Biz(refundKind, bizId, no), key, now, fallback)
  {
    hide Cut, KeyTaken, FindLedger, FindExpense, Sum;
  }
}
