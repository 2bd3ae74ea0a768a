/**
 * Whole runs of point operations.  A history is the book plus a record of the
 * revocations made so far, because a revoked amount leaves no allocation.
 */
module PointHistory {
  import opened Sums
  import opened PointBook
  import opened PointLots

  datatype Revocation = Revocation(row: nat, lot: nat)

  datatype History = History(book: Book, revoked: seq<Revocation>)

  datatype Op =
    | DoCredit(amount: int, biz: Biz, key: string, expiresAt: Option<int>)
    | DoDebit(amount: int, biz: Biz, key: string)
    | DoRefund(kind: string, no: string, refundKind: string, bizId: int, key: string, fallback: Option<int>)
    | DoRevoke(creditKey: string, key: string, biz: Biz)
    | DoExpire

  datatype Event = Event(op: Op, now: int)

  function Perform(u: User, b: Book, e: Event): Outcome {
    match e.op
    case DoCredit(amount, biz, key, expiresAt) => Credit(b, amount, biz, key, expiresAt)
    case DoDebit(amount, biz, key) => Debit(u, b, amount, biz, key, e.now, e.now, e.now)
    case DoRefund(kind, no, refundKind, bizId, key, fallback) => Refund(b, kind, no, refundKind, bizId, key, e.now, fallback)
    case DoRevoke(creditKey, key, biz) => Revoke(b, creditKey, key, biz)
    case DoExpire => ExpireDue(u, b, e.now)
  }

  function Step(u: User, h: History, e: Event): History {
    var o := Perform(u, h.book, e);
    if o.Raised? then h
    else if e.op.DoRevoke? && |o.book.ledger| > |h.book.ledger| && RevocableLot(h.book, e.op.creditKey).Some? then
      History(o.book, h.revoked + [Revocation(|h.book.ledger|, RevocableLot(h.book, e.op.creditKey).value)])
    else History(o.book, h.revoked)
  }

  function Run(u: User, h: History, events: seq<Event>): History {
    if events == [] then h else Step(u, Run(u, h, events[..|events| - 1]), events[|events| - 1])
  }

  const START: History := History(EMPTY, [])

  // ---------------------------------------------------------------- the invariant

  predicate Balanced(b: Book) { b.points == Sum(b.lots, Remaining) }

  predicate LotSound(l: Lot, rows: nat) {
    l.remaining >= 0 && (l.status != Active ==> l.remaining == 0) && l.source < rows
  }

  predicate LotsSound(b: Book) { forall i | 0 <= i < |b.lots| :: LotSound(b.lots[i], |b.ledger|) }

  predicate AllocationSound(a: Allocation, b: Book) {
    && a.expense < |b.ledger| && b.ledger[a.expense].direction == Expense
    && a.lot < |b.lots| && 0 <= a.restored <= a.amount
  }

  predicate AllocationsSound(b: Book) { forall k | 0 <= k < |b.allocations| :: AllocationSound(b.allocations[k], b) }

  predicate RevocationsSound(h: History) {
    forall k | 0 <= k < |h.revoked| ::
      && h.revoked[k].row < |h.book.ledger| && h.book.ledger[h.revoked[k].row].direction == Expense
      && h.revoked[k].lot < |h.book.lots|
  }

  function OpenOn(lot: nat): Allocation -> int {
    (a: Allocation) => if a.lot == lot then a.amount - a.restored else 0
  }

  function RevokedOn(ledger: seq<LedgerRow>, lot: nat): Revocation -> int {
    (v: Revocation) => if v.lot == lot && v.row < |ledger| then ledger[v.row].amount else 0
  }

  /** Every lot: what is left, what expenses hold of it and what was revoked make up the grant. */
  predicate DoubleEntry(h: History) {
    forall i | 0 <= i < |h.book.lots| ::
      h.book.lots[i].remaining + Sum(h.book.allocations, OpenOn(i)) + Sum(h.revoked, RevokedOn(h.book.ledger, i))
      == h.book.lots[i].original
  }

  predicate IsRevocation(revoked: seq<Revocation>, row: nat) { exists k | 0 <= k < |revoked| :: revoked[k].row == row }

  /** Every debit and expiry row is paid in full by its allocations; a revocation row has none. */
  predicate RowsBacked(h: History) {
    forall r: nat | r < |h.book.ledger| && h.book.ledger[r].direction == Expense ::
      Sum(h.book.allocations, AmountFor(r)) == if IsRevocation(h.revoked, r) then 0 else h.book.ledger[r].amount
  }

  function Closing(ledger: seq<LedgerRow>): int { if ledger == [] then 0 else ledger[|ledger| - 1].after }

  function Signed(r: LedgerRow): int { if r.direction == Income then r.amount else -r.amount }

  predicate RowChained(ledger: seq<LedgerRow>, j: nat)
    requires j < |ledger|
  {
    ledger[j].amount > 0 && ledger[j].before == Closing(ledger[..j]) && ledger[j].after == ledger[j].before + Signed(ledger[j])
  }

  /** Each row starts from the balance the previous row closed with, and the last one closed with today's balance. */
  predicate Chained(b: Book) {
    b.points == Closing(b.ledger) && forall j | 0 <= j < |b.ledger| :: RowChained(b.ledger, j)
  }

  predicate KeysDistinct(b: Book) {
    && (forall i | 0 <= i < |b.ledger| :: |b.ledger[i].key| <= 160)
    && (forall i, j | 0 <= i < j < |b.ledger| :: b.ledger[i].key != b.ledger[j].key)
  }

  predicate Sound(h: History) {
    && Balanced(h.book) && LotsSound(h.book) && AllocationsSound(h.book) && RevocationsSound(h)
    && DoubleEntry(h) && RowsBacked(h) && Chained(h.book) && KeysDistinct(h.book)
  }

  // ---------------------------------------------------------------- posting one row

  lemma ChainExtends(b: Book, row: LedgerRow)
    requires Chained(b) && row.amount > 0 && row.before == b.points && row.after == b.points + Signed(row)
    ensures Chained(Book(row.after, b.ledger + [row], b.lots, b.allocations))
  {
    var ledger := b.ledger + [row];
    forall j | 0 <= j < |ledger| ensures RowChained(ledger, j) {
      if j < |b.ledger| {
        assert RowChained(b.ledger, j);
        assert ledger[..j] == b.ledger[..j];
      } else {
        assert ledger[..j] == b.ledger;
      }
    }
  }

  /** Growing the ledger changes nothing that the old revocations took. */
  lemma RevokedStays(revoked: seq<Revocation>, ledger: seq<LedgerRow>, row: LedgerRow, i: nat)
    requires forall k | 0 <= k < |revoked| :: revoked[k].row < |ledger|
    ensures Sum(revoked, RevokedOn(ledger + [row], i)) == Sum(revoked, RevokedOn(ledger, i))
  {
    assert forall k | 0 <= k < |revoked| :: RevokedOn(ledger + [row], i)(revoked[k]) == RevokedOn(ledger, i)(revoked[k]);
    SumSame(revoked, revoked, RevokedOn(ledger + [row], i), RevokedOn(ledger, i));
  }

  lemma NewRowUnused(b: Book, r: nat)
    requires AllocationsSound(b) && r >= |b.ledger|
    ensures Sum(b.allocations, AmountFor(r)) == 0
  {
    forall k | 0 <= k < |b.allocations| ensures AmountFor(r)(b.allocations[k]) == 0 {
      assert AllocationSound(b.allocations[k], b);
    }
    SumZero(b.allocations, AmountFor(r));
  }

  lemma NewLotUnused(h: History, i: nat)
    requires AllocationsSound(h.book) && RevocationsSound(h) && i >= |h.book.lots|
    ensures Sum(h.book.allocations, OpenOn(i)) == 0 && Sum(h.revoked, RevokedOn(h.book.ledger, i)) == 0
  {
    forall k | 0 <= k < |h.book.allocations| ensures OpenOn(i)(h.book.allocations[k]) == 0 {
      assert AllocationSound(h.book.allocations[k], h.book);
    }
    SumZero(h.book.allocations, OpenOn(i));
    SumZero(h.revoked, RevokedOn(h.book.ledger, i));
  }

  /** The book b' is b after an expense row of n points paid by the given draw. */
  predicate PostsExpense(b: Book, b': Book, n: int, draw: seq<Allocation>) {
    && n > 0
    && |b'.ledger| == |b.ledger| + 1 && b'.ledger[..|b.ledger|] == b.ledger
    && var row := b'.ledger[|b.ledger|];
    && row.direction == Expense && row.amount == n && row.before == b.points && row.after == b.points - n
    && |row.key| <= 160 && !KeyTaken(b, row.key)
    && b'.points == b.points - n
    && |b'.lots| == |b.lots|
    && (forall i | 0 <= i < |b.lots| ::
          && b'.lots[i].remaining == b.lots[i].remaining - Sum(draw, AmountOn(i))
          && b'.lots[i].original == b.lots[i].original)
    && b'.allocations == b.allocations + draw
    && (forall k | 0 <= k < |draw| ::
          draw[k].expense == |b.ledger| && draw[k].lot < |b.lots| && draw[k].amount >= 0 && draw[k].restored == 0)
    && Sum(draw, Amount) == n
  }

  lemma ExpenseEntries(h: History, b': Book, n: int, draw: seq<Allocation>)
    requires Sound(h) && PostsExpense(h.book, b', n, draw)
    ensures AllocationsSound(b') && RevocationsSound(History(b', h.revoked)) && DoubleEntry(History(b', h.revoked))
  {
    var b := h.book;
    var row := b'.ledger[|b.ledger|];
    assert b'.ledger == b.ledger + [row];
    forall k | 0 <= k < |b'.allocations| ensures AllocationSound(b'.allocations[k], b') {
      if k < |b.allocations| { assert AllocationSound(b.allocations[k], b); }
      else { assert b'.allocations[k] == draw[k - |b.allocations|]; }
    }
    forall i | 0 <= i < |b'.lots|
      ensures b'.lots[i].remaining + Sum(b'.allocations, OpenOn(i)) + Sum(h.revoked, RevokedOn(b'.ledger, i)) == b'.lots[i].original
    {
      SumAppend(b.allocations, draw, OpenOn(i));
      SumSame(draw, draw, OpenOn(i), AmountOn(i));
      RevokedStays(h.revoked, b.ledger, row, i);
    }
  }

  lemma ExpenseRows(h: History, b': Book, n: int, draw: seq<Allocation>)
    requires Sound(h) && PostsExpense(h.book, b', n, draw)
    ensures RowsBacked(History(b', h.revoked))
  {
    var b := h.book;
    forall r: nat | r < |b'.ledger| && b'.ledger[r].direction == Expense
      ensures Sum(b'.allocations, AmountFor(r)) == if IsRevocation(h.revoked, r) then 0 else b'.ledger[r].amount
    {
      SumAppend(b.allocations, draw, AmountFor(r));
      if r < |b.ledger| {
        assert b'.ledger[r] == b'.ledger[..|b.ledger|][r];
        SumZero(draw, AmountFor(r));
      } else {
        NewRowUnused(b, r);
        SumSame(draw, draw, AmountFor(r), Amount);
      }
    }
  }

  lemma KeysExtend(b: Book, b': Book)
    requires KeysDistinct(b) && |b'.ledger| == |b.ledger| + 1 && b'.ledger[..|b.ledger|] == b.ledger
    requires |b'.ledger[|b.ledger|].key| <= 160 && !KeyTaken(b, b'.ledger[|b.ledger|].key)
    ensures KeysDistinct(b')
  {
    assert forall i | 0 <= i < |b.ledger| :: b'.ledger[i] == b'.ledger[..|b.ledger|][i];
  }

  lemma ExpenseKeepsSound(h: History, b': Book, n: int, draw: seq<Allocation>)
    requires Sound(h) && PostsExpense(h.book, b', n, draw) && LotsSound(b')
    ensures Sound(History(b', h.revoked))
  {
    var row := b'.ledger[|h.book.ledger|];
    assert b'.ledger == h.book.ledger + [row];
    DrawnTotal(h.book.lots, b'.lots, draw);
    ExpenseEntries(h, b', n, draw);
    ExpenseRows(h, b', n, draw);
    ChainExtends(h.book, row);
    KeysExtend(h.book, b');
  }

  // ---------------------------------------------------------------- one operation at a time

  lemma ExpiryTakesAllDue(b: Book, now: int)
    requires Balanced(b) && LotsSound(b)
    ensures 0 <= DueTotal(b.lots, now) <= b.points
    ensures forall i | 0 <= i < |b.lots| :: LotSound(AfterExpiry(b.lots, now)[i], |b.ledger| + 1)
  {
    forall i | 0 <= i < |b.lots|
      ensures LotSound(AfterExpiry(b.lots, now)[i], |b.ledger| + 1)
      ensures b.lots[i].remaining >= 0 && (b.lots[i].status != Active ==> b.lots[i].remaining == 0)
    {
      assert LotSound(b.lots[i], |b.ledger|);
    }
    TotalSplits(b.lots, now);
  }

  lemma DueDraw(lots: seq<Lot>, now: int, e: nat)
    ensures var draw := Draw(lots, DueIds(lots, now), DueTotal(lots, now), e);
            && Sum(draw, Amount) == DueTotal(lots, now)
            && (forall k | 0 <= k < |draw| ::
                  draw[k].expense == e && draw[k].lot < |lots| && draw[k].amount >= 0 && draw[k].restored == 0)
  {
    DueIsDrawable(lots, now);
    var due := DueIds(lots, now);
    assert forall k | 0 <= k < |due| :: RemainingAt(lots)(due[k]) >= 0;
    SumAtLeast(due, RemainingAt(lots));
    DrawShape(lots, due, DueTotal(lots, now), e);
    DrawTotal(lots, due, DueTotal(lots, now), e);
  }

  lemma ExpiryPosts(u: User, b: Book, now: int)
    requires Balanced(b) && LotsSound(b) && ExpireDue(u, b, now).Done? && DueIds(b.lots, now) != []
    ensures PostsExpense(b, ExpireDue(u, b, now).book, DueTotal(b.lots, now),
                         Draw(b.lots, DueIds(b.lots, now), DueTotal(b.lots, now), |b.ledger|))
    ensures LotsSound(ExpireDue(u, b, now).book)
    ensures ExpireDue(u, b, now).book.lots == AfterExpiry(b.lots, now)
  {
    ExpiryTakesAllDue(b, now);
    DueIsDrawable(b.lots, now);
    DueDraw(b.lots, now, |b.ledger|);
    ExpiryDraws(b.lots, now, |b.ledger|);
    assert Min(DueTotal(b.lots, now), b.points) == DueTotal(b.lots, now);
  }

  lemma ExpireKeepsSound(u: User, h: History, now: int)
    requires Sound(h) && ExpireDue(u, h.book, now).Done?
    ensures Sound(History(ExpireDue(u, h.book, now).book, h.revoked))
    ensures DueIds(ExpireDue(u, h.book, now).book.lots, now) == []
  {
    if DueIds(h.book.lots, now) != [] {
      ExpiryPosts(u, h.book, now);
      ExpenseKeepsSound(h, ExpireDue(u, h.book, now).book, DueTotal(h.book.lots, now),
                        Draw(h.book.lots, DueIds(h.book.lots, now), DueTotal(h.book.lots, now), |h.book.ledger|));
      ExpiryLeavesNothingDue(h.book.lots, now);
    }
  }

  /** With the balance equal to the lots and nothing due, the coverage check does nothing. */
  lemma CoverageIsNoOp(u: User, b: Book, now: int)
    requires Balanced(b) && LotsSound(b) && DueIds(b.lots, now) == []
    ensures Covered(b.lots, now) == b.points
    ensures EnsureCoverage(u, b, now) == Done(b, None)
  {
    forall i | 0 <= i < |b.lots| ensures b.lots[i].remaining >= 0 && (b.lots[i].status != Active ==> b.lots[i].remaining == 0) {
      assert LotSound(b.lots[i], |b.ledger|);
    }
    TotalSplits(b.lots, now);
    DueIsDrawable(b.lots, now);
  }

  lemma SpendPosts(b: Book, amount: int, biz: Biz, key: string, now: int)
    requires LotsSound(b) && amount > 0 && Spend(b, b.points, amount, biz, key, now).Done?
    ensures var o := Spend(b, b.points, amount, biz, key, now);
            && PostsExpense(b, o.book, amount, Draw(b.lots, SpendOrder(b.lots, now), amount, |b.ledger|))
            && LotsSound(o.book)
  {
    hide SpendOrder, Draw, Covered, Sorted, FirstWhere;
    var order := SpendOrder(b.lots, now);
    SpendOrderIs(b.lots, now);
    SpendableIsDrawable(b.lots, now);
    DrawShape(b.lots, order, amount, |b.ledger|);
    DrawTotal(b.lots, order, amount, |b.ledger|);
    var draw := Draw(b.lots, order, amount, |b.ledger|);
    forall i: nat | i < |b.lots|
      ensures LotSound(AfterDraw(b.lots, draw)[i], |b.ledger| + 1)
      ensures AfterDraw(b.lots, draw)[i].remaining == b.lots[i].remaining - Sum(draw, AmountOn(i))
    {
      assert LotSound(b.lots[i], |b.ledger|);
      DrawWithin(b.lots, order, amount, |b.ledger|, i);
    }
  }

  lemma DebitKeepsSound(u: User, h: History, amount: int, biz: Biz, key: string, now: int)
    requires Sound(h) && Debit(u, h.book, amount, biz, key, now, now, now).Done?
    ensures Sound(History(Debit(u, h.book, amount, biz, key, now, now, now).book, h.revoked))
  {
    if FindLedger(h.book, key).None? {
      ExpireKeepsSound(u, h, now);
      var expired := History(ExpireDue(u, h.book, now).book, h.revoked);
      CoverageIsNoOp(u, expired.book, now);
      SpendPosts(expired.book, amount, biz, key, now);
      ExpenseKeepsSound(expired, Spend(expired.book, expired.book.points, amount, biz, key, now).book, amount,
                        Draw(expired.book.lots, SpendOrder(expired.book.lots, now), amount, |expired.book.ledger|));
    }
  }

  /** Appending an income row leaves every account of the expense rows as it was. */
  lemma IncomeRowsBacked(h: History, b': Book, row: LedgerRow)
    requires Sound(h) && row.direction == Income && b'.ledger == h.book.ledger + [row]
    requires forall r: nat :: Sum(b'.allocations, AmountFor(r)) == Sum(h.book.allocations, AmountFor(r))
    ensures RowsBacked(History(b', h.revoked))
  {
  }

  lemma CreditKeepsSound(h: History, amount: int, biz: Biz, key: string, expiresAt: Option<int>)
    requires Sound(h) && Credit(h.book, amount, biz, key, expiresAt).Done?
    ensures Sound(History(Credit(h.book, amount, biz, key, expiresAt).book, h.revoked))
  {
    var b, b' := h.book, Credit(h.book, amount, biz, key, expiresAt).book;
    if FindLedger(b, key).None? {
      var row := b'.ledger[|b.ledger|];
      ChainExtends(b, row);
      KeysExtend(b, b');
      SumPush(b.lots, b'.lots[|b.lots|], Remaining);
      IncomeRowsBacked(h, b', row);
      forall k | 0 <= k < |b'.allocations| ensures AllocationSound(b'.allocations[k], b') {
        assert AllocationSound(b.allocations[k], b);
      }
      forall i | 0 <= i < |b'.lots|
        ensures LotSound(b'.lots[i], |b'.ledger|)
        ensures b'.lots[i].remaining + Sum(b'.allocations, OpenOn(i)) + Sum(h.revoked, RevokedOn(b'.ledger, i)) == b'.lots[i].original
      {
        RevokedStays(h.revoked, b.ledger, row, i);
        if i < |b.lots| { assert LotSound(b.lots[i], |b.ledger|); } else { NewLotUnused(h, i); }
      }
    }
  }

  // ---------------------------------------------------------------- refunds

  lemma SettledAllocations(b: Book, e: nat)
    requires AllocationsSound(b)
    ensures var settled := SettleAll(b.allocations, e, |b.lots|);
            && (forall r: nat :: Sum(settled, AmountFor(r)) == Sum(b.allocations, AmountFor(r)))
            && (forall i: nat :: Sum(settled, OpenOn(i)) == Sum(b.allocations, OpenOn(i)) - Sum(b.allocations, OpenOfOn(e, |b.lots|, i)))
  {
    var settled := SettleAll(b.allocations, e, |b.lots|);
    forall r: nat ensures Sum(settled, AmountFor(r)) == Sum(b.allocations, AmountFor(r)) {
      SumSame(settled, b.allocations, AmountFor(r), AmountFor(r));
    }
    forall i: nat ensures Sum(settled, OpenOn(i)) == Sum(b.allocations, OpenOn(i)) - Sum(b.allocations, OpenOfOn(e, |b.lots|, i)) {
      var left := (a: Allocation) => OpenOn(i)(Settled(a, e, |b.lots|));
      SumSame(settled, b.allocations, OpenOn(i), left);
      SumAdds(b.allocations, OpenOn(i), left, OpenOfOn(e, |b.lots|, i));
    }
  }

  /** A refund can never give back more than the expense took. */
  lemma OpenWithinAmount(h: History, e: nat)
    requires Sound(h) && e < |h.book.ledger| && h.book.ledger[e].direction == Expense
    ensures 0 <= Sum(h.book.allocations, OpenOf(e, |h.book.lots|)) <= h.book.ledger[e].amount
  {
    var b := h.book;
    forall k | 0 <= k < |b.allocations|
      ensures 0 <= OpenOf(e, |b.lots|)(b.allocations[k]) <= AmountFor(e)(b.allocations[k])
    {
      assert AllocationSound(b.allocations[k], b);
    }
    SumAtLeast(b.allocations, OpenOf(e, |b.lots|));
    SumMonotone(b.allocations, OpenOf(e, |b.lots|), AmountFor(e));
    assert RowChained(b.ledger, e);
  }

  lemma RefundKeepsSound(h: History, kind: string, no: string, refundKind: string, bizId: int, key: string, now: int,
                         fallback: Option<int>)
    requires Sound(h) && Refund(h.book, kind, no, refundKind, bizId, key, now, fallback).Done?
    ensures Sound(History(Refund(h.book, kind, no, refundKind, bizId, key, now, fallback).book, h.revoked))
  {
    hide FindLedger, Sum, DoubleEntry, RowsBacked;
    var b, b' := h.book, Refund(h.book, kind, no, refundKind, bizId, key, now, fallback).book;
    if FindLedger(b, key).None? {
      var e := FindExpense(b, kind, no).value;
      var row := b'.ledger[|b.ledger|];
      var restored := AfterRestore(b.lots, b.allocations, e, now, fallback);
      assert RowChained(b.ledger, e);
      OpenWithinAmount(h, e);
      RestoredTotal(b.lots, b.allocations, e, now, fallback);
      SettledAllocations(b, e);
      ChainExtends(b, row);
      KeysExtend(b, b');
      IncomeRowsBacked(h, b', row);
      if |b'.lots| > |b.lots| { SumPush(restored, b'.lots[|b.lots|], Remaining); }
      RefundEntries(h, kind, no, refundKind, bizId, key, now, fallback);
    }
  }

  lemma RefundEntries(h: History, kind: string, no: string, refundKind: string, bizId: int, key: string, now: int,
                      fallback: Option<int>)
    requires Sound(h) && Refund(h.book, kind, no, refundKind, bizId, key, now, fallback).Done? && FindLedger(h.book, key).None?
    ensures var after := History(Refund(h.book, kind, no, refundKind, bizId, key, now, fallback).book, h.revoked);
            LotsSound(after.book) && AllocationsSound(after.book) && RevocationsSound(after) && DoubleEntry(after)
  {
    hide FindLedger, Cut, Sum, Chained, KeysDistinct, Balanced, RowsBacked;
    var b, b' := h.book, Refund(h.book, kind, no, refundKind, bizId, key, now, fallback).book;
    var e := FindExpense(b, kind, no).value;
    var row := b'.ledger[|b.ledger|];
    OpenWithinAmount(h, e);
    RestoredTotal(b.lots, b.allocations, e, now, fallback);
    SettledAllocations(b, e);
    forall k | 0 <= k < |b'.allocations| ensures AllocationSound(b'.allocations[k], b') {
      assert AllocationSound(b.allocations[k], b);
    }
    forall i | 0 <= i < |b'.lots|
      ensures LotSound(b'.lots[i], |b'.ledger|)
      ensures b'.lots[i].remaining + Sum(b'.allocations, OpenOn(i)) + Sum(h.revoked, RevokedOn(b'.ledger, i)) == b'.lots[i].original
    {
      RevokedStays(h.revoked, b.ledger, row, i);
      SumAtLeast(b.allocations, OpenOfOn(e, |b.lots|, i));
      if i < |b.lots| {
        assert LotSound(b.lots[i], |b.ledger|);
      } else {
        NewLotUnused(h, i);
        SumZero(b.allocations, OpenOfOn(e, |b.lots|, i));
      }
    }
  }

  // ---------------------------------------------------------------- revocations

  /** The history h' is h after a revocation of n points from lot i. */
  predicate PostsRevocation(h: History, h': History, i: nat, n: int) {
    var b, b' := h.book, h'.book;
    && i < |b.lots| && 0 < n
    && |b'.ledger| == |b.ledger| + 1 && b'.ledger[..|b.ledger|] == b.ledger
    && var row := b'.ledger[|b.ledger|];
    && row.direction == Expense && row.amount == n && row.before == b.points && row.after == b.points - n
    && |row.key| <= 160 && !KeyTaken(b, row.key)
    && b'.points == b.points - n
    && |b'.lots| == |b.lots| && b'.lots == b.lots[i := b'.lots[i]]
    && b'.lots[i].remaining == b.lots[i].remaining - n == 0
    && b'.lots[i].original == b.lots[i].original && b'.lots[i].source == b.lots[i].source
    && b'.allocations == b.allocations
    && h'.revoked == h.revoked + [Revocation(|b.ledger|, i)]
  }

  /** The lot a revocation acts on holds no more than the balance. */
  lemma LotWithinBalance(h: History, i: nat)
    requires Sound(h) && i < |h.book.lots|
    ensures LotSound(h.book.lots[i], |h.book.ledger|) && 0 <= h.book.lots[i].remaining <= h.book.points
  {
    hide DoubleEntry, RowsBacked, Chained, KeysDistinct, RevocationsSound, AllocationsSound;
    var b := h.book;
    forall k | 0 <= k < |b.lots| ensures Remaining(b.lots[k]) >= 0 { assert LotSound(b.lots[k], |b.ledger|); }
    SumAtLeast(b.lots, Remaining);
    assert Remaining(b.lots[i]) <= b.points;
  }

  lemma RevokePosts(u: User, h: History, e: Event, i: nat)
    requires e.op.DoRevoke? && FindLedger(h.book, e.op.key).None? && RevocableLot(h.book, e.op.creditKey) == Some(i)
    requires Perform(u, h.book, e).Done? && i < |h.book.lots| && 0 < h.book.lots[i].remaining <= h.book.points
    ensures PostsRevocation(h, Step(u, h, e), i, h.book.lots[i].remaining)
  {
    hide FindLedger, RevocableLot, KeyTaken;
  }

  lemma RevokeEmptyKeepsSound(u: User, h: History, e: Event, i: nat)
    requires Sound(h) && e.op.DoRevoke? && FindLedger(h.book, e.op.key).None? && RevocableLot(h.book, e.op.creditKey) == Some(i)
    requires i < |h.book.lots| && h.book.lots[i].remaining == 0
    ensures Sound(Step(u, h, e))
  {
    hide FindLedger, RevocableLot, KeyTaken, RowsBacked, Chained, KeysDistinct;
    LotWithinBalance(h, i);
    var b, after := h.book, Step(u, h, e);
    assert after == History(b.(lots := b.lots[i := b.lots[i].(status := Revoked)]), h.revoked);
    SumUpdate(b.lots, i, after.book.lots[i], Remaining);
    forall k | 0 <= k < |b.lots| ensures LotSound(after.book.lots[k], |b.ledger|) { assert LotSound(b.lots[k], |b.ledger|); }
    forall k | 0 <= k < |b.allocations| ensures AllocationSound(b.allocations[k], after.book) {
      assert AllocationSound(b.allocations[k], b);
    }
    SameRowsSound(h, after);
  }

  lemma SameRowsSound(h: History, after: History)
    requires RowsBacked(h) && Chained(h.book) && KeysDistinct(h.book)
    requires after.book.ledger == h.book.ledger && after.book.points == h.book.points
    requires after.book.allocations == h.book.allocations && after.revoked == h.revoked
    ensures RowsBacked(after) && Chained(after.book) && KeysDistinct(after.book)
  {
  }

  lemma RevokeKeepsSound(u: User, h: History, e: Event)
    requires Sound(h) && e.op.DoRevoke?
    ensures Sound(Step(u, h, e))
  {
    var b, target := h.book, RevocableLot(h.book, e.op.creditKey);
    if FindLedger(b, e.op.key).None? && target.Some? && Perform(u, b, e).Done? {
      hide Sound, FindLedger, Perform, Step;
      var i := target.value;
      LotWithinBalance(h, i);
      if b.lots[i].remaining > 0 {
        RevokePosts(u, h, e, i);
        RevocationKeepsSound(h, Step(u, h, e), i, b.lots[i].remaining);
      } else {
        RevokeEmptyKeepsSound(u, h, e, i);
      }
    }
  }

  lemma RevocationEntries(h: History, h': History, i: nat, n: int)
    requires Sound(h) && PostsRevocation(h, h', i, n)
    ensures LotsSound(h'.book) && DoubleEntry(h')
  {
    var b, b' := h.book, h'.book;
    var row, v := b'.ledger[|b.ledger|], Revocation(|b.ledger|, i);
    assert b'.ledger == b.ledger + [row];
    forall k | 0 <= k < |b'.lots|
      ensures LotSound(b'.lots[k], |b'.ledger|)
      ensures b'.lots[k].remaining + Sum(b'.allocations, OpenOn(k)) + Sum(h'.revoked, RevokedOn(b'.ledger, k)) == b'.lots[k].original
    {
      assert LotSound(b.lots[k], |b.ledger|);
      RevokedStays(h.revoked, b.ledger, row, k);
      SumPush(h.revoked, v, RevokedOn(b'.ledger, k));
    }
  }

  lemma RevocationRows(h: History, h': History, i: nat, n: int)
    requires Sound(h) && PostsRevocation(h, h', i, n)
    ensures RowsBacked(h')
  {
    var b, b' := h.book, h'.book;
    forall r: nat | r < |b'.ledger| && b'.ledger[r].direction == Expense
      ensures Sum(b'.allocations, AmountFor(r)) == if IsRevocation(h'.revoked, r) then 0 else b'.ledger[r].amount
    {
      if r < |b.ledger| {
        assert b'.ledger[r] == b'.ledger[..|b.ledger|][r];
        assert IsRevocation(h'.revoked, r) <==> IsRevocation(h.revoked, r) by {
          assert forall k | 0 <= k < |h.revoked| :: h'.revoked[k] == h.revoked[k];
        }
      } else {
        NewRowUnused(b, r);
        assert h'.revoked[|h.revoked|].row == r;
      }
    }
  }

  lemma RevocationKeepsSound(h: History, h': History, i: nat, n: int)
    requires Sound(h) && PostsRevocation(h, h', i, n)
    ensures Sound(h')
  {
    hide RowsBacked, DoubleEntry, Sum;
    var b, b' := h.book, h'.book;
    var row := b'.ledger[|b.ledger|];
    assert b'.ledger == b.ledger + [row];
    ChainExtends(b, row);
    KeysExtend(b, b');
    SumUpdate(b.lots, i, b'.lots[i], Remaining);
    RevocationEntries(h, h', i, n);
    RevocationRows(h, h', i, n);
    forall k | 0 <= k < |b'.allocations| ensures AllocationSound(b'.allocations[k], b') {
      assert AllocationSound(b.allocations[k], b);
    }
  }

  // ---------------------------------------------------------------- every run

  lemma StepKeepsSound(u: User, h: History, e: Event)
    requires Sound(h)
    ensures Sound(Step(u, h, e))
  {
    if Perform(u, h.book, e).Done? {
      match e.op
      case DoCredit(amount, biz, key, expiresAt) => CreditKeepsSound(h, amount, biz, key, expiresAt);
      case DoDebit(amount, biz, key) => DebitKeepsSound(u, h, amount, biz, key, e.now);
      case DoRefund(kind, no, refundKind, bizId, key, fallback) =>
        RefundKeepsSound(h, kind, no, refundKind, bizId, key, e.now, fallback);
      case DoRevoke(_, _, _) => RevokeKeepsSound(u, h, e);
      case DoExpire => ExpireKeepsSound(u, h, e.now);
    }
  }

  /** From an empty account, any operations at any times leave the books sound. */
  lemma {:induction false} RunKeepsSound(u: User, events: seq<Event>)
    ensures Sound(Run(u, START, events))
  {
    if events != [] {
      RunKeepsSound(u, events[..|events| - 1]);
      StepKeepsSound(u, Run(u, START, events[..|events| - 1]), events[|events| - 1]);
    }
  }
}
