/** What the points books promise: fair spending, refunds that undo debits, replays that change nothing. */
module PointTheorems {
  import opened Sums
  import opened Digits
  import opened PointBook
  import opened PointLots
  import opened PointHistory

  // ---------------------------------------------------------------- the operations, one fact at a time

  lemma ExpiryShape(u: User, b: Book, now: int)
    requires ExpireDue(u, b, now).Done? && DueTotal(b.lots, now) <= b.points
    ensures DueIds(b.lots, now) == [] ==> ExpireDue(u, b, now) == Done(b, None)
    ensures DueIds(b.lots, now) != [] ==>
              var o, n := ExpireDue(u, b, now), DueTotal(b.lots, now);
              && o.row == Some(|b.ledger|) && |o.book.ledger| == |b.ledger| + 1
              && o.book.points == b.points - n && o.book.lots == AfterExpiry(b.lots, now)
              && o.book.allocations == b.allocations + Draw(b.lots, DueIds(b.lots, now), n, |b.ledger|)
  {
    DueIsDrawable(b.lots, now);
  }

  lemma DebitShape(u: User, b: Book, amount: int, biz: Biz, key: string, t1: int, t2: int, t3: int)
    requires Debit(u, b, amount, biz, key, t1, t2, t3).Done? && FindLedger(b, key).None?
    ensures var expired := ExpireDue(u, b, t1);
            && amount > 0 && expired.Done? && EnsureCoverage(u, expired.book, t2).Done?
            && Debit(u, b, amount, biz, key, t1, t2, t3)
               == Spend(EnsureCoverage(u, expired.book, t2).book, expired.book.points, amount, biz, key, t3)
  {
    hide ExpireDue, EnsureCoverage, Spend, FindLedger;
  }

  lemma SpendRow(b: Book, before: int, amount: int, biz: Biz, key: string, now: int)
    requires Spend(b, before, amount, biz, key, now).Done?
    ensures Spend(b, before, amount, biz, key, now).row == Some(|b.ledger|)
  {
  }

  lemma SoundParts(h: History)
    requires Sound(h)
    ensures Balanced(h.book) && LotsSound(h.book) && AllocationsSound(h.book) && KeysDistinct(h.book)
  {
  }

  /** In sound books a debit is an expiry followed by the draw: the coverage check adds nothing. */
  lemma SoundDebit(u: User, h: History, e: Event)
    requires Sound(h) && e.op.DoDebit? && FindLedger(h.book, e.op.key).None? && Perform(u, h.book, e).Done?
    ensures var expired := ExpireDue(u, h.book, e.now);
            && expired.Done? && e.op.amount > 0
            && Sound(History(expired.book, h.revoked)) && DueIds(expired.book.lots, e.now) == []
            && var spent := Spend(expired.book, expired.book.points, e.op.amount, e.op.biz, e.op.key, e.now);
            && spent.Done? && spent.row == Some(|expired.book.ledger|)
            && Perform(u, h.book, e) == spent
            && Step(u, h, e) == History(spent.book, h.revoked)
            && Sound(Step(u, h, e))
  {
    hide Sound, Spend, ExpireDue, EnsureCoverage, Debit, FindLedger;
    DebitShape(u, h.book, e.op.amount, e.op.biz, e.op.key, e.now, e.now, e.now);
    StepKeepsSound(u, h, e);
    ExpireKeepsSound(u, h, e.now);
    var expired := ExpireDue(u, h.book, e.now).book;
    SoundParts(History(expired, h.revoked));
    CoverageIsNoOp(u, expired, e.now);
    SpendRow(expired, expired.points, e.op.amount, e.op.biz, e.op.key, e.now);
  }

  // ---------------------------------------------------------------- balance

  lemma SoundBalance(h: History)
    requires Sound(h)
    ensures h.book.points >= 0
    ensures h.book.points == Sum(h.book.ledger, Signed)
    ensures forall i | 0 <= i < |h.book.lots| :: 0 <= h.book.lots[i].remaining <= h.book.points
  {
    forall i | 0 <= i < |h.book.lots| ensures Remaining(h.book.lots[i]) >= 0 { assert LotSound(h.book.lots[i], |h.book.ledger|); }
    SumAtLeast(h.book.lots, Remaining);
    forall i | 0 <= i < |h.book.lots| ensures 0 <= h.book.lots[i].remaining <= h.book.points {
      assert Remaining(h.book.lots[i]) == h.book.lots[i].remaining;
    }
    ClosingIsSum(h.book.ledger);
  }

  lemma {:induction false} ClosingIsSum(ledger: seq<LedgerRow>)
    requires forall j | 0 <= j < |ledger| :: RowChained(ledger, j)
    ensures Closing(ledger) == Sum(ledger, Signed)
  {
    if ledger != [] {
      var n := |ledger| - 1;
      forall j | 0 <= j < n ensures RowChained(ledger[..n], j) {
        assert RowChained(ledger, j);
        assert ledger[..n][..j] == ledger[..j];
      }
      ClosingIsSum(ledger[..n]);
      assert RowChained(ledger, n);
    }
  }

  /** No lot ever holds more than its grant, and no allocation gives back more than it took. */
  lemma LotWithinGrant(h: History, i: nat)
    requires Sound(h) && i < |h.book.lots|
    ensures 0 <= h.book.lots[i].remaining <= h.book.lots[i].original
  {
    var b := h.book;
    assert LotSound(b.lots[i], |b.ledger|);
    forall k | 0 <= k < |b.allocations| ensures OpenOn(i)(b.allocations[k]) >= 0 { assert AllocationSound(b.allocations[k], b); }
    SumAtLeast(b.allocations, OpenOn(i));
    forall k | 0 <= k < |h.revoked| ensures RevokedOn(b.ledger, i)(h.revoked[k]) >= 0 {
      assert RowChained(b.ledger, h.revoked[k].row);
    }
    SumAtLeast(h.revoked, RevokedOn(b.ledger, i));
  }

  // ---------------------------------------------------------------- coverage and clock readings

  lemma CoverageCovers(u: User, b: Book, now: int)
    requires EnsureCoverage(u, b, now).Done?
    ensures var o := EnsureCoverage(u, b, now).book;
            Covered(o.lots, now) >= o.points == b.points
  {
    if Covered(b.lots, now) < b.points {
      var o := EnsureCoverage(u, b, now).book;
      SumPush(b.lots, o.lots[|b.lots|], RemainingIf(SpendableAt(now)));
    }
  }

  /** With one clock reading the mismatch error cannot be raised, whatever book the debit starts from. */
  lemma MismatchUnreachable(u: User, b: Book, amount: int, biz: Biz, key: string, now: int)
    ensures Debit(u, b, amount, biz, key, now, now, now) != Raised(LedgerMismatch)
  {
    if amount > 0 && FindLedger(b, key).None? && ExpireDue(u, b, now).Done? {
      var expired := ExpireDue(u, b, now).book;
      if EnsureCoverage(u, expired, now).Done? {
        CoverageCovers(u, expired, now);
      }
    }
  }

  lemma SpendTotal(b: Book, before: int, amount: int, biz: Biz, key: string, now: int)
    requires LotsSound(b) && amount > 0 && Spend(b, before, amount, biz, key, now).Done?
    ensures Sum(Spend(b, before, amount, biz, key, now).book.lots, Remaining) == Sum(b.lots, Remaining) - amount
  {
    var same := b.(points := before);
    SpendPosts(same, amount, biz, key, now);
    var draw := Draw(b.lots, SpendOrder(b.lots, now), amount, |b.ledger|);
    DrawnTotal(b.lots, AfterDraw(b.lots, draw), draw);
  }

  lemma CoverageTotal(u: User, b: Book, now: int)
    requires LotsSound(b) && EnsureCoverage(u, b, now).Done?
    ensures var o := EnsureCoverage(u, b, now).book;
            && LotsSound(o) && o.points == b.points
            && Sum(o.lots, Remaining) == Sum(b.lots, Remaining) + Max0(b.points - Covered(b.lots, now))
  {
    var o := EnsureCoverage(u, b, now).book;
    if Covered(b.lots, now) < b.points {
      forall i | 0 <= i < |o.lots| ensures LotSound(o.lots[i], |o.ledger|) {
        if i < |b.lots| { assert LotSound(b.lots[i], |b.ledger|); }
      }
      SumPush(b.lots, o.lots[|b.lots|], Remaining);
    }
  }

  lemma NothingDueIff(lots: seq<Lot>, now: int)
    ensures DueTotal(lots, now) == 0 <==> forall i | 0 <= i < |lots| :: !Due(lots[i], now)
    ensures DueTotal(lots, now) >= 0
  {
    DueIsDrawable(lots, now);
    var due := DueIds(lots, now);
    if due != [] { assert due[0] in due && Due(lots[due[0]], now); }
    forall i: nat | i < |lots| && Due(lots[i], now) ensures i in due {}
    assert forall k | 0 <= k < |due| :: RemainingAt(lots)(due[k]) > 0;
    SumAtLeast(due, RemainingAt(lots));
  }

  /**
   * The code reads the clock again between expiring and checking coverage.
   * Points of lots that lapse in that gap are granted a second time: the lots
   * then exceed the balance by exactly those points, so the books stay
   * balanced if and only if no lot lapses in the gap.
   */
  lemma DebitBalancedIffNothingLapses(u: User, h: History, amount: int, biz: Biz, key: string, t1: int, t2: int, t3: int)
    requires Sound(h) && FindLedger(h.book, key).None?
    requires ExpireDue(u, h.book, t1).Done? && Debit(u, h.book, amount, biz, key, t1, t2, t3).Done?
    ensures var expired := ExpireDue(u, h.book, t1).book;
            var after := Debit(u, h.book, amount, biz, key, t1, t2, t3).book;
            && Sum(after.lots, Remaining) - after.points == DueTotal(expired.lots, t2)
            && (Balanced(after) <==> forall i | 0 <= i < |expired.lots| :: !Due(expired.lots[i], t2))
  {
    hide ExpireDue, EnsureCoverage, Spend, Covered, DueTotal, DueIds;
    hide DoubleEntry, RowsBacked, Chained, KeysDistinct, AllocationsSound, RevocationsSound;
    ExpireKeepsSound(u, h, t1);
    var expired := ExpireDue(u, h.book, t1).book;
    forall i | 0 <= i < |expired.lots|
      ensures expired.lots[i].remaining >= 0 && (expired.lots[i].status != Active ==> expired.lots[i].remaining == 0)
    {
      assert LotSound(expired.lots[i], |expired.ledger|);
    }
    TotalSplits(expired.lots, t2);
    CoverageTotal(u, expired, t2);
    SpendTotal(EnsureCoverage(u, expired, t2).book, expired.points, amount, biz, key, t3);
    SpendBalance(EnsureCoverage(u, expired, t2).book, expired.points, amount, biz, key, t3);
    NothingDueIff(expired.lots, t2);
  }

  /** An expiry that never takes more than the balance lowers balance and lots alike. */
  lemma ExpiryMovesBoth(u: User, b: Book, now: int)
    requires LotsSound(b) && b.points >= Sum(b.lots, Remaining) && ExpireDue(u, b, now).Done?
    ensures var expired := ExpireDue(u, b, now).book;
            && LotsSound(expired)
            && expired.points - Sum(expired.lots, Remaining) == b.points - Sum(b.lots, Remaining)
            && Sum(expired.lots, Remaining) == Covered(expired.lots, now)
  {
    hide Covered, ExpireDue, DueIds, DueTotal;
    var due, n := DueIds(b.lots, now), DueTotal(b.lots, now);
    forall i | 0 <= i < |b.lots|
      ensures b.lots[i].remaining >= 0 && (b.lots[i].status != Active ==> b.lots[i].remaining == 0)
      ensures LotSound(AfterExpiry(b.lots, now)[i], |b.ledger| + 1)
    {
      assert LotSound(b.lots[i], |b.ledger|);
    }
    TotalSplits(b.lots, now);
    ExpiryShape(u, b, now);
    DueIsDrawable(b.lots, now);
    ExpiryLeavesNothingDue(b.lots, now);
    if due != [] {
      DueDraw(b.lots, now, |b.ledger|);
      ExpiryDraws(b.lots, now, |b.ledger|);
      DrawnTotal(b.lots, AfterExpiry(b.lots, now), Draw(b.lots, due, n, |b.ledger|));
    }
  }

  /** An account opened before lots existed: one successful debit makes lots and balance agree. */
  lemma LegacyDebitSettles(u: User, b: Book, amount: int, biz: Biz, key: string, now: int)
    requires LotsSound(b) && b.points >= Sum(b.lots, Remaining) && FindLedger(b, key).None?
    requires Debit(u, b, amount, biz, key, now, now, now).Done?
    ensures Balanced(Debit(u, b, amount, biz, key, now, now, now).book)
  {
    hide ExpireDue, EnsureCoverage, Spend, Covered, LotsSound;
    ExpiryMovesBoth(u, b, now);
    var expired := ExpireDue(u, b, now).book;
    CoverageTotal(u, expired, now);
    SpendTotal(EnsureCoverage(u, expired, now).book, expired.points, amount, biz, key, now);
    SpendBalance(EnsureCoverage(u, expired, now).book, expired.points, amount, biz, key, now);
  }

  lemma SpendBalance(b: Book, before: int, amount: int, biz: Biz, key: string, now: int)
    requires Spend(b, before, amount, biz, key, now).Done?
    ensures Spend(b, before, amount, biz, key, now).book.points == before - amount
  {
  }

  // ---------------------------------------------------------------- earliest expiry first

  predicate ExpiresBy(l: Lot, cutoff: int) { l.expiresAt.Some? && l.expiresAt.value <= cutoff }

  function LeftBy(cutoff: int): Lot -> int { (l: Lot) => if ExpiresBy(l, cutoff) then l.remaining else 0 }

  function LeftAfter(cutoff: int): Lot -> int { (l: Lot) => if ExpiresBy(l, cutoff) then 0 else l.remaining }

  /** Another way to take n points from the lots that may pay at this moment. */
  predicate AlsoPays(lots: seq<Lot>, other: seq<Lot>, n: int, now: int) {
    && |other| == |lots|
    && (forall i | 0 <= i < |lots| ::
          && other[i].expiresAt == lots[i].expiresAt
          && 0 <= other[i].remaining <= lots[i].remaining
          && (!Spendable(lots[i], now) ==> other[i].remaining == lots[i].remaining))
    && Sum(other, Remaining) == Sum(lots, Remaining) - n
  }

  /**
   * Whatever the cutoff, no other way of paying leaves fewer points to lapse
   * by then than drawing in spend order does.
   */
  lemma EarliestFirstIsOptimal(lots: seq<Lot>, other: seq<Lot>, n: int, e: nat, now: int, cutoff: int)
    requires 0 <= n <= Covered(lots, now) && AlsoPays(lots, other, n, now)
    ensures Sum(AfterDraw(lots, Draw(lots, SpendOrder(lots, now), n, e)), LeftBy(cutoff)) <= Sum(other, LeftBy(cutoff))
  {
    hide SpendOrder, Draw, AfterDraw, Covered;
    var order := SpendOrder(lots, now);
    var draw := Draw(lots, order, n, e);
    if b: nat :| b < |draw| && !ExpiresBy(lots[order[b]], cutoff) {
      DrawReachesLater(lots, other, n, e, now, cutoff, b);
    } else {
      DrawStaysEarly(lots, other, n, e, now, cutoff);
    }
  }

  /** If a lot beyond the cutoff is touched, nothing spendable is left before the cutoff. */
  lemma DrawReachesLater(lots: seq<Lot>, other: seq<Lot>, n: int, e: nat, now: int, cutoff: int, b: nat)
    requires 0 <= n <= Covered(lots, now) && AlsoPays(lots, other, n, now)
    requires var order := SpendOrder(lots, now);
             b < |Draw(lots, order, n, e)| && !ExpiresBy(lots[order[b]], cutoff)
    ensures Sum(AfterDraw(lots, Draw(lots, SpendOrder(lots, now), n, e)), LeftBy(cutoff)) <= Sum(other, LeftBy(cutoff))
  {
    var drawn := AfterDraw(lots, Draw(lots, SpendOrder(lots, now), n, e));
    hide SpendOrder, Draw, AfterDraw, Covered;
    assert |drawn| == |lots| by { AfterDrawRows(lots, Draw(lots, SpendOrder(lots, now), n, e)); }
    forall i: nat | i < |lots| ensures LeftBy(cutoff)(drawn[i]) <= LeftBy(cutoff)(other[i]) {
      DrawnEarlier(lots, n, e, now, cutoff, b, i);
    }
    SumBelow(drawn, other, LeftBy(cutoff));
  }

  lemma AfterDrawRows(lots: seq<Lot>, draw: seq<Allocation>)
    ensures |AfterDraw(lots, draw)| == |lots|
    ensures forall i | 0 <= i < |lots| :: AfterDraw(lots, draw)[i] == Taken(lots[i], Sum(draw, AmountOn(i)))
  {
  }

  /** A draw that touches only lots before the cutoff leaves every other lot as it was. */
  lemma LaterLotsKept(lots: seq<Lot>, n: int, e: nat, now: int, cutoff: int, i: nat)
    requires 0 <= n <= Covered(lots, now) && i < |lots|
    requires var order := SpendOrder(lots, now);
             forall b: nat | b < |Draw(lots, order, n, e)| :: ExpiresBy(lots[order[b]], cutoff)
    ensures var draw := Draw(lots, SpendOrder(lots, now), n, e);
            && LeftAfter(cutoff)(AfterDraw(lots, draw)[i]) == LeftAfter(cutoff)(lots[i])
            && AfterDraw(lots, draw)[i].remaining == lots[i].remaining - Sum(draw, AmountOn(i))
  {
    hide SpendOrder, Draw, Covered, Precedes, Sum, Sorted;
    var order := SpendOrder(lots, now);
    var draw := Draw(lots, order, n, e);
    SpendOrderIs(lots, now);
    SpendableIsDrawable(lots, now);
    DrawShape(lots, order, n, e);
    DrawShare(lots, order, n, e);
    DrawWithin(lots, order, n, e, i);
    if k: nat :| k < |draw| && order[k] == i { assert ExpiresBy(lots[order[k]], cutoff); }
  }

  /** If only lots before the cutoff are touched, all n points come out of them. */
  lemma DrawStaysEarly(lots: seq<Lot>, other: seq<Lot>, n: int, e: nat, now: int, cutoff: int)
    requires 0 <= n <= Covered(lots, now) && AlsoPays(lots, other, n, now)
    requires var order := SpendOrder(lots, now);
             forall b: nat | b < |Draw(lots, order, n, e)| :: ExpiresBy(lots[order[b]], cutoff)
    ensures Sum(AfterDraw(lots, Draw(lots, SpendOrder(lots, now), n, e)), LeftBy(cutoff)) <= Sum(other, LeftBy(cutoff))
  {
    hide SpendOrder, Draw, AfterDraw, Covered, Sum, Sorted;
    var order := SpendOrder(lots, now);
    var draw := Draw(lots, order, n, e);
    var drawn := AfterDraw(lots, draw);
    SpendOrderIs(lots, now);
    SpendableIsDrawable(lots, now);
    AfterDrawRows(lots, draw);
    forall i: nat | i < |lots|
      ensures LeftAfter(cutoff)(drawn[i]) == LeftAfter(cutoff)(lots[i])
      ensures drawn[i].remaining == lots[i].remaining - Sum(draw, AmountOn(i))
    {
      LaterLotsKept(lots, n, e, now, cutoff, i);
    }
    DrawTotal(lots, order, n, e);
    DrawShape(lots, order, n, e);
    DrawnTotal(lots, drawn, draw);
    SumSame(drawn, lots, LeftAfter(cutoff), LeftAfter(cutoff));
    SumBelow(other, lots, LeftAfter(cutoff));
    SumAdds(drawn, Remaining, LeftBy(cutoff), LeftAfter(cutoff));
    SumAdds(other, Remaining, LeftBy(cutoff), LeftAfter(cutoff));
  }

  /** Once a later lot has been touched, every earlier spendable lot is empty. */
  lemma DrawnEarlier(lots: seq<Lot>, n: int, e: nat, now: int, cutoff: int, b: nat, i: nat)
    requires 0 <= n <= Covered(lots, now) && i < |lots|
    requires var order := SpendOrder(lots, now);
             b < |Draw(lots, order, n, e)| && !ExpiresBy(lots[order[b]], cutoff)
    ensures var drawn := AfterDraw(lots, Draw(lots, SpendOrder(lots, now), n, e));
            && drawn[i].expiresAt == lots[i].expiresAt
            && (!Spendable(lots[i], now) ==> drawn[i].remaining == lots[i].remaining)
            && (Spendable(lots[i], now) && ExpiresBy(lots[i], cutoff) ==> drawn[i].remaining == 0)
  {
    hide SpendOrder, Draw, Covered, Precedes, Sum;
    var order := SpendOrder(lots, now);
    SpendOrderIs(lots, now);
    SpendableIsDrawable(lots, now);
    DrawShape(lots, order, n, e);
    DrawShare(lots, order, n, e);
    DrawWithin(lots, order, n, e, i);
    var draw := Draw(lots, order, n, e);
    if Spendable(lots[i], now) && ExpiresBy(lots[i], cutoff) {
      assert i in order;
      var a :| 0 <= a < |order| && order[a] == i;
      EarlierFirst(lots, now, cutoff, a, b);
      assert Sum(draw, AmountOn(order[a])) == draw[a].amount;
    }
  }

  lemma EarlierFirst(lots: seq<Lot>, now: int, cutoff: int, a: nat, b: nat)
    requires var order := SpendOrder(lots, now);
             a < |order| && b < |order| && ExpiresBy(lots[order[a]], cutoff) && !ExpiresBy(lots[order[b]], cutoff)
    ensures a < b
  {
    SpendOrderIs(lots, now);
  }

  // ---------------------------------------------------------------- the ledger only grows

  predicate Grows(b: Book, b': Book) {
    && |b.ledger| <= |b'.ledger| && b'.ledger[..|b.ledger|] == b.ledger
    && |b.lots| <= |b'.lots| && |b.allocations| <= |b'.allocations|
  }

  lemma ExpiryGrows(u: User, b: Book, now: int)
    requires ExpireDue(u, b, now).Done?
    ensures var o := ExpireDue(u, b, now); Grows(b, o.book) && (o.row.Some? ==> o.row.value < |o.book.ledger|)
  {
    hide DueIds, DueTotal, Draw, ExpiryKey, Cut;
  }

  lemma CoverageGrows(u: User, b: Book, now: int)
    requires EnsureCoverage(u, b, now).Done?
    ensures Grows(b, EnsureCoverage(u, b, now).book)
  {
    hide Covered, OpeningKey, Cut;
  }

  lemma SpendGrows(b: Book, before: int, amount: int, biz: Biz, key: string, now: int)
    requires Spend(b, before, amount, biz, key, now).Done?
    ensures var o := Spend(b, before, amount, biz, key, now); Grows(b, o.book) && o.row.Some? && o.row.value < |o.book.ledger|
  {
    hide Covered, SpendOrder, Draw, Cut;
  }

  lemma GrowsOn(a: Book, b: Book, c: Book)
    requires Grows(a, b) && Grows(b, c)
    ensures Grows(a, c)
  {
    assert c.ledger[..|a.ledger|] == b.ledger[..|a.ledger|];
  }

  lemma DebitGrows(u: User, b: Book, amount: int, biz: Biz, key: string, now: int)
    requires Debit(u, b, amount, biz, key, now, now, now).Done?
    ensures var o := Debit(u, b, amount, biz, key, now, now, now); Grows(b, o.book) && (o.row.Some? ==> o.row.value < |o.book.ledger|)
  {
    hide Grows, ExpireDue, EnsureCoverage, Spend;
    if FindLedger(b, key).None? {
      var expired := ExpireDue(u, b, now).book;
      var backed := EnsureCoverage(u, expired, now).book;
      ExpiryGrows(u, b, now);
      CoverageGrows(u, expired, now);
      SpendGrows(backed, expired.points, amount, biz, key, now);
      GrowsOn(b, expired, backed);
      GrowsOn(b, backed, Spend(backed, expired.points, amount, biz, key, now).book);
    } else {
      GrowsSelf(b);
    }
  }

  lemma GrowsSelf(b: Book)
    ensures Grows(b, b)
  {
  }

  lemma PerformGrows(u: User, b: Book, e: Event)
    requires Perform(u, b, e).Done?
    ensures var o := Perform(u, b, e); Grows(b, o.book) && (o.row.Some? ==> o.row.value < |o.book.ledger|)
  {
    hide ExpireDue, Debit, Cut, FindExpense;
    match e.op
    case DoDebit(amount, biz, key) => DebitGrows(u, b, amount, biz, key, e.now);
    case DoExpire => ExpiryGrows(u, b, e.now);
    case _ =>
  }

  lemma {:induction false} RunGrows(u: User, h: History, events: seq<Event>)
    ensures var b, b' := h.book, Run(u, h, events).book;
            |b.ledger| <= |b'.ledger| && b'.ledger[..|b.ledger|] == b.ledger && |b.lots| <= |b'.lots|
  {
    if events != [] {
      var h1 := Run(u, h, events[..|events| - 1]);
      RunGrows(u, h, events[..|events| - 1]);
      var e := events[|events| - 1];
      if Perform(u, h1.book, e).Done? {
        PerformGrows(u, h1.book, e);
        assert Run(u, h, events).book.ledger[..|h.book.ledger|] == h1.book.ledger[..|h.book.ledger|];
      }
    }
  }

  // ---------------------------------------------------------------- replays

  /** Credits, debits and refunds that ask for something. */
  predicate Keyed(op: Op) {
    match op
    case DoCredit(amount, _, _, _) => amount > 0
    case DoDebit(amount, _, _) => amount > 0
    case DoRefund(_, _, _, _, _, _) => true
    case DoRevoke(_, _, _) => false
    case DoExpire => false
  }

  lemma FreshRowCarriesKey(u: User, b: Book, e: Event)
    requires Keyed(e.op) && FindLedger(b, e.op.key).None? && Perform(u, b, e).Done?
    ensures Perform(u, b, e).row.Some? && Perform(u, b, e).row.value == |Perform(u, b, e).book.ledger| - 1
    ensures Perform(u, b, e).book.ledger[Perform(u, b, e).row.value].key == Cut(e.op.key)
  {
  }

  lemma TakenStays(b: Book, b': Book, key: string)
    requires KeyTaken(b, key) && Grows(b, b')
    ensures KeyTaken(b', key)
  {
    var i :| 0 <= i < |b.ledger| && b.ledger[i].key == key;
    assert b'.ledger[..|b.ledger|][i] == b'.ledger[i];
  }

  lemma UsedKeyIsRefused(u: User, b: Book, e: Event)
    requires Keyed(e.op) && FindLedger(b, e.op.key).None? && KeyTaken(b, Cut(e.op.key))
    ensures Perform(u, b, e).Raised?
  {
    hide Grows, ExpireDue, EnsureCoverage, FindLedger, KeyTaken, Cut, Covered, Draw, SpendOrder, AfterDraw, AfterRestore, SettleAll, FindExpense;
    if e.op.DoDebit? && ExpireDue(u, b, e.now).Done? {
      var expired := ExpireDue(u, b, e.now).book;
      ExpiryGrows(u, b, e.now);
      TakenStays(b, expired, Cut(e.op.key));
      if EnsureCoverage(u, expired, e.now).Done? {
        CoverageGrows(u, expired, e.now);
        TakenStays(expired, EnsureCoverage(u, expired, e.now).book, Cut(e.op.key));
      }
    }
  }

  /**
   * After a credit, debit or refund succeeded, and after anything else in
   * between, the same kind of call with the same key gives back the original
   * row and changes nothing, exactly when the key fits the 160-character
   * column.  A longer key is cut when stored and never found again.
   */
  lemma ReplayIffKeyFits(u: User, h: History, first: Event, between: seq<Event>, again: Event)
    requires Sound(h) && Keyed(first.op) && Keyed(again.op) && again.op.key == first.op.key
    requires FindLedger(h.book, first.op.key).None? && Perform(u, h.book, first).Done?
    ensures var later := Run(u, Step(u, h, first), between).book;
            Perform(u, later, again) == Done(later, Perform(u, h.book, first).row) <==> |first.op.key| <= 160
  {
    hide Perform, Step, Sound;
    var key, h1 := first.op.key, Step(u, h, first);
    FreshRowCarriesKey(u, h.book, first);
    var row := Perform(u, h.book, first).row.value;
    StepKeepsSound(u, h, first);
    StepBook(u, h, first);
    RunGrows(u, h1, between);
    RunFromSound(u, h1, between);
    var later := Run(u, h1, between).book;
    SoundParts(Run(u, h1, between));
    assert later.ledger[row] == later.ledger[..|h1.book.ledger|][row];
    if |key| <= 160 {
      assert later.ledger[row].key == key;
      KeyFound(later, row);
      FoundKeyReplays(u, later, again);
    } else {
      LongKeyNotFound(later, key);
      UsedKeyIsRefused(u, later, again);
    }
  }

  lemma StepBook(u: User, h: History, e: Event)
    ensures Step(u, h, e).book == After(h.book, Perform(u, h.book, e))
  {
    hide Perform;
  }

  lemma KeyFound(b: Book, row: nat)
    requires KeysDistinct(b) && row < |b.ledger|
    ensures FindLedger(b, b.ledger[row].key) == Some(row)
  {
    assert KeyIs(b.ledger[row].key)(b.ledger[row]);
  }

  lemma LongKeyNotFound(b: Book, key: string)
    requires KeysDistinct(b) && |key| > 160
    ensures FindLedger(b, key).None?
  {
  }

  lemma FoundKeyReplays(u: User, b: Book, e: Event)
    requires Keyed(e.op) && FindLedger(b, e.op.key).Some?
    ensures Perform(u, b, e) == Done(b, FindLedger(b, e.op.key))
  {
    hide FindLedger;
  }

  lemma {:induction false} RunFromSound(u: User, h: History, events: seq<Event>)
    requires Sound(h)
    ensures Sound(Run(u, h, events))
  {
    if events != [] {
      RunFromSound(u, h, events[..|events| - 1]);
      StepKeepsSound(u, Run(u, h, events[..|events| - 1]), events[|events| - 1]);
    }
  }

  // ---------------------------------------------------------------- refunds undo debits

  /** What expense e took from a lot and has not had back. */
  function OpenShare(b: Book, e: nat, lot: nat): int { Sum(b.allocations, OpenOfOn(e, |b.lots|, lot)) }

  lemma DebitOpens(b: Book, amount: int, biz: Biz, key: string, now: int, i: nat)
    requires LotsSound(b) && AllocationsSound(b) && amount > 0 && i < |b.lots|
    requires Spend(b, b.points, amount, biz, key, now).Done?
    ensures var b' := Spend(b, b.points, amount, biz, key, now).book;
            OpenShare(b', |b.ledger|, i) == b.lots[i].remaining - b'.lots[i].remaining
  {
    hide SpendOrder, Draw, Covered, Cut, AfterDraw;
    SpendPosts(b, amount, biz, key, now);
    var e, n := |b.ledger|, |b.lots|;
    var draw := Draw(b.lots, SpendOrder(b.lots, now), amount, e);
    SumAppend(b.allocations, draw, OpenOfOn(e, n, i));
    forall k | 0 <= k < |b.allocations| ensures OpenOfOn(e, n, i)(b.allocations[k]) == 0 {
      assert AllocationSound(b.allocations[k], b);
    }
    SumZero(b.allocations, OpenOfOn(e, n, i));
    SumSame(draw, draw, OpenOfOn(e, n, i), AmountOn(i));
  }

  lemma DebitOpensAll(b: Book, amount: int, biz: Biz, key: string, now: int)
    requires LotsSound(b) && AllocationsSound(b) && amount > 0
    requires Spend(b, b.points, amount, biz, key, now).Done?
    ensures var b' := Spend(b, b.points, amount, biz, key, now).book;
            Sum(b'.allocations, OpenOf(|b.ledger|, |b'.lots|)) == amount
  {
    hide SpendOrder, Draw, Covered, Cut, AfterDraw;
    SpendPosts(b, amount, biz, key, now);
    var e, n := |b.ledger|, |b.lots|;
    var draw := Draw(b.lots, SpendOrder(b.lots, now), amount, e);
    SumAppend(b.allocations, draw, OpenOf(e, n));
    forall k | 0 <= k < |b.allocations| ensures OpenOf(e, n)(b.allocations[k]) == 0 {
      assert AllocationSound(b.allocations[k], b);
    }
    SumZero(b.allocations, OpenOf(e, n));
    SumSame(draw, draw, OpenOf(e, n), Amount);
  }

  /** Event e is a refund that gives back the expense in this row. */
  predicate Refunds(b: Book, e: Event, row: nat) {
    e.op.DoRefund? && FindLedger(b, e.op.key).None? && FindExpense(b, e.op.kind, e.op.no) == Some(row)
  }

  predicate NoRefundOf(u: User, h: History, events: seq<Event>, row: nat) {
    forall k | 0 <= k < |events| :: !Refunds(Run(u, h, events[..k]).book, events[k], row)
  }

  /** Everything but a refund of the expense leaves its open shares alone. */
  lemma StepKeepsShares(u: User, h: History, ev: Event, e: nat)
    requires Sound(h) && e < |h.book.ledger| && !Refunds(h.book, ev, e)
    ensures var b, b' := h.book, Step(u, h, ev).book;
            && (forall i: nat :: OpenShare(b', e, i) == OpenShare(b, e, i))
            && Sum(b'.allocations, OpenOf(e, |b'.lots|)) == Sum(b.allocations, OpenOf(e, |b.lots|))
  {
    hide Perform, Step, Sound, Refunds;
    var b, b' := h.book, Step(u, h, ev).book;
    StepBook(u, h, ev);
    SoundParts(h);
    if Perform(u, b, ev).Done? {
      AllocationsStep(u, h, ev, e);
      SharesFollowAllocations(b, b', e);
    }
  }

  predicate SameAllocationsOf(b: Book, b': Book, e: nat) {
    && |b.allocations| <= |b'.allocations| && |b.lots| <= |b'.lots|
    && (forall k | 0 <= k < |b.allocations| ::
          && b'.allocations[k].expense == b.allocations[k].expense
          && (b.allocations[k].expense == e ==> b'.allocations[k] == b.allocations[k]))
    && (forall k | |b.allocations| <= k < |b'.allocations| :: b'.allocations[k].expense != e)
  }

  lemma SharesFollowAllocations(b: Book, b': Book, e: nat)
    requires AllocationsSound(b) && SameAllocationsOf(b, b', e)
    ensures forall i: nat :: OpenShare(b', e, i) == OpenShare(b, e, i)
    ensures Sum(b'.allocations, OpenOf(e, |b'.lots|)) == Sum(b.allocations, OpenOf(e, |b.lots|))
  {
    var m, n := |b.lots|, |b'.lots|;
    var kept, added := b'.allocations[..|b.allocations|], b'.allocations[|b.allocations|..];
    assert b'.allocations == kept + added;
    forall k | 0 <= k < |kept|
      ensures OpenOf(e, n)(kept[k]) == OpenOf(e, m)(b.allocations[k])
      ensures forall i: nat :: OpenOfOn(e, n, i)(kept[k]) == OpenOfOn(e, m, i)(b.allocations[k])
    {
      assert kept[k] == b'.allocations[k];
      assert AllocationSound(b.allocations[k], b);
    }
    forall k | 0 <= k < |added| ensures added[k].expense != e { assert added[k] == b'.allocations[|b.allocations| + k]; }
    forall i: nat ensures OpenShare(b', e, i) == OpenShare(b, e, i) {
      SumSame(kept, b.allocations, OpenOfOn(e, n, i), OpenOfOn(e, m, i));
      SumAppend(kept, added, OpenOfOn(e, n, i));
      SumZero(added, OpenOfOn(e, n, i));
    }
    SumSame(kept, b.allocations, OpenOf(e, n), OpenOf(e, m));
    SumAppend(kept, added, OpenOf(e, n));
    SumZero(added, OpenOf(e, n));
  }

  /** An operation appends allocations of its own new rows, or settles the rows of the expense it refunds. */
  lemma AllocationsStep(u: User, h: History, ev: Event, e: nat)
    requires Sound(h) && e < |h.book.ledger| && !Refunds(h.book, ev, e) && Perform(u, h.book, ev).Done?
    ensures SameAllocationsOf(h.book, Perform(u, h.book, ev).book, e)
  {
    match ev.op
    case DoDebit(amount, biz, key) =>
      if FindLedger(h.book, key).None? { DebitAllocations(u, h, ev, e); }
    case DoExpire => ExpiryAllocations(u, h, ev.now, e);
    case DoCredit(_, _, _, _) => hide Sound;
    case DoRefund(_, _, _, _, _, _) => hide Sound;
    case DoRevoke(_, _, _) => hide Sound;
  }

  lemma ExpiryAllocations(u: User, h: History, now: int, e: nat)
    requires Sound(h) && ExpireDue(u, h.book, now).Done? && e < |h.book.ledger|
    ensures var b' := ExpireDue(u, h.book, now).book;
            SameAllocationsOf(h.book, b', e) && |h.book.lots| == |b'.lots| && |h.book.ledger| <= |b'.ledger|
  {
    hide Sound, ExpireDue, DueIds, DueTotal, Draw;
    var b := h.book;
    SoundParts(h);
    ExpiryTakesAllDue(b, now);
    ExpiryShape(u, b, now);
    DueDraw(b.lots, now, |b.ledger|);
    if DueIds(b.lots, now) != [] {
      var b', draw := ExpireDue(u, b, now).book, Draw(b.lots, DueIds(b.lots, now), DueTotal(b.lots, now), |b.ledger|);
      assert forall k | |b.allocations| <= k < |b'.allocations| :: b'.allocations[k] == draw[k - |b.allocations|];
    }
  }

  lemma DebitAllocations(u: User, h: History, ev: Event, e: nat)
    requires Sound(h) && e < |h.book.ledger| && ev.op.DoDebit?
    requires FindLedger(h.book, ev.op.key).None? && Perform(u, h.book, ev).Done?
    ensures SameAllocationsOf(h.book, Perform(u, h.book, ev).book, e)
  {
    hide Sound, ExpireDue, Spend, Perform, Step, SpendOrder, Draw, FindLedger;
    SoundDebit(u, h, ev);
    ExpiryAllocations(u, h, ev.now, e);
    var expired := ExpireDue(u, h.book, ev.now).book;
    SoundParts(History(expired, h.revoked));
    SpendPosts(expired, ev.op.amount, ev.op.biz, ev.op.key, ev.now);
    var b' := Perform(u, h.book, ev).book;
    var draw := Draw(expired.lots, SpendOrder(expired.lots, ev.now), ev.op.amount, |expired.ledger|);
    assert forall k | |expired.allocations| <= k < |b'.allocations| :: b'.allocations[k] == draw[k - |expired.allocations|];
  }

  lemma {:induction false} RunKeepsShares(u: User, h: History, events: seq<Event>, e: nat)
    requires Sound(h) && e < |h.book.ledger| && NoRefundOf(u, h, events, e)
    ensures forall i: nat :: OpenShare(Run(u, h, events).book, e, i) == OpenShare(h.book, e, i)
    ensures var b' := Run(u, h, events).book;
            Sum(b'.allocations, OpenOf(e, |b'.lots|)) == Sum(h.book.allocations, OpenOf(e, |h.book.lots|))
  {
    if events != [] {
      var n := |events| - 1;
      forall k | 0 <= k < n ensures !Refunds(Run(u, h, events[..n][..k]).book, events[..n][k], e) {
        assert events[..n][..k] == events[..k];
        assert !Refunds(Run(u, h, events[..k]).book, events[k], e);
      }
      RunKeepsShares(u, h, events[..n], e);
      RunFromSound(u, h, events[..n]);
      RunGrows(u, h, events[..n]);
      assert !Refunds(Run(u, h, events[..n]).book, events[n], e);
      StepKeepsShares(u, Run(u, h, events[..n]), events[n], e);
    }
  }

  /** How a refund of row e changes the book, whatever has been restored before. */
  lemma RefundRestoresOpen(u: User, h: History, refund: Event, e: nat)
    requires Sound(h) && Refunds(h.book, refund, e) && Perform(u, h.book, refund).Done?
    ensures var b, b' := h.book, Perform(u, h.book, refund).book;
            var open := Sum(b.allocations, OpenOf(e, |b.lots|));
            && b'.points == b.points + b.ledger[e].amount
            && Sum(b'.lots, Remaining) == Sum(b.lots, Remaining) + b.ledger[e].amount
            && (forall i | 0 <= i < |b.lots| ::
                  b'.lots[i] == Revived(b.lots[i], OpenShare(b, e, i), refund.now, refund.op.fallback)
                  && b'.lots[i].remaining == b.lots[i].remaining + OpenShare(b, e, i))
            && (open == b.ledger[e].amount ==> |b'.lots| == |b.lots|)
            && (open < b.ledger[e].amount ==>
                  |b'.lots| == |b.lots| + 1 && b'.lots[|b.lots|].remaining == b.ledger[e].amount - open
                  && b'.lots[|b.lots|].expiresAt == refund.op.fallback)
  {
    hide Sound;
    var b, b' := h.book, Perform(u, h.book, refund).book;
    RestoredTotal(b.lots, b.allocations, e, refund.now, refund.op.fallback);
    OpenWithinAmount(h, e);
    if |b'.lots| > |b.lots| {
      SumPush(AfterRestore(b.lots, b.allocations, e, refund.now, refund.op.fallback), b'.lots[|b.lots|], Remaining);
    }
  }

  /**
   * After a debit and any other operations, the refund of that debit gives
   * every lot back exactly what the debit took from it, and creates no lot.
   */
  lemma RefundReturnsWhatWasTaken(u: User, h: History, debit: Event, between: seq<Event>, refund: Event)
    requires Sound(h) && debit.op.DoDebit? && refund.op.DoRefund?
    requires FindLedger(h.book, debit.op.key).None? && Perform(u, h.book, debit).Done?
    requires NoRefundOf(u, Step(u, h, debit), between, Perform(u, h.book, debit).row.value)
    requires var later := Run(u, Step(u, h, debit), between).book;
             Refunds(later, refund, Perform(u, h.book, debit).row.value) && Perform(u, later, refund).Done?
    ensures var expired := ExpireDue(u, h.book, debit.now).book;
            var paid := Step(u, h, debit).book;
            var later := Run(u, Step(u, h, debit), between).book;
            var back := Perform(u, later, refund).book;
            && |paid.lots| <= |back.lots| == |later.lots|
            && |expired.lots| == |paid.lots|
            && back.points == later.points + debit.op.amount
            && (forall i | 0 <= i < |paid.lots| ::
                  back.lots[i].remaining - later.lots[i].remaining == expired.lots[i].remaining - paid.lots[i].remaining)
            && (forall i | |paid.lots| <= i < |later.lots| :: back.lots[i].remaining == later.lots[i].remaining)
  {
    hide Sound, ExpireDue, Spend, Step, OpenShare, Draw, SpendOrder, FindLedger;
    var amount, biz, key := debit.op.amount, debit.op.biz, debit.op.key;
    SoundDebit(u, h, debit);
    var expired := ExpireDue(u, h.book, debit.now).book;
    SoundParts(History(expired, h.revoked));
    var h1, e := Step(u, h, debit), |expired.ledger|;
    SpendPosts(expired, amount, biz, key, debit.now);
    DebitOpensAll(expired, amount, biz, key, debit.now);
    RunKeepsShares(u, h1, between, e);
    RunFromSound(u, h1, between);
    RunGrows(u, h1, between);
    SoundParts(h1);
    var later := Run(u, h1, between);
    assert later.book.ledger[e] == later.book.ledger[..|h1.book.ledger|][e];
    RefundRestoresOpen(u, later, refund, e);
    forall i: nat | i < |later.book.lots|
      ensures OpenShare(later.book, e, i) == if i < |expired.lots| then expired.lots[i].remaining - h1.book.lots[i].remaining else 0
    {
      if i < |expired.lots| {
        DebitOpens(expired, amount, biz, key, debit.now, i);
      } else {
        NoShareOfLaterLots(h1.book, e, i);
      }
    }
  }

  lemma NoShareOfLaterLots(b: Book, e: nat, i: nat)
    requires AllocationsSound(b) && i >= |b.lots|
    ensures OpenShare(b, e, i) == 0
  {
    SumZero(b.allocations, OpenOfOn(e, |b.lots|, i));
  }

  /** With nothing due at either moment, a refund right after a debit restores the balance and every lot entirely. */
  lemma RefundInvertsDebit(u: User, h: History, debit: Event, refund: Event)
    requires Sound(h) && debit.op.DoDebit? && refund.op.DoRefund?
    requires DueIds(h.book.lots, debit.now) == []
    requires forall i | 0 <= i < |h.book.lots| && Spendable(h.book.lots[i], debit.now) :: Spendable(h.book.lots[i], refund.now)
    requires FindLedger(h.book, debit.op.key).None? && Perform(u, h.book, debit).Done?
    requires Refunds(Step(u, h, debit).book, refund, Perform(u, h.book, debit).row.value)
    requires Perform(u, Step(u, h, debit).book, refund).Done?
    ensures var back := Perform(u, Step(u, h, debit).book, refund).book;
            back.points == h.book.points && back.lots == h.book.lots
  {
    hide Sound, ExpireDue, Spend, Step, Perform, OpenShare, DueIds, FindLedger;
    var b, paid := h.book, Step(u, h, debit);
    var amount, biz, key := debit.op.amount, debit.op.biz, debit.op.key;
    SoundDebit(u, h, debit);
    SoundParts(h);
    NothingDueExpires(u, b, debit.now);
    SpendLots(b, b.points, amount, biz, key, debit.now);
    DebitOpensAll(b, amount, biz, key, debit.now);
    RefundRestoresOpen(u, paid, refund, |b.ledger|);
    var back := Perform(u, paid.book, refund).book;
    forall i: nat | i < |b.lots| ensures back.lots[i] == b.lots[i] {
      LotComesBack(b, amount, biz, key, debit.now, refund, i);
    }
  }

  lemma LotComesBack(b: Book, amount: int, biz: Biz, key: string, now: int, refund: Event, i: nat)
    requires LotsSound(b) && AllocationsSound(b) && amount > 0 && i < |b.lots| && refund.op.DoRefund?
    requires Spend(b, b.points, amount, biz, key, now).Done?
    requires Spendable(b.lots[i], now) ==> Spendable(b.lots[i], refund.now)
    ensures var b' := Spend(b, b.points, amount, biz, key, now).book;
            i < |b'.lots| &&
            Revived(b'.lots[i], OpenShare(b', |b.ledger|, i), refund.now, refund.op.fallback) == b.lots[i]
  {
    hide OpenShare, SpendOrder, Draw, AfterDraw, Spend, LotsSound, AllocationsSound;
    var order := SpendOrder(b.lots, now);
    var draw := Draw(b.lots, order, amount, |b.ledger|);
    SpendLots(b, b.points, amount, biz, key, now);
    AfterDrawRows(b.lots, draw);
    DebitOpens(b, amount, biz, key, now, i);
    SpendOrderIs(b.lots, now);
    SpendableIsDrawable(b.lots, now);
    DrawWithin(b.lots, order, amount, |b.ledger|, i);
  }

  lemma NothingDueExpires(u: User, b: Book, now: int)
    requires DueIds(b.lots, now) == []
    ensures ExpireDue(u, b, now) == Done(b, None)
  {
  }

  lemma SpendLots(b: Book, before: int, amount: int, biz: Biz, key: string, now: int)
    requires Spend(b, before, amount, biz, key, now).Done?
    ensures var b' := Spend(b, before, amount, biz, key, now).book;
            && amount <= Covered(b.lots, now) && b'.points == before - amount
            && |b'.lots| == |b.lots|
            && b'.lots == AfterDraw(b.lots, Draw(b.lots, SpendOrder(b.lots, now), amount, |b.ledger|))
            && |b'.ledger| == |b.ledger| + 1 && b'.ledger[|b.ledger|].amount == amount
            && b'.ledger[|b.ledger|].direction == Expense
  {
  }
}
