/** How draws, expiries and restorations move points between lots, whatever book they start from. */
module PointLots {
  import opened Sums
  import opened PointBook

  // ---------------------------------------------------------------- the spend order

  predicate Sorted(lots: seq<Lot>, ids: seq<nat>)
    requires Below(ids, |lots|)
  {
    forall a, b | 0 <= a < b < |ids| :: Precedes(lots, ids[a], ids[b])
  }

  predicate Distinct(ids: seq<nat>) { forall a, b | 0 <= a < b < |ids| :: ids[a] != ids[b] }

  lemma {:induction false} InsertSorts(lots: seq<Lot>, id: nat, sorted: seq<nat>)
    requires id < |lots| && Below(sorted, |lots|) && id !in sorted && Sorted(lots, sorted)
    ensures Sorted(lots, Insert(lots, id, sorted))
  {
    if sorted != [] && !Precedes(lots, id, sorted[0]) {
      var rest := Insert(lots, id, sorted[1..]);
      InsertSorts(lots, id, sorted[1..]);
      InsertMembers(lots, id, sorted[1..]);
      assert forall k | 0 <= k < |rest| :: rest[k] in rest;
      assert forall k | 0 <= k < |rest| :: Precedes(lots, sorted[0], rest[k]);
    } else {
      forall k | 0 <= k < |sorted| ensures Precedes(lots, id, sorted[k]) {
        if k > 0 { assert Precedes(lots, sorted[0], sorted[k]); }
      }
    }
  }

  lemma {:induction false} SortSorts(lots: seq<Lot>, ids: seq<nat>)
    requires Below(ids, |lots|) && Distinct(ids)
    ensures Sorted(lots, SortByExpiry(lots, ids)) && Distinct(SortByExpiry(lots, ids))
  {
    if ids != [] {
      var rest := SortByExpiry(lots, ids[1..]);
      SortSorts(lots, ids[1..]);
      assert ids[0] !in ids[1..];
      InsertSorts(lots, ids[0], rest);
      assert SortByExpiry(lots, ids) == Insert(lots, ids[0], rest);
    }
  }

  lemma {:induction false} InsertTotal(lots: seq<Lot>, id: nat, sorted: seq<nat>, f: nat -> int)
    requires id < |lots| && Below(sorted, |lots|)
    ensures Sum(Insert(lots, id, sorted), f) == f(id) + Sum(sorted, f)
  {
    if sorted == [] || Precedes(lots, id, sorted[0]) {
      SumAppend([id], sorted, f);
      SumOne(id, f);
    } else {
      InsertTotal(lots, id, sorted[1..], f);
      SumAppend([sorted[0]], Insert(lots, id, sorted[1..]), f);
      SumAppend([sorted[0]], sorted[1..], f);
      assert sorted == [sorted[0]] + sorted[1..];
    }
  }

  lemma {:induction false} SortTotal(lots: seq<Lot>, ids: seq<nat>, f: nat -> int)
    requires Below(ids, |lots|)
    ensures Sum(SortByExpiry(lots, ids), f) == Sum(ids, f)
  {
    if ids != [] {
      SortTotal(lots, ids[1..], f);
      InsertTotal(lots, ids[0], SortByExpiry(lots, ids[1..]), f);
      SumAppend([ids[0]], ids[1..], f);
      SumOne(ids[0], f);
      assert ids == [ids[0]] + ids[1..];
    }
  }

  lemma {:induction false} SelectedTotal(lots: seq<Lot>, p: Lot -> bool)
    ensures Sum(IdsWhere(lots, p), RemainingAt(lots)) == Sum(lots, RemainingIf(p))
  {
    if lots != [] {
      var n := |lots| - 1;
      var ids := IdsWhere(lots[..n], p);
      SelectedTotal(lots[..n], p);
      FrontTotal(lots, p);
      SumPush<nat>(ids, n, RemainingAt(lots));
      assert IdsWhere(lots, p) == if p(lots[n]) then ids + [n] else ids;
    }
  }

  /** The lots before the last one hold the same whichever table they are looked up in. */
  lemma FrontTotal(lots: seq<Lot>, p: Lot -> bool)
    requires lots != []
    ensures var n := |lots| - 1; var ids := IdsWhere(lots[..n], p);
            Sum(ids, RemainingAt(lots)) == Sum(ids, RemainingAt(lots[..n]))
  {
    hide Sum;
    var n := |lots| - 1;
    var ids := IdsWhere(lots[..n], p);
    forall k | 0 <= k < |ids| ensures RemainingAt(lots)(ids[k]) == RemainingAt(lots[..n])(ids[k]) {
      assert ids[k] in ids;
    }
    SumSame<nat, nat>(ids, ids, RemainingAt(lots), RemainingAt(lots[..n]));
  }

  /** The lots a debit walks through: every spendable lot once, earliest expiry first, holding the covered points. */
  lemma SpendOrderIs(lots: seq<Lot>, now: int)
    ensures var order := SpendOrder(lots, now);
            Sorted(lots, order) && Distinct(order) && Sum(order, RemainingAt(lots)) == Covered(lots, now)
  {
    var ids := IdsWhere(lots, SpendableAt(now));
    assert forall k | 0 <= k < |ids| :: ids[k] in ids;
    SortSorts(lots, ids);
    SortTotal(lots, ids, RemainingAt(lots));
    SelectedTotal(lots, SpendableAt(now));
  }

  // ---------------------------------------------------------------- draws

  /** Lots that can each give something, each listed once. */
  predicate Drawable(lots: seq<Lot>, order: seq<nat>) {
    Below(order, |lots|) && Distinct(order) && forall k | 0 <= k < |order| :: lots[order[k]].remaining > 0
  }

  lemma OrderTotalSplits(lots: seq<Lot>, order: seq<nat>)
    requires Drawable(lots, order) && order != []
    ensures Drawable(lots, order[1..])
    ensures Sum(order, RemainingAt(lots)) == lots[order[0]].remaining + Sum(order[1..], RemainingAt(lots))
    ensures Sum(order[1..], RemainingAt(lots)) >= 0
  {
    var rest := order[1..];
    SumAppend([order[0]], rest, RemainingAt(lots));
    SumOne(order[0], RemainingAt(lots));
    assert order == [order[0]] + rest;
    forall k | 0 <= k < |rest| ensures lots[rest[k]].remaining > 0 { assert rest[k] == order[k + 1]; }
    SumAtLeast(rest, RemainingAt(lots));
  }

  lemma {:induction false} DrawTotal(lots: seq<Lot>, order: seq<nat>, n: int, e: nat)
    requires Drawable(lots, order) && 0 <= n <= Sum(order, RemainingAt(lots))
    ensures Sum(Draw(lots, order, n, e), Amount) == n
  {
    if order != [] && n > 0 {
      OrderTotalSplits(lots, order);
      var c := Min(lots[order[0]].remaining, n);
      var first := Allocation(e, order[0], c, 0);
      DrawTotal(lots, order[1..], n - c, e);
      SumAppend([first], Draw(lots, order[1..], n - c, e), Amount);
      SumOne(first, Amount);
    }
  }

  /** The draw visits a prefix of the order and empties every lot it visits, except that the last one may keep a part. */
  predicate Shaped(lots: seq<Lot>, order: seq<nat>, draw: seq<Allocation>, e: nat)
    requires Below(order, |lots|)
  {
    && |draw| <= |order|
    && (forall k | 0 <= k < |draw| ::
          && draw[k].lot == order[k] && draw[k].expense == e && draw[k].restored == 0
          && 0 < draw[k].amount <= lots[order[k]].remaining)
    && (forall k | 0 <= k < |draw| - 1 :: draw[k].amount == lots[order[k]].remaining)
  }

  lemma ShapedCons(lots: seq<Lot>, order: seq<nat>, rest: seq<Allocation>, c: int, e: nat)
    requires Below(order, |lots|) && order != [] && Shaped(lots, order[1..], rest, e)
    requires 0 < c <= lots[order[0]].remaining && (rest != [] ==> c == lots[order[0]].remaining)
    ensures Shaped(lots, order, [Allocation(e, order[0], c, 0)] + rest, e)
  {
    var draw := [Allocation(e, order[0], c, 0)] + rest;
    assert forall k | 0 < k < |draw| :: draw[k] == rest[k - 1] && order[k] == order[1..][k - 1];
  }

  lemma {:induction false} DrawShape(lots: seq<Lot>, order: seq<nat>, n: int, e: nat)
    requires Drawable(lots, order) && 0 <= n <= Sum(order, RemainingAt(lots))
    ensures Shaped(lots, order, Draw(lots, order, n, e), e)
  {
    hide Shaped;
    if order != [] && n > 0 {
      OrderTotalSplits(lots, order);
      var c := Min(lots[order[0]].remaining, n);
      DrawShape(lots, order[1..], n - c, e);
      ShapedCons(lots, order, Draw(lots, order[1..], n - c, e), c, e);
    } else {
      NothingShaped(lots, order, e);
    }
  }

  lemma NothingShaped(lots: seq<Lot>, order: seq<nat>, e: nat)
    requires Below(order, |lots|)
    ensures Shaped(lots, order, [], e)
  {
  }

  /** Drawing everything there is empties every lot of the order. */
  lemma {:induction false} DrawAll(lots: seq<Lot>, order: seq<nat>, e: nat)
    requires Drawable(lots, order)
    ensures var draw := Draw(lots, order, Sum(order, RemainingAt(lots)), e);
            |draw| == |order| && forall k | 0 <= k < |draw| :: draw[k].amount == lots[order[k]].remaining
  {
    if order != [] {
      OrderTotalSplits(lots, order);
      var n := Sum(order, RemainingAt(lots));
      DrawAll(lots, order[1..], e);
      var draw, rest := Draw(lots, order, n, e), Draw(lots, order[1..], n - lots[order[0]].remaining, e);
      assert forall k | 0 < k < |draw| :: draw[k] == rest[k - 1] && order[k] == order[1..][k - 1];
    }
  }

  /** Each lot appears at most once in a draw, so its share is the amount on its row. */
  lemma DrawShare(lots: seq<Lot>, order: seq<nat>, n: int, e: nat)
    requires Drawable(lots, order) && 0 <= n <= Sum(order, RemainingAt(lots))
    ensures var draw := Draw(lots, order, n, e);
            && (forall k | 0 <= k < |draw| :: Sum(draw, AmountOn(order[k])) == draw[k].amount)
            && (forall i: nat | (forall k | 0 <= k < |draw| :: order[k] != i) :: Sum(draw, AmountOn(i)) == 0)
  {
    DrawShape(lots, order, n, e);
    var draw := Draw(lots, order, n, e);
    forall k | 0 <= k < |draw| ensures Sum(draw, AmountOn(order[k])) == draw[k].amount {
      SumSingle(draw, k, AmountOn(order[k]));
    }
    forall i: nat | (forall k | 0 <= k < |draw| :: order[k] != i) ensures Sum(draw, AmountOn(i)) == 0 {
      SumZero(draw, AmountOn(i));
    }
  }

  /** No lot gives more than it holds, and only lots in the order give anything. */
  lemma DrawWithin(lots: seq<Lot>, order: seq<nat>, n: int, e: nat, i: nat)
    requires Drawable(lots, order) && 0 <= n <= Sum(order, RemainingAt(lots)) && i < |lots|
    ensures 0 <= Sum(Draw(lots, order, n, e), AmountOn(i))
    ensures i in order ==> Sum(Draw(lots, order, n, e), AmountOn(i)) <= lots[i].remaining
    ensures i !in order ==> Sum(Draw(lots, order, n, e), AmountOn(i)) == 0
  {
    DrawShape(lots, order, n, e);
    DrawShare(lots, order, n, e);
    var draw := Draw(lots, order, n, e);
    if k :| 0 <= k < |draw| && order[k] == i {
      assert Sum(draw, AmountOn(order[k])) == draw[k].amount;
    }
    if i in order {
      var k :| 0 <= k < |order| && order[k] == i;
      assert lots[order[k]].remaining > 0;
    }
  }

  // ---------------------------------------------------------------- totals

  /**
   * When every lot changes by what the rows say about it, the total changes
   * by what the rows say in all.
   */
  lemma {:induction false} MovementTotal<T>(before: seq<Lot>, after: seq<Lot>, rows: seq<T>, lotOf: T -> nat, all: T -> int,
                                            on: nat -> T -> int)
    requires |before| == |after|
    requires forall k | 0 <= k < |rows| :: all(rows[k]) == 0 || lotOf(rows[k]) < |before|
    requires forall i: nat, k | 0 <= k < |rows| && i < |before| :: on(i)(rows[k]) == if lotOf(rows[k]) == i then all(rows[k]) else 0
    requires forall i | 0 <= i < |before| :: after[i].remaining == before[i].remaining + Sum(rows, on(i))
    ensures Sum(after, Remaining) == Sum(before, Remaining) + Sum(rows, all)
    decreases |rows|
  {
    if rows == [] {
      SumSame(after, before, Remaining, Remaining);
    } else {
      var front, last := rows[..|rows| - 1], rows[|rows| - 1];
      var i := lotOf(last);
      assert rows == front + [last];
      assert forall k | 0 <= k < |front| :: front[k] == rows[k];
      assert all(rows[|rows| - 1]) == all(last);
      if i < |before| {
        var moved := before[i := before[i].(remaining := before[i].remaining + all(last))];
        forall j | 0 <= j < |before| ensures after[j].remaining == moved[j].remaining + Sum(front, on(j)) {
          assert Sum(rows, on(j)) == Sum(front, on(j)) + on(j)(rows[|rows| - 1]);
        }
        MovementTotal(moved, after, front, lotOf, all, on);
        SumUpdate(before, i, moved[i], Remaining);
      } else {
        forall j | 0 <= j < |before| ensures after[j].remaining == before[j].remaining + Sum(front, on(j)) {
          assert Sum(rows, on(j)) == Sum(front, on(j)) + on(j)(rows[|rows| - 1]);
        }
        MovementTotal(before, after, front, lotOf, all, on);
      }
    }
  }

  function LotOf(a: Allocation): nat { a.lot }

  function MinusAmount(a: Allocation): int { -a.amount }

  function MinusAmountOn(lot: nat): Allocation -> int { (a: Allocation) => if a.lot == lot then -a.amount else 0 }

  lemma {:induction false} SumNegates<T>(s: seq<T>, f: T -> int, g: T -> int)
    requires forall k | 0 <= k < |s| :: g(s[k]) == -f(s[k])
    ensures Sum(s, g) == -Sum(s, f)
  {
    if s != [] { SumNegates(s[..|s| - 1], f, g); }
  }

  lemma DrawnTotal(before: seq<Lot>, after: seq<Lot>, draw: seq<Allocation>)
    requires |before| == |after|
    requires forall k | 0 <= k < |draw| :: draw[k].lot < |before|
    requires forall i | 0 <= i < |before| :: after[i].remaining == before[i].remaining - Sum(draw, AmountOn(i))
    ensures Sum(after, Remaining) == Sum(before, Remaining) - Sum(draw, Amount)
  {
    SumNegates(draw, Amount, MinusAmount);
    forall i | 0 <= i < |before| ensures after[i].remaining == before[i].remaining + Sum(draw, MinusAmountOn(i)) {
      SumNegates(draw, AmountOn(i), MinusAmountOn(i));
    }
    MovementTotal(before, after, draw, LotOf, MinusAmount, MinusAmountOn);
  }

  /** A restoration raises the total by exactly what was still open on the expense. */
  lemma RestoredTotal(lots: seq<Lot>, allocations: seq<Allocation>, e: nat, now: int, fallback: Option<int>)
    ensures Sum(AfterRestore(lots, allocations, e, now, fallback), Remaining)
         == Sum(lots, Remaining) + Sum(allocations, OpenOf(e, |lots|))
    ensures forall i | 0 <= i < |lots| ::
              AfterRestore(lots, allocations, e, now, fallback)[i].remaining
              == lots[i].remaining + Sum(allocations, OpenOfOn(e, |lots|, i))
  {
    var after := AfterRestore(lots, allocations, e, now, fallback);
    var on := (i: nat) => OpenOfOn(e, |lots|, i);
    forall i | 0 <= i < |lots| ensures after[i].remaining == lots[i].remaining + Sum(allocations, on(i)) {
      SumAtLeast(allocations, OpenOfOn(e, |lots|, i));
      assert on(i) == OpenOfOn(e, |lots|, i);
    }
    MovementTotal(lots, after, allocations, LotOf, OpenOf(e, |lots|), on);
  }

  // ---------------------------------------------------------------- expiry and coverage

  /** Everything in a lot is due, spendable, or locked in a lot that is not active. */
  lemma TotalSplits(lots: seq<Lot>, now: int)
    requires forall i | 0 <= i < |lots| :: lots[i].remaining >= 0 && (lots[i].status != Active ==> lots[i].remaining == 0)
    ensures Sum(lots, Remaining) == DueTotal(lots, now) + Covered(lots, now)
    ensures DueTotal(lots, now) >= 0 && Covered(lots, now) >= 0
  {
    SelectedTotal(lots, DueAt(now));
    SumAdds(lots, Remaining, RemainingIf(DueAt(now)), RemainingIf(SpendableAt(now)));
    SumAtLeast(lots, RemainingIf(DueAt(now)));
    SumAtLeast(lots, RemainingIf(SpendableAt(now)));
  }

  lemma DueIsDrawable(lots: seq<Lot>, now: int)
    ensures Drawable(lots, DueIds(lots, now))
    ensures DueIds(lots, now) != [] <==> DueTotal(lots, now) > 0
  {
    var due := DueIds(lots, now);
    assert forall k | 0 <= k < |due| :: due[k] in due && Due(lots[due[k]], now);
    SumAtLeast(due, RemainingAt(lots));
    if due != [] { assert RemainingAt(lots)(due[0]) > 0; }
  }

  lemma SpendableIsDrawable(lots: seq<Lot>, now: int)
    ensures Drawable(lots, SpendOrder(lots, now))
  {
    SpendOrderIs(lots, now);
    var order := SpendOrder(lots, now);
    assert forall k | 0 <= k < |order| :: order[k] in order && Spendable(lots[order[k]], now);
  }

  /** After an expiry nothing is due and the same points are spendable. */
  lemma ExpiryLeavesNothingDue(lots: seq<Lot>, now: int)
    ensures DueIds(AfterExpiry(lots, now), now) == []
    ensures Covered(AfterExpiry(lots, now), now) == Covered(lots, now)
  {
    var after := AfterExpiry(lots, now);
    var due := DueIds(after, now);
    if due != [] { assert due[0] in due; }
    SumSame(lots, after, RemainingIf(SpendableAt(now)), RemainingIf(SpendableAt(now)));
  }

  /** Drawing all that is due takes from each lot exactly what the expiry zeroes. */
  lemma ExpiryDraws(lots: seq<Lot>, now: int, e: nat)
    ensures var draw := Draw(lots, DueIds(lots, now), DueTotal(lots, now), e);
            forall i | 0 <= i < |lots| :: AfterExpiry(lots, now)[i].remaining == lots[i].remaining - Sum(draw, AmountOn(i))
  {
    var due, n := DueIds(lots, now), DueTotal(lots, now);
    DueIsDrawable(lots, now);
    DrawAll(lots, due, e);
    DrawShare(lots, due, n, e);
    var draw := Draw(lots, due, n, e);
    forall i | 0 <= i < |lots| ensures AfterExpiry(lots, now)[i].remaining == lots[i].remaining - Sum(draw, AmountOn(i)) {
      if Due(lots[i], now) {
        assert i in due;
        var k :| 0 <= k < |due| && due[k] == i;
        assert Sum(draw, AmountOn(due[k])) == draw[k].amount;
      } else {
        assert forall k | 0 <= k < |due| :: due[k] in due;
      }
    }
  }
}
