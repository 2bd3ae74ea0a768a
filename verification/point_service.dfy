/**
 * The points service as the code runs it: one locked account whose balance and
 * tables are changed in place, loop by loop.  Every method is proved to do
 * exactly what the operation of the same name in PointBook says, on any account;
 * on an account whose books are consistent it leaves them so.
 */
module PointService {
  import opened Sums
  import opened PointBook
  import opened PointLots
  import opened PointHistory
  import opened PointTheorems
  import opened PointRevocation

  /** What the caller gets: the ledger row, nothing, or an error after which the session is rolled back. */
  datatype Reply = Row(row: Option<nat>) | Failed(error: PointError)

  predicate Settles(before: Book, after: Book, reply: Reply, o: Outcome) {
    if o.Done? then after == o.book && reply == Row(o.row) else after == before && reply == Failed(o.error)
  }

  lemma RevivedTwice(l: Lot, c: int, d: int, now: int, fallback: Option<int>)
    requires c >= 0 && d >= 0
    ensures Revived(Revived(l, c, now, fallback), d, now, fallback) == Revived(l, c + d, now, fallback)
  {
  }

  /** The lots after the first k lots of the due list have been written off. */
  function LapsedFirst(lots: seq<Lot>, done: seq<nat>): seq<Lot> {
    seq(|lots|, i requires 0 <= i < |lots| => if i in done then lots[i].(remaining := 0, status := Expired) else lots[i])
  }

  lemma LapsedAll(lots: seq<Lot>, now: int)
    ensures LapsedFirst(lots, DueIds(lots, now)) == AfterExpiry(lots, now)
    ensures Distinct(DueIds(lots, now))
  {
    DueIsDrawable(lots, now);
  }

  /** The first share of a draw, and the draw that is left. */
  lemma DrawHead(lots: seq<Lot>, order: seq<nat>, n: int, e: nat)
    requires Below(order, |lots|) && order != [] && n > 0
    ensures var c := Min(lots[order[0]].remaining, n);
            Draw(lots, order, n, e) == [Allocation(e, order[0], c, 0)] + Draw(lots, order[1..], n - c, e)
  {
  }

  lemma DrawStops(lots: seq<Lot>, order: seq<nat>, n: int, e: nat)
    requires Below(order, |lots|) && (order == [] || n <= 0)
    ensures Draw(lots, order, n, e) == []
  {
  }

  lemma EmptyIsSound()
    ensures Sound(START)
  {
    RunKeepsSound(User(0, ""), []);
  }

  /** A revocation leaves sound books sound, takes its target back, and leaves books without the credit alone. */
  lemma RevokePromises(u: User, h: History, e: Event)
    requires e.op.DoRevoke?
    ensures Sound(h) ==> Sound(Step(u, h, e))
    ensures Sound(h) ==> forall r: nat, i: nat |
              Target(h.book, e.op.creditKey, r, i) && i < |h.book.lots| && KeyFree(h.book, e.op.key)
              && (h.book.lots[i].remaining > 0 ==> KeyFree(h.book, Cut(e.op.key))) ::
                Perform(u, h.book, e).Done? && TakenBack(h.book, Step(u, h, e).book, i, e.op.biz, e.op.key)
    ensures (forall r | 0 <= r < |h.book.ledger| && h.book.ledger[r].key == e.op.creditKey :: h.book.ledger[r].direction == Expense)
            ==> Perform(u, h.book, e).Done? && Step(u, h, e).book == h.book
  {
    hide Sound, Target, TakenBack, KeyFree, Cut;
    if Sound(h) {
      StepKeepsSound(u, h, e);
      forall r: nat, i: nat | Target(h.book, e.op.creditKey, r, i) && i < |h.book.lots| && KeyFree(h.book, e.op.key)
                              && (h.book.lots[i].remaining > 0 ==> KeyFree(h.book, Cut(e.op.key)))
        ensures Perform(u, h.book, e).Done? && TakenBack(h.book, Step(u, h, e).book, i, e.op.biz, e.op.key)
      {
        RevokeAt(u, h, e, r, i);
      }
    }
  }

  lemma ExpiryKept(u: User, h: History, now: int)
    requires Sound(h)
    ensures ExpireDue(u, h.book, now).Done? ==>
              Sound(History(ExpireDue(u, h.book, now).book, h.revoked)) && DueIds(ExpireDue(u, h.book, now).book.lots, now) == []
  {
    hide Sound, ExpireDue, DueIds;
    if ExpireDue(u, h.book, now).Done? { ExpireKeepsSound(u, h, now); }
  }

  class PointAccount {
    const user: User
    var points: int
    var ledger: seq<LedgerRow>
    var lots: seq<Lot>
    var allocations: seq<Allocation>
    ghost var revoked: seq<Revocation>

    function Contents(): Book
      reads this
    {
      Book(points, ledger, lots, allocations)
    }

    /** Balance, lots, allocations, ledger and keys agree, as after every run from an empty account. */
    ghost predicate Valid()
      reads this
    {
      Sound(History(Contents(), revoked))
    }

    constructor (user: User)
      ensures Contents() == EMPTY && this.user == user && Valid()
    {
      this.user := user;
      points, ledger, lots, allocations, revoked := 0, [], [], [], [];
      EmptyIsSound();
    }

    method Rollback(saved: Book)
      modifies `points, `ledger, `lots, `allocations
      ensures Contents() == saved
    {
      points, ledger, lots, allocations := saved.points, saved.ledger, saved.lots, saved.allocations;
    }

    method CreditLocked(amount: int, biz: Biz, key: string, expiresAt: Option<int>) returns (reply: Reply)
      modifies `points, `ledger, `lots, `allocations
      ensures Settles(old(Contents()), Contents(), reply, Credit(old(Contents()), amount, biz, key, expiresAt))
      ensures old(Valid()) ==> Valid()
    {
      hide Sound;
      ghost var was := History(Contents(), revoked);
      if Sound(was) { StepKeepsSound(user, was, Event(DoCredit(amount, biz, key, expiresAt), 0)); }
      if amount <= 0 { return Failed(InvalidAmount); }
      var existing := FindLedger(Contents(), key);
      if existing.Some? { return Row(existing); }
      if KeyTaken(Contents(), Cut(key)) { return Failed(DuplicateKey); }
      var before := points;
      var id := |ledger|;
      points := before + amount;
      ledger := ledger + [LedgerRow(Income, amount, before, before + amount, biz, Cut(key))];
      lots := lots + [Lot(id, amount, amount, expiresAt, Active)];
      return Row(Some(id));
    }

    method ExpireDueLocked(now: int) returns (reply: Reply)
      modifies `points, `ledger, `lots, `allocations
      ensures Settles(old(Contents()), Contents(), reply, ExpireDue(user, old(Contents()), now))
      ensures old(Valid()) ==> Valid()
      ensures old(Valid()) && reply.Row? ==> DueIds(lots, now) == []
    {
      hide Sound, DueTotal, DueIds, AfterExpiry, LapsedFirst, Cut, ExpiryKey, KeyTaken, IdsWhere;
      ghost var was := History(Contents(), revoked);
      if Sound(was) { ExpiryKept(user, was, now); }
      var due := DueIds(lots, now);
      if due == [] { return Row(None); }
      DueIsDrawable(lots, now);
      LapsedAll(lots, now);
      var amount := Min(DueTotal(lots, now), points);
      var id := |ledger|;
      if amount > 0 {
        var last := due[|due| - 1];
        var key := Cut(ExpiryKey(user, last));
        if KeyTaken(Contents(), key) { return Failed(DuplicateKey); }
        ledger := ledger + [LedgerRow(Expense, amount, points, points - amount, ExpiryBiz(last), key)];
        points := points - amount;
      }
      WriteOff(due, Max0(amount), id);
      return Row(if amount > 0 then Some(id) else None);
    }

    /** The write-off loop of the expiry: each due lot goes to zero, its points booked against the expense row. */
    method WriteOff(due: seq<nat>, amount: int, id: nat)
      requires Drawable(lots, due)
      modifies `lots, `allocations
      ensures lots == LapsedFirst(old(lots), due)
      ensures allocations == old(allocations) + Draw(old(lots), due, amount, id)
    {
      hide Draw;
      ghost var lots0, allocations0 := lots, allocations;
      var remaining := amount;
      var i := 0;
      assert due[0..] == due;
      while i < |due|
        invariant 0 <= i <= |due|
        invariant lots == LapsedFirst(lots0, due[..i])
        invariant allocations + Draw(lots0, due[i..], remaining, id) == allocations0 + Draw(lots0, due, amount, id)
      {
        var lot := due[i];
        assert lots[lot] == lots0[lot];
        assert due[i..][1..] == due[i + 1..] && due[i..][0] == lot;
        assert due[..i + 1] == due[..i] + [lot];
        var expired := lots[lot].remaining;
        lots := lots[lot := lots[lot].(remaining := 0, status := Expired)];
        if remaining > 0 {
          DrawHead(lots0, due[i..], remaining, id);
          var share := Min(expired, remaining);
          allocations := allocations + [Allocation(id, lot, share, 0)];
          remaining := remaining - share;
        } else {
          DrawStops(lots0, due[i..], remaining, id);
          DrawStops(lots0, due[i + 1..], remaining, id);
        }
        i := i + 1;
      }
      DrawStops(lots0, due[i..], remaining, id);
      assert due[..|due|] == due;
    }

    method EnsureLotCoverage(now: int) returns (reply: Reply)
      modifies `points, `ledger, `lots, `allocations
      ensures Settles(old(Contents()), Contents(), reply, EnsureCoverage(user, old(Contents()), now))
    {
      var covered := Covered(lots, now);
      if covered >= points { return Row(None); }
      var missing := points - covered;
      var id := |ledger|;
      var key := Cut(OpeningKey(user));
      if KeyTaken(Contents(), key) { return Failed(DuplicateKey); }
      ledger := ledger + [LedgerRow(Income, missing, covered, points, Biz("legacy_opening", user.id, user.no), key)];
      lots := lots + [Lot(id, missing, missing, None, Active)];
      return Row(Some(id));
    }

    method DebitLocked(amount: int, biz: Biz, key: string, t1: int, t2: int, t3: int) returns (reply: Reply)
      modifies `points, `ledger, `lots, `allocations
      ensures Settles(old(Contents()), Contents(), reply, Debit(user, old(Contents()), amount, biz, key, t1, t2, t3))
      ensures old(Valid()) && t1 == t2 == t3 ==> Valid()
      ensures t1 == t2 == t3 ==> reply != Failed(LedgerMismatch)
    {
      hide Sound, ExpireDue, EnsureCoverage, Spend, FindLedger;
      ghost var was := History(Contents(), revoked);
      if Sound(was) && t1 == t2 == t3 { StepKeepsSound(user, was, Event(DoDebit(amount, biz, key), t1)); }
      if t1 == t2 == t3 { MismatchUnreachable(user, Contents(), amount, biz, key, t1); }
      if amount <= 0 { return Failed(InvalidAmount); }
      var existing := FindLedger(Contents(), key);
      if existing.Some? { return Row(existing); }
      var saved := Contents();
      var expiry := ExpireDueLocked(t1);
      if expiry.Failed? { return expiry; }
      var before := points;
      if before < amount {
        Rollback(saved);
        return Failed(InsufficientPoints);
      }
      var coverage := EnsureLotCoverage(t2);
      if coverage.Failed? {
        Rollback(saved);
        return coverage;
      }
      reply := SpendLots(before, amount, biz, key, t3);
      if reply.Failed? { Rollback(saved); }
    }

    /** Pick the spendable lots in order, post the expense and draw the lots down one by one. */
    method SpendLots(before: int, amount: int, biz: Biz, key: string, now: int) returns (reply: Reply)
      requires amount > 0
      modifies `points, `ledger, `lots, `allocations
      ensures Settles(old(Contents()), Contents(), reply, Spend(old(Contents()), before, amount, biz, key, now))
    {
      hide SpendOrder, Draw, AfterDraw, Covered, Sum;
      var order := SpendOrder(lots, now);
      SpendOrderIs(lots, now);
      if Sum(order, RemainingAt(lots)) < amount { return Failed(LedgerMismatch); }
      if KeyTaken(Contents(), Cut(key)) { return Failed(DuplicateKey); }
      var id := |ledger|;
      SpendableIsDrawable(lots, now);
      ledger := ledger + [LedgerRow(Expense, amount, before, before - amount, biz, Cut(key))];
      points := before - amount;
      DrawDown(order, amount, id);
      return Row(Some(id));
    }

    method DrawDown(order: seq<nat>, amount: int, id: nat)
      requires Drawable(lots, order) && 0 <= amount <= Sum(order, RemainingAt(lots))
      modifies `lots, `allocations
      ensures lots == AfterDraw(old(lots), Draw(old(lots), order, amount, id))
      ensures allocations == old(allocations) + Draw(old(lots), order, amount, id)
    {
      hide AfterDraw, Sum, Draw;
      ghost var lots0, allocations0, drawn: seq<Allocation> := lots, allocations, [];
      var remaining := amount;
      var i := 0;
      assert order[0..] == order;
      NothingDrawn(lots0);
      while i < |order| && remaining > 0
        invariant 0 <= i <= |order| && remaining >= 0
        invariant allocations == allocations0 + drawn
        invariant drawn + Draw(lots0, order[i..], remaining, id) == Draw(lots0, order, amount, id)
        invariant forall k | 0 <= k < |drawn| :: drawn[k].lot in order[..i]
        invariant |lots| == |lots0| && lots == AfterDraw(lots0, drawn)
      {
        var lot := order[i];
        assert order[i..][1..] == order[i + 1..] && order[i..][0] == lot;
        assert lot !in order[..i];
        DrawHead(lots0, order[i..], remaining, id);
        UndrawnLot(lots0, drawn, lot);
        var consumed := Min(lots[lot].remaining, remaining);
        var row := Allocation(id, lot, consumed, 0);
        DrawOneMore(lots0, drawn, row);
        var paying := lots[lot].(remaining := lots[lot].remaining - consumed);
        if paying.remaining == 0 {
          paying := paying.(status := Consumed);
        }
        lots := lots[lot := paying];
        allocations := allocations + [row];
        remaining := remaining - consumed;
        drawn := drawn + [row];
        i := i + 1;
      }
      DrawStops(lots0, order[i..], remaining, id);
      assert drawn == Draw(lots0, order, amount, id);
    }

    method RefundLocked(kind: string, no: string, refundKind: string, bizId: int, key: string, now: int, fallback: Option<int>)
      returns (reply: Reply)
      modifies `points, `ledger, `lots, `allocations
      ensures Settles(old(Contents()), Contents(), reply, Refund(old(Contents()), kind, no, refundKind, bizId, key, now, fallback))
      ensures old(Valid()) ==> Valid()
    {
      hide Sound, Cut, KeyTaken, FindLedger, FindExpense, AfterRestore, SettleAll;
      ghost var was := History(Contents(), revoked);
      if Sound(was) { StepKeepsSound(user, was, Event(DoRefund(kind, no, refundKind, bizId, key, fallback), now)); }
      var existing := FindLedger(Contents(), key);
      if existing.Some? { return Row(existing); }
      var original := FindExpense(Contents(), kind, no);
      if original.None? { return Failed(DebitNotFound); }
      if KeyTaken(Contents(), Cut(key)) { return Failed(DuplicateKey); }
      var amount := ledger[original.value].amount;
      var id := |ledger|;
      ledger := ledger + [LedgerRow(Income, amount, points, points + amount, Biz(refundKind, bizId, no), Cut(key))];
      points := points + amount;
      var restored := RestoreLots(original.value, now, fallback);
      if restored < amount {
        lots := lots + [Lot(id, amount - restored, amount - restored, fallback, Active)];
      }
      return Row(Some(id));
    }

    /** Walk the allocations of the expense in id order and hand back what each still holds. */
    method RestoreLots(expense: nat, now: int, fallback: Option<int>) returns (restored: int)
      modifies `lots, `allocations
      ensures restored == Sum(old(allocations), OpenOf(expense, |old(lots)|))
      ensures lots == AfterRestore(old(lots), old(allocations), expense, now, fallback)
      ensures allocations == SettleAll(old(allocations), expense, |old(lots)|)
    {
      hide Sum;
      ghost var lots0, rows := lots, allocations;
      var n := |lots|;
      restored := 0;
      var k := 0;
      SumZero(rows[..0], OpenOf(expense, n));
      forall i | 0 <= i < n ensures Sum(rows[..0], OpenOfOn(expense, n, i)) == 0 { SumZero(rows[..0], OpenOfOn(expense, n, i)); }
      while k < |allocations|
        invariant 0 <= k <= |rows| == |allocations|
        invariant |lots| == n == |lots0|
        invariant restored == Sum(rows[..k], OpenOf(expense, n))
        invariant forall i | 0 <= i < n :: lots[i] == Revived(lots0[i], Sum(rows[..k], OpenOfOn(expense, n, i)), now, fallback)
        invariant forall j | 0 <= j < k :: allocations[j] == Settled(rows[j], expense, n)
        invariant forall j | k <= j < |rows| :: allocations[j] == rows[j]
      {
        var row := allocations[k];
        ghost var lotsK := lots;
        assert rows[..k + 1] == rows[..k] + [row];
        SumPush(rows[..k], row, OpenOf(expense, n));
        forall i | 0 <= i < n
          ensures Sum(rows[..k + 1], OpenOfOn(expense, n, i)) == Sum(rows[..k], OpenOfOn(expense, n, i)) + OpenOfOn(expense, n, i)(row)
          ensures Sum(rows[..k], OpenOfOn(expense, n, i)) >= 0
        {
          SumPush(rows[..k], row, OpenOfOn(expense, n, i));
          SumAtLeast(rows[..k], OpenOfOn(expense, n, i));
        }
        var restorable := row.amount - row.restored;
        if row.expense == expense && restorable > 0 && row.lot < n {
          var lot := lots[row.lot];
          RevivedTwice(lots0[row.lot], Sum(rows[..k], OpenOfOn(expense, n, row.lot)), restorable, now, fallback);
          lot := lot.(remaining := lot.remaining + restorable, status := Active);
          if lot.expiresAt.Some? && lot.expiresAt.value <= now {
            lot := lot.(expiresAt := fallback);
          }
          lots := lots[row.lot := lot];
          allocations := allocations[k := row.(restored := row.restored + restorable)];
          restored := restored + restorable;
        }
        k := k + 1;
      }
      assert rows[..k] == rows;
    }

    method RevokeCreditLocked(creditKey: string, reversalKey: string, biz: Biz) returns (reply: Reply)
      modifies `points, `ledger, `lots, `allocations, `revoked
      ensures Settles(old(Contents()), Contents(), reply, Revoke(old(Contents()), creditKey, reversalKey, biz))
      ensures old(Valid()) ==> Valid()
      ensures old(Valid()) ==> forall r: nat, i: nat |
                Target(old(Contents()), creditKey, r, i) && i < |old(lots)| && KeyFree(old(Contents()), reversalKey)
                && (old(lots)[i].remaining > 0 ==> KeyFree(old(Contents()), Cut(reversalKey))) ::
                  reply.Row? && TakenBack(old(Contents()), Contents(), i, biz, reversalKey)
      ensures (forall r | 0 <= r < |old(ledger)| && old(ledger)[r].key == creditKey :: old(ledger)[r].direction == Expense)
              ==> Contents() == old(Contents())
    {
      hide Sound, RevocableLot, Target, TakenBack, KeyFree, Cut, KeyTaken, FindLedger;
      ghost var was := History(Contents(), revoked);
      RevokePromises(user, was, Event(DoRevoke(creditKey, reversalKey, biz), 0));
      var existing := FindLedger(Contents(), reversalKey);
      if existing.Some? { return Row(existing); }
      var target := RevocableLot(Contents(), creditKey);
      if target.None? { return Row(None); }
      var saved := Contents();
      var i := target.value;
      var amount := Min(lots[i].remaining, points);
      lots := lots[i := lots[i].(remaining := Max0(lots[i].remaining - amount))];
      if lots[i].remaining == 0 {
        lots := lots[i := lots[i].(status := Revoked)];
      }
      if amount <= 0 {
        lots := lots[i := lots[i].(status := Revoked)];
        return Row(None);
      }
      if KeyTaken(saved, Cut(reversalKey)) {
        Rollback(saved);
        return Failed(DuplicateKey);
      }
      var before := points;
      ledger := ledger + [LedgerRow(Expense, amount, before, before - amount, biz, Cut(reversalKey))];
      points := before - amount;
      revoked := revoked + [Revocation(|saved.ledger|, i)];
      return Row(Some(|saved.ledger|));
    }
  }

  lemma NothingDrawn(lots: seq<Lot>)
    ensures AfterDraw(lots, []) == lots
  {
  }

  lemma UndrawnLot(lots: seq<Lot>, drawn: seq<Allocation>, i: nat)
    requires i < |lots| && forall k | 0 <= k < |drawn| :: drawn[k].lot != i
    ensures |AfterDraw(lots, drawn)| == |lots| && AfterDraw(lots, drawn)[i] == lots[i]
  {
    SumZero(drawn, AmountOn(i));
  }

  /** Drawing one more lot, not yet touched, changes that lot alone. */
  lemma DrawOneMore(lots: seq<Lot>, drawn: seq<Allocation>, row: Allocation)
    requires row.lot < |lots| && row.amount > 0
    requires forall k | 0 <= k < |drawn| :: drawn[k].lot != row.lot
    ensures AfterDraw(lots, drawn + [row]) == AfterDraw(lots, drawn)[row.lot := Taken(lots[row.lot], row.amount)]
  {
    SumZero(drawn, AmountOn(row.lot));
    forall i: nat | i < |lots| ensures Sum(drawn + [row], AmountOn(i)) == Sum(drawn, AmountOn(i)) + AmountOn(i)(row) {
      SumPush(drawn, row, AmountOn(i));
    }
  }
}
