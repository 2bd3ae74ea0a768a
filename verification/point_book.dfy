/**
 * One user's points: the balance, the immutable ledger, the grants ("lots")
 * and the allocations that say which lots paid for which expense.  Row ids are
 * positions in the tables.  The operations are stated here as functions from
 * book to book; PointService runs the loops and is proved against them.
 */
module PointBook {
  import opened Sums
  import opened Digits

  datatype User = User(id: nat, no: string)

  datatype Direction = Income | Expense

  datatype Biz = Biz(kind: string, id: int, no: string)

  datatype LedgerRow = LedgerRow(direction: Direction, amount: int, before: int, after: int, biz: Biz, key: string)

  datatype LotStatus = Active | Consumed | Expired | Revoked

  datatype Lot = Lot(source: nat, original: int, remaining: int, expiresAt: Option<int>, status: LotStatus)

  datatype Allocation = Allocation(expense: nat, lot: nat, amount: int, restored: int)

  datatype Book = Book(points: int, ledger: seq<LedgerRow>, lots: seq<Lot>, allocations: seq<Allocation>)

  datatype PointError = InvalidAmount | InsufficientPoints | LedgerMismatch | DebitNotFound | DuplicateKey

  /** Raised means that the transaction rolls back and the book stays as it was. */
  datatype Outcome = Done(book: Book, row: Option<nat>) | Raised(error: PointError)

  const EMPTY: Book := Book(0, [], [], [])

  function After(b: Book, o: Outcome): Book { if o.Done? then o.book else b }

  // ---------------------------------------------------------------- queries

  /** The lowest row that satisfies p. */
  function FirstWhere<T>(rows: seq<T>, p: T -> bool): (r: Option<nat>)
    ensures r.Some? ==> r.value < |rows| && p(rows[r.value]) && forall j | 0 <= j < r.value :: !p(rows[j])
    ensures r.None? ==> forall j | 0 <= j < |rows| :: !p(rows[j])
  {
    if rows == [] then None
    else
      var earlier := FirstWhere(rows[..|rows| - 1], p);
      if earlier.Some? then earlier
      else if p(rows[|rows| - 1]) then Some(|rows| - 1) else None
  }

  /** All rows that satisfy p, in id order. */
  function IdsWhere<T>(rows: seq<T>, p: T -> bool): (ids: seq<nat>)
    ensures forall i: nat :: i in ids <==> i < |rows| && p(rows[i])
    ensures forall a, b | 0 <= a < b < |ids| :: ids[a] < ids[b]
  {
    if rows == [] then []
    else
      var n := |rows| - 1;
      var front := IdsWhere(rows[..n], p);
      assert forall k | 0 <= k < |front| :: front[k] in front;
      if p(rows[n]) then front + [n] else front
  }

  function KeyIs(key: string): LedgerRow -> bool { (r: LedgerRow) => r.key == key }

  function FindLedger(b: Book, key: string): Option<nat> { FirstWhere(b.ledger, KeyIs(key)) }

  /** The key column holds 160 characters; the service cuts the key it stores, not the key it looks up. */
  function Cut(key: string): string { if |key| <= 160 then key else key[..160] }

  /** The unique constraint on (user, key) refuses a second row with the same stored key. */
  predicate KeyTaken(b: Book, key: string) { exists i | 0 <= i < |b.ledger| :: b.ledger[i].key == key }

  predicate Due(l: Lot, now: int) {
    l.status == Active && l.remaining > 0 && l.expiresAt.Some? && l.expiresAt.value <= now
  }

  predicate Spendable(l: Lot, now: int) {
    l.status == Active && l.remaining > 0 && (l.expiresAt.None? || l.expiresAt.value > now)
  }

  function DueAt(now: int): Lot -> bool { (l: Lot) => Due(l, now) }

  function SpendableAt(now: int): Lot -> bool { (l: Lot) => Spendable(l, now) }

  function DueIds(lots: seq<Lot>, now: int): (ids: seq<nat>)
    ensures Below(ids, |lots|)
  {
    var ids := IdsWhere(lots, DueAt(now));
    assert forall k | 0 <= k < |ids| :: ids[k] in ids;
    ids
  }

  predicate Below(ids: seq<nat>, n: nat) { forall k | 0 <= k < |ids| :: ids[k] < n }

  /** Expiry first, never-expiring lots last, then id. */
  predicate Precedes(lots: seq<Lot>, i: nat, j: nat)
    requires i < |lots| && j < |lots|
  {
    var a, b := lots[i].expiresAt, lots[j].expiresAt;
    if a.Some? && b.Some? then a.value < b.value || (a.value == b.value && i < j)
    else if a.None? && b.None? then i < j
    else a.Some?
  }

  function Insert(lots: seq<Lot>, id: nat, sorted: seq<nat>): (r: seq<nat>)
    requires id < |lots| && Below(sorted, |lots|)
    ensures Below(r, |lots|)
  {
    if sorted == [] || Precedes(lots, id, sorted[0]) then [id] + sorted
    else [sorted[0]] + Insert(lots, id, sorted[1..])
  }

  function SortByExpiry(lots: seq<Lot>, ids: seq<nat>): (sorted: seq<nat>)
    requires Below(ids, |lots|)
    ensures Below(sorted, |lots|)
    ensures forall k :: k in sorted <==> k in ids
  {
    if ids == [] then []
    else
      var rest := SortByExpiry(lots, ids[1..]);
      InsertMembers(lots, ids[0], rest);
      Insert(lots, ids[0], rest)
  }

  lemma {:induction false} InsertMembers(lots: seq<Lot>, id: nat, sorted: seq<nat>)
    requires id < |lots| && Below(sorted, |lots|)
    ensures forall k :: k in Insert(lots, id, sorted) <==> k == id || k in sorted
  {
    if sorted != [] && !Precedes(lots, id, sorted[0]) {
      InsertMembers(lots, id, sorted[1..]);
    }
  }

  function SpendOrder(lots: seq<Lot>, now: int): (order: seq<nat>)
    ensures Below(order, |lots|)
    ensures forall i: nat :: i in order <==> i < |lots| && Spendable(lots[i], now)
  {
    var ids := IdsWhere(lots, SpendableAt(now));
    assert forall k | 0 <= k < |ids| :: ids[k] in ids;
    SortByExpiry(lots, ids)
  }

  // ---------------------------------------------------------------- measures

  function Remaining(l: Lot): int { l.remaining }

  function RemainingIf(p: Lot -> bool): Lot -> int { (l: Lot) => if p(l) then l.remaining else 0 }

  function RemainingAt(lots: seq<Lot>): nat -> int { (i: nat) => if i < |lots| then lots[i].remaining else 0 }

  /** Points in lots that may pay at this moment. */
  function Covered(lots: seq<Lot>, now: int): int { Sum(lots, RemainingIf(SpendableAt(now))) }

  function AmountOn(lot: nat): Allocation -> int { (a: Allocation) => if a.lot == lot then a.amount else 0 }

  function AmountFor(expense: nat): Allocation -> int { (a: Allocation) => if a.expense == expense then a.amount else 0 }

  function Amount(a: Allocation): int { a.amount }

  predicate Restorable(a: Allocation, expense: nat, lots: nat) {
    a.expense == expense && a.restored < a.amount && a.lot < lots
  }

  /** What a refund of this expense can still give back, in all and on one lot. */
  function OpenOf(expense: nat, lots: nat): Allocation -> int {
    (a: Allocation) => if Restorable(a, expense, lots) then a.amount - a.restored else 0
  }

  function OpenOfOn(expense: nat, lots: nat, lot: nat): Allocation -> int {
    (a: Allocation) => if Restorable(a, expense, lots) && a.lot == lot then a.amount - a.restored else 0
  }

  // ---------------------------------------------------------------- lot movements

  /** Take n from the lots in the given order, each lot giving what it can. */
  function Draw(lots: seq<Lot>, order: seq<nat>, n: int, expense: nat): (draw: seq<Allocation>)
    requires Below(order, |lots|)
    ensures |draw| <= |order|
  {
    if order == [] || n <= 0 then []
    else
      var c := Min(lots[order[0]].remaining, n);
      [Allocation(expense, order[0], c, 0)] + Draw(lots, order[1..], n - c, expense)
  }

  function Taken(l: Lot, c: int): Lot {
    if c <= 0 then l
    else l.(remaining := l.remaining - c, status := if l.remaining - c == 0 then Consumed else l.status)
  }

  function AfterDraw(lots: seq<Lot>, draw: seq<Allocation>): seq<Lot> {
    seq(|lots|, i requires 0 <= i < |lots| => Taken(lots[i], Sum(draw, AmountOn(i))))
  }

  function Lapsed(l: Lot, now: int): Lot { if Due(l, now) then l.(remaining := 0, status := Expired) else l }

  function AfterExpiry(lots: seq<Lot>, now: int): seq<Lot> {
    seq(|lots|, i requires 0 <= i < |lots| => Lapsed(lots[i], now))
  }

  function Revived(l: Lot, c: int, now: int, fallback: Option<int>): Lot {
    if c <= 0 then l
    else l.(remaining := l.remaining + c, status := Active,
            expiresAt := if l.expiresAt.Some? && l.expiresAt.value <= now then fallback else l.expiresAt)
  }

  function AfterRestore(lots: seq<Lot>, allocations: seq<Allocation>, expense: nat, now: int, fallback: Option<int>): seq<Lot> {
    seq(|lots|, i requires 0 <= i < |lots| =>
      Revived(lots[i], Sum(allocations, OpenOfOn(expense, |lots|, i)), now, fallback))
  }

  function Settled(a: Allocation, expense: nat, lots: nat): Allocation {
    if Restorable(a, expense, lots) then a.(restored := a.amount) else a
  }

  function SettleAll(allocations: seq<Allocation>, expense: nat, lots: nat): seq<Allocation> {
    seq(|allocations|, k requires 0 <= k < |allocations| => Settled(allocations[k], expense, lots))
  }

  // ---------------------------------------------------------------- operations

  function Credit(b: Book, amount: int, biz: Biz, key: string, expiresAt: Option<int>): Outcome {
    if amount <= 0 then Raised(InvalidAmount)
    else if FindLedger(b, key).Some? then Done(b, FindLedger(b, key))
    else if KeyTaken(b, Cut(key)) then Raised(DuplicateKey)
    else
      var id := |b.ledger|;
      Done(Book(b.points + amount,
                b.ledger + [LedgerRow(Income, amount, b.points, b.points + amount, biz, Cut(key))],
                b.lots + [Lot(id, amount, amount, expiresAt, Active)],
                b.allocations),
           Some(id))
  }

  function ExpiryKey(u: User, lot: nat): string { "points-expired:" + Str(u.id) + ":" + Str(lot) }

  function ExpiryBiz(lot: nat): Biz { Biz("points_expired", lot, Str(lot)) }

  function DueTotal(lots: seq<Lot>, now: int): int { Sum(DueIds(lots, now), RemainingAt(lots)) }

  function ExpireDue(u: User, b: Book, now: int): Outcome {
    var due := DueIds(b.lots, now);
    if due == [] then Done(b, None)
    else
      var amount := Min(DueTotal(b.lots, now), b.points);
      if amount <= 0 then Done(b.(lots := AfterExpiry(b.lots, now)), None)
      else
        var last := due[|due| - 1];
        if KeyTaken(b, Cut(ExpiryKey(u, last))) then Raised(DuplicateKey)
        else
          var id := |b.ledger|;
          Done(Book(b.points - amount,
                    b.ledger + [LedgerRow(Expense, amount, b.points, b.points - amount, ExpiryBiz(last), Cut(ExpiryKey(u, last)))],
                    AfterExpiry(b.lots, now),
                    b.allocations + Draw(b.lots, due, amount, id)),
               Some(id))
  }

  function OpeningKey(u: User): string { "legacy-opening:" + Str(u.id) }

  /** Balance that no spendable lot explains becomes one opening grant. */
  function EnsureCoverage(u: User, b: Book, now: int): Outcome {
    var covered := Covered(b.lots, now);
    if covered >= b.points then Done(b, None)
    else if KeyTaken(b, Cut(OpeningKey(u))) then Raised(DuplicateKey)
    else
      var id, missing := |b.ledger|, b.points - covered;
      Done(Book(b.points,
                b.ledger + [LedgerRow(Income, missing, covered, b.points, Biz("legacy_opening", u.id, u.no), Cut(OpeningKey(u)))],
                b.lots + [Lot(id, missing, missing, None, Active)],
                b.allocations),
           Some(id))
  }

  /** The part of a debit after expiry and coverage: pick lots, post the row, draw. */
  function Spend(b: Book, before: int, amount: int, biz: Biz, key: string, now: int): Outcome {
    if Covered(b.lots, now) < amount then Raised(LedgerMismatch)
    else if KeyTaken(b, Cut(key)) then Raised(DuplicateKey)
    else
      var id := |b.ledger|;
      var draw := Draw(b.lots, SpendOrder(b.lots, now), amount, id);
      Done(Book(before - amount,
                b.ledger + [LedgerRow(Expense, amount, before, before - amount, biz, Cut(key))],
                AfterDraw(b.lots, draw),
                b.allocations + draw),
           Some(id))
  }

  /** A debit reads the clock three times: to expire, to check coverage, to pick lots. */
  function Debit(u: User, b: Book, amount: int, biz: Biz, key: string, t1: int, t2: int, t3: int): Outcome {
    if amount <= 0 then Raised(InvalidAmount)
    else if FindLedger(b, key).Some? then Done(b, FindLedger(b, key))
    else
      var expired := ExpireDue(u, b, t1);
      if expired.Raised? then expired
      else if expired.book.points < amount then Raised(InsufficientPoints)
      else
        var backed := EnsureCoverage(u, expired.book, t2);
        if backed.Raised? then backed
        else Spend(backed.book, expired.book.points, amount, biz, key, t3)
  }

  function ExpenseOf(kind: string, no: string): LedgerRow -> bool {
    (r: LedgerRow) => r.direction == Expense && r.biz.kind == kind && r.biz.no == no
  }

  function FindExpense(b: Book, kind: string, no: string): (r: Option<nat>)
    ensures r.Some? ==> r.value < |b.ledger| && b.ledger[r.value].direction == Expense
  {
    FirstWhere(b.ledger, ExpenseOf(kind, no))
  }

  function Refund(b: Book, kind: string, no: string, refundKind: string, bizId: int, key: string, now: int,
                  fallback: Option<int>): Outcome {
    if FindLedger(b, key).Some? then Done(b, FindLedger(b, key))
    else if FindExpense(b, kind, no).None? then Raised(DebitNotFound)
    else if KeyTaken(b, Cut(key)) then Raised(DuplicateKey)
    else
      var original := FindExpense(b, kind, no).value;
      var amount, id := b.ledger[original].amount, |b.ledger|;
      var restored := Sum(b.allocations, OpenOf(original, |b.lots|));
      var lots := AfterRestore(b.lots, b.allocations, original, now, fallback);
      Done(Book(b.points + amount,
                b.ledger + [LedgerRow(Income, amount, b.points, b.points + amount, Biz(refundKind, bizId, no), Cut(key))],
                if restored < amount then lots + [Lot(id, amount - restored, amount - restored, fallback, Active)] else lots,
                SettleAll(b.allocations, original, |b.lots|)),
           Some(id))
  }

  function SourceIs(row: nat): Lot -> bool { (l: Lot) => l.source == row }

  function Max0(a: int): (r: int)
    ensures r >= 0 && r >= a && (r == 0 || r == a)
  {
    if a >= 0 then a else 0
  }

  /** The lot a revocation acts on, if there is one it may act on. */
  function RevocableLot(b: Book, creditKey: string): (r: Option<nat>)
    ensures r.Some? ==> r.value < |b.lots| && b.lots[r.value].status != Revoked
  {
    match FindLedger(b, creditKey)
    case None => None
    case Some(row) =>
      if b.ledger[row].direction != Income then None
      else
        match FirstWhere(b.lots, SourceIs(row))
        case None => None
        case Some(i) => if b.lots[i].status == Revoked then None else Some(i)
  }

  function Revoke(b: Book, creditKey: string, reversalKey: string, biz: Biz): Outcome {
    if FindLedger(b, reversalKey).Some? then Done(b, FindLedger(b, reversalKey))
    else
      match RevocableLot(b, creditKey)
      case None => Done(b, None)
      case Some(i) =>
        var lot := b.lots[i];
        var amount := Min(lot.remaining, b.points);
        if amount <= 0 then
          Done(b.(lots := b.lots[i := lot.(remaining := Max0(lot.remaining - amount), status := Revoked)]), None)
        else if KeyTaken(b, Cut(reversalKey)) then Raised(DuplicateKey)
        else
          var rest := Max0(lot.remaining - amount);
          Done(Book(b.points - amount,
                    b.ledger + [LedgerRow(Expense, amount, b.points, b.points - amount, biz, Cut(reversalKey))],
                    b.lots[i := lot.(remaining := rest, status := if rest == 0 then Revoked else lot.status)],
                    b.allocations),
               Some(|b.ledger|))
  }
}
