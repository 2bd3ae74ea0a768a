/** When the key that an expiry row is posted under can have been used before. */
module PointExpiry {
  import opened Sums
  import opened Digits
  import opened PointBook
  import opened PointLots
  import opened PointHistory
  import opened PointTheorems

  /** Row ids are 32-bit columns, so an expiry key always fits the key column. */
  const MAX_ID := 0x8000_0000

  ghost predicate IsExpiryKey(u: User, key: string) { exists m: nat :: key == ExpiryKey(u, m) }

  function OpKey(op: Op): Option<string> {
    match op
    case DoCredit(_, _, key, _) => Some(key)
    case DoDebit(_, _, key) => Some(key)
    case DoRefund(_, _, _, _, key, _) => Some(key)
    case DoRevoke(_, key, _) => Some(key)
    case DoExpire => None
  }

  /** The refund gives points back to a lot that an earlier expiry was keyed by. */
  predicate Revives(u: User, b: Book, e: Event) {
    && e.op.DoRefund? && FindLedger(b, e.op.key).None? && FindExpense(b, e.op.kind, e.op.no).Some?
    && exists k :: 0 <= k < |b.allocations|
         && Restorable(b.allocations[k], FindExpense(b, e.op.kind, e.op.no).value, |b.lots|)
         && KeyTaken(b, ExpiryKey(u, b.allocations[k].lot))
  }

  /** No refund revives an expired lot, and no caller makes up an expiry key of its own. */
  ghost predicate Ordinary(u: User, h: History, events: seq<Event>) {
    forall k | 0 <= k < |events| ::
      && !Revives(u, Run(u, h, events[..k]).book, events[k])
      && (OpKey(events[k].op).Some? ==> !IsExpiryKey(u, Cut(OpKey(events[k].op).value)))
  }

  /** A lot whose expiry key is in the ledger is not active. */
  ghost predicate FreshKeys(u: User, b: Book) {
    forall m: nat | KeyTaken(b, ExpiryKey(u, m)) :: m < |b.lots| && b.lots[m].status != Active
  }

  lemma ExpiryKeyInjective(u: User, m: nat, n: nat)
    requires ExpiryKey(u, m) == ExpiryKey(u, n)
    ensures m == n
  {
    var stem := "points-expired:" + Str(u.id) + ":";
    assert ExpiryKey(u, m)[|stem|..] == Str(m);
    assert ExpiryKey(u, n)[|stem|..] == Str(n);
    StrInjective(m, n);
  }

  /** Nor do two users share the key of their opening grants. */
  lemma OpeningKeyInjective(u: User, v: User)
    requires OpeningKey(u) == OpeningKey(v)
    ensures u.id == v.id
  {
    var stem := "legacy-opening:";
    assert OpeningKey(u)[|stem|..] == Str(u.id);
    assert OpeningKey(v)[|stem|..] == Str(v.id);
    StrInjective(u.id, v.id);
  }

  lemma ExpiryKeyFits(u: User, m: nat)
    requires u.id < MAX_ID && m < MAX_ID
    ensures Cut(ExpiryKey(u, m)) == ExpiryKey(u, m)
  {
    assert Pow10(10) == 10_000_000_000 by {
      assert Pow10(5) == 100_000;
      assert Pow10(7) == 100 * Pow10(5);
      assert Pow10(9) == 100 * Pow10(7);
    }
    StrLength(u.id, 10);
    StrLength(m, 10);
  }

  /** No lot wakes up whose key is taken; the new row, if it bears an expiry key, retires its lot. */
  ghost predicate StepsFreshly(u: User, b: Book, b': Book) {
    && |b.lots| <= |b'.lots|
    && (forall m: nat | m < |b.lots| && b.lots[m].status != Active && KeyTaken(b, ExpiryKey(u, m)) :: b'.lots[m].status != Active)
    && (forall m: nat | KeyTaken(b', ExpiryKey(u, m)) && !KeyTaken(b, ExpiryKey(u, m)) ::
          m < |b'.lots| && b'.lots[m].status != Active)
  }

  lemma FreshStep(u: User, b: Book, b': Book)
    requires FreshKeys(u, b) && StepsFreshly(u, b, b')
    ensures FreshKeys(u, b')
  {
  }

  /** A posted row under an ordinary key adds no expiry key. */
  lemma OrdinaryRow(u: User, b: Book, b': Book, row: LedgerRow)
    requires b'.ledger == b.ledger + [row] && !IsExpiryKey(u, row.key)
    ensures forall m: nat | KeyTaken(b', ExpiryKey(u, m)) :: KeyTaken(b, ExpiryKey(u, m))
  {
    forall m: nat | KeyTaken(b', ExpiryKey(u, m)) ensures KeyTaken(b, ExpiryKey(u, m)) {
      var i :| 0 <= i < |b'.ledger| && b'.ledger[i].key == ExpiryKey(u, m);
      assert i < |b.ledger| ==> b.ledger[i] == b'.ledger[i];
    }
  }

  lemma ExpireFresh(u: User, b: Book, now: int)
    requires u.id < MAX_ID && |b.lots| <= MAX_ID && ExpireDue(u, b, now).Done? && FreshKeys(u, b)
    ensures FreshKeys(u, ExpireDue(u, b, now).book)
    ensures |ExpireDue(u, b, now).book.lots| == |b.lots|
  {
    hide Draw, DueTotal, Sum;
    var b' := ExpireDue(u, b, now).book;
    var due := DueIds(b.lots, now);
    if |b'.ledger| > |b.ledger| {
      var last := due[|due| - 1];
      assert last in due && Due(b.lots[last], now);
      ExpiryKeyFits(u, last);
      forall m: nat | KeyTaken(b', ExpiryKey(u, m)) && !KeyTaken(b, ExpiryKey(u, m)) ensures m == last {
        var i :| 0 <= i < |b'.ledger| && b'.ledger[i].key == ExpiryKey(u, m);
        assert i < |b.ledger| ==> b.ledger[i] == b'.ledger[i];
        ExpiryKeyInjective(u, m, last);
      }
    }
    FreshStep(u, b, b');
  }

  lemma SpendFresh(u: User, b: Book, before: int, amount: int, biz: Biz, key: string, now: int)
    requires Spend(b, before, amount, biz, key, now).Done? && FreshKeys(u, b) && !IsExpiryKey(u, Cut(key))
    ensures FreshKeys(u, Spend(b, before, amount, biz, key, now).book)
  {
    var b' := Spend(b, before, amount, biz, key, now).book;
    OrdinaryRow(u, b, b', b'.ledger[|b.ledger|]);
    FreshStep(u, b, b');
  }

  lemma RefundFresh(u: User, h: History, e: Event)
    requires e.op.DoRefund? && !Revives(u, h.book, e) && Perform(u, h.book, e).Done?
    requires FreshKeys(u, h.book) && !IsExpiryKey(u, Cut(e.op.key))
    ensures FreshKeys(u, Perform(u, h.book, e).book)
  {
    var b, b' := h.book, Perform(u, h.book, e).book;
    if FindLedger(b, e.op.key).None? {
      var original := FindExpense(b, e.op.kind, e.op.no).value;
      OrdinaryRow(u, b, b', b'.ledger[|b.ledger|]);
      forall m: nat | m < |b.lots| && KeyTaken(b, ExpiryKey(u, m)) ensures b'.lots[m] == b.lots[m] {
        forall k | 0 <= k < |b.allocations| ensures OpenOfOn(original, |b.lots|, m)(b.allocations[k]) == 0 {}
        SumZero(b.allocations, OpenOfOn(original, |b.lots|, m));
      }
      FreshStep(u, b, b');
    }
  }

  lemma StepFresh(u: User, h: History, e: Event)
    requires Sound(h) && FreshKeys(u, h.book) && !Revives(u, h.book, e)
    requires OpKey(e.op).Some? ==> !IsExpiryKey(u, Cut(OpKey(e.op).value))
    requires u.id < MAX_ID && |h.book.lots| <= MAX_ID
    ensures FreshKeys(u, Step(u, h, e).book)
  {
    hide Sound;
    StepBook(u, h, e);
    var b := h.book;
    if Perform(u, b, e).Done? {
      match e.op
      case DoCredit(_, _, key, _) =>
        if FindLedger(b, key).None? {
          OrdinaryRow(u, b, Perform(u, b, e).book, Perform(u, b, e).book.ledger[|b.ledger|]);
          FreshStep(u, b, Perform(u, b, e).book);
        }
      case DoDebit(amount, biz, key) =>
        if FindLedger(b, key).None? {
          SoundDebit(u, h, e);
          ExpireFresh(u, b, e.now);
          var expired := ExpireDue(u, b, e.now).book;
          SpendFresh(u, expired, expired.points, amount, biz, key, e.now);
        }
      case DoRefund(_, _, _, _, _, _) => RefundFresh(u, h, e);
      case DoRevoke(creditKey, key, _) =>
        var b' := Perform(u, b, e).book;
        if |b'.ledger| > |b.ledger| { OrdinaryRow(u, b, b', b'.ledger[|b.ledger|]); }
        FreshStep(u, b, b');
      case DoExpire => ExpireFresh(u, b, e.now);
    }
  }

  lemma {:induction false} RunFresh(u: User, events: seq<Event>)
    requires u.id < MAX_ID && |Run(u, START, events).book.lots| <= MAX_ID && Ordinary(u, START, events)
    ensures FreshKeys(u, Run(u, START, events).book)
  {
    if events != [] {
      var n := |events| - 1;
      var front := events[..n];
      forall k | 0 <= k < n
        ensures !Revives(u, Run(u, START, front[..k]).book, front[k])
        ensures OpKey(front[k].op).Some? ==> !IsExpiryKey(u, Cut(OpKey(front[k].op).value))
      {
        assert front[..k] == events[..k] && front[k] == events[k];
        assert !Revives(u, Run(u, START, events[..k]).book, events[k]);
      }
      RunKeepsSound(u, front);
      StepLots(u, Run(u, START, front), events[n]);
      RunFresh(u, front);
      assert !Revives(u, Run(u, START, events[..n]).book, events[n]);
      StepFresh(u, Run(u, START, front), events[n]);
    }
  }

  lemma StepLots(u: User, h: History, e: Event)
    ensures |h.book.lots| <= |Step(u, h, e).book.lots|
  {
    hide Perform;
    StepBook(u, h, e);
    if Perform(u, h.book, e).Done? { PerformGrows(u, h.book, e); }
  }

  /**
   * In every run in which no refund revives an expired lot, the expiry at any
   * moment goes through: the key it posts under has never been used.
   */
  lemma ExpiryNeverRefused(u: User, events: seq<Event>, now: int)
    requires u.id < MAX_ID && |Run(u, START, events).book.lots| <= MAX_ID && Ordinary(u, START, events)
    ensures ExpireDue(u, Run(u, START, events).book, now).Done?
  {
    RunFresh(u, events);
    var b := Run(u, START, events).book;
    var due := DueIds(b.lots, now);
    if due != [] {
      var last := due[|due| - 1];
      assert last in due && Due(b.lots[last], now);
      ExpiryKeyFits(u, last);
    }
  }

  // ---------------------------------------------------------------- a revived lot blocks the account

  const OWNER := User(1, "U1")
  const TRIP := Biz("travel_exchange", 1, "TR1")
  const GRANT := Biz("admin_adjust", 1, "PA1")

  /** Grant 10 points that expire at 10; spend 4 at 5; let 6 expire at 10; refund the 4 at 11, good until 20. */
  const REVIVAL: seq<Event> := [
    Event(DoCredit(10, GRANT, "grant", Some(10)), 0),
    Event(DoDebit(4, TRIP, "trip"), 5),
    Event(DoExpire, 10),
    Event(DoRefund("travel_exchange", "TR1", "travel_exchange_refund", 1, "back", Some(20)), 11)]

  lemma OneLot(l: Lot, now: int)
    ensures DueIds([l], now) == if Due(l, now) then [0] else []
    ensures DueTotal([l], now) == if Due(l, now) then l.remaining else 0
    ensures Covered([l], now) == if Spendable(l, now) then l.remaining else 0
    ensures SpendOrder([l], now) == if Spendable(l, now) then [0] else []
  {
    assert [l][..0] == [];
    assert IdsWhere([l], DueAt(now)) == if Due(l, now) then [0] else [];
    assert IdsWhere([l], SpendableAt(now)) == if Spendable(l, now) then [0] else [];
    assert [0][1..] == [];
    assert Insert([l], 0, []) == [0];
    assert SortByExpiry([l], [0]) == [0];
    SumOne(l, RemainingIf(SpendableAt(now)));
    SumOne<nat>(0, RemainingAt([l]));
  }

  lemma FirstRow(b: Book, row: nat, kind: string, no: string)
    requires row < |b.ledger| && ExpenseOf(kind, no)(b.ledger[row])
    requires forall j | 0 <= j < row :: !ExpenseOf(kind, no)(b.ledger[j])
    ensures FindExpense(b, kind, no) == Some(row)
  {
  }

  lemma NoKey(b: Book, key: string)
    requires forall j | 0 <= j < |b.ledger| :: b.ledger[j].key != key
    ensures FindLedger(b, key).None? && !KeyTaken(b, key)
  {
  }

  const LOT1 := Lot(0, 10, 10, Some(10), Active)
  const LOT2 := Lot(0, 10, 6, Some(10), Active)
  const LOT3 := Lot(0, 10, 0, Some(10), Expired)
  const LOT4 := Lot(0, 10, 4, Some(20), Active)
  const SPENT := Allocation(1, 0, 4, 0)
  const LAPSED := Allocation(2, 0, 6, 0)
  const ROW1 := LedgerRow(Income, 10, 0, 10, GRANT, "grant")
  const ROW2 := LedgerRow(Expense, 4, 10, 6, TRIP, "trip")
  const ROW3 := LedgerRow(Expense, 6, 6, 0, ExpiryBiz(0), ExpiryKey(OWNER, 0))
  const BOOK1 := Book(10, [ROW1], [LOT1], [])
  const BOOK2 := Book(6, [ROW1, ROW2], [LOT2], [SPENT])
  const BOOK3 := Book(0, [ROW1, ROW2, ROW3], [LOT3], [SPENT, LAPSED])

  lemma RevivalGrant()
    ensures Perform(OWNER, EMPTY, REVIVAL[0]) == Done(BOOK1, Some(0))
  {
    NoKey(EMPTY, "grant");
  }

  lemma RevivalDebit()
    ensures Perform(OWNER, BOOK1, REVIVAL[1]) == Done(BOOK2, Some(1))
  {
    OneLot(LOT1, 5);
    NoKey(BOOK1, "trip");
    assert Draw([LOT1], [0], 4, 1) == [SPENT];
    SumOne(SPENT, AmountOn(0));
    assert AfterDraw([LOT1], [SPENT]) == [LOT2];
  }

  lemma ExpiryKeyUnused()
    ensures !KeyTaken(BOOK2, Cut(ExpiryKey(OWNER, 0))) && Cut(ExpiryKey(OWNER, 0)) == ExpiryKey(OWNER, 0)
  {
    ExpiryKeyFits(OWNER, 0);
    assert ExpiryKey(OWNER, 0)[0] == 'p';
    NoKey(BOOK2, ExpiryKey(OWNER, 0));
  }

  lemma RevivalExpiry()
    ensures Perform(OWNER, BOOK2, REVIVAL[2]) == Done(BOOK3, Some(2))
  {
    hide ExpiryKey, Cut, KeyTaken, ExpiryBiz, DueIds, DueTotal;
    OneLot(LOT2, 10);
    ExpiryKeyUnused();
    assert AfterExpiry([LOT2], 10) == [LOT3];
    assert Draw([LOT2], [0], 6, 2) == [LAPSED] by { assert [0][1..] == []; }
  }

  lemma RevivalBooks()
    ensures Run(OWNER, START, REVIVAL).book.points == 4
    ensures Run(OWNER, START, REVIVAL).book.lots == [LOT4]
    ensures KeyTaken(Run(OWNER, START, REVIVAL).book, ExpiryKey(OWNER, 0))
  {
    hide Perform;
    RevivalGrant();
    RevivalDebit();
    RevivalExpiry();
    RevivalRefund();
    RevivalRun(BOOK1, BOOK2, BOOK3);
  }

  lemma RevivalRefund()
    ensures var o := Perform(OWNER, BOOK3, REVIVAL[3]);
            o.Done? && o.book.points == 4 && o.book.lots == [LOT4] && KeyTaken(o.book, ExpiryKey(OWNER, 0))
  {
    assert ExpiryKey(OWNER, 0)[0] == 'p';
    NoKey(BOOK3, "back");
    FirstRow(BOOK3, 1, "travel_exchange", "TR1");
    assert BOOK3.allocations == [SPENT] + [LAPSED];
    SumAppend([SPENT], [LAPSED], OpenOf(1, 1));
    SumOne(SPENT, OpenOf(1, 1));
    SumOne(LAPSED, OpenOf(1, 1));
    SumAppend([SPENT], [LAPSED], OpenOfOn(1, 1, 0));
    SumOne(SPENT, OpenOfOn(1, 1, 0));
    SumOne(LAPSED, OpenOfOn(1, 1, 0));
    assert AfterRestore([LOT3], BOOK3.allocations, 1, 11, Some(20)) == [LOT4];
    assert Perform(OWNER, BOOK3, REVIVAL[3]).book.ledger[2] == ROW3;
  }

  lemma RevivalRun(b1: Book, b2: Book, b3: Book)
    requires Perform(OWNER, EMPTY, REVIVAL[0]) == Done(b1, Some(0))
    requires Perform(OWNER, b1, REVIVAL[1]) == Done(b2, Some(1))
    requires Perform(OWNER, b2, REVIVAL[2]) == Done(b3, Some(2))
    requires Perform(OWNER, b3, REVIVAL[3]).Done?
    ensures Run(OWNER, START, REVIVAL).book == Perform(OWNER, b3, REVIVAL[3]).book
  {
    hide Perform;
    assert REVIVAL[..4][..3] == REVIVAL[..3];
    assert REVIVAL[..3][..2] == REVIVAL[..2];
    assert REVIVAL[..2][..1] == REVIVAL[..1];
    assert REVIVAL[..1][..0] == [];
    assert REVIVAL[..4] == REVIVAL;
    StepBook(OWNER, START, REVIVAL[0]);
    assert Run(OWNER, START, REVIVAL[..1]).book == b1;
    StepBook(OWNER, Run(OWNER, START, REVIVAL[..1]), REVIVAL[1]);
    assert Run(OWNER, START, REVIVAL[..2]).book == b2;
    StepBook(OWNER, Run(OWNER, START, REVIVAL[..2]), REVIVAL[2]);
    assert Run(OWNER, START, REVIVAL[..3]).book == b3;
    StepBook(OWNER, Run(OWNER, START, REVIVAL[..3]), REVIVAL[3]);
  }

  /**
   * The excluded case is real: once a refund has revived an expired lot, its
   * next expiry repeats the key, is refused, and takes every debit with it.
   */
  lemma RevivedLotBlocksAccount(amount: int, biz: Biz, key: string)
    requires amount > 0 && FindLedger(Run(OWNER, START, REVIVAL).book, key).None?
    ensures var b := Run(OWNER, START, REVIVAL).book;
            && ExpireDue(OWNER, b, 20) == Raised(DuplicateKey)
            && Debit(OWNER, b, amount, biz, key, 20, 20, 20) == Raised(DuplicateKey)
  {
    RevivalBooks();
    OneLot(LOT4, 20);
    ExpiryKeyFits(OWNER, 0);
  }
}
