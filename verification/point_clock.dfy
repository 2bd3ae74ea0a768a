/** What the three clock readings of a debit decide: which refusal, if any, it ends in. */
module PointClock {
  import opened Sums
  import opened PointBook
  import opened PointLots
  import opened PointHistory
  import opened PointTheorems
  import opened PointBlocking
  import E = PointExpiry

  /** Spendable at the earlier moment, no longer at the later one. */
  function LapsesIn(earlier: int, later: int): Lot -> int {
    (l: Lot) => if Spendable(l, earlier) && !Spendable(l, later) then l.remaining else 0
  }

  lemma CoverageShrinks(lots: seq<Lot>, earlier: int, later: int)
    requires earlier <= later
    ensures Covered(lots, earlier) == Covered(lots, later) + Sum(lots, LapsesIn(earlier, later))
  {
    SumAdds(lots, RemainingIf(SpendableAt(earlier)), RemainingIf(SpendableAt(later)), LapsesIn(earlier, later));
  }

  // ---------------------------------------------------------------- the three parts of a debit

  /** The balance that an expiry at that moment leaves. */
  function BalanceAfter(b: Book, now: int): int { if b.points <= 0 then b.points else Max0(b.points - DueTotal(b.lots, now)) }

  /** There is something to take, and the key of the highest due lot is on the ledger. */
  predicate ExpiryRefused(u: User, b: Book, now: int) {
    b.points > 0 && HighestDue(b, now).Some? && KeyTaken(b, Cut(ExpiryKey(u, HighestDue(b, now).value)))
  }

  /** Lots have lapsed between the two readings that the balance relies on, and the account has had its opening grant. */
  predicate CoverageRefused(u: User, b: Book, t1: int, t2: int) {
    Covered(b.lots, t2) < BalanceAfter(b, t1) && KeyTaken(b, Cut(OpeningKey(u)))
  }

  lemma KeysDiffer(u: User, l: nat)
    ensures Cut(ExpiryKey(u, l)) != Cut(OpeningKey(u))
  {
    assert ExpiryKey(u, l)[0] == 'p' && OpeningKey(u)[0] == 'l';
    assert Cut(ExpiryKey(u, l))[0] == 'p' && Cut(OpeningKey(u))[0] == 'l';
  }

  /** Writing off what is due takes nothing that could be spent at that moment or later. */
  lemma ExpirySparesSpendable(lots: seq<Lot>, t1: int, t: int)
    requires t1 <= t
    ensures Covered(AfterExpiry(lots, t1), t) == Covered(lots, t)
  {
    SumSame(AfterExpiry(lots, t1), lots, RemainingIf(SpendableAt(t)), RemainingIf(SpendableAt(t)));
  }

  /** The expiry of a debit, on any book. */
  lemma ExpiryLeaves(u: User, b: Book, t1: int)
    ensures ExpireDue(u, b, t1).Raised? <==> ExpiryRefused(u, b, t1)
    ensures ExpireDue(u, b, t1).Raised? ==> ExpireDue(u, b, t1) == Raised(DuplicateKey)
    ensures ExpireDue(u, b, t1).Done? ==>
              var a := ExpireDue(u, b, t1).book;
              && a.points == BalanceAfter(b, t1) && (forall t | t1 <= t :: Covered(a.lots, t) == Covered(b.lots, t))
              && (KeyTaken(a, Cut(OpeningKey(u))) <==> KeyTaken(b, Cut(OpeningKey(u))))
  {
    hide Cut, ExpiryKey, OpeningKey, Draw, AfterExpiry, Covered, DueTotal, DueIds;
    DueIsDrawable(b.lots, t1);
    forall t | t1 <= t ensures Covered(AfterExpiry(b.lots, t1), t) == Covered(b.lots, t) { ExpirySparesSpendable(b.lots, t1, t); }
    var due := DueIds(b.lots, t1);
    if due == [] {
      NothingLapses(b.lots, t1);
    } else {
      KeysDiffer(u, due[|due| - 1]);
      if ExpireDue(u, b, t1).Done? { OpeningKeyStays(u, b, ExpireDue(u, b, t1).book); }
    }
  }

  lemma NothingLapses(lots: seq<Lot>, now: int)
    requires DueIds(lots, now) == []
    ensures DueTotal(lots, now) == 0
  {
  }

  lemma OpeningKeyStays(u: User, b: Book, a: Book)
    requires a.ledger == b.ledger || (|a.ledger| == |b.ledger| + 1 && a.ledger[..|b.ledger|] == b.ledger
                                      && a.ledger[|b.ledger|].key != Cut(OpeningKey(u)))
    ensures KeyTaken(a, Cut(OpeningKey(u))) <==> KeyTaken(b, Cut(OpeningKey(u)))
  {
    hide Cut, OpeningKey;
    if i :| 0 <= i < |b.ledger| && b.ledger[i].key == Cut(OpeningKey(u)) { assert a.ledger[i] == b.ledger[i]; }
    if i :| 0 <= i < |a.ledger| && a.ledger[i].key == Cut(OpeningKey(u)) { assert i < |b.ledger| ==> a.ledger[i] == b.ledger[i]; }
  }

  /** The coverage check grants exactly what is missing, so that much more can be spent at any moment. */
  lemma CoverageLeaves(u: User, b: Book, t2: int, t3: int)
    requires EnsureCoverage(u, b, t2).Done?
    ensures Covered(EnsureCoverage(u, b, t2).book.lots, t3) == Covered(b.lots, t3) + Max0(b.points - Covered(b.lots, t2))
  {
    hide Cut, OpeningKey, KeyTaken;
    if Covered(b.lots, t2) < b.points {
      SumPush(b.lots, EnsureCoverage(u, b, t2).book.lots[|b.lots|], RemainingIf(SpendableAt(t3)));
    }
  }

  /**
   * On any book and for any three readings that do not run backwards, in terms
   * of the book the caller holds: when a debit under a new key is refused for
   * lack of points, when its coverage check is refused, and when it ends in the
   * mismatch error.
   */
  lemma DebitRefusedIff(u: User, b: Book, amount: int, biz: Biz, key: string, t1: int, t2: int, t3: int)
    requires amount > 0 && FindLedger(b, key).None? && t1 <= t2 <= t3
    ensures var o := Debit(u, b, amount, biz, key, t1, t2, t3);
            && (ExpiryRefused(u, b, t1) ==> o == Raised(DuplicateKey))
            && (o == Raised(InsufficientPoints) <==> !ExpiryRefused(u, b, t1) && amount > BalanceAfter(b, t1))
            && (!ExpiryRefused(u, b, t1) && amount <= BalanceAfter(b, t1) && CoverageRefused(u, b, t1, t2) ==> o == Raised(DuplicateKey))
            && (o == Raised(LedgerMismatch) <==>
                  && !ExpiryRefused(u, b, t1) && amount <= BalanceAfter(b, t1) && !CoverageRefused(u, b, t1, t2)
                  && amount > Covered(b.lots, t3) + Max0(BalanceAfter(b, t1) - Covered(b.lots, t2)))
  {
    hide ExpiryRefused, BalanceAfter, ExpireDue, Covered, FindLedger, Draw, SpendOrder, AfterDraw, Cut, OpeningKey;
    ExpiryLeaves(u, b, t1);
    if ExpireDue(u, b, t1).Done? {
      var expired := ExpireDue(u, b, t1).book;
      if EnsureCoverage(u, expired, t2).Done? { CoverageLeaves(u, expired, t2, t3); }
    }
  }

  /** In sound books an expiry leaves what can be spent at that moment. */
  lemma SoundLeaves(h: History, now: int)
    requires Sound(h)
    ensures BalanceAfter(h.book, now) == Covered(h.book.lots, now)
  {
    hide DoubleEntry, RowsBacked, Chained, KeysDistinct, AllocationsSound, RevocationsSound, Covered, DueTotal, DueIds;
    var b := h.book;
    SoundParts(h);
    ExpiryTakesAllDue(b, now);
    forall i | 0 <= i < |b.lots|
      ensures b.lots[i].remaining >= 0 && (b.lots[i].status != Active ==> b.lots[i].remaining == 0)
    {
      assert LotSound(b.lots[i], |b.ledger|);
    }
    TotalSplits(b.lots, now);
  }

  /** What lapses can be seen from the caller's book, and is never less than nothing. */
  lemma LapsesNonNegative(lots: seq<Lot>, earlier: int, later: int)
    ensures Sum(lots, LapsesIn(earlier, later)) >= 0
  {
    SumAtLeast(lots, LapsesIn(earlier, later));
  }

  /**
   * In sound books the coverage check of an affordable debit is refused exactly
   * when points lapse between the first two readings and the account has had its
   * opening grant; the mismatch error is raised exactly when it is not refused
   * and the amount exceeds what can be spent at the first reading less what
   * lapses between the last two.
   */
  lemma MismatchIffLapsed(u: User, h: History, amount: int, biz: Biz, key: string, t1: int, t2: int, t3: int)
    requires Sound(h) && amount > 0 && FindLedger(h.book, key).None? && t1 <= t2 <= t3
    ensures var b := h.book; var lots := b.lots; var o := Debit(u, b, amount, biz, key, t1, t2, t3);
            var refused := Sum(lots, LapsesIn(t1, t2)) > 0 && KeyTaken(b, Cut(OpeningKey(u)));
            && (refused <==> CoverageRefused(u, b, t1, t2))
            && (!ExpiryRefused(u, b, t1) && amount <= Covered(lots, t1) && refused ==> o == Raised(DuplicateKey))
            && (o == Raised(LedgerMismatch) <==>
                  && !ExpiryRefused(u, b, t1) && !refused
                  && Covered(lots, t1) - Sum(lots, LapsesIn(t2, t3)) < amount <= Covered(lots, t1))
  {
    hide ExpiryRefused, BalanceAfter, Debit, Sound, Covered, LapsesIn, Sum, Cut, OpeningKey;
    var lots := h.book.lots;
    SoundLeaves(h, t1);
    DebitRefusedIff(u, h.book, amount, biz, key, t1, t2, t3);
    CoverageShrinks(lots, t1, t2);
    CoverageShrinks(lots, t2, t3);
    LapsesNonNegative(lots, t1, t2);
  }

  // ---------------------------------------------------------------- one account, two late clocks

  const OWNER := User(1, "U1")
  const GIFT := Biz("admin_adjust", 1, "PA1")
  const FEE := Biz("travel_exchange", 1, "TR1")

  /** Ten points that expire at 5. */
  const GRANTED: seq<Event> := [Event(DoCredit(10, GIFT, "grant", Some(5)), 0)]

  const LOT := Lot(0, 10, 10, Some(5), Active)
  const BOOK := Book(10, [LedgerRow(Income, 10, 0, 10, GIFT, "grant")], [LOT], [])

  lemma GrantedBook()
    ensures Run(OWNER, START, GRANTED) == History(BOOK, []) && Sound(History(BOOK, []))
  {
    assert GRANTED[..0] == [];
    E.NoKey(EMPTY, "grant");
    RunKeepsSound(OWNER, GRANTED);
  }

  const OPENING := Lot(1, 10, 10, None, Active)
  const BACKED := Book(10, BOOK.ledger + [LedgerRow(Income, 10, 0, 10, Biz("legacy_opening", 1, "U1"), OpeningKey(OWNER))], [LOT, OPENING], [])

  lemma GrantedTwice()
    ensures ExpireDue(OWNER, BOOK, 4) == Done(BOOK, None) && EnsureCoverage(OWNER, BOOK, 5) == Done(BACKED, Some(1))
  {
    NothingDueYet();
    CoveredAgain();
  }

  lemma NothingDueYet()
    ensures ExpireDue(OWNER, BOOK, 4) == Done(BOOK, None)
  {
    hide Draw, AfterExpiry, ExpiryKey, KeyTaken, Cut, OpeningKey;
    E.OneLot(LOT, 4);
  }

  lemma CoveredAgain()
    ensures EnsureCoverage(OWNER, BOOK, 5) == Done(BACKED, Some(1))
  {
    hide OpeningKey, Cut, Draw, AfterExpiry, ExpiryKey;
    E.OneLot(LOT, 5);
    OpeningKeyFits();
    E.NoKey(BOOK, OpeningKey(OWNER));
  }

  lemma BackedPays()
    ensures Spend(BACKED, 10, 4, FEE, "trip", 5).Done?
  {
    hide Draw, SpendOrder, AfterDraw, OpeningKey, Cut, Covered;
    OpeningKeyFits();
    ShortKeys();
    BackedCovers();
    E.NoKey(BACKED, "trip");
  }

  lemma BackedCovers()
    ensures Covered(BACKED.lots, 5) == 10
  {
    TwoLots(LOT, OPENING, 5);
    assert BACKED.lots == [LOT] + [OPENING];
  }

  lemma TwoLots(l: Lot, m: Lot, now: int)
    ensures Covered([l] + [m], now) == (if Spendable(l, now) then l.remaining else 0) + (if Spendable(m, now) then m.remaining else 0)
  {
    E.OneLot(l, now);
    SumPush([l], m, RemainingIf(SpendableAt(now)));
  }

  lemma LateDebit()
    ensures FindLedger(BOOK, "trip").None?
    ensures Debit(OWNER, BOOK, 4, FEE, "trip", 4, 5, 5) == Spend(BACKED, 10, 4, FEE, "trip", 5)
  {
    hide Spend, ExpireDue, EnsureCoverage, OpeningKey;
    E.NoKey(BOOK, "trip");
    GrantedTwice();
  }

  /** The expiry reads 4, the rest reads 5: the ten points are granted again and the lots exceed the balance by ten. */
  lemma LapseUnbalances()
    ensures var b := Run(OWNER, START, GRANTED).book; var o := Debit(OWNER, b, 4, FEE, "trip", 4, 5, 5);
            o.Done? && o.book.points == 6 && Sum(o.book.lots, Remaining) == 16
  {
    hide Debit, Spend, ExpireDue, EnsureCoverage, Sound, Run, FindLedger, OpeningKey, Sum;
    GrantedBook();
    GrantedTwice();
    BackedPays();
    LateDebit();
    E.OneLot(LOT, 5);
    SpendBalance(BACKED, 10, 4, FEE, "trip", 5);
    DebitBalancedIffNothingLapses(OWNER, History(BOOK, []), 4, FEE, "trip", 4, 5, 5);
  }

  lemma OpeningKeyFits()
    ensures Cut(OpeningKey(OWNER)) == OpeningKey(OWNER) && OpeningKey(OWNER) !in {"grant", "trip", "late"}
  {
    assert OpeningKey(OWNER)[0] == 'l';
  }

  /** Only the choice of lots reads 5: nothing is left to choose from, and the debit fails. */
  lemma LapseMismatches()
    ensures Debit(OWNER, Run(OWNER, START, GRANTED).book, 10, FEE, "trip", 4, 4, 5) == Raised(LedgerMismatch)
  {
    hide Debit, Sound, Run, OpeningKey, Cut;
    GrantedBook();
    E.NoKey(BOOK, "trip");
    E.OneLot(LOT, 4);
    OpeningKeyFits();
    E.NoKey(BOOK, OpeningKey(OWNER));
    SumOne(LOT, LapsesIn(4, 5));
    MismatchIffLapsed(OWNER, History(BOOK, []), 10, FEE, "trip", 4, 4, 5);
  }

  // ---------------------------------------------------------------- a second lapse

  /** An account from before lots were kept, its first debit, and a grant that expires at 8. */
  const LEGACY := Book(10, [], [], [])
  const GRANT_ROW := LedgerRow(Income, 10, 0, 10, Biz("legacy_opening", 1, "U1"), OpeningKey(OWNER))
  const SETTLED := Book(6, [GRANT_ROW, LedgerRow(Expense, 4, 10, 6, FEE, "trip")], [Lot(0, 10, 6, None, Active)], [Allocation(1, 0, 4, 0)])
  const GRANTED_MORE := Book(26, SETTLED.ledger + [LedgerRow(Income, 20, 6, 26, GIFT, "grant")],
                             SETTLED.lots + [Lot(2, 20, 20, Some(8), Active)], SETTLED.allocations)

  const OPENED := Book(10, [GRANT_ROW], [Lot(0, 10, 10, None, Active)], [])

  lemma LegacyOpens()
    ensures ExpireDue(OWNER, LEGACY, 0) == Done(LEGACY, None) && EnsureCoverage(OWNER, LEGACY, 0) == Done(OPENED, Some(0))
  {
    hide OpeningKey, Cut;
    OpeningKeyFits();
    E.NoKey(LEGACY, OpeningKey(OWNER));
    assert DueIds(LEGACY.lots, 0) == [];
    assert Covered(LEGACY.lots, 0) == 0;
  }

  lemma OpenedPays()
    ensures Spend(OPENED, 10, 4, FEE, "trip", 0) == Done(SETTLED, Some(1))
  {
    hide OpeningKey, Cut, SpendOrder, Covered, Draw, AfterDraw;
    OpeningKeyFits();
    LegacyParts();
    ShortKeys();
    E.NoKey(OPENED, "trip");
  }

  lemma LegacySettles()
    ensures Debit(OWNER, LEGACY, 4, FEE, "trip", 0, 0, 0) == Done(SETTLED, Some(1))
    ensures Credit(SETTLED, 20, GIFT, "grant", Some(8)) == Done(GRANTED_MORE, Some(2))
  {
    hide OpeningKey, Cut, ExpireDue, EnsureCoverage, Spend;
    OpeningKeyFits();
    LegacyOpens();
    OpenedPays();
    ShortKeys();
    E.NoKey(LEGACY, "trip");
    E.NoKey(SETTLED, "grant");
  }

  lemma ShortKeys()
    ensures Cut("trip") == "trip" && Cut("grant") == "grant" && Cut("late") == "late"
  {
  }

  lemma LegacyParts()
    ensures var lots := [Lot(0, 10, 10, None, Active)];
            && Covered(lots, 0) == 10 && SpendOrder(lots, 0) == [0] && Draw(lots, [0], 4, 1) == [Allocation(1, 0, 4, 0)]
            && AfterDraw(lots, [Allocation(1, 0, 4, 0)]) == [Lot(0, 10, 6, None, Active)]
  {
    var l := Lot(0, 10, 10, None, Active);
    E.OneLot(l, 0);
    assert [0][1..] == [];
    SumOne(Allocation(1, 0, 4, 0), AmountOn(0));
  }

  /** The grant lapses between the first two readings, and the account has had its opening grant: the debit is refused. */
  lemma LapseRefuses()
    ensures Debit(OWNER, LEGACY, 4, FEE, "trip", 0, 0, 0).Done?
    ensures Credit(Debit(OWNER, LEGACY, 4, FEE, "trip", 0, 0, 0).book, 20, GIFT, "grant", Some(8)).Done?
    ensures var b := Credit(Debit(OWNER, LEGACY, 4, FEE, "trip", 0, 0, 0).book, 20, GIFT, "grant", Some(8)).book;
            b.points == 26 && Debit(OWNER, b, 4, Biz("travel_exchange", 2, "TR2"), "late", 7, 8, 8) == Raised(DuplicateKey)
  {
    hide OpeningKey, Cut, SpendOrder, Covered, Draw, AfterDraw, DueIds, Debit, Credit, DueTotal;
    LegacySettles();
    LateParts();
    OpeningKeyFits();
    E.NoKey(GRANTED_MORE, "late");
    assert GRANTED_MORE.ledger[0].key == Cut(OpeningKey(OWNER));
    DebitRefusedIff(OWNER, GRANTED_MORE, 4, Biz("travel_exchange", 2, "TR2"), "late", 7, 8, 8);
  }

  lemma LateParts()
    ensures HighestDue(GRANTED_MORE, 7).None? && DueTotal(GRANTED_MORE.lots, 7) == 0 && Covered(GRANTED_MORE.lots, 8) == 6
  {
    hide DueIds;
    HighestIsDue(GRANTED_MORE, 7);
    NothingLapses(GRANTED_MORE.lots, 7);
    E.OneLot(Lot(0, 10, 6, None, Active), 8);
    SumPush(SETTLED.lots, Lot(2, 20, 20, Some(8), Active), RemainingIf(SpendableAt(8)));
  }
}
