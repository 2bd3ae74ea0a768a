/**
 * Taking a reward back: a revocation finds the lot of the credit it names, takes
 * what is left of it and nothing else, and does so once.
 */
module PointRevocation {
  import opened Sums
  import opened PointBook
  import opened PointLots
  import opened PointHistory
  import opened PointTheorems

  // ---------------------------------------------------------------- every lot has a source of its own

  /** Old lots keep source and grant, new ones come from new rows, each from its own. */
  predicate SourcesGrow(b: Book, b': Book) {
    && |b.lots| <= |b'.lots| <= |b.lots| + 1 && |b.ledger| <= |b'.ledger|
    && (forall i | 0 <= i < |b.lots| :: b'.lots[i].source == b.lots[i].source && b'.lots[i].original == b.lots[i].original)
    && (|b'.lots| > |b.lots| ==> |b.ledger| <= b'.lots[|b.lots|].source < |b'.ledger|)
  }

  predicate SourcesKnown(b: Book) { forall i | 0 <= i < |b.lots| :: b.lots[i].source < |b.ledger| }

  predicate SourcesDistinct(b: Book) { forall i, j | 0 <= i < j < |b.lots| :: b.lots[i].source != b.lots[j].source }

  lemma GrowKeepsSources(b: Book, b': Book)
    requires SourcesKnown(b) && SourcesDistinct(b) && SourcesGrow(b, b')
    ensures SourcesKnown(b') && SourcesDistinct(b')
  {
  }

  lemma SpendSources(b: Book, before: int, amount: int, biz: Biz, key: string, now: int)
    ensures SourcesGrow(b, After(b, Spend(b, before, amount, biz, key, now)))
  {
    hide Covered, SpendOrder, Draw, Cut, Sum;
  }

  lemma ExpirySources(u: User, b: Book, now: int)
    ensures var a := After(b, ExpireDue(u, b, now)); SourcesGrow(b, a) && |a.lots| == |b.lots|
  {
    hide DueIds, DueTotal, Draw, Cut, ExpiryKey;
  }

  /** In sound books a debit grants nothing, so it only moves lots. */
  lemma DebitSources(u: User, h: History, amount: int, biz: Biz, key: string, now: int)
    requires Sound(h)
    ensures SourcesGrow(h.book, After(h.book, Debit(u, h.book, amount, biz, key, now, now, now)))
  {
    hide Sound, ExpireDue, EnsureCoverage, Spend, FindLedger;
    if amount > 0 && FindLedger(h.book, key).None? && ExpireDue(u, h.book, now).Done? {
      var expired := ExpireDue(u, h.book, now).book;
      ExpireKeepsSound(u, h, now);
      ExpirySources(u, h.book, now);
      ExpiryGrows(u, h.book, now);
      SoundBook(History(expired, h.revoked));
      CoverageIsNoOp(u, expired, now);
      SpendSources(expired, expired.points, amount, biz, key, now);
    }
  }

  lemma SoundBook(h: History)
    requires Sound(h)
    ensures Balanced(h.book) && LotsSound(h.book)
  {
  }

  lemma CreditSources(b: Book, amount: int, biz: Biz, key: string, expiresAt: Option<int>)
    ensures SourcesGrow(b, After(b, Credit(b, amount, biz, key, expiresAt)))
  {
    hide FindLedger, Cut;
  }

  lemma RefundSources(b: Book, kind: string, no: string, refundKind: string, bizId: int, key: string, now: int, fallback: Option<int>)
    ensures SourcesGrow(b, After(b, Refund(b, kind, no, refundKind, bizId, key, now, fallback)))
  {
    hide FindLedger, Cut, Sum;
  }

  lemma RevokeSources(b: Book, creditKey: string, key: string, biz: Biz)
    ensures SourcesGrow(b, After(b, Revoke(b, creditKey, key, biz)))
  {
    hide FindLedger, Cut;
  }

  lemma StepSources(u: User, h: History, e: Event)
    requires Sound(h)
    ensures SourcesGrow(h.book, Step(u, h, e).book)
  {
    hide Sound, Debit, ExpireDue, Credit, Refund, Revoke, SourcesGrow, RevocableLot;
    SameSources(h.book);
    match e.op
    case DoDebit(amount, biz, key) => DebitSources(u, h, amount, biz, key, e.now);
    case DoExpire => ExpirySources(u, h.book, e.now);
    case DoCredit(amount, biz, key, expiresAt) => CreditSources(h.book, amount, biz, key, expiresAt);
    case DoRefund(kind, no, refundKind, bizId, key, fallback) =>
      RefundSources(h.book, kind, no, refundKind, bizId, key, e.now, fallback);
    case DoRevoke(creditKey, key, biz) => RevokeSources(h.book, creditKey, key, biz);
  }

  lemma SameSources(b: Book)
    ensures SourcesGrow(b, b)
  {
  }

  lemma {:induction false} RunSources(u: User, events: seq<Event>)
    ensures SourcesKnown(Run(u, START, events).book) && SourcesDistinct(Run(u, START, events).book)
  {
    if events != [] {
      hide Step, Sound;
      var h := Run(u, START, events[..|events| - 1]);
      RunSources(u, events[..|events| - 1]);
      RunKeepsSound(u, events[..|events| - 1]);
      StepSources(u, h, events[|events| - 1]);
      GrowKeepsSources(h.book, Run(u, START, events).book);
    }
  }

  /** Lot i, and no other, comes from row r. */
  predicate OnlyLot(b: Book, r: nat, i: nat) {
    && r < |b.ledger| && i < |b.lots| && b.lots[i].source == r
    && forall j | 0 <= j < |b.lots| && j != i :: b.lots[j].source != r
  }

  lemma {:induction false} OnlyLotStays(u: User, h: History, events: seq<Event>, r: nat, i: nat)
    requires Sound(h) && OnlyLot(h.book, r, i)
    ensures OnlyLot(Run(u, h, events).book, r, i)
    ensures Run(u, h, events).book.lots[i].original == h.book.lots[i].original
  {
    hide Step, Sound, OnlyLot, SourcesGrow;
    LotOf(h.book, r, i);
    if events != [] {
      var front := events[..|events| - 1];
      var before := Run(u, h, front);
      OnlyLotStays(u, h, front, r, i);
      RunFromSound(u, h, front);
      StepSources(u, before, events[|events| - 1]);
      OnlyLotMoves(before.book, Step(u, before, events[|events| - 1]).book, r, i);
    }
  }

  lemma OnlyLotMoves(b: Book, b': Book, r: nat, i: nat)
    requires OnlyLot(b, r, i) && SourcesGrow(b, b')
    ensures OnlyLot(b', r, i) && b'.lots[i].original == b.lots[i].original
  {
  }

  // ---------------------------------------------------------------- one revocation

  predicate KeyFree(b: Book, key: string) { forall j | 0 <= j < |b.ledger| :: b.ledger[j].key != key }

  /** What was left of lot i is gone from it and from the balance, on one expense row if it was anything; nothing else moves. */
  predicate TakenBack(b: Book, a: Book, i: nat, biz: Biz, key: string)
    requires i < |b.lots|
  {
    var left := b.lots[i].remaining;
    && a.points == b.points - left && a.allocations == b.allocations
    && a.lots == b.lots[i := b.lots[i].(remaining := 0, status := Revoked)]
    && a.ledger == b.ledger + if left > 0 then [LedgerRow(Expense, left, b.points, b.points - left, biz, Cut(key))] else []
  }

  /** Row r is the income row of the credit, and its lot i has not been revoked. */
  predicate Target(b: Book, creditKey: string, r: nat, i: nat) {
    && OnlyLot(b, r, i) && b.ledger[r].key == creditKey && b.ledger[r].direction == Income && b.lots[i].status != Revoked
  }

  lemma TargetFound(b: Book, creditKey: string, r: nat, i: nat)
    requires KeysDistinct(b) && Target(b, creditKey, r, i)
    ensures RevocableLot(b, creditKey) == Some(i)
  {
    KeyFound(b, r);
    assert SourceIs(r)(b.lots[i]);
  }

  /** Of a credit whose lot is still there, a revocation takes back all that is left. */
  lemma RevokeAt(u: User, h: History, e: Event, r: nat, i: nat)
    requires Sound(h) && e.op.DoRevoke? && Target(h.book, e.op.creditKey, r, i)
    requires KeyFree(h.book, e.op.key) && (h.book.lots[i].remaining > 0 ==> KeyFree(h.book, Cut(e.op.key)))
    ensures Perform(u, h.book, e).Done? && TakenBack(h.book, Step(u, h, e).book, i, e.op.biz, e.op.key)
  {
    hide RevocableLot, Sound, FindLedger, Cut, OnlyLot;
    LotOf(h.book, r, i);
    SoundParts(h);
    TargetFound(h.book, e.op.creditKey, r, i);
    LotWithinBalance(h, i);
    NotFound(h.book, e.op.key);
  }

  lemma NotFound(b: Book, key: string)
    ensures KeyFree(b, key) <==> FindLedger(b, key).None?
    ensures KeyFree(b, key) <==> !KeyTaken(b, key)
  {
    if FindLedger(b, key).Some? { assert KeyIs(key)(b.ledger[FindLedger(b, key).value]); }
    if j :| 0 <= j < |b.ledger| && b.ledger[j].key == key { assert KeyIs(key)(b.ledger[j]); }
  }

  /**
   * A credit under a new key that fits the column, any operations, then its
   * revocation under a new key: as long as the lot has not been revoked, exactly
   * what is left of that credit is taken back.
   */
  lemma RevokeTakesBack(u: User, h: History, credit: Event, between: seq<Event>, revoke: Event)
    requires Sound(h) && credit.op.DoCredit? && revoke.op.DoRevoke? && revoke.op.creditKey == credit.op.key
    requires credit.op.amount > 0 && |credit.op.key| <= 160 && KeyFree(h.book, credit.op.key)
    ensures |Run(u, Step(u, h, credit), between).book.lots| > |h.book.lots|
    ensures var later := Run(u, Step(u, h, credit), between); var i := |h.book.lots|;
            && later.book.lots[i].original == credit.op.amount
            && (later.book.lots[i].status != Revoked && KeyFree(later.book, revoke.op.key) && KeyFree(later.book, Cut(revoke.op.key)) ==>
                  TakenBack(later.book, Step(u, later, revoke).book, i, revoke.op.biz, revoke.op.key))
  {
    hide Sound, TakenBack, KeyFree, OnlyLot;
    var h1, r, i := Step(u, h, credit), |h.book.ledger|, |h.book.lots|;
    CreditPosts(u, h, credit);
    StepKeepsSound(u, h, credit);
    OnlyLotStays(u, h1, between, r, i);
    RunFromSound(u, h1, between);
    RunGrows(u, h1, between);
    var later := Run(u, h1, between);
    LotOf(later.book, r, i);
    assert later.book.ledger[r] == later.book.ledger[..|h1.book.ledger|][r];
    if later.book.lots[i].status != Revoked && KeyFree(later.book, revoke.op.key) && KeyFree(later.book, Cut(revoke.op.key)) {
      RevokeAt(u, later, revoke, r, i);
    }
  }

  lemma LotOf(b: Book, r: nat, i: nat)
    requires OnlyLot(b, r, i)
    ensures r < |b.ledger| && i < |b.lots|
  {
  }

  lemma CreditPosts(u: User, h: History, e: Event)
    requires Sound(h) && e.op.DoCredit? && e.op.amount > 0 && |e.op.key| <= 160 && KeyFree(h.book, e.op.key)
    ensures var a := Step(u, h, e).book;
            && OnlyLot(a, |h.book.ledger|, |h.book.lots|) && a.lots[|h.book.lots|].original == e.op.amount
            && |a.ledger| == |h.book.ledger| + 1
            && a.ledger[|h.book.ledger|].key == e.op.key && a.ledger[|h.book.ledger|].direction == Income
  {
    hide FindLedger, DoubleEntry, RowsBacked, Chained, AllocationsSound, RevocationsSound;
    SoundParts(h);
    NotFound(h.book, e.op.key);
    forall j | 0 <= j < |h.book.lots| ensures h.book.lots[j].source < |h.book.ledger| { assert LotSound(h.book.lots[j], |h.book.ledger|); }
  }

  // ---------------------------------------------------------------- exactly when

  /** The revocation has something to do and may do it. */
  predicate Acts(b: Book, e: Event)
    requires e.op.DoRevoke?
  {
    && KeyFree(b, e.op.key)
    && exists r: nat, i: nat | r < |b.ledger| && i < |b.lots| ::
         Target(b, e.op.creditKey, r, i) && (b.lots[i].remaining > 0 ==> KeyFree(b, Cut(e.op.key)))
  }

  lemma TargetSources(b: Book, creditKey: string)
    requires KeysDistinct(b) && SourcesDistinct(b) && RevocableLot(b, creditKey).Some?
    ensures FindLedger(b, creditKey).Some?
    ensures var r, i := FindLedger(b, creditKey).value, RevocableLot(b, creditKey).value; Target(b, creditKey, r, i)
  {
    hide KeysDistinct;
    var r, i := FindLedger(b, creditKey).value, RevocableLot(b, creditKey).value;
    assert KeyIs(creditKey)(b.ledger[r]) && SourceIs(r)(b.lots[i]);
  }

  /**
   * Over every run: a revocation changes the books exactly when its own key is
   * new and the credit it names is an income row whose lot has not been revoked
   * (and the stored form of a key too long for the column is new too, if a row
   * is to be posted); otherwise nothing changes.
   */
  lemma RevokeActsIff(u: User, events: seq<Event>, e: Event)
    requires e.op.DoRevoke?
    ensures var h := Run(u, START, events); Step(u, h, e).book != h.book <==> Acts(h.book, e)
  {
    hide Sound, RevocableLot, Run, Target, KeyFree, KeysDistinct, SourcesDistinct, SourcesKnown;
    RunKeepsSound(u, events);
    RunSources(u, events);
    ActsAt(u, Run(u, START, events), e);
  }

  lemma ActsAt(u: User, h: History, e: Event)
    requires e.op.DoRevoke? && Sound(h) && SourcesDistinct(h.book)
    ensures Step(u, h, e).book != h.book <==> Acts(h.book, e)
  {
    hide Sound, RevocableLot, Target, SourcesDistinct, FindLedger, Cut, KeyFree, KeyTaken;
    var b := h.book;
    SoundParts(h);
    NotFound(b, e.op.key);
    NotFound(b, Cut(e.op.key));
    if KeyFree(b, e.op.key) && RevocableLot(b, e.op.creditKey).Some? {
      TargetSources(b, e.op.creditKey);
      var r, i := FindLedger(b, e.op.creditKey).value, RevocableLot(b, e.op.creditKey).value;
      TargetLot(b, e.op.creditKey, r, i);
      LotWithinBalance(h, i);
      if b.lots[i].remaining > 0 ==> KeyFree(b, Cut(e.op.key)) { RevokeAt(u, h, e, r, i); }
    }
    if r: nat, i: nat :| r < |b.ledger| && i < |b.lots| && Target(b, e.op.creditKey, r, i) && (b.lots[i].remaining > 0 ==> KeyFree(b, Cut(e.op.key))) {
      TargetFound(b, e.op.creditKey, r, i);
      TargetLot(b, e.op.creditKey, r, i);
      if KeyFree(b, e.op.key) { RevokeAt(u, h, e, r, i); }
    }
  }

  lemma TargetLot(b: Book, creditKey: string, r: nat, i: nat)
    requires Target(b, creditKey, r, i)
    ensures r < |b.ledger| && i < |b.lots| && b.lots[i].status != Revoked
  {
  }

  /** Repeating a revocation at once changes nothing. */
  lemma RevokeOnce(u: User, events: seq<Event>, e: Event)
    requires e.op.DoRevoke?
    ensures var h := Step(u, Run(u, START, events), e); Step(u, h, e).book == h.book
  {
    hide Sound, Run, Step, Acts;
    var h := Run(u, START, events);
    assert (events + [e])[..|events|] == events;
    RunNext(u, events, e);
    RevokeActsIff(u, events, e);
    RevokeActsIff(u, events + [e], e);
    if Acts(h.book, e) { ActedIsDone(u, events, e); }
  }

  lemma RunNext(u: User, events: seq<Event>, e: Event)
    ensures Run(u, START, events + [e]) == Step(u, Run(u, START, events), e)
  {
    assert (events + [e])[..|events|] == events;
  }

  lemma ActedIsDone(u: User, events: seq<Event>, e: Event)
    requires e.op.DoRevoke? && Acts(Run(u, START, events).book, e)
    ensures !Acts(Step(u, Run(u, START, events), e).book, e)
  {
    hide Sound, Run, Step, Cut, OnlyLot;
    var h := Run(u, START, events);
    var b, a := h.book, Step(u, h, e).book;
    RunKeepsSound(u, events);
    SoundParts(h);
    var r: nat, i: nat :| r < |b.ledger| && i < |b.lots| && Target(b, e.op.creditKey, r, i) && (b.lots[i].remaining > 0 ==> KeyFree(b, Cut(e.op.key)));
    RevokeAt(u, h, e, r, i);
    RunKeepsSound(u, events + [e]);
    RunNext(u, events, e);
    SoundParts(Step(u, h, e));
    assert a.ledger[r] == b.ledger[r];
    forall r': nat, i': nat | r' < |a.ledger| && i' < |a.lots| ensures !Target(a, e.op.creditKey, r', i') {
      if Target(a, e.op.creditKey, r', i') {
        SameRow(a, r, r');
        SourceOf(b, r, i);
        SourceOf(a, r', i');
      }
    }
  }

  lemma SameRow(b: Book, r: nat, s: nat)
    requires KeysDistinct(b) && r < |b.ledger| && s < |b.ledger| && b.ledger[r].key == b.ledger[s].key
    ensures r == s
  {
  }

  lemma SourceOf(b: Book, r: nat, i: nat)
    requires OnlyLot(b, r, i)
    ensures i < |b.lots| && b.lots[i].source == r && forall j | 0 <= j < |b.lots| && j != i :: b.lots[j].source != r
  {
  }

  /** A revocation that posted a row under a key that fits gives back that row ever after, and changes nothing. */
  lemma RevokeReplays(u: User, h: History, e: Event, between: seq<Event>)
    requires Sound(h) && e.op.DoRevoke? && |e.op.key| <= 160 && |Step(u, h, e).book.ledger| > |h.book.ledger|
    ensures var later := Run(u, Step(u, h, e), between).book; Perform(u, later, e) == Done(later, Some(|h.book.ledger|))
  {
    hide Sound, RevocableLot;
    var h1, r := Step(u, h, e), |h.book.ledger|;
    StepKeepsSound(u, h, e);
    RunFromSound(u, h1, between);
    RunGrows(u, h1, between);
    var later := Run(u, h1, between);
    SoundParts(later);
    assert later.book.ledger[r] == later.book.ledger[..|h1.book.ledger|][r];
    KeyFound(later.book, r);
  }
}
