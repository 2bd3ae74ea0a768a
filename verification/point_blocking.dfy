/** Exactly when an expiry is refused, and what that does to debits. */
module PointBlocking {
  import opened Sums
  import opened PointBook
  import opened PointLots
  import opened PointHistory
  import opened PointTheorems
  import opened PointExpiry

  /** The due lot with the highest id: an expiry is keyed by it. */
  function HighestDue(b: Book, now: int): Option<nat> {
    var due := DueIds(b.lots, now);
    if due == [] then None else Some(due[|due| - 1])
  }

  /** No caller makes up an expiry key of its own. */
  ghost predicate OwnKeys(u: User, events: seq<Event>) {
    forall k | 0 <= k < |events| :: CallerKey(u, events[k])
  }

  ghost predicate CallerKey(u: User, e: Event) { OpKey(e.op).Some? ==> !IsExpiryKey(u, Cut(OpKey(e.op).value)) }

  /** The operation posts an expiry keyed by lot l: by itself, or as the first half of a debit. */
  predicate PostsExpiry(u: User, b: Book, e: Event, l: nat) {
    && Perform(u, b, e).Done? && HighestDue(b, e.now) == Some(l)
    && (e.op.DoExpire? || (e.op.DoDebit? && FindLedger(b, e.op.key).None?))
  }

  predicate ExpiryPosted(u: User, events: seq<Event>, l: nat) {
    exists j | 0 <= j < |events| :: PostsExpiry(u, Run(u, START, events[..j]).book, events[j], l)
  }

  lemma HighestIsDue(b: Book, now: int)
    ensures HighestDue(b, now).Some? ==> HighestDue(b, now).value < |b.lots| && Due(b.lots[HighestDue(b, now).value], now)
    ensures forall i | 0 <= i < |b.lots| && Due(b.lots[i], now) :: HighestDue(b, now).Some? && i <= HighestDue(b, now).value
  {
    var due := DueIds(b.lots, now);
    if due != [] { assert due[|due| - 1] in due; }
    forall i | 0 <= i < |b.lots| && Due(b.lots[i], now) ensures HighestDue(b, now).Some? && i <= HighestDue(b, now).value {
      assert DueAt(now)(b.lots[i]);
      assert i in due;
      var k :| 0 <= k < |due| && due[k] == i;
      assert k < |due| - 1 ==> due[k] < due[|due| - 1];
    }
  }

  lemma DuePositive(b: Book, now: int)
    requires HighestDue(b, now).Some?
    ensures DueTotal(b.lots, now) > 0
  {
    var due := DueIds(b.lots, now);
    forall k | 0 <= k < |due| ensures RemainingAt(b.lots)(due[k]) > 0 {
      assert due[k] in due && DueAt(now)(b.lots[due[k]]);
    }
    SumAtLeast(due, RemainingAt(b.lots));
    assert RemainingAt(b.lots)(due[0]) > 0;
  }

  /** In sound books an expiry is refused exactly when its key is taken. */
  lemma RefusedIffKeyTaken(u: User, h: History, now: int)
    requires Sound(h)
    ensures ExpireDue(u, h.book, now).Raised? <==>
              HighestDue(h.book, now).Some? && KeyTaken(h.book, Cut(ExpiryKey(u, HighestDue(h.book, now).value)))
  {
    hide KeyTaken, Cut, ExpiryKey, Draw, AfterExpiry, DoubleEntry, RowsBacked, Chained, KeysDistinct, AllocationsSound, RevocationsSound;
    SoundParts(h);
    ExpiryTakesAllDue(h.book, now);
    if HighestDue(h.book, now).Some? { DuePositive(h.book, now); }
  }

  // ---------------------------------------------------------------- which expiry keys are on the ledger

  /** The new rows put the expiry key of lot l on the ledger exactly when `posts` says so. */
  predicate AddsKey(u: User, b: Book, b': Book, l: nat, posts: bool) {
    KeyTaken(b', ExpiryKey(u, l)) <==> KeyTaken(b, ExpiryKey(u, l)) || posts
  }

  lemma RowAddsKey(u: User, b: Book, b': Book, row: LedgerRow, l: nat)
    requires b'.ledger == b.ledger + [row]
    ensures AddsKey(u, b, b', l, row.key == ExpiryKey(u, l))
  {
    if KeyTaken(b, ExpiryKey(u, l)) {
      var i :| 0 <= i < |b.ledger| && b.ledger[i].key == ExpiryKey(u, l);
      assert b'.ledger[i] == b.ledger[i];
    }
    if row.key == ExpiryKey(u, l) { assert b'.ledger[|b.ledger|] == row; }
    if KeyTaken(b', ExpiryKey(u, l)) {
      var i :| 0 <= i < |b'.ledger| && b'.ledger[i].key == ExpiryKey(u, l);
      assert i < |b.ledger| ==> b.ledger[i] == b'.ledger[i];
    }
  }

  lemma ExpiryAddsKey(u: User, h: History, now: int, l: nat)
    requires Sound(h) && ExpireDue(u, h.book, now).Done? && u.id < MAX_ID && |h.book.lots| <= MAX_ID
    ensures AddsKey(u, h.book, ExpireDue(u, h.book, now).book, l, HighestDue(h.book, now) == Some(l))
  {
    hide KeyTaken, Cut, ExpiryKey, Draw, AfterExpiry, DoubleEntry, RowsBacked, Chained, KeysDistinct, AllocationsSound, RevocationsSound;
    var b := h.book;
    SoundParts(h);
    ExpiryTakesAllDue(b, now);
    if HighestDue(b, now).Some? {
      var last := HighestDue(b, now).value;
      DuePositive(b, now);
      HighestIsDue(b, now);
      ExpiryKeyFits(u, last);
      var b' := ExpireDue(u, b, now).book;
      RowAddsKey(u, b, b', b'.ledger[|b.ledger|], l);
      if ExpiryKey(u, last) == ExpiryKey(u, l) { ExpiryKeyInjective(u, last, l); }
    }
  }

  lemma ForeignKey(u: User, key: string, l: nat)
    requires !IsExpiryKey(u, key)
    ensures key != ExpiryKey(u, l)
  {
  }

  lemma DebitAddsKey(u: User, h: History, e: Event, l: nat)
    requires Sound(h) && e.op.DoDebit? && FindLedger(h.book, e.op.key).None? && Perform(u, h.book, e).Done? && CallerKey(u, e)
    requires u.id < MAX_ID && |h.book.lots| <= MAX_ID
    ensures AddsKey(u, h.book, Perform(u, h.book, e).book, l, HighestDue(h.book, e.now) == Some(l))
  {
    hide Sound, ExpireDue, KeyTaken, ExpiryKey, FindLedger, Perform, Step, HighestDue, IsExpiryKey, Draw, SpendOrder, AfterDraw, Cut, Covered;
    SoundDebit(u, h, e);
    ExpiryAddsKey(u, h, e.now, l);
    var expired := ExpireDue(u, h.book, e.now).book;
    var spent := Spend(expired, expired.points, e.op.amount, e.op.biz, e.op.key, e.now).book;
    RowAddsKey(u, expired, spent, spent.ledger[|expired.ledger|], l);
    ForeignKey(u, Cut(e.op.key), l);
  }

  lemma OtherAddsKey(u: User, b: Book, e: Event, l: nat)
    requires !e.op.DoExpire? && (e.op.DoDebit? ==> FindLedger(b, e.op.key).Some?) && Perform(u, b, e).Done? && CallerKey(u, e)
    ensures AddsKey(u, b, Perform(u, b, e).book, l, false)
  {
    hide KeyTaken, ExpiryKey, FindLedger, IsExpiryKey, RevocableLot, FindExpense, AfterRestore, SettleAll, Cut;
    var b' := Perform(u, b, e).book;
    if |b'.ledger| > |b.ledger| {
      RowAddsKey(u, b, b', b'.ledger[|b.ledger|], l);
      ForeignKey(u, Cut(OpKey(e.op).value), l);
    } else {
      SameLedgerKeys(b, b', ExpiryKey(u, l));
    }
  }

  lemma SameLedgerKeys(b: Book, b': Book, key: string)
    requires b'.ledger == b.ledger
    ensures KeyTaken(b', key) <==> KeyTaken(b, key)
  {
  }

  lemma StepAddsKey(u: User, h: History, e: Event, l: nat)
    requires Sound(h) && CallerKey(u, e) && u.id < MAX_ID && |h.book.lots| <= MAX_ID
    ensures AddsKey(u, h.book, Step(u, h, e).book, l, PostsExpiry(u, h.book, e, l))
  {
    hide Sound, CallerKey, KeyTaken, ExpiryKey, FindLedger, HighestDue, ExpireDue, Debit, Credit, Refund, Revoke, Step;
    StepBook(u, h, e);
    if Perform(u, h.book, e).Done? {
      if e.op.DoExpire? {
        ExpiryAddsKey(u, h, e.now, l);
      } else if e.op.DoDebit? && FindLedger(h.book, e.op.key).None? {
        DebitAddsKey(u, h, e, l);
      } else {
        OtherAddsKey(u, h.book, e, l);
      }
    }
  }

  lemma PostedStep(u: User, events: seq<Event>, l: nat)
    requires events != []
    ensures var n := |events| - 1;
            ExpiryPosted(u, events, l) <==> ExpiryPosted(u, events[..n], l) || PostsExpiry(u, Run(u, START, events[..n]).book, events[n], l)
  {
    hide PostsExpiry, Run;
    var n := |events| - 1;
    assert forall j | 0 <= j < n :: events[..n][..j] == events[..j] && events[..n][j] == events[j];
    if ExpiryPosted(u, events[..n], l) {
      var j :| 0 <= j < n && PostsExpiry(u, Run(u, START, events[..n][..j]).book, events[..n][j], l);
      assert PostsExpiry(u, Run(u, START, events[..j]).book, events[j], l);
    }
    if ExpiryPosted(u, events, l) {
      var j :| 0 <= j < |events| && PostsExpiry(u, Run(u, START, events[..j]).book, events[j], l);
      if j < n { assert PostsExpiry(u, Run(u, START, events[..n][..j]).book, events[..n][j], l); }
    }
  }

  /** The expiry key of a lot is on the ledger exactly when an expiry with that highest due lot was posted. */
  lemma {:induction false} KeyTakenIffPosted(u: User, events: seq<Event>, l: nat)
    requires u.id < MAX_ID && |Run(u, START, events).book.lots| <= MAX_ID && OwnKeys(u, events)
    ensures KeyTaken(Run(u, START, events).book, ExpiryKey(u, l)) <==> ExpiryPosted(u, events, l)
  {
    hide Step, Sound, PostsExpiry, ExpiryPosted, CallerKey, ExpiryKey;
    if events == [] {
      NothingPosted(u, l);
    } else {
      var n := |events| - 1;
      var h := Run(u, START, events[..n]);
      RunKeepsSound(u, events[..n]);
      StepLots(u, h, events[n]);
      KeyTakenIffPosted(u, events[..n], l);
      StepAddsKey(u, h, events[n], l);
      PostedStep(u, events, l);
    }
  }

  lemma NothingPosted(u: User, l: nat)
    ensures !ExpiryPosted(u, [], l) && !KeyTaken(START.book, ExpiryKey(u, l))
  {
  }

  // ---------------------------------------------------------------- the exact condition

  /**
   * Over every history: the expiry at a moment is refused exactly when the
   * highest lot due then was also the highest lot due at an expiry posted
   * before.
   */
  lemma ExpiryRefusedIff(u: User, events: seq<Event>, now: int)
    requires u.id < MAX_ID && |Run(u, START, events).book.lots| <= MAX_ID && OwnKeys(u, events)
    ensures var b := Run(u, START, events).book;
            ExpireDue(u, b, now).Raised? <==> HighestDue(b, now).Some? && ExpiryPosted(u, events, HighestDue(b, now).value)
  {
    hide Sound, HighestDue, KeyTaken, ExpiryPosted, ExpiryKey, Cut, ExpireDue, Run;
    var h := Run(u, START, events);
    RunKeepsSound(u, events);
    RefusedIffKeyTaken(u, h, now);
    if HighestDue(h.book, now).Some? {
      var last := HighestDue(h.book, now).value;
      HighestIsDue(h.book, now);
      ExpiryKeyFits(u, last);
      KeyTakenIffPosted(u, events, last);
    }
  }

  /** While the expiry is refused, so is every new debit, whatever its amount and its later clock readings. */
  lemma RefusedExpiryBlocksDebits(u: User, events: seq<Event>, now: int, amount: int, biz: Biz, key: string, t2: int, t3: int)
    requires u.id < MAX_ID && |Run(u, START, events).book.lots| <= MAX_ID && OwnKeys(u, events)
    requires var b := Run(u, START, events).book;
             && amount > 0 && FindLedger(b, key).None?
             && HighestDue(b, now).Some? && ExpiryPosted(u, events, HighestDue(b, now).value)
    ensures Debit(u, Run(u, START, events).book, amount, biz, key, now, t2, t3) == Raised(DuplicateKey)
  {
    hide Sound, HighestDue, ExpiryPosted, Run;
    ExpiryRefusedIff(u, events, now);
  }

  /** A refused expiry means that some refund gave points back to a lot an earlier expiry was keyed by. */
  lemma RefusedMeansRevived(u: User, events: seq<Event>, now: int)
    requires u.id < MAX_ID && |Run(u, START, events).book.lots| <= MAX_ID && OwnKeys(u, events)
    requires ExpireDue(u, Run(u, START, events).book, now).Raised?
    ensures exists k | 0 <= k < |events| :: Revives(u, Run(u, START, events[..k]).book, events[k])
  {
    hide Revives, Run, ExpireDue;
    if forall k | 0 <= k < |events| :: !Revives(u, Run(u, START, events[..k]).book, events[k]) {
      forall k | 0 <= k < |events| ensures OpKey(events[k].op).Some? ==> !IsExpiryKey(u, Cut(OpKey(events[k].op).value)) {
        assert CallerKey(u, events[k]);
      }
      ExpiryNeverRefused(u, events, now);
    }
  }
}
