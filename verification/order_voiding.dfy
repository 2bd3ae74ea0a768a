/**
 * When a paid order is voided: exactly when its payment falls between the order
 * read of an unlocked cancel and that cancel's commit.
 */
module OrderVoiding {
  import opened Sums
  import opened OrderProtocol
  import opened OrderBalance
  import opened OrderIdentity
  import opened OrderStock

  predicate WasPaid(o: Order) { o.payment == PaidUp || o.payment == Refunded }

  function After(init: map<nat, int>, events: seq<Event>, n: nat): State
    requires n <= |events|
  {
    Run(Opening(init), events[..n])
  }

  /** Event n turns order o from paid, or refunded after payment, to voided. */
  predicate Voids(init: map<nat, int>, events: seq<Event>, o: nat, n: nat) {
    && n < |events| && o < |After(init, events, n).orders| && o < |After(init, events, n + 1).orders|
    && WasPaid(After(init, events, n).orders[o]) && After(init, events, n + 1).orders[o].payment == Voided
  }

  /** Event m is the payment of order o, and it takes effect. */
  predicate PaysAt(init: map<nat, int>, events: seq<Event>, o: nat, m: nat) {
    && m < |events| && events[m] == Pay(o) && o < |After(init, events, m).orders| && o < |After(init, events, m + 1).orders|
    && !WasPaid(After(init, events, m).orders[o]) && After(init, events, m + 1).orders[o].payment == PaidUp
  }

  predicate PastRead(r: Restore) { r.phase.ReadItems? || r.phase.LoadProducts? || r.phase.Give? || r.phase.Commit? }

  /** Restore i is a cancel of order o that has read it without a lock and has not ended. */
  predicate HasReadUnlocked(s: State, i: nat, o: nat) {
    i < |s.restores| && s.restores[i].kind == Cancel && !s.restores[i].locked && s.restores[i].order == o && PastRead(s.restores[i])
  }

  /** Order o is paid at m, after the unlocked cancel i has read it and before that cancel commits at n. */
  predicate Straddles(init: map<nat, int>, events: seq<Event>, o: nat, i: nat, m: nat, n: nat) {
    && m < n < |events| && PaysAt(init, events, o, m) && HasReadUnlocked(After(init, events, m), i, o)
    && events[n] == AdvanceRestore(i) && CommitsRestore(After(init, events, n), events[n])
  }

  ghost predicate EverVoided(init: map<nat, int>, events: seq<Event>, o: nat) { exists n: nat :: Voids(init, events, o, n) }

  ghost predicate EverStraddled(init: map<nat, int>, events: seq<Event>, o: nat) {
    exists i: nat, m: nat, n: nat :: Straddles(init, events, o, i, m, n)
  }

  // ---------------------------------------------------------------- steps

  lemma AfterStep(init: map<nat, int>, events: seq<Event>, n: nat)
    requires n < |events|
    ensures After(init, events, n + 1) == Next(After(init, events, n), events[n])
  {
    hide Next;
    assert events[..n + 1][..n] == events[..n];
  }

  /** The same cancel or refund of the same order. */
  predicate SameAim(r: Restore, r': Restore) { r'.kind == r.kind && r'.order == r.order && r'.locked == r.locked }

  predicate MayRead(s: State, r: Restore) { r.order < |s.orders| && Eligible(r.kind, s.orders[r.order]) }

  lemma EarlyStepKept(s: State, i: nat)
    requires i < |s.restores| && (s.restores[i].phase.ReadOrder? || s.restores[i].phase.Finished?)
    ensures var s' := StepRestore(s, i); var r := s.restores[i];
            && |s'.restores| == |s.restores| && s'.restores == s.restores[i := s'.restores[i]] && SameAim(r, s'.restores[i])
            && (PastRead(s'.restores[i]) && !PastRead(r) ==> s'.orders == s.orders && MayRead(s, r))
  {
    hide OrderFree, Eligible, Closed, IncrBy, RowsFree, RowsWanted, SessionRows;
  }

  lemma ReadingStepKept(s: State, i: nat)
    requires i < |s.restores| && (s.restores[i].phase.ReadItems? || s.restores[i].phase.LoadProducts?)
    ensures var s' := StepRestore(s, i); var r := s.restores[i];
            && |s'.restores| == |s.restores| && s'.restores == s.restores[i := s'.restores[i]] && SameAim(r, s'.restores[i])
            && (PastRead(s'.restores[i]) && !PastRead(r) ==> s'.orders == s.orders && MayRead(s, r))
  {
    hide OrderFree, Eligible, Closed, IncrBy, RowsFree, RowsWanted, SessionRows;
  }

  lemma RestoreStepKept(s: State, i: nat)
    requires i < |s.restores|
    ensures var s' := StepRestore(s, i); var r := s.restores[i];
            && |s'.restores| == |s.restores| && s'.restores == s.restores[i := s'.restores[i]] && SameAim(r, s'.restores[i])
            && (PastRead(s'.restores[i]) && !PastRead(r) ==> s'.orders == s.orders && MayRead(s, r))
  {
    hide StepRestore, Closed, Eligible, IncrBy;
    match s.restores[i].phase
    case Give(_) => GiveShape(s, i);
    case Commit => CommitIs(s, i);
    case ReadItems => ReadingStepKept(s, i);
    case LoadProducts => ReadingStepKept(s, i);
    case _ => EarlyStepKept(s, i);
  }

  /** A restore keeps its aim; it passes its order read only when the order may be cancelled or refunded. */
  lemma RestoreKept(s: State, e: Event, i: nat)
    requires i < |s.restores|
    ensures var s' := Next(s, e); var r := s.restores[i];
            && i < |s'.restores| && SameAim(r, s'.restores[i])
            && (PastRead(s'.restores[i]) && !PastRead(r) ==> s'.orders == s.orders && MayRead(s, r))
  {
    hide StepCreate, StepRestore, FindOrder, Merge, ValidPayload, OrderFree, PastRead, MayRead;
    match e
    case AdvanceCreate(c) => if c < |s.creates| { CreateKeepsRestores(s, c); }
    case AdvanceRestore(c) => if c < |s.restores| { RestoreStepKept(s, c); }
    case _ =>
  }

  lemma CreateKeepsRestores(s: State, i: nat)
    requires i < |s.creates|
    ensures StepCreate(s, i).restores == s.restores
  {
    hide Outside, Inside, Undo, Commits, NewItems, SoldRows;
  }

  lemma NewRestoreUnread(s: State, e: Event, i: nat)
    requires |s.restores| <= i < |Next(s, e).restores|
    ensures !PastRead(Next(s, e).restores[i])
  {
    hide StepCreate, FindOrder, Merge, ValidPayload, OrderFree, RowsFree, RowsWanted, SessionRows, Eligible, Closed, IncrBy;
    if e.AdvanceCreate? && e.call < |s.creates| {
      CreateKeepsRestores(s, e.call);
    }
  }

  /** How an order can stop or start being one that was paid. */
  lemma PaidSteps(init: map<nat, int>, s: State, e: Event, o: nat)
    requires StockSound(init, s) && AllReachable(s) && o < |s.orders|
    ensures var s' := Next(s, e);
            && o < |s'.orders|
            && (WasPaid(s.orders[o]) && !WasPaid(s'.orders[o]) ==>
                  && s'.orders[o].payment == Voided && CommitsRestore(s, e)
                  && HasReadUnlocked(s, e.call, o))
            && (!WasPaid(s.orders[o]) && WasPaid(s'.orders[o]) ==> e == Pay(o) && s'.orders[o].payment == PaidUp)
  {
    hide StockSound, StepCreate, StepRestore, FindOrder, Merge, ValidPayload;
    OrderSteps(s, e, o);
    assert Reachable(s.orders[o]);
    if e.AdvanceRestore? && e.call < |s.restores| {
      RestoreIsSound(init, s, e.call);
      if s.restores[e.call].phase.Commit? { CommitIs(s, e.call); }
    }
  }

  // ---------------------------------------------------------------- a void needs a straddled payment

  /** If the order an unlocked cancel has read is paid by now, it was paid while that cancel ran. */
  lemma {:induction false} PaidWhileRead(init: map<nat, int>, events: seq<Event>, o: nat, i: nat, n: nat) returns (m: nat)
    requires n <= |events| && HasReadUnlocked(After(init, events, n), i, o)
    requires o < |After(init, events, n).orders| && WasPaid(After(init, events, n).orders[o])
    ensures m < n && PaysAt(init, events, o, m) && HasReadUnlocked(After(init, events, m), i, o)
  {
    hide Next, StockSound, AllReachable, Eligible, CommitsRestore;
    assert events[..0] == [];
    m := 0;
    if n > 0 {
      var k := n - 1;
      var s, e := After(init, events, k), events[k];
      AfterStep(init, events, k);
      RunKeepsStockSound(init, events[..k]);
      RunReachable(init, events[..k]);
      if i >= |s.restores| { NewRestoreUnread(s, e, i); }
      RestoreKept(s, e, i);
      UnreadUnpaid(s, i);
      ReadOrderExists(init, s, i);
      PaidSteps(init, s, e, o);
      if WasPaid(s.orders[o]) {
        m := PaidWhileRead(init, events, o, i, k);
      } else {
        m := k;
      }
    }
  }

  /** An order that may be cancelled was not paid. */
  lemma UnreadUnpaid(s: State, i: nat)
    requires AllReachable(s) && i < |s.restores| && s.restores[i].kind == Cancel
    ensures s.restores[i].order < |s.orders| && Eligible(Cancel, s.orders[s.restores[i].order]) ==> !WasPaid(s.orders[s.restores[i].order])
  {
    if s.restores[i].order < |s.orders| { assert Reachable(s.orders[s.restores[i].order]); }
  }

  lemma ReadOrderExists(init: map<nat, int>, s: State, i: nat)
    requires StockSound(init, s) && i < |s.restores|
    ensures PastRead(s.restores[i]) ==> s.restores[i].order < |s.orders|
  {
    RestoreIsSound(init, s, i);
  }

  lemma VoidedWasStraddled(init: map<nat, int>, events: seq<Event>, o: nat, n: nat)
    requires Voids(init, events, o, n)
    ensures EverStraddled(init, events, o)
  {
    hide Next, StockSound, AllReachable, Run;
    AfterStep(init, events, n);
    RunKeepsStockSound(init, events[..n]);
    RunReachable(init, events[..n]);
    PaidSteps(init, After(init, events, n), events[n], o);
    var i := events[n].call;
    var m := PaidWhileRead(init, events, o, i, n);
    assert Straddles(init, events, o, i, m, n);
  }

  // ---------------------------------------------------------------- a straddled payment is voided

  lemma {:induction false} CancelKept(init: map<nat, int>, events: seq<Event>, i: nat, m: nat, n: nat)
    requires m <= n <= |events| && i < |After(init, events, m).restores|
    ensures var r, later := After(init, events, m).restores[i], After(init, events, n);
            && i < |later.restores| && later.restores[i].kind == r.kind
            && later.restores[i].order == r.order && later.restores[i].locked == r.locked
  {
    hide Next, Run;
    if m == n {
    } else {
      CancelKept(init, events, i, m, n - 1);
      AfterStep(init, events, n - 1);
      RestoreKept(After(init, events, n - 1), events[n - 1], i);
    }
  }

  /** Between being paid and not having been paid lies the void. */
  lemma {:induction false} VoidBetween(init: map<nat, int>, events: seq<Event>, o: nat, m: nat, n: nat)
    requires m <= n <= |events| && o < |After(init, events, m).orders| && WasPaid(After(init, events, m).orders[o])
    ensures o < |After(init, events, n).orders| && (WasPaid(After(init, events, n).orders[o]) || EverVoided(init, events, o))
  {
    hide Next, Run, StockSound, AllReachable, CommitsRestore;
    if m == n {
    } else {
      VoidBetween(init, events, o, m, n - 1);
      AfterStep(init, events, n - 1);
      RunKeepsStockSound(init, events[..n - 1]);
      RunReachable(init, events[..n - 1]);
      PaidSteps(init, After(init, events, n - 1), events[n - 1], o);
      if WasPaid(After(init, events, n - 1).orders[o]) && !WasPaid(After(init, events, n).orders[o]) {
        assert Voids(init, events, o, n - 1);
      }
    }
  }

  lemma CommitVoids(s: State, i: nat)
    requires CommitsRestore(s, AdvanceRestore(i)) && s.restores[i].kind == Cancel
    ensures var s' := Next(s, AdvanceRestore(i)); var o := s.restores[i].order;
            o < |s'.orders| && s'.orders[o].payment == Voided
  {
    hide OrderFree;
  }

  lemma StraddledIsVoided(init: map<nat, int>, events: seq<Event>, o: nat, i: nat, m: nat, n: nat)
    requires Straddles(init, events, o, i, m, n)
    ensures EverVoided(init, events, o)
  {
    hide Next, Run;
    AfterStep(init, events, n);
    CancelKept(init, events, i, m, n);
    CommitVoids(After(init, events, n), i);
    VoidBetween(init, events, o, m + 1, n + 1);
  }

  /**
   * Over every run: an order that was paid is voided exactly when it was paid
   * after an unlocked cancel had read it and before that cancel committed.
   */
  lemma VoidedIffPaidDuringCancel(init: map<nat, int>, events: seq<Event>, o: nat)
    ensures EverVoided(init, events, o) <==> EverStraddled(init, events, o)
  {
    if n: nat :| Voids(init, events, o, n) {
      VoidedWasStraddled(init, events, o, n);
    }
    if i: nat, m: nat, n: nat :| Straddles(init, events, o, i, m, n) {
      StraddledIsVoided(init, events, o, i, m, n);
    }
  }

  // ---------------------------------------------------------------- what a cancel or refund settles

  /** The order may be cancelled, or refunded. */
  predicate Settleable(kind: RestoreKind, o: Order) {
    match kind
    case Cancel => o.status == Pending && o.payment == Unpaid
    case Refund => o.status == Paid && o.payment == PaidUp
  }

  /** Over every run: a call goes on exactly when the order it reads may be cancelled, or refunded, at that moment. */
  lemma RestoreDecides(init: map<nat, int>, events: seq<Event>, i: nat)
    requires var s := Run(Opening(init), events);
             i < |s.restores| && s.restores[i].phase.ReadOrder? && s.restores[i].order < |s.orders| && OrderFree(s, s.restores[i].order)
    ensures var s := Run(Opening(init), events); var r := s.restores[i]; var s' := StepRestore(s, i);
            s' == s.(restores := s.restores[i := r.(phase := if Settleable(r.kind, s.orders[r.order]) then ReadItems else Finished(false))])
  {
    hide Run, OrderFree;
    RunReachable(init, events);
  }

  /**
   * Over every run: a commit closes its order, voided by a cancel and refunded
   * by a refund, with nothing of it held any more; if the call locked the order,
   * it was one that could be cancelled, or refunded, right then.
   */
  lemma RestoreSettles(init: map<nat, int>, events: seq<Event>, i: nat)
    requires CommitsRestore(Run(Opening(init), events), AdvanceRestore(i))
    ensures var s := Run(Opening(init), events); var r := s.restores[i]; var s' := StepRestore(s, i); var o := s.orders[r.order];
            && (r.locked ==> Settleable(r.kind, o))
            && |s'.orders| == |s.orders| && s'.orders == s.orders[r.order := s'.orders[r.order]]
            && var n := s'.orders[r.order];
               && n.slot == o.slot && n.status == Canceled && n.payment == (if r.kind == Cancel then Voided else Refunded)
               && |n.items| == |o.items|
               && (forall k | 0 <= k < |o.items| :: n.items[k] == Item(o.items[k].product, o.items[k].quantity, false))
               && s'.restores[i].phase == Finished(true) && s'.redis == s.redis
  {
    hide Run, OrderFree, StockSound;
    RunReachable(init, events);
    RunKeepsStockSound(init, events);
    RestoreIsSound(init, Run(Opening(init), events), i);
  }

  /** Over every run: while it gives stock back, a cancel holds the rows of the products it took, a refund those of all its products. */
  lemma RestoreLocks(init: map<nat, int>, events: seq<Event>, i: nat, p: nat)
    requires var s := Run(Opening(init), events);
             i < |s.restores| && (s.restores[i].phase.Give? || s.restores[i].phase.Commit?)
    ensures var r := Run(Opening(init), events).restores[i];
            p in RestoreRows(r) <==> exists k | 0 <= k < |r.items| :: r.items[k].product == p && (r.kind == Refund || r.items[k].stockDeducted)
  {
    hide Run, StockSound, RowsFree;
    RunKeepsStockSound(init, events);
    RestoreIsSound(init, Run(Opening(init), events), i);
  }
}
