/**
 * What unlocked cancels cost: over every run the shelf and the units orders
 * hold make up the opening stock plus what stale commits put back twice.
 */
module OrderBalance {
  import opened Sums
  import opened OrderProtocol
  import opened OrderStock

  function Held(s: State, p: nat): int { Sum(s.orders, DeductedOn(p)) }

  /** The event is a cancel or refund that commits now. */
  predicate CommitsRestore(s: State, e: Event) {
    && e.AdvanceRestore? && e.call < |s.restores| && s.restores[e.call].phase.Commit?
    && s.restores[e.call].order < |s.orders| && (s.restores[e.call].locked || OrderFree(s, s.restores[e.call].order))
  }

  /** Units of p a commit puts on the shelf beyond those its order still holds. */
  function StepSurplus(s: State, e: Event, p: nat): int {
    if !CommitsRestore(s, e) then 0
    else Sum(s.restores[e.call].items, HeldOn(p)) - DeductedOn(p)(s.orders[s.restores[e.call].order])
  }

  /** The items a committing call has read still hold as much of p as its order does. */
  predicate FreshCommit(s: State, e: Event, p: nat) {
    CommitsRestore(s, e) ==> Sum(s.restores[e.call].items, HeldOn(p)) == DeductedOn(p)(s.orders[s.restores[e.call].order])
  }

  function Surplus(init: map<nat, int>, events: seq<Event>, p: nat): int {
    if events == [] then 0
    else
      var front := events[..|events| - 1];
      Surplus(init, front, p) + StepSurplus(Run(Opening(init), front), events[|events| - 1], p)
  }

  // ---------------------------------------------------------------- one step

  predicate KeepsBalance(s: State, s': State, p: nat) {
    p in s.stock && p in s'.stock && s'.stock[p] + Held(s', p) == s.stock[p] + Held(s, p)
  }

  lemma SameShelfBalance(s: State, s': State, p: nat)
    requires SameShelf(s, s') && p in s.stock
    ensures KeepsBalance(s, s', p)
  {
  }

  lemma PersistBalance(s: State, i: nat, p: nat)
    requires i < |s.creates| && Commits(s, s.creates[i]) && CreateSound(s.stock, s.creates[i]) && p in s.stock
    ensures KeepsBalance(s, StepCreate(s, i), p)
  {
    hide StepCreate, FindOrder, CreateSound, SoldRows, NewItems;
    var c, s' := s.creates[i], StepCreate(s, i);
    PersistShape(s, i);
    SoldKeys(s.stock, c);
    SoldRow(s.stock, c, p);
    SumPush(s.orders, s'.orders[|s.orders|], DeductedOn(p));
  }

  lemma CreateBalance(init: map<nat, int>, s: State, i: nat, p: nat)
    requires StockSound(init, s) && i < |s.creates| && p in s.stock
    ensures KeepsBalance(s, StepCreate(s, i), p)
  {
    hide StockSound, StepCreate, Commits, KeepsBalance;
    CreateIsSound(init, s, i);
    if Commits(s, s.creates[i]) {
      PersistBalance(s, i, p);
    } else {
      CreateStepShape(s, i);
      SameShelfBalance(s, StepCreate(s, i), p);
    }
  }

  /** A restore that does not commit leaves shelf and orders alone. */
  lemma RestoreWaits(s: State, i: nat)
    requires i < |s.restores| && !CommitsRestore(s, AdvanceRestore(i))
    ensures SameShelf(s, StepRestore(s, i))
  {
    hide RowsFree, SessionRows, RowsWanted, OrderFree, Eligible, Closed;
  }

  /** The flags an order has lost since its items were read are what its commit gives back once too often. */
  lemma {:induction false} FadedHolds(earlier: seq<Item>, later: seq<Item>, p: nat)
    requires Faded(earlier, later) && forall k | 0 <= k < |earlier| :: earlier[k].quantity >= 1
    ensures Sum(later, HeldOn(p)) <= Sum(earlier, HeldOn(p))
  {
    if earlier != [] {
      FadedHolds(earlier[..|earlier| - 1], later[..|later| - 1], p);
    }
  }

  lemma CommitBalance(init: map<nat, int>, s: State, i: nat, p: nat)
    requires StockSound(init, s) && CommitsRestore(s, AdvanceRestore(i)) && p in s.stock
    ensures var s' := StepRestore(s, i); var extra := StepSurplus(s, AdvanceRestore(i), p);
            p in s'.stock && s'.stock[p] + Held(s', p) == s.stock[p] + Held(s, p) + extra && extra >= 0
    ensures s.restores[i].locked ==> StepSurplus(s, AdvanceRestore(i), p) == 0
  {
    hide StockSound, OrderFree, Eligible, OrdersSound;
    var r := s.restores[i];
    RestoreIsSound(init, s, i);
    var o := s.orders[r.order];
    assert r.items[..|r.items|] == r.items;
    SumUpdate(s.orders, r.order, Closed(r.kind, o), DeductedOn(p));
    SumZero(Released(o.items), HeldOn(p));
    FadedHolds(r.items, o.items, p);
    if p !in r.session {
      NotWanted(r, p);
      SumAtLeast(o.items, HeldOn(p));
    }
  }

  lemma PayBalance(s: State, o: nat, paid: Order, p: nat)
    requires o < |s.orders| && paid.items == s.orders[o].items && p in s.stock
    ensures KeepsBalance(s, s.(orders := s.orders[o := paid]), p)
  {
    SumUpdate(s.orders, o, paid, DeductedOn(p));
  }

  lemma OtherBalance(s: State, e: Event, p: nat)
    requires !e.AdvanceCreate? && !e.AdvanceRestore? && p in s.stock
    ensures KeepsBalance(s, Next(s, e), p)
  {
    hide FindOrder, Merge, ValidPayload, OrderFree, InRowSection;
    match e
    case Pay(o) =>
      if Next(s, e) != s { PayBalance(s, o, s.orders[o].(status := Paid, payment := PaidUp), p); }
    case InsertVip(slot) =>
      if Next(s, e) != s { SumPush(s.orders, Next(s, e).orders[|s.orders|], DeductedOn(p)); }
    case _ =>
  }

  lemma StepBalance(init: map<nat, int>, s: State, e: Event, p: nat)
    requires StockSound(init, s) && p in s.stock
    ensures var s' := Next(s, e);
            p in s'.stock && s'.stock[p] + Held(s', p) == s.stock[p] + Held(s, p) + StepSurplus(s, e, p) && StepSurplus(s, e, p) >= 0
  {
    hide StockSound, StepCreate, StepRestore;
    match e
    case AdvanceCreate(i) =>
      if i < |s.creates| { CreateBalance(init, s, i, p); }
    case AdvanceRestore(i) =>
      if CommitsRestore(s, e) { CommitBalance(init, s, i, p); }
      else if i < |s.restores| { RestoreWaits(s, i); SameShelfBalance(s, StepRestore(s, i), p); }
    case _ => OtherBalance(s, e, p);
  }

  // ---------------------------------------------------------------- every run

  lemma Stocked(init: map<nat, int>, s: State, p: nat)
    requires StockSound(init, s) && p in init
    ensures p in s.stock && (if init[p] >= 0 then s.stock[p] >= 0 else s.stock[p] == init[p])
  {
  }

  /**
   * Over every interleaving, with unlocked cancels and with Redis holding
   * anything at all: no finite product goes below zero, an unlimited one never
   * moves, and the shelf plus the units orders hold is the opening stock plus
   * the surplus of the commits so far.
   */
  lemma {:induction false} RunBalancesStock(init: map<nat, int>, events: seq<Event>, p: nat)
    requires p in init
    ensures var s := Run(Opening(init), events);
            && p in s.stock && s.stock[p] + Held(s, p) == init[p] + Surplus(init, events, p)
            && (if init[p] >= 0 then s.stock[p] >= 0 else s.stock[p] == init[p])
            && Surplus(init, events, p) >= 0
  {
    hide StockSound, Next, CommitsRestore, StepSurplus;
    RunKeepsStockSound(init, events);
    Stocked(init, Run(Opening(init), events), p);
    if events == [] {
      assert Held(Opening(init), p) == 0;
    } else {
      var n := |events| - 1;
      RunBalancesStock(init, events[..n], p);
      RunKeepsStockSound(init, events[..n]);
      StepBalance(init, Run(Opening(init), events[..n]), events[n], p);
    }
  }

  predicate AllFresh(init: map<nat, int>, events: seq<Event>, p: nat) {
    forall n | 0 <= n < |events| :: FreshCommit(Run(Opening(init), events[..n]), events[n], p)
  }

  lemma AllFreshStep(init: map<nat, int>, events: seq<Event>, p: nat)
    requires events != []
    ensures var n := |events| - 1;
            AllFresh(init, events, p) <==> AllFresh(init, events[..n], p) && FreshCommit(Run(Opening(init), events[..n]), events[n], p)
  {
    hide FreshCommit, Run;
    var n := |events| - 1;
    assert forall m | 0 <= m < n :: events[..n][..m] == events[..m] && events[..n][m] == events[m];
  }

  lemma {:induction false} SurplusIffStale(init: map<nat, int>, events: seq<Event>, p: nat)
    requires p in init
    ensures Surplus(init, events, p) == 0 <==> AllFresh(init, events, p)
  {
    if events == [] {
    } else {
      hide AllFresh, Next, StockSound, CommitsRestore;
      var n := |events| - 1;
      var s := Run(Opening(init), events[..n]);
      SurplusIffStale(init, events[..n], p);
      RunBalancesStock(init, events[..n], p);
      RunKeepsStockSound(init, events[..n]);
      StepBalance(init, s, events[n], p);
      AllFreshStep(init, events, p);
    }
  }

  /**
   * Stock of a product is conserved by a run exactly when every cancel and
   * refund in it committed while its order still held what the call had read.
   */
  lemma RunConservesIffFresh(init: map<nat, int>, events: seq<Event>, p: nat)
    requires p in init
    ensures var s := Run(Opening(init), events);
            p in s.stock && (s.stock[p] + Held(s, p) == init[p] <==> AllFresh(init, events, p))
  {
    hide AllFresh, Run, Surplus, Held;
    RunBalancesStock(init, events, p);
    SurplusIffStale(init, events, p);
  }

  /** One more event keeps the balance of a product exactly when it is not a stale commit. */
  lemma CommitConservesIffFresh(init: map<nat, int>, events: seq<Event>, e: Event, p: nat)
    requires p in init
    ensures var s := Run(Opening(init), events); var s' := Next(s, e);
            && p in s.stock && p in s'.stock
            && (s'.stock[p] + Held(s', p) == s.stock[p] + Held(s, p) <==> FreshCommit(s, e, p))
  {
    hide Run, Next, StockSound, CommitsRestore, Held;
    RunKeepsStockSound(init, events);
    Stocked(init, Run(Opening(init), events), p);
    StepBalance(init, Run(Opening(init), events), e, p);
  }

  // ---------------------------------------------------------------- runs in which everybody locks

  /** Every cancel and refund reads its order row FOR UPDATE. */
  predicate AllLocked(events: seq<Event>) {
    forall k | 0 <= k < |events| :: events[k].StartRestore? ==> events[k].locked
  }

  predicate RestoresLocked(s: State) { forall i | 0 <= i < |s.restores| :: s.restores[i].locked }

  lemma StepLocked(s: State, e: Event)
    requires RestoresLocked(s) && (e.StartRestore? ==> e.locked)
    ensures RestoresLocked(Next(s, e))
  {
    hide FindOrder, Merge, ValidPayload, OrderFree, RowsFree, RowsWanted, SessionRows, Eligible, Closed, Outside, Inside, Undo, Commits, NewItems, SoldRows;
  }

  lemma {:induction false} RunLocked(init: map<nat, int>, events: seq<Event>)
    requires AllLocked(events)
    ensures RestoresLocked(Run(Opening(init), events))
  {
    hide Next;
    if events == [] {
    } else {
      var n := |events| - 1;
      RunLocked(init, events[..n]);
      StepLocked(Run(Opening(init), events[..n]), events[n]);
    }
  }

  lemma {:induction false} LockedIsFresh(init: map<nat, int>, events: seq<Event>, p: nat)
    requires AllLocked(events) && p in init
    ensures AllFresh(init, events, p)
  {
    if events == [] {
    } else {
      hide AllFresh, Next, StockSound;
      var n := |events| - 1;
      var s := Run(Opening(init), events[..n]);
      LockedIsFresh(init, events[..n], p);
      RunLocked(init, events[..n]);
      RunKeepsStockSound(init, events[..n]);
      Stocked(init, s, p);
      if CommitsRestore(s, events[n]) { CommitBalance(init, s, events[n].call, p); }
      AllFreshStep(init, events, p);
    }
  }

  /** When every cancel locks its order row, nothing is ever put back twice. */
  lemma LockedRunConservesStock(init: map<nat, int>, events: seq<Event>, p: nat)
    requires AllLocked(events) && p in init
    ensures var s := Run(Opening(init), events);
            p in s.stock && s.stock[p] + Held(s, p) == init[p]
  {
    hide AllFresh, Run, AllLocked;
    LockedIsFresh(init, events, p);
    RunConservesIffFresh(init, events, p);
  }
}
