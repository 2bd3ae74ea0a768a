/** One order per idempotency key, the order states that can be reached, and what an unlocked cancel breaks. */
module OrderIdentity {
  import opened Sums
  import opened OrderProtocol
  import opened OrderBalance
  import opened OrderStock

  // ---------------------------------------------------------------- one order per slot

  predicate DistinctSlots(orders: seq<Order>) { forall a, b | 0 <= a < b < |orders| :: orders[a].slot != orders[b].slot }

  /** The order a call names belongs to the call's slot. */
  predicate NamesOwn(orders: seq<Order>, c: Create) {
    match c.phase
    case CacheResult(o) => o < |orders| && orders[o].slot == c.slot
    case Returned(o) => o < |orders| && orders[o].slot == c.slot
    case _ => true
  }

  predicate Identified(s: State) {
    && DistinctSlots(s.orders)
    && (forall slot | slot in s.results :: s.results[slot] < |s.orders| && s.orders[s.results[slot]].slot == slot)
    && (forall i | 0 <= i < |s.creates| :: NamesOwn(s.orders, s.creates[i]))
  }

  /** Orders are appended and never change owner. */
  predicate Keeps(orders: seq<Order>, orders': seq<Order>) {
    |orders| <= |orders'| && forall o | 0 <= o < |orders| :: orders'[o].slot == orders[o].slot
  }

  lemma KeptNames(orders: seq<Order>, orders': seq<Order>, c: Create)
    requires Keeps(orders, orders') && NamesOwn(orders, c)
    ensures NamesOwn(orders', c)
  {
  }

  lemma OutsideNames(s: State, c: Create)
    requires Identified(s) && NamesOwn(s.orders, c) && !Undoing(c.phase) && !IsInside(c.phase)
    ensures NamesOwn(s.orders, Outside(s, c).0) && Outside(s, c).0.slot == c.slot
    ensures forall slot | slot in Outside(s, c).2 ::
              Outside(s, c).2[slot] < |s.orders| && s.orders[Outside(s, c).2[slot]].slot == slot
  {
  }

  lemma StepIdentified(s: State, i: nat)
    requires Identified(s) && i < |s.creates|
    ensures Identified(StepCreate(s, i))
  {
    hide Outside, Inside, Undo, NewItems, SoldRows;
    var c, s' := s.creates[i], StepCreate(s, i);
    assert NamesOwn(s.orders, c);
    if Commits(s, c) {
      forall j | 0 <= j < |s'.creates| ensures NamesOwn(s'.orders, s'.creates[j]) {
        if j != i { KeptNames(s.orders, s'.orders, s.creates[j]); }
      }
    } else if Undoing(c.phase) { UndoNames(s, c); }
    else if IsInside(c.phase) { InsideNames(s, c); }
    else { OutsideNames(s, c); }
  }

  lemma UndoNames(s: State, c: Create)
    requires Undoing(c.phase)
    ensures NamesOwn(s.orders, Undo(s, c).0)
  {
  }

  lemma InsideNames(s: State, c: Create)
    requires IsInside(c.phase)
    ensures NamesOwn(s.orders, Inside(s, c).0)
  {
    hide RowsFree, Problem, SessionRows, SetNx, IncrBy, Products;
  }

  lemma RestoreSlots(s: State, i: nat)
    requires i < |s.restores|
    ensures var s' := StepRestore(s, i);
            && |s'.orders| == |s.orders| && Keeps(s.orders, s'.orders) && s'.creates == s.creates && s'.results == s.results
  {
    hide RowsFree, SessionRows, RowsWanted, OrderFree, Eligible, Released;
  }

  lemma OrdersIdentified(s: State, s': State)
    requires Identified(s) && Keeps(s.orders, s'.orders) && DistinctSlots(s'.orders)
    requires s'.creates == s.creates
    requires forall slot | slot in s'.results :: slot in s.results && s'.results[slot] == s.results[slot]
    ensures Identified(s')
  {
    forall j | 0 <= j < |s'.creates| ensures NamesOwn(s'.orders, s'.creates[j]) { KeptNames(s.orders, s'.orders, s.creates[j]); }
  }

  lemma NextIdentified(s: State, e: Event)
    requires Identified(s)
    ensures Identified(Next(s, e))
  {
    hide StepCreate, StepRestore, Merge, ValidPayload, FindOrder, OrderFree;
    match e
    case AdvanceCreate(i) => if i < |s.creates| { StepIdentified(s, i); }
    case AdvanceRestore(i) => if i < |s.restores| { RestoreSlots(s, i); OrdersIdentified(s, Next(s, e)); }
    case BreakCreate(_) =>
    case StartCreate(_, _) =>
    case StartRestore(_, _, _) => OrdersIdentified(s, Next(s, e));
    case Pay(_) => OrdersIdentified(s, Next(s, e));
    case InsertVip(_) => OrdersIdentified(s, Next(s, e));
    case ExpireReservation(_) => OrdersIdentified(s, Next(s, e));
    case ExpireResult(_) => OrdersIdentified(s, Next(s, e));
    case Relist(_) => OrdersIdentified(s, Next(s, e));
    case CorruptRedis(_) => OrdersIdentified(s, Next(s, e));
  }

  lemma {:induction false} RunIdentified(init: map<nat, int>, events: seq<Event>)
    ensures Identified(Run(Opening(init), events))
  {
    if events != [] {
      RunIdentified(init, events[..|events| - 1]);
      NextIdentified(Run(Opening(init), events[..|events| - 1]), events[|events| - 1]);
    }
  }

  /**
   * At most one order per user and idempotency key, over every interleaving,
   * with the reservation expiring or being deleted at any moment: all calls of
   * one slot that return at all return the one order of that slot.
   */
  lemma OneOrderPerSlot(init: map<nat, int>, events: seq<Event>)
    ensures var s := Run(Opening(init), events);
            && DistinctSlots(s.orders)
            && (forall i | 0 <= i < |s.creates| && s.creates[i].phase.Returned? ::
                  var o := s.creates[i].phase.order;
                  o < |s.orders| && forall k: nat | k < |s.orders| :: s.orders[k].slot == s.creates[i].slot <==> k == o)
  {
    RunIdentified(init, events);
    var s := Run(Opening(init), events);
    forall i | 0 <= i < |s.creates| && s.creates[i].phase.Returned?
      ensures var o := s.creates[i].phase.order;
              o < |s.orders| && forall k: nat | k < |s.orders| :: s.orders[k].slot == s.creates[i].slot <==> k == o
    {
      assert NamesOwn(s.orders, s.creates[i]);
    }
  }

  // ---------------------------------------------------------------- reachable order states

  predicate Reachable(o: Order) {
    || (o.status == Pending && o.payment == Unpaid)
    || (o.status == Paid && o.payment == PaidUp)
    || (o.status == Canceled && (o.payment == Voided || o.payment == Refunded))
  }

  predicate AllReachable(s: State) { forall o | 0 <= o < |s.orders| :: Reachable(s.orders[o]) }

  lemma CreateAppends(s: State, i: nat)
    requires i < |s.creates|
    ensures var s' := StepCreate(s, i);
            && |s.orders| <= |s'.orders|
            && (forall o | 0 <= o < |s.orders| :: s'.orders[o] == s.orders[o])
            && (forall o | |s.orders| <= o < |s'.orders| :: Reachable(s'.orders[o]))
  {
    hide Outside, Inside, Undo, NewItems, SoldRows, Commits;
  }

  /** What one event can do to an order that exists. */
  lemma OrderSteps(s: State, e: Event, o: nat)
    requires o < |s.orders|
    ensures var s' := Next(s, e);
            && o < |s'.orders|
            && (|| s'.orders[o] == s.orders[o]
                || (e == Pay(o) && s.orders[o].status == Pending && s'.orders[o].status == Paid && s'.orders[o].payment == PaidUp)
                || (&& e.AdvanceRestore? && e.call < |s.restores| && s.restores[e.call].phase.Commit? && s.restores[e.call].order == o
                    && s'.orders[o] == Closed(s.restores[e.call].kind, s.orders[o])))
  {
    hide StepCreate, Merge, ValidPayload, Closed, FindOrder;
    match e
    case AdvanceCreate(i) => if i < |s.creates| { CreateAppends(s, i); }
    case AdvanceRestore(i) => if i < |s.restores| { RestoreOrder(s, i, o); }
    case _ =>
  }

  lemma RestoreOrder(s: State, i: nat, o: nat)
    requires i < |s.restores| && o < |s.orders|
    ensures var s' := StepRestore(s, i);
            && |s'.orders| == |s.orders|
            && (s'.orders[o] == s.orders[o]
                || (s.restores[i].phase.Commit? && s.restores[i].order == o && s'.orders[o] == Closed(s.restores[i].kind, s.orders[o])))
  {
    hide RowsFree, SessionRows, RowsWanted, OrderFree, Eligible, Closed;
  }

  lemma NewOrders(s: State, e: Event, o: nat)
    requires |s.orders| <= o < |Next(s, e).orders|
    ensures Reachable(Next(s, e).orders[o])
  {
    hide StepCreate, Merge, ValidPayload, Closed, FindOrder, StepRestore;
    match e
    case AdvanceCreate(i) => if i < |s.creates| { CreateAppends(s, i); }
    case AdvanceRestore(i) => if i < |s.restores| { RestoreSlots(s, i); }
    case _ =>
  }

  /** Pending unpaid, paid, cancelled or refunded: no run reaches another pair. */
  lemma {:induction false} RunReachable(init: map<nat, int>, events: seq<Event>)
    ensures AllReachable(Run(Opening(init), events))
  {
    if events != [] {
      var n := |events| - 1;
      var s := Run(Opening(init), events[..n]);
      RunReachable(init, events[..n]);
      forall o: nat | o < |Next(s, events[n]).orders| ensures Reachable(Next(s, events[n]).orders[o]) {
        if o < |s.orders| { OrderSteps(s, events[n], o); } else { NewOrders(s, events[n], o); }
      }
    }
  }

  lemma RunAppend(s: State, a: seq<Event>, b: seq<Event>)
    ensures Run(s, a + b) == Run(Run(s, a), b)
    decreases |b|
  {
    if b == [] {
      assert a + b == a;
    } else {
      assert (a + b)[..|a + b| - 1] == a + b[..|b| - 1];
      RunAppend(s, a, b[..|b| - 1]);
    }
  }

  /** A paid order, in runs whose cancels and refunds lock the order row, is only ever refunded. */
  lemma {:induction false} PaidIsOnlyRefunded(init: map<nat, int>, events: seq<Event>, more: seq<Event>, o: nat)
    requires AllLocked(events) && AllLocked(more)
    requires o < |Run(Opening(init), events).orders| && Run(Opening(init), events).orders[o].payment == PaidUp
    ensures var s := Run(Run(Opening(init), events), more);
            o < |s.orders| && (s.orders[o].payment == PaidUp || s.orders[o].payment == Refunded)
    decreases |more|
  {
    if more != [] {
      var n := |more| - 1;
      var s := Run(Run(Opening(init), events), more[..n]);
      PaidIsOnlyRefunded(init, events, more[..n], o);
      RunAppend(Opening(init), events, more[..n]);
      RunKeepsStockSound(init, events + more[..n]);
      RunLocked(init, events + more[..n]);
      RunReachable(init, events + more[..n]);
      assert Reachable(s.orders[o]);
      OrderSteps(s, more[n], o);
      if more[n].AdvanceRestore? && more[n].call < |s.restores| { RestoreIsSound(init, s, more[n].call); }
    }
  }

  // ---------------------------------------------------------------- an unlocked cancel

  /** One more event of a run. */
  lemma RunStep(s: State, events: seq<Event>, k: nat, t: State, t': State)
    requires k < |events| && Run(s, events[..k]) == t && Next(t, events[k]) == t'
    ensures Run(s, events[..k + 1]) == t'
  {
    hide Next;
    assert events[..k + 1][..k] == events[..k];
  }

  const SHOPPER := Slot(1, "order-key")
  const READER := Restore(Cancel, 0, false, ReadItems, [], map[], [])

  /** A pending order; the payment sync reads it without a lock, the payment arrives, the sync cancels. */
  const VOIDS_PAID: seq<Event> := [
    InsertVip(SHOPPER), StartRestore(Cancel, 0, false), AdvanceRestore(0), Pay(0),
    AdvanceRestore(0), AdvanceRestore(0), AdvanceRestore(0), AdvanceRestore(0)]

  const BLANK := Opening(map[])
  const PAID_ORDER := Order(SHOPPER, [], Paid, PaidUp)
  const VOIDED_ORDER := Order(SHOPPER, [], Canceled, Voided)

  function Reading(order: Order, phase: RestorePhase): State {
    BLANK.(orders := [order], restores := [READER.(phase := phase)])
  }

  lemma VoidingReads()
    ensures Next(BLANK, VOIDS_PAID[0]) == BLANK.(orders := [Order(SHOPPER, [], Pending, Unpaid)])
    ensures Next(BLANK.(orders := [Order(SHOPPER, [], Pending, Unpaid)]), VOIDS_PAID[1])
         == Reading(Order(SHOPPER, [], Pending, Unpaid), ReadOrder)
    ensures Next(Reading(Order(SHOPPER, [], Pending, Unpaid), ReadOrder), VOIDS_PAID[2])
         == Reading(Order(SHOPPER, [], Pending, Unpaid), ReadItems)
    ensures Next(Reading(Order(SHOPPER, [], Pending, Unpaid), ReadItems), VOIDS_PAID[3]) == Reading(PAID_ORDER, ReadItems)
  {
  }

  lemma VoidingWrites()
    ensures Next(Reading(PAID_ORDER, ReadItems), VOIDS_PAID[4]) == Reading(PAID_ORDER, LoadProducts)
    ensures Next(Reading(PAID_ORDER, LoadProducts), VOIDS_PAID[5]) == Reading(PAID_ORDER, Give(0))
    ensures Next(Reading(PAID_ORDER, Give(0)), VOIDS_PAID[6]) == Reading(PAID_ORDER, Commit)
    ensures Next(Reading(PAID_ORDER, Commit), VOIDS_PAID[7]) == Reading(VOIDED_ORDER, Finished(true))
  {
    assert Released([]) == [];
  }

  /** Without the order lock a cancel can void an order that was paid while it ran. */
  lemma UnlockedCancelVoidsPaidOrder()
    ensures Run(BLANK, VOIDS_PAID[..4]).orders == [PAID_ORDER]
    ensures Run(BLANK, VOIDS_PAID).orders == [VOIDED_ORDER]
  {
    hide Next;
    VoidingReads();
    VoidingWrites();
    var pending := Order(SHOPPER, [], Pending, Unpaid);
    RunStep(BLANK, VOIDS_PAID, 0, BLANK, BLANK.(orders := [pending]));
    RunStep(BLANK, VOIDS_PAID, 1, BLANK.(orders := [pending]), Reading(pending, ReadOrder));
    RunStep(BLANK, VOIDS_PAID, 2, Reading(pending, ReadOrder), Reading(pending, ReadItems));
    RunStep(BLANK, VOIDS_PAID, 3, Reading(pending, ReadItems), Reading(PAID_ORDER, ReadItems));
    RunStep(BLANK, VOIDS_PAID, 4, Reading(PAID_ORDER, ReadItems), Reading(PAID_ORDER, LoadProducts));
    RunStep(BLANK, VOIDS_PAID, 5, Reading(PAID_ORDER, LoadProducts), Reading(PAID_ORDER, Give(0)));
    RunStep(BLANK, VOIDS_PAID, 6, Reading(PAID_ORDER, Give(0)), Reading(PAID_ORDER, Commit));
    RunStep(BLANK, VOIDS_PAID, 7, Reading(PAID_ORDER, Commit), Reading(VOIDED_ORDER, Finished(true)));
    assert VOIDS_PAID[..8] == VOIDS_PAID;
  }

  const SHELF := Opening(map[1 := 5])
  const TWO := Line(1, 2)

  /** One order of two units is placed. */
  const PLACING: seq<Event> := [
    StartCreate(SHOPPER, [TWO]), AdvanceCreate(0), AdvanceCreate(0), AdvanceCreate(0), AdvanceCreate(0),
    AdvanceCreate(0), AdvanceCreate(0), AdvanceCreate(0), AdvanceCreate(0)]

  const CALL := Create(SHOPPER, [TWO], Lookup, map[], [], [], None)
  const LOADED := CALL.(phase := Seed(0), session := map[1 := 5])
  const DEDUCTED := LOADED.(phase := Seed(1), deducted := [TWO], log := [Line(1, -2)])
  const HELD := Item(1, 2, true)
  const OPEN_ORDER := Order(SHOPPER, [HELD], Pending, Unpaid)
  const PLACED := State(map[1 := 3], {}, [OPEN_ORDER], map[1 := 3], {SHOPPER}, map[],
                        [DEDUCTED.(phase := CacheResult(0), placed := Some(0))], [])

  function Calling(c: Create): State { SHELF.(creates := [c]) }

  function Locking(c: Create, redis: map<nat, int>): State { SHELF.(creates := [c], reserved := {SHOPPER}, redis := redis) }

  lemma PlacingStarts()
    ensures Next(SHELF, PLACING[0]) == Calling(CALL)
    ensures Next(Calling(CALL), PLACING[1]) == Calling(CALL.(phase := ReadCache))
    ensures Next(Calling(CALL.(phase := ReadCache)), PLACING[2]) == Calling(CALL.(phase := Reserve))
    ensures Next(Calling(CALL.(phase := Reserve)), PLACING[3]) == Locking(CALL.(phase := LoadRows), map[])
  {
    assert [TWO][..0] == [];
    assert Merge([TWO]) == [TWO];
  }

  lemma PlacingLoads()
    ensures Next(Locking(CALL.(phase := LoadRows), map[]), PLACING[4]) == Locking(LOADED, map[])
  {
    assert [TWO][1..] == [];
    assert Problem(SHELF.stock, SHELF.offSale, [TWO]).None?;
    assert [TWO][0].product in Products([TWO]);
    assert SessionRows(SHELF.stock, Products([TWO])) == map[1 := 5];
  }

  lemma DeductCall(s: State, c: Create)
    requires c == LOADED.(phase := Deduct(0)) && s.redis == map[1 := 5]
    ensures Inside(s, c) == (DEDUCTED, map[1 := 3])
  {
    assert IncrBy(s.redis, 1, -2) == map[1 := 3];
    assert c.deducted + [c.lines[0]] == [TWO];
    assert c.log + [Line(1, -2)] == [Line(1, -2)];
  }

  lemma PlacingDeducts()
    ensures Next(Locking(LOADED.(phase := Deduct(0)), map[1 := 5]), PLACING[6]) == Locking(DEDUCTED, map[1 := 3])
  {
    hide Inside, FindOrder;
    var c := LOADED.(phase := Deduct(0));
    DeductCall(Locking(c, map[1 := 5]), c);
  }

  lemma PlacingSeeds()
    ensures Next(Locking(LOADED, map[]), PLACING[5]) == Locking(LOADED.(phase := Deduct(0)), map[1 := 5])
    ensures Next(Locking(DEDUCTED, map[1 := 3]), PLACING[7]) == Locking(DEDUCTED.(phase := Persist), map[1 := 3])
  {
  }

  lemma PlacingCommits()
    ensures Next(Locking(DEDUCTED.(phase := Persist), map[1 := 3]), PLACING[8]) == PLACED
  {
    SumOne(TWO, QtyOn(1));
    assert NewItems([TWO], map[1 := 5]) == [HELD];
    assert SoldRows([TWO], map[1 := 5]) == map[1 := 3];
  }

  lemma PlacingRun()
    ensures Run(SHELF, PLACING) == PLACED
  {
    hide Next;
    PlacingStarts();
    PlacingLoads();
    PlacingSeeds();
    PlacingDeducts();
    PlacingCommits();
    RunStep(SHELF, PLACING, 0, SHELF, Calling(CALL));
    RunStep(SHELF, PLACING, 1, Calling(CALL), Calling(CALL.(phase := ReadCache)));
    RunStep(SHELF, PLACING, 2, Calling(CALL.(phase := ReadCache)), Calling(CALL.(phase := Reserve)));
    RunStep(SHELF, PLACING, 3, Calling(CALL.(phase := Reserve)), Locking(CALL.(phase := LoadRows), map[]));
    RunStep(SHELF, PLACING, 4, Locking(CALL.(phase := LoadRows), map[]), Locking(LOADED, map[]));
    RunStep(SHELF, PLACING, 5, Locking(LOADED, map[]), Locking(LOADED.(phase := Deduct(0)), map[1 := 5]));
    RunStep(SHELF, PLACING, 6, Locking(LOADED.(phase := Deduct(0)), map[1 := 5]), Locking(DEDUCTED, map[1 := 3]));
    RunStep(SHELF, PLACING, 7, Locking(DEDUCTED, map[1 := 3]), Locking(DEDUCTED.(phase := Persist), map[1 := 3]));
    RunStep(SHELF, PLACING, 8, Locking(DEDUCTED.(phase := Persist), map[1 := 3]), PLACED);
    assert PLACING[..9] == PLACING;
  }

  /** Two unlocked cancels of that order, one after the other, both read it before either commits. */
  const READS: seq<Event> := [
    StartRestore(Cancel, 0, false), StartRestore(Cancel, 0, false),
    AdvanceRestore(0), AdvanceRestore(0), AdvanceRestore(1), AdvanceRestore(1)]

  const LOADER := READER.(phase := LoadProducts, items := [HELD])

  function Cancelling(a: Restore, b: Restore): State { PLACED.(restores := [a, b]) }

  lemma ReadsBoth()
    ensures Run(PLACED, READS) == Cancelling(LOADER, LOADER)
  {
    var opener := READER.(phase := ReadOrder);
    ReadsSteps(opener);
    hide Next;
    RunStep(PLACED, READS, 0, PLACED, PLACED.(restores := [opener]));
    RunStep(PLACED, READS, 1, PLACED.(restores := [opener]), Cancelling(opener, opener));
    RunStep(PLACED, READS, 2, Cancelling(opener, opener), Cancelling(READER, opener));
    RunStep(PLACED, READS, 3, Cancelling(READER, opener), Cancelling(LOADER, opener));
    RunStep(PLACED, READS, 4, Cancelling(LOADER, opener), Cancelling(LOADER, READER));
    RunStep(PLACED, READS, 5, Cancelling(LOADER, READER), Cancelling(LOADER, LOADER));
    assert READS[..6] == READS;
  }

  lemma ReadsSteps(opener: Restore)
    requires opener == READER.(phase := ReadOrder)
    ensures Next(PLACED, READS[0]) == PLACED.(restores := [opener])
    ensures Next(PLACED.(restores := [opener]), READS[1]) == Cancelling(opener, opener)
    ensures Next(Cancelling(opener, opener), READS[2]) == Cancelling(READER, opener)
    ensures Next(Cancelling(READER, opener), READS[3]) == Cancelling(LOADER, opener)
    ensures Next(Cancelling(LOADER, opener), READS[4]) == Cancelling(LOADER, READER)
    ensures Next(Cancelling(LOADER, READER), READS[5]) == Cancelling(LOADER, LOADER)
  {
  }

  function Writes(i: nat): seq<Event> { [AdvanceRestore(i), AdvanceRestore(i), AdvanceRestore(i), AdvanceRestore(i)] }

  /** The state once cancel i has given its units back to a shelf of n and committed. */
  function Written(s: State, i: nat, n: int): State
    requires i < |s.restores| && |s.orders| == 1
  {
    s.(stock := map[1 := n + 2], redis := map[1 := n + 2], orders := [Closed(Cancel, s.orders[0])],
      restores := s.restores[i := LOADER.(phase := Finished(true), session := map[1 := n + 2])])
  }

  lemma WritesCommit(s: State, i: nat, n: int)
    requires i < |s.restores| && s.restores[i] == LOADER && |s.orders| == 1
    requires s.stock == map[1 := n] && n >= 0 && s.redis == map[1 := n] && RowsFree(s, {1}) && OrderFree(s, 0)
    ensures Run(s, Writes(i)) == Written(s, i, n)
  {
    var r1 := LOADER.(phase := Give(0), session := map[1 := n]);
    var r2 := LOADER.(phase := Give(1), session := map[1 := n + 2], added := [TWO]);
    var s1 := s.(restores := s.restores[i := r1]);
    var s2 := s.(restores := s.restores[i := r2], redis := map[1 := n + 2]);
    var s3 := s2.(restores := s.restores[i := r2.(phase := Commit)]);
    WritesLoad(s, i, n);
    WritesGive(s, i, n);
    WritesClose(s, i, n);
    hide Next, RowsFree, OrderFree, Written;
    RunStep(s, Writes(i), 0, s, s1);
    RunStep(s, Writes(i), 1, s1, s2);
    RunStep(s, Writes(i), 2, s2, s3);
    RunStep(s, Writes(i), 3, s3, Written(s, i, n));
    assert Writes(i)[..4] == Writes(i);
  }

  lemma WritesLoad(s: State, i: nat, n: int)
    requires i < |s.restores| && s.restores[i] == LOADER && s.stock == map[1 := n] && RowsFree(s, {1})
    ensures Next(s, AdvanceRestore(i)) == s.(restores := s.restores[i := LOADER.(phase := Give(0), session := map[1 := n])])
  {
    hide RowsFree;
    assert LOADER.items[0].product in HeldProducts(LOADER.items);
    assert RowsWanted(LOADER) == {1};
    assert SessionRows(s.stock, {1}) == map[1 := n];
  }

  lemma WritesGive(s: State, i: nat, n: int)
    requires i < |s.restores| && n >= 0 && s.redis == map[1 := n]
    ensures var r1 := LOADER.(phase := Give(0), session := map[1 := n]);
            var r2 := LOADER.(phase := Give(1), session := map[1 := n + 2], added := [TWO]);
            var s2 := s.(restores := s.restores[i := r2], redis := map[1 := n + 2]);
            && Next(s.(restores := s.restores[i := r1]), AdvanceRestore(i)) == s2
            && Next(s2, AdvanceRestore(i)) == s2.(restores := s.restores[i := r2.(phase := Commit)])
  {
    var r1 := LOADER.(phase := Give(0), session := map[1 := n]);
    var r2 := LOADER.(phase := Give(1), session := map[1 := n + 2], added := [TWO]);
    assert r1.session[1 := n + 2] == r2.session;
    assert r1.added + [TWO] == [TWO];
    assert s.restores[i := r1][i := r2] == s.restores[i := r2];
    assert IncrBy(s.redis, 1, 2) == map[1 := n + 2];
    assert s.restores[i := r2][i := r2.(phase := Commit)] == s.restores[i := r2.(phase := Commit)];
  }

  lemma WritesClose(s: State, i: nat, n: int)
    requires i < |s.restores| && |s.orders| == 1 && s.stock == map[1 := n] && OrderFree(s, 0)
    ensures var r2 := LOADER.(phase := Give(1), session := map[1 := n + 2], added := [TWO]);
            var s2 := s.(restores := s.restores[i := r2], redis := map[1 := n + 2]);
            Next(s2.(restores := s.restores[i := r2.(phase := Commit)]), AdvanceRestore(i)) == Written(s, i, n)
  {
    hide Closed;
    var r3 := LOADER.(phase := Commit, session := map[1 := n + 2], added := [TWO]);
    var r4 := LOADER.(phase := Finished(true), session := map[1 := n + 2]);
    var s3 := s.(restores := s.restores[i := r3], redis := map[1 := n + 2]);
    assert OrderFree(s3, 0);
    assert s.stock + r3.session == map[1 := n + 2];
    assert s.restores[i := r3][i := r4] == s.restores[i := r4];
    assert s.orders[0 := Closed(Cancel, s.orders[0])] == [Closed(Cancel, s.orders[0])];
  }

  /** Without the order lock two cancels can put the same units back twice: seven on a shelf that opened with five. */
  lemma UnlockedCancelsRestoreTwice()
    ensures var s := Run(SHELF, PLACING + READS + Writes(0) + Writes(1));
            SHELF.stock == map[1 := 5] && s.stock == map[1 := 7] && s.redis == map[1 := 7]
  {
    hide Next, Run;
    PlacingRun();
    ReadsBoth();
    var s, t := Cancelling(LOADER, LOADER), Written(Cancelling(LOADER, LOADER), 0, 3);
    WritesCommit(s, 0, 3);
    WritesCommit(t, 1, 5);
    RunAppend(SHELF, PLACING, READS);
    RunAppend(SHELF, PLACING + READS, Writes(0));
    RunAppend(SHELF, PLACING + READS + Writes(0), Writes(1));
  }
}
