/**
 * Placing, cancelling and refunding orders over two stock stores.  A call is a
 * record with a program counter; one event moves one call by one database
 * statement or one Redis command, so a sequence of events is an interleaving.
 * A blocked or meaningless event changes nothing.
 */
module OrderProtocol {
  import opened Sums

  datatype Line = Line(product: nat, quantity: int)

  datatype Item = Item(product: nat, quantity: int, stockDeducted: bool)

  datatype Status = Pending | Paid | Canceled

  datatype Payment = Unpaid | PaidUp | Voided | Refunded

  /** The unique key of an order: user and idempotency key. */
  datatype Slot = Slot(user: nat, key: string)

  datatype Order = Order(slot: Slot, items: seq<Item>, status: Status, payment: Payment)

  datatype CreateError = IdempotencyConflict | ProductNotAvailable | InsufficientStock | DuplicateOrder | OtherError

  /** Where a create_order call stands: the statement it will execute next. */
  datatype CreatePhase =
    | Lookup
    | ReadCache
    | Reserve
    | LoadRows
    | Seed(line: nat)
    | Deduct(line: nat)
    | UndoInner(undone: nat)
    | Persist
    | ConflictUndo(undone: nat)
    | ConflictUnlock
    | Relookup
    | Abort(error: CreateError)
    | UndoOuter(error: CreateError, undone: nat)
    | Unlock(error: CreateError)
    | CacheResult(order: nat)
    | Returned(order: nat)
    | Raised(error: CreateError)

  /**
   * A create_order call.  `session` holds the product rows as this transaction
   * sees them, `deducted` is the list of that name in the code, `log` records
   * every Redis increment the call has made, `placed` the order it committed.
   */
  datatype Create = Create(slot: Slot, lines: seq<Line>, phase: CreatePhase, session: map<nat, int>,
                           deducted: seq<Line>, log: seq<Line>, placed: Option<nat>)

  datatype RestoreKind = Cancel | Refund

  datatype RestorePhase = ReadOrder | ReadItems | LoadProducts | Give(item: nat) | Commit | Finished(changed: bool)

  /** A cancel or refund; `locked` says whether the order row is read FOR UPDATE, as every refund does. */
  datatype Restore = Restore(kind: RestoreKind, order: nat, locked: bool, phase: RestorePhase, items: seq<Item>,
                             session: map<nat, int>, added: seq<Line>)

  datatype State = State(
    stock: map<nat, int>, offSale: set<nat>, orders: seq<Order>,
    redis: map<nat, int>, reserved: set<Slot>, results: map<Slot, nat>,
    creates: seq<Create>, restores: seq<Restore>)

  datatype Event =
    | StartCreate(slot: Slot, payload: seq<Line>)
    | AdvanceCreate(call: nat)
    | BreakCreate(call: nat)
    | StartRestore(kind: RestoreKind, order: nat, locked: bool)
    | AdvanceRestore(call: nat)
    | Pay(order: nat)
    | InsertVip(slot: Slot)
    | ExpireReservation(slot: Slot)
    | ExpireResult(slot: Slot)
    | Relist(offSale: set<nat>)
    | CorruptRedis(redis: map<nat, int>)

  // ---------------------------------------------------------------- measures

  function QtyOn(p: nat): Line -> int { (l: Line) => if l.product == p then l.quantity else 0 }

  function HeldOn(p: nat): Item -> int { (i: Item) => if i.product == p && i.stockDeducted then i.quantity else 0 }

  /** Units of p that an order still holds from the shelf. */
  function DeductedOn(p: nat): Order -> int { (o: Order) => Sum(o.items, HeldOn(p)) }

  /** Redis decrements a call has made and not yet undone. */
  function Outstanding(c: Create): seq<Line> {
    if Undoing(c.phase) then
      if Undone(c.phase) <= |c.deducted| then c.deducted[..|c.deducted| - Undone(c.phase)] else []
    else c.deducted
  }

  function OutOn(p: nat): Create -> int { (c: Create) => if c.placed.Some? then 0 else Sum(Outstanding(c), QtyOn(p)) }

  function AddedOn(p: nat): Restore -> int { (r: Restore) => Sum(r.added, QtyOn(p)) }

  // ---------------------------------------------------------------- merging the payload

  function IndexOf(lines: seq<Line>, p: nat): (k: nat)
    ensures k <= |lines|
    ensures k < |lines| ==> lines[k].product == p
    ensures forall j | 0 <= j < k :: lines[j].product != p
  {
    if lines == [] || lines[0].product == p then 0 else 1 + IndexOf(lines[1..], p)
  }

  function AddLine(lines: seq<Line>, l: Line): seq<Line> {
    var k := IndexOf(lines, l.product);
    if k < |lines| then lines[k := Line(l.product, lines[k].quantity + l.quantity)] else lines + [l]
  }

  /** One line per product, in order of first mention. */
  function Merge(payload: seq<Line>): seq<Line> {
    if payload == [] then [] else AddLine(Merge(payload[..|payload| - 1]), payload[|payload| - 1])
  }

  predicate DistinctLines(lines: seq<Line>) { forall a, b | 0 <= a < b < |lines| :: lines[a].product != lines[b].product }

  predicate ValidPayload(payload: seq<Line>) {
    1 <= |payload| <= 20 && forall k | 0 <= k < |payload| :: payload[k].product > 0 && 1 <= payload[k].quantity <= 99
  }

  // ---------------------------------------------------------------- rows and locks

  function Products(lines: seq<Line>): set<nat> { set k | 0 <= k < |lines| :: lines[k].product }

  function ItemProducts(items: seq<Item>): set<nat> { set k | 0 <= k < |items| :: items[k].product }

  function HeldProducts(items: seq<Item>): set<nat> { set k | 0 <= k < |items| && items[k].stockDeducted :: items[k].product }

  predicate InRowSection(p: CreatePhase) { p.Seed? || p.Deduct? || p.UndoInner? || p.Persist? }

  /** Product rows locked by a call's open transaction. */
  function CreateRows(c: Create): set<nat> { if InRowSection(c.phase) then Products(c.lines) else {} }

  function RestoreRows(r: Restore): set<nat> { if r.phase.Give? || r.phase.Commit? then r.session.Keys else {} }

  /** A cancel locks the rows it will put stock back into, a refund every product of the order. */
  function RowsWanted(r: Restore): set<nat> { if r.kind.Cancel? then HeldProducts(r.items) else ItemProducts(r.items) }

  predicate HoldsOrder(r: Restore, o: nat) {
    r.locked && r.order == o && (r.phase.ReadItems? || r.phase.LoadProducts? || r.phase.Give? || r.phase.Commit?)
  }

  predicate RowsFree(s: State, rows: set<nat>) {
    && (forall i | 0 <= i < |s.creates| :: CreateRows(s.creates[i]) !! rows)
    && (forall i | 0 <= i < |s.restores| :: RestoreRows(s.restores[i]) !! rows)
  }

  predicate OrderFree(s: State, o: nat) { forall i | 0 <= i < |s.restores| :: !HoldsOrder(s.restores[i], o) }

  // ---------------------------------------------------------------- Redis commands

  function SetNx(redis: map<nat, int>, p: nat, v: int): map<nat, int> { if p in redis then redis else redis[p := v] }

  function Value(redis: map<nat, int>, p: nat): int { if p in redis then redis[p] else 0 }

  function IncrBy(redis: map<nat, int>, p: nat, q: int): map<nat, int> { redis[p := Value(redis, p) + q] }

  // ---------------------------------------------------------------- create_order

  /** The newest order of a slot. */
  function FindOrder(orders: seq<Order>, slot: Slot): (r: Option<nat>)
    ensures r.Some? ==> r.value < |orders| && orders[r.value].slot == slot
    ensures r.Some? ==> forall j | r.value < j < |orders| :: orders[j].slot != slot
    ensures r.None? ==> forall i | 0 <= i < |orders| :: orders[i].slot != slot
  {
    if orders == [] then None
    else if orders[|orders| - 1].slot == slot then Some(|orders| - 1)
    else FindOrder(orders[..|orders| - 1], slot)
  }

  predicate OnSale(stock: map<nat, int>, offSale: set<nat>, l: Line) { l.product in stock && l.product !in offSale }

  /** On sale, and unlimited or in stock. */
  predicate Acceptable(stock: map<nat, int>, offSale: set<nat>, l: Line) {
    OnSale(stock, offSale, l) && (stock[l.product] < 0 || l.quantity <= stock[l.product])
  }

  /** Line k is the first one not acceptable, and that is what is wrong with it. */
  predicate FirstRefused(stock: map<nat, int>, offSale: set<nat>, lines: seq<Line>, k: nat, error: CreateError) {
    && k < |lines| && !Acceptable(stock, offSale, lines[k]) && (forall j | 0 <= j < k :: Acceptable(stock, offSale, lines[j]))
    && error == if OnSale(stock, offSale, lines[k]) then InsufficientStock else ProductNotAvailable
  }

  /** The first line that validation refuses, and why. */
  function Problem(stock: map<nat, int>, offSale: set<nat>, lines: seq<Line>): (r: Option<CreateError>)
    ensures r.None? <==> forall k | 0 <= k < |lines| :: Acceptable(stock, offSale, lines[k])
    ensures r.Some? ==> exists k: nat | k < |lines| :: FirstRefused(stock, offSale, lines, k, r.value)
  {
    if lines == [] then None
    else
      var l := lines[0];
      if !OnSale(stock, offSale, l) then
        assert FirstRefused(stock, offSale, lines, 0, ProductNotAvailable);
        Some(ProductNotAvailable)
      else if 0 <= stock[l.product] < l.quantity then
        assert FirstRefused(stock, offSale, lines, 0, InsufficientStock);
        Some(InsufficientStock)
      else
        var rest := Problem(stock, offSale, lines[1..]);
        assert forall k: nat, error | FirstRefused(stock, offSale, lines[1..], k, error) :: FirstRefused(stock, offSale, lines, k + 1, error);
        rest
  }

  function SessionRows(stock: map<nat, int>, rows: set<nat>): map<nat, int> { map p | p in rows && p in stock :: stock[p] }

  function NewItem(l: Line, session: map<nat, int>): Item {
    Item(l.product, l.quantity, l.product in session && session[l.product] >= 0)
  }

  function NewItems(lines: seq<Line>, session: map<nat, int>): seq<Item> {
    seq(|lines|, k requires 0 <= k < |lines| => NewItem(lines[k], session))
  }

  /** The rows the order's transaction writes back: each finite product less its line. */
  function SoldRows(lines: seq<Line>, session: map<nat, int>): map<nat, int> {
    map p | p in session :: if session[p] >= 0 then session[p] - Sum(lines, QtyOn(p)) else session[p]
  }

  function WithCreate(s: State, i: nat, c: Create): State
    requires i < |s.creates|
  {
    s.(creates := s.creates[i := c])
  }

  /** The statements before the product rows are locked, and those after the outcome is known. */
  function Outside(s: State, c: Create): (Create, set<Slot>, map<Slot, nat>) {
    match c.phase
    case Lookup =>
      var found := FindOrder(s.orders, c.slot);
      (c.(phase := if found.Some? then Returned(found.value) else ReadCache), s.reserved, s.results)
    case ReadCache =>
      var hit := c.slot in s.results && s.results[c.slot] < |s.orders|;
      (c.(phase := if hit then Returned(s.results[c.slot]) else Reserve), s.reserved, s.results)
    case Reserve =>
      if c.slot in s.reserved then (c.(phase := Raised(IdempotencyConflict)), s.reserved, s.results)
      else (c.(phase := LoadRows), s.reserved + {c.slot}, s.results)
    case ConflictUnlock => (c.(phase := Relookup), s.reserved - {c.slot}, s.results)
    case Relookup =>
      var found := FindOrder(s.orders, c.slot);
      (c.(phase := if found.Some? then Returned(found.value) else Abort(DuplicateOrder)), s.reserved, s.results)
    case Abort(error) => (c.(phase := UndoOuter(error, 0)), s.reserved, s.results)
    case Unlock(error) => (c.(phase := Raised(error)), s.reserved - {c.slot}, s.results)
    case CacheResult(o) => (c.(phase := Returned(o)), s.reserved, s.results[c.slot := o])
    case _ => (c, s.reserved, s.results)
  }

  /** The statements under the product row locks: load and validate, pre-deduct in Redis, meet the unique key. */
  function Inside(s: State, c: Create): (Create, map<nat, int>) {
    match c.phase
    case LoadRows =>
      if !RowsFree(s, Products(c.lines)) then (c, s.redis)
      else
        var problem := Problem(s.stock, s.offSale, c.lines);
        if problem.Some? then (c.(phase := Abort(problem.value)), s.redis)
        else (c.(phase := Seed(0), session := SessionRows(s.stock, Products(c.lines))), s.redis)
    case Seed(k) =>
      if k >= |c.lines| then (c.(phase := Persist), s.redis)
      else
        var p := c.lines[k].product;
        if p !in c.session || c.session[p] < 0 then (c.(phase := Seed(k + 1)), s.redis)
        else (c.(phase := Deduct(k)), SetNx(s.redis, p, c.session[p]))
    case Deduct(k) =>
      if k >= |c.lines| then (c, s.redis)
      else
        var l := c.lines[k];
        var redis := IncrBy(s.redis, l.product, -l.quantity);
        (c.(phase := if redis[l.product] < 0 then UndoInner(0) else Seed(k + 1),
            deducted := c.deducted + [l], log := c.log + [Line(l.product, -l.quantity)]), redis)
    case Persist => (c.(phase := ConflictUndo(0)), s.redis)
    case _ => (c, s.redis)
  }

  /** The commit: the order with its items, and the product rows this transaction read and changed. */
  function CommitOrder(s: State, i: nat): State
    requires i < |s.creates|
  {
    var c := s.creates[i];
    s.(creates := s.creates[i := c.(phase := CacheResult(|s.orders|), placed := Some(|s.orders|))],
       stock := s.stock + SoldRows(c.lines, c.session),
       orders := s.orders + [Order(c.slot, NewItems(c.lines, c.session), Pending, Unpaid)])
  }

  predicate Undoing(p: CreatePhase) { p.UndoInner? || p.ConflictUndo? || p.UndoOuter? }

  /** How many decrements the running compensation loop has undone. */
  function Undone(p: CreatePhase): nat
    requires Undoing(p)
  {
    match p
    case UndoInner(n) => n
    case ConflictUndo(n) => n
    case UndoOuter(_, n) => n
  }

  function UndoMore(p: CreatePhase): CreatePhase
    requires Undoing(p)
  {
    match p
    case UndoInner(n) => UndoInner(n + 1)
    case ConflictUndo(n) => ConflictUndo(n + 1)
    case UndoOuter(error, n) => UndoOuter(error, n + 1)
  }

  function AfterUndo(p: CreatePhase): CreatePhase
    requires Undoing(p)
  {
    match p
    case UndoInner(_) => Abort(InsufficientStock)
    case ConflictUndo(_) => ConflictUnlock
    case UndoOuter(error, _) => Unlock(error)
  }

  /** _rollback_redis_stock: INCRBY in reverse order, then clear the list. */
  function Undo(s: State, c: Create): (Create, map<nat, int>)
    requires Undoing(c.phase)
  {
    var n := Undone(c.phase);
    if n < |c.deducted| then
      var l := c.deducted[|c.deducted| - 1 - n];
      (c.(phase := UndoMore(c.phase), log := c.log + [l]), IncrBy(s.redis, l.product, l.quantity))
    else (c.(phase := AfterUndo(c.phase), deducted := []), s.redis)
  }

  predicate Commits(s: State, c: Create) { c.phase.Persist? && FindOrder(s.orders, c.slot).None? }

  predicate IsInside(p: CreatePhase) { p.LoadRows? || p.Seed? || p.Deduct? || p.Persist? }

  function StepCreate(s: State, i: nat): State
    requires i < |s.creates|
  {
    var c := s.creates[i];
    if Commits(s, c) then CommitOrder(s, i)
    else if Undoing(c.phase) then
      var (c', redis) := Undo(s, c);
      s.(creates := s.creates[i := c'], redis := redis)
    else if IsInside(c.phase) then
      var (c', redis) := Inside(s, c);
      s.(creates := s.creates[i := c'], redis := redis)
    else
      var (c', reserved, results) := Outside(s, c);
      s.(creates := s.creates[i := c'], reserved := reserved, results := results)
  }

  // ---------------------------------------------------------------- cancel_unpaid_order and finalize_refund

  predicate Eligible(kind: RestoreKind, o: Order) {
    match kind
    case Cancel => o.payment != PaidUp && o.status == Pending
    case Refund => o.payment == PaidUp && o.status == Paid
  }

  function Released(items: seq<Item>): seq<Item> {
    seq(|items|, k requires 0 <= k < |items| => items[k].(stockDeducted := false))
  }

  function Closed(kind: RestoreKind, o: Order): Order {
    o.(items := Released(o.items), status := Canceled, payment := if kind.Cancel? then Voided else Refunded)
  }

  function WithRestore(s: State, i: nat, r: Restore): State
    requires i < |s.restores|
  {
    s.(restores := s.restores[i := r])
  }

  function StepRestore(s: State, i: nat): State
    requires i < |s.restores|
  {
    var r := s.restores[i];
    match r.phase
    case ReadOrder =>
      if r.order >= |s.orders| then WithRestore(s, i, r.(phase := Finished(false)))
      else if r.locked && !OrderFree(s, r.order) then s
      else WithRestore(s, i, r.(phase := if Eligible(r.kind, s.orders[r.order]) then ReadItems else Finished(false)))
    case ReadItems =>
      if r.order >= |s.orders| then s
      else WithRestore(s, i, r.(phase := LoadProducts, items := s.orders[r.order].items))
    case LoadProducts =>
      if !RowsFree(s, RowsWanted(r)) then s
      else WithRestore(s, i, r.(phase := Give(0), session := SessionRows(s.stock, RowsWanted(r))))
    case Give(k) =>
      if k >= |r.items| then WithRestore(s, i, r.(phase := Commit))
      else
        var item := r.items[k];
        if item.stockDeducted && item.product in r.session && r.session[item.product] >= 0 then
          WithRestore(s, i, r.(phase := Give(k + 1),
                               session := r.session[item.product := r.session[item.product] + item.quantity],
                               added := r.added + [Line(item.product, item.quantity)]))
            .(redis := IncrBy(s.redis, item.product, item.quantity))
        else WithRestore(s, i, r.(phase := Give(k + 1)))
    case Commit =>
      if r.order >= |s.orders| || (!r.locked && !OrderFree(s, r.order)) then s
      else
        WithRestore(s, i, r.(phase := Finished(true), added := []))
          .(stock := s.stock + r.session, orders := s.orders[r.order := Closed(r.kind, s.orders[r.order])])
    case Finished(_) => s
  }

  // ---------------------------------------------------------------- events and runs

  function Next(s: State, e: Event): State {
    match e
    case StartCreate(slot, payload) =>
      if !ValidPayload(payload) then s
      else s.(creates := s.creates + [Create(slot, Merge(payload), Lookup, map[], [], [], None)])
    case AdvanceCreate(i) => if i < |s.creates| then StepCreate(s, i) else s
    case BreakCreate(i) =>
      if i < |s.creates| && InRowSection(s.creates[i].phase) && !s.creates[i].phase.UndoInner? then
        WithCreate(s, i, s.creates[i].(phase := Abort(OtherError)))
      else s
    case StartRestore(kind, o, locked) =>
      s.(restores := s.restores + [Restore(kind, o, locked || kind.Refund?, ReadOrder, [], map[], [])])
    case AdvanceRestore(i) => if i < |s.restores| then StepRestore(s, i) else s
    case Pay(o) =>
      if o < |s.orders| && OrderFree(s, o) && s.orders[o].status == Pending && s.orders[o].payment != PaidUp then
        s.(orders := s.orders[o := s.orders[o].(status := Paid, payment := PaidUp)])
      else s
    case InsertVip(slot) =>
      if FindOrder(s.orders, slot).Some? then s
      else s.(orders := s.orders + [Order(slot, [], Pending, Unpaid)])
    case ExpireReservation(slot) => s.(reserved := s.reserved - {slot})
    case ExpireResult(slot) => s.(results := s.results - {slot})
    case Relist(offSale) => s.(offSale := offSale)
    case CorruptRedis(redis) => s.(redis := redis)
  }

  function Run(s: State, events: seq<Event>): State {
    if events == [] then s else Next(Run(s, events[..|events| - 1]), events[|events| - 1])
  }

  function Opening(stock: map<nat, int>): State { State(stock, {}, [], map[], {}, map[], [], []) }
}
