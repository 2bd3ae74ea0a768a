/**
 * No oversell: whatever Redis says and whoever locks what, finite stock never
 * goes below zero, and every open call still holds rows that fit its order.
 */
module OrderStock {
  import opened Sums
  import opened OrderProtocol

  // ---------------------------------------------------------------- merging

  lemma AddLineDistinct(lines: seq<Line>, l: Line)
    requires DistinctLines(lines)
    ensures DistinctLines(AddLine(lines, l))
  {
    hide IndexOf;
  }

  lemma {:induction false} AddLineTotal(lines: seq<Line>, l: Line, p: nat)
    requires DistinctLines(lines) && forall k | 0 <= k < |lines| :: lines[k].quantity >= 1
    requires l.quantity >= 1
    ensures var r := AddLine(lines, l);
            && DistinctLines(r) && (forall k | 0 <= k < |r| :: r[k].quantity >= 1)
            && Sum(r, QtyOn(p)) == Sum(lines, QtyOn(p)) + QtyOn(p)(l)
  {
    AddLineDistinct(lines, l);
    hide DistinctLines, IndexOf;
    var k := IndexOf(lines, l.product);
    if k < |lines| {
      SumUpdate(lines, k, Line(l.product, lines[k].quantity + l.quantity), QtyOn(p));
    } else {
      SumPush(lines, l, QtyOn(p));
    }
  }

  /** Merging keeps one line per product and asks for exactly what the payload asked for. */
  lemma {:induction false} MergeTotal(payload: seq<Line>, p: nat)
    requires forall k | 0 <= k < |payload| :: payload[k].quantity >= 1
    ensures var r := Merge(payload);
            && DistinctLines(r) && (forall k | 0 <= k < |r| :: r[k].quantity >= 1)
            && Sum(r, QtyOn(p)) == Sum(payload, QtyOn(p))
  {
    hide AddLine, IndexOf;
    if payload != [] {
      var n := |payload| - 1;
      MergeTotal(payload[..n], p);
      AddLineTotal(Merge(payload[..n]), payload[n], p);
    }
  }

  /** With one line per product, the total for a product is its line. */
  lemma LineTotal(lines: seq<Line>, k: nat)
    requires DistinctLines(lines) && k < |lines|
    ensures Sum(lines, QtyOn(lines[k].product)) == lines[k].quantity
  {
    SumSingle(lines, k, QtyOn(lines[k].product));
  }

  // ---------------------------------------------------------------- the invariant

  predicate LinesSound(lines: seq<Line>) {
    DistinctLines(lines) && forall k | 0 <= k < |lines| :: lines[k].quantity >= 1
  }

  predicate CreateSound(stock: map<nat, int>, c: Create) {
    && LinesSound(c.lines)
    && (InRowSection(c.phase) ==>
          && c.session.Keys == Products(c.lines) <= stock.Keys
          && (forall k | 0 <= k < |c.lines| ::
                var l := c.lines[k];
                c.session[l.product] == stock[l.product] && (stock[l.product] < 0 || l.quantity <= stock[l.product])))
  }

  predicate ItemsSound(init: map<nat, int>, items: seq<Item>) {
    && (forall a, b | 0 <= a < b < |items| :: items[a].product != items[b].product)
    && (forall k | 0 <= k < |items| ::
          && items[k].quantity >= 1 && items[k].product in init
          && (items[k].stockDeducted ==> init[items[k].product] >= 0))
  }

  function Given(r: Restore): nat {
    match r.phase
    case Give(k) => if k <= |r.items| then k else |r.items|
    case _ => |r.items|
  }

  /** The same items at a later moment: an item can only have lost its stock flag since. */
  predicate Faded(earlier: seq<Item>, later: seq<Item>) {
    |later| == |earlier| && forall k | 0 <= k < |earlier| ::
      && later[k].product == earlier[k].product && later[k].quantity == earlier[k].quantity
      && (later[k].stockDeducted ==> earlier[k].stockDeducted)
  }

  predicate OrdersFaded(earlier: seq<Order>, later: seq<Order>) {
    |earlier| <= |later| && forall o | 0 <= o < |earlier| :: Faded(earlier[o].items, later[o].items)
  }

  /** With the order lock a restore sees the order as it is; without, as it was. */
  predicate RestoreSound(s: State, r: Restore) {
    && (r.kind.Refund? ==> r.locked)
    && (r.phase.ReadItems? || r.phase.LoadProducts? || r.phase.Give? || r.phase.Commit? ==>
          r.order < |s.orders| && (r.locked ==> Eligible(r.kind, s.orders[r.order])))
    && (r.phase.LoadProducts? || r.phase.Give? || r.phase.Commit? ==>
          Faded(r.items, s.orders[r.order].items) && (r.locked ==> r.items == s.orders[r.order].items))
    && (r.phase.Give? || r.phase.Commit? ==>
          && r.session.Keys == RowsWanted(r) <= s.stock.Keys
          && (forall p: nat | p in r.session :: r.session[p] == s.stock[p] + Sum(r.items[..Given(r)], HeldOn(p))))
  }

  /** Finite products never go below zero, unlimited ones never move. */
  predicate ShelfSound(init: map<nat, int>, s: State) {
    s.stock.Keys == init.Keys && forall p | p in init :: if init[p] >= 0 then s.stock[p] >= 0 else s.stock[p] == init[p]
  }

  predicate Exclusive(s: State) {
    && (forall i, j | 0 <= i < j < |s.creates| :: CreateRows(s.creates[i]) !! CreateRows(s.creates[j]))
    && (forall i, j | 0 <= i < |s.creates| && 0 <= j < |s.restores| :: CreateRows(s.creates[i]) !! RestoreRows(s.restores[j]))
    && (forall i, j | 0 <= i < j < |s.restores| :: RestoreRows(s.restores[i]) !! RestoreRows(s.restores[j]))
    && (forall i, j | 0 <= i < j < |s.restores| ::
          s.restores[i].order == s.restores[j].order ==>
            !(HoldsOrder(s.restores[i], s.restores[i].order) && HoldsOrder(s.restores[j], s.restores[i].order)))
  }

  predicate OrdersSound(init: map<nat, int>, orders: seq<Order>) {
    forall o | 0 <= o < |orders| :: ItemsSound(init, orders[o].items)
  }

  predicate CreatesSound(s: State) { forall i | 0 <= i < |s.creates| :: CreateSound(s.stock, s.creates[i]) }

  predicate RestoresSound(s: State) { forall i | 0 <= i < |s.restores| :: RestoreSound(s, s.restores[i]) }

  predicate ItemsReadSound(init: map<nat, int>, s: State) {
    forall i | 0 <= i < |s.restores| :: ItemsSound(init, s.restores[i].items)
  }

  predicate StockSound(init: map<nat, int>, s: State) {
    && ShelfSound(init, s) && OrdersSound(init, s.orders) && CreatesSound(s) && RestoresSound(s) && Exclusive(s)
    && ItemsReadSound(init, s)
  }

  // ---------------------------------------------------------------- calls that move on their own

  predicate SameShelf(s: State, s': State) { s'.stock == s.stock && s'.orders == s.orders }

  /** One create call moves on; it keeps its row locks, drops them, or takes rows that are free. */
  lemma CreateMoves(init: map<nat, int>, s: State, s': State, i: nat)
    requires StockSound(init, s) && SameShelf(s, s') && i < |s.creates|
    requires s'.restores == s.restores && |s'.creates| == |s.creates| && s'.creates == s.creates[i := s'.creates[i]]
    requires CreateSound(s.stock, s'.creates[i])
    requires CreateRows(s'.creates[i]) <= CreateRows(s.creates[i]) || RowsFree(s, CreateRows(s'.creates[i]))
    ensures StockSound(init, s')
  {
    forall j | 0 <= j < |s'.restores| ensures RestoreSound(s', s'.restores[j]) { assert RestoreSound(s, s.restores[j]); }
  }

  predicate KeepsOrderLock(s: State, r: Restore, r': Restore) {
    r'.order == r.order && (HoldsOrder(r', r.order) ==> HoldsOrder(r, r.order) || OrderFree(s, r.order))
  }

  lemma RestoreMoves(init: map<nat, int>, s: State, s': State, i: nat)
    requires StockSound(init, s) && SameShelf(s, s') && i < |s.restores|
    requires s'.creates == s.creates && |s'.restores| == |s.restores| && s'.restores == s.restores[i := s'.restores[i]]
    requires RestoreSound(s, s'.restores[i]) && KeepsOrderLock(s, s.restores[i], s'.restores[i])
    requires RestoreRows(s'.restores[i]) <= RestoreRows(s.restores[i]) || RowsFree(s, RestoreRows(s'.restores[i]))
    requires ItemsSound(init, s'.restores[i].items)
    ensures StockSound(init, s')
  {
    forall j | 0 <= j < |s'.restores| ensures RestoreSound(s', s'.restores[j]) {
      if j != i { assert RestoreSound(s, s.restores[j]); }
      assert RestoreSound(s, s'.restores[j]);
    }
  }

  lemma SessionLines(stock: map<nat, int>, lines: seq<Line>)
    requires forall k | 0 <= k < |lines| :: lines[k].product in stock
    ensures SessionRows(stock, Products(lines)).Keys == Products(lines) <= stock.Keys
    ensures forall k | 0 <= k < |lines| :: lines[k].product in Products(lines)
  {
  }

  /** A call keeps its request; it is among its locked rows only if it was already, or has just read and validated them. */
  predicate EntersRows(s: State, c: Create, c': Create) {
    && c'.lines == c.lines && c'.slot == c.slot && c'.placed == c.placed
    && (InRowSection(c'.phase) ==>
          || (InRowSection(c.phase) && c'.session == c.session)
          || (&& c.phase.LoadRows? && RowsFree(s, Products(c.lines))
              && Problem(s.stock, s.offSale, c.lines).None? && c'.session == SessionRows(s.stock, Products(c.lines))))
  }

  lemma OutsideShape(s: State, c: Create)
    requires !Undoing(c.phase) && !IsInside(c.phase)
    ensures EntersRows(s, c, Outside(s, c).0)
  {
    hide FindOrder, RowsFree, Problem, SessionRows, Products;
  }

  lemma InsideShape(s: State, c: Create)
    ensures IsInside(c.phase) ==> EntersRows(s, c, Inside(s, c).0)
  {
    hide RowsFree, Problem, SessionRows, SetNx, IncrBy, Products;
  }

  lemma UndoShape(s: State, c: Create)
    requires Undoing(c.phase)
    ensures EntersRows(s, c, Undo(s, c).0)
  {
    hide RowsFree, Problem, SessionRows, IncrBy, Products;
  }

  /** What a step of a create call other than its commit can do. */
  lemma CreateStepShape(s: State, i: nat)
    requires i < |s.creates| && !Commits(s, s.creates[i])
    ensures var s' := StepCreate(s, i);
            && SameShelf(s, s') && s'.restores == s.restores
            && |s'.creates| == |s.creates| && s'.creates == s.creates[i := s'.creates[i]]
            && EntersRows(s, s.creates[i], s'.creates[i])
  {
    hide Commits, Undo, Inside, Outside, EntersRows;
    var c := s.creates[i];
    if Undoing(c.phase) { UndoShape(s, c); }
    else if IsInside(c.phase) { InsideShape(s, c); }
    else { OutsideShape(s, c); }
  }

  lemma LoadedRows(stock: map<nat, int>, offSale: set<nat>, lines: seq<Line>)
    requires Problem(stock, offSale, lines).None?
    ensures var session := SessionRows(stock, Products(lines));
            && session.Keys == Products(lines) <= stock.Keys
            && (forall k | 0 <= k < |lines| ::
                  var l := lines[k];
                  l.product in session && session[l.product] == stock[l.product]
                  && (stock[l.product] < 0 || l.quantity <= stock[l.product]))
  {
    SessionLines(stock, lines);
  }

  lemma CreateIsSound(init: map<nat, int>, s: State, i: nat)
    requires StockSound(init, s) && i < |s.creates|
    ensures CreateSound(s.stock, s.creates[i])
  {
  }

  lemma StepCreateStock(init: map<nat, int>, s: State, i: nat)
    requires StockSound(init, s) && i < |s.creates|
    ensures StockSound(init, StepCreate(s, i))
  {
    hide StockSound, StepCreate, Commits, Problem, SessionRows, RowsFree;
    var c := s.creates[i];
    CreateIsSound(init, s, i);
    if Commits(s, c) {
      PersistStock(init, s, i);
    } else {
      CreateStepShape(s, i);
      if Problem(s.stock, s.offSale, c.lines).None? { LoadedRows(s.stock, s.offSale, c.lines); }
      CreateMoves(init, s, StepCreate(s, i), i);
    }
  }

  lemma NewItemsTotal(lines: seq<Line>, session: map<nat, int>, p: nat)
    requires session.Keys == Products(lines)
    ensures Sum(NewItems(lines, session), HeldOn(p)) == if p in session && session[p] >= 0 then Sum(lines, QtyOn(p)) else 0
    ensures p !in session ==> Sum(lines, QtyOn(p)) == 0
  {
    var items := NewItems(lines, session);
    forall k | 0 <= k < |lines| ensures lines[k].product in session { assert lines[k].product in Products(lines); }
    if p in session && session[p] >= 0 {
      SumSame(items, lines, HeldOn(p), QtyOn(p));
    } else {
      SumZero(items, HeldOn(p));
      if p !in session { SumZero(lines, QtyOn(p)); }
    }
  }

  lemma NewItemsSound(init: map<nat, int>, s: State, i: nat)
    requires ShelfSound(init, s) && OrdersSound(init, s.orders) && i < |s.creates| && s.creates[i].phase.Persist?
    requires CreateSound(s.stock, s.creates[i])
    ensures ItemsSound(init, NewItems(s.creates[i].lines, s.creates[i].session))
  {
    var c := s.creates[i];
    var items := NewItems(c.lines, c.session);
    forall k | 0 <= k < |items|
      ensures items[k].quantity >= 1 && items[k].product in init
      ensures items[k].stockDeducted ==> init[items[k].product] >= 0
    {
      assert c.lines[k].product in Products(c.lines);
    }
  }

  /** The state s' after some call has written the rows it had locked, and nothing else of the shelf. */
  predicate WritesRows(s: State, s': State, rows: set<nat>) {
    s'.stock.Keys == s.stock.Keys && forall p: nat | p in s.stock && p !in rows :: s'.stock[p] == s.stock[p]
  }

  lemma OthersKeepRows(s: State, s': State, rows: set<nat>, c: Create)
    requires CreateSound(s.stock, c) && WritesRows(s, s', rows) && CreateRows(c) !! rows
    ensures CreateSound(s'.stock, c)
  {
    if InRowSection(c.phase) {
      forall k | 0 <= k < |c.lines| ensures s'.stock[c.lines[k].product] == s.stock[c.lines[k].product] {
        assert c.lines[k].product in Products(c.lines);
      }
    }
  }

  lemma OthersKeepSession(s: State, s': State, rows: set<nat>, r: Restore)
    requires RestoreSound(s, r) && WritesRows(s, s', rows) && RestoreRows(r) !! rows
    requires OrdersFaded(s.orders, s'.orders)
    requires HoldsOrder(r, r.order) ==> s'.orders[r.order] == s.orders[r.order]
    ensures RestoreSound(s', r)
  {
    if r.phase.LoadProducts? || r.phase.Give? || r.phase.Commit? { FadesOn(r.items, s.orders[r.order].items, s'.orders[r.order].items); }
  }

  lemma FadesOn(a: seq<Item>, b: seq<Item>, c: seq<Item>)
    requires Faded(a, b) && Faded(b, c)
    ensures Faded(a, c)
  {
  }

  lemma AppendFades(orders: seq<Order>, o: Order)
    ensures OrdersFaded(orders, orders + [o])
  {
  }

  lemma PersistShape(s: State, i: nat)
    requires i < |s.creates| && Commits(s, s.creates[i])
    ensures var s', c := StepCreate(s, i), s.creates[i];
            && |s'.creates| == |s.creates| && s'.creates == s.creates[i := s'.creates[i]]
            && s'.creates[i] == c.(phase := CacheResult(|s.orders|), placed := Some(|s.orders|))
            && s'.restores == s.restores && s'.redis == s.redis
            && s'.orders == s.orders + [Order(c.slot, NewItems(c.lines, c.session), Pending, Unpaid)]
            && s'.stock == s.stock + SoldRows(c.lines, c.session)
  {
    hide NewItems, SoldRows;
  }

  /** Committing an order moves units from the shelf to its items, under the locks it still holds. */
  lemma PersistStock(init: map<nat, int>, s: State, i: nat)
    requires StockSound(init, s) && i < |s.creates| && Commits(s, s.creates[i])
    ensures StockSound(init, StepCreate(s, i))
  {
    hide ShelfSound, StepCreate, FindOrder, CreateSound, RestoreSound, NewItems, SoldRows, ItemsSound;
    var c, s' := s.creates[i], StepCreate(s, i);
    PersistKeepsShelf(init, s, i);
    PersistShape(s, i);
    AppendFades(s.orders, s'.orders[|s.orders|]);
    NewItemsSound(init, s, i);
    SoldRowsWrite(s, s', i);
    forall j | 0 <= j < |s'.creates| ensures CreateSound(s'.stock, s'.creates[j]) {
      if j == i { CommittedCreate(s, s', i); }
      else {
        assert CreateRows(c) !! CreateRows(s.creates[j]);
        OthersKeepRows(s, s', CreateRows(c), s.creates[j]);
      }
    }
    forall j | 0 <= j < |s'.restores| ensures RestoreSound(s', s'.restores[j]) {
      RestoreInRange(s, s.restores[j]);
      OthersKeepSession(s, s', CreateRows(c), s.restores[j]);
    }
  }

  lemma RestoreInRange(s: State, r: Restore)
    requires RestoreSound(s, r)
    ensures HoldsOrder(r, r.order) ==> r.order < |s.orders|
  {
  }

  lemma CommittedCreate(s: State, s': State, i: nat)
    requires i < |s.creates| && i < |s'.creates| && CreateSound(s.stock, s.creates[i]) && s.creates[i].phase.Persist?
    requires s'.creates[i].lines == s.creates[i].lines && s'.creates[i].phase.CacheResult?
    ensures CreateSound(s'.stock, s'.creates[i])
  {
  }

  lemma SoldRowsWrite(s: State, s': State, i: nat)
    requires i < |s.creates| && s.creates[i].phase.Persist? && CreateSound(s.stock, s.creates[i])
    requires s'.stock == s.stock + SoldRows(s.creates[i].lines, s.creates[i].session)
    ensures WritesRows(s, s', CreateRows(s.creates[i]))
  {
  }

  lemma HeldNonNegative(init: map<nat, int>, items: seq<Item>, p: nat)
    requires ItemsSound(init, items)
    ensures Sum(items, HeldOn(p)) >= 0
  {
    SumAtLeast(items, HeldOn(p));
  }

  /** A committing call takes at most what the row holds, and none of a product it does not order. */
  lemma SoldRow(stock: map<nat, int>, c: Create, p: nat)
    requires CreateSound(stock, c) && c.phase.Persist? && p in stock
    ensures var sold := stock + SoldRows(c.lines, c.session);
            && p in sold
            && sold[p] == stock[p] - Sum(NewItems(c.lines, c.session), HeldOn(p))
            && (if stock[p] >= 0 then sold[p] >= 0 else sold[p] == stock[p])
  {
    NewItemsTotal(c.lines, c.session, p);
    if p in c.session {
      assert p in Products(c.lines);
      var k :| 0 <= k < |c.lines| && c.lines[k].product == p;
      LineTotal(c.lines, k);
    }
  }

  lemma SoldKeys(stock: map<nat, int>, c: Create)
    requires CreateSound(stock, c) && c.phase.Persist?
    ensures (stock + SoldRows(c.lines, c.session)).Keys == stock.Keys
  {
  }

  lemma PersistKeepsShelf(init: map<nat, int>, s: State, i: nat)
    requires ShelfSound(init, s) && i < |s.creates| && Commits(s, s.creates[i]) && CreateSound(s.stock, s.creates[i])
    ensures ShelfSound(init, StepCreate(s, i))
  {
    hide StepCreate, FindOrder, CreateSound, SoldRows, NewItems;
    var c, s' := s.creates[i], StepCreate(s, i);
    PersistShape(s, i);
    SoldKeys(s.stock, c);
    forall p: nat | p in init
      ensures if init[p] >= 0 then s'.stock[p] >= 0 else s'.stock[p] == init[p]
    {
      SoldRow(s.stock, c, p);
    }
  }

  // ---------------------------------------------------------------- giving stock back

  lemma LoadRestoreStock(init: map<nat, int>, s: State, i: nat)
    requires StockSound(init, s) && i < |s.restores| && s.restores[i].phase.LoadProducts?
    ensures StockSound(init, StepRestore(s, i))
  {
    hide ShelfSound, CreatesSound, Exclusive, OrdersSound, Eligible;
    var r := s.restores[i];
    assert RestoreSound(s, r);
    if RowsFree(s, RowsWanted(r)) {
      var s' := StepRestore(s, i);
      assert ItemsSound(init, r.items);
      assert SessionRows(s.stock, RowsWanted(r)).Keys == RowsWanted(r) by { WantedKnown(init, s, r); }
      assert RestoreRows(s'.restores[i]) == RowsWanted(r);
      RestoreMoves(init, s, s', i);
    }
  }

  lemma WantedKnown(init: map<nat, int>, s: State, r: Restore)
    requires ShelfSound(init, s) && ItemsSound(init, r.items)
    ensures RowsWanted(r) <= s.stock.Keys
  {
  }

  lemma ReadRestoreStock(init: map<nat, int>, s: State, i: nat)
    requires StockSound(init, s) && i < |s.restores| && (s.restores[i].phase.ReadOrder? || s.restores[i].phase.ReadItems?)
    ensures StockSound(init, StepRestore(s, i))
  {
    hide ShelfSound, CreatesSound, Eligible, CreateRows, ItemsSound;
    assert RestoreSound(s, s.restores[i]);
    NoItemsSound(init);
    RestoreMoves(init, s, StepRestore(s, i), i);
  }

  lemma NoItemsSound(init: map<nat, int>)
    ensures ItemsSound(init, [])
  {
  }

  lemma StepRestoreStock(init: map<nat, int>, s: State, i: nat)
    requires StockSound(init, s) && i < |s.restores|
    ensures StockSound(init, StepRestore(s, i))
  {
    hide StockSound;
    match s.restores[i].phase
    case Commit => CommitStock(init, s, i);
    case Give(k) => GiveStock(init, s, i);
    case LoadProducts => LoadRestoreStock(init, s, i);
    case ReadOrder => ReadRestoreStock(init, s, i);
    case ReadItems => ReadRestoreStock(init, s, i);
    case Finished(_) =>
  }

  /** An item that holds stock finds its product row locked and finite. */
  lemma GiveFinds(init: map<nat, int>, s: State, i: nat, k: nat)
    requires StockSound(init, s) && i < |s.restores| && s.restores[i].phase == Give(k) && k < |s.restores[i].items|
    requires s.restores[i].items[k].stockDeducted
    ensures var r, item := s.restores[i], s.restores[i].items[k];
            item.product in r.session && r.session[item.product] >= 0
  {
    var r := s.restores[i];
    assert RestoreSound(s, r);
    assert ItemsSound(init, r.items);
    assert r.items[k].product in HeldProducts(r.items) && r.items[k].product in ItemProducts(r.items);
    forall j | 0 <= j < k ensures HeldOn(r.items[k].product)(r.items[..k][j]) >= 0 { assert r.items[j].quantity >= 1; }
    SumAtLeast(r.items[..k], HeldOn(r.items[k].product));
  }

  lemma GiveShape(s: State, i: nat)
    requires i < |s.restores| && s.restores[i].phase.Give?
    ensures var s', r := StepRestore(s, i), s.restores[i];
            var r', k := s'.restores[i], r.phase.item;
            && SameShelf(s, s') && s'.creates == s.creates
            && |s'.restores| == |s.restores| && s'.restores == s.restores[i := r']
            && r'.kind == r.kind && r'.order == r.order && r'.locked == r.locked && r'.items == r.items
            && r'.phase == (if k < |r.items| then Give(k + 1) else Commit)
            && var gives := k < |r.items| && r.items[k].stockDeducted && r.items[k].product in r.session && r.session[r.items[k].product] >= 0;
            && r'.session == (if gives then r.session[r.items[k].product := r.session[r.items[k].product] + r.items[k].quantity] else r.session)
            && r'.added == (if gives then r.added + [Line(r.items[k].product, r.items[k].quantity)] else r.added)
            && s'.redis == (if gives then IncrBy(s.redis, r.items[k].product, r.items[k].quantity) else s.redis)
  {
    hide IncrBy;
  }

  /** Giving back one item moves the session rows along with the items passed. */
  lemma GivenSession(s: State, r: Restore, r': Restore)
    requires RestoreSound(s, r) && r.phase.Give?
    requires r'.kind == r.kind && r'.order == r.order && r'.locked == r.locked && r'.items == r.items
    requires var k := r.phase.item;
             if k >= |r.items| then r'.phase.Commit? && r'.session == r.session
             else
               && r'.phase == Give(k + 1)
               && if r.items[k].stockDeducted then
                    r.items[k].product in r.session
                    && r'.session == r.session[r.items[k].product := r.session[r.items[k].product] + r.items[k].quantity]
                  else r'.session == r.session
    ensures RestoreSound(s, r') && RestoreRows(r') == RestoreRows(r)
  {
    hide Sum, Eligible;
    var k := r.phase.item;
    assert r'.session.Keys == r.session.Keys;
    if k < |r.items| {
      assert r.items[..k + 1] == r.items[..k] + [r.items[k]];
      forall p: nat | p in r'.session ensures r'.session[p] == s.stock[p] + Sum(r.items[..k + 1], HeldOn(p)) {
        SumPush(r.items[..k], r.items[k], HeldOn(p));
      }
    }
  }

  lemma GiveStock(init: map<nat, int>, s: State, i: nat)
    requires StockSound(init, s) && i < |s.restores| && s.restores[i].phase.Give?
    ensures StockSound(init, StepRestore(s, i))
  {
    hide StockSound, StepRestore, RestoreSound, IncrBy, ItemsSound;
    var r, s' := s.restores[i], StepRestore(s, i);
    var k := r.phase.item;
    RestoreIsSound(init, s, i);
    GiveShape(s, i);
    if k < |r.items| && r.items[k].stockDeducted { GiveFinds(init, s, i, k); }
    GivenSession(s, r, s'.restores[i]);
    RestoreMoves(init, s, s', i);
  }

  lemma RestoreIsSound(init: map<nat, int>, s: State, i: nat)
    requires StockSound(init, s) && i < |s.restores|
    ensures RestoreSound(s, s.restores[i]) && ItemsSound(init, s.restores[i].items)
  {
  }

  lemma CommitKeepsShelf(init: map<nat, int>, s: State, s': State, i: nat)
    requires ShelfSound(init, s) && Committed(s, s', i) && s.restores[i].phase.Commit?
    requires RestoreSound(s, s.restores[i]) && ItemsSound(init, s.restores[i].items)
    ensures ShelfSound(init, s')
  {
    hide Closed, Eligible;
    var r := s.restores[i];
    assert r.items[..|r.items|] == r.items;
    forall p | p in init ensures if init[p] >= 0 then s'.stock[p] >= 0 else s'.stock[p] == init[p] {
      HeldNonNegative(init, r.items, p);
      if init[p] < 0 { SumZero(r.items, HeldOn(p)); }
    }
  }

  lemma NotWanted(r: Restore, p: nat)
    requires p !in RowsWanted(r)
    ensures Sum(r.items, HeldOn(p)) == 0
  {
    forall k | 0 <= k < |r.items| ensures HeldOn(p)(r.items[k]) == 0 {
      assert r.items[k].stockDeducted ==> r.items[k].product in HeldProducts(r.items);
      assert r.items[k].product in ItemProducts(r.items);
    }
    SumZero(r.items, HeldOn(p));
  }

  /** What the commit of a cancel or refund changes. */
  predicate Committed(s: State, s': State, i: nat) {
    && i < |s.restores| && s.restores[i].order < |s.orders|
    && (s.restores[i].locked || OrderFree(s, s.restores[i].order))
    && var r := s.restores[i];
    && s'.creates == s.creates && s'.restores == s.restores[i := r.(phase := Finished(true), added := [])]
    && s'.stock == s.stock + r.session
    && s'.orders == s.orders[r.order := Closed(r.kind, s.orders[r.order])]
  }

  lemma CommitIs(s: State, i: nat)
    requires i < |s.restores| && s.restores[i].phase.Commit?
    ensures StepRestore(s, i) == s || Committed(s, StepRestore(s, i), i)
  {
    hide Closed, OrderFree;
  }

  /** Calls that hold other rows see the stock they saw before. */
  lemma CommitKeepsCreates(s: State, s': State, i: nat)
    requires CreatesSound(s) && Exclusive(s) && Committed(s, s', i) && s.restores[i].phase.Commit? && RestoreSound(s, s.restores[i])
    ensures CreatesSound(s')
  {
    hide Closed;
    var r := s.restores[i];
    forall j | 0 <= j < |s'.creates| ensures CreateSound(s'.stock, s'.creates[j]) {
      assert CreateSound(s.stock, s.creates[j]);
      if InRowSection(s.creates[j].phase) {
        assert CreateRows(s.creates[j]) !! RestoreRows(r);
        forall k | 0 <= k < |s.creates[j].lines| ensures s'.stock[s.creates[j].lines[k].product] == s.stock[s.creates[j].lines[k].product] {
          assert s.creates[j].lines[k].product in Products(s.creates[j].lines);
        }
      }
    }
  }

  lemma ClosedFades(kind: RestoreKind, o: Order)
    ensures Faded(o.items, Closed(kind, o).items)
  {
  }

  lemma CommitKeepsRestores(s: State, s': State, i: nat)
    requires RestoresSound(s) && Exclusive(s) && Committed(s, s', i) && s.restores[i].phase.Commit?
    ensures RestoresSound(s')
  {
    hide Closed, CreateRows, RestoreSound, Eligible, Faded;
    var r := s.restores[i];
    SessionWrites(s, s', i);
    ClosedFades(r.kind, s.orders[r.order]);
    forall items: seq<Item> ensures Faded(items, items) { FadedSelf(items); }
    forall j | 0 <= j < |s'.restores| ensures RestoreSound(s', s'.restores[j]) {
      var other := s.restores[j];
      assert RestoreSound(s, other);
      if j == i {
        FinishedSound(s, s', other);
      } else {
        assert HoldsOrder(other, other.order) ==> other.order != r.order;
        assert RestoreRows(other) !! RestoreRows(r);
        RestoreInRange(s, other);
        OthersKeepSession(s, s', RestoreRows(r), other);
      }
    }
  }

  lemma FadedSelf(items: seq<Item>)
    ensures Faded(items, items)
  {
  }

  lemma FinishedSound(s: State, s': State, r: Restore)
    requires RestoreSound(s, r)
    ensures RestoreSound(s', r.(phase := Finished(true), added := []))
  {
  }

  lemma SessionWrites(s: State, s': State, i: nat)
    requires i < |s.restores| && RestoreSound(s, s.restores[i]) && Committed(s, s', i) && s.restores[i].phase.Commit?
    ensures WritesRows(s, s', RestoreRows(s.restores[i]))
  {
    hide Closed;
  }

  lemma CommitKeepsExclusive(s: State, s': State, i: nat)
    requires Exclusive(s) && Committed(s, s', i)
    ensures Exclusive(s')
  {
    hide Closed, CreateRows;
  }

  lemma CommitStock(init: map<nat, int>, s: State, i: nat)
    requires StockSound(init, s) && i < |s.restores| && s.restores[i].phase.Commit?
    ensures StockSound(init, StepRestore(s, i))
  {
    hide StepRestore, ShelfSound, CreatesSound, Exclusive, Closed, ItemsSound;
    var r, s' := s.restores[i], StepRestore(s, i);
    assert RestoreSound(s, r) && ItemsSound(init, r.items);
    CommitIs(s, i);
    if s' != s {
      CommitKeepsShelf(init, s, s', i);
      assert ItemsSound(init, s.orders[r.order].items);
      ClosedItems(init, r.kind, s.orders[r.order]);
      CommitKeepsCreates(s, s', i);
      CommitKeepsRestores(s, s', i);
      CommitKeepsExclusive(s, s', i);
    }
  }

  lemma ClosedItems(init: map<nat, int>, kind: RestoreKind, o: Order)
    requires ItemsSound(init, o.items)
    ensures ItemsSound(init, Closed(kind, o).items)
  {
  }

  // ---------------------------------------------------------------- all events

  lemma OrdersChange(init: map<nat, int>, s: State, s': State)
    requires StockSound(init, s) && s'.stock == s.stock && s'.creates == s.creates && s'.restores == s.restores
    requires OrdersSound(init, s'.orders) && OrdersFaded(s.orders, s'.orders)
    requires forall o: nat | o < |s.orders| && s'.orders[o] != s.orders[o] :: OrderFree(s, o)
    ensures StockSound(init, s')
  {
    hide RestoreSound, CreateSound, Faded, ItemsSound;
    forall j | 0 <= j < |s'.restores| ensures RestoreSound(s', s'.restores[j]) {
      var r := s.restores[j];
      assert RestoreSound(s, r);
      RestoreInRange(s, r);
      if HoldsOrder(r, r.order) { assert s'.orders[r.order] == s.orders[r.order]; }
      OthersKeepSession(s, s', {}, r);
    }
  }

  lemma PayStock(init: map<nat, int>, s: State, o: nat)
    requires StockSound(init, s)
    ensures StockSound(init, Next(s, Pay(o)))
  {
    hide ShelfSound, CreateSound, RestoreSound;
    var s' := Next(s, Pay(o));
    if s' != s {
      assert ItemsSound(init, s.orders[o].items);
      OrdersChange(init, s, s');
    }
  }

  lemma VipStock(init: map<nat, int>, s: State, slot: Slot)
    requires StockSound(init, s)
    ensures StockSound(init, Next(s, InsertVip(slot)))
  {
    hide ShelfSound, CreateSound, RestoreSound;
    var s' := Next(s, InsertVip(slot));
    if s' != s {
      OrdersChange(init, s, s');
    }
  }

  /** Events that touch neither the shelf nor any call. */
  lemma ShelfUntouched(init: map<nat, int>, s: State, s': State)
    requires StockSound(init, s) && SameShelf(s, s') && s'.creates == s.creates && s'.restores == s.restores
    ensures StockSound(init, s')
  {
    hide CreateSound, OrdersSound;
    forall j | 0 <= j < |s'.restores| ensures RestoreSound(s', s'.restores[j]) { assert RestoreSound(s, s.restores[j]); }
  }

  lemma BreakStock(init: map<nat, int>, s: State, i: nat)
    requires StockSound(init, s)
    ensures StockSound(init, Next(s, BreakCreate(i)))
  {
    if Next(s, BreakCreate(i)) != s {
      CreateIsSound(init, s, i);
      CreateMoves(init, s, Next(s, BreakCreate(i)), i);
    }
  }

  lemma NextStock(init: map<nat, int>, s: State, e: Event)
    requires StockSound(init, s)
    ensures StockSound(init, Next(s, e))
  {
    hide StockSound, StepCreate, StepRestore, FindOrder;
    var s' := Next(s, e);
    match e
    case StartCreate(slot, payload) =>
      if ValidPayload(payload) { MergeTotal(payload, 0); StartCreateStock(init, s, s'); }
    case AdvanceCreate(i) => if i < |s.creates| { StepCreateStock(init, s, i); }
    case BreakCreate(i) => BreakStock(init, s, i);
    case StartRestore(_, _, _) => StartRestoreStock(init, s, s');
    case AdvanceRestore(i) => if i < |s.restores| { StepRestoreStock(init, s, i); }
    case Pay(o) => PayStock(init, s, o);
    case InsertVip(slot) => VipStock(init, s, slot);
    case ExpireReservation(_) => ShelfUntouched(init, s, s');
    case ExpireResult(_) => ShelfUntouched(init, s, s');
    case Relist(_) => ShelfUntouched(init, s, s');
    case CorruptRedis(_) => ShelfUntouched(init, s, s');
  }

  lemma StartCreateStock(init: map<nat, int>, s: State, s': State)
    requires StockSound(init, s) && SameShelf(s, s') && s'.restores == s.restores
    requires |s'.creates| == |s.creates| + 1 && s'.creates == s.creates + [s'.creates[|s.creates|]]
    requires CreateSound(s.stock, s'.creates[|s.creates|]) && s'.creates[|s.creates|].phase.Lookup?
    ensures StockSound(init, s')
  {
    hide CreateSound, ShelfSound, OrdersSound, RestoreRows;
    forall j | 0 <= j < |s'.restores| ensures RestoreSound(s', s'.restores[j]) { assert RestoreSound(s, s.restores[j]); }
    forall i | 0 <= i < |s'.creates| ensures CreateSound(s'.stock, s'.creates[i]) {
      if i < |s.creates| { assert s'.creates[i] == s.creates[i]; }
    }
    ShelfSame(init, s, s');
  }

  lemma ShelfSame(init: map<nat, int>, s: State, s': State)
    requires ShelfSound(init, s) && SameShelf(s, s')
    ensures ShelfSound(init, s')
  {
  }

  lemma RestoreStays(s: State, s': State, r: Restore)
    requires RestoreSound(s, r) && s'.stock == s.stock && s'.orders == s.orders
    ensures RestoreSound(s', r)
  {
  }

  lemma NewRestoreSound(s: State, r: Restore)
    requires r.phase.ReadOrder? && (r.kind.Refund? ==> r.locked)
    ensures RestoreSound(s, r)
  {
  }

  lemma StartRestoreStock(init: map<nat, int>, s: State, s': State)
    requires StockSound(init, s) && SameShelf(s, s') && s'.creates == s.creates
    requires |s'.restores| == |s.restores| + 1 && s'.restores == s.restores + [s'.restores[|s.restores|]]
    requires var r := s'.restores[|s.restores|]; r.phase.ReadOrder? && r.items == [] && (r.kind.Refund? ==> r.locked)
    ensures StockSound(init, s')
  {
    hide CreateSound, ShelfSound, OrdersSound, CreateRows, RestoreSound;
    forall j | 0 <= j < |s'.restores| ensures RestoreSound(s', s'.restores[j]) {
      if j < |s.restores| {
        assert RestoreSound(s, s.restores[j]) && s'.restores[j] == s.restores[j];
        RestoreStays(s, s', s.restores[j]);
      } else {
        NewRestoreSound(s', s'.restores[j]);
      }
    }
    ShelfSame(init, s, s');
  }

  /** Every run, whoever locks what. */
  lemma {:induction false} RunKeepsStockSound(init: map<nat, int>, events: seq<Event>)
    ensures StockSound(init, Run(Opening(init), events))
  {
    if events == [] {
    } else {
      hide StockSound, Next;
      var n := |events| - 1;
      RunKeepsStockSound(init, events[..n]);
      NextStock(init, Run(Opening(init), events[..n]), events[n]);
    }
  }
}
