/** The loops of order creation as one call runs them, with nobody else at the stock keys. */
module OrderService {
  import opened Sums
  import opened OrderProtocol
  import opened OrderStock
  import opened OrderRedis

  /** The Redis wrapper: stock keys and the three commands used on them. */
  class StockCache {
    var store: map<nat, int>

    constructor (store: map<nat, int>)
      ensures this.store == store
    {
      this.store := store;
    }

    method SetStockIfAbsent(p: nat, stock: int)
      modifies this
      ensures store == SetNx(old(store), p, stock)
    {
      if p !in store { store := store[p := stock]; }
    }

    method DecrStock(p: nat, quantity: int) returns (remaining: int)
      modifies this
      ensures store == IncrBy(old(store), p, -quantity) && remaining == store[p]
    {
      var current := if p in store then store[p] else 0;
      remaining := current - quantity;
      store := store[p := remaining];
    }

    method IncrStock(p: nat, quantity: int) returns (value: int)
      modifies this
      ensures store == IncrBy(old(store), p, quantity) && value == store[p]
    {
      var current := if p in store then store[p] else 0;
      value := current + quantity;
      store := store[p := value];
    }
  }

  /** The list of performed deductions that the caller shares with the loops. */
  class Deductions {
    var rows: seq<Line>

    constructor ()
      ensures rows == []
    {
      rows := [];
    }
  }

  method MergeItems(payload: seq<Line>) returns (lines: seq<Line>)
    ensures lines == Merge(payload)
  {
    lines := [];
    var i := 0;
    while i < |payload|
      invariant 0 <= i <= |payload|
      invariant lines == Merge(payload[..i])
    {
      var item := payload[i];
      var k := 0;
      while k < |lines| && lines[k].product != item.product
        invariant 0 <= k <= |lines|
        invariant forall j | 0 <= j < k :: lines[j].product != item.product
      {
        k := k + 1;
      }
      IndexIs(lines, item.product, k);
      assert payload[..i + 1][..i] == payload[..i];
      if k < |lines| {
        lines := lines[k := Line(item.product, lines[k].quantity + item.quantity)];
      } else {
        lines := lines + [item];
      }
      i := i + 1;
    }
    assert payload[..i] == payload;
  }

  lemma {:induction false} IndexIs(lines: seq<Line>, p: nat, k: nat)
    requires k <= |lines| && (k < |lines| ==> lines[k].product == p)
    requires forall j | 0 <= j < k :: lines[j].product != p
    ensures IndexOf(lines, p) == k
  {
    if k > 0 { IndexIs(lines[1..], p, k - 1); }
  }

  method ValidateProducts(stock: map<nat, int>, offSale: set<nat>, lines: seq<Line>) returns (problem: Option<CreateError>)
    ensures problem == Problem(stock, offSale, lines)
    ensures problem.None? <==> forall k | 0 <= k < |lines| :: Acceptable(stock, offSale, lines[k])
    ensures problem.Some? ==> exists k: nat | k < |lines| :: FirstRefused(stock, offSale, lines, k, problem.value)
  {
    var i := 0;
    assert lines[0..] == lines;
    while i < |lines|
      invariant 0 <= i <= |lines|
      invariant Problem(stock, offSale, lines) == Problem(stock, offSale, lines[i..])
    {
      var l := lines[i];
      assert lines[i..][0] == l && lines[i..][1..] == lines[i + 1..];
      if l.product !in stock || l.product in offSale { return Some(ProductNotAvailable); }
      if stock[l.product] >= 0 && stock[l.product] < l.quantity { return Some(InsufficientStock); }
      i := i + 1;
    }
    return None;
  }

  // ---------------------------------------------------------------- pre-deduction and rollback

  predicate IsFinite(session: map<nat, int>, p: nat) { p in session && session[p] >= 0 }

  /** What a stock key holds, or would hold once seeded from the locked row. */
  function Seeded(store: map<nat, int>, session: map<nat, int>, p: nat): int
    requires p in session
  {
    if p in store then store[p] else session[p]
  }

  /** A line Redis cannot cover. */
  predicate Short(store: map<nat, int>, session: map<nat, int>, l: Line) {
    IsFinite(session, l.product) && Seeded(store, session, l.product) < l.quantity
  }

  /** The store after the finite lines have been seeded and decremented in order. */
  function AfterDeduct(store: map<nat, int>, session: map<nat, int>, lines: seq<Line>): map<nat, int> {
    if lines == [] then store
    else
      var front, l := AfterDeduct(store, session, lines[..|lines| - 1]), lines[|lines| - 1];
      if l.product in session && session[l.product] >= 0 then
        IncrBy(SetNx(front, l.product, session[l.product]), l.product, -l.quantity)
      else front
  }

  /** Each key afterwards: its old or seeded value, less what the lines took of it; no other key appears. */
  lemma {:induction false} DeductValue(store: map<nat, int>, session: map<nat, int>, lines: seq<Line>, p: nat)
    ensures var after := AfterDeduct(store, session, lines);
            && (p in store ==> p in after)
            && (p in after ==> p in store || IsFinite(session, p))
            && (p in after ==> after[p] == (if p in store then store[p] else Value(session, p)) - Sum(Finite(lines, session), QtyOn(p)))
            && (p !in after ==> Sum(Finite(lines, session), QtyOn(p)) == 0)
  {
    if lines != [] {
      var n := |lines| - 1;
      DeductValue(store, session, lines[..n], p);
      SumPush(Finite(lines[..n], session), lines[n], QtyOn(p));
    }
  }

  lemma DeductGrows(store: map<nat, int>, session: map<nat, int>, lines: seq<Line>, i: nat)
    requires i < |lines|
    ensures var front, l := AfterDeduct(store, session, lines[..i]), lines[i];
            AfterDeduct(store, session, lines[..i + 1])
            == if l.product in session && session[l.product] >= 0 then
                 IncrBy(SetNx(front, l.product, session[l.product]), l.product, -l.quantity)
               else front
  {
    assert lines[..i + 1][..i] == lines[..i];
  }

  method RollbackRedisStock(cache: StockCache, deducted: Deductions)
    requires forall k | 0 <= k < |deducted.rows| :: deducted.rows[k].product in cache.store
    modifies cache, deducted
    ensures deducted.rows == []
    ensures cache.store.Keys == old(cache.store).Keys
    ensures forall p: nat | p in cache.store :: cache.store[p] == old(cache.store)[p] + Sum(old(deducted.rows), QtyOn(p))
  {
    var rows, before := deducted.rows, cache.store;
    var i := |rows|;
    assert rows[|rows|..] == [];
    while i > 0
      invariant 0 <= i <= |rows|
      invariant cache.store.Keys == before.Keys
      invariant forall p: nat | p in cache.store :: cache.store[p] == before[p] + Sum(rows[i..], QtyOn(p))
    {
      i := i - 1;
      assert rows[i..] == [rows[i]] + rows[i + 1..];
      forall p: nat ensures Sum(rows[i..], QtyOn(p)) == QtyOn(p)(rows[i]) + Sum(rows[i + 1..], QtyOn(p)) {
        SumAppend([rows[i]], rows[i + 1..], QtyOn(p));
        SumOne(rows[i], QtyOn(p));
      }
      var _ := cache.IncrStock(rows[i].product, rows[i].quantity);
    }
    assert rows[0..] == rows;
    deducted.rows := [];
  }

  /**
   * The pre-deduction succeeds exactly when Redis covers every finite line, and
   * then has taken exactly those lines; otherwise it leaves every key at the
   * value it had, or at the locked stock it was seeded with, and an empty list.
   */
  method PreDeductStock(cache: StockCache, session: map<nat, int>, lines: seq<Line>, deducted: Deductions) returns (ok: bool)
    requires deducted.rows == [] && LinesSound(lines)
    modifies cache, deducted
    ensures ok <==> forall k | 0 <= k < |lines| :: !Short(old(cache.store), session, lines[k])
    ensures ok ==> deducted.rows == Finite(lines, session) && cache.store == AfterDeduct(old(cache.store), session, lines)
    ensures !ok ==> deducted.rows == [] && old(cache.store).Keys <= cache.store.Keys
    ensures !ok ==> forall p: nat | p in cache.store ::
                      cache.store[p] == if p in old(cache.store) then old(cache.store)[p] else Value(session, p)
  {
    hide Finite, AfterDeduct, Sum, LinesSound;
    ghost var before := cache.store;
    var i := 0;
    NothingDeducted(before, session, lines);
    while i < |lines|
      invariant 0 <= i <= |lines|
      invariant deducted.rows == Finite(lines[..i], session)
      invariant cache.store == AfterDeduct(before, session, lines[..i])
      invariant forall k | 0 <= k < |deducted.rows| :: deducted.rows[k].product in cache.store
      invariant forall k | 0 <= k < i :: !Short(before, session, lines[k])
    {
      var l := lines[i];
      FiniteGrows(lines, session, i);
      DeductGrows(before, session, lines, i);
      if l.product in session && session[l.product] >= 0 {
        UntouchedSoFar(before, session, lines, i);
        cache.SetStockIfAbsent(l.product, session[l.product]);
        var remaining := cache.DecrStock(l.product, l.quantity);
        deducted.rows := deducted.rows + [l];
        if remaining < 0 {
          assert Short(before, session, lines[i]);
          RollbackRedisStock(cache, deducted);
          RolledBack(before, cache.store, session, lines[..i + 1]);
          return false;
        }
      }
      i := i + 1;
    }
    assert lines[..i] == lines;
    return true;
  }

  lemma NothingDeducted(store: map<nat, int>, session: map<nat, int>, lines: seq<Line>)
    ensures Finite(lines[..0], session) == [] && AfterDeduct(store, session, lines[..0]) == store
  {
  }

  /** Undoing all that was deducted leaves old and seeded values. */
  lemma RolledBack(before: map<nat, int>, after: map<nat, int>, session: map<nat, int>, lines: seq<Line>)
    requires after.Keys == AfterDeduct(before, session, lines).Keys
    requires forall p: nat | p in after ::
               after[p] == AfterDeduct(before, session, lines)[p] + Sum(Finite(lines, session), QtyOn(p))
    ensures before.Keys <= after.Keys
    ensures forall p: nat | p in after :: after[p] == if p in before then before[p] else Value(session, p)
  {
    forall p: nat | p in after ensures after[p] == if p in before then before[p] else Value(session, p) {
      DeductValue(before, session, lines, p);
    }
    forall p: nat | p in before ensures p in after { DeductValue(before, session, lines, p); }
  }

  /** Nothing of a line's product has been deducted before its turn. */
  lemma UntouchedSoFar(store: map<nat, int>, session: map<nat, int>, lines: seq<Line>, i: nat)
    requires LinesSound(lines) && i < |lines| && IsFinite(session, lines[i].product)
    ensures var after, p := AfterDeduct(store, session, lines[..i]), lines[i].product;
            Value(SetNx(after, p, session[p]), p) == Seeded(store, session, p)
  {
    var p := lines[i].product;
    assert forall k | 0 <= k < i :: lines[..i][k].product != p;
    FiniteLacks(lines[..i], session, p);
    DeductValue(store, session, lines[..i], p);
  }

  lemma {:induction false} FiniteLacks(lines: seq<Line>, session: map<nat, int>, p: nat)
    requires forall k | 0 <= k < |lines| :: lines[k].product != p
    ensures Sum(Finite(lines, session), QtyOn(p)) == 0
  {
    if lines != [] {
      var n := |lines| - 1;
      FiniteLacks(lines[..n], session, p);
      SumPush(Finite(lines[..n], session), lines[n], QtyOn(p));
    }
  }
}
