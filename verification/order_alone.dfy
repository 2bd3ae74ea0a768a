/**
 * One create call that nobody interrupts: its single steps, taken one after
 * another, amount to what the loops of OrderService promise, and to exactly one
 * of six outcomes.
 */
module OrderAlone {
  import opened Sums
  import opened OrderProtocol
  import opened OrderStock
  import opened OrderRedis
  import opened OrderService

  /** Call i takes n steps in a row. */
  function Advance(s: State, i: nat, n: nat): (a: State)
    requires i < |s.creates|
    ensures |a.creates| == |s.creates|
  {
    if n == 0 then s else StepCreate(Advance(s, i, n - 1), i)
  }

  lemma {:induction false} AdvanceMore(s: State, i: nat, m: nat, n: nat)
    requires i < |s.creates|
    ensures Advance(Advance(s, i, m), i, n) == Advance(s, i, m + n)
  {
    hide StepCreate;
    if n > 0 {
      AdvanceMore(s, i, m, n - 1);
    }
  }

  /** Nothing but call i and Redis has changed. */
  predicate OnlyRedis(s: State, a: State, i: nat) {
    && i < |s.creates| == |a.creates|
    && a == s.(redis := a.redis, creates := s.creates[i := a.creates[i]])
  }

  /** The call keeps its request and its view of the rows. */
  predicate SameRequest(c: Create, d: Create) {
    d.slot == c.slot && d.lines == c.lines && d.session == c.session && d.placed == c.placed
  }

  predicate AllCovered(redis: map<nat, int>, c: Create) { forall k | 0 <= k < |c.lines| :: !Short(redis, c.session, c.lines[k]) }

  /** The deduction loop has handled the first k lines. */
  predicate Deducted(redis: map<nat, int>, s: State, c: Create, k: nat) {
    && k <= |c.lines| && c.deducted == Finite(c.lines[..k], c.session)
    && s.redis == AfterDeduct(redis, c.session, c.lines[..k])
    && forall j | 0 <= j < k :: !Short(redis, c.session, c.lines[j])
  }

  /** The deduction has just gone below zero on line k, which is on the list too. */
  predicate Overdrawn(redis: map<nat, int>, s: State, c: Create, k: nat) {
    && k < |c.lines| && c.phase == UndoInner(0) && c.deducted == Finite(c.lines[..k + 1], c.session)
    && s.redis == AfterDeduct(redis, c.session, c.lines[..k + 1])
    && Short(redis, c.session, c.lines[k])
  }

  predicate ReadyToDeduct(c: Create) { LinesSound(c.lines) && c.session.Keys == Products(c.lines) }

  lemma Advances(s: State, i: nat)
    requires i < |s.creates|
    ensures Advance(s, i, 0) == s && Advance(s, i, 1) == StepCreate(s, i)
  {
    hide StepCreate;
    assert Advance(s, i, 0) == s;
  }

  lemma SeedIs(s: State, i: nat, k: nat)
    requires i < |s.creates| && s.creates[i].phase == Seed(k) && k < |s.creates[i].lines|
    ensures var c := s.creates[i]; var p := c.lines[k].product;
            StepCreate(s, i) ==
              if p !in c.session || c.session[p] < 0 then s.(creates := s.creates[i := c.(phase := Seed(k + 1))])
              else s.(creates := s.creates[i := c.(phase := Deduct(k))], redis := SetNx(s.redis, p, c.session[p]))
  {
  }

  lemma DeductIs(s: State, i: nat, k: nat)
    requires i < |s.creates| && s.creates[i].phase == Deduct(k) && k < |s.creates[i].lines|
    ensures var c := s.creates[i]; var l := c.lines[k]; var redis := IncrBy(s.redis, l.product, -l.quantity);
            StepCreate(s, i) == s.(redis := redis, creates := s.creates[i :=
              c.(phase := if redis[l.product] < 0 then UndoInner(0) else Seed(k + 1),
                 deducted := c.deducted + [l], log := c.log + [Line(l.product, -l.quantity)])])
  {
  }

  /** An unlimited line is skipped. */
  lemma SkipLine(redis: map<nat, int>, s: State, i: nat, k: nat)
    requires i < |s.creates| && s.creates[i].phase == Seed(k) && k < |s.creates[i].lines| && Deducted(redis, s, s.creates[i], k)
    requires !IsFinite(s.creates[i].session, s.creates[i].lines[k].product)
    ensures var a := StepCreate(s, i);
            OnlyRedis(s, a, i) && SameRequest(s.creates[i], a.creates[i]) && a.creates[i].phase == Seed(k + 1) && Deducted(redis, a, a.creates[i], k + 1)
  {
    hide Finite, AfterDeduct, StepCreate;
    var c := s.creates[i];
    SeedIs(s, i, k);
    FiniteGrows(c.lines, c.session, k);
    DeductGrows(redis, c.session, c.lines, k);
  }

  /** A finite line is seeded and decremented. */
  lemma TakeLine(redis: map<nat, int>, s: State, i: nat, k: nat)
    requires i < |s.creates| && ReadyToDeduct(s.creates[i])
    requires s.creates[i].phase == Seed(k) && k < |s.creates[i].lines| && Deducted(redis, s, s.creates[i], k)
    requires IsFinite(s.creates[i].session, s.creates[i].lines[k].product)
    ensures var t := StepCreate(s, i);
            i < |t.creates| && var a := StepCreate(t, i);
            && OnlyRedis(s, a, i) && SameRequest(s.creates[i], a.creates[i])
            && ((a.creates[i].phase == Seed(k + 1) && Deducted(redis, a, a.creates[i], k + 1)) || Overdrawn(redis, a, a.creates[i], k))
  {
    hide Finite, AfterDeduct, StepCreate, LinesSound;
    var c := s.creates[i];
    var l := c.lines[k];
    SeedIs(s, i, k);
    DeductIs(StepCreate(s, i), i, k);
    FiniteGrows(c.lines, c.session, k);
    DeductGrows(redis, c.session, c.lines, k);
    UntouchedSoFar(redis, c.session, c.lines, k);
  }

  lemma SeedStep(redis: map<nat, int>, s: State, i: nat, k: nat) returns (n: nat)
    requires i < |s.creates| && ReadyToDeduct(s.creates[i])
    requires s.creates[i].phase == Seed(k) && k < |s.creates[i].lines| && Deducted(redis, s, s.creates[i], k)
    ensures var a := Advance(s, i, n); var c := a.creates[i];
            && OnlyRedis(s, a, i) && SameRequest(s.creates[i], c)
            && ((c.phase == Seed(k + 1) && Deducted(redis, a, c, k + 1)) || Overdrawn(redis, a, c, k))
  {
    hide StepCreate, Deducted, Overdrawn, ReadyToDeduct, OnlyRedis, SameRequest;
    Advances(s, i);
    if IsFinite(s.creates[i].session, s.creates[i].lines[k].product) {
      TakeLine(redis, s, i, k);
      Advances(StepCreate(s, i), i);
      AdvanceMore(s, i, 1, 1);
      n := 2;
    } else {
      SkipLine(redis, s, i, k);
      n := 1;
    }
  }

  /** The rest of the deduction loop. */
  lemma {:induction false} DeductRest(redis: map<nat, int>, s: State, i: nat, k: nat) returns (n: nat, stop: nat)
    requires i < |s.creates| && ReadyToDeduct(s.creates[i])
    requires s.creates[i].phase == Seed(k) && Deducted(redis, s, s.creates[i], k)
    ensures var a := Advance(s, i, n); var c := a.creates[i];
            && OnlyRedis(s, a, i) && SameRequest(s.creates[i], c)
            && ((c.phase == Persist && Deducted(redis, a, c, |c.lines|)) || Overdrawn(redis, a, c, stop))
    decreases |s.creates[i].lines| - k
  {
    hide Deducted, Overdrawn, ReadyToDeduct, StepCreate, OnlyRedis;
    Advances(s, i);
    var c := s.creates[i];
    DeductedBound(redis, s, c, k);
    if k == |c.lines| {
      n, stop := 1, 0;
      LoopEnds(redis, s, i);
    } else {
      var m := SeedStep(redis, s, i, k);
      var t := Advance(s, i, m);
      if t.creates[i].phase == Seed(k + 1) && Deducted(redis, t, t.creates[i], k + 1) {
        SameRequestReady(c, t.creates[i]);
        var rest: nat;
        rest, stop := DeductRest(redis, t, i, k + 1);
        n := m + rest;
        AdvanceMore(s, i, m, rest);
        OnlyRedisOn(s, t, Advance(s, i, n), i);
      } else {
        n, stop := m, k;
      }
    }
  }

  lemma DeductedBound(redis: map<nat, int>, s: State, c: Create, k: nat)
    requires Deducted(redis, s, c, k)
    ensures k <= |c.lines|
  {
  }

  lemma SameRequestReady(c: Create, d: Create)
    requires SameRequest(c, d) && ReadyToDeduct(c)
    ensures ReadyToDeduct(d)
  {
  }

  lemma LoopEnds(redis: map<nat, int>, s: State, i: nat)
    requires i < |s.creates| && s.creates[i].phase == Seed(|s.creates[i].lines|) && Deducted(redis, s, s.creates[i], |s.creates[i].lines|)
    ensures var a := StepCreate(s, i);
            OnlyRedis(s, a, i) && SameRequest(s.creates[i], a.creates[i]) && a.creates[i].phase == Persist
            && Deducted(redis, a, a.creates[i], |a.creates[i].lines|)
  {
  }

  // ---------------------------------------------------------------- compensation

  /** The same compensation loop after u deductions. */
  predicate SameLoop(p: CreatePhase, q: CreatePhase, u: nat) {
    match p
    case UndoInner(_) => q == UndoInner(u)
    case ConflictUndo(_) => q == ConflictUndo(u)
    case UndoOuter(error, _) => q == UndoOuter(error, u)
    case _ => false
  }

  /** Where the loop leads when its list is done. */
  predicate LoopDone(p: CreatePhase, q: CreatePhase) {
    match p
    case UndoInner(_) => q == Abort(InsufficientStock)
    case ConflictUndo(_) => q == ConflictUnlock
    case UndoOuter(error, _) => q == Unlock(error)
    case _ => false
  }

  /** The compensation loop has undone the last u deductions. */
  predicate UndoneLast(s0: State, s: State, i: nat, u: nat)
    requires i < |s0.creates|
  {
    var c := s0.creates[i];
    && i < |s.creates| && u <= |c.deducted|
    && SameLoop(c.phase, s.creates[i].phase, u) && s.creates[i].deducted == c.deducted
    && s.redis.Keys == s0.redis.Keys
    && forall p: nat | p in s.redis :: s.redis[p] == s0.redis[p] + Sum(c.deducted[|c.deducted| - u..], QtyOn(p))
  }

  lemma UndoOne(s0: State, s: State, i: nat, u: nat)
    requires i < |s0.creates| && UndoneLast(s0, s, i, u) && u < |s0.creates[i].deducted|
    requires forall k | 0 <= k < |s0.creates[i].deducted| :: s0.creates[i].deducted[k].product in s0.redis
    ensures UndoneLast(s0, StepCreate(s, i), i, u + 1)
    ensures OnlyRedis(s, StepCreate(s, i), i) && SameRequest(s.creates[i], StepCreate(s, i).creates[i])
  {
    hide Sum;
    var d := s0.creates[i].deducted;
    var k := |d| - 1 - u;
    assert d[k..] == [d[k]] + d[k + 1..];
    forall p: nat ensures Sum(d[k..], QtyOn(p)) == QtyOn(p)(d[k]) + Sum(d[k + 1..], QtyOn(p)) {
      SumAppend([d[k]], d[k + 1..], QtyOn(p));
      SumOne(d[k], QtyOn(p));
    }
  }

  lemma {:induction false} UndoAll(s0: State, s: State, i: nat, u: nat) returns (n: nat)
    requires i < |s0.creates| && UndoneLast(s0, s, i, u)
    requires forall k | 0 <= k < |s0.creates[i].deducted| :: s0.creates[i].deducted[k].product in s0.redis
    ensures var a := Advance(s, i, n);
            && OnlyRedis(s, a, i) && SameRequest(s.creates[i], a.creates[i])
            && LoopDone(s0.creates[i].phase, a.creates[i].phase) && a.creates[i].deducted == []
            && a.redis.Keys == s0.redis.Keys
            && forall p: nat | p in a.redis :: a.redis[p] == s0.redis[p] + Sum(s0.creates[i].deducted, QtyOn(p))
    decreases |s0.creates[i].deducted| - u
  {
    hide UndoneLast, StepCreate, Sum, OnlyRedis, QtyOn, LoopDone;
    UndoneBound(s0, s, i, u);
    Advances(s, i);
    if u == |s0.creates[i].deducted| {
      n := 1;
      UndoEnds(s0, s, i);
    } else {
      UndoOne(s0, s, i, u);
      var m := UndoAll(s0, StepCreate(s, i), i, u + 1);
      n := 1 + m;
      AdvanceMore(s, i, 1, m);
      OnlyRedisOn(s, StepCreate(s, i), Advance(s, i, n), i);
    }
  }

  lemma UndoneBound(s0: State, s: State, i: nat, u: nat)
    requires i < |s0.creates| && UndoneLast(s0, s, i, u)
    ensures i < |s.creates| && u <= |s0.creates[i].deducted|
  {
  }

  lemma OnlyRedisOn(s: State, t: State, a: State, i: nat)
    requires OnlyRedis(s, t, i) && OnlyRedis(t, a, i)
    ensures OnlyRedis(s, a, i)
  {
  }

  lemma UndoEnds(s0: State, s: State, i: nat)
    requires i < |s0.creates| && UndoneLast(s0, s, i, |s0.creates[i].deducted|)
    ensures var a := StepCreate(s, i);
            && OnlyRedis(s, a, i) && SameRequest(s.creates[i], a.creates[i])
            && LoopDone(s0.creates[i].phase, a.creates[i].phase) && a.creates[i].deducted == []
            && a.redis.Keys == s0.redis.Keys
            && forall p: nat | p in a.redis :: a.redis[p] == s0.redis[p] + Sum(s0.creates[i].deducted, QtyOn(p))
  {
    var d := s0.creates[i].deducted;
    assert d[0..] == d;
  }

  // ---------------------------------------------------------------- the deduction loop as one operation

  /** What pre-deduction promises: all lines taken, or every key at its old or seeded value and an empty list. */
  predicate PreDeducted(s: State, a: State, i: nat)
    requires i < |s.creates|
  {
    var c := s.creates[i];
    && OnlyRedis(s, a, i) && SameRequest(c, a.creates[i])
    && if AllCovered(s.redis, c) then
         && a.creates[i].phase == Persist && a.creates[i].deducted == Finite(c.lines, c.session)
         && a.redis == AfterDeduct(s.redis, c.session, c.lines)
       else
         && a.creates[i].phase == Abort(InsufficientStock) && a.creates[i].deducted == []
         && s.redis.Keys <= a.redis.Keys
         && forall p: nat | p in a.redis :: a.redis[p] == if p in s.redis then s.redis[p] else Value(c.session, p)
  }

  lemma OverdrawnReturns(s: State, t: State, i: nat, k: nat) returns (n: nat)
    requires i < |s.creates| == |t.creates| && OnlyRedis(s, t, i) && SameRequest(s.creates[i], t.creates[i])
    requires Overdrawn(s.redis, t, t.creates[i], k)
    ensures PreDeducted(s, Advance(t, i, n), i)
  {
    hide Finite, AfterDeduct, Sum, StepCreate, QtyOn;
    var c := t.creates[i];
    assert c.deducted[|c.deducted|..] == [];
    forall p: nat ensures Sum(c.deducted[|c.deducted|..], QtyOn(p)) == 0 { SumZero(c.deducted[|c.deducted|..], QtyOn(p)); }
    FiniteInStore(s.redis, c.session, c.lines[..k + 1]);
    n := UndoAll(t, t, i, 0);
    RolledBack(s.redis, Advance(t, i, n).redis, c.session, c.lines[..k + 1]);
    OnlyRedisOn(s, t, Advance(t, i, n), i);
    assert !AllCovered(s.redis, s.creates[i]);
  }

  /** Every key on the list exists after the deductions. */
  lemma {:induction false} FiniteInStore(store: map<nat, int>, session: map<nat, int>, lines: seq<Line>)
    ensures forall j | 0 <= j < |Finite(lines, session)| :: Finite(lines, session)[j].product in AfterDeduct(store, session, lines)
  {
    if lines != [] {
      FiniteInStore(store, session, lines[..|lines| - 1]);
    }
  }

  /**
   * Undisturbed, the single steps of the deduction loop and its compensation
   * do what the method PreDeductStock promises for the same cache and lines.
   */
  lemma PreDeductAlone(s: State, i: nat) returns (n: nat)
    requires i < |s.creates| && ReadyToDeduct(s.creates[i]) && s.creates[i].phase == Seed(0) && s.creates[i].deducted == []
    ensures PreDeducted(s, Advance(s, i, n), i)
  {
    hide StepCreate, Overdrawn, Finite, AfterDeduct;
    var c := s.creates[i];
    NothingDeducted(s.redis, c.session, c.lines);
    var m, stop := DeductRest(s.redis, s, i, 0);
    var t := Advance(s, i, m);
    if t.creates[i].phase == Persist && Deducted(s.redis, t, t.creates[i], |c.lines|) {
      n := m;
      assert c.lines[..|c.lines|] == c.lines;
    } else {
      var u := OverdrawnReturns(s, t, i, stop);
      n := m + u;
      AdvanceMore(s, i, m, u);
    }
  }

  // ---------------------------------------------------------------- the whole call

  function View(s: State, c: Create): map<nat, int> { SessionRows(s.stock, Products(c.lines)) }

  /** The call in the given phase, everything else as in s but for the reservation. */
  function At(s: State, i: nat, c: Create, reserved: set<Slot>): State
    requires i < |s.creates|
  {
    s.(creates := s.creates[i := c], reserved := reserved)
  }

  lemma FirstSteps(s: State, i: nat)
    requires i < |s.creates| && s.creates[i].phase == Lookup && FindOrder(s.orders, s.creates[i].slot).None?
    requires !(s.creates[i].slot in s.results && s.results[s.creates[i].slot] < |s.orders|)
    ensures Advance(s, i, 2) == At(s, i, s.creates[i].(phase := Reserve), s.reserved)
  {
    hide FindOrder;
    Advances(s, i);
    var t := StepCreate(s, i);
    assert t == At(s, i, s.creates[i].(phase := ReadCache), s.reserved);
    assert Advance(s, i, 2) == StepCreate(t, i);
  }

  lemma ReserveSteps(s: State, t: State, i: nat)
    requires i < |s.creates| && s.creates[i].phase == Lookup && s.creates[i].slot !in s.reserved && RowsFree(s, Products(s.creates[i].lines))
    requires t == At(s, i, s.creates[i].(phase := Reserve), s.reserved)
    ensures var c := s.creates[i]; var problem := Problem(s.stock, s.offSale, c.lines);
            Advance(t, i, 2) == At(s, i, if problem.Some? then c.(phase := Abort(problem.value)) else c.(phase := Seed(0), session := View(s, c)),
                                   s.reserved + {c.slot})
  {
    hide Problem, SessionRows, Products;
    var c := s.creates[i];
    Advances(t, i);
    var u := StepCreate(t, i);
    assert u == At(s, i, c.(phase := LoadRows), s.reserved + {c.slot});
    assert RowsFree(u, Products(c.lines));
    assert Advance(t, i, 2) == StepCreate(u, i);
  }

  /** An aborted call with an empty list releases its reservation and raises. */
  lemma AbortSteps(s: State, i: nat, error: CreateError)
    requires i < |s.creates| && s.creates[i].phase == Abort(error) && s.creates[i].deducted == []
    ensures Advance(s, i, 3) == At(s, i, s.creates[i].(phase := Raised(error)), s.reserved - {s.creates[i].slot})
  {
    var c := s.creates[i];
    Advances(s, i);
    var t := StepCreate(s, i);
    assert t == At(s, i, c.(phase := UndoOuter(error, 0)), s.reserved);
    var u := StepCreate(t, i);
    assert Advance(s, i, 2) == u;
    assert u == At(s, i, c.(phase := Unlock(error)), s.reserved);
    assert Advance(s, i, 3) == StepCreate(u, i);
  }

  /** All that the call has deducted is back, its reservation is gone, and nothing else has changed. */
  predicate Compensated(s: State, a: State, i: nat)
    requires i < |s.creates|
  {
    && i < |a.creates| && a.creates[i].deducted == [] && SameBooks(s, a.(redis := s.redis))
    && a.reserved == s.reserved - {s.creates[i].slot} && a.redis.Keys == s.redis.Keys
    && forall p: nat | p in a.redis :: a.redis[p] == s.redis[p] + Sum(s.creates[i].deducted, QtyOn(p))
  }

  /** Every product on the list has a key. */
  predicate KeysThere(s: State, c: Create) { forall k | 0 <= k < |c.deducted| :: c.deducted[k].product in s.redis }

  lemma LoopStarts(s: State, t: State, i: nat)
    requires i < |s.creates| == |t.creates| && t == s.(creates := s.creates[i := t.creates[i]])
    requires t.creates[i].deducted == s.creates[i].deducted && SameLoop(t.creates[i].phase, t.creates[i].phase, 0)
    ensures UndoneLast(t, t, i, 0)
  {
    var d := t.creates[i].deducted;
    assert d[|d|..] == [];
    forall p: nat ensures Sum(d[|d|..], QtyOn(p)) == 0 { SumZero(d[|d|..], QtyOn(p)); }
  }

  /**
   * A call that meets the unique key of an order placed meanwhile, undisturbed:
   * it gives back all it took, frees its reservation and returns that order.
   */
  lemma ConflictAlone(s: State, i: nat) returns (n: nat)
    requires i < |s.creates| && s.creates[i].phase == Persist && KeysThere(s, s.creates[i])
    requires exists o | 0 <= o < |s.orders| :: s.orders[o].slot == s.creates[i].slot
    ensures var a := Advance(s, i, n);
            && Compensated(s, a, i) && a.creates[i].phase.Returned?
            && var o := a.creates[i].phase.order; o < |s.orders| && s.orders[o].slot == s.creates[i].slot
  {
    hide StepCreate, UndoneLast, Sum, QtyOn;
    var c := s.creates[i];
    Advances(s, i);
    ConflictStarts(s, i);
    var t := StepCreate(s, i);
    LoopStarts(s, t, i);
    var m := UndoAll(t, t, i, 0);
    AdvanceMore(s, i, 1, m);
    ConflictEnds(s, Advance(t, i, m), i);
    AdvanceMore(s, i, 1 + m, 2);
    n := 1 + m + 2;
  }

  lemma ConflictStarts(s: State, i: nat)
    requires i < |s.creates| && s.creates[i].phase == Persist && FindOrder(s.orders, s.creates[i].slot).Some?
    ensures StepCreate(s, i) == s.(creates := s.creates[i := s.creates[i].(phase := ConflictUndo(0))])
  {
    hide FindOrder;
  }

  lemma ConflictEnds(s: State, t: State, i: nat)
    requires i < |s.creates| && i < |t.creates| && t.creates[i].phase == ConflictUnlock && t.creates[i].slot == s.creates[i].slot
    requires t.orders == s.orders && FindOrder(s.orders, s.creates[i].slot).Some?
    ensures Advance(t, i, 2) == At(t, i, t.creates[i].(phase := Returned(FindOrder(s.orders, s.creates[i].slot).value)), t.reserved - {t.creates[i].slot})
  {
    hide FindOrder;
    Advances(t, i);
    var u := StepCreate(t, i);
    assert u == At(t, i, t.creates[i].(phase := Relookup), t.reserved - {t.creates[i].slot});
    assert Advance(t, i, 2) == StepCreate(u, i);
  }

  /** A call that fails with deductions on its list, undisturbed: it gives them back, frees its reservation and raises. */
  lemma FailureAlone(s: State, i: nat, error: CreateError) returns (n: nat)
    requires i < |s.creates| && s.creates[i].phase == Abort(error) && KeysThere(s, s.creates[i])
    ensures var a := Advance(s, i, n); Compensated(s, a, i) && a.creates[i].phase == Raised(error)
  {
    hide StepCreate, UndoneLast, Sum, QtyOn;
    Advances(s, i);
    FailureStarts(s, i, error);
    var t := StepCreate(s, i);
    LoopStarts(s, t, i);
    var m := UndoAll(t, t, i, 0);
    AdvanceMore(s, i, 1, m);
    FailureEnds(Advance(t, i, m), i, error);
    AdvanceMore(s, i, 1 + m, 1);
    n := 1 + m + 1;
  }

  lemma FailureStarts(s: State, i: nat, error: CreateError)
    requires i < |s.creates| && s.creates[i].phase == Abort(error)
    ensures StepCreate(s, i) == s.(creates := s.creates[i := s.creates[i].(phase := UndoOuter(error, 0))])
  {
  }

  lemma FailureEnds(t: State, i: nat, error: CreateError)
    requires i < |t.creates| && t.creates[i].phase == Unlock(error)
    ensures Advance(t, i, 1) == At(t, i, t.creates[i].(phase := Raised(error)), t.reserved - {t.creates[i].slot})
  {
    Advances(t, i);
  }

  lemma CommitSteps(s: State, i: nat)
    requires i < |s.creates| && s.creates[i].phase == Persist && FindOrder(s.orders, s.creates[i].slot).None?
    ensures var c := s.creates[i]; var a := Advance(s, i, 2);
            && a.creates[i].phase == Returned(|s.orders|)
            && a.orders == s.orders + [Order(c.slot, NewItems(c.lines, c.session), Pending, Unpaid)]
            && a.stock == s.stock + SoldRows(c.lines, c.session)
            && a.redis == s.redis && a.reserved == s.reserved && a.results == s.results[c.slot := |s.orders|]
  {
    hide FindOrder, NewItems, SoldRows;
    Advances(s, i);
    assert StepCreate(s, i) == CommitOrder(s, i);
    assert Advance(s, i, 2) == StepCreate(CommitOrder(s, i), i);
  }

  predicate SameBooks(s: State, a: State) { a.orders == s.orders && a.stock == s.stock && a.redis == s.redis && a.results == s.results }

  /** The one outcome a call has when it runs alone, read off the state it starts in. */
  predicate Concluded(s: State, a: State, i: nat)
    requires i < |s.creates|
  {
    var c := s.creates[i];
    var found, problem := FindOrder(s.orders, c.slot), Problem(s.stock, s.offSale, c.lines);
    var seen := c.(session := View(s, c));
    && i < |a.creates|
    && if found.Some? then
         a.creates[i].phase == Returned(found.value) && SameBooks(s, a) && a.reserved == s.reserved
       else if c.slot in s.results && s.results[c.slot] < |s.orders| then
         a.creates[i].phase == Returned(s.results[c.slot]) && SameBooks(s, a) && a.reserved == s.reserved
       else if c.slot in s.reserved then
         a.creates[i].phase == Raised(IdempotencyConflict) && SameBooks(s, a) && a.reserved == s.reserved
       else if problem.Some? then
         a.creates[i].phase == Raised(problem.value) && SameBooks(s, a) && a.reserved == s.reserved
       else if !AllCovered(s.redis, seen) then
         && a.creates[i].phase == Raised(InsufficientStock) && a.reserved == s.reserved
         && SameBooks(s, a.(redis := s.redis)) && s.redis.Keys <= a.redis.Keys
         && forall p: nat | p in a.redis :: a.redis[p] == if p in s.redis then s.redis[p] else Value(seen.session, p)
       else
         && a.creates[i].phase == Returned(|s.orders|)
         && a.orders == s.orders + [Order(c.slot, NewItems(c.lines, seen.session), Pending, Unpaid)]
         && a.stock == s.stock + SoldRows(c.lines, seen.session)
         && a.redis == AfterDeduct(s.redis, seen.session, c.lines)
         && a.reserved == s.reserved + {c.slot} && a.results == s.results[c.slot := |s.orders|]
  }

  predicate JustCalled(s: State, i: nat) {
    && i < |s.creates| && s.creates[i].phase == Lookup && s.creates[i].deducted == []
    && LinesSound(s.creates[i].lines) && RowsFree(s, Products(s.creates[i].lines))
  }

  predicate Replays(s: State, c: Create) {
    FindOrder(s.orders, c.slot).Some? || (c.slot in s.results && s.results[c.slot] < |s.orders|)
  }

  /** The early answers: an order that is already there, or a request already under way. */
  lemma AnswersEarly(s: State, i: nat) returns (n: nat)
    requires JustCalled(s, i) && (Replays(s, s.creates[i]) || s.creates[i].slot in s.reserved)
    ensures Concluded(s, Advance(s, i, n), i)
  {
    hide Problem, AllCovered, SessionRows, AfterDeduct, NewItems, SoldRows, FindOrder, LinesSound, RowsFree;
    var c := s.creates[i];
    Advances(s, i);
    if FindOrder(s.orders, c.slot).Some? {
      n := 1;
    } else if c.slot in s.results && s.results[c.slot] < |s.orders| {
      n := 2;
      var t := StepCreate(s, i);
      assert t == At(s, i, c.(phase := ReadCache), s.reserved);
      assert Advance(s, i, 2) == StepCreate(t, i);
    } else {
      n := 3;
      FirstSteps(s, i);
      assert Advance(s, i, 3) == StepCreate(Advance(s, i, 2), i);
    }
  }

  /** The call has reserved its slot and locked its rows, or validation has refused a line. */
  lemma Validated(s: State, i: nat)
    requires JustCalled(s, i) && !Replays(s, s.creates[i]) && s.creates[i].slot !in s.reserved
    ensures var c := s.creates[i]; var problem := Problem(s.stock, s.offSale, c.lines);
            Advance(s, i, 4) == At(s, i, if problem.Some? then c.(phase := Abort(problem.value)) else c.(phase := Seed(0), session := View(s, c)),
                                   s.reserved + {c.slot})
  {
    hide Problem, SessionRows, FindOrder, LinesSound, RowsFree, StepCreate;
    FirstSteps(s, i);
    ReserveSteps(s, Advance(s, i, 2), i);
    AdvanceMore(s, i, 2, 2);
  }

  lemma RefusedLine(s: State, i: nat)
    requires JustCalled(s, i) && !Replays(s, s.creates[i]) && s.creates[i].slot !in s.reserved
    requires Problem(s.stock, s.offSale, s.creates[i].lines).Some?
    ensures Concluded(s, Advance(s, i, 7), i)
  {
    hide Problem, SessionRows, FindOrder, LinesSound, RowsFree, StepCreate, AllCovered, AfterDeduct, NewItems, SoldRows;
    Validated(s, i);
    var t := Advance(s, i, 4);
    AbortSteps(t, i, Problem(s.stock, s.offSale, s.creates[i].lines).value);
    AdvanceMore(s, i, 4, 3);
  }

  lemma ViewReady(s: State, c: Create)
    requires LinesSound(c.lines) && Problem(s.stock, s.offSale, c.lines).None?
    ensures ReadyToDeduct(c.(phase := Seed(0), session := View(s, c)))
  {
    hide LinesSound;
    SessionLines(s.stock, c.lines);
  }

  /** The state in which an admitted call starts its deductions. */
  function Admitted(s: State, i: nat): State
    requires i < |s.creates|
  {
    var c := s.creates[i];
    At(s, i, c.(phase := Seed(0), session := View(s, c)), s.reserved + {c.slot})
  }

  predicate IsAdmitted(s: State, i: nat) {
    && JustCalled(s, i) && !Replays(s, s.creates[i]) && s.creates[i].slot !in s.reserved
    && Problem(s.stock, s.offSale, s.creates[i].lines).None?
  }

  lemma PlacesCovered(s: State, u: State, i: nat)
    requires IsAdmitted(s, i) && PreDeducted(Admitted(s, i), u, i) && AllCovered(s.redis, Admitted(s, i).creates[i])
    ensures Concluded(s, Advance(u, i, 2), i)
  {
    hide Problem, SessionRows, FindOrder, LinesSound, RowsFree, StepCreate, AfterDeduct, NewItems, SoldRows, Finite, Advance, Short;
    CommitSteps(u, i);
  }

  lemma RaisesShort(s: State, u: State, i: nat)
    requires IsAdmitted(s, i) && PreDeducted(Admitted(s, i), u, i) && !AllCovered(s.redis, Admitted(s, i).creates[i])
    ensures Concluded(s, Advance(u, i, 3), i)
  {
    hide Problem, SessionRows, FindOrder, LinesSound, RowsFree, StepCreate, AfterDeduct, NewItems, SoldRows, Finite, Advance, Short;
    AbortSteps(u, i, InsufficientStock);
  }

  lemma Places(s: State, i: nat) returns (n: nat)
    requires IsAdmitted(s, i)
    ensures Concluded(s, Advance(s, i, n), i)
  {
    hide Problem, SessionRows, FindOrder, LinesSound, RowsFree, StepCreate, PreDeducted, Concluded, AllCovered, ReadyToDeduct;
    var t := Admitted(s, i);
    Validated(s, i);
    ViewReady(s, s.creates[i]);
    var m := PreDeductAlone(t, i);
    AdvanceMore(s, i, 4, m);
    if AllCovered(t.redis, t.creates[i]) {
      PlacesCovered(s, Advance(t, i, m), i);
      AdvanceMore(s, i, 4 + m, 2);
      n := 4 + m + 2;
    } else {
      RaisesShort(s, Advance(t, i, m), i);
      AdvanceMore(s, i, 4 + m, 3);
      n := 4 + m + 3;
    }
  }

  /**
   * A create call that runs alone ends, and ends as its starting state says: it
   * returns the order that is already there, or raises for a request under way,
   * a line validation refuses, or stock Redis does not have, leaving no trace
   * but seeded keys; otherwise it places exactly its merged lines.
   */
  lemma CreateAlone(s: State, i: nat) returns (n: nat)
    requires JustCalled(s, i)
    ensures Concluded(s, Advance(s, i, n), i)
  {
    hide Concluded, Problem, LinesSound, RowsFree;
    if Replays(s, s.creates[i]) || s.creates[i].slot in s.reserved {
      n := AnswersEarly(s, i);
    } else if Problem(s.stock, s.offSale, s.creates[i].lines).Some? {
      RefusedLine(s, i);
      n := 7;
    } else {
      n := Places(s, i);
    }
  }
}
