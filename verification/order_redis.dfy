/** Redis mirrors the shelf up to work in flight, and a failed create undoes exactly what it did. */
module OrderRedis {
  import opened Sums
  import opened OrderProtocol
  import opened OrderStock

  // ---------------------------------------------------------------- what a call has deducted so far

  /** The lines whose product is finite in this session: the ones pre-deducted in Redis. */
  function Finite(lines: seq<Line>, session: map<nat, int>): seq<Line> {
    if lines == [] then []
    else
      var front, l := Finite(lines[..|lines| - 1], session), lines[|lines| - 1];
      if l.product in session && session[l.product] >= 0 then front + [l] else front
  }

  /** What the list `deducted` holds at each statement of a create call. */
  predicate Progress(c: Create) {
    && (c.placed.Some? ==> c.phase.CacheResult? || c.phase.Returned?)
    && (c.placed.None? ==> !c.phase.CacheResult?)
    && match c.phase
       case Seed(k) => k <= |c.lines| && c.deducted == Finite(c.lines[..k], c.session)
       case Deduct(k) =>
         && k < |c.lines| && c.deducted == Finite(c.lines[..k], c.session)
         && c.lines[k].product in c.session && c.session[c.lines[k].product] >= 0
       case Persist => c.deducted == Finite(c.lines, c.session)
       case UndoInner(n) => n <= |c.deducted|
       case ConflictUndo(n) => n <= |c.deducted|
       case UndoOuter(_, n) => n <= |c.deducted|
       case Abort(_) => true
       case CacheResult(_) => true
       case Returned(_) => c.placed.None? ==> c.deducted == []
       case _ => c.deducted == []
  }

  /** The Redis increments a call has made cancel its outstanding decrements, product by product. */
  ghost predicate LogMatches(c: Create) { forall p: nat :: Sum(c.log, QtyOn(p)) + Sum(Outstanding(c), QtyOn(p)) == 0 }

  lemma FiniteGrows(lines: seq<Line>, session: map<nat, int>, k: nat)
    requires k < |lines|
    ensures Finite(lines[..k + 1], session)
         == if lines[k].product in session && session[lines[k].product] >= 0 then Finite(lines[..k], session) + [lines[k]]
            else Finite(lines[..k], session)
  {
    assert lines[..k + 1][..k] == lines[..k];
  }

  lemma OutsideProgress(s: State, c: Create)
    requires !Undoing(c.phase) && !IsInside(c.phase) && Progress(c)
    ensures var c' := Outside(s, c).0;
            Progress(c') && c'.log == c.log && c'.deducted == c.deducted && Outstanding(c') == Outstanding(c)
  {
    hide FindOrder, Finite;
  }

  lemma InsideProgress(s: State, c: Create)
    requires IsInside(c.phase) && Progress(c) && LogMatches(c)
    ensures Progress(Inside(s, c).0) && LogMatches(Inside(s, c).0)
  {
    if c.phase.Deduct? { DeductProgress(s, c); } else { QuietProgress(s, c); }
  }

  lemma QuietProgress(s: State, c: Create)
    requires IsInside(c.phase) && !c.phase.Deduct? && Progress(c) && LogMatches(c)
    ensures Progress(Inside(s, c).0) && LogMatches(Inside(s, c).0)
  {
    hide RowsFree, Problem, SessionRows, SetNx, Products, LogMatches;
    var c' := Inside(s, c).0;
    if c.phase.Seed? && c.phase.line < |c.lines| { FiniteGrows(c.lines, c.session, c.phase.line); }
    if c.phase.Seed? && c.phase.line >= |c.lines| { assert c.lines[..c.phase.line] == c.lines; }
    assert Outstanding(c') == Outstanding(c);
    SameLog(c, c');
  }

  lemma DeductProgress(s: State, c: Create)
    requires c.phase.Deduct? && Progress(c) && LogMatches(c)
    ensures Progress(Inside(s, c).0) && LogMatches(Inside(s, c).0)
  {
    hide IncrBy, Finite;
    var c', l := Inside(s, c).0, c.lines[c.phase.line];
    FiniteGrows(c.lines, c.session, c.phase.line);
    assert c'.deducted == c.deducted + [l];
    assert Outstanding(c') == c.deducted + [l] && Outstanding(c) == c.deducted;
    DeductLog(c, c', l);
  }

  lemma DeductLog(c: Create, c': Create, l: Line)
    requires LogMatches(c) && Outstanding(c') == Outstanding(c) + [l] && c'.log == c.log + [Line(l.product, -l.quantity)]
    ensures LogMatches(c')
  {
    hide Outstanding;
    forall p: nat ensures Sum(c'.log, QtyOn(p)) + Sum(Outstanding(c'), QtyOn(p)) == 0 {
      SumPush(Outstanding(c), l, QtyOn(p));
      SumPush(c.log, Line(l.product, -l.quantity), QtyOn(p));
    }
  }

  lemma UndoProgress(s: State, c: Create)
    requires Undoing(c.phase) && Progress(c) && LogMatches(c)
    ensures Progress(Undo(s, c).0) && LogMatches(Undo(s, c).0)
    ensures var c', n := Undo(s, c).0, Undone(c.phase);
            if n < |c.deducted| then
              Outstanding(c) == Outstanding(c') + [c.deducted[|c.deducted| - 1 - n]]
            else Outstanding(c) == [] == Outstanding(c')
  {
    hide IncrBy, Finite;
    var c', n := Undo(s, c).0, Undone(c.phase);
    if n < |c.deducted| {
      var l := c.deducted[|c.deducted| - 1 - n];
      assert Outstanding(c) == Outstanding(c') + [l];
      forall p: nat ensures Sum(c'.log, QtyOn(p)) + Sum(Outstanding(c'), QtyOn(p)) == 0 {
        SumPush(Outstanding(c'), l, QtyOn(p));
        SumPush(c.log, l, QtyOn(p));
      }
    }
  }

  ghost predicate CallsTidy(s: State) { forall i | 0 <= i < |s.creates| :: Progress(s.creates[i]) && LogMatches(s.creates[i]) }

  /** The one create call an event moves. */
  lemma StepTidy(s: State, i: nat)
    requires CallsTidy(s) && i < |s.creates|
    ensures CallsTidy(StepCreate(s, i))
  {
    hide Undo, Inside, Outside, Commits, Progress, LogMatches;
    var c, s' := s.creates[i], StepCreate(s, i);
    assert Progress(c) && LogMatches(c);
    if Commits(s, c) { CommitTidy(s, i); }
    else if Undoing(c.phase) { UndoProgress(s, c); }
    else if IsInside(c.phase) { InsideProgress(s, c); }
    else { OutsideProgress(s, c); SameLog(c, Outside(s, c).0); }
    assert Progress(s'.creates[i]) && LogMatches(s'.creates[i]);
  }

  lemma SameLog(c: Create, c': Create)
    requires LogMatches(c) && c'.log == c.log && Outstanding(c') == Outstanding(c)
    ensures LogMatches(c')
  {
  }

  lemma CommitTidy(s: State, i: nat)
    requires i < |s.creates| && Commits(s, s.creates[i]) && Progress(s.creates[i]) && LogMatches(s.creates[i])
    ensures var c' := CommitOrder(s, i).creates[i];
            Progress(c') && LogMatches(c') && c'.deducted == s.creates[i].deducted && c'.placed.Some?
  {
  }

  lemma NextTidy(s: State, e: Event)
    requires CallsTidy(s)
    ensures CallsTidy(Next(s, e))
  {
    hide StepCreate, StepRestore, Progress, LogMatches, FindOrder;
    match e
    case AdvanceCreate(i) => if i < |s.creates| { StepTidy(s, i); }
    case BreakCreate(i) => if i < |s.creates| { BreakTidy(s, i); }
    case AdvanceRestore(i) => if i < |s.restores| { RestoreKeepsCreates(s, i); }
    case StartCreate(slot, payload) => NewCallTidy(slot, Merge(payload));
    case StartRestore(_, _, _) =>
    case Pay(_) =>
    case InsertVip(_) =>
    case ExpireReservation(_) =>
    case ExpireResult(_) =>
    case Relist(_) =>
    case CorruptRedis(_) =>
  }

  lemma BreakTidy(s: State, i: nat)
    requires CallsTidy(s) && i < |s.creates|
    ensures CallsTidy(Next(s, BreakCreate(i)))
  {
    var c := s.creates[i];
    assert Progress(c) && LogMatches(c);
    if Next(s, BreakCreate(i)) != s { SameLog(c, c.(phase := Abort(OtherError))); }
  }

  lemma NewCallTidy(slot: Slot, lines: seq<Line>)
    ensures var c := Create(slot, lines, Lookup, map[], [], [], None); Progress(c) && LogMatches(c)
  {
  }

  lemma RestoreKeepsCreates(s: State, i: nat)
    requires i < |s.restores|
    ensures StepRestore(s, i).creates == s.creates
  {
  }

  lemma {:induction false} RunTidy(init: map<nat, int>, events: seq<Event>)
    ensures CallsTidy(Run(Opening(init), events))
  {
    if events != [] {
      RunTidy(init, events[..|events| - 1]);
      NextTidy(Run(Opening(init), events[..|events| - 1]), events[|events| - 1]);
    }
  }

  /**
   * Exactly-once compensation: over every interleaving, whatever happens to
   * Redis and to the locks, a call that raised, or that returned somebody
   * else's order, has in total added nothing to any stock key.  This covers the
   * path where the compensation loop runs twice: the list is empty the second
   * time.
   */
  lemma FailedCreateNetsZero(init: map<nat, int>, events: seq<Event>, i: nat, p: nat)
    requires i < |Run(Opening(init), events).creates|
    ensures var c := Run(Opening(init), events).creates[i];
            c.phase.Raised? || (c.phase.Returned? && c.placed.None?) ==> Sum(c.log, QtyOn(p)) == 0
  {
    RunTidy(init, events);
    var c := Run(Opening(init), events).creates[i];
    assert Progress(c) && LogMatches(c);
    assert Sum(c.log, QtyOn(p)) + Sum(Outstanding(c), QtyOn(p)) == 0;
  }

  // ---------------------------------------------------------------- what a restore has given back so far

  ghost predicate Giving(r: Restore) {
    if r.phase.Give? || r.phase.Commit? then
      forall p: nat :: Sum(r.added, QtyOn(p)) == Sum(r.items[..Given(r)], HeldOn(p))
    else r.added == []
  }

  /** No fault has touched Redis. */
  predicate FaultFree(events: seq<Event>) { forall k | 0 <= k < |events| :: !events[k].CorruptRedis? }

  /** Units of p that unfinished creates have taken and that uncommitted restores have put back. */
  function InFlight(s: State, p: nat): int { Sum(s.creates, OutOn(p)) - Sum(s.restores, AddedOn(p)) }

  /** Every product a call has deducted, or is about to deduct, has a key. */
  predicate CreateKeys(redis: map<nat, int>, c: Create) {
    && (forall k | 0 <= k < |c.deducted| :: c.deducted[k].product in redis)
    && (c.phase.Deduct? && c.phase.line < |c.lines| ==> c.lines[c.phase.line].product in redis)
  }

  predicate RestoreKeys(redis: map<nat, int>, r: Restore) {
    && (forall k | 0 <= k < |r.added| :: r.added[k].product in redis)
    && (forall k | 0 <= k < |r.items| && r.items[k].stockDeducted :: r.items[k].product in redis)
  }

  predicate OrderKeys(redis: map<nat, int>, o: Order) {
    forall k | 0 <= k < |o.items| && o.items[k].stockDeducted :: o.items[k].product in redis
  }

  ghost predicate Keyed(s: State) {
    && s.redis.Keys <= s.stock.Keys
    && (forall i | 0 <= i < |s.creates| :: CreateKeys(s.redis, s.creates[i]))
    && (forall i | 0 <= i < |s.restores| :: RestoreKeys(s.redis, s.restores[i]) && Giving(s.restores[i]))
    && (forall o | 0 <= o < |s.orders| :: OrderKeys(s.redis, s.orders[o]))
  }

  /** Wherever there is a key, it holds the shelf stock less what is in flight. */
  predicate Mirrors(s: State) { forall p: nat | p in s.redis && p in s.stock :: s.redis[p] == s.stock[p] - InFlight(s, p) }

  ghost predicate Synced(init: map<nat, int>, s: State) { StockSound(init, s) && CallsTidy(s) && Keyed(s) && Mirrors(s) }

  /** A product without a key has nothing in flight. */
  lemma NoKeyNoFlight(s: State, p: nat)
    requires Keyed(s) && p !in s.redis
    ensures InFlight(s, p) == 0
  {
    forall i | 0 <= i < |s.creates| ensures OutOn(p)(s.creates[i]) == 0 {
      assert CreateKeys(s.redis, s.creates[i]);
      SumZero(Outstanding(s.creates[i]), QtyOn(p));
    }
    forall i | 0 <= i < |s.restores| ensures AddedOn(p)(s.restores[i]) == 0 {
      assert RestoreKeys(s.redis, s.restores[i]);
      SumZero(s.restores[i].added, QtyOn(p));
    }
    SumZero(s.creates, OutOn(p));
    SumZero(s.restores, AddedOn(p));
  }

  // ---------------------------------------------------------------- creates and the mirror

  /** Only create call i has moved, and no key has gone. */
  predicate MovesCreate(s: State, s': State, i: nat) {
    && i < |s.creates| && SameShelf(s, s') && s'.restores == s.restores
    && |s'.creates| == |s.creates| && s'.creates == s.creates[i := s'.creates[i]]
    && s.redis.Keys <= s'.redis.Keys <= s'.stock.Keys
    && CreateKeys(s'.redis, s'.creates[i])
  }

  lemma MoveKeepsKeys(s: State, s': State, i: nat)
    requires Keyed(s) && MovesCreate(s, s', i)
    ensures Keyed(s')
  {
    hide Giving;
    forall j | 0 <= j < |s'.creates| ensures CreateKeys(s'.redis, s'.creates[j]) {
      if j != i { assert CreateKeys(s.redis, s.creates[j]); }
    }
    forall j | 0 <= j < |s'.restores| ensures RestoreKeys(s'.redis, s'.restores[j]) { assert RestoreKeys(s.redis, s.restores[j]); }
    forall o | 0 <= o < |s'.orders| ensures OrderKeys(s'.redis, s'.orders[o]) { assert OrderKeys(s.redis, s.orders[o]); }
  }

  /** Adding q units of p to Redis while the call's outstanding units of p fall by q. */
  lemma ShiftKeepsMirror(s: State, s': State, i: nat, p: nat, q: int)
    requires Mirrors(s) && MovesCreate(s, s', i) && p in s.redis && s'.redis == IncrBy(s.redis, p, q)
    requires forall x: nat :: OutOn(x)(s'.creates[i]) == OutOn(x)(s.creates[i]) - (if x == p then q else 0)
    ensures Mirrors(s')
  {
    hide OutOn, CreateKeys;
    forall x: nat | x in s'.redis && x in s'.stock ensures s'.redis[x] == s'.stock[x] - InFlight(s', x) {
      SumUpdate(s.creates, i, s'.creates[i], OutOn(x));
    }
  }

  /** Seeding a missing key from the locked row, or nothing at all. */
  lemma SeedKeepsMirror(s: State, s': State, i: nat, p: nat)
    requires Keyed(s) && Mirrors(s) && MovesCreate(s, s', i) && p in s.stock
    requires s'.redis == s.redis || s'.redis == SetNx(s.redis, p, s.stock[p])
    requires forall x: nat :: OutOn(x)(s'.creates[i]) == OutOn(x)(s.creates[i])
    ensures Mirrors(s')
  {
    if p !in s.redis { NoKeyNoFlight(s, p); }
    hide OutOn, CreateKeys, Keyed;
    forall x: nat | x in s'.redis && x in s'.stock ensures s'.redis[x] == s'.stock[x] - InFlight(s', x) {
      SumUpdate(s.creates, i, s'.creates[i], OutOn(x));
    }
  }

  lemma QuietKeepsMirror(s: State, s': State, i: nat)
    requires Mirrors(s) && MovesCreate(s, s', i) && s'.redis == s.redis
    requires forall x: nat :: OutOn(x)(s'.creates[i]) == OutOn(x)(s.creates[i])
    ensures Mirrors(s')
  {
    hide OutOn, CreateKeys;
    forall x: nat | x in s'.redis && x in s'.stock ensures s'.redis[x] == s'.stock[x] - InFlight(s', x) {
      SumUpdate(s.creates, i, s'.creates[i], OutOn(x));
    }
  }

  lemma SameOut(c: Create, c': Create)
    requires Outstanding(c') == Outstanding(c) && c'.placed == c.placed
    ensures forall x: nat :: OutOn(x)(c') == OutOn(x)(c)
  {
  }

  lemma OneLess(c: Create, c': Create, l: Line)
    requires Outstanding(c) == Outstanding(c') + [l] && c.placed.None? && c'.placed.None?
    ensures forall x: nat :: OutOn(x)(c') == OutOn(x)(c) - (if x == l.product then l.quantity else 0)
  {
    hide Outstanding;
    forall x: nat ensures OutOn(x)(c') == OutOn(x)(c) - (if x == l.product then l.quantity else 0) {
      SumPush(Outstanding(c'), l, QtyOn(x));
    }
  }

  lemma Unplaced(c: Create)
    requires Progress(c) && !c.phase.CacheResult? && !c.phase.Returned?
    ensures c.placed.None?
  {
  }

  lemma KeysOf(s: State, i: nat)
    requires Keyed(s) && i < |s.creates|
    ensures s.redis.Keys <= s.stock.Keys && CreateKeys(s.redis, s.creates[i])
  {
  }

  lemma UndoMirror(init: map<nat, int>, s: State, i: nat)
    requires Synced(init, s) && i < |s.creates| && Undoing(s.creates[i].phase)
    ensures Mirrors(StepCreate(s, i)) && Keyed(StepCreate(s, i))
  {
    hide StockSound, Mirrors, Keyed, Progress, LogMatches, Outstanding, Sum;
    var c, s' := s.creates[i], StepCreate(s, i);
    var c', n := s'.creates[i], Undone(c.phase);
    assert Progress(c) && LogMatches(c);
    UndoProgress(s, c);
    Unplaced(c);
    KeysOf(s, i);
    if n < |c.deducted| {
      var l := c.deducted[|c.deducted| - 1 - n];
      OneLess(c, c', l);
      ShiftKeepsMirror(s, s', i, l.product, l.quantity);
    } else {
      SameOut(c, c');
      QuietKeepsMirror(s, s', i);
    }
    MoveKeepsKeys(s, s', i);
  }

  lemma OutsideMirror(init: map<nat, int>, s: State, i: nat)
    requires Synced(init, s) && i < |s.creates|
    requires !Undoing(s.creates[i].phase) && !IsInside(s.creates[i].phase)
    ensures Mirrors(StepCreate(s, i)) && Keyed(StepCreate(s, i))
  {
    hide StockSound, Mirrors, Keyed, Progress, LogMatches, Outstanding, Outside;
    var c, s' := s.creates[i], StepCreate(s, i);
    assert Progress(c);
    OutsideProgress(s, c);
    OutsideShape(s, c);
    OutsideNeverDeducts(s, c);
    KeysOf(s, i);
    SameOut(c, s'.creates[i]);
    QuietKeepsMirror(s, s', i);
    MoveKeepsKeys(s, s', i);
  }

  lemma OutsideNeverDeducts(s: State, c: Create)
    requires !Undoing(c.phase) && !IsInside(c.phase)
    ensures !Outside(s, c).0.phase.Deduct?
  {
  }

  lemma SeedMirror(init: map<nat, int>, s: State, i: nat)
    requires Synced(init, s) && i < |s.creates| && s.creates[i].phase.Seed?
    ensures Mirrors(StepCreate(s, i)) && Keyed(StepCreate(s, i))
  {
    hide StockSound, Mirrors, Keyed, LogMatches, CreateSound;
    var c, s' := s.creates[i], StepCreate(s, i);
    CreateIsSound(init, s, i);
    assert Progress(c);
    KeysOf(s, i);
    SameOut(c, s'.creates[i]);
    var k := c.phase.line;
    if k < |c.lines| && c.lines[k].product in c.session && c.session[c.lines[k].product] >= 0 {
      SessionMatches(s, c, k);
      SeedKeepsMirror(s, s', i, c.lines[k].product);
    } else {
      QuietKeepsMirror(s, s', i);
    }
    MoveKeepsKeys(s, s', i);
  }

  lemma SessionMatches(s: State, c: Create, k: nat)
    requires CreateSound(s.stock, c) && InRowSection(c.phase) && k < |c.lines|
    ensures c.lines[k].product in s.stock && c.lines[k].product in c.session
    ensures c.session[c.lines[k].product] == s.stock[c.lines[k].product]
    ensures s.stock[c.lines[k].product] >= 0 ==> c.lines[k].quantity <= s.stock[c.lines[k].product]
  {
    assert c.lines[k].product in Products(c.lines);
  }

  lemma DeductMirror(init: map<nat, int>, s: State, i: nat)
    requires Synced(init, s) && i < |s.creates| && s.creates[i].phase.Deduct?
    ensures Mirrors(StepCreate(s, i)) && Keyed(StepCreate(s, i))
  {
    hide StockSound, Mirrors, Keyed, LogMatches, CreateSound, Finite;
    var c, s' := s.creates[i], StepCreate(s, i);
    assert Progress(c);
    Unplaced(c);
    KeysOf(s, i);
    var l := c.lines[c.phase.line];
    var c' := s'.creates[i];
    assert Outstanding(c') == c.deducted + [l];
    forall x: nat ensures OutOn(x)(c') == OutOn(x)(c) - (if x == l.product then -l.quantity else 0) {
      SumPush(c.deducted, l, QtyOn(x));
    }
    ShiftKeepsMirror(s, s', i, l.product, -l.quantity);
    MoveKeepsKeys(s, s', i);
  }

  lemma QuietInsideMirror(init: map<nat, int>, s: State, i: nat)
    requires Synced(init, s) && i < |s.creates| && !Commits(s, s.creates[i])
    requires s.creates[i].phase.LoadRows? || s.creates[i].phase.Persist?
    ensures Mirrors(StepCreate(s, i)) && Keyed(StepCreate(s, i))
  {
    hide StockSound, Mirrors, Keyed, LogMatches, CreateSound, RowsFree, Problem, SessionRows, Products, Commits;
    var c, s' := s.creates[i], StepCreate(s, i);
    KeysOf(s, i);
    SameOut(c, s'.creates[i]);
    QuietKeepsMirror(s, s', i);
    MoveKeepsKeys(s, s', i);
  }

  // ---------------------------------------------------------------- the commit of an order

  /** What was pre-deducted in Redis is exactly what the items hold from the shelf. */
  lemma {:induction false} FiniteTotal(lines: seq<Line>, session: map<nat, int>, p: nat)
    ensures Sum(Finite(lines, session), QtyOn(p)) == Sum(NewItems(lines, session), HeldOn(p))
  {
    if lines != [] {
      var n := |lines| - 1;
      FiniteTotal(lines[..n], session, p);
      assert NewItems(lines, session) == NewItems(lines[..n], session) + [NewItem(lines[n], session)];
      SumPush(NewItems(lines[..n], session), NewItem(lines[n], session), HeldOn(p));
      SumPush(Finite(lines[..n], session), lines[n], QtyOn(p));
    }
  }

  lemma {:induction false} FiniteMember(lines: seq<Line>, session: map<nat, int>, k: nat)
    requires k < |lines| && NewItem(lines[k], session).stockDeducted
    ensures lines[k] in Finite(lines, session)
  {
    if k < |lines| - 1 { FiniteMember(lines[..|lines| - 1], session, k); }
  }

  lemma CommitKeys(s: State, i: nat)
    requires Keyed(s) && i < |s.creates| && Commits(s, s.creates[i]) && Progress(s.creates[i])
    requires s.stock.Keys <= StepCreate(s, i).stock.Keys
    ensures Keyed(StepCreate(s, i))
  {
    hide StepCreate, Giving, FindOrder, SoldRows;
    var c, s' := s.creates[i], StepCreate(s, i);
    PersistShape(s, i);
    forall j | 0 <= j < |s'.creates| ensures CreateKeys(s'.redis, s'.creates[j]) { assert CreateKeys(s.redis, s.creates[j]); }
    forall o | 0 <= o < |s'.orders| ensures OrderKeys(s'.redis, s'.orders[o]) {
      if o < |s.orders| { assert OrderKeys(s.redis, s.orders[o]); }
      else {
        var items := NewItems(c.lines, c.session);
        forall k | 0 <= k < |items| && items[k].stockDeducted ensures items[k].product in s.redis {
          FiniteMember(c.lines, c.session, k);
          var m :| 0 <= m < |c.deducted| && c.deducted[m] == c.lines[k];
        }
      }
    }
  }

  lemma CommitMirror(init: map<nat, int>, s: State, i: nat)
    requires Synced(init, s) && i < |s.creates| && Commits(s, s.creates[i])
    ensures Mirrors(StepCreate(s, i)) && Keyed(StepCreate(s, i))
  {
    hide StockSound, StepCreate, Keyed, LogMatches, FindOrder, SoldRows, NewItems, CreateSound, Finite;
    var c, s' := s.creates[i], StepCreate(s, i);
    assert Progress(c);
    Unplaced(c);
    CreateIsSound(init, s, i);
    PersistShape(s, i);
    SoldKeys(s.stock, c);
    CommitKeys(s, i);
    forall p: nat | p in s'.redis && p in s'.stock ensures s'.redis[p] == s'.stock[p] - InFlight(s', p) {
      SumUpdate(s.creates, i, s'.creates[i], OutOn(p));
      FiniteTotal(c.lines, c.session, p);
      SoldRow(s.stock, c, p);
    }
  }

  lemma StepCreateSynced(init: map<nat, int>, s: State, i: nat)
    requires Synced(init, s) && i < |s.creates|
    ensures Synced(init, StepCreate(s, i))
  {
    hide StockSound, StepCreate, CallsTidy, Mirrors, Keyed, FindOrder;
    StepCreateStock(init, s, i);
    StepTidy(s, i);
    var c := s.creates[i];
    if Commits(s, c) { CommitMirror(init, s, i); }
    else if Undoing(c.phase) { UndoMirror(init, s, i); }
    else if c.phase.Seed? { SeedMirror(init, s, i); }
    else if c.phase.Deduct? { DeductMirror(init, s, i); }
    else if IsInside(c.phase) { QuietInsideMirror(init, s, i); }
    else { OutsideMirror(init, s, i); }
  }

  // ---------------------------------------------------------------- restores and the mirror

  /** Only restore i has moved, on the same shelf, and no key has gone. */
  ghost predicate MovesRestore(s: State, s': State, i: nat) {
    && i < |s.restores| && s'.creates == s.creates
    && |s'.restores| == |s.restores| && s'.restores == s.restores[i := s'.restores[i]]
    && s.redis.Keys <= s'.redis.Keys <= s'.stock.Keys
    && RestoreKeys(s'.redis, s'.restores[i]) && Giving(s'.restores[i])
    && |s'.orders| == |s.orders| && (forall o | 0 <= o < |s.orders| :: OrderKeys(s.redis, s.orders[o]) ==> OrderKeys(s'.redis, s'.orders[o]))
  }

  lemma RestoreKeepsKeys(s: State, s': State, i: nat)
    requires Keyed(s) && MovesRestore(s, s', i)
    ensures Keyed(s')
  {
    hide Giving, OrderKeys;
    forall j | 0 <= j < |s'.creates| ensures CreateKeys(s'.redis, s'.creates[j]) { assert CreateKeys(s.redis, s.creates[j]); }
    forall j | 0 <= j < |s'.restores| ensures RestoreKeys(s'.redis, s'.restores[j]) && Giving(s'.restores[j]) {
      if j != i { assert RestoreKeys(s.redis, s.restores[j]); }
    }
  }

  /** What the restore has added to Redis, and the shelf, change together. */
  lemma RestoreShifts(s: State, s': State, i: nat)
    requires Mirrors(s) && i < |s.restores| && s'.creates == s.creates && s'.redis.Keys == s.redis.Keys && s'.stock.Keys == s.stock.Keys
    requires |s'.restores| == |s.restores| && s'.restores == s.restores[i := s'.restores[i]]
    requires forall p: nat | p in s.redis && p in s.stock ::
               s'.redis[p] - s.redis[p] == s'.stock[p] - s.stock[p] + AddedOn(p)(s'.restores[i]) - AddedOn(p)(s.restores[i])
    ensures Mirrors(s')
  {
    hide AddedOn;
    forall p: nat | p in s'.redis && p in s'.stock ensures s'.redis[p] == s'.stock[p] - InFlight(s', p) {
      SumUpdate(s.restores, i, s'.restores[i], AddedOn(p));
    }
  }

  lemma RestoreKeysOf(s: State, i: nat)
    requires Keyed(s) && i < |s.restores|
    ensures s.redis.Keys <= s.stock.Keys && RestoreKeys(s.redis, s.restores[i]) && Giving(s.restores[i])
  {
  }

  lemma GiveMirror(init: map<nat, int>, s: State, i: nat)
    requires Synced(init, s) && i < |s.restores| && s.restores[i].phase.Give?
    ensures Mirrors(StepRestore(s, i)) && Keyed(StepRestore(s, i))
  {
    hide StockSound, Mirrors, Keyed, CallsTidy, StepRestore, RestoreSound, RestoreRows;
    GiveShape(s, i);
    var r, s' := s.restores[i], StepRestore(s, i);
    var r', k := s'.restores[i], r.phase.item;
    RestoreKeysOf(s, i);
    GivingMore(init, s, i);
    forall o | 0 <= o < |s.orders| && OrderKeys(s.redis, s.orders[o]) ensures OrderKeys(s'.redis, s'.orders[o]) {}
    if k < |r.items| && r.items[k].stockDeducted {
      GiveFinds(init, s, i, k);
      GiveSeen(init, s, i, k);
      var item := r.items[k];
      forall p: nat ensures AddedOn(p)(r') == AddedOn(p)(r) + HeldOn(p)(item) {
        SumPush(r.added, Line(item.product, item.quantity), QtyOn(p));
      }
    }
    assert s'.redis.Keys == s.redis.Keys;
    RestoreShifts(s, s', i);
    RestoreKeepsKeys(s, s', i);
  }

  /** An item that still holds stock was deducted, so its product has a key. */
  lemma GiveSeen(init: map<nat, int>, s: State, i: nat, k: nat)
    requires StockSound(init, s) && Keyed(s) && i < |s.restores| && s.restores[i].phase == Give(k)
    requires k < |s.restores[i].items| && s.restores[i].items[k].stockDeducted
    ensures s.restores[i].items[k].product in s.redis
  {
    RestoreKeysOf(s, i);
  }

  lemma GivingMore(init: map<nat, int>, s: State, i: nat)
    requires StockSound(init, s) && i < |s.restores| && s.restores[i].phase.Give? && Giving(s.restores[i])
    ensures Giving(StepRestore(s, i).restores[i])
  {
    hide StockSound, StepRestore;
    GiveShape(s, i);
    var r := s.restores[i];
    var r', k := StepRestore(s, i).restores[i], r.phase.item;
    if k < |r.items| {
      assert r.items[..k + 1] == r.items[..k] + [r.items[k]];
      if r.items[k].stockDeducted { GiveFinds(init, s, i, k); }
      forall p: nat ensures Sum(r'.added, QtyOn(p)) == Sum(r.items[..k + 1], HeldOn(p)) {
        SumPush(r.items[..k], r.items[k], HeldOn(p));
        SumPush(r.added, Line(r.items[k].product, r.items[k].quantity), QtyOn(p));
      }
    } else {
      assert Given(r') == |r.items|;
      RestoreIsSound(init, s, i);
      GivenAll(init, s, i);
    }
  }

  lemma GivenAll(init: map<nat, int>, s: State, i: nat)
    requires i < |s.restores| && s.restores[i].phase.Give? && s.restores[i].phase.item >= |s.restores[i].items|
    ensures s.restores[i].items[..Given(s.restores[i])] == s.restores[i].items
  {
  }

  lemma OrderKeysOf(s: State, o: nat)
    requires Keyed(s) && o < |s.orders|
    ensures OrderKeys(s.redis, s.orders[o])
  {
  }

  /** The call moves on without giving anything back yet. */
  predicate QuietCall(s: State, r: Restore, r': Restore) {
    && r'.added == r.added && !r'.phase.Commit? && (r'.phase.Give? ==> r'.phase.item == 0)
    && (r'.items == r.items || (r.order < |s.orders| && r'.items == s.orders[r.order].items))
  }

  lemma QuietRestoreCall(s: State, i: nat) returns (r': Restore)
    requires i < |s.restores| && !s.restores[i].phase.Give? && !s.restores[i].phase.Commit?
    ensures QuietCall(s, s.restores[i], r')
    ensures StepRestore(s, i) == WithRestore(s, i, r') || (StepRestore(s, i) == s && r' == s.restores[i])
  {
    hide RowsFree, SessionRows, RowsWanted, OrderFree, Eligible, Closed, IncrBy, WithRestore;
    var r := s.restores[i];
    r' := r;
    match r.phase
    case ReadOrder =>
      if r.order >= |s.orders| || !(r.locked && !OrderFree(s, r.order)) {
        r' := r.(phase := if r.order < |s.orders| && Eligible(r.kind, s.orders[r.order]) then ReadItems else Finished(false));
      }
    case ReadItems =>
      if r.order < |s.orders| { r' := r.(phase := LoadProducts, items := s.orders[r.order].items); }
    case LoadProducts =>
      if RowsFree(s, RowsWanted(r)) { r' := r.(phase := Give(0), session := SessionRows(s.stock, RowsWanted(r))); }
    case _ =>
  }

  lemma QuietRestoreShape(s: State, i: nat)
    requires i < |s.restores| && !s.restores[i].phase.Give? && !s.restores[i].phase.Commit?
    ensures var s' := StepRestore(s, i);
            && s'.creates == s.creates && s'.redis == s.redis && s'.stock == s.stock && s'.orders == s.orders
            && |s'.restores| == |s.restores| && s'.restores == s.restores[i := s'.restores[i]]
            && QuietCall(s, s.restores[i], s'.restores[i])
  {
    hide StepRestore, QuietCall;
    var r' := QuietRestoreCall(s, i);
  }

  lemma QuietRestoreMirror(init: map<nat, int>, s: State, i: nat)
    requires Synced(init, s) && i < |s.restores| && !s.restores[i].phase.Give? && !s.restores[i].phase.Commit?
    ensures Mirrors(StepRestore(s, i)) && Keyed(StepRestore(s, i))
  {
    hide StockSound, Mirrors, Keyed, CallsTidy, StepRestore, Sum;
    var s' := StepRestore(s, i);
    QuietRestoreShape(s, i);
    RestoreKeysOf(s, i);
    if s.restores[i].order < |s.orders| { OrderKeysOf(s, s.restores[i].order); }
    FreshGive(s.restores[i], s'.restores[i]);
    RestoreShifts(s, s', i);
    RestoreKeepsKeys(s, s', i);
  }

  lemma FreshGive(r: Restore, r': Restore)
    requires Giving(r) && !r.phase.Give? && !r.phase.Commit? && r'.added == r.added
    requires !r'.phase.Commit? && (r'.phase.Give? ==> r'.phase.item == 0)
    ensures Giving(r')
  {
    assert r'.items[..0] == [];
  }

  lemma CommitKeepsRedis(s: State, i: nat)
    requires i < |s.restores| && s.restores[i].phase.Commit?
    ensures StepRestore(s, i).redis == s.redis
  {
    hide Closed, OrderFree;
  }

  lemma CommitRestoreMirror(init: map<nat, int>, s: State, i: nat)
    requires Synced(init, s) && i < |s.restores| && s.restores[i].phase.Commit?
    ensures Mirrors(StepRestore(s, i)) && Keyed(StepRestore(s, i))
  {
    hide StockSound, Mirrors, Keyed, CallsTidy, StepRestore, RowsWanted;
    var r, s' := s.restores[i], StepRestore(s, i);
    RestoreIsSound(init, s, i);
    RestoreKeysOf(s, i);
    CommitIs(s, i);
    CommitKeepsRedis(s, i);
    if s' != s {
      assert r.items[..|r.items|] == r.items;
      assert s'.stock.Keys == s.stock.Keys;
      forall p: nat | p in s.stock ensures s'.stock[p] - s.stock[p] == AddedOn(p)(r) {
        if p !in r.session { NotWanted(r, p); }
      }
      forall o | 0 <= o < |s.orders| && OrderKeys(s.redis, s.orders[o]) ensures OrderKeys(s'.redis, s'.orders[o]) {}
      RestoreShifts(s, s', i);
      RestoreKeepsKeys(s, s', i);
    }
  }

  lemma StepRestoreSynced(init: map<nat, int>, s: State, i: nat)
    requires Synced(init, s) && i < |s.restores|
    ensures Synced(init, StepRestore(s, i))
  {
    hide StockSound, StepRestore, CallsTidy, Mirrors, Keyed;
    StepRestoreStock(init, s, i);
    RestoreKeepsCreates(s, i);
    TidySame(s, StepRestore(s, i));
    if s.restores[i].phase.Give? { GiveMirror(init, s, i); }
    else if s.restores[i].phase.Commit? { CommitRestoreMirror(init, s, i); }
    else { QuietRestoreMirror(init, s, i); }
  }

  lemma TidySame(s: State, s': State)
    requires CallsTidy(s) && s'.creates == s.creates
    ensures CallsTidy(s')
  {
  }

  // ---------------------------------------------------------------- all events

  lemma FreshCallMirror(s: State, slot: Slot, lines: seq<Line>)
    requires Keyed(s) && Mirrors(s)
    ensures var s' := s.(creates := s.creates + [Create(slot, lines, Lookup, map[], [], [], None)]);
            Keyed(s') && Mirrors(s')
  {
    hide Giving;
    var c := Create(slot, lines, Lookup, map[], [], [], None);
    var s' := s.(creates := s.creates + [c]);
    forall p: nat ensures Sum(s'.creates, OutOn(p)) == Sum(s.creates, OutOn(p)) { SumPush(s.creates, c, OutOn(p)); }
    forall i | 0 <= i < |s'.creates| ensures CreateKeys(s'.redis, s'.creates[i]) {
      if i < |s.creates| { assert CreateKeys(s.redis, s.creates[i]); }
    }
  }

  lemma FreshRestoreMirror(s: State, kind: RestoreKind, o: nat, locked: bool)
    requires Keyed(s) && Mirrors(s)
    ensures var s' := s.(restores := s.restores + [Restore(kind, o, locked, ReadOrder, [], map[], [])]);
            Keyed(s') && Mirrors(s')
  {
    var r := Restore(kind, o, locked, ReadOrder, [], map[], []);
    var s' := s.(restores := s.restores + [r]);
    forall p: nat ensures Sum(s'.restores, AddedOn(p)) == Sum(s.restores, AddedOn(p)) { SumPush(s.restores, r, AddedOn(p)); }
    forall i | 0 <= i < |s'.restores| ensures RestoreKeys(s'.redis, s'.restores[i]) && Giving(s'.restores[i]) {
      if i < |s.restores| { assert RestoreKeys(s.redis, s.restores[i]); }
    }
  }

  lemma BreakMirror(init: map<nat, int>, s: State, i: nat)
    requires Synced(init, s)
    ensures var s' := Next(s, BreakCreate(i)); Keyed(s') && Mirrors(s')
  {
    hide StockSound, Mirrors, Keyed, CallsTidy;
    var s' := Next(s, BreakCreate(i));
    if s' != s {
      KeysOf(s, i);
      SameOut(s.creates[i], s'.creates[i]);
      QuietKeepsMirror(s, s', i);
      MoveKeepsKeys(s, s', i);
    }
  }

  lemma OrderListMirror(s: State, s': State)
    requires Keyed(s) && Mirrors(s)
    requires s'.stock == s.stock && s'.redis == s.redis && s'.creates == s.creates && s'.restores == s.restores
    requires forall o | 0 <= o < |s'.orders| :: s'.orders[o].items == [] || (o < |s.orders| && s'.orders[o].items == s.orders[o].items)
    ensures Keyed(s') && Mirrors(s')
  {
    hide Giving;
    forall o | 0 <= o < |s'.orders| ensures OrderKeys(s'.redis, s'.orders[o]) {
      if o < |s.orders| { assert OrderKeys(s.redis, s.orders[o]); }
    }
  }

  lemma NextSynced(init: map<nat, int>, s: State, e: Event)
    requires Synced(init, s) && !e.CorruptRedis?
    ensures Synced(init, Next(s, e))
  {
    hide StockSound, CallsTidy, Keyed, Mirrors, StepCreate, StepRestore, FindOrder;
    NextStock(init, s, e);
    NextTidy(s, e);
    match e
    case StartCreate(slot, payload) => FreshCallMirror(s, slot, Merge(payload));
    case AdvanceCreate(i) => if i < |s.creates| { StepCreateSynced(init, s, i); }
    case BreakCreate(i) => BreakMirror(init, s, i);
    case StartRestore(kind, o, locked) => FreshRestoreMirror(s, kind, o, locked || kind.Refund?);
    case AdvanceRestore(i) => if i < |s.restores| { StepRestoreSynced(init, s, i); }
    case Pay(_) => OrderListMirror(s, Next(s, e));
    case InsertVip(_) => OrderListMirror(s, Next(s, e));
    case ExpireReservation(_) => OrderListMirror(s, Next(s, e));
    case ExpireResult(_) => OrderListMirror(s, Next(s, e));
    case Relist(_) => OrderListMirror(s, Next(s, e));
  }

  /**
   * Redis mirrors the database up to work in flight: over every fault-free
   * interleaving, whether cancels lock their order or not, each stock key holds the shelf stock less what unfinished
   * creates have deducted, plus what uncommitted restores have put back.
   */
  lemma {:induction false} RunMirrors(init: map<nat, int>, events: seq<Event>)
    requires FaultFree(events)
    ensures Synced(init, Run(Opening(init), events))
    ensures forall p: nat ::
              var s := Run(Opening(init), events);
              p in s.redis ==> p in s.stock && s.redis[p] == s.stock[p] - InFlight(s, p)
  {
    if events == [] {
      RunKeepsStockSound(init, events);
    } else {
      var n := |events| - 1;
      RunMirrors(init, events[..n]);
      NextSynced(init, Run(Opening(init), events[..n]), events[n]);
    }
  }

  predicate AtRest(s: State) {
    && (forall i | 0 <= i < |s.creates| :: s.creates[i].phase.Returned? || s.creates[i].phase.Raised?)
    && (forall i | 0 <= i < |s.restores| :: s.restores[i].phase.Finished?)
  }

  lemma FinishedCreateIdle(c: Create, p: nat)
    requires Progress(c) && (c.phase.Returned? || c.phase.Raised?)
    ensures OutOn(p)(c) == 0
  {
  }

  lemma FinishedRestoreIdle(r: Restore, p: nat)
    requires Giving(r) && r.phase.Finished?
    ensures AddedOn(p)(r) == 0
  {
  }

  lemma RestAgrees(s: State, p: nat)
    requires CallsTidy(s) && Keyed(s) && Mirrors(s) && AtRest(s) && p in s.redis
    ensures p in s.stock && s.redis[p] == s.stock[p]
  {
    hide Progress, LogMatches, Giving, OutOn, AddedOn, CreateKeys, RestoreKeys, OrderKeys, Sum;
    forall i | 0 <= i < |s.creates| ensures OutOn(p)(s.creates[i]) == 0 { FinishedCreateIdle(s.creates[i], p); }
    forall i | 0 <= i < |s.restores| ensures AddedOn(p)(s.restores[i]) == 0 { FinishedRestoreIdle(s.restores[i], p); }
    SumZero(s.creates, OutOn(p));
    SumZero(s.restores, AddedOn(p));
  }

  /** With no call in progress the two stores agree. */
  lemma AtRestStoresAgree(init: map<nat, int>, events: seq<Event>, p: nat)
    requires FaultFree(events) && AtRest(Run(Opening(init), events))
    requires p in Run(Opening(init), events).redis
    ensures var s := Run(Opening(init), events);
            p in s.stock && s.redis[p] == s.stock[p]
  {
    hide Run, StockSound, CallsTidy, Keyed, Mirrors, AtRest;
    RunMirrors(init, events);
    RestAgrees(Run(Opening(init), events), p);
  }

  /**
   * The Redis check is the database check less what others have in flight: a
   * pre-deduction goes negative exactly when the quantity exceeds the locked
   * stock minus the units that unfinished creates still have outstanding.
   */
  lemma RedisCheckIs(init: map<nat, int>, events: seq<Event>, i: nat)
    requires FaultFree(events)
    requires var s := Run(Opening(init), events);
             i < |s.creates| && s.creates[i].phase.Deduct?
    ensures var s := Run(Opening(init), events);
            var c := s.creates[i];
            && c.phase.line < |c.lines| && c.lines[c.phase.line].product in s.stock
            && var l := c.lines[c.phase.line];
            && l.quantity <= s.stock[l.product]
            && (StepCreate(s, i).creates[i].phase.UndoInner? <==> l.quantity > s.stock[l.product] - Sum(s.creates, OutOn(l.product)))
  {
    hide StockSound, CallsTidy, Keyed, Mirrors, Run, StepCreate, Progress, InFlight;
    RunMirrors(init, events);
    var s := Run(Opening(init), events);
    var c := s.creates[i];
    DeductingCall(init, s, i);
    var l := c.lines[c.phase.line];
    DeductStep(s, i);
    forall j | 0 <= j < |s.restores| ensures AddedOn(l.product)(s.restores[j]) == 0 {
      LockedRowNotGiven(init, s, i, j, c.phase.line);
    }
    SumZero(s.restores, AddedOn(l.product));
    FlightOf(s, l.product);
  }

  lemma FlightOf(s: State, p: nat)
    ensures InFlight(s, p) == Sum(s.creates, OutOn(p)) - Sum(s.restores, AddedOn(p))
  {
  }

  lemma DeductingCall(init: map<nat, int>, s: State, i: nat)
    requires Synced(init, s) && i < |s.creates| && s.creates[i].phase.Deduct?
    ensures var c := s.creates[i];
            && c.phase.line < |c.lines| && c.lines[c.phase.line].product in s.stock && c.lines[c.phase.line].product in s.redis
            && c.lines[c.phase.line].quantity <= s.stock[c.lines[c.phase.line].product]
  {
    hide StockSound, Mirrors, CreateSound;
    var c := s.creates[i];
    assert Progress(c) && CreateKeys(s.redis, c);
    CreateIsSound(init, s, i);
    SessionMatches(s, c, c.phase.line);
  }

  lemma DeductStep(s: State, i: nat)
    requires i < |s.creates| && s.creates[i].phase.Deduct? && s.creates[i].phase.line < |s.creates[i].lines|
    ensures var c := s.creates[i];
            var l := c.lines[c.phase.line];
            i < |StepCreate(s, i).creates| &&
            (StepCreate(s, i).creates[i].phase.UndoInner? <==> Value(s.redis, l.product) - l.quantity < 0)
  {
  }

  /** While a create holds a product row, no restore has uncommitted units of it in Redis. */
  lemma LockedRowNotGiven(init: map<nat, int>, s: State, i: nat, j: nat, k: nat)
    requires StockSound(init, s) && Keyed(s) && i < |s.creates| && j < |s.restores|
    requires InRowSection(s.creates[i].phase) && k < |s.creates[i].lines|
    ensures AddedOn(s.creates[i].lines[k].product)(s.restores[j]) == 0
  {
    var r, p := s.restores[j], s.creates[i].lines[k].product;
    RestoreIsSound(init, s, j);
    RestoreKeysOf(s, j);
    assert p in Products(s.creates[i].lines);
    assert CreateRows(s.creates[i]) !! RestoreRows(r);
    if r.phase.Give? || r.phase.Commit? {
      forall m | 0 <= m < Given(r) ensures HeldOn(p)(r.items[..Given(r)][m]) == 0 {
        assert r.items[m].stockDeducted ==> r.items[m].product in HeldProducts(r.items);
        assert r.items[m].product in ItemProducts(r.items);
      }
      SumZero(r.items[..Given(r)], HeldOn(p));
    }
  }
}
