/**
 * The id generator.  A clock is a sequence of readings, in milliseconds, that
 * may stall, jump or run backwards; the generator consumes them in order.
 */
module Snowflake {
  import opened Sums

  const EPOCH := 1704067200000
  const MASK := 4096

  // ---------------------------------------------------------------- machine integers

  /** Python's `|`: bit by bit, negative numbers in two's complement. */
  function BitOr(a: int, b: int): int
    decreases if a < 0 then -1 - a else a, if b < 0 then -1 - b else b
  {
    if a == 0 then b
    else if b == 0 then a
    else if a == -1 || b == -1 then -1
    else
      HalfSmaller(a);
      HalfSmaller(b);
      2 * BitOr(a / 2, b / 2) + (if a % 2 == 1 || b % 2 == 1 then 1 else 0)
  }

  lemma HalfSmaller(a: int)
    requires a != 0 && a != -1
    ensures (if a / 2 < 0 then -1 - a / 2 else a / 2) < (if a < 0 then -1 - a else a)
  {
  }

  function Pow2(k: nat): (r: nat)
    ensures r >= 1
  {
    if k == 0 then 1 else 2 * Pow2(k - 1)
  }

  /** Python's `<<`. */
  function ShiftLeft(a: int, k: nat): int { a * Pow2(k) }

  /** Or-ing disjoint fields adds them, whatever the sign of the upper one. */
  lemma {:induction false} OrAdds(a: int, k: nat, b: int)
    requires 0 <= b < Pow2(k)
    ensures BitOr(ShiftLeft(a, k), b) == ShiftLeft(a, k) + b
  {
    if k > 0 && a != 0 && b != 0 {
      var x := a * Pow2(k);
      var half := a * Pow2(k - 1);
      assert x == 2 * half;
      assert x / 2 == half && x % 2 == 0;
      OrAdds(a, k - 1, b / 2);
      assert x != -1 && b != -1;
      assert x != 0 by { if half == 0 { ProductNotZero(a, Pow2(k - 1)); } }
      assert BitOr(x, b) == 2 * BitOr(half, b / 2) + (if b % 2 == 1 then 1 else 0);
    } else if a == 0 {
      assert ShiftLeft(a, k) == 0;
    }
  }

  lemma ProductNotZero(a: int, b: int)
    requires a != 0 && b != 0
    ensures a * b != 0
  {
  }

  // ---------------------------------------------------------------- the generator

  datatype Generator = Generator(datacenter: nat, worker: nat, sequence: nat, last: int)

  predicate Valid(g: Generator) { g.datacenter <= 31 && g.worker <= 31 && g.sequence < MASK }

  function New(worker: nat, datacenter: nat): Generator { Generator(datacenter, worker, 0, -1) }

  /** An id, a refused backwards clock, or still waiting when the readings ran out. */
  datatype Result = Id(id: int) | ClockMovedBackwards | Waiting

  function Compose(g: Generator): int {
    BitOr(BitOr(BitOr(ShiftLeft(g.last - EPOCH, 22), ShiftLeft(g.datacenter, 17)), ShiftLeft(g.worker, 12)), g.sequence)
  }

  /** The first reading past t, by position. */
  function FirstPast(clock: seq<int>, t: int): (k: nat)
    ensures k <= |clock|
    ensures forall i | 0 <= i < k :: clock[i] <= t
    ensures k < |clock| ==> clock[k] > t
  {
    if clock == [] || clock[0] > t then 0 else 1 + FirstPast(clock[1..], t)
  }

  /** One call on a clock: the generator afterwards, the readings left, the result. */
  function Next(g: Generator, clock: seq<int>): (Generator, seq<int>, Result) {
    if clock == [] then (g, [], Waiting)
    else
      var now := clock[0];
      if now < g.last then (g, clock[1..], ClockMovedBackwards)
      else if now > g.last then
        var h := g.(sequence := 0, last := now);
        (h, clock[1..], Id(Compose(h)))
      else
        var s := (g.sequence + 1) % MASK;
        if s != 0 then
          var h := g.(sequence := s);
          (h, clock[1..], Id(Compose(h)))
        else
          var k := FirstPast(clock[1..], now);
          if k == |clock[1..]| then (g.(sequence := 0), [], Waiting)
          else
            var h := g.(sequence := 0, last := clock[1..][k]);
            (h, clock[1..][k + 1..], Id(Compose(h)))
  }

  /** Every id one generator returns while a clock runs. */
  function Ids(g: Generator, clock: seq<int>): seq<int>
    decreases |clock|
  {
    if clock == [] then []
    else
      var (h, rest, r) := Next(g, clock);
      (if r.Id? then [r.id] else []) + Ids(h, rest)
  }

  // ---------------------------------------------------------------- fields

  function Value(g: Generator): int { (g.last - EPOCH) * 4194304 + g.datacenter * 131072 + g.worker * 4096 + g.sequence }

  lemma Powers()
    ensures Pow2(12) == 4096 && Pow2(17) == 131072 && Pow2(22) == 4194304
  {
    assert Pow2(5) == 32;
    assert Pow2(10) == 1024;
    assert Pow2(15) == 32768;
    assert Pow2(20) == 1048576;
  }

  /** The four fields are or-ed into disjoint bits, so the id is their sum, even before the epoch. */
  lemma ComposeIsSum(g: Generator)
    requires Valid(g)
    ensures Compose(g) == Value(g)
  {
    Powers();
    var t := g.last - EPOCH;
    OrAdds(t, 22, g.datacenter * 131072);
    OrAdds(t * 32 + g.datacenter, 17, g.worker * 4096);
    OrAdds((t * 32 + g.datacenter) * 32 + g.worker, 12, g.sequence);
  }

  /** The shifts and masks that read a generator state back from an id. */
  function Decode(id: int): Generator {
    Generator(id / 131072 % 32, id / 4096 % 32, id % 4096, id / 4194304 + EPOCH)
  }

  lemma Scaled(d: int, n: int)
    requires n > 0
    ensures d >= 1 ==> d * n >= n
    ensures d <= -1 ==> d * n <= -n
  {
    if d >= 1 {
      assert (d - 1) * n >= 0;
    } else if d <= -1 {
      assert (d + 1) * n <= 0;
    }
  }

  lemma Peel(q: int, n: int, r: int)
    requires 0 <= r < n
    ensures (q * n + r) / n == q && (q * n + r) % n == r
  {
    var x := q * n + r;
    assert x == x / n * n + x % n;
    assert (q - x / n) * n == x % n - r;
    Scaled(q - x / n, n);
  }

  lemma DecodeInvertsCompose(g: Generator)
    requires Valid(g)
    ensures Decode(Compose(g)) == g
  {
    hide Compose, BitOr, ShiftLeft;
    ComposeIsSum(g);
    var t, d, w := g.last - EPOCH, g.datacenter, g.worker;
    Peel(t, 4194304, d * 131072 + w * 4096 + g.sequence);
    Peel(t * 32 + d, 131072, w * 4096 + g.sequence);
    Peel((t * 32 + d) * 32 + w, 4096, g.sequence);
    Peel(t, 32, d);
    Peel(t * 32 + d, 32, w);
  }

  /** Ids fit a signed 64-bit column exactly while the timestamp offset fits 41 bits. */
  lemma FitsSixtyThreeBits(g: Generator)
    requires Valid(g)
    ensures 0 <= Compose(g) < 0x8000_0000_0000_0000 <==> 0 <= g.last - EPOCH < 0x200_0000_0000
  {
    ComposeIsSum(g);
  }

  // ---------------------------------------------------------------- runs

  lemma NextRaises(g: Generator, clock: seq<int>)
    requires Valid(g)
    ensures var (h, rest, r) := Next(g, clock);
            && Valid(h) && h.worker == g.worker && h.datacenter == g.datacenter
            && (r.Id? ==> r.id == Value(h) && Value(h) > Value(g))
            && (r == ClockMovedBackwards ==> h == g)
            && (r == Waiting ==> rest == []) && (clock != [] ==> |rest| < |clock|)
  {
    hide Compose, FirstPast;
    var (h, rest, r) := Next(g, clock);
    if r.Id? {
      ComposeIsSum(h);
    }
  }

  /**
   * What a call answers, read back from the id: refused exactly when the clock
   * is behind; otherwise the reading of the clock with sequence zero, or the same
   * millisecond with the next sequence number, or, when those are used up, the
   * first reading past it.
   */
  lemma NextDoes(g: Generator, clock: seq<int>)
    requires Valid(g) && clock != []
    ensures var (h, rest, r) := Next(g, clock); var now := clock[0];
            && (r == ClockMovedBackwards <==> now < g.last)
            && (now > g.last ==> r.Id? && Decode(r.id) == g.(sequence := 0, last := now) && rest == clock[1..])
            && (now == g.last && g.sequence < 4095 ==> r.Id? && Decode(r.id) == g.(sequence := g.sequence + 1) && rest == clock[1..])
            && (now == g.last && g.sequence == 4095 ==>
                  && (r == Waiting <==> forall i | 0 <= i < |clock| :: clock[i] <= g.last)
                  && (r.Id? ==> exists i | 0 <= i < |clock| ::
                        && clock[i] > g.last && (forall j | 0 <= j < i :: clock[j] <= g.last)
                        && Decode(r.id) == g.(sequence := 0, last := clock[i]) && rest == clock[i + 1..]))
  {
    hide Compose, Decode, Value;
    var (h, rest, r) := Next(g, clock);
    NextRaises(g, clock);
    if r.Id? {
      ComposeIsSum(h);
      DecodeInvertsCompose(h);
    }
    if clock[0] == g.last && g.sequence == 4095 {
      var k := FirstPast(clock[1..], g.last);
      assert forall i | 1 <= i < |clock| :: clock[i] == clock[1..][i - 1];
      if k < |clock[1..]| { assert clock[k + 1] == clock[1..][k] && clock[1..][k + 1..] == clock[k + 2..]; }
    }
  }

  predicate Increasing(s: seq<int>, low: int) {
    (forall i | 0 <= i < |s| :: s[i] > low) && forall i, j | 0 <= i < j < |s| :: s[i] < s[j]
  }

  lemma NoneIncrease(low: int)
    ensures Increasing([], low)
  {
  }

  lemma OneMoreIncreases(x: int, s: seq<int>, low: int)
    requires x > low && Increasing(s, x)
    ensures Increasing([x] + s, low)
  {
  }

  /** However the clock behaves, the ids of one generator strictly increase and carry its worker and datacenter. */
  lemma {:induction false} IdsIncrease(g: Generator, clock: seq<int>)
    requires Valid(g)
    ensures Increasing(Ids(g, clock), Value(g))
    ensures forall i | 0 <= i < |Ids(g, clock)| ::
              Decode(Ids(g, clock)[i]).worker == g.worker && Decode(Ids(g, clock)[i]).datacenter == g.datacenter
    decreases |clock|
  {
    hide Compose, Value, Decode, Increasing, Next;
    if clock == [] {
      NoneIncrease(Value(g));
    } else {
      var (h, rest, r) := Next(g, clock);
      NextRaises(g, clock);
      IdsIncrease(h, rest);
      if r.Id? {
        ComposeIsSum(h);
        DecodeInvertsCompose(h);
        OneMoreIncreases(r.id, Ids(h, rest), Value(g));
      } else if r == ClockMovedBackwards {
        assert Ids(g, clock) == Ids(h, rest);
      } else {
        assert Ids(h, rest) == [];
        NoneIncrease(Value(g));
      }
    }
  }

  /** Generators configured with different workers or datacenters never produce the same id. */
  lemma GeneratorsDisjoint(g: Generator, h: Generator, clock: seq<int>, other: seq<int>, i: nat, j: nat)
    requires Valid(g) && Valid(h) && (g.worker != h.worker || g.datacenter != h.datacenter)
    requires i < |Ids(g, clock)| && j < |Ids(h, other)|
    ensures Ids(g, clock)[i] != Ids(h, other)[j]
  {
    hide Ids, Decode;
    IdsIncrease(g, clock);
    IdsIncrease(h, other);
  }

  /**
   * A refund builds a generator of its own for its number.  Two refunds draw
   * the same number exactly when they read the same millisecond.
   */
  lemma FreshGeneratorsCollideIff(worker: nat, datacenter: nat, t: int, u: int)
    requires worker <= 31 && datacenter <= 31 && t >= 0 && u >= 0
    ensures Next(New(worker, datacenter), [t]).2 == Next(New(worker, datacenter), [u]).2 <==> t == u
  {
    NextRaises(New(worker, datacenter), [t]);
    NextRaises(New(worker, datacenter), [u]);
  }

  // ---------------------------------------------------------------- the object

  class SnowflakeGenerator {
    const workerId: nat
    const datacenterId: nat
    var sequence: nat
    var lastTimestamp: int

    function State(): Generator
      reads this
    {
      Generator(datacenterId, workerId, sequence, lastTimestamp)
    }

    /** The fields alone; Make is the constructor with its range checks. */
    constructor (workerId: nat, datacenterId: nat)
      ensures State() == New(workerId, datacenterId)
    {
      this.workerId, this.datacenterId := workerId, datacenterId;
      sequence, lastTimestamp := 0, -1;
    }

    static method Make(workerId: int, datacenterId: int) returns (g: SnowflakeGenerator?)
      ensures g != null <==> 0 <= workerId <= 31 && 0 <= datacenterId <= 31
      ensures g != null ==> fresh(g) && g.State() == New(workerId, datacenterId) && Valid(g.State())
    {
      if !(0 <= workerId <= 31) { return null; }
      if !(0 <= datacenterId <= 31) { return null; }
      g := new SnowflakeGenerator(workerId, datacenterId);
    }

    /** Read the clock until it has passed `current`; `rest` is what it has not yet shown. */
    method WaitNextMillis(current: int, clock: seq<int>) returns (timestamp: Option<int>, rest: seq<int>)
      ensures var k := FirstPast(clock, current);
              if k < |clock| then timestamp == Some(clock[k]) && rest == clock[k + 1..] else timestamp == None && rest == []
    {
      ghost var n := 0;
      rest := clock;
      while rest != [] && rest[0] <= current
        invariant n <= |clock| && rest == clock[n..]
        invariant forall i | 0 <= i < n :: clock[i] <= current
        decreases |rest|
      {
        rest := rest[1..];
        n := n + 1;
      }
      assert n == FirstPast(clock, current);
      if rest == [] { return None, []; }
      return Some(rest[0]), rest[1..];
    }

    method NextId(clock: seq<int>) returns (result: Result, rest: seq<int>)
      requires Valid(State())
      modifies this
      ensures Valid(State())
      ensures (State(), rest, result) == Next(old(State()), clock)
    {
      hide BitOr, ShiftLeft, FirstPast;
      if clock == [] { return Waiting, []; }
      var timestamp := clock[0];
      rest := clock[1..];
      if timestamp < lastTimestamp { return ClockMovedBackwards, rest; }
      if timestamp == lastTimestamp {
        sequence := (sequence + 1) % MASK;
        if sequence == 0 {
          var later: Option<int>;
          later, rest := WaitNextMillis(timestamp, rest);
          if later.None? { return Waiting, rest; }
          timestamp := later.value;
        }
      } else {
        sequence := 0;
      }
      lastTimestamp := timestamp;
      result := Id(BitOr(BitOr(BitOr(ShiftLeft(timestamp - EPOCH, 22), ShiftLeft(datacenterId, 17)), ShiftLeft(workerId, 12)), sequence));
    }
  }
}
