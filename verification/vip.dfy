/** Stacking of VIP time: what a payment does to a membership, and what a run of payments adds up to. */
module Vip {
  import opened Sums

  const DAY := 86400

  /** No expiry on an enabled membership means permanent. */
  datatype Member = Member(enabled: bool, kind: string, started: Option<int>, expires: Option<int>)

  datatype Plan = Plan(id: int, kind: string, days: nat)

  predicate DistinctIds(plans: seq<Plan>) { forall i, j | 0 <= i < j < |plans| :: plans[i].id != plans[j].id }

  /** The plans on file: reading the setting drops a second plan with the same id. */
  type Plans = plans: seq<Plan> | DistinctIds(plans) witness []

  /** A payment of VIP items: the clock reading, the items' product ids, the plans on file. */
  datatype Payment = Payment(now: int, items: seq<int>, plans: Plans)

  predicate IsActive(m: Member, now: int) { m.enabled && (m.expires.None? || m.expires.value > now) }

  predicate Permanent(m: Member) { m.enabled && m.expires.None? }

  function Abs(x: int): (r: int)
    ensures r >= 0 && (r == x || r == -x)
  {
    if x < 0 then -x else x
  }

  /** The first plan on file with that id. */
  function FindPlan(plans: seq<Plan>, id: int): (p: Option<Plan>)
    ensures p.None? <==> forall i | 0 <= i < |plans| :: plans[i].id != id
    ensures p.Some? ==> p.value.id == id
    ensures p.Some? ==> exists i | 0 <= i < |plans| :: plans[i] == p.value && forall j | 0 <= j < i :: plans[j].id != id
  {
    if plans == [] then None else if plans[0].id == id then Some(plans[0]) else FindPlan(plans[1..], id)
  }

  /** One VIP item; a plan that no longer exists changes nothing. */
  function Extend(m: Member, now: int, plan: Option<Plan>): Member {
    if plan.None? then m
    else
      var end := if m.enabled && m.expires.Some? && m.expires.value > now then m.expires.value else now;
      Member(true, plan.value.kind, if m.started.Some? then m.started else Some(now), Some(end + plan.value.days * DAY))
  }

  function Buy(m: Member, now: int, items: seq<int>, plans: Plans): Member {
    if items == [] then m
    else Extend(Buy(m, now, items[..|items| - 1], plans), now, FindPlan(plans, Abs(items[|items| - 1])))
  }

  function Bought(items: seq<int>, plans: Plans): nat {
    if items == [] then 0
    else
      var plan := FindPlan(plans, Abs(items[|items| - 1]));
      Bought(items[..|items| - 1], plans) + if plan.Some? then plan.value.days * DAY else 0
  }

  // ---------------------------------------------------------------- what one item does

  predicate OnFile(plans: seq<Plan>, id: int) { exists i | 0 <= i < |plans| :: plans[i].id == id }

  /** The membership after buying a plan of that kind and length. */
  predicate Extended(m: Member, a: Member, now: int, kind: string, days: nat) {
    && a.enabled && a.kind == kind && a.expires.Some? && Left(a, now) == Left(m, now) + days * 86400
    && a.expires.value == now + Left(a, now)
    && a.started == (if m.started.Some? then m.started else Some(now))
  }

  /** Item after item: one whose plan is on file adds exactly the days of that plan and takes its kind, another changes nothing. */
  lemma PlanAdds(m: Member, now: int, items: seq<int>, plans: Plans)
    requires items != []
    ensures var before, after, id := Buy(m, now, items[..|items| - 1], plans), Buy(m, now, items, plans), Abs(items[|items| - 1]);
            && (forall j | 0 <= j < |plans| && plans[j].id == id :: Extended(before, after, now, plans[j].kind, plans[j].days))
            && (!OnFile(plans, id) ==> after == before)
  {
    forall j | 0 <= j < |plans| && plans[j].id == Abs(items[|items| - 1])
      ensures FindPlan(plans, Abs(items[|items| - 1])) == Some(plans[j])
    {
    }
  }

  /** Items whose plans are not on file change nothing. */
  lemma {:induction false} UnknownPlansIgnored(m: Member, now: int, items: seq<int>, plans: Plans)
    requires forall i | 0 <= i < |items| :: !OnFile(plans, Abs(items[i]))
    ensures Buy(m, now, items, plans) == m
  {
    if items != [] {
      UnknownPlansIgnored(m, now, items[..|items| - 1], plans);
      assert !OnFile(plans, Abs(items[|items| - 1]));
    }
  }

  /** The seconds of the plans that an item names. */
  function SecondsFor(plans: seq<Plan>): int -> int { (item: int) => Sum(plans, SecondsIf(Abs(item))) }

  function SecondsIf(id: int): Plan -> int { (q: Plan) => if q.id == id then q.days * 86400 else 0 }

  /** What is counted as bought is, item by item, the plan the item names. */
  lemma {:induction false} BoughtIs(items: seq<int>, plans: Plans)
    ensures Bought(items, plans) == Sum(items, SecondsFor(plans))
  {
    if items != [] {
      var id := Abs(items[|items| - 1]);
      BoughtIs(items[..|items| - 1], plans);
      if j :| 0 <= j < |plans| && plans[j].id == id {
        SumSingle(plans, j, SecondsIf(id));
        assert FindPlan(plans, id) == Some(plans[j]);
      } else {
        SumZero(plans, SecondsIf(id));
      }
    }
  }

  // ---------------------------------------------------------------- measuring membership time

  /** Seconds in [from, until) at which a check of the membership would say it is active. */
  function ActiveSeconds(m: Member, from: int, until: int): nat
    decreases until - from
  {
    if until <= from then 0 else ActiveSeconds(m, from, until - 1) + if IsActive(m, until - 1) then 1 else 0
  }

  function Left(m: Member, now: int): nat {
    if m.enabled && m.expires.Some? && m.expires.value > now then m.expires.value - now else 0
  }

  lemma {:induction false} ActiveUntilExpiry(m: Member, from: int, until: int)
    requires !Permanent(m) && from <= until
    ensures ActiveSeconds(m, from, until) + Left(m, until) == Left(m, from)
    decreases until - from
  {
    if from < until {
      ActiveUntilExpiry(m, from, until - 1);
    }
  }

  function After(m: Member, payments: seq<Payment>): Member {
    if payments == [] then m
    else
      var p := payments[|payments| - 1];
      Buy(After(m, payments[..|payments| - 1]), p.now, p.items, p.plans)
  }

  function LastTime(start: int, payments: seq<Payment>): int {
    if payments == [] then start else payments[|payments| - 1].now
  }

  predicate InOrder(start: int, payments: seq<Payment>) {
    forall i | 0 <= i < |payments| :: LastTime(start, payments[..i]) <= payments[i].now
  }

  /** Active seconds from start to the last payment, each stretch checked against the membership of its time. */
  function Enjoyed(m: Member, start: int, payments: seq<Payment>): nat {
    if payments == [] then 0
    else
      var front := payments[..|payments| - 1];
      Enjoyed(m, start, front) + ActiveSeconds(After(m, front), LastTime(start, front), payments[|payments| - 1].now)
  }

  /** The seconds of all plans named by all items paid for. */
  function Paid(payments: seq<Payment>): int {
    if payments == [] then 0
    else
      var p := payments[|payments| - 1];
      Paid(payments[..|payments| - 1]) + Sum(p.items, SecondsFor(p.plans))
  }

  lemma {:induction false} BuyAdds(m: Member, now: int, items: seq<int>, plans: Plans)
    requires !Permanent(m)
    ensures !Permanent(Buy(m, now, items, plans))
    ensures Left(Buy(m, now, items, plans), now) == Left(m, now) + Bought(items, plans)
  {
    if items != [] {
      BuyAdds(m, now, items[..|items| - 1], plans);
    }
  }

  /**
   * No paid second is lost: for a membership that is not permanent, the active
   * seconds so far and the seconds still ahead add up to what it started with
   * and every duration bought since.
   */
  lemma {:induction false} TimeNeverLost(m: Member, start: int, payments: seq<Payment>, now: int)
    requires !Permanent(m) && InOrder(start, payments) && LastTime(start, payments) <= now
    ensures !Permanent(After(m, payments))
    ensures Enjoyed(m, start, payments) + ActiveSeconds(After(m, payments), LastTime(start, payments), now)
            + Left(After(m, payments), now) == Left(m, start) + Paid(payments)
  {
    hide ActiveSeconds, Left, Buy, Bought;
    if payments != [] {
      var front := payments[..|payments| - 1];
      var p := payments[|payments| - 1];
      assert forall i | 0 <= i < |front| :: front[..i] == payments[..i];
      TimeNeverLost(m, start, front, p.now);
      BuyAdds(After(m, front), p.now, p.items, p.plans);
      BoughtIs(p.items, p.plans);
    }
    ActiveUntilExpiry(After(m, payments), LastTime(start, payments), now);
  }

  /** Some moment that was covered before the purchase no longer is. */
  ghost predicate Shortens(m: Member, now: int, items: seq<int>, plans: Plans) {
    exists t :: t >= now && IsActive(m, t) && !IsActive(Buy(m, now, items, plans), t)
  }

  /** At least one item names a plan on file. */
  predicate AnyPlan(items: seq<int>, plans: seq<Plan>) {
    exists i | 0 <= i < |items| :: OnFile(plans, Abs(items[i]))
  }

  lemma {:induction false} BuyReaches(m: Member, now: int, items: seq<int>, plans: Plans)
    ensures AnyPlan(items, plans) ==> Buy(m, now, items, plans).expires.Some?
    ensures !AnyPlan(items, plans) ==> Buy(m, now, items, plans) == m
  {
    if items != [] {
      var front := items[..|items| - 1];
      BuyReaches(m, now, front, plans);
      assert forall i | 0 <= i < |front| :: front[i] == items[i];
      assert AnyPlan(items, plans) <==> AnyPlan(front, plans) || OnFile(plans, Abs(items[|items| - 1]));
    }
  }

  /** A purchase takes covered time away exactly when the membership was permanent and a plan was found. */
  lemma ShortensIffPermanent(m: Member, now: int, items: seq<int>, plans: Plans)
    ensures Shortens(m, now, items, plans) <==> Permanent(m) && AnyPlan(items, plans)
  {
    BuyReaches(m, now, items, plans);
    var a := Buy(m, now, items, plans);
    if Permanent(m) {
      if AnyPlan(items, plans) {
        var t := if a.expires.value > now then a.expires.value else now;
        assert IsActive(m, t) && !IsActive(a, t);
      }
    } else {
      BuyAdds(m, now, items, plans);
      forall t | t >= now && IsActive(m, t) ensures IsActive(a, t) {
        assert Left(a, now) >= Left(m, now);
      }
    }
  }

  /** What a payment promises: nothing for unknown plans, the plan named by a single item, and all seconds named. */
  lemma BuyPromises(m: Member, now: int, items: seq<int>, plans: Plans)
    ensures var a := Buy(m, now, items, plans);
            && ((forall j | 0 <= j < |items| :: !OnFile(plans, Abs(items[j]))) ==> a == m)
            && (|items| == 1 ==>
                  forall j | 0 <= j < |plans| && plans[j].id == Abs(items[0]) :: Extended(m, a, now, plans[j].kind, plans[j].days))
            && (!Permanent(m) ==> Left(a, now) == Left(m, now) + Sum(items, SecondsFor(plans)))
  {
    hide Extended, Left;
    if forall j | 0 <= j < |items| :: !OnFile(plans, Abs(items[j])) { UnknownPlansIgnored(m, now, items, plans); }
    BoughtIs(items, plans);
    if !Permanent(m) { BuyAdds(m, now, items, plans); }
    if |items| == 1 {
      assert items[..0] == [];
      PlanAdds(m, now, items, plans);
    }
  }

  class Account {
    var vipEnabled: bool
    var vipType: string
    var vipStartedAt: Option<int>
    var vipExpiresAt: Option<int>

    function Membership(): Member
      reads this
    {
      Member(vipEnabled, vipType, vipStartedAt, vipExpiresAt)
    }

    constructor (m: Member)
      ensures Membership() == m
    {
      vipEnabled, vipType, vipStartedAt, vipExpiresAt := m.enabled, m.kind, m.started, m.expires;
    }

    /** The VIP items of one payment, under one clock reading. */
    method GrantVip(now: int, items: seq<int>, plans: Plans)
      modifies this
      ensures Membership() == Buy(old(Membership()), now, items, plans)
      ensures (forall j | 0 <= j < |items| :: !OnFile(plans, Abs(items[j]))) ==> Membership() == old(Membership())
      ensures |items| == 1 ==>
                forall j | 0 <= j < |plans| && plans[j].id == Abs(items[0]) ::
                  Extended(old(Membership()), Membership(), now, plans[j].kind, plans[j].days)
      ensures !Permanent(old(Membership())) ==>
                Left(Membership(), now) == Left(old(Membership()), now) + Sum(items, SecondsFor(plans))
    {
      hide Extended, Left, OnFile, SecondsFor;
      ghost var was := Membership();
      var i := 0;
      while i < |items|
        invariant 0 <= i <= |items|
        invariant Membership() == Buy(old(Membership()), now, items[..i], plans)
      {
        assert items[..i + 1][..i] == items[..i];
        var plan := FindPlan(plans, Abs(items[i]));
        if plan.Some? {
          var currentEnd := now;
          if vipEnabled && vipExpiresAt.Some? && vipExpiresAt.value > now { currentEnd := vipExpiresAt.value; }
          vipEnabled := true;
          vipType := plan.value.kind;
          if vipStartedAt.None? { vipStartedAt := Some(now); }
          vipExpiresAt := Some(currentEnd + plan.value.days * DAY);
        }
        i := i + 1;
      }
      assert items[..i] == items;
      BuyPromises(was, now, items, plans);
    }
  }
}
