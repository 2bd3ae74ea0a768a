/**
 * The order service after placement, as the code runs it: rows changed in
 * place by loops over the items of one order.  Every endpoint is proved to take
 * the step of Shop that its event stands for, and to keep the shop sound; an
 * error is raised before anything is written, or rolled back.
 */
module ShopService {
  import opened Sums
  import opened Shop
  import opened ShopHistory
  import opened ShopTheorems
  import opened ShopCounters
  import opened ShopStranded
  import opened ShopEffects
  import P = OrderProtocol

  datatype Reply = Fine | Failed(error: Error)

  predicate Settles(before: Books, after: Books, reply: Reply, o: Outcome) {
    if o.Done? then after == o.books && reply == Fine else after == before && reply == Failed(o.error)
  }

  /** What the caller sees, as an outcome. */
  function Seen(after: Books, reply: Reply): Outcome { if reply == Fine then Done(after) else Raised(reply.error) }

  /** The items with the first n rows closed. */
  function Closed(items: seq<Item>, n: nat): seq<Item> {
    seq(|items|, i requires 0 <= i < |items| => if i < n then Close(items[i]) else items[i])
  }

  /** The items with the VIP rows marked paid, and the study rows among the first n. */
  function Marked(items: seq<Item>, n: nat, counters: map<int, int>, plans: set<int>, member: bool): seq<Item> {
    seq(|items|, i requires 0 <= i < |items| =>
      if i < n || items[i].kind == Vip then PayItem(items[i], counters, plans, member) else items[i])
  }

  /** A call that reports a change did not fail for lack of an order or a gateway. */
  lemma TimeOutReports(b: Books, k: nat, configured: bool, gateway: Gateway, plans: set<int>)
    ensures var o := TimeOut(b, k, configured, gateway, plans);
            (Reported(b, k, configured, gateway) && !Aborts(b, k, o) ==> o.Done?) && (k >= |b.orders| ==> o == Raised(OrderNotFound))
  {
    hide Tally, Written, Counters, Granted, PayItems, GiveBackAll, KeysBackAll, CloseItems;
  }

  /** What every run from the opening keeps. */
  ghost predicate Reachable(b: Books, start: Books) { Sound(b, start) && RowsFit(b) }

  lemma StepKeepsReachable(b: Books, start: Books, e: Event)
    requires Reachable(b, start)
    ensures Reachable(Step(b, e), start)
  {
    hide Sound, RowsFit, Step, OrdersSound;
    SoundOrders(b, start);
    StepKeepsSound(b, start, e);
    SyncsMove(b, e);
  }

  /** A change of one order that keeps its goods leaves every sync with a row that fits. */
  lemma ChangeKeepsRows(b: Books, a: Books, k: nat)
    requires RowsFit(b) && a.syncs == b.syncs && (Calm(b, a) || Settled(b, a, k))
    ensures RowsFit(a)
  {
    hide Written, Tally, Reading;
    forall i | 0 <= i < |a.syncs| ensures RowFits(a, a.syncs[i]) {
      assert RowFits(b, b.syncs[i]);
      if Calm(b, a) { assert SameSettled(b.orders[b.syncs[i].order], a.orders[b.syncs[i].order]); }
    }
  }

  lemma MarkKeepsReachable(b: Books, start: Books, k: nat, channel: Channel, transaction: string, plans: set<int>)
    requires Reachable(b, start) && channel != Balance
    ensures Reachable(After(b, MarkPaid(b, k, channel, transaction, plans)), start)
  {
    hide Sound, RowsFit, MarkPaid, Settled, OrdersSound;
    SoundOrders(b, start);
    MarkKeepsSound(b, start, k, channel, transaction, plans);
    MarkFramed(b, k, channel, transaction, plans);
    MarkKind(b, k, channel, transaction, plans);
    if After(b, MarkPaid(b, k, channel, transaction, plans)) != b {
      ChangeKeepsRows(b, After(b, MarkPaid(b, k, channel, transaction, plans)), k);
    }
  }

  lemma CancelAsKeepsReachable(b: Books, start: Books, k: nat, row: Order)
    requires Reachable(b, start) && k < |b.orders|
    ensures Reachable(After(b, CancelAs(b, k, row)), start)
  {
    hide Sound, RowsFit, Calm, OrdersSound, GiveBackAll, KeysBackAll, CloseItems;
    SoundOrders(b, start);
    CancelAsKeepsSound(b, start, k, row);
    CancelAsKind(b, k, row);
    ChangeKeepsRows(b, After(b, CancelAs(b, k, row)), k);
  }

  lemma OpeningReachable(start: Books)
    requires Opening(start)
    ensures Reachable(start, start)
  {
    OpeningSound(start);
  }

  /** Whichever of two rows of the same goods is closed, the result is the same. */
  lemma ClosesAlike(items: seq<Item>, other: seq<Item>)
    requires SameGoods(items, other)
    ensures CloseItems(items) == CloseItems(other)
  {
  }

  lemma ReturnsAll(keys: map<int, int>, m: map<int, Product>, items: seq<Item>, unsell: bool)
    ensures StockReturned(m, GiveBackAll(m, items, unsell), items)
    ensures KeysReturned(keys, KeysBackAll(keys, m, items, unsell), m, items)
  {
    GiveBackStock(m, items, unsell);
    forall p: int ensures KeyReturned(keys, KeysBackAll(keys, m, items, unsell), m, items, p) { KeysBackStock(keys, m, items, unsell, p); }
  }

  lemma ReachableSound(b: Books, start: Books)
    requires Reachable(b, start)
    ensures Sound(b, start)
  {
  }

  lemma SyncRow(b: Books, start: Books, i: nat)
    requires Reachable(b, start) && i < |b.syncs|
    ensures b.syncs[i].order < |b.orders| && SameGoods(b.orders[b.syncs[i].order].items, b.syncs[i].row.items) && Payable(b.syncs[i].row)
  {
    assert RowFits(b, b.syncs[i]);
  }

  lemma SoundWallet(b: Books, start: Books)
    requires Reachable(b, start)
    ensures forall u | u in b.balances :: b.balances[u] >= 0
  {
    assert b.balances.Keys == start.balances.Keys;
  }

  class Store {
    var balances: map<nat, int>
    var wallet: seq<WalletRow>
    var products: map<int, Product>
    var orders: seq<Order>
    var grants: seq<Entitlement>
    var stamps: multiset<nat>
    var syncs: seq<Sync>
    var keys: map<int, int>
    var readings: map<nat, map<int, int>>
    ghost const opening: Books

    function Contents(): Books
      reads this
    {
      Books(balances, wallet, products, keys, orders, grants, stamps, readings, syncs)
    }

    /** Whatever holds in every reachable state of the shop. */
    ghost predicate Valid()
      reads this
    {
      Reachable(Contents(), opening)
    }

    constructor (balances: map<nat, int>, products: map<int, Product>, keys: map<int, int>)
      requires Opening(Books(balances, [], products, keys, [], [], multiset{}, map[], []))
      ensures Contents() == opening == Books(balances, [], products, keys, [], [], multiset{}, map[], [])
      ensures Valid()
    {
      this.balances, this.products, this.keys := balances, products, keys;
      wallet, orders, grants, stamps, readings, syncs := [], [], [], multiset{}, map[], [];
      opening := Books(balances, [], products, keys, [], [], multiset{}, map[], []);
      OpeningReachable(Books(balances, [], products, keys, [], [], multiset{}, map[], []));
    }

    method PostRow(user: nat, income: bool, amount: int, kind: RowKind, order: Option<nat>, number: string)
      requires user in balances
      modifies `balances, `wallet
      ensures Contents() == Post(old(Contents()), user, income, amount, kind, order, number)
    {
      var before := balances[user];
      var after := if income then before + amount else before - amount;
      balances := balances[user := after];
      wallet := wallet + [WalletRow(user, income, amount, before, after, kind, order, number)];
    }

    /** The VIP loop of a payment, as far as it marks items. */
    method MarkVipItems(items: seq<Item>, ghost counters: map<int, int>, member: bool, plans: set<int>) returns (marked: seq<Item>)
      ensures marked == Marked(items, 0, counters, plans, member)
    {
      marked := items;
      var i := 0;
      while i < |items|
        invariant 0 <= i <= |items| == |marked|
        invariant forall j | 0 <= j < |items| ::
                    marked[j] == if j < i && items[j].kind == Vip then PayItem(items[j], counters, plans, member) else items[j]
      {
        if items[i].kind == Vip && member && Abs(items[i].product) in plans {
          marked := marked[i := marked[i].(status := P.Paid)];
        }
        i := i + 1;
      }
      assert marked == Marked(items, 0, counters, plans, member);
    }

    /** One entitlement per unit of one item. */
    method Grant(e: Entitlement, quantity: nat)
      modifies `grants
      ensures grants == old(grants) + Copies(e, quantity)
    {
      var n := 0;
      while n < quantity
        invariant 0 <= n <= quantity
        invariant grants == old(grants) + Copies(e, n)
      {
        grants := grants + [e];
        n := n + 1;
      }
    }

    /** The study loop of a payment, on the product rows as they were read: counters, entitlements, item marks. */
    method SellItems(k: nat, user: nat, items: seq<Item>, counters: map<int, int>, marked: seq<Item>, ghost plans: set<int>, ghost member: bool)
      returns (paid: seq<Item>)
      requires marked == Marked(items, 0, counters, plans, member)
      modifies `products, `grants
      ensures products == Written(old(products), Tally(counters, items))
      ensures grants == old(grants) + Granted(k, user, items, counters)
      ensures paid == PayItems(items, counters, plans, member)
    {
      hide Written, Copies;
      var tally := counters;
      paid := marked;
      var i := 0;
      while i < |items|
        invariant 0 <= i <= |items| == |paid|
        invariant products == old(products)
        invariant tally == Tally(counters, items[..i]) && tally.Keys == counters.Keys
        invariant grants == old(grants) + Granted(k, user, items[..i], counters)
        invariant paid == Marked(items, i, counters, plans, member)
      {
        assert items[..i + 1][..i] == items[..i];
        var it := items[i];
        if it.kind == Study && it.product in tally {
          tally := tally[it.product := tally[it.product] + it.quantity];
          Grant(Entitlement(user, it.product, k, true), it.quantity);
          paid := paid[i := paid[i].(status := P.Paid)];
        }
        i := i + 1;
      }
      assert items[..i] == items;
      products := Written(products, tally);
    }

    /** What a payment does to the tables, once its checks have passed. */
    method Pay(k: nat, channel: Channel, transaction: string, plans: set<int>)
      requires k < |orders|
      modifies this
      ensures Contents() == Paying(old(Contents()), k, channel, transaction, plans)
    {
      hide Tally, Granted, Counters, Written, PayItems, Marked;
      var order := orders[k].(payment := P.PaidUp, status := P.Paid, channel := channel, transaction := transaction,
                              paidAt := true);
      var counters := if k in readings then readings[k] else Counters(products, order.items);
      var member := order.user in balances;
      var marked := MarkVipItems(order.items, counters, member, plans);
      var paid := SellItems(k, order.user, order.items, counters, marked, plans, member);
      orders := orders[k := order.(items := paid)];
      readings := readings - {k};
    }

    method MarkOrderPaid(k: nat, channel: Channel, transaction: string, plans: set<int>) returns (reply: Reply)
      modifies this
      ensures Settles(old(Contents()), Contents(), reply, MarkPaid(old(Contents()), k, channel, transaction, plans))
      ensures old(Valid()) && channel != Balance ==> Valid()
      ensures reply == Fine ==> k < |orders| && SettledPaid(orders[k])
    {
      hide Reachable, Tally, Granted, Counters, Written, PayItems;
      ghost var was := Contents();
      if k >= |orders| { return Failed(OrderNotFound); }
      var order := orders[k];
      if order.payment == P.PaidUp && order.status == P.Paid { return Fine; }
      if order.status != P.Pending { return Failed(OrderNotPayable); }
      if order.payment == P.PaidUp { return Failed(OrderNotPayable); }
      Pay(k, channel, transaction, plans);
      if Reachable(was, opening) && channel != Balance { MarkKeepsReachable(was, opening, k, channel, transaction, plans); }
      return Fine;
    }

    /** A payment passes its checks and reads the product rows; what follows commits it or gives it up. */
    method BeginOrderPayment(k: nat) returns (reply: Reply)
      requires Valid()
      modifies `readings
      ensures Valid()
      ensures Settles(old(Contents()), Contents(), reply, Perform(old(Contents()), BeginPay(k)))
    {
      hide Reachable, Counters;
      ghost var was := Contents();
      if k < |orders| && orders[k].status == P.Pending && orders[k].payment != P.PaidUp && k !in readings {
        readings := readings[k := Counters(products, orders[k].items)];
      }
      StepKeepsReachable(was, opening, BeginPay(k));
      return Fine;
    }

    /** A payment in progress is rolled back. */
    method AbortOrderPayment(k: nat) returns (reply: Reply)
      requires Valid()
      modifies `readings
      ensures Valid()
      ensures Settles(old(Contents()), Contents(), reply, Perform(old(Contents()), AbortPay(k)))
    {
      hide Reachable;
      ghost var was := Contents();
      readings := readings - {k};
      StepKeepsReachable(was, opening, AbortPay(k));
      return Fine;
    }

    method PayFromWallet(user: nat, k: nat, number: string, plans: set<int>) returns (reply: Reply)
      requires Valid()
      modifies this
      ensures Valid()
      ensures Settles(old(Contents()), Contents(), reply, Perform(old(Contents()), PayBalance(user, k, number, plans)))
      ensures reply == Fine && !SettledPaid(old(Contents()).orders[k]) ==>
                user in old(balances) && user in balances && balances[user] == old(balances)[user] - old(orders)[k].payable >= 0
      ensures reply == Fine && Unpaid(old(Contents()), k) ==>
                && PaymentDone(old(Contents()), Contents(), k, Balance, number, plans)
                && Posted(old(Contents()), Contents(), user, false, old(orders)[k].payable, Purchase, Some(k), number)
    {
      hide Reachable, PaymentDone, Paying;
      ghost var was := Contents();
      ReachableSound(was, opening);
      if Unpaid(was, k) && orders[k].user == user { BuyAt(was, opening, user, k, number, plans); }
      if k >= |orders| || orders[k].user != user { return Failed(OrderNotFound); }
      var order := orders[k];
      if order.payment == P.PaidUp && order.status == P.Paid { return Fine; }
      if order.status != P.Pending { return Failed(OrderNotPayable); }
      if order.payment == P.PaidUp { return Failed(OrderNotPayable); }
      if user !in balances { return Failed(UserNotFound); }
      if order.payable < 0 { return Failed(InvalidOrderAmount); }
      if balances[user] < order.payable { return Failed(InsufficientBalance); }
      if NumberTaken(wallet, number) { return Failed(DuplicateNumber); }
      PostRow(user, false, order.payable, Purchase, Some(k), number);
      reply := MarkOrderPaid(k, Balance, number, plans);
      StepKeepsReachable(was, opening, PayBalance(user, k, number, plans));
    }

    /** The loop of a cancellation: stock back for items that took it, every item closed. */
    method CloseUnpaid(items: seq<Item>) returns (closed: seq<Item>)
      modifies `products, `keys
      ensures products == GiveBackAll(old(products), items, false)
      ensures keys == KeysBackAll(old(keys), old(products), items, false)
      ensures closed == CloseItems(items)
      ensures StockReturned(old(products), products, items) && KeysReturned(old(keys), keys, old(products), items)
    {
      hide StockReturned, KeyReturned;
      closed := items;
      var i := 0;
      while i < |items|
        invariant 0 <= i <= |items|
        invariant products == GiveBackAll(old(products), items[..i], false)
        invariant keys == KeysBackAll(old(keys), old(products), items[..i], false)
        invariant closed == Closed(items, i)
      {
        assert items[..i + 1][..i] == items[..i];
        var it := items[i];
        if it.product in products {
          var p := products[it.product];
          if it.stockDeducted && p.stock >= 0 {
            products := products[it.product := p.(stock := p.stock + it.quantity)];
            keys := keys[it.product := (if it.product in keys then keys[it.product] else 0) + it.quantity];
          }
          assert products == products[it.product := products[it.product]];
        }
        closed := closed[i := it.(stockDeducted := false, status := P.Canceled)];
        i := i + 1;
      }
      assert items[..i] == items;
      ReturnsAll(old(keys), old(products), items, false);
    }

    /**
     * A cancellation by the order row it is handed: the current one, or one read
     * earlier without a lock.  Either is judged as it is, and the order closed.
     */
    method CancelUnpaidOrder(k: nat, row: Order) returns (reply: Reply, changed: bool)
      requires k < |orders| && SameGoods(orders[k].items, row.items)
      modifies `orders, `products, `keys
      ensures Settles(old(Contents()), Contents(), reply, CancelAs(old(Contents()), k, row))
      ensures changed <==> Payable(row) && k !in readings
      ensures changed ==> CancelDone(old(Contents()), Contents(), k, row.items)
      ensures old(Valid()) ==> Valid()
    {
      hide Reachable, GiveBackAll, KeysBackAll, CancelDone, StockReturned, KeyReturned;
      ghost var was := Contents();
      if Reachable(was, opening) { CancelAsKeepsReachable(was, opening, k, row); }
      if row.payment == P.PaidUp || row.status != P.Pending { return Fine, false; }
      if k in readings { return Failed(RowLocked), false; }
      ClosesAlike(orders[k].items, row.items);
      var closed := CloseUnpaid(row.items);
      orders := orders[k := orders[k].(status := P.Canceled, payment := P.Voided, items := closed)];
      ClosingDoes(was, k, row.items);
      return Fine, true;
    }

    /** The payment sync reads the order, and later its items, without a lock. */
    method SyncReadOrder(user: nat, k: nat) returns (reply: Reply)
      requires Valid()
      modifies `syncs
      ensures Valid()
      ensures Settles(old(Contents()), Contents(), reply, Perform(old(Contents()), SyncRead(user, k)))
      ensures reply == Fine && !SyncOpen(Contents(), |old(syncs)|, k) ==> k < |orders| && orders[k].payment == P.PaidUp && syncs == old(syncs)
    {
      hide Reachable;
      StepKeepsReachable(Contents(), opening, SyncRead(user, k));
      if k >= |orders| || orders[k].user != user { return Failed(OrderNotFound); }
      var order := orders[k];
      if order.payment == P.PaidUp { return Fine; }
      if order.channel != Wechat || order.status != P.Pending { return Failed(OrderNotPayable); }
      syncs := syncs + [Sync(k, order, true)];
      return Fine;
    }

    method SyncReadItems(i: nat) returns (reply: Reply)
      requires Valid()
      modifies `syncs
      ensures Valid()
      ensures Settles(old(Contents()), Contents(), reply, Perform(old(Contents()), SyncItems(i)))
    {
      hide Reachable;
      StepKeepsReachable(Contents(), opening, SyncItems(i));
      if i < |syncs| && syncs[i].live && syncs[i].order < |orders| {
        var sync := syncs[i];
        syncs := syncs[i := sync.(row := sync.row.(items := orders[sync.order].items))];
      }
      return Fine;
    }

    /** The gateway has closed the payment: the sync cancels the order it has read, which may be paid by now. */
    method SyncCancelOrder(i: nat) returns (reply: Reply)
      requires Valid()
      modifies `orders, `products, `keys, `syncs
      ensures Valid()
      ensures Settles(old(Contents()), Contents(), reply, Perform(old(Contents()), SyncCancel(i)))
      ensures i < |old(syncs)| && old(syncs)[i].live && old(syncs)[i].order !in readings ==>
                && reply == Fine && |orders| == |old(orders)|
                && orders[old(syncs)[i].order].payment == P.Voided
                && (BoughtAt(old(Contents()), old(syncs)[i].order) ==> StrandedAt(Contents(), old(syncs)[i].order))
    {
      hide Reachable, CloseItems, GiveBackAll, KeysBackAll;
      ghost var was := Contents();
      StepKeepsReachable(was, opening, SyncCancel(i));
      if i >= |syncs| || !syncs[i].live || syncs[i].order >= |orders| {
        if i < |syncs| { SyncRow(was, opening, i); }
        return Fine;
      }
      SyncRow(was, opening, i);
      var sync := syncs[i];
      if sync.order in readings { return Failed(RowLocked); }
      syncs := syncs[i := sync.(live := false)];
      var changed;
      reply, changed := CancelUnpaidOrder(sync.order, sync.row);
    }

    /** Every entitlement of the order expires. */
    method ExpireEntitlements(k: nat)
      modifies `grants
      ensures grants == LapseAll(old(grants), k)
    {
      var i := 0;
      while i < |grants|
        invariant 0 <= i <= |grants| == |old(grants)|
        invariant forall j | 0 <= j < |grants| :: grants[j] == if j < i then Lapse(old(grants)[j], k) else old(grants)[j]
      {
        if grants[i].order == k { grants := grants[i := grants[i].(active := false)]; }
        i := i + 1;
      }
      assert grants == LapseAll(old(grants), k);
    }

    /** The loop of a refund: counters down, stock back, items closed. */
    method UnsellItems(items: seq<Item>) returns (closed: seq<Item>)
      modifies `products, `keys
      ensures products == GiveBackAll(old(products), items, true)
      ensures keys == KeysBackAll(old(keys), old(products), items, true)
      ensures closed == CloseItems(items)
      ensures StockReturned(old(products), products, items) && KeysReturned(old(keys), keys, old(products), items)
    {
      hide StockReturned, KeyReturned;
      closed := items;
      var i := 0;
      while i < |items|
        invariant 0 <= i <= |items|
        invariant products == GiveBackAll(old(products), items[..i], true)
        invariant keys == KeysBackAll(old(keys), old(products), items[..i], true)
        invariant closed == Closed(items, i)
      {
        assert items[..i + 1][..i] == items[..i];
        var it := items[i];
        if it.product in products {
          var p := products[it.product];
          p := p.(sales := if p.sales - it.quantity < 0 then 0 else p.sales - it.quantity);
          if it.stockDeducted && p.stock >= 0 {
            p := p.(stock := p.stock + it.quantity);
            keys := keys[it.product := (if it.product in keys then keys[it.product] else 0) + it.quantity];
          }
          products := products[it.product := p];
        }
        closed := closed[i := it.(stockDeducted := false, status := P.Canceled)];
        i := i + 1;
      }
      assert items[..i] == items;
      ReturnsAll(old(keys), old(products), items, true);
    }

    method SettleRefund(k: nat, refundNo: string, refundId: string, toWallet: bool, number: string) returns (reply: Reply)
      modifies this
      ensures Settles(old(Contents()), Contents(), reply, FinalizeRefund(old(Contents()), k, refundNo, refundId, toWallet, number))
      ensures reply == Fine ==> k < |orders| && orders[k].payment == P.Refunded
      ensures reply == Fine && old(orders)[k].payment != P.Refunded ==>
                forall i | 0 <= i < |grants| && grants[i].order == k :: !grants[i].active
      ensures reply == Fine && old(orders)[k].payment != P.Refunded ==>
                && StockReturned(old(products), products, old(orders)[k].items)
                && KeysReturned(old(keys), keys, old(products), old(orders)[k].items)
    {
      hide GiveBackAll, KeysBackAll, StockReturned, KeyReturned, CloseItems, RefundRowExists, NumberTaken, RefundNoTaken;
      if k >= |orders| { return Failed(OrderNotFound); }
      var order := orders[k];
      if order.payment == P.Refunded { return Fine; }
      if order.payment != P.PaidUp || order.status != P.Paid { return Failed(OrderNotRefundable); }
      if order.user !in balances { return Failed(UserNotFound); }
      var pays := toWallet && !RefundRowExists(wallet, k);
      if (pays && NumberTaken(wallet, number)) || RefundNoTaken(orders, k, refundNo) { return Failed(DuplicateNumber); }
      if pays { PostRow(order.user, true, order.payable, Refund, Some(k), number); }
      ExpireEntitlements(k);
      var closed := UnsellItems(order.items);
      orders := orders[k := order.(status := P.Canceled, payment := P.Refunded, items := closed,
                                   refundState := Succeeded, refundNo := Some(refundNo), refundId := refundId, refundedAt := true)];
      return Fine;
    }

    method ApplyWechatPayment(k: nat, transaction: string, plans: set<int>) returns (reply: Reply)
      requires Valid()
      modifies this
      ensures Settles(old(Contents()), Contents(), reply, Perform(old(Contents()), Notify(k, transaction, plans)))
      ensures k < |old(orders)| ==>
                SuccessKept(old(Contents()), Seen(Contents(), reply), k, transaction, plans)
      ensures Valid()
    {
      hide Reachable, SuccessKept, MarkPaid;
      ReachableSound(Contents(), opening);
      if k < |orders| { NotifyAt(Contents(), opening, k, transaction, plans); }
      if k >= |orders| { return Failed(OrderNotFound); }
      var order := orders[k];
      if order.payment == P.PaidUp || order.payment == P.Refunded {
        if order.transaction != "" && order.transaction != transaction { return Failed(TransactionMismatch); }
        return Fine;
      }
      reply := MarkOrderPaid(k, Wechat, transaction, plans);
    }

    method CancelTimedOut(k: nat, configured: bool, gateway: Gateway, plans: set<int>) returns (reply: Reply, changed: bool)
      requires Valid()
      modifies this
      ensures Settles(old(Contents()), Contents(), reply, TimeOut(old(Contents()), k, configured, gateway, plans))
      ensures changed <==> reply == Fine && Reported(old(Contents()), k, configured, gateway)
      ensures changed <==> Ended(old(Contents()), k, configured, gateway, plans) || AlreadyPaid(old(Contents()), k, configured, gateway)
      ensures Valid()
      ensures k < |old(orders)| && old(orders)[k].channel == Wechat && configured && gateway == UserPaying ==>
                Contents() == old(Contents()) && reply == Fine && !changed
    {
      hide Reachable, CancelDone, SettledPaid, Ended, AlreadyPaid, Closing, Paying, Tally, Written, Counters, Granted, PayItems, GiveBackAll, KeysBackAll, CloseItems;
      ReachableSound(Contents(), opening);
      ReportIff(Contents(), opening, k, configured, gateway, plans);
      if k >= |orders| { return Failed(OrderNotFound), false; }
      if orders[k].channel == Wechat && configured {
        match gateway
        case QueryFailed => return Failed(GatewayUnavailable), false;
        case Success(transaction) =>
          reply := MarkOrderPaid(k, Wechat, transaction, plans);
          return reply, reply == Fine;
        case UserPaying => return Fine, false;
        case NotPaid(closed) => if !closed { return Failed(GatewayUnavailable), false; }
        case _ =>
      }
      reply, changed := CancelUnpaidOrder(k, orders[k]);
    }

    /** The fallback job over the orders whose timeout job was never scheduled. */
    method SweepUnscheduled(rows: seq<nat>, configured: bool, answers: seq<Gateway>, plans: set<int>)
      returns (scanned: nat, canceled: seq<nat>)
      requires Valid() && |answers| == |rows|
      modifies this
      ensures Valid()
      ensures var (after, report) := Sweep(old(Contents()), rows, configured, answers, plans);
              && Contents() == after
              && (report.Some? ==> scanned == |rows| && canceled == report.value)
              && (report.None? ==> scanned == 0 && canceled == [])
      ensures Sweep(old(Contents()), rows, configured, answers, plans).1.Some? ==> forall k: nat ::
                k in canceled <==> exists j | 0 <= j < |rows| :: ListedAt(old(Contents()), rows, configured, answers, plans, k, j)
    {
      hide TimeOut, Sound, Reported, ListedAt;
      ghost var was := Contents();
      canceled := [];
      var i := 0;
      while i < |rows|
        invariant 0 <= i <= |rows| && Valid()
        invariant Sweep(old(Contents()), rows[..i], configured, answers[..i], plans) == (Contents(), Some(canceled))
      {
        assert rows[..i + 1][..i] == rows[..i] && answers[..i + 1][..i] == answers[..i];
        ghost var before := Contents();
        var reply, changed := CancelTimedOut(rows[i], configured, answers[i], plans);
        if rows[i] < |orders| && reply.Failed? && reply.error != GatewayUnavailable {
          SweepStopped(old(Contents()), rows, configured, answers, plans, i + 1);
          return 0, [];
        }
        if changed { canceled := canceled + [rows[i]]; }
        TimeOutReports(before, rows[i], configured, answers[i], plans);
        i := i + 1;
      }
      assert rows[..i] == rows && answers[..i] == answers;
      forall k: nat ensures k in canceled <==> exists j | 0 <= j < |rows| :: ListedAt(was, rows, configured, answers, plans, k, j) {
        ReachableSound(was, opening);
        SweepListsIff(was, opening, rows, configured, answers, plans, k);
      }
      return |rows|, canceled;
    }

    method RequestOrderRefund(user: nat, k: nat) returns (reply: Reply)
      requires Valid()
      modifies `orders
      ensures Valid()
      ensures Settles(old(Contents()), Contents(), reply, Perform(old(Contents()), AskRefund(user, k)))
      ensures reply == Fine ==> Perform(Contents(), AskRefund(user, k)) == Done(Contents())
      ensures |orders| == |old(orders)|
      ensures forall j | 0 <= j < |orders| :: orders[j].status == old(orders)[j].status && orders[j].payment == old(orders)[j].payment
      ensures k < |old(orders)| && k !in readings ==>
                RequestKept(old(Contents()), Seen(Contents(), reply), user, k)
    {
      hide Reachable, RequestKept;
      StepKeepsReachable(Contents(), opening, AskRefund(user, k));
      ReachableSound(Contents(), opening);
      if k < |orders| && k !in readings { RequestAt(Contents(), opening, user, k); }
      if k in readings { return Failed(RowLocked); }
      if k >= |orders| || orders[k].user != user { return Failed(OrderNotFound); }
      var order := orders[k];
      if order.payment == P.Refunded { return Fine; }
      if order.refundState == Requested || order.refundState == Processing { return Fine; }
      if order.payment != P.PaidUp || order.status != P.Paid { return Failed(OrderNotRefundable); }
      orders := orders[k := order.(refundState := Requested)];
      return Fine;
    }

    /** The provider has been asked for a refund under the number: its answer is recorded, and a success settles the refund. */
    method RefundThroughProvider(k: nat, no: string, answer: Answer, number: string) returns (reply: Reply)
      requires k < |orders|
      modifies this
      ensures Settles(old(Contents()), Contents(), reply, ProviderRefund(old(Contents()), k, no, answer, number))
    {
      hide FinalizeRefund;
      if RefundNoTaken(orders, k, no) { return Failed(DuplicateNumber); }
      var saved := orders;
      orders := orders[k := orders[k].(refundNo := Some(no), refundId := answer.id, refundState := answer.state)];
      reply := Fine;
      if answer.state == Succeeded {
        reply := SettleRefund(k, no, answer.id, false, number);
        if reply.Failed? { orders := saved; }
      }
    }

    method RefundCommerceOrder(k: nat, newNo: string, answer: Answer, number: string) returns (reply: Reply)
      requires Valid()
      modifies this
      ensures Valid()
      ensures Settles(old(Contents()), Contents(), reply, Perform(old(Contents()), RefundByAdmin(k, newNo, answer, number)))
    {
      hide Reachable, FinalizeRefund, ProviderRefund;
      StepKeepsReachable(Contents(), opening, RefundByAdmin(k, newNo, answer, number));
      if k in readings { return Failed(RowLocked); }
      if k >= |orders| { return Failed(OrderNotFound); }
      var order := orders[k];
      if order.payment == P.Refunded { return Fine; }
      if order.refundState == Processing && order.channel == Wechat {
        if answer.state == Succeeded {
          reply := SettleRefund(k, Text(order.refundNo), answer.id, false, number);
        } else {
          orders := orders[k := order.(refundState := answer.state, refundId := answer.id)];
          reply := Fine;
        }
        return;
      }
      if order.payment != P.PaidUp || order.status != P.Paid { return Failed(OrderNotRefundable); }
      var no := if Text(order.refundNo) != "" then Text(order.refundNo) else newNo;
      if order.channel == Wechat {
        reply := RefundThroughProvider(k, no, answer, number);
      } else {
        reply := SettleRefund(k, no, "", order.channel == Balance, number);
      }
    }

    method WechatRefundNotification(k: nat, refundNo: string, answer: Answer, number: string) returns (reply: Reply)
      requires Valid()
      modifies this
      ensures Valid()
      ensures Settles(old(Contents()), Contents(), reply, Perform(old(Contents()), RefundNotice(k, refundNo, answer, number)))
      ensures k < |old(orders)| && k !in old(readings) ==>
                NoticeKept(old(Contents()), Seen(Contents(), reply), k, refundNo, answer)
    {
      hide Reachable, FinalizeRefund, NoticeKept;
      StepKeepsReachable(Contents(), opening, RefundNotice(k, refundNo, answer, number));
      ReachableSound(Contents(), opening);
      if k < |orders| && k !in readings { NoticeAt(Contents(), opening, k, refundNo, answer, number); }
      if k in readings { return Failed(RowLocked); }
      if k >= |orders| { return Failed(OrderNotFound); }
      var order := orders[k];
      if Text(order.refundNo) != "" && refundNo != Text(order.refundNo) { return Failed(RefundMismatch); }
      if answer.state == Succeeded {
        reply := SettleRefund(k, refundNo, answer.id, false, number);
      } else {
        orders := orders[k := order.(refundState := answer.state)];
        reply := Fine;
      }
    }

    method AdjustUserWallet(user: nat, income: bool, amount: nat, number: string) returns (reply: Reply)
      requires Valid()
      modifies `balances, `wallet
      ensures Valid()
      ensures Settles(old(Contents()), Contents(), reply, Perform(old(Contents()), Adjust(user, income, amount, number)))
      ensures reply == Fine <==>
                user in old(balances) && !NumberTaken(old(wallet), number) && (income || amount <= old(balances)[user])
      ensures reply == Fine ==> balances == old(balances)[user := if income then old(balances)[user] + amount else old(balances)[user] - amount]
    {
      hide Reachable;
      StepKeepsReachable(Contents(), opening, Adjust(user, income, amount, number));
      SoundWallet(Contents(), opening);
      if user !in balances { return Failed(UserNotFound); }
      var before := balances[user];
      var after := if income then before + amount else before - amount;
      if after < 0 { return Failed(InsufficientBalance); }
      if NumberTaken(wallet, number) { return Failed(DuplicateNumber); }
      PostRow(user, income, amount, Adjustment, None, number);
      return Fine;
    }
  }
}
