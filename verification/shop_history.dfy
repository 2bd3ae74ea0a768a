/** What every sequence of shop transactions keeps, in any order and however often each is replayed. */
module ShopHistory {
  import opened Sums
  import opened Shop
  import P = OrderProtocol

  // ---------------------------------------------------------------- measures

  function Units(p: int): Item -> int { (i: Item) => if i.kind == Study && i.product == p then i.quantity else 0 }

  /** Paid for and never refunded: by its time stamps, whatever its status columns say. */
  predicate Bought(o: Order) { o.paidAt && !o.refundedAt }

  /** Bought, and yet voided. */
  predicate Stranded(o: Order) { Bought(o) && o.payment == P.Voided }

  function BoughtOn(p: int): Order -> int { (o: Order) => if Bought(o) then Sum(o.items, Units(p)) else 0 }

  function ActiveOn(k: nat, p: int): Entitlement -> int {
    (e: Entitlement) => if e.active && e.order == k && e.product == p then 1 else 0
  }

  function SignedOn(u: nat): WalletRow -> int { (r: WalletRow) => if r.user == u then Signed(r) else 0 }

  function CountOf(kind: RowKind, k: nat): WalletRow -> int {
    (r: WalletRow) => if r.kind == kind && r.order == Some(k) then 1 else 0
  }

  function NetOn(k: nat): WalletRow -> int { (r: WalletRow) => if r.order == Some(k) then Signed(r) else 0 }

  function Purchases(b: Books, k: nat): int { Sum(b.wallet, CountOf(Purchase, k)) }

  function Refunds(b: Books, k: nat): int { Sum(b.wallet, CountOf(Refund, k)) }

  // ---------------------------------------------------------------- invariants

  /** The only four combinations of the two status columns, and the time stamps that go with each. */
  predicate Pair(o: Order) {
    || (o.status == P.Pending && o.payment == P.Unpaid && !o.paidAt && !o.refundedAt)
    || (o.status == P.Paid && o.payment == P.PaidUp && Bought(o))
    || (o.status == P.Canceled && o.payment == P.Voided && (o.refundedAt ==> o.paidAt))
    || (o.status == P.Canceled && o.payment == P.Refunded && o.paidAt && o.refundedAt)
  }

  predicate ItemsKnown(items: seq<Item>, products: set<int>) {
    forall i | 0 <= i < |items| :: (items[i].kind == Study <==> items[i].product in products)
  }

  predicate Counted(items: seq<Item>) { forall i | 0 <= i < |items| :: items[i].quantity >= 1 }

  predicate OrderSound(o: Order, users: set<nat>, products: set<int>) {
    Pair(o) && o.user in users && ItemsKnown(o.items, products) && Counted(o.items)
  }

  predicate OrdersSound(b: Books) {
    forall k | 0 <= k < |b.orders| :: OrderSound(b.orders[k], b.balances.Keys, b.products.Keys)
  }

  function Due(b: Books, k: nat, p: int): int {
    if k < |b.orders| && Bought(b.orders[k]) then Sum(b.orders[k].items, Units(p)) else 0
  }

  /** Active entitlements are exactly the units of the orders bought. */
  ghost predicate GrantsSound(b: Books) { forall k: nat, p: int :: Sum(b.grants, ActiveOn(k, p)) == Due(b, k, p) }

  predicate HoldersSound(b: Books) {
    forall i | 0 <= i < |b.grants| :: b.grants[i].order < |b.orders| && b.grants[i].user == b.orders[b.grants[i].order].user
  }

  /** A payment in progress has read the counters of exactly the products its order sells. */
  predicate ReadingSound(b: Books, k: nat)
    requires k in b.readings
  {
    && k < |b.orders| && Payable(b.orders[k])
    && (forall p | p in b.products :: p in b.readings[k] <==> Sells(b.orders[k].items, p))
    && (forall p | p in b.readings[k] :: p in b.products && b.readings[k][p] >= 0)
  }

  predicate ReadingsSound(b: Books) { forall k | k in b.readings :: ReadingSound(b, k) }

  /** Products come and go nowhere, no sales counter is negative, and what payments have read fits their orders. */
  predicate SalesSound(b: Books, products: map<int, Product>) {
    b.products.Keys == products.Keys && (forall p | p in products :: b.products[p].sales >= 0) && ReadingsSound(b)
  }

  function Expected(balances: map<nat, int>, wallet: seq<WalletRow>, u: nat): int
    requires u in balances
  {
    balances[u] + Sum(wallet, SignedOn(u))
  }

  predicate RowChained(balances: map<nat, int>, wallet: seq<WalletRow>, i: nat)
    requires i < |wallet|
  {
    var r := wallet[i];
    r.user in balances && r.before == Expected(balances, wallet[..i], r.user) && r.after == r.before + Signed(r) && r.after >= 0
  }

  /** Every balance is its opening value plus its rows, never negative, and each row starts where the last one ended. */
  ghost predicate WalletSound(b: Books, balances: map<nat, int>) {
    b.balances.Keys == balances.Keys &&
    (forall u | u in balances :: b.balances[u] == Expected(balances, b.wallet, u) && b.balances[u] >= 0) &&
    forall i | 0 <= i < |b.wallet| :: RowChained(balances, b.wallet, i)
  }

  predicate PostingSound(b: Books, k: nat) {
    && 0 <= Refunds(b, k) <= Purchases(b, k) <= 1
    && (k >= |b.orders| ==> Purchases(b, k) == 0)
    && (k < |b.orders| ==>
         var o := b.orders[k];
         && (Purchases(b, k) == 1 ==> o.payable >= 0 && o.channel != Mock && o.paidAt)
         && (Refunds(b, k) == 1 ==> o.refundedAt)
         && (o.channel == Balance && o.paidAt ==> Purchases(b, k) == 1)
         && Sum(b.wallet, NetOn(k)) == (if Refunds(b, k) == 1 then o.payable else 0) - (if Purchases(b, k) == 1 then o.payable else 0))
    && (k >= |b.orders| ==> Sum(b.wallet, NetOn(k)) == 0)
  }

  ghost predicate PostingsSound(b: Books) { forall k: nat :: PostingSound(b, k) }

  ghost predicate Sound(b: Books, start: Books) {
    && OrdersSound(b) && GrantsSound(b) && HoldersSound(b) && SalesSound(b, start.products)
    && WalletSound(b, start.balances) && PostingsSound(b)
  }

  // ---------------------------------------------------------------- the item loops

  /** The counters fit the items: exactly the study products among them have one. */
  predicate Fits(counters: map<int, int>, items: seq<Item>) {
    forall i | 0 <= i < |items| :: (items[i].kind == Study <==> items[i].product in counters)
  }

  /** Each counter read is raised by exactly the units sold. */
  lemma {:induction false} TallyCounts(counters: map<int, int>, items: seq<Item>, p: int)
    requires Fits(counters, items)
    ensures Tally(counters, items).Keys == counters.Keys
    ensures p in counters ==> Tally(counters, items)[p] == counters[p] + Sum(items, Units(p))
  {
    if items != [] {
      TallyCounts(counters, items[..|items| - 1], p);
    }
  }

  lemma UnsoldUnits(items: seq<Item>, p: int)
    requires !Sells(items, p)
    ensures Sum(items, Units(p)) == 0
  {
    SumZero(items, Units(p));
  }

  lemma UnitsNonNegative(items: seq<Item>, p: int)
    ensures Sum(items, Units(p)) >= 0
  {
    SumAtLeast(items, Units(p));
  }

  /** What a payment works from fits its order: read now or read earlier. */
  lemma ReadingFits(b: Books, k: nat)
    requires k < |b.orders| && ItemsKnown(b.orders[k].items, b.products.Keys) && ReadingsSound(b)
    ensures Fits(Reading(b, k), b.orders[k].items)
    ensures forall p | p in b.products :: p in Reading(b, k) <==> Sells(b.orders[k].items, p)
    ensures forall p | p in Reading(b, k) :: p in b.products
  {
    var items := b.orders[k].items;
    if k in b.readings { assert ReadingSound(b, k); }
    forall i | 0 <= i < |items| ensures items[i].kind == Study <==> items[i].product in Reading(b, k) {
      if items[i].kind == Study { assert Sells(items, items[i].product); }
    }
  }

  lemma {:induction false} CopiesCount(e: Entitlement, n: nat, k: nat, p: int)
    ensures Sum(Copies(e, n), ActiveOn(k, p)) == if e.active && e.order == k && e.product == p then n else 0
  {
    if n > 0 {
      CopiesCount(e, n - 1, k, p);
      SumPush(Copies(e, n - 1), e, ActiveOn(k, p));
    }
  }

  lemma {:induction false} CopiesAre(e: Entitlement, n: nat)
    ensures forall i | 0 <= i < |Copies(e, n)| :: Copies(e, n)[i] == e
  {
    if n > 0 {
      CopiesAre(e, n - 1);
    }
  }

  lemma {:induction false} GrantedCount(k: nat, user: nat, items: seq<Item>, m: map<int, int>, j: nat, p: int)
    requires Fits(m, items)
    ensures Sum(Granted(k, user, items, m), ActiveOn(j, p)) == if j == k then Sum(items, Units(p)) else 0
  {
    if items != [] {
      var it := items[|items| - 1];
      var front := Granted(k, user, items[..|items| - 1], m);
      GrantedCount(k, user, items[..|items| - 1], m, j, p);
      if Sellable(m, it) {
        var e := Entitlement(user, it.product, k, true);
        CopiesCount(e, it.quantity, j, p);
        SumAppend(front, Copies(e, it.quantity), ActiveOn(j, p));
      } else {
        assert front + [] == front;
      }
    }
  }

  lemma {:induction false} GrantedHolders(k: nat, user: nat, items: seq<Item>, m: map<int, int>)
    ensures forall i | 0 <= i < |Granted(k, user, items, m)| ::
              Granted(k, user, items, m)[i].order == k && Granted(k, user, items, m)[i].user == user
  {
    if items != [] {
      var it := items[|items| - 1];
      GrantedHolders(k, user, items[..|items| - 1], m);
      CopiesAre(Entitlement(user, it.product, k, true), it.quantity);
    }
  }

  /** Giving items back lowers each sales counter by its units, but not below zero. */
  lemma {:induction false} GiveBackCounts(m: map<int, Product>, items: seq<Item>, unsell: bool, p: int)
    requires ItemsKnown(items, m.Keys) && (p in m ==> m[p].sales >= 0)
    ensures GiveBackAll(m, items, unsell).Keys == m.Keys
    ensures p in m ==> GiveBackAll(m, items, unsell)[p].sales == if unsell then Max0(m[p].sales - Sum(items, Units(p))) else m[p].sales
  {
    if items != [] {
      GiveBackCounts(m, items[..|items| - 1], unsell, p);
      UnitsNonNegative(items[..|items| - 1], p);
    }
  }

  /** What the items took of a product. */
  function TakenOn(p: int): Item -> int { (i: Item) => if i.product == p && i.stockDeducted then i.quantity else 0 }

  predicate Takes(items: seq<Item>, p: int) { exists i | 0 <= i < |items| :: items[i].product == p && items[i].stockDeducted }

  predicate Finite(m: map<int, Product>, p: int) { p in m && m[p].stock >= 0 }

  function KeyValue(keys: map<int, int>, p: int): int { if p in keys then keys[p] else 0 }

  /** Finite stock rises by what the items took, unlimited stock stays. */
  predicate StockReturned(m: map<int, Product>, n: map<int, Product>, items: seq<Item>) {
    n.Keys == m.Keys &&
    forall p | p in m :: n[p].stock == m[p].stock + if Finite(m, p) then Sum(items, TakenOn(p)) else 0
  }

  /** A Redis key rises by as much as the stock, and is there if it was or if something was added. */
  predicate KeyReturned(keys: map<int, int>, after: map<int, int>, m: map<int, Product>, items: seq<Item>, p: int) {
    && KeyValue(after, p) == KeyValue(keys, p) + (if Finite(m, p) then Sum(items, TakenOn(p)) else 0)
    && (p in after <==> p in keys || (Finite(m, p) && Takes(items, p)))
  }

  ghost predicate KeysReturned(keys: map<int, int>, after: map<int, int>, m: map<int, Product>, items: seq<Item>) {
    forall p: int :: KeyReturned(keys, after, m, items, p)
  }

  lemma TakenNonNegative(items: seq<Item>, p: int)
    ensures Sum(items, TakenOn(p)) >= 0
  {
    SumAtLeast(items, TakenOn(p));
  }

  /** Giving items back returns to the shelf, and to the Redis keys, exactly what they took. */
  lemma {:induction false} GiveBackStock(m: map<int, Product>, items: seq<Item>, unsell: bool)
    ensures StockReturned(m, GiveBackAll(m, items, unsell), items)
  {
    if items != [] {
      var front := items[..|items| - 1];
      GiveBackStock(m, front, unsell);
      forall p | p in m ensures Finite(m, p) ==> Finite(GiveBackAll(m, front, unsell), p) { TakenNonNegative(front, p); }
    }
  }

  lemma {:induction false} KeysBackStock(keys: map<int, int>, m: map<int, Product>, items: seq<Item>, unsell: bool, p: int)
    ensures KeyReturned(keys, KeysBackAll(keys, m, items, unsell), m, items, p)
  {
    if items != [] {
      hide GiveBackAll, Takes;
      var front := items[..|items| - 1];
      KeysBackStock(keys, m, front, unsell, p);
      GiveBackStock(m, front, unsell);
      TakenNonNegative(front, p);
      TakesLast(items, p);
    }
  }

  lemma TakesLast(items: seq<Item>, p: int)
    requires items != []
    ensures var n := |items| - 1; Takes(items, p) <==> Takes(items[..n], p) || (items[n].product == p && items[n].stockDeducted)
  {
    var front := items[..|items| - 1];
    assert forall i | 0 <= i < |front| :: front[i] == items[i];
  }

  lemma UnitsSame(items: seq<Item>, other: seq<Item>, p: int)
    requires |items| == |other|
    requires forall i | 0 <= i < |items| ::
               other[i].kind == items[i].kind && other[i].product == items[i].product && other[i].quantity == items[i].quantity
    ensures Sum(items, Units(p)) == Sum(other, Units(p))
  {
    SumSame(items, other, Units(p), Units(p));
  }

  lemma {:induction false} LapsedCount(grants: seq<Entitlement>, k: nat, j: nat, p: int)
    ensures Sum(LapseAll(grants, k), ActiveOn(j, p)) == if j == k then 0 else Sum(grants, ActiveOn(j, p))
  {
    if j == k {
      SumZero(LapseAll(grants, k), ActiveOn(j, p));
    } else {
      SumSame(LapseAll(grants, k), grants, ActiveOn(j, p), ActiveOn(j, p));
    }
  }

  // ---------------------------------------------------------------- changing one order

  lemma PayKeepsGrants(b: Books, k: nat, channel: Channel, transaction: string, plans: set<int>)
    requires OrdersSound(b) && GrantsSound(b) && HoldersSound(b) && ReadingsSound(b)
    requires k < |b.orders| && b.orders[k].payment == P.Unpaid
    ensures OrdersSound(Paying(b, k, channel, transaction, plans))
    ensures GrantsSound(Paying(b, k, channel, transaction, plans)) && HoldersSound(Paying(b, k, channel, transaction, plans))
  {
    hide Tally, Granted, Counters;
    var o := b.orders[k];
    var a := Paying(b, k, channel, transaction, plans);
    var read := Reading(b, k);
    assert OrderSound(o, b.balances.Keys, b.products.Keys);
    ReadingFits(b, k);
    GrantedHolders(k, o.user, o.items, read);
    assert a.products.Keys == b.products.Keys;
    forall j: nat, p: int ensures Sum(a.grants, ActiveOn(j, p)) == Due(a, j, p) {
      GrantedCount(k, o.user, o.items, read, j, p);
      SumAppend(b.grants, Granted(k, o.user, o.items, read), ActiveOn(j, p));
      assert Sum(b.grants, ActiveOn(j, p)) == Due(b, j, p);
      UnitsSame(o.items, a.orders[k].items, p);
    }
  }

  lemma PayKeepsSales(b: Books, k: nat, channel: Channel, transaction: string, plans: set<int>, products: map<int, Product>)
    requires OrdersSound(b) && SalesSound(b, products) && k < |b.orders|
    ensures SalesSound(Paying(b, k, channel, transaction, plans), products)
  {
    hide Tally, Granted;
    var o := b.orders[k];
    var a := Paying(b, k, channel, transaction, plans);
    assert OrderSound(o, b.balances.Keys, b.products.Keys);
    ReadingFits(b, k);
    forall p | p in products ensures a.products[p].sales >= 0 {
      TallyCounts(Reading(b, k), o.items, p);
      UnitsNonNegative(o.items, p);
      if k in b.readings { assert ReadingSound(b, k); }
    }
    forall j | j in a.readings ensures ReadingSound(a, j) { assert ReadingSound(b, j); }
  }

  lemma RefundKeepsGrants(b: Books, k: nat, no: string, id: string)
    requires OrdersSound(b) && GrantsSound(b) && HoldersSound(b)
    requires k < |b.orders| && b.orders[k].payment == P.PaidUp
    ensures OrdersSound(Refunding(b, k, no, id)) && GrantsSound(Refunding(b, k, no, id)) && HoldersSound(Refunding(b, k, no, id))
  {
    hide KeysBackAll;
    var o := b.orders[k];
    var a := Refunding(b, k, no, id);
    assert OrderSound(o, b.balances.Keys, b.products.Keys);
    KeysKept(b.products, o.items, true);
    forall j: nat, p: int ensures Sum(a.grants, ActiveOn(j, p)) == Due(a, j, p) {
      LapsedCount(b.grants, k, j, p);
      assert Sum(b.grants, ActiveOn(j, p)) == Due(b, j, p);
    }
  }

  lemma {:induction false} KeysKept(m: map<int, Product>, items: seq<Item>, unsell: bool)
    ensures GiveBackAll(m, items, unsell).Keys == m.Keys
  {
    if items != [] {
      KeysKept(m, items[..|items| - 1], unsell);
    }
  }

  lemma RefundKeepsSales(b: Books, k: nat, no: string, id: string, products: map<int, Product>)
    requires OrdersSound(b) && SalesSound(b, products) && k < |b.orders| && b.orders[k].payment == P.PaidUp
    ensures SalesSound(Refunding(b, k, no, id), products)
  {
    hide KeysBackAll;
    var o := b.orders[k];
    var a := Refunding(b, k, no, id);
    assert OrderSound(o, b.balances.Keys, b.products.Keys);
    KeysKept(b.products, o.items, true);
    forall p | p in products ensures a.products[p].sales >= 0 { GiveBackCounts(b.products, o.items, true, p); }
    forall j | j in a.readings ensures ReadingSound(a, j) { assert ReadingSound(b, j); }
  }

  lemma SameSells(items: seq<Item>, other: seq<Item>)
    requires |items| == |other|
    requires forall i | 0 <= i < |items| :: other[i].kind == items[i].kind && other[i].product == items[i].product
    ensures forall p :: Sells(items, p) <==> Sells(other, p)
  {
    forall p ensures Sells(items, p) <==> Sells(other, p) {
      if Sells(items, p) {
        var i :| 0 <= i < |items| && items[i].kind == Study && items[i].product == p;
        assert other[i].kind == Study && other[i].product == p;
      }
      if Sells(other, p) {
        var i :| 0 <= i < |other| && other[i].kind == Study && other[i].product == p;
        assert items[i].kind == Study && items[i].product == p;
      }
    }
  }

  // ---------------------------------------------------------------- changes that settle nothing

  predicate SameGoods(items: seq<Item>, other: seq<Item>) {
    |items| == |other| &&
    forall i | 0 <= i < |items| ::
      other[i].kind == items[i].kind && other[i].product == items[i].product && other[i].quantity == items[i].quantity
  }

  /** The order is neither paid nor refunded by the change, and keeps its owner, price and goods. */
  predicate QuietOrder(o: Order, n: Order) {
    && n.user == o.user && n.payable == o.payable && SameGoods(o.items, n.items) && Pair(n)
    && n.paidAt == o.paidAt && n.refundedAt == o.refundedAt
    && (n.channel == o.channel || n.channel == Wechat)
  }

  predicate QuietOrders(os: seq<Order>, ns: seq<Order>) {
    |ns| == |os| && forall k | 0 <= k < |os| :: QuietOrder(os[k], ns[k])
  }

  predicate QuietProducts(m: map<int, Product>, n: map<int, Product>) {
    n.Keys == m.Keys && forall p | p in m :: n[p].sales == m[p].sales
  }

  predicate StillPayable(b: Books, a: Books, k: nat) {
    k < |b.orders| && k < |a.orders| && Payable(b.orders[k]) ==> Payable(a.orders[k])
  }

  predicate Quiet(b: Books, a: Books) {
    && a.balances == b.balances && a.wallet == b.wallet && a.grants == b.grants
    && QuietOrders(b.orders, a.orders) && QuietProducts(b.products, a.products)
    && a.readings.Keys <= b.readings.Keys && forall k | k in a.readings :: a.readings[k] == b.readings[k] && StillPayable(b, a, k)
  }

  lemma QuietKeepsGoods(b: Books, a: Books, products: map<int, Product>)
    requires Quiet(b, a)
    requires OrdersSound(b) && GrantsSound(b) && HoldersSound(b) && SalesSound(b, products)
    ensures OrdersSound(a) && GrantsSound(a) && HoldersSound(a) && SalesSound(a, products)
  {
    forall k | 0 <= k < |a.orders| ensures OrderSound(a.orders[k], a.balances.Keys, a.products.Keys) {
      assert OrderSound(b.orders[k], b.balances.Keys, b.products.Keys) && QuietOrder(b.orders[k], a.orders[k]);
    }
    forall k: nat, p: int ensures Sum(a.grants, ActiveOn(k, p)) == Due(a, k, p) {
      assert Sum(b.grants, ActiveOn(k, p)) == Due(b, k, p);
      if k < |b.orders| {
        assert QuietOrder(b.orders[k], a.orders[k]);
        UnitsSame(b.orders[k].items, a.orders[k].items, p);
      }
    }
    forall i | 0 <= i < |a.grants| ensures a.grants[i].order < |a.orders| && a.grants[i].user == a.orders[a.grants[i].order].user {
      assert QuietOrder(b.orders[b.grants[i].order], a.orders[b.grants[i].order]);
    }
    forall k | k in a.readings ensures ReadingSound(a, k) {
      assert ReadingSound(b, k) && QuietOrder(b.orders[k], a.orders[k]);
      SameSells(b.orders[k].items, a.orders[k].items);
    }
  }

  lemma QuietKeepsPostings(b: Books, a: Books)
    requires Quiet(b, a) && PostingsSound(b)
    ensures PostingsSound(a)
  {
    forall k: nat ensures PostingSound(a, k) {
      assert PostingSound(b, k);
      if k < |b.orders| {
        assert QuietOrder(b.orders[k], a.orders[k]);
      }
    }
  }

  lemma QuietKeepsSound(b: Books, a: Books, start: Books)
    requires Quiet(b, a) && Sound(b, start)
    ensures Sound(a, start)
  {
    hide GrantsSound, SalesSound, PostingsSound, OrdersSound, HoldersSound, Quiet;
    QuietKeepsGoods(b, a, start.products);
    QuietKeepsPostings(b, a);
    QuietKeepsWallet(b, a, start.balances);
  }

  lemma QuietKeepsWallet(b: Books, a: Books, balances: map<nat, int>)
    requires Quiet(b, a) && WalletSound(b, balances)
    ensures WalletSound(a, balances)
  {
  }

  /** Rewriting one order quietly is a quiet step. */
  lemma QuietUpdate(b: Books, k: nat, o: Order, products: map<int, Product>, stamps: multiset<nat>)
    requires OrdersSound(b)
    requires k < |b.orders| && QuietOrder(b.orders[k], o) && QuietProducts(b.products, products)
    requires k in b.readings && Payable(b.orders[k]) ==> Payable(o)
    ensures Quiet(b, b.(orders := b.orders[k := o], products := products, stamps := stamps))
  {
    forall j | 0 <= j < |b.orders| ensures QuietOrder(b.orders[j], b.orders[k := o][j]) {
      assert OrderSound(b.orders[j], b.balances.Keys, b.products.Keys);
    }
  }

  lemma QuietSelf(b: Books)
    requires OrdersSound(b)
    ensures Quiet(b, b)
  {
    forall j | 0 <= j < |b.orders| ensures QuietOrder(b.orders[j], b.orders[j]) {
      assert OrderSound(b.orders[j], b.balances.Keys, b.products.Keys);
    }
  }

  lemma {:induction false} RestockQuiet(m: map<int, Product>, items: seq<Item>)
    ensures QuietProducts(m, GiveBackAll(m, items, false))
  {
    if items != [] {
      RestockQuiet(m, items[..|items| - 1]);
    }
  }

  // ---------------------------------------------------------------- wallet postings

  lemma PostKeepsGoods(b: Books, products: map<int, Product>, user: nat, income: bool, amount: int, kind: RowKind, order: Option<nat>, number: string)
    requires user in b.balances
    requires OrdersSound(b) && GrantsSound(b) && HoldersSound(b) && SalesSound(b, products)
    ensures var a := Post(b, user, income, amount, kind, order, number);
            OrdersSound(a) && GrantsSound(a) && HoldersSound(a) && SalesSound(a, products)
  {
    var a := Post(b, user, income, amount, kind, order, number);
    assert a.balances.Keys == b.balances.Keys;
    forall k: nat, p: int ensures Sum(a.grants, ActiveOn(k, p)) == Due(a, k, p) {
      assert Sum(b.grants, ActiveOn(k, p)) == Due(b, k, p);
    }
    forall k | k in a.readings ensures ReadingSound(a, k) { assert ReadingSound(b, k); }
  }

  lemma PostKeepsWallet(b: Books, balances: map<nat, int>, user: nat, income: bool, amount: int, kind: RowKind, order: Option<nat>, number: string)
    requires user in b.balances && WalletSound(b, balances)
    requires b.balances[user] + (if income then amount else -amount) >= 0
    ensures WalletSound(Post(b, user, income, amount, kind, order, number), balances)
  {
    var a := Post(b, user, income, amount, kind, order, number);
    var n := |b.wallet|;
    assert a.wallet[..n] == b.wallet;
    forall u | u in balances ensures a.balances[u] == Expected(balances, a.wallet, u) && a.balances[u] >= 0 {
      SumPush(b.wallet, a.wallet[n], SignedOn(u));
      assert b.balances[u] == Expected(balances, b.wallet, u);
    }
    forall i | 0 <= i < |a.wallet| ensures RowChained(balances, a.wallet, i) {
      if i < n {
        assert RowChained(balances, b.wallet, i);
        assert a.wallet[..i] == b.wallet[..i];
      }
    }
  }

  lemma PostCounts(b: Books, user: nat, income: bool, amount: int, kind: RowKind, order: Option<nat>, number: string, k: nat)
    requires user in b.balances
    ensures var a := Post(b, user, income, amount, kind, order, number);
            && Purchases(a, k) == Purchases(b, k) + (if kind == Purchase && order == Some(k) then 1 else 0)
            && Refunds(a, k) == Refunds(b, k) + (if kind == Refund && order == Some(k) then 1 else 0)
            && Sum(a.wallet, NetOn(k)) == Sum(b.wallet, NetOn(k)) + (if order != Some(k) then 0 else if income then amount else -amount)
  {
    var r := Post(b, user, income, amount, kind, order, number).wallet[|b.wallet|];
    SumPush(b.wallet, r, CountOf(Purchase, k));
    SumPush(b.wallet, r, CountOf(Refund, k));
    SumPush(b.wallet, r, NetOn(k));
  }

  lemma RefundRowCounted(b: Books, k: nat)
    ensures RefundRowExists(b.wallet, k) <==> Refunds(b, k) >= 1
  {
    if RefundRowExists(b.wallet, k) {
      var i :| 0 <= i < |b.wallet| && b.wallet[i].kind == Refund && b.wallet[i].order == Some(k);
      SumAtLeast(b.wallet, CountOf(Refund, k));
      assert CountOf(Refund, k)(b.wallet[i]) == 1;
    } else {
      SumZero(b.wallet, CountOf(Refund, k));
    }
  }

  // ---------------------------------------------------------------- each transaction

  lemma PlaceKeepsSound(b: Books, start: Books, o: Order)
    requires Sound(b, start) && o.payment == P.Unpaid && !o.paidAt && OrderSound(o, b.balances.Keys, b.products.Keys)
    ensures Sound(b.(orders := b.orders + [o]), start)
  {
    var a := b.(orders := b.orders + [o]);
    forall k: nat, p: int ensures Sum(a.grants, ActiveOn(k, p)) == Due(a, k, p) {
      assert Sum(b.grants, ActiveOn(k, p)) == Due(b, k, p);
    }
    forall k | k in a.readings ensures ReadingSound(a, k) { assert ReadingSound(b, k); }
    forall k: nat ensures PostingSound(a, k) {
      assert PostingSound(b, k);
    }
    assert WalletSound(a, start.balances);
  }

  /** Payment through any channel but the wallet. */
  lemma MarkKeepsPostings(b: Books, k: nat, channel: Channel, transaction: string, plans: set<int>)
    requires PostingsSound(b) && k < |b.orders| && Pair(b.orders[k]) && b.orders[k].payment == P.Unpaid && channel != Balance
    ensures PostingsSound(Paying(b, k, channel, transaction, plans))
  {
    var a := Paying(b, k, channel, transaction, plans);
    forall j: nat ensures PostingSound(a, j) {
      assert PostingSound(b, j);
    }
  }

  lemma PayKeepsWallet(b: Books, balances: map<nat, int>, k: nat, channel: Channel, transaction: string, plans: set<int>)
    requires WalletSound(b, balances) && k < |b.orders|
    ensures WalletSound(Paying(b, k, channel, transaction, plans), balances)
  {
  }

  lemma SalesReadings(b: Books, products: map<int, Product>)
    requires SalesSound(b, products)
    ensures ReadingsSound(b)
  {
  }

  lemma MarkKeepsSound(b: Books, start: Books, k: nat, channel: Channel, transaction: string, plans: set<int>)
    requires Sound(b, start) && channel != Balance
    ensures Sound(After(b, MarkPaid(b, k, channel, transaction, plans)), start)
  {
    hide GrantsSound, SalesSound, PostingsSound, HoldersSound, WalletSound, Paying;
    if k < |b.orders| && b.orders[k].status == P.Pending && b.orders[k].payment != P.PaidUp {
      assert OrderSound(b.orders[k], b.balances.Keys, b.products.Keys);
      SalesReadings(b, start.products);
      PayKeepsGrants(b, k, channel, transaction, plans);
      PayKeepsSales(b, k, channel, transaction, plans, start.products);
      PayKeepsWallet(b, start.balances, k, channel, transaction, plans);
      MarkKeepsPostings(b, k, channel, transaction, plans);
    }
  }

  lemma BuyKeepsPostings(b: Books, k: nat, number: string, plans: set<int>)
    requires PostingsSound(b) && k < |b.orders| && Pair(b.orders[k]) && b.orders[k].payment == P.Unpaid && b.orders[k].user in b.balances
    requires b.orders[k].payable >= 0
    ensures var o := b.orders[k];
            PostingsSound(Paying(Post(b, o.user, false, o.payable, Purchase, Some(k), number), k, Balance, number, plans))
  {
    var o := b.orders[k];
    var c := Post(b, o.user, false, o.payable, Purchase, Some(k), number);
    var a := Paying(c, k, Balance, number, plans);
    forall j: nat ensures PostingSound(a, j) {
      assert PostingSound(b, j);
      PostCounts(b, o.user, false, o.payable, Purchase, Some(k), number, j);
    }
  }

  lemma BuyKeepsSound(b: Books, start: Books, user: nat, k: nat, number: string, plans: set<int>)
    requires Sound(b, start)
    ensures Sound(After(b, PayWithBalance(b, user, k, number, plans)), start)
  {
    hide GrantsSound, SalesSound, PostingsSound, HoldersSound, WalletSound, Paying, Post, OrdersSound;
    var result := PayWithBalance(b, user, k, number, plans);
    if result.Done? && result.books != b {
      OrderFacts(b, k);
      PostFrame(b, user, false, b.orders[k].payable, Purchase, Some(k), number);
      var c := Post(b, user, false, b.orders[k].payable, Purchase, Some(k), number);
      WalletFacts(b, start.balances, user);
      PostKeepsGoods(b, start.products, user, false, b.orders[k].payable, Purchase, Some(k), number);
      PostKeepsWallet(b, start.balances, user, false, b.orders[k].payable, Purchase, Some(k), number);
      SalesReadings(c, start.products);
      PayKeepsGrants(c, k, Balance, number, plans);
      PayKeepsSales(c, k, Balance, number, plans, start.products);
      PayKeepsWallet(c, start.balances, k, Balance, number, plans);
      BuyKeepsPostings(b, k, number, plans);
    }
  }

  lemma OrderFacts(b: Books, k: nat)
    requires OrdersSound(b) && k < |b.orders|
    ensures OrderSound(b.orders[k], b.balances.Keys, b.products.Keys)
  {
  }

  lemma WalletFacts(b: Books, balances: map<nat, int>, user: nat)
    requires WalletSound(b, balances) && user in b.balances
    ensures b.balances[user] >= 0
  {
  }

  lemma PostFrame(b: Books, user: nat, income: bool, amount: int, kind: RowKind, order: Option<nat>, number: string)
    requires user in b.balances
    ensures var a := Post(b, user, income, amount, kind, order, number);
            a.orders == b.orders && a.products == b.products && a.grants == b.grants && a.stamps == b.stamps && a.balances.Keys == b.balances.Keys
  {
  }

  lemma AdjustKeepsSound(b: Books, start: Books, user: nat, income: bool, amount: nat, number: string)
    requires Sound(b, start)
    ensures Sound(After(b, AdjustWallet(b, user, income, amount, number)), start)
  {
    hide GrantsSound, SalesSound, HoldersSound, WalletSound, Post, OrdersSound;
    var result := AdjustWallet(b, user, income, amount, number);
    if result.Done? {
      WalletFacts(b, start.balances, user);
      PostFrame(b, user, income, amount, Adjustment, None, number);
      PostKeepsGoods(b, start.products, user, income, amount, Adjustment, None, number);
      PostKeepsWallet(b, start.balances, user, income, amount, Adjustment, None, number);
      forall j: nat ensures PostingSound(result.books, j) {
        assert PostingSound(b, j);
        PostCounts(b, user, income, amount, Adjustment, None, number, j);
      }
    }
  }

  lemma SyncsQuiet(b: Books, syncs: seq<Sync>)
    requires OrdersSound(b)
    ensures Quiet(b, b.(syncs := syncs))
  {
    QuietSelf(b);
  }

  /** A cancellation by whatever row it was handed, also one that is out of date. */
  lemma CancelAsKeepsSound(b: Books, start: Books, k: nat, row: Order)
    requires Sound(b, start) && k < |b.orders|
    ensures Sound(After(b, CancelAs(b, k, row)), start)
  {
    hide GrantsSound, SalesSound, HoldersSound, WalletSound, PostingsSound, GiveBackAll, KeysBackAll;
    if k !in b.readings {
      var o := b.orders[k];
      OrderFacts(b, k);
      SalesReadings(b, start.products);
      RestockQuiet(b.products, row.items);
      QuietUpdate(b, k, o.(status := P.Canceled, payment := P.Voided, items := CloseItems(o.items)), GiveBackAll(b.products, row.items, false), b.stamps);
      QuietKeepsSound(b, Closing(b, k, row.items), start);
    }
  }

  lemma CancelKeepsSound(b: Books, start: Books, k: nat)
    requires Sound(b, start)
    ensures Sound(After(b, CancelUnpaid(b, k)), start)
  {
    hide Sound, CancelAs;
    if k < |b.orders| { CancelAsKeepsSound(b, start, k, b.orders[k]); }
  }

  /** The three steps of a payment sync. */
  lemma SyncKeepsSound(b: Books, start: Books, e: Event)
    requires Sound(b, start) && (e.SyncRead? || e.SyncItems? || e.SyncCancel?)
    ensures Sound(After(b, Execute(b, e)), start)
  {
    hide GrantsSound, SalesSound, HoldersSound, WalletSound, PostingsSound, OrdersSound, CancelAs, Quiet;
    match e
    case SyncRead(user, k) =>
      SyncsQuiet(b, After(b, ReadUnlocked(b, user, k)).syncs);
      QuietKeepsSound(b, After(b, ReadUnlocked(b, user, k)), start);
    case SyncItems(i) =>
      SyncsQuiet(b, After(b, ReadItems(b, i)).syncs);
      QuietKeepsSound(b, After(b, ReadItems(b, i)), start);
    case SyncCancel(i) =>
      if Syncing(b, i) {
        var y := b.syncs[i];
        var c := b.(syncs := b.syncs[i := y.(live := false)]);
        SyncsQuiet(b, c.syncs);
        QuietKeepsSound(b, c, start);
        CancelAsKeepsSound(c, start, y.order, y.row);
      }
  }

  /** A quiet rewrite of one order's refund columns. */
  lemma NoteKeepsSound(b: Books, start: Books, k: nat, o: Order)
    requires Sound(b, start) && k < |b.orders|
    requires o == b.orders[k].(refundNo := o.refundNo, refundState := o.refundState, refundId := o.refundId)
    ensures Sound(b.(orders := b.orders[k := o]), start)
  {
    hide GrantsSound, SalesSound, HoldersSound, WalletSound, PostingsSound;
    OrderFacts(b, k);
    QuietUpdate(b, k, o, b.products, b.stamps);
    QuietKeepsSound(b, b.(orders := b.orders[k := o]), start);
  }

  // ---------------------------------------------------------------- refunds

  lemma RefundKeepsWallet(b: Books, balances: map<nat, int>, k: nat, no: string, id: string)
    requires WalletSound(b, balances) && k < |b.orders|
    ensures WalletSound(Refunding(b, k, no, id), balances)
  {
  }

  /** A refund that writes no wallet row. */
  lemma RefundKeepsPostings(b: Books, k: nat, no: string, id: string)
    requires PostingsSound(b) && k < |b.orders| && Pair(b.orders[k]) && b.orders[k].payment == P.PaidUp
    ensures PostingsSound(Refunding(b, k, no, id))
  {
    var a := Refunding(b, k, no, id);
    forall j: nat ensures PostingSound(a, j) {
      assert PostingSound(b, j);
    }
  }

  /** A refund into the wallet that paid. */
  lemma ReturnKeepsPostings(b: Books, k: nat, no: string, id: string, number: string)
    requires PostingsSound(b) && k < |b.orders| && b.orders[k].user in b.balances
    requires Pair(b.orders[k]) && b.orders[k].payment == P.PaidUp && b.orders[k].channel == Balance
    ensures var o := b.orders[k];
            PostingsSound(Refunding(Post(b, o.user, true, o.payable, Refund, Some(k), number), k, no, id))
  {
    var o := b.orders[k];
    var c := Post(b, o.user, true, o.payable, Refund, Some(k), number);
    var a := Refunding(c, k, no, id);
    assert PostingSound(b, k);
    forall j: nat ensures PostingSound(a, j) {
      assert PostingSound(b, j);
      PostCounts(b, o.user, true, o.payable, Refund, Some(k), number, j);
    }
  }

  lemma RefundingKeepsSound(c: Books, start: Books, k: nat, no: string, id: string)
    requires OrdersSound(c) && GrantsSound(c) && HoldersSound(c) && SalesSound(c, start.products) && WalletSound(c, start.balances)
    requires k < |c.orders| && c.orders[k].payment == P.PaidUp
    requires PostingsSound(Refunding(c, k, no, id))
    ensures Sound(Refunding(c, k, no, id), start)
  {
    hide GrantsSound, SalesSound, HoldersSound, WalletSound, PostingsSound, Refunding, OrdersSound;
    RefundKeepsSales(c, k, no, id, start.products);
    RefundKeepsGrants(c, k, no, id);
    RefundKeepsWallet(c, start.balances, k, no, id);
  }

  lemma FinalizeKeepsSound(b: Books, start: Books, k: nat, no: string, id: string, toWallet: bool, number: string)
    requires Sound(b, start)
    requires toWallet && k < |b.orders| ==> b.orders[k].channel == Balance
    ensures Sound(After(b, FinalizeRefund(b, k, no, id, toWallet, number)), start)
  {
    hide GrantsSound, SalesSound, HoldersSound, WalletSound, Refunding, OrdersSound, Post, RefundRowExists;
    var result := FinalizeRefund(b, k, no, id, toWallet, number);
    if result.Done? && result.books != b {
      var o := b.orders[k];
      OrderFacts(b, k);
      assert PostingSound(b, k);
      RefundRowCounted(b, k);
      if toWallet {
        WalletFacts(b, start.balances, o.user);
        PostFrame(b, o.user, true, o.payable, Refund, Some(k), number);
        PostKeepsGoods(b, start.products, o.user, true, o.payable, Refund, Some(k), number);
        PostKeepsWallet(b, start.balances, o.user, true, o.payable, Refund, Some(k), number);
        ReturnKeepsPostings(b, k, no, id, number);
        RefundingKeepsSound(Post(b, o.user, true, o.payable, Refund, Some(k), number), start, k, no, id);
      } else {
        RefundKeepsPostings(b, k, no, id);
        RefundingKeepsSound(b, start, k, no, id);
      }
    }
  }

  lemma AdminRefundKeepsSound(b: Books, start: Books, k: nat, newNo: string, answer: Answer, number: string)
    requires Sound(b, start)
    ensures Sound(After(b, AdminRefund(b, k, newNo, answer, number)), start)
  {
    hide Sound, FinalizeRefund;
    if k < |b.orders| {
      var o := b.orders[k];
      var no := if Text(o.refundNo) != "" then Text(o.refundNo) else newNo;
      FinalizeKeepsSound(b, start, k, Text(o.refundNo), answer.id, false, number);
      FinalizeKeepsSound(b, start, k, no, "", o.channel == Balance, number);
      NoteKeepsSound(b, start, k, o.(refundNo := o.refundNo, refundState := answer.state, refundId := answer.id));
      NoteKeepsSound(b, start, k, o.(refundNo := Some(no), refundState := answer.state, refundId := answer.id));
      FinalizeKeepsSound(Noted(b, k, Some(no), answer.state, answer.id), start, k, no, answer.id, false, number);
    }
  }

  lemma NoticeKeepsSound(b: Books, start: Books, k: nat, no: string, answer: Answer, number: string)
    requires Sound(b, start)
    ensures Sound(After(b, RefundNotified(b, k, no, answer, number)), start)
  {
    hide Sound, FinalizeRefund;
    if k < |b.orders| {
      FinalizeKeepsSound(b, start, k, no, answer.id, false, number);
      NoteKeepsSound(b, start, k, b.orders[k].(refundState := answer.state));
    }
  }

  lemma StampKeepsSound(b: Books, start: Books, k: nat)
    requires Sound(b, start)
    ensures Sound(After(b, StampWechat(b, k)), start)
  {
    hide GrantsSound, SalesSound, HoldersSound, WalletSound, PostingsSound;
    if k in b.stamps && k < |b.orders| {
      OrderFacts(b, k);
      QuietUpdate(b, k, b.orders[k].(channel := Wechat), b.products, b.stamps - multiset{k});
      QuietKeepsSound(b, StampWechat(b, k).books, start);
    }
  }

  lemma OpenKeepsSound(b: Books, start: Books, user: nat, k: nat)
    requires Sound(b, start)
    ensures Sound(After(b, OpenWechat(b, user, k)), start)
  {
    hide GrantsSound, SalesSound, HoldersSound, WalletSound, PostingsSound;
    QuietSelf(b);
    QuietKeepsSound(b, After(b, OpenWechat(b, user, k)), start);
  }

  lemma StockKeepsSound(b: Books, start: Books, p: int, stock: int)
    requires Sound(b, start)
    ensures Sound(Step(b, SetStock(p, stock)), start)
  {
    hide GrantsSound, SalesSound, HoldersSound, WalletSound, PostingsSound;
    QuietSelf(b);
    QuietKeepsSound(b, Step(b, SetStock(p, stock)), start);
  }

  lemma TimeOutKeepsSound(b: Books, start: Books, k: nat, configured: bool, gateway: Gateway, plans: set<int>)
    requires Sound(b, start)
    ensures Sound(After(b, TimeOut(b, k, configured, gateway, plans)), start)
  {
    hide Sound, CancelUnpaid, MarkPaid;
    CancelKeepsSound(b, start, k);
    if gateway.Success? {
      MarkKeepsSound(b, start, k, Wechat, gateway.transaction, plans);
    }
  }

  lemma NotifyKeepsSound(b: Books, start: Books, k: nat, transaction: string, plans: set<int>)
    requires Sound(b, start)
    ensures Sound(After(b, WechatPaid(b, k, transaction, plans)), start)
  {
    hide Sound, MarkPaid;
    MarkKeepsSound(b, start, k, Wechat, transaction, plans);
  }

  lemma RequestKeepsSound(b: Books, start: Books, user: nat, k: nat)
    requires Sound(b, start)
    ensures Sound(After(b, RequestRefund(b, user, k)), start)
  {
    hide Sound;
    if k < |b.orders| {
      NoteKeepsSound(b, start, k, b.orders[k].(refundState := Requested));
    }
  }

  lemma PlaceStepKeepsSound(b: Books, start: Books, user: nat, payable: int, items: seq<Item>, channel: Channel)
    requires Sound(b, start)
    ensures Sound(Step(b, Place(user, payable, items, channel)), start)
  {
    hide GrantsSound, SalesSound, HoldersSound, WalletSound, PostingsSound;
    if Orderable(b, user, items) {
      PlaceKeepsSound(b, start, Fresh(user, payable, items, channel));
    }
  }

  lemma BeginKeepsSound(b: Books, start: Books, k: nat)
    requires Sound(b, start)
    ensures Sound(After(b, BeginPayment(b, k)), start)
  {
    hide GrantsSound, HoldersSound, WalletSound, PostingsSound, OrdersSound, SalesSound, BeginPayment;
    var a := After(b, BeginPayment(b, k));
    if a != b {
      BeginFrame(b, start, k);
      BeginReadings(b, start.products, k);
    }
  }

  lemma BeginReadings(b: Books, products: map<int, Product>, k: nat)
    requires OrdersSound(b) && SalesSound(b, products)
    ensures OrdersSound(After(b, BeginPayment(b, k))) && SalesSound(After(b, BeginPayment(b, k)), products)
  {
    var a := After(b, BeginPayment(b, k));
    forall j | j in a.readings ensures ReadingSound(a, j) {
      if j in b.readings { assert ReadingSound(b, j); }
    }
  }

  lemma BeginFrame(b: Books, start: Books, k: nat)
    requires Sound(b, start)
    ensures var a := After(b, BeginPayment(b, k));
            GrantsSound(a) && HoldersSound(a) && WalletSound(a, start.balances) && PostingsSound(a)
  {
    var a := After(b, BeginPayment(b, k));
    forall j: nat, p: int ensures Sum(a.grants, ActiveOn(j, p)) == Due(a, j, p) { assert Sum(b.grants, ActiveOn(j, p)) == Due(b, j, p); }
    forall j: nat ensures PostingSound(a, j) { assert PostingSound(b, j); }
  }

  lemma AbortKeepsSound(b: Books, start: Books, k: nat)
    requires Sound(b, start)
    ensures Sound(Step(b, AbortPay(k)), start)
  {
    hide GrantsSound, SalesSound, HoldersSound, WalletSound, PostingsSound;
    QuietSelf(b);
    QuietKeepsSound(b, Step(b, AbortPay(k)), start);
  }

  lemma StepKeepsSound(b: Books, start: Books, e: Event)
    requires Sound(b, start)
    ensures Sound(Step(b, e), start)
  {
    if !Blocked(b, e) { ExecuteKeepsSound(b, start, e); }
  }

  lemma ExecuteKeepsSound(b: Books, start: Books, e: Event)
    requires Sound(b, start) && !Blocked(b, e)
    ensures Sound(After(b, Execute(b, e)), start)
  {
    hide Sound, PayWithBalance, MarkPaid, WechatPaid, TimeOut, RequestRefund, AdminRefund, RefundNotified;
    hide OpenWechat, StampWechat, AdjustWallet, Orderable, BeginPayment, ReadUnlocked, ReadItems, SyncCancels;
    match e
    case Place(user, payable, items, channel) => PlaceStepKeepsSound(b, start, user, payable, items, channel);
    case PayBalance(user, k, number, plans) => BuyKeepsSound(b, start, user, k, number, plans);
    case PayMock(k, transaction, plans) => MarkKeepsSound(b, start, k, Mock, transaction, plans);
    case Notify(k, transaction, plans) => NotifyKeepsSound(b, start, k, transaction, plans);
    case Timeout(k, configured, gateway, plans) => TimeOutKeepsSound(b, start, k, configured, gateway, plans);
    case AskRefund(user, k) => RequestKeepsSound(b, start, user, k);
    case RefundByAdmin(k, newNo, answer, number) => AdminRefundKeepsSound(b, start, k, newNo, answer, number);
    case RefundNotice(k, no, answer, number) => NoticeKeepsSound(b, start, k, no, answer, number);
    case StartWechat(user, k) => OpenKeepsSound(b, start, user, k);
    case Stamp(k) => StampKeepsSound(b, start, k);
    case Adjust(user, income, amount, number) => AdjustKeepsSound(b, start, user, income, amount, number);
    case SetStock(p, stock) => StockKeepsSound(b, start, p, stock);
    case BeginPay(k) => BeginKeepsSound(b, start, k);
    case AbortPay(k) => AbortKeepsSound(b, start, k);
    case _ => SyncKeepsSound(b, start, e);
  }

  lemma OpeningSound(start: Books)
    requires Opening(start)
    ensures Sound(start, start)
  {
    forall k: nat ensures PostingSound(start, k) {
      assert Purchases(start, k) == 0 && Refunds(start, k) == 0 && Sum(start.wallet, NetOn(k)) == 0;
    }
    assert WalletSound(start, start.balances);
  }

  /** Any events, in any order, replayed at will, from an opening state. */
  lemma {:induction false} RunKeepsSound(start: Books, events: seq<Event>)
    requires Opening(start)
    ensures Sound(Run(start, events), start)
  {
    hide Sound, Step, Opening;
    if events == [] {
      OpeningSound(start);
    } else {
      RunKeepsSound(start, events[..|events| - 1]);
      StepKeepsSound(Run(start, events[..|events| - 1]), start, events[|events| - 1]);
    }
  }

  lemma RunOrders(start: Books, events: seq<Event>)
    requires Opening(start)
    ensures OrdersSound(Run(start, events))
  {
    hide Run, Opening, OrdersSound, GrantsSound, SalesSound, HoldersSound, WalletSound, PostingsSound;
    RunKeepsSound(start, events);
  }
}
