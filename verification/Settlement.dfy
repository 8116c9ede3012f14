/** One poll tick of one rail (core/src/ledger/settle.ts): match deposits to open orders, enqueue each credit, book
    the sale, close the order, then reap. The tick is specified key by key and order by order, without any loop; the
    loops of the source are proved to compute that. */
module Settlement {
  import opened Wrappers
  import opened Sums
  import opened Ledger
  import opened Orders

  /** One detected output. An idempotency key may be shared by several outputs of one transaction. */
  datatype Inbound = Inbound(index: int, key: Key, amount: nat, final: bool)

  /** Math.round: halves go up. */
  function Round(x: real): int {
    (x + 0.5).Floor
  }

  /** The credit for an amount received, in proportion to the locked expectation. */
  function ShareOf(credit: int, expected: int, amount: nat): int
    requires expected > 0
  {
    Round(credit as real * (amount as real / expected as real))
  }

  /** The gross dollars of an amount at the locked rate, in micros. */
  function GrossOf(amount: nat, scale: int, rate: real): int
    requires scale > 0
  {
    Round(amount as real / scale as real * rate * 1000000.0)
  }

  /** A tick's inputs: the rail, what its wallet reported, the clock, and the reaping horizons. */
  datatype Poll = Poll(
    rail: string,
    inbounds: seq<Inbound>,
    now: int,
    asset: string,
    scale: int,
    backstop: int,
    unfundedReap: Option<int>
  ) {
    function Receives(index: int): Slot {
      Slot(rail, index)
    }

    predicate Creditable(b: Books, t: Inbound) {
      t.final && Receives(t.index) in b.pending
    }

    /** The creditable keys among the first n inbounds. */
    function Keys(b: Books, n: nat): set<Key>
      requires n <= |inbounds|
    {
      set i | 0 <= i < n && Creditable(b, inbounds[i]) :: inbounds[i].key
    }

    /** The order a key pays: that of its first creditable output. */
    function IndexOf(b: Books, n: nat, k: Key): int
      requires n <= |inbounds| && k in Keys(b, n)
      decreases n
    {
      if k in Keys(b, n - 1) then IndexOf(b, n - 1, k) else inbounds[n - 1].index
    }

    /** What a key pays in all: the sum of its creditable outputs. */
    function AmountOf(b: Books, n: nat, k: Key): nat
      requires n <= |inbounds|
      decreases n
    {
      if n == 0 then 0
      else
        AmountOf(b, n - 1, k)
        + if Creditable(b, inbounds[n - 1]) && inbounds[n - 1].key == k then inbounds[n - 1].amount else 0
    }

    function Paid(b: Books, k: Key): Slot
      requires k in Keys(b, |inbounds|)
    {
      Receives(IndexOf(b, |inbounds|, k))
    }

    /** The keys that settle an order in this tick. */
    function Payable(b: Books): set<Key> {
      set k | k in Keys(b, |inbounds|) && Paid(b, k) in b.pending && b.pending[Paid(b, k)].expected > 0
    }

    function SaleOf(b: Books, k: Key): Sale
      requires scale > 0 && k in Payable(b)
    {
      var o, amount := b.pending[Paid(b, k)], AmountOf(b, |inbounds|, k);
      Sale(now, asset, amount, scale, ShareOf(o.credit, o.expected, amount), GrossOf(amount, scale, o.rate))
    }

    /** The outbox rows and sales that the keys in ks add: those not enqueued before. */
    ghost function NewRows(b: Books, ks: set<Key>): map<Key, Row>
      requires scale > 0 && ks <= Payable(b)
    {
      map k | k in ks && k !in b.outbox :: Row(b.pending[Paid(b, k)].hash, SaleOf(b, k).usd, now, None)
    }

    ghost function NewSales(b: Books, ks: set<Key>): map<Key, Sale>
      requires scale > 0 && ks <= Payable(b)
    {
      map k | k in ks && k !in b.outbox :: SaleOf(b, k)
    }

    predicate Sighted(s: Slot, n: nat)
      requires n <= |inbounds|
    {
      s.rail == rail && exists i :: 0 <= i < n && inbounds[i].index == s.index
    }

    /** The order as this tick leaves it, if it survives. */
    function Marked(s: Slot, o: Order, n: nat): Order
      requires n <= |inbounds|
    {
      if o.seen.None? && Sighted(s, n) then o.(seen := Some(now)) else o
    }

    predicate ClosedBy(b: Books, ks: set<Key>, s: Slot) {
      exists k :: k in ks && k in Keys(b, |inbounds|) && Paid(b, k) == s
    }

    predicate Reaped(s: Slot, o: Order) {
      && s.rail == rail
      && (o.created < now - backstop || (unfundedReap.Some? && o.seen.None? && o.created < now - unfundedReap.value))
    }

    /** The books once the sightings are recorded and the keys in ks are committed. */
    ghost function Committed(b: Books, ks: set<Key>): Books
      requires scale > 0 && ks <= Payable(b)
    {
      Books(
        map s | s in b.pending && !ClosedBy(b, ks, s) :: Marked(s, b.pending[s], |inbounds|),
        b.outbox + NewRows(b, ks),
        b.revenue + Bag(NewSales(b, ks)))
    }

    /** The whole tick. */
    ghost function Tick(b: Books): Books
      requires scale > 0
    {
      var c := Committed(b, Payable(b));
      c.(pending := map s | s in c.pending && !Reaped(s, c.pending[s]) :: c.pending[s])
    }
  }

  // ---- The loops compute the tick ----

  datatype Group = Group(index: int, amount: nat)

  /** The aggregation of the first n inbounds. */
  ghost function Groups(p: Poll, b: Books, n: nat): map<Key, Group>
    requires n <= |p.inbounds|
  {
    map k | k in p.Keys(b, n) :: Group(p.IndexOf(b, n, k), p.AmountOf(b, n, k))
  }

  lemma KeysStep(p: Poll, b: Books, n: nat)
    requires n < |p.inbounds|
    ensures p.Keys(b, n + 1) ==
            p.Keys(b, n) + if p.Creditable(b, p.inbounds[n]) then {p.inbounds[n].key} else {}
  {
    var t := p.inbounds[n];
    forall k | k in p.Keys(b, n + 1) ensures k in p.Keys(b, n) || (p.Creditable(b, t) && k == t.key) {
      var i :| 0 <= i < n + 1 && p.Creditable(b, p.inbounds[i]) && p.inbounds[i].key == k;
    }
    forall k | k in p.Keys(b, n) ensures k in p.Keys(b, n + 1) {
      var i :| 0 <= i < n && p.Creditable(b, p.inbounds[i]) && p.inbounds[i].key == k;
    }
    if p.Creditable(b, t) {
      assert t.key in p.Keys(b, n + 1);
    }
  }

  lemma {:induction false} NoAmount(p: Poll, b: Books, n: nat, k: Key)
    requires n <= |p.inbounds| && k !in p.Keys(b, n)
    ensures p.AmountOf(b, n, k) == 0
    decreases n
  {
    if n > 0 {
      KeysStep(p, b, n - 1);
      NoAmount(p, b, n - 1, k);
    }
  }

  function AddTo(groups: map<Key, Group>, t: Inbound): map<Key, Group> {
    if t.key in groups then groups[t.key := Group(groups[t.key].index, groups[t.key].amount + t.amount)]
    else groups[t.key := Group(t.index, t.amount)]
  }

  lemma GroupsStep(p: Poll, b: Books, n: nat)
    requires n < |p.inbounds|
    ensures Groups(p, b, n + 1) ==
            (if p.Creditable(b, p.inbounds[n]) then AddTo(Groups(p, b, n), p.inbounds[n]) else Groups(p, b, n))
  {
    KeysStep(p, b, n);
    var t := p.inbounds[n];
    if p.Creditable(b, t) && t.key !in p.Keys(b, n) {
      NoAmount(p, b, n, t.key);
    }
  }

  /** The pending table after the first n sightings. */
  ghost function MarkedOrders(p: Poll, b: Books, n: nat): map<Slot, Order>
    requires n <= |p.inbounds|
  {
    map s | s in b.pending :: p.Marked(s, b.pending[s], n)
  }

  lemma MarkedStep(p: Poll, b: Books, n: nat)
    requires n < |p.inbounds|
    ensures MarkSeen(b.(pending := MarkedOrders(p, b, n)), p.Receives(p.inbounds[n].index), p.now)
            == b.(pending := MarkedOrders(p, b, n + 1))
  {
    var at := p.Receives(p.inbounds[n].index);
    forall s ensures p.Sighted(s, n + 1) <==> p.Sighted(s, n) || s == at {
      if s == at {
        assert p.inbounds[n].index == s.index;
      }
    }
    assert MarkSeen(b.(pending := MarkedOrders(p, b, n)), at, p.now).pending == MarkedOrders(p, b, n + 1);
  }

  lemma CommittedNone(p: Poll, b: Books)
    requires p.scale > 0
    ensures p.Committed(b, {}) == b.(pending := MarkedOrders(p, b, |p.inbounds|))
    ensures p.NewRows(b, {}) == map[]
  {
    assert p.NewSales(b, {}) == map[] && p.NewRows(b, {}) == map[];
  }

  lemma ClosedByStep(p: Poll, b: Books, ks: set<Key>, k: Key, s: Slot)
    requires k in p.Payable(b)
    ensures p.ClosedBy(b, ks + {k}, s) <==> p.ClosedBy(b, ks, s) || s == p.Paid(b, k)
  {
    if p.ClosedBy(b, ks, s) {
      var j :| j in ks && j in p.Keys(b, |p.inbounds|) && p.Paid(b, j) == s;
      assert j in ks + {k};
    }
    assert k in ks + {k} && k in p.Keys(b, |p.inbounds|);
  }

  lemma ClosedStep(p: Poll, b: Books, ks: set<Key>, k: Key)
    requires p.scale > 0 && ks <= p.Payable(b) && k in p.Payable(b)
    ensures p.Committed(b, ks + {k}).pending == p.Committed(b, ks).pending - {p.Paid(b, k)}
  {
    hide Poll.ClosedBy, Poll.Paid, Poll.Marked, Poll.NewRows, Poll.NewSales;
    forall s ensures p.ClosedBy(b, ks + {k}, s) <==> p.ClosedBy(b, ks, s) || s == p.Paid(b, k) {
      ClosedByStep(p, b, ks, k, s);
    }
  }

  lemma RowsStep(p: Poll, b: Books, ks: set<Key>, k: Key)
    requires p.scale > 0 && ks <= p.Payable(b) && k in p.Payable(b) && k !in ks
    ensures var rows, sales := p.NewRows(b, ks), p.NewSales(b, ks);
            && p.NewRows(b, ks + {k}) ==
                 (if k in b.outbox then rows
                  else rows[k := Row(b.pending[p.Paid(b, k)].hash, p.SaleOf(b, k).usd, p.now, None)])
            && p.NewSales(b, ks + {k}) == (if k in b.outbox then sales else sales[k := p.SaleOf(b, k)])
  {
  }

  lemma CommittedStep(p: Poll, b: Books, ks: set<Key>, k: Key)
    requires p.scale > 0 && ks <= p.Payable(b) && k in p.Payable(b) && k !in ks
    ensures Commit(p.Committed(b, ks), k, b.pending[p.Paid(b, k)].hash, p.SaleOf(b, k), p.Paid(b, k))
            == p.Committed(b, ks + {k})
  {
    var hash, sale := b.pending[p.Paid(b, k)].hash, p.SaleOf(b, k);
    var rows, sales := p.NewRows(b, ks), p.NewSales(b, ks);
    ClosedStep(p, b, ks, k);
    RowsStep(p, b, ks, k);
    assert k !in rows && k !in sales;
    BookNew(b, rows, sales, k, Row(hash, sale.usd, p.now, None), sale);
  }

  lemma BookNew(b: Books, rows: map<Key, Row>, sales: map<Key, Sale>, k: Key, row: Row, sale: Sale)
    requires k !in sales
    ensures b.outbox + rows[k := row] == (b.outbox + rows)[k := row]
    ensures Plus(b.revenue + Bag(sales), sale) == b.revenue + Bag(sales[k := sale])
  {
    BagInsert(sales, k, sale);
  }

  /** The poll step itself. Groups are committed in any order; all are taken from one snapshot of the open orders. */
  method Settle(orders: OrdersStore, p: Poll) returns (enqueued: nat)
    requires p.scale > 0
    modifies orders
    ensures orders.Abs() == p.Tick(old(orders.Abs()))
    ensures enqueued == |p.NewRows(old(orders.Abs()), p.Payable(old(orders.Abs())))|
  {
    hide Poll.Committed, Poll.NewRows, Poll.Reaped, Commit;
    ghost var b := orders.Abs();
    var open := orders.OpenOrders(p.rail);
    var groups := Aggregate(orders, p, open);
    CommittedNone(p, b);
    enqueued := 0;
    var todo := groups;
    ghost var done: set<Key> := {};
    while todo != map[]
      invariant done <= p.Payable(b)
      invariant todo.Keys <= groups.Keys && todo.Keys !! done && groups.Keys - todo.Keys >= done
      invariant forall k :: k in todo ==> todo[k] == groups[k]
      invariant forall k :: k in groups && k !in todo && k !in done ==> k !in p.Payable(b)
      invariant orders.Abs() == p.Committed(b, done)
      invariant enqueued == |p.NewRows(b, done)|
      decreases |todo|
    {
      var k :| k in todo;
      var g := todo[k];
      todo := todo - {k};
      var slot := p.Receives(g.index);
      assert slot == p.Paid(b, k);
      if slot in open && open[slot].expected > 0 {
        var o := open[slot];
        var share, gross := ShareOf(o.credit, o.expected, g.amount), GrossOf(g.amount, p.scale, o.rate);
        var sale := Sale(p.now, p.asset, g.amount, p.scale, share, gross);
        assert k in p.Payable(b) && sale == p.SaleOf(b, k);
        CommittedStep(p, b, done, k);
        NewRowsStep(p, b, done, k);
        var isNew := orders.CommitSettlement(k, o.hash, sale, slot);
        done := done + {k};
        if isNew {
          enqueued := enqueued + 1;
        }
      }
    }
    assert done == p.Payable(b);
    Reap(orders, p);
    TickIsReaping(p, b);
  }

  lemma NewRowsStep(p: Poll, b: Books, ks: set<Key>, k: Key)
    requires p.scale > 0 && ks <= p.Payable(b) && k in p.Payable(b) && k !in ks
    ensures |p.NewRows(b, ks + {k})| == |p.NewRows(b, ks)| + if k in b.outbox then 0 else 1
    ensures k in p.Committed(b, ks).outbox <==> k in b.outbox
  {
    RowsStep(p, b, ks, k);
    assert k !in p.NewRows(b, ks);
    hide Poll.NewRows, Poll.Payable, Poll.Paid, Poll.SaleOf, Poll.ClosedBy;
  }

  lemma TickIsReaping(p: Poll, b: Books)
    requires p.scale > 0
    ensures var c := p.Committed(b, p.Payable(b));
            p.Tick(b) == c.(pending := map s | s in c.pending && !p.Reaped(s, c.pending[s]) :: c.pending[s])
  {
  }

  lemma NothingSeen(p: Poll, b: Books)
    ensures Groups(p, b, 0) == map[] && MarkedOrders(p, b, 0) == b.pending
  {
  }

  /** The first loop: record every sighting, sum the creditable outputs of each key. */
  method Aggregate(orders: OrdersStore, p: Poll, open: map<Slot, Order>) returns (groups: map<Key, Group>)
    requires open == map s | s in orders.pending && s.rail == p.rail :: orders.pending[s]
    modifies orders`pending
    ensures groups == Groups(p, old(orders.Abs()), |p.inbounds|)
    ensures orders.pending == MarkedOrders(p, old(orders.Abs()), |p.inbounds|)
  {
    hide Groups, MarkSeen, Poll.Keys;
    ghost var b := orders.Abs();
    NothingSeen(p, b);
    groups := map[];
    var i := 0;
    while i < |p.inbounds|
      invariant 0 <= i <= |p.inbounds|
      invariant groups == Groups(p, b, i)
      invariant orders.Abs() == b.(pending := MarkedOrders(p, b, i))
    {
      var t := p.inbounds[i];
      MarkedStep(p, b, i);
      GroupsStep(p, b, i);
      var _ := orders.RecordSighting(p.Receives(t.index), p.now);
      if t.final && p.Receives(t.index) in open {
        groups := AddTo(groups, t);
      }
      i := i + 1;
    }
  }

  /** The absolute backstop, then the fast reap of orders never seen paying. */
  method Reap(orders: OrdersStore, p: Poll)
    modifies orders`pending
    ensures orders.pending == map s
              | s in old(orders.pending) && !p.Reaped(s, old(orders.pending)[s]) :: old(orders.pending)[s]
  {
    ghost var before := orders.pending;
    orders.PurgeStale(p.now - p.backstop, p.rail);
    if p.unfundedReap.Some? {
      ReapUnfunded(orders, p.rail, p.now - p.unfundedReap.value);
    }
    assert orders.pending.Keys == set s | s in before && !p.Reaped(s, before[s]);
  }

  /** Never seen paying, and old enough for the fast reap. */
  predicate Unfunded(rail: string, cutoff: int, s: Slot, o: Order) {
    s.rail == rail && o.seen.None? && o.created < cutoff
  }

  method ReapUnfunded(orders: OrdersStore, rail: string, cutoff: int)
    modifies orders`pending
    ensures orders.pending
            == map s | s in old(orders.pending) && !Unfunded(rail, cutoff, s, old(orders.pending)[s])
                 :: old(orders.pending)[s]
  {
    ghost var before := orders.pending;
    var todo := orders.OpenOrders(rail);
    while todo != map[]
      invariant forall s :: s in orders.pending ==> s in before && orders.pending[s] == before[s]
      invariant forall s :: s in todo ==> s in orders.pending && s.rail == rail && todo[s] == before[s]
      invariant forall s :: s in orders.pending && s !in todo ==> !Unfunded(rail, cutoff, s, before[s])
      invariant forall s :: s in before && !Unfunded(rail, cutoff, s, before[s]) ==> s in orders.pending
      decreases |todo|
    {
      var s :| s in todo;
      if todo[s].seen.None? && todo[s].created < cutoff {
        orders.RemoveOrder(s);
      }
      todo := todo - {s};
    }
  }
}
