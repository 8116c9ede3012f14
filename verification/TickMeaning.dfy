/** What a poll tick does, told from the wallet's report, the tables and the clock alone (core/src/ledger/settle.ts):
    which orders are paid, what each is credited in proportion, what is booked, and which orders are left. */
module TickMeaning {
  import opened Wrappers
  import opened Sums
  import opened Ledger
  import opened Orders
  import opened Settlement
  import opened SettlementLaws
  import opened Quote

  // ---- Which key pays which order, and how much ----

  /** The i-th output is final, carries the key and pays into an open order of this rail. */
  predicate CountsAt(p: Poll, b: Books, i: nat, k: Key) {
    && i < |p.inbounds| && p.inbounds[i].final && p.inbounds[i].key == k
    && Slot(p.rail, p.inbounds[i].index) in b.pending
  }

  /** The key settles the order of its first such output, if that order expects an amount. */
  ghost predicate PaysAt(p: Poll, b: Books, i: nat, k: Key) {
    && CountsAt(p, b, i, k)
    && (forall j: nat :: j < i ==> !CountsAt(p, b, j, k))
    && b.pending[Slot(p.rail, p.inbounds[i].index)].expected > 0
  }

  /** What the first n outputs pay under the key. */
  function Received(p: Poll, b: Books, k: Key, n: nat): nat
    requires n <= |p.inbounds|
  {
    if n == 0 then 0
    else Received(p, b, k, n - 1) + if CountsAt(p, b, n - 1, k) then p.inbounds[n - 1].amount else 0
  }

  lemma {:induction false} ReceivedIs(p: Poll, b: Books, k: Key, n: nat)
    requires n <= |p.inbounds|
    ensures p.AmountOf(b, n, k) == Received(p, b, k, n)
  {
    if n > 0 {
      ReceivedIs(p, b, k, n - 1);
    }
  }

  lemma {:induction false} FirstIs(p: Poll, b: Books, k: Key, i: nat, n: nat)
    requires i < n <= |p.inbounds| && CountsAt(p, b, i, k) && forall j: nat :: j < i ==> !CountsAt(p, b, j, k)
    ensures k in p.Keys(b, n) && p.IndexOf(b, n, k) == p.inbounds[i].index
  {
    KeysStep(p, b, n - 1);
    if i < n - 1 {
      FirstIs(p, b, k, i, n - 1);
    } else if k in p.Keys(b, n - 1) {
      var j :| 0 <= j < n - 1 && p.Creditable(b, p.inbounds[j]) && p.inbounds[j].key == k;
      assert CountsAt(p, b, j, k);
    }
  }

  lemma NotCounted(p: Poll, b: Books, k: Key, j: nat, n: nat)
    requires j < n <= |p.inbounds| && k !in p.Keys(b, n)
    ensures !CountsAt(p, b, j, k)
  {
  }

  /** Some output counts for a creditable key, and so there is a first. */
  lemma {:induction false} SomeFirst(p: Poll, b: Books, k: Key, n: nat) returns (i: nat)
    requires n <= |p.inbounds| && k in p.Keys(b, n)
    ensures i < n && CountsAt(p, b, i, k) && forall j: nat :: j < i ==> !CountsAt(p, b, j, k)
  {
    KeysStep(p, b, n - 1);
    if k in p.Keys(b, n - 1) {
      i := SomeFirst(p, b, k, n - 1);
    } else {
      i := n - 1;
      forall j: nat | j < i ensures !CountsAt(p, b, j, k) {
        NotCounted(p, b, k, j, n - 1);
      }
    }
  }

  lemma PayableIff(p: Poll, b: Books, k: Key)
    ensures k in p.Payable(b) <==> exists i: nat :: PaysAt(p, b, i, k)
    ensures forall i: nat :: PaysAt(p, b, i, k) ==>
              k in p.Keys(b, |p.inbounds|) && p.Paid(b, k) == Slot(p.rail, p.inbounds[i].index)
  {
    forall i: nat | PaysAt(p, b, i, k)
      ensures k in p.Payable(b) && p.Paid(b, k) == Slot(p.rail, p.inbounds[i].index)
    {
      FirstIs(p, b, k, i, |p.inbounds|);
    }
    if k in p.Payable(b) {
      var i := SomeFirst(p, b, k, |p.inbounds|);
      FirstIs(p, b, k, i, |p.inbounds|);
      assert PaysAt(p, b, i, k);
    }
  }

  // ---- What is enqueued and booked ----

  /** Rows that were there are untouched. A new key is enqueued exactly if it pays an order, for the owner of that
      order, in proportion to all it paid. */
  lemma RowsTold(p: Poll, b: Books, k: Key)
    requires p.scale > 0
    ensures k in b.outbox ==> k in p.Tick(b).outbox && p.Tick(b).outbox[k] == b.outbox[k]
    ensures k !in b.outbox ==> (k in p.Tick(b).outbox <==> exists i: nat :: PaysAt(p, b, i, k))
    ensures k !in b.outbox ==>
              forall i: nat :: PaysAt(p, b, i, k) ==>
                k in p.Tick(b).outbox
                && RowFits(p.Tick(b).outbox[k], b.pending[Slot(p.rail, p.inbounds[i].index)],
                           Received(p, b, k, |p.inbounds|), p.now)
  {
    hide Poll.Tick, Poll.Payable, Poll.Paid;
    TickRows(p, b);
    PayableIff(p, b, k);
    if k !in b.outbox && k in p.Payable(b) {
      ReceivedIs(p, b, k, |p.inbounds|);
      SaleTold(p, b, k);
    }
  }

  /** The sale of a key that pays an order: everything it received, its credit, and its gross at the locked rate. */
  predicate SaleFits(sale: Sale, p: Poll, o: Order, amount: nat)
    requires p.scale > 0
  {
    && sale.at == p.now && sale.asset == p.asset && sale.atomic == amount && sale.scale == p.scale
    && Proportional(sale.usd, o.credit, o.expected, amount) && GrossFits(sale.gross, amount, p.scale, o.rate)
  }

  lemma SaleTold(p: Poll, b: Books, k: Key)
    requires p.scale > 0 && k in p.Payable(b)
    ensures p.Paid(b, k) in b.pending
    ensures SaleFits(p.SaleOf(b, k), p, b.pending[p.Paid(b, k)], p.AmountOf(b, |p.inbounds|, k))
  {
    var o, amount := b.pending[p.Paid(b, k)], p.AmountOf(b, |p.inbounds|, k);
    ShareIff(o.credit, o.expected, amount, ShareOf(o.credit, o.expected, amount));
    GrossIff(amount, p.scale, o.rate, GrossOf(amount, p.scale, o.rate));
    hide ShareOf, GrossOf, Proportional, GrossFits;
  }

  /** One sale is booked for every new row, worth what the row credits. */
  lemma SalesTold(p: Poll, b: Books) returns (sales: map<Key, Sale>)
    requires p.scale > 0
    ensures p.Tick(b).revenue == b.revenue + Bag(sales)
    ensures sales.Keys == p.Tick(b).outbox.Keys - b.outbox.Keys
    ensures forall k :: k in sales ==> sales[k].usd == p.Tick(b).outbox[k].micros
    ensures forall k, i: nat :: k in sales && PaysAt(p, b, i, k) ==>
              SaleFits(sales[k], p, b.pending[Slot(p.rail, p.inbounds[i].index)], Received(p, b, k, |p.inbounds|))
  {
    hide Poll.Tick, Poll.Payable, Poll.Paid, Poll.SaleOf, SaleFits;
    sales := p.NewSales(b, p.Payable(b));
    TickRows(p, b);
    forall k, i: nat | k in sales && PaysAt(p, b, i, k)
      ensures SaleFits(sales[k], p, b.pending[Slot(p.rail, p.inbounds[i].index)], Received(p, b, k, |p.inbounds|))
    {
      PayableIff(p, b, k);
      ReceivedIs(p, b, k, |p.inbounds|);
      SaleTold(p, b, k);
    }
  }

  // ---- Which orders are left ----

  ghost predicate Mentioned(p: Poll, s: Slot) {
    s.rail == p.rail && exists t :: t in p.inbounds && t.index == s.index
  }

  /** An order goes exactly if a key pays it, if it is past the backstop, or if it was never seen paying, neither before
      nor in this report, and is past the shorter horizon; all on this rail. One that stays keeps all its figures, and
      the time it was first seen. */
  lemma OrdersTold(p: Poll, b: Books, s: Slot)
    requires p.scale > 0
    ensures s in p.Tick(b).pending <==>
            && s in b.pending
            && !(exists i: nat, k :: PaysAt(p, b, i, k) && s == Slot(p.rail, p.inbounds[i].index))
            && !(s.rail == p.rail && b.pending[s].created < p.now - p.backstop)
            && !(s.rail == p.rail && p.unfundedReap.Some? && b.pending[s].seen.None? && !Mentioned(p, s)
                 && b.pending[s].created < p.now - p.unfundedReap.value)
    ensures s in p.Tick(b).pending ==>
              p.Tick(b).pending[s]
              == if b.pending[s].seen.None? && Mentioned(p, s) then b.pending[s].(seen := Some(p.now)) else b.pending[s]
  {
    hide Poll.Tick, Poll.Payable, Poll.Paid, Poll.Keys, Poll.ClosedBy, PaysAt;
    TickPending(p, b, s);
    SightedIff(p, s);
    ClosedIff(p, b, s);
  }

  lemma SightedIff(p: Poll, s: Slot)
    ensures p.Sighted(s, |p.inbounds|) <==> Mentioned(p, s)
  {
    if Mentioned(p, s) {
      var t :| t in p.inbounds && t.index == s.index;
      var i :| 0 <= i < |p.inbounds| && p.inbounds[i] == t;
    }
  }

  lemma ClosedIff(p: Poll, b: Books, s: Slot)
    ensures p.ClosedBy(b, p.Payable(b), s)
            <==> exists i: nat, k :: PaysAt(p, b, i, k) && s == Slot(p.rail, p.inbounds[i].index)
  {
    hide Poll.Payable, Poll.Paid, Poll.Keys;
    if k :| k in p.Payable(b) && k in p.Keys(b, |p.inbounds|) && p.Paid(b, k) == s {
      PayableIff(p, b, k);
    }
    forall i: nat, k | PaysAt(p, b, i, k) && s == Slot(p.rail, p.inbounds[i].index)
      ensures p.ClosedBy(b, p.Payable(b), s)
    {
      PayableIff(p, b, k);
    }
  }
}
