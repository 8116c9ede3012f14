/** Laws of the poll tick: it does not depend on the order of the wallet's report, two rails do not disturb each
    other, and an order somebody has paid is not lost. */
module SettlementLaws {
  import opened Wrappers
  import opened Sums
  import opened Ledger
  import opened Orders
  import opened Settlement
  import opened Quote

  // ---- The order of the report is irrelevant ----

  /** Rails build a key from the transaction and the order index, so final outputs of equal keys pay the same order. */
  ghost predicate KeyDeterminesIndex(ts: seq<Inbound>) {
    forall i, j :: 0 <= i < |ts| && 0 <= j < |ts| && ts[i].final && ts[j].final && ts[i].key == ts[j].key ==>
                     ts[i].index == ts[j].index
  }

  function Contribution(p: Poll, b: Books, k: Key, t: Inbound): nat {
    if p.Creditable(b, t) && t.key == k then t.amount else 0
  }

  /** The final outputs to open orders that carry key k, added up over any list of outputs. */
  function Total(p: Poll, b: Books, k: Key, ts: seq<Inbound>): nat {
    if ts == [] then 0 else Total(p, b, k, ts[..|ts| - 1]) + Contribution(p, b, k, ts[|ts| - 1])
  }

  lemma {:induction false} AmountIsTotal(p: Poll, b: Books, n: nat, k: Key)
    requires n <= |p.inbounds|
    ensures p.AmountOf(b, n, k) == Total(p, b, k, p.inbounds[..n])
  {
    if n > 0 {
      AmountIsTotal(p, b, n - 1, k);
      assert p.inbounds[..n][..n - 1] == p.inbounds[..n - 1];
    }
  }

  lemma {:induction false} TotalRemove(p: Poll, b: Books, k: Key, ts: seq<Inbound>, i: nat)
    requires i < |ts|
    ensures Total(p, b, k, ts) == Contribution(p, b, k, ts[i]) + Total(p, b, k, ts[..i] + ts[i + 1..])
    decreases |ts|
  {
    var init, last := ts[..|ts| - 1], ts[|ts| - 1];
    if i < |ts| - 1 {
      TotalRemove(p, b, k, init, i);
      var rest := ts[..i] + ts[i + 1..];
      assert rest[..|rest| - 1] == init[..i] + init[i + 1..] && rest[|rest| - 1] == last;
    } else {
      assert ts[..i] + ts[i + 1..] == init;
    }
  }

  lemma {:induction false} TotalPermutes(p: Poll, b: Books, k: Key, ts: seq<Inbound>, us: seq<Inbound>)
    requires multiset(ts) == multiset(us)
    ensures Total(p, b, k, ts) == Total(p, b, k, us)
    decreases |ts|
  {
    hide Total, Contribution;
    assert |ts| == |multiset(ts)| && |us| == |multiset(us)|;
    if ts != [] {
      var init, last := ts[..|ts| - 1], ts[|ts| - 1];
      assert ts == init + [last];
      assert last in multiset(us);
      var i :| 0 <= i < |us| && us[i] == last;
      Without(us, i);
      TotalRemove(p, b, k, us, i);
      TotalLast(p, b, k, ts);
      TotalPermutes(p, b, k, init, us[..i] + us[i + 1..]);
    } else {
      assert us == [];
    }
  }

  lemma TotalLast(p: Poll, b: Books, k: Key, ts: seq<Inbound>)
    requires ts != []
    ensures Total(p, b, k, ts) == Total(p, b, k, ts[..|ts| - 1]) + Contribution(p, b, k, ts[|ts| - 1])
  {
  }

  lemma Without(us: seq<Inbound>, i: nat)
    requires i < |us|
    ensures multiset(us[..i] + us[i + 1..]) == multiset(us) - multiset{us[i]}
  {
    assert us == us[..i] + [us[i]] + us[i + 1..];
  }

  /** A key is creditable exactly when some final output to an open order carries it. */
  lemma KeysMeaning(p: Poll, b: Books, k: Key)
    ensures k in p.Keys(b, |p.inbounds|) <==> exists t :: t in p.inbounds && p.Creditable(b, t) && t.key == k
  {
    if t :| t in p.inbounds && p.Creditable(b, t) && t.key == k {
      var i :| 0 <= i < |p.inbounds| && p.inbounds[i] == t;
    }
  }

  lemma {:induction false} IndexMeaning(p: Poll, b: Books, n: nat, k: Key)
    requires n <= |p.inbounds| && k in p.Keys(b, n)
    ensures exists i :: 0 <= i < n && p.Creditable(b, p.inbounds[i]) && p.inbounds[i].key == k
                        && p.inbounds[i].index == p.IndexOf(b, n, k)
    decreases n
  {
    KeysStep(p, b, n - 1);
    if k in p.Keys(b, n - 1) {
      IndexMeaning(p, b, n - 1, k);
    }
  }

  lemma SameKeys(p: Poll, q: Poll, b: Books)
    requires q == p.(inbounds := q.inbounds) && multiset(p.inbounds) == multiset(q.inbounds)
    ensures p.Keys(b, |p.inbounds|) == q.Keys(b, |q.inbounds|)
  {
    SameMembers(p.inbounds, q.inbounds);
    forall k ensures k in p.Keys(b, |p.inbounds|) <==> k in q.Keys(b, |q.inbounds|) {
      KeysMeaning(p, b, k);
      KeysMeaning(q, b, k);
      forall t ensures p.Creditable(b, t) == q.Creditable(b, t) {
      }
    }
  }

  lemma SameMembers(ts: seq<Inbound>, us: seq<Inbound>)
    requires multiset(ts) == multiset(us)
    ensures forall t :: t in ts <==> t in us
  {
    forall t ensures t in ts <==> t in us {
      assert t in multiset(ts) <==> t in ts;
      assert t in multiset(us) <==> t in us;
    }
  }

  lemma SameIndex(p: Poll, q: Poll, b: Books, k: Key)
    requires q == p.(inbounds := q.inbounds) && multiset(p.inbounds) == multiset(q.inbounds)
    requires KeyDeterminesIndex(p.inbounds)
    requires k in p.Keys(b, |p.inbounds|) && k in q.Keys(b, |q.inbounds|)
    ensures p.IndexOf(b, |p.inbounds|, k) == q.IndexOf(b, |q.inbounds|, k)
  {
    SameMembers(p.inbounds, q.inbounds);
    IndexMeaning(p, b, |p.inbounds|, k);
    IndexMeaning(q, b, |q.inbounds|, k);
    var j :| 0 <= j < |q.inbounds| && q.Creditable(b, q.inbounds[j]) && q.inbounds[j].key == k
             && q.inbounds[j].index == q.IndexOf(b, |q.inbounds|, k);
    assert q.inbounds[j] in p.inbounds;
  }

  lemma SameAmount(p: Poll, q: Poll, b: Books, k: Key)
    requires q == p.(inbounds := q.inbounds) && multiset(p.inbounds) == multiset(q.inbounds)
    ensures p.AmountOf(b, |p.inbounds|, k) == q.AmountOf(b, |q.inbounds|, k)
  {
    AmountIsTotal(p, b, |p.inbounds|, k);
    AmountIsTotal(q, b, |q.inbounds|, k);
    assert p.inbounds[..|p.inbounds|] == p.inbounds && q.inbounds[..|q.inbounds|] == q.inbounds;
    TotalPermutes(p, b, k, p.inbounds, q.inbounds);
    TotalSameRail(p, q, b, k, q.inbounds);
  }

  lemma {:induction false} TotalSameRail(p: Poll, q: Poll, b: Books, k: Key, ts: seq<Inbound>)
    requires p.rail == q.rail
    ensures Total(p, b, k, ts) == Total(q, b, k, ts)
  {
    if ts != [] {
      TotalSameRail(p, q, b, k, ts[..|ts| - 1]);
    }
  }

  /** The order in which a wallet lists its outputs changes nothing: not the orders left open, nor the outbox, nor
      the sales booked. */
  lemma ReportOrderIrrelevant(p: Poll, q: Poll, b: Books)
    requires p.scale > 0
    requires q == p.(inbounds := q.inbounds) && multiset(p.inbounds) == multiset(q.inbounds)
    requires KeyDeterminesIndex(p.inbounds)
    ensures p.Tick(b) == q.Tick(b)
  {
    SameKeys(p, q, b);
    forall k | k in p.Keys(b, |p.inbounds|)
      ensures p.Paid(b, k) == q.Paid(b, k) && p.AmountOf(b, |p.inbounds|, k) == q.AmountOf(b, |q.inbounds|, k)
    {
      SameIndex(p, q, b, k);
      SameAmount(p, q, b, k);
    }
    assert p.Payable(b) == q.Payable(b);
    SameMembers(p.inbounds, q.inbounds);
    forall s ensures p.Sighted(s, |p.inbounds|) == q.Sighted(s, |q.inbounds|) {
      SightedMeaning(p, s);
      SightedMeaning(q, s);
    }
    SameCommit(p, q, b);
  }

  lemma SightedMeaning(p: Poll, s: Slot)
    ensures p.Sighted(s, |p.inbounds|) <==> s.rail == p.rail && exists t :: t in p.inbounds && t.index == s.index
  {
    if p.Sighted(s, |p.inbounds|) {
      var i :| 0 <= i < |p.inbounds| && p.inbounds[i].index == s.index;
      assert p.inbounds[i] in p.inbounds;
    }
    if s.rail == p.rail {
      if t :| t in p.inbounds && t.index == s.index {
        var i :| 0 <= i < |p.inbounds| && p.inbounds[i] == t;
      }
    }
  }

  /** A tick depends on its inbounds only through keys, payees, amounts and sightings. */
  lemma SameCommit(p: Poll, q: Poll, b: Books)
    requires p.scale > 0 && q == p.(inbounds := q.inbounds)
    requires p.Keys(b, |p.inbounds|) == q.Keys(b, |q.inbounds|) && p.Payable(b) == q.Payable(b)
    requires forall k :: k in p.Keys(b, |p.inbounds|) ==>
               p.Paid(b, k) == q.Paid(b, k) && p.AmountOf(b, |p.inbounds|, k) == q.AmountOf(b, |q.inbounds|, k)
    requires forall s :: p.Sighted(s, |p.inbounds|) == q.Sighted(s, |q.inbounds|)
    ensures p.Tick(b) == q.Tick(b)
  {
    hide Poll.Keys, Poll.Paid, Poll.Payable, Poll.Committed, Poll.Reaped;
    SameCommitted(p, q, b);
    forall s, o ensures p.Reaped(s, o) == q.Reaped(s, o) {
      SameReaped(p, q, s, o);
    }
  }

  lemma SameReaped(p: Poll, q: Poll, s: Slot, o: Order)
    requires q == p.(inbounds := q.inbounds)
    ensures p.Reaped(s, o) == q.Reaped(s, o)
  {
  }

  lemma SameCommitted(p: Poll, q: Poll, b: Books)
    requires p.scale > 0 && q == p.(inbounds := q.inbounds)
    requires p.Keys(b, |p.inbounds|) == q.Keys(b, |q.inbounds|) && p.Payable(b) == q.Payable(b)
    requires forall k :: k in p.Keys(b, |p.inbounds|) ==>
               p.Paid(b, k) == q.Paid(b, k) && p.AmountOf(b, |p.inbounds|, k) == q.AmountOf(b, |q.inbounds|, k)
    requires forall s :: p.Sighted(s, |p.inbounds|) == q.Sighted(s, |q.inbounds|)
    ensures p.Committed(b, p.Payable(b)) == q.Committed(b, q.Payable(b))
  {
    hide Poll.Keys, Poll.Paid, Poll.Sighted, Poll.NewRows, Poll.NewSales, Poll.ClosedBy, Poll.Marked, Poll.Payable;
    var ks := p.Payable(b);
    SameRows(p, q, b);
    forall s ensures p.ClosedBy(b, ks, s) == q.ClosedBy(b, ks, s) {
      SameClosed(p, q, b, ks, s);
    }
    forall s, o ensures p.Marked(s, o, |p.inbounds|) == q.Marked(s, o, |q.inbounds|) {
      SameMark(p, q, s, o);
    }
  }

  lemma SameRows(p: Poll, q: Poll, b: Books)
    requires p.scale > 0 && q == p.(inbounds := q.inbounds)
    requires p.Keys(b, |p.inbounds|) == q.Keys(b, |q.inbounds|) && p.Payable(b) == q.Payable(b)
    requires forall k :: k in p.Keys(b, |p.inbounds|) ==>
               p.Paid(b, k) == q.Paid(b, k) && p.AmountOf(b, |p.inbounds|, k) == q.AmountOf(b, |q.inbounds|, k)
    ensures p.NewRows(b, p.Payable(b)) == q.NewRows(b, q.Payable(b))
    ensures p.NewSales(b, p.Payable(b)) == q.NewSales(b, q.Payable(b))
  {
    hide Poll.Keys, Poll.Paid, Poll.SaleOf;
    forall k | k in p.Payable(b) ensures p.SaleOf(b, k) == q.SaleOf(b, k) {
      SameSale(p, q, b, k);
    }
    forall k | k in p.Payable(b) ensures b.pending[p.Paid(b, k)] == b.pending[q.Paid(b, k)] {
    }
  }

  lemma SameSale(p: Poll, q: Poll, b: Books, k: Key)
    requires p.scale > 0 && q == p.(inbounds := q.inbounds) && k in p.Payable(b) && k in q.Payable(b)
    requires p.Paid(b, k) == q.Paid(b, k) && p.AmountOf(b, |p.inbounds|, k) == q.AmountOf(b, |q.inbounds|, k)
    ensures p.SaleOf(b, k) == q.SaleOf(b, k)
  {
    hide Poll.Keys, Poll.Paid;
  }

  lemma SameClosed(p: Poll, q: Poll, b: Books, ks: set<Key>, s: Slot)
    requires p.Keys(b, |p.inbounds|) == q.Keys(b, |q.inbounds|)
    requires forall k :: k in p.Keys(b, |p.inbounds|) ==> p.Paid(b, k) == q.Paid(b, k)
    ensures p.ClosedBy(b, ks, s) == q.ClosedBy(b, ks, s)
  {
    hide Poll.Keys, Poll.Paid;
  }

  lemma SameMark(p: Poll, q: Poll, s: Slot, o: Order)
    requires q == p.(inbounds := q.inbounds) && p.Sighted(s, |p.inbounds|) == q.Sighted(s, |q.inbounds|)
    ensures p.Marked(s, o, |p.inbounds|) == q.Marked(s, o, |q.inbounds|)
  {
  }

  function Relisted(p: Poll, us: seq<Inbound>): Poll {
    p.(inbounds := us)
  }

  /** And only that property of keys makes it so: the order of a report is irrelevant to every table of orders exactly
      when no key of it is shared by final outputs to two orders. */
  lemma ReportOrderIrrelevantIff(p: Poll)
    requires p.scale > 0
    ensures KeyDeterminesIndex(p.inbounds)
            <==> forall us: seq<Inbound>, b: Books ::
                   multiset(us) == multiset(p.inbounds) ==> Relisted(p, us).Tick(b) == p.Tick(b)
  {
    hide Poll.Tick;
    var ts := p.inbounds;
    if KeyDeterminesIndex(ts) {
      forall us: seq<Inbound>, b: Books | multiset(us) == multiset(ts)
        ensures Relisted(p, us).Tick(b) == p.Tick(b)
      {
        ReportOrderIrrelevant(p, Relisted(p, us), b);
      }
    } else {
      var i, j :| 0 <= i < |ts| && 0 <= j < |ts| && ts[i].final && ts[j].final && ts[i].key == ts[j].key
                  && ts[i].index != ts[j].index;
      SharedKeyShows(p, i, j);
    }
  }

  lemma SharedKeyShows(p: Poll, i: nat, j: nat)
    requires p.scale > 0 && i < |p.inbounds| && j < |p.inbounds|
    requires var t, u := p.inbounds[i], p.inbounds[j]; t.final && u.final && t.key == u.key && t.index != u.index
    ensures exists us: seq<Inbound>, b: Books ::
              multiset(us) == multiset(p.inbounds) && Relisted(p, us).Tick(b) != p.Tick(b)
  {
    hide Poll.Tick, ToFront;
    var b := Rivals(p.Receives(p.inbounds[i].index), p.Receives(p.inbounds[j].index));
    var us, vs := ToFront(p.inbounds, i), ToFront(p.inbounds, j);
    FirstListedPays(p, b, i);
    FirstListedPays(p, b, j);
    assert Relisted(p, us).Tick(b) != p.Tick(b) || Relisted(p, vs).Tick(b) != p.Tick(b);
  }

  /** Two open orders with different owners. */
  function Rivals(s: Slot, t: Slot): Books {
    Books(map[s := Order("", "x", 1, 1, 0, 1.0, None), t := Order("", "y", 1, 1, 0, 1.0, None)], map[], multiset{})
  }

  function ToFront(ts: seq<Inbound>, i: nat): (us: seq<Inbound>)
    requires i < |ts|
    ensures multiset(us) == multiset(ts) && us[0] == ts[i]
  {
    assert ts == ts[..i] + [ts[i]] + ts[i + 1..];
    [ts[i]] + ts[..i] + ts[i + 1..]
  }

  /** A key pays the order of whichever of its outputs is listed first. */
  lemma FirstListedPays(p: Poll, b: Books, i: nat)
    requires p.scale > 0 && i < |p.inbounds| && b.outbox == map[]
    requires p.Creditable(b, p.inbounds[i]) && b.pending[p.Receives(p.inbounds[i].index)].expected > 0
    ensures var t, q := p.inbounds[i], Relisted(p, ToFront(p.inbounds, i));
            && t.key in q.Tick(b).outbox
            && q.Tick(b).outbox[t.key].hash == b.pending[p.Receives(t.index)].hash
  {
    hide Poll.Tick;
    FirstListed(Relisted(p, ToFront(p.inbounds, i)), b);
  }

  lemma FirstListed(q: Poll, b: Books)
    requires q.scale > 0 && q.inbounds != [] && b.outbox == map[]
    requires q.Creditable(b, q.inbounds[0]) && b.pending[q.Receives(q.inbounds[0].index)].expected > 0
    ensures var t := q.inbounds[0];
            && t.key in q.Tick(b).outbox
            && q.Tick(b).outbox[t.key].hash == b.pending[q.Receives(t.index)].hash
  {
    hide Poll.Tick;
    var t := q.inbounds[0];
    FirstIndex(q, b, |q.inbounds|);
    TickRows(q, b);
    assert t.key in q.Payable(b) && q.Paid(b, t.key) == q.Receives(t.index);
  }

  lemma {:induction false} FirstIndex(q: Poll, b: Books, n: nat)
    requires 0 < n <= |q.inbounds| && q.Creditable(b, q.inbounds[0])
    ensures q.inbounds[0].key in q.Keys(b, n) && q.IndexOf(b, n, q.inbounds[0].key) == q.inbounds[0].index
    decreases n
  {
    KeysStep(q, b, n - 1);
    if n == 1 {
      assert q.Keys(b, 0) == {};
    } else {
      FirstIndex(q, b, n - 1);
    }
  }

  /** Two outputs that share a key over two orders of different owners, and the same report the other way round: the
      one credits the first owner, the other the second. */
  lemma SharedKeyDependsOnOrder()
    ensures var t, u := Inbound(1, "k", 1, true), Inbound(2, "k", 1, true);
            var p, q := Poll("r", [t, u], 0, "r", 1, 1, None), Poll("r", [u, t], 0, "r", 1, 1, None);
            var b := Rivals(Slot("r", 1), Slot("r", 2));
            && "k" in p.Tick(b).outbox && p.Tick(b).outbox["k"].hash == "x"
            && "k" in q.Tick(b).outbox && q.Tick(b).outbox["k"].hash == "y"
  {
    hide Poll.Tick, ToFront;
    var t, u := Inbound(1, "k", 1, true), Inbound(2, "k", 1, true);
    var p, q := Poll("r", [t, u], 0, "r", 1, 1, None), Poll("r", [u, t], 0, "r", 1, 1, None);
    var b := Rivals(Slot("r", 1), Slot("r", 2));
    FirstListed(p, b);
    FirstListed(q, b);
  }

  // ---- Rails do not disturb each other ----

  /** A tick never changes an order of another rail. */
  lemma OtherRailUntouched(p: Poll, b: Books, s: Slot)
    requires p.scale > 0 && s.rail != p.rail
    ensures s in p.Tick(b).pending <==> s in b.pending
    ensures s in b.pending ==> p.Tick(b).pending[s] == b.pending[s]
  {
  }

  /** The two books look the same to rail p. */
  ghost predicate LooksSame(p: Poll, b: Books, c: Books) {
    && (forall s: Slot :: s.rail == p.rail ==> (s in b.pending <==> s in c.pending))
    && (forall s: Slot :: s.rail == p.rail && s in b.pending ==> b.pending[s] == c.pending[s])
    && (forall t :: t in p.inbounds ==> (t.key in b.outbox <==> t.key in c.outbox))
  }

  lemma {:induction false} LocalGroups(p: Poll, b: Books, c: Books, n: nat)
    requires n <= |p.inbounds| && LooksSame(p, b, c)
    ensures p.Keys(b, n) == p.Keys(c, n)
    ensures forall k :: k in p.Keys(b, n) ==> p.IndexOf(b, n, k) == p.IndexOf(c, n, k)
    ensures forall k :: p.AmountOf(b, n, k) == p.AmountOf(c, n, k)
  {
    if n > 0 {
      LocalGroups(p, b, c, n - 1);
      KeysStep(p, b, n - 1);
      KeysStep(p, c, n - 1);
      assert p.Creditable(b, p.inbounds[n - 1]) == p.Creditable(c, p.inbounds[n - 1]);
    }
  }

  lemma LocalPayable(p: Poll, b: Books, c: Books)
    requires LooksSame(p, b, c)
    ensures p.Keys(b, |p.inbounds|) == p.Keys(c, |p.inbounds|)
    ensures forall k :: k in p.Keys(b, |p.inbounds|) ==> p.Paid(b, k) == p.Paid(c, k)
    ensures p.Payable(b) == p.Payable(c)
  {
    LocalGroups(p, b, c, |p.inbounds|);
  }

  lemma LocalSales(p: Poll, b: Books, c: Books)
    requires p.scale > 0 && LooksSame(p, b, c)
    ensures p.Payable(b) == p.Payable(c)
    ensures p.NewRows(b, p.Payable(b)) == p.NewRows(c, p.Payable(c))
    ensures p.NewSales(b, p.Payable(b)) == p.NewSales(c, p.Payable(c))
  {
    LocalPayable(p, b, c);
    LocalGroups(p, b, c, |p.inbounds|);
    forall k | k in p.Payable(b)
      ensures (k in b.outbox <==> k in c.outbox) && p.SaleOf(b, k) == p.SaleOf(c, k)
      ensures b.pending[p.Paid(b, k)] == c.pending[p.Paid(c, k)]
    {
      KeysMeaning(p, b, k);
    }
    NewBooksAgree(p, b, c, p.Payable(b));
  }

  lemma NewBooksAgree(p: Poll, b: Books, c: Books, ks: set<Key>)
    requires p.scale > 0 && ks <= p.Payable(b) && ks <= p.Payable(c)
    requires forall k :: k in ks ==> (k in b.outbox <==> k in c.outbox) && p.SaleOf(b, k) == p.SaleOf(c, k)
    requires forall k :: k in ks ==> b.pending[p.Paid(b, k)] == c.pending[p.Paid(c, k)]
    ensures p.NewRows(b, ks) == p.NewRows(c, ks)
    ensures p.NewSales(b, ks) == p.NewSales(c, ks)
  {
    hide Poll.SaleOf, Poll.Paid, Poll.Keys;
  }

  lemma LocalTick(p: Poll, b: Books, c: Books)
    requires p.scale > 0 && LooksSame(p, b, c)
    ensures p.Payable(b) == p.Payable(c)
    ensures p.NewRows(b, p.Payable(b)) == p.NewRows(c, p.Payable(c))
    ensures p.NewSales(b, p.Payable(b)) == p.NewSales(c, p.Payable(c))
    ensures forall s :: p.ClosedBy(b, p.Payable(b), s) == p.ClosedBy(c, p.Payable(c), s)
  {
    hide Poll.Keys, Poll.Paid, Poll.NewRows, Poll.NewSales;
    LocalPayable(p, b, c);
    LocalSales(p, b, c);
  }

  /** The part of a tick that concerns the orders of its own rail. */
  ghost predicate Survives(p: Poll, b: Books, s: Slot)
    requires p.scale > 0 && s in b.pending
  {
    !p.ClosedBy(b, p.Payable(b), s) && !p.Reaped(s, p.Marked(s, b.pending[s], |p.inbounds|))
  }

  lemma TickPending(p: Poll, b: Books, s: Slot)
    requires p.scale > 0
    ensures s in p.Tick(b).pending <==> s in b.pending && Survives(p, b, s)
    ensures s in p.Tick(b).pending ==> p.Tick(b).pending[s] == p.Marked(s, b.pending[s], |p.inbounds|)
  {
  }

  lemma TickRows(p: Poll, b: Books)
    requires p.scale > 0
    ensures p.Tick(b).outbox == b.outbox + p.NewRows(b, p.Payable(b))
    ensures p.Tick(b).revenue == b.revenue + Bag(p.NewSales(b, p.Payable(b)))
  {
  }

  /** What a tick of another rail, with other keys, leaves for rail p is what it found. */
  lemma LooksSameAfter(p: Poll, q: Poll, b: Books)
    requires p.scale > 0 && q.scale > 0 && p.rail != q.rail
    requires forall t, u :: t in p.inbounds && u in q.inbounds ==> t.key != u.key
    ensures LooksSame(p, b, q.Tick(b))
  {
    hide Poll.Tick, Poll.NewRows;
    forall s: Slot | s.rail == p.rail
      ensures s in b.pending <==> s in q.Tick(b).pending
      ensures s in b.pending ==> b.pending[s] == q.Tick(b).pending[s]
    {
      OtherRailUntouched(q, b, s);
    }
    TickRows(q, b);
    forall t | t in p.inbounds ensures t.key !in q.NewRows(b, q.Payable(b)) {
      NotOurKey(q, b, t.key);
    }
  }

  lemma NotOurKey(q: Poll, b: Books, k: Key)
    requires q.scale > 0 && forall u :: u in q.inbounds ==> u.key != k
    ensures k !in q.NewRows(b, q.Payable(b))
  {
    KeysMeaning(q, b, k);
  }

  /** Ticks of two rails with different idempotency keys commute. */
  lemma RailsCommute(p: Poll, q: Poll, b: Books)
    requires p.scale > 0 && q.scale > 0 && p.rail != q.rail
    requires forall t, u :: t in p.inbounds && u in q.inbounds ==> t.key != u.key
    ensures q.Tick(p.Tick(b)) == p.Tick(q.Tick(b))
  {
    hide Poll.Tick, Poll.NewRows, Poll.NewSales, LooksSame;
    var bp, bq := p.Tick(b), q.Tick(b);
    LooksSameAfter(p, q, b);
    LooksSameAfter(q, p, b);
    LocalTick(p, b, bq);
    LocalTick(q, b, bp);
    TickRows(p, b);
    TickRows(q, b);
    TickRows(p, bq);
    TickRows(q, bp);
    DisjointRows(p, q, b);
    assert q.Tick(bp).outbox == p.Tick(bq).outbox;
    assert q.Tick(bp).revenue == p.Tick(bq).revenue;
    assert q.Tick(bp).pending == p.Tick(bq).pending by {
      forall s ensures s in q.Tick(bp).pending <==> s in p.Tick(bq).pending
        ensures s in q.Tick(bp).pending ==> q.Tick(bp).pending[s] == p.Tick(bq).pending[s]
      {
        SamePending(p, q, b, s);
      }
    }
  }

  lemma DisjointRows(p: Poll, q: Poll, b: Books)
    requires p.scale > 0 && q.scale > 0
    requires forall t, u :: t in p.inbounds && u in q.inbounds ==> t.key != u.key
    ensures p.NewRows(b, p.Payable(b)).Keys !! q.NewRows(b, q.Payable(b)).Keys
  {
    forall k | k in p.NewRows(b, p.Payable(b)) ensures k !in q.NewRows(b, q.Payable(b)) {
      KeysMeaning(p, b, k);
      NotOurKey(q, b, k);
    }
  }

  lemma SamePending(p: Poll, q: Poll, b: Books, s: Slot)
    requires p.scale > 0 && q.scale > 0 && p.rail != q.rail
    requires forall t, u :: t in p.inbounds && u in q.inbounds ==> t.key != u.key
    ensures s in q.Tick(p.Tick(b)).pending <==> s in p.Tick(q.Tick(b)).pending
    ensures s in q.Tick(p.Tick(b)).pending ==> q.Tick(p.Tick(b)).pending[s] == p.Tick(q.Tick(b)).pending[s]
  {
    hide Poll.Tick, Poll.NewRows, Poll.NewSales, LooksSame, Poll.ClosedBy;
    var bp, bq := p.Tick(b), q.Tick(b);
    if s.rail == p.rail {
      OwnRail(p, q, b, s);
    } else if s.rail == q.rail {
      OwnRail(q, p, b, s);
    } else {
      OtherRailUntouched(p, b, s);
      OtherRailUntouched(q, b, s);
      OtherRailUntouched(q, bp, s);
      OtherRailUntouched(p, bq, s);
    }
  }

  lemma OwnRail(p: Poll, q: Poll, b: Books, s: Slot)
    requires p.scale > 0 && q.scale > 0 && p.rail != q.rail && s.rail == p.rail
    requires forall t, u :: t in p.inbounds && u in q.inbounds ==> t.key != u.key
    ensures s in q.Tick(p.Tick(b)).pending <==> s in p.Tick(q.Tick(b)).pending
    ensures s in q.Tick(p.Tick(b)).pending ==> q.Tick(p.Tick(b)).pending[s] == p.Tick(q.Tick(b)).pending[s]
  {
    hide Poll.Tick, Poll.NewRows, Poll.NewSales, LooksSame, Poll.ClosedBy;
    var bp, bq := p.Tick(b), q.Tick(b);
    OtherRailUntouched(q, bp, s);
    OtherRailUntouched(q, b, s);
    LooksSameAfter(p, q, b);
    LocalTick(p, b, bq);
    TickPending(p, b, s);
    TickPending(p, bq, s);
  }

  // ---- Paid orders are not lost ----

  /** The credit of an amount received: for the owner of the order, in proportion. */
  predicate RowFits(row: Row, o: Order, amount: nat, now: int) {
    && row.hash == o.hash && Proportional(row.micros, o.credit, o.expected, amount)
    && row.created == now && row.acked.None?
  }

  /** A final deposit to an open order is enqueued, even in the very tick in which the order passes the backstop. */
  lemma FinalDepositEnqueued(p: Poll, b: Books, i: nat)
    requires p.scale > 0 && i < |p.inbounds| && KeyDeterminesIndex(p.inbounds)
    requires p.Creditable(b, p.inbounds[i]) && b.pending[p.Receives(p.inbounds[i].index)].expected > 0
    ensures p.inbounds[i].key in p.Tick(b).outbox
    ensures p.Receives(p.inbounds[i].index) !in p.Tick(b).pending
    ensures p.inbounds[i].key !in b.outbox ==>
              RowFits(p.Tick(b).outbox[p.inbounds[i].key], b.pending[p.Receives(p.inbounds[i].index)],
                      Total(p, b, p.inbounds[i].key, p.inbounds), p.now)
  {
    var k := p.inbounds[i].key;
    assert k in p.Keys(b, |p.inbounds|);
    IndexMeaning(p, b, |p.inbounds|, k);
    assert p.Paid(b, k) == p.Receives(p.inbounds[i].index);
    AmountIsTotal(p, b, |p.inbounds|, k);
    assert p.inbounds[..|p.inbounds|] == p.inbounds;
    assert k in p.Payable(b);
    assert p.ClosedBy(b, p.Payable(b), p.Receives(p.inbounds[i].index));
    var o, amount := b.pending[p.Paid(b, k)], p.AmountOf(b, |p.inbounds|, k);
    ShareIff(o.credit, o.expected, amount, ShareOf(o.credit, o.expected, amount));
  }

  /** Nothing else is ever enqueued. */
  lemma OnlyFinalDepositsEnqueued(p: Poll, b: Books, k: Key)
    requires p.scale > 0 && k !in b.outbox && k in p.Tick(b).outbox
    ensures exists t ::
              t in p.inbounds && t.key == k && p.Creditable(b, t) && b.pending[p.Receives(t.index)].expected > 0
  {
    TickRows(p, b);
    IndexMeaning(p, b, |p.inbounds|, k);
    var i :| 0 <= i < |p.inbounds| && p.Creditable(b, p.inbounds[i]) && p.inbounds[i].key == k
             && p.inbounds[i].index == p.IndexOf(b, |p.inbounds|, k);
    assert p.inbounds[i] in p.inbounds;
  }

  // ---- Pay once ----

  /** In this tick at most one new credit is enqueued for the order. */
  ghost predicate PaidOnce(p: Poll, b: Books, s: Slot)
    requires p.scale > 0
  {
    forall j, k | j in p.NewRows(b, p.Payable(b)) && k in p.NewRows(b, p.Payable(b)) ::
      p.Paid(b, j) == s && p.Paid(b, k) == s ==> j == k
  }

  /** The report pays no order through two keys. */
  ghost predicate IndexDeterminesKey(ts: seq<Inbound>) {
    forall i, j :: 0 <= i < |ts| && 0 <= j < |ts| && ts[i].final && ts[j].final && ts[i].index == ts[j].index ==>
                     ts[i].key == ts[j].key
  }

  /** Two keys pay the order in this tick: final outputs to it carry them, both are new, and it expects an amount. */
  ghost predicate PaidByTwo(p: Poll, b: Books, s: Slot) {
    && s.rail == p.rail && s in b.pending && b.pending[s].expected > 0
    && exists t, u ::
         && t in p.inbounds && u in p.inbounds && t.final && u.final && t.index == s.index && u.index == s.index
         && t.key != u.key && t.key !in b.outbox && u.key !in b.outbox
  }

  /** For each store and order: the order is credited more than once in a tick exactly when two new keys pay it. */
  lemma PaidOnceAt(p: Poll, b: Books, s: Slot)
    requires p.scale > 0 && KeyDeterminesIndex(p.inbounds)
    ensures PaidOnce(p, b, s) <==> !PaidByTwo(p, b, s)
  {
    if PaidByTwo(p, b, s) {
      var t, u :| t in p.inbounds && u in p.inbounds && t.final && u.final && t.index == s.index && u.index == s.index
                  && t.key != u.key && t.key !in b.outbox && u.key !in b.outbox;
      NewKeyPays(p, b, s, t);
      NewKeyPays(p, b, s, u);
      hide Poll.NewRows, Poll.Payable, Poll.Keys;
    }
    forall j, k | j in p.NewRows(b, p.Payable(b)) && k in p.NewRows(b, p.Payable(b))
                  && p.Paid(b, j) == s && p.Paid(b, k) == s && j != k
      ensures PaidByTwo(p, b, s)
    {
      var t, u := PayingOutput(p, b, s, j), PayingOutput(p, b, s, k);
    }
  }

  lemma NewKeyPays(p: Poll, b: Books, s: Slot, t: Inbound)
    requires p.scale > 0 && KeyDeterminesIndex(p.inbounds) && t in p.inbounds && t.final && t.key !in b.outbox
    requires s == p.Receives(t.index) && s in b.pending && b.pending[s].expected > 0
    ensures t.key in p.NewRows(b, p.Payable(b)) && p.Paid(b, t.key) == s
  {
    var i :| 0 <= i < |p.inbounds| && p.inbounds[i] == t;
    PaysItsSlot(p, b, i);
  }

  /** A final output behind a new row. */
  ghost function PayingOutput(p: Poll, b: Books, s: Slot, k: Key): (t: Inbound)
    requires p.scale > 0 && k in p.NewRows(b, p.Payable(b)) && p.Paid(b, k) == s
    ensures t in p.inbounds && t.final && t.key == k && s == p.Receives(t.index)
    ensures s in b.pending && b.pending[s].expected > 0 && k !in b.outbox
  {
    IndexMeaning(p, b, |p.inbounds|, k);
    var i :| 0 <= i < |p.inbounds| && p.Creditable(b, p.inbounds[i]) && p.inbounds[i].key == k
             && p.inbounds[i].index == p.IndexOf(b, |p.inbounds|, k);
    p.inbounds[i]
  }

  /** So an order is credited once per tick, whatever the store holds, exactly when the report itself names one key for
      each order: the snapshot of open orders closes nothing to the keys that follow. */
  lemma PaidOnceIff(p: Poll)
    requires p.scale > 0 && KeyDeterminesIndex(p.inbounds)
    ensures (forall b: Books, s: Slot :: PaidOnce(p, b, s)) <==> IndexDeterminesKey(p.inbounds)
  {
    if IndexDeterminesKey(p.inbounds) {
      forall b: Books, s: Slot ensures PaidOnce(p, b, s) {
        PaidOnceAt(p, b, s);
        OneKeyPays(p, b, s);
      }
    } else {
      var ts := p.inbounds;
      var i, j :| 0 <= i < |ts| && 0 <= j < |ts| && ts[i].final && ts[j].final && ts[i].index == ts[j].index
                  && ts[i].key != ts[j].key;
      TwoKeysPay(p, i, j);
    }
  }

  lemma OneKeyPays(p: Poll, b: Books, s: Slot)
    requires IndexDeterminesKey(p.inbounds)
    ensures !PaidByTwo(p, b, s)
  {
  }

  /** Both credits are enqueued, each with the share of its own key: the order is paid twice. */
  lemma TwoKeysPay(p: Poll, i: nat, j: nat)
    requires p.scale > 0 && KeyDeterminesIndex(p.inbounds) && i < |p.inbounds| && j < |p.inbounds|
    requires var t, u := p.inbounds[i], p.inbounds[j]; t.final && u.final && t.index == u.index && t.key != u.key
    ensures var s, b := p.Receives(p.inbounds[i].index), OneOrder(p.Receives(p.inbounds[i].index));
            && !PaidOnce(p, b, s)
            && p.inbounds[i].key in p.Tick(b).outbox && p.inbounds[j].key in p.Tick(b).outbox
            && forall k :: k in {p.inbounds[i].key, p.inbounds[j].key} ==>
                 RowFits(p.Tick(b).outbox[k], b.pending[s], Total(p, b, k, p.inbounds), p.now)
  {
    hide Poll.Tick, Poll.Keys, Poll.AmountOf, Poll.IndexOf, RowFits;
    var s := p.Receives(p.inbounds[i].index);
    var b := OneOrder(s);
    PaysItsSlot(p, b, i);
    PaysItsSlot(p, b, j);
    FinalDepositEnqueued(p, b, i);
    FinalDepositEnqueued(p, b, j);
    TickRows(p, b);
  }

  lemma PaysItsSlot(p: Poll, b: Books, i: nat)
    requires i < |p.inbounds| && KeyDeterminesIndex(p.inbounds) && p.Creditable(b, p.inbounds[i])
    ensures p.inbounds[i].key in p.Keys(b, |p.inbounds|)
    ensures p.Paid(b, p.inbounds[i].key) == p.Receives(p.inbounds[i].index)
  {
    assert p.inbounds[i].key in p.Keys(b, |p.inbounds|);
    IndexMeaning(p, b, |p.inbounds|, p.inbounds[i].key);
  }

  /** A store with a single open order. */
  function OneOrder(s: Slot): Books {
    Books(map[s := Order("", "h", 1, 1, 0, 1.0, None)], map[], multiset{})
  }

  /** Two transactions that each pay the whole of one open order, seen in one tick: both are credited in full. */
  lemma TwoPaymentsOneOrder()
    ensures var p := Poll("r", [Inbound(7, "a", 1, true), Inbound(7, "b", 1, true)], 0, "r", 1, 1, None);
            var b := OneOrder(Slot("r", 7));
            && "a" in p.Tick(b).outbox && p.Tick(b).outbox["a"] == Row("h", 1, 0, None)
            && "b" in p.Tick(b).outbox && p.Tick(b).outbox["b"] == Row("h", 1, 0, None)
  {
    hide Poll.Tick;
    var p := Poll("r", [Inbound(7, "a", 1, true), Inbound(7, "b", 1, true)], 0, "r", 1, 1, None);
    var b := OneOrder(Slot("r", 7));
    TwoKeysPay(p, 0, 1);
    FullShare();
    assert p.inbounds[..1] == [p.inbounds[0]];
    assert Total(p, b, "a", p.inbounds) == 1 && Total(p, b, "b", p.inbounds) == 1;
  }

  lemma FullShare()
    ensures ShareOf(1, 1, 1) == 1
  {
  }

  /** The only two ways in which a tick may drop an order that somebody has been seen paying. */
  ghost predicate DroppedRightly(p: Poll, b: Books, s: Slot)
    requires s in b.pending && p.scale > 0
  {
    || (exists k :: k in p.Payable(b) && p.Paid(b, k) == s && k in p.Tick(b).outbox)
    || (s.rail == p.rail && b.pending[s].created < p.now - p.backstop)
  }

  lemma SightedSurvivesTick(p: Poll, b: Books, s: Slot)
    requires p.scale > 0 && s in b.pending
    requires b.pending[s].seen.Some? || p.Sighted(s, |p.inbounds|)
    ensures s in p.Tick(b).pending ==> p.Tick(b).pending[s].seen.Some?
    ensures s !in p.Tick(b).pending ==> DroppedRightly(p, b, s)
  {
    TickPending(p, b, s);
    TickRows(p, b);
    if p.ClosedBy(b, p.Payable(b), s) {
      var k :| k in p.Payable(b) && p.Paid(b, k) == s;
      assert k in b.outbox || k in p.NewRows(b, p.Payable(b));
    }
  }

  /** Everything that happens to the payments store: ticks, new orders, acknowledgements, restarts. */
  datatype Event =
    | Polled(poll: Poll)
    | Bought(slot: Slot, order: Order, maxOpen: nat)
    | Acked(key: Key, at: int)
    | Restarted

  ghost function Apply(b: Books, e: Event): Books {
    match e
    case Polled(p) => if p.scale > 0 then p.Tick(b) else b
    case Bought(slot, order, maxOpen) => TryAdd(b, slot, order, maxOpen).0
    case Acked(key, at) => Ack(b, key, at)
    case Restarted => Rearm(b)
  }

  ghost function Live(b: Books, es: seq<Event>): Books
    decreases |es|
  {
    if es == [] then b else Live(Apply(b, es[0]), es[1..])
  }

  ghost predicate DropsRightly(b: Books, es: seq<Event>, s: Slot, i: nat) {
    && i < |es| && es[i].Polled? && es[i].poll.scale > 0
    && s in Live(b, es[..i]).pending
    && DroppedRightly(es[i].poll, Live(b, es[..i]), s)
  }

  /** Across any number of ticks and restarts: once an inbound of an order is on record, the order is gone only if a
      tick settled it into the outbox or it passed the absolute backstop; the unfunded reap never takes it. */
  lemma {:induction false} SightedSurvives(b: Books, es: seq<Event>, s: Slot)
    requires s in b.pending && b.pending[s].seen.Some? && s !in Live(b, es).pending
    ensures exists i: nat :: DropsRightly(b, es, s, i)
    decreases |es|
  {
    hide Poll.Tick, DroppedRightly;
    var c := Apply(b, es[0]);
    if s in c.pending {
      SightingKept(b, es[0], s);
      SightedSurvives(c, es[1..], s);
      var i: nat :| DropsRightly(c, es[1..], s, i);
      assert es[..i + 1][1..] == es[1..][..i];
      assert DropsRightly(b, es, s, i + 1);
    } else {
      SightingKept(b, es[0], s);
      assert es[..0] == [];
      assert DropsRightly(b, es, s, 0);
    }
  }

  lemma SightingKept(b: Books, e: Event, s: Slot)
    requires s in b.pending && b.pending[s].seen.Some?
    ensures s in Apply(b, e).pending ==> Apply(b, e).pending[s].seen.Some?
    ensures s !in Apply(b, e).pending ==> e.Polled? && e.poll.scale > 0 && DroppedRightly(e.poll, b, s)
  {
    hide Poll.Tick, DroppedRightly;
    if e.Polled? && e.poll.scale > 0 {
      SightedSurvivesTick(e.poll, b, s);
    }
  }
}
