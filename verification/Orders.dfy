/** The payments store of core/src/ledger/orders.ts: open orders, the credit outbox and the sales book. */
module Orders {
  import opened Wrappers
  import opened Sums
  import opened Ledger

  /** An order is keyed by its rail and that rail's receive index. */
  datatype Slot = Slot(rail: string, index: int)

  datatype Order = Order(
    address: string,
    hash: Hash,
    expected: int,
    credit: int,
    created: int,
    rate: real,
    seen: Option<int>
  )

  /** An outbox row. Acknowledging it scrubs hash and micros. */
  datatype Row = Row(hash: Hash, micros: int, created: int, acked: Option<int>) {
    predicate Scrubbed() {
      acked.Some? && hash == ""
    }
  }

  datatype Sale = Sale(at: int, asset: string, atomic: int, scale: int, usd: int, gross: int)

  /** The tables pending_orders, credit_outbox and revenue; the last has no key of its own. */
  datatype Books = Books(pending: map<Slot, Order>, outbox: map<Key, Row>, revenue: multiset<Sale>)

  datatype AddResult = Added | Full | DuplicateKey

  /** The count-gated insert. The count spans all rails; a taken primary key raises an error. */
  function TryAdd(b: Books, slot: Slot, order: Order, maxOpen: nat): (Books, AddResult) {
    if |b.pending| >= maxOpen then (b, Full)
    else if slot in b.pending then (b, DuplicateKey)
    else (b.(pending := b.pending[slot := order.(seen := None)]), Added)
  }

  /** Write-once: a later sighting of the same order changes nothing. */
  function MarkSeen(b: Books, slot: Slot, at: int): Books {
    if slot in b.pending && b.pending[slot].seen.None? then
      b.(pending := b.pending[slot := b.pending[slot].(seen := Some(at))])
    else b
  }

  /** Enqueue, book and close in one transaction; booked only if newly enqueued, closed in any case. */
  function Commit(b: Books, key: Key, hash: Hash, sale: Sale, slot: Slot): Books {
    var closed := b.(pending := b.pending - {slot});
    if key in b.outbox then closed
    else closed.(outbox := b.outbox[key := Row(hash, sale.usd, sale.at, None)], revenue := Plus(b.revenue, sale))
  }

  function Ack(b: Books, key: Key, at: int): Books {
    if key in b.outbox then b.(outbox := b.outbox[key := Row("", 0, b.outbox[key].created, Some(at))]) else b
  }

  /** Acknowledged rows that still carry their payload are queued again; scrubbed ones never are. */
  function Rearm(b: Books): Books {
    b.(outbox := map k | k in b.outbox ::
         if b.outbox[k].acked.Some? && b.outbox[k].hash != "" then b.outbox[k].(acked := None) else b.outbox[k])
  }

  predicate Unacked(b: Books, key: Key) {
    key in b.outbox && b.outbox[key].acked.None?
  }

  function CreatedAt(b: Books, key: Key): int {
    if key in b.outbox then b.outbox[key].created else 0
  }

  class OrdersStore {
    var pending: map<Slot, Order>
    var outbox: map<Key, Row>
    var revenue: multiset<Sale>

    ghost function Abs(): Books
      reads this
    {
      Books(pending, outbox, revenue)
    }

    constructor ()
      ensures Abs() == Books(map[], map[], multiset{})
    {
      pending, outbox, revenue := map[], map[], multiset{};
    }

    method TryAddOrder(slot: Slot, order: Order, maxOpen: nat) returns (r: AddResult)
      modifies this`pending
      ensures (Abs(), r) == TryAdd(old(Abs()), slot, order, maxOpen)
      ensures r == Added <==> |old(pending)| < maxOpen && slot !in old(pending)
      ensures r == Full <==> |old(pending)| >= maxOpen
      ensures pending == if r == Added then old(pending)[slot := order.(seen := None)] else old(pending)
    {
      if |pending| >= maxOpen {
        return Full;
      }
      if slot in pending {
        return DuplicateKey;
      }
      pending := pending[slot := order.(seen := None)];
      r := Added;
    }

    method OpenOrders(rail: string) returns (rows: map<Slot, Order>)
      ensures rows == map s | s in pending && s.rail == rail :: pending[s]
    {
      rows := map s | s in pending && s.rail == rail :: pending[s];
    }

    /** The answer says whether this was the sighting that stuck. */
    method RecordSighting(slot: Slot, at: int) returns (first: bool)
      modifies this`pending
      ensures Abs() == MarkSeen(old(Abs()), slot, at)
      ensures first <==> slot in old(pending) && old(pending)[slot].seen.None?
      ensures first ==> pending == old(pending)[slot := old(pending)[slot].(seen := Some(at))]
      ensures first <==> pending != old(pending)
    {
      first := slot in pending && pending[slot].seen.None?;
      if first {
        pending := pending[slot := pending[slot].(seen := Some(at))];
      }
    }

    method CommitSettlement(key: Key, hash: Hash, sale: Sale, slot: Slot) returns (isNew: bool)
      modifies this
      ensures Abs() == Commit(old(Abs()), key, hash, sale, slot)
      ensures isNew == (key !in old(outbox))
      ensures pending == old(pending) - {slot}
      ensures isNew ==> outbox == old(outbox)[key := Row(hash, sale.usd, sale.at, None)]
      ensures isNew ==> revenue == old(revenue)[sale := old(revenue)[sale] + 1]
      ensures !isNew ==> outbox == old(outbox) && revenue == old(revenue)
    {
      isNew := key !in outbox;
      if isNew {
        outbox := outbox[key := Row(hash, sale.usd, sale.at, None)];
        revenue := Plus(revenue, sale);
      }
      pending := pending - {slot};
    }

    method RemoveOrder(slot: Slot)
      modifies this`pending
      ensures pending == old(pending) - {slot}
    {
      pending := pending - {slot};
    }

    method PurgeStale(before: int, rail: string)
      modifies this`pending
      ensures pending == map s
                | s in old(pending) && !(s.rail == rail && old(pending)[s].created < before) :: old(pending)[s]
    {
      pending := map s | s in pending && !(s.rail == rail && pending[s].created < before) :: pending[s];
    }

    method AckCredit(key: Key, at: int)
      modifies this`outbox
      ensures Abs() == Ack(old(Abs()), key, at)
      ensures outbox.Keys == old(outbox).Keys
      ensures key in outbox ==> outbox[key] == Row("", 0, old(outbox)[key].created, Some(at))
      ensures forall k :: k in outbox && k != key ==> outbox[k] == old(outbox)[k]
    {
      if key in outbox {
        outbox := outbox[key := Row("", 0, outbox[key].created, Some(at))];
      }
    }

    /** The answer is the number of rows queued again. */
    method RearmLegacyAckedCredits() returns (count: nat)
      modifies this`outbox
      ensures Abs() == Rearm(old(Abs()))
      ensures outbox.Keys == old(outbox).Keys
      ensures forall k :: k in outbox ==>
                outbox[k] == if old(outbox)[k].hash != "" then old(outbox)[k].(acked := None) else old(outbox)[k]
      ensures count == |set k | k in old(outbox) && old(outbox)[k].acked.Some? && old(outbox)[k].hash != ""|
    {
      count := |set k | k in outbox && outbox[k].acked.Some? && outbox[k].hash != ""|;
      outbox := map k | k in outbox ::
        if outbox[k].acked.Some? && outbox[k].hash != "" then outbox[k].(acked := None) else outbox[k];
    }

    /** SELECT … WHERE acked_at IS NULL ORDER BY created_at: every unacked key once, oldest first. */
    method ListUnackedCredits() returns (keys: seq<Key>)
      ensures forall k :: k in keys <==> Unacked(Abs(), k)
      ensures forall i, j :: 0 <= i < j < |keys| ==> keys[i] != keys[j]
      ensures forall i, j :: 0 <= i < j < |keys| ==> CreatedAt(Abs(), keys[i]) <= CreatedAt(Abs(), keys[j])
    {
      var todo := set k | k in outbox && outbox[k].acked.None?;
      keys := [];
      while todo != {}
        invariant forall k :: k in keys || k in todo <==> Unacked(Abs(), k)
        invariant forall k :: k in keys ==> k !in todo
        invariant forall i, j :: 0 <= i < j < |keys| ==> keys[i] != keys[j]
        invariant forall i, j :: 0 <= i < j < |keys| ==> CreatedAt(Abs(), keys[i]) <= CreatedAt(Abs(), keys[j])
        invariant forall i, k :: 0 <= i < |keys| && k in todo ==> CreatedAt(Abs(), keys[i]) <= CreatedAt(Abs(), k)
        decreases todo
      {
        var k := Oldest(todo);
        keys := keys + [k];
        todo := todo - {k};
      }
    }

    method Oldest(keys: set<Key>) returns (k: Key)
      requires keys != {} && keys <= outbox.Keys
      ensures k in keys && forall j :: j in keys ==> CreatedAt(Abs(), k) <= CreatedAt(Abs(), j)
    {
      k :| k in keys;
      var rest := keys - {k};
      while rest != {}
        invariant k in keys && rest <= keys
        invariant forall j :: j in keys - rest ==> CreatedAt(Abs(), k) <= CreatedAt(Abs(), j)
        decreases rest
      {
        var j :| j in rest;
        if outbox[j].created < outbox[k].created {
          k := j;
        }
        rest := rest - {j};
      }
    }
  }
}
