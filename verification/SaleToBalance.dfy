/** A sale goes through: from every reachable state of the two stores, a fresh order that is paid ends up on the balance
    of the token it was bought for (core/src/endpoints/buy.ts, core/src/ledger/settle.ts, core/src/credit-sender.ts,
    core/src/credit-server.ts). */
module SaleToBalance {
  import opened Wrappers
  import opened Ledger
  import LedgerAnswers
  import opened Orders
  import opened Settlement
  import opened Quote
  import opened TickMeaning
  import opened Crossing

  /** A token hash as /buy and the credit endpoint demand it: 64 hexadecimal digits in lower case. */
  predicate TokenHash(h: Hash) {
    |h| == 64 && forall i :: 0 <= i < 64 ==> h[i] in "0123456789abcdef"
  }

  lemma TokenHashIff(h: Hash)
    ensures ValidHash(h) <==> TokenHash(h)
  {
    forall c: char ensures HexDigit(c) <==> c in "0123456789abcdef" {
      HexDigitIff(c);
    }
  }

  lemma HexDigitIff(c: char)
    ensures HexDigit(c) <==> c in "0123456789abcdef"
  {
  }

  /** The receiver refuses a message exactly for its hash, its amount or its key. */
  lemma AcceptableIff(m: Message)
    ensures Acceptable(m) <==> TokenHash(m.hash) && 0 <= m.micros <= 9007199254740991 && 1 <= |m.key| <= 200
  {
    TokenHashIff(m.hash);
    hide TokenHash, ValidHash;
  }

  /** One order, one poll that sees it paid in one final output, one send: five moves. */
  function Sale(slot: Slot, order: Order, maxOpen: nat, p: Poll, t: Inbound, m: int, at: int): seq<Move> {
    [Buy(slot, order, maxOpen), Tick(p), Send(t.key), Deliver(Message(order.hash, m, t.key)), Acknowledge(t.key, at)]
  }

  /** What a poll makes of it. */
  lemma PaidOrder(b: Books, slot: Slot, order: Order, p: Poll, t: Inbound, m: int)
    requires p.scale > 0 && p.rail == slot.rail && p.inbounds == [t] && t.final && t.index == slot.index
    requires t.key !in b.outbox && slot in b.pending && b.pending[slot] == order
    requires order.expected > 0 && Proportional(m, order.credit, order.expected, t.amount)
    ensures t.key in p.Tick(b).outbox && p.Tick(b).outbox[t.key] == Row(order.hash, m, p.now, None)
    ensures slot !in p.Tick(b).pending
  {
    assert CountsAt(p, b, 0, t.key) && PaysAt(p, b, 0, t.key);
    assert Received(p, b, t.key, 1) == t.amount by {
      assert Received(p, b, t.key, 0) == 0;
    }
    RowsTold(p, b, t.key);
    OrdersTold(p, b, slot);
    ShareIff(order.credit, order.expected, t.amount, m);
    ShareIff(order.credit, order.expected, t.amount, p.Tick(b).outbox[t.key].micros);
    hide Poll.Tick, Proportional, ShareOf, PaysAt, Received;
  }

  lemma CreditedMeansEnqueued(w: World, k: Key)
    requires Inv(w) && k !in w.books.outbox
    ensures k !in w.ledger.applied
  {
  }

  /** The order is taken, the payment settles it in proportion, and the credit reaches the balance; nothing else on the
      ledger changes, and the outbox keeps no trace of the token. */
  lemma SaleGoesThrough(w: World, slot: Slot, order: Order, maxOpen: nat, p: Poll, t: Inbound, m: int, at: int)
    returns (v: World)
    requires Inv(w) && |w.books.pending| < maxOpen && slot !in w.books.pending && t.key !in w.books.outbox
    requires TokenHash(order.hash) && 1 <= |t.key| <= 200 && 0 <= m <= 9007199254740991
    requires p.scale > 0 && p.rail == slot.rail && p.inbounds == [t] && t.final && t.index == slot.index
    requires order.expected > 0 && Proportional(m, order.credit, order.expected, t.amount)
    ensures Runs(w, Sale(slot, order, maxOpen, p, t, m, at), v)
    ensures forall h :: Balanced(v.ledger.tokens, h) == Balanced(w.ledger.tokens, h) + if h == order.hash then m else 0
    ensures v.ledger == w.ledger.(tokens := v.ledger.tokens, applied := w.ledger.applied + {t.key})
    ensures t.key in v.books.outbox && v.books.outbox[t.key] == Row("", 0, p.now, Some(at))
    ensures slot !in v.books.pending
  {
    TokenHashIff(order.hash);
    CreditedMeansEnqueued(w, t.key);
    hide *;
    var message := Message(order.hash, m, t.key);
    AcceptableIff(message);
    var w2 := Ordered(w, slot, order, maxOpen, p, t, m);
    v := Delivered(w2, Row(order.hash, m, p.now, None), message, at);
    FiveMoves(w, Buy(slot, order, maxOpen), Tick(p), Send(t.key), Deliver(message), Acknowledge(t.key, at));
    SaleIs(slot, order, maxOpen, p, t, m, at);
  }

  lemma SaleIs(slot: Slot, order: Order, maxOpen: nat, p: Poll, t: Inbound, m: int, at: int)
    ensures Sale(slot, order, maxOpen, p, t, m, at)
         == [Buy(slot, order, maxOpen), Tick(p), Send(t.key), Deliver(Message(order.hash, m, t.key)),
             Acknowledge(t.key, at)]
  {
  }

  lemma Ordered(w: World, slot: Slot, order: Order, maxOpen: nat, p: Poll, t: Inbound, m: int) returns (v: World)
    requires |w.books.pending| < maxOpen && slot !in w.books.pending && t.key !in w.books.outbox
    requires ValidHash(order.hash)
    requires p.scale > 0 && p.rail == slot.rail && p.inbounds == [t] && t.final && t.index == slot.index
    requires order.expected > 0 && Proportional(m, order.credit, order.expected, t.amount)
    ensures Enabled(w, Buy(slot, order, maxOpen)) && Enabled(Do(w, Buy(slot, order, maxOpen)), Tick(p))
    ensures v == Do(Do(w, Buy(slot, order, maxOpen)), Tick(p))
    ensures t.key in v.books.outbox && v.books.outbox[t.key] == Row(order.hash, m, p.now, None)
    ensures slot !in v.books.pending && v.ledger == w.ledger
  {
    hide ValidHash, Proportional, Poll.Tick, NewMessages;
    var w1 := Do(w, Buy(slot, order, maxOpen));
    PaidOrder(w1.books, slot, order.(seen := None), p, t, m);
    v := Do(w1, Tick(p));
  }

  lemma Delivered(w: World, row: Row, m: Message, at: int) returns (v: World)
    requires m.key in w.books.outbox && w.books.outbox[m.key] == row
    requires row.acked.None? && row.hash == m.hash && row.micros == m.micros
    requires Acceptable(m) && m.key !in w.ledger.applied
    ensures Enabled(w, Send(m.key)) && Enabled(Do(w, Send(m.key)), Deliver(m))
    ensures Enabled(Do(Do(w, Send(m.key)), Deliver(m)), Acknowledge(m.key, at))
    ensures v == Do(Do(Do(w, Send(m.key)), Deliver(m)), Acknowledge(m.key, at))
    ensures v.books == Ack(w.books, m.key, at)
    ensures v.books.pending == w.books.pending
    ensures m.key in v.books.outbox && v.books.outbox[m.key] == Row("", 0, row.created, Some(at))
    ensures v.ledger == w.ledger.(tokens := v.ledger.tokens, applied := w.ledger.applied + {m.key})
    ensures forall h ::
              Balanced(v.ledger.tokens, h) == Balanced(w.ledger.tokens, h) + if h == m.hash then m.micros else 0
  {
    SafeAmount(m);
    hide Acceptable, Next, OutcomeOf;
    var w3 := Do(w, Send(m.key));
    assert RowMessage(w.books, m.key) == m;
    var w4 := Do(w3, Deliver(m));
    LedgerAnswers.CreditAnswers(w3.ledger, Credit(m.hash, m.micros, m.key));
    v := Do(w4, Acknowledge(m.key, at));
  }

  lemma SafeAmount(m: Message)
    requires Acceptable(m)
    ensures m.micros >= 0
  {
  }

  lemma FiveMoves(w: World, a: Move, b: Move, c: Move, d: Move, e: Move)
    requires Enabled(w, a) && Enabled(Do(w, a), b) && Enabled(Do(Do(w, a), b), c)
    requires Enabled(Do(Do(Do(w, a), b), c), d) && Enabled(Do(Do(Do(Do(w, a), b), c), d), e)
    ensures Runs(w, [a, b, c, d, e], Do(Do(Do(Do(Do(w, a), b), c), d), e))
  {
    hide Do, Enabled;
    var v := Do(Do(Do(Do(Do(w, a), b), c), d), e);
    assert [a, b, c, d, e][1..] == [b, c, d, e] && [b, c, d, e][1..] == [c, d, e];
    assert [c, d, e][1..] == [d, e] && [d, e][1..] == [e] && [e][1..] == [];
    assert Runs(v, [], v);
    assert Runs(Do(Do(Do(Do(w, a), b), c), d), [e], v);
    assert Runs(Do(Do(Do(w, a), b), c), [d, e], v);
    assert Runs(Do(Do(w, a), b), [c, d, e], v);
    assert Runs(Do(w, a), [b, c, d, e], v);
  }
}
