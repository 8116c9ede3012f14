/** The payment-to-ledger credit crossing: the durable outbox, an at-least-once sender and an idempotent receiver,
    over a socket that loses, duplicates and delays, with crashes at any point (core/src/ledger/orders.ts,
    core/src/credit-sender.ts, core/src/credit-server.ts, core/src/ledger/db.ts). */
module Crossing {
  import opened Sums
  import opened Ledger
  import LedgerRuns
  import opened Orders
  import opened Settlement
  import SettlementLaws

  datatype Message = Message(hash: Hash, micros: int, key: Key)

  predicate HexDigit(c: char) {
    '0' <= c <= '9' || 'a' <= c <= 'f'
  }

  predicate ValidHash(h: Hash) {
    |h| == 64 && forall i :: 0 <= i < |h| ==> HexDigit(h[i])
  }

  /** The receiver's validation (core/src/credit-wire.ts). */
  predicate Acceptable(m: Message) {
    ValidHash(m.hash) && SafeMicros(m.micros) && 0 < |m.key| <= 200
  }

  /** Both stores, every message ever put on the wire, every key a definite answer was ever given for, and three
      history variables: what each key was enqueued with, what the ledger credited for it, what was charged. */
  datatype World = World(
    books: Books,
    ledger: State,
    wire: set<Message>,
    answers: set<Key>,
    enqueued: map<Key, Message>,
    credited: map<Key, Message>,
    charged: int
  )

  const EMPTY_WORLD := World(Books(map[], map[], multiset{}), EMPTY_STATE, {}, {}, map[], map[], 0)

  datatype Move =
    | Tick(poll: Poll)                                  // a poll tick of some rail
    | Buy(slot: Slot, order: Order, maxOpen: nat)       // a new order, after /buy's validation
    | Send(key: Key)                                    // the sender puts an unacked row on the wire
    | Deliver(message: Message)                         // any message ever sent arrives, perhaps again, perhaps late
    | Acknowledge(key: Key, at: int)                    // a definite answer reaches the sender
    | Restart                                           // the payments process crashes or is restarted
    | Work(request: Request)                            // the proxy's own traffic on the ledger

  ghost predicate Enabled(w: World, move: Move) {
    match move
    case Tick(p) => p.scale > 0
    case Buy(_, order, _) => ValidHash(order.hash)
    case Send(k) => Unacked(w.books, k)
    case Deliver(m) => m in w.wire
    case Acknowledge(k, _) => k in w.answers
    case Restart => true
    case Work(r) => !r.Credit?
  }

  function RowMessage(b: Books, k: Key): Message
    requires k in b.outbox
  {
    Message(b.outbox[k].hash, b.outbox[k].micros, k)
  }

  ghost function NewMessages(b: Books, c: Books): map<Key, Message> {
    map k | k in c.outbox && k !in b.outbox :: RowMessage(c, k)
  }

  ghost function Do(w: World, move: Move): World
    requires Enabled(w, move)
  {
    match move
    case Tick(p) =>
      var c := p.Tick(w.books);
      w.(books := c, enqueued := w.enqueued + NewMessages(w.books, c))
    case Buy(slot, order, maxOpen) => w.(books := TryAdd(w.books, slot, order, maxOpen).0)
    case Send(k) => w.(wire := w.wire + {RowMessage(w.books, k)})
    case Deliver(m) =>
      if !Acceptable(m) then w
      else
        var r := Credit(m.hash, m.micros, m.key);
        w.(ledger := Next(w.ledger, r),
           answers := w.answers + {m.key},
           credited := if OutcomeOf(w.ledger, r) == Applied then w.credited[m.key := m] else w.credited)
    case Acknowledge(k, at) => w.(books := Ack(w.books, k, at))
    case Restart => w.(books := Rearm(w.books))
    case Work(r) =>
      w.(ledger := Next(w.ledger, r),
         charged := w.charged + if OutcomeOf(w.ledger, r) == Settled then r.charge else 0)
  }

  /** A run of enabled moves. */
  ghost predicate Runs(w: World, moves: seq<Move>, v: World)
    decreases |moves|
  {
    if moves == [] then w == v else Enabled(w, moves[0]) && Runs(Do(w, moves[0]), moves[1..], v)
  }

  // ---- The invariant ----

  ghost function Micros(ms: map<Key, Message>): map<Key, int> {
    Mapped(ms, MicrosOf)
  }

  function MicrosOf(m: Message): int {
    m.micros
  }

  function UsdOf(s: Sale): int {
    s.usd
  }

  /** SELECT SUM(usd_micros) FROM revenue. */
  ghost function Booked(b: Books): int {
    BagSum(b.revenue, UsdOf)
  }

  ghost predicate RowsIntact(w: World) {
    && w.books.outbox.Keys == w.enqueued.Keys
    && (forall k :: k in w.enqueued ==> w.enqueued[k].key == k && w.enqueued[k].hash != "")
    && (forall k :: k in w.books.outbox ==>
          RowMessage(w.books, k) == w.enqueued[k]
          || (w.books.outbox[k].Scrubbed() && w.books.outbox[k].micros == 0))
    && (forall s :: s in w.books.pending ==> w.books.pending[s].hash != "")
  }

  ghost predicate CrossedIntact(w: World) {
    && (forall m :: m in w.wire ==> m.key in w.enqueued && w.enqueued[m.key] == m)
    && w.answers <= w.ledger.applied
    && w.credited.Keys == w.ledger.applied
    && (forall k :: k in w.credited ==> k in w.enqueued && w.credited[k] == w.enqueued[k] && Acceptable(w.credited[k]))
    && (forall k :: k in w.books.outbox && w.books.outbox[k].Scrubbed() ==> k in w.ledger.applied)
  }

  ghost predicate MoneyIntact(w: World) {
    && Booked(w.books) == Sum(Micros(w.enqueued))
    && LedgerRuns.Worth(w.ledger) + w.charged == Sum(Micros(w.credited))
  }

  ghost predicate Inv(w: World) {
    LedgerRuns.Inv(w.ledger) && RowsIntact(w) && CrossedIntact(w) && MoneyIntact(w)
  }

  lemma InvEmpty()
    ensures Inv(EMPTY_WORLD)
  {
    assert Micros(map[]) == map[];
    assert Amounts(map[]) == map[];
  }

  // ---- A tick ----

  /** What the crossing needs to know of a tick: rows are only added, unacknowledged and with a payload, and the
      sales booked are worth what the new rows credit. */
  ghost predicate TickEffect(b: Books, c: Books) {
    && (forall k :: k in b.outbox ==> k in c.outbox && c.outbox[k] == b.outbox[k])
    && (forall k :: k in c.outbox && k !in b.outbox ==> c.outbox[k].hash != "" && c.outbox[k].acked.None?)
    && (forall s :: s in c.pending ==> c.pending[s].hash != "")
    && Booked(c) == Booked(b) + Sum(Micros(NewMessages(b, c)))
  }

  lemma TickOutbox(p: Poll, b: Books)
    requires p.scale > 0 && forall s :: s in b.pending ==> b.pending[s].hash != ""
    ensures forall k :: k in b.outbox ==> k in p.Tick(b).outbox && p.Tick(b).outbox[k] == b.outbox[k]
    ensures forall k :: k in p.Tick(b).outbox && k !in b.outbox ==>
              p.Tick(b).outbox[k].hash != "" && p.Tick(b).outbox[k].acked.None?
  {
    hide Poll.Tick;
    SettlementLaws.TickRows(p, b);
    NewRowsPaid(p, b);
  }

  lemma NewRowsPaid(p: Poll, b: Books)
    requires p.scale > 0 && forall s :: s in b.pending ==> b.pending[s].hash != ""
    ensures var rows := p.NewRows(b, p.Payable(b));
            forall k :: k in rows ==> k !in b.outbox && rows[k].hash != "" && rows[k].acked.None?
  {
  }

  lemma TickPendingHashes(p: Poll, b: Books)
    requires p.scale > 0 && forall s :: s in b.pending ==> b.pending[s].hash != ""
    ensures forall s :: s in p.Tick(b).pending ==> p.Tick(b).pending[s].hash != ""
  {
    forall s | s in p.Tick(b).pending ensures p.Tick(b).pending[s].hash != "" {
      SettlementLaws.TickPending(p, b, s);
    }
  }

  lemma SalesMatchRows(p: Poll, b: Books, c: Books)
    requires p.scale > 0 && c.outbox == b.outbox + p.NewRows(b, p.Payable(b))
    ensures Mapped(p.NewSales(b, p.Payable(b)), UsdOf) == Micros(NewMessages(b, c))
  {
  }

  lemma TickBooks(p: Poll, b: Books)
    requires p.scale > 0
    ensures Booked(p.Tick(b)) == Booked(b) + Sum(Micros(NewMessages(b, p.Tick(b))))
  {
    hide Poll.Tick, BagSum, Poll.NewRows, Poll.NewSales;
    SettlementLaws.TickRows(p, b);
    BagSumBag(b.revenue, p.NewSales(b, p.Payable(b)), UsdOf);
    SalesMatchRows(p, b, p.Tick(b));
  }

  lemma TickHasEffect(p: Poll, b: Books)
    requires p.scale > 0 && forall s :: s in b.pending ==> b.pending[s].hash != ""
    ensures TickEffect(b, p.Tick(b))
  {
    hide Poll.Tick, Booked;
    TickOutbox(p, b);
    TickPendingHashes(p, b);
    TickBooks(p, b);
  }

  lemma EnqueuedSum(w: World, b: Books, c: Books)
    requires b.outbox.Keys == w.enqueued.Keys
    ensures Sum(Micros(w.enqueued + NewMessages(b, c))) == Sum(Micros(w.enqueued)) + Sum(Micros(NewMessages(b, c)))
  {
    var m, n := Micros(w.enqueued), Micros(NewMessages(b, c));
    assert Micros(w.enqueued + NewMessages(b, c)) == m + n;
    SumDisjoint(m, n);
  }

  lemma TickKeepsRows(w: World, v: World)
    requires RowsIntact(w) && TickEffect(w.books, v.books)
    requires v.enqueued == w.enqueued + NewMessages(w.books, v.books)
    ensures RowsIntact(v)
  {
    hide Booked, Micros;
    assert NewMessages(w.books, v.books).Keys == v.books.outbox.Keys - w.books.outbox.Keys;
    forall k | k in v.books.outbox
      ensures k in v.enqueued && v.enqueued[k].key == k && v.enqueued[k].hash != ""
      ensures RowMessage(v.books, k) == v.enqueued[k]
              || (v.books.outbox[k].Scrubbed() && v.books.outbox[k].micros == 0)
    {
      if k in w.books.outbox {
        assert k !in NewMessages(w.books, v.books);
      }
    }
  }

  lemma TickKeepsCrossed(w: World, v: World)
    requires RowsIntact(w) && CrossedIntact(w) && TickEffect(w.books, v.books)
    requires v == w.(books := v.books, enqueued := w.enqueued + NewMessages(w.books, v.books))
    ensures CrossedIntact(v)
  {
    hide Booked, Micros;
    forall k | k in w.enqueued ensures k in v.enqueued && v.enqueued[k] == w.enqueued[k] {
      assert k !in NewMessages(w.books, v.books);
    }
  }

  lemma TickKeeps(w: World, p: Poll)
    requires p.scale > 0 && Inv(w)
    ensures Inv(Do(w, Tick(p)))
  {
    hide Poll.Tick, Booked, LedgerRuns.Inv, LedgerRuns.Worth, Micros, TickEffect, CrossedIntact;
    var v := Do(w, Tick(p));
    TickHasEffect(p, w.books);
    TickKeepsRows(w, v);
    TickKeepsCrossed(w, v);
    EnqueuedSum(w, w.books, p.Tick(w.books));
    TickBooks(p, w.books);
  }

  // ---- The other moves ----

  lemma CreditStep(s: State, m: Message)
    requires LedgerRuns.Inv(s) && Acceptable(m)
    ensures var r := Credit(m.hash, m.micros, m.key);
            var t := Next(s, r);
            && LedgerRuns.Inv(t)
            && (OutcomeOf(s, r) == Applied <==> m.key !in s.applied)
            && t.applied == s.applied + {m.key}
            && LedgerRuns.Worth(t) == LedgerRuns.Worth(s) + (if m.key in s.applied then 0 else m.micros)
  {
    var r := Credit(m.hash, m.micros, m.key);
    LedgerRuns.InvStep(s, r);
    LedgerRuns.WorthStep(s, r);
  }

  lemma DeliverKeepsCrossed(w: World, m: Message, t: State)
    requires CrossedIntact(w) && m in w.wire && Acceptable(m) && t.applied == w.ledger.applied + {m.key}
    ensures var credited := if m.key in w.ledger.applied then w.credited else w.credited[m.key := m];
            CrossedIntact(w.(ledger := t, answers := w.answers + {m.key}, credited := credited))
  {
    hide Acceptable;
  }

  lemma DeliverKeepsMoney(w: World, m: Message, t: State)
    requires MoneyIntact(w) && CrossedIntact(w)
    requires LedgerRuns.Worth(t) == LedgerRuns.Worth(w.ledger) + if m.key in w.ledger.applied then 0 else m.micros
    ensures var credited := if m.key in w.ledger.applied then w.credited else w.credited[m.key := m];
            LedgerRuns.Worth(t) + w.charged == Sum(Micros(credited))
  {
    hide LedgerRuns.Worth, Booked;
    if m.key !in w.ledger.applied {
      SumInsert(Micros(w.credited), m.key, m.micros);
      assert Micros(w.credited[m.key := m]) == Micros(w.credited)[m.key := m.micros];
    }
  }

  lemma DeliverKeeps(w: World, m: Message)
    requires Inv(w) && m in w.wire
    ensures Inv(Do(w, Deliver(m)))
  {
    hide Next, OutcomeOf, LedgerRuns.Inv, LedgerRuns.Worth, Booked, CrossedIntact, Micros;
    if Acceptable(m) {
      var t := Next(w.ledger, Credit(m.hash, m.micros, m.key));
      CreditStep(w.ledger, m);
      DeliverKeepsCrossed(w, m, t);
      DeliverKeepsMoney(w, m, t);
    }
  }

  lemma WorkStep(s: State, r: Request)
    requires LedgerRuns.Inv(s) && !r.Credit?
    ensures LedgerRuns.Inv(Next(s, r)) && Next(s, r).applied == s.applied
    ensures LedgerRuns.Worth(Next(s, r)) == LedgerRuns.Worth(s) - if OutcomeOf(s, r) == Settled then r.charge else 0
  {
    WorkKeepsApplied(s, r);
    hide Next, OutcomeOf, LedgerRuns.Inv, LedgerRuns.Worth;
    LedgerRuns.InvStep(s, r);
    LedgerRuns.WorthStep(s, r);
  }

  lemma WorkKeeps(w: World, r: Request)
    requires Inv(w) && !r.Credit?
    ensures Inv(Do(w, Work(r)))
  {
    hide Next, OutcomeOf, LedgerRuns.Inv, LedgerRuns.Worth, Booked;
    WorkStep(w.ledger, r);
  }

  lemma AckKeeps(w: World, move: Move)
    requires Inv(w) && Enabled(w, move) && move.Acknowledge?
    ensures RowsIntact(Do(w, move)) && CrossedIntact(Do(w, move))
  {
    hide LedgerRuns.Inv, MoneyIntact, Acceptable;
  }

  lemma RestartKeeps(w: World)
    requires Inv(w)
    ensures RowsIntact(Do(w, Restart)) && CrossedIntact(Do(w, Restart))
  {
    hide LedgerRuns.Inv, MoneyIntact, Acceptable;
    forall k | k in w.books.outbox
      ensures Rearm(w.books).outbox[k].hash == w.books.outbox[k].hash
      ensures Rearm(w.books).outbox[k].micros == w.books.outbox[k].micros
      ensures Rearm(w.books).outbox[k].Scrubbed() == w.books.outbox[k].Scrubbed()
    {
    }
  }

  lemma BuyKeeps(w: World, move: Move)
    requires Inv(w) && Enabled(w, move) && move.Buy?
    ensures RowsIntact(Do(w, move)) && CrossedIntact(Do(w, move))
  {
    hide LedgerRuns.Inv, MoneyIntact, Acceptable;
  }

  lemma SendKeeps(w: World, move: Move)
    requires Inv(w) && Enabled(w, move) && move.Send?
    ensures RowsIntact(Do(w, move)) && CrossedIntact(Do(w, move))
  {
    hide LedgerRuns.Inv, MoneyIntact, Acceptable;
  }

  lemma BooksOnlyKeeps(w: World, move: Move)
    requires Inv(w) && Enabled(w, move) && (move.Buy? || move.Send? || move.Acknowledge? || move.Restart?)
    ensures Inv(Do(w, move))
  {
    hide LedgerRuns.Inv, LedgerRuns.Worth, Booked, Micros, Enabled, Do, RowsIntact, CrossedIntact;
    BookedKept(w, move);
    match move
    case Buy(_, _, _) => BuyKeeps(w, move);
    case Send(_) => SendKeeps(w, move);
    case Restart => RestartKeeps(w);
    case Acknowledge(_, _) => AckKeeps(w, move);
  }

  lemma BookedKept(w: World, move: Move)
    requires Enabled(w, move) && (move.Buy? || move.Send? || move.Acknowledge? || move.Restart?)
    ensures Booked(Do(w, move).books) == Booked(w.books)
    ensures Do(w, move).ledger == w.ledger && Do(w, move).charged == w.charged
    ensures Do(w, move).enqueued == w.enqueued && Do(w, move).credited == w.credited
  {
    hide BagSum, Next, OutcomeOf, Acceptable, NewMessages, Poll.Tick;
  }

  lemma InvMove(w: World, move: Move)
    requires Inv(w) && Enabled(w, move)
    ensures Inv(Do(w, move))
  {
    hide Inv, Do;
    match move
    case Tick(p) => TickKeeps(w, p);
    case Deliver(m) => DeliverKeeps(w, m);
    case Work(r) => WorkKeeps(w, r);
    case _ => BooksOnlyKeeps(w, move);
  }

  lemma {:induction false} InvRuns(w: World, moves: seq<Move>, v: World)
    requires Inv(w) && Runs(w, moves, v)
    ensures Inv(v)
    decreases |moves|
  {
    if moves != [] {
      InvMove(w, moves[0]);
      InvRuns(Do(w, moves[0]), moves[1..], v);
    }
  }

  // ---- Exactly once ----

  /** What a key was enqueued with, what it was credited with, and its tombstone are for ever. */
  lemma MoveKeeps(w: World, move: Move, k: Key)
    requires Inv(w) && Enabled(w, move)
    ensures k in w.enqueued ==> k in Do(w, move).enqueued && Do(w, move).enqueued[k] == w.enqueued[k]
    ensures k in w.credited ==> k in Do(w, move).credited && Do(w, move).credited[k] == w.credited[k]
    ensures k in w.books.outbox && w.books.outbox[k].Scrubbed() ==>
              k in Do(w, move).books.outbox && Do(w, move).books.outbox[k].Scrubbed()
  {
    hide Poll.Tick, Booked, LedgerRuns.Inv, LedgerRuns.Worth, Micros, Next;
    if move.Tick? {
      TickHasEffect(move.poll, w.books);
    }
    if move.Deliver? && Acceptable(move.message) {
      CreditStep(w.ledger, move.message);
    }
  }

  /** The one move that credits a key: the first acceptable delivery of it. */
  ghost predicate Credits(w: World, move: Move, k: Key) {
    move.Deliver? && Enabled(w, move) && k !in w.credited && k in Do(w, move).credited
  }

  lemma {:induction false} RunKeeps(w: World, moves: seq<Move>, v: World, k: Key)
    requires Inv(w) && Runs(w, moves, v)
    ensures k in w.enqueued ==> k in v.enqueued && v.enqueued[k] == w.enqueued[k]
    ensures k in w.credited ==> k in v.credited && v.credited[k] == w.credited[k]
    ensures k in w.books.outbox && w.books.outbox[k].Scrubbed() ==>
              k in v.books.outbox && v.books.outbox[k].Scrubbed()
    decreases |moves|
  {
    if moves != [] {
      MoveKeeps(w, moves[0], k);
      InvMove(w, moves[0]);
      RunKeeps(Do(w, moves[0]), moves[1..], v, k);
    }
  }

  lemma CreditMoves(w: World, move: Move, k: Key)
    requires Inv(w) && Credits(w, move, k)
    ensures w.enqueued[k] == move.message && move.message.key == k && k in w.enqueued
    ensures Do(w, move).credited == w.credited[k := move.message]
    ensures Do(w, move).ledger.tokens == Credited(w.ledger.tokens, move.message.hash, move.message.micros)
  {
    hide Booked, LedgerRuns.Inv, LedgerRuns.Worth, Micros;
  }

  /** Once a key is credited, no delivery of it, early or late, with any payload, changes the ledger. */
  lemma CreditedIsInert(v: World, m: Message)
    requires Inv(v) && m.key in v.credited && Enabled(v, Deliver(m))
    ensures Do(v, Deliver(m)).ledger == v.ledger
  {
    hide LedgerRuns.Inv, MoneyIntact, RowsIntact;
  }

  /** Under any losses, duplicates, delays and restarts: the delivery that credits a key adds exactly the amount it was
      enqueued with to the hash it was enqueued for, and whatever happens afterwards, no further delivery of that key
      changes the ledger at all. */
  lemma CreditedExactlyOnce(w: World, move: Move, moves: seq<Move>, v: World, k: Key)
    requires Inv(w) && Credits(w, move, k) && Runs(Do(w, move), moves, v)
    ensures k in w.enqueued && w.enqueued[k] == move.message
    ensures Do(w, move).ledger.tokens == Credited(w.ledger.tokens, move.message.hash, move.message.micros)
    ensures k in v.credited && v.credited[k] == move.message
    ensures k in v.enqueued && v.enqueued[k] == move.message
    ensures forall m: Message :: m.key == k && Enabled(v, Deliver(m)) ==> Do(v, Deliver(m)).ledger == v.ledger
  {
    hide Do, Inv;
    CreditMoves(w, move, k);
    InvMove(w, move);
    MoveKeeps(w, move, k);
    RunKeeps(Do(w, move), moves, v, k);
    InvRuns(Do(w, move), moves, v);
    forall m: Message | m.key == k && Enabled(v, Deliver(m)) ensures Do(v, Deliver(m)).ledger == v.ledger {
      CreditedIsInert(v, m);
    }
  }

  /** Only a delivery moves payment money into the ledger: every other move leaves what was credited alone. */
  lemma NothingElseCredits(w: World, move: Move)
    requires Inv(w) && Enabled(w, move) && !move.Deliver?
    ensures Do(w, move).credited == w.credited
    ensures Do(w, move).ledger.applied == w.ledger.applied
  {
    hide LedgerRuns.Inv, LedgerRuns.Worth, RowsIntact, CrossedIntact, MoneyIntact, Poll.Tick, NewMessages;
    if move.Work? {
      WorkKeepsApplied(w.ledger, move.request);
    }
  }

  lemma WorkKeepsApplied(s: State, r: Request)
    requires !r.Credit?
    ensures Next(s, r).applied == s.applied
  {
  }

  /** A row is acknowledged, and so scrubbed, only once the ledger has credited it; it is never queued again. */
  lemma AckedMeansCredited(w: World, moves: seq<Move>, v: World, k: Key)
    requires Inv(w) && Runs(w, moves, v)
    requires k in w.books.outbox && w.books.outbox[k].Scrubbed()
    ensures k in v.credited && k in v.enqueued && v.credited[k] == v.enqueued[k]
    ensures !Unacked(v.books, k)
  {
    InvRuns(w, moves, v);
    RunKeeps(w, moves, v, k);
  }

  // ---- Drained ----

  /** No acknowledged row still carries its payload, as in releases before scrubbing. */
  ghost predicate NoLegacy(w: World) {
    forall k :: k in w.books.outbox && w.books.outbox[k].acked.Some? ==> w.books.outbox[k].hash == ""
  }

  ghost predicate Drained(w: World) {
    forall k :: !Unacked(w.books, k)
  }

  lemma NoLegacyMove(w: World, move: Move)
    requires Inv(w) && Enabled(w, move) && (NoLegacy(w) || move == Restart)
    ensures NoLegacy(Do(w, move))
  {
    hide Poll.Tick, Booked, LedgerRuns.Inv, LedgerRuns.Worth, Micros, Next, OutcomeOf;
    if move.Tick? {
      TickHasEffect(move.poll, w.books);
    }
  }

  /** A restart leaves no legacy row, and none ever comes back. */
  lemma {:induction false} NoLegacyKept(w: World, moves: seq<Move>, v: World)
    requires Inv(w) && Runs(w, moves, v)
    requires NoLegacy(w) || (moves != [] && moves[0] == Restart)
    ensures NoLegacy(v)
    decreases |moves|
  {
    hide Inv, Do;
    if moves != [] {
      InvMove(w, moves[0]);
      NoLegacyMove(w, moves[0]);
      NoLegacyKept(Do(w, moves[0]), moves[1..], v);
    }
  }

  /** The whole path of the money: once the outbox is drained, the balances, the open holds and everything ever
      charged add up to the revenue booked. */
  lemma DrainedConservation(w: World)
    requires Inv(w) && NoLegacy(w) && Drained(w)
    ensures w.credited == w.enqueued
    ensures Sum(w.ledger.tokens) + Held(w.ledger.holds) + w.charged == Booked(w.books)
  {
    forall k | k in w.enqueued ensures k in w.credited && w.credited[k] == w.enqueued[k] {
      assert !Unacked(w.books, k);
    }
    assert w.credited == w.enqueued;
  }

  /** From the empty system, whatever happens. */
  lemma EndToEnd(moves: seq<Move>, v: World)
    requires Runs(EMPTY_WORLD, moves, v) && Drained(v)
    ensures Sum(v.ledger.tokens) + Held(v.ledger.holds) + v.charged == Booked(v.books)
    ensures forall k :: k in v.books.outbox <==> k in v.credited
  {
    InvEmpty();
    InvRuns(EMPTY_WORLD, moves, v);
    NoLegacyKept(EMPTY_WORLD, moves, v);
    DrainedConservation(v);
  }

  /** A queued row the receiver accepts is never stuck: sending it, delivering it and hearing the answer credit it
      and scrub it, from every reachable state. A row it does not accept is never acknowledged. */
  lemma NeverStuck(w: World, k: Key, at: int)
    requires Inv(w) && Unacked(w.books, k)
    ensures var m := RowMessage(w.books, k);
            Acceptable(m) ==>
              && Enabled(w, Send(k))
              && Enabled(Do(w, Send(k)), Deliver(m))
              && Enabled(Do(Do(w, Send(k)), Deliver(m)), Acknowledge(k, at))
              && var v := Do(Do(Do(w, Send(k)), Deliver(m)), Acknowledge(k, at));
                 v.books.outbox[k].Scrubbed() && k in v.credited && v.credited[k] == m
    ensures !Acceptable(w.enqueued[k]) ==> k !in w.answers && k !in w.ledger.applied
  {
    var m := RowMessage(w.books, k);
    assert m == w.enqueued[k];
    if Acceptable(m) {
      InvMove(w, Send(k));
      InvMove(Do(w, Send(k)), Deliver(m));
    }
  }
}
