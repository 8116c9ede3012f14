/** The drain loop of core/src/credit-sender.ts, run on the two real stores with everything else that goes on while
    it waits: all it does is a run of the crossing, so all that the crossing guarantees holds of it. */
module CreditSender {
  import opened Wrappers
  import opened Ledger
  import opened Orders
  import opened BalanceStore
  import opened Crossing

  /** What the socket does to one request and its answer. */
  datatype Fate = RequestLost | AnswerLost | AnswerGarbled | ServerError | Arrives

  /** What else happens while a send is awaited: a /buy request places an order, the proxy asks something of the
      ledger, a message sent before arrives late or once more. */
  datatype Event =
    | Placed(slot: Slot, order: Order, maxOpen: nat)
    | Asked(request: Request)
    | Late(i: nat)

  /** One awaited send: its fate and what happens before its request is received and after. */
  datatype Sending = Sending(fate: Fate, before: seq<Event>, after: seq<Event>) {
    predicate Undisturbed() {
      before == [] == after
    }
  }

  // ---- Following the crossing ----

  lemma {:induction false} RunsThen(w: World, moves: seq<Move>, v: World, move: Move)
    requires Runs(w, moves, v) && Enabled(v, move)
    ensures Runs(w, moves + [move], Do(v, move))
    decreases |moves|
  {
    hide Do, Enabled;
    if moves == [] {
      assert Runs(Do(v, move), [], Do(v, move));
      assert ([] + [move])[1..] == [];
    } else {
      RunsThen(Do(w, moves[0]), moves[1..], v, move);
      assert (moves + [move])[1..] == moves[1..] + [move];
    }
  }

  /** The stores are where the run has led. */
  ghost predicate Follows(orders: OrdersStore, ledger: Store, w: World, moves: seq<Move>, v: World)
    reads orders, ledger
  {
    Runs(w, moves, v) && Inv(v) && v.books == orders.Abs() && v.ledger == ledger.Abs()
  }

  /** The outbox and the sales are untouched; wire and answers only grow. */
  ghost predicate OutboxKept(v: World, u: World) {
    && v.books.outbox == u.books.outbox
    && v.books.revenue == u.books.revenue
    && v.wire <= u.wire
    && v.answers <= u.answers
  }

  lemma Along(w: World, moves: seq<Move>, v: World, move: Move)
    requires Runs(w, moves, v) && Inv(v) && Enabled(v, move)
    ensures Runs(w, moves + [move], Do(v, move)) && Inv(Do(v, move))
    ensures move.Buy? || move.Work? || move.Deliver? || move.Send? ==> OutboxKept(v, Do(v, move))
  {
    hide Inv, Runs, Do, Enabled, OutboxKept;
    RunsThen(w, moves, v, move);
    InvMove(v, move);
    if move.Buy? || move.Work? || move.Deliver? || move.Send? {
      MoveKeepsOutbox(v, move);
    }
  }

  lemma MoveKeepsOutbox(v: World, move: Move)
    requires Enabled(v, move) && (move.Buy? || move.Work? || move.Deliver? || move.Send?)
    ensures OutboxKept(v, Do(v, move))
  {
    hide Next, OutcomeOf, Acceptable, ValidHash;
  }

  lemma BuyMove(v: World, slot: Slot, order: Order, maxOpen: nat)
    requires ValidHash(order.hash)
    ensures Enabled(v, Buy(slot, order, maxOpen))
    ensures Do(v, Buy(slot, order, maxOpen)).books == TryAdd(v.books, slot, order, maxOpen).0
    ensures Do(v, Buy(slot, order, maxOpen)).ledger == v.ledger
  {
    hide ValidHash, TryAdd;
  }

  lemma WorkMove(v: World, r: Request)
    requires !r.Credit?
    ensures Enabled(v, Work(r))
    ensures Do(v, Work(r)).books == v.books && Do(v, Work(r)).ledger == Step(v.ledger, r).0
  {
    hide OutcomeOf, Step;
  }

  lemma DeliverMove(v: World, m: Message)
    requires m in v.wire
    ensures Enabled(v, Deliver(m)) && Do(v, Deliver(m)).books == v.books
    ensures Acceptable(m) ==>
              && Do(v, Deliver(m)).ledger == Next(v.ledger, Credit(m.hash, m.micros, m.key))
              && m.key in Do(v, Deliver(m)).answers
    ensures !Acceptable(m) ==> Do(v, Deliver(m)).ledger == v.ledger
  {
    hide Next, OutcomeOf, Acceptable;
  }

  lemma AckMove(v: World, k: Key, at: int)
    requires k in v.answers
    ensures Enabled(v, Acknowledge(k, at)) && Do(v, Acknowledge(k, at)) == v.(books := Ack(v.books, k, at))
  {
  }

  // ---- The receiver and everything else ----

  /** The receiver: a message it does not accept is refused before the ledger is asked. */
  method Receive(ledger: Store, m: Message) returns (r: Option<Outcome>)
    modifies ledger`tokens, ledger`applied
    ensures !Acceptable(m) ==> ledger.Abs() == old(ledger.Abs()) && r.None?
    ensures Acceptable(m) ==> ledger.Abs() == Next(old(ledger.Abs()), Credit(m.hash, m.micros, m.key))
    ensures ledger.applied == old(ledger.applied) + if Acceptable(m) then {m.key} else {}
    ensures Acceptable(m) ==> r == Some(if m.key in old(ledger.applied) then AlreadyApplied else Applied)
  {
    if !Acceptable(m) {
      return None;
    }
    var o := ledger.CreditOnce(m.hash, m.micros, m.key);
    r := Some(o);
  }

  /** One event on the real stores. /buy validates the hash, the proxy's requests are not credits, and only what was
      sent can arrive. */
  method Happen(orders: OrdersStore, ledger: Store, e: Event, sent: seq<Message>,
                ghost w: World, ghost moves: seq<Move>, ghost v: World)
    returns (ghost moves': seq<Move>, ghost u: World)
    requires Follows(orders, ledger, w, moves, v) && forall m :: m in sent ==> m in v.wire
    modifies orders`pending, ledger
    ensures Follows(orders, ledger, w, moves', u) && moves <= moves' && OutboxKept(v, u)
  {
    hide Inv, Runs, Next, Acceptable, ValidHash, TryAdd, Do, Enabled;
    moves', u := moves, v;
    match e {
      case Placed(slot, order, maxOpen) =>
        if ValidHash(order.hash) {
          var _ := orders.TryAddOrder(slot, order, maxOpen);
          BuyMove(v, slot, order, maxOpen);
          Along(w, moves, v, Buy(slot, order, maxOpen));
          moves', u := moves + [Buy(slot, order, maxOpen)], Do(v, Buy(slot, order, maxOpen));
        }
      case Asked(request) =>
        if !request.Credit? {
          var _ := ledger.Serve(request);
          WorkMove(v, request);
          Along(w, moves, v, Work(request));
          moves', u := moves + [Work(request)], Do(v, Work(request));
        }
      case Late(i) =>
        if i < |sent| {
          var _ := Receive(ledger, sent[i]);
          DeliverMove(v, sent[i]);
          Along(w, moves, v, Deliver(sent[i]));
          moves', u := moves + [Deliver(sent[i])], Do(v, Deliver(sent[i]));
        }
    }
  }

  method Meanwhile(orders: OrdersStore, ledger: Store, events: seq<Event>, sent: seq<Message>,
                   ghost w: World, ghost moves: seq<Move>, ghost v: World)
    returns (ghost moves': seq<Move>, ghost u: World)
    requires Follows(orders, ledger, w, moves, v) && forall m :: m in sent ==> m in v.wire
    modifies orders`pending, ledger
    ensures Follows(orders, ledger, w, moves', u) && moves <= moves' && OutboxKept(v, u)
    ensures events == [] ==> u == v
  {
    hide Follows;
    moves', u := moves, v;
    for i := 0 to |events|
      invariant Follows(orders, ledger, w, moves', u) && moves <= moves' && OutboxKept(v, u)
      invariant i == 0 ==> u == v
    {
      moves', u := Happen(orders, ledger, events[i], sent, w, moves', u);
    }
  }

  // ---- One send ----

  /** The moment the ledger received a request: the state it found, and the place of the delivery in the run. */
  datatype Arrival = Arrival(found: World, at: nat)

  ghost predicate ArrivedIn(w: World, moves: seq<Move>, k: Key, a: Arrival) {
    && a.at < |moves|
    && moves[a.at].Deliver?
    && moves[a.at].message.key == k
    && Runs(w, moves[..a.at], a.found)
  }

  /** How many of the keys the ledger had already applied when their request arrived. */
  ghost function CountRepeats(keys: seq<Key>, arrivals: seq<Arrival>): nat
    requires |keys| == |arrivals|
  {
    if keys == [] then 0
    else
      var n := |keys| - 1;
      CountRepeats(keys[..n], arrivals[..n]) + if keys[n] in arrivals[n].found.ledger.applied then 1 else 0
  }

  function Elements(keys: seq<Key>): set<Key> {
    set k | k in keys
  }

  /** Each request found its key applied exactly if it had been from the start. */
  ghost predicate OwnCopiesOnly(applied: set<Key>, keys: seq<Key>, arrivals: seq<Arrival>)
    requires |keys| == |arrivals|
  {
    forall i :: 0 <= i < |keys| ==> (keys[i] in arrivals[i].found.ledger.applied <==> keys[i] in applied)
  }

  lemma OwnNext(applied: set<Key>, keys: seq<Key>, arrivals: seq<Arrival>, k: Key, a: Arrival)
    requires |keys| == |arrivals| && k !in keys
    ensures Elements(keys + [k]) == Elements(keys) + {k}
    ensures OwnCopiesOnly(applied, keys, arrivals) && a.found.ledger.applied == applied + Elements(keys) ==>
              OwnCopiesOnly(applied, keys + [k], arrivals + [a])
  {
  }

  lemma RepeatsNext(keys: seq<Key>, arrivals: seq<Arrival>, k: Key, a: Arrival)
    requires |keys| == |arrivals|
    ensures CountRepeats(keys + [k], arrivals + [a])
         == CountRepeats(keys, arrivals) + if k in a.found.ledger.applied then 1 else 0
  {
    assert (keys + [k])[..|keys|] == keys && (arrivals + [a])[..|keys|] == arrivals;
  }

  lemma ArrivedStill(w: World, moves: seq<Move>, moves': seq<Move>, k: Key, a: Arrival)
    requires ArrivedIn(w, moves, k, a) && moves <= moves'
    ensures ArrivedIn(w, moves', k, a)
  {
    assert moves'[..a.at] == moves[..a.at];
  }

  /** The request travels and is received, unless it is lost. Only an answer that says applied or already_applied is
      definite; a request the receiver refuses to parse, a lost or garbled answer and a server error are all
      ambiguous. */
  method SendOverSocket(ledger: Store, m: Message, fate: Fate, ghost w: World, ghost moves: seq<Move>, ghost v: World)
    returns (r: Option<Outcome>, ghost moves': seq<Move>, ghost u: World)
    requires Runs(w, moves, v) && Inv(v) && v.ledger == ledger.Abs() && m in v.wire
    modifies ledger`tokens, ledger`applied
    ensures fate.RequestLost? || !Acceptable(m) ==> ledger.Abs() == old(ledger.Abs()) && r.None?
    ensures !fate.RequestLost? && Acceptable(m) ==>
              ledger.Abs() == Next(old(ledger.Abs()), Credit(m.hash, m.micros, m.key))
    ensures r.Some? <==> fate.Arrives? && Acceptable(m)
    ensures ledger.applied == old(ledger.applied) + if fate.RequestLost? || !Acceptable(m) then {} else {m.key}
    ensures r.Some? ==> r.value == (if m.key in old(ledger.applied) then AlreadyApplied else Applied)
    ensures Runs(w, moves', u) && Inv(u) && u.books == v.books && u.ledger == ledger.Abs()
    ensures moves <= moves' && OutboxKept(v, u)
    ensures r.Some? ==> m.key in u.answers && ArrivedIn(w, moves', m.key, Arrival(v, |moves|))
  {
    hide Inv, Runs, Next, Acceptable, Do, Enabled;
    r, moves', u := None, moves, v;
    if !fate.RequestLost? {
      var o := Receive(ledger, m);
      r := if fate.Arrives? then o else None;
      DeliverMove(v, m);
      Along(w, moves, v, Deliver(m));
      moves', u := moves + [Deliver(m)], Do(v, Deliver(m));
      assert moves'[..|moves|] == moves;
    }
  }

  /** The keys the drain acknowledged, out of the queue as it found it. */
  ghost predicate Acknowledged(before: Books, after: Books, keys: seq<Key>) {
    && (forall k :: k in keys ==> Unacked(before, k) && !Unacked(after, k))
    && (forall k :: Unacked(after, k) <==> Unacked(before, k) && k !in keys)
    && (forall j, k :: j in keys && Unacked(after, k) ==> CreatedAt(before, j) <= CreatedAt(before, k))
  }

  /** The head of the queue is a row whose delivery is ambiguous: its answer did not come, or the receiver does not
      accept it. */
  ghost predicate StuckAt(b: Books, k: Key, fate: Fate) {
    && Unacked(b, k)
    && (forall j :: Unacked(b, j) ==> CreatedAt(b, k) <= CreatedAt(b, j))
    && (!fate.Arrives? || !Acceptable(RowMessage(b, k)))
  }

  lemma SendMove(v: World, k: Key)
    requires Unacked(v.books, k)
    ensures Enabled(v, Send(k)) && Do(v, Send(k)) == v.(wire := v.wire + {RowMessage(v.books, k)})
  {
  }

  /** One row of the queue: send it, and acknowledge it if the answer is definite. */
  method DrainOne(orders: OrdersStore, ledger: Store, k: Key, s: Sending, sent: seq<Message>, now: int,
                  ghost w: World, ghost moves: seq<Move>, ghost v: World)
    returns (r: Option<Outcome>, ghost moves': seq<Move>, ghost u: World, ghost a: Arrival)
    requires Follows(orders, ledger, w, moves, v) && Unacked(v.books, k)
    requires forall m :: m in sent ==> m in v.wire
    modifies orders`pending, orders`outbox, ledger
    ensures Follows(orders, ledger, w, moves', u) && moves <= moves'
    ensures v.wire <= u.wire && RowMessage(v.books, k) in u.wire && v.answers <= u.answers
    ensures u.books.revenue == v.books.revenue
    ensures r.Some? <==> s.fate.Arrives? && Acceptable(RowMessage(v.books, k))
    ensures r.None? ==> u.books.outbox == v.books.outbox
    ensures r.Some? ==> u.books.outbox == Ack(v.books, k, now).outbox && k in u.answers
    ensures r.Some? ==> ArrivedIn(w, moves', k, a)
    ensures r.Some? && s.Undisturbed() ==>
              a.found.ledger.applied == v.ledger.applied && u.ledger.applied == v.ledger.applied + {k}
    ensures r.Some? ==> r.value == (if k in a.found.ledger.applied then AlreadyApplied else Applied)
  {
    hide Inv, Runs, Next, Acceptable, Do, Enabled, ArrivedIn;
    var m := Message(orders.outbox[k].hash, orders.outbox[k].micros, k);
    SendMove(v, k);
    Along(w, moves, v, Send(k));
    moves', u := moves + [Send(k)], Do(v, Send(k));
    moves', u := Meanwhile(orders, ledger, s.before, sent + [m], w, moves', u);
    a := Arrival(u, |moves'|);
    r, moves', u := SendOverSocket(ledger, m, s.fate, w, moves', u);
    ghost var landed := moves';
    moves', u := Meanwhile(orders, ledger, s.after, sent + [m], w, moves', u);
    if r.Some? {
      ghost var trail, was := moves', u;
      orders.AckCredit(k, now);
      AckMove(was, k, now);
      Along(w, trail, was, Acknowledge(k, now));
      moves', u := trail + [Acknowledge(k, now)], Do(was, Acknowledge(k, now));
      ArrivedStill(w, landed, moves', k, a);
    }
  }

  // ---- The loop ----

  /** Drain the outbox, oldest first; acknowledge only definite answers; stop at the first ambiguous one. Whatever
      happens on the two stores while it waits, the queue changes by its own acknowledgements alone. */
  method Drain(orders: OrdersStore, ledger: Store, script: nat -> Sending, earlier: seq<Message>, now: int,
               ghost w: World)
    returns (delivered: nat, alreadyApplied: nat, blocked: bool,
             ghost acked: seq<Key>, ghost arrivals: seq<Arrival>, ghost moves: seq<Move>, ghost v: World)
    requires Inv(w) && w.books == orders.Abs() && w.ledger == ledger.Abs()
    requires forall m :: m in earlier ==> m in w.wire
    modifies orders`pending, orders`outbox, ledger
    ensures Follows(orders, ledger, w, moves, v)
    ensures Acknowledged(old(orders.Abs()), orders.Abs(), acked)
    ensures delivered == |acked| == |arrivals| && alreadyApplied == CountRepeats(acked, arrivals)
    ensures forall i :: 0 <= i < delivered ==> ArrivedIn(w, moves, acked[i], arrivals[i])
    ensures (forall i :: script(i).Undisturbed()) ==> OwnCopiesOnly(old(ledger.applied), acked, arrivals)
    ensures forall k :: k in acked ==> k in ledger.applied
    ensures blocked <==> exists k :: Unacked(orders.Abs(), k)
    ensures blocked ==> exists k :: StuckAt(orders.Abs(), k, script(delivered).fate)
  {
    hide Inv, Runs, Next, Ack, Unacked, CreatedAt, Acceptable, Acknowledged, Progress, StuckAt, ArrivedIn,
      CountRepeats, OwnCopiesOnly, Elements, Sending.Undisturbed;
    ghost var b, applied, alone := orders.Abs(), ledger.applied, forall i :: script(i).Undisturbed();
    var sent := earlier;
    var keys := orders.ListUnackedCredits();
    delivered, alreadyApplied, blocked, moves, v := 0, 0, false, [], w;
    acked, arrivals := [], [];
    NothingYet(b, keys, w);
    while delivered < |keys|
      invariant 0 <= delivered <= |keys| && acked == keys[..delivered] && |arrivals| == delivered
      invariant Follows(orders, ledger, w, moves, v)
      invariant Progress(b, v.books, keys, delivered)
      invariant forall m :: m in sent ==> m in v.wire
      invariant forall k :: k in acked ==> k in v.answers
      invariant alreadyApplied == CountRepeats(acked, arrivals)
      invariant forall i :: 0 <= i < delivered ==> ArrivedIn(w, moves, acked[i], arrivals[i])
      invariant alone ==> v.ledger.applied == applied + Elements(acked) && OwnCopiesOnly(applied, acked, arrivals)
      decreases |keys| - delivered
    {
      ghost var was, trail := v, moves;
      Head(b, was.books, keys, delivered);
      var k, s := keys[delivered], script(delivered);
      var m := Message(orders.outbox[k].hash, orders.outbox[k].micros, k);
      var r;
      ghost var a;
      r, moves, v, a := DrainOne(orders, ledger, k, s, sent, now, w, moves, v);
      sent := sent + [m];
      StillArrived(w, trail, moves, acked, arrivals);
      if r.None? {
        AnswersApplied(v);
        Stopped(b, was.books, v.books, keys, delivered, s.fate);
        blocked := true;
        return;
      }
      if r.value.AlreadyApplied? {
        alreadyApplied := alreadyApplied + 1;
      }
      Acked(b, was.books, v.books, keys, delivered, now);
      RepeatsNext(acked, arrivals, k, a);
      OwnNext(applied, acked, arrivals, k, a);
      acked, arrivals := acked + [k], arrivals + [a];
      delivered := delivered + 1;
    }
    Finished(b, v.books, keys);
    AnswersApplied(v);
  }

  lemma StillArrived(w: World, moves: seq<Move>, moves': seq<Move>, keys: seq<Key>, arrivals: seq<Arrival>)
    requires |keys| == |arrivals| && moves <= moves'
    requires forall i :: 0 <= i < |keys| ==> ArrivedIn(w, moves, keys[i], arrivals[i])
    ensures forall i :: 0 <= i < |keys| ==> ArrivedIn(w, moves', keys[i], arrivals[i])
  {
    hide ArrivedIn;
    forall i | 0 <= i < |keys| ensures ArrivedIn(w, moves', keys[i], arrivals[i]) {
      ArrivedStill(w, moves, moves', keys[i], arrivals[i]);
    }
  }

  /** The list is the queue, oldest first. */
  ghost predicate Queue(b: Books, keys: seq<Key>) {
    && (forall k :: k in keys <==> Unacked(b, k))
    && (forall i, j :: 0 <= i < j < |keys| ==> keys[i] != keys[j])
    && (forall i, j :: 0 <= i < j < |keys| ==> CreatedAt(b, keys[i]) <= CreatedAt(b, keys[j]))
  }

  /** The first n keys of the list are acknowledged, the others untouched. */
  ghost predicate Progress(b: Books, queue: Books, keys: seq<Key>, n: nat) {
    && n <= |keys|
    && Queue(b, keys)
    && (forall k :: Unacked(queue, k) <==> Unacked(b, k) && k !in keys[..n])
    && (forall k :: CreatedAt(queue, k) == CreatedAt(b, k))
  }

  lemma NothingYet(b: Books, keys: seq<Key>, w: World)
    requires Queue(b, keys)
    ensures Progress(b, b, keys, 0) && CountRepeats([], []) == 0 && Runs(w, [], w)
    ensures Elements([]) == {} && OwnCopiesOnly(w.ledger.applied, [], [])
  {
    hide Unacked, CreatedAt;
  }

  lemma AnswersApplied(w: World)
    requires Inv(w)
    ensures w.answers <= w.ledger.applied
  {
  }

  lemma Head(b: Books, queue: Books, keys: seq<Key>, n: nat)
    requires Progress(b, queue, keys, n) && n < |keys|
    ensures Unacked(queue, keys[n]) && keys[n] in queue.outbox && keys[n] !in keys[..n]
  {
    UnackedRow(queue, keys[n]);
    hide Unacked, CreatedAt;
  }

  lemma AckUnacked(b: Books, k: Key, at: int)
    requires Unacked(b, k)
    ensures forall j :: Unacked(Ack(b, k, at), j) <==> Unacked(b, j) && j != k
    ensures forall j :: CreatedAt(Ack(b, k, at), j) == CreatedAt(b, j)
  {
  }

  /** Only the outbox matters to the queue. */
  lemma SameQueue(b: Books, c: Books)
    requires b.outbox == c.outbox
    ensures forall k :: (Unacked(b, k) <==> Unacked(c, k)) && CreatedAt(b, k) == CreatedAt(c, k)
  {
  }

  lemma Acked(b: Books, queue: Books, after: Books, keys: seq<Key>, n: nat, at: int)
    requires Progress(b, queue, keys, n) && n < |keys| && after.outbox == Ack(queue, keys[n], at).outbox
    ensures Progress(b, after, keys, n + 1)
    ensures keys[..n + 1] == keys[..n] + [keys[n]]
  {
    hide Unacked, CreatedAt, Ack, Queue;
    var k := keys[n];
    assert Unacked(queue, k) by {
      Head(b, queue, keys, n);
    }
    AckUnacked(queue, k, at);
    SameQueue(Ack(queue, k, at), after);
    assert keys[..n + 1] == keys[..n] + [k];
    forall j ensures j in keys[..n + 1] <==> j in keys[..n] || j == k {
    }
  }

  lemma Stopped(b: Books, queue: Books, after: Books, keys: seq<Key>, n: nat, fate: Fate)
    requires Progress(b, queue, keys, n) && n < |keys| && after.outbox == queue.outbox
    requires keys[n] in queue.outbox ==> !(fate.Arrives? && Acceptable(RowMessage(queue, keys[n])))
    ensures Acknowledged(b, after, keys[..n])
    ensures Unacked(after, keys[n]) && StuckAt(after, keys[n], fate)
  {
    Head(b, queue, keys, n);
    SameQueue(queue, after);
    assert RowMessage(queue, keys[n]) == RowMessage(after, keys[n]);
    hide Unacked, CreatedAt, Acceptable, RowMessage;
    StillQueued(b, after, keys, n);
  }

  lemma UnackedRow(b: Books, k: Key)
    requires Unacked(b, k)
    ensures k in b.outbox
  {
  }

  lemma Finished(b: Books, queue: Books, keys: seq<Key>)
    requires Progress(b, queue, keys, |keys|)
    ensures Acknowledged(b, queue, keys) && keys[..|keys|] == keys
    ensures forall k :: !Unacked(queue, k)
  {
    hide Unacked, CreatedAt;
    assert keys[..|keys|] == keys;
    StillQueued(b, queue, keys, |keys|);
  }

  /** With the first n keys acknowledged, the next one heads the queue and is not younger than any left. */
  lemma StillQueued(b: Books, queue: Books, keys: seq<Key>, n: nat)
    requires n <= |keys| && Queue(b, keys)
    requires forall k :: Unacked(queue, k) <==> Unacked(b, k) && k !in keys[..n]
    requires forall k :: CreatedAt(queue, k) == CreatedAt(b, k)
    ensures Acknowledged(b, queue, keys[..n])
    ensures n < |keys| ==> forall j :: Unacked(queue, j) ==> CreatedAt(queue, keys[n]) <= CreatedAt(queue, j)
  {
    hide Unacked, CreatedAt;
    forall j | Unacked(queue, j) ensures exists i :: n <= i < |keys| && keys[i] == j {
      var i :| 0 <= i < |keys| && keys[i] == j;
    }
    forall j, k | j in keys[..n] && Unacked(queue, k) ensures CreatedAt(b, j) <= CreatedAt(b, k) {
      var i :| 0 <= i < n && keys[..n][i] == j;
      var l :| n <= l < |keys| && keys[l] == k;
      assert keys[i] == j;
    }
  }
}
