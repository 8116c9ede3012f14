/** Slot reservation in POST /buy (core/src/endpoints/buy.ts): a count-gated table shared by all processes and, in each
    process, a counter of address creations in flight. Requests interleave at every await. */
module Buy {
  import opened Wrappers
  import opened Orders

  datatype Answer = Quoted(slot: Slot) | BusyTryLater | RateUnavailable | WalletUnavailable | Crashed

  /** Where one request stands: awaiting the rate, awaiting the address with a slot reserved, or answered. */
  datatype Phase = AwaitingRate | Creating | Answered(answer: Answer)

  function AdmitPhase(open: nat, pending: int, maxOpen: nat): Phase {
    if open + pending >= maxOpen then Answered(BusyTryLater) else AwaitingRate
  }

  function ReserveResult(open: nat, pending: int, maxOpen: nat, rate: Option<real>): (int, Phase) {
    if rate.None? || rate.value <= 0.0 then (pending, Answered(RateUnavailable))
    else if open + pending >= maxOpen then (pending, Answered(BusyTryLater))
    else (pending + 1, Creating)
  }

  function FinishResult(b: Books, maxOpen: nat, created: Option<(Slot, Order)>): (Books, Phase) {
    if created.None? then (b, Answered(WalletUnavailable))
    else
      var (c, r) := TryAdd(b, created.value.0, created.value.1, maxOpen);
      (c, match r
          case Added => Answered(Quoted(created.value.0))
          case Full => Answered(BusyTryLater)
          case DuplicateKey => Answered(Crashed))
  }

  // ---- Any number of processes and requests over one table ----

  datatype Request = Request(process: int, phase: Phase)

  datatype Shop = Shop(books: Books, maxOpen: nat, counters: map<int, int>, requests: map<int, Request>) {
    function Counter(process: int): int {
      if process in counters then counters[process] else 0
    }
  }

  datatype Event =
    | Arrives(id: int, process: int)
    | RateArrives(id: int, rate: Option<real>)
    | AddressArrives(id: int, created: Option<(Slot, Order)>)
    | OrdersLeave(slots: set<Slot>)     // settled or reaped by the poller

  predicate Enabled(x: Shop, e: Event) {
    match e
    case Arrives(id, _) => id !in x.requests
    case RateArrives(id, _) => id in x.requests && x.requests[id].phase.AwaitingRate?
    case AddressArrives(id, _) => id in x.requests && x.requests[id].phase.Creating?
    case OrdersLeave(_) => true
  }

  function Do(x: Shop, e: Event): Shop
    requires Enabled(x, e)
  {
    match e
    case Arrives(id, process) =>
      x.(requests := x.requests[id := Request(process, AdmitPhase(|x.books.pending|, x.Counter(process), x.maxOpen))])
    case RateArrives(id, rate) =>
      var process := x.requests[id].process;
      var (pending, phase) := ReserveResult(|x.books.pending|, x.Counter(process), x.maxOpen, rate);
      x.(counters := x.counters[process := pending], requests := x.requests[id := Request(process, phase)])
    case AddressArrives(id, created) =>
      var process := x.requests[id].process;
      var (books, phase) := FinishResult(x.books, x.maxOpen, created);
      x.(books := books, counters := x.counters[process := x.Counter(process) - 1],
         requests := x.requests[id := Request(process, phase)])
    case OrdersLeave(slots) => x.(books := x.books.(pending := x.books.pending - slots))
  }

  // ---- One process, its counter updated in place ----

  /** The handler of one process with its requests. Each method is one block between two awaits, and one event of the
      shop. */
  class Handler {
    const orders: OrdersStore
    const maxOpen: nat
    const process: int
    var pendingCreates: int
    var requests: map<int, Request>

    ghost function Abs(): Shop
      reads this, orders
    {
      Shop(orders.Abs(), maxOpen, map[process := pendingCreates], requests)
    }

    ghost predicate Valid()
      reads this
    {
      forall id :: id in requests ==> requests[id].process == process
    }

    constructor (orders: OrdersStore, maxOpen: nat, process: int)
      ensures this.orders == orders && this.maxOpen == maxOpen && this.process == process
      ensures Valid() && requests == map[] && pendingCreates == 0
    {
      this.orders, this.maxOpen, this.process, this.pendingCreates, this.requests := orders, maxOpen, process, 0, map[];
    }

    /** The cheap pre-check, before the rate is fetched. */
    method OnArrival(id: int)
      requires Valid() && Enabled(Abs(), Arrives(id, process))
      modifies this`requests
      ensures Valid() && Abs() == Do(old(Abs()), Arrives(id, process))
    {
      var busy := |orders.pending| + pendingCreates >= maxOpen;
      requests := requests[id := Request(process, if busy then Answered(BusyTryLater) else AwaitingRate)];
    }

    /** The rate is in: check again and reserve, with no await in between. */
    method OnRate(id: int, rate: Option<real>)
      requires Valid() && Enabled(Abs(), RateArrives(id, rate))
      modifies this`requests, this`pendingCreates
      ensures Valid() && Abs() == Do(old(Abs()), RateArrives(id, rate))
    {
      var phase := Creating;
      if rate.None? || rate.value <= 0.0 {
        phase := Answered(RateUnavailable);
      } else if |orders.pending| + pendingCreates >= maxOpen {
        phase := Answered(BusyTryLater);
      } else {
        pendingCreates := pendingCreates + 1;
      }
      requests := requests[id := Request(process, phase)];
    }

    /** The address is in, or its creation failed: claim the row, and release the reservation in any case. */
    method OnAddress(id: int, created: Option<(Slot, Order)>)
      requires Valid() && Enabled(Abs(), AddressArrives(id, created))
      modifies this`requests, this`pendingCreates, orders`pending
      ensures Valid() && Abs() == Do(old(Abs()), AddressArrives(id, created))
    {
      var phase := Answered(WalletUnavailable);
      if created.Some? {
        var (slot, order) := created.value;
        var r := orders.TryAddOrder(slot, order, maxOpen);
        phase := match r
          case Added => Answered(Quoted(slot))
          case Full => Answered(BusyTryLater)
          case DuplicateKey => Answered(Crashed);
      }
      pendingCreates := pendingCreates - 1;
      requests := requests[id := Request(process, phase)];
    }
  }

  // ---- Every interleaving ----

  /** Before the first request: no reservation, and a table within the cap. */
  ghost predicate Opens(x: Shop) {
    x.requests == map[] && (forall p :: x.Counter(p) == 0) && |x.books.pending| <= x.maxOpen
  }

  ghost predicate Runs(x: Shop, events: seq<Event>, y: Shop)
    decreases |events|
  {
    if events == [] then x == y else Enabled(x, events[0]) && Runs(Do(x, events[0]), events[1..], y)
  }

  /** The requests of a process that hold a reservation. */
  function CreatingIn(x: Shop, process: int): set<int> {
    set id | id in x.requests && x.requests[id] == Request(process, Creating)
  }

  ghost predicate Inv(x: Shop) {
    && (forall p :: x.Counter(p) == |CreatingIn(x, p)|)
    && |x.books.pending| <= x.maxOpen
  }

  lemma Arrival(x: Shop, e: Event)
    requires Inv(x) && Enabled(x, e) && e.Arrives?
    ensures Inv(Do(x, e)) && forall p :: CreatingIn(Do(x, e), p) == CreatingIn(x, p)
  {
    var y := Do(x, e);
    forall p ensures CreatingIn(y, p) == CreatingIn(x, p) && y.Counter(p) == x.Counter(p) {
    }
  }

  lemma CreationBegins(x: Shop, e: Event, p: int)
    requires Enabled(x, e) && e.RateArrives?
    ensures var started := p == x.requests[e.id].process && Do(x, e).requests[e.id].phase.Creating?;
            |CreatingIn(Do(x, e), p)| == |CreatingIn(x, p)| + if started then 1 else 0
  {
    assert e.id !in CreatingIn(x, p);
    if p == x.requests[e.id].process && Do(x, e).requests[e.id].phase.Creating? {
      assert CreatingIn(Do(x, e), p) == CreatingIn(x, p) + {e.id};
    } else {
      assert CreatingIn(Do(x, e), p) == CreatingIn(x, p);
    }
  }

  lemma RateArrival(x: Shop, e: Event)
    requires Inv(x) && Enabled(x, e) && e.RateArrives?
    ensures Inv(Do(x, e))
  {
    hide CreatingIn;
    var y := Do(x, e);
    forall p ensures y.Counter(p) == |CreatingIn(y, p)| {
      CreationBegins(x, e, p);
    }
  }

  lemma CreationEnds(x: Shop, e: Event, p: int)
    requires Enabled(x, e) && e.AddressArrives?
    ensures CreatingIn(Do(x, e), p) == CreatingIn(x, p) - {e.id}
    ensures e.id in CreatingIn(x, p) <==> p == x.requests[e.id].process
  {
  }

  lemma AddressArrival(x: Shop, e: Event)
    requires Inv(x) && Enabled(x, e) && e.AddressArrives?
    ensures Inv(Do(x, e))
  {
    var y := Do(x, e);
    forall p ensures y.Counter(p) == |CreatingIn(y, p)| {
      CreationEnds(x, e, p);
      hide CreatingIn;
    }
  }

  lemma InvStep(x: Shop, e: Event)
    requires Inv(x) && Enabled(x, e)
    ensures Inv(Do(x, e)) && Do(x, e).maxOpen == x.maxOpen
  {
    match e
    case Arrives(_, _) => Arrival(x, e);
    case RateArrives(_, _) => RateArrival(x, e);
    case AddressArrives(_, _) => AddressArrival(x, e);
    case OrdersLeave(slots) =>
      var y := Do(x, e);
      Fewer(x.books.pending, slots);
      forall p ensures CreatingIn(y, p) == CreatingIn(x, p) && y.Counter(p) == x.Counter(p) {
      }
  }

  lemma Fewer(m: map<Slot, Order>, slots: set<Slot>)
    ensures |m - slots| <= |m|
  {
    assert (m - slots).Keys <= m.Keys;
    Cardinality((m - slots).Keys, m.Keys);
  }

  lemma {:induction false} Cardinality<T>(a: set<T>, b: set<T>)
    requires a <= b
    ensures |a| <= |b|
  {
    if a != {} {
      var t :| t in a;
      Cardinality(a - {t}, b - {t});
    }
  }

  lemma {:induction false} InvRuns(x: Shop, events: seq<Event>, y: Shop)
    requires Inv(x) && Runs(x, events, y)
    ensures Inv(y) && y.maxOpen == x.maxOpen
    decreases |events|
  {
    if events != [] {
      InvStep(x, events[0]);
      InvRuns(Do(x, events[0]), events[1..], y);
    }
  }

  /** With any number of processes the table alone stays within the cap, each counter is the number of creations of
      its process in flight, and once they have all been answered every reservation has been released. */
  lemma TableCapped(x: Shop, events: seq<Event>, y: Shop)
    requires Opens(x) && Runs(x, events, y)
    ensures |y.books.pending| <= x.maxOpen
    ensures forall p :: y.Counter(p) == |CreatingIn(y, p)| >= 0
    ensures (forall id :: id in y.requests ==> y.requests[id].phase.Answered?) ==> forall p :: y.Counter(p) == 0
  {
    forall p ensures CreatingIn(x, p) == {} {
    }
    InvRuns(x, events, y);
    if forall id :: id in y.requests ==> y.requests[id].phase.Answered? {
      forall p ensures y.Counter(p) == 0 {
        assert CreatingIn(y, p) == {};
      }
    }
  }

  // ---- One process ----

  ghost predicate OneProcess(events: seq<Event>, process: int) {
    forall i :: 0 <= i < |events| && events[i].Arrives? ==> events[i].process == process
  }

  ghost predicate Alone(x: Shop, process: int) {
    && (forall id :: id in x.requests ==> x.requests[id].process == process)
    && |x.books.pending| + x.Counter(process) <= x.maxOpen
  }

  lemma AloneStep(x: Shop, e: Event, process: int)
    requires Inv(x) && Alone(x, process) && Enabled(x, e) && (e.Arrives? ==> e.process == process)
    ensures Alone(Do(x, e), process)
  {
    if e.OrdersLeave? {
      Fewer(x.books.pending, e.slots);
    }
    if e.AddressArrives? {
      assert e.id in CreatingIn(x, process);
    }
  }

  lemma {:induction false} AloneRuns(x: Shop, events: seq<Event>, y: Shop, process: int)
    requires Inv(x) && Alone(x, process) && OneProcess(events, process) && Runs(x, events, y)
    ensures Inv(y) && Alone(y, process)
    decreases |events|
  {
    hide Inv, Alone, Enabled, Do;
    if events != [] {
      InvStep(x, events[0]);
      AloneStep(x, events[0], process);
      AloneRuns(Do(x, events[0]), events[1..], y, process);
    }
  }

  /** In one process, at every await point, open orders plus creations in flight never exceed the cap; so an address
      that has been created for a fresh index is never refused its row: no minted address is orphaned. */
  lemma NoOrphanedAddress(x: Shop, events: seq<Event>, y: Shop, process: int, id: int, slot: Slot, order: Order)
    requires Opens(x)
    requires OneProcess(events, process) && Runs(x, events, y)
    ensures |y.books.pending| + |CreatingIn(y, process)| <= x.maxOpen
    ensures Enabled(y, AddressArrives(id, Some((slot, order)))) && slot !in y.books.pending ==>
              var z := Do(y, AddressArrives(id, Some((slot, order))));
              && z.requests[id].phase == Answered(Quoted(slot))
              && z.books.pending == y.books.pending[slot := order.(seen := None)]
  {
    forall p ensures CreatingIn(x, p) == {} {
    }
    AloneRuns(x, events, y, process);
    InvRuns(x, events, y);
    if Enabled(y, AddressArrives(id, Some((slot, order)))) {
      assert id in CreatingIn(y, process);
    }
  }

  // ---- Who is turned away, and who gets a row ----

  /** A request passes the pre-check exactly while there is room; and once its rate is in, it gets a reservation exactly
      if that is a rate and there still is room. */
  lemma GateAnswers(x: Shop, id: int, process: int, rate: Option<real>)
    ensures Enabled(x, Arrives(id, process)) ==>
              && (var y := Do(x, Arrives(id, process));
                  && y == x.(requests := y.requests) && y.requests - {id} == x.requests - {id}
                  && y.requests[id].process == process
                  && y.requests[id].phase == if |x.books.pending| + x.Counter(process) < x.maxOpen then AwaitingRate
                                             else Answered(BusyTryLater))
    ensures Enabled(x, RateArrives(id, rate)) ==>
              && (var y, p := Do(x, RateArrives(id, rate)), x.requests[id].process;
                  var phase := y.requests[id].phase;
                  && y.books == x.books && y.maxOpen == x.maxOpen && y.requests - {id} == x.requests - {id}
                  && y.requests[id].process == p
                  && (phase == Creating <==>
                      rate.Some? && rate.value > 0.0 && |x.books.pending| + x.Counter(p) < x.maxOpen)
                  && (phase == Answered(RateUnavailable) <==> rate.None? || rate.value <= 0.0)
                  && (phase == Answered(BusyTryLater) <==>
                      rate.Some? && rate.value > 0.0 && |x.books.pending| + x.Counter(p) >= x.maxOpen)
                  && y.Counter(p) == x.Counter(p) + (if phase == Creating then 1 else 0)
                  && forall q :: q != p ==> y.Counter(q) == x.Counter(q))
  {
    if Enabled(x, Arrives(id, process)) {
      assert Do(x, Arrives(id, process)).requests - {id} == x.requests - {id};
    }
    if Enabled(x, RateArrives(id, rate)) {
      assert Do(x, RateArrives(id, rate)).requests - {id} == x.requests - {id};
    }
  }

  /** A created address gets its row, and the buyer a quote, exactly if the table has room and its index is fresh; the
      reservation is released in every case. */
  lemma AddressAnswers(x: Shop, id: int, created: Option<(Slot, Order)>)
    requires Enabled(x, AddressArrives(id, created))
    ensures var y, p := Do(x, AddressArrives(id, created)), x.requests[id].process;
            && y.requests - {id} == x.requests - {id} && y.requests[id].process == p
            && y.Counter(p) == x.Counter(p) - 1 && (forall q :: q != p ==> y.Counter(q) == x.Counter(q))
            && y.books == x.books.(pending := y.books.pending) && y.maxOpen == x.maxOpen
            && match created
               case None => y.books == x.books && y.requests[id].phase == Answered(WalletUnavailable)
               case Some(pair) =>
                 var (slot, order) := pair;
                 if |x.books.pending| >= x.maxOpen then
                   y.books == x.books && y.requests[id].phase == Answered(BusyTryLater)
                 else if slot in x.books.pending then y.books == x.books && y.requests[id].phase == Answered(Crashed)
                 else
                   && y.books.pending == x.books.pending[slot := order.(seen := None)]
                   && y.requests[id].phase == Answered(Quoted(slot))
  {
    assert Do(x, AddressArrives(id, created)).requests - {id} == x.requests - {id};
  }

  // ---- The pre-check ----

  /** The event makes room: orders leave, or a creation in flight does not end in a row. */
  predicate Frees(x: Shop, e: Event)
    requires Enabled(x, e)
  {
    e.OrdersLeave? || (e.AddressArrives? && !Quotes(Do(x, e).requests[e.id].phase))
  }

  predicate Quotes(p: Phase) {
    p.Answered? && p.answer.Quoted?
  }

  ghost predicate FreesNothing(x: Shop, events: seq<Event>)
    decreases |events|
  {
    events != [] && Enabled(x, events[0]) ==> !Frees(x, events[0]) && FreesNothing(Do(x, events[0]), events[1..])
  }

  predicate FullFor(x: Shop, process: int) {
    |x.books.pending| + x.Counter(process) >= x.maxOpen
  }

  lemma FullStays(x: Shop, e: Event, process: int)
    requires Enabled(x, e) && !Frees(x, e) && FullFor(x, process)
    ensures FullFor(Do(x, e), process)
  {
  }

  lemma {:induction false} FullRuns(x: Shop, events: seq<Event>, y: Shop, process: int)
    requires Runs(x, events, y) && FreesNothing(x, events) && FullFor(x, process)
    ensures FullFor(y, process)
    decreases |events|
  {
    hide Do, Enabled, Frees, FullFor;
    if events != [] {
      FullStays(x, events[0], process);
      FullRuns(Do(x, events[0]), events[1..], y, process);
    }
  }

  /** The pre-check sheds only requests that the reservation gate would shed. Whoever it turns away in state x would
      get no reservation after any run that makes no room, at any rate; and whoever gets one would pass it then. */
  lemma PreCheckShedsOnlyDoomed(x: Shop, events: seq<Event>, y: Shop, process: int, id: int, rate: Option<real>)
    requires Runs(x, events, y) && FreesNothing(x, events)
    requires Enabled(y, RateArrives(id, rate)) && y.requests[id].process == process
    ensures AdmitPhase(|x.books.pending|, x.Counter(process), x.maxOpen).Answered? ==>
              Do(y, RateArrives(id, rate)).requests[id].phase.Answered?
    ensures Do(y, RateArrives(id, rate)).requests[id].phase.Creating? ==>
              AdmitPhase(|y.books.pending|, y.Counter(process), y.maxOpen).AwaitingRate?
  {
    if FullFor(x, process) {
      FullRuns(x, events, y, process);
    }
  }

  // ---- Exactly one process ----

  /** However the given processes interleave, an address created for a fresh index is never refused its row. */
  ghost predicate OrphanFree(processes: set<int>) {
    forall x: Shop, events: seq<Event>, y: Shop, id: int, slot: Slot, order: Order ::
      Opens(x) && ServedBy(events, processes) && Runs(x, events, y) && Minted(y, id, slot, order) ==>
        Listed(y, id, slot, order)
  }

  ghost predicate ServedBy(events: seq<Event>, processes: set<int>) {
    forall i :: 0 <= i < |events| && events[i].Arrives? ==> events[i].process in processes
  }

  ghost predicate Minted(y: Shop, id: int, slot: Slot, order: Order) {
    Enabled(y, AddressArrives(id, Some((slot, order)))) && slot !in y.books.pending
  }

  ghost predicate Listed(y: Shop, id: int, slot: Slot, order: Order)
    requires Minted(y, id, slot, order)
  {
    Do(y, AddressArrives(id, Some((slot, order)))).requests[id].phase == Answered(Quoted(slot))
  }

  /** No minted address is orphaned exactly when a single process serves all requests: the counter of one process
      says nothing of another, and the table then refuses the slower of two. */
  lemma OrphanFreeIff(processes: set<int>)
    ensures OrphanFree(processes) <==> forall p, q :: p in processes && q in processes ==> p == q
  {
    if p, q :| p in processes && q in processes && p != q {
      var first, second := Slot("r", 0), Slot("r", 1);
      var y := Raced(p, q, map[first := QUOTE], (0, 1), (Answered(Quoted(first)), Creating));
      TwoProcessesOrphan(p, q);
      SecondRefused(p, q);
      assert ServedBy(RaceForLastSlot(p, q)[..5], processes);
      assert Minted(y, 1, second, QUOTE) && !Listed(y, 1, second, QUOTE);
    }
    if forall p, q :: p in processes && q in processes ==> p == q {
      forall x: Shop, events: seq<Event>, y: Shop, id: int, slot: Slot, order: Order
        | Opens(x) && ServedBy(events, processes) && Runs(x, events, y) && Minted(y, id, slot, order)
        ensures Listed(y, id, slot, order)
      {
        var process := 0;
        if p :| p in processes {
          process := p;
        }
        hide Runs, Do, Enabled;
        assert OneProcess(events, process);
        NoOrphanedAddress(x, events, y, process, id, slot, order);
      }
    }
  }

  const EMPTY_SHOP := Shop(Books(map[], map[], multiset{}), 1, map[], map[])

  const QUOTE := Order("", "", 1, 1, 0, 1.0, None)

  /** Two processes and one free slot: both requests pass both gates, both addresses are minted, and the second finds
      the table full. */
  function RaceForLastSlot(p: int, q: int): seq<Event> {
    [Arrives(0, p), Arrives(1, q), RateArrives(0, Some(1.0)), RateArrives(1, Some(1.0)),
     AddressArrives(0, Some((Slot("r", 0), QUOTE))), AddressArrives(1, Some((Slot("r", 1), QUOTE)))]
  }

  function Raced(p: int, q: int, pending: map<Slot, Order>, counters: (int, int), phases: (Phase, Phase)): Shop {
    Shop(Books(pending, map[], multiset{}), 1, map[p := counters.0, q := counters.1],
         map[0 := Request(p, phases.0), 1 := Request(q, phases.1)])
  }

  /** The second request is answered busy_try_later although its address has been created for a fresh index. */
  lemma TwoProcessesOrphan(p: int, q: int)
    requires p != q
    ensures Opens(EMPTY_SHOP)
    ensures var first, second := Slot("r", 0), Slot("r", 1);
            && Runs(EMPTY_SHOP, RaceForLastSlot(p, q)[..5],
                    Raced(p, q, map[first := QUOTE], (0, 1), (Answered(Quoted(first)), Creating)))
            && Runs(EMPTY_SHOP, RaceForLastSlot(p, q),
                    Raced(p, q, map[first := QUOTE], (0, 0), (Answered(Quoted(first)), Answered(BusyTryLater))))
  {
    hide Runs, Do, Enabled;
    var race := RaceForLastSlot(p, q);
    BothReserve(p, q);
    FirstListed(p, q);
    SecondRefused(p, q);
    var one, two := Do(Do(EMPTY_SHOP, race[0]), race[1]), Raced(p, q, map[], (1, 1), (Creating, Creating));
    RunsOne(two, race[4]);
    RunsTwo(one, race[2], race[3], [race[4]], Do(two, race[4]));
    RunsTwo(EMPTY_SHOP, race[0], race[1], [race[2], race[3]] + [race[4]], Do(two, race[4]));
    assert race[..5] == [race[0], race[1]] + ([race[2], race[3]] + [race[4]]);
    var end := Do(Do(two, race[4]), race[5]);
    RunsTwo(two, race[4], race[5], [], end);
    RunsTwo(one, race[2], race[3], [race[4], race[5]] + [], end);
    RunsTwo(EMPTY_SHOP, race[0], race[1], [race[2], race[3]] + ([race[4], race[5]] + []), end);
    assert race == [race[0], race[1]] + ([race[2], race[3]] + ([race[4], race[5]] + []));
  }

  lemma BothReserve(p: int, q: int)
    requires p != q
    ensures var e := RaceForLastSlot(p, q);
            && Enabled(EMPTY_SHOP, e[0]) && Enabled(Do(EMPTY_SHOP, e[0]), e[1])
            && var x := Do(Do(EMPTY_SHOP, e[0]), e[1]);
               Enabled(x, e[2]) && Enabled(Do(x, e[2]), e[3])
               && Do(Do(x, e[2]), e[3]) == Raced(p, q, map[], (1, 1), (Creating, Creating))
  {
  }

  lemma FirstListed(p: int, q: int)
    requires p != q
    ensures var x, e, first := Raced(p, q, map[], (1, 1), (Creating, Creating)), RaceForLastSlot(p, q)[4], Slot("r", 0);
            && Enabled(x, e)
            && Do(x, e) == Raced(p, q, map[first := QUOTE], (0, 1), (Answered(Quoted(first)), Creating))
  {
  }

  lemma SecondRefused(p: int, q: int)
    requires p != q
    ensures var first := Slot("r", 0);
            var x := Raced(p, q, map[first := QUOTE], (0, 1), (Answered(Quoted(first)), Creating));
            var e := RaceForLastSlot(p, q)[5];
            && Enabled(x, e)
            && Do(x, e) == Raced(p, q, map[first := QUOTE], (0, 0), (Answered(Quoted(first)), Answered(BusyTryLater)))
  {
  }

  lemma RunsOne(x: Shop, e: Event)
    requires Enabled(x, e)
    ensures Runs(x, [e], Do(x, e))
  {
    hide Do;
    assert [e][1..] == [];
    assert Runs(Do(x, e), [], Do(x, e));
  }

  lemma RunsTwo(x: Shop, e: Event, f: Event, rest: seq<Event>, y: Shop)
    requires Enabled(x, e) && Enabled(Do(x, e), f)
    requires if rest == [] then Do(Do(x, e), f) == y else Runs(Do(Do(x, e), f), rest, y)
    ensures Runs(x, [e, f] + rest, y)
  {
    var all := [e, f] + rest;
    assert all[1..] == [f] + rest && all[1..][1..] == rest;
    assert Runs(Do(Do(x, e), f), rest, y);
    assert Runs(Do(x, e), all[1..], y);
  }
}
