/** The proxy's ledger client (core/src/ledger/client.ts): one operation is retried, byte-identical, over a channel
    that loses requests and answers, until it has a definite answer or its time budget is spent. */
module LedgerClient {
  import opened Wrappers
  import opened Ledger
  import opened LedgerRuns
  import opened LedgerWire
  import opened BalanceStore
  import opened JsValues

  /** How an answer comes back: as sent, lost, as a 5xx raised after the commit, or in a shape nobody recognizes. */
  datatype Delivery = Faithful | Lost | Failed(status: int) | Garbled(body: Js)

  /** One attempt, as the outside world decides it: how late the sleep before it woke, the requests of others that
      reach the ledger first, whether ours does, how its answer fares and how long the attempt lasts. */
  datatype Attempt = Attempt(others: seq<Request>, processed: bool, delivery: Delivery, took: nat, late: nat)

  ghost predicate AllForeign(rs: seq<Request>, q: Request) {
    forall i :: 0 <= i < |rs| ==> rs[i] == q || Foreign(rs[i], q)
  }

  /** While this operation runs, nobody else opens the hold it opens, or settles the hold it settles: only delayed
      copies of the request itself do. Every other request is possible, a late copy of the hold's own open and the
      start of another session among them. */
  predicate Foreign(r: Request, q: Request) {
    (q.Open? && r.Open?) || (q.Settle? && r.Settle?) ==> r.holdId != q.holdId
  }

  /** A 5xx is a 5xx, and garbage is a body the operation does not recognize. */
  predicate Plausible(a: Attempt, q: Request) {
    match a.delivery
    case Failed(status) => status >= 500
    case Garbled(body) => !Recognized(q, body)
    case _ => true
  }

  /** The answer comes back as sent, before the attempt is aborted. */
  predicate GetsThrough(a: Attempt, timeout: int) {
    a.processed && a.delivery.Faithful? && a.took <= timeout
  }

  function Min(a: int, b: int): int {
    if a < b then a else b
  }

  /** The socket, the ledger behind it and the clock. */
  class Channel {
    const store: Store
    const script: nat -> Attempt
    var next: nat
    var clock: nat
    ghost var log: seq<Request>

    constructor (store: Store, script: nat -> Attempt, clock: nat)
      ensures this.store == store && this.script == script && this.clock == clock && log == []
    {
      this.store, this.script, this.next, this.clock, this.log := store, script, 0, clock, [];
    }

    ghost predicate Fits(q: Request) {
      forall n: nat :: Plausible(script(n), q) && AllForeign(script(n).others, q)
    }

    method Process(r: Request) returns (o: Outcome)
      modifies this`log, store
      ensures log == old(log) + [r]
      ensures (store.Abs(), o) == Step(old(store.Abs()), r)
    {
      o := store.Serve(r);
      log := log + [r];
    }

    method ProcessAll(rs: seq<Request>)
      modifies this`log, store
      ensures log == old(log) + rs
      ensures store.Abs() == Run(old(store.Abs()), rs)
    {
      var i := 0;
      while i < |rs|
        invariant 0 <= i <= |rs|
        invariant log == old(log) + rs[..i]
        invariant store.Abs() == Run(old(store.Abs()), rs[..i])
      {
        RunAppend(old(store.Abs()), rs[..i], rs[i]);
        assert rs[..i + 1] == rs[..i] + [rs[i]];
        var _ := Process(rs[i]);
        i := i + 1;
      }
      assert rs[..i] == rs;
    }

    /** One fetch, aborted after its timeout; the ledger may have processed the request all the same. */
    method Fetch(q: Request, timeout: nat) returns (r: Response)
      requires Fits(q)
      modifies this`log, this`next, this`clock, store
      ensures Fits(q)
      ensures clock == old(clock) + Min(script(old(next)).took, timeout)
      ensures |log| >= |old(log)| && log[..|old(log)|] == old(log)
      ensures AllForeign(log[|old(log)|..], q)
      ensures store.Abs() == Run(old(store.Abs()), log[|old(log)|..])
      ensures Definite(q, r) ==> FromLast(old(store.Abs()), log[|old(log)|..], q, r)
      ensures next == old(next) + 1
      ensures Definite(q, r) ==> GetsThrough(script(old(next)), timeout)
      ensures GetsThrough(script(old(next)), timeout) ==>
                Definite(q, r) || UnreadAt(old(store.Abs()), log[|old(log)|..], q)
    {
      var a := script(next);
      next := next + 1;
      clock := clock + Min(a.took, timeout);
      ProcessAll(a.others);
      assert log[|old(log)|..] == a.others;
      if !a.processed {
        return NoResponse;
      }
      var o := Process(q);
      ghost var sent := log[|old(log)|..];
      assert sent == a.others + [q];
      RunAppend(old(store.Abs()), a.others, q);
      assert sent[..|sent| - 1] == a.others;
      assert Plausible(a, q);
      DecodeAnswer(Run(old(store.Abs()), a.others), q);
      if !Readable(o) {
        assert sent[..|a.others|] == a.others && sent[|a.others|] == q;
      }
      if a.took > timeout {
        return NoResponse;
      }
      match a.delivery {
        case Faithful => r := Answer(o);
        case Lost => r := NoResponse;
        case Failed(status) => r := Http(status, ErrorBody("ledger_error"));
        case Garbled(body) => r := Http(200, body);
      }
    }

    method Sleep(ms: nat, late: nat)
      modifies this`clock
      ensures clock == old(clock) + ms + late
    {
      clock := clock + ms + late;
    }
  }

  /** The answer r is what the ledger really said to the last request it processed, which was q. */
  ghost predicate FromLast(s: State, sent: seq<Request>, q: Request, r: Response) {
    && |sent| > 0
    && sent[|sent| - 1] == q
    && r == Answer(OutcomeOf(Run(s, sent[..|sent| - 1]), q))
  }

  /** The ledger answered some copy of q with totals that a JSON number does not carry exactly, so that the client could
      not take the answer. */
  ghost predicate UnreadAt(s: State, sent: seq<Request>, q: Request) {
    exists k :: 0 <= k < |sent| && sent[k] == q && !Readable(OutcomeOf(Run(s, sent[..k]), q))
  }

  lemma UnreadLater(s: State, sent: seq<Request>, more: seq<Request>, q: Request)
    requires UnreadAt(s, sent, q) || UnreadAt(Run(s, sent), more, q)
    ensures UnreadAt(s, sent + more, q)
  {
    hide OutcomeOf, Readable;
    if UnreadAt(s, sent, q) {
      var k :| 0 <= k < |sent| && sent[k] == q && !Readable(OutcomeOf(Run(s, sent[..k]), q));
      assert (sent + more)[..k] == sent[..k] && (sent + more)[k] == q;
    } else {
      var k :| 0 <= k < |more| && more[k] == q && !Readable(OutcomeOf(Run(Run(s, sent), more[..k]), q));
      assert (sent + more)[..|sent| + k] == sent + more[..k] && (sent + more)[|sent| + k] == q;
      RunMore(s, sent, more[..k]);
    }
  }

  /** Holds are opened and settled without any number in the answer. */
  lemma NeverUnread(s: State, sent: seq<Request>, q: Request)
    requires q.Open? || q.Settle?
    ensures !UnreadAt(s, sent, q)
  {
    if UnreadAt(s, sent, q) {
      var k :| 0 <= k < |sent| && sent[k] == q && !Readable(OutcomeOf(Run(s, sent[..k]), q));
      DecodeAnswer(Run(s, sent[..k]), q);
      assert false;
    }
  }

  lemma FromLastLater(s: State, sent: seq<Request>, more: seq<Request>, q: Request, r: Response)
    requires FromLast(Run(s, sent), more, q, r)
    ensures FromLast(s, sent + more, q, r)
  {
    hide Next, OutcomeOf;
    var init := more[..|more| - 1];
    assert (sent + more)[..|sent + more| - 1] == sent + init;
    RunMore(s, sent, init);
  }

  datatype CallResult = Answered(response: Response) | Indeterminate | Unavailable

  /** The client's settings; the retry delay is at least one millisecond. */
  datatype Settings = Settings(attemptTimeout: nat, operationTimeout: nat, retryDelay: nat)

  // ---- Which attempts a call makes ----

  /** How long after the start of the call attempt n begins, if none before it is answered: each lasts until it ends or
      times out, and is followed by the retry delay and the oversleep. */
  function Elapsed(script: nat -> Attempt, settings: Settings, from: nat, n: nat): nat {
    if n <= from then 0
    else
      Elapsed(script, settings, from, n - 1)
      + Min(script(n - 1).took, settings.attemptTimeout) + settings.retryDelay + script(n).late
  }

  /** The first attempt is always made, the others only before the deadline. */
  predicate InTime(script: nat -> Attempt, settings: Settings, from: nat, n: nat) {
    from <= n && (n == from || Elapsed(script, settings, from, n) < settings.operationTimeout)
  }

  /** An attempt times out on its own, or when the budget of the call ends; it has at least one millisecond. */
  function Timeout(settings: Settings, elapsed: int): nat {
    var remaining := settings.operationTimeout - elapsed;
    Min(settings.attemptTimeout, if remaining > 1 then remaining else 1)
  }

  predicate Answers(script: nat -> Attempt, settings: Settings, from: nat, n: nat) {
    GetsThrough(script(n), Timeout(settings, Elapsed(script, settings, from, n)))
  }

  ghost predicate NothingGotThrough(script: nat -> Attempt, settings: Settings, from: nat, to: nat) {
    from <= to && forall n: nat :: from <= n < to ==> !Answers(script, settings, from, n)
  }

  /** Of all the attempts there is time for, none would be answered. */
  ghost predicate NoAnswerInTime(script: nat -> Attempt, settings: Settings, from: nat) {
    forall n: nat :: InTime(script, settings, from, n) ==> !Answers(script, settings, from, n)
  }

  lemma {:induction false} ElapsedGrows(script: nat -> Attempt, settings: Settings, from: nat, m: nat, n: nat)
    requires m <= n
    ensures Elapsed(script, settings, from, m) <= Elapsed(script, settings, from, n)
    decreases n - m
  {
    if m < n {
      ElapsedGrows(script, settings, from, m, n - 1);
    }
  }

  /** The attempts made are all there was time for. */
  lemma BudgetSpent(script: nat -> Attempt, settings: Settings, from: nat, to: nat)
    requires from < to && NothingGotThrough(script, settings, from, to)
    requires settings.operationTimeout <= Elapsed(script, settings, from, to)
    ensures NoAnswerInTime(script, settings, from)
  {
    hide Answers, Elapsed;
    forall n: nat | InTime(script, settings, from, n) ensures !Answers(script, settings, from, n) {
      if n >= to {
        ElapsedGrows(script, settings, from, to, n);
      }
    }
  }

  /** So many lost attempts are always survived: as long as k attempts and one more, each with its delay and the longest
      oversleep, fit the budget, the one more is made, and has its full timeout. At the default settings, 1000 ms for an
      attempt, 5000 for the call and 50 in between, that is three losses with oversleeps of up to 200 ms. */
  lemma LossesSurvived(script: nat -> Attempt, settings: Settings, from: nat, k: nat, late: nat)
    requires settings.retryDelay >= 1 && forall n: nat :: script(n).late <= late
    requires (k + 1) * (settings.attemptTimeout + settings.retryDelay + late) <= settings.operationTimeout
    ensures InTime(script, settings, from, from + k)
    ensures Timeout(settings, Elapsed(script, settings, from, from + k)) == settings.attemptTimeout
  {
    var round := settings.attemptTimeout + settings.retryDelay + late;
    ElapsedAtMost(script, settings, from, k, round);
    assert (k + 1) * round == k * round + round;
    hide Elapsed;
  }

  lemma {:induction false} ElapsedAtMost(script: nat -> Attempt, settings: Settings, from: nat, k: nat, round: nat)
    requires forall n: nat :: settings.attemptTimeout + settings.retryDelay + script(n).late <= round
    ensures 0 <= Elapsed(script, settings, from, from + k) <= k * round
  {
    if k > 0 {
      ElapsedAtMost(script, settings, from, k - 1, round);
      assert k * round == (k - 1) * round + round;
    }
  }

  /** The retry loop. It always returns, having started no attempt after its deadline. An answer it returns is the
      ledger's answer to the last request processed, and came to the first attempt in time that got one; it gives up on
      a mutation only when no attempt in time would get one. */
  method Call(ch: Channel, q: Request, settings: Settings, ghost maxLate: nat) returns (r: CallResult)
    requires ch.Fits(q) && settings.retryDelay >= 1
    requires forall n: nat :: ch.script(n).late <= maxLate
    modifies ch`log, ch`next, ch`clock, ch.store
    ensures |ch.log| >= |old(ch.log)| && ch.log[..|old(ch.log)|] == old(ch.log)
    ensures AllForeign(ch.log[|old(ch.log)|..], q)
    ensures ch.store.Abs() == Run(old(ch.store.Abs()), ch.log[|old(ch.log)|..])
    ensures r.Answered? ==> Definite(q, r.response)
                            && FromLast(old(ch.store.Abs()), ch.log[|old(ch.log)|..], q, r.response)
    ensures (r.Unavailable? ==> q.Balance?) && (r.Indeterminate? ==> !q.Balance?)
    ensures ch.next > old(ch.next) && InTime(ch.script, settings, old(ch.next), ch.next - 1)
    ensures q.Balance? ==> ch.next == old(ch.next) + 1
    ensures r.Answered? ==> Answers(ch.script, settings, old(ch.next), ch.next - 1)
    ensures || NothingGotThrough(ch.script, settings, old(ch.next), if r.Answered? then ch.next - 1 else ch.next)
            || UnreadAt(old(ch.store.Abs()), ch.log[|old(ch.log)|..], q)
    ensures r.Indeterminate? ==>
              || NoAnswerInTime(ch.script, settings, old(ch.next))
              || UnreadAt(old(ch.store.Abs()), ch.log[|old(ch.log)|..], q)
    ensures r.Answered? ==> ch.clock == old(ch.clock) + Elapsed(ch.script, settings, old(ch.next), ch.next - 1)
                                      + ch.script(ch.next - 1).took
    ensures r.Indeterminate? ==> ch.clock >= old(ch.clock) + settings.operationTimeout
    ensures ch.clock <= old(ch.clock) + settings.operationTimeout + 1 + maxLate
  {
    hide Next, OutcomeOf, Run, AllForeign, NothingGotThrough, FromLast, Definite, Answers, UnreadAt, NoAnswerInTime;
    hide Elapsed, GetsThrough, InTime, Timeout, Plausible, Channel.Fits;
    var mutation := !q.Balance?;
    var deadline := ch.clock + settings.operationTimeout;
    ghost var s0, sent, from := ch.store.Abs(), [], ch.next;
    NothingYet(ch.script, settings, from, s0, q);
    while true
      invariant ch.Fits(q)
      invariant ch.log == old(ch.log) + sent
      invariant AllForeign(sent, q) && ch.store.Abs() == Run(s0, sent)
      invariant from <= ch.next && ch.clock <= deadline && (mutation || ch.next == from)
      invariant ch.clock == old(ch.clock) + Elapsed(ch.script, settings, from, ch.next)
      invariant InTime(ch.script, settings, from, ch.next)
      invariant NothingGotThrough(ch.script, settings, from, ch.next) || UnreadAt(s0, sent, q)
      decreases deadline - ch.clock
    {
      ghost var n := ch.next;
      var remaining := if deadline - ch.clock > 1 then deadline - ch.clock else 1;
      TimeoutIs(settings, ch.clock - old(ch.clock));
      AttemptMade(ch.script, settings, from, n, Min(settings.attemptTimeout, remaining));
      var response;
      response, sent := OneAttempt(ch, q, Min(settings.attemptTimeout, remaining), s0, sent);
      assert ch.log[|old(ch.log)|..] == sent;
      if Definite(q, response) {
        return Answered(response);
      }
      if !UnreadAt(s0, sent, q) {
        NothingNext(ch.script, settings, from, n);
      }
      if !mutation {
        return Unavailable;
      }
      var left := deadline - ch.clock;
      if left <= 0 {
        GaveUp(ch.script, settings, from, ch.next, s0, sent, q);
        return Indeterminate;
      }
      ch.Sleep(Min(settings.retryDelay, left), ch.script(ch.next).late);
      if ch.clock >= deadline {
        GaveUp(ch.script, settings, from, ch.next, s0, sent, q);
        return Indeterminate;
      }
    }
  }

  /** One attempt, among all that has been sent since the call began. */
  method OneAttempt(ch: Channel, q: Request, timeout: nat, ghost s0: State, ghost sent: seq<Request>)
    returns (r: Response, ghost sent': seq<Request>)
    requires ch.Fits(q) && AllForeign(sent, q) && ch.store.Abs() == Run(s0, sent)
    modifies ch`log, ch`next, ch`clock, ch.store
    ensures ch.Fits(q) && AllForeign(sent', q) && ch.store.Abs() == Run(s0, sent')
    ensures sent <= sent' && ch.log == old(ch.log) + sent'[|sent|..]
    ensures ch.next == old(ch.next) + 1 && ch.clock == old(ch.clock) + Min(ch.script(old(ch.next)).took, timeout)
    ensures Definite(q, r) ==> FromLast(s0, sent', q, r) && GetsThrough(ch.script(old(ch.next)), timeout)
    ensures UnreadAt(s0, sent, q) ==> UnreadAt(s0, sent', q)
    ensures GetsThrough(ch.script(old(ch.next)), timeout) ==> Definite(q, r) || UnreadAt(s0, sent', q)
  {
    hide Next, OutcomeOf, Run, AllForeign, FromLast, Definite, GetsThrough, UnreadAt;
    r := ch.Fetch(q, timeout);
    ghost var more := ch.log[|old(ch.log)|..];
    sent' := sent + more;
    RunMore(s0, sent, more);
    ForeignAppend(sent, more, q);
    if Definite(q, r) {
      FromLastLater(s0, sent, more, q, r);
    }
    if UnreadAt(s0, sent, q) || UnreadAt(Run(s0, sent), more, q) {
      UnreadLater(s0, sent, more, q);
    }
  }

  lemma NothingYet(script: nat -> Attempt, settings: Settings, from: nat, s: State, q: Request)
    ensures NothingGotThrough(script, settings, from, from) && AllForeign([], q) && Run(s, []) == s
    ensures Elapsed(script, settings, from, from) == 0 && InTime(script, settings, from, from)
  {
  }

  lemma NothingNext(script: nat -> Attempt, settings: Settings, from: nat, n: nat)
    requires NothingGotThrough(script, settings, from, n) && !Answers(script, settings, from, n)
    ensures NothingGotThrough(script, settings, from, n + 1)
  {
  }

  /** What one attempt and the sleep after it do to the clock. */
  lemma AttemptMade(script: nat -> Attempt, settings: Settings, from: nat, n: nat, timeout: int)
    requires from <= n
    requires timeout == Timeout(settings, Elapsed(script, settings, from, n))
    ensures Answers(script, settings, from, n) <==> GetsThrough(script(n), timeout)
    ensures GetsThrough(script(n), timeout) ==> Min(script(n).took, timeout) == script(n).took
    ensures var after := Elapsed(script, settings, from, n) + Min(script(n).took, timeout);
            var left := settings.operationTimeout - after;
            var woken := after + Min(settings.retryDelay, left) + script(n + 1).late;
            && (left <= 0 ==> settings.operationTimeout <= Elapsed(script, settings, from, n + 1))
            && (left > 0 && woken >= settings.operationTimeout ==>
                  settings.operationTimeout <= Elapsed(script, settings, from, n + 1))
            && (left > 0 && woken < settings.operationTimeout ==>
                  woken == Elapsed(script, settings, from, n + 1) && InTime(script, settings, from, n + 1))
  {
    ElapsedNext(script, settings, from, n);
    hide Elapsed;
  }

  lemma TimeoutIs(settings: Settings, elapsed: int)
    ensures var remaining := settings.operationTimeout - elapsed;
            Timeout(settings, elapsed) == Min(settings.attemptTimeout, if remaining > 1 then remaining else 1)
  {
  }

  lemma ElapsedNext(script: nat -> Attempt, settings: Settings, from: nat, n: nat)
    requires from <= n
    ensures Elapsed(script, settings, from, n + 1)
         == Elapsed(script, settings, from, n)
            + Min(script(n).took, settings.attemptTimeout) + settings.retryDelay + script(n + 1).late
  {
  }

  lemma GaveUp(script: nat -> Attempt, settings: Settings, from: nat, to: nat, s: State, sent: seq<Request>, q: Request)
    requires from < to && settings.operationTimeout <= Elapsed(script, settings, from, to)
    requires NothingGotThrough(script, settings, from, to) || UnreadAt(s, sent, q)
    ensures NoAnswerInTime(script, settings, from) || UnreadAt(s, sent, q)
  {
    hide UnreadAt, Elapsed, NothingGotThrough, NoAnswerInTime;
    if NothingGotThrough(script, settings, from, to) {
      BudgetSpent(script, settings, from, to);
    }
  }

  lemma ForeignAppend(sent: seq<Request>, more: seq<Request>, q: Request)
    requires AllForeign(sent, q) && AllForeign(more, q)
    ensures AllForeign(sent + more, q)
  {
  }

  lemma RunMore(s: State, sent: seq<Request>, more: seq<Request>)
    ensures Run(s, sent + more) == Run(Run(s, sent), more)
  {
    RunSplit(s, sent + more, |sent|);
    assert (sent + more)[..|sent|] == sent && (sent + more)[|sent|..] == more;
  }

  // ---- What a definite answer means ----

  lemma {:induction false} StripForeign(rs: seq<Request>, q: Request)
    requires AllForeign(rs, q)
    ensures forall i :: 0 <= i < |Strip(rs, q)| ==> Foreign(Strip(rs, q)[i], q)
  {
    if rs != [] {
      assert AllForeign(rs[1..], q);
      StripForeign(rs[1..], q);
    }
  }

  /** Requests of others do not put the hold on record, nor change what is recorded of it. */
  lemma {:induction false} OthersLeaveItAlone(s: State, rs: seq<Request>, q: Request)
    requires forall i :: 0 <= i < |rs| ==> Foreign(rs[i], q)
    ensures q.Open? && q.holdId in Run(s, rs).holds ==>
              q.holdId in s.holds && Run(s, rs).holds[q.holdId] == s.holds[q.holdId]
    ensures q.Settle? && q.holdId in Run(s, rs).settled ==>
              q.holdId in s.settled && Run(s, rs).settled[q.holdId] == s.settled[q.holdId]
    decreases |rs|
  {
    if rs != [] {
      OtherLeavesItAlone(s, rs[0], q);
      hide Next;
      OthersLeaveItAlone(Next(s, rs[0]), rs[1..], q);
    }
  }

  lemma OtherLeavesItAlone(s: State, r: Request, q: Request)
    requires Foreign(r, q)
    ensures q.Open? && q.holdId in Next(s, r).holds ==>
              q.holdId in s.holds && Next(s, r).holds[q.holdId] == s.holds[q.holdId]
    ensures q.Settle? && q.holdId in Next(s, r).settled ==>
              q.holdId in s.settled && Next(s, r).settled[q.holdId] == s.settled[q.holdId]
  {
    match r
    case Start(_) =>
    case Balance(_, _) =>
    case Credit(_, _, _) =>
    case Open(_, _, _, _) =>
    case Settle(_, _, _) =>
  }

  lemma EffectLasts(s: State, rs: seq<Request>, q: Request, i: nat)
    requires Inv(s) && TakesEffectAt(s, rs, q, i)
    ensures Consumed(Run(s, rs), q)
  {
    var before := Run(s, Strip(rs[..i], q));
    InvRun(s, Strip(rs[..i], q));
    EffectConsumes(before, q);
    InvStep(before, q);
    ConsumedRun(Next(before, q), q, Strip(rs[i + 1..], q));
  }

  /** The operation was applied to the simple ledger atomically and exactly once, between two requests of others. */
  ghost predicate AppliedOnce(s: State, sent: seq<Request>, q: Request) {
    exists i: nat :: TakesEffectAt(s, sent, q, i) && SimplyApplied(Run(s, Strip(sent[..i], q)), q)
  }

  ghost predicate SimplyApplied(s: State, q: Request) {
    match q
    case Open(_, hash, micros, holdId) => SimpleOpen(Forget(s), hash, micros, holdId) == (Forget(Next(s, q)), Yes)
    case Settle(_, holdId, charge) => SimpleSettle(Forget(s), holdId, charge) == (Forget(Next(s, q)), Yes)
    case _ => false
  }

  /** The hold is on record as q would have it. */
  ghost predicate OnRecord(s: State, q: Request) {
    match q
    case Open(id, hash, micros, holdId) => holdId in s.holds && s.holds[holdId] == Hold(hash, micros, id)
    case Settle(id, holdId, charge) => holdId in s.settled && s.settled[holdId] == Tombstone(id, charge)
    case _ => false
  }

  /** The operation had been applied before it began: the hold was on record exactly as asked for, and nothing more
      happened. It cannot be so for a new hold id. */
  ghost predicate AlreadyDone(s: State, sent: seq<Request>, q: Request) {
    Run(s, sent) == Run(s, Strip(sent, q)) && OnRecord(s, q)
  }

  /** The operation changed nothing: the ledger is where the others alone have taken it, and the simple ledger would
      refuse it there too. */
  ghost predicate NeverApplied(s: State, sent: seq<Request>, q: Request) {
    && Run(s, sent) == Run(s, Strip(sent, q))
    && SimplyRefused(Run(s, sent), q)
  }

  ghost predicate SimplyRefused(s: State, q: Request) {
    match q
    case Open(_, hash, micros, holdId) => SimpleOpen(Forget(s), hash, micros, holdId) == (Forget(s), No)
    case Settle(_, holdId, charge) => SimpleSettle(Forget(s), holdId, charge) == (Forget(s), No)
    case _ => false
  }

  lemma EffectIsSimple(s: State, q: Request)
    requires Inv(s) && (q.Open? || q.Settle?) && Next(s, q) != s
    ensures SimplyApplied(s, q)
  {
    match q
    case Open(_, hash, micros, holdId) =>
      assert Forget(Next(s, q)).holds == Forget(s).holds[holdId := (hash, micros)];
    case Settle(_, holdId, charge) =>
      assert Forget(Next(s, q)).holds == Forget(s).holds - {holdId};
  }

  lemma LastStep(s: State, sent: seq<Request>, q: Request)
    requires |sent| > 0 && sent[|sent| - 1] == q
    ensures Run(s, sent) == Next(Run(s, sent[..|sent| - 1]), q)
  {
    assert sent == sent[..|sent| - 1] + [q];
    RunAppend(s, sent[..|sent| - 1], q);
  }

  /** If the hold is on record at the end, some copy of the request put it there, or it was there at the start. */
  lemma RecordedMeansOnce(s: State, sent: seq<Request>, q: Request)
    requires Inv(s) && AllForeign(sent, q) && OnRecord(Run(s, sent), q)
    ensures AppliedOnce(s, sent, q) || AlreadyDone(s, sent, q)
  {
    hide Next, Run, Inv;
    DuplicatesCollapse(s, sent, q);
    if i: nat :| TakesEffectAt(s, sent, q, i) {
      InvRun(s, Strip(sent[..i], q));
      EffectIsSimple(Run(s, Strip(sent[..i], q)), q);
    } else {
      StripForeign(sent, q);
      OthersLeaveItAlone(s, Strip(sent, q), q);
    }
  }

  lemma NoEffect(s: State, sent: seq<Request>, q: Request)
    requires Inv(s) && !Consumed(Run(s, sent), q)
    ensures Run(s, sent) == Run(s, Strip(sent, q))
  {
    hide Next, Run, Inv, Consumed;
    DuplicatesCollapse(s, sent, q);
    if i: nat :| TakesEffectAt(s, sent, q, i) {
      EffectLasts(s, sent, q, i);
    }
  }

  /** What an answer to q says of the ledger that gave it. */
  lemma AnswerMeans(s: State, q: Request)
    requires Inv(s)
    ensures q.Open? && OpenVerdict(OutcomeOf(s, q)) == Accepted ==> OnRecord(Next(s, q), q)
    ensures q.Settle? && SettleVerdict(OutcomeOf(s, q)) == Accepted ==> OnRecord(Next(s, q), q)
    ensures q.Open? && OpenVerdict(OutcomeOf(s, q)) == Refused ==>
              Next(s, q) == s && !Consumed(s, q) && SimplyRefused(s, q)
    ensures q.Settle? && SettleVerdict(OutcomeOf(s, q)) == Refused ==>
              Next(s, q) == s && !Consumed(s, q) && SimplyRefused(s, q)
  {
  }

  /** Accepted means applied once, now or before; refused means never applied. */
  lemma OpenRefines(s: State, sent: seq<Request>, q: Request)
    requires Inv(s) && AllForeign(sent, q) && q.Open? && |sent| > 0 && sent[|sent| - 1] == q
    ensures var v := OpenVerdict(OutcomeOf(Run(s, sent[..|sent| - 1]), q));
            && (v == Accepted ==> AppliedOnce(s, sent, q) || AlreadyDone(s, sent, q))
            && (v == Refused ==> NeverApplied(s, sent, q))
  {
    hide Next, Run, Inv, OutcomeOf, Consumed, SimplyRefused, OnRecord;
    var pre := Run(s, sent[..|sent| - 1]);
    InvRun(s, sent[..|sent| - 1]);
    LastStep(s, sent, q);
    AnswerMeans(pre, q);
    if OpenVerdict(OutcomeOf(pre, q)) == Accepted {
      RecordedMeansOnce(s, sent, q);
    } else if OpenVerdict(OutcomeOf(pre, q)) == Refused {
      NoEffect(s, sent, q);
    }
  }

  lemma SettleRefines(s: State, sent: seq<Request>, q: Request)
    requires Inv(s) && AllForeign(sent, q) && q.Settle? && |sent| > 0 && sent[|sent| - 1] == q
    ensures var v := SettleVerdict(OutcomeOf(Run(s, sent[..|sent| - 1]), q));
            && (v == Accepted ==> AppliedOnce(s, sent, q) || AlreadyDone(s, sent, q))
            && (v == Refused ==> NeverApplied(s, sent, q))
  {
    hide Next, Run, Inv, OutcomeOf, Consumed, SimplyRefused, OnRecord;
    var pre := Run(s, sent[..|sent| - 1]);
    InvRun(s, sent[..|sent| - 1]);
    LastStep(s, sent, q);
    AnswerMeans(pre, q);
    if SettleVerdict(OutcomeOf(pre, q)) == Accepted {
      RecordedMeansOnce(s, sent, q);
    } else if SettleVerdict(OutcomeOf(pre, q)) == Refused {
      NoEffect(s, sent, q);
    }
  }

  /** The totals a start reports, however often it was retried, are those of the one recovery it performed. */
  lemma StartRefines(s: State, sent: seq<Request>, q: Request)
    requires Inv(s) && q.Start? && |sent| > 0 && sent[|sent| - 1] == q && !s.Current(q.session)
    requires OutcomeOf(Run(s, sent[..|sent| - 1]), q) != StaleSession
    ensures RecoveredOnce(s, sent, q, OutcomeOf(Run(s, sent[..|sent| - 1]), q))
  {
    hide Next, OutcomeOf, Run, Strip;
    InvRun(s, sent);
    var last := Run(s, sent[..|sent| - 1]);
    LastStep(s, sent, q);
    StartMakesCurrent(last, q);
    DuplicatesCollapse(s, sent, q);
    if Run(s, sent) == Run(s, Strip(sent, q)) {
      NobodyElseStarts(s, Strip(sent, q), q);
      StripHasNone(sent, q);
    }
    var i: nat :| TakesEffectAt(s, sent, q, i);
    var before := Run(s, Strip(sent[..i], q));
    InvRun(s, Strip(sent[..i], q));
    InvStep(before, q);
    StartMakesCurrent(before, q);
    SessionKept(Next(before, q), Strip(sent[i + 1..], q), q.session);
  }

  /** A start that is not stale leaves its session current and reports what the ledger then remembers of it. */
  lemma StartMakesCurrent(s: State, q: Request)
    requires q.Start? && (OutcomeOf(s, q) != StaleSession || Next(s, q) != s)
    ensures var o, t := OutcomeOf(s, q), Next(s, q);
            && (o.Started? || o.AlreadyCurrent?) && t.Current(q.session)
            && o.holds == t.session.value.recoveredHolds && o.micros == t.session.value.recoveredMicros
  {
  }

  ghost predicate RecoveredOnce(s: State, sent: seq<Request>, q: Request, reported: Outcome) {
    exists i: nat :: TakesEffectAt(s, sent, q, i) && SameTotals(OutcomeOf(Run(s, Strip(sent[..i], q)), q), reported)
  }

  predicate SameTotals(a: Outcome, b: Outcome) {
    && (a.Started? || a.AlreadyCurrent?)
    && (b.Started? || b.AlreadyCurrent?)
    && a.holds == b.holds
    && a.micros == b.micros
  }

  lemma {:induction false} StripHasNone(rs: seq<Request>, q: Request)
    ensures q !in Strip(rs, q)
  {
    if rs != [] {
      StripHasNone(rs[1..], q);
    }
  }

  lemma {:induction false} NobodyElseStarts(s: State, rs: seq<Request>, q: Request)
    requires q.Start? && !s.Current(q.session)
    ensures q in rs || !Run(s, rs).Current(q.session)
    decreases |rs|
  {
    if rs != [] && q !in rs {
      NobodyElseStarts(Next(s, rs[0]), rs[1..], q);
    }
  }

  // ---- Why a definite answer ends the process ----

  /** The session is not current, the amount is no safe integer, the hold is open with another payload, or it is
      already settled. */
  ghost predicate OpenFatal(s: State, q: Request)
    requires q.Open?
  {
    || !s.Current(q.session)
    || !SafeMicros(q.micros)
    || (q.holdId in s.holds && s.holds[q.holdId] != Hold(q.hash, q.micros, q.session))
    || q.holdId in s.settled
  }

  /** The session is not current, the hold is settled with another charge, or it is open and the charge is no safe
      integer or more than was reserved. */
  ghost predicate SettleFatal(s: State, q: Request)
    requires q.Settle?
  {
    || !s.Current(q.session)
    || (q.holdId in s.settled && s.settled[q.holdId] != Tombstone(q.session, q.charge))
    || (q.holdId in s.holds && (!SafeMicros(q.charge) || q.charge > s.holds[q.holdId].micros))
  }

  /** The ledger's own reasons to stop its client. */
  ghost predicate FatalReason(s: State, q: Request) {
    match q
    case Open(_, _, _, _) => OpenFatal(s, q)
    case Settle(_, _, _) => SettleFatal(s, q)
    case _ => OutcomeOf(s, q) == StaleSession
  }

  /** The client stops on the ledger's answer for these reasons and for no other. */
  lemma FatalIff(s: State, q: Request)
    requires Inv(s)
    ensures q.Open? ==> (OpenVerdict(OutcomeOf(s, q)) == FatalVerdict <==> OpenFatal(s, q))
    ensures q.Settle? ==> (SettleVerdict(OutcomeOf(s, q)) == FatalVerdict <==> SettleFatal(s, q))
  {
  }

  /** Nothing is on record of the hold but what q itself put there. */
  ghost predicate OursAlone(s: State, q: Request)
    requires q.Open?
  {
    && (q.holdId in s.holds ==> s.holds[q.holdId] == Hold(q.hash, q.micros, q.session))
    && q.holdId !in s.settled
  }

  lemma {:induction false} OursAloneRun(s: State, rs: seq<Request>, q: Request)
    requires q.Open? && AllForeign(rs, q) && OursAlone(s, q)
    requires forall i :: 0 <= i < |rs| && rs[i].Settle? ==> rs[i].holdId != q.holdId
    ensures OursAlone(Run(s, rs), q)
    decreases |rs|
  {
    if rs != [] {
      OursAloneStep(s, rs[0], q);
      hide Next;
      OursAloneRun(Next(s, rs[0]), rs[1..], q);
    }
  }

  lemma OursAloneStep(s: State, r: Request, q: Request)
    requires q.Open? && OursAlone(s, q) && (r == q || Foreign(r, q)) && (r.Settle? ==> r.holdId != q.holdId)
    ensures OursAlone(Next(s, r), q)
  {
    match r
    case Start(_) =>
    case Balance(_, _) =>
    case Credit(_, _, _) =>
    case Open(_, _, _, _) =>
    case Settle(_, _, _) =>
  }

  /** Over a run: for a hold id on record nowhere, that nobody else opens or settles, and a session still current at the
      answer, opening it stops the process exactly when the amount is not a safe integer. */
  lemma FreshOpenFatalIff(s: State, sent: seq<Request>, q: Request)
    requires Inv(s) && AllForeign(sent, q) && q.Open? && |sent| > 0 && sent[|sent| - 1] == q
    requires q.holdId !in s.holds && q.holdId !in s.settled
    requires forall i :: 0 <= i < |sent| && sent[i].Settle? ==> sent[i].holdId != q.holdId
    requires Run(s, sent[..|sent| - 1]).Current(q.session)
    ensures OpenVerdict(OutcomeOf(Run(s, sent[..|sent| - 1]), q)) == FatalVerdict <==> !SafeMicros(q.micros)
  {
    hide Next, Run, OutcomeOf, Inv;
    var init := sent[..|sent| - 1];
    InvRun(s, init);
    OursAloneRun(s, init, q);
    FatalIff(Run(s, init), q);
  }

  /** The hold is open as it was, or settled as q would have it, or its session is over. */
  ghost predicate OpenOrSettledSo(s: State, q: Request, hold: Hold)
    requires q.Settle?
  {
    || q.session in s.retired
    || (q.holdId in s.holds && s.holds[q.holdId] == hold && q.holdId !in s.settled)
    || (q.holdId in s.settled && s.settled[q.holdId] == Tombstone(q.session, q.charge) && q.holdId !in s.holds
        && SafeMicros(q.charge) && q.charge <= hold.micros)
  }

  lemma OpenOrSettledStep(s: State, r: Request, q: Request, hold: Hold)
    requires q.Settle? && Inv(s) && hold.session == q.session && OpenOrSettledSo(s, q, hold)
    requires r == q || Foreign(r, q)
    ensures OpenOrSettledSo(Next(s, r), q, hold)
  {
    match r
    case Start(_) =>
    case Balance(_, _) =>
    case Credit(_, _, _) =>
    case Open(_, _, _, _) =>
    case Settle(_, _, _) =>
  }

  lemma {:induction false} OpenOrSettledRun(s: State, rs: seq<Request>, q: Request, hold: Hold)
    requires q.Settle? && Inv(s) && hold.session == q.session && OpenOrSettledSo(s, q, hold) && AllForeign(rs, q)
    ensures OpenOrSettledSo(Run(s, rs), q, hold)
    decreases |rs|
  {
    hide Next, Inv, OpenOrSettledSo;
    if rs != [] {
      OpenOrSettledStep(s, rs[0], q, hold);
      InvStep(s, rs[0]);
      OpenOrSettledRun(Next(s, rs[0]), rs[1..], q, hold);
    }
  }

  /** Over a run: for an open hold of the session, that nobody else settles, and a session still current at the answer,
      settling it stops the process exactly when the charge is not a safe integer within the reserve. */
  lemma OpenHoldSettleFatalIff(s: State, sent: seq<Request>, q: Request)
    requires Inv(s) && AllForeign(sent, q) && q.Settle? && |sent| > 0 && sent[|sent| - 1] == q
    requires q.holdId in s.holds && s.holds[q.holdId].session == q.session
    requires Run(s, sent[..|sent| - 1]).Current(q.session)
    ensures SettleVerdict(OutcomeOf(Run(s, sent[..|sent| - 1]), q)) == FatalVerdict
            <==> !SafeMicros(q.charge) || q.charge > s.holds[q.holdId].micros
  {
    hide Next, Run, OutcomeOf;
    var init := sent[..|sent| - 1];
    InvRun(s, init);
    OpenOrSettledRun(s, init, q, s.holds[q.holdId]);
    FatalIff(Run(s, init), q);
  }

  /** Why the process ends: the whole time budget is spent and none of the attempts there was time for would have been
      answered; the recovery totals of a start are beyond an exact JSON number; or the ledger answered for one of its
      own reasons. */
  ghost predicate StoppedRightly(ch: Channel, settings: Settings, s: State, sent: seq<Request>, q: Request, from: nat,
                                 deadline: nat)
    reads ch
  {
    || (ch.clock >= deadline && NoAnswerInTime(ch.script, settings, from))
    || (ch.clock >= deadline && q.Start? && UnreadAt(s, sent, q))
    || (|sent| > 0 && sent[|sent| - 1] == q && FatalReason(Run(s, sent[..|sent| - 1]), q))
  }

  // ---- The port the request handler calls (core/src/ledger/port.ts) ----

  class Client {
    const session: SessionId
    const settings: Settings

    constructor (session: SessionId, settings: Settings)
      ensures this.session == session && this.settings == settings
    {
      this.session, this.settings := session, settings;
    }

    /** The startup barrier: the recovery totals, or the end of the process. */
    method StartSession(ch: Channel, ghost maxLate: nat) returns (r: Option<Outcome>)
      requires ch.Fits(Start(session)) && settings.retryDelay >= 1
      requires forall n: nat :: ch.script(n).late <= maxLate
      requires Inv(ch.store.Abs())
      modifies ch`log, ch`next, ch`clock, ch.store
      ensures |ch.log| >= |old(ch.log)| && ch.log[..|old(ch.log)|] == old(ch.log)
      ensures ch.store.Abs() == Run(old(ch.store.Abs()), ch.log[|old(ch.log)|..])
      ensures r.Some? ==> ch.store.Abs().Current(session)
      ensures r.Some? && !old(ch.store.Abs()).Current(session) ==>
                RecoveredOnce(old(ch.store.Abs()), ch.log[|old(ch.log)|..], Start(session), r.value)
      ensures r.None? ==>
                StoppedRightly(ch, settings, old(ch.store.Abs()), ch.log[|old(ch.log)|..], Start(session),
                               old(ch.next), old(ch.clock) + settings.operationTimeout)
      ensures ch.clock <= old(ch.clock) + settings.operationTimeout + 1 + maxLate
    {
      hide Next, OutcomeOf, Run, Inv, AllForeign, NothingGotThrough, RecoveredOnce, Answer, UnreadAt, DecodeStart;
      hide Readable, Truthy, Recognized;
      var q := Start(session);
      var result := Call(ch, q, settings, maxLate);
      ghost var s, sent := old(ch.store.Abs()), ch.log[|old(ch.log)|..];
      match result {
        case Answered(response) =>
          LastStep(s, sent, q);
          DecodeAnswer(Run(s, sent[..|sent| - 1]), q);
          StartRoundTrip(Run(s, sent[..|sent| - 1]), q);
          r := LedgerWire.DecodeStart(q, response);
          if r.Some? && !s.Current(session) {
            StartRefines(s, sent, q);
          }
        case _ => r := None;
      }
    }

    method OpenHold(ch: Channel, hash: Hash, micros: int, holdId: HoldId, ghost maxLate: nat) returns (v: Verdict)
      requires ch.Fits(Open(session, hash, micros, holdId)) && settings.retryDelay >= 1
      requires forall n: nat :: ch.script(n).late <= maxLate
      requires Inv(ch.store.Abs())
      modifies ch`log, ch`next, ch`clock, ch.store
      ensures |ch.log| >= |old(ch.log)| && ch.log[..|old(ch.log)|] == old(ch.log)
      ensures ch.store.Abs() == Run(old(ch.store.Abs()), ch.log[|old(ch.log)|..])
      ensures v == Accepted ==>
                AppliedOnce(old(ch.store.Abs()), ch.log[|old(ch.log)|..], Open(session, hash, micros, holdId))
                || AlreadyDone(old(ch.store.Abs()), ch.log[|old(ch.log)|..], Open(session, hash, micros, holdId))
      ensures v == Refused ==>
                NeverApplied(old(ch.store.Abs()), ch.log[|old(ch.log)|..], Open(session, hash, micros, holdId))
      ensures v == FatalVerdict ==>
                StoppedRightly(ch, settings, old(ch.store.Abs()), ch.log[|old(ch.log)|..],
                               Open(session, hash, micros, holdId), old(ch.next),
                               old(ch.clock) + settings.operationTimeout)
      ensures ch.clock <= old(ch.clock) + settings.operationTimeout + 1 + maxLate
    {
      var q := Open(session, hash, micros, holdId);
      var result := Call(ch, q, settings, maxLate);
      ghost var s, sent := old(ch.store.Abs()), ch.log[|old(ch.log)|..];
      match result {
        case Answered(response) =>
          v := DecodeOpen(q, response);
          DecodeAnswer(Run(s, sent[..|sent| - 1]), q);
          InvRun(s, sent[..|sent| - 1]);
          FatalIff(Run(s, sent[..|sent| - 1]), q);
          OpenRefines(s, sent, q);
        case _ =>
          NeverUnread(s, sent, q);
          v := FatalVerdict;
      }
    }

    method SettleHold(ch: Channel, holdId: HoldId, charge: int, ghost maxLate: nat) returns (v: Verdict)
      requires ch.Fits(Settle(session, holdId, charge)) && settings.retryDelay >= 1
      requires forall n: nat :: ch.script(n).late <= maxLate
      requires Inv(ch.store.Abs())
      modifies ch`log, ch`next, ch`clock, ch.store
      ensures |ch.log| >= |old(ch.log)| && ch.log[..|old(ch.log)|] == old(ch.log)
      ensures ch.store.Abs() == Run(old(ch.store.Abs()), ch.log[|old(ch.log)|..])
      ensures v == Accepted ==>
                AppliedOnce(old(ch.store.Abs()), ch.log[|old(ch.log)|..], Settle(session, holdId, charge))
                || AlreadyDone(old(ch.store.Abs()), ch.log[|old(ch.log)|..], Settle(session, holdId, charge))
      ensures v == Refused ==>
                NeverApplied(old(ch.store.Abs()), ch.log[|old(ch.log)|..], Settle(session, holdId, charge))
      ensures v == FatalVerdict ==>
                StoppedRightly(ch, settings, old(ch.store.Abs()), ch.log[|old(ch.log)|..],
                               Settle(session, holdId, charge), old(ch.next),
                               old(ch.clock) + settings.operationTimeout)
      ensures ch.clock <= old(ch.clock) + settings.operationTimeout + 1 + maxLate
    {
      var q := Settle(session, holdId, charge);
      var result := Call(ch, q, settings, maxLate);
      ghost var s, sent := old(ch.store.Abs()), ch.log[|old(ch.log)|..];
      match result {
        case Answered(response) =>
          v := DecodeSettle(q, response);
          DecodeAnswer(Run(s, sent[..|sent| - 1]), q);
          InvRun(s, sent[..|sent| - 1]);
          FatalIff(Run(s, sent[..|sent| - 1]), q);
          SettleRefines(s, sent, q);
        case _ =>
          NeverUnread(s, sent, q);
          v := FatalVerdict;
      }
    }
  }
}
