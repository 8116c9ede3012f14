/** The streaming request as the source writes it: variables captured by settle(), pull(), cancel() and the deadline
    timer and updated in place (core/src/handler.ts); and the shutdown that drains what is left of them
    (core/src/shutdown.ts). Each block is proved to be one step of the race. */
module Streaming {
  import opened Wrappers
  import opened StreamRace

  class Stream {
    const hold: nat
    const inputFloor: int
    var scan: Scan
    var ended: bool
    var cancelled: bool
    var requested: Option<Cause>
    var decision: Option<Decision>
    var cause: Option<Cause>
    var attempt: Attempt
    var registered: bool
    var armed: bool
    var cancelling: bool
    var pull: Pull
    var completed: Option<int>
    var downstream: Downstream
    ghost var calls: seq<int>
    ghost var completions: nat
    ghost var cleanEnd: bool

    ghost function Abs(): State
      reads this
    {
      State(hold, inputFloor, scan, ended, cancelled, requested, decision, cause, attempt, registered, armed,
            cancelling, pull, completed, downstream, calls, completions, cleanEnd)
    }

    constructor (hold: nat, inputFloor: int, scan: Scan)
      ensures Abs() == Initial(hold, inputFloor, scan)
    {
      this.hold, this.inputFloor, this.scan := hold, inputFloor, scan;
      ended, cancelled, requested, decision, cause, attempt := false, false, None, None, None, Idle;
      registered, armed, cancelling, pull, completed, downstream := true, true, false, Reading, None, Open;
      calls, completions, cleanEnd := [], 0, false;
    }

    /** The promise latch: the first caller fixes the decision, every caller joins the one attempt. */
    method SettleWith(reason: Cause)
      modifies this
      ensures Abs() == Settle(old(Abs()), reason)
    {
      hide Decide, Clamp, Fix;
      if !attempt.Idle? {
        return;
      }
      if decision.None? {
        FixDecision(reason);
      }
      attempt := Pending;
      CallLedger(decision.value.Cost());
    }

    /** The first terminal cause owns the settlement. */
    method FixDecision(reason: Cause)
      modifies this
      ensures Abs() == Fix(old(Abs()), reason)
    {
      hide Recorded, Terminated;
      RecordDecision(reason);
      if reason.ShutdownDrain? {
        Terminate();
      }
    }

    method RecordDecision(reason: Cause)
      modifies this`decision, this`cause, this`armed, this`cleanEnd
      ensures Abs() == Recorded(old(Abs()), reason)
    {
      hide Decide;
      decision := Some(Decide(reason, scan, inputFloor));
      cause := Some(reason);
      armed := false;
      cleanEnd := ended && !cancelled;
    }

    method Terminate()
      modifies this`requested, this`cancelled, this`downstream
      ensures Abs() == Terminated(old(Abs()))
    {
      requested := Some(ShutdownDrain);
      cancelled := true;
      downstream := Errored;
    }

    /** billActual up to its await: clamp, and hand the charge to the ledger. */
    method CallLedger(actual: int)
      modifies this`calls
      ensures calls == old(calls) + [Clamp(actual, hold)]
    {
      var floor := if actual > 0 then actual else 0;
      var charge := if floor < hold then floor else hold;
      calls := calls + [charge];
    }

    /** What a pull does once the settlement it awaited is done. */
    method FinishPull()
      modifies this`downstream
      ensures Abs() == Finish(old(Abs()))
    {
      if attempt.Done? && downstream.Open? {
        match pull {
          case Reading =>
          case Closing => downstream := Closed;
          case Failing => downstream := Errored;
        }
      }
    }

    method OnChunk(scan: Scan)
      modifies this`scan
      ensures Abs() == Step(old(Abs()), Chunk(scan))
    {
      this.scan := scan;
    }

    method OnBodyEnd()
      modifies this`ended
      ensures Abs() == Step(old(Abs()), BodyEnds)
    {
      ended := true;
    }

    method OnReadDone()
      modifies this
      ensures Abs() == Step(old(Abs()), ReadDone)
    {
      hide Settle, Finish;
      pull := Closing;
      SettleWith(if requested.Some? then requested.value else Complete);
      FinishPull();
    }

    method OnReadFailure(timeout: bool)
      modifies this
      ensures Abs() == Step(old(Abs()), ReadFails(timeout))
    {
      hide Settle, Finish;
      pull := Failing;
      SettleWith(if requested.Some? then requested.value else if timeout then UpstreamTimeout else UpstreamError);
      FinishPull();
    }

    method OnCancel()
      modifies this
      ensures Abs() == Step(old(Abs()), CancelBegins)
    {
      requested := Some(ClientCancel);
      cancelled := true;
      cancelling := true;
    }

    method OnCancelAwaited()
      modifies this
      ensures Abs() == Step(old(Abs()), CancelSettles)
    {
      cancelling := false;
      SettleWith(ClientCancel);
    }

    method OnDeadline()
      modifies this
      ensures Abs() == Step(old(Abs()), DeadlineFires)
    {
      hide Settle, Expired;
      Expire();
      SettleWith(Deadline);
      BreakDownstream();
    }

    method Expire()
      modifies this`armed, this`requested, this`cancelled
      ensures Abs() == Expired(old(Abs()))
    {
      armed := false;
      requested := Some(Deadline);
      cancelled := true;
    }

    method BreakDownstream()
      modifies this`downstream
      ensures Abs() == old(Abs()).(downstream := Errored)
    {
      downstream := Errored;
    }

    method OnDrain()
      modifies this
      ensures Abs() == Step(old(Abs()), Drain)
    {
      SettleWith(ShutdownDrain);
    }

    /** The await of billActual resumes: the charge is definite. */
    method OnLedgerAccept()
      requires decision.Some?
      modifies this
      ensures Abs() == Step(old(Abs()), LedgerAccepts)
    {
      hide Accepted, Finish;
      RecordCompletion();
      FinishPull();
    }

    method RecordCompletion()
      requires decision.Some?
      modifies this`completed, this`completions, this`registered, this`attempt
      ensures Abs() == Accepted(old(Abs()))
    {
      hide Clamp;
      completed := Some(Clamp(decision.value.Cost(), hold));
      completions := completions + 1;
      registered := false;
      attempt := Done;
    }

    /** The await of billActual throws: only the attempt is forgotten, never the decision. */
    method OnLedgerReject()
      modifies this
      ensures Abs() == Step(old(Abs()), LedgerRejects)
    {
      hide Decide, Clamp, Settle;
      attempt := Idle;
      if !pull.Reading? {
        downstream := Errored;
      }
    }

    /** Whatever happens to the stream next: the block that runs is one step of the race, and keeps its invariant. */
    method On(a: Action)
      requires Inv(Abs()) && Enabled(Abs(), a)
      modifies this
      ensures Abs() == Step(old(Abs()), a) && Inv(Abs())
    {
      InvStep(Abs(), a);
      if a.LedgerAccepts? {
        PendingDecided(Abs());
      }
      hide Step, Inv;
      match a {
        case Chunk(scan) => OnChunk(scan);
        case BodyEnds => OnBodyEnd();
        case ReadDone => OnReadDone();
        case ReadFails(timeout) => OnReadFailure(timeout);
        case CancelBegins => OnCancel();
        case CancelSettles => OnCancelAwaited();
        case DeadlineFires => OnDeadline();
        case Drain => OnDrain();
        case LedgerAccepts => OnLedgerAccept();
        case LedgerRejects => OnLedgerReject();
      }
    }
  }

  // ---- Shutdown ----

  /** What happens to the streams while the shutdown waits: a handler that was still fetching registers one, or a
      stream takes a step. A step that is not enabled does not happen, and without a running handler none registers. */
  datatype Happening = Joins(hold: nat, inputFloor: int, scan: Scan) | Steps(i: nat, action: Action)

  /** What happens during each sleep, when the handlers have all returned, how late each sleep ends, what happens while
      the settlements are awaited, and how the ledger answers those that are unanswered after that. */
  datatype Environment = Environment(
    busy: nat -> seq<Happening>,
    handlersReturn: nat,
    late: nat -> nat,
    during: seq<Happening>,
    answers: nat -> bool
  )

  ghost function Happen(ss: seq<State>, h: Happening, handlers: bool): seq<State> {
    match h
    case Joins(hold, inputFloor, scan) => if handlers then ss + [Initial(hold, inputFloor, scan)] else ss
    case Steps(i, action) => if i < |ss| && Enabled(ss[i], action) then ss[i := Step(ss[i], action)] else ss
  }

  ghost function HappenAll(ss: seq<State>, hs: seq<Happening>, handlers: bool): seq<State> {
    if hs == [] then ss else Happen(HappenAll(ss, hs[..|hs| - 1], handlers), hs[|hs| - 1], handlers)
  }

  /** The streams after n sleeps. */
  ghost function AfterSleeps(ss: seq<State>, env: Environment, n: nat): seq<State> {
    if n == 0 then ss else HappenAll(AfterSleeps(ss, env, n - 1), env.busy(n - 1), n - 1 < env.handlersReturn)
  }

  /** How long n sleeps last. */
  function Slept(env: Environment, poll: nat, n: nat): nat {
    if n == 0 then 0 else Slept(env, poll, n - 1) + poll + env.late(n - 1)
  }

  /** After n sleeps there is nothing to wait for any more: the grace is over; or the handlers have returned and no
      stream is live. */
  ghost predicate WaitIsOver(ss: seq<State>, env: Environment, poll: nat, grace: nat, n: nat) {
    || Slept(env, poll, n) >= grace
    || (n >= env.handlersReturn && forall s :: s in AfterSleeps(ss, env, n) ==> !s.registered)
  }

  ghost predicate AllInv(ss: seq<State>) {
    forall i :: 0 <= i < |ss| ==> Inv(ss[i])
  }

  /** Streams are never forgotten, and what no step undoes is not undone. */
  ghost predicate Grown(ss: seq<State>, tt: seq<State>) {
    |ss| <= |tt| && forall i :: 0 <= i < |ss| ==> Extends(ss[i], tt[i])
  }

  lemma ExtendsTransitive(s: State, t: State, u: State)
    requires Extends(s, t) && Extends(t, u)
    ensures Extends(s, u)
  {
    assert u.calls[..|s.calls|] == u.calls[..|t.calls|][..|s.calls|];
  }

  lemma ExtendsSelf(s: State)
    ensures Extends(s, s)
  {
  }

  lemma GrownSelf(ss: seq<State>)
    ensures Grown(ss, ss)
  {
    hide Extends;
    forall i | 0 <= i < |ss| ensures Extends(ss[i], ss[i]) {
      ExtendsSelf(ss[i]);
    }
  }

  lemma GrownTransitive(ss: seq<State>, tt: seq<State>, uu: seq<State>)
    requires Grown(ss, tt) && Grown(tt, uu)
    ensures Grown(ss, uu)
  {
    hide Extends;
    forall i | 0 <= i < |ss| ensures Extends(ss[i], uu[i]) {
      ExtendsTransitive(ss[i], tt[i], uu[i]);
    }
  }

  lemma HappenKeeps(ss: seq<State>, h: Happening, handlers: bool)
    requires AllInv(ss)
    ensures AllInv(Happen(ss, h, handlers)) && Grown(ss, Happen(ss, h, handlers))
    ensures !handlers ==> |Happen(ss, h, handlers)| == |ss|
  {
    hide Inv, Step, Extends, Enabled;
    match h
    case Joins(hold, inputFloor, scan) =>
      InvInitial(hold, inputFloor, scan);
      GrownSelf(ss);
    case Steps(i, action) =>
      GrownSelf(ss);
      if i < |ss| && Enabled(ss[i], action) {
        InvStep(ss[i], action);
        StepExtends(ss[i], action);
      }
  }

  /** A stream that is out of the registry stays out. */
  lemma ReleasedForGood(s: State, t: State)
    requires Inv(s) && Inv(t) && Extends(s, t)
    ensures t.registered ==> s.registered
  {
  }

  /** An attempt stays pending until the ledger answers it. */
  lemma PendingStays(s: State, a: Action)
    requires s.attempt.Pending? && Enabled(s, a)
    ensures a.LedgerAccepts? ==> Step(s, a).attempt.Done?
    ensures a.LedgerRejects? ==> Step(s, a).attempt.Idle?
    ensures !a.LedgerAccepts? && !a.LedgerRejects? ==> Step(s, a).attempt.Pending?
  {
    hide Decide, Clamp, Fix;
  }

  lemma PendingDecided(s: State)
    requires Inv(s) && !s.attempt.Idle?
    ensures s.decision.Some?
  {
  }

  /** How the ledger answers the attempt of stream i that is pending when the events begin. */
  ghost function Verdict(events: seq<Happening>, answers: nat -> bool, i: nat): bool {
    if events == [] then answers(i)
    else if events[0] == Steps(i, LedgerAccepts) then true
    else if events[0] == Steps(i, LedgerRejects) then false
    else Verdict(events[1..], answers, i)
  }

  /** The settlements awaited: those unanswered are still pending, those answered were answered as the ledger did. */
  ghost predicate Awaited(ss: seq<State>, stragglers: seq<nat>, results: map<nat, bool>, events: seq<Happening>,
                          answers: nat -> bool, verdict: nat -> bool) {
    forall i :: i in stragglers ==>
      && i < |ss|
      && (i !in results ==> ss[i].attempt.Pending? && Verdict(events, answers, i) == verdict(i))
      && (i in results ==> results[i] == verdict(i) && (results[i] ==> ss[i].attempt.Done?) && ss[i].decision.Some?)
  }

  function Noted(stragglers: seq<nat>, results: map<nat, bool>, h: Happening): map<nat, bool> {
    if h.Steps? && h.i in stragglers && h.i !in results && (h.action.LedgerAccepts? || h.action.LedgerRejects?)
    then results[h.i := h.action.LedgerAccepts?] else results
  }

  lemma AwaitOne(ss: seq<State>, stragglers: seq<nat>, results: map<nat, bool>, events: seq<Happening>,
                 answers: nat -> bool, verdict: nat -> bool, handlers: bool)
    requires events != [] && AllInv(ss) && Awaited(ss, stragglers, results, events, answers, verdict)
    ensures Awaited(Happen(ss, events[0], handlers), stragglers, Noted(stragglers, results, events[0]), events[1..],
                    answers, verdict)
  {
    hide Inv, Step;
    var h := events[0];
    var tt := Happen(ss, h, handlers);
    HappenKeeps(ss, h, handlers);
    forall i | i in stragglers
      ensures var now := Noted(stragglers, results, h);
              && i < |tt|
              && (i !in now ==> tt[i].attempt.Pending? && Verdict(events[1..], answers, i) == verdict(i))
              && (i in now ==> now[i] == verdict(i) && (now[i] ==> tt[i].attempt.Done?) && tt[i].decision.Some?)
    {
      if h.Steps? && h.i == i && Enabled(ss[i], h.action) && i !in results {
        PendingStays(ss[i], h.action);
        PendingDecided(ss[i]);
      }
    }
  }

  /** The streams that are in the registry. */
  ghost predicate Lists(live: seq<nat>, ss: seq<State>) {
    forall i: nat :: i in live <==> i < |ss| && ss[i].registered
  }

  /** The shutdown registry: every stream ever registered; one is in it while its flag says so. */
  class Registry {
    var streams: seq<State>

    constructor ()
      ensures streams == []
    {
      streams := [];
    }

    method Happens(h: Happening, handlers: bool)
      modifies this
      ensures streams == Happen(old(streams), h, handlers)
    {
      match h {
        case Joins(hold, inputFloor, scan) =>
          if handlers {
            streams := streams + [Initial(hold, inputFloor, scan)];
          }
        case Steps(i, action) =>
          if i < |streams| && Enabled(streams[i], action) {
            streams := streams[i := Step(streams[i], action)];
          }
      }
    }

    /** Some happenings, in order. */
    method Disturb(events: seq<Happening>, handlers: bool)
      requires AllInv(streams)
      modifies this
      ensures AllInv(streams) && Grown(old(streams), streams)
      ensures streams == HappenAll(old(streams), events, handlers)
    {
      hide Happen, AllInv, Grown;
      GrownSelf(streams);
      var n := 0;
      while n < |events|
        invariant 0 <= n <= |events|
        invariant AllInv(streams) && Grown(old(streams), streams)
        invariant streams == HappenAll(old(streams), events[..n], handlers)
      {
        assert events[..n + 1][..n] == events[..n];
        HappenKeeps(streams, events[n], handlers);
        GrownTransitive(old(streams), streams, Happen(streams, events[n], handlers));
        Happens(events[n], handlers);
        n := n + 1;
      }
      assert events[..n] == events;
    }

    /** The streams now in the registry. */
    method Live() returns (live: seq<nat>)
      ensures Lists(live, streams)
      ensures forall j, k :: 0 <= j < k < |live| ==> live[j] != live[k]
    {
      live := [];
      var i: nat := 0;
      while i < |streams|
        invariant 0 <= i <= |streams|
        invariant i <= |streams| && Lists(live, streams[..i])
        invariant forall j, k :: 0 <= j < k < |live| ==> live[j] != live[k]
      {
        assert i !in live;
        if streams[i].registered {
          live := live + [i];
        }
        i := i + 1;
      }
      assert streams[..i] == streams;
    }

    /** Every settlement is started before any is awaited. */
    method StartAll(stragglers: seq<nat>)
      requires AllInv(streams)
      requires forall i :: i in stragglers ==> i < |streams| && streams[i].registered
      requires forall j, k :: 0 <= j < k < |stragglers| ==> stragglers[j] != stragglers[k]
      modifies this
      ensures AllInv(streams) && |streams| == |old(streams)| && Grown(old(streams), streams)
      ensures forall i :: i in stragglers ==> streams[i] == Step(old(streams)[i], Drain) && streams[i].attempt.Pending?
      ensures forall i: nat :: i < |streams| && i !in stragglers ==> streams[i] == old(streams)[i]
    {
      hide Inv, Step, Extends;
      var n := 0;
      while n < |stragglers|
        invariant 0 <= n <= |stragglers| && |streams| == |old(streams)|
        invariant forall i :: i in stragglers[..n] ==> i in stragglers && i < |streams| && i < |old(streams)|
        invariant forall i :: i in stragglers[..n] ==> streams[i] == Step(old(streams)[i], Drain)
        invariant forall i: nat :: i < |streams| && i !in stragglers[..n] ==> streams[i] == old(streams)[i]
      {
        var i := stragglers[n];
        assert i in stragglers && i !in stragglers[..n];
        assert stragglers[..n + 1] == stragglers[..n] + [i];
        streams := streams[i := Step(streams[i], Drain)];
        n := n + 1;
      }
      assert stragglers[..n] == stragglers;
      forall i | 0 <= i < |streams|
        ensures Inv(streams[i]) && Extends(old(streams)[i], streams[i])
        ensures i in stragglers ==> streams[i].attempt.Pending?
      {
        Drained(old(streams)[i]);
        ExtendsSelf(old(streams)[i]);
      }
    }

    /** The settlements are awaited, and other things happen meanwhile; each is fulfilled or rejected once. */
    method AwaitAll(stragglers: seq<nat>, env: Environment, handlers: bool) returns (results: map<nat, bool>)
      requires AllInv(streams)
      requires forall i :: i in stragglers ==> i < |streams| && streams[i].attempt.Pending?
      modifies this
      ensures AllInv(streams) && Grown(old(streams), streams) && (!handlers ==> |streams| == |old(streams)|)
      ensures forall i :: i in stragglers ==>
                && i < |streams| && i in results && results[i] == Verdict(env.during, env.answers, i)
                && (results[i] ==> streams[i].attempt.Done?) && streams[i].decision.Some?
    {
      hide Happen, AllInv, Grown, Awaited, Verdict, Noted;
      ghost var verdict := (i: nat) => Verdict(env.during, env.answers, i);
      results := map[];
      var n := 0;
      GrownSelf(streams);
      AwaitNone(streams, stragglers, env, verdict);
      while n < |env.during|
        invariant 0 <= n <= |env.during|
        invariant AllInv(streams) && Grown(old(streams), streams) && (!handlers ==> |streams| == |old(streams)|)
        invariant Awaited(streams, stragglers, results, env.during[n..], env.answers, verdict)
      {
        assert env.during[n..][1..] == env.during[n + 1..];
        AwaitOne(streams, stragglers, results, env.during[n..], env.answers, verdict, handlers);
        HappenKeeps(streams, env.during[n], handlers);
        GrownTransitive(old(streams), streams, Happen(streams, env.during[n], handlers));
        results := Noted(stragglers, results, env.during[n]);
        Happens(env.during[n], handlers);
        n := n + 1;
      }
      assert env.during[n..] == [];
      n := 0;
      while n < |stragglers|
        invariant 0 <= n <= |stragglers|
        invariant AllInv(streams) && Grown(old(streams), streams) && (!handlers ==> |streams| == |old(streams)|)
        invariant Awaited(streams, stragglers, results, [], env.answers, verdict)
        invariant forall i :: i in stragglers[..n] ==> i in results
      {
        var i := stragglers[n];
        assert stragglers[..n + 1] == stragglers[..n] + [i];
        if i !in results {
          var h := Steps(i, if env.answers(i) then LedgerAccepts else LedgerRejects);
          AnswerLast(streams, stragglers, results, env.answers, verdict, i, handlers);
          HappenKeeps(streams, h, handlers);
          GrownTransitive(old(streams), streams, Happen(streams, h, handlers));
          results := results[i := env.answers(i)];
          Happens(h, handlers);
        }
        n := n + 1;
      }
      assert stragglers[..n] == stragglers;
      AwaitDone(streams, stragglers, results, env.answers, verdict);
    }

    /** Wait until no stream is live and every handler has returned, or the grace runs out; then start a settlement of
        every straggler before awaiting any, and count those the ledger accepted. One rejection strands no other. */
    method DrainInflight(env: Environment, start: nat, grace: nat, poll: nat, ghost maxLate: nat)
      returns (forceSettled: nat, stragglers: seq<nat>, clock: nat,
               ghost sleeps: nat, ghost snapshot: seq<State>, ghost started: seq<State>)
      requires poll >= 1 && forall n: nat :: env.late(n) <= maxLate
      requires AllInv(streams)
      modifies this
      ensures AllInv(streams)
      ensures WaitIsOver(old(streams), env, poll, grace, sleeps)
      ensures forall n: nat :: n < sleeps ==> !WaitIsOver(old(streams), env, poll, grace, n)
      ensures clock == start + Slept(env, poll, sleeps) && snapshot == AfterSleeps(old(streams), env, sleeps)
      ensures Grown(old(streams), snapshot) && Grown(snapshot, started) && Grown(started, streams)
      ensures |started| == |snapshot|
      ensures clock <= start + grace + poll + maxLate
      ensures clock < start + grace ==> stragglers == [] && forall i :: 0 <= i < |streams| ==> !streams[i].registered
      ensures Lists(stragglers, snapshot)
      ensures forall i :: i in stragglers ==> started[i] == Step(snapshot[i], Drain) && started[i].attempt.Pending?
      ensures forall i :: i in stragglers && Verdict(env.during, env.answers, i) ==> !streams[i].registered
      ensures forall i :: i in stragglers ==> streams[i].decision == started[i].decision && started[i].decision.Some?
      ensures forall i: nat :: i < |snapshot| && i !in stragglers ==> !streams[i].registered
      ensures forceSettled == |Fulfilled(stragglers, env)|
    {
      hide Inv, Step, Extends, Verdict, Enabled, Grown, AllInv, WaitIsOver, AfterSleeps, Slept;
      clock := start;
      var deadline := start + grace;
      var ticks: nat := 0;
      GrownSelf(streams);
      var live := Live();
      NoSleep(streams, env, poll);
      while (ticks < env.handlersReturn || live != []) && clock < deadline
        invariant clock <= deadline + poll + maxLate
        invariant Lists(live, streams)
        invariant AllInv(streams) && Grown(old(streams), streams)
        invariant streams == AfterSleeps(old(streams), env, ticks) && clock == start + Slept(env, poll, ticks)
        invariant forall n: nat :: n < ticks ==> !WaitIsOver(old(streams), env, poll, grace, n)
        decreases deadline - clock
      {
        ghost var before := streams;
        StillWaiting(old(streams), env, poll, grace, ticks, live);
        Disturb(env.busy(ticks), ticks < env.handlersReturn);
        GrownTransitive(old(streams), before, streams);
        clock := clock + poll + env.late(ticks);
        ticks := ticks + 1;
        live := Live();
      }
      Waited(old(streams), env, poll, grace, ticks, live);
      sleeps := ticks;
      snapshot := streams;
      stragglers := Live();
      StartAll(stragglers);
      started := streams;
      var results := AwaitAll(stragglers, env, ticks < env.handlersReturn);
      forceSettled := CountFulfilled(stragglers, results);
      Afterwards(snapshot, started, streams, stragglers);
      assert Trues(stragglers, results) == Fulfilled(stragglers, env);
      if stragglers != [] {
        StillLive(live, stragglers, snapshot);
      }
    }
  }

  lemma NoSleep(ss: seq<State>, env: Environment, poll: nat)
    ensures AfterSleeps(ss, env, 0) == ss && Slept(env, poll, 0) == 0
  {
  }

  lemma StillWaiting(ss: seq<State>, env: Environment, poll: nat, grace: nat, n: nat, live: seq<nat>)
    requires Lists(live, AfterSleeps(ss, env, n)) && Slept(env, poll, n) < grace
    requires n < env.handlersReturn || live != []
    ensures !WaitIsOver(ss, env, poll, grace, n)
    ensures AfterSleeps(ss, env, n + 1)
         == HappenAll(AfterSleeps(ss, env, n), env.busy(n), n < env.handlersReturn)
    ensures Slept(env, poll, n + 1) == Slept(env, poll, n) + poll + env.late(n)
  {
    hide HappenAll;
    if live != [] {
      assert live[0] in live;
      assert AfterSleeps(ss, env, n)[live[0]] in AfterSleeps(ss, env, n);
    }
  }

  lemma Waited(ss: seq<State>, env: Environment, poll: nat, grace: nat, n: nat, live: seq<nat>)
    requires Lists(live, AfterSleeps(ss, env, n))
    requires Slept(env, poll, n) >= grace || (n >= env.handlersReturn && live == [])
    ensures WaitIsOver(ss, env, poll, grace, n)
  {
    hide AfterSleeps;
    forall s | s in AfterSleeps(ss, env, n) && live == [] ensures !s.registered {
      var i :| 0 <= i < |AfterSleeps(ss, env, n)| && AfterSleeps(ss, env, n)[i] == s;
      assert (i as nat) !in live;
    }
  }

  lemma StillLive(live: seq<nat>, stragglers: seq<nat>, ss: seq<State>)
    requires Lists(live, ss) && Lists(stragglers, ss) && stragglers != []
    ensures live != []
  {
    assert stragglers[0] in stragglers;
    assert stragglers[0] in live;
  }

  /** The stragglers whose settlement the ledger accepts. */
  ghost function Fulfilled(stragglers: seq<nat>, env: Environment): set<nat> {
    set i | i in stragglers && Verdict(env.during, env.answers, i)
  }

  ghost function Trues(stragglers: seq<nat>, results: map<nat, bool>): set<nat>
    requires forall i :: i in stragglers ==> i in results
  {
    set i | i in stragglers && results[i]
  }

  lemma Drained(s: State)
    requires Inv(s)
    ensures Inv(Step(s, Drain)) && Extends(s, Step(s, Drain))
    ensures s.registered ==> Step(s, Drain).attempt.Pending?
  {
    hide Step;
    InvStep(s, Drain);
    StepExtends(s, Drain);
    if s.registered {
      DrainStep(s);
    }
  }

  lemma AwaitNone(ss: seq<State>, stragglers: seq<nat>, env: Environment, verdict: nat -> bool)
    requires forall i :: i in stragglers ==> i < |ss| && ss[i].attempt.Pending?
    requires forall i: nat :: verdict(i) == Verdict(env.during, env.answers, i)
    ensures Awaited(ss, stragglers, map[], env.during[0..], env.answers, verdict)
  {
    hide Verdict;
    assert env.during[0..] == env.during;
  }

  lemma AnswerLast(ss: seq<State>, stragglers: seq<nat>, results: map<nat, bool>, answers: nat -> bool,
                   verdict: nat -> bool, i: nat, handlers: bool)
    requires AllInv(ss) && Awaited(ss, stragglers, results, [], answers, verdict) && i in stragglers && i !in results
    ensures var h := Steps(i, if answers(i) then LedgerAccepts else LedgerRejects);
            Awaited(Happen(ss, h, handlers), stragglers, results[i := answers(i)], [], answers, verdict)
  {
    hide Inv, Step;
    var a := if answers(i) then LedgerAccepts else LedgerRejects;
    HappenKeeps(ss, Steps(i, a), handlers);
    PendingStays(ss[i], a);
    PendingDecided(ss[i]);
  }

  lemma AwaitDone(ss: seq<State>, stragglers: seq<nat>, results: map<nat, bool>, answers: nat -> bool,
                  verdict: nat -> bool)
    requires Awaited(ss, stragglers, results, [], answers, verdict)
    requires forall i :: i in stragglers ==> i in results
    ensures forall i :: i in stragglers ==>
              i < |ss| && results[i] == verdict(i) && (results[i] ==> ss[i].attempt.Done?) && ss[i].decision.Some?
  {
  }

  /** The drain fixed what it settled: a straggler keeps its decision, and whoever was not one is out for good. */
  lemma Afterwards(snapshot: seq<State>, started: seq<State>, streams: seq<State>, stragglers: seq<nat>)
    requires AllInv(snapshot) && AllInv(started) && AllInv(streams)
    requires Grown(snapshot, started) && Grown(started, streams) && |started| == |snapshot|
    requires Lists(stragglers, snapshot)
    requires forall i :: i in stragglers ==> started[i].attempt.Pending?
    ensures forall i :: i in stragglers ==> started[i].decision.Some? && streams[i].decision == started[i].decision
    ensures forall i :: i in stragglers && streams[i].attempt.Done? ==> !streams[i].registered
    ensures forall i: nat :: i < |snapshot| && i !in stragglers ==> !streams[i].registered
  {
    hide Core, Shown;
    forall i: nat | i < |snapshot|
      ensures i in stragglers ==> started[i].decision.Some? && streams[i].decision == started[i].decision
      ensures streams[i].attempt.Done? ==> !streams[i].registered
      ensures i !in stragglers ==> !streams[i].registered
    {
      DoneIsReleased(streams[i]);
      ExtendsTransitive(snapshot[i], started[i], streams[i]);
      ReleasedForGood(snapshot[i], streams[i]);
      if i in stragglers {
        PendingDecided(started[i]);
      }
    }
  }

  lemma DoneIsReleased(s: State)
    requires Inv(s)
    ensures s.attempt.Done? ==> !s.registered
  {
  }

  /** The loop over the results. */
  method CountFulfilled(stragglers: seq<nat>, results: map<nat, bool>) returns (fulfilled: nat)
    requires forall i :: i in stragglers ==> i in results
    requires forall j, k :: 0 <= j < k < |stragglers| ==> stragglers[j] != stragglers[k]
    ensures fulfilled == |Trues(stragglers, results)|
  {
    hide Trues;
    fulfilled := 0;
    var n := 0;
    TruesNone(results);
    assert stragglers[..0] == [];
    while n < |stragglers|
      invariant 0 <= n <= |stragglers|
      invariant forall i :: i in stragglers[..n] ==> i in results
      invariant fulfilled == |Trues(stragglers[..n], results)|
    {
      var i := stragglers[n];
      assert stragglers[..n + 1] == stragglers[..n] + [i] && i !in stragglers[..n];
      TruesNext(stragglers[..n], i, results);
      if results[i] {
        fulfilled := fulfilled + 1;
      }
      n := n + 1;
    }
    assert stragglers[..n] == stragglers;
  }

  lemma TruesNone(results: map<nat, bool>)
    ensures Trues([], results) == {}
  {
  }

  lemma TruesNext(some: seq<nat>, i: nat, results: map<nat, bool>)
    requires i !in some && i in results && forall j :: j in some ==> j in results
    ensures |Trues(some + [i], results)| == |Trues(some, results)| + if results[i] then 1 else 0
  {
    assert Trues(some + [i], results) == Trues(some, results) + if results[i] then {i} else {};
  }
}
