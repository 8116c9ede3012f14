/** The terminal race of one streaming request (core/src/handler.ts): end of stream, read error, client cancel,
    settle deadline and shutdown drain compete to settle one hold through a ledger that may reject. Each block of the
    source between two awaits is one step. */
module StreamRace {
  import opened Wrappers
  import Ledger
  import LedgerRuns

  datatype Cause = Complete | UpstreamError | UpstreamTimeout | ClientCancel | Deadline | ShutdownDrain

  datatype Evidence = Reported | Estimated

  /** The priced usage the scanner has evidence for. */
  datatype Metered = Metered(cost: int, evidence: Evidence)

  /** What the scanner would answer now: its error flag, and its result in the full and the evidenced-only mode. */
  datatype Scan = Scan(errored: bool, full: Option<Metered>, evidenced: Option<Metered>)

  datatype Decision =
    | Served(cost: int)
    | Partial(cost: int)
    | UpstreamPartial(cost: int, evidence: Evidence)
    | UpstreamAborted
    | ShutdownAborted
    | UnmeteredComplete
  {
    function Cost(): int {
      match this
      case Served(c) => c
      case Partial(c) => c
      case UpstreamPartial(c, _) => c
      case _ => 0
    }
  }

  predicate UpstreamFailed(cause: Cause, scan: Scan) {
    cause.UpstreamError? || cause.UpstreamTimeout? || scan.errored
  }

  /** The policy table, with the scanner mode the settlement asks for. */
  function Decide(cause: Cause, scan: Scan, inputFloor: int): Decision {
    var failed := UpstreamFailed(cause, scan);
    var metered := if failed || cause.ShutdownDrain? then scan.evidenced else scan.full;
    if metered.Some? then
      if failed then UpstreamPartial(metered.value.cost, metered.value.evidence)
      else if cause.Complete? then Served(metered.value.cost)
      else Partial(metered.value.cost)
    else if failed then UpstreamAborted
    else if cause.ClientCancel? || cause.Deadline? then Partial(inputFloor)
    else if cause.ShutdownDrain? then ShutdownAborted
    else UnmeteredComplete
  }

  /** The clamp of billActual: never below zero, never above the hold. */
  function Clamp(cost: int, hold: nat): (charge: int)
    ensures 0 <= charge <= hold
    ensures 0 <= cost <= hold ==> charge == cost
    ensures cost <= 0 ==> charge == 0
    ensures cost >= hold ==> charge == hold
  {
    var floor := if cost < 0 then 0 else cost;
    if floor > hold then hold else floor
  }

  datatype Attempt = Idle | Pending | Done
  datatype Downstream = Open | Closed | Errored

  /** The pull of the client's stream: still reading, or awaiting the settlement after it met the end or a failure. */
  datatype Pull = Reading | Closing | Failing

  /** The variables of one stream. The last three are history: every charge ever sent to the ledger, how often the
      ledger completed, and whether the body had ended on its own when the decision was taken. */
  datatype State = State(
    hold: nat,
    inputFloor: int,
    scan: Scan,
    ended: bool,
    cancelled: bool,
    requested: Option<Cause>,
    decision: Option<Decision>,
    cause: Option<Cause>,
    attempt: Attempt,
    registered: bool,
    armed: bool,
    cancelling: bool,
    pull: Pull,
    completed: Option<int>,
    downstream: Downstream,
    calls: seq<int>,
    completions: nat,
    cleanEnd: bool
  )

  function Initial(hold: nat, inputFloor: int, scan: Scan): State {
    State(hold, inputFloor, scan, false, false, None, None, None, Idle, true, true, false, Reading, None, Open,
          [], 0, false)
  }

  datatype Action =
    | Chunk(scan: Scan)          // a chunk was read and fed to the scanner
    | BodyEnds                   // the upstream body ends on its own
    | ReadDone                   // a pending read reports the end: of the body, or of our cancelling it
    | ReadFails(timeout: bool)   // a pending read rejects
    | CancelBegins               // the client goes away
    | CancelSettles              // … and the reader's cancellation has been awaited
    | DeadlineFires
    | Drain                      // the shutdown calls settle
    | LedgerAccepts
    | LedgerRejects              // the call failed, or the ledger does not know the hold

  predicate Enabled(s: State, a: Action) {
    match a
    case Chunk(_) => s.pull.Reading?
    case ReadDone => s.pull.Reading? && (s.ended || s.cancelled)
    case ReadFails(_) => s.pull.Reading?
    case CancelSettles => s.cancelling
    case DeadlineFires => s.armed
    case LedgerAccepts => s.attempt.Pending?
    case LedgerRejects => s.attempt.Pending?
    case _ => true
  }

  /** settle(): join the pending or finished attempt, else fix the decision if it is not fixed, and call the ledger. */
  function Settle(s: State, cause: Cause): State {
    if !s.attempt.Idle? then s
    else
      var d := if s.decision.Some? then s else Fix(s, cause);
      d.(attempt := Pending, calls := d.calls + [Clamp(d.decision.value.Cost(), d.hold)])
  }

  function Fix(s: State, cause: Cause): (d: State)
    ensures d.decision.Some?
  {
    var t := Recorded(s, cause);
    if cause.ShutdownDrain? then Terminated(t) else t
  }

  function Recorded(s: State, cause: Cause): State {
    s.(decision := Some(Decide(cause, s.scan, s.inputFloor)),
       cause := Some(cause),
       armed := false,
       cleanEnd := s.ended && !s.cancelled)
  }

  /** A drain also stops the blocked read and the client's stream. */
  function Terminated(s: State): State {
    s.(requested := Some(ShutdownDrain), cancelled := true, downstream := Errored)
  }

  /** Once the settlement it awaits is done, a pull closes the client's stream at the end and errors it on a failure. */
  function Finish(s: State): State {
    if s.attempt.Done? && s.downstream.Open? then
      s.(downstream := match s.pull
           case Reading => Open
           case Closing => Closed
           case Failing => Errored)
    else s
  }

  function Expired(s: State): State {
    s.(requested := Some(Deadline), cancelled := true, armed := false)
  }

  function Accepted(s: State): State {
    s.(attempt := Done,
       completed := Some(Clamp(if s.decision.Some? then s.decision.value.Cost() else 0, s.hold)),
       registered := false,
       completions := s.completions + 1)
  }

  function FailureCause(timeout: bool): Cause {
    if timeout then UpstreamTimeout else UpstreamError
  }

  function Step(s: State, a: Action): State {
    match a
    case Chunk(scan) => s.(scan := scan)
    case BodyEnds => s.(ended := true)
    case ReadDone => Finish(Settle(s.(pull := Closing), s.requested.GetOr(Complete)))
    case ReadFails(timeout) =>
      Finish(Settle(s.(pull := Failing), s.requested.GetOr(FailureCause(timeout))))
    case CancelBegins => s.(requested := Some(ClientCancel), cancelled := true, cancelling := true)
    case CancelSettles => Settle(s.(cancelling := false), ClientCancel)
    case DeadlineFires => Settle(Expired(s), Deadline).(downstream := Errored)
    case Drain => Settle(s, ShutdownDrain)
    case LedgerAccepts => Finish(Accepted(s))
    case LedgerRejects =>
      s.(attempt := Idle, downstream := if s.pull.Reading? then s.downstream else Errored)
  }

  ghost predicate Runs(s: State, actions: seq<Action>, t: State)
    decreases |actions|
  {
    if actions == [] then s == t else Enabled(s, actions[0]) && Runs(Step(s, actions[0]), actions[1..], t)
  }

  /** The last of a run's actions, and the state it found. */
  lemma {:induction false} RunsLast(s: State, actions: seq<Action>, t: State) returns (m: State)
    requires actions != [] && Runs(s, actions, t)
    ensures var n := |actions| - 1;
            Runs(s, actions[..n], m) && Enabled(m, actions[n]) && t == Step(m, actions[n])
    decreases |actions|
  {
    hide Step, Enabled;
    var n := |actions| - 1;
    if n == 0 {
      m := s;
    } else {
      m := RunsLast(Step(s, actions[0]), actions[1..], t);
      assert actions[1..][..n - 1] == actions[..n][1..] && actions[1..][n - 1] == actions[n];
    }
  }

  lemma {:induction false} RunsMore(s: State, actions: seq<Action>, t: State, a: Action)
    requires Runs(s, actions, t) && Enabled(t, a)
    ensures Runs(s, actions + [a], Step(t, a))
    decreases |actions|
  {
    hide Step, Enabled;
    if actions == [] {
      assert ([] + [a])[1..] == [] && Runs(Step(t, a), [], Step(t, a));
    } else {
      RunsMore(Step(s, actions[0]), actions[1..], t, a);
      assert (actions + [a])[1..] == actions[1..] + [a];
    }
  }

  /** What the scanner would answer after the given actions: what it would after the last chunk among them. */
  function LastScan(scan: Scan, actions: seq<Action>): Scan {
    if actions == [] then scan
    else
      var n := |actions| - 1;
      if actions[n].Chunk? then actions[n].scan else LastScan(scan, actions[..n])
  }

  lemma {:induction false} ScanIsLast(s: State, actions: seq<Action>, t: State)
    requires Runs(s, actions, t)
    ensures t.scan == LastScan(s.scan, actions)
    decreases |actions|
  {
    if actions != [] {
      var n := |actions| - 1;
      var m := RunsLast(s, actions, t);
      ScanIsLast(s, actions[..n], m);
      ScanStep(m, actions[n]);
    }
  }

  lemma ScanStep(s: State, a: Action)
    ensures Step(s, a).scan == if a.Chunk? then a.scan else s.scan
  {
    hide Decide, Clamp;
  }

  // ---- What every interleaving keeps ----

  ghost predicate Inv(s: State) {
    Core(s) && Shown(s)
  }

  /** Decision, ledger calls and completion. */
  ghost predicate Core(s: State) {
    && (s.decision.Some? <==> s.cause.Some?)
    && (s.decision.None? ==> s.attempt.Idle? && s.calls == [])
    && (!s.attempt.Idle? ==> s.calls != [])
    && (forall i :: 0 <= i < |s.calls| ==> s.decision.Some? && s.calls[i] == Clamp(s.decision.value.Cost(), s.hold))
    && (s.registered <==> !s.attempt.Done?)
    && (s.completed.Some? <==> s.attempt.Done?)
    && (s.completed.Some? ==> s.decision.Some? && s.completed.value == Clamp(s.decision.value.Cost(), s.hold))
    && s.completions == (if s.attempt.Done? then 1 else 0)
    && (s.cancelled ==> s.requested.Some?)
    && (s.requested.Some? ==> !s.requested.value.Complete?)
    && (s.cause == Some(Complete) ==> s.cleanEnd)
    && (s.decision.Some? && s.decision.value.Served? ==> s.cause == Some(Complete))
    && (s.armed ==> s.decision.None?)
  }

  /** What the client sees: a clean close means a completed charge and the end of the body; and a pull whose settlement
      is done has ended the stream one way or the other. */
  ghost predicate Shown(s: State) {
    && (s.downstream.Closed? ==> s.completed.Some? && s.pull.Closing?)
    && (s.attempt.Done? && !s.pull.Reading? ==> !s.downstream.Open?)
  }

  lemma InvInitial(hold: nat, inputFloor: int, scan: Scan)
    ensures Inv(Initial(hold, inputFloor, scan))
  {
  }

  lemma FixKeeps(s: State, cause: Cause)
    requires Core(s) && s.decision.None? && (cause.Complete? ==> s.ended && !s.cancelled)
    ensures var d := Fix(s, cause);
            && d.decision == Some(Decide(cause, s.scan, s.inputFloor)) && d.cause == Some(cause)
            && (d.cancelled ==> d.requested.Some?) && (d.requested.Some? ==> !d.requested.value.Complete?)
            && (cause.Complete? ==> d.cleanEnd) && !d.armed
            && d.attempt.Idle? && d.calls == [] && d.hold == s.hold && d.registered && d.completed.None?
            && d.completions == 0 && d.pull == s.pull && (d.downstream == s.downstream || d.downstream.Errored?)
            && (d.decision.value.Served? ==> cause.Complete?)
  {
    hide Clamp;
  }

  /** A settlement keeps the core, and never closes the client's stream. */
  lemma SettleKeeps(s: State, cause: Cause)
    requires Core(s) && (cause.Complete? ==> s.ended && !s.cancelled)
    ensures Core(Settle(s, cause))
    ensures var d := Settle(s, cause);
            && d.pull == s.pull && (d.downstream == s.downstream || d.downstream.Errored?)
            && (if s.attempt.Idle? then d.attempt.Pending? else d == s)
  {
    hide Decide, Clamp, Fix;
    if s.attempt.Idle? && s.decision.None? {
      FixKeeps(s, cause);
    }
  }

  lemma SettleKeepsInv(s: State, cause: Cause)
    requires Inv(s) && (cause.Complete? ==> s.ended && !s.cancelled)
    ensures Inv(Settle(s, cause))
  {
    hide Settle;
    SettleKeeps(s, cause);
    StillOpen(s);
    hide Core;
  }

  lemma StillOpen(s: State)
    requires Inv(s)
    ensures s.downstream.Closed? ==> s.attempt.Done? && s.pull.Closing?
  {
    hide Clamp;
  }

  /** A pull that has just met its end, and settles, leaves the client's stream as it should be. */
  lemma PullKeeps(s: State, cause: Cause)
    requires Core(s) && !s.downstream.Closed? && (cause.Complete? ==> s.ended && !s.cancelled)
    ensures Inv(Finish(Settle(s, cause)))
  {
    hide Settle;
    SettleKeeps(s, cause);
    FinishKeeps(Settle(s, cause));
  }

  lemma FinishKeeps(s: State)
    requires Core(s) && !s.downstream.Closed?
    ensures Inv(Finish(s))
  {
    hide Clamp;
  }

  lemma InvStep(s: State, a: Action)
    requires Inv(s) && Enabled(s, a)
    ensures Inv(Step(s, a))
  {
    hide Settle, Finish, Clamp, Decide;
    match a
    case ReadDone => PullKeeps(s.(pull := Closing), s.requested.GetOr(Complete));
    case ReadFails(timeout) => PullKeeps(s.(pull := Failing), s.requested.GetOr(FailureCause(timeout)));
    case CancelSettles => SettleKeepsInv(s.(cancelling := false), ClientCancel);
    case DeadlineFires =>
      SettleKeepsInv(Expired(s), Deadline);
      ErroredKeeps(Settle(Expired(s), Deadline));
    case Drain => SettleKeepsInv(s, ShutdownDrain);
    case LedgerAccepts => AcceptKeeps(s);
    case LedgerRejects => RejectKeeps(s);
    case _ =>
  }

  lemma ErroredKeeps(s: State)
    requires Inv(s)
    ensures Inv(s.(downstream := Errored))
  {
    hide Clamp;
  }

  lemma AcceptKeeps(s: State)
    requires Inv(s) && s.attempt.Pending?
    ensures Inv(Finish(Accepted(s)))
  {
    hide Clamp, Finish;
    FinishKeeps(Accepted(s));
  }

  lemma RejectKeeps(s: State)
    requires Inv(s) && s.attempt.Pending?
    ensures Inv(Step(s, LedgerRejects))
  {
    hide Clamp;
  }

  /** A step completes the attempt exactly when the ledger accepts, and completes it once. */
  lemma StepAttempt(s: State, a: Action)
    requires Inv(s) && Enabled(s, a)
    ensures Step(s, a).attempt.Done? <==> s.attempt.Done? || a.LedgerAccepts?
    ensures a.LedgerAccepts? ==> !s.attempt.Done? && s.decision.Some? && Step(s, a).decision == s.decision
    ensures s.attempt.Done? ==> s.decision.Some? && Step(s, a).decision == s.decision
    ensures s.completed.Some? ==> s.attempt.Done? && Step(s, a).completed == s.completed
  {
    hide Decide, Clamp, Settle, Finish;
    match a
    case ReadDone => PullAttempt(s, Closing, s.requested.GetOr(Complete));
    case ReadFails(timeout) => PullAttempt(s, Failing, s.requested.GetOr(FailureCause(timeout)));
    case CancelSettles => SettleAttempt(s.(cancelling := false), ClientCancel);
    case DeadlineFires => SettleAttempt(Expired(s), Deadline);
    case Drain => SettleAttempt(s, ShutdownDrain);
    case LedgerAccepts => FinishExtends(Accepted(s));
    case _ =>
  }

  lemma PullAttempt(s: State, pull: Pull, cause: Cause)
    ensures var d := Finish(Settle(s.(pull := pull), cause));
            && (d.attempt.Done? <==> s.attempt.Done?) && d.completed == s.completed
            && (s.attempt.Done? ==> d.decision == s.decision)
  {
    hide Settle, Finish;
    SettleAttempt(s.(pull := pull), cause);
    FinishExtends(Settle(s.(pull := pull), cause));
  }

  lemma SettleAttempt(s: State, cause: Cause)
    ensures Settle(s, cause).attempt.Done? <==> s.attempt.Done?
    ensures Settle(s, cause).completed == s.completed
    ensures s.attempt.Done? ==> Settle(s, cause) == s
  {
    hide Decide, Clamp;
  }

  lemma {:induction false} InvRuns(s: State, actions: seq<Action>, t: State)
    requires Inv(s) && Runs(s, actions, t)
    ensures Inv(t)
    decreases |actions|
  {
    if actions != [] {
      InvStep(s, actions[0]);
      InvRuns(Step(s, actions[0]), actions[1..], t);
    }
  }

  /** What no later step undoes. */
  ghost predicate Extends(s: State, t: State) {
    && t.hold == s.hold && t.inputFloor == s.inputFloor
    && (s.decision.Some? ==> t.decision == s.decision && t.cause == s.cause && t.cleanEnd == s.cleanEnd)
    && (s.attempt.Done? ==> t.attempt.Done? && t.calls == s.calls && t.completions == s.completions)
    && |s.calls| <= |t.calls| && t.calls[..|s.calls|] == s.calls
  }

  lemma SettleExtends(s: State, cause: Cause)
    ensures Extends(s, Settle(s, cause))
  {
    hide Decide, Clamp, Fix;
    if s.attempt.Idle? {
      FixCallsNobody(s, cause);
      var t := Settle(s, cause);
      assert t.calls == s.calls + [t.calls[|s.calls|]];
    }
  }

  lemma FixCallsNobody(s: State, cause: Cause)
    ensures Fix(s, cause).calls == s.calls && Fix(s, cause).hold == s.hold && Fix(s, cause).inputFloor == s.inputFloor
  {
    hide Decide;
  }

  lemma FinishExtends(s: State)
    ensures var t := Finish(s);
            && t.hold == s.hold && t.inputFloor == s.inputFloor
            && t.decision == s.decision && t.cause == s.cause && t.cleanEnd == s.cleanEnd
            && t.attempt == s.attempt && t.calls == s.calls && t.completions == s.completions
            && t.completed == s.completed
  {
  }

  lemma PullExtends(s: State, pull: Pull, cause: Cause)
    ensures Extends(s, Finish(Settle(s.(pull := pull), cause)))
  {
    hide Settle, Finish;
    SettleExtends(s.(pull := pull), cause);
    FinishExtends(Settle(s.(pull := pull), cause));
  }

  lemma ExpiredExtends(s: State)
    ensures Extends(s, Settle(Expired(s), Deadline).(downstream := Errored))
  {
    hide Settle;
    SettleExtends(Expired(s), Deadline);
  }

  lemma AcceptExtends(s: State)
    requires s.attempt.Pending?
    ensures Extends(s, Finish(Accepted(s)))
  {
    hide Finish, Clamp;
    FinishExtends(Accepted(s));
  }

  lemma StepExtends(s: State, a: Action)
    requires Inv(s) && Enabled(s, a)
    ensures Extends(s, Step(s, a))
  {
    hide Decide, Clamp, Settle, Finish, Core, Shown, Accepted, Expired;
    match a
    case ReadDone => PullExtends(s, Closing, s.requested.GetOr(Complete));
    case ReadFails(timeout) => PullExtends(s, Failing, s.requested.GetOr(FailureCause(timeout)));
    case CancelSettles => SettleExtends(s.(cancelling := false), ClientCancel);
    case DeadlineFires => ExpiredExtends(s);
    case Drain => SettleExtends(s, ShutdownDrain);
    case LedgerAccepts => AcceptExtends(s);
    case LedgerRejects =>
    case _ =>
  }

  lemma {:induction false} RunExtends(s: State, actions: seq<Action>, t: State)
    requires Inv(s) && Runs(s, actions, t)
    ensures Extends(s, t)
    decreases |actions|
  {
    hide Inv, Step, Enabled;
    if actions != [] {
      var m := Step(s, actions[0]);
      InvStep(s, actions[0]);
      StepExtends(s, actions[0]);
      RunExtends(m, actions[1..], t);
      assert t.calls[..|s.calls|] == t.calls[..|m.calls|][..|s.calls|];
    }
  }

  /** Under every interleaving: the first settlement fixes cause and charge for ever; every ledger call of the hold
      carries that one charge, within the hold; the ledger completes at most once; the stream is registered for the
      shutdown exactly until it has; the client sees a clean close only after that, and only at the end of the body; and
      a pull that met the end or a failure leaves no client waiting once the charge is definite. */
  lemma TerminalRace(hold: nat, inputFloor: int, scan: Scan, first: seq<Action>, s: State, rest: seq<Action>, t: State)
    requires Runs(Initial(hold, inputFloor, scan), first, s) && Runs(s, rest, t)
    ensures s.decision.Some? ==> t.decision == s.decision && t.cause == s.cause
    ensures forall i, j :: 0 <= i < |t.calls| && 0 <= j < |t.calls| ==> t.calls[i] == t.calls[j]
    ensures forall i :: 0 <= i < |t.calls| ==> 0 <= t.calls[i] <= hold
    ensures t.completions <= 1 && (t.completed.Some? <==> t.completions == 1)
    ensures t.completed.Some? ==> t.calls != [] && t.completed.value == t.calls[0]
    ensures t.registered <==> t.completed.None?
    ensures t.downstream.Closed? ==> t.completed.Some? && t.pull.Closing?
    ensures t.completed.Some? && !t.pull.Reading? ==> !t.downstream.Open?
  {
    InvInitial(hold, inputFloor, scan);
    InvRuns(Initial(hold, inputFloor, scan), first, s);
    RunExtends(Initial(hold, inputFloor, scan), first, s);
    InvRuns(s, rest, t);
    RunExtends(s, rest, t);
  }

  /** A read woken by a local cancel is never decided as a clean completion: a decision counts as complete, and so as
      served, only if the body had ended on its own and nobody had cancelled it; and it is served at the cost the last
      chunk left. */
  lemma CleanCompletion(hold: nat, inputFloor: int, scan: Scan, actions: seq<Action>, a: Action, s: State)
    requires Runs(Initial(hold, inputFloor, scan), actions, s) && Enabled(s, a) && s.decision.None?
    requires Step(s, a).decision.Some? && (Step(s, a).cause == Some(Complete) || Step(s, a).decision.value.Served?)
    ensures a == ReadDone && s.ended && !s.cancelled
    ensures var known := LastScan(scan, actions);
            Step(s, a).decision.value.Served? ==>
              !known.errored && known.full.Some? && Step(s, a).decision.value.cost == known.full.value.cost
  {
    InvInitial(hold, inputFloor, scan);
    InvRuns(Initial(hold, inputFloor, scan), actions, s);
    ScanIsLast(Initial(hold, inputFloor, scan), actions, s);
    CleanStep(s, a);
  }

  lemma CleanStep(s: State, a: Action)
    requires Inv(s) && Enabled(s, a) && s.decision.None?
    requires Step(s, a).decision.Some? && (Step(s, a).cause == Some(Complete) || Step(s, a).decision.value.Served?)
    ensures a == ReadDone && s.ended && !s.cancelled
    ensures Step(s, a).decision.value.Served? ==>
              !s.scan.errored && s.scan.full.Some? && Step(s, a).decision.value.cost == s.scan.full.value.cost
  {
    hide Step, Decide, Settle;
    DecidedByPolicy(s, a);
    ServedMeans(CauseOf(s, a), s.scan, s.inputFloor);
  }

  /** The cause with which an action calls settle(), if it does. */
  function CauseOf(s: State, a: Action): Cause {
    match a
    case ReadDone => s.requested.GetOr(Complete)
    case ReadFails(timeout) => s.requested.GetOr(FailureCause(timeout))
    case CancelSettles => ClientCancel
    case DeadlineFires => Deadline
    case _ => ShutdownDrain
  }

  /** The step that decides does so by its own cause, on what the scanner knows then. */
  lemma DecidedByPolicy(s: State, a: Action)
    requires Inv(s) && Enabled(s, a) && s.decision.None? && Step(s, a).decision.Some?
    ensures Step(s, a).cause == Some(CauseOf(s, a))
    ensures Step(s, a).decision == Some(Decide(CauseOf(s, a), s.scan, s.inputFloor))
  {
    hide Settle, Finish, Decide, Clamp;
    match a
    case ReadDone => PullDecides(s, Closing, CauseOf(s, a));
    case ReadFails(_) => PullDecides(s, Failing, CauseOf(s, a));
    case CancelSettles => SettleDecides(s.(cancelling := false), ClientCancel);
    case DeadlineFires => SettleDecides(Expired(s), Deadline);
    case Drain => SettleDecides(s, ShutdownDrain);
    case LedgerAccepts => FinishExtends(Accepted(s));
    case _ =>
  }

  lemma PullDecides(s: State, pull: Pull, cause: Cause)
    requires s.decision.None? && s.attempt.Idle?
    ensures var d := Finish(Settle(s.(pull := pull), cause));
            d.cause == Some(cause) && d.decision == Some(Decide(cause, s.scan, s.inputFloor))
  {
    hide Settle, Finish, Decide;
    SettleDecides(s.(pull := pull), cause);
    FinishExtends(Settle(s.(pull := pull), cause));
  }

  /** The first settlement decides by its own cause, on what the scanner knows at that moment. */
  lemma SettleDecides(s: State, cause: Cause)
    requires s.decision.None? && s.attempt.Idle?
    ensures Settle(s, cause).cause == Some(cause)
    ensures Settle(s, cause).decision == Some(Decide(cause, s.scan, s.inputFloor))
  {
    hide Decide, Clamp;
  }

  lemma ServedMeans(cause: Cause, scan: Scan, inputFloor: int)
    ensures var d := Decide(cause, scan, inputFloor);
            d.Served? ==> cause.Complete? && !scan.errored && scan.full.Some? && d.cost == scan.full.value.cost
  {
  }

  /** A stream that failed or was drained is charged only on evidence: with none it is refunded in full. */
  lemma ChargedOnEvidence(cause: Cause, scan: Scan, inputFloor: int)
    requires UpstreamFailed(cause, scan) || cause.ShutdownDrain?
    ensures scan.evidenced.None? <==> Decide(cause, scan, inputFloor) in {UpstreamAborted, ShutdownAborted}
    ensures Decide(cause, scan, inputFloor).Cost() == (if scan.evidenced.Some? then scan.evidenced.value.cost else 0)
    ensures !Decide(cause, scan, inputFloor).Served?
  {
  }

  /** A healthy stream that its caller or the deadline ended is never free: it pays what the scanner has metered, or
      the input floor. One that ended on its own pays what was metered, and is free exactly when nothing was. */
  lemma CallerPays(cause: Cause, scan: Scan, inputFloor: int)
    requires !UpstreamFailed(cause, scan) && !cause.ShutdownDrain?
    ensures var d := Decide(cause, scan, inputFloor);
            && (d.Partial? <==> !cause.Complete?)
            && (d.Served? <==> cause.Complete? && scan.full.Some?)
            && (d.UnmeteredComplete? <==> cause.Complete? && scan.full.None?)
            && d.Cost() == (if scan.full.Some? then scan.full.value.cost else if cause.Complete? then 0 else inputFloor)
  {
  }

  /** What the scanner knew when the first terminal cause came decides the charge, for ever: whatever arrives, ends or
      fails afterwards, and however often the ledger has to be asked, the charge that completes is that of the policy on
      what the chunks before it told. */
  lemma FinalCharge(hold: nat, inputFloor: int, scan: Scan, first: seq<Action>, s: State, a: Action, rest: seq<Action>,
                    t: State)
    requires Runs(Initial(hold, inputFloor, scan), first, s) && Enabled(s, a)
    requires s.decision.None? && Step(s, a).decision.Some? && Runs(Step(s, a), rest, t) && t.completed.Some?
    ensures t.cause.Some?
    ensures var c, known := t.cause.value, LastScan(scan, first);
            t.completed.value ==
              if UpstreamFailed(c, known) || c.ShutdownDrain? then
                Clamp(if known.evidenced.Some? then known.evidenced.value.cost else 0, hold)
              else
                Clamp(if known.full.Some? then known.full.value.cost else if c.Complete? then 0 else inputFloor, hold)
  {
    hide Step, Enabled, Decide, Clamp;
    var start, d := Initial(hold, inputFloor, scan), Step(s, a);
    InvInitial(hold, inputFloor, scan);
    InvRuns(start, first, s);
    ScanIsLast(start, first, s);
    RunExtends(start, first, s);
    InvStep(s, a);
    StepExtends(s, a);
    DecidedByPolicy(s, a);
    InvRuns(d, rest, t);
    RunExtends(d, rest, t);
    if UpstreamFailed(d.cause.value, s.scan) || d.cause.value.ShutdownDrain? {
      ChargedOnEvidence(d.cause.value, s.scan, inputFloor);
    } else {
      CallerPays(d.cause.value, s.scan, inputFloor);
    }
  }

  /** Nothing a stream can do keeps the shutdown from settling it: while it is registered and no call is pending, a
      drain issues one more ledger call, and the ledger's acceptance of it releases the stream. */
  lemma DrainReleases(hold: nat, inputFloor: int, scan: Scan, actions: seq<Action>, s: State)
    requires Runs(Initial(hold, inputFloor, scan), actions, s) && s.registered
    ensures var d := Step(s, Drain);
            && d.attempt.Pending? && Enabled(d, LedgerAccepts) && d.decision.Some?
            && (s.attempt.Idle? ==> d.calls == s.calls + [Clamp(d.decision.value.Cost(), hold)])
            && !Step(d, LedgerAccepts).registered
            && Step(d, LedgerAccepts).completed == Some(Clamp(d.decision.value.Cost(), hold))
  {
    hide Step, Inv, Enabled;
    InvInitial(hold, inputFloor, scan);
    InvRuns(Initial(hold, inputFloor, scan), actions, s);
    RunExtends(Initial(hold, inputFloor, scan), actions, s);
    DrainStep(s);
  }

  lemma DrainStep(s: State)
    requires Inv(s) && s.registered
    ensures var d := Step(s, Drain);
            && d.attempt.Pending? && Enabled(d, LedgerAccepts) && d.decision.Some?
            && (s.attempt.Idle? ==> d.calls == s.calls + [Clamp(d.decision.value.Cost(), s.hold)])
            && !Step(d, LedgerAccepts).registered
            && Step(d, LedgerAccepts).completed == Some(Clamp(d.decision.value.Cost(), s.hold))
  {
    hide Settle, Inv, Clamp, Accepted;
    DrainSettles(s);
    AcceptReleases(Settle(s, ShutdownDrain));
  }

  lemma DrainSettles(s: State)
    requires Inv(s) && s.registered
    ensures var d := Settle(s, ShutdownDrain);
            && d.attempt.Pending? && d.decision.Some? && d.hold == s.hold
            && (s.attempt.Idle? ==> d.calls == s.calls + [Clamp(d.decision.value.Cost(), s.hold)])
  {
    hide Decide, Clamp;
  }

  lemma AcceptReleases(d: State)
    requires d.decision.Some?
    ensures !Finish(Accepted(d)).registered
    ensures Finish(Accepted(d)).completed == Some(Clamp(d.decision.value.Cost(), d.hold))
  {
  }

  // ---- Together with the ledger ----

  /** The requests a stream sends for its hold. */
  function Sent(session: Ledger.SessionId, holdId: Ledger.HoldId, calls: seq<int>): seq<Ledger.Request> {
    seq(|calls|, i requires 0 <= i < |calls| => Ledger.Settle(session, holdId, calls[i]))
  }

  /** However often the settlement is retried, and whatever else the ledger processes in between, the hold is closed
      by at most one of the calls: the second and later ones leave the ledger as they find it. */
  lemma RetriesChargeOnce(hold: nat, inputFloor: int, scan: Scan, actions: seq<Action>, t: State,
                          session: Ledger.SessionId, holdId: Ledger.HoldId,
                          s0: Ledger.State, rs: seq<Ledger.Request>, i: nat, j: nat)
    requires Runs(Initial(hold, inputFloor, scan), actions, t)
    requires LedgerRuns.Inv(s0) && i < j < |rs|
    requires rs[i] in Sent(session, holdId, t.calls) && rs[j] in Sent(session, holdId, t.calls)
    requires Ledger.Next(Ledger.Run(s0, rs[..i]), rs[i]) != Ledger.Run(s0, rs[..i])
    ensures Ledger.Next(Ledger.Run(s0, rs[..j]), rs[j]) == Ledger.Run(s0, rs[..j])
  {
    hide Ledger.Next, Ledger.Run, LedgerRuns.Inv;
    InvInitial(hold, inputFloor, scan);
    InvRuns(Initial(hold, inputFloor, scan), actions, t);
    assert rs[i] == rs[j];
    LedgerRuns.EffectiveAtMostOnce(s0, rs, i, j);
  }
}
