/** Where a stream stands, told from what has happened to it alone: for every run of the race (core/src/handler.ts), the
    list of its actions decides who ends it, what it is charged, how often the ledger is asked and what the client
    sees. */
module StreamHistory {
  import opened Wrappers
  import opened StreamRace

  /** The causes that call settle(). */
  predicate Terminal(a: Action) {
    a.ReadDone? || a.ReadFails? || a.CancelSettles? || a.DeadlineFires? || a.Drain?
  }

  /** The first terminal cause. */
  function Decider(actions: seq<Action>): (r: Option<nat>)
    ensures r.Some? ==> r.value < |actions| && Terminal(actions[r.value])
    ensures forall i :: 0 <= i < |actions| && (r.Some? ==> i < r.value) ==> !Terminal(actions[i])
  {
    if actions == [] then None
    else
      var n := |actions| - 1;
      var r := Decider(actions[..n]);
      assert forall i :: 0 <= i < n ==> actions[i] == actions[..n][i];
      if r.Some? then r else if Terminal(actions[n]) then Some(n) else None
  }

  /** What settle() is called with: a client who has begun to leave is the reason why a read ends. */
  function CauseOf(a: Action, before: seq<Action>): Cause
    requires Terminal(a)
  {
    match a
    case ReadDone => if CancelBegins in before then ClientCancel else Complete
    case ReadFails(timeout) =>
      if CancelBegins in before then ClientCancel else if timeout then UpstreamTimeout else UpstreamError
    case CancelSettles => ClientCancel
    case DeadlineFires => Deadline
    case Drain => ShutdownDrain
  }

  /** A call is under way: a terminal cause came, and the ledger has not answered since. */
  predicate UnderWay(actions: seq<Action>) {
    actions != [] && (
      var n := |actions| - 1;
      || Terminal(actions[n])
      || (!actions[n].LedgerAccepts? && !actions[n].LedgerRejects? && UnderWay(actions[..n]))
    )
  }

  /** How often the ledger has answered. */
  function Answers(actions: seq<Action>): nat {
    if actions == [] then 0
    else
      var n := |actions| - 1;
      Answers(actions[..n]) + if actions[n].LedgerAccepts? || actions[n].LedgerRejects? then 1 else 0
  }

  /** The client's cancellation has begun and has not been awaited yet. */
  predicate Leaving(actions: seq<Action>) {
    actions != [] && (
      var n := |actions| - 1;
      actions[n].CancelBegins? || (!actions[n].CancelSettles? && Leaving(actions[..n]))
    )
  }

  predicate Met(actions: seq<Action>) {
    ReadDone in actions || Failed(actions)
  }

  predicate Failed(actions: seq<Action>) {
    ReadFails(false) in actions || ReadFails(true) in actions
  }

  /** The client's stream is broken off: by the deadline, by a drain that decided, by a rejected settlement after its
      pull had met the end, or by a read that failed, once that is settled. */
  predicate BrokenOff(actions: seq<Action>) {
    || DeadlineFires in actions
    || (Decider(actions).Some? && actions[Decider(actions).value].Drain?)
    || RejectedAfterEnd(actions)
    || (Failed(actions) && LedgerAccepts in actions)
  }

  predicate RejectedAfterEnd(actions: seq<Action>) {
    actions != [] && (
      var n := |actions| - 1;
      RejectedAfterEnd(actions[..n]) || (actions[n].LedgerRejects? && Met(actions[..n]))
    )
  }

  /** Everything a state knows, but the exact charges. */
  ghost predicate Told(s: State, actions: seq<Action>, t: State) {
    Decided(s, actions, t) && Standing(actions, t) && Asked(actions, t) && Seen(actions, t)
  }

  /** The first terminal cause decides, on what the chunks before it told. */
  ghost predicate Decided(s: State, actions: seq<Action>, t: State) {
    && t.hold == s.hold && t.inputFloor == s.inputFloor
    && t.scan == LastScan(s.scan, actions)
    && match Decider(actions)
       case None => t.decision.None? && t.cause.None?
       case Some(i) =>
         var cause := CauseOf(actions[i], actions[..i]);
         t.cause == Some(cause) && t.decision == Some(Decide(cause, LastScan(s.scan, actions[..i]), s.inputFloor))
  }

  ghost predicate Standing(actions: seq<Action>, t: State) {
    && (t.ended <==> BodyEnds in actions)
    && (t.armed <==> Decider(actions).None?)
    && (Decider(actions).None? ==> t.requested == if CancelBegins in actions then Some(ClientCancel) else None)
    && (t.cancelling <==> Leaving(actions))
    && (t.pull.Closing? <==> ReadDone in actions) && (t.pull.Failing? <==> Failed(actions))
    && (DeadlineFires in actions ==> Decider(actions).Some? && actions[Decider(actions).value].DeadlineFires?)
  }

  /** The ledger is asked once for every answer it gave, and once more while a call is under way. */
  ghost predicate Asked(actions: seq<Action>, t: State) {
    && (t.attempt.Done? <==> LedgerAccepts in actions)
    && (t.attempt.Pending? <==> LedgerAccepts !in actions && UnderWay(actions))
    && |t.calls| == Answers(actions) + (if t.attempt.Pending? then 1 else 0)
  }

  ghost predicate Seen(actions: seq<Action>, t: State) {
    && (t.downstream.Errored? <==> BrokenOff(actions))
    && (t.downstream.Closed? <==> ReadDone in actions && LedgerAccepts in actions && !BrokenOff(actions))
  }

  // ---- One more action ----

  /** What one more action changes of the story. */
  lemma OneMore(actions: seq<Action>, a: Action)
    ensures var more := actions + [a];
            && |more| - 1 == |actions| && more[|actions|] == a && more[..|actions|] == actions
            && Decider(more) == (if Decider(actions).Some? then Decider(actions)
                                 else if Terminal(a) then Some(|actions|) else None)
            && (UnderWay(more) <==> Terminal(a) || (!a.LedgerAccepts? && !a.LedgerRejects? && UnderWay(actions)))
            && Answers(more) == Answers(actions) + (if a.LedgerAccepts? || a.LedgerRejects? then 1 else 0)
            && (Leaving(more) <==> a.CancelBegins? || (!a.CancelSettles? && Leaving(actions)))
            && (RejectedAfterEnd(more) <==> RejectedAfterEnd(actions) || (a.LedgerRejects? && Met(actions)))
            && (forall b :: b in more <==> b in actions || b == a)
            && (forall scan :: LastScan(scan, more) == if a.Chunk? then a.scan else LastScan(scan, actions))
  {
    assert (actions + [a])[..|actions|] == actions;
  }

  lemma DeciderStays(actions: seq<Action>, a: Action)
    requires Decider(actions).Some?
    ensures var i := Decider(actions).value;
            (actions + [a])[i] == actions[i] && (actions + [a])[..i] == actions[..i]
  {
    assert (actions + [a])[..Decider(actions).value] == actions[..Decider(actions).value];
  }

  lemma DecidedStep(s: State, actions: seq<Action>, t: State, a: Action)
    requires Inv(t) && Enabled(t, a) && Decided(s, actions, t) && Standing(actions, t)
    ensures Decided(s, actions + [a], Step(t, a))
  {
    hide Decide, Clamp, Settle, Finish, Inv, Step, LastScan, Decider, Leaving, Terminal;
    OneMore(actions, a);
    StepExtends(t, a);
    ScanStep(t, a);
    if Decider(actions).Some? {
      DeciderStays(actions, a);
    } else {
      Deciding(t, a);
      if Step(t, a).decision.Some? {
        DecidedByPolicy(t, a);
        SameCause(actions, t, a);
      }
    }
  }

  /** What settle() does, apart from its decision. */
  lemma SettleTold(s: State, cause: Cause)
    requires s.decision.None? ==> s.attempt.Idle?
    ensures var d := Settle(s, cause);
            && d.pull == s.pull && d.ended == s.ended && d.cancelling == s.cancelling && d.decision.Some?
            && d.armed == (s.armed && s.decision.Some?)
            && d.cancelled == (s.cancelled || (s.decision.None? && cause.ShutdownDrain?))
            && (s.decision.Some? ==> d.downstream == s.downstream)
            && (s.decision.None? ==> d.downstream == if cause.ShutdownDrain? then Errored else s.downstream)
            && (if s.attempt.Idle? then d.attempt.Pending? && |d.calls| == |s.calls| + 1 else d == s)
  {
    if s.decision.None? {
      FixTold(s, cause);
    }
    hide Fix, Clamp;
  }

  lemma FixTold(s: State, cause: Cause)
    ensures var d := Fix(s, cause);
            && d.pull == s.pull && d.ended == s.ended && d.cancelling == s.cancelling && d.decision.Some? && !d.armed
            && d.attempt == s.attempt && d.calls == s.calls && d.cancelled == (s.cancelled || cause.ShutdownDrain?)
            && d.downstream == if cause.ShutdownDrain? then Errored else s.downstream
  {
    hide Decide;
  }

  lemma FinishTold(s: State)
    ensures var d := Finish(s);
            && d == s.(downstream := d.downstream)
            && d.downstream == if !s.attempt.Done? || !s.downstream.Open? || s.pull.Reading? then s.downstream
                               else if s.pull.Closing? then Closed else Errored
  {
  }

  /** Exactly the terminal causes decide. */
  lemma Deciding(t: State, a: Action)
    requires Inv(t) && Enabled(t, a) && t.decision.None?
    ensures Step(t, a).decision.Some? <==> Terminal(a)
    ensures Step(t, a).cause.Some? <==> Terminal(a)
  {
    InvStep(t, a);
    hide Decide, Clamp, Settle, Finish;
    match a
    case ReadDone => PullTold(t, Closing, t.requested.GetOr(Complete));
    case ReadFails(timeout) => PullTold(t, Failing, t.requested.GetOr(FailureCause(timeout)));
    case CancelSettles => SettleTold(t.(cancelling := false), ClientCancel);
    case DeadlineFires => SettleTold(Expired(t), Deadline);
    case Drain => SettleTold(t, ShutdownDrain);
    case _ =>
  }

  /** What a read that ends does. */
  lemma PullTold(s: State, pull: Pull, cause: Cause)
    requires (s.decision.None? ==> s.attempt.Idle?) && s.pull.Reading? && !pull.Reading?
    ensures var d := Finish(Settle(s.(pull := pull), cause));
            && d.pull == pull && d.ended == s.ended && d.cancelling == s.cancelling && d.decision.Some?
            && d.armed == (s.armed && s.decision.Some?)
            && d.cancelled == (s.cancelled || (s.decision.None? && cause.ShutdownDrain?))
            && (if s.attempt.Idle? then d.attempt.Pending? && |d.calls| == |s.calls| + 1
                else d.attempt == s.attempt && d.calls == s.calls && d.requested == s.requested)
            && d.downstream ==
                 if s.attempt.Done? && s.downstream.Open? then (if pull.Closing? then Closed else Errored)
                 else if s.decision.None? && cause.ShutdownDrain? then Errored
                 else s.downstream
  {
    hide Settle, Finish;
    SettleTold(s.(pull := pull), cause);
    FinishTold(Settle(s.(pull := pull), cause));
  }

  lemma SameCause(actions: seq<Action>, t: State, a: Action)
    requires Terminal(a) && t.requested == if CancelBegins in actions then Some(ClientCancel) else None
    ensures StreamRace.CauseOf(t, a) == CauseOf(a, actions)
  {
  }

  lemma StillIdle(t: State)
    requires Inv(t)
    ensures t.decision.None? ==> t.attempt.Idle?
    ensures t.downstream.Closed? ==> t.attempt.Done?
    ensures t.armed ==> t.decision.None?
  {
  }

  /** What one action changes, apart from the decision. */
  ghost predicate Moves(s: State, a: Action, u: State) {
    && u.ended == (s.ended || a.BodyEnds?)
    && u.pull == (if a.ReadDone? then Closing else if a.ReadFails? then Failing else s.pull)
    && u.cancelling == (a.CancelBegins? || (s.cancelling && !a.CancelSettles?))
    && u.armed == (s.armed && !Terminal(a))
    && u.attempt == (if a.LedgerAccepts? then Done else if a.LedgerRejects? then Idle
                     else if Terminal(a) && s.attempt.Idle? then Pending else s.attempt)
    && |u.calls| == |s.calls| + (if Terminal(a) && s.attempt.Idle? then 1 else 0)
    && (!Terminal(a) ==> u.requested == if a.CancelBegins? then Some(ClientCancel) else s.requested)
    && u.cancelled == (s.cancelled || a.CancelBegins? || a.DeadlineFires? || (a.Drain? && s.decision.None?))
    && u.downstream == Shows(s, a)
  }

  function Shows(s: State, a: Action): Downstream {
    match a
    case DeadlineFires => Errored
    case LedgerRejects => if s.pull.Reading? then s.downstream else Errored
    case Drain => if s.decision.None? then Errored else s.downstream
    case ReadDone => if s.attempt.Done? && s.downstream.Open? then Closed else s.downstream
    case ReadFails(_) => if s.attempt.Done? && s.downstream.Open? then Errored else s.downstream
    case LedgerAccepts =>
      if !s.downstream.Open? || s.pull.Reading? then s.downstream else if s.pull.Closing? then Closed else Errored
    case _ => s.downstream
  }

  lemma StepMoves(s: State, a: Action)
    requires Inv(s) && Enabled(s, a) && (s.decision.None? ==> s.requested != Some(ShutdownDrain))
    ensures Moves(s, a, Step(s, a))
  {
    StillIdle(s);
    if Terminal(a) {
      hide Inv, Moves, Step;
      TerminalMoves(s, a);
    } else {
      hide Inv, Settle, Decide, Clamp;
      FinishTold(Accepted(s));
    }
  }

  lemma TerminalMoves(s: State, a: Action)
    requires Terminal(a) && Enabled(s, a)
    requires s.decision.None? ==> s.attempt.Idle? && s.requested != Some(ShutdownDrain)
    requires s.armed ==> s.decision.None?
    ensures Moves(s, a, Step(s, a))
  {
    hide Settle, Finish;
    match a
    case ReadDone => PullMoves(s, a, Closing, s.requested.GetOr(Complete));
    case ReadFails(timeout) => PullMoves(s, a, Failing, s.requested.GetOr(FailureCause(timeout)));
    case CancelSettles => SettleTold(s.(cancelling := false), ClientCancel);
    case DeadlineFires => SettleTold(Expired(s), Deadline);
    case Drain => SettleTold(s, ShutdownDrain);
  }

  lemma PullMoves(s: State, a: Action, pull: Pull, cause: Cause)
    requires s.decision.None? ==> s.attempt.Idle? && !cause.ShutdownDrain?
    requires (s.armed ==> s.decision.None?) && s.pull.Reading?
    requires if a.ReadDone? then pull == Closing else a.ReadFails? && pull == Failing
    ensures Moves(s, a, Finish(Settle(s.(pull := pull), cause)))
  {
    hide Settle, Finish;
    PullTold(s, pull, cause);
  }

  lemma StandingStep(s: State, actions: seq<Action>, t: State, a: Action)
    requires Inv(t) && Enabled(t, a) && Decided(s, actions, t) && Standing(actions, t)
    ensures Standing(actions + [a], Step(t, a))
  {
    hide Step, LastScan, Decider, Leaving, Inv, Decide, Shows;
    OneMore(actions, a);
    if Decider(actions).Some? {
      DeciderStays(actions, a);
    }
    StepMoves(t, a);
  }

  lemma AskedStep(s: State, actions: seq<Action>, t: State, a: Action)
    requires Inv(t) && Enabled(t, a) && Told(s, actions, t)
    ensures Asked(actions + [a], Step(t, a))
  {
    hide Step, LastScan, Decider, UnderWay, Answers, Leaving, Inv, Decide, Shows, Seen;
    OneMore(actions, a);
    StepMoves(t, a);
  }

  lemma OneMoreBroken(actions: seq<Action>, a: Action)
    ensures BrokenOff(actions + [a]) <==>
            || BrokenOff(actions) || a.DeadlineFires? || (a.Drain? && Decider(actions).None?)
            || (a.LedgerRejects? && Met(actions))
            || (a.ReadFails? && LedgerAccepts in actions) || (a.LedgerAccepts? && Failed(actions))
  {
    OneMore(actions, a);
    if Decider(actions).Some? {
      DeciderStays(actions, a);
    }
    hide Decider, UnderWay, Answers, RejectedAfterEnd, Leaving, LastScan;
  }

  lemma SeenStep(s: State, actions: seq<Action>, t: State, a: Action)
    requires Inv(t) && Enabled(t, a) && Told(s, actions, t)
    ensures Seen(actions + [a], Step(t, a))
  {
    StillIdle(t);
    Undecided(s, actions, t);
    hide Step, LastScan, Decider, UnderWay, Answers, RejectedAfterEnd, Leaving, Inv, BrokenOff, Decided;
    OneMore(actions, a);
    OneMoreBroken(actions, a);
    StepMoves(t, a);
  }

  lemma Undecided(s: State, actions: seq<Action>, t: State)
    requires Told(s, actions, t)
    ensures t.decision.None? <==> Decider(actions).None?
    ensures t.decision.None? ==> t.requested != Some(ShutdownDrain) && DeadlineFires !in actions
  {
    hide Decide, LastScan, Decider, UnderWay, Leaving, Answers, RejectedAfterEnd;
  }

  // ---- The whole story ----

  /** Every reachable state is told by the list of actions alone. */
  lemma {:induction false} Story(hold: nat, inputFloor: int, scan: Scan, actions: seq<Action>, t: State)
    requires Runs(Initial(hold, inputFloor, scan), actions, t)
    ensures Told(Initial(hold, inputFloor, scan), actions, t)
    decreases |actions|
  {
    var start := Initial(hold, inputFloor, scan);
    if actions == [] {
      NothingYet(start);
    } else {
      hide Inv, Step, Decided, Standing, Asked, Seen, Runs, Enabled;
      var n := |actions| - 1;
      var a := actions[n];
      var m := RunsLast(start, actions, t);
      Story(hold, inputFloor, scan, actions[..n], m);
      InvInitial(hold, inputFloor, scan);
      InvRuns(start, actions[..n], m);
      assert actions == actions[..n] + [a];
      DecidedStep(start, actions[..n], m, a);
      StandingStep(start, actions[..n], m, a);
      AskedStep(start, actions[..n], m, a);
      SeenStep(start, actions[..n], m, a);
    }
  }

  lemma NothingYet(s: State)
    requires s == Initial(s.hold, s.inputFloor, s.scan)
    ensures Told(s, [], s)
  {
  }

  /** What a stream is charged, from its actions alone: nothing until the ledger has accepted; then, for good, what was
      known at the first terminal cause. A failed or drained stream pays for what it has evidence of, a healthy one for
      what was metered; with nothing metered, a client or a deadline that ended it pays the input floor, and a body
      that ended on its own is free. */
  lemma ChargeOfRun(hold: nat, inputFloor: int, scan: Scan, actions: seq<Action>, t: State)
    requires Runs(Initial(hold, inputFloor, scan), actions, t)
    ensures t.completed.Some? <==> LedgerAccepts in actions
    ensures t.completed.Some? ==>
              && Decider(actions).Some?
              && var i := Decider(actions).value;
                 var cause, known := CauseOf(actions[i], actions[..i]), LastScan(scan, actions[..i]);
                 t.completed.value ==
                   if known.errored || cause in {UpstreamError, UpstreamTimeout, ShutdownDrain} then
                     Clamp(if known.evidenced.Some? then known.evidenced.value.cost else 0, hold)
                   else if known.full.Some? then Clamp(known.full.value.cost, hold)
                   else if cause in {ClientCancel, Deadline} then Clamp(inputFloor, hold)
                   else 0
  {
    var start := Initial(hold, inputFloor, scan);
    Story(hold, inputFloor, scan, actions, t);
    InvInitial(hold, inputFloor, scan);
    InvRuns(start, actions, t);
    hide Runs, Clamp, LastScan, Decider, Standing, Seen, UnderWay, Answers;
    if t.completed.Some? {
      var i := Decider(actions).value;
      var cause, known := CauseOf(actions[i], actions[..i]), LastScan(scan, actions[..i]);
      if UpstreamFailed(cause, known) || cause.ShutdownDrain? {
        ChargedOnEvidence(cause, known, inputFloor);
      } else {
        CallerPays(cause, known, inputFloor);
      }
    }
  }

  /** What can happen next: a read as long as none has ended, the end of reading once the body ended or somebody
      cancelled it, the deadline until a terminal cause came, the ledger's answer while a call is under way; the client
      can go, the body end and the shutdown drain at any time. */
  predicate Possible(actions: seq<Action>, a: Action) {
    match a
    case Chunk(_) => !Met(actions)
    case ReadFails(_) => !Met(actions)
    case ReadDone =>
      && !Met(actions)
      && (BodyEnds in actions || CancelBegins in actions || DeadlineFires in actions
          || (Decider(actions).Some? && actions[Decider(actions).value].Drain?))
    case CancelSettles => Leaving(actions)
    case DeadlineFires => Decider(actions).None?
    case LedgerAccepts => LedgerAccepts !in actions && UnderWay(actions)
    case LedgerRejects => LedgerAccepts !in actions && UnderWay(actions)
    case _ => true
  }

  lemma WhatCanHappen(hold: nat, inputFloor: int, scan: Scan, actions: seq<Action>, t: State, a: Action)
    requires Runs(Initial(hold, inputFloor, scan), actions, t)
    ensures Enabled(t, a) <==> Possible(actions, a)
  {
    Story(hold, inputFloor, scan, actions, t);
    Cancelled(hold, inputFloor, scan, actions, t);
    hide Runs, Decide, Decider, LastScan, UnderWay, Leaving, Answers, RejectedAfterEnd;
  }

  /** The upstream read is cancelled by a client who leaves, by the deadline, and by a drain that decides. */
  lemma {:induction false} Cancelled(hold: nat, inputFloor: int, scan: Scan, actions: seq<Action>, t: State)
    requires Runs(Initial(hold, inputFloor, scan), actions, t)
    ensures t.cancelled <==>
            || CancelBegins in actions || DeadlineFires in actions
            || (Decider(actions).Some? && actions[Decider(actions).value].Drain?)
    decreases |actions|
  {
    if actions != [] {
      var n := |actions| - 1;
      var a, start := actions[n], Initial(hold, inputFloor, scan);
      var m := RunsLast(start, actions, t);
      Cancelled(hold, inputFloor, scan, actions[..n], m);
      Story(hold, inputFloor, scan, actions[..n], m);
      assert actions == actions[..n] + [a];
      hide Runs, Decide, Decider, LastScan, UnderWay, Leaving, Answers, RejectedAfterEnd, Step, Told, Inv, Shows;
      OneMore(actions[..n], a);
      if Decider(actions[..n]).Some? {
        DeciderStays(actions[..n], a);
      }
      Undecided(start, actions[..n], m);
      InvInitial(hold, inputFloor, scan);
      InvRuns(start, actions[..n], m);
      StepMoves(m, a);
    }
  }
}
