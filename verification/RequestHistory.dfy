/** What a forwarded request is charged and counted as, told from its own events alone (core/src/handler.ts), in every
    run of any number of requests. */
module RequestHistory {
  import opened Wrappers
  import R = StreamRace
  import opened StreamHistory
  import opened Requests

  // ---- The events a request waited for ----

  predicate LedgerAnswer(e: Event) {
    e.LedgerAccepts? || e.LedgerRejects?
  }

  predicate BodyEvent(e: Event) {
    e.BodyRead? || e.BodyFails?
  }

  /** A 2xx with a body opens a stream. */
  predicate GoesLive(streaming: bool, e: Event) {
    streaming && e.Headers? && e.reply.Ok() && e.hasBody
  }

  /** The event ends what the request awaits next: the upstream's headers; then the body, or the ledger at once if
      there is none to meter; then the ledger, or the body of a rejected stream. */
  predicate Awaited(streaming: bool, ms: seq<Event>, e: Event) {
    match |ms|
    case 0 => e.FetchFails? || e.Headers?
    case 1 =>
      if ms[0].FetchFails? then LedgerAnswer(e)
      else !GoesLive(streaming, ms[0]) && if streaming then LedgerAnswer(e) else BodyEvent(e)
    case 2 =>
      if BodyEvent(ms[1]) then LedgerAnswer(e) else ms[0].Headers? && ms[1].LedgerAccepts? && BodyEvent(e)
    case _ => false
  }

  /** The events that ended its awaits, in order. */
  function Milestones(streaming: bool, es: seq<Event>): seq<Event> {
    if es == [] then []
    else
      var n := |es| - 1;
      var ms := Milestones(streaming, es[..n]);
      if Awaited(streaming, ms, es[n]) then ms + [es[n]] else ms
  }

  /** What follows the headers. */
  function AfterHeaders(streaming: bool, es: seq<Event>): seq<Event> {
    if es == [] then []
    else
      var n := |es| - 1;
      if Milestones(streaming, es[..n]) == [] then [] else AfterHeaders(streaming, es[..n]) + [es[n]]
  }

  // ---- What a request owes, and what it counts as ----

  /** The charge of a request that is no stream: a metered buffered 2xx pays its cost, an accepted one whose body broke
      off pays the input floor, both within the hold; every other is free. */
  function Owed(a: Admission, streaming: bool, ms: seq<Event>): int {
    if streaming || |ms| < 2 || !ms[0].Headers? || !ms[0].reply.Ok() then 0
    else if ms[1].BodyFails? then R.Clamp(a.inputFloor, a.hold)
    else if ms[1].BodyRead? && ms[1].usage.Priced? then R.Clamp(ms[1].usage.cost, a.hold)
    else 0
  }

  predicate Accepted(ms: seq<Event>) {
    exists e :: e in ms && e.LedgerAccepts?
  }

  function Transport(timedOut: bool): Bucket {
    Upstream(if timedOut then Timeout else Unreachable)
  }

  /** Counted, and counted again if no response can be made of it and nothing was charged. */
  function Relayed(bucket: Bucket, made: bool, charge: int, expired: bool): seq<Bucket> {
    if made || charge != 0 then [bucket] else [bucket, Transport(expired)]
  }

  /** Why a rejection is counted: the operator's own account first, then an unknown model, then by status. */
  lemma KindIff(r: Reply, kind: UpstreamKind)
    ensures var account := r.authError || r.billingError || r.status == 402;
            var open := !account && !r.modelNotFound;
            kind == Classify(r) <==>
              match kind
              case Auth => r.authError
              case Billing => account && !r.authError
              case NotFound => !account && r.modelNotFound
              case Throttle => open && r.status == 429
              case Server => open && r.status >= 500
              case Relayed4xx => open && (r.status == 400 || r.status == 413 || r.status == 422)
              case Other => open && r.status < 500 && r.status !in {400, 413, 422, 429}
              case Timeout => false
              case Unreachable => false
  {
  }

  /** The outcomes of a request that is no stream, from the events it waited for. */
  function Counts(a: Admission, streaming: bool, ms: seq<Event>): seq<Bucket> {
    if !Accepted(ms) then []
    else if ms[0].FetchFails? then [Transport(ms[0].timedOut)]
    else if !ms[0].Headers? || |ms| < 3 then []
    else
      var reply := ms[0].reply;
      var body, answer := if streaming then ms[2] else ms[1], if streaming then ms[1] else ms[2];
      if body.BodyFails? then [Transport(body.timedOut)]
      else if !body.BodyRead? then []
      else if streaming then Relayed(Upstream(Classify(reply)), Answerable(reply), 0, body.expired)
      else if !answer.LedgerAccepts? then []
      else if !reply.Ok() then Relayed(Upstream(Classify(reply)), Answerable(reply), 0, answer.expired)
      else
        match body.usage
        case Priced(_) =>
          Relayed(ServedClean, Constructible(reply.status), Owed(a, streaming, ms), answer.expired)
        case Unparseable => Relayed(RefundedInFull, Constructible(reply.status), 0, answer.expired)
        case Throws(timedOut) => [Transport(timedOut)]
  }

  /** The outcome of a stream: clean if a body that ended on its own was metered; refunded in full if it was not;
      aborted if it failed or was drained without evidence of work; partial in every other case. */
  function StreamOutcome(cause: R.Cause, known: R.Scan): Bucket {
    if cause in {R.UpstreamError, R.UpstreamTimeout} || known.errored then
      if known.evidenced.Some? then ServedPartial else StreamAborted
    else
      match cause
      case Complete => if known.full.Some? then ServedClean else RefundedInFull
      case ShutdownDrain => if known.evidenced.Some? then ServedPartial else StreamAborted
      case _ => ServedPartial
  }

  lemma OutcomeIs(cause: R.Cause, known: R.Scan, inputFloor: int)
    ensures StreamBucket(R.Decide(cause, known, inputFloor)) == StreamOutcome(cause, known)
  {
  }

  /** Where a request that is no stream stands. */
  function PhaseOf(a: Admission, streaming: bool, ms: seq<Event>): Phase {
    if ms == [] then Fetching(streaming)
    else if ms[|ms| - 1].LedgerRejects? then LedgerFailed
    else if ms[0].FetchFails? then
      if |ms| == 1 then Settling(0, Caught(ms[0].timedOut)) else Answered(0)
    else if !ms[0].Headers? then LedgerFailed
    else if streaming then
      if |ms| == 1 then Settling(0, NoStreamBody(ms[0].reply))
      else if |ms| == 2 then ReadingRejection(ms[0].reply, 0)
      else Answered(0)
    else if |ms| == 1 then Reading(ms[0].reply)
    else if |ms| == 2 then Settling(Owed(a, streaming, ms), ResumeOf(ms[0].reply, ms[1]))
    else if ResumeOf(ms[0].reply, ms[1]).MeteredOk? && !Constructible(ms[0].reply.status) && Owed(a, streaming, ms) != 0
      then Conflicting(Owed(a, streaming, ms))
    else Answered(Owed(a, streaming, ms))
  }

  function ResumeOf(reply: Reply, body: Event): Resume {
    if body.BodyFails? then Caught(body.timedOut)
    else if !body.BodyRead? then Caught(false)
    else if !reply.Ok() then NotOk(reply)
    else
      match body.usage
      case Priced(_) => MeteredOk(reply.status)
      case Unparseable => UnmeteredOk(reply.status)
      case Throws(timedOut) => Caught(timedOut)
  }

  /** Only awaited events are among the milestones. */
  ghost predicate Orderly(streaming: bool, ms: seq<Event>) {
    forall i :: 0 <= i < |ms| ==> Awaited(streaming, ms[..i], ms[i])
  }

  ghost predicate Plain(a: Admission, streaming: bool, ms: seq<Event>, p: Phase, rs: seq<Bucket>) {
    && Orderly(streaming, ms) && (ms != [] ==> !GoesLive(streaming, ms[0]))
    && p == PhaseOf(a, streaming, ms) && rs == Counts(a, streaming, ms)
  }

  lemma AcceptedNext(ms: seq<Event>, e: Event)
    ensures Accepted(ms + [e]) <==> Accepted(ms) || e.LedgerAccepts?
  {
    if Accepted(ms) {
      var d :| d in ms && d.LedgerAccepts?;
      assert d in ms + [e];
    }
    assert e in ms + [e];
  }

  lemma OrderlyShape(streaming: bool, ms: seq<Event>)
    requires Orderly(streaming, ms)
    ensures |ms| <= 3
    ensures |ms| >= 1 ==> ms[0].FetchFails? || ms[0].Headers?
    ensures |ms| >= 2 ==> Awaited(streaming, [ms[0]], ms[1])
    ensures |ms| >= 3 ==> Awaited(streaming, [ms[0], ms[1]], ms[2])
  {
    if |ms| >= 1 {
      assert ms[..0] == [];
    }
    if |ms| >= 2 {
      assert ms[..1] == [ms[0]];
    }
    if |ms| >= 3 {
      assert ms[..2] == [ms[0], ms[1]];
    }
    if |ms| > 3 {
      OnlyThree(streaming, ms[..3], ms[3]);
    }
  }

  lemma OrderlyNext(streaming: bool, ms: seq<Event>, e: Event)
    requires Orderly(streaming, ms) && Awaited(streaming, ms, e)
    ensures Orderly(streaming, ms + [e])
  {
    hide Awaited;
    forall i | 0 <= i < |ms + [e]| ensures Awaited(streaming, (ms + [e])[..i], (ms + [e])[i]) {
      if i < |ms| {
        assert (ms + [e])[..i] == ms[..i];
      } else {
        assert (ms + [e])[..i] == ms;
      }
    }
  }

  /** An event that is not awaited is no block of the request. */
  lemma NotAwaited(a: Admission, streaming: bool, ms: seq<Event>, e: Event)
    requires Orderly(streaming, ms) && !Awaited(streaming, ms, e) && (ms != [] ==> !GoesLive(streaming, ms[0]))
    ensures React(a, PhaseOf(a, streaming, ms), e) == Block(PhaseOf(a, streaming, ms), [])
  {
    hide R.Clamp, Classify, Constructible, Answerable, Counts;
    OrderlyShape(streaming, ms);
    hide Orderly;
  }

  lemma FirstMilestone(a: Admission, streaming: bool, e: Event)
    requires Awaited(streaming, [], e) && !GoesLive(streaming, e)
    ensures var b := React(a, Fetching(streaming), e);
            b.phase == PhaseOf(a, streaming, [e]) && b.records == []
    ensures Counts(a, streaming, [e]) == []
  {
  }

  lemma SecondMilestone(a: Admission, streaming: bool, ms: seq<Event>, e: Event)
    requires |ms| == 1 && (ms[0].FetchFails? || ms[0].Headers?) && Awaited(streaming, ms, e)
    ensures var b := React(a, PhaseOf(a, streaming, ms), e);
            b.phase == PhaseOf(a, streaming, ms + [e]) && b.records == Counts(a, streaming, ms + [e])
  {
    hide R.Clamp, Classify, Constructible, Answerable;
    AcceptedNext(ms, e);
    AcceptedNext([], ms[0]);
    assert [] + [ms[0]] == ms;
  }

  lemma ThirdMilestone(a: Admission, streaming: bool, ms: seq<Event>, e: Event)
    requires Orderly(streaming, ms) && |ms| == 2 && Awaited(streaming, ms, e)
    ensures Counts(a, streaming, ms) == []
    ensures var b := React(a, PhaseOf(a, streaming, ms), e);
            b.phase == PhaseOf(a, streaming, ms + [e]) && b.records == Counts(a, streaming, ms + [e])
  {
    hide R.Clamp, Classify, Constructible, Answerable;
    OrderlyShape(streaming, ms);
    hide Orderly;
    AcceptedNext(ms, e);
    AcceptedNext([ms[0]], ms[1]);
    AcceptedNext([], ms[0]);
    assert [] + [ms[0]] == [ms[0]] && [ms[0]] + [ms[1]] == ms;
  }

  lemma PlainStep(a: Admission, streaming: bool, ms: seq<Event>, p: Phase, rs: seq<Bucket>, e: Event)
    requires Plain(a, streaming, ms, p, rs) && !(ms == [] && GoesLive(streaming, e))
    ensures var more := if Awaited(streaming, ms, e) then ms + [e] else ms;
            Plain(a, streaming, more, React(a, p, e).phase, rs + React(a, p, e).records)
  {
    hide React, PhaseOf, Counts, GoesLive, Orderly, Awaited;
    if !Awaited(streaming, ms, e) {
      NotAwaited(a, streaming, ms, e);
    } else {
      OrderlyNext(streaming, ms, e);
      OrderlyShape(streaming, ms);
      match |ms| {
        case 0 =>
          NoneYet(a, streaming);
          FirstMilestone(a, streaming, e);
          assert ms + [e] == [e];
        case 1 =>
          AlmostNone(a, streaming, ms);
          SecondMilestone(a, streaming, ms, e);
        case 2 => ThirdMilestone(a, streaming, ms, e);
        case _ => OnlyThree(streaming, ms, e);
      }
    }
  }

  lemma NoneYet(a: Admission, streaming: bool)
    ensures PhaseOf(a, streaming, []) == Fetching(streaming) && Counts(a, streaming, []) == []
  {
  }

  lemma AlmostNone(a: Admission, streaming: bool, ms: seq<Event>)
    requires |ms| == 1 && (ms[0].FetchFails? || ms[0].Headers?)
    ensures Counts(a, streaming, ms) == []
  {
  }

  lemma OnlyThree(streaming: bool, ms: seq<Event>, e: Event)
    requires |ms| >= 3
    ensures !Awaited(streaming, ms, e)
  {
  }

  // ---- A stream ----

  /** The actions of a stream among the events that follow its headers: those that could happen when they did. */
  function Played(s: R.State, es: seq<Event>): seq<R.Action>
    decreases |es|
  {
    if es == [] then []
    else if es[0].StreamEvent? && R.Enabled(s, es[0].action) then
      [es[0].action] + Played(R.Step(s, es[0].action), es[1..])
    else Played(s, es[1..])
  }

  lemma {:induction false} PlayedNext(s: R.State, es: seq<Event>, t: R.State, e: Event)
    requires R.Runs(s, Played(s, es), t)
    ensures Played(s, es + [e])
         == Played(s, es) + if e.StreamEvent? && R.Enabled(t, e.action) then [e.action] else []
    decreases |es|
  {
    hide R.Step, R.Enabled;
    if es == [] {
      assert ([] + [e])[1..] == [];
      assert t == s;
    } else {
      assert (es + [e])[1..] == es[1..] + [e] && (es + [e])[0] == es[0];
      if es[0].StreamEvent? && R.Enabled(s, es[0].action) {
        var u := R.Step(s, es[0].action);
        assert Played(s, es)[1..] == Played(u, es[1..]);
        PlayedNext(u, es[1..], t, e);
      } else {
        PlayedNext(s, es[1..], t, e);
      }
    }
  }

  /** The outcome of a stream whose charge the ledger has accepted, by its first terminal cause. */
  function StreamCounts(scan: R.Scan, actions: seq<R.Action>): seq<Bucket> {
    if R.LedgerAccepts !in actions || Decider(actions).None? then []
    else
      var i := Decider(actions).value;
      [StreamOutcome(CauseOf(actions[i], actions[..i]), R.LastScan(scan, actions[..i]))]
  }

  /** The stream is where its actions have taken it, and is counted by them. */
  ghost predicate Live(a: Admission, h: Event, after: seq<Event>, p: Phase, rs: seq<Bucket>) {
    && h.Headers? && p.Streaming?
    && var start := R.Initial(a.hold, a.inputFloor, h.scan);
       var actions := Played(start, after);
       R.Runs(start, actions, p.stream) && rs == StreamCounts(h.scan, actions)
  }

  lemma LiveStep(a: Admission, h: Event, after: seq<Event>, p: Phase, rs: seq<Bucket>, e: Event)
    requires Live(a, h, after, p, rs)
    ensures Live(a, h, after + [e], React(a, p, e).phase, rs + React(a, p, e).records)
  {
    hide R.Runs, R.Step, R.Enabled, StreamCounts, R.LastScan, Decider;
    var start, t := R.Initial(a.hold, a.inputFloor, h.scan), p.stream;
    var actions := Played(start, after);
    PlayedNext(start, after, t, e);
    if e.StreamEvent? && R.Enabled(t, e.action) {
      R.RunsMore(start, actions, t, e.action);
      CountsNext(a, h.scan, actions, t, e.action);
    } else {
      assert actions + [] == actions && rs + [] == rs;
    }
  }

  lemma CountsNext(a: Admission, scan: R.Scan, actions: seq<R.Action>, t: R.State, action: R.Action)
    requires R.Runs(R.Initial(a.hold, a.inputFloor, scan), actions, t) && R.Enabled(t, action)
    ensures StreamCounts(scan, actions + [action])
            == StreamCounts(scan, actions)
               + if action.LedgerAccepts? && t.decision.Some? then [StreamBucket(t.decision.value)] else []
  {
    Story(a.hold, a.inputFloor, scan, actions, t);
    OneMore(actions, action);
    if Decider(actions).Some? {
      DeciderStays(actions, action);
      var i := Decider(actions).value;
      OutcomeIs(CauseOf(actions[i], actions[..i]), R.LastScan(scan, actions[..i]), a.inputFloor);
    }
    R.InvInitial(a.hold, a.inputFloor, scan);
    R.InvRuns(R.Initial(a.hold, a.inputFloor, scan), actions, t);
    PendingIsDecided(t);
    hide R.Runs, R.Decide, R.LastScan, Decider, StreamBucket, StreamOutcome, R.Inv, Standing, Seen, UnderWay, Answers;
    hide CauseOf;
  }

  lemma PendingIsDecided(t: R.State)
    requires R.Inv(t)
    ensures t.attempt.Pending? || t.attempt.Done? ==> t.decision.Some?
  {
  }

  // ---- Every request of every run ----

  /** What befell one request. */
  function EventsOf(moves: seq<Move>, id: int): seq<Event> {
    if moves == [] then []
    else
      var n := |moves| - 1;
      EventsOf(moves[..n], id) + if moves[n].Happens? && moves[n].id == id then [moves[n].event] else []
  }

  ghost predicate Told(a: Admission, streaming: bool, es: seq<Event>, p: Phase, rs: seq<Bucket>) {
    var ms := Milestones(streaming, es);
    if ms != [] && GoesLive(streaming, ms[0]) then |ms| == 1 && Live(a, ms[0], AfterHeaders(streaming, es), p, rs)
    else Plain(a, streaming, ms, p, rs)
  }

  lemma OneMoreEvent(streaming: bool, es: seq<Event>, e: Event)
    ensures var ms := Milestones(streaming, es);
            && Milestones(streaming, es + [e]) == (if Awaited(streaming, ms, e) then ms + [e] else ms)
            && AfterHeaders(streaming, es + [e]) == (if ms == [] then [] else AfterHeaders(streaming, es) + [e])
  {
    assert (es + [e])[..|es|] == es;
  }

  lemma ToldStep(a: Admission, streaming: bool, es: seq<Event>, p: Phase, rs: seq<Bucket>, e: Event)
    requires Told(a, streaming, es, p, rs)
    ensures Told(a, streaming, es + [e], React(a, p, e).phase, rs + React(a, p, e).records)
  {
    var ms := Milestones(streaming, es);
    OneMoreEvent(streaming, es, e);
    hide Live, Plain, Milestones, AfterHeaders;
    if ms != [] && GoesLive(streaming, ms[0]) {
      LiveStep(a, ms[0], AfterHeaders(streaming, es), p, rs, e);
    } else if ms == [] && GoesLive(streaming, e) {
      GoingLive(a, p, rs, e);
      assert ms + [e] == [e];
    } else {
      PlainStep(a, streaming, ms, p, rs, e);
    }
  }

  lemma GoingLive(a: Admission, p: Phase, rs: seq<Bucket>, e: Event)
    requires Plain(a, true, [], p, rs) && GoesLive(true, e)
    ensures Live(a, e, [], React(a, p, e).phase, rs + React(a, p, e).records)
    ensures Awaited(true, [], e)
  {
  }

  lemma {:induction false} RunsLast(x: Proxy, moves: seq<Move>, y: Proxy) returns (z: Proxy)
    requires moves != [] && Runs(x, moves, y)
    ensures var n := |moves| - 1;
            Runs(x, moves[..n], z) && Enabled(z, moves[n]) && y == Do(z, moves[n])
    decreases |moves|
  {
    hide Do, Enabled;
    var n := |moves| - 1;
    if n == 0 {
      z := x;
    } else {
      z := RunsLast(Do(x, moves[0]), moves[1..], y);
      assert moves[1..][..n - 1] == moves[..n][1..] && moves[1..][n - 1] == moves[n];
    }
  }

  lemma {:induction false} ToldByEvents(moves: seq<Move>, x: Proxy, id: int) returns (streaming: bool)
    requires Runs(BOOT, moves, x) && id in x.phases
    ensures id in x.admitted && id in x.recorded && Forward(id, x.admitted[id], streaming) in moves
    ensures Told(x.admitted[id], streaming, EventsOf(moves, id), x.phases[id], x.recorded[id])
    decreases |moves|
  {
    hide Told, React, Counters.RecordAll;
    var n := |moves| - 1;
    var z := RunsLast(BOOT, moves, x);
    var m, es := moves[n], EventsOf(moves[..n], id);
    assert es + [] == es;
    if id in z.phases {
      streaming := ToldByEvents(moves[..n], z, id);
      if m.Happens? && m.id == id {
        ToldStep(z.admitted[id], streaming, es, z.phases[id], z.recorded[id], m.event);
      }
    } else {
      Unborn(moves[..n], z, id);
      streaming := m.streaming;
      Begun(m.admission, streaming);
    }
  }

  lemma Begun(a: Admission, streaming: bool)
    ensures Told(a, streaming, [], Fetching(streaming), [])
  {
  }

  /** Nothing befalls a request before it is forwarded. */
  lemma {:induction false} Unborn(moves: seq<Move>, x: Proxy, id: int)
    requires Runs(BOOT, moves, x) && id !in x.phases
    ensures EventsOf(moves, id) == []
    decreases |moves|
  {
    hide React, Counters.RecordAll;
    if moves != [] {
      var n := |moves| - 1;
      var z := RunsLast(BOOT, moves, x);
      Unborn(moves[..n], z, id);
    }
  }

  /** A request that opened no stream, in every reachable state: it is charged, once the ledger has accepted, exactly
      what it owes by the events it waited for, and it has recorded exactly the outcomes they decide. */
  lemma PlainRequest(moves: seq<Move>, x: Proxy, id: int)
    requires Runs(BOOT, moves, x) && id in x.phases && !x.phases[id].Streaming?
    ensures exists streaming :: PlainAccount(moves, x, id, streaming)
  {
    var streaming := ToldByEvents(moves, x, id);
    var a, ms := x.admitted[id], Milestones(streaming, EventsOf(moves, id));
    PlainCharge(a, streaming, ms, x.phases[id], x.recorded[id]);
    assert PlainAccount(moves, x, id, streaming);
  }

  ghost predicate PlainAccount(moves: seq<Move>, x: Proxy, id: int, streaming: bool)
    requires id in x.phases
  {
    && id in x.admitted && id in x.recorded && Forward(id, x.admitted[id], streaming) in moves
    && var ms := Milestones(streaming, EventsOf(moves, id));
       && Charged(x.phases[id]) == (if Accepted(ms) then Some(Owed(x.admitted[id], streaming, ms)) else None)
       && x.recorded[id] == Counts(x.admitted[id], streaming, ms)
  }

  lemma PlainCharge(a: Admission, streaming: bool, ms: seq<Event>, p: Phase, rs: seq<Bucket>)
    requires Plain(a, streaming, ms, p, rs)
    ensures Charged(p) == (if Accepted(ms) then Some(Owed(a, streaming, ms)) else None)
  {
    OrderlyShape(streaming, ms);
    hide R.Clamp, Classify, Constructible, Answerable, Counts, Orderly;
  }

  /** So a buffered request counted as served was charged the cost its body was priced at, floored at zero and capped at
      the hold. */
  lemma ServedPaysItsCost(moves: seq<Move>, x: Proxy, id: int)
    requires Runs(BOOT, moves, x) && id in x.phases && !x.phases[id].Streaming?
    requires id in x.recorded && ServedClean in x.recorded[id]
    ensures exists e ::
              && e in EventsOf(moves, id) && e.BodyRead? && e.usage.Priced? && id in x.admitted
              && Charged(x.phases[id]) == Some(R.Clamp(e.usage.cost, x.admitted[id].hold))
  {
    PlainRequest(moves, x, id);
    var streaming :| PlainAccount(moves, x, id, streaming);
    var ms := Milestones(streaming, EventsOf(moves, id));
    MilestonesAreEvents(streaming, EventsOf(moves, id));
    ServedMilestones(x.admitted[id], streaming, ms);
    assert ms[1] in EventsOf(moves, id);
  }

  lemma ServedMilestones(a: Admission, streaming: bool, ms: seq<Event>)
    requires ServedClean in Counts(a, streaming, ms)
    ensures |ms| >= 2 && ms[1].BodyRead? && ms[1].usage.Priced? && Accepted(ms)
    ensures Owed(a, streaming, ms) == R.Clamp(ms[1].usage.cost, a.hold)
  {
  }

  lemma {:induction false} MilestonesAreEvents(streaming: bool, es: seq<Event>)
    ensures forall e :: e in Milestones(streaming, es) ==> e in es
  {
    if es != [] {
      MilestonesAreEvents(streaming, es[..|es| - 1]);
    }
  }

  /** A request that opened a stream: its stream is where its own events have taken it, from the figures it was admitted
      with, and it is counted, once its charge is accepted, by its first terminal cause. */
  lemma StreamRequest(moves: seq<Move>, x: Proxy, id: int) returns (h: Event)
    requires Runs(BOOT, moves, x) && id in x.phases && x.phases[id].Streaming?
    ensures id in x.admitted && id in x.recorded && GoesLive(true, h) && h in EventsOf(moves, id)
    ensures var start := R.Initial(x.admitted[id].hold, x.admitted[id].inputFloor, h.scan);
            var actions := Played(start, AfterHeaders(true, EventsOf(moves, id)));
            && R.Runs(start, actions, x.phases[id].stream)
            && x.recorded[id] == StreamCounts(h.scan, actions)
  {
    var streaming := ToldByEvents(moves, x, id);
    MilestonesAreEvents(streaming, EventsOf(moves, id));
    NoStream(x.admitted[id], streaming, Milestones(streaming, EventsOf(moves, id)));
    h := Milestones(streaming, EventsOf(moves, id))[0];
  }

  lemma NoStream(a: Admission, streaming: bool, ms: seq<Event>)
    ensures !PhaseOf(a, streaming, ms).Streaming?
  {
    hide R.Clamp, Constructible;
  }
}
