/** The outcome counters of forwarded requests (core/src/handler.ts, core/src/metrics.ts): the buffered and the
    streaming path after the hold is open, many requests interleaved. Each block says which counters it increments;
    that the increments of one request add up is proved. */
module Requests {
  import opened Wrappers
  import opened Sums
  import R = StreamRace

  datatype UpstreamKind = Throttle | Server | Auth | Billing | Timeout | Unreachable | Relayed4xx | NotFound | Other

  datatype Bucket = ServedClean | ServedPartial | StreamAborted | RefundedInFull | Upstream(kind: UpstreamKind)

  /** The primary outcome counters. */
  datatype Counters = Counters(
    requests: nat,
    served: nat,
    partial: nat,
    aborted: nat,
    refunded: nat,
    upstream: multiset<UpstreamKind>
  ) {
    /** The right-hand side of the reconciliation formula. */
    function Outcomes(): nat {
      served + partial + aborted + refunded + |upstream|
    }

    function Record(b: Bucket): Counters {
      match b
      case ServedClean => this.(served := served + 1)
      case ServedPartial => this.(partial := partial + 1)
      case StreamAborted => this.(aborted := aborted + 1)
      case RefundedInFull => this.(refunded := refunded + 1)
      case Upstream(kind) => this.(upstream := upstream + multiset{kind})
    }

    function RecordAll(bs: seq<Bucket>): Counters
      decreases |bs|
    {
      if bs == [] then this else Record(bs[0]).RecordAll(bs[1..])
    }

    function Of(b: Bucket): nat {
      match b
      case ServedClean => served
      case ServedPartial => partial
      case StreamAborted => aborted
      case RefundedInFull => refunded
      case Upstream(kind) => upstream[kind]
    }
  }

  /** An upstream response, as far as its status and the classification of an error go. */
  datatype Reply = Reply(status: int, authError: bool, billingError: bool, modelNotFound: bool) {
    predicate Ok() {
      200 <= status < 300
    }

    /** An error that describes the operator's own account; it is answered with a fixed 503. */
    predicate Masked() {
      authError || billingError || status == 402
    }
  }

  /** Whether a Response with this status and a text body can be constructed: the status is in range and is none that
      admits no body (section 5.5 of the Fetch Standard). */
  predicate Constructible(status: int) {
    200 <= status <= 599 && status !in {204, 205, 304}
  }

  /** Whether relayOrSanitizeUpstream can answer at all. */
  predicate Answerable(r: Reply) {
    r.Masked() || Constructible(r.status)
  }

  /** relayOrSanitizeUpstream's counter. */
  function Classify(r: Reply): UpstreamKind {
    if r.Masked() then (if r.authError then Auth else Billing)
    else if r.modelNotFound then NotFound
    else if r.status == 429 then Throttle
    else if r.status >= 500 then Server
    else if r.status in {400, 413, 422} then Relayed4xx
    else Other
  }

  function TransportKind(timedOut: bool): UpstreamKind {
    if timedOut then Timeout else Unreachable
  }

  /** Where an awaited billActual resumes. */
  datatype Resume =
    | NoStreamBody(reply: Reply)    // a streaming request without a stream: refunded, the body still unread
    | MeteredOk(status: int)        // a buffered 2xx with usage
    | UnmeteredOk(status: int)      // a buffered 2xx without
    | NotOk(reply: Reply)           // a buffered rejection, body read
    | Caught(timedOut: bool)        // the catch block

  /** Where a request stands between two awaits. A charge the ledger has accepted is remembered with it. */
  datatype Phase =
    | Fetching(streaming: bool)
    | Reading(reply: Reply)
    | Settling(charge: int, resume: Resume)
    | ReadingRejection(reply: Reply, completed: int)
    | Streaming(stream: R.State)
    | Answered(charge: int)
    | LedgerFailed
    | Conflicting(charge: int)

  datatype Usage = Priced(cost: int) | Unparseable | Throws(timedOut: bool)

  /** In a block that answers, expired says whether the upstream timer has run out by then. */
  datatype Event =
    | FetchFails(timedOut: bool)
    | Headers(hasBody: bool, reply: Reply, scan: R.Scan)
    | BodyRead(usage: Usage, expired: bool)
    | BodyFails(timedOut: bool)
    | LedgerAccepts(expired: bool)
    | LedgerRejects
    | StreamEvent(action: R.Action)

  /** The figures a request was admitted with. */
  datatype Admission = Admission(hold: nat, inputFloor: int)

  /** One block of the handler: where it leaves the request, and the counters it increments on the way. */
  datatype Block = Block(phase: Phase, records: seq<Bucket>)

  /** The switch of settle(), after the ledger accepted the charge. */
  function StreamBucket(d: R.Decision): Bucket {
    match d
    case Served(_) => ServedClean
    case Partial(_) => ServedPartial
    case UpstreamPartial(_, _) => ServedPartial
    case UpstreamAborted => StreamAborted
    case ShutdownAborted => StreamAborted
    case UnmeteredComplete => RefundedInFull
  }

  /** billActual with no charge completed yet: clamp, and await the ledger. */
  function Bill(a: Admission, actual: int, resume: Resume): Block {
    Block(Settling(R.Clamp(actual, a.hold), resume), [])
  }

  /** The catch block after an error that is not the ledger's, before any charge was completed. */
  function Catch(a: Admission, readFailedAfterOk: bool, timedOut: bool): Block {
    Bill(a, if readFailedAfterOk then a.inputFloor else 0, Caught(timedOut))
  }

  /** The catch block after a charge was completed: billActual(0) returns it if it is zero and throws otherwise. */
  function CatchCompleted(a: Admission, completed: int, timedOut: bool): Block {
    if completed == R.Clamp(0, a.hold) then Block(Answered(completed), [Upstream(TransportKind(timedOut))])
    else Block(Conflicting(completed), [])
  }

  /** Record the outcome, then construct the response; a failure to do so falls into the catch block. */
  function Respond(a: Admission, completed: int, bucket: Bucket, built: bool, expired: bool): Block {
    if built then Block(Answered(completed), [bucket])
    else
      var c := CatchCompleted(a, completed, expired);
      Block(c.phase, [bucket] + c.records)
  }

  function Relay(a: Admission, completed: int, reply: Reply, expired: bool): Block {
    Respond(a, completed, Upstream(Classify(reply)), Answerable(reply), expired)
  }

  function React(a: Admission, p: Phase, e: Event): Block {
    match (p, e)
    case (Fetching(_), FetchFails(timedOut)) => Catch(a, false, timedOut)
    case (Fetching(streaming), Headers(hasBody, reply, scan)) =>
      if streaming && (!reply.Ok() || !hasBody) then Bill(a, 0, NoStreamBody(reply))
      else if streaming then Block(Streaming(R.Initial(a.hold, a.inputFloor, scan)), [])
      else Block(Reading(reply), [])
    case (Reading(reply), BodyFails(timedOut)) => Catch(a, reply.Ok(), timedOut)
    case (Reading(reply), BodyRead(usage, _)) =>
      if !reply.Ok() then Bill(a, 0, NotOk(reply))
      else (
        match usage
        case Priced(cost) => Bill(a, cost, MeteredOk(reply.status))
        case Unparseable => Bill(a, 0, UnmeteredOk(reply.status))
        case Throws(timedOut) => Catch(a, false, timedOut)
      )
    case (Settling(charge, resume), LedgerAccepts(expired)) =>
      (
        match resume
        case NoStreamBody(reply) => Block(ReadingRejection(reply, charge), [])
        case MeteredOk(status) => Respond(a, charge, ServedClean, Constructible(status), expired)
        case UnmeteredOk(status) => Respond(a, charge, RefundedInFull, Constructible(status), expired)
        case NotOk(reply) => Relay(a, charge, reply, expired)
        case Caught(timedOut) => Block(Answered(charge), [Upstream(TransportKind(timedOut))])
      )
    case (Settling(_, _), LedgerRejects) => Block(LedgerFailed, [])
    case (ReadingRejection(reply, completed), BodyRead(_, expired)) => Relay(a, completed, reply, expired)
    case (ReadingRejection(_, completed), BodyFails(timedOut)) => CatchCompleted(a, completed, timedOut)
    case (Streaming(s), StreamEvent(action)) =>
      if R.Enabled(s, action) then
        Block(Streaming(R.Step(s, action)),
              if action.LedgerAccepts? && s.decision.Some? then [StreamBucket(s.decision.value)] else [])
      else Block(p, [])
    case _ => Block(p, [])
  }

  /** All requests of the process and its counters, with the history of what each request recorded. */
  datatype Proxy = Proxy(
    admitted: map<int, Admission>,
    phases: map<int, Phase>,
    recorded: map<int, seq<Bucket>>,
    counters: Counters
  )

  const BOOT := Proxy(map[], map[], map[], Counters(0, 0, 0, 0, 0, multiset{}))

  datatype Move = Forward(id: int, admission: Admission, streaming: bool) | Happens(id: int, event: Event)

  predicate Enabled(x: Proxy, m: Move) {
    match m
    case Forward(id, _, _) => id !in x.phases
    case Happens(id, _) => id in x.phases && id in x.admitted && id in x.recorded
  }

  /** One block of one request runs; whatever it records is added to the counters. */
  function Do(x: Proxy, m: Move): Proxy
    requires Enabled(x, m)
  {
    match m
    case Forward(id, admission, streaming) =>
      Proxy(x.admitted[id := admission], x.phases[id := Fetching(streaming)], x.recorded[id := []],
            x.counters.(requests := x.counters.requests + 1))
    case Happens(id, event) =>
      var b := React(x.admitted[id], x.phases[id], event);
      Proxy(x.admitted, x.phases[id := b.phase], x.recorded[id := x.recorded[id] + b.records],
            x.counters.RecordAll(b.records))
  }

  ghost predicate Runs(x: Proxy, moves: seq<Move>, y: Proxy)
    decreases |moves|
  {
    if moves == [] then x == y else Enabled(x, moves[0]) && Runs(Do(x, moves[0]), moves[1..], y)
  }

  // ---- One request ----

  /** An outcome and what it may cost: only metered or partial work, or an accepted request whose body broke off, is
      ever paid for. */
  predicate Pays(a: Admission, b: Bucket, charge: int) {
    match b
    case ServedClean => 0 <= charge <= a.hold
    case ServedPartial => 0 <= charge <= a.hold
    case StreamAborted => charge == 0
    case RefundedInFull => charge == 0
    case Upstream(kind) =>
      charge == 0 || ((kind.Timeout? || kind.Unreachable?) && charge == R.Clamp(a.inputFloor, a.hold))
  }

  /** The outcome was counted, and then counted again as a transport failure because no response could be made. */
  predicate CountedTwice(rs: seq<Bucket>) {
    |rs| == 2 && (rs[1] == Upstream(Timeout) || rs[1] == Upstream(Unreachable))
  }

  ghost predicate PhaseInv(a: Admission, p: Phase, rs: seq<Bucket>) {
    match p
    case Fetching(_) => rs == []
    case Reading(_) => rs == []
    case Settling(charge, resume) =>
      && rs == [] && 0 <= charge <= a.hold
      && (resume.NoStreamBody? || resume.UnmeteredOk? || resume.NotOk? ==> charge == 0)
      && (resume.Caught? ==> charge == 0 || charge == R.Clamp(a.inputFloor, a.hold))
    case ReadingRejection(_, completed) => rs == [] && completed == 0
    case Streaming(s) =>
      && R.Inv(s) && s.hold == a.hold
      && rs == (if s.attempt.Done? then [StreamBucket(s.decision.value)] else [])
    case Answered(charge) =>
      && rs != [] && (|rs| == 1 || (CountedTwice(rs) && charge == 0))
      && forall b :: b in rs ==> Pays(a, b, charge)
    case LedgerFailed => rs == []
    case Conflicting(charge) => rs == [ServedClean] && 0 < charge <= a.hold
  }

  /** The accepted charge of a request, once there is one. */
  function Charged(p: Phase): Option<int> {
    match p
    case ReadingRejection(_, completed) => Some(completed)
    case Streaming(s) => s.completed
    case Answered(charge) => Some(charge)
    case Conflicting(charge) => Some(charge)
    case _ => None
  }

  /** The block in which a request is counted twice: its outcome is recorded, no response can be constructed from the
      status the upstream answered with, and its charge is zero. */
  predicate Miscounts(p: Phase, e: Event) {
    match p
    case Settling(charge, resume) =>
      e.LedgerAccepts? && charge == 0 && (
        match resume
        case MeteredOk(status) => !Constructible(status)
        case UnmeteredOk(status) => !Constructible(status)
        case NotOk(reply) => !Answerable(reply)
        case _ => false
      )
    case ReadingRejection(reply, _) => e.BodyRead? && !Answerable(reply)
    case _ => false
  }

  lemma StreamStep(a: Admission, p: Phase, e: Event, rs: seq<Bucket>)
    requires PhaseInv(a, p, rs) && p.Streaming? && e.StreamEvent? && R.Enabled(p.stream, e.action)
    ensures PhaseInv(a, React(a, p, e).phase, rs + React(a, p, e).records)
    ensures rs != [] ==> React(a, p, e).records == []
    ensures Charged(p).Some? ==> Charged(React(a, p, e).phase) == Charged(p)
  {
    hide R.Step, R.Inv;
    R.InvStep(p.stream, e.action);
    R.StepExtends(p.stream, e.action);
    R.StepAttempt(p.stream, e.action);
  }

  /** Every block keeps the account of its request: whatever it records, together with what earlier blocks recorded,
      is nothing before the end, one outcome at the end, or an outcome counted twice. */
  lemma PhaseStep(a: Admission, p: Phase, e: Event, rs: seq<Bucket>)
    requires PhaseInv(a, p, rs)
    ensures PhaseInv(a, React(a, p, e).phase, rs + React(a, p, e).records)
    ensures rs != [] ==> React(a, p, e).records == []
    ensures Charged(p).Some? ==> Charged(React(a, p, e).phase) == Charged(p)
  {
    hide R.Step, R.Inv, R.Enabled, Classify;
    if p.Streaming? {
      StreamingStep(a, p, e, rs);
    } else if p.Settling? {
      SettlingStep(a, p, e);
    } else if p.Fetching? || p.Reading? {
      OpeningStep(a, p, e);
    } else {
      ClosingStep(a, p, e, rs);
    }
    assert rs + [] == rs && [] + React(a, p, e).records == React(a, p, e).records;
  }

  lemma StreamingStep(a: Admission, p: Phase, e: Event, rs: seq<Bucket>)
    requires PhaseInv(a, p, rs) && p.Streaming?
    ensures PhaseInv(a, React(a, p, e).phase, rs + React(a, p, e).records)
    ensures rs != [] ==> React(a, p, e).records == []
    ensures Charged(p).Some? ==> Charged(React(a, p, e).phase) == Charged(p)
  {
    hide R.Step, R.Inv, R.Enabled;
    if e.StreamEvent? && R.Enabled(p.stream, e.action) {
      StreamStep(a, p, e, rs);
    } else {
      assert rs + [] == rs;
    }
  }

  lemma OpeningStep(a: Admission, p: Phase, e: Event)
    requires p.Fetching? || p.Reading?
    ensures PhaseInv(a, React(a, p, e).phase, []) && React(a, p, e).records == []
  {
    hide R.Clamp, R.Inv;
    R.InvInitial(a.hold, a.inputFloor, if e.Headers? then e.scan else R.Scan(false, None, None));
  }

  lemma SettlingStep(a: Admission, p: Phase, e: Event)
    requires PhaseInv(a, p, []) && p.Settling?
    ensures PhaseInv(a, React(a, p, e).phase, React(a, p, e).records)
  {
    hide Classify, R.Inv;
  }

  lemma ClosingStep(a: Admission, p: Phase, e: Event, rs: seq<Bucket>)
    requires PhaseInv(a, p, rs) && !p.Streaming? && !p.Settling? && !p.Fetching? && !p.Reading?
    ensures var b := React(a, p, e);
            && PhaseInv(a, b.phase, if rs == [] then b.records else rs)
            && (rs != [] ==> b.records == [])
            && (Charged(p).Some? ==> Charged(b.phase) == Charged(p))
  {
    hide Classify, R.Inv;
  }

  /** A block counts its request twice exactly in that case, and otherwise at most once. */
  lemma MiscountsIff(a: Admission, p: Phase, e: Event, rs: seq<Bucket>)
    requires PhaseInv(a, p, rs)
    ensures |React(a, p, e).records| == 2 <==> Miscounts(p, e)
    ensures |React(a, p, e).records| <= 2
  {
    hide R.Step, R.Inv, R.Enabled, Classify;
  }

  // ---- All requests ----

  /** How often each request was counted, and how often under one outcome. */
  function Lengths(recorded: map<int, seq<Bucket>>): map<int, int> {
    map id | id in recorded :: |recorded[id]|
  }

  function Times(recorded: map<int, seq<Bucket>>, b: Bucket): map<int, int> {
    map id | id in recorded :: multiset(recorded[id])[b]
  }

  ghost predicate Inv(x: Proxy) {
    && x.admitted.Keys == x.phases.Keys == x.recorded.Keys
    && (forall id :: id in x.phases ==> PhaseInv(x.admitted[id], x.phases[id], x.recorded[id]))
    && x.counters.requests == |x.phases|
    && x.counters.Outcomes() == Sum(Lengths(x.recorded))
    && (forall b :: x.counters.Of(b) == Sum(Times(x.recorded, b)))
  }

  lemma {:induction false} RecordsAll(c: Counters, bs: seq<Bucket>)
    ensures c.RecordAll(bs).Outcomes() == c.Outcomes() + |bs|
    ensures c.RecordAll(bs).requests == c.requests
    ensures forall b :: c.RecordAll(bs).Of(b) == c.Of(b) + multiset(bs)[b]
    decreases |bs|
  {
    hide Counters.Record, Counters.Outcomes, Counters.Of;
    if bs != [] {
      RecordOne(c, bs[0]);
      RecordsAll(c.Record(bs[0]), bs[1..]);
      assert bs == [bs[0]] + bs[1..];
    }
  }

  lemma RecordOne(c: Counters, b: Bucket)
    ensures c.Record(b).Outcomes() == c.Outcomes() + 1 && c.Record(b).requests == c.requests
    ensures forall o :: c.Record(b).Of(o) == c.Of(o) + if o == b then 1 else 0
  {
  }

  lemma LengthsGrow(recorded: map<int, seq<Bucket>>, id: int, bs: seq<Bucket>)
    requires id in recorded
    ensures Sum(Lengths(recorded[id := recorded[id] + bs])) == Sum(Lengths(recorded)) + |bs|
  {
    SumUpdate(Lengths(recorded), id, |recorded[id]| + |bs|);
    assert Lengths(recorded[id := recorded[id] + bs]) == Lengths(recorded)[id := |recorded[id]| + |bs|];
  }

  lemma TimesGrow(recorded: map<int, seq<Bucket>>, id: int, bs: seq<Bucket>, b: Bucket)
    requires id in recorded
    ensures Sum(Times(recorded[id := recorded[id] + bs], b)) == Sum(Times(recorded, b)) + multiset(bs)[b]
  {
    var n := multiset(recorded[id])[b] + multiset(bs)[b];
    SumUpdate(Times(recorded, b), id, n);
    assert Times(recorded[id := recorded[id] + bs], b) == Times(recorded, b)[id := n];
  }

  lemma NoLength(recorded: map<int, seq<Bucket>>, id: int)
    requires id !in recorded
    ensures Sum(Lengths(recorded[id := []])) == Sum(Lengths(recorded))
  {
    SumInsert(Lengths(recorded), id, 0);
    assert Lengths(recorded[id := []]) == Lengths(recorded)[id := 0];
  }

  lemma NoTimes(recorded: map<int, seq<Bucket>>, id: int, b: Bucket)
    requires id !in recorded
    ensures Sum(Times(recorded[id := []], b)) == Sum(Times(recorded, b))
  {
    SumInsert(Times(recorded, b), id, 0);
    assert Times(recorded[id := []], b) == Times(recorded, b)[id := 0];
  }

  lemma InvForward(x: Proxy, m: Move)
    requires Inv(x) && Enabled(x, m) && m.Forward?
    ensures Inv(Do(x, m))
  {
    hide Sum, Lengths, Times, PhaseInv;
    NoLength(x.recorded, m.id);
    var y := Do(x, m);
    assert y.phases.Keys == x.phases.Keys + {m.id} && |y.phases| == |y.phases.Keys| && |x.phases| == |x.phases.Keys|;
    FreshPhase(m.admission, m.streaming);
    forall b ensures y.counters.Of(b) == Sum(Times(y.recorded, b)) {
      NoTimes(x.recorded, m.id, b);
    }
  }

  lemma FreshPhase(a: Admission, streaming: bool)
    ensures PhaseInv(a, Fetching(streaming), [])
  {
  }

  lemma InvHappens(x: Proxy, m: Move)
    requires Inv(x) && Enabled(x, m) && m.Happens?
    ensures Inv(Do(x, m))
  {
    hide Sum, Lengths, Times, React, PhaseInv, Counters.RecordAll, Counters.Outcomes, Counters.Of;
    var id, y := m.id, Do(x, m);
    var b := React(x.admitted[id], x.phases[id], m.event);
    PhaseStep(x.admitted[id], x.phases[id], m.event, x.recorded[id]);
    RecordsAll(x.counters, b.records);
    LengthsGrow(x.recorded, id, b.records);
    forall bucket ensures y.counters.Of(bucket) == Sum(Times(y.recorded, bucket)) {
      TimesGrow(x.recorded, id, b.records, bucket);
    }
    assert y.phases.Keys == x.phases.Keys && y.recorded.Keys == x.recorded.Keys;
    assert |y.phases| == |y.phases.Keys| && |x.phases| == |x.phases.Keys|;
  }

  lemma {:induction false} InvRuns(x: Proxy, moves: seq<Move>, y: Proxy)
    requires Inv(x) && Runs(x, moves, y)
    ensures Inv(y)
    decreases |moves|
  {
    hide Inv, Do;
    if moves != [] {
      match moves[0] {
        case Forward(_, _, _) => InvForward(x, moves[0]);
        case Happens(_, _) => InvHappens(x, moves[0]);
      }
      InvRuns(Do(x, moves[0]), moves[1..], y);
    }
  }

  lemma InvBoot()
    ensures Inv(BOOT)
  {
    assert Lengths(map[]) == map[];
    forall b ensures Times(map[], b) == map[] {
    }
  }

  // ---- Reconciliation ----

  /** Requests not counted yet: still in flight, or given up because the ledger rejected their settlement. */
  function Outstanding(x: Proxy): set<int> {
    set id | id in x.recorded && x.recorded[id] == []
  }

  /** Requests counted twice. */
  function Doubled(x: Proxy): set<int> {
    set id | id in x.recorded && |x.recorded[id]| == 2
  }

  function CountedTimes(recorded: map<int, seq<Bucket>>, n: nat): set<int> {
    set id | id in recorded && |recorded[id]| == n
  }

  lemma CountedTimesRemove(recorded: map<int, seq<Bucket>>, k: int, n: nat)
    requires k in recorded
    ensures |CountedTimes(recorded, n)| == |CountedTimes(recorded - {k}, n)| + if |recorded[k]| == n then 1 else 0
  {
    var all, rest := CountedTimes(recorded, n), CountedTimes(recorded - {k}, n);
    assert k !in rest;
    if |recorded[k]| == n {
      assert all == rest + {k};
    } else {
      assert all == rest;
    }
  }

  lemma {:induction false} LengthsAddUp(recorded: map<int, seq<Bucket>>)
    requires forall id :: id in recorded ==> |recorded[id]| <= 2
    ensures Sum(Lengths(recorded)) + |CountedTimes(recorded, 0)| == |recorded| + |CountedTimes(recorded, 2)|
    decreases |recorded|
  {
    if recorded == map[] {
      assert Lengths(recorded) == map[] && CountedTimes(recorded, 0) == {} && CountedTimes(recorded, 2) == {};
    } else {
      hide Sum, Lengths, CountedTimes;
      var k := SomeKey(recorded);
      LengthsAddUp(recorded - {k});
      LengthsRemove(recorded, k);
      SumRemove(Lengths(recorded), k);
      CountedTimesRemove(recorded, k, 0);
      CountedTimesRemove(recorded, k, 2);
    }
  }

  lemma LengthsRemove(recorded: map<int, seq<Bucket>>, k: int)
    requires k in recorded
    ensures Lengths(recorded).Keys == recorded.Keys && Lengths(recorded)[k] == |recorded[k]|
    ensures Lengths(recorded) - {k} == Lengths(recorded - {k})
  {
  }

  lemma CountsBounded(a: Admission, p: Phase, rs: seq<Bucket>)
    requires PhaseInv(a, p, rs)
    ensures |rs| <= 2 && (|rs| == 2 ==> CountedTwice(rs) && p == Answered(0))
  {
    hide R.Inv;
  }

  /** In every reachable state: forwarded requests + those counted twice = served + partial + aborted + refunded in full
      + all upstream causes + those outstanding; and each counter is the number of times the requests recorded it. */
  lemma Reconciliation(moves: seq<Move>, x: Proxy)
    requires Runs(BOOT, moves, x)
    ensures x.counters.requests + |Doubled(x)|
            == x.counters.served + x.counters.partial + x.counters.aborted + x.counters.refunded + |x.counters.upstream|
               + |Outstanding(x)|
    ensures x.counters.served == Sum(Times(x.recorded, ServedClean))
    ensures x.counters.partial == Sum(Times(x.recorded, ServedPartial))
    ensures x.counters.aborted == Sum(Times(x.recorded, StreamAborted))
    ensures x.counters.refunded == Sum(Times(x.recorded, RefundedInFull))
    ensures forall kind :: x.counters.upstream[kind] == Sum(Times(x.recorded, Upstream(kind)))
    ensures forall id :: id in x.recorded ==>
              |x.recorded[id]| <= 2 && (|x.recorded[id]| == 2 ==> CountedTwice(x.recorded[id]))
  {
    InvBoot();
    InvRuns(BOOT, moves, x);
    EachCounter(x.counters);
    forall id | id in x.recorded
      ensures |x.recorded[id]| <= 2 && (|x.recorded[id]| == 2 ==> CountedTwice(x.recorded[id]))
    {
      CountsBounded(x.admitted[id], x.phases[id], x.recorded[id]);
    }
    LengthsAddUp(x.recorded);
    assert Outstanding(x) == CountedTimes(x.recorded, 0) && Doubled(x) == CountedTimes(x.recorded, 2);
    assert x.recorded.Keys == x.phases.Keys && |x.recorded| == |x.recorded.Keys| && |x.phases| == |x.phases.Keys|;
  }

  lemma EachCounter(c: Counters)
    ensures c.Of(ServedClean) == c.served && c.Of(ServedPartial) == c.partial && c.Of(StreamAborted) == c.aborted
    ensures c.Of(RefundedInFull) == c.refunded && forall kind :: c.Of(Upstream(kind)) == c.upstream[kind]
  {
  }

  /** The moves of a run that count a request twice. */
  ghost predicate Miscounted(x: Proxy, moves: seq<Move>)
    decreases |moves|
  {
    moves != [] && Enabled(x, moves[0]) && (
      || (moves[0].Happens? && Miscounts(x.phases[moves[0].id], moves[0].event))
      || Miscounted(Do(x, moves[0]), moves[1..])
    )
  }

  lemma {:induction false} DoubledIff(x: Proxy, moves: seq<Move>, y: Proxy)
    requires Inv(x) && Runs(x, moves, y)
    ensures Doubled(y) != {} <==> Doubled(x) != {} || Miscounted(x, moves)
    decreases |moves|
  {
    hide Inv, Do, Miscounts, Doubled, Enabled;
    if moves != [] {
      match moves[0] {
        case Forward(_, _, _) => InvForward(x, moves[0]);
        case Happens(_, _) => InvHappens(x, moves[0]);
      }
      DoubledStep(x, moves[0]);
      DoubledIff(Do(x, moves[0]), moves[1..], y);
    }
  }

  lemma DoubledStep(x: Proxy, m: Move)
    requires Inv(x) && Enabled(x, m)
    ensures Doubled(Do(x, m)) != {} <==>
            Doubled(x) != {} || (m.Happens? && Miscounts(x.phases[m.id], m.event))
  {
    hide Sum, Lengths, Times, React, PhaseInv, Counters.RecordAll, Counters.Outcomes, Counters.Of, Miscounts;
    var y := Do(x, m);
    if m.Happens? {
      PhaseStep(x.admitted[m.id], x.phases[m.id], m.event, x.recorded[m.id]);
      MiscountsIff(x.admitted[m.id], x.phases[m.id], m.event, x.recorded[m.id]);
      CountsBounded(x.admitted[m.id], x.phases[m.id], x.recorded[m.id]);
      if Miscounts(x.phases[m.id], m.event) {
        MiscountsFresh(x.admitted[m.id], x.phases[m.id], m.event, x.recorded[m.id]);
      }
    }
    forall id | id != m.id ensures id in Doubled(y) <==> id in Doubled(x) {
    }
    assert m.id in Doubled(y) <==> m.id in Doubled(x) || (m.Happens? && Miscounts(x.phases[m.id], m.event));
    if id :| id in Doubled(x) {
      assert id in Doubled(y);
    }
    if id :| id in Doubled(y) && id != m.id {
      assert id in Doubled(x);
    }
  }

  lemma MiscountsFresh(a: Admission, p: Phase, e: Event, rs: seq<Bucket>)
    requires PhaseInv(a, p, rs) && Miscounts(p, e)
    ensures rs == []
  {
  }

  /** The formula of the metrics holds exactly on the runs in which no response failed to be constructed after its
      outcome had been recorded at no charge. */
  lemma ReconcilesIff(moves: seq<Move>, x: Proxy)
    requires Runs(BOOT, moves, x)
    ensures x.counters.requests == x.counters.Outcomes() + |Outstanding(x)| <==> !Miscounted(BOOT, moves)
  {
    Reconciliation(moves, x);
    InvBoot();
    assert Doubled(BOOT) == {};
    DoubledIff(BOOT, moves, x);
    assert |Doubled(x)| == 0 <==> Doubled(x) == {};
  }

  /** The upstream statuses of a run all admit a response. */
  ghost predicate StatusesAnswerable(moves: seq<Move>) {
    forall i :: 0 <= i < |moves| && moves[i].Happens? && moves[i].event.Headers? ==>
                  Constructible(moves[i].event.reply.status)
  }

  predicate Servable(p: Phase) {
    match p
    case Reading(reply) => Constructible(reply.status)
    case ReadingRejection(reply, _) => Constructible(reply.status)
    case Settling(_, resume) =>
      (
        match resume
        case NoStreamBody(reply) => Constructible(reply.status)
        case MeteredOk(status) => Constructible(status)
        case UnmeteredOk(status) => Constructible(status)
        case NotOk(reply) => Constructible(reply.status)
        case Caught(_) => true
      )
    case _ => true
  }

  lemma ServableStep(a: Admission, p: Phase, e: Event)
    requires Servable(p) && (e.Headers? ==> Constructible(e.reply.status))
    ensures Servable(React(a, p, e).phase) && !Miscounts(p, e)
  {
    hide R.Step, R.Clamp, Classify, Constructible;
  }

  lemma {:induction false} NeverMiscounted(x: Proxy, moves: seq<Move>)
    requires StatusesAnswerable(moves) && forall id :: id in x.phases ==> Servable(x.phases[id])
    ensures !Miscounted(x, moves)
    decreases |moves|
  {
    hide React, Miscounts, Servable, Counters.RecordAll, Constructible;
    if moves != [] && Enabled(x, moves[0]) {
      var m := moves[0];
      if m.Happens? {
        ServableStep(x.admitted[m.id], x.phases[m.id], m.event);
      } else {
        FetchingServable(m.streaming);
      }
      NeverMiscounted(Do(x, m), moves[1..]);
    }
  }

  lemma FetchingServable(streaming: bool)
    ensures Servable(Fetching(streaming))
  {
  }

  /** As long as every upstream status admits a response, the formula of the metrics holds in every reachable state. */
  lemma ReconcilesForAnswerable(moves: seq<Move>, x: Proxy)
    requires Runs(BOOT, moves, x) && StatusesAnswerable(moves)
    ensures x.counters.requests == x.counters.Outcomes() + |Outstanding(x)|
  {
    NeverMiscounted(BOOT, moves);
    ReconcilesIff(moves, x);
  }

  /** A reply with status 600, which no Response admits. */
  const OUT_OF_RANGE := Reply(600, false, false, false)

  /** One buffered request, the headers and body of that reply, and the ledger's acceptance of the refund. */
  const RELAY_600 := [
    Forward(0, Admission(5, 1), false),
    Happens(0, Headers(true, OUT_OF_RANGE, R.Scan(false, None, None))),
    Happens(0, BodyRead(Unparseable, false)),
    Happens(0, LedgerAccepts(false))
  ]

  /** One rejected request, counted as a server error when it is relayed and as unreachable when the relay fails. */
  lemma RelayCountedTwice()
    ensures var both := [Upstream(Server), Upstream(Unreachable)];
            var x := Lone(Admission(5, 1), Answered(0), both, BOOT.counters.(requests := 1).RecordAll(both));
            && Runs(BOOT, RELAY_600, x)
            && x.recorded == map[0 := both]
            && x.counters.requests == 1 && x.counters.Outcomes() == 2 && Outstanding(x) == {}
  {
    hide React, Do, Enabled, Counters.RecordAll, Counters.Outcomes;
    var a, r, c := Admission(5, 1), OUT_OF_RANGE, BOOT.counters.(requests := 1);
    var e1, e2, e3 := RELAY_600[1].event, RELAY_600[2].event, RELAY_600[3].event;
    var both := [Upstream(Server), Upstream(Unreachable)];
    NoRecord(c);
    RelayBlocks(a);
    Forwarded(a);
    OneBlock(a, Fetching(false), c, e1);
    OneBlock(a, Reading(r), c, e2);
    OneBlock(a, Settling(0, NotOk(r)), c, e3);
    RunsFour(RELAY_600[0], RELAY_600[1], RELAY_600[2], RELAY_600[3]);
    NoOutcome(c);
    RecordsAll(c, both);
    assert Outstanding(Lone(a, Answered(0), both, c.RecordAll(both))) == {};
    assert RELAY_600 == [RELAY_600[0], RELAY_600[1], RELAY_600[2], RELAY_600[3]];
  }

  /** A process with one request. */
  function Lone(a: Admission, p: Phase, rs: seq<Bucket>, c: Counters): Proxy {
    Proxy(map[0 := a], map[0 := p], map[0 := rs], c)
  }

  lemma NoOutcome(c: Counters)
    ensures c == Counters(1, 0, 0, 0, 0, multiset{}) ==> c.Outcomes() == 0
  {
  }

  lemma NoRecord(c: Counters)
    ensures c.RecordAll([]) == c
  {
  }

  lemma Forwarded(a: Admission)
    ensures Enabled(BOOT, Forward(0, a, false))
    ensures Do(BOOT, Forward(0, a, false)) == Lone(a, Fetching(false), [], Counters(1, 0, 0, 0, 0, multiset{}))
  {
  }

  lemma OneBlock(a: Admission, p: Phase, c: Counters, e: Event)
    ensures Enabled(Lone(a, p, [], c), Happens(0, e))
    ensures Do(Lone(a, p, [], c), Happens(0, e))
            == Lone(a, React(a, p, e).phase, React(a, p, e).records, c.RecordAll(React(a, p, e).records))
  {
    hide React, Counters.RecordAll;
    assert [] + React(a, p, e).records == React(a, p, e).records;
  }

  lemma RelayBlocks(a: Admission)
    requires a.hold == 5
    ensures React(a, Fetching(false), RELAY_600[1].event) == Block(Reading(OUT_OF_RANGE), [])
    ensures React(a, Reading(OUT_OF_RANGE), RELAY_600[2].event) == Block(Settling(0, NotOk(OUT_OF_RANGE)), [])
    ensures React(a, Settling(0, NotOk(OUT_OF_RANGE)), RELAY_600[3].event)
            == Block(Answered(0), [Upstream(Server), Upstream(Unreachable)])
  {
  }

  lemma RunsFour(m0: Move, m1: Move, m2: Move, m3: Move)
    requires Enabled(BOOT, m0) && Enabled(Do(BOOT, m0), m1) && Enabled(Do(Do(BOOT, m0), m1), m2)
    requires Enabled(Do(Do(Do(BOOT, m0), m1), m2), m3)
    ensures Runs(BOOT, [m0, m1, m2, m3], Do(Do(Do(Do(BOOT, m0), m1), m2), m3))
  {
    hide Do, Enabled;
    var x4 := Do(Do(Do(Do(BOOT, m0), m1), m2), m3);
    assert [m0, m1, m2, m3][1..] == [m1, m2, m3] && [m1, m2, m3][1..] == [m2, m3] && [m2, m3][1..] == [m3];
    assert Runs(x4, [m3][1..], x4);
    assert Runs(Do(Do(Do(BOOT, m0), m1), m2), [m3], x4);
    assert Runs(Do(Do(BOOT, m0), m1), [m2, m3], x4);
    assert Runs(Do(BOOT, m0), [m1, m2, m3], x4);
  }

  /** Once recorded, always: what a request was counted as and what it was charged never change again. */
  lemma {:induction false} CountedOnce(x: Proxy, moves: seq<Move>, y: Proxy, id: int)
    requires Inv(x) && Runs(x, moves, y) && id in x.phases
    ensures id in y.phases && id in y.recorded
    ensures x.recorded[id] != [] ==> y.recorded[id] == x.recorded[id]
    ensures Charged(x.phases[id]).Some? ==> Charged(y.phases[id]) == Charged(x.phases[id])
    decreases |moves|
  {
    hide Sum, Lengths, Times, React, PhaseInv, Counters.RecordAll, Counters.Outcomes, Counters.Of;
    if moves != [] {
      match moves[0] {
        case Forward(_, _, _) => InvForward(x, moves[0]);
        case Happens(i, e) =>
          InvHappens(x, moves[0]);
          PhaseStep(x.admitted[i], x.phases[i], e, x.recorded[i]);
      }
      CountedOnce(Do(x, moves[0]), moves[1..], y, id);
    }
  }

  /** Outcome and money agree in every reachable state, on both paths: an aborted or refunded request and every upstream
      cause paid nothing, save for the input floor of an accepted request whose body broke off; and nobody ever pays
      more than the hold. */
  lemma OutcomesArePaidFor(moves: seq<Move>, x: Proxy, id: int, b: Bucket)
    requires Runs(BOOT, moves, x) && id in x.recorded && b in x.recorded[id]
    ensures id in x.admitted && id in x.phases
    ensures Charged(x.phases[id]).Some? && Pays(x.admitted[id], b, Charged(x.phases[id]).value)
  {
    hide Sum, Lengths, Times, Inv, Counters.Outcomes, Counters.Of;
    InvBoot();
    InvRuns(BOOT, moves, x);
    Account(x, id);
    BucketPaid(x.admitted[id], x.phases[id], x.recorded[id], b);
  }

  lemma Account(x: Proxy, id: int)
    requires Inv(x) && id in x.recorded
    ensures id in x.admitted && id in x.phases && PhaseInv(x.admitted[id], x.phases[id], x.recorded[id])
  {
  }

  lemma BucketPaid(a: Admission, p: Phase, rs: seq<Bucket>, b: Bucket)
    requires PhaseInv(a, p, rs) && b in rs
    ensures Charged(p).Some? && Pays(a, b, Charged(p).value)
  {
  }

  /** Only a finished request has been counted: before its end it has recorded nothing, and a request whose ledger call
      was rejected never does. */
  lemma CountedAtTheEnd(moves: seq<Move>, x: Proxy, id: int)
    requires Runs(BOOT, moves, x) && id in x.phases
    ensures id in x.recorded
    ensures x.recorded[id] == [] <==>
            !x.phases[id].Answered? && !x.phases[id].Conflicting?
            && !(x.phases[id].Streaming? && x.phases[id].stream.completed.Some?)
  {
    hide Sum, Lengths, Times, Inv, Counters.Outcomes, Counters.Of;
    InvBoot();
    InvRuns(BOOT, moves, x);
    EndedAccount(x, id);
  }

  lemma EndedAccount(x: Proxy, id: int)
    requires Inv(x) && id in x.phases
    ensures id in x.recorded
    ensures x.recorded[id] == [] <==>
            !x.phases[id].Answered? && !x.phases[id].Conflicting?
            && !(x.phases[id].Streaming? && x.phases[id].stream.completed.Some?)
  {
    assert PhaseInv(x.admitted[id], x.phases[id], x.recorded[id]);
  }
}
