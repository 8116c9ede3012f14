/** The proxy-to-ledger contract: how the server turns an outcome into a JSON answer (core/src/ledger/server.ts) and
    how the client reads it back (core/src/ledger/client.ts). */
module LedgerWire {
  import opened Wrappers
  import opened JsValues
  import opened Ledger

  /** What one fetch gives: no response at all, or a status and the parsed body, null if it did not parse. */
  datatype Response = NoResponse | Http(status: int, body: Js)

  function ErrorBody(code: string): Js {
    Obj(map["error" := Str(code)])
  }

  function ResultBody(result: string): Js {
    Obj(map["result" := Str(result)])
  }

  function TotalsBody(result: string, holds: int, micros: int): Js {
    Obj(map[
      "result" := Str(result),
      "recovered_holds" := Num(holds as real),
      "recovered_micros" := Num(micros as real)
    ])
  }

  function FoundBody(balance: int): Js {
    Obj(map["result" := Str("found"), "balance_micros" := Num(balance as real)])
  }

  /** The server's mapping of outcomes to answers. */
  function Answer(o: Outcome): Response {
    match o
    case Started(holds, micros) => Http(200, TotalsBody("started", holds, micros))
    case AlreadyCurrent(holds, micros) => Http(200, TotalsBody("current", holds, micros))
    case StaleSession => Http(409, ErrorBody("stale_session"))
    case Missing => Http(200, ResultBody("missing"))
    case Found(balance) => Http(200, FoundBody(balance))
    case Opened => Http(200, ResultBody("opened"))
    case AlreadyOpen => Http(200, ResultBody("already_open"))
    case Conflict => Http(409, ErrorBody("conflict"))
    case InvalidAmount => Http(400, ErrorBody("invalid_request"))
    case UnknownToken => Http(404, ErrorBody("unknown_token"))
    case InsufficientBalance => Http(402, ErrorBody("insufficient_balance"))
    case Settled => Http(200, ResultBody("settled"))
    case AlreadySettled => Http(200, ResultBody("already_settled"))
    case UnknownHold => Http(404, ErrorBody("unknown_hold"))
    case InvalidCharge => Http(400, ErrorBody("invalid_request"))
    case Applied => Http(200, ResultBody("applied"))
    case AlreadyApplied => Http(200, ResultBody("already_applied"))
  }

  /** A number the client accepts as a count or an amount. */
  predicate SafeCount(v: Js) {
    v.Num? && v.value == v.value.Floor as real && SafeMicros(v.value.Floor)
  }

  predicate HasResult(body: Js, result: string) {
    Get(body, "result") == Str(result)
  }

  /** The result shapes the client accepts from a 2xx, operation by operation. */
  predicate Recognized(q: Request, body: Js) {
    match q
    case Start(_) =>
      && (HasResult(body, "started") || HasResult(body, "current"))
      && SafeCount(Get(body, "recovered_holds")) && SafeCount(Get(body, "recovered_micros"))
    case Balance(_, _) =>
      HasResult(body, "missing") || (HasResult(body, "found") && SafeCount(Get(body, "balance_micros")))
    case Open(_, _, _, _) => HasResult(body, "opened") || HasResult(body, "already_open")
    case Settle(_, _, _) => HasResult(body, "settled") || HasResult(body, "already_settled")
    case Credit(_, _, _) => HasResult(body, "applied") || HasResult(body, "already_applied")
  }

  predicate OkStatus(status: int) {
    200 <= status < 300
  }

  /** A typed 4xx is definite; a 2xx is definite only in a shape this operation recognizes. */
  predicate Definite(q: Request, r: Response) {
    r.Http? && r.status < 500 && Truthy(r.body) && (!OkStatus(r.status) || Recognized(q, r.body))
  }

  datatype Verdict = Accepted | Refused | FatalVerdict

  function ErrorOf(r: Response): Option<string> {
    if r.Http? && Get(r.body, "error").Str? then Some(Get(r.body, "error").text) else None
  }

  /** The tail of openHold: true, false or process-fatal. */
  function DecodeOpen(q: Request, r: Response): Verdict
    requires r.Http?
  {
    if OkStatus(r.status) && Recognized(q, r.body) then Accepted
    else if ErrorOf(r) == Some("unknown_token") || ErrorOf(r) == Some("insufficient_balance") then Refused
    else FatalVerdict
  }

  /** The tail of settleHold. */
  function DecodeSettle(q: Request, r: Response): Verdict
    requires r.Http?
  {
    if OkStatus(r.status) && Recognized(q, r.body) then Accepted
    else if ErrorOf(r) == Some("unknown_hold") then Refused
    else FatalVerdict
  }

  /** The tail of startSession: the recovery totals, or none. */
  function DecodeStart(q: Request, r: Response): Option<Outcome>
    requires r.Http?
  {
    if OkStatus(r.status) && Recognized(q, r.body) && q.Start? then
      var holds, micros := Get(r.body, "recovered_holds").value.Floor, Get(r.body, "recovered_micros").value.Floor;
      Some(if HasResult(r.body, "started") then Started(holds, micros) else AlreadyCurrent(holds, micros))
    else None
  }

  /** The numbers of an outcome are in the range in which a JSON number is exact for the client. */
  predicate Readable(o: Outcome) {
    match o
    case Started(holds, micros) => SafeMicros(holds) && SafeMicros(micros)
    case AlreadyCurrent(holds, micros) => SafeMicros(holds) && SafeMicros(micros)
    case Found(balance) => SafeMicros(balance)
    case _ => true
  }

  // ---- Fields and words ----

  lemma ErrorFields(code: string)
    ensures Get(ErrorBody(code), "error") == Str(code) && Get(ErrorBody(code), "result") == Undefined
  {
    assert "error"[0] != "result"[0];
  }

  lemma ResultFields(result: string)
    ensures Get(ResultBody(result), "result") == Str(result) && Get(ResultBody(result), "error") == Undefined
  {
    assert "error"[0] != "result"[0];
  }

  lemma TotalsFields(result: string, holds: int, micros: int)
    ensures var body := TotalsBody(result, holds, micros);
            && Get(body, "result") == Str(result) && Get(body, "error") == Undefined
            && Get(body, "recovered_holds") == Num(holds as real)
            && Get(body, "recovered_micros") == Num(micros as real)
  {
    assert "error"[0] != "result"[0] && "error"[0] != "recovered_holds"[0] && "error"[0] != "recovered_micros"[0];
    assert |"result"| != |"recovered_holds"| && |"result"| != |"recovered_micros"|;
    assert |"recovered_holds"| != |"recovered_micros"|;
  }

  lemma FoundFields(balance: int)
    ensures var body := FoundBody(balance);
            && Get(body, "result") == Str("found") && Get(body, "error") == Undefined
            && Get(body, "balance_micros") == Num(balance as real)
  {
    assert "error"[0] != "result"[0] && "error"[0] != "balance_micros"[0] && "result"[0] != "balance_micros"[0];
  }

  /** An exact number is accepted, and read back as it was. */
  lemma CountFields(n: int)
    ensures SafeCount(Num(n as real)) <==> SafeMicros(n)
    ensures (n as real).Floor == n
  {
  }

  /** The words on the wire of one length are told apart by a letter. */
  lemma Words()
    ensures "started" != "current" && "settled" != "started" && "settled" != "current"
    ensures "missing" != "started" && "missing" != "current" && "missing" != "settled"
    ensures "applied" != "started" && "applied" != "current" && "applied" != "settled" && "applied" != "missing"
    ensures "unknown_token" != "stale_session" && "already_settled" != "already_applied"
  {
    assert "started"[0] == 's' && "current"[0] == 'c' && "missing"[0] == 'm' && "applied"[0] == 'a';
    assert "settled"[0] == 's' && "settled"[1] == 'e' && "started"[1] == 't';
    assert "unknown_token"[0] == 'u' && "stale_session"[0] == 's';
    assert "already_settled"[8] == 's' && "already_applied"[8] == 'a';
  }

  /** The result and the error code in an answer. */
  function ResultWord(o: Outcome): Option<string> {
    match o
    case Started(_, _) => Some("started")
    case AlreadyCurrent(_, _) => Some("current")
    case Missing => Some("missing")
    case Found(_) => Some("found")
    case Opened => Some("opened")
    case AlreadyOpen => Some("already_open")
    case Settled => Some("settled")
    case AlreadySettled => Some("already_settled")
    case Applied => Some("applied")
    case AlreadyApplied => Some("already_applied")
    case _ => None
  }

  function ErrorWord(o: Outcome): Option<string> {
    match o
    case StaleSession => Some("stale_session")
    case Conflict => Some("conflict")
    case InvalidAmount => Some("invalid_request")
    case InvalidCharge => Some("invalid_request")
    case UnknownToken => Some("unknown_token")
    case InsufficientBalance => Some("insufficient_balance")
    case UnknownHold => Some("unknown_hold")
    case _ => None
  }

  lemma AnswerFields(o: Outcome)
    ensures var r := Answer(o);
            && r.Http? && r.status < 500 && Truthy(r.body)
            && (OkStatus(r.status) <==> ResultWord(o).Some?)
            && Get(r.body, "result") == (if ResultWord(o).Some? then Str(ResultWord(o).value) else Undefined)
            && ErrorOf(r) == ErrorWord(o)
            && (o.Started? || o.AlreadyCurrent? ==>
                  && Get(r.body, "recovered_holds") == Num(o.holds as real)
                  && Get(r.body, "recovered_micros") == Num(o.micros as real))
            && (o.Found? ==> Get(r.body, "balance_micros") == Num(o.balance as real))
  {
    BodiesTruthy(o);
    hide ErrorBody, ResultBody, TotalsBody, FoundBody, Get, Truthy;
    if ErrorWord(o).Some? {
      ErrorFields(ErrorWord(o).value);
    } else if o.Found? {
      FoundFields(o.balance);
    } else if o.Started? || o.AlreadyCurrent? {
      TotalsFields(ResultWord(o).value, o.holds, o.micros);
    } else {
      ResultFields(ResultWord(o).value);
    }
  }

  lemma BodiesTruthy(o: Outcome)
    ensures Answer(o).Http? && Truthy(Answer(o).body)
  {
  }

  /** The outcomes an operation can have. */
  predicate Possible(q: Request, o: Outcome) {
    match q
    case Start(_) => o.Started? || o.AlreadyCurrent? || o.StaleSession?
    case Balance(_, _) => o.StaleSession? || o.Missing? || o.Found?
    case Open(_, _, _, _) =>
      o in {StaleSession, InvalidAmount, AlreadyOpen, Conflict, UnknownToken, InsufficientBalance, Opened}
    case Settle(_, _, _) => o in {StaleSession, AlreadySettled, Conflict, UnknownHold, InvalidCharge, Settled}
    case Credit(_, _, _) => o in {Applied, AlreadyApplied}
  }

  lemma OutcomePossible(s: State, q: Request)
    ensures Possible(q, OutcomeOf(s, q))
  {
  }

  lemma RecognizedAnswer(q: Request, o: Outcome)
    requires Possible(q, o)
    ensures Recognized(q, Answer(o).body) <==> ResultWord(o).Some? && Readable(o)
  {
    AnswerFields(o);
    hide Answer, Get;
    if o.Started? || o.AlreadyCurrent? {
      CountFields(o.holds);
      CountFields(o.micros);
    }
    if o.Found? {
      CountFields(o.balance);
    }
    hide SafeCount;
  }

  // ---- What the client makes of an answer ----

  /** Nothing is lost between server and client: an answer is definite exactly when its numbers are exact; the client
      accepts exactly the answers that mean the hold is open or settled, refuses exactly those that mean no money
      moved, and stops on every other. */
  lemma DecodeAnswer(s: State, q: Request)
    ensures Definite(q, Answer(OutcomeOf(s, q))) <==> Readable(OutcomeOf(s, q))
    ensures q.Open? || q.Settle? || q.Credit? ==> Readable(OutcomeOf(s, q))
    ensures q.Open? ==> DecodeOpen(q, Answer(OutcomeOf(s, q))) == OpenVerdict(OutcomeOf(s, q))
    ensures q.Settle? ==> DecodeSettle(q, Answer(OutcomeOf(s, q))) == SettleVerdict(OutcomeOf(s, q))
  {
    hide OutcomeOf, Answer, Recognized, ErrorOf, Truthy;
    var o := OutcomeOf(s, q);
    OutcomePossible(s, q);
    AnswerFields(o);
    RecognizedAnswer(q, o);
    Words();
  }

  /** The client goes on after a start exactly when the ledger did not answer that the session is superseded, and then
      it reads the ledger's own totals off the wire. */
  lemma StartRoundTrip(s: State, q: Request)
    requires q.Start? && Readable(OutcomeOf(s, q))
    ensures var o := OutcomeOf(s, q);
            && DecodeStart(q, Answer(o)) == (if o == StaleSession then None else Some(o))
            && (o != StaleSession ==> Next(s, q).Current(q.session))
  {
    var o := OutcomeOf(s, q);
    if o != StaleSession {
      StartCurrent(s, q);
    }
    OutcomePossible(s, q);
    hide OutcomeOf, Next, Answer, Recognized, Get;
    AnswerFields(o);
    RecognizedAnswer(q, o);
    Words();
    if o.Started? || o.AlreadyCurrent? {
      CountFields(o.holds);
      CountFields(o.micros);
    }
  }

  lemma StartCurrent(s: State, q: Request)
    requires q.Start? && OutcomeOf(s, q) != StaleSession
    ensures Next(s, q).Current(q.session)
  {
  }

  function OpenVerdict(o: Outcome): Verdict {
    if o in {Opened, AlreadyOpen} then Accepted
    else if o in {UnknownToken, InsufficientBalance} then Refused
    else FatalVerdict
  }

  function SettleVerdict(o: Outcome): Verdict {
    if o in {Settled, AlreadySettled} then Accepted else if o == UnknownHold then Refused else FatalVerdict
  }

  /** No two outcomes have the same answer, except the two invalid amounts. */
  lemma AnswerInjective(a: Outcome, b: Outcome)
    requires Answer(a) == Answer(b)
    ensures a == b || {a, b} == {InvalidAmount, InvalidCharge}
  {
    hide Answer, Get, ErrorOf;
    AnswerFields(a);
    AnswerFields(b);
    Words();
  }
}
