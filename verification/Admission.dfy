/** Between pricing and ledger: the hold a request is admitted with (core/src/handler.ts, core/src/hold.ts) and the
    charge it is settled with, as the ledger's client meets them (core/src/ledger/client.ts). */
module Admission {
  import opened Wrappers
  import opened JsValues
  import opened Ledger
  import opened LedgerRuns
  import opened LedgerWire
  import opened LedgerClient
  import StreamRace
  import opened Pricing

  lemma FloorAbove(x: real, limit: int)
    ensures (x / PER).Floor > limit <==> x >= (limit as real + 1.0) * PER
  {
    assert x / PER >= limit as real + 1.0 <==> x >= (limit as real + 1.0) * PER;
  }

  /** The largest bill, in millionths of a micro-dollar, that the hold of a request has to cover. */
  function Exposure(rate: Rate, bytes: nat, maxTokens: nat, oneHour: bool, reply: Option<Js>): real {
    Bill(Covered(bytes, reply), MaxInputRate(rate, oneHour)) + Bill(maxTokens as real, rate.output)
  }

  lemma HoldSize(rate: Rate, bytes: nat, maxTokens: nat, oneHour: bool, reply: Option<Js>)
    ensures var micros := CountTokensHold(rate, bytes, maxTokens, oneHour, reply).micros;
            && micros >= 0
            && (SafeMicros(micros) <==>
                Exposure(rate, bytes, maxTokens, oneHour, reply) < (MAX_SAFE_INTEGER as real + 1.0) * PER)
  {
    hide Bill;
    CountedHoldSize(rate, bytes, maxTokens, oneHour, reply);
    var x := Exposure(rate, bytes, maxTokens, oneHour, reply);
    BillLaws(Covered(bytes, reply), 0.0, MaxInputRate(rate, oneHour), MaxInputRate(rate, oneHour));
    BillLaws(maxTokens as real, 0.0, rate.output, rate.output);
    FloorMonotone(0.0, x);
    FloorAbove(x, MAX_SAFE_INTEGER);
  }

  /** Opening the hold of a new request, with the session current, ends the process exactly when the request's own
      figures put the hold beyond an exact integer: neither estimator nor output cap keeps them below that. */
  lemma AdmissionFatalIff(rate: Rate, bytes: nat, maxTokens: nat, oneHour: bool, reply: Option<Js>,
                          s: State, sent: seq<Request>, q: Request)
    requires q.Open? && q.micros == CountTokensHold(rate, bytes, maxTokens, oneHour, reply).micros
    requires Inv(s) && AllForeign(sent, q) && |sent| > 0 && sent[|sent| - 1] == q
    requires q.holdId !in s.holds && q.holdId !in s.settled
    requires forall i :: 0 <= i < |sent| && sent[i].Settle? ==> sent[i].holdId != q.holdId
    requires Run(s, sent[..|sent| - 1]).Current(q.session)
    ensures OpenVerdict(OutcomeOf(Run(s, sent[..|sent| - 1]), q)) == FatalVerdict
            <==> Exposure(rate, bytes, maxTokens, oneHour, reply) >= (MAX_SAFE_INTEGER as real + 1.0) * PER
  {
    hide *;
    FreshOpenFatalIff(s, sent, q);
    HoldSize(rate, bytes, maxTokens, oneHour, reply);
  }

  /** A ledger with one funded token and a current session. */
  const FUNDED := State(map["token" := 1000000], map[], map[], {}, Some(Session("session", 0, 0)), {})

  /** A body of one byte with an output cap of 10^15 tokens: the ledger finds its hold no valid amount, and the client
      stops the process. */
  lemma HugeOutputCapIsFatal()
    ensures var micros := CountTokensHold(SAMPLE, 1, 1000000000000000, false, None).micros;
            var q := Open("session", "token", micros, "hold");
            && micros == 15000000000000003
            && Inv(FUNDED) && OutcomeOf(FUNDED, q) == InvalidAmount
            && OpenVerdict(OutcomeOf(FUNDED, q)) == FatalVerdict && FatalReason(FUNDED, q)
            && FUNDED.Current(q.session) && q.hash in FUNDED.tokens
            && q.holdId !in FUNDED.holds && q.holdId !in FUNDED.settled
  {
    assert Bill(1.0, SAMPLE.write) + Bill(1000000000000000.0, SAMPLE.output) == 15000000000000003750000.0;
    assert HoldBound(SAMPLE, 1.0, 1000000000000000, false) == 15000000000000003;
  }

  /** A settlement never meets such a reason: billActual keeps the charge within the hold, so an open hold of a current
      session is settled, whatever the priced cost. */
  lemma ClampedSettlementNeverFatal(s: State, sent: seq<Request>, q: Request, actual: int)
    requires Inv(s) && AllForeign(sent, q) && q.Settle? && |sent| > 0 && sent[|sent| - 1] == q
    requires q.holdId in s.holds && s.holds[q.holdId].session == q.session
    requires q.charge == StreamRace.Clamp(actual, s.holds[q.holdId].micros)
    requires Run(s, sent[..|sent| - 1]).Current(q.session)
    ensures SettleVerdict(OutcomeOf(Run(s, sent[..|sent| - 1]), q)) == Accepted
  {
    hide Run, OutcomeOf, Next;
    OpenHoldSettleFatalIff(s, sent, q);
    HeldHoldIsKnown(s, sent, q);
  }

  lemma HeldHoldIsKnown(s: State, sent: seq<Request>, q: Request)
    requires Inv(s) && AllForeign(sent, q) && q.Settle? && |sent| > 0 && sent[|sent| - 1] == q
    requires q.holdId in s.holds && s.holds[q.holdId].session == q.session
    requires Run(s, sent[..|sent| - 1]).Current(q.session)
    ensures SettleVerdict(OutcomeOf(Run(s, sent[..|sent| - 1]), q)) != Refused
  {
    hide Run, Next;
    var init := sent[..|sent| - 1];
    InvRun(s, init);
    OpenOrSettledRun(s, init, q, s.holds[q.holdId]);
  }
}
