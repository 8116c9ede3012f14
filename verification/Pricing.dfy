/** Integer-rate cost arithmetic and the pre-flight hold (core/src/cost/pricing.ts, core/src/hold.ts): the hold is the
    largest cost of any report within the token bounds, so the settlement clamp never bites. */
module Pricing {
  import opened JsValues
  import opened Wrappers
  import Scanners
  import Sse
  import StreamRace

  /** Micro-dollars per million tokens. */
  datatype Rate = Rate(input: nat, output: nat, read: nat, write: nat, write1h: nat)

  /** What the price table is asserted to satisfy at load. */
  predicate Asserted(rate: Rate) {
    rate.write <= rate.write1h
  }

  const PER := 1000000.0

  function Max(a: nat, b: nat): nat {
    if a < b then b else a
  }

  function Bill(tokens: real, rate: nat): real {
    tokens * rate as real
  }

  /** Bills are linear in the tokens and monotone in both arguments. */
  lemma BillLaws(a: real, b: real, low: nat, high: nat)
    requires 0.0 <= a && low <= high
    ensures 0.0 <= Bill(a, low) <= Bill(a, high)
    ensures Bill(a + b, low) == Bill(a, low) + Bill(b, low)
    ensures Bill(0.0, low) == 0.0
  {
    var gap := high as real - low as real;
    assert a * high as real == a * low as real + a * gap;
  }

  // ---- The cost of a report ----

  /** The one-hour slice of the cache writes, clamped to their total. */
  function OneHour(u: Usage): (r: real)
    ensures 0.0 <= r <= SanitizeCount(u.write)
  {
    Scanners.MinReal(SanitizeCount(u.write1h), SanitizeCount(u.write))
  }

  function Numerator(rate: Rate, u: Usage): real {
    Bill(SanitizeCount(u.input), rate.input)
    + Bill(SanitizeCount(u.output), rate.output)
    + Bill(SanitizeCount(u.write) - OneHour(u), rate.write)
    + Bill(OneHour(u), rate.write1h)
    + Bill(SanitizeCount(u.read), rate.read)
  }

  function CostOf(rate: Rate, u: Usage): int {
    (Numerator(rate, u) / PER).Floor
  }

  /** Every input token a report bills, whatever it is classified as. */
  function Billed(u: Usage): real {
    SanitizeCount(u.input) + SanitizeCount(u.write) + SanitizeCount(u.read)
  }

  lemma FloorMonotone(x: real, y: real)
    requires x <= y
    ensures (x / PER).Floor <= (y / PER).Floor
  {
    assert x / PER <= y / PER;
  }

  /** No report, however malformed, bills a negative amount. */
  lemma CostNonNegative(rate: Rate, u: Usage)
    ensures CostOf(rate, u) >= 0
  {
    hide Bill;
    BillLaws(SanitizeCount(u.input), 0.0, rate.input, rate.input);
    BillLaws(SanitizeCount(u.output), 0.0, rate.output, rate.output);
    BillLaws(SanitizeCount(u.write) - OneHour(u), 0.0, rate.write, rate.write);
    BillLaws(OneHour(u), 0.0, rate.write1h, rate.write1h);
    BillLaws(SanitizeCount(u.read), 0.0, rate.read, rate.read);
    FloorMonotone(0.0, Numerator(rate, u));
  }

  // ---- The worst case ----

  function MaxInputRate(rate: Rate, oneHour: bool): nat {
    Max(Max(rate.input, Max(rate.read, rate.write)), if oneHour then rate.write1h else 0)
  }

  function HoldBound(rate: Rate, tokens: real, maxTokens: nat, oneHour: bool): int {
    ((Bill(tokens, MaxInputRate(rate, oneHour)) + Bill(maxTokens as real, rate.output)) / PER).Floor
  }

  /** A report the hold is meant to cover: a one-hour slice only when the request opted in. */
  predicate Within(u: Usage, tokens: real, maxTokens: nat, oneHour: bool) {
    && Billed(u) <= tokens
    && SanitizeCount(u.output) <= maxTokens as real
    && (oneHour || OneHour(u) == 0.0)
  }

  lemma HoldCovers(rate: Rate, u: Usage, tokens: real, maxTokens: nat, oneHour: bool)
    requires Within(u, tokens, maxTokens, oneHour)
    ensures CostOf(rate, u) <= HoldBound(rate, tokens, maxTokens, oneHour)
  {
    hide Bill;
    var m := MaxInputRate(rate, oneHour);
    var i, w5, w1, r := SanitizeCount(u.input), SanitizeCount(u.write) - OneHour(u), OneHour(u), SanitizeCount(u.read);
    var output, spare := SanitizeCount(u.output), tokens - Billed(u);
    BillLaws(i, w5 + w1 + r + spare, rate.input, m);
    BillLaws(i, w5 + w1 + r + spare, m, m);
    BillLaws(w5, 0.0, rate.write, m);
    BillLaws(w5, w1 + r + spare, m, m);
    BillLaws(w1, 0.0, rate.write1h, Max(rate.write1h, m));
    BillLaws(w1, r + spare, m, m);
    BillLaws(r, 0.0, rate.read, m);
    BillLaws(r, spare, m, m);
    BillLaws(spare, 0.0, m, m);
    BillLaws(output, maxTokens as real - output, rate.output, rate.output);
    BillLaws(maxTokens as real - output, 0.0, rate.output, rate.output);
    FloorMonotone(Numerator(rate, u), Bill(tokens, m) + Bill(maxTokens as real, rate.output));
  }

  /** The report that bills every input token in the dearest class it may use. */
  function Dearest(rate: Rate, tokens: real, maxTokens: nat, oneHour: bool): Usage {
    var m := MaxInputRate(rate, oneHour);
    var none, all, output := Num(0.0), Num(tokens), Num(maxTokens as real);
    if rate.input == m then Usage(all, output, none, none, none)
    else if rate.read == m then Usage(none, output, none, all, none)
    else if rate.write == m then Usage(none, output, all, none, none)
    else Usage(none, output, all, none, all)
  }

  lemma ZeroBills(rate: Rate)
    ensures Bill(0.0, rate.input) == Bill(0.0, rate.output) == Bill(0.0, rate.read) == 0.0
    ensures Bill(0.0, rate.write) == Bill(0.0, rate.write1h) == 0.0
  {
  }

  lemma DearestAttains(rate: Rate, tokens: real, maxTokens: nat, oneHour: bool)
    requires tokens >= 0.0
    ensures var u := Dearest(rate, tokens, maxTokens, oneHour);
            Within(u, tokens, maxTokens, oneHour)
            && CostOf(rate, u) == HoldBound(rate, tokens, maxTokens, oneHour)
  {
    var u := Dearest(rate, tokens, maxTokens, oneHour);
    var m := MaxInputRate(rate, oneHour);
    ZeroBills(rate);
    hide Bill;
    assert Numerator(rate, u) == Bill(tokens, m) + Bill(maxTokens as real, rate.output);
  }

  /** The hold is the maximum of the cost over the reports it covers: never short, and not a micro-dollar too large. */
  lemma HoldIsWorstCase(rate: Rate, tokens: real, maxTokens: nat, oneHour: bool, charge: int)
    requires tokens >= 0.0
    ensures HoldBound(rate, tokens, maxTokens, oneHour) <= charge
            <==> (forall u: Usage :: Within(u, tokens, maxTokens, oneHour) ==> CostOf(rate, u) <= charge)
  {
    DearestAttains(rate, tokens, maxTokens, oneHour);
    forall u: Usage | Within(u, tokens, maxTokens, oneHour)
      ensures CostOf(rate, u) <= HoldBound(rate, tokens, maxTokens, oneHour)
    {
      HoldCovers(rate, u, tokens, maxTokens, oneHour);
    }
  }

  /** At a rate, the hold of requests that did not opt into one-hour writes covers reports that bill them anyway, for
      all token counts, exactly when a one-hour write is no dearer than the dearest of the other input classes. */
  lemma UnflaggedSoundIff(rate: Rate)
    ensures (forall tokens: real, maxTokens: nat, u: Usage :: Within(u, tokens, maxTokens, true) ==>
               CostOf(rate, u) <= HoldBound(rate, tokens, maxTokens, false))
            <==> rate.write1h <= MaxInputRate(rate, false)
  {
    if rate.write1h <= MaxInputRate(rate, false) {
      forall tokens: real, maxTokens: nat, u: Usage | Within(u, tokens, maxTokens, true)
        ensures CostOf(rate, u) <= HoldBound(rate, tokens, maxTokens, false)
      {
        HoldCovers(rate, u, tokens, maxTokens, true);
        assert MaxInputRate(rate, true) == MaxInputRate(rate, false);
      }
    } else {
      DearestAttains(rate, PER, 0, true);
      WholeMillion(MaxInputRate(rate, true), MaxInputRate(rate, false), rate.output);
    }
  }

  lemma WholeMillion(dear: nat, cheap: nat, output: nat)
    ensures ((Bill(PER, dear) + Bill(0.0, output)) / PER).Floor == dear
    ensures ((Bill(PER, cheap) + Bill(0.0, output)) / PER).Floor == cheap
  {
    assert Bill(PER, dear) / PER == dear as real && Bill(PER, cheap) / PER == cheap as real;
  }

  // ---- The rate of the request and the rate of the response ----

  /** No class of input, nor the output, is dearer in the response's rate than what the request's rate reserves. */
  predicate NoDearer(resp: Rate, req: Rate, oneHour: bool) {
    MaxInputRate(resp, oneHour) <= MaxInputRate(req, oneHour) && resp.output <= req.output
  }

  lemma HoldGrowsWithRate(req: Rate, resp: Rate, tokens: real, maxTokens: nat, oneHour: bool)
    requires tokens >= 0.0 && NoDearer(resp, req, oneHour)
    ensures HoldBound(resp, tokens, maxTokens, oneHour) <= HoldBound(req, tokens, maxTokens, oneHour)
  {
    hide Bill;
    var low, high := MaxInputRate(resp, oneHour), MaxInputRate(req, oneHour);
    BillLaws(tokens, 0.0, low, high);
    BillLaws(maxTokens as real, 0.0, resp.output, req.output);
    FloorMonotone(Bill(tokens, low) + Bill(maxTokens as real, resp.output),
                  Bill(tokens, high) + Bill(maxTokens as real, req.output));
  }

  /** The hold is sized at the rate of the requested model and the charge is priced at that of the model that answered.
      For two rates, the hold covers every report within its bounds, for all token counts, exactly when the answering
      rate is no dearer. */
  lemma RatesCoverIff(req: Rate, resp: Rate, oneHour: bool)
    ensures (forall tokens: real, maxTokens: nat, u: Usage :: Within(u, tokens, maxTokens, oneHour) ==>
               CostOf(resp, u) <= HoldBound(req, tokens, maxTokens, oneHour))
            <==> NoDearer(resp, req, oneHour)
  {
    if NoDearer(resp, req, oneHour) {
      forall tokens: real, maxTokens: nat, u: Usage | Within(u, tokens, maxTokens, oneHour)
        ensures CostOf(resp, u) <= HoldBound(req, tokens, maxTokens, oneHour)
      {
        HoldCovers(resp, u, tokens, maxTokens, oneHour);
        HoldGrowsWithRate(req, resp, tokens, maxTokens, oneHour);
      }
    } else if MaxInputRate(resp, oneHour) > MaxInputRate(req, oneHour) {
      DearestAttains(resp, PER, 0, oneHour);
      WholeMillion(MaxInputRate(resp, oneHour), MaxInputRate(req, oneHour), resp.output);
      WholeMillion(MaxInputRate(resp, oneHour), MaxInputRate(req, oneHour), req.output);
    } else {
      DearestAttains(resp, 0.0, 1000000, oneHour);
      MillionOutput(MaxInputRate(resp, oneHour), resp.output);
      MillionOutput(MaxInputRate(req, oneHour), req.output);
    }
  }

  lemma MillionOutput(input: nat, output: nat)
    ensures ((Bill(0.0, input) + Bill(1000000 as real, output)) / PER).Floor == output
  {
    assert Bill(1000000 as real, output) / PER == output as real;
  }

  // ---- One-hour classification ----

  /** Reclassifying writes as one-hour writes never bills less, on any report, exactly when the table invariant
      holds. */
  lemma OneHourNeverCheaper(rate: Rate)
    ensures Asserted(rate) <==>
            forall u: Usage, v: Usage :: MoreOneHour(u, v) ==> CostOf(rate, u) <= CostOf(rate, v)
  {
    if Asserted(rate) {
      forall u: Usage, v: Usage | MoreOneHour(u, v)
        ensures CostOf(rate, u) <= CostOf(rate, v)
      {
        DearerSlice(rate, u, v);
      }
    } else {
      var none, million := Num(0.0), Num(PER);
      var u, v := Usage(none, none, million, none, none), Usage(none, none, million, none, million);
      assert MoreOneHour(u, v);
      assert Numerator(rate, u) / PER == rate.write as real;
      assert Numerator(rate, v) / PER == rate.write1h as real;
    }
  }

  /** The same report, with no smaller one-hour slice. */
  predicate MoreOneHour(u: Usage, v: Usage) {
    v == u.(write1h := v.write1h) && SanitizeCount(u.write1h) <= SanitizeCount(v.write1h)
  }

  lemma DearerSlice(rate: Rate, u: Usage, v: Usage)
    requires Asserted(rate) && MoreOneHour(u, v)
    ensures CostOf(rate, u) <= CostOf(rate, v)
  {
    hide Bill;
    var more := OneHour(v) - OneHour(u);
    BillLaws(more, 0.0, rate.write, rate.write1h);
    BillLaws(more, OneHour(u), rate.write1h, rate.write1h);
    BillLaws(more, SanitizeCount(v.write) - OneHour(v), rate.write, rate.write);
    FloorMonotone(Numerator(rate, u), Numerator(rate, v));
  }

  // ---- The two estimators ----

  datatype Hold = Hold(micros: int, inputTokens: real, counted: bool)

  function ByteBoundHold(rate: Rate, bytes: nat, maxTokens: nat, oneHour: bool): Hold {
    Hold(HoldBound(rate, bytes as real, maxTokens, oneHour), bytes as real, false)
  }

  function Ceiling(x: real): int {
    -((-x).Floor)
  }

  function Padded(count: real): real {
    (Ceiling(count * 1.1) + 64) as real
  }

  /** A usable count: a finite number of at least one. The reply is absent when the counter failed in any way. */
  function Counted(reply: Option<Js>): Option<real> {
    if reply.None? then None
    else
      var count := Get(reply.value, "input_tokens");
      if count.Num? && count.value >= 1.0 then Some(count.value) else None
  }

  function CountTokensHold(rate: Rate, bytes: nat, maxTokens: nat, oneHour: bool, reply: Option<Js>): Hold {
    match Counted(reply)
    case None => ByteBoundHold(rate, bytes, maxTokens, oneHour)
    case Some(count) =>
      var byBytes := ByteBoundHold(rate, bytes, maxTokens, oneHour).micros;
      var byCount := HoldBound(rate, Padded(count), maxTokens, oneHour);
      Hold(if byBytes < byCount then byBytes else byCount, count, true)
  }

  /** The input tokens the hold is sized for: the bytes, or the padded count where that is less. */
  function Covered(bytes: nat, reply: Option<Js>): (r: real)
    ensures r >= 0.0
  {
    match Counted(reply)
    case None => bytes as real
    case Some(count) => Scanners.MinReal(bytes as real, Padded(count))
  }

  lemma BoundMonotone(rate: Rate, fewer: real, more: real, maxTokens: nat, oneHour: bool)
    requires fewer <= more
    ensures HoldBound(rate, fewer, maxTokens, oneHour) <= HoldBound(rate, more, maxTokens, oneHour)
  {
    hide Bill;
    var m, out := MaxInputRate(rate, oneHour), Bill(maxTokens as real, rate.output);
    BillLaws(more - fewer, fewer, m, m);
    FloorMonotone(Bill(fewer, m) + out, Bill(more, m) + out);
  }

  /** Capping the holds caps the tokens. */
  lemma CountedHoldSize(rate: Rate, bytes: nat, maxTokens: nat, oneHour: bool, reply: Option<Js>)
    ensures CountTokensHold(rate, bytes, maxTokens, oneHour, reply).micros
            == HoldBound(rate, Covered(bytes, reply), maxTokens, oneHour)
  {
    if Counted(reply).Some? {
      var padded := Padded(Counted(reply).value);
      if padded <= bytes as real {
        BoundMonotone(rate, padded, bytes as real, maxTokens, oneHour);
      } else {
        BoundMonotone(rate, bytes as real, padded, maxTokens, oneHour);
      }
    }
  }

  /** Whichever estimator answered, and whichever model, if it is no dearer than the requested one: a report within the
      bounds of the hold is charged exactly its cost, and the unused part of the hold is refunded. The bytes are at
      least the tokens, and the padding absorbs ten per cent and 64 tokens of drift. */
  lemma ChargedExactly(req: Rate, resp: Rate, u: Usage, bytes: nat, maxTokens: nat, oneHour: bool, reply: Option<Js>)
    requires NoDearer(resp, req, oneHour) && Within(u, bytes as real, maxTokens, oneHour)
    requires Counted(reply).Some? ==> Billed(u) <= Counted(reply).value * 1.1 + 64.0
    ensures var hold := CountTokensHold(req, bytes, maxTokens, oneHour, reply).micros;
            hold >= 0 && StreamRace.Clamp(CostOf(resp, u), hold) == CostOf(resp, u)
  {
    if Counted(reply).Some? {
      var x := Counted(reply).value * 1.1;
      assert x <= Ceiling(x) as real;
    }
    CountedHoldSize(req, bytes, maxTokens, oneHour, reply);
    HoldCovers(resp, u, Covered(bytes, reply), maxTokens, oneHour);
    HoldGrowsWithRate(req, resp, Covered(bytes, reply), maxTokens, oneHour);
    CostNonNegative(resp, u);
  }

  /** A report through the OpenAI mapping costs at most the hold as soon as its sanitized total is within the bound:
      the slices it names, consistent or not, cannot push the charge above. */
  lemma OpenAIChargedExactly(req: Rate, resp: Rate, total: real, cached: real, written: real, output: real, bytes: nat,
                             maxTokens: nat, reply: Option<Js>)
    requires NoDearer(resp, req, false)
    requires total >= 0.0 && cached >= 0.0 && written >= 0.0 && 0.0 <= output <= maxTokens as real
    requires total <= bytes as real
    requires Counted(reply).Some? ==> total <= Counted(reply).value * 1.1 + 64.0
    ensures var cost := CostOf(resp, Scanners.SplitInput(total, cached, written, output));
            var hold := CountTokensHold(req, bytes, maxTokens, false, reply).micros;
            hold >= 0 && StreamRace.Clamp(cost, hold) == cost
  {
    Scanners.SlicesPartition(total, cached, written, output);
    ChargedExactly(req, resp, Scanners.SplitInput(total, cached, written, output), bytes, maxTokens, false, reply);
  }

  /** The figures that decide whether the hold is sound. For reports that bill up to n input tokens and m output tokens,
      with one-hour writes among them or not: the hold covers every such report, at every admissible rate of the request
      and every no dearer one of the response, exactly when n is within the tokens it was sized for, m within the output
      cap, and the request flagged what is billed. */
  lemma HoldSoundIff(n: real, m: nat, billsOneHour: bool, bytes: nat, maxTokens: nat, oneHour: bool, reply: Option<Js>)
    requires n >= 0.0
    ensures (forall req: Rate, resp: Rate, u: Usage ::
               Asserted(req) && Asserted(resp) && NoDearer(resp, req, oneHour) && Within(u, n, m, billsOneHour) ==>
                 CostOf(resp, u) <= CountTokensHold(req, bytes, maxTokens, oneHour, reply).micros)
            <==> n <= Covered(bytes, reply) && m <= maxTokens && (billsOneHour && n > 0.0 ==> oneHour)
  {
    hide CountTokensHold, Covered;
    if n <= Covered(bytes, reply) && m <= maxTokens && (billsOneHour && n > 0.0 ==> oneHour) {
      forall req: Rate, resp: Rate, u: Usage
        | Asserted(req) && Asserted(resp) && NoDearer(resp, req, oneHour) && Within(u, n, m, billsOneHour)
        ensures CostOf(resp, u) <= CountTokensHold(req, bytes, maxTokens, oneHour, reply).micros
      {
        hide CostOf, HoldBound;
        CountedHoldSize(req, bytes, maxTokens, oneHour, reply);
        HoldCovers(resp, u, Covered(bytes, reply), maxTokens, oneHour);
        HoldGrowsWithRate(req, resp, Covered(bytes, reply), maxTokens, oneHour);
      }
    } else {
      var rate, u := FallsShort(n, m, billsOneHour, Covered(bytes, reply), maxTokens, oneHour);
      CountedHoldSize(rate, bytes, maxTokens, oneHour, reply);
      assert NoDearer(rate, rate, oneHour);
    }
  }

  lemma FallsShort(n: real, m: nat, billsOneHour: bool, covered: real, maxTokens: nat, oneHour: bool)
    returns (rate: Rate, u: Usage)
    requires n >= 0.0 && covered >= 0.0
    requires n > covered || m > maxTokens || (billsOneHour && n > 0.0 && !oneHour)
    ensures Asserted(rate) && Within(u, n, m, billsOneHour)
    ensures CostOf(rate, u) > HoldBound(rate, covered, maxTokens, oneHour)
  {
    var none := Num(0.0);
    if n > covered {
      var k := BigRate(n - covered);
      rate, u := Rate(k, 0, 0, 0, 0), Usage(Num(n), none, none, none, none);
      OnlyInput(rate, u, covered, maxTokens, oneHour);
      Exceeds(covered, n, k);
    } else if m > maxTokens {
      rate, u := Rate(0, 1000000, 0, 0, 0), Usage(none, Num(m as real), none, none, none);
      ZeroBills(rate);
      assert Bill(m as real, 1000000) / PER == m as real && Bill(maxTokens as real, 1000000) / PER == maxTokens as real;
    } else {
      var k := BigRate(n);
      rate, u := Rate(0, 0, 0, 0, k), Usage(none, none, Num(n), none, Num(n));
      NoBill(covered);
      NoBill(maxTokens as real);
      Exceeds(0.0, n, k);
    }
  }

  lemma OnlyInput(rate: Rate, u: Usage, covered: real, maxTokens: nat, oneHour: bool)
    requires rate == Rate(rate.input, 0, 0, 0, 0) && u == Usage(u.input, Num(0.0), u.write, u.read, u.write1h)
    requires u.write == Num(0.0) && u.read == Num(0.0) && u.input.Num? && u.input.value >= 0.0
    ensures CostOf(rate, u) == (Bill(u.input.value, rate.input) / PER).Floor
    ensures HoldBound(rate, covered, maxTokens, oneHour) == (Bill(covered, rate.input) / PER).Floor
  {
    NoBill(maxTokens as real);
    NoBill(0.0);
  }

  /** Bills of token counts a whole micro-dollar apart are told apart by the floor. */
  lemma Exceeds(low: real, high: real, k: nat)
    requires low <= high && Bill(high - low, k) >= PER
    ensures (Bill(low, k) / PER).Floor < (Bill(high, k) / PER).Floor
  {
    assert Bill(high, k) == Bill(low, k) + Bill(high - low, k);
    FloorMonotone(Bill(low, k) + PER, Bill(high, k));
    assert (Bill(low, k) + PER) / PER == Bill(low, k) / PER + 1.0;
  }

  lemma NoBill(tokens: real)
    ensures Bill(tokens, 0) == 0.0
  {
  }

  /** A rate that bills at least one micro-dollar for the given tokens. */
  ghost function BigRate(tokens: real): (k: nat)
    requires tokens > 0.0
    ensures Bill(tokens, k) >= PER
  {
    var k := Ceiling(PER / tokens);
    assert PER / tokens <= k as real;
    assert tokens * (PER / tokens) == PER;
    assert tokens * (k as real - PER / tokens) >= 0.0;
    k
  }

  /** Three dollars in, fifteen out, per million tokens, and the usual cache tiers. */
  const SAMPLE := Rate(3000000, 15000000, 300000, 3750000, 6000000)

  /** A dearer model of the same family. */
  const DEARER := Rate(5000000, 25000000, 500000, 6250000, 10000000)

  /** A body of one byte and an output cap of zero: more input than bytes, more output than the cap, a one-hour write
      nobody asked for, or one plain token answered by a dearer model each cost more than the hold, and the clamp then
      charges the hold. */
  lemma ReportsAboveHold()
    ensures var none, one, two := Num(0.0), Num(1.0), Num(2.0);
            var hold := CountTokensHold(SAMPLE, 1, 0, false, None).micros;
            var input, output, oneHour := Usage(two, none, none, none, none), Usage(none, one, none, none, none),
                                          Usage(none, none, one, none, one);
            && hold == 3
            && CostOf(SAMPLE, input) == 6 && CostOf(SAMPLE, output) == 15 && CostOf(SAMPLE, oneHour) == 6
            && CostOf(DEARER, Usage(one, none, none, none, none)) == 5
            && StreamRace.Clamp(5, hold) == 3 && StreamRace.Clamp(6, hold) == 3 && StreamRace.Clamp(15, hold) == 3
  {
    ZeroBills(DEARER);
    assert Bill(1.0, DEARER.input) / PER == 5.0;
    ZeroBills(SAMPLE);
    assert Bill(1.0, SAMPLE.write) / PER == 3.75 && Bill(2.0, SAMPLE.input) / PER == 6.0;
    assert Bill(1.0, SAMPLE.output) / PER == 15.0 && Bill(1.0, SAMPLE.write1h) / PER == 6.0;
  }

  // ---- The floor of an accepted request ----

  /** A byte bound is a reservation, not usage: a quarter of it is billed. */
  function BillableInput(hold: Hold): real {
    if hold.counted then hold.inputTokens else Ceiling(hold.inputTokens / 4.0) as real
  }

  function InputFloor(rate: Rate, hold: Hold): int {
    CostOf(rate, Usage(Num(BillableInput(hold)), Num(0.0), Num(0.0), Num(0.0), Undefined))
  }

  /** The floor charged for an accepted request is within the hold at every rate exactly when the count, if there is
      one, does not exceed the bytes of the body; a larger count is charged only up to the hold. */
  lemma FloorWithinHoldIff(bytes: nat, maxTokens: nat, oneHour: bool, reply: Option<Js>)
    ensures (forall rate: Rate :: var hold := CountTokensHold(rate, bytes, maxTokens, oneHour, reply);
                                  InputFloor(rate, hold) <= hold.micros)
            <==> (Counted(reply).Some? ==> Counted(reply).value <= bytes as real)
  {
    if Counted(reply).None? || Counted(reply).value <= bytes as real {
      forall rate: Rate
        ensures var hold := CountTokensHold(rate, bytes, maxTokens, oneHour, reply);
                InputFloor(rate, hold) <= hold.micros
      {
        FloorWithinHold(rate, bytes, maxTokens, oneHour, reply);
      }
    } else {
      FloorAboveHold(bytes, maxTokens, oneHour, reply);
    }
  }

  lemma FloorWithinHold(rate: Rate, bytes: nat, maxTokens: nat, oneHour: bool, reply: Option<Js>)
    requires Counted(reply).Some? ==> Counted(reply).value <= bytes as real
    ensures var hold := CountTokensHold(rate, bytes, maxTokens, oneHour, reply);
            InputFloor(rate, hold) <= hold.micros
  {
    var hold := CountTokensHold(rate, bytes, maxTokens, oneHour, reply);
    var u := Usage(Num(BillableInput(hold)), Num(0.0), Num(0.0), Num(0.0), Undefined);
    assert BillableInput(hold) <= Covered(bytes, reply) by {
      if Counted(reply).None? {
        QuarterWithin(bytes);
      } else {
        var count := Counted(reply).value;
        assert count <= count * 1.1 <= Ceiling(count * 1.1) as real;
      }
    }
    CountedHoldSize(rate, bytes, maxTokens, oneHour, reply);
    HoldCovers(rate, u, Covered(bytes, reply), maxTokens, oneHour);
  }

  lemma QuarterWithin(bytes: nat)
    ensures 0 <= Ceiling(bytes as real / 4.0) <= bytes
  {
    var x := -(bytes as real / 4.0);
    assert -(bytes as real) <= x;
  }

  lemma FloorAboveHold(bytes: nat, maxTokens: nat, oneHour: bool, reply: Option<Js>)
    requires Counted(reply).Some? && Counted(reply).value > bytes as real
    ensures exists rate: Rate :: var hold := CountTokensHold(rate, bytes, maxTokens, oneHour, reply);
                                 InputFloor(rate, hold) > hold.micros
  {
    hide Bill;
    var count, cap := Counted(reply).value, bytes as real;
    var rate := Rate(BigRate(count - cap), 0, 0, 0, 0);
    var hold := CountTokensHold(rate, bytes, maxTokens, oneHour, reply);
    OnlyInput(rate, Usage(Num(count), Num(0.0), Num(0.0), Num(0.0), Undefined), cap, maxTokens, oneHour);
    Exceeds(cap, count, rate.input);
    assert InputFloor(rate, hold) > hold.micros;
  }

  /** Three counted tokens for a body of two bytes: a floor of nine micro-dollars on a hold of seven. */
  lemma CountAboveBytes()
    ensures var hold := CountTokensHold(SAMPLE, 2, 0, false, Some(Obj(map["input_tokens" := Num(3.0)])));
            && InputFloor(SAMPLE, hold) == 9 && hold.micros == 7
            && StreamRace.Clamp(InputFloor(SAMPLE, hold), hold.micros) == 7
  {
    var reply := Some(Obj(map["input_tokens" := Num(3.0)]));
    assert Counted(reply) == Some(3.0);
    CountedHoldSize(SAMPLE, 2, 0, false, reply);
    assert Ceiling(3.0 * 1.1) == 4;
    assert Covered(2, reply) == 2.0;
    ZeroBills(SAMPLE);
    assert Bill(2.0, SAMPLE.write) / PER == 7.5 && Bill(3.0, SAMPLE.input) / PER == 9.0;
  }

  // ---- Buffered and streamed reports ----

  /** The usage of a buffered Anthropic body: passed through, with the nested one-hour slice lifted. */
  function ExtractedUsage(u: Js): Usage {
    Usage(Get(u, "input_tokens"), Get(u, "output_tokens"), Get(u, "cache_creation_input_tokens"),
          Get(u, "cache_read_input_tokens"), Or(Get(Get(u, "cache_creation"), "ephemeral_1h_input_tokens"), Num(0.0)))
  }

  /** One usage object costs the same whether it arrives in a buffered body or in the first event of a stream. */
  lemma BufferedAgreesWithStreamed(rate: Rate, u: Js)
    ensures CostOf(rate, ExtractedUsage(u)) == CostOf(rate, Scanners.StartUsage(u))
  {
    hide Bill;
    var e, s := ExtractedUsage(u), Scanners.StartUsage(u);
    assert SanitizeCount(e.input) == SanitizeCount(s.input) && SanitizeCount(e.output) == SanitizeCount(s.output);
    assert SanitizeCount(e.write) == SanitizeCount(s.write) && SanitizeCount(e.read) == SanitizeCount(s.read);
  }

  // ---- What a settlement sees of a scanner ----

  /** The metered usage priced at the rate of the model that answered. */
  function Priced(rates: string -> Rate, m: Option<Scanners.Metered>): Option<StreamRace.Metered> {
    match m
    case None => None
    case Some(metered) =>
      Some(StreamRace.Metered(CostOf(rates(metered.model), metered.usage),
                              if metered.evidence.Reported? then StreamRace.Reported else StreamRace.Estimated))
  }

  function OpenAIScan(rates: string -> Rate, ctx: Scanners.Context, s: Scanners.OpenAI): StreamRace.Scan {
    StreamRace.Scan(s.failed, Priced(rates, Scanners.ResultOf(ctx, s, false)),
                    Priced(rates, Scanners.ResultOf(ctx, s, true)))
  }

  function AnthropicScan(rates: string -> Rate, s: Scanners.Anthropic): StreamRace.Scan {
    StreamRace.Scan(s.errored, Priced(rates, Scanners.AnthropicResult(s)), Priced(rates, Scanners.AnthropicResult(s)))
  }

  /** The settlement asks the scanner for its error flag and for its result in the two modes. */
  method Observe(scanner: Scanners.OpenAIScanner, rates: string -> Rate) returns (scan: StreamRace.Scan)
    ensures scan == OpenAIScan(rates, scanner.ctx, scanner.Abs().s)
  {
    var errored := scanner.HasErrored();
    var full := scanner.Result(false);
    var evidenced := scanner.Result(true);
    scan := StreamRace.Scan(errored, Priced(rates, full), Priced(rates, evidenced));
  }

  /** However a stream was cut into packets: for every terminal cause and every hold, the decision and the charge are
      those of the complete lines of the whole stream. */
  lemma ChargeIgnoresPackets(shape: Scanners.Shape, parse: Scanners.Parser, ctx: Scanners.Context, chunks: seq<string>,
                             rates: string -> Rate, cause: StreamRace.Cause, inputFloor: int, hold: nat)
    ensures var fed := Sse.FeedAll(Scanners.AbsorbOpenAI(shape, parse), Sse.Fed("", Scanners.FRESH), chunks).s;
            var whole := Sse.Fold(Scanners.AbsorbOpenAI(shape, parse), Scanners.FRESH, Sse.Lines(Sse.Concat(chunks)));
            var d := StreamRace.Decide(cause, OpenAIScan(rates, ctx, fed), inputFloor);
            var e := StreamRace.Decide(cause, OpenAIScan(rates, ctx, whole), inputFloor);
            d == e && StreamRace.Clamp(d.Cost(), hold) == StreamRace.Clamp(e.Cost(), hold)
  {
    hide StreamRace.Decide, CostOf, Scanners.ResultOf;
    Scanners.OpenAIChunking(shape, parse, ctx, chunks, false);
    Scanners.OpenAIChunking(shape, parse, ctx, chunks, true);
  }

  lemma AnthropicChargeIgnoresPackets(parse: Scanners.Parser, chunks: seq<string>, rates: string -> Rate,
                                      cause: StreamRace.Cause, inputFloor: int, hold: nat)
    ensures var empty := Scanners.Anthropic(None, None, false);
            var fed := Sse.FeedAll(Scanners.AbsorbAnthropic(parse), Sse.Fed("", empty), chunks).s;
            var whole := Sse.Fold(Scanners.AbsorbAnthropic(parse), empty, Sse.Lines(Sse.Concat(chunks)));
            var d := StreamRace.Decide(cause, AnthropicScan(rates, fed), inputFloor);
            var e := StreamRace.Decide(cause, AnthropicScan(rates, whole), inputFloor);
            d == e && StreamRace.Clamp(d.Cost(), hold) == StreamRace.Clamp(e.Cost(), hold)
  {
    hide StreamRace.Decide, CostOf, Scanners.AnthropicResult;
    Scanners.AnthropicChunking(parse, chunks);
  }
}
