/** What the figures of core/src/cost/pricing.ts and core/src/hold.ts come to, on the rate's own fields and the
    reported counts: the price of every class of tokens, the parts of a report, the hold and the input floor. */
module Billing {
  import opened Wrappers
  import opened JsValues
  import opened Pricing
  import Sse
  import Scanners
  import ScannerLaws
  import StreamRace

  /** A count a provider may report: a finite number that is not negative. Anything else bills nothing. */
  predicate Sane(v: Js) {
    v.Num? && v.value >= 0.0
  }

  function CountOf(v: Js): real {
    if Sane(v) then v.value else 0.0
  }

  /** A report as it is billed, class by class; the one-hour slice is part of the writes and never exceeds them. */
  function Plain(input: real, output: real, write5m: real, write1h: real, read: real): Usage {
    Usage(Num(input), Num(output), Num(write5m + write1h), Num(read), Num(write1h))
  }

  // ---- The price of a report ----

  /** The exact price in millionths of a micro-dollar: each class at its own field of the rate. */
  function Exact(rate: Rate, u: Usage): real {
    var hour := Scanners.MinReal(CountOf(u.write1h), CountOf(u.write));
    CountOf(u.input) * rate.input as real + CountOf(u.output) * rate.output as real
    + (CountOf(u.write) - hour) * rate.write as real + hour * rate.write1h as real
    + CountOf(u.read) * rate.read as real
  }

  lemma SaneCounts(v: Js)
    ensures CountOf(v) == SanitizeCount(v)
  {
  }

  lemma ExactIs(rate: Rate, u: Usage)
    ensures Numerator(rate, u) == Exact(rate, u)
  {
    SaneCounts(u.input);
    SaneCounts(u.output);
    SaneCounts(u.write);
    SaneCounts(u.write1h);
    SaneCounts(u.read);
    hide SanitizeCount, CountOf;
  }

  lemma WholeMicros(x: real, cost: int)
    ensures cost == (x / 1000000.0).Floor <==> cost as real * 1000000.0 <= x < (cost + 1) as real * 1000000.0
  {
  }

  /** The cost is the exact price rounded down to whole micro-dollars, and no other amount is. */
  lemma CostIff(rate: Rate, u: Usage, cost: int)
    ensures cost == CostOf(rate, u)
            <==> cost as real * 1000000.0 <= Exact(rate, u) < (cost + 1) as real * 1000000.0
  {
    ExactIs(rate, u);
    WholeMicros(Exact(rate, u), cost);
    hide Numerator, Exact;
  }

  /** A report of one class alone, in millions of tokens, costs that class's own field for each million. */
  lemma ClassPrices(rate: Rate, millions: nat)
    ensures var n, none := millions as real * 1000000.0, 0.0;
            && CostOf(rate, Plain(n, none, none, none, none)) == millions * rate.input
            && CostOf(rate, Plain(none, n, none, none, none)) == millions * rate.output
            && CostOf(rate, Plain(none, none, n, none, none)) == millions * rate.write
            && CostOf(rate, Plain(none, none, none, n, none)) == millions * rate.write1h
            && CostOf(rate, Plain(none, none, none, none, n)) == millions * rate.read
  {
    OneClass(millions, rate.input);
    OneClass(millions, rate.output);
    OneClass(millions, rate.write);
    OneClass(millions, rate.write1h);
    OneClass(millions, rate.read);
    NothingCosts(rate);
    hide Bill;
  }

  lemma OneClass(millions: nat, price: nat)
    ensures (Bill(millions as real * 1000000.0, price) / PER).Floor == millions * price
  {
    assert Bill(millions as real * 1000000.0, price) / PER == millions as real * price as real;
    assert millions as real * price as real == (millions * price) as real;
  }

  lemma NothingCosts(rate: Rate)
    ensures forall price: nat :: Bill(0.0, price) == 0.0
  {
  }

  /** What is no count bills nothing: a missing, mistyped, negative or infinite field is one of zero. */
  lemma InsaneIsFree(rate: Rate, u: Usage, v: Js)
    requires !Sane(v)
    ensures CostOf(rate, u.(input := v)) == CostOf(rate, u.(input := Num(0.0)))
    ensures CostOf(rate, u.(output := v)) == CostOf(rate, u.(output := Num(0.0)))
    ensures CostOf(rate, u.(write := v)) == CostOf(rate, u.(write := Num(0.0)))
    ensures CostOf(rate, u.(read := v)) == CostOf(rate, u.(read := Num(0.0)))
    ensures CostOf(rate, u.(write1h := v)) == CostOf(rate, u.(write1h := Num(0.0)))
  {
    hide Bill;
  }

  /** A report cut into two costs what its parts cost together, or one micro-dollar more: only the rounding is lost. */
  lemma CostAddsUp(rate: Rate, i: real, o: real, f: real, h: real, r: real,
                   i': real, o': real, f': real, h': real, r': real)
    requires i >= 0.0 && o >= 0.0 && f >= 0.0 && h >= 0.0 && r >= 0.0
    requires i' >= 0.0 && o' >= 0.0 && f' >= 0.0 && h' >= 0.0 && r' >= 0.0
    ensures var parts := CostOf(rate, Plain(i, o, f, h, r)) + CostOf(rate, Plain(i', o', f', h', r'));
            parts <= CostOf(rate, Plain(i + i', o + o', f + f', h + h', r + r')) <= parts + 1
  {
    PlainNumerator(rate, i, o, f, h, r);
    PlainNumerator(rate, i', o', f', h', r');
    PlainNumerator(rate, i + i', o + o', f + f', h + h', r + r');
    BillAdds(i, i', rate.input);
    BillAdds(o, o', rate.output);
    BillAdds(f, f', rate.write);
    BillAdds(h, h', rate.write1h);
    BillAdds(r, r', rate.read);
    hide Bill, Numerator;
    FloorsAdd(Numerator(rate, Plain(i, o, f, h, r)), Numerator(rate, Plain(i', o', f', h', r')));
  }

  lemma PlainNumerator(rate: Rate, i: real, o: real, f: real, h: real, r: real)
    requires i >= 0.0 && o >= 0.0 && f >= 0.0 && h >= 0.0 && r >= 0.0
    ensures Numerator(rate, Plain(i, o, f, h, r))
         == Bill(i, rate.input) + Bill(o, rate.output) + Bill(f, rate.write) + Bill(h, rate.write1h)
            + Bill(r, rate.read)
  {
    hide Bill;
  }

  lemma BillAdds(a: real, b: real, price: nat)
    ensures Bill(a + b, price) == Bill(a, price) + Bill(b, price)
  {
  }

  lemma FloorsAdd(x: real, y: real)
    ensures (x / PER).Floor + (y / PER).Floor <= ((x + y) / PER).Floor <= (x / PER).Floor + (y / PER).Floor + 1
  {
    assert (x + y) / PER == x / PER + y / PER;
  }

  // ---- The hold ----

  /** A usable count is the number under input_tokens of an object, and at least one. */
  lemma CountedIff(reply: Option<Js>, count: real)
    ensures Counted(reply) == Some(count)
            <==> reply.Some? && reply.value.Obj? && "input_tokens" in reply.value.fields
                 && reply.value.fields["input_tokens"] == Num(count) && count >= 1.0
  {
  }

  /** The least whole number of tokens that is no less than x. */
  predicate RoundedUp(x: real, tokens: int) {
    (tokens - 1) as real < x <= tokens as real
  }

  lemma CeilingIs(x: real, tokens: int)
    ensures RoundedUp(x, tokens) <==> tokens == Ceiling(x)
  {
  }

  /** The tokens a hold is sized for: the bytes of the body; or, with a usable count, that count, a tenth more, rounded
      up, and 64 on top, if this is less than the bytes. */
  lemma CoveredIs(bytes: nat, reply: Option<Js>, tenthMore: int)
    requires Counted(reply).Some? ==> RoundedUp(Counted(reply).value * 1.1, tenthMore)
    ensures Covered(bytes, reply)
         == if Counted(reply).Some? && tenthMore + 64 < bytes then (tenthMore + 64) as real else bytes as real
  {
    if Counted(reply).Some? {
      CeilingIs(Counted(reply).value * 1.1, tenthMore);
    }
    hide Counted, Ceiling, RoundedUp;
  }

  /** A class of input the request may be billed in, none of which is dearer. */
  predicate DearestInput(rate: Rate, oneHour: bool, dearest: nat) {
    && (dearest in {rate.input, rate.read, rate.write} || (oneHour && dearest == rate.write1h))
    && rate.input <= dearest && rate.read <= dearest && rate.write <= dearest && (oneHour ==> rate.write1h <= dearest)
  }

  /** The hold is the exact price of those tokens in the dearest class they may be billed in, and of the whole output
      cap, rounded down. */
  lemma HoldIff(rate: Rate, bytes: nat, maxTokens: nat, oneHour: bool, reply: Option<Js>, dearest: nat, micros: int)
    requires DearestInput(rate, oneHour, dearest)
    ensures micros == CountTokensHold(rate, bytes, maxTokens, oneHour, reply).micros
            <==> var exact := Covered(bytes, reply) * dearest as real + maxTokens as real * rate.output as real;
                 micros as real * 1000000.0 <= exact < (micros + 1) as real * 1000000.0
  {
    hide *;
    CountedHoldSize(rate, bytes, maxTokens, oneHour, reply);
    BoundIs(rate, Covered(bytes, reply), maxTokens, oneHour, dearest, micros);
  }

  lemma BoundIs(rate: Rate, tokens: real, maxTokens: nat, oneHour: bool, dearest: nat, micros: int)
    requires DearestInput(rate, oneHour, dearest)
    ensures micros == HoldBound(rate, tokens, maxTokens, oneHour)
            <==> var exact := tokens * dearest as real + maxTokens as real * rate.output as real;
                 micros as real * 1000000.0 <= exact < (micros + 1) as real * 1000000.0
  {
    assert MaxInputRate(rate, oneHour) == dearest;
    BillIs(tokens, dearest);
    BillIs(maxTokens as real, rate.output);
    hide Bill, DearestInput, MaxInputRate;
    WholeMicros(Bill(tokens, dearest) + Bill(maxTokens as real, rate.output), micros);
  }

  lemma BillIs(tokens: real, price: nat)
    ensures Bill(tokens, price) == tokens * price as real
  {
  }

  // ---- The input floor ----

  /** What an accepted request is billed for at least: the count if there is one, and else a quarter of its bytes,
      rounded up. */
  predicate Billable(bytes: nat, reply: Option<Js>, tokens: real) {
    match Counted(reply)
    case Some(count) => tokens == count
    case None => tokens == tokens.Floor as real && RoundedUp(bytes as real / 4.0, tokens.Floor)
  }

  /** The input floor is the exact price of that at the plain input rate, rounded down. */
  lemma FloorIff(rate: Rate, bytes: nat, maxTokens: nat, oneHour: bool, reply: Option<Js>, tokens: real, micros: int)
    requires Billable(bytes, reply, tokens)
    ensures micros == InputFloor(rate, CountTokensHold(rate, bytes, maxTokens, oneHour, reply))
            <==> micros as real * 1000000.0 <= tokens * rate.input as real < (micros + 1) as real * 1000000.0
  {
    hide *;
    BillableIs(rate, bytes, maxTokens, oneHour, reply, tokens);
    var u := Usage(Num(tokens), Num(0.0), Num(0.0), Num(0.0), Undefined);
    CostIff(rate, u, micros);
    OnlyPlainInput(rate, u);
    FloorIs(rate, CountTokensHold(rate, bytes, maxTokens, oneHour, reply));
  }

  lemma FloorIs(rate: Rate, hold: Hold)
    ensures InputFloor(rate, hold)
         == CostOf(rate, Usage(Num(BillableInput(hold)), Num(0.0), Num(0.0), Num(0.0), Undefined))
  {
  }

  lemma BillableIs(rate: Rate, bytes: nat, maxTokens: nat, oneHour: bool, reply: Option<Js>, tokens: real)
    requires Billable(bytes, reply, tokens)
    ensures BillableInput(CountTokensHold(rate, bytes, maxTokens, oneHour, reply)) == tokens && tokens >= 0.0
  {
    hide HoldBound, Padded;
    if Counted(reply).None? {
      CeilingIs(bytes as real / 4.0, tokens.Floor);
    }
  }

  lemma OnlyPlainInput(rate: Rate, u: Usage)
    requires u.input.Num? && u.input.value >= 0.0
    requires u == Usage(u.input, Num(0.0), Num(0.0), Num(0.0), Undefined)
    ensures Exact(rate, u) == u.input.value * rate.input as real
  {
  }

  // ---- What a stream's settlement is given ----

  /** The metered result, priced at the rate of its model, with its evidence. */
  predicate PricedAt(rates: string -> Rate, m: StreamRace.Metered, model: string, u: Usage, reported: bool) {
    m.cost == CostOf(rates(model), u) && (m.evidence.Reported? <==> reported)
  }

  /** For an OpenAI stream, from its frames: the error flag is that of its frames; both results are the last usage
      reported, priced at the rate of the last model named, if any was; else the one on evidence is an estimate if text
      was shown, and the full one if any frame came and none failed. */
  lemma OpenAIScanTold(shape: Scanners.Shape, parse: Scanners.Parser, ctx: Scanners.Context, lines: seq<string>,
                       rates: string -> Rate)
    ensures var es := Scanners.Effects(shape, parse, lines);
            var scan := OpenAIScan(rates, ctx, Sse.Fold(Scanners.AbsorbOpenAI(shape, parse), Scanners.FRESH, lines));
            var model, usage := Scanners.LastModel(es, None).GetOr(ctx.model), Scanners.LastUsage(es, None);
            && (scan.errored <==> exists e :: e in es && e.failed)
            && (scan.full.Some? <==> usage.Some? || (es != [] && !scan.errored))
            && (scan.evidenced.Some? <==> usage.Some? || Scanners.Chars(es) > 0)
            && (usage.Some? ==>
                  && PricedAt(rates, scan.full.value, model, usage.value, true)
                  && PricedAt(rates, scan.evidenced.value, model, usage.value, true))
            && (usage.None? ==>
                  forall m :: m in {scan.full, scan.evidenced} && m.Some? ==>
                    exists u :: PricedAt(rates, m.value, model, u, false)
                                && ScannerLaws.Estimates(u, ctx.inputTokens, Scanners.Chars(es)))
  {
    var s := Sse.Fold(Scanners.AbsorbOpenAI(shape, parse), Scanners.FRESH, lines);
    Scanners.ScannerKnows(shape, parse, Scanners.FRESH, lines);
    ScannerLaws.ScannerAnswers(shape, parse, ctx, lines, false);
    ScannerLaws.ScannerAnswers(shape, parse, ctx, lines, true);
    PricedTold(rates, Scanners.ResultOf(ctx, s, false));
    PricedTold(rates, Scanners.ResultOf(ctx, s, true));
    hide Sse.Fold, Scanners.Effects, Scanners.LastModel, Scanners.LastUsage, Scanners.Chars, Scanners.ResultOf;
    hide ScannerLaws.Estimates, PricedAt, Priced;
  }

  lemma PricedTold(rates: string -> Rate, m: Option<Scanners.Metered>)
    ensures Priced(rates, m).Some? <==> m.Some?
    ensures m.Some? ==>
              PricedAt(rates, Priced(rates, m).value, m.value.model, m.value.usage, m.value.evidence.Reported?)
  {
  }

  /** For an Anthropic stream: one result in both modes, the last totals at the rate of the model it started with. */
  lemma AnthropicScanTold(parse: Scanners.Parser, lines: seq<string>, rates: string -> Rate)
    ensures var s := Sse.Fold(Scanners.AbsorbAnthropic(parse), Scanners.Anthropic(None, None, false), lines);
            var scan, r, evts := AnthropicScan(rates, s), Scanners.AnthropicResult(s), ScannerLaws.Events(parse, lines);
            && (scan.errored <==> exists e :: e in evts && Get(e, "type") == Str("error"))
            && scan.full == scan.evidenced && (scan.full.Some? <==> r.Some?)
            && (r.Some? ==> PricedAt(rates, scan.full.value, r.value.model, r.value.usage, true))
  {
    var s := Sse.Fold(Scanners.AbsorbAnthropic(parse), Scanners.Anthropic(None, None, false), lines);
    ScannerLaws.AnthropicKnows(parse, Scanners.Anthropic(None, None, false), lines);
    PricedTold(rates, Scanners.AnthropicResult(s));
    hide Sse.Fold, ScannerLaws.Events, PricedAt, Priced;
  }
}
