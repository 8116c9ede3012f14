/** The three usage scanners (core/src/cost/usage/openai.ts, core/src/cost/usage/anthropic.ts). JSON parsing is any
    function from a payload to an optional value. */
module Scanners {
  import opened Wrappers
  import opened JsValues
  import opened Sse

  type Parser = string -> Option<Js>

  datatype Evidence = Reported | Estimated
  datatype Metered = Metered(model: string, usage: Usage, evidence: Evidence)

  /** The parsed frame of a line, if it carries one. */
  function Frame(parse: Parser, line: string): Option<Js> {
    match Payload(line)
    case None => None
    case Some(payload) => parse(payload)
  }

  function MinReal(a: real, b: real): real {
    if a < b then a else b
  }

  /** An inclusive input total split into its plain, cached and written slices, each clamped to what remains. */
  function SplitInput(total: real, cached: real, written: real, output: real): Usage {
    var read := MinReal(cached, total);
    var write := MinReal(written, total - read);
    Usage(Num(total - read - write), Num(output), Num(write), Num(read), Undefined)
  }

  function ChatUsage(u: Js): Usage {
    var d := Get(u, "prompt_tokens_details");
    SplitInput(SanitizeCount(Get(u, "prompt_tokens")), SanitizeCount(Get(d, "cached_tokens")),
               SanitizeCount(Get(d, "cache_write_tokens")), SanitizeCount(Get(u, "completion_tokens")))
  }

  function ResponsesUsage(u: Js): Usage {
    var d := Get(u, "input_tokens_details");
    SplitInput(SanitizeCount(Get(u, "input_tokens")), SanitizeCount(Get(d, "cached_tokens")),
               SanitizeCount(Get(d, "cache_write_tokens")), SanitizeCount(Get(u, "output_tokens")))
  }

  /** The slices of a report never exceed its total, and none is negative: nothing is billed twice. What is named is
      read first, then written, as far as the total goes; the rest is plain input. */
  lemma SlicesPartition(total: real, cached: real, written: real, output: real)
    requires total >= 0.0 && cached >= 0.0 && written >= 0.0 && output >= 0.0
    ensures var u := SplitInput(total, cached, written, output);
            && u.input.Num? && u.read.Num? && u.write.Num?
            && u.input.value >= 0.0 && u.read.value >= 0.0 && u.write.value >= 0.0
            && u.input.value + u.read.value + u.write.value == total
            && u.read.value <= cached && u.write.value <= written
            && (u.read.value == cached || u.read.value == total)
            && (u.write.value == written || u.input.value == 0.0)
            && (cached + written <= total ==> u.read.value == cached && u.write.value == written)
            && u.output == Num(output) && SanitizeCount(u.write1h) == 0.0
  {
  }

  // ---- The two OpenAI shapes ----

  /** What one frame tells: a model, a final usage, visible text, a failure. */
  datatype Effect = Effect(model: Option<string>, usage: Option<Usage>, chars: nat, failed: bool)

  /** The variables of an OpenAI scanner, apart from its buffer. */
  datatype OpenAI = OpenAI(
    model: Option<string>,
    finalUsage: Option<Usage>,
    contentChars: nat,
    sawAny: bool,
    failed: bool
  )

  const FRESH := OpenAI(None, None, 0, false, false)

  function TextLength(v: Js): nat {
    if v.Str? then |v.text| else 0
  }

  function ModelOf(v: Js): Option<string> {
    if v.Str? then Some(v.text) else None
  }

  function ChoiceChars(choice: Js): nat {
    var d := Get(choice, "delta");
    TextLength(Get(d, "content")) + TextLength(Or(Get(d, "reasoning"), Get(d, "reasoning_content")))
  }

  function ChoicesChars(choices: seq<Js>): nat {
    if choices == [] then 0 else ChoicesChars(choices[..|choices| - 1]) + ChoiceChars(choices[|choices| - 1])
  }

  function ChatEffect(evt: Js): Effect {
    var choices, usage := Get(evt, "choices"), Get(evt, "usage");
    Effect(ModelOf(Get(evt, "model")),
           if Truthy(usage) then Some(ChatUsage(usage)) else None,
           if choices.Arr? then ChoicesChars(choices.items) else 0,
           Truthy(Get(evt, "error")) || Get(evt, "type") == Str("error"))
  }

  function ResponsesEffect(evt: Js): Effect {
    var response, kind := Get(evt, "response"), Get(evt, "type");
    Effect(ModelOf(Get(response, "model")),
           if Truthy(Get(response, "usage")) then Some(ResponsesUsage(Get(response, "usage"))) else None,
           if kind == Str("response.output_text.delta") then TextLength(Get(evt, "delta")) else 0,
           kind == Str("response.failed") || kind == Str("error") || Truthy(Get(evt, "error")))
  }

  datatype Shape = Chat | Responses

  function EffectOf(shape: Shape, evt: Js): Effect {
    match shape
    case Chat => ChatEffect(evt)
    case Responses => ResponsesEffect(evt)
  }

  function Note(s: OpenAI, e: Effect): OpenAI {
    OpenAI(if e.model.Some? then e.model else s.model,
           if e.usage.Some? then e.usage else s.finalUsage,
           s.contentChars + e.chars, true, s.failed || e.failed)
  }

  function AbsorbOpenAI(shape: Shape, parse: Parser): (OpenAI, string) -> OpenAI {
    (s: OpenAI, line: string) =>
      match Frame(parse, line)
      case None => s
      case Some(evt) => Note(s, EffectOf(shape, evt))
  }

  /** The effects of the frames of a list of lines. */
  function Effects(shape: Shape, parse: Parser, lines: seq<string>): seq<Effect> {
    if lines == [] then []
    else
      (match Frame(parse, lines[0])
       case None => []
       case Some(evt) => [EffectOf(shape, evt)])
      + Effects(shape, parse, lines[1..])
  }

  function LastUsage(es: seq<Effect>, default: Option<Usage>): Option<Usage> {
    if es == [] then default else LastUsage(es[1..], if es[0].usage.Some? then es[0].usage else default)
  }

  function LastModel(es: seq<Effect>, default: Option<string>): Option<string> {
    if es == [] then default else LastModel(es[1..], if es[0].model.Some? then es[0].model else default)
  }

  function Chars(es: seq<Effect>): nat {
    if es == [] then 0 else es[0].chars + Chars(es[1..])
  }

  /** What an OpenAI scanner knows after any lines: the last usage and model reported, all the visible text, whether
      any frame was seen and whether any frame was an error. */
  lemma {:induction false} ScannerKnows(shape: Shape, parse: Parser, s: OpenAI, lines: seq<string>)
    ensures var es := Effects(shape, parse, lines);
            Fold(AbsorbOpenAI(shape, parse), s, lines) ==
            OpenAI(LastModel(es, s.model), LastUsage(es, s.finalUsage), s.contentChars + Chars(es),
                   s.sawAny || es != [], s.failed || exists e :: e in es && e.failed)
    decreases |lines|
  {
    hide Frame, EffectOf;
    if lines != [] {
      var t := AbsorbOpenAI(shape, parse)(s, lines[0]);
      ScannerKnows(shape, parse, t, lines[1..]);
      var es, rest := Effects(shape, parse, lines), Effects(shape, parse, lines[1..]);
      match Frame(parse, lines[0]) {
        case None => assert es == rest;
        case Some(evt) =>
          assert es == [EffectOf(shape, evt)] + rest && es[1..] == rest;
      }
    }
  }

  /** The context a scanner is made with: the request's model and its billable input estimate. */
  datatype Context = Context(model: string, inputTokens: nat)

  function CeilDiv4(n: nat): nat {
    (n + 3) / 4
  }

  function Estimate(ctx: Context, s: OpenAI): Metered {
    Metered(s.model.GetOr(ctx.model),
            Usage(Num(ctx.inputTokens as real), Num(CeilDiv4(s.contentChars) as real), Num(0.0), Num(0.0), Undefined),
            Estimated)
  }

  function ResultOf(ctx: Context, s: OpenAI, evidencedOnly: bool): Option<Metered> {
    if s.finalUsage.Some? then Some(Metered(s.model.GetOr(ctx.model), s.finalUsage.value, Reported))
    else if !s.sawAny then None
    else if evidencedOnly then (if s.contentChars == 0 then None else Some(Estimate(ctx, s)))
    else if s.failed then None
    else Some(Estimate(ctx, s))
  }

  class OpenAIScanner {
    const shape: Shape
    const ctx: Context
    const parse: Parser
    var buf: string
    var model: Option<string>
    var finalUsage: Option<Usage>
    var contentChars: nat
    var sawAny: bool
    var failed: bool

    ghost function Abs(): Fed<OpenAI>
      reads this
    {
      Fed(buf, OpenAI(model, finalUsage, contentChars, sawAny, failed))
    }

    constructor (shape: Shape, ctx: Context, parse: Parser)
      ensures this.shape == shape && this.ctx == ctx && this.parse == parse && Abs() == Fed("", FRESH)
    {
      this.shape, this.ctx, this.parse := shape, ctx, parse;
      buf, model, finalUsage, contentChars, sawAny, failed := "", None, None, 0, false, false;
    }

    /** Feed a decoded chunk; a partial trailing line stays buffered. */
    method Feed(chunk: string)
      modifies this
      ensures Abs() == Sse.Feed(AbsorbOpenAI(shape, parse), old(Abs()), chunk)
    {
      hide AbsorbOpenAI, Fold, Lines, Remainder, LineEnd;
      ghost var absorb, text := AbsorbOpenAI(shape, parse), buf + chunk;
      buf := buf + chunk;
      var nl := LineEnd(buf);
      while nl < |buf|
        invariant nl == LineEnd(buf)
        invariant Fold(absorb, Abs().s, Lines(buf)) == Fold(absorb, old(Abs()).s, Lines(text))
        invariant Remainder(buf) == Remainder(text)
        decreases |buf|
      {
        var line := buf[..nl];
        FoldFirstLine(absorb, Abs().s, buf);
        buf := buf[nl + 1..];
        Absorb(line);
        nl := LineEnd(buf);
      }
      NoLineLeft(buf);
      FoldNothing(absorb, Abs().s);
    }

    /** One complete line. A line without a payload, and one whose payload does not parse, are skipped. */
    method Absorb(line: string)
      modifies this`model, this`finalUsage, this`contentChars, this`sawAny, this`failed
      ensures Abs().s == AbsorbOpenAI(shape, parse)(old(Abs()).s, line)
    {
      var payload := Payload(line);
      if payload.None? {
        return;
      }
      var parsed := parse(payload.value);
      if parsed.None? {
        return;
      }
      sawAny := true;
      match shape {
        case Chat => AbsorbChat(parsed.value);
        case Responses => AbsorbResponses(parsed.value);
      }
    }

    method AbsorbChat(evt: Js)
      requires sawAny
      modifies this`model, this`finalUsage, this`contentChars, this`failed
      ensures Abs().s == Note(old(Abs()).s, ChatEffect(evt))
    {
      hide ChatUsage;
      if Truthy(Get(evt, "error")) || Get(evt, "type") == Str("error") {
        failed := true;
      }
      if Get(evt, "model").Str? {
        model := Some(Get(evt, "model").text);
      }
      if Truthy(Get(evt, "usage")) {
        finalUsage := Some(ChatUsage(Get(evt, "usage")));
      }
      if Get(evt, "choices").Arr? {
        CountText(Get(evt, "choices").items);
      }
    }

    method CountText(choices: seq<Js>)
      modifies this`contentChars
      ensures contentChars == old(contentChars) + ChoicesChars(choices)
    {
      var i := 0;
      while i < |choices|
        invariant 0 <= i <= |choices|
        invariant contentChars == old(contentChars) + ChoicesChars(choices[..i])
      {
        var d := Get(choices[i], "delta");
        var c := Get(d, "content");
        if c.Str? {
          contentChars := contentChars + |c.text|;
        }
        var r := Or(Get(d, "reasoning"), Get(d, "reasoning_content"));
        if r.Str? {
          contentChars := contentChars + |r.text|;
        }
        assert choices[..i + 1][..i] == choices[..i];
        i := i + 1;
      }
      assert choices[..i] == choices;
    }

    method AbsorbResponses(evt: Js)
      requires sawAny
      modifies this`model, this`finalUsage, this`contentChars, this`failed
      ensures Abs().s == Note(old(Abs()).s, ResponsesEffect(evt))
    {
      hide ResponsesUsage;
      var kind, response := Get(evt, "type"), Get(evt, "response");
      if kind == Str("response.failed") || kind == Str("error") || Truthy(Get(evt, "error")) {
        failed := true;
      }
      if Get(response, "model").Str? {
        model := Some(Get(response, "model").text);
      }
      if Truthy(Get(response, "usage")) {
        finalUsage := Some(ResponsesUsage(Get(response, "usage")));
      }
      if kind == Str("response.output_text.delta") && Get(evt, "delta").Str? {
        contentChars := contentChars + |Get(evt, "delta").text|;
      }
    }

    method Result(evidencedOnly: bool) returns (r: Option<Metered>)
      ensures r == ResultOf(ctx, Abs().s, evidencedOnly)
    {
      if finalUsage.Some? {
        return Some(Metered(model.GetOr(ctx.model), finalUsage.value, Reported));
      }
      if !sawAny || (evidencedOnly && contentChars == 0) || (!evidencedOnly && failed) {
        return None;
      }
      var tokens := CeilDiv4(contentChars);
      r := Some(Metered(model.GetOr(ctx.model),
                        Usage(Num(ctx.inputTokens as real), Num(tokens as real), Num(0.0), Num(0.0), Undefined),
                        Estimated));
    }

    method HasErrored() returns (r: bool)
      ensures r == Abs().s.failed
    {
      r := failed;
    }
  }

  /** However the stream is split into packets, the result in either mode and the error flag are functions of the
      complete lines of the whole stream. */
  lemma OpenAIChunking(shape: Shape, parse: Parser, ctx: Context, chunks: seq<string>, evidencedOnly: bool)
    ensures var whole := Fold(AbsorbOpenAI(shape, parse), FRESH, Lines(Concat(chunks)));
            var fed := FeedAll(AbsorbOpenAI(shape, parse), Fed("", FRESH), chunks).s;
            && ResultOf(ctx, fed, evidencedOnly) == ResultOf(ctx, whole, evidencedOnly)
            && fed.failed == whole.failed
  {
    StreamIsFold(AbsorbOpenAI(shape, parse), FRESH, chunks);
  }

  /** With evidence alone a scanner answers only for a usage some frame reported, or for text some frame showed; and
      then it answers for both modes unless the stream failed. */
  lemma EvidenceOnly(shape: Shape, parse: Parser, ctx: Context, lines: seq<string>)
    ensures var es := Effects(shape, parse, lines);
            var s := Fold(AbsorbOpenAI(shape, parse), FRESH, lines);
            && (ResultOf(ctx, s, true).Some? <==> LastUsage(es, None).Some? || Chars(es) > 0)
            && (ResultOf(ctx, s, true).Some? && !s.failed ==> ResultOf(ctx, s, false) == ResultOf(ctx, s, true))
            && (LastUsage(es, None).Some? ==>
                  ResultOf(ctx, s, true).value.usage == LastUsage(es, None).value
                  && ResultOf(ctx, s, true).value.evidence == Reported)
  {
    ScannerKnows(shape, parse, FRESH, lines);
    NoEffects(Effects(shape, parse, lines));
  }

  lemma NoEffects(es: seq<Effect>)
    ensures es == [] ==> LastUsage(es, None).None? && Chars(es) == 0
  {
  }

  // ---- The Anthropic shape ----

  datatype Anthropic = Anthropic(model: Option<string>, usage: Option<Usage>, errored: bool)

  function StartUsage(u: Js): Usage {
    Usage(Or(Get(u, "input_tokens"), Num(0.0)), Or(Get(u, "output_tokens"), Num(0.0)),
          Or(Get(u, "cache_creation_input_tokens"), Num(0.0)), Or(Get(u, "cache_read_input_tokens"), Num(0.0)),
          Or(Get(Get(u, "cache_creation"), "ephemeral_1h_input_tokens"), Num(0.0)))
  }

  predicate Number(v: Js) {
    v.Num? || v.Infinite?
  }

  function Restated(v: Js, old_: Js): Js {
    if Number(v) then v else old_
  }

  /** A delta restates the running totals it names. */
  function DeltaUsage(s: Usage, u: Js): Usage {
    Usage(Restated(Get(u, "input_tokens"), s.input), Restated(Get(u, "output_tokens"), s.output),
          Restated(Get(u, "cache_creation_input_tokens"), s.write), Restated(Get(u, "cache_read_input_tokens"), s.read),
          Restated(Get(Get(u, "cache_creation"), "ephemeral_1h_input_tokens"), s.write1h))
  }

  function NoteAnthropic(s: Anthropic, evt: Js): Anthropic {
    var kind, started, delta := Get(evt, "type"), Get(Get(evt, "message"), "usage"), Get(evt, "usage");
    var errored := s.errored || kind == Str("error");
    if kind == Str("message_start") && Truthy(started) then
      var model := ModelOf(Get(Get(evt, "message"), "model"));
      Anthropic(if model.Some? then model else s.model, Some(StartUsage(started)), errored)
    else if kind == Str("message_delta") && Truthy(delta) && s.usage.Some? then
      Anthropic(s.model, Some(DeltaUsage(s.usage.value, delta)), errored)
    else s.(errored := errored)
  }

  function AbsorbAnthropic(parse: Parser): (Anthropic, string) -> Anthropic {
    (s: Anthropic, line: string) =>
      match Frame(parse, line)
      case None => s
      case Some(evt) => NoteAnthropic(s, evt)
  }

  function AnthropicResult(s: Anthropic): Option<Metered> {
    if s.model.Some? && s.model.value != "" && s.usage.Some? then Some(Metered(s.model.value, s.usage.value, Reported))
    else None
  }

  class AnthropicScanner {
    const parse: Parser
    var buf: string
    var model: Option<string>
    var usage: Option<Usage>
    var errored: bool

    ghost function Abs(): Fed<Anthropic>
      reads this
    {
      Fed(buf, Anthropic(model, usage, errored))
    }

    constructor (parse: Parser)
      ensures this.parse == parse && Abs() == Fed("", Anthropic(None, None, false))
    {
      this.parse := parse;
      buf, model, usage, errored := "", None, None, false;
    }

    method Feed(chunk: string)
      modifies this
      ensures Abs() == Sse.Feed(AbsorbAnthropic(parse), old(Abs()), chunk)
    {
      hide AbsorbAnthropic, Fold, Lines, Remainder, LineEnd;
      ghost var absorb, text := AbsorbAnthropic(parse), buf + chunk;
      buf := buf + chunk;
      var nl := LineEnd(buf);
      while nl < |buf|
        invariant nl == LineEnd(buf)
        invariant Fold(absorb, Abs().s, Lines(buf)) == Fold(absorb, old(Abs()).s, Lines(text))
        invariant Remainder(buf) == Remainder(text)
        decreases |buf|
      {
        var line := buf[..nl];
        FoldFirstLine(absorb, Abs().s, buf);
        buf := buf[nl + 1..];
        Absorb(line);
        nl := LineEnd(buf);
      }
      NoLineLeft(buf);
      FoldNothing(absorb, Abs().s);
    }

    method Absorb(line: string)
      modifies this`model, this`usage, this`errored
      ensures Abs().s == AbsorbAnthropic(parse)(old(Abs()).s, line)
    {
      hide StartUsage, DeltaUsage;
      var payload := Payload(line);
      if payload.None? {
        return;
      }
      var parsed := parse(payload.value);
      if parsed.None? {
        return;
      }
      var evt := parsed.value;
      if Get(evt, "type") == Str("error") {
        errored := true;
      }
      var started, delta := Get(Get(evt, "message"), "usage"), Get(evt, "usage");
      if Get(evt, "type") == Str("message_start") && Truthy(started) {
        var named := Get(Get(evt, "message"), "model");
        if named.Str? {
          model := Some(named.text);
        }
        usage := Some(StartUsage(started));
      } else if Get(evt, "type") == Str("message_delta") && Truthy(delta) && usage.Some? {
        usage := Some(DeltaUsage(usage.value, delta));
      }
    }

    method Result() returns (r: Option<Metered>)
      ensures r == AnthropicResult(Abs().s)
    {
      r := None;
      if model.Some? && model.value != "" && usage.Some? {
        r := Some(Metered(model.value, usage.value, Reported));
      }
    }
  }

  lemma AnthropicChunking(parse: Parser, chunks: seq<string>)
    ensures var empty := Anthropic(None, None, false);
            var whole := Fold(AbsorbAnthropic(parse), empty, Lines(Concat(chunks)));
            var fed := FeedAll(AbsorbAnthropic(parse), Fed("", empty), chunks).s;
            AnthropicResult(fed) == AnthropicResult(whole) && fed.errored == whole.errored
  {
    StreamIsFold(AbsorbAnthropic(parse), Anthropic(None, None, false), chunks);
  }

  /** Once usage has been reported it is never lost again, an error stays an error, and so what a stream is billed for
      can only be restated, not withdrawn. */
  lemma {:induction false} AnthropicKeeps(parse: Parser, s: Anthropic, lines: seq<string>)
    ensures var t := Fold(AbsorbAnthropic(parse), s, lines);
            && (s.usage.Some? ==> t.usage.Some?)
            && (s.model.Some? ==> t.model.Some?)
            && (s.errored ==> t.errored)
    decreases |lines|
  {
    if lines != [] {
      AnthropicKeeps(parse, AbsorbAnthropic(parse)(s, lines[0]), lines[1..]);
    }
  }
}
