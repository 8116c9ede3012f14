/** What the usage scanners make of the frames the providers document: every count reaches its own class, all visible
    text is counted, errors are noticed, and the answer is the last thing told (core/src/cost/usage/openai.ts,
    core/src/cost/usage/anthropic.ts). */
module ScannerLaws {
  import opened Wrappers
  import opened JsValues
  import opened Sse
  import opened Scanners

  // ---- A data line ----

  /** Text that trimming leaves alone, and that is no end marker. */
  predicate Clean(p: string) {
    p != "" && !Space(p[0]) && !Space(p[|p| - 1]) && p != "[DONE]"
  }

  lemma TrimKeeps(p: string)
    requires p != "" ==> !Space(p[0]) && !Space(p[|p| - 1])
    ensures Trim(p) == p && TrimEnd(p) == p && TrimStart(p) == p
  {
  }

  lemma {:induction false} TrimEndSpace(p: string, tail: string)
    requires forall i :: 0 <= i < |tail| ==> Space(tail[i])
    ensures TrimEnd(p + tail) == TrimEnd(p)
    decreases |tail|
  {
    if tail == "" {
      assert p + tail == p;
    } else {
      var n := |tail| - 1;
      assert (p + tail)[..|p + tail| - 1] == p + tail[..n];
      TrimEndSpace(p, tail[..n]);
    }
  }

  lemma {:induction false} TrimStartSpace(head: string, p: string)
    requires forall i :: 0 <= i < |head| ==> Space(head[i])
    ensures TrimStart(head + p) == TrimStart(p)
    decreases |head|
  {
    if head == "" {
      assert head + p == p;
    } else {
      assert (head + p)[1..] == head[1..] + p;
      TrimStartSpace(head[1..], p);
    }
  }

  /** A data line carries its payload, whatever white space surrounds it. */
  lemma PayloadRoundTrip(head: string, p: string, tail: string)
    requires Clean(p)
    requires forall i :: 0 <= i < |head| ==> Space(head[i])
    requires forall i :: 0 <= i < |tail| ==> Space(tail[i])
    ensures Payload("data:" + head + p + tail) == Some(p)
    ensures Payload("data:" + head + "[DONE]" + tail) == None && Payload("data:" + head) == None
  {
    DataLine(head, p, tail);
    DataLine(head, "[DONE]", tail);
    EmptyLine(head);
  }

  lemma DataLine(head: string, p: string, tail: string)
    requires p != "" && !Space(p[0]) && !Space(p[|p| - 1])
    requires forall i :: 0 <= i < |head| ==> Space(head[i])
    requires forall i :: 0 <= i < |tail| ==> Space(tail[i])
    ensures Payload("data:" + head + p + tail) == if p == "[DONE]" then None else Some(p)
  {
    var line := "data:" + head + p;
    assert line[|line| - 1] == p[|p| - 1];
    TrimEndSpace(line, tail);
    assert TrimEnd(line + tail) == line;
    assert line[5..] == head + p;
    assert (head + p)[|head + p| - 1] == p[|p| - 1];
    assert TrimEnd(head + p) == head + p;
    TrimStartSpace(head, p);
    TrimKeeps(p);
    hide Space;
  }

  lemma EmptyLine(head: string)
    requires forall i :: 0 <= i < |head| ==> Space(head[i])
    ensures Payload("data:" + head) == None
  {
    TrimEndSpace("data:", head);
    assert TrimEnd("data:") == "data:";
    assert "data:"[5..] == "";
  }

  /** A line of another field carries nothing. */
  lemma OtherField(line: string)
    requires !("data:" <= line)
    ensures Payload(line) == None
  {
    TrimEndPrefix(line);
  }

  lemma {:induction false} TrimEndPrefix(line: string)
    ensures TrimEnd(line) <= line
    decreases |line|
  {
    if line != "" && Space(line[|line| - 1]) {
      TrimEndPrefix(line[..|line| - 1]);
    }
  }

  /** So a frame is what the parser makes of the payload of a data line; every other line carries none. */
  lemma FrameIs(parse: Parser, head: string, p: string, tail: string, other: string)
    requires Clean(p) && !("data:" <= other)
    requires forall i :: 0 <= i < |head| ==> Space(head[i])
    requires forall i :: 0 <= i < |tail| ==> Space(tail[i])
    ensures Frame(parse, "data:" + head + p + tail) == parse(p)
    ensures Frame(parse, "data:" + head + "[DONE]" + tail) == None && Frame(parse, "data:" + head) == None
    ensures Frame(parse, other) == None
  {
    PayloadRoundTrip(head, p, tail);
    OtherField(other);
    hide Payload, Clean;
  }

  // ---- The usage objects the providers document ----

  function ChatReport(total: real, cached: real, written: real, output: real): Js {
    Obj(map["prompt_tokens" := Num(total),
            "completion_tokens" := Num(output),
            "prompt_tokens_details" := Obj(map["cached_tokens" := Num(cached), "cache_write_tokens" := Num(written)])])
  }

  function ResponsesReport(total: real, cached: real, written: real, output: real): Js {
    Obj(map["input_tokens" := Num(total),
            "output_tokens" := Num(output),
            "input_tokens_details" := Obj(map["cached_tokens" := Num(cached), "cache_write_tokens" := Num(written)])])
  }

  /** Every count of an OpenAI report reaches its own class, in both shapes. */
  lemma OpenAIReportsRead(total: real, cached: real, written: real, output: real)
    requires cached >= 0.0 && written >= 0.0 && output >= 0.0 && cached + written <= total
    ensures var u := Usage(Num(total - cached - written), Num(output), Num(written), Num(cached), Undefined);
            ChatUsage(ChatReport(total, cached, written, output)) == u
            && ResponsesUsage(ResponsesReport(total, cached, written, output)) == u
  {
    SlicesPartition(total, cached, written, output);
    assert |"prompt_tokens"| == 13 && |"completion_tokens"| == 17 && |"prompt_tokens_details"| == 21;
    assert |"input_tokens"| == 12 && |"output_tokens"| == 13 && |"input_tokens_details"| == 20;
    assert |"cached_tokens"| == 13 && |"cache_write_tokens"| == 18;
  }

  function AnthropicReport(input: real, output: real, write: real, read: real, hour: real): Js {
    Obj(map["input_tokens" := Num(input),
            "output_tokens" := Num(output),
            "cache_creation_input_tokens" := Num(write),
            "cache_read_input_tokens" := Num(read),
            "cache_creation" := Obj(map["ephemeral_1h_input_tokens" := Num(hour)])])
  }

  /** The same for an Anthropic report, at the start of a stream and restated in a delta. */
  lemma AnthropicReportRead(input: real, output: real, write: real, read: real, hour: real, before: Usage)
    ensures var report := AnthropicReport(input, output, write, read, hour);
            var u := Usage(Num(input), Num(output), Num(write), Num(read), Num(hour));
            StartUsage(report) == u && DeltaUsage(before, report) == u
  {
    assert |"input_tokens"| == 12 && |"output_tokens"| == 13 && |"cache_creation_input_tokens"| == 27;
    assert |"cache_read_input_tokens"| == 23 && |"cache_creation"| == 14;
  }

  // ---- The frames of a stream ----

  /** A chunk of text in the chat shape, with the reasoning some hosts send beside it. */
  function ChatText(content: string, reasoning: string): Js {
    var delta := Obj(map["content" := Str(content), "reasoning" := Str(reasoning)]);
    Obj(map["choices" := Arr([Obj(map["delta" := delta])])])
  }

  /** The last chunk: no text, but the model and the usage. */
  function ChatFinal(model: string, usage: Js): Js {
    Obj(map["model" := Str(model), "choices" := Arr([]), "usage" := usage])
  }

  lemma ChatFrames(content: string, reasoning: string, model: string, usage: Js, message: Js)
    requires Truthy(usage) && Truthy(message)
    ensures ChatEffect(ChatText(content, reasoning)) == Effect(None, None, |content| + |reasoning|, false)
    ensures ChatEffect(ChatFinal(model, usage)) == Effect(Some(model), Some(ChatUsage(usage)), 0, false)
    ensures ChatEffect(Obj(map["error" := message])).failed
  {
    hide ChatUsage;
    ChatTextFrame(content, reasoning);
    assert |"model"| == 5 && |"choices"| == 7 && |"usage"| == 5 && |"error"| == 5 && |"type"| == 4;
    assert "model"[0] == 'm' && "usage"[0] == 'u' && "error"[0] == 'e';
  }

  lemma ChatTextFrame(content: string, reasoning: string)
    ensures ChatEffect(ChatText(content, reasoning)) == Effect(None, None, |content| + |reasoning|, false)
  {
    assert |"model"| == 5 && |"choices"| == 7 && |"usage"| == 5 && |"error"| == 5 && |"type"| == 4;
    assert |"content"| == 7 && |"reasoning"| == 9;
    var choice := Obj(map["delta" := Obj(map["content" := Str(content), "reasoning" := Str(reasoning)])]);
    assert ChoiceChars(choice) == |content| + |reasoning|;
    assert [choice][..0] == [];
    assert ChoicesChars([choice]) == |content| + |reasoning|;
  }

  function ResponsesText(delta: string): Js {
    Obj(map["type" := Str("response.output_text.delta"), "delta" := Str(delta)])
  }

  function ResponsesEnd(kind: string, model: string, usage: Js): Js {
    Obj(map["type" := Str(kind), "response" := Obj(map["model" := Str(model), "usage" := usage])])
  }

  lemma ResponsesFrames(delta: string, model: string, usage: Js)
    requires Truthy(usage)
    ensures ResponsesEffect(ResponsesText(delta)) == Effect(None, None, |delta|, false)
    ensures ResponsesEffect(ResponsesEnd("response.completed", model, usage))
         == Effect(Some(model), Some(ResponsesUsage(usage)), 0, false)
    ensures ResponsesEffect(ResponsesEnd("response.failed", model, usage))
         == Effect(Some(model), Some(ResponsesUsage(usage)), 0, true)
  {
    hide ResponsesUsage;
    assert |"type"| == 4 && |"delta"| == 5 && |"response"| == 8 && |"error"| == 5 && |"model"| == 5 && |"usage"| == 5;
    assert "delta"[0] == 'd' && "error"[0] == 'e' && "model"[0] == 'm' && "usage"[0] == 'u';
    assert |"response.output_text.delta"| == 26 && |"response.completed"| == 18 && |"response.failed"| == 15;
  }

  // ---- The answers ----

  /** An estimate: the request's own input, and a token of output for every four characters shown, or part of four. */
  predicate Estimates(u: Usage, inputTokens: nat, chars: nat) {
    && u.input == Num(inputTokens as real) && u.write == Num(0.0) && u.read == Num(0.0)
    && SanitizeCount(u.write1h) == 0.0
    && u.output.Num?
    && var tokens := u.output.value.Floor;
       u.output.value == tokens as real && 4 * tokens - 4 < chars <= 4 * tokens
  }

  /** What an OpenAI scanner answers after any lines. With a usage reported, the last one. Else an estimate: for a
      stream that failed or was drained, if text was shown; for any other, if any frame came and none was an error. */
  lemma ScannerAnswers(shape: Shape, parse: Parser, ctx: Context, lines: seq<string>, evidencedOnly: bool)
    ensures var es := Effects(shape, parse, lines);
            var r := ResultOf(ctx, Fold(AbsorbOpenAI(shape, parse), FRESH, lines), evidencedOnly);
            && (r.Some? <==>
                || LastUsage(es, None).Some?
                || (if evidencedOnly then Chars(es) > 0 else es != [] && forall e :: e in es ==> !e.failed))
            && (r.Some? ==> r.value.model == LastModel(es, None).GetOr(ctx.model))
            && (r.Some? && LastUsage(es, None).Some? ==>
                  r.value.usage == LastUsage(es, None).value && r.value.evidence.Reported?)
            && (r.Some? && LastUsage(es, None).None? ==>
                  Estimates(r.value.usage, ctx.inputTokens, Chars(es)) && r.value.evidence.Estimated?)
  {
    ScannerKnows(shape, parse, FRESH, lines);
    var es := Effects(shape, parse, lines);
    NoEffects(es);
    var s := Fold(AbsorbOpenAI(shape, parse), FRESH, lines);
    EstimateIs(ctx, s);
    hide Estimates, Estimate, Fold, Effects, LastUsage, LastModel, Chars;
  }

  lemma EstimateIs(ctx: Context, s: OpenAI)
    ensures var m := Estimate(ctx, s);
            && m.model == s.model.GetOr(ctx.model) && m.evidence.Estimated?
            && Estimates(m.usage, ctx.inputTokens, s.contentChars)
  {
    var tokens := CeilDiv4(s.contentChars);
    assert 4 * tokens - 4 < s.contentChars <= 4 * tokens;
  }

  // ---- The Anthropic shape: five running totals ----

  datatype Total = Input | Output | Write | Read | Hour

  function NamedIn(u: Js, total: Total): Js {
    match total
    case Input => Get(u, "input_tokens")
    case Output => Get(u, "output_tokens")
    case Write => Get(u, "cache_creation_input_tokens")
    case Read => Get(u, "cache_read_input_tokens")
    case Hour => Get(Get(u, "cache_creation"), "ephemeral_1h_input_tokens")
  }

  /** The events among the lines. */
  function Events(parse: Parser, lines: seq<string>): seq<Js> {
    if lines == [] then []
    else
      (match Frame(parse, lines[0])
       case None => []
       case Some(evt) => [evt])
      + Events(parse, lines[1..])
  }

  predicate Starts(evt: Js) {
    Get(evt, "type") == Str("message_start") && Truthy(Get(Get(evt, "message"), "usage"))
  }

  predicate Restates(evt: Js, total: Total) {
    Get(evt, "type") == Str("message_delta") && Truthy(Get(evt, "usage")) && Number(NamedIn(Get(evt, "usage"), total))
  }

  /** One total after the events: a start sets it, to zero if it names none, and later a delta that names it does. */
  function LastTotal(evts: seq<Js>, total: Total, known: Option<Js>): Option<Js> {
    if evts == [] then known
    else
      LastTotal(evts[1..], total,
                if Starts(evts[0]) then Some(Or(NamedIn(Get(Get(evts[0], "message"), "usage"), total), Num(0.0)))
                else if known.Some? && Restates(evts[0], total) then Some(NamedIn(Get(evts[0], "usage"), total))
                else known)
  }

  function LastStarted(evts: seq<Js>, known: Option<string>): Option<string> {
    if evts == [] then known
    else
      var named := Get(Get(evts[0], "message"), "model");
      LastStarted(evts[1..], if Starts(evts[0]) && named.Str? then Some(named.text) else known)
  }

  function Known(s: Anthropic, total: Total): Option<Js> {
    match s.usage
    case None => None
    case Some(u) =>
      Some(match total
           case Input => u.input
           case Output => u.output
           case Write => u.write
           case Read => u.read
           case Hour => u.write1h)
  }

  /** What an Anthropic scanner knows after any lines: each total is the last one told of it, the model that of the last
      start that named one, and an error is one for ever. */
  lemma {:induction false} AnthropicKnows(parse: Parser, s: Anthropic, lines: seq<string>)
    ensures var t, evts := Fold(AbsorbAnthropic(parse), s, lines), Events(parse, lines);
            && (forall total :: Known(t, total) == LastTotal(evts, total, Known(s, total)))
            && t.model == LastStarted(evts, s.model)
            && (t.errored <==> s.errored || exists e :: e in evts && Get(e, "type") == Str("error"))
    decreases |lines|
  {
    hide Frame;
    if lines != [] {
      var m := AbsorbAnthropic(parse)(s, lines[0]);
      AnthropicKnows(parse, m, lines[1..]);
      var evts, rest := Events(parse, lines), Events(parse, lines[1..]);
      match Frame(parse, lines[0]) {
        case None => assert evts == rest;
        case Some(evt) =>
          assert evts == [evt] + rest && evts[1..] == rest && evts[0] == evt;
          NoteTold(s, evt);
      }
    }
  }

  lemma NoteTold(s: Anthropic, evt: Js)
    ensures var t := NoteAnthropic(s, evt);
            && (forall total :: Known(t, total) ==
                  if Starts(evt) then Some(Or(NamedIn(Get(Get(evt, "message"), "usage"), total), Num(0.0)))
                  else if Known(s, total).Some? && Restates(evt, total) then Some(NamedIn(Get(evt, "usage"), total))
                  else Known(s, total))
            && t.model == (if Starts(evt) && Get(Get(evt, "message"), "model").Str?
                           then Some(Get(Get(evt, "message"), "model").text) else s.model)
            && (t.errored <==> s.errored || Get(evt, "type") == Str("error"))
  {
    hide Get, Truthy;
    assert |"message_start"| == 13 && "message_start"[8] == 's' && "message_delta"[8] == 'd';
  }

  /** And so it answers, with the last totals, exactly if a start reported usage and some start named a model. */
  lemma AnthropicAnswers(parse: Parser, lines: seq<string>)
    ensures var r, evts := AnthropicResult(Fold(AbsorbAnthropic(parse), Anthropic(None, None, false), lines)),
                           Events(parse, lines);
            && (r.Some? <==> LastStarted(evts, None).GetOr("") != "" && LastTotal(evts, Input, None).Some?)
            && (r.Some? ==>
                  && r.value.model == LastStarted(evts, None).GetOr("") && r.value.evidence.Reported?
                  && Some(r.value.usage.input) == LastTotal(evts, Input, None)
                  && Some(r.value.usage.output) == LastTotal(evts, Output, None)
                  && Some(r.value.usage.write) == LastTotal(evts, Write, None)
                  && Some(r.value.usage.read) == LastTotal(evts, Read, None)
                  && Some(r.value.usage.write1h) == LastTotal(evts, Hour, None))
  {
    var s := Fold(AbsorbAnthropic(parse), Anthropic(None, None, false), lines);
    AnthropicKnows(parse, Anthropic(None, None, false), lines);
    NothingKnown();
    hide Fold, LastTotal, LastStarted, Events, AnthropicResult, Known;
    KnownTotals(s);
    AnswerIs(s);
    assert s.model == LastStarted(Events(parse, lines), None);
    assert forall total :: Known(s, total) == LastTotal(Events(parse, lines), total, None);
  }

  lemma NothingKnown()
    ensures forall total :: Known(Anthropic(None, None, false), total) == None
  {
  }

  lemma KnownTotals(s: Anthropic)
    ensures s.usage.None? ==> forall total :: Known(s, total) == None
    ensures s.usage.Some? ==>
              && Known(s, Input) == Some(s.usage.value.input) && Known(s, Output) == Some(s.usage.value.output)
              && Known(s, Write) == Some(s.usage.value.write) && Known(s, Read) == Some(s.usage.value.read)
              && Known(s, Hour) == Some(s.usage.value.write1h)
  {
  }

  lemma AnswerIs(s: Anthropic)
    ensures AnthropicResult(s)
         == if s.model.GetOr("") != "" && s.usage.Some? then Some(Metered(s.model.GetOr(""), s.usage.value, Reported))
            else None
  {
  }
}
