/** AnthropicAdapter of app/multi_provider.py: chat requests into messages, message responses into
    completions. */
module Anthropic {
  import opened Common
  import opened Text

  /** json.dumps with compact separators, and json.loads. */
  datatype Codec = Codec(dumps: Json -> string, loads: string -> Option<Json>)

  datatype AdapterError = ReasoningControl | UnsupportedField | NotAnObject | UnsupportedRole | BadArguments | BadImage | UnsupportedPart

  /** A part of a content list. Parts of every type may carry a text; without one it is empty. */
  datatype Part = NotADict | TextPart(text: string) | ImagePart(url: string, text: string) | OtherPart(text: string)

  /** Content of a chat message: a string, a list of parts, None, or anything else by its str(). */
  datatype Content = Str(text: string) | Parts(parts: seq<Part>) | NoContent | Scalar(repr: string)

  datatype ToolCall = ToolCall(id: string, name: string, arguments: string)

  datatype Role = System | Developer | Tool | User | Assistant | OtherRole

  datatype Message =
    | Message(role: Role, content: Content, toolCalls: seq<ToolCall>, toolCallId: string)
    | Malformed

  datatype Block =
    | TextBlock(text: string)
    | Base64Image(mediaType: string, data: string)
    | UrlImage(url: string)
    | ToolUse(id: string, name: string, input: Json)
    | ToolResult(toolUseId: string, result: Content)
    | OtherBlock

  datatype Turn = UserTurn(blocks: seq<Block>) | AssistantTurn(blocks: seq<Block>)

  /** The translated part of a request body. */
  datatype Prepared = Prepared(system: seq<Block>, messages: seq<Turn>)

  datatype Request = Request(reasoningAuto: bool, unsupportedField: bool, messages: seq<Message>)

  // ---------------------------------------------------------------- content parts

  const DATA_URL := "data:"
  const BASE64 := ";base64,"
  const HTTP := "http://"
  const HTTPS := "https://"

  /** s[n:] in Python. */
  function From(s: string, n: nat): string {
    if |s| <= n then "" else s[n..]
  }

  function Image(url: string): Result<Block, AdapterError> {
    if StartsWith(url, DATA_URL) && Find(url, BASE64).Some? then
      var (header, data) := Cut(url, ',');
      Ok(Base64Image(Cut(From(header, 5), ';').0, data))
    else if StartsWith(url, HTTP) || StartsWith(url, HTTPS) then Ok(UrlImage(url))
    else Err(BadImage)
  }

  function PartBlocks(part: Part): Result<seq<Block>, AdapterError> {
    match part
    case NotADict => Ok([])
    case TextPart(text) => Ok([TextBlock(text)])
    case ImagePart(url, _) => (match Image(url) case Ok(image) => Ok([image]) case Err(e) => Err(e))
    case OtherPart(_) => Err(UnsupportedPart)
  }

  /** Appends one translation to another; the first error wins. */
  function Extend(blocks: Result<seq<Block>, AdapterError>, more: Result<seq<Block>, AdapterError>): Result<seq<Block>, AdapterError> {
    if blocks.Err? then blocks else if more.Err? then more else Ok(blocks.value + more.value)
  }

  function AllParts(parts: seq<Part>): Result<seq<Block>, AdapterError> {
    if parts == [] then Ok([]) else Extend(AllParts(parts[..|parts| - 1]), PartBlocks(parts[|parts| - 1]))
  }

  /** The text that str() makes of a missing content. */
  const NONE := "None"

  function ContentBlocks(content: Content): Result<seq<Block>, AdapterError> {
    match content
    case Str(text) => Ok([TextBlock(text)])
    case NoContent => Ok([TextBlock(NONE)])
    case Scalar(repr) => Ok([TextBlock(repr)])
    case Parts(parts) => AllParts(parts)
  }

  lemma {:induction false} FirstErrorWins(parts: seq<Part>, i: nat)
    requires i <= |parts| && AllParts(parts[..i]).Err?
    ensures AllParts(parts) == AllParts(parts[..i])
    decreases |parts|
  {
    if i == |parts| {
      assert parts[..i] == parts;
    } else {
      var init := parts[..|parts| - 1];
      assert init[..i] == parts[..i];
      FirstErrorWins(init, i);
    }
  }

  /** _anthropic_content */
  method TranslateContent(content: Content) returns (blocks: Result<seq<Block>, AdapterError>)
    ensures blocks == ContentBlocks(content)
  {
    match content
    case Str(text) =>
      return Ok([TextBlock(text)]);
    case NoContent =>
      return Ok([TextBlock(NONE)]);
    case Scalar(repr) =>
      return Ok([TextBlock(repr)]);
    case Parts(parts) =>
      var found: seq<Block> := [];
      for i := 0 to |parts|
        invariant AllParts(parts[..i]) == Ok(found)
      {
        assert parts[..i + 1][..i] == parts[..i];
        match parts[i] {
          case NotADict =>
            assert found + [] == found;
          case TextPart(text) =>
            found := found + [TextBlock(text)];
          case ImagePart(url, _) =>
            var image := Image(url);
            if image.Err? {
              FirstErrorWins(parts, i + 1);
              return Err(image.error);
            }
            found := found + [image.value];
          case OtherPart(_) =>
            FirstErrorWins(parts, i + 1);
            return Err(UnsupportedPart);
        }
      }
      assert parts[..|parts|] == parts;
      return Ok(found);
  }

  lemma DataUrlHeader(mediaType: string, data: string)
    ensures var url := DATA_URL + mediaType + BASE64 + data;
            && StartsWith(url, DATA_URL) && Find(url, BASE64).Some?
            && url == DATA_URL + mediaType + ";base64" + [','] + data
  {
    var url, at := DATA_URL + mediaType + BASE64 + data, 5 + |mediaType|;
    assert url[at..at + 8] == BASE64;
    assert OccursAt(url, BASE64, at);
  }

  lemma FromKeeps(s: string, c: char)
    requires c !in s
    ensures c !in From(s, 5)
  {
  }

  lemma {:induction false} CutKeeps(s: string, c: char, other: char)
    requires other !in s
    ensures other !in Cut(s, c).0
  {
    if s == "" {
    } else {
      CutKeeps(s[1..], c, other);
    }
  }

  lemma HeaderOf(mediaType: string, data: string)
    requires ',' !in mediaType && ';' !in mediaType
    ensures var (header, tail) := Cut(DATA_URL + mediaType + ";base64" + [','] + data, ',');
            tail == data && Cut(From(header, 5), ';').0 == mediaType
  {
    var header := DATA_URL + mediaType + ";base64";
    CutsAtFirst(header, ',', data);
    assert From(header, 5) == mediaType + [';'] + "base64";
    CutsAtFirst(mediaType, ';', "base64");
  }

  /** A base64 data URL is taken apart into the media type and the data it was made of exactly when
      the media type holds neither a comma nor a semicolon. */
  lemma DataUrlIsTakenApart(mediaType: string, data: string)
    ensures Image(DATA_URL + mediaType + BASE64 + data) == Ok(Base64Image(mediaType, data))
            <==> ',' !in mediaType && ';' !in mediaType
  {
    var url := DATA_URL + mediaType + BASE64 + data;
    DataUrlHeader(mediaType, data);
    if ',' !in mediaType && ';' !in mediaType {
      HeaderOf(mediaType, data);
    } else if Image(url) == Ok(Base64Image(mediaType, data)) {
      FromKeeps(Cut(url, ',').0, ',');
      CutKeeps(From(Cut(url, ',').0, 5), ';', ',');
    }
  }

  // ---------------------------------------------------------------- messages

  function CallBlock(codec: Codec, call: ToolCall): Result<seq<Block>, AdapterError> {
    match codec.loads(call.arguments)
    case None => Err(BadArguments)
    case Some(input) => Ok([ToolUse(call.id, call.name, input)])
  }

  function CallBlocks(codec: Codec, calls: seq<ToolCall>): Result<seq<Block>, AdapterError> {
    if calls == [] then Ok([]) else Extend(CallBlocks(codec, calls[..|calls| - 1]), CallBlock(codec, calls[|calls| - 1]))
  }

  /** What one message contributes. */
  function Translate(codec: Codec, message: Message): Result<Prepared, AdapterError> {
    if message.Malformed? then Err(NotAnObject)
    else match message.role
      case System | Developer =>
        (match ContentBlocks(message.content) case Err(e) => Err(e) case Ok(blocks) => Ok(Prepared(blocks, [])))
      case Tool =>
        Ok(Prepared([], [UserTurn([ToolResult(message.toolCallId, message.content)])]))
      case User =>
        (match ContentBlocks(message.content) case Err(e) => Err(e) case Ok(blocks) => Ok(Prepared([], [UserTurn(blocks)])))
      case Assistant =>
        (match Extend(ContentBlocks(message.content), CallBlocks(codec, message.toolCalls))
         case Err(e) => Err(e)
         case Ok(blocks) => Ok(Prepared([], [AssistantTurn(blocks)])))
      case OtherRole =>
        Err(UnsupportedRole)
  }

  function Both(before: Result<Prepared, AdapterError>, after: Result<Prepared, AdapterError>): Result<Prepared, AdapterError> {
    if before.Err? then before else if after.Err? then after
    else Ok(Prepared(before.value.system + after.value.system, before.value.messages + after.value.messages))
  }

  function TranslateAll(codec: Codec, messages: seq<Message>): Result<Prepared, AdapterError> {
    if messages == [] then Ok(Prepared([], []))
    else Both(TranslateAll(codec, messages[..|messages| - 1]), Translate(codec, messages[|messages| - 1]))
  }

  function Prepare(codec: Codec, request: Request): Result<Prepared, AdapterError> {
    if !request.reasoningAuto then Err(ReasoningControl)
    else if request.unsupportedField then Err(UnsupportedField)
    else TranslateAll(codec, request.messages)
  }

  lemma {:induction false} FirstBadCallWins(codec: Codec, calls: seq<ToolCall>, i: nat)
    requires i <= |calls| && CallBlocks(codec, calls[..i]).Err?
    ensures CallBlocks(codec, calls) == CallBlocks(codec, calls[..i])
    decreases |calls|
  {
    if i == |calls| {
      assert calls[..i] == calls;
    } else {
      var init := calls[..|calls| - 1];
      assert init[..i] == calls[..i];
      FirstBadCallWins(codec, init, i);
    }
  }

  /** The loop over the tool calls of an assistant message. */
  method TranslateCalls(codec: Codec, content: seq<Block>, calls: seq<ToolCall>) returns (blocks: Result<seq<Block>, AdapterError>)
    ensures blocks == Extend(Ok(content), CallBlocks(codec, calls))
  {
    var found := content;
    assert content + [] == content;
    for i := 0 to |calls|
      invariant CallBlocks(codec, calls[..i]).Ok? && found == content + CallBlocks(codec, calls[..i]).value
    {
      assert calls[..i + 1][..i] == calls[..i];
      var arguments := codec.loads(calls[i].arguments);
      if arguments.None? {
        FirstBadCallWins(codec, calls, i + 1);
        return Err(BadArguments);
      }
      found := found + [ToolUse(calls[i].id, calls[i].name, arguments.value)];
    }
    assert calls[..|calls|] == calls;
    return Ok(found);
  }

  lemma {:induction false} FirstBadMessageWins(codec: Codec, messages: seq<Message>, i: nat)
    requires i <= |messages| && TranslateAll(codec, messages[..i]).Err?
    ensures TranslateAll(codec, messages) == TranslateAll(codec, messages[..i])
    decreases |messages|
  {
    if i == |messages| {
      assert messages[..i] == messages;
    } else {
      var init := messages[..|messages| - 1];
      assert init[..i] == messages[..i];
      FirstBadMessageWins(codec, init, i);
    }
  }

  /** One round of the message loop. */
  method TranslateMessage(codec: Codec, message: Message) returns (translated: Result<Prepared, AdapterError>)
    ensures translated == Translate(codec, message)
  {
    if message.Malformed? {
      return Err(NotAnObject);
    }
    if message.role.Tool? {
      return Ok(Prepared([], [UserTurn([ToolResult(message.toolCallId, message.content)])]));
    }
    if message.role.OtherRole? {
      return Err(UnsupportedRole);
    }
    var content := TranslateContent(message.content);
    if content.Err? {
      return Err(content.error);
    }
    if message.role.System? || message.role.Developer? {
      return Ok(Prepared(content.value, []));
    }
    if message.role.User? {
      return Ok(Prepared([], [UserTurn(content.value)]));
    }
    var blocks := TranslateCalls(codec, content.value, message.toolCalls);
    if blocks.Err? {
      return Err(blocks.error);
    }
    return Ok(Prepared([], [AssistantTurn(blocks.value)]));
  }

  /** prepare_request */
  method PrepareRequest(codec: Codec, request: Request) returns (prepared: Result<Prepared, AdapterError>)
    ensures prepared == Prepare(codec, request)
  {
    if !request.reasoningAuto {
      return Err(ReasoningControl);
    }
    if request.unsupportedField {
      return Err(UnsupportedField);
    }
    var messages := request.messages;
    var system, turns := [], [];
    for i := 0 to |messages|
      invariant TranslateAll(codec, messages[..i]) == Ok(Prepared(system, turns))
    {
      assert messages[..i + 1][..i] == messages[..i];
      var translated := TranslateMessage(codec, messages[i]);
      if translated.Err? {
        FirstBadMessageWins(codec, messages, i + 1);
        return Err(translated.error);
      }
      system, turns := system + translated.value.system, turns + translated.value.messages;
    }
    assert messages[..|messages|] == messages;
    return Ok(Prepared(system, turns));
  }

  lemma BothAssociates(a: Result<Prepared, AdapterError>, b: Result<Prepared, AdapterError>, c: Result<Prepared, AdapterError>)
    ensures Both(Both(a, b), c) == Both(a, Both(b, c))
  {
    if a.Ok? && b.Ok? && c.Ok? {
      assert a.value.system + b.value.system + c.value.system == a.value.system + (b.value.system + c.value.system);
      assert a.value.messages + b.value.messages + c.value.messages == a.value.messages + (b.value.messages + c.value.messages);
    }
  }

  lemma BothEmpty(a: Result<Prepared, AdapterError>)
    ensures Both(a, Ok(Prepared([], []))) == a && Both(Ok(Prepared([], [])), a) == a
  {
    if a.Ok? {
      assert a.value.system + [] == a.value.system && a.value.messages + [] == a.value.messages;
      assert [] + a.value.system == a.value.system && [] + a.value.messages == a.value.messages;
    }
  }

  /** A conversation is translated piece by piece, in order. */
  lemma {:induction false} PrepareIsPiecewise(codec: Codec, a: seq<Message>, b: seq<Message>)
    ensures TranslateAll(codec, a + b) == Both(TranslateAll(codec, a), TranslateAll(codec, b))
    decreases |b|
  {
    if b == [] {
      assert a + b == a;
      BothEmpty(TranslateAll(codec, a));
    } else {
      var init, last := b[..|b| - 1], b[|b| - 1];
      assert (a + b)[..|a + b| - 1] == a + init;
      PrepareIsPiecewise(codec, a, init);
      BothAssociates(TranslateAll(codec, a), TranslateAll(codec, init), Translate(codec, last));
    }
  }

  // ---------------------------------------------------------------- responses

  datatype StopReason = EndTurn | MaxTokens | ToolUseStop | StopSequence | OtherStop(name: string)

  datatype Finish = Stop | Length | ToolCalls | OtherFinish(name: string)

  function FinishOf(reason: Option<StopReason>): Option<Finish> {
    match reason
    case None => None
    case Some(EndTurn) => Some(Stop)
    case Some(StopSequence) => Some(Stop)
    case Some(MaxTokens) => Some(Length)
    case Some(ToolUseStop) => Some(ToolCalls)
    case Some(OtherStop(name)) => Some(OtherFinish(name))
  }

  /** What an answer says about why the model stopped. */
  ghost predicate TellsWhyItStopped(stop: Option<StopReason>, finish: Option<Finish>) {
    && (finish == None <==> stop == None)
    && (finish == Some(Length) <==> stop == Some(MaxTokens))
    && (finish == Some(ToolCalls) <==> stop == Some(ToolUseStop))
    && (finish == Some(Stop) <==> stop == Some(EndTurn) || stop == Some(StopSequence))
    && (forall name :: finish == Some(OtherFinish(name)) <==> stop == Some(OtherStop(name)))
  }

  datatype Usage = Usage(prompt: Option<int>, completion: Option<int>, total: Option<int>)

  /** The counts of a message: what went in, what came out, and their sum when both are known. */
  ghost predicate CountsTokens(input: Option<int>, output: Option<int>, usage: Usage) {
    && usage.prompt == input && usage.completion == output
    && (usage.total.Some? <==> input.Some? && output.Some?)
    && (usage.total.Some? ==> usage.total.value == input.value + output.value)
  }

  datatype Response = Response(id: string, content: seq<Block>, stop: Option<StopReason>, input: Option<int>, output: Option<int>)

  datatype Completion = Completion(id: string, content: Option<string>, toolCalls: seq<ToolCall>, finish: Option<Finish>, usage: Usage)

  /** Python's `text or None` */
  function OrNone(text: string): Option<string> {
    if text == "" then None else Some(text)
  }

  function Total(prompt: Option<int>, completion: Option<int>): Option<int> {
    if prompt.Some? && completion.Some? then Some(prompt.value + completion.value) else None
  }

  function TextOf(blocks: seq<Block>): string {
    if blocks == [] then ""
    else
      var (init, last) := (TextOf(blocks[..|blocks| - 1]), blocks[|blocks| - 1]);
      if last.TextBlock? then init + last.text else init
  }

  function CallOf(codec: Codec, block: Block): ToolCall
    requires block.ToolUse?
  {
    ToolCall(block.id, block.name, codec.dumps(block.input))
  }

  function CallsOf(codec: Codec, blocks: seq<Block>): seq<ToolCall> {
    if blocks == [] then []
    else
      var (init, last) := (CallsOf(codec, blocks[..|blocks| - 1]), blocks[|blocks| - 1]);
      if last.ToolUse? then init + [CallOf(codec, last)] else init
  }

  function Normalize(codec: Codec, response: Response): Completion {
    Completion(response.id, OrNone(TextOf(response.content)), CallsOf(codec, response.content), FinishOf(response.stop),
               Usage(response.input, response.output, Total(response.input, response.output)))
  }

  /** normalize_response */
  method NormalizeResponse(codec: Codec, response: Response) returns (completion: Completion)
    ensures completion == Normalize(codec, response)
    ensures completion.id == response.id
    ensures TellsWhyItStopped(response.stop, completion.finish) && CountsTokens(response.input, response.output, completion.usage)
  {
    var textParts: seq<string>, toolCalls := [], [];
    var blocks := response.content;
    for i := 0 to |blocks|
      invariant Concat(textParts) == TextOf(blocks[..i]) && toolCalls == CallsOf(codec, blocks[..i])
    {
      assert blocks[..i + 1][..i] == blocks[..i];
      var block := blocks[i];
      if block.TextBlock? {
        ConcatPush(textParts, block.text);
        textParts := textParts + [block.text];
      } else if block.ToolUse? {
        toolCalls := toolCalls + [ToolCall(block.id, block.name, codec.dumps(block.input))];
      }
    }
    assert blocks[..|blocks|] == blocks;
    completion := Completion(response.id, OrNone(Concat(textParts)), toolCalls, FinishOf(response.stop),
                             Usage(response.input, response.output, Total(response.input, response.output)));
  }

  lemma OneBlockRead(codec: Codec, blocks: seq<Block>, last: Block)
    ensures TextOf(blocks + [last]) == TextOf(blocks) + if last.TextBlock? then last.text else ""
    ensures CallsOf(codec, blocks + [last]) ==
            CallsOf(codec, blocks) + if last.ToolUse? then [ToolCall(last.id, last.name, codec.dumps(last.input))] else []
  {
    assert (blocks + [last])[..|blocks|] == blocks;
  }

  /** A response is read block by block: texts are joined and calls listed in order, whatever else is
      between them. */
  lemma {:induction false} ReadingIsPiecewise(codec: Codec, a: seq<Block>, b: seq<Block>)
    ensures TextOf(a + b) == TextOf(a) + TextOf(b) && CallsOf(codec, a + b) == CallsOf(codec, a) + CallsOf(codec, b)
    decreases |b|
  {
    if b == [] {
      assert a + b == a;
    } else {
      var init, last := b[..|b| - 1], b[|b| - 1];
      assert (a + b)[..|a + b| - 1] == a + init;
      ReadingIsPiecewise(codec, a, init);
    }
  }

  lemma LoneBlockIsRead(codec: Codec, block: Block)
    ensures TextOf([block]) == if block.TextBlock? then block.text else ""
    ensures CallsOf(codec, [block]) == if block.ToolUse? then [ToolCall(block.id, block.name, codec.dumps(block.input))] else []
  {
    OneBlockRead(codec, [], block);
    assert [] + [block] == [block];
  }

  // ---------------------------------------------------------------- round trips

  /** The assistant message that a client sends back after a completion. */
  function Replayed(completion: Completion): Message {
    Message(Assistant, if completion.content.Some? then Str(completion.content.value) else NoContent, completion.toolCalls, "")
  }

  function ToolUses(blocks: seq<Block>): (tools: seq<Block>)
    ensures forall tool <- tools :: tool.ToolUse?
  {
    if blocks == [] then []
    else
      var (init, last) := (ToolUses(blocks[..|blocks| - 1]), blocks[|blocks| - 1]);
      if last.ToolUse? then init + [last] else init
  }

  /** Parsing inverts printing on the inputs of these tool calls. */
  ghost predicate PrintsBack(codec: Codec, blocks: seq<Block>) {
    forall block <- blocks :: block.ToolUse? ==> codec.loads(codec.dumps(block.input)) == Some(block.input)
  }

  lemma PrintsBackPush(codec: Codec, blocks: seq<Block>, last: Block)
    ensures PrintsBack(codec, blocks + [last]) <==>
            PrintsBack(codec, blocks) && (last.ToolUse? ==> codec.loads(codec.dumps(last.input)) == Some(last.input))
  {
    assert forall block <- blocks :: block in blocks + [last];
    assert last in blocks + [last];
  }

  lemma OnePush(init: seq<Block>, last: Block, other: seq<Block>, one: Block)
    ensures init + [last] == other + [one] <==> init == other && last == one
  {
    if init + [last] == other + [one] {
      assert (init + [last])[..|init|] == (other + [one])[..|other|];
      assert (init + [last])[|init|] == (other + [one])[|other|];
    }
  }

  /** Tool calls come back as the blocks they were made of exactly when printing their inputs loses
      nothing. */
  lemma {:induction false} CallsComeBack(codec: Codec, blocks: seq<Block>)
    ensures CallBlocks(codec, CallsOf(codec, blocks)) == Ok(ToolUses(blocks)) <==> PrintsBack(codec, blocks)
  {
    if blocks == [] {
    } else {
      var init, last := blocks[..|blocks| - 1], blocks[|blocks| - 1];
      assert blocks == init + [last];
      CallsComeBack(codec, init);
      PrintsBackPush(codec, init, last);
      if last.ToolUse? {
        var calls := CallsOf(codec, init);
        assert (calls + [CallOf(codec, last)])[..|calls|] == calls;
        var before, own := CallBlocks(codec, calls), CallBlock(codec, CallOf(codec, last));
        if before.Ok? && own.Ok? {
          OnePush(before.value, own.value[0], ToolUses(init), last);
        }
      }
    }
  }

  /** Normalising a response and sending the resulting message back gives, wherever it stands in a
      conversation, one assistant turn: a text block, then the original tool calls in order. The text
      block is the joined text exactly when that is nonempty; otherwise it is the word None. */
  lemma ToolCallsRoundTrip(codec: Codec, before: seq<Message>, response: Response, after: seq<Message>)
    requires PrintsBack(codec, response.content)
    ensures var joined := TextOf(response.content);
            var turn := AssistantTurn([TextBlock(if joined == "" then NONE else joined)] + ToolUses(response.content));
            && TranslateAll(codec, before + [Replayed(Normalize(codec, response))] + after) ==
               Both(Both(TranslateAll(codec, before), Ok(Prepared([], [turn]))), TranslateAll(codec, after))
            && (turn == AssistantTurn([TextBlock(joined)] + ToolUses(response.content)) <==> joined != "")
  {
    var message := Replayed(Normalize(codec, response));
    CallsComeBack(codec, response.content);
    PrepareIsPiecewise(codec, before + [message], after);
    PrepareIsPiecewise(codec, before, [message]);
    assert [message][..0] == [];
    BothEmpty(Translate(codec, message));
    var joined := TextOf(response.content);
    if joined == "" {
      assert ([TextBlock(NONE)] + ToolUses(response.content))[0] != ([TextBlock(joined)] + ToolUses(response.content))[0];
    }
  }

  /** A codec that knows one value: any string parses to it. */
  function Single(json: Json): Codec {
    Codec(_ => "{}", _ => Some(json))
  }

  /** A response that only calls a tool comes back with a text block nobody wrote. */
  lemma NoneIsInvented()
    ensures var codec, block := Single(Object([])), ToolUse("t", "f", Object([]));
            var response := Response("m", [block], Some(ToolUseStop), None, None);
            && PrintsBack(codec, response.content)
            && Translate(codec, Replayed(Normalize(codec, response))) ==
               Ok(Prepared([], [AssistantTurn([TextBlock(NONE), block])]))
  {
    var codec, block := Single(Object([])), ToolUse("t", "f", Object([]));
    assert [block][..0] == [];
    assert PrintsBack(codec, [block]);
    CallsComeBack(codec, [block]);
    assert ToolUses([block]) == [block] && TextOf([block]) == "";
    assert [TextBlock(NONE)] + [block] == [TextBlock(NONE), block];
  }

  ghost predicate Canonical(codec: Codec, calls: seq<ToolCall>) {
    forall call <- calls :: codec.loads(call.arguments).Some? && codec.dumps(codec.loads(call.arguments).value) == call.arguments
  }

  lemma OneMoreBlock(codec: Codec, blocks: seq<Block>, last: Block)
    requires last.ToolUse?
    ensures TextOf(blocks + [last]) == TextOf(blocks)
    ensures CallsOf(codec, blocks + [last]) == CallsOf(codec, blocks) + [CallOf(codec, last)]
  {
    assert (blocks + [last])[..|blocks|] == blocks;
  }

  lemma PushedEquals(init: seq<ToolCall>, last: ToolCall, calls: seq<ToolCall>)
    requires |calls| == |init| + 1
    ensures init + [last] == calls <==> init == calls[..|init|] && last == calls[|init|]
  {
    assert calls == calls[..|init|] + [calls[|init|]];
    assert (init + [last])[..|init|] == init && (init + [last])[|init|] == last;
  }

  lemma {:induction false} BlocksOfCalls(codec: Codec, calls: seq<ToolCall>)
    requires CallBlocks(codec, calls).Ok?
    ensures var blocks := CallBlocks(codec, calls).value;
            && |CallsOf(codec, blocks)| == |calls|
            && TextOf(blocks) == ""
            && (CallsOf(codec, blocks) == calls <==> Canonical(codec, calls))
  {
    if calls == [] {
    } else {
      var n := |calls| - 1;
      BlocksOfCalls(codec, calls[..n]);
      var block := CallBlock(codec, calls[n]).value[0];
      OneMoreBlock(codec, CallBlocks(codec, calls[..n]).value, block);
      PushedEquals(CallsOf(codec, CallBlocks(codec, calls[..n]).value), CallOf(codec, block), calls);
      assert forall call <- calls :: call in calls[..n] || call == calls[n];
    }
  }

  lemma {:induction false} LeadingText(codec: Codec, text: string, blocks: seq<Block>)
    requires TextOf(blocks) == ""
    ensures TextOf([TextBlock(text)] + blocks) == text
    ensures CallsOf(codec, [TextBlock(text)] + blocks) == CallsOf(codec, blocks)
  {
    var all := [TextBlock(text)] + blocks;
    if blocks == [] {
      assert all == [TextBlock(text)] && all[..0] == [];
    } else {
      var n := |blocks| - 1;
      assert all[..|all| - 1] == [TextBlock(text)] + blocks[..n];
      assert TextOf(blocks[..n]) == "";
      LeadingText(codec, text, blocks[..n]);
    }
  }

  /** The other way round: an assistant message with text, prepared and read back as a response, is
      the same message exactly when its arguments are spelled as the printer spells them. */
  lemma PreparedMessageReadsBack(codec: Codec, text: string, calls: seq<ToolCall>)
    requires text != "" && CallBlocks(codec, calls).Ok?
    ensures var message := Message(Assistant, Str(text), calls, "");
            && Translate(codec, message).Ok?
            && (Replayed(Normalize(codec, Response("", Translate(codec, message).value.messages[0].blocks, None, None, None))) == message
                <==> Canonical(codec, calls))
  {
    BlocksOfCalls(codec, calls);
    var blocks := [TextBlock(text)] + CallBlocks(codec, calls).value;
    LeadingText(codec, text, CallBlocks(codec, calls).value);
    assert Translate(codec, Message(Assistant, Str(text), calls, "")) == Ok(Prepared([], [AssistantTurn(blocks)]));
  }
}
