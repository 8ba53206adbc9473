/** What a prepared request says: every message of the conversation is there, in its place and under its
    role, or the first one that cannot be said is to blame. */
module PrepareLaws {
  import opened Common
  import opened Text
  import opened Anthropic
  import opened Streaming

  // ---------------------------------------------------------------- content

  function Dicts(parts: seq<Part>): seq<Part> {
    if parts == [] then [] else (if parts[0].NotADict? then [] else [parts[0]]) + Dicts(parts[1..])
  }

  /** An image address the provider takes: base64 data, or a web address. */
  ghost predicate Showable(url: string) {
    || (StartsWith(url, "data:") && exists i :: OccursAt(url, ";base64,", i))
    || StartsWith(url, "http://") || StartsWith(url, "https://")
  }

  /** The block says what the part says. */
  ghost predicate PartSaid(part: Part, block: Block) {
    match part
    case TextPart(text) => block == TextBlock(text)
    case ImagePart(url, _) => Showable(url) && (StartsWith(url, "http") ==> block == UrlImage(url)) && Image(url) == Ok(block)
    case _ => false
  }

  ghost predicate PartsSaid(parts: seq<Part>, blocks: seq<Block>) {
    |blocks| == |Dicts(parts)| && forall i | 0 <= i < |blocks| :: PartSaid(Dicts(parts)[i], blocks[i])
  }

  ghost predicate ContentSaid(content: Content, blocks: seq<Block>) {
    match content
    case Str(text) => blocks == [TextBlock(text)]
    case Scalar(repr) => blocks == [TextBlock(repr)]
    case NoContent => blocks == [TextBlock("None")]
    case Parts(parts) => PartsSaid(parts, blocks)
  }

  ghost predicate PartCanBeSaid(part: Part) {
    part.NotADict? || part.TextPart? || (part.ImagePart? && Showable(part.url))
  }

  ghost predicate CanBeSaid(content: Content) {
    content.Parts? ==> forall part <- content.parts :: PartCanBeSaid(part)
  }

  lemma HttpIsNotData(url: string)
    requires StartsWith(url, "http")
    ensures !StartsWith(url, "data:")
  {
    assert "http"[0] == 'h' && "data:"[0] == 'd';
  }

  lemma HttpsIsHttp(url: string)
    ensures StartsWith(url, "http://") || StartsWith(url, "https://") ==> StartsWith(url, "http")
  {
    assert "http://"[..4] == "http" == "https://"[..4];
  }

  lemma ImageIsShown(url: string)
    ensures Image(url).Ok? <==> Showable(url)
    ensures Image(url).Ok? && StartsWith(url, "http") ==> Image(url) == Ok(UrlImage(url))
    ensures Image(url).Err? ==> Image(url) == Err(BadImage)
  {
    if StartsWith(url, "http") {
      HttpIsNotData(url);
    }
    HttpsIsHttp(url);
  }

  lemma PartIsSaid(part: Part)
    requires !part.NotADict?
    ensures PartBlocks(part).Ok? <==> PartCanBeSaid(part)
    ensures PartBlocks(part).Ok? ==> |PartBlocks(part).value| == 1 && PartSaid(part, PartBlocks(part).value[0])
  {
    if part.ImagePart? {
      ImageIsShown(part.url);
    }
  }

  lemma DictsFirst(first: Part, rest: seq<Part>)
    ensures Dicts([first] + rest) == (if first.NotADict? then [] else [first]) + Dicts(rest)
  {
    assert ([first] + rest)[1..] == rest;
  }

  lemma DictsAlone(part: Part)
    ensures Dicts([part]) == if part.NotADict? then [] else [part]
  {
    DictsFirst(part, []);
    assert [part] + [] == [part];
  }

  lemma {:induction false} DictsPush(init: seq<Part>, last: Part)
    ensures Dicts(init + [last]) == Dicts(init) + Dicts([last])
  {
    if init == [] {
      assert [] + [last] == [last];
    } else {
      assert [init[0]] + (init[1..] + [last]) == init + [last] && [init[0]] + init[1..] == init;
      DictsFirst(init[0], init[1..] + [last]);
      DictsFirst(init[0], init[1..]);
      DictsPush(init[1..], last);
    }
  }

  lemma SaidPush(init: seq<Part>, blocks: seq<Block>, last: Part, more: seq<Block>)
    requires PartsSaid(init, blocks)
    requires if last.NotADict? then more == [] else |more| == 1 && PartSaid(last, more[0])
    ensures PartsSaid(init + [last], blocks + more)
  {
    DictsPush(init, last);
    DictsAlone(last);
  }

  lemma {:induction false} PartsAreSaid(parts: seq<Part>)
    ensures AllParts(parts).Ok? <==> forall part <- parts :: PartCanBeSaid(part)
    ensures AllParts(parts).Ok? ==> PartsSaid(parts, AllParts(parts).value)
  {
    if parts == [] {
    } else {
      var init, last := parts[..|parts| - 1], parts[|parts| - 1];
      assert parts == init + [last];
      PartsAreSaid(init);
      if !last.NotADict? {
        PartIsSaid(last);
      }
      if AllParts(parts).Ok? {
        SaidPush(init, AllParts(init).value, last, PartBlocks(last).value);
      }
      assert forall part <- parts :: part in init || part == last;
    }
  }

  lemma ContentIsSaid(content: Content)
    ensures ContentBlocks(content).Ok? <==> CanBeSaid(content)
    ensures ContentBlocks(content).Ok? ==> ContentSaid(content, ContentBlocks(content).value)
  {
    if content.Parts? {
      PartsAreSaid(content.parts);
    }
  }

  // ---------------------------------------------------------------- tool calls

  /** The block is the call, its arguments parsed. */
  ghost predicate CallSaid(codec: Codec, call: ToolCall, block: Block) {
    && block.ToolUse? && block.id == call.id && block.name == call.name
    && codec.loads(call.arguments) == Some(block.input)
  }

  ghost predicate CallsSaid(codec: Codec, calls: seq<ToolCall>, blocks: seq<Block>) {
    |blocks| == |calls| && forall i | 0 <= i < |calls| :: CallSaid(codec, calls[i], blocks[i])
  }

  lemma {:induction false} CallsAreSaid(codec: Codec, calls: seq<ToolCall>)
    ensures CallBlocks(codec, calls).Ok? <==> forall call <- calls :: codec.loads(call.arguments).Some?
    ensures CallBlocks(codec, calls).Ok? ==> CallsSaid(codec, calls, CallBlocks(codec, calls).value)
  {
    if calls == [] {
    } else {
      var init, last := calls[..|calls| - 1], calls[|calls| - 1];
      assert calls == init + [last];
      CallsAreSaid(codec, init);
      assert forall call <- calls :: call in init || call == last;
    }
  }

  // ---------------------------------------------------------------- messages

  predicate Instructs(message: Message) {
    message.Message? && (message.role.System? || message.role.Developer?)
  }

  /** The turn says what the message says, under its role. */
  ghost predicate TurnSaid(codec: Codec, message: Message, turn: Turn) {
    && message.Message?
    && match message.role
       case User => turn.UserTurn? && ContentSaid(message.content, turn.blocks)
       case Tool => turn == UserTurn([ToolResult(message.toolCallId, message.content)])
       case Assistant =>
         && turn.AssistantTurn? && |message.toolCalls| <= |turn.blocks|
         && var n := |turn.blocks| - |message.toolCalls|;
            ContentSaid(message.content, turn.blocks[..n]) && CallsSaid(codec, message.toolCalls, turn.blocks[n..])
       case _ => false
  }

  ghost predicate MessageCanBeSaid(codec: Codec, message: Message) {
    && message.Message? && !message.role.OtherRole?
    && (!message.role.Tool? ==> CanBeSaid(message.content))
    && (message.role.Assistant? ==> forall call <- message.toolCalls :: codec.loads(call.arguments).Some?)
  }

  /** What one message adds: blocks of instructions, or a turn. */
  ghost predicate MessageSaid(codec: Codec, message: Message, said: Prepared) {
    if Instructs(message) then said.messages == [] && ContentSaid(message.content, said.system)
    else said.system == [] && |said.messages| == 1 && TurnSaid(codec, message, said.messages[0])
  }

  lemma MessageIsSaid(codec: Codec, message: Message)
    ensures Translate(codec, message).Ok? <==> MessageCanBeSaid(codec, message)
    ensures Translate(codec, message).Ok? ==> MessageSaid(codec, message, Translate(codec, message).value)
  {
    if message.Message? {
      ContentIsSaid(message.content);
      if message.role.Assistant? {
        CallsAreSaid(codec, message.toolCalls);
        if Translate(codec, message).Ok? {
          var content, calls := ContentBlocks(message.content).value, CallBlocks(codec, message.toolCalls).value;
          assert (content + calls)[..|content|] == content && (content + calls)[|content|..] == calls;
        }
      }
    }
  }

  ghost function JoinPieces(pieces: seq<Prepared>): Prepared {
    if pieces == [] then Prepared([], [])
    else
      var (init, last) := (JoinPieces(pieces[..|pieces| - 1]), pieces[|pieces| - 1]);
      Prepared(init.system + last.system, init.messages + last.messages)
  }

  ghost predicate EachSaid(codec: Codec, messages: seq<Message>, pieces: seq<Prepared>) {
    |pieces| == |messages| && forall i | 0 <= i < |messages| :: MessageSaid(codec, messages[i], pieces[i])
  }

  /** Each message says its piece, and the pieces stand in order. */
  ghost predicate Said(codec: Codec, messages: seq<Message>, said: Prepared) {
    exists pieces :: EachSaid(codec, messages, pieces) && said == JoinPieces(pieces)
  }

  lemma PiecesPush(pieces: seq<Prepared>, more: Prepared)
    ensures JoinPieces(pieces + [more]) ==
            Prepared(JoinPieces(pieces).system + more.system, JoinPieces(pieces).messages + more.messages)
  {
    assert (pieces + [more])[..|pieces|] == pieces;
  }

  lemma EachSaidPush(codec: Codec, messages: seq<Message>, pieces: seq<Prepared>, last: Message, more: Prepared)
    requires EachSaid(codec, messages, pieces) && MessageSaid(codec, last, more)
    ensures EachSaid(codec, messages + [last], pieces + [more])
  {
  }

  lemma OneMoreSaid(codec: Codec, messages: seq<Message>, said: Prepared, last: Message, more: Prepared)
    requires Said(codec, messages, said) && MessageSaid(codec, last, more)
    ensures Said(codec, messages + [last], Prepared(said.system + more.system, said.messages + more.messages))
  {
    var pieces :| EachSaid(codec, messages, pieces) && said == JoinPieces(pieces);
    EachSaidPush(codec, messages, pieces, last, more);
    PiecesPush(pieces, more);
  }

  lemma {:induction false} AcceptedIffAllCanBeSaid(codec: Codec, messages: seq<Message>)
    ensures TranslateAll(codec, messages).Ok? <==> forall message <- messages :: MessageCanBeSaid(codec, message)
  {
    if messages == [] {
    } else {
      var init, last := messages[..|messages| - 1], messages[|messages| - 1];
      assert messages == init + [last];
      AcceptedIffAllCanBeSaid(codec, init);
      MessageIsSaid(codec, last);
      assert forall message <- messages :: message in init || message == last;
    }
  }

  lemma {:induction false} AcceptedIsSaid(codec: Codec, messages: seq<Message>)
    requires TranslateAll(codec, messages).Ok?
    ensures Said(codec, messages, TranslateAll(codec, messages).value)
  {
    if messages == [] {
      assert EachSaid(codec, messages, []) && JoinPieces([]) == Prepared([], []);
    } else {
      var init, last := messages[..|messages| - 1], messages[|messages| - 1];
      assert messages == init + [last];
      AcceptedIsSaid(codec, init);
      MessageIsSaid(codec, last);
      OneMoreSaid(codec, init, TranslateAll(codec, init).value, last, Translate(codec, last).value);
    }
  }

  /** A request is accepted exactly when every message can be said, and then it says all of them: the
      instructions of system and developer messages in order, and one turn for every other message, in
      order, by the assistant or by the user. */
  lemma ConversationIsSaid(codec: Codec, messages: seq<Message>)
    ensures TranslateAll(codec, messages).Ok? <==> forall message <- messages :: MessageCanBeSaid(codec, message)
    ensures TranslateAll(codec, messages).Ok? ==> Said(codec, messages, TranslateAll(codec, messages).value)
  {
    AcceptedIffAllCanBeSaid(codec, messages);
    if TranslateAll(codec, messages).Ok? {
      AcceptedIsSaid(codec, messages);
    }
  }

  /** The same for a whole request. */
  lemma RequestIsSaid(codec: Codec, request: Request)
    ensures Prepare(codec, request).Ok? <==>
            request.reasoningAuto && !request.unsupportedField && forall message <- request.messages :: MessageCanBeSaid(codec, message)
    ensures Prepare(codec, request).Ok? ==> Said(codec, request.messages, Prepare(codec, request).value)
  {
    ConversationIsSaid(codec, request.messages);
  }

  // ---------------------------------------------------------------- refusals

  /** The message that the error is about. */
  ghost predicate Blames(codec: Codec, e: AdapterError, message: Message) {
    match e
    case NotAnObject => message.Malformed?
    case UnsupportedRole => message.Message? && message.role.OtherRole?
    case BadArguments => message.Message? && message.role.Assistant? && exists call <- message.toolCalls :: codec.loads(call.arguments).None?
    case BadImage => message.Message? && message.content.Parts? && exists part <- message.content.parts :: part.ImagePart? && !Showable(part.url)
    case UnsupportedPart => message.Message? && message.content.Parts? && exists part <- message.content.parts :: part.OtherPart?
    case _ => false
  }

  lemma {:induction false} PartsAreBlamed(parts: seq<Part>)
    requires AllParts(parts).Err?
    ensures match AllParts(parts).error
            case BadImage => exists part <- parts :: part.ImagePart? && !Showable(part.url)
            case UnsupportedPart => exists part <- parts :: part.OtherPart?
            case _ => false
  {
    var init, last := parts[..|parts| - 1], parts[|parts| - 1];
    assert last in parts && forall part <- init :: part in parts;
    if AllParts(init).Err? {
      PartsAreBlamed(init);
    } else if last.ImagePart? {
      ImageIsShown(last.url);
    }
  }

  lemma {:induction false} CallsAreBlamed(codec: Codec, calls: seq<ToolCall>)
    requires CallBlocks(codec, calls).Err?
    ensures CallBlocks(codec, calls).error == BadArguments && exists call <- calls :: codec.loads(call.arguments).None?
  {
    var init, last := calls[..|calls| - 1], calls[|calls| - 1];
    assert last in calls && forall call <- init :: call in calls;
    if CallBlocks(codec, init).Err? {
      CallsAreBlamed(codec, init);
    }
  }

  lemma MessageIsBlamed(codec: Codec, message: Message)
    requires Translate(codec, message).Err?
    ensures Blames(codec, Translate(codec, message).error, message)
  {
    if message.Message? && !message.role.OtherRole? {
      if ContentBlocks(message.content).Err? {
        PartsAreBlamed(message.content.parts);
      } else {
        CallsAreBlamed(codec, message.toolCalls);
      }
    }
  }

  lemma AllCanBeSaid(codec: Codec, messages: seq<Message>)
    requires TranslateAll(codec, messages).Ok?
    ensures forall j | 0 <= j < |messages| :: MessageCanBeSaid(codec, messages[j])
  {
    ConversationIsSaid(codec, messages);
    forall j | 0 <= j < |messages|
      ensures MessageCanBeSaid(codec, messages[j])
    {
      assert messages[j] in messages;
    }
  }

  /** A refusal is about the first message that cannot be said. */
  lemma {:induction false} FirstBadMessageIsBlamed(codec: Codec, messages: seq<Message>) returns (i: nat)
    requires TranslateAll(codec, messages).Err?
    ensures i < |messages| && Blames(codec, TranslateAll(codec, messages).error, messages[i])
    ensures forall j | 0 <= j < i :: MessageCanBeSaid(codec, messages[j])
  {
    var init, last := messages[..|messages| - 1], messages[|messages| - 1];
    if TranslateAll(codec, init).Err? {
      i := FirstBadMessageIsBlamed(codec, init);
    } else {
      i := |messages| - 1;
      MessageIsBlamed(codec, last);
      AllCanBeSaid(codec, init);
    }
  }

  // ---------------------------------------------------------------- the estimate

  /** A content whose whole text is written in text parts. */
  ghost predicate OnlyTextCounts(content: Content) {
    match content
    case Str(_) => true
    case Parts(parts) => forall part <- parts :: part.ImagePart? ==> part.text == ""
    case _ => false
  }

  lemma {:induction false} PartsAreCounted(codec: Codec, parts: seq<Part>)
    requires AllParts(parts).Ok? && forall part <- parts :: part.ImagePart? ==> part.text == ""
    ensures PartsSize(parts) == |TextOf(AllParts(parts).value)|
  {
    if parts == [] {
    } else {
      var init, last := parts[..|parts| - 1], parts[|parts| - 1];
      assert last in parts && forall part <- init :: part in parts;
      PartsAreCounted(codec, init);
      ReadingIsPiecewise(codec, AllParts(init).value, PartBlocks(last).value);
      if !last.NotADict? {
        LoneBlockIsRead(codec, PartBlocks(last).value[0]);
      }
    }
  }

  /** The estimate of a request counts the characters that the prepared message says. */
  lemma EstimateCountsWhatIsSaid(codec: Codec, message: Message)
    requires message.Message? && OnlyTextCounts(message.content) && ContentBlocks(message.content).Ok?
    ensures TextSize(message) == |TextOf(ContentBlocks(message.content).value)|
  {
    match message.content {
      case Str(text) => LoneBlockIsRead(codec, TextBlock(text));
      case Parts(parts) => PartsAreCounted(codec, parts);
    }
  }

  /** A message without text does not change the estimate, wherever it stands. */
  lemma SilentMessagesCountNothing(a: seq<Message>, message: Message, b: seq<Message>)
    requires message.Malformed? || message.content.NoContent? || message.content.Scalar? || message.content == Str("")
    ensures TextSizes(a + [message] + b) == TextSizes(a + b)
  {
    SizesAdd(a + [message], b);
    SizesAdd(a, [message]);
    SizesAdd(a, b);
    assert [message][..0] == [];
    assert TextSizes([message]) == TextSizes([]) + TextSize(message);
  }
}
