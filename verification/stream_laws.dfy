/** A translated stream and the one-shot translation of the same message agree. */
module StreamLaws {
  import opened Common
  import opened Text
  import opened Anthropic
  import opened Ordering
  import opened Streaming

  // ---------------------------------------------------------------- what a stream spells

  function Starts(body: seq<Event>): (starts: seq<Event>)
    ensures forall s <- starts :: s.ToolStart?
  {
    if body == [] then []
    else
      var (init, last) := (Starts(body[..|body| - 1]), body[|body| - 1]);
      if last.ToolStart? then init + [last] else init
  }

  predicate Opened(starts: seq<Event>, index: int)
    requires forall s <- starts :: s.ToolStart?
  {
    exists s <- starts :: s.index == index
  }

  /** Between its message_start and its message_delta a stream opens every tool block once; deltas of
      any block, opened or not, and other events may stand anywhere. */
  predicate OpensOnce(body: seq<Event>) {
    body == [] ||
    var (init, last) := (body[..|body| - 1], body[|body| - 1]);
    && OpensOnce(init)
    && match last
       case TextDelta(_) => true
       case ThinkingDelta(_) => true
       case Ignored => true
       case JsonDelta(_, _) => true
       case ToolStart(index, _, _) => !Opened(Starts(init), index)
       case _ => false
  }

  /** The text deltas, in stream order. */
  function Written(body: seq<Event>): string {
    if body == [] then ""
    else
      var (init, last) := (Written(body[..|body| - 1]), body[|body| - 1]);
      if last.TextDelta? then init + last.text else init
  }

  /** The thinking deltas, in stream order. */
  function Pondered(body: seq<Event>): string {
    if body == [] then ""
    else
      var (init, last) := (Pondered(body[..|body| - 1]), body[|body| - 1]);
      if last.ThinkingDelta? then init + last.thinking else init
  }

  /** The fragments of one opened block's input, in stream order. */
  function Fragments(body: seq<Event>, index: int): string {
    if body == [] then ""
    else
      var (init, last) := (body[..|body| - 1], body[|body| - 1]);
      if last.JsonDelta? && last.index == index && Opened(Starts(init), index) then Fragments(init, index) + last.partial
      else Fragments(init, index)
  }

  /** The fragments sent for blocks that had not been opened as tools. */
  function Stray(body: seq<Event>): string {
    if body == [] then ""
    else
      var (init, last) := (body[..|body| - 1], body[|body| - 1]);
      if last.JsonDelta? && !Opened(Starts(init), last.index) then Stray(init) + last.partial else Stray(init)
  }

  predicate HasFragment(body: seq<Event>) {
    exists e <- body :: e.JsonDelta?
  }

  /** The number of the tool call that takes the fragments of a block: 0 when the block is not open. */
  function Place(starts: seq<Event>, index: int): nat
    requires forall s <- starts :: s.ToolStart?
  {
    if starts == [] then 0
    else if starts[|starts| - 1].index == index then |starts| - 1
    else Place(starts[..|starts| - 1], index)
  }

  /** All the fragments that tool call `k` takes, in stream order. */
  function Routed(body: seq<Event>, k: nat): string {
    if body == [] then ""
    else
      var (init, last) := (body[..|body| - 1], body[|body| - 1]);
      if last.JsonDelta? && Place(Starts(init), last.index) == k then Routed(init, k) + last.partial else Routed(init, k)
  }

  function CallAt(body: seq<Event>, k: nat): ToolCall
    requires k < |Starts(body)|
  {
    ToolCall(Starts(body)[k].id, Starts(body)[k].name, Routed(body, k))
  }

  /** The tool calls a stream spells: one for every opened block; without any, one that nobody asked
      for as soon as there is a fragment. */
  function Spelled(body: seq<Event>): (calls: seq<ToolCall>)
    ensures Starts(body) != [] || !HasFragment(body) ==>
              |calls| == |Starts(body)| && forall k | 0 <= k < |calls| :: calls[k] == CallAt(body, k)
  {
    if Starts(body) == [] && HasFragment(body) then [ToolCall("", "", Routed(body, 0))]
    else seq(|Starts(body)|, k requires 0 <= k < |Starts(body)| => CallAt(body, k))
  }

  // ---------------------------------------------------------------- the translator's table

  ghost predicate Indexed(indexes: map<int, int>, starts: seq<Event>)
    requires forall s <- starts :: s.ToolStart?
  {
    && |indexes| == |starts|
    && (forall index :: index in indexes <==> Opened(starts, index))
    && (forall k | 0 <= k < |starts| :: starts[k].index in indexes && indexes[starts[k].index] == k)
  }

  lemma StartIsIndexed(indexes: map<int, int>, starts: seq<Event>, e: Event)
    requires (forall s <- starts :: s.ToolStart?) && e.ToolStart?
    requires Indexed(indexes, starts) && !Opened(starts, e.index)
    ensures Indexed(indexes[e.index := |indexes|], starts + [e])
  {
    var after, more := indexes[e.index := |indexes|], starts + [e];
    assert after.Keys == indexes.Keys + {e.index};
    forall index
      ensures index in after <==> Opened(more, index)
    {
      if Opened(starts, index) {
        var s :| s in starts && s.index == index;
        assert s in more;
      }
      assert e in more;
      if Opened(more, index) {
        var s :| s in more && s.index == index;
        assert s in starts || s == e;
      }
    }
  }

  lemma {:induction false} PlaceIsFirst(starts: seq<Event>, index: int)
    requires forall s <- starts :: s.ToolStart?
    ensures starts != [] ==> Place(starts, index) < |starts|
    ensures Opened(starts, index) ==> starts != [] && starts[Place(starts, index)].index == index
    ensures !Opened(starts, index) ==> Place(starts, index) == 0
  {
    if starts == [] {
    } else {
      var init, last := starts[..|starts| - 1], starts[|starts| - 1];
      PlaceIsFirst(init, index);
      assert forall s <- starts :: s in init || s == last;
      assert forall s <- init :: s in starts;
    }
  }

  /** The number that translate_stream looks up, its default included. */
  lemma {:induction false} PlaceIsLookedUp(indexes: map<int, int>, starts: seq<Event>, index: int)
    requires (forall s <- starts :: s.ToolStart?) && Indexed(indexes, starts)
    ensures Place(starts, index) == if index in indexes then indexes[index] else 0
    ensures starts != [] ==> Place(starts, index) < |starts|
  {
    PlaceIsFirst(starts, index);
    if Opened(starts, index) {
      var k := Place(starts, index);
      assert starts[k].index in indexes && indexes[starts[k].index] == k;
    }
  }

  /** A call that has not been opened yet has taken nothing, save call 0. */
  lemma {:induction false} NothingRouted(body: seq<Event>, k: nat)
    requires k >= |Starts(body)| && (k > 0 || !HasFragment(body))
    ensures Routed(body, k) == ""
  {
    if body == [] {
    } else {
      var init, last := body[..|body| - 1], body[|body| - 1];
      assert forall e <- init :: e in body;
      assert last in body;
      NothingRouted(init, k);
      if last.JsonDelta? {
        PlaceIsFirst(Starts(init), last.index);
      }
    }
  }

  // ---------------------------------------------------------------- the accumulated calls

  ghost predicate Collected(calls: map<int, ToolCall>, list: seq<ToolCall>) {
    Lists(calls, list, 0)
  }

  lemma NewPiece(calls: map<int, ToolCall>, p: Piece)
    requires p.index !in calls
    ensures AddPiece(calls, p) == calls[p.index := ToolCall(p.id, p.name, p.arguments)]
  {
    assert "" + p.name == p.name && "" + p.arguments == p.arguments;
  }

  lemma CollectedPush(calls: map<int, ToolCall>, list: seq<ToolCall>, call: ToolCall)
    requires Collected(calls, list)
    ensures Collected(calls[|list| := call], list + [call])
  {
  }

  lemma CollectedUpdate(calls: map<int, ToolCall>, list: seq<ToolCall>, k: nat, call: ToolCall)
    requires Collected(calls, list) && k < |list|
    ensures Collected(calls[k := call], list[k := call])
  {
  }

  lemma OneStart(body: seq<Event>, e: Event)
    requires e.ToolStart?
    ensures Starts(body + [e]) == Starts(body) + [e] && HasFragment(body + [e]) == HasFragment(body)
    ensures forall k: nat :: Routed(body + [e], k) == Routed(body, k)
  {
    assert (body + [e])[..|body|] == body;
    assert forall x <- body :: x in body + [e];
  }

  /** The first tool is opened after stray fragments: it takes over the call they have made. */
  lemma LateFirstStart(calls: map<int, ToolCall>, body: seq<Event>, e: Event)
    requires Starts(body) == [] && HasFragment(body) && Collected(calls, Spelled(body)) && e.ToolStart?
    ensures Collected(AddPiece(calls, Piece(0, e.id, e.name, "")), Spelled(body + [e]))
  {
    OneStart(body, e);
    var routed := Routed(body, 0);
    assert calls[0] == ToolCall("", "", routed) && routed + "" == routed && "" + e.name == e.name;
    assert Spelled(body + [e]) == [ToolCall(e.id, e.name, routed)];
  }

  lemma CallAfterStart(body: seq<Event>, e: Event, k: nat)
    requires e.ToolStart? && (Starts(body) != [] || !HasFragment(body)) && k <= |Starts(body)|
    ensures |Spelled(body)| == |Starts(body)| && |Spelled(body + [e])| == |Starts(body)| + 1
    ensures Spelled(body + [e])[k] == if k < |Starts(body)| then Spelled(body)[k] else ToolCall(e.id, e.name, Routed(body, k))
  {
    OneStart(body, e);
    assert Spelled(body + [e])[k] == CallAt(body + [e], k);
    assert k < |Starts(body)| ==> Spelled(body)[k] == CallAt(body, k);
  }

  lemma ListsPush(before: seq<ToolCall>, after: seq<ToolCall>, call: ToolCall)
    requires |after| == |before| + 1 && after[|before|] == call && forall k | 0 <= k < |before| :: after[k] == before[k]
    ensures after == before + [call]
  {
  }

  lemma SpelledAfterStart(body: seq<Event>, e: Event)
    requires e.ToolStart? && (Starts(body) != [] || !HasFragment(body)) && Routed(body, |Starts(body)|) == ""
    ensures Spelled(body + [e]) == Spelled(body) + [ToolCall(e.id, e.name, "")]
  {
    var before, after := Spelled(body), Spelled(body + [e]);
    CallAfterStart(body, e, |Starts(body)|);
    forall k | 0 <= k < |before|
      ensures after[k] == before[k]
    {
      CallAfterStart(body, e, k);
    }
    ListsPush(before, after, ToolCall(e.id, e.name, ""));
  }

  lemma StartIsCollected(calls: map<int, ToolCall>, body: seq<Event>, e: Event)
    requires Collected(calls, Spelled(body)) && e.ToolStart?
    ensures Collected(AddPiece(calls, Piece(|Starts(body)|, e.id, e.name, "")), Spelled(body + [e]))
  {
    var n, more := |Starts(body)|, body + [e];
    OneStart(body, e);
    if n == 0 && HasFragment(body) {
      LateFirstStart(calls, body, e);
    } else {
      NothingRouted(body, n);
      NewPiece(calls, Piece(n, e.id, e.name, ""));
      CollectedPush(calls, Spelled(body), ToolCall(e.id, e.name, ""));
      SpelledAfterStart(body, e);
    }
  }

  lemma OneFragment(body: seq<Event>, e: Event)
    requires e.JsonDelta?
    ensures Starts(body + [e]) == Starts(body) && HasFragment(body + [e])
    ensures forall k: nat :: Routed(body + [e], k) == if k == Place(Starts(body), e.index) then Routed(body, k) + e.partial else Routed(body, k)
  {
    assert (body + [e])[..|body|] == body;
    assert e in body + [e];
  }

  lemma FirstPiece(calls: map<int, ToolCall>, partial: string)
    requires Collected(calls, [])
    ensures Collected(AddPiece(calls, Piece(0, "", "", partial)), [ToolCall("", "", partial)])
  {
    NewPiece(calls, Piece(0, "", "", partial));
    CollectedPush(calls, [], ToolCall("", "", partial));
    assert [] + [ToolCall("", "", partial)] == [ToolCall("", "", partial)];
  }

  lemma MorePiece(calls: map<int, ToolCall>, arguments: string, partial: string)
    requires Collected(calls, [ToolCall("", "", arguments)])
    ensures Collected(AddPiece(calls, Piece(0, "", "", partial)), [ToolCall("", "", arguments + partial)])
  {
    var call, more := ToolCall("", "", arguments), ToolCall("", "", arguments + partial);
    assert "" + "" == "" && calls[0] == [call][0];
    CollectedUpdate(calls, [call], 0, more);
    assert [call][0 := more] == [more];
  }

  lemma SpelledWithoutTool(body: seq<Event>)
    requires Starts(body) == []
    ensures Spelled(body) == if HasFragment(body) then [ToolCall("", "", Routed(body, 0))] else []
  {
  }

  lemma SpelledAfterStray(body: seq<Event>, e: Event)
    requires Starts(body) == [] && e.JsonDelta?
    ensures Spelled(body + [e]) == [ToolCall("", "", Routed(body, 0) + e.partial)]
  {
    OneFragment(body, e);
    SpelledWithoutTool(body + [e]);
  }

  /** The first stray fragment makes a nameless call, and later ones are appended to it. */
  lemma StrayIsCollected(calls: map<int, ToolCall>, body: seq<Event>, e: Event)
    requires Starts(body) == [] && Collected(calls, Spelled(body)) && e.JsonDelta?
    ensures Collected(AddPiece(calls, Piece(0, "", "", e.partial)), Spelled(body + [e]))
  {
    SpelledWithoutTool(body);
    SpelledAfterStray(body, e);
    if HasFragment(body) {
      MorePiece(calls, Routed(body, 0), e.partial);
    } else {
      NothingRouted(body, 0);
      FirstPiece(calls, e.partial);
      assert "" + e.partial == e.partial;
    }
  }

  lemma SpelledAfterFragment(body: seq<Event>, e: Event)
    requires e.JsonDelta? && Starts(body) != []
    ensures var k := Place(Starts(body), e.index);
            && k < |Starts(body)|
            && var call := CallAt(body, k);
               Spelled(body + [e]) == Spelled(body)[k := call.(arguments := call.arguments + e.partial)]
  {
    OneFragment(body, e);
    PlaceIsFirst(Starts(body), e.index);
    var more := body + [e];
    assert forall j | 0 <= j < |Starts(body)| && j != Place(Starts(body), e.index) :: CallAt(more, j) == CallAt(body, j);
  }

  lemma FragmentIsCollected(calls: map<int, ToolCall>, body: seq<Event>, e: Event)
    requires Collected(calls, Spelled(body)) && e.JsonDelta?
    ensures Collected(AddPiece(calls, Piece(Place(Starts(body), e.index), "", "", e.partial)), Spelled(body + [e]))
  {
    var k := Place(Starts(body), e.index);
    OneFragment(body, e);
    if Starts(body) == [] {
      StrayIsCollected(calls, body, e);
    } else {
      PlaceIsFirst(Starts(body), e.index);
      var call := CallAt(body, k);
      assert call.name + "" == call.name;
      CollectedUpdate(calls, Spelled(body), k, call.(arguments := call.arguments + e.partial));
      SpelledAfterFragment(body, e);
    }
  }

  lemma OtherIsCollected(body: seq<Event>, e: Event)
    requires !e.ToolStart? && !e.JsonDelta?
    ensures Starts(body + [e]) == Starts(body) && Spelled(body + [e]) == Spelled(body)
  {
    var more := body + [e];
    assert more[..|body|] == body && Starts(more) == Starts(body);
    assert HasFragment(more) == HasFragment(body) by { assert forall x <- body :: x in more; }
    assert forall k: nat :: Routed(more, k) == Routed(body, k);
    assert forall k | 0 <= k < |Starts(body)| :: CallAt(more, k) == CallAt(body, k);
  }

  // ---------------------------------------------------------------- the run

  /** Where translator and accumulator stand after a prefix of the body. */
  ghost predicate InStep(c: Cursor, a: Account, id: string, input: Option<int>, body: seq<Event>) {
    && c.messageId == id && c.inputTokens == input && Indexed(c.toolIndexes, Starts(body))
    && a.id == id && a.finish == None && a.usage == Usage(input, None, None) && a.error == None
    && Concat(a.content) == Written(body) && Concat(a.reasoning) == Pondered(body)
    && Collected(a.calls, Spelled(body))
  }

  lemma OnePiece(calls: map<int, ToolCall>, p: Piece)
    ensures AddPieces(calls, [p]) == AddPiece(calls, p)
  {
    assert [p][..0] == [];
  }

  lemma StartStaysInStep(c: Cursor, a: Account, id: string, input: Option<int>, body: seq<Event>, e: Event)
    requires InStep(c, a, id, input, body) && e.ToolStart? && !Opened(Starts(body), e.index)
    ensures InStep(Advance(c, e), Receive(a, Emit(c, e)), id, input, body + [e])
  {
    assert (body + [e])[..|body|] == body;
    StartIsIndexed(c.toolIndexes, Starts(body), e);
    StartIsCollected(a.calls, body, e);
    OnePiece(a.calls, Piece(|Starts(body)|, e.id, e.name, ""));
  }

  lemma TextGrows(body: seq<Event>, e: Event)
    ensures Written(body + [e]) == if e.TextDelta? then Written(body) + e.text else Written(body)
    ensures Pondered(body + [e]) == if e.ThinkingDelta? then Pondered(body) + e.thinking else Pondered(body)
  {
    assert (body + [e])[..|body|] == body;
  }

  lemma FragmentStaysInStep(c: Cursor, a: Account, id: string, input: Option<int>, body: seq<Event>, e: Event)
    requires InStep(c, a, id, input, body) && e.JsonDelta?
    ensures InStep(Advance(c, e), Receive(a, Emit(c, e)), id, input, body + [e])
  {
    TextGrows(body, e);
    PlaceIsLookedUp(c.toolIndexes, Starts(body), e.index);
    FragmentIsCollected(a.calls, body, e);
    OneFragment(body, e);
    OnePiece(a.calls, Piece(Place(Starts(body), e.index), "", "", e.partial));
  }

  lemma PushJoins(parts: seq<string>, text: string)
    ensures Concat(Push(parts, text)) == Concat(parts) + text
  {
    ConcatPush(parts, text);
    assert Concat(parts) + "" == Concat(parts);
  }

  lemma TextIsReceived(c: Cursor, a: Account, e: Event)
    requires (e.TextDelta? || e.ThinkingDelta? || e.Ignored?) && a.id == c.messageId
    ensures Advance(c, e) == c
    ensures Receive(a, Emit(c, e)) == a.(content := if e.TextDelta? then Push(a.content, e.text) else a.content,
                                         reasoning := if e.ThinkingDelta? then Push(a.reasoning, e.thinking) else a.reasoning)
  {
  }

  lemma TextStaysInStep(c: Cursor, a: Account, id: string, input: Option<int>, body: seq<Event>, e: Event)
    requires InStep(c, a, id, input, body) && (e.TextDelta? || e.ThinkingDelta? || e.Ignored?)
    ensures InStep(Advance(c, e), Receive(a, Emit(c, e)), id, input, body + [e])
  {
    TextGrows(body, e);
    OtherIsCollected(body, e);
    TextIsReceived(c, a, e);
    if e.TextDelta? {
      PushJoins(a.content, e.text);
    }
    if e.ThinkingDelta? {
      PushJoins(a.reasoning, e.thinking);
    }
  }

  lemma StepStaysInStep(c: Cursor, a: Account, id: string, input: Option<int>, body: seq<Event>, e: Event)
    requires InStep(c, a, id, input, body) && OpensOnce(body + [e])
    ensures InStep(Advance(c, e), Receive(a, Emit(c, e)), id, input, body + [e])
  {
    assert (body + [e])[..|body|] == body;
    if e.ToolStart? {
      StartStaysInStep(c, a, id, input, body, e);
    } else if e.JsonDelta? {
      FragmentStaysInStep(c, a, id, input, body, e);
    } else {
      TextStaysInStep(c, a, id, input, body, e);
    }
  }

  lemma OneMoreEvent(start: seq<Event>, init: seq<Event>, e: Event)
    ensures var (c, a) := Run(start + init);
            Run(start + (init + [e])) == (Advance(c, e), Receive(a, Emit(c, e)))
  {
    var events := start + (init + [e]);
    assert events[..|events| - 1] == start + init && events[|events| - 1] == e;
  }

  lemma {:induction false} BodyRuns(id: string, input: Option<int>, body: seq<Event>)
    requires OpensOnce(body)
    ensures var (c, a) := Run([MessageStart(id, input)] + body); InStep(c, a, id, input, body)
  {
    var start := [MessageStart(id, input)];
    if body == [] {
      assert start + body == start && start[..0] == [];
    } else {
      var init, last := body[..|body| - 1], body[|body| - 1];
      assert body == init + [last];
      BodyRuns(id, input, init);
      OneMoreEvent(start, init, last);
      var (c, a) := Run(start + init);
      StepStaysInStep(c, a, id, input, init, last);
    }
  }

  // ---------------------------------------------------------------- the end of the message

  function Message(response: Response, body: seq<Event>): seq<Event> {
    [MessageStart(response.id, response.input)] + body + [MessageDelta(response.stop, response.output)]
  }

  /** The account of a body, closed by its message_delta. */
  ghost predicate Closed(a: Account, response: Response, body: seq<Event>) {
    && a.id == response.id && a.finish == FinishOf(response.stop) && a.error == None
    && a.usage == Usage(response.input, response.output, Total(response.input, response.output))
    && Concat(a.content) == Written(body) && Concat(a.reasoning) == Pondered(body)
    && Collected(a.calls, Spelled(body))
  }

  lemma DeltaCloses(c: Cursor, a: Account, response: Response, body: seq<Event>)
    requires InStep(c, a, response.id, response.input, body)
    ensures Closed(Receive(a, Emit(c, MessageDelta(response.stop, response.output))), response, body)
  {
  }

  lemma MessageCloses(response: Response, body: seq<Event>)
    requires OpensOnce(body)
    ensures Closed(Run(Message(response, body)).1, response, body)
  {
    var events := Message(response, body);
    var start := [MessageStart(response.id, response.input)] + body;
    assert events[..|events| - 1] == start;
    BodyRuns(response.id, response.input, body);
    DeltaCloses(Run(start).0, Run(start).1, response, body);
  }

  /** What a complete stream yields, for every body that opens each block once. */
  lemma StreamedPayload(response: Response, body: seq<Event>)
    requires OpensOnce(body)
    ensures Payload(Run(Message(response, body)).1) ==
            Completion(response.id, OrNone(Written(body)), Spelled(body), FinishOf(response.stop),
                       Usage(response.input, response.output, Total(response.input, response.output)))
    ensures var payload := Payload(Run(Message(response, body)).1);
            && payload.id == response.id && TellsWhyItStopped(response.stop, payload.finish)
            && CountsTokens(response.input, response.output, payload.usage)
  {
    MessageCloses(response, body);
    NumberedComesBack(Run(Message(response, body)).1.calls, Spelled(body));
  }

  /** The stream equals the one-shot translation exactly when it spells the same text and calls. */
  lemma StreamEqualsWhatItSpells(codec: Codec, response: Response, body: seq<Event>)
    requires OpensOnce(body)
    ensures Payload(Run(Message(response, body)).1) == Normalize(codec, response) <==>
            Written(body) == TextOf(response.content) && Spelled(body) == CallsOf(codec, response.content)
  {
    StreamedPayload(response, body);
  }

  // ---------------------------------------------------------------- streams without stray fragments

  predicate NothingStrays(body: seq<Event>) {
    body == [] ||
    var (init, last) := (body[..|body| - 1], body[|body| - 1]);
    NothingStrays(init) && (last.JsonDelta? ==> Opened(Starts(init), last.index))
  }

  /** Every fragment belongs to a block that has been opened. */
  predicate WellFormed(body: seq<Event>) {
    OpensOnce(body) && NothingStrays(body)
  }

  /** The calls as the opened blocks alone would spell them. */
  function OwnCalls(body: seq<Event>): (calls: seq<ToolCall>)
    ensures |calls| == |Starts(body)|
    ensures forall k | 0 <= k < |calls| ::
              calls[k] == ToolCall(Starts(body)[k].id, Starts(body)[k].name, Fragments(body, Starts(body)[k].index))
  {
    seq(|Starts(body)|, k requires 0 <= k < |Starts(body)| =>
      ToolCall(Starts(body)[k].id, Starts(body)[k].name, Fragments(body, Starts(body)[k].index)))
  }

  lemma {:induction false} UnopenedHasNoFragments(body: seq<Event>, index: int)
    requires !Opened(Starts(body), index)
    ensures Fragments(body, index) == ""
  {
    if body == [] {
    } else {
      var init := body[..|body| - 1];
      assert forall s <- Starts(init) :: s in Starts(body);
      UnopenedHasNoFragments(init, index);
    }
  }

  lemma {:induction false} PlaceOfStart(body: seq<Event>, k: nat)
    requires OpensOnce(body) && k < |Starts(body)|
    ensures Place(Starts(body), Starts(body)[k].index) == k
  {
    var init, last := body[..|body| - 1], body[|body| - 1];
    var starts := Starts(init);
    if last.ToolStart? {
      assert Starts(body)[..|starts|] == starts;
      if k < |starts| {
        assert starts[k] in starts;
        PlaceOfStart(init, k);
      }
    } else {
      PlaceOfStart(init, k);
    }
  }

  /** A fragment that reaches call 0: the first block's own, or a stray one. */
  datatype Arrival = Arrival(own: bool, partial: string)

  /** The fragments of the block opened first and of blocks not open as tools, in stream order. */
  function Arrivals(body: seq<Event>): seq<Arrival> {
    if body == [] then []
    else
      var (init, last) := (body[..|body| - 1], body[|body| - 1]);
      if !last.JsonDelta? then Arrivals(init)
      else if !Opened(Starts(init), last.index) then Arrivals(init) + [Arrival(false, last.partial)]
      else if Starts(init)[0].index == last.index then Arrivals(init) + [Arrival(true, last.partial)]
      else Arrivals(init)
  }

  function JoinAll(list: seq<Arrival>): string {
    if list == [] then "" else JoinAll(list[..|list| - 1]) + list[|list| - 1].partial
  }

  function JoinOnly(list: seq<Arrival>, own: bool): string {
    if list == [] then ""
    else
      var (init, last) := (JoinOnly(list[..|list| - 1], own), list[|list| - 1]);
      if last.own == own then init + last.partial else init
  }

  /** `whole` is what `own` and `stray` give when interleaved in the order of `list`. */
  ghost predicate Interleaves(whole: string, own: string, stray: string, list: seq<Arrival>) {
    whole == JoinAll(list) && own == JoinOnly(list, true) && stray == JoinOnly(list, false)
  }

  lemma InterleavePush(whole: string, own: string, stray: string, list: seq<Arrival>, a: Arrival)
    requires Interleaves(whole, own, stray, list)
    ensures Interleaves(whole + a.partial, if a.own then own + a.partial else own,
                        if a.own then stray else stray + a.partial, list + [a])
  {
    assert (list + [a])[..|list|] == list;
  }

  lemma {:induction false} InterleavedLengths(whole: string, own: string, stray: string, list: seq<Arrival>)
    requires Interleaves(whole, own, stray, list)
    ensures |whole| == |own| + |stray| && (stray == "" ==> whole == own)
    decreases |list|
  {
    if list == [] {
    } else {
      var init := list[..|list| - 1];
      InterleavedLengths(JoinAll(init), JoinOnly(init, true), JoinOnly(init, false), init);
      assert list[|list| - 1].partial == "" ==> JoinAll(init) + list[|list| - 1].partial == JoinAll(init);
    }
  }

  /** Call `k` takes the fragments of the k-th opened block; call 0 takes every stray one besides, each
      where the stream has it. */
  ghost predicate TakesItsOwn(body: seq<Event>, k: nat)
    requires k < |Starts(body)|
  {
    var own := Fragments(body, Starts(body)[k].index);
    if k > 0 then Routed(body, k) == own else Interleaves(Routed(body, 0), own, Stray(body), Arrivals(body))
  }

  lemma {:induction false} BeforeAnyTool(body: seq<Event>)
    requires Starts(body) == []
    ensures Routed(body, 0) == Stray(body) && Interleaves(Routed(body, 0), "", Stray(body), Arrivals(body))
  {
    if body == [] {
    } else {
      var init, last := body[..|body| - 1], body[|body| - 1];
      BeforeAnyTool(init);
      if last.JsonDelta? {
        InterleavePush(Routed(init, 0), "", Stray(init), Arrivals(init), Arrival(false, last.partial));
      }
    }
  }

  /** Where one more fragment goes. */
  lemma FragmentGoesHome(init: seq<Event>, e: Event, k: nat)
    requires OpensOnce(init) && k < |Starts(init)| && e.JsonDelta?
    ensures var starts := Starts(init);
            && (Opened(starts, e.index) ==> (Place(starts, e.index) == k <==> starts[k].index == e.index))
            && (!Opened(starts, e.index) ==> Place(starts, e.index) == 0 && starts[k].index != e.index)
  {
    PlaceIsFirst(Starts(init), e.index);
    PlaceOfStart(init, k);
    assert Starts(init)[k] in Starts(init);
  }

  /** One more fragment, in a stream that has opened a tool. */
  lemma FragmentArrives(init: seq<Event>, e: Event)
    requires OpensOnce(init) && Starts(init) != [] && e.JsonDelta? && TakesItsOwn(init, 0)
    ensures Starts(init + [e]) == Starts(init) && TakesItsOwn(init + [e], 0)
  {
    assert (init + [e])[..|init|] == init;
    FragmentGoesHome(init, e, 0);
    var own, stray := Fragments(init, Starts(init)[0].index), Stray(init);
    if !Opened(Starts(init), e.index) {
      InterleavePush(Routed(init, 0), own, stray, Arrivals(init), Arrival(false, e.partial));
    } else if Starts(init)[0].index == e.index {
      InterleavePush(Routed(init, 0), own, stray, Arrivals(init), Arrival(true, e.partial));
    }
  }

  lemma {:induction false} CallsTakeTheirOwn(body: seq<Event>, k: nat)
    requires OpensOnce(body) && k < |Starts(body)|
    ensures TakesItsOwn(body, k)
  {
    var init, last := body[..|body| - 1], body[|body| - 1];
    var starts := Starts(init);
    assert body == init + [last];
    if k == |starts| {
      UnopenedHasNoFragments(init, last.index);
      if k == 0 {
        BeforeAnyTool(init);
      } else {
        NothingRouted(init, k);
      }
    } else {
      CallsTakeTheirOwn(init, k);
      assert Starts(body)[k] == starts[k];
      if last.JsonDelta? && k == 0 {
        FragmentArrives(init, last);
      } else if last.JsonDelta? {
        FragmentGoesHome(init, last, k);
      }
    }
  }

  lemma {:induction false} NothingStraysMeansNoStray(body: seq<Event>)
    requires NothingStrays(body)
    ensures Stray(body) == "" && (Starts(body) == [] ==> !HasFragment(body))
  {
    if body == [] {
    } else {
      NothingStraysMeansNoStray(body[..|body| - 1]);
    }
  }

  /** One spelled call against the call of its opened block. */
  lemma CallAgainstOwn(body: seq<Event>, k: nat)
    requires OpensOnce(body) && k < |Starts(body)|
    ensures k > 0 ==> Spelled(body)[k] == OwnCalls(body)[k]
    ensures k == 0 ==> |Spelled(body)[0].arguments| == |OwnCalls(body)[0].arguments| + |Stray(body)|
    ensures k == 0 ==> Interleaves(Spelled(body)[0].arguments, OwnCalls(body)[0].arguments, Stray(body), Arrivals(body))
    ensures k == 0 && Stray(body) == "" ==> Spelled(body)[0] == OwnCalls(body)[0]
  {
    CallsTakeTheirOwn(body, k);
    assert Spelled(body)[k] == CallAt(body, k);
    if k == 0 {
      InterleavedLengths(Routed(body, 0), OwnCalls(body)[0].arguments, Stray(body), Arrivals(body));
    }
  }

  /** With a tool opened, the calls are those of the opened blocks exactly when the stray fragments
      join to nothing; otherwise they stand in call 0 among its own, in stream order, and the others are
      right. */
  lemma StrayFragmentsCorruptCallZero(body: seq<Event>)
    requires OpensOnce(body) && Starts(body) != []
    ensures Spelled(body) == OwnCalls(body) <==> Stray(body) == ""
    ensures Interleaves(Spelled(body)[0].arguments, OwnCalls(body)[0].arguments, Stray(body), Arrivals(body))
    ensures |Spelled(body)[0].arguments| == |OwnCalls(body)[0].arguments| + |Stray(body)|
    ensures forall k | 0 < k < |Starts(body)| :: Spelled(body)[k] == OwnCalls(body)[k]
  {
    var spelled, own := Spelled(body), OwnCalls(body);
    CallAgainstOwn(body, 0);
    forall k | 0 < k < |Starts(body)|
      ensures spelled[k] == own[k]
    {
      CallAgainstOwn(body, k);
    }
    assert Stray(body) == "" ==> spelled == own;
  }

  /** Without any tool opened a tool call appears exactly when there is a fragment, and it holds
      nothing but the stray ones. */
  lemma StrayFragmentInventsACall(response: Response, body: seq<Event>)
    requires OpensOnce(body) && Starts(body) == []
    ensures Payload(Run(Message(response, body)).1).toolCalls == if HasFragment(body) then [ToolCall("", "", Stray(body))] else []
  {
    StreamedPayload(response, body);
    BeforeAnyTool(body);
  }

  /** The body is a cut of these blocks: the texts join to the text of the blocks, the tools are opened
      in block order, and the fragments of each join to its printed input. */
  ghost predicate Cuts(codec: Codec, body: seq<Event>, blocks: seq<Block>) {
    var starts, tools := Starts(body), ToolUses(blocks);
    && Written(body) == TextOf(blocks)
    && |starts| == |tools|
    && forall k | 0 <= k < |tools| ::
         && starts[k].id == tools[k].id && starts[k].name == tools[k].name
         && Fragments(body, starts[k].index) == codec.dumps(tools[k].input)
  }

  lemma {:induction false} CallsOfToolUses(codec: Codec, blocks: seq<Block>)
    ensures var (calls, tools) := (CallsOf(codec, blocks), ToolUses(blocks));
            && |calls| == |tools|
            && forall k | 0 <= k < |tools| :: calls[k] == CallOf(codec, tools[k])
  {
    if blocks == [] {
    } else {
      CallsOfToolUses(codec, blocks[..|blocks| - 1]);
    }
  }

  lemma CutsSpells(codec: Codec, body: seq<Event>, blocks: seq<Block>)
    ensures Cuts(codec, body, blocks) <==> Written(body) == TextOf(blocks) && OwnCalls(body) == CallsOf(codec, blocks)
  {
    CallsOfToolUses(codec, blocks);
    var calls, tools := CallsOf(codec, blocks), ToolUses(blocks);
    if OwnCalls(body) == calls {
      assert forall k | 0 <= k < |tools| :: OwnCalls(body)[k] == CallOf(codec, tools[k]);
    }
    if Cuts(codec, body, blocks) {
      assert forall k | 0 <= k < |tools| :: OwnCalls(body)[k] == calls[k];
    }
  }

  lemma WellFormedSpellsItsOwn(body: seq<Event>)
    requires WellFormed(body)
    ensures Spelled(body) == OwnCalls(body)
  {
    NothingStraysMeansNoStray(body);
    if Starts(body) != [] {
      StrayFragmentsCorruptCallZero(body);
    }
  }

  /** Stream equals one-shot: whatever the interleaving, the streamed message has the id, content, tool
      calls, finish reason and token counts of the one-shot translation exactly when its body is a cut
      of the same blocks. */
  lemma StreamEqualsOneShot(codec: Codec, response: Response, body: seq<Event>)
    requires WellFormed(body)
    ensures Payload(Run(Message(response, body)).1) == Normalize(codec, response) <==> Cuts(codec, body, response.content)
  {
    StreamEqualsWhatItSpells(codec, response, body);
    WellFormedSpellsItsOwn(body);
    CutsSpells(codec, body, response.content);
  }

  lemma ClosedBill(a: Account, response: Response, body: seq<Event>, estimate: int, limit: int)
    requires Closed(a, response, body)
    ensures var bill := Bill(a, estimate, limit);
            && (bill.estimated <==> response.input.None? || response.output.None?)
            && bill.total == bill.prompt + bill.completion
            && bill.prompt == (if response.input.Some? then response.input.value else AtLeastOne(estimate - limit))
            && bill.completion == (if response.output.Some? then response.output.value
                                   else TokensFor(|Written(body)| + |Pondered(body)|))
  {
  }

  /** The reported usage of a complete stream: the counts of the one-shot translation exactly when both
      are known. A missing prompt count is estimated from the text of the request alone, a missing
      completion count from the text and thinking that were streamed. */
  lemma BilledCounts(response: Response, body: seq<Event>, messages: seq<Anthropic.Message>, limit: nat)
    requires OpensOnce(body)
    ensures var estimate := AtLeastOne(TokensFor(TextSizes(messages)) + limit);
            var bill := Bill(Run(Message(response, body)).1, estimate, limit);
            && (bill.estimated <==> response.input.None? || response.output.None?)
            && bill.total == bill.prompt + bill.completion
            && bill.prompt == (if response.input.Some? then response.input.value else AtLeastOne(TokensFor(TextSizes(messages))))
            && bill.completion == (if response.output.Some? then response.output.value
                                   else TokensFor(|Written(body)| + |Pondered(body)|))
  {
    MessageCloses(response, body);
    ClosedBill(Run(Message(response, body)).1, response, body, AtLeastOne(TokensFor(TextSizes(messages)) + limit), limit);
  }
}
