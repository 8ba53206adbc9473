/** What the stream accumulator has kept of any chunks, in whatever order a provider sends them. */
module AccumulatorLaws {
  import opened Common
  import opened Text
  import opened Anthropic
  import opened Streaming

  function EventsOf(lines: seq<Line>): seq<Chunk> {
    if lines == [] then []
    else
      var (init, last) := (EventsOf(lines[..|lines| - 1]), lines[|lines| - 1]);
      if last.Data? then init + [last.event] else init
  }

  function AbsorbAll(a: Account, events: seq<Chunk>): Account {
    if events == [] then a else Absorb(AbsorbAll(a, events[..|events| - 1]), events[|events| - 1])
  }

  lemma AbsorbPush(a: Account, init: seq<Chunk>, last: Chunk)
    ensures AbsorbAll(a, init + [last]) == Absorb(AbsorbAll(a, init), last)
  {
    assert (init + [last])[..|init|] == init;
  }

  /** Only the data lines matter. */
  lemma {:induction false} LinesAreEvents(a: Account, lines: seq<Line>)
    ensures AbsorbLines(a, lines) == AbsorbAll(a, EventsOf(lines))
    decreases |lines|
  {
    if lines == [] {
    } else {
      var init, last := lines[..|lines| - 1], lines[|lines| - 1];
      LinesAreEvents(a, init);
      if last.Data? {
        AbsorbPush(a, EventsOf(init), last.event);
      }
    }
  }

  // ---------------------------------------------------------------- the last report counts

  function Reports<T>(events: seq<Chunk>, field: Chunk -> Option<T>): seq<Option<T>> {
    seq(|events|, i requires 0 <= i < |events| => field(events[i]))
  }

  /** What was reported last, or what was there before if nothing was. */
  ghost predicate LastReported<T(!new)>(before: Option<T>, reports: seq<Option<T>>, after: Option<T>) {
    || (after == before && forall i | 0 <= i < |reports| :: reports[i].None?)
    || (exists i :: 0 <= i < |reports| && reports[i].Some? && after == reports[i] && forall j | i < j < |reports| :: reports[j].None?)
  }

  lemma LastReportedPush<T(!new)>(before: Option<T>, reports: seq<Option<T>>, after: Option<T>, last: Option<T>)
    requires LastReported(before, reports, after)
    ensures LastReported(before, reports + [last], if last.Some? then last else after)
  {
    var all := reports + [last];
    if last.Some? {
      assert all[|reports|].Some?;
    } else if i :| 0 <= i < |reports| && reports[i].Some? && after == reports[i] && forall j | i < j < |reports| :: reports[j].None? {
      assert all[i].Some? && forall j | i < j < |all| :: all[j].None?;
    }
  }

  lemma OneMoreReport<T(!new)>(init: seq<Chunk>, last: Chunk, field: Chunk -> Option<T>, before: Option<T>, after: Option<T>)
    requires LastReported(before, Reports(init, field), after)
    ensures LastReported(before, Reports(init + [last], field), if field(last).Some? then field(last) else after)
  {
    assert Reports(init + [last], field) == Reports(init, field) + [field(last)];
    LastReportedPush(before, Reports(init, field), after, field(last));
  }

  /** A non-empty string counts as reported. */
  function Named(text: string): Option<string> {
    if text == "" then None else Some(text)
  }

  ghost predicate KeepsLast(a: Account, events: seq<Chunk>, n: Account) {
    && LastReported(Named(a.id), Reports(events, (c: Chunk) => Named(c.id)), Named(n.id))
    && LastReported(a.finish, Reports(events, (c: Chunk) => c.finish), n.finish)
    && LastReported(a.error, Reports(events, (c: Chunk) => c.error), n.error)
    && LastReported(a.usage.prompt, Reports(events, (c: Chunk) => c.usage.prompt), n.usage.prompt)
    && LastReported(a.usage.completion, Reports(events, (c: Chunk) => c.usage.completion), n.usage.completion)
    && LastReported(a.usage.total, Reports(events, (c: Chunk) => c.usage.total), n.usage.total)
  }

  lemma KeepsLastPush(a: Account, init: seq<Chunk>, n: Account, last: Chunk)
    requires KeepsLast(a, init, n)
    ensures KeepsLast(a, init + [last], Absorb(n, last))
  {
    OneMoreReport(init, last, (c: Chunk) => Named(c.id), Named(a.id), Named(n.id));
    OneMoreReport(init, last, (c: Chunk) => c.finish, a.finish, n.finish);
    OneMoreReport(init, last, (c: Chunk) => c.error, a.error, n.error);
    OneMoreReport(init, last, (c: Chunk) => c.usage.prompt, a.usage.prompt, n.usage.prompt);
    OneMoreReport(init, last, (c: Chunk) => c.usage.completion, a.usage.completion, n.usage.completion);
    OneMoreReport(init, last, (c: Chunk) => c.usage.total, a.usage.total, n.usage.total);
  }

  // ---------------------------------------------------------------- text is joined

  function Texts(events: seq<Chunk>, field: Chunk -> string): string {
    if events == [] then "" else Texts(events[..|events| - 1], field) + field(events[|events| - 1])
  }

  /** A provider's reasoning text, under whichever of its two names it is sent. */
  function Reasoning(c: Chunk): string {
    if c.delta.reasoningContent == "" then c.delta.reasoning else c.delta.reasoningContent
  }

  function Content(c: Chunk): string {
    c.delta.content
  }

  ghost predicate JoinsText(a: Account, events: seq<Chunk>, n: Account) {
    && Concat(n.content) == Concat(a.content) + Texts(events, Content)
    && Concat(n.reasoning) == Concat(a.reasoning) + Texts(events, Reasoning)
  }

  lemma TextsPush(init: seq<Chunk>, last: Chunk, field: Chunk -> string)
    ensures Texts(init + [last], field) == Texts(init, field) + field(last)
  {
    assert (init + [last])[..|init|] == init;
  }

  lemma PushIsJoined(parts: seq<string>, text: string)
    ensures Concat(Push(parts, text)) == Concat(parts) + text
  {
    ConcatPush(parts, text);
    assert Concat(parts) + "" == Concat(parts);
  }

  lemma OneMoreText(base: string, parts: seq<string>, init: seq<Chunk>, last: Chunk, field: Chunk -> string)
    requires Concat(parts) == base + Texts(init, field)
    ensures Concat(Push(parts, field(last))) == base + Texts(init + [last], field)
  {
    TextsPush(init, last, field);
    PushIsJoined(parts, field(last));
    assert base + Texts(init, field) + field(last) == base + (Texts(init, field) + field(last));
  }

  lemma JoinsTextPush(a: Account, init: seq<Chunk>, n: Account, last: Chunk)
    requires JoinsText(a, init, n)
    ensures JoinsText(a, init + [last], Absorb(n, last))
  {
    OneMoreText(Concat(a.content), n.content, init, last, Content);
    OneMoreText(Concat(a.reasoning), n.reasoning, init, last, Reasoning);
  }

  // ---------------------------------------------------------------- tool calls are pieced together

  function PiecesOf(events: seq<Chunk>): seq<Piece> {
    if events == [] then [] else PiecesOf(events[..|events| - 1]) + events[|events| - 1].delta.calls
  }

  /** The pieces of one call, in the order they came. */
  function Own(pieces: seq<Piece>, index: int): seq<Piece> {
    if pieces == [] then []
    else
      var (init, last) := (Own(pieces[..|pieces| - 1], index), pieces[|pieces| - 1]);
      if last.index == index then init + [last] else init
  }

  function Strings(pieces: seq<Piece>, field: Piece -> string): string {
    if pieces == [] then "" else Strings(pieces[..|pieces| - 1], field) + field(pieces[|pieces| - 1])
  }

  /** The last id that is not empty. */
  function LastId(pieces: seq<Piece>): string {
    if pieces == [] then ""
    else if pieces[|pieces| - 1].id != "" then pieces[|pieces| - 1].id
    else LastId(pieces[..|pieces| - 1])
  }

  /** From no calls: a call for every index, with the last id, and names and arguments joined in order. */
  ghost predicate Pieced(calls: map<int, ToolCall>, pieces: seq<Piece>) {
    && (forall index :: index in calls <==> exists p <- pieces :: p.index == index)
    && (forall index <- calls ::
          calls[index] == ToolCall(LastId(Own(pieces, index)), Strings(Own(pieces, index), (p: Piece) => p.name),
                                   Strings(Own(pieces, index), (p: Piece) => p.arguments)))
  }

  lemma {:induction false} NoOwn(pieces: seq<Piece>, index: int)
    requires forall p <- pieces :: p.index != index
    ensures Own(pieces, index) == []
  {
    if pieces == [] {
    } else {
      assert forall p <- pieces[..|pieces| - 1] :: p in pieces;
      NoOwn(pieces[..|pieces| - 1], index);
    }
  }

  lemma OwnPush(init: seq<Piece>, last: Piece, index: int)
    ensures Own(init + [last], index) == if last.index == index then Own(init, index) + [last] else Own(init, index)
  {
    assert (init + [last])[..|init|] == init;
  }

  lemma StringsPush(init: seq<Piece>, last: Piece)
    ensures LastId(init + [last]) == if last.id != "" then last.id else LastId(init)
    ensures forall field: Piece -> string :: Strings(init + [last], field) == Strings(init, field) + field(last)
  {
    assert (init + [last])[..|init|] == init;
  }

  lemma PiecedPush(calls: map<int, ToolCall>, init: seq<Piece>, last: Piece)
    requires Pieced(calls, init)
    ensures Pieced(AddPiece(calls, last), init + [last])
  {
    var all, n := init + [last], AddPiece(calls, last);
    forall index
      ensures index in n <==> exists p <- all :: p.index == index
    {
      assert last in all && forall p <- init :: p in all;
    }
    StringsPush(Own(init, last.index), last);
    if last.index !in calls {
      NoOwn(init, last.index);
    }
    forall index | index in n
      ensures n[index] == ToolCall(LastId(Own(all, index)), Strings(Own(all, index), (p: Piece) => p.name),
                                   Strings(Own(all, index), (p: Piece) => p.arguments))
    {
      OwnPush(init, last, index);
    }
  }

  lemma {:induction false} AddPiecesPieces(calls: map<int, ToolCall>, before: seq<Piece>, pieces: seq<Piece>)
    requires Pieced(calls, before)
    ensures Pieced(AddPieces(calls, pieces), before + pieces)
    decreases |pieces|
  {
    if pieces == [] {
      assert before + pieces == before;
    } else {
      var init, last := pieces[..|pieces| - 1], pieces[|pieces| - 1];
      AddPiecesPieces(calls, before, init);
      PiecedPush(AddPieces(calls, init), before + init, last);
      assert (before + init) + [last] == before + pieces;
    }
  }

  // ---------------------------------------------------------------- all of it

  /** Whatever chunks a provider sends: the accumulator keeps the last report of each kind, joins text and
      reasoning in order, and puts every tool call together from its own pieces. */
  lemma {:induction false} AccumulatorKeeps(events: seq<Chunk>)
    ensures var n := AbsorbAll(EMPTY, events);
            KeepsLast(EMPTY, events, n) && JoinsText(EMPTY, events, n) && Pieced(n.calls, PiecesOf(events))
  {
    if events == [] {
      assert Concat([]) == "";
    } else {
      var init, last := events[..|events| - 1], events[|events| - 1];
      assert events == init + [last];
      AccumulatorKeeps(init);
      var n := AbsorbAll(EMPTY, init);
      KeepsLastPush(EMPTY, init, n, last);
      JoinsTextPush(EMPTY, init, n, last);
      AddPiecesPieces(n.calls, PiecesOf(init), last.delta.calls);
    }
  }

  // ---------------------------------------------------------------- what the client receives

  /** A client that puts the forwarded chunks together gets what the gateway has recorded. */
  lemma {:induction false} ClientSeesTheSame(events: seq<Event>)
    ensures AbsorbAll(EMPTY, Chunks(events)) == Run(events).1
  {
    if events == [] {
    } else {
      var init := events[..|events| - 1];
      var chunk := Emit(Run(init).0, events[|events| - 1]);
      ClientSeesTheSame(init);
      if chunk.Some? {
        AbsorbPush(EMPTY, Chunks(init), chunk.value);
      }
    }
  }

  function ErrorsOf(events: seq<Event>): seq<Option<string>> {
    seq(|events|, i requires 0 <= i < |events| => if events[i].ErrorEvent? then Some(events[i].error) else None)
  }

  lemma EventSetsError(c: Cursor, a: Account, e: Event)
    ensures Receive(a, Emit(c, e)).error == if e.ErrorEvent? then Some(e.error) else a.error
  {
  }

  lemma ErrorsPush(init: seq<Event>, last: Event)
    ensures ErrorsOf(init + [last]) == ErrorsOf(init) + [if last.ErrorEvent? then Some(last.error) else None]
  {
  }

  /** The last error that the provider reports inside a stream is recorded. */
  lemma {:induction false} ErrorsAreRecorded(events: seq<Event>)
    ensures LastReported(None, ErrorsOf(events), Run(events).1.error)
  {
    if events == [] {
    } else {
      var init, last := events[..|events| - 1], events[|events| - 1];
      assert events == init + [last];
      ErrorsAreRecorded(init);
      EventSetsError(Run(init).0, Run(init).1, last);
      ErrorsPush(init, last);
      LastReportedPush(None, ErrorsOf(init), Run(init).1.error, if last.ErrorEvent? then Some(last.error) else None);
    }
  }
}
