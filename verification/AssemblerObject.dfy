/**
 The assembler as the object it is in anthropic_compat.py: its methods update fields in place.
 Each method is proved to do what the function of module `Assembler` says, and `Valid` carries
 the invariant of module `AssemblerLaws` along with the ghost trace of everything sent.
 */
module AssemblerObject {
  import opened Texts
  import opened Keys
  import opened Events
  import opened ToolArgs
  import opened Assembler
  import Laws = AssemblerLaws

  class AnthropicStreamAssembler {
    const cfg: Config

    var nextIndex: nat
    var textIndex: Option<nat>
    var thinkingIndex: Option<nat>
    var tools: map<int, Slot>
    var started: bool
    var sawTool: bool
    var toolsPending: bool
    var held: seq<Held>
    var toolsStarted: nat

    /** Every event sent, the pieces fed, and the blocks behind the events. */
    ghost var trace: seq<Event>
    ghost var fed: seq<Fragment>
    ghost var hist: Laws.Hist

    function Now(): State
      reads this
    {
      State(nextIndex, textIndex, thinkingIndex, tools, started, sawTool, toolsPending, held, toolsStarted)
    }

    ghost predicate Valid()
      reads this
    {
      Laws.Valid(cfg, Now(), hist, trace, fed)
    }

    constructor (cfg: Config)
      ensures this.cfg == cfg && Now() == FRESH && Valid()
      ensures trace == [] && fed == []
    {
      this.cfg := cfg;
      nextIndex, textIndex, thinkingIndex := 0, None, None;
      tools, started, sawTool, toolsPending, held, toolsStarted := map[], false, false, false, [], 0;
      trace, fed, hist := [], [], Laws.Hist([], None, map[]);
      new;
      Laws.FreshIsValid(cfg);
    }

    method CloseText() returns (events: seq<Event>)
      modifies this`textIndex
      ensures Step(Now(), events) == TextClosed(old(Now()))
    {
      events := [];
      if textIndex.Some? {
        events := [BlockStop(textIndex.value)];
        textIndex := None;
      }
    }

    method CloseThinking() returns (events: seq<Event>)
      modifies this`thinkingIndex
      ensures Step(Now(), events) == ThinkingClosed(old(Now()))
    {
      events := [];
      if thinkingIndex.Some? {
        events := [BlockStop(thinkingIndex.value)];
        thinkingIndex := None;
      }
    }

    /** `_flush_tool_args`. */
    method FlushToolArgs(oi: int, closing: bool) returns (events: seq<Event>)
      requires oi in tools
      modifies this`tools
      ensures var s, u := old(tools)[oi], Unsent(old(tools)[oi], closing);
        && tools == old(tools)[oi := s.(sent := s.sent + u)]
        && events == (if u == [] then [] else [Delta(IndexOf(s), InputJsonDelta, u)])
    {
      hide Complete;
      events := [];
      var s := tools[oi];
      assert s.sent + [] == s.sent;
      assert tools[oi := s] == tools;
      if !s.started || s.args == [] { return; }
      if s.sent != [] && !(s.sent <= s.args) { return; }
      var remaining := s.args[|s.sent|..];
      if remaining == [] { return; }
      if !Complete(s.args, s.name) && !closing { return; }
      events := [Delta(IndexOf(s), InputJsonDelta, remaining)];
      tools := tools[oi := s.(sent := s.sent + remaining)];
    }

    /** The body of the loop of `_close_tools`. */
    method CloseTool(oi: int) returns (events: seq<Event>)
      requires oi in tools
      modifies this`tools
      ensures Step(Now(), events) == ToolClosed(old(Now()), oi)
    {
      hide Unsent, Strip, ClosingEvents, ClosingDeltas, ClosedSlot;
      ghost var s0 := tools[oi];
      events := FlushToolArgs(oi, true);
      var s := tools[oi];
      ClosingEventsAre(IndexOf(s0), s0);
      ClosedSlotIs(s0);
      if Strip(s.sent) == [] {
        events := events + [Delta(IndexOf(s), InputJsonDelta, EMPTY_OBJECT)];
        s := s.(args := if s.args != [] then s.args else EMPTY_OBJECT, sent := EMPTY_OBJECT);
      }
      events := events + [BlockStop(IndexOf(s))];
      tools := tools[oi := s.(stopped := true)];
      assert tools == old(tools)[oi := ClosedSlot(s0)];
    }

    /** `_close_tools`. */
    method CloseTools() returns (events: seq<Event>)
      modifies this`tools
      ensures Step(Now(), events) == AllToolsClosed(old(Now()))
    {
      hide ToolClosed, SortedKeys;
      events := [];
      ghost var was := Now();
      var keys := SortedKeys(tools.Keys);
      var k := 0;
      while k < |keys|
        invariant 0 <= k <= |keys|
        invariant After(events, ToolsClosed(Now(), keys[k..])) == ToolsClosed(was, keys)
      {
        var oi := keys[k];
        ghost var rest := keys[k + 1..];
        assert keys[k..][0] == oi && keys[k..][1..] == rest;
        ghost var sent := events;
        if oi in tools && IsOpen(tools[oi]) {
          var es := CloseTool(oi);
          events := events + es;
          AfterTwice(sent, es, ToolsClosed(Now(), rest));
        } else {
          AfterNone(ToolsClosed(Now(), rest));
        }
        k := k + 1;
      }
      assert keys[k..] == [] && events + [] == events;
    }

    /** `_emit_text_and_thinking`. */
    method EmitTextAndThinking(content: Text, reasoning: Text) returns (events: seq<Event>)
      modifies this`tools, this`textIndex, this`thinkingIndex, this`nextIndex
      ensures Step(Now(), events) == ProseSent(old(Now()), content, reasoning)
    {
      hide TextSent, ThinkingSent;
      events := [];
      if reasoning != [] {
        events := EmitThinking(reasoning);
      }
      if content != [] {
        var es := EmitText(content);
        events := events + es;
      }
    }

    method EmitThinking(reasoning: Text) returns (events: seq<Event>)
      modifies this`tools, this`textIndex, this`thinkingIndex, this`nextIndex
      ensures Step(Now(), events) == ThinkingSent(old(Now()), reasoning)
    {
      hide AllToolsClosed;
      events := CloseTools();
      if thinkingIndex == None {
        var stop := CloseText();
        thinkingIndex := Some(nextIndex);
        nextIndex := nextIndex + 1;
        events := events + stop + [BlockStart(thinkingIndex.value, ThinkingBlock)];
      }
      events := events + [Delta(thinkingIndex.value, ThinkingDelta, reasoning)];
    }

    method EmitText(content: Text) returns (events: seq<Event>)
      modifies this`tools, this`textIndex, this`thinkingIndex, this`nextIndex
      ensures Step(Now(), events) == TextSent(old(Now()), content)
    {
      hide AllToolsClosed;
      events := CloseTools();
      var stop := CloseThinking();
      events := events + stop;
      if textIndex == None {
        textIndex := Some(nextIndex);
        nextIndex := nextIndex + 1;
        events := events + [BlockStart(textIndex.value, TextBlock)];
      }
      events := events + [Delta(textIndex.value, TextDelta, content)];
    }

    /** `start`. */
    method Start() returns (events: seq<Event>)
      requires Valid() && !started
      modifies this
      ensures Valid() && Step(Now(), events) == Started(old(Now()))
      ensures trace == old(trace) + events && fed == old(fed)
    {
      Laws.StartedKeeps(cfg, Now(), hist, trace, fed);
      started := true;
      events := [MessageStart];
      trace := trace + events;
    }

    /** Reserve a block index for slot `oi` and open its block. */
    method OpenTool(oi: int, name: Text) returns (events: seq<Event>)
      requires oi in tools
      modifies this`tools, this`nextIndex, this`toolsStarted, this`sawTool, this`held
      ensures Step(Now(), events) == ToolStarted(old(Now()), oi, name)
    {
      var s := tools[oi].(started := true, blockIndex := Some(nextIndex));
      tools := tools[oi := s];
      nextIndex := nextIndex + 1;
      toolsStarted := toolsStarted + 1;
      sawTool := true;
      held := [];
      events := [BlockStart(IndexOf(s), ToolUse(s.id, name))];
    }

    /** The ingestion loop of `feed`. */
    method IngestCalls(calls: seq<ToolDelta>)
      modifies this`tools
      ensures tools == Ingest(old(tools), calls)
    {
      hide Absorb, NewSlot;
      var k := 0;
      while k < |calls|
        invariant 0 <= k <= |calls|
        invariant tools == Ingest(old(tools), calls[..k])
      {
        var d := calls[k];
        assert calls[..k + 1][..k] == calls[..k];
        if d.ToolDelta? {
          if d.index !in tools {
            tools := tools[d.index := NewSlot(d)];
          }
          tools := tools[d.index := Absorb(tools[d.index], d)];
        }
        k := k + 1;
      }
      assert calls[..k] == calls;
    }

    /** One slot of the loop of `feed`, past its breaks. */
    method FeedTool(oi: int) returns (events: seq<Event>)
      requires oi in tools
      modifies this`tools, this`nextIndex, this`toolsStarted, this`sawTool, this`held
      ensures Step(Now(), events) == ToolFed(old(Now()), oi)
      ensures tools.Keys == old(tools).Keys
    {
      hide Complete, Unsent;
      events := [];
      if !tools[oi].started && Ready(tools[oi]) {
        events := OpenTool(oi, tools[oi].name);
      }
      if IsOpen(tools[oi]) {
        ghost var mid := Now();
        assert tools[oi].(sent := tools[oi].sent + []) == tools[oi] by { assert tools[oi].sent + [] == tools[oi].sent; }
        assert tools[oi := tools[oi]] == tools;
        var es := FlushToolArgs(oi, false);
        events := events + es;
        assert Step(Now(), es) == ToolFlushed(mid, oi);
        var s := tools[oi];
        if s.sent != [] && s.args != [] && s.sent == s.args && Complete(s.args, s.name) {
          events := events + [BlockStop(IndexOf(s))];
          tools := tools[oi := s.(stopped := true)];
        }
      }
    }

    /** The second loop of `feed`. */
    method FeedTools() returns (events: seq<Event>)
      modifies this`tools, this`nextIndex, this`toolsStarted, this`sawTool, this`held
      ensures Step(Now(), events) == ToolsFed(cfg, old(Now()), SortedKeys(old(tools).Keys))
    {
      hide ToolFed, SortedKeys, FeedBreaks;
      events := [];
      ghost var was := Now();
      var keys := SortedKeys(tools.Keys);
      var k := 0;
      while k < |keys|
        invariant 0 <= k <= |keys|
        invariant tools.Keys == old(tools).Keys
        invariant After(events, ToolsFed(cfg, Now(), keys[k..])) == ToolsFed(cfg, was, keys)
      {
        var oi := keys[k];
        ghost var rest := keys[k + 1..];
        assert keys[k..][0] == oi && keys[k..][1..] == rest;
        if !tools[oi].stopped {
          if !tools[oi].started && FeedBreaks(cfg, Now(), oi) {
            assert events + [] == events;
            break;
          }
          ghost var sent := events;
          var es := FeedTool(oi);
          events := events + es;
          AfterTwice(sent, es, ToolsFed(cfg, Now(), rest));
        }
        k := k + 1;
      }
      assert k == |keys| ==> keys[k..] == [];
      assert events + [] == events;
    }

    /** `feed`. */
    method Feed(c: Chunk) returns (events: seq<Event>)
      requires Valid()
      modifies this
      ensures Valid() && Step(Now(), events) == Fed(cfg, old(Now()), c)
      ensures trace == old(trace) + events && fed == old(fed) + PiecesOf(c.content, c.reasoning)
      ensures old(hist).done <= hist.done && Laws.CallsDone(cfg, old(Now()), old(hist), Now(), hist, c.toolCalls)
    {
      hide ProseSent, ToolsFed, Ingest, Laws.CallsDone, Laws.Valid, SortedKeys, PiecesOf;
      ghost var was := Now();
      ghost var h := Laws.FedKeeps(cfg, was, hist, trace, fed, c);
      events := [];
      if !started {
        started := true;
        events := [MessageStart];
      }
      assert Step(Now(), events) == Started(was);
      var es := FeedProse(c);
      events := events + es;
      es := FeedCalls(c.toolCalls);
      events := events + es;
      hist := h;
      trace := trace + events;
      fed := fed + PiecesOf(c.content, c.reasoning);
    }

    /** Hold, drop or send the text and reasoning of one chunk. */
    method FeedProse(c: Chunk) returns (events: seq<Event>)
      modifies this`tools, this`textIndex, this`thinkingIndex, this`nextIndex, this`held
      ensures Step(Now(), events) == ProseFed(cfg, old(Now()), c)
    {
      hide ProseSent;
      events := [];
      if cfg.toolsRequested && !sawTool {
        if c.content != [] || c.reasoning != [] {
          held := held + [Held(c.content, c.reasoning)];
        }
      } else if !cfg.toolsRequested {
        events := EmitTextAndThinking(c.content, c.reasoning);
      }
    }

    method FeedCalls(calls: seq<ToolDelta>) returns (events: seq<Event>)
      modifies this`tools, this`textIndex, this`thinkingIndex, this`nextIndex, this`toolsStarted, this`sawTool
      modifies this`held, this`toolsPending
      ensures Step(Now(), events) == CallsFed(cfg, old(Now()), calls)
    {
      hide ToolsFed, Ingest, SortedKeys;
      events := [];
      if calls != [] {
        toolsPending := true;
        events := CloseThinking();
        var es := CloseText();
        events := events + es;
        IngestCalls(calls);
        es := FeedTools();
        events := events + es;
      }
    }

    /** Send the held preface, unless tools have won. */
    method FinishPreface() returns (events: seq<Event>)
      modifies this`tools, this`textIndex, this`thinkingIndex, this`nextIndex, this`held
      ensures Step(Now(), events) == PrefaceFinished(old(Now()))
    {
      hide ProseSent, HasReadyTool;
      events := [];
      if sawTool || HasReadyTool(tools) {
        held := [];
      } else {
        var k := 0;
        ghost var was := Now();
        while k < |held|
          invariant 0 <= k <= |held|
          invariant held == was.held && toolsPending == was.toolsPending && started == was.started
          invariant After(events, HeldSent(Now(), held[k..])) == HeldSent(was, held)
        {
          ghost var rest := held[k + 1..];
          assert held[k..][0] == held[k] && held[k..][1..] == rest;
          ghost var sent := events;
          var es := EmitTextAndThinking(held[k].content, held[k].reasoning);
          events := events + es;
          AfterTwice(sent, es, HeldSent(Now(), rest));
          k := k + 1;
        }
        assert held[k..] == [] && events + [] == events;
        held := [];
      }
    }

    /** The tool loop of `finish`. */
    method FinishTools() returns (events: seq<Event>)
      modifies this`tools, this`nextIndex, this`toolsStarted, this`sawTool, this`held
      ensures Step(Now(), events) == ToolsFinished(cfg, old(Now()), SortedKeys(old(tools).Keys))
    {
      hide ToolFinished, SortedKeys, FinishSkips;
      events := [];
      ghost var was := Now();
      var keys := SortedKeys(tools.Keys);
      var k := 0;
      while k < |keys|
        invariant 0 <= k <= |keys|
        invariant tools.Keys == old(tools).Keys
        invariant After(events, ToolsFinished(cfg, Now(), keys[k..])) == ToolsFinished(cfg, was, keys)
      {
        var oi := keys[k];
        ghost var rest := keys[k + 1..];
        assert keys[k..][0] == oi && keys[k..][1..] == rest;
        if !FinishSkips(cfg, Now(), oi) {
          ghost var sent := events;
          var es := FinishTool(oi);
          events := events + es;
          AfterTwice(sent, es, ToolsFinished(cfg, Now(), rest));
        }
        k := k + 1;
      }
      assert keys[k..] == [] && events + [] == events;
    }

    /** Open slot `oi` if it never was, then close it. */
    method FinishTool(oi: int) returns (events: seq<Event>)
      requires oi in tools
      modifies this`tools, this`nextIndex, this`toolsStarted, this`sawTool, this`held
      ensures Step(Now(), events) == ToolFinished(old(Now()), oi)
      ensures tools.Keys == old(tools).Keys
    {
      hide AllToolsClosed, Strip;
      ClosedKeys(Now());
      events := [];
      var name := Strip(tools[oi].name);
      if !tools[oi].started {
        events := CloseTools();
        var es := OpenTool(oi, if name != [] then name else TOOL);
        events := events + es;
      }
      ClosedKeys(Now());
      var es := CloseTools();
      events := events + es;
    }

    /** `finish`. */
    method Finish(finish: Option<Text>) returns (events: seq<Event>)
      requires Valid()
      modifies this
      ensures Step(Now(), events) == Finished(cfg, old(Now()), finish)
      ensures trace == old(trace) + events && fed == old(fed)
      ensures exists stop :: Laws.Delivery(cfg, old(Now()), fed, old(hist), Now(), hist, trace, stop, finish)
    {
      hide PrefaceFinished, ToolsFinished, SortedKeys, AllToolsClosed, Laws.Delivery, Laws.Valid,
        FinishReason, StopReason;
      ghost var was := Now();
      ghost var h, stop := Laws.FinishedKeeps(cfg, was, hist, trace, fed, finish);
      events := [];
      if !started {
        started := true;
        events := [MessageStart];
      }
      assert Step(Now(), events) == Started(was);
      var es := FinishPreface();
      events := events + es;
      es := CloseThinking();
      var es' := CloseText();
      events := events + (es + es');
      es := FinishTools();
      events := events + es;
      es := CloseTools();
      events := events + es;
      var reason := FinishReason(Now(), finish);
      events := events + [MessageDelta(StopReason(reason, sawTool)), MessageStop];
      hist := h;
      trace := trace + events;
      assert Laws.Delivery(cfg, was, fed, old(hist), Now(), hist, trace, stop, finish);
    }
  }

  lemma AfterTwice(a: seq<Event>, b: seq<Event>, s: Step)
    ensures After(a + b, s) == After(a, After(b, s))
  {
    assert a + b + s.events == a + (b + s.events);
  }

  lemma AfterNone(s: Step)
    ensures After([], s) == s
  {
    assert [] + s.events == s.events;
  }

  lemma ClosedSlotIs(s: Slot)
    ensures var u := Unsent(s, true);
      ClosedSlot(s) ==
        if Strip(s.sent + u) == [] then
          s.(args := if s.args == [] then EMPTY_OBJECT else s.args, sent := EMPTY_OBJECT, stopped := true)
        else s.(sent := s.sent + u, stopped := true)
  {
    hide Unsent, Strip;
  }

  lemma ClosingEventsAre(i: nat, s: Slot)
    ensures var u := Unsent(s, true);
      ClosingEvents(i, ClosingDeltas(s))
      == (if u == [] then [] else [Delta(i, InputJsonDelta, u)])
         + (if Strip(s.sent + u) == [] then [Delta(i, InputJsonDelta, EMPTY_OBJECT)] else []) + [BlockStop(i)]
  {
    hide Unsent, Strip;
    var u := Unsent(s, true);
    OneDelta(i, InputJsonDelta, u);
    OneDelta(i, InputJsonDelta, EMPTY_OBJECT);
    assert [u, EMPTY_OBJECT][..1] == [u];
    assert [u] + [EMPTY_OBJECT] == [u, EMPTY_OBJECT];
    assert [] + [EMPTY_OBJECT] == [EMPTY_OBJECT] && [u] + [] == [u];
  }

  lemma {:induction false} ToolsClosedKeys(st: State, keys: seq<int>)
    ensures ToolsClosed(st, keys).st.tools.Keys == st.tools.Keys
    decreases |keys|
  {
    hide ClosedSlot, ClosingEvents, ClosingDeltas;
    if keys != [] {
      var a := if keys[0] in st.tools && IsOpen(st.tools[keys[0]]) then ToolClosed(st, keys[0]) else Step(st, []);
      ToolsClosedKeys(a.st, keys[1..]);
    }
  }

  lemma ClosedKeys(st: State)
    ensures AllToolsClosed(st).st.tools.Keys == st.tools.Keys
  {
    ToolsClosedKeys(st, SortedKeys(st.tools.Keys));
  }

  /**
   A whole stream through one object.  `explicitStart` says whether `start` is called first.
   The result is the message of `Run`, on which a client closes cleanly.
   */
  method Stream(cfg: Config, explicitStart: bool, chunks: seq<Chunk>, finish: Option<Text>) returns (events: seq<Event>)
    ensures events == Run(cfg, explicitStart, chunks, finish)
    ensures ReactAll(Idle, events) == Closed
    ensures cfg.maxTools > 0 ==> ToolStarts(events) <= cfg.maxTools
    ensures Spoken(events) == AllPieces(chunks)
            || (cfg.toolsRequested && Spoken(events) == [] && ToolStarts(events) > 0)
  {
    hide AllFed, Fed, Finished, Started, Laws.CallsDone, Laws.Delivery, Spoken, ToolStarts, Laws.Valid,
      ReactAll, AllPieces;
    ghost var bs, stop, slotOf := Laws.RunIsOneMessage(cfg, explicitStart, chunks, finish);
    var a := new AnthropicStreamAssembler(cfg);
    events := [];
    if explicitStart {
      NotStarted();
      events := a.Start();
    }
    var es := FeedAll(a, chunks);
    events := events + es;
    es := a.Finish(finish);
    events := events + es;
  }

  /** Any number of calls of `feed`. */
  method FeedAll(a: AnthropicStreamAssembler, chunks: seq<Chunk>) returns (events: seq<Event>)
    requires a.Valid()
    modifies a
    ensures a.Valid() && Step(a.Now(), events) == AllFed(a.cfg, old(a.Now()), chunks)
  {
    hide Fed, Laws.CallsDone, Laws.Valid, PiecesOf;
    events := [];
    var k := 0;
    while k < |chunks|
      invariant 0 <= k <= |chunks|
      invariant a.Valid()
      invariant Step(a.Now(), events) == AllFed(a.cfg, old(a.Now()), chunks[..k])
    {
      assert chunks[..k + 1][..k] == chunks[..k];
      var es := a.Feed(chunks[k]);
      events := events + es;
      k := k + 1;
    }
    assert chunks[..k] == chunks;
  }

  lemma NotStarted()
    ensures !FRESH.started
  {
  }
}
