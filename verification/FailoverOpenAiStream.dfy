/**
 The loops of the OpenAI-side stream, each proved against its specification, up to the whole
 generator.
 */
module FailoverOpenAiStream {
  import opened Texts
  import opened Upstream
  import opened ToolEmitter
  import opened FailoverOpenAi
  import opened FailoverOpenAiLaws
  import opened FailoverOpenAiDelivery
  import opened FailoverOpenAiHandover
  import Keys

  /** The drain after a tool frame: keep sending tools that are already complete. */
  method DrainTools(cfg: Config, t0: Turn) returns (t: Turn)
    ensures t == DrainReady(cfg, t0)
    ensures !HasBudget(cfg, t.emitted) || NothingReady(t.acc)
  {
    DrainReadyEnds(cfg, t0);
    hide DeltaAccumulated, Waiting, NothingReady;
    t := t0;
    while HasBudget(cfg, t.emitted)
      invariant DrainReady(cfg, t) == DrainReady(cfg, t0)
      decreases Waiting(t.acc)
    {
      var e := DeltaAccumulated(t.acc, [], cfg.ids(t.nextId));
      if e.item.None? {
        t := t.(acc := e.acc);
        return;
      }
      EmissionShrinks(t.acc, cfg.ids(t.nextId));
      t := SayTool(t, e);
    }
  }

  /** The terminal flush. */
  method FlushTools(cfg: Config, t0: Turn) returns (t: Turn)
    ensures t == FlushHeld(cfg, t0)
    ensures !HasBudget(cfg, t.emitted) || AllSent(t.acc)
  {
    FlushHeldEnds(cfg, t0);
    hide DeltaAccumulated, FlushedOne, Waiting, AllSent;
    t := t0;
    while HasBudget(cfg, t.emitted)
      invariant FlushHeld(cfg, t) == FlushHeld(cfg, t0)
      decreases Waiting(t.acc)
    {
      var e := FlushedOne(t.acc, cfg.ids(t.nextId));
      if e.item.None? { return; }
      EmissionShrinks(t.acc, cfg.ids(t.nextId));
      t := SayTool(t, e).(saw := true, held := [], thinkOpen := false);
    }
  }

  /** The flush of a JSON body. */
  method FlushAll(cfg: Config, t0: Turn) returns (t: Turn, items: seq<Item>)
    ensures (t, items) == FlushList(cfg, t0)
    ensures AllSent(t.acc)
  {
    FlushListEnds(cfg, t0);
    hide DeltaAccumulated, FlushedOne, Waiting, AllSent;
    t, items := t0, [];
    var more := true;
    assert [] + FlushList(cfg, t).1 == FlushList(cfg, t).1;
    while more
      invariant var r := FlushList(cfg, t); FlushList(cfg, t0) == (r.0, items + r.1)
      invariant !more ==> FlushList(cfg, t) == (t, [])
      decreases Waiting(t.acc), more
    {
      var e := FlushedOne(t.acc, cfg.ids(t.nextId));
      if e.item.None? {
        more := false;
      } else {
        EmissionShrinks(t.acc, cfg.ids(t.nextId));
        ghost var r := FlushList(cfg, t.(acc := e.acc, nextId := t.nextId + 1));
        assert items + ([e.item.value] + r.1) == items + [e.item.value] + r.1;
        items := items + [e.item.value];
        t := t.(acc := e.acc, nextId := t.nextId + 1);
      }
    }
    assert items + [] == items;
  }

  /** `_emit_tool_sse_serial`. */
  method EmitSerial(cfg: Config, t0: Turn, items: seq<Item>) returns (t: Turn)
    ensures t == Serial(cfg, t0, items, true)
  {
    t := t0;
    var k := 0;
    while k < |items| && HasBudget(cfg, t.emitted)
      invariant 0 <= k <= |items|
      invariant Serial(cfg, t, items[k..], k == 0) == Serial(cfg, t0, items, true)
    {
      assert items[k..][1..] == items[k + 1..];
      var t1 := if k == 0 then t else Say(t, Keepalive);
      t := Say(t1, Tool(items[k])).(emitted := t1.emitted + 1);
      k := k + 1;
    }
  }

  /** What a chunk gives goes out: text first, then its tool, then every other tool that is complete. */
  method SendFrames(cfg: Config, t0: Turn, prose: Held, item: Option<Item>) returns (t: Turn)
    ensures t == SendChunk(cfg, t0, prose, item)
  {
    hide DrainReady;
    t := t0;
    if prose.content == [] && prose.reasoning == [] && item.None? { return; }
    t := t.(started := true);
    if t.gone { return; }
    if prose.content != [] || prose.reasoning != [] {
      t := Say(t, Prose(prose.content, prose.reasoning));
    }
    if item.None? { return; }
    t := Say(t, Tool(item.value)).(saw := true, emitted := t.emitted + 1);
    t := DrainTools(cfg, t);
  }

  /** One chunk: merge its tools, hold or pass its text, then send. */
  method TakeChunk(cfg: Config, t0: Turn, c: Line<Delta>) returns (t: Turn)
    requires c.Chunk?
    ensures t == OnChunk(cfg, t0, c)
  {
    hide TakeCalls, TakeProse, TakeFinish, SendChunk;
    if c.content == [] && c.reasoning == [] && c.calls == [] && c.finish == [] { return t0; }
    t := t0.(content := t0.content + c.content, reasoning := t0.reasoning + c.reasoning, started := true);
    var calls := TakeCalls(cfg, t, c.calls);
    var prose := TakeProse(cfg, calls.0, c.content, c.reasoning);
    t := TakeFinish(cfg, prose.0, c.finish);
    t := SendFrames(cfg, t, prose.1, calls.1);
  }

  method TakeLine(cfg: Config, t0: Turn, ev: LineEvent<Delta>) returns (t: Turn)
    ensures t == OnLine(cfg, t0, ev)
  {
    hide OnChunk;
    t := t0.(gone := t0.gone || ev.gone);
    if ev.line.Idle? {
      if !t.gone { t := Say(t, Keepalive); }
    } else if ev.line.Chunk? {
      t := TakeChunk(cfg, t, ev.line);
    }
  }

  /** A JSON body: all its tools, or its text. */
  method ReadBody(cfg: Config, t0: Turn, b: Attempt<Delta>) returns (t: Turn)
    requires b.JsonBody?
    ensures t == OnJsonBody(cfg, t0, b)
  {
    hide FlushList, BodyProse, Serial, SayBody, DeltaAccumulated;
    t := t0;
    var one, flushed := [], [];
    if b.calls != [] {
      var e := DeltaAccumulated(t.acc, b.calls, cfg.ids(t.nextId));
      t := t.(pending := true, toolsRequested := true, acc := e.acc, nextId := t.nextId + 1);
      if e.item.Some? { one := [e.item.value]; }
    }
    ghost var t1 := t;
    if t.acc != map[] { t, flushed := FlushAll(cfg, t); }
    assert (t, flushed) == BodyFlush(cfg, t1);
    var items := one + flushed;
    assert one == [] ==> items == flushed;
    assert (t, items) == BodyTools(cfg, t0, b.calls);
    t := t.(saw := items != [], started := true, content := t0.content + b.content, reasoning :=
      t0.reasoning + b.reasoning);
    var prose := BodyProse(cfg, t, b.content, b.reasoning);
    t := EmitSerial(cfg, prose.0, items);
    t := SayBody(cfg, t, prose.1);
    t := t.(finished := true, heldFinish := if b.finish == [] then T("stop") else b.finish);
  }

  /** The lines of a stream, until `[DONE]`. */
  method ReadLines(cfg: Config, t0: Turn, lines: seq<LineEvent<Delta>>) returns (t: Turn)
    ensures t == AtDone(OnLines(cfg, t0, Live(lines)), lines)
  {
    hide OnLine;
    t := t0;
    var k := 0;
    while k < |lines|
      invariant 0 <= k <= |lines|
      invariant Live(lines) == lines[..k] + Live(lines[k..])
      invariant t == OnLines(cfg, t0, lines[..k])
    {
      assert lines[k..][1..] == lines[k + 1..];
      if lines[k].line.DoneMark? {
        t := t.(gone := t.gone || lines[k].gone);
        assert Live(lines) == lines[..k];
        return;
      }
      assert lines[..k + 1][..k] == lines[..k];
      assert lines[..k] + ([lines[k]] + Live(lines[k + 1..])) == lines[..k + 1] + Live(lines[k + 1..]);
      t := TakeLine(cfg, t, lines[k]);
      k := k + 1;
    }
    assert Live(lines) == lines;
    assert lines[..k] == lines;
  }

  /** Held text, one frame a piece, unless tools won. */
  method SendHeld(t0: Turn) returns (t: Turn)
    ensures t == Release(t0)
  {
    t := t0;
    if !t0.saw {
      var k := 0;
      while k < |t0.held|
        invariant 0 <= k <= |t0.held|
        invariant t == SayHeld(t0, t0.held[..k])
      {
        assert t0.held[..k + 1][..k] == t0.held[..k];
        var h := t0.held[k];
        if h.content != [] || h.reasoning != [] {
          t := Say(t.(started := true), Prose(h.content, h.reasoning));
        }
        k := k + 1;
      }
      assert t0.held[..k] == t0.held;
    }
    t := t.(held := []);
  }

  /** Held text, the closing tag and the terminal frames. */
  method SendEnd(cfg: Config, t0: Turn) returns (t: Turn)
    ensures t == SayEnd(cfg, t0)
  {
    hide Release, CloseTag, FinishReason;
    t := t0;
    if t.gone { return; }
    t := SendHeld(t);
    var tag := CloseTag(cfg.mode, t.thinkOpen);
    if tag != [] {
      t := t.(thinkOpen := false);
      if !(t.toolsRequested && t.saw) { t := Say(t, Prose(tag, [])); }
    }
    assert t == EndText(cfg, t0);
    t := t.(out := t.out + [Finish(FinishReason(t)), Usage, Done]);
  }

  /** The end of an attempt whose answer has been read. */
  method Settle(cfg: Config, t0: Turn, last: bool) returns (o: Outcome)
    ensures o == Settled(cfg, t0, last)
  {
    hide FlushHeld, Finalized, Keys.SortedKeys, SayEnd, Strip;
    var t := t0;
    if t.acc != map[] && !t.gone { t := FlushTools(cfg, t); }
    if Finalized(t.acc, Keys.SortedKeys(t.acc.Keys)) != [] && AnyEmitted(t.acc) {
      t := t.(saw := true, held := [], thinkOpen := false);
    }
    assert t == SettleTools(cfg, t0);
    if EmptyAnswer(t) {
      if !t.started && !last { return Outcome(t, true); }
      return Fails(t);
    }
    t := SendEnd(cfg, t);
    return Outcome(t, false);
  }

  /** One account. */
  method Try(cfg: Config, t0: Turn, roleSent: bool, a: Attempt<Delta>, last: bool) returns (o: Outcome)
    ensures o == Tried(cfg, t0, roleSent, a, last)
  {
    hide Settled, OnLines, AtDone, OnJsonBody, OnRawBody;
    var t := if roleSent then t0 else Say(t0, Role);
    match a
    case NoConnection =>
      if !roleSent && !last { return Outcome(t0, true); }
      return Fails(t0);
    case Status(code) =>
      if Retryable(code) && !last { return Outcome(t0, true); }
      return Fails(t0);
    case Sse(lines, raises) =>
      t := ReadLines(cfg, t, lines);
      if raises && !SeesDone(lines) { return Fails(t); }
      o := Settle(cfg, t, last);
    case RawBody(text) => o := Settle(cfg, OnRawBody(t, text), last);
    case JsonBody(_, _, _, _) =>
      t := ReadBody(cfg, t, a);
      o := Settle(cfg, t, last);
    case BrokenBody => return Fails(t);
  }

  /** `_stream_proxy_with_failover_inner`. */
  method StreamProxyWithFailover(cfg: Config, chain: seq<Attempt<Delta>>, asked: bool) returns (r: Run)
    ensures r == Streamed(cfg, chain, 0, false, asked, 0)
    ensures Sound(cfg, false, asked, AllSteady(chain), r)
    ensures chain != [] ==> FirstToStay(chain, 0, false, r) && OthersNeutral(chain, 0, r)
  {
    hide Tried, Sound, FirstToStay, OthersNeutral;
    StreamedIsSound(cfg, chain, 0, false, asked, 0);
    if chain != [] { RunStopsAtFirst(cfg, chain, 0, false, asked, 0); }
    var frames: seq<Frame>, accounts: seq<nat> := [], [];
    var roleSent, toolsRequested, nextId, i := false, asked, 0, 0;
    while i < |chain|
      invariant 0 <= i <= |chain|
      invariant var rest := Streamed(cfg, chain, i, roleSent, toolsRequested, nextId);
        Streamed(cfg, chain, 0, false, asked, 0) == Run(frames + rest.frames, accounts + rest.accounts, rest.tried)
    {
      var o := Try(cfg, NewTurn(toolsRequested, nextId, []), roleSent, chain[i], i == |chain| - 1);
      var mine := Copies(i, |o.turn.out|);
      if !o.next {
        return Run(frames + o.turn.out, accounts + mine, i + 1);
      }
      roleSent, toolsRequested, nextId := roleSent || Answers(chain[i]), o.turn.toolsRequested, o.turn.nextId;
      ghost var tail := Streamed(cfg, chain, i + 1, roleSent, toolsRequested, nextId);
      assert frames + (o.turn.out + tail.frames) == frames + o.turn.out + tail.frames;
      assert accounts + (mine + tail.accounts) == accounts + mine + tail.accounts;
      frames, accounts, i := frames + o.turn.out, accounts + mine, i + 1;
    }
    r := Run(frames + [ErrorFrame, Done], accounts + [i, i], i);
  }
}
