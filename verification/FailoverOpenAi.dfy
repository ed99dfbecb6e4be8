/**
 The OpenAI-side stream with failover (app.py, `_stream_proxy_with_failover_inner`): accounts
 are tried in order against scripted upstreams, and what reaches the client is a list of frames.
 */
module FailoverOpenAi {
  import opened Texts
  import opened Upstream
  import opened ToolEmitter
  import Keys

  // ---------- frames ----------

  datatype Frame =
    | Role
    | Keepalive
    | Prose(content: Text, reasoning: Text)
    | Tool(item: Item)
    | Finish(reason: Text)
    | Usage
    | ErrorFrame
    | Done

  /** A frame that carries text or reasoning. */
  predicate IsProse(f: Frame) { f.Prose? && (f.content != [] || f.reasoning != []) }

  /** A frame that carries model output. */
  predicate IsOutput(f: Frame) { f.Tool? || IsProse(f) }

  // ---------- _ReasoningCompatState ----------

  datatype Mode = Off | ThinkTag | PlainContent

  const THINK_OPEN: Text := T("<think>\n")
  const THINK_CLOSE: Text := T("\n</think>\n")

  datatype Rewritten = Rewritten(content: Text, reasoning: Text, open: bool)

  /** `rewrite`: reasoning kept apart, tagged into the content, or merged into it. */
  function Rewrite(mode: Mode, open: bool, content: Text, reasoning: Text): Rewritten {
    match mode
    case Off => Rewritten(content, reasoning, open)
    case PlainContent => Rewritten(reasoning + content, [], open)
    case ThinkTag =>
      var head := if reasoning == [] then [] else (if open then [] else THINK_OPEN) + reasoning;
      var open1 := open || reasoning != [];
      if content == [] then Rewritten(head, [], open1)
      else Rewritten(head + (if open1 then THINK_CLOSE else []) + content, [], false)
  }

  /** `close_tag_chunk`. */
  function CloseTag(mode: Mode, open: bool): Text {
    if mode == ThinkTag && open then THINK_CLOSE else []
  }

  // ---------- one attempt ----------

  /** `maxTools` is the cap on outbound tools, 0 for none; `ids` generates call ids. */
  datatype Config = Config(mode: Mode, maxTools: nat, ids: nat -> NewId)

  datatype Held = Held(content: Text, reasoning: Text)

  /** The local variables of one attempt, and the frames it has sent. */
  datatype Turn = Turn(
    saw: bool, pending: bool, finished: bool, heldFinish: Text, started: bool, gone: bool,
    content: Text, reasoning: Text, acc: Acc, emitted: nat, thinkOpen: bool, held: seq<Held>,
    toolsRequested: bool, nextId: nat, out: seq<Frame>)

  function NewTurn(toolsRequested: bool, nextId: nat, out: seq<Frame>): Turn {
    Turn(false, false, false, [], false, false, [], [], map[], 0, false, [], toolsRequested, nextId, out)
  }

  function Say(t: Turn, f: Frame): Turn { t.(out := t.out + [f]) }

  predicate HasBudget(cfg: Config, emitted: nat) {
    cfg.maxTools == 0 || emitted < cfg.maxTools
  }

  /** One tool item on the wire. */
  function SayTool(t: Turn, e: Emitted): Turn
    requires e.item.Some?
  {
    t.(acc := e.acc, nextId := t.nextId + 1, emitted := t.emitted + 1, out := t.out + [Tool(e.item.value)])
  }

  /** Keep sending tools that are already complete. */
  function DrainReady(cfg: Config, t: Turn): Turn
    decreases Waiting(t.acc)
  {
    if !HasBudget(cfg, t.emitted) then t
    else
      var e := DeltaAccumulated(t.acc, [], cfg.ids(t.nextId));
      if e.item.None? then t.(acc := e.acc)
      else
        EmissionShrinks(t.acc, cfg.ids(t.nextId));
        DrainReady(cfg, SayTool(t, e))
  }

  /** The terminal flush of held tools. */
  function FlushHeld(cfg: Config, t: Turn): Turn
    decreases Waiting(t.acc)
  {
    if !HasBudget(cfg, t.emitted) then t
    else
      var e := FlushedOne(t.acc, cfg.ids(t.nextId));
      if e.item.None? then t
      else
        EmissionShrinks(t.acc, cfg.ids(t.nextId));
        FlushHeld(cfg, SayTool(t, e).(saw := true, held := [], thinkOpen := false))
  }

  /** Merge the tool calls of a chunk; the item to send, if one is complete and the cap allows. */
  function TakeCalls(cfg: Config, t: Turn, calls: seq<Delta>): (Turn, Option<Item>) {
    if calls == [] then (t, None)
    else
      var t1 := t.(pending := true, toolsRequested := true);
      if !HasBudget(cfg, t.emitted) then (t1.(acc := Ingest(t.acc, calls)), None)
      else
        var e := DeltaAccumulated(t.acc, calls, cfg.ids(t.nextId));
        var t2 := t1.(acc := e.acc, nextId := t.nextId + 1);
        if e.item.None? then (t2, None)
        else if t2.held == [] then (t2.(saw := true), e.item)
        else (t2.(saw := true, held := [], thinkOpen := false), e.item)
  }

  /** Rewrite the text of a chunk, then hold it, drop it or pass it on. */
  function TakeProse(cfg: Config, t: Turn, content: Text, reasoning: Text): (Turn, Held) {
    var r := Rewrite(cfg.mode, t.thinkOpen, content, reasoning);
    var t1 := t.(thinkOpen := r.open);
    if t.toolsRequested && !t.saw then
      (if r.content != [] || r.reasoning != [] then t1.(held := t1.held + [Held(r.content, r.reasoning)]) else t1,
       Held([], []))
    else if t.toolsRequested then (t1, Held([], []))
    else (t1, Held(r.content, r.reasoning))
  }

  /** The upstream finish reason is kept for the terminal frame; an open think tag may be closed. */
  function TakeFinish(cfg: Config, t: Turn, finish: Text): Turn {
    if finish == [] then t
    else
      var t1 := t.(finished := true, heldFinish := finish);
      if t.gone || (t.toolsRequested && !t.saw && t.held != []) || (t.toolsRequested && t.saw) then t1
      else
        var tag := CloseTag(cfg.mode, t.thinkOpen);
        if tag == [] then t1 else Say(t1.(thinkOpen := false), Prose(tag, []))
  }

  /** Send what a chunk gives: text first, then tools, each in frames of their own. */
  function SendChunk(cfg: Config, t: Turn, prose: Held, item: Option<Item>): Turn {
    if prose.content == [] && prose.reasoning == [] && item.None? then t
    else
      var t1 := t.(started := true);
      if t.gone then t1
      else
        var t2 := if prose.content == [] && prose.reasoning == [] then t1
                  else Say(t1, Prose(prose.content, prose.reasoning));
        if item.None? then t2
        else DrainReady(cfg, Say(t2, Tool(item.value)).(saw := true, emitted := t2.emitted + 1))
  }

  function OnChunk(cfg: Config, t: Turn, c: Line<Delta>): Turn
    requires c.Chunk?
  {
    if c.content == [] && c.reasoning == [] && c.calls == [] && c.finish == [] then t
    else
      var t0 := t.(content := t.content + c.content, reasoning := t.reasoning + c.reasoning, started := true);
      var (t1, item) := TakeCalls(cfg, t0, c.calls);
      var (t2, prose) := TakeProse(cfg, t1, c.content, c.reasoning);
      var t3 := TakeFinish(cfg, t2, c.finish);
      SendChunk(cfg, t3, prose, item)
  }

  function OnLine(cfg: Config, t: Turn, ev: LineEvent<Delta>): Turn {
    var t1 := t.(gone := t.gone || ev.gone);
    match ev.line
    case Idle => if t1.gone then t1 else Say(t1, Keepalive)
    case Chunk(_, _, _, _) => OnChunk(cfg, t1, ev.line)
    case _ => t1
  }

  /** The disconnect check is made for the `[DONE]` line too. */
  function AtDone(t: Turn, lines: seq<LineEvent<Delta>>): Turn {
    var n := |Live(lines)|;
    if n < |lines| then t.(gone := t.gone || lines[n].gone) else t
  }

  function OnLines(cfg: Config, t: Turn, lines: seq<LineEvent<Delta>>): Turn {
    if lines == [] then t else OnLine(cfg, OnLines(cfg, t, lines[..|lines| - 1]), lines[|lines| - 1])
  }

  // ---------- bodies that are not streams ----------

  /** Every held tool, one after the other, without a cap. */
  function FlushList(cfg: Config, t: Turn): (Turn, seq<Item>)
    decreases Waiting(t.acc)
  {
    var e := FlushedOne(t.acc, cfg.ids(t.nextId));
    if e.item.None? then (t, [])
    else
      EmissionShrinks(t.acc, cfg.ids(t.nextId));
      var (t', rest) := FlushList(cfg, t.(acc := e.acc, nextId := t.nextId + 1));
      (t', [e.item.value] + rest)
  }

  /** `_emit_tool_sse_serial`: one frame a tool, keepalives between, cut at the cap. */
  function Serial(cfg: Config, t: Turn, items: seq<Item>, first: bool): Turn
    decreases |items|
  {
    if items == [] || !HasBudget(cfg, t.emitted) then t
    else
      var t1 := if first then t else Say(t, Keepalive);
      Serial(cfg, Say(t1, Tool(items[0])).(emitted := t1.emitted + 1), items[1..], false)
  }

  function OnRawBody(t: Turn, text: Text): Turn {
    Say(t.(content := t.content + text, started := true, finished := true, heldFinish := T("stop")), Prose(text, []))
  }

  /** The tools of a JSON body: merged, then all of them flushed. */
  function BodyTools(cfg: Config, t: Turn, calls: seq<Delta>): (Turn, seq<Item>) {
    if calls == [] then BodyFlush(cfg, t)
    else
      var e := DeltaAccumulated(t.acc, calls, cfg.ids(t.nextId));
      var t1 := t.(pending := true, toolsRequested := true, acc := e.acc, nextId := t.nextId + 1);
      var (t2, flushed) := BodyFlush(cfg, t1);
      (t2, (if e.item.Some? then [e.item.value] else []) + flushed)
  }

  function BodyFlush(cfg: Config, t: Turn): (Turn, seq<Item>) {
    if t.acc == map[] then (t, []) else FlushList(cfg, t)
  }

  /** The text of a JSON body: dropped when there are tools. */
  function BodyProse(cfg: Config, t: Turn, content: Text, reasoning: Text): (Turn, Held) {
    if t.toolsRequested && (t.saw || t.pending) then (t.(held := [], thinkOpen := false), Held([], []))
    else
      var r := Rewrite(cfg.mode, t.thinkOpen, content, reasoning);
      var tag := CloseTag(cfg.mode, r.open);
      (t.(thinkOpen := if tag != [] then false else r.open), Held(r.content + tag, r.reasoning))
  }

  /** Content and reasoning of a JSON body go out in frames of their own. */
  function SayBody(cfg: Config, t: Turn, prose: Held): Turn {
    if t.toolsRequested && t.saw then t
    else
      var t1 := if prose.content != [] then Say(t, Prose(prose.content, [])) else t;
      if prose.reasoning != [] && cfg.mode == Off then Say(t1, Prose([], prose.reasoning)) else t1
  }

  function OnJsonBody(cfg: Config, t: Turn, b: Attempt<Delta>): Turn
    requires b.JsonBody?
  {
    var (t1, items) := BodyTools(cfg, t, b.calls);
    var t2 := t1.(saw := items != [], started := true,
                  content := t.content + b.content, reasoning := t.reasoning + b.reasoning);
    var (t3, prose) := BodyProse(cfg, t2, b.content, b.reasoning);
    var t4 := SayBody(cfg, Serial(cfg, t3, items, true), prose);
    t4.(finished := true, heldFinish := if b.finish == [] then T("stop") else b.finish)
  }

  // ---------- the end of an attempt ----------

  predicate AnyEmitted(acc: Acc) {
    exists k :: k in acc && acc[k].emitted
  }

  function SayHeld(t: Turn, held: seq<Held>): Turn {
    if held == [] then t
    else
      var h := held[|held| - 1];
      var t1 := SayHeld(t, held[..|held| - 1]);
      if h.content != [] || h.reasoning != [] then Say(t1.(started := true), Prose(h.content, h.reasoning)) else t1
  }

  /** Tools still held are flushed; tools win if any was ever emitted. */
  function SettleTools(cfg: Config, t: Turn): Turn {
    var t1 := if t.acc != map[] && !t.gone then FlushHeld(cfg, t) else t;
    if Finalized(t1.acc, Keys.SortedKeys(t1.acc.Keys)) != [] && AnyEmitted(t1.acc) then
      t1.(saw := true, held := [], thinkOpen := false)
    else t1
  }

  /** An HTTP 200 without any model output. */
  predicate EmptyAnswer(t: Turn) {
    && !t.gone && !t.saw
    && (forall h :: h in t.held ==> h.content == [] && h.reasoning == [])
    && Finalized(t.acc, Keys.SortedKeys(t.acc.Keys)) == []
    && Strip(t.content) == [] && Strip(t.reasoning) == []
  }

  function FinishReason(t: Turn): Text {
    if !t.finished || t.heldFinish == [] then (if t.saw then T("tool_calls") else T("stop"))
    else if t.saw && t.heldFinish in {T("stop"), T("end_turn")} then T("tool_calls")
    else t.heldFinish
  }

  /** Held text goes out unless tools won. */
  function Release(t: Turn): Turn {
    (if t.saw then t else SayHeld(t, t.held)).(held := [])
  }

  /** Held text and the closing tag, or nothing when tools won. */
  function EndText(cfg: Config, t: Turn): Turn {
    var t1 := Release(t);
    var tag := CloseTag(cfg.mode, t1.thinkOpen);
    var t2 := t1.(thinkOpen := if tag != [] then false else t1.thinkOpen);
    if tag != [] && !(t2.toolsRequested && t2.saw) then Say(t2, Prose(tag, [])) else t2
  }

  /** Text, then the terminal frames. */
  function SayEnd(cfg: Config, t: Turn): Turn {
    if t.gone then t
    else
      var t1 := EndText(cfg, t);
      t1.(out := t1.out + [Finish(FinishReason(t1)), Usage, Done])
  }

  /** How an attempt ends: try the next account, or stop. */
  datatype Outcome = Outcome(turn: Turn, next: bool)

  function Fails(t: Turn): Outcome {
    Outcome(t.(out := t.out + [ErrorFrame, Done]), false)
  }

  function Settled(cfg: Config, t: Turn, last: bool): Outcome {
    var t1 := SettleTools(cfg, t);
    if EmptyAnswer(t1) then (if !t1.started && !last then Outcome(t1, true) else Fails(t1))
    else Outcome(SayEnd(cfg, t1), false)
  }

  /** One account.  `roleSent` says whether the role frame has gone out before. */
  function Tried(cfg: Config, t: Turn, roleSent: bool, a: Attempt<Delta>, last: bool): Outcome {
    var open := if roleSent then t else Say(t, Role);
    match a
    case NoConnection => if !roleSent && !last then Outcome(t, true) else Fails(t)
    case Status(code) => if Retryable(code) && !last then Outcome(t, true) else Fails(t)
    case Sse(lines, raises) =>
      var t1 := AtDone(OnLines(cfg, open, Live(lines)), lines);
      if raises && !SeesDone(lines) then Fails(t1) else Settled(cfg, t1, last)
    case RawBody(text) => Settled(cfg, OnRawBody(open, text), last)
    case JsonBody(_, _, _, _) => Settled(cfg, OnJsonBody(cfg, open, a), last)
    case BrokenBody => Fails(open)
  }

  // ---------- the chain of accounts ----------

  /** Everything sent to the client, the account each frame comes from, and how many were tried. */
  datatype Run = Run(frames: seq<Frame>, accounts: seq<nat>, tried: nat)

  /** `_stream_proxy_with_failover_inner` from account `i` on. */
  function Streamed(cfg: Config, chain: seq<Attempt<Delta>>, i: nat, roleSent: bool, asked: bool, nextId: nat): Run
    requires i <= |chain|
    decreases |chain| - i
  {
    if i == |chain| then Run([ErrorFrame, Done], [i, i], i)
    else
      var o := Tried(cfg, NewTurn(asked, nextId, []), roleSent, chain[i], i == |chain| - 1);
      var mine := Copies(i, |o.turn.out|);
      if !o.next then Run(o.turn.out, mine, i + 1)
      else
        var rest := Streamed(cfg, chain, i + 1, roleSent || Answers(chain[i]), o.turn.toolsRequested, o.turn.nextId);
        Run(o.turn.out + rest.frames, mine + rest.accounts, rest.tried)
  }
}
