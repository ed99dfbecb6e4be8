/**
 What `AnthropicStreamAssembler` (anthropic_compat.py) does, OpenAI deltas in and Anthropic events
 out, as functions of its state.  The object itself is in module `AssemblerObject`.
 */
module Assembler {
  import opened Texts
  import opened Keys
  import opened Events
  import opened ToolArgs
  import Json
  import JsonCanon

  type Raw = JsonCanon.Raw

  /** One entry of `tool_calls`.  An empty text stands for a missing (or empty) string. */
  datatype ToolDelta =
    | NotADict
    | ToolDelta(index: int, id: Text, fnName: Text, name: Text, fnArgs: Raw, args: Raw, input: Raw, newId: Text)

  /** Arguments of `feed`. */
  datatype Chunk = Chunk(content: Text, reasoning: Text, toolCalls: seq<ToolDelta>)

  datatype Held = Held(content: Text, reasoning: Text)

  /** State kept for one upstream tool index. */
  datatype Slot = Slot(
    id: Text, name: Text, args: Text, started: bool, stopped: bool, blockIndex: Option<nat>, sent: Text)

  const SYNTHETIC: Text := [0x74, 0x6F, 0x6F, 0x6C, 0x75, 0x5F]   // "toolu_"
  const TOOL: Text := [0x74, 0x6F, 0x6F, 0x6C]                    // "tool"
  const EMPTY_OBJECT: Text := [Json.LBRACE, Json.RBRACE]          // "{}"

  // ---------- slots ----------

  /** `_coerce_args_piece`. */
  function Coerce(raw: Raw): Text {
    match raw
    case Missing => []
    case Quoted(s) => Sanitize(s)
    case Parsed(v) => Json.Dumps(v, false)
  }

  /** `_merge_name`. */
  function MergeName(current: Text, incoming: Text): Text {
    var cur, name := Strip(current), Strip(incoming);
    if name == [] then cur
    else if cur == [] then name
    else if name == cur || name <= cur then cur
    else name
  }

  function ArgsPiece(d: ToolDelta): Text
    requires d.ToolDelta?
  {
    if !d.fnArgs.Missing? then Coerce(d.fnArgs)
    else if !d.args.Missing? then Coerce(d.args)
    else Coerce(d.input)
  }

  function NewSlot(d: ToolDelta): Slot
    requires d.ToolDelta?
  {
    Slot(if d.id != [] then d.id else SYNTHETIC + d.newId, [], [], false, false, None, [])
  }

  /** What one delta does to its slot. */
  function Absorb(s: Slot, d: ToolDelta): (r: Slot)
    requires d.ToolDelta?
    ensures s.stopped ==> r == s
    ensures r == s.(id := r.id, name := r.name, args := r.args)
    ensures s.id != [] ==> r.id != []
  {
    if s.stopped then s
    else
      var id := if d.id != [] && (s.id == [] || SYNTHETIC <= s.id) then d.id else s.id;
      var n1 := if d.fnName != [] then MergeName(s.name, d.fnName) else s.name;
      var n2 := if d.name != [] then MergeName(n1, d.name) else n1;
      var piece := ArgsPiece(d);
      var args := if piece != [] then Merge(s.args, piece, n2) else s.args;
      s.(id := id, name := n2, args := args)
  }

  /** The slots after a list of deltas. */
  function Ingest(tools: map<int, Slot>, ds: seq<ToolDelta>): map<int, Slot> {
    if ds == [] then tools
    else
      var t := Ingest(tools, ds[..|ds| - 1]);
      var d := ds[|ds| - 1];
      if d.NotADict? then t
      else t[d.index := Absorb(if d.index in t then t[d.index] else NewSlot(d), d)]
  }

  /** `map_finish_to_stop_reason`. */
  function StopReason(finish: Option<Text>, hasTools: bool): Stop {
    if hasTools || finish == Some(T("tool_calls")) then ToolUseStop
    else if finish == None || finish == Some([]) || finish == Some(T("stop")) then EndTurn
    else if finish == Some(T("length")) || finish == Some(T("max_tokens")) then MaxTokens
    else if finish == Some(T("content_filter")) then Refusal
    else if finish == Some(T("stop_sequence")) then StopSequence
    else EndTurn
  }

  /** A slot whose name is known and whose arguments are complete. */
  predicate Ready(s: Slot) {
    s.name != [] && s.args != [] && Complete(s.args, s.name)
  }

  /** What `finish` calls a ready tool. */
  predicate ReadyAtFinish(s: Slot) {
    Strip(s.name) != [] && Strip(s.args) != [] && Complete(s.args, s.name) && !s.stopped
  }

  function PiecesOf(content: Text, reasoning: Text): seq<Fragment> {
    (if reasoning != [] then [Fragment(true, reasoning)] else [])
    + (if content != [] then [Fragment(false, content)] else [])
  }

  function HeldPieces(held: seq<Held>): seq<Fragment> {
    if held == [] then [] else PiecesOf(held[0].content, held[0].reasoning) + HeldPieces(held[1..])
  }

  /** Everything fed, in order. */
  function AllPieces(cs: seq<Chunk>): seq<Fragment> {
    if cs == [] then []
    else AllPieces(cs[..|cs| - 1]) + PiecesOf(cs[|cs| - 1].content, cs[|cs| - 1].reasoning)
  }

  /** The part of a slot's arguments that `_flush_tool_args` sends now. */
  function Unsent(s: Slot, closing: bool): Text {
    if !s.started || s.args == [] || (s.sent != [] && !(s.sent <= s.args)) then []
    else if !Complete(s.args, s.name) && !closing then []
    else s.args[|s.sent|..]
  }

  /** What `_close_tools` still sends for an open slot: its arguments, and `{}` if that is all blank. */
  function ClosingDeltas(s: Slot): seq<Text> {
    var u := Unsent(s, true);
    (if u == [] then [] else [u]) + (if Strip(s.sent + u) == [] then [EMPTY_OBJECT] else [])
  }

  function ClosedSlot(s: Slot): Slot {
    var u := Unsent(s, true);
    if Strip(s.sent + u) == [] then
      s.(args := if s.args == [] then EMPTY_OBJECT else s.args, sent := EMPTY_OBJECT, stopped := true)
    else s.(sent := s.sent + u, stopped := true)
  }

  // ---------- the assembler as a function of its state ----------

  /** `tools_requested` and the cap on tool_use blocks; a cap that is not positive is no cap. */
  datatype Config = Config(toolsRequested: bool, maxTools: int)

  datatype State = State(
    nextIndex: nat, textIndex: Option<nat>, thinkingIndex: Option<nat>, tools: map<int, Slot>,
    started: bool, sawTool: bool, toolsPending: bool, held: seq<Held>, toolsStarted: nat)

  const FRESH: State := State(0, None, None, map[], false, false, false, [], 0)

  /** A state and the events sent on the way to it. */
  datatype Step = Step(st: State, events: seq<Event>)

  /** More events after a step. */
  function After(es: seq<Event>, s: Step): Step {
    Step(s.st, es + s.events)
  }

  function Started(st: State): Step {
    if st.started then Step(st, []) else Step(st.(started := true), [MessageStart])
  }

  function TextClosed(st: State): Step {
    if st.textIndex.Some? then Step(st.(textIndex := None), [BlockStop(st.textIndex.value)]) else Step(st, [])
  }

  function ThinkingClosed(st: State): Step {
    if st.thinkingIndex.Some? then Step(st.(thinkingIndex := None), [BlockStop(st.thinkingIndex.value)])
    else Step(st, [])
  }

  function ProseClosed(st: State): Step {
    var a := ThinkingClosed(st);
    After(a.events, TextClosed(a.st))
  }

  function IndexOf(s: Slot): nat {
    if s.blockIndex.Some? then s.blockIndex.value else 0
  }

  predicate IsOpen(s: Slot) { s.started && !s.stopped }

  /** Flush and stop one open slot. */
  function ToolClosed(st: State, oi: int): Step
    requires oi in st.tools
  {
    var s := st.tools[oi];
    var i := IndexOf(s);
    Step(st.(tools := st.tools[oi := ClosedSlot(s)]), ClosingEvents(i, ClosingDeltas(s)))
  }

  function ClosingEvents(i: nat, ds: seq<Text>): seq<Event> {
    Deltas(i, InputJsonDelta, ds) + [BlockStop(i)]
  }

  /** `_close_tools`, over the given keys in order. */
  function ToolsClosed(st: State, keys: seq<int>): Step
    decreases |keys|
  {
    if keys == [] then Step(st, [])
    else
      var a := if keys[0] in st.tools && IsOpen(st.tools[keys[0]]) then ToolClosed(st, keys[0]) else Step(st, []);
      After(a.events, ToolsClosed(a.st, keys[1..]))
  }

  function AllToolsClosed(st: State): Step {
    ToolsClosed(st, SortedKeys(st.tools.Keys))
  }

  function BlockOpened(st: State, kind: Kind): Step
    requires kind == TextBlock || kind == ThinkingBlock
  {
    var i := st.nextIndex;
    Step(if kind == TextBlock then st.(textIndex := Some(i), nextIndex := i + 1)
         else st.(thinkingIndex := Some(i), nextIndex := i + 1),
         [BlockStart(i, kind)])
  }

  function ThinkingOpened(st: State): Step {
    if st.thinkingIndex.Some? then Step(st, [])
    else
      var a := TextClosed(st);
      After(a.events, BlockOpened(a.st, ThinkingBlock))
  }

  function TextOpened(st: State): Step {
    var a := ThinkingClosed(st);
    if a.st.textIndex.Some? then a else After(a.events, BlockOpened(a.st, TextBlock))
  }

  function DeltaSent(st: State, index: Option<nat>, dk: DeltaKind, text: Text): Step {
    Step(st, if index.Some? then [Delta(index.value, dk, text)] else [])
  }

  function ThinkingSent(st: State, reasoning: Text): Step {
    var a := AllToolsClosed(st);
    var b := ThinkingOpened(a.st);
    After(a.events, After(b.events, DeltaSent(b.st, b.st.thinkingIndex, ThinkingDelta, reasoning)))
  }

  function TextSent(st: State, content: Text): Step {
    var a := AllToolsClosed(st);
    var b := TextOpened(a.st);
    After(a.events, After(b.events, DeltaSent(b.st, b.st.textIndex, TextDelta, content)))
  }

  /** `_emit_text_and_thinking`. */
  function ProseSent(st: State, content: Text, reasoning: Text): Step {
    var a := if reasoning != [] then ThinkingSent(st, reasoning) else Step(st, []);
    if content != [] then After(a.events, TextSent(a.st, content)) else a
  }

  function HeldSent(st: State, held: seq<Held>): Step
    decreases |held|
  {
    if held == [] then Step(st, [])
    else
      var a := ProseSent(st, held[0].content, held[0].reasoning);
      After(a.events, HeldSent(a.st, held[1..]))
  }

  /** `_tool_budget_left` is positive, or there is no cap. */
  predicate BudgetLeft(cfg: Config, st: State) {
    cfg.maxTools <= 0 || cfg.maxTools > st.toolsStarted
  }

  /** Open the tool_use block of slot `oi`. */
  function ToolStarted(st: State, oi: int, name: Text): Step
    requires oi in st.tools
  {
    var s := st.tools[oi];
    Step(st.(tools := st.tools[oi := s.(started := true, blockIndex := Some(st.nextIndex))],
             nextIndex := st.nextIndex + 1, toolsStarted := st.toolsStarted + 1, sawTool := true, held := []),
         [BlockStart(st.nextIndex, ToolUse(s.id, name))])
  }

  /** `_flush_tool_args` outside closing. */
  function ToolFlushed(st: State, oi: int): Step
    requires oi in st.tools
  {
    var s := st.tools[oi];
    var u := Unsent(s, false);
    if u == [] then Step(st, [])
    else Step(st.(tools := st.tools[oi := s.(sent := s.sent + u)]), [Delta(IndexOf(s), InputJsonDelta, u)])
  }

  /** Stop a slot whose complete arguments are all on the wire. */
  function ToolStoppedIfWhole(st: State, oi: int): Step
    requires oi in st.tools
  {
    var s := st.tools[oi];
    if s.sent != [] && s.args != [] && s.sent == s.args && Complete(s.args, s.name) then
      Step(st.(tools := st.tools[oi := s.(stopped := true)]), [BlockStop(IndexOf(s))])
    else Step(st, [])
  }

  /** A lower slot that would keep a higher one back. */
  predicate HoldsBack(s: Slot) {
    !s.stopped && (s.started || s.name != [] || s.id != [] || Strip(s.args) != [])
  }

  predicate Blocked(tools: map<int, Slot>, oi: int) {
    exists lower :: 0 <= lower < oi && lower in tools && HoldsBack(tools[lower])
  }

  predicate AnyOpen(tools: map<int, Slot>) {
    exists k :: k in tools && IsOpen(tools[k])
  }

  /** Whether the loop of `feed` stops at an unstarted slot. */
  predicate FeedBreaks(cfg: Config, st: State, oi: int)
    requires oi in st.tools
  {
    var s := st.tools[oi];
    if !Ready(s) then s.name != [] || s.id != []
    else Blocked(st.tools, oi) || AnyOpen(st.tools) || !BudgetLeft(cfg, st)
  }

  /** One slot in the loop of `feed`, when it does not stop the loop. */
  function ToolFed(st: State, oi: int): Step
    requires oi in st.tools
  {
    var s := st.tools[oi];
    var a := if !s.started && Ready(s) then ToolStarted(st, oi, s.name) else Step(st, []);
    if IsOpen(a.st.tools[oi]) then
      var b := ToolFlushed(a.st, oi);
      var c := ToolStoppedIfWhole(b.st, oi);
      Step(c.st, a.events + b.events + c.events)
    else a
  }

  /** The loop of `feed` over the given keys. */
  function ToolsFed(cfg: Config, st: State, keys: seq<int>): Step
    decreases |keys|
  {
    if keys == [] || keys[0] !in st.tools then Step(st, [])
    else if st.tools[keys[0]].stopped then ToolsFed(cfg, st, keys[1..])
    else if !st.tools[keys[0]].started && FeedBreaks(cfg, st, keys[0]) then Step(st, [])
    else
      var a := ToolFed(st, keys[0]);
      After(a.events, ToolsFed(cfg, a.st, keys[1..]))
  }

  /** The part of `feed` before the tool calls. */
  function ProseFed(cfg: Config, st: State, c: Chunk): Step {
    if cfg.toolsRequested && !st.sawTool then
      if c.content != [] || c.reasoning != [] then
        Step(st.(held := st.held + [Held(c.content, c.reasoning)]), [])
      else Step(st, [])
    else if cfg.toolsRequested then Step(st, [])
    else ProseSent(st, c.content, c.reasoning)
  }

  /** The part of `feed` for the tool calls. */
  function CallsFed(cfg: Config, st: State, calls: seq<ToolDelta>): Step {
    if calls == [] then Step(st, [])
    else
      var a := ProseClosed(st.(toolsPending := true));
      var tools := Ingest(a.st.tools, calls);
      After(a.events, ToolsFed(cfg, a.st.(tools := tools), SortedKeys(tools.Keys)))
  }

  /** `feed`. */
  function Fed(cfg: Config, st: State, c: Chunk): Step {
    var a := Started(st);
    var b := ProseFed(cfg, a.st, c);
    After(a.events + b.events, CallsFed(cfg, b.st, c.toolCalls))
  }

  predicate HasReadyTool(tools: map<int, Slot>) {
    exists k :: k in tools && ReadyAtFinish(tools[k])
  }

  /** The held preface at `finish`: sent unless tools won. */
  function PrefaceFinished(st: State): Step {
    var none := st.(held := []);
    if st.sawTool || HasReadyTool(st.tools) then Step(none, [])
    else
      var a := HeldSent(st, st.held);
      Step(a.st.(held := []), a.events)
  }

  /** A slot that `finish` leaves alone. */
  predicate FinishSkips(cfg: Config, st: State, oi: int)
    requires oi in st.tools
  {
    var s := st.tools[oi];
    var name, args := Strip(s.name), Strip(s.args);
    || s.stopped
    || (!s.started &&
         (|| (name == [] && args == [])
          || (st.held != [] && !st.sawTool && !(name != [] && args != [] && Complete(args, name)))
          || !BudgetLeft(cfg, st)))
  }

  /** One slot in the loop of `finish`: open it if need be, then close it. */
  function ToolFinished(st: State, oi: int): Step
    requires oi in st.tools
  {
    var s := st.tools[oi];
    var name := Strip(s.name);
    if s.started then AllToolsClosed(st)
    else
      var a := AllToolsClosed(st);
      if oi !in a.st.tools then a
      else
        var b := ToolStarted(a.st, oi, if name == [] then TOOL else name);
        After(a.events + b.events, AllToolsClosed(b.st))
  }

  function ToolsFinished(cfg: Config, st: State, keys: seq<int>): Step
    decreases |keys|
  {
    if keys == [] || keys[0] !in st.tools then Step(st, [])
    else if FinishSkips(cfg, st, keys[0]) then ToolsFinished(cfg, st, keys[1..])
    else
      var a := ToolFinished(st, keys[0]);
      After(a.events, ToolsFinished(cfg, a.st, keys[1..]))
  }

  function FinishReason(st: State, finish: Option<Text>): Option<Text> {
    if st.sawTool && (finish == None || finish in {Some([]), Some(T("stop")), Some(T("end_turn"))}) then
      Some(T("tool_calls"))
    else finish
  }

  /** `finish`. */
  function Finished(cfg: Config, st: State, finish: Option<Text>): Step {
    var a := Started(st);
    var b := PrefaceFinished(a.st);
    var c := ProseClosed(b.st);
    var d := ToolsFinished(cfg, c.st, SortedKeys(c.st.tools.Keys));
    var e := AllToolsClosed(d.st);
    Step(e.st, a.events + b.events + c.events + d.events + e.events
               + [MessageDelta(StopReason(FinishReason(e.st, finish), e.st.sawTool)), MessageStop])
  }

  /** A whole run: `start` called or not, chunks fed, then `finish`. */
  function AllFed(cfg: Config, st: State, cs: seq<Chunk>): Step {
    if cs == [] then Step(st, [])
    else
      var a := AllFed(cfg, st, cs[..|cs| - 1]);
      After(a.events, Fed(cfg, a.st, cs[|cs| - 1]))
  }

  function Run(cfg: Config, started: bool, cs: seq<Chunk>, finish: Option<Text>): seq<Event> {
    var a := if started then Started(FRESH) else Step(FRESH, []);
    var b := AllFed(cfg, a.st, cs);
    a.events + b.events + Finished(cfg, b.st, finish).events
  }
}
