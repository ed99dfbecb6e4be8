/**
 What the assembler keeps: one block open at a time, every slot opened at most once and with
 its whole arguments, the cap on tools, and all or nothing of the text.
 */
module AssemblerLaws {
  import opened Texts
  import opened Keys
  import opened Events
  import opened ToolArgs
  import opened Assembler

  /** The content blocks behind a trace: closed ones, the open one, and the slot of each tool block. */
  datatype Hist = Hist(done: seq<Block>, open: Option<Block>, owner: map<nat, int>)

  ghost predicate SlotInv(oi: int, s: Slot, owner: map<nat, int>) {
    && s.id != []
    && s.started == s.stopped
    && (!s.started ==> s.blockIndex.None? && s.sent == [])
    && (s.stopped ==> s.blockIndex.Some? && s.blockIndex.value in owner && owner[s.blockIndex.value] == oi)
  }

  /** Closed tool blocks and stopped slots are in one-to-one correspondence, and no tool block is open. */
  ghost predicate ToolsInv(tools: map<int, Slot>, owner: map<nat, int>, done: seq<Block>) {
    && (forall oi :: oi in tools ==> SlotInv(oi, tools[oi], owner))
    && (forall b :: b in owner ==>
          && b < |done| && done[b].kind.ToolUse?
          && owner[b] in tools && tools[owner[b]].stopped && tools[owner[b]].blockIndex == Some(b))
    && (forall b: nat :: b < |done| && done[b].kind.ToolUse? ==> b in owner)
  }

  /** The assembler's indices are those of the blocks behind its trace. */
  ghost predicate Wired(cfg: Config, st: State, h: Hist, trace: seq<Event>) {
    && st.started
    && trace == Partial(h.done, h.open)
    && st.nextIndex == |h.done| + (if h.open.Some? then 1 else 0)
    && (h.open.Some? ==> st.textIndex.Some? || st.thinkingIndex.Some?)
    && (st.textIndex.Some? ==> st.textIndex.value == |h.done| && h.open.Some? && h.open.value.kind == TextBlock)
    && (st.thinkingIndex.Some? ==>
          st.thinkingIndex.value == |h.done| && h.open.Some? && h.open.value.kind == ThinkingBlock)
    && ToolsInv(st.tools, h.owner, h.done)
    && st.toolsStarted == ToolStarts(trace)
    && st.sawTool == (st.toolsStarted > 0)
    && (cfg.maxTools > 0 ==> st.toolsStarted <= cfg.maxTools)
  }

  /** Nothing about tools has changed. */
  ghost predicate SameTools(a: State, b: State) {
    b == a.(nextIndex := b.nextIndex, textIndex := b.textIndex, thinkingIndex := b.thinkingIndex)
  }

  // ---------- text and thinking ----------

  lemma NothingToClose(st: State, keys: seq<int>)
    requires forall k :: k in st.tools ==> !IsOpen(st.tools[k])
    ensures ToolsClosed(st, keys) == Step(st, [])
    decreases |keys|
  {
  }

  lemma ProseInv(tools: map<int, Slot>, owner: map<nat, int>, done: seq<Block>, b: Block)
    requires ToolsInv(tools, owner, done) && !b.kind.ToolUse?
    ensures ToolsInv(tools, owner, done + [b])
  {
  }

  /** A step that sends prose `said` and keeps the rest. */
  ghost predicate Keeps(cfg: Config, st: State, h: Hist, trace: seq<Event>, r: Step, h': Hist, said: seq<Fragment>) {
    && Wired(cfg, r.st, h', trace + r.events)
    && SameTools(st, r.st)
    && h.done <= h'.done && h'.owner == h.owner
    && Spoken(trace + r.events) == Spoken(trace) + said
  }

  lemma Compose(cfg: Config, st: State, h: Hist, trace: seq<Event>, a: Step, h1: Hist, s1: seq<Fragment>,
                b: Step, h2: Hist, s2: seq<Fragment>)
    requires Keeps(cfg, st, h, trace, a, h1, s1)
    requires Keeps(cfg, a.st, h1, trace + a.events, b, h2, s2)
    ensures Keeps(cfg, st, h, trace, After(a.events, b), h2, s1 + s2)
  {
    hide Wired, Spoken;
    assert trace + (a.events + b.events) == trace + a.events + b.events;
    assert Spoken(trace) + (s1 + s2) == Spoken(trace) + s1 + s2;
  }

  lemma KeepsNothing(cfg: Config, st: State, h: Hist, trace: seq<Event>)
    requires Wired(cfg, st, h, trace)
    ensures Keeps(cfg, st, h, trace, Step(st, []), h, [])
  {
    hide Wired;
    assert trace + [] == trace;
  }

  lemma KeepsWired(cfg: Config, st: State, h: Hist, trace: seq<Event>, r: Step, h': Hist, said: seq<Fragment>)
    requires Keeps(cfg, st, h, trace, r, h', said)
    ensures Wired(cfg, r.st, h', trace + r.events)
  {
  }

  lemma AfterNothing(s: Step)
    ensures After([], s) == s
  {
    assert [] + s.events == s.events;
  }

  /** Stopping the open prose block. */
  lemma ProseStopped(cfg: Config, st: State, h: Hist, trace: seq<Event>)
    requires Wired(cfg, st, h, trace) && h.open.Some?
    ensures Keeps(cfg, st, h, trace, Step(st.(textIndex := None, thinkingIndex := None), [BlockStop(|h.done|)]),
                  Hist(h.done + [h.open.value], None, h.owner), [])
  {
    hide ToolsInv, Partial;
    var b := h.open.value;
    PartialStop(h.done, b);
    SpokenOne(trace, BlockStop(|h.done|));
    ProseInv(st.tools, h.owner, h.done, b);
  }

  lemma TextClosedKeeps(cfg: Config, st: State, h: Hist, trace: seq<Event>) returns (h': Hist)
    requires Wired(cfg, st, h, trace)
    ensures Keeps(cfg, st, h, trace, TextClosed(st), h', [])
    ensures TextClosed(st).st == st.(textIndex := None)
    ensures st.thinkingIndex == None ==> h'.open == None
    ensures st.textIndex == None ==> h' == h
  {
    h' := h;
    if st.textIndex.Some? {
      h' := Hist(h.done + [h.open.value], None, h.owner);
      assert st.thinkingIndex == None;
      ProseStopped(cfg, st, h, trace);
      assert st.(textIndex := None) == st.(textIndex := None, thinkingIndex := None);
    } else {
      KeepsNothing(cfg, st, h, trace);
    }
  }

  lemma ThinkingClosedKeeps(cfg: Config, st: State, h: Hist, trace: seq<Event>) returns (h': Hist)
    requires Wired(cfg, st, h, trace)
    ensures Keeps(cfg, st, h, trace, ThinkingClosed(st), h', [])
    ensures ThinkingClosed(st).st == st.(thinkingIndex := None)
    ensures st.textIndex == None ==> h'.open == None
    ensures st.thinkingIndex == None ==> h' == h
  {
    h' := h;
    if st.thinkingIndex.Some? {
      h' := Hist(h.done + [h.open.value], None, h.owner);
      assert st.textIndex == None;
      ProseStopped(cfg, st, h, trace);
      assert st.(thinkingIndex := None) == st.(textIndex := None, thinkingIndex := None);
    } else {
      KeepsNothing(cfg, st, h, trace);
    }
  }

  lemma ProseClosedKeeps(cfg: Config, st: State, h: Hist, trace: seq<Event>) returns (h': Hist)
    requires Wired(cfg, st, h, trace)
    ensures Keeps(cfg, st, h, trace, ProseClosed(st), h', [])
    ensures ProseClosed(st).st == st.(textIndex := None, thinkingIndex := None) && h'.open == None
    ensures h.open == None ==> h' == h
  {
    var h1 := ThinkingClosedKeeps(cfg, st, h, trace);
    hide Wired, TextClosed, ThinkingClosed, Spoken;
    var a := ThinkingClosed(st);
    h' := TextClosedKeeps(cfg, a.st, h1, trace + a.events);
    Compose(cfg, st, h, trace, a, h1, [], TextClosed(a.st), h', []);
  }

  /** Opening a text or thinking block when none is open. */
  lemma BlockOpenedKeeps(cfg: Config, st: State, h: Hist, trace: seq<Event>, kind: Kind) returns (h': Hist)
    requires Wired(cfg, st, h, trace) && h.open == None && st.textIndex == None && st.thinkingIndex == None
    requires kind == TextBlock || kind == ThinkingBlock
    ensures h' == Hist(h.done, Some(Block(kind, [])), h.owner)
    ensures Keeps(cfg, st, h, trace, BlockOpened(st, kind), h', [])
  {
    hide ToolsInv;
    h' := Hist(h.done, Some(Block(kind, [])), h.owner);
    SpokenOne(trace, BlockStart(st.nextIndex, kind));
  }

  /** One more delta on the open block. */
  lemma DeltaSentKeeps(cfg: Config, st: State, h: Hist, trace: seq<Event>, index: Option<nat>, dk: DeltaKind,
    text: Text)
    returns (h': Hist)
    requires Wired(cfg, st, h, trace) && h.open.Some? && index == Some(|h.done|) && dk == DeltaKindOf(h.open.value.kind)
    ensures Keeps(cfg, st, h, trace, DeltaSent(st, index, dk, text), h', [Fragment(dk == ThinkingDelta, text)])
  {
    hide ToolsInv, Partial;
    var b := h.open.value;
    h' := h.(open := Some(Block(b.kind, b.deltas + [text])));
    PartialDelta(h.done, b, text);
    SpokenOne(trace, Delta(|h.done|, dk, text));
  }

  lemma NoneOpen(cfg: Config, st: State, h: Hist, trace: seq<Event>)
    requires Wired(cfg, st, h, trace)
    ensures AllToolsClosed(st) == Step(st, [])
  {
    hide ToolsClosed, SortedKeys;
    NothingToClose(st, SortedKeys(st.tools.Keys));
  }

  lemma ThinkingOpenedKeeps(cfg: Config, st: State, h: Hist, trace: seq<Event>) returns (h': Hist)
    requires Wired(cfg, st, h, trace)
    ensures Keeps(cfg, st, h, trace, ThinkingOpened(st), h', [])
    ensures h'.open.Some? && h'.open.value.kind == ThinkingBlock
    ensures ThinkingOpened(st).st.thinkingIndex == Some(|h'.done|)
  {
    hide ToolsInv, Partial, Spoken, TextClosed;
    if st.thinkingIndex.Some? {
      h' := h;
      KeepsNothing(cfg, st, h, trace);
    } else {
      var a := TextClosed(st);
      var h1 := TextClosedKeeps(cfg, st, h, trace);
      h' := BlockOpenedKeeps(cfg, a.st, h1, trace + a.events, ThinkingBlock);
      Compose(cfg, st, h, trace, a, h1, [], BlockOpened(a.st, ThinkingBlock), h', []);
    }
  }

  lemma TextOpenedKeeps(cfg: Config, st: State, h: Hist, trace: seq<Event>) returns (h': Hist)
    requires Wired(cfg, st, h, trace)
    ensures Keeps(cfg, st, h, trace, TextOpened(st), h', [])
    ensures h'.open.Some? && h'.open.value.kind == TextBlock
    ensures TextOpened(st).st.textIndex == Some(|h'.done|)
  {
    hide ToolsInv, Partial, Spoken, ThinkingClosed;
    var a := ThinkingClosed(st);
    h' := ThinkingClosedKeeps(cfg, st, h, trace);
    if a.st.textIndex == None {
      var h1 := h';
      h' := BlockOpenedKeeps(cfg, a.st, h1, trace + a.events, TextBlock);
      Compose(cfg, st, h, trace, a, h1, [], BlockOpened(a.st, TextBlock), h', []);
    }
  }

  lemma ThinkingSentKeeps(cfg: Config, st: State, h: Hist, trace: seq<Event>, reasoning: Text) returns (h': Hist)
    requires Wired(cfg, st, h, trace)
    ensures Keeps(cfg, st, h, trace, ThinkingSent(st, reasoning), h', [Fragment(true, reasoning)])
  {
    hide Wired, AllToolsClosed, ThinkingOpened, DeltaSent, Spoken, Keeps;
    NoneOpen(cfg, st, h, trace);
    var b := ThinkingOpened(st);
    var h1 := ThinkingOpenedKeeps(cfg, st, h, trace);
    KeepsWired(cfg, st, h, trace, b, h1, []);
    var c := DeltaSent(b.st, b.st.thinkingIndex, ThinkingDelta, reasoning);
    h' := DeltaSentKeeps(cfg, b.st, h1, trace + b.events, b.st.thinkingIndex, ThinkingDelta, reasoning);
    Compose(cfg, st, h, trace, b, h1, [], c, h', [Fragment(true, reasoning)]);
    AfterNothing(After(b.events, c));
    assert [] + [Fragment(true, reasoning)] == [Fragment(true, reasoning)];
  }

  lemma TextSentKeeps(cfg: Config, st: State, h: Hist, trace: seq<Event>, content: Text) returns (h': Hist)
    requires Wired(cfg, st, h, trace)
    ensures Keeps(cfg, st, h, trace, TextSent(st, content), h', [Fragment(false, content)])
  {
    hide Wired, AllToolsClosed, TextOpened, DeltaSent, Spoken, Keeps;
    NoneOpen(cfg, st, h, trace);
    var b := TextOpened(st);
    var h1 := TextOpenedKeeps(cfg, st, h, trace);
    KeepsWired(cfg, st, h, trace, b, h1, []);
    var c := DeltaSent(b.st, b.st.textIndex, TextDelta, content);
    h' := DeltaSentKeeps(cfg, b.st, h1, trace + b.events, b.st.textIndex, TextDelta, content);
    Compose(cfg, st, h, trace, b, h1, [], c, h', [Fragment(false, content)]);
    AfterNothing(After(b.events, c));
    assert [] + [Fragment(false, content)] == [Fragment(false, content)];
  }

  /** Prose is sent as it was fed: reasoning, then content. */
  lemma ProseSentKeeps(cfg: Config, st: State, h: Hist, trace: seq<Event>, content: Text, reasoning: Text)
    returns (h': Hist)
    requires Wired(cfg, st, h, trace)
    ensures Keeps(cfg, st, h, trace, ProseSent(st, content, reasoning), h', PiecesOf(content, reasoning))
  {
    hide Wired, ThinkingSent, TextSent, Spoken;
    var a := if reasoning != [] then ThinkingSent(st, reasoning) else Step(st, []);
    var s1 := if reasoning != [] then [Fragment(true, reasoning)] else [];
    var h1;
    if reasoning != [] {
      h1 := ThinkingSentKeeps(cfg, st, h, trace, reasoning);
    } else {
      h1 := h;
      KeepsNothing(cfg, st, h, trace);
    }
    if content != [] {
      h' := TextSentKeeps(cfg, a.st, h1, trace + a.events, content);
      Compose(cfg, st, h, trace, a, h1, s1, TextSent(a.st, content), h', [Fragment(false, content)]);
    } else {
      h' := h1;
      assert s1 + [] == s1;
    }
  }

  // ---------- one tool, one block ----------

  function ToolBlockEvents(i: nat, id: Text, name: Text, ds: seq<Text>): seq<Event> {
    [BlockStart(i, ToolUse(id, name))] + ClosingEvents(i, ds)
  }

  lemma ToolBlockRendered(done: seq<Block>, id: Text, name: Text, ds: seq<Text>)
    ensures Partial(done, None) + ToolBlockEvents(|done|, id, name, ds)
         == Partial(done + [Block(ToolUse(id, name), ds)], None)
  {
    hide Deltas, Render;
    var b := Block(ToolUse(id, name), ds);
    assert ToolBlockEvents(|done|, id, name, ds) == RenderOpen(Some(b), |done|) + [BlockStop(|done|)];
    assert Partial(done, Some(b)) == Partial(done, None) + RenderOpen(Some(b), |done|);
    PartialStop(done, b);
  }

  lemma {:induction false} InputDeltasSayNothing(i: nat, ds: seq<Text>)
    ensures Spoken(Deltas(i, InputJsonDelta, ds)) == [] && ToolStarts(Deltas(i, InputJsonDelta, ds)) == 0
  {
    if ds != [] {
      var es := Deltas(i, InputJsonDelta, ds[..|ds| - 1]);
      InputDeltasSayNothing(i, ds[..|ds| - 1]);
      SpokenOne(es, Delta(i, InputJsonDelta, ds[|ds| - 1]));
    }
  }

  lemma ToolBlockSaysNothing(trace: seq<Event>, i: nat, id: Text, name: Text, ds: seq<Text>)
    ensures Spoken(trace + ToolBlockEvents(i, id, name, ds)) == Spoken(trace)
    ensures ToolStarts(trace + ToolBlockEvents(i, id, name, ds)) == ToolStarts(trace) + 1
  {
    hide Spoken, ToolStarts, Deltas;
    var start, body := BlockStart(i, ToolUse(id, name)), Deltas(i, InputJsonDelta, ds);
    InputDeltasSayNothing(i, ds);
    SpokenOne(trace, start);
    SpokenConcat(trace + [start], body);
    SpokenOne(trace + [start] + body, BlockStop(i));
    assert trace + ToolBlockEvents(i, id, name, ds) == trace + [start] + body + [BlockStop(i)];
  }

  function WithTool(st: State, oi: int, s: Slot): State {
    st.(tools := st.tools[oi := s], nextIndex := st.nextIndex + 1, toolsStarted := st.toolsStarted + 1,
        sawTool := true, held := [])
  }

  lemma StoppedInv(tools: map<int, Slot>, owner: map<nat, int>, done: seq<Block>, b: Block, oi: int, s: Slot)
    requires ToolsInv(tools, owner, done) && b.kind.ToolUse?
    requires oi in tools && !tools[oi].started
    requires s.id != [] && s.started && s.stopped && s.blockIndex == Some(|done|)
    ensures ToolsInv(tools[oi := s], owner[|done| := oi], done + [b])
  {
  }

  /** Opening slot `oi`, sending `ds` and closing it adds one tool block to the message. */
  lemma ToolBlockKeeps(cfg: Config, st: State, h: Hist, trace: seq<Event>, oi: int, s: Slot, name: Text, ds: seq<Text>)
    requires Wired(cfg, st, h, trace) && h.open == None && st.textIndex == None && st.thinkingIndex == None
    requires oi in st.tools && !st.tools[oi].started && BudgetLeft(cfg, st)
    requires s.id == st.tools[oi].id && s.started && s.stopped && s.blockIndex == Some(st.nextIndex)
    ensures var es := ToolBlockEvents(st.nextIndex, s.id, name, ds);
      && Wired(cfg, WithTool(st, oi, s),
               Hist(h.done + [Block(ToolUse(s.id, name), ds)], None, h.owner[|h.done| := oi]), trace + es)
      && Spoken(trace + es) == Spoken(trace)
  {
    assert SlotInv(oi, st.tools[oi], h.owner);
    hide ToolsInv, Partial, ToolBlockEvents;
    ToolBlockRendered(h.done, s.id, name, ds);
    ToolBlockSaysNothing(trace, |h.done|, s.id, name, ds);
    StoppedInv(st.tools, h.owner, h.done, Block(ToolUse(s.id, name), ds), oi, s);
  }

  /** A slot once its whole arguments have been sent as block `n`. */
  function WholeSlot(s: Slot, n: nat): Slot {
    s.(started := true, stopped := true, blockIndex := Some(n), sent := s.args)
  }

  /** In `feed` a ready slot becomes one block with one delta: its complete arguments. */
  lemma ToolFedIsOneBlock(st: State, oi: int)
    requires oi in st.tools && !st.tools[oi].started && !st.tools[oi].stopped && st.tools[oi].sent == []
    requires Ready(st.tools[oi])
    ensures var s := st.tools[oi];
      ToolFed(st, oi) == Step(WithTool(st, oi, WholeSlot(s, st.nextIndex)),
                              ToolBlockEvents(st.nextIndex, s.id, s.name, [s.args]))
  {
    hide Complete;
    var s := st.tools[oi];
    var n := st.nextIndex;
    var s1 := s.(started := true, blockIndex := Some(n));
    assert s.args[0..] == s.args && [] + s.args == s.args;
    assert Unsent(s1, false) == s.args;
    assert st.tools[oi := s1][oi := s1.(sent := s.args)][oi := WholeSlot(s, n)] == st.tools[oi := WholeSlot(s, n)];
    OneDelta(n, InputJsonDelta, s.args);
    assert ClosingEvents(n, [s.args]) == [Delta(n, InputJsonDelta, s.args)] + [BlockStop(n)];
  }

  lemma {:induction false} OneToClose(st: State, keys: seq<int>, oi: int)
    requires oi in st.tools && IsOpen(st.tools[oi]) && ClosedSlot(st.tools[oi]).stopped
    requires forall k :: k in st.tools && k != oi ==> !IsOpen(st.tools[k])
    requires forall i, j :: 0 <= i < j < |keys| ==> keys[i] < keys[j]
    ensures ToolsClosed(st, keys) == if oi in keys then ToolClosed(st, oi) else Step(st, [])
    decreases |keys|
  {
    hide ClosedSlot, ClosingEvents, ClosingDeltas;
    if keys != [] {
      var t := keys[1..];
      if keys[0] == oi {
        var a := ToolClosed(st, oi);
        NothingToClose(a.st, t);
        assert a.events + [] == a.events;
      } else {
        OneToClose(st, t, oi);
        AfterNothing(ToolsClosed(st, t));
        assert oi in keys <==> oi in t;
      }
    }
  }

  lemma ClosedIsStopped(s: Slot)
    ensures ClosedSlot(s).stopped
  {
    hide Unsent, Strip;
  }

  /** In `finish` an unstarted slot becomes one block, whatever its arguments are. */
  lemma ToolFinishedIsOneBlock(st: State, oi: int)
    requires oi in st.tools && !st.tools[oi].started && !st.tools[oi].stopped
    requires forall k :: k in st.tools ==> !IsOpen(st.tools[k])
    ensures var s := st.tools[oi].(started := true, blockIndex := Some(st.nextIndex));
      var name := if Strip(s.name) == [] then TOOL else Strip(s.name);
      ToolFinished(st, oi) == Step(WithTool(st, oi, ClosedSlot(s)),
                                   ToolBlockEvents(st.nextIndex, s.id, name, ClosingDeltas(s)))
  {
    hide ToolsClosed, Strip, SortedKeys, ClosedSlot, ClosingEvents, ClosingDeltas;
    ClosedIsStopped(st.tools[oi].(started := true, blockIndex := Some(st.nextIndex)));
    var s := st.tools[oi].(started := true, blockIndex := Some(st.nextIndex));
    var name := if Strip(s.name) == [] then TOOL else Strip(s.name);
    NothingToClose(st, SortedKeys(st.tools.Keys));
    var b := ToolStarted(st, oi, name);
    assert b.st.tools[oi] == s;
    OneToClose(b.st, SortedKeys(b.st.tools.Keys), oi);
    assert st.tools[oi := s][oi := ClosedSlot(s)] == st.tools[oi := ClosedSlot(s)];
    assert [] + b.events == b.events;
  }

  // ---------- the loop of feed ----------

  /** Nothing but tool blocks can be sent now. */
  ghost predicate Quiet(cfg: Config, st: State, h: Hist, trace: seq<Event>) {
    Wired(cfg, st, h, trace) && h.open == None && st.textIndex == None && st.thinkingIndex == None
  }

  /** `keys` are the upstream indices still to visit; those already visited are stopped and smaller. */
  ghost predicate ToVisit(tools: map<int, Slot>, keys: seq<int>) {
    && (forall i, j :: 0 <= i < j < |keys| ==> keys[i] < keys[j])
    && (forall k :: k in keys ==> k in tools)
    && (forall k :: k in tools && k !in keys ==> tools[k].stopped && forall j :: j in keys ==> k < j)
  }

  /** Slot `s` has become `s'` by being sent whole as one of the blocks added to `h`. */
  ghost predicate SentNow(s: Slot, s': Slot, h: Hist, h': Hist) {
    && !s.stopped && Ready(s)
    && s'.blockIndex.Some?
    && var n := s'.blockIndex.value;
       && |h.done| <= n < |h'.done|
       && s' == WholeSlot(s, n)
       && h'.done[n] == Block(ToolUse(s.id, s.name), [s.args])
  }

  /** From block `n` on there are only tool blocks. */
  ghost predicate OnlyTools(bs: seq<Block>, n: nat) {
    forall i :: n <= i < |bs| ==> bs[i].kind.ToolUse?
  }

  /** Slots change only by being sent whole. */
  ghost predicate Delivered(st: State, h: Hist, st': State, h': Hist) {
    && h.done <= h'.done && OnlyTools(h'.done, |h.done|)
    && st'.tools.Keys == st.tools.Keys
    && (forall k :: k in st.tools ==> st'.tools[k] == st.tools[k] || SentNow(st.tools[k], st'.tools[k], h, h'))
    && st' == st.(tools := st'.tools, nextIndex := st'.nextIndex, toolsStarted := st'.toolsStarted,
                  sawTool := st'.sawTool, held := st'.held)
    && (if st'.tools == st.tools then st'.held == st.held && st'.sawTool == st.sawTool
        else st'.held == [] && st'.sawTool)
  }

  /** Tools leave in the order of their upstream indices: a slot is sent after every smaller known one. */
  ghost predicate InOrder(st: State, st': State) {
    forall a, k :: a in st'.tools && k in st'.tools && k in st.tools && a < k
      && st'.tools[k].stopped && !st.tools[k].stopped
      ==> st'.tools[a].stopped && IndexOf(st'.tools[a]) < IndexOf(st'.tools[k])
  }

  /** A slot is still held only behind an unfinished one (or itself), or because the cap is reached. */
  ghost predicate NothingHeldBack(cfg: Config, st: State) {
    forall k :: k in st.tools && !st.tools[k].stopped ==>
      !BudgetLeft(cfg, st) || exists a :: a in st.tools && a <= k && !st.tools[a].stopped && !Ready(st.tools[a])
  }

  lemma BreaksWhen(cfg: Config, st: State, h: Hist, trace: seq<Event>, keys: seq<int>)
    requires Quiet(cfg, st, h, trace) && ToVisit(st.tools, keys)
    requires keys != [] && keys[0] in st.tools && !st.tools[keys[0]].stopped
    ensures !st.tools[keys[0]].started && st.tools[keys[0]].sent == []
    ensures FeedBreaks(cfg, st, keys[0]) <==> !Ready(st.tools[keys[0]]) || !BudgetLeft(cfg, st)
  {
    hide Partial, Ready, ToolStarts;
    assert SlotInv(keys[0], st.tools[keys[0]], h.owner);
    forall k | k in st.tools && k < keys[0] ensures st.tools[k].stopped {
      assert k !in keys;
    }
    forall k | k in st.tools ensures !IsOpen(st.tools[k]) {
      assert SlotInv(k, st.tools[k], h.owner);
    }
  }

  lemma ToolsFedKeeps(cfg: Config, st: State, h: Hist, trace: seq<Event>, keys: seq<int>) returns (h': Hist)
    requires Quiet(cfg, st, h, trace) && ToVisit(st.tools, keys)
    ensures var r := ToolsFed(cfg, st, keys);
      && Quiet(cfg, r.st, h', trace + r.events)
      && Spoken(trace + r.events) == Spoken(trace)
      && Delivered(st, h, r.st, h') && InOrder(st, r.st) && NothingHeldBack(cfg, r.st)
    decreases |keys|
  {
    hide Quiet, Ready, Spoken, Delivered, InOrder, NothingHeldBack, FeedBreaks, BudgetLeft, ToolFed,
      WithTool, WholeSlot;
    h' := h;
    assert keys != [] ==> keys[0] in keys;
    if keys == [] || (!st.tools[keys[0]].stopped && (!Ready(st.tools[keys[0]]) || !BudgetLeft(cfg, st))) {
      assert trace + [] == trace;
      LoopStops(cfg, st, h, trace, keys);
    } else if st.tools[keys[0]].stopped {
      SkipStopped(st.tools, keys);
      h' := ToolsFedKeeps(cfg, st, h, trace, keys[1..]);
    } else {
      BreaksWhen(cfg, st, h, trace, keys);
      var oi, rest := keys[0], keys[1..];
      var s := st.tools[oi];
      var n := st.nextIndex;
      var es := ToolBlockEvents(n, s.id, s.name, [s.args]);
      var a := WithTool(st, oi, WholeSlot(s, n));
      ToolFedIsOneBlock(st, oi);
      var h1 := FedOne(cfg, st, h, trace, keys);
      h' := ToolsFedKeeps(cfg, a, h1, trace + es, rest);
      var q := ToolsFed(cfg, a, rest);
      assert trace + (es + q.events) == trace + es + q.events;
      DeliveredThen(cfg, st, h, a, h1, q.st, h', keys);
    }
  }

  lemma SkipStopped(tools: map<int, Slot>, keys: seq<int>)
    requires ToVisit(tools, keys) && keys != [] && keys[0] in tools && tools[keys[0]].stopped
    ensures ToVisit(tools, keys[1..])
  {
    assert forall k :: k in keys <==> k == keys[0] || k in keys[1..];
  }

  /** The loop stops at its first slot, or has none left. */
  lemma LoopStops(cfg: Config, st: State, h: Hist, trace: seq<Event>, keys: seq<int>)
    requires Quiet(cfg, st, h, trace) && ToVisit(st.tools, keys)
    requires keys != [] ==>
      keys[0] in st.tools && !st.tools[keys[0]].stopped && (!Ready(st.tools[keys[0]]) || !BudgetLeft(cfg, st))
    ensures ToolsFed(cfg, st, keys) == Step(st, [])
    ensures Delivered(st, h, st, h) && InOrder(st, st) && NothingHeldBack(cfg, st)
  {
    hide Wired, Ready, FeedBreaks, ToolFed;
    if keys != [] {
      BreaksWhen(cfg, st, h, trace, keys);
      forall k | k in st.tools && !st.tools[k].stopped ensures keys[0] <= k {
        assert k in keys;
      }
    }
  }

  /** One slot sent whole: the visited slot is stopped, and the rest is still to visit. */
  lemma FedOne(cfg: Config, st: State, h: Hist, trace: seq<Event>, keys: seq<int>) returns (h1: Hist)
    requires Quiet(cfg, st, h, trace) && ToVisit(st.tools, keys) && keys != [] && keys[0] in st.tools
    requires !st.tools[keys[0]].stopped && BudgetLeft(cfg, st)
    ensures var s := st.tools[keys[0]];
      var a := WithTool(st, keys[0], WholeSlot(s, st.nextIndex));
      var es := ToolBlockEvents(st.nextIndex, s.id, s.name, [s.args]);
      && ToVisit(a.tools, keys[1..])
      && h1 == Hist(h.done + [Block(ToolUse(s.id, s.name), [s.args])], None, h.owner[|h.done| := keys[0]])
      && Quiet(cfg, a, h1, trace + es) && Spoken(trace + es) == Spoken(trace)
      && st.nextIndex == |h.done|
    ensures forall k :: k in st.tools && st.tools[k].stopped ==> IndexOf(st.tools[k]) < |h.done|
  {
    hide Partial, ToolStarts, Spoken, ToolBlockEvents;
    var s := st.tools[keys[0]];
    assert SlotInv(keys[0], s, h.owner);
    h1 := Hist(h.done + [Block(ToolUse(s.id, s.name), [s.args])], None, h.owner[|h.done| := keys[0]]);
    ToolBlockKeeps(cfg, st, h, trace, keys[0], WholeSlot(s, st.nextIndex), s.name, [s.args]);
    assert forall k :: k in keys <==> k == keys[0] || k in keys[1..];
    forall k | k in st.tools && st.tools[k].stopped ensures IndexOf(st.tools[k]) < |h.done| {
      assert SlotInv(k, st.tools[k], h.owner);
    }
  }

  lemma SentFirst(s: Slot, h: Hist, h1: Hist, h': Hist)
    requires !s.stopped && Ready(s) && h1.done == h.done + [Block(ToolUse(s.id, s.name), [s.args])]
      && h1.done <= h'.done
    ensures SentNow(s, WholeSlot(s, |h.done|), h, h')
  {
    hide Ready;
    assert h'.done[|h.done|] == h1.done[|h.done|];
  }

  lemma SentShape(s: Slot, s': Slot, h: Hist, h1: Hist, h': Hist)
    requires |h.done| <= |h1.done| && SentNow(s, s', h1, h')
    ensures SentNow(s, s', h, h') && !s.stopped && s'.stopped && |h1.done| <= IndexOf(s')
  {
    hide Ready;
  }

  /** `a` is `st` after its first slot to visit was sent whole. */
  ghost predicate FirstSent(st: State, h: Hist, a: State, h1: Hist, keys: seq<int>) {
    && keys != [] && keys[0] in st.tools && ToVisit(st.tools, keys)
    && var s := st.tools[keys[0]];
       && !s.stopped && Ready(s)
       && st.nextIndex == |h.done|
       && a == WithTool(st, keys[0], WholeSlot(s, st.nextIndex))
       && h1 == Hist(h.done + [Block(ToolUse(s.id, s.name), [s.args])], None, h.owner[|h.done| := keys[0]])
  }

  lemma SlotsThen(st: State, h: Hist, a: State, h1: Hist, st': State, h': Hist, keys: seq<int>)
    requires FirstSent(st, h, a, h1, keys) && Delivered(a, h1, st', h')
    ensures forall k :: k in st.tools && st'.tools[k] != a.tools[k] ==>
      SentNow(a.tools[k], st'.tools[k], h, h') && !a.tools[k].stopped && st'.tools[k].stopped
      && |h1.done| <= IndexOf(st'.tools[k])
    ensures st'.tools[keys[0]] == WholeSlot(st.tools[keys[0]], |h.done|)
    ensures forall k :: k in st.tools && k != keys[0] ==> a.tools[k] == st.tools[k]
  {
    hide Ready, SentNow, ToVisit;
    forall k | k in st.tools && st'.tools[k] != a.tools[k]
      ensures SentNow(a.tools[k], st'.tools[k], h, h') && !a.tools[k].stopped && st'.tools[k].stopped
      ensures |h1.done| <= IndexOf(st'.tools[k])
    {
      SentShape(a.tools[k], st'.tools[k], h, h1, h');
    }
  }

  /** One slot sent, then others: the whole is still a delivery in order. */
  lemma DeliveredThen(cfg: Config, st: State, h: Hist, a: State, h1: Hist, st': State, h': Hist, keys: seq<int>)
    requires FirstSent(st, h, a, h1, keys)
    requires forall k :: k in st.tools && st.tools[k].stopped ==> IndexOf(st.tools[k]) < |h.done|
    requires Delivered(a, h1, st', h') && InOrder(a, st')
    ensures Delivered(st, h, st', h') && InOrder(st, st')
  {
    hide Ready, SentNow;
    var oi := keys[0];
    SlotsThen(st, h, a, h1, st', h', keys);
    SentFirst(st.tools[oi], h, h1, h');
    forall x, k | x in st'.tools && k in st'.tools && k in st.tools && x < k
      && st'.tools[k].stopped && !st.tools[k].stopped
      ensures st'.tools[x].stopped && IndexOf(st'.tools[x]) < IndexOf(st'.tools[k])
    {
      if k == oi { assert x !in keys; }
    }
  }

  // ---------- feed ----------

  predicate Mentioned(k: int, ds: seq<ToolDelta>) {
    exists i :: 0 <= i < |ds| && ds[i].ToolDelta? && ds[i].index == k
  }

  /** The known slots are the old ones and those that a delta mentions. */
  lemma {:induction false} IngestKeys(tools: map<int, Slot>, ds: seq<ToolDelta>)
    ensures forall k :: k in Ingest(tools, ds) <==> k in tools || Mentioned(k, ds)
  {
    hide Absorb, NewSlot;
    if ds != [] {
      var front, d := ds[..|ds| - 1], ds[|ds| - 1];
      IngestKeys(tools, front);
      forall k ensures Mentioned(k, ds) <==> Mentioned(k, front) || (d.ToolDelta? && d.index == k) {
        MentionedSnoc(front, d, k);
        assert front + [d] == ds;
      }
    }
  }

  lemma MentionedSnoc(ds: seq<ToolDelta>, d: ToolDelta, k: int)
    ensures Mentioned(k, ds + [d]) <==> Mentioned(k, ds) || (d.ToolDelta? && d.index == k)
  {
    var es := ds + [d];
    if Mentioned(k, ds) {
      var i :| 0 <= i < |ds| && ds[i].ToolDelta? && ds[i].index == k;
      assert es[i].index == k;
    }
    if d.ToolDelta? && d.index == k { assert es[|ds|].index == k; }
  }

  lemma {:induction false} IngestInv(tools: map<int, Slot>, ds: seq<ToolDelta>, owner: map<nat, int>, done: seq<Block>)
    requires ToolsInv(tools, owner, done)
    ensures ToolsInv(Ingest(tools, ds), owner, done)
    ensures forall k :: k in tools && tools[k].stopped ==> k in Ingest(tools, ds) && Ingest(tools, ds)[k] == tools[k]
    ensures forall k :: k in Ingest(tools, ds) && Ingest(tools, ds)[k].stopped ==> k in tools && tools[k].stopped
  {
    hide Absorb, NewSlot;
    if ds != [] {
      var front, d := ds[..|ds| - 1], ds[|ds| - 1];
      IngestInv(tools, front, owner, done);
      if d.ToolDelta? {
        NewSlotShape(d);
        AbsorbInv(Ingest(tools, front), owner, done, d);
      }
    }
  }

  lemma AbsorbInv(t: map<int, Slot>, owner: map<nat, int>, done: seq<Block>, d: ToolDelta)
    requires ToolsInv(t, owner, done) && d.ToolDelta?
    ensures ToolsInv(t[d.index := Absorb(if d.index in t then t[d.index] else NewSlot(d), d)], owner, done)
  {
    hide Absorb, NewSlot;
    NewSlotShape(d);
  }

  lemma NewSlotShape(d: ToolDelta)
    requires d.ToolDelta?
    ensures var s := NewSlot(d); s.id != [] && !s.started && !s.stopped && s.blockIndex.None? && s.sent == []
  {
  }

  /** A stopped slot is one whole tool block of the message. */
  ghost predicate Whole(tools: map<int, Slot>, done: seq<Block>) {
    forall k :: k in tools && tools[k].stopped ==>
      var s := tools[k];
      && s.blockIndex.Some? && s.blockIndex.value < |done|
      && done[s.blockIndex.value] == Block(ToolUse(s.id, s.name), [s.args])
      && Complete(s.args, s.name)
  }

  /** What has been said of what was fed: with tools requested nothing yet, else everything. */
  ghost predicate Spoke(cfg: Config, st: State, h: Hist, trace: seq<Event>, fed: seq<Fragment>) {
    if cfg.toolsRequested then
      && Spoken(trace) == [] && h.open == None && OnlyTools(h.done, 0)
      && (if st.sawTool then st.held == [] else HeldPieces(st.held) == fed)
    else Spoken(trace) == fed && st.held == []
  }

  /** Holds before `finish`, after any number of calls of `feed`. */
  ghost predicate Valid(cfg: Config, st: State, h: Hist, trace: seq<Event>, fed: seq<Fragment>) {
    if !st.started then st == FRESH && h == Hist([], None, map[]) && trace == [] && fed == []
    else Wired(cfg, st, h, trace) && Whole(st.tools, h.done) && Spoke(cfg, st, h, trace, fed)
  }

  lemma StartedKeeps(cfg: Config, st: State, h: Hist, trace: seq<Event>, fed: seq<Fragment>)
    requires Valid(cfg, st, h, trace, fed)
    ensures var r := Started(st);
      Valid(cfg, r.st, h, trace + r.events, fed) && r.st.started && r.st.tools == st.tools
  {
    hide Complete, HeldPieces, Spoken, ToolStarts;
    assert trace + [] == trace;
    if !st.started {
      assert [] + [MessageStart] == [MessageStart] == Partial([], None);
      SpokenNone();
      SpokenOne([], MessageStart);
      NoHeld();
    }
  }

  lemma NoHeld()
    ensures HeldPieces([]) == []
  {
  }

  lemma {:induction false} HeldPiecesAppend(held: seq<Held>, x: Held)
    ensures HeldPieces(held + [x]) == HeldPieces(held) + PiecesOf(x.content, x.reasoning)
  {
    hide PiecesOf;
    if held == [] {
      assert [x][1..] == [];
    } else {
      HeldPiecesAppend(held[1..], x);
      assert (held + [x])[1..] == held[1..] + [x];
    }
  }

  /** The text half of `feed`. */
  lemma ProseFedKeeps(cfg: Config, st: State, h: Hist, trace: seq<Event>, fed: seq<Fragment>, c: Chunk)
    returns (h': Hist)
    requires st.started && Valid(cfg, st, h, trace, fed)
    ensures var r := ProseFed(cfg, st, c);
      && Valid(cfg, r.st, h', trace + r.events, fed + PiecesOf(c.content, c.reasoning))
      && r.st.started && r.st.tools == st.tools && h.done <= h'.done
  {
    hide Wired, ProseSent, Spoken;
    h' := h;
    assert trace + [] == trace;
    if !cfg.toolsRequested {
      h' := ProseSentKeeps(cfg, st, h, trace, c.content, c.reasoning);
    } else if !st.sawTool {
      if c.content != [] || c.reasoning != [] {
        HeldPiecesAppend(st.held, Held(c.content, c.reasoning));
        HeldIsFree(cfg, st, h, trace, st.held + [Held(c.content, c.reasoning)]);
      } else {
        assert fed + [] == fed;
      }
    }
  }

  lemma HeldIsFree(cfg: Config, st: State, h: Hist, trace: seq<Event>, held: seq<Held>)
    requires Wired(cfg, st, h, trace)
    ensures Wired(cfg, st.(held := held), h, trace) && Wired(cfg, st.(toolsPending := true), h, trace)
  {
  }

  lemma WholeLater(tools: map<int, Slot>, done: seq<Block>, done': seq<Block>)
    requires Whole(tools, done) && done <= done'
    ensures Whole(tools, done')
  {
    hide Complete;
  }

  lemma WholeDelivered(st: State, h: Hist, st': State, h': Hist)
    requires Whole(st.tools, h.done) && Delivered(st, h, st', h')
    ensures Whole(st'.tools, h'.done)
  {
    hide Complete;
  }

  /** After a `feed` with tool calls: what became of the slots. */
  ghost predicate CallsDone(cfg: Config, st: State, h: Hist, r: State, h': Hist, calls: seq<ToolDelta>) {
    var t := Ingest(st.tools, calls);
    && r.tools.Keys == t.Keys
    && (forall k :: k in t ==> r.tools[k] == t[k] || SentNow(t[k], r.tools[k], h, h'))
    && InOrder(st.(tools := t), r)
    && (calls != [] ==> NothingHeldBack(cfg, r))
  }

  /** The tool half of `feed`. */
  lemma CallsFedKeeps(cfg: Config, st: State, h: Hist, trace: seq<Event>, fed: seq<Fragment>, calls: seq<ToolDelta>)
    returns (h': Hist)
    requires st.started && Valid(cfg, st, h, trace, fed)
    ensures var r := CallsFed(cfg, st, calls);
      && r.st.started && Valid(cfg, r.st, h', trace + r.events, fed)
      && h.done <= h'.done && CallsDone(cfg, st, h, r.st, h', calls)
  {
    hide Spoken, ToolsFed, ProseClosed, SortedKeys, NothingHeldBack, Wired, Ingest, Whole, Spoke, Delivered,
      InOrder, SentNow;
    if calls == [] {
      h' := h;
      assert trace + [] == trace;
      NoCalls(cfg, st, h);
    } else {
      var st0 := st.(toolsPending := true);
      HeldIsFree(cfg, st, h, trace, st.held);
      var a := ProseClosed(st0);
      var h1 := ProseClosedKeeps(cfg, st0, h, trace);
      var t1 := trace + a.events;
      var tools := Ingest(st.tools, calls);
      var st1 := a.st.(tools := tools);
      IngestWired(cfg, a.st, h1, t1, calls);
      h' := ToolsFedKeeps(cfg, st1, h1, t1, SortedKeys(tools.Keys));
      var b := ToolsFed(cfg, st1, SortedKeys(tools.Keys));
      assert trace + (a.events + b.events) == t1 + b.events;
      WholeLater(st.tools, h.done, h1.done);
      WholeIngested(st.tools, tools, h1.done);
      WholeDelivered(st1, h1, b.st, h');
      CallsSpoke(cfg, st, h, trace, st1, h1, t1, b.st, h', t1 + b.events, fed);
      CallsDoneIs(cfg, st, h, a.st, h1, b.st, h', calls);
    }
  }

  lemma CallsDoneIs(cfg: Config, st: State, h: Hist, a: State, h1: Hist, r: State, h': Hist, calls: seq<ToolDelta>)
    requires a.tools == st.tools && h.done <= h1.done
    requires var st1 := a.(tools := Ingest(st.tools, calls));
      Delivered(st1, h1, r, h') && InOrder(st1, r) && NothingHeldBack(cfg, r)
    ensures CallsDone(cfg, st, h, r, h', calls) && h.done <= h'.done && r.started == a.started
  {
    hide Ready, Ingest, NothingHeldBack;
  }

  lemma NoCalls(cfg: Config, st: State, h: Hist)
    ensures CallsDone(cfg, st, h, st, h, [])
  {
    hide Ready;
  }

  lemma WholeIngested(tools: map<int, Slot>, t: map<int, Slot>, done: seq<Block>)
    requires Whole(tools, done)
    requires forall k :: k in t && t[k].stopped ==> k in tools && t[k] == tools[k]
    ensures Whole(t, done)
  {
    hide Complete;
  }

  lemma IngestWired(cfg: Config, st: State, h: Hist, trace: seq<Event>, calls: seq<ToolDelta>)
    requires Quiet(cfg, st, h, trace)
    ensures var t := Ingest(st.tools, calls);
      && Quiet(cfg, st.(tools := t), h, trace)
      && (forall k :: k in t && t[k].stopped ==> k in st.tools && t[k] == st.tools[k])
      && ToVisit(t, SortedKeys(t.Keys))
  {
    hide Partial, ToolStarts, Ingest;
    IngestInv(st.tools, calls, h.owner, h.done);
  }

  lemma CallsSpoke(cfg: Config, st: State, h: Hist, trace: seq<Event>, st1: State, h1: Hist, t1: seq<Event>,
                   st2: State, h2: Hist, t2: seq<Event>, fed: seq<Fragment>)
    requires Spoke(cfg, st, h, trace, fed)
    requires Spoken(t1) == Spoken(trace) && Spoken(t2) == Spoken(t1)
    requires h.open == None ==> h1 == h
    requires st1.held == st.held && st1.sawTool == st.sawTool && h1.open == None && h2.open == None
    requires Delivered(st1, h1, st2, h2)
    ensures Spoke(cfg, st2, h2, t2, fed)
  {
    hide Spoken, SentNow;
  }

  /**
   One `feed`: the trace stays well formed, what was fed is all said or all held, every stopped
   slot is one whole block, and tools leave in upstream order.
   */
  lemma FedKeeps(cfg: Config, st: State, h: Hist, trace: seq<Event>, fed: seq<Fragment>, c: Chunk) returns (h': Hist)
    requires Valid(cfg, st, h, trace, fed)
    ensures var r := Fed(cfg, st, c);
      && r.st.started
      && Valid(cfg, r.st, h', trace + r.events, fed + PiecesOf(c.content, c.reasoning))
      && h.done <= h'.done && CallsDone(cfg, st, h, r.st, h', c.toolCalls)
  {
    hide Valid, Started, ProseFed, CallsFed, PiecesOf, CallsDone;
    var a := Started(st);
    StartedKeeps(cfg, st, h, trace, fed);
    var b := ProseFed(cfg, a.st, c);
    var h1 := ProseFedKeeps(cfg, a.st, h, trace + a.events, fed, c);
    var t := trace + a.events + b.events;
    var d := CallsFed(cfg, b.st, c.toolCalls);
    h' := CallsFedKeeps(cfg, b.st, h1, t, fed + PiecesOf(c.content, c.reasoning), c.toolCalls);
    assert trace + (a.events + b.events + d.events) == t + d.events;
    CallsDoneFrom(cfg, st, h, b.st, h1, d.st, h', c.toolCalls);
  }

  lemma CallsDoneFrom(cfg: Config, st: State, h: Hist, st1: State, h1: Hist, r: State, h': Hist, calls: seq<ToolDelta>)
    requires CallsDone(cfg, st1, h1, r, h', calls) && st1.tools == st.tools && h.done <= h1.done
    ensures CallsDone(cfg, st, h, r, h', calls)
  {
    hide Ready, Ingest, NothingHeldBack;
  }

  // ---------- finish ----------

  lemma {:induction false} HeldSentKeeps(cfg: Config, st: State, h: Hist, trace: seq<Event>, held: seq<Held>)
    returns (h': Hist)
    requires Wired(cfg, st, h, trace)
    ensures Keeps(cfg, st, h, trace, HeldSent(st, held), h', HeldPieces(held))
    decreases |held|
  {
    hide Wired, ProseSent, Spoken, PiecesOf;
    if held == [] {
      h' := h;
      KeepsNothing(cfg, st, h, trace);
    } else {
      var a := ProseSent(st, held[0].content, held[0].reasoning);
      var h1 := ProseSentKeeps(cfg, st, h, trace, held[0].content, held[0].reasoning);
      h' := HeldSentKeeps(cfg, a.st, h1, trace + a.events, held[1..]);
      Compose(cfg, st, h, trace, a, h1, PiecesOf(held[0].content, held[0].reasoning),
              HeldSent(a.st, held[1..]), h', HeldPieces(held[1..]));
    }
  }

  /** Tools have won: one is on the wire, or one is ready. */
  predicate ToolsWin(st: State) {
    st.sawTool || HasReadyTool(st.tools)
  }

  /** No prose block follows a tool block. */
  ghost predicate ProseFirst(bs: seq<Block>) {
    forall i, j :: 0 <= i < j < |bs| && bs[i].kind.ToolUse? ==> bs[j].kind.ToolUse?
  }

  /** The preface is sent in full unless tools win. */
  lemma PrefaceKeeps(cfg: Config, st: State, h: Hist, trace: seq<Event>, fed: seq<Fragment>) returns (h': Hist)
    requires st.started && Valid(cfg, st, h, trace, fed)
    ensures var r := PrefaceFinished(st);
      && Wired(cfg, r.st, h', trace + r.events) && h.done <= h'.done && h'.owner == h.owner
      && r.st.tools == st.tools && r.st.held == [] && r.st.sawTool == st.sawTool
      && Spoken(trace + r.events) == (if cfg.toolsRequested && ToolsWin(st) then [] else fed)
      && (cfg.toolsRequested ==> ProseFirst(h'.done))
      && (cfg.toolsRequested && st.sawTool ==> h'.open == None)
  {
    hide Partial, ToolsInv, ToolStarts, HeldSent, HeldPieces, Spoken, HasReadyTool;
    if ToolsWin(st) {
      h' := h;
      assert trace + [] == trace;
      HeldIsFree(cfg, st, h, trace, []);
    } else {
      h' := HeldSentKeeps(cfg, st, h, trace, st.held);
      var a := HeldSent(st, st.held);
      HeldIsFree(cfg, a.st, h', trace + a.events, []);
      NoHeld();
      assert [] + fed == fed && fed + [] == fed;
      if cfg.toolsRequested {
        NoToolBlocks(cfg, a.st, h', trace + a.events);
      }
    }
  }

  lemma OpenStarts(b: Block, i: nat)
    requires b.kind.ToolUse?
    ensures ToolStarts(RenderOpen(Some(b), i)) > 0
  {
    hide ToolStarts, Spoken;
    var e := BlockStart(i, b.kind);
    SpokenNone();
    SpokenOne([], e);
    assert [] + [e] == [e];
    SpokenConcat([e], RenderDeltas(b, i));
  }

  lemma {:induction false} RenderStarts(bs: seq<Block>, i: nat)
    requires i < |bs| && bs[i].kind.ToolUse?
    ensures ToolStarts(Render(bs)) > 0
  {
    hide ToolStarts, Spoken, RenderOpen;
    var n := |bs| - 1;
    SpokenConcat(Render(bs[..n]) + RenderOpen(Some(bs[n]), n), [BlockStop(n)]);
    SpokenConcat(Render(bs[..n]), RenderOpen(Some(bs[n]), n));
    if i < n {
      RenderStarts(bs[..n], i);
    } else {
      OpenStarts(bs[n], n);
    }
  }

  lemma NoToolBlocks(cfg: Config, st: State, h: Hist, trace: seq<Event>)
    requires Wired(cfg, st, h, trace) && !st.sawTool
    ensures forall i :: 0 <= i < |h.done| ==> !h.done[i].kind.ToolUse?
  {
    hide Render, ToolsInv, ToolStarts;
    SpokenConcat([MessageStart] + Render(h.done), RenderOpen(h.open, |h.done|));
    SpokenConcat([MessageStart], Render(h.done));
    forall i | 0 <= i < |h.done| ensures !h.done[i].kind.ToolUse? {
      if h.done[i].kind.ToolUse? { RenderStarts(h.done, i); }
    }
  }

  /** The deltas of a tool block opened by `finish`: its arguments, and `{}` in place of blank ones. */
  function FinalDeltas(args: Text): seq<Text> {
    if args == [] then [EMPTY_OBJECT]
    else if Strip(args) == [] then [args, EMPTY_OBJECT]
    else [args]
  }

  function FinalName(s: Slot): Text {
    if Strip(s.name) == [] then TOOL else Strip(s.name)
  }

  lemma ClosingIsFinal(s: Slot)
    requires s.started && s.sent == []
    ensures ClosingDeltas(s) == FinalDeltas(s.args)
  {
    hide Complete;
    assert s.args[0..] == s.args && [] + s.args == s.args;
    assert Strip([]) == [];
  }

  /** Slot `s` has become `s'` by being opened and closed in `finish`. */
  ghost predicate FinishedNow(s: Slot, s': Slot, h: Hist, h': Hist) {
    && !s.stopped
    && s'.blockIndex.Some?
    && var n := s'.blockIndex.value;
       && |h.done| <= n < |h'.done|
       && s' == ClosedSlot(s.(started := true, blockIndex := Some(n)))
       && h'.done[n] == Block(ToolUse(s.id, FinalName(s)), FinalDeltas(s.args))
  }

  /** A slot with neither a name nor arguments. */
  predicate Ghostly(s: Slot) { Strip(s.name) == [] && Strip(s.args) == [] }

  /** What `finish` makes of the slots at `keys`. */
  ghost predicate Ended(cfg: Config, st: State, h: Hist, r: State, h': Hist, keys: seq<int>) {
    && h.done <= h'.done && OnlyTools(h'.done, |h.done|)
    && r.tools.Keys == st.tools.Keys && r.held == []
    && st.toolsStarted <= r.toolsStarted
    && (forall k :: k in st.tools ==> r.tools[k] == st.tools[k] || FinishedNow(st.tools[k], r.tools[k], h, h'))
    && (forall k :: k in keys && k in r.tools && !r.tools[k].stopped ==> Ghostly(r.tools[k]) || !BudgetLeft(cfg, r))
  }

  lemma ToolsFinishedKeeps(cfg: Config, st: State, h: Hist, trace: seq<Event>, keys: seq<int>) returns (h': Hist)
    requires Quiet(cfg, st, h, trace) && st.held == []
    requires forall i, j :: 0 <= i < j < |keys| ==> keys[i] < keys[j]
    requires forall k :: k in keys ==> k in st.tools
    ensures var r := ToolsFinished(cfg, st, keys);
      && Quiet(cfg, r.st, h', trace + r.events)
      && Spoken(trace + r.events) == Spoken(trace)
      && Ended(cfg, st, h, r.st, h', keys)
    decreases |keys|
  {
    hide Quiet, Spoken, Ended, FinishSkips, ToolFinished, WithTool, ClosedSlot, ClosingDeltas, FinalName;
    h' := h;
    if keys == [] {
      assert trace + [] == trace;
      EndedNothing(cfg, st, h);
    } else {
      assert keys[0] in keys;
      var oi, rest := keys[0], keys[1..];
      SkipsWhen(cfg, st, h, trace, oi);
      if FinishSkips(cfg, st, oi) {
        h' := ToolsFinishedKeeps(cfg, st, h, trace, rest);
        EndedSkip(cfg, st, h, ToolsFinished(cfg, st, rest).st, h', keys);
      } else {
        var s := st.tools[oi].(started := true, blockIndex := Some(st.nextIndex));
        var es := ToolBlockEvents(st.nextIndex, s.id, FinalName(s), ClosingDeltas(s));
        var a := WithTool(st, oi, ClosedSlot(s));
        var h1 := FinishOne(cfg, st, h, trace, oi);
        h' := ToolsFinishedKeeps(cfg, a, h1, trace + es, rest);
        var q := ToolsFinished(cfg, a, rest);
        assert trace + (es + q.events) == trace + es + q.events;
        EndedThen(cfg, st, h, a, h1, q.st, h', keys);
      }
    }
  }

  lemma EndedNothing(cfg: Config, st: State, h: Hist)
    requires st.held == []
    ensures Ended(cfg, st, h, st, h, [])
  {
  }

  lemma SkipsWhen(cfg: Config, st: State, h: Hist, trace: seq<Event>, oi: int)
    requires Quiet(cfg, st, h, trace) && st.held == [] && oi in st.tools
    ensures st.tools[oi].started == st.tools[oi].stopped
    ensures FinishSkips(cfg, st, oi) <==> st.tools[oi].stopped || Ghostly(st.tools[oi]) || !BudgetLeft(cfg, st)
  {
    hide Complete, Strip;
    assert SlotInv(oi, st.tools[oi], h.owner);
  }

  lemma EndedSkip(cfg: Config, st: State, h: Hist, r: State, h': Hist, keys: seq<int>)
    requires keys != [] && keys[0] in st.tools && Ended(cfg, st, h, r, h', keys[1..])
    requires keys[0] !in keys[1..]
    requires st.tools[keys[0]].stopped || Ghostly(st.tools[keys[0]]) || !BudgetLeft(cfg, st)
    ensures Ended(cfg, st, h, r, h', keys)
  {
    hide FinalName, FinalDeltas, Strip;
    forall k | k in keys && k in r.tools && !r.tools[k].stopped ensures Ghostly(r.tools[k]) || !BudgetLeft(cfg, r) {
      if k == keys[0] && r.tools[k] != st.tools[k] {
        FinishedShape(st.tools[k], r.tools[k], h, h, h');
      }
    }
  }

  lemma FinishedShape(s: Slot, s': Slot, h: Hist, h1: Hist, h': Hist)
    requires |h.done| <= |h1.done| && FinishedNow(s, s', h1, h')
    ensures FinishedNow(s, s', h, h') && !s.stopped && s'.stopped
  {
    hide FinalName, FinalDeltas, Unsent, Strip;
  }

  /** One slot opened and closed by `finish`. */
  lemma FinishOne(cfg: Config, st: State, h: Hist, trace: seq<Event>, oi: int) returns (h1: Hist)
    requires Quiet(cfg, st, h, trace) && st.held == [] && oi in st.tools && !st.tools[oi].stopped && BudgetLeft(cfg, st)
    ensures var s := st.tools[oi].(started := true, blockIndex := Some(st.nextIndex));
      var a := WithTool(st, oi, ClosedSlot(s));
      var es := ToolBlockEvents(st.nextIndex, s.id, FinalName(s), ClosingDeltas(s));
      && ToolFinished(st, oi) == Step(a, es)
      && Quiet(cfg, a, h1, trace + es) && Spoken(trace + es) == Spoken(trace) && a.held == []
      && a.tools.Keys == st.tools.Keys
      && EndedOne(cfg, st, h, a, h1, oi)
  {
    hide Partial, ToolStarts, Spoken, ToolBlockEvents, Complete, Strip, Unsent, ToolFinished, FinalDeltas, FinalName;
    var s := st.tools[oi].(started := true, blockIndex := Some(st.nextIndex));
    assert SlotInv(oi, st.tools[oi], h.owner);
    h1 := Hist(h.done + [Block(ToolUse(s.id, FinalName(s)), ClosingDeltas(s))], None, h.owner[|h.done| := oi]);
    forall k | k in st.tools ensures !IsOpen(st.tools[k]) {
      assert SlotInv(k, st.tools[k], h.owner);
    }
    ToolFinishedIsOneBlock(st, oi);
    FinalNameOf(s);
    ToolBlockKeeps(cfg, st, h, trace, oi, ClosedSlot(s), FinalName(s), ClosingDeltas(s));
    ClosingIsFinal(s);
    FinalNameSame(st.tools[oi], s);
  }

  lemma FinalNameOf(s: Slot)
    ensures FinalName(s) == if Strip(s.name) == [] then TOOL else Strip(s.name)
  {
  }

  lemma FinalNameSame(s: Slot, s': Slot)
    requires s'.name == s.name
    ensures FinalName(s) == FinalName(s')
  {
  }

  /** `a` is `st` after slot `oi` was opened and closed by `finish`. */
  ghost predicate EndedOne(cfg: Config, st: State, h: Hist, a: State, h1: Hist, oi: int) {
    && oi in st.tools && !st.tools[oi].stopped
    && var s := st.tools[oi].(started := true, blockIndex := Some(|h.done|));
       && a == WithTool(st, oi, ClosedSlot(s))
       && h1.done == h.done + [Block(ToolUse(s.id, FinalName(st.tools[oi])), FinalDeltas(s.args))]
  }

  lemma EndedThen(cfg: Config, st: State, h: Hist, a: State, h1: Hist, r: State, h': Hist, keys: seq<int>)
    requires keys != [] && EndedOne(cfg, st, h, a, h1, keys[0]) && Ended(cfg, a, h1, r, h', keys[1..])
    ensures Ended(cfg, st, h, r, h', keys)
  {
    hide FinalName, FinalDeltas, Unsent, Strip, FinishedNow;
    var oi := keys[0];
    var n := |h.done|;
    assert h'.done[n] == h1.done[n];
    forall k | k in st.tools && r.tools[k] != a.tools[k]
      ensures FinishedNow(a.tools[k], r.tools[k], h, h') && !a.tools[k].stopped
    {
      FinishedShape(a.tools[k], r.tools[k], h, h1, h');
    }
    FinishedFirst(st.tools[oi], h, h1, h');
    assert r.tools[oi] == a.tools[oi];
    assert forall k :: k in keys ==> k == oi || k in keys[1..];
  }

  lemma FinishedFirst(s: Slot, h: Hist, h1: Hist, h': Hist)
    requires !s.stopped && h1.done <= h'.done
    requires h1.done == h.done + [Block(ToolUse(s.id, FinalName(s)), FinalDeltas(s.args))]
    ensures FinishedNow(s, ClosedSlot(s.(started := true, blockIndex := Some(|h.done|))), h, h')
  {
    hide FinalName, FinalDeltas, Unsent, Strip;
    assert h'.done[|h.done|] == h1.done[|h.done|];
  }

  // ---------- whole runs ----------

  /** Why a message stops: for its tools if it has any, and otherwise for the reason that upstream gave. */
  predicate StopsFor(stop: Stop, tools: bool, finish: Option<Text>) {
    && (stop == ToolUseStop <==> tools || finish == Some(T("tool_calls")))
    && (stop == MaxTokens <==> !tools && finish in {Some(T("length")), Some(T("max_tokens"))})
    && (stop == Refusal <==> !tools && finish == Some(T("content_filter")))
    && (stop == StopSequence <==> !tools && finish == Some(T("stop_sequence")))
  }

  lemma StopReasonExactly(st: State, finish: Option<Text>)
    ensures StopsFor(StopReason(FinishReason(st, finish), st.sawTool), st.sawTool, finish)
  {
    assert T("tool_calls")[0] == 't' as int && T("length")[0] == 'l' as int && T("max_tokens")[0] == 'm' as int;
    assert T("content_filter")[0] == 'c' as int && T("stop")[0] == 's' as int && |T("stop")| == 4;
    assert T("stop_sequence")[0] == 's' as int && |T("stop_sequence")| == 13;
  }

  /** What is true of the message when `finish` returns. */
  ghost predicate Delivery(cfg: Config, st: State, fed: seq<Fragment>, h: Hist, r: State, h': Hist,
    es: seq<Event>, stop: Stop, finish: Option<Text>) {
    && es == Message(h'.done, stop)
    && ToolsInv(r.tools, h'.owner, h'.done)
    && (cfg.maxTools > 0 ==> ToolStarts(es) <= cfg.maxTools)
    && Spoken(es) == (if cfg.toolsRequested && ToolsWin(st) then [] else fed)
    && (cfg.toolsRequested ==> ProseFirst(h'.done))
    && (ToolsWin(st) ==> ToolStarts(es) > 0)
    && StopsFor(stop, ToolStarts(es) > 0, finish)
    && r.tools.Keys == st.tools.Keys && h.done <= h'.done
    && (forall k :: k in r.tools && !r.tools[k].stopped ==>
          Ghostly(r.tools[k]) || (cfg.maxTools > 0 && ToolStarts(es) >= cfg.maxTools))
    && (forall k :: k in st.tools ==> r.tools[k] == st.tools[k] || FinishedNow(st.tools[k], r.tools[k], h, h'))
  }

  lemma ProseFirstThenTools(bs: seq<Block>, bs': seq<Block>)
    requires ProseFirst(bs) && bs <= bs' && OnlyTools(bs', |bs|)
    ensures ProseFirst(bs')
  {
    assert forall i :: 0 <= i < |bs| ==> bs'[i] == bs[i];
  }

  /** The last two events close the message and say nothing. */
  lemma MessageClosed(bs: seq<Block>, stop: Stop)
    ensures Partial(bs, None) + [MessageDelta(stop), MessageStop] == Message(bs, stop)
    ensures Spoken(Message(bs, stop)) == Spoken(Partial(bs, None))
    ensures ToolStarts(Message(bs, stop)) == ToolStarts(Partial(bs, None))
  {
    hide Spoken, ToolStarts, Render;
    var t := Partial(bs, None);
    SpokenOne(t, MessageDelta(stop));
    SpokenOne(t + [MessageDelta(stop)], MessageStop);
    assert t + [MessageDelta(stop), MessageStop] == t + [MessageDelta(stop)] + [MessageStop];
    assert t == [MessageStart] + Render(bs);
  }

  /** If tools win, at least one tool block is sent. */
  lemma WinnersAreSent(cfg: Config, st: State, h: Hist, r: State, h': Hist, trace': seq<Event>, keys: seq<int>)
    requires Quiet(cfg, r, h', trace') && Ended(cfg, st, h, r, h', keys) && forall k :: k in st.tools ==> k in keys
    requires ToolsWin(st) && (st.sawTool ==> st.toolsStarted > 0)
    ensures r.toolsStarted > 0
  {
    hide Partial, ToolStarts, FinishedNow, Complete, Strip;
    if !st.sawTool {
      var k :| k in st.tools && ReadyAtFinish(st.tools[k]);
      if r.tools[k].stopped {
        assert SlotInv(k, r.tools[k], h'.owner);
        NoToolsNoOwner(cfg, r, h', trace', r.tools[k].blockIndex.value);
      } else {
        if r.tools[k] != st.tools[k] { FinishedShape(st.tools[k], r.tools[k], h, h, h'); }
      }
    }
  }

  lemma NoToolsNoOwner(cfg: Config, st: State, h: Hist, trace: seq<Event>, b: nat)
    requires Wired(cfg, st, h, trace) && b in h.owner
    ensures st.sawTool
  {
    if !st.sawTool { NoToolBlocks(cfg, st, h, trace); }
  }

  lemma FinishedDelivers(cfg: Config, st: State, h: Hist, a: State, h3: Hist, t3: seq<Event>, r: State, h': Hist,
                         t4: seq<Event>, keys: seq<int>, fed: seq<Fragment>, finish: Option<Text>, stop: Stop)
    requires Quiet(cfg, a, h3, t3) && Quiet(cfg, r, h', t4) && Ended(cfg, a, h3, r, h', keys)
    requires forall k :: k in a.tools ==> k in keys
    requires a.tools == st.tools && a.sawTool == st.sawTool && h.done <= h3.done
    requires Spoken(t4) == Spoken(t3) == (if cfg.toolsRequested && ToolsWin(st) then [] else fed)
    requires cfg.toolsRequested ==> ProseFirst(h3.done)
    requires stop == StopReason(FinishReason(r, finish), r.sawTool)
    ensures Delivery(cfg, st, fed, h, r, h', t4 + [MessageDelta(stop), MessageStop], stop, finish)
  {
    hide Render, ToolStarts, Spoken, FinishedNow, ToolsInv, FinishReason, StopReason, StopsFor;
    StopReasonExactly(r, finish);
    MessageClosed(h'.done, stop);
    if cfg.toolsRequested { ProseFirstThenTools(h3.done, h'.done); }
    if ToolsWin(st) { WinnersAreSent(cfg, a, h3, r, h', t4, keys); }
    forall k | k in st.tools && r.tools[k] != st.tools[k] ensures FinishedNow(st.tools[k], r.tools[k], h, h') {
      FinishedShape(st.tools[k], r.tools[k], h, h3, h');
    }
  }

  /** `finish` up to its tool loop. */
  function BeforeTools(st: State): Step {
    var a := Started(st);
    var b := PrefaceFinished(a.st);
    var c := ProseClosed(b.st);
    Step(c.st, a.events + b.events + c.events)
  }

  lemma BeforeToolsKeeps(cfg: Config, st: State, h: Hist, trace: seq<Event>, fed: seq<Fragment>) returns (h': Hist)
    requires Valid(cfg, st, h, trace, fed)
    ensures var r := BeforeTools(st);
      && Quiet(cfg, r.st, h', trace + r.events) && h.done <= h'.done
      && r.st.tools == st.tools && r.st.held == [] && r.st.sawTool == st.sawTool
      && Spoken(trace + r.events) == (if cfg.toolsRequested && ToolsWin(st) then [] else fed)
      && (cfg.toolsRequested ==> ProseFirst(h'.done))
  {
    hide Valid, Started, PrefaceFinished, ProseClosed, Spoken, ProseFirst, HasReadyTool, Wired;
    var a := Started(st);
    StartedKeeps(cfg, st, h, trace, fed);
    StartedKnowsTools(st);
    var t1 := trace + a.events;
    var b := PrefaceFinished(a.st);
    var h2 := PrefaceKeeps(cfg, a.st, h, t1, fed);
    var t2 := t1 + b.events;
    var c := ProseClosed(b.st);
    h' := ProseClosedKeeps(cfg, b.st, h2, t2);
    assert trace + (a.events + b.events + c.events) == t2 + c.events;
    assert Spoken(t2) + [] == Spoken(t2);
    if cfg.toolsRequested { ClosedProseFirst(cfg, b.st, h2, t2, h', t2 + c.events, c.st); }
  }

  /** Closing the prose block of a message without tool blocks, or closing nothing. */
  lemma ClosedProseFirst(cfg: Config, st: State, h: Hist, trace: seq<Event>, h': Hist, trace': seq<Event>, st': State)
    requires Wired(cfg, st, h, trace) && Wired(cfg, st', h', trace') && st'.sawTool == st.sawTool
    requires ProseFirst(h.done) && (h.open == None ==> h' == h) && (st.sawTool ==> h.open == None)
    ensures ProseFirst(h'.done)
  {
    hide Partial, ToolsInv, ToolStarts;
    if !st.sawTool { NoToolBlocks(cfg, st', h', trace'); }
  }

  lemma FinishedSplits(cfg: Config, st: State, finish: Option<Text>)
    ensures var c := BeforeTools(st);
      var d := ToolsFinished(cfg, c.st, SortedKeys(c.st.tools.Keys));
      var e := AllToolsClosed(d.st);
      Finished(cfg, st, finish) ==
        Step(e.st, c.events + d.events + e.events
                   + [MessageDelta(StopReason(FinishReason(e.st, finish), e.st.sawTool)), MessageStop])
  {
    hide Started, PrefaceFinished, ProseClosed, ToolsFinished, SortedKeys, AllToolsClosed, StopReason, FinishReason;
  }

  /** `finish`: the message is whole, and its text is all of what was fed or, when tools win, none of it. */
  lemma FinishedKeeps(cfg: Config, st: State, h: Hist, trace: seq<Event>, fed: seq<Fragment>, finish: Option<Text>)
    returns (h': Hist, stop: Stop)
    requires Valid(cfg, st, h, trace, fed)
    ensures var r := Finished(cfg, st, finish);
      Delivery(cfg, st, fed, h, r.st, h', trace + r.events, stop, finish)
  {
    hide Valid, Quiet, Finished, BeforeTools, ToolsFinished, SortedKeys, Spoken, ToolStarts, Message, Partial, Wired,
         FinishReason, StopReason, Ended, ToolsWin, Delivery, ProseFirst, AllToolsClosed;
    FinishedSplits(cfg, st, finish);
    var c := BeforeTools(st);
    var h3 := BeforeToolsKeeps(cfg, st, h, trace, fed);
    var t3 := trace + c.events;
    var keys := SortedKeys(c.st.tools.Keys);
    var d := ToolsFinished(cfg, c.st, keys);
    h' := ToolsFinishedKeeps(cfg, c.st, h3, t3, keys);
    var t4 := t3 + d.events;
    QuietNoneOpen(cfg, d.st, h', t4);
    stop := StopReason(FinishReason(d.st, finish), d.st.sawTool);
    assert c.events + d.events + [] == c.events + d.events;
    assert trace + Finished(cfg, st, finish).events == t4 + [MessageDelta(stop), MessageStop];
    FinishedDelivers(cfg, st, h, c.st, h3, t3, d.st, h', t4, keys, fed, finish, stop);
  }

  lemma QuietNoneOpen(cfg: Config, st: State, h: Hist, trace: seq<Event>)
    requires Quiet(cfg, st, h, trace)
    ensures AllToolsClosed(st) == Step(st, []) && trace == Partial(h.done, None)
  {
    hide AllToolsClosed;
    NoneOpen(cfg, st, h, trace);
  }

  lemma StartedKnowsTools(st: State)
    ensures Started(st).st.tools == st.tools && Started(st).st.sawTool == st.sawTool
  {
  }

  predicate MentionedBy(k: int, cs: seq<Chunk>) {
    exists i :: 0 <= i < |cs| && Mentioned(k, cs[i].toolCalls)
  }

  /** Any number of calls of `feed`. */
  lemma {:induction false} AllFedKeeps(cfg: Config, st: State, h: Hist, trace: seq<Event>, cs: seq<Chunk>)
    returns (h': Hist)
    requires Valid(cfg, st, h, trace, []) && st.tools == map[]
    ensures var r := AllFed(cfg, st, cs);
      && Valid(cfg, r.st, h', trace + r.events, AllPieces(cs))
      && forall k :: k in r.st.tools ==> MentionedBy(k, cs)
  {
    hide Valid, Fed, PiecesOf, Mentioned, Ready, Ingest;
    assert trace + [] == trace;
    if cs == [] {
      h' := h;
    } else {
      var front, c := cs[..|cs| - 1], cs[|cs| - 1];
      var a := AllFed(cfg, st, front);
      var h1 := AllFedKeeps(cfg, st, h, trace, front);
      h' := FedKeeps(cfg, a.st, h1, trace + a.events, AllPieces(front), c);
      var b := Fed(cfg, a.st, c);
      assert trace + (a.events + b.events) == trace + a.events + b.events;
      IngestKeys(a.st.tools, c.toolCalls);
      forall k | k in b.st.tools ensures MentionedBy(k, cs) {
        if k in a.st.tools {
          var i :| 0 <= i < |front| && Mentioned(k, front[i].toolCalls);
          assert cs[i] == front[i];
        } else {
          assert Mentioned(k, cs[|cs| - 1].toolCalls);
        }
      }
    }
  }

  /**
   Every run, whatever is fed: the events are one message whose blocks are numbered 0, 1, ...
   with one open at a time, so a client never loses a block; each tool block belongs to its own
   upstream index; the cap holds; and the text is all of what was fed or, if tools were requested
   and won, none of it, never after a tool block.
   */
  lemma RunIsOneMessage(cfg: Config, started: bool, cs: seq<Chunk>, finish: Option<Text>)
    returns (bs: seq<Block>, stop: Stop, slotOf: map<nat, int>)
    ensures Run(cfg, started, cs, finish) == Message(bs, stop)
    ensures ReactAll(Idle, Run(cfg, started, cs, finish)) == Closed
    ensures cfg.maxTools > 0 ==> ToolStarts(Run(cfg, started, cs, finish)) <= cfg.maxTools
    ensures forall b: nat :: b < |bs| && bs[b].kind.ToolUse? ==> b in slotOf && MentionedBy(slotOf[b], cs)
    ensures forall b, c :: b in slotOf && c in slotOf && b != c ==> slotOf[b] != slotOf[c]
    ensures !cfg.toolsRequested ==> Spoken(Run(cfg, started, cs, finish)) == AllPieces(cs)
    ensures cfg.toolsRequested ==> ProseFirst(bs)
    ensures cfg.toolsRequested ==>
      || Spoken(Run(cfg, started, cs, finish)) == AllPieces(cs)
      || (Spoken(Run(cfg, started, cs, finish)) == [] && ToolStarts(Run(cfg, started, cs, finish)) > 0)
    ensures StopsFor(stop, ToolStarts(Run(cfg, started, cs, finish)) > 0, finish)
  {
    hide StopsFor, AllFed, Finished, Message, Spoken, ToolStarts, ProseFirst, ToolsWin, FinishedNow, Valid;
    var a := if started then Started(FRESH) else Step(FRESH, []);
    var h0 := Hist([], None, map[]);
    FreshIsValid(cfg);
    StartedKeeps(cfg, FRESH, h0, [], []);
    assert [] + a.events == a.events;
    var b := AllFed(cfg, a.st, cs);
    var h1 := AllFedKeeps(cfg, a.st, h0, a.events, cs);
    var t := a.events + b.events;
    var h';
    h', stop := FinishedKeeps(cfg, b.st, h1, t, AllPieces(cs), finish);
    bs, slotOf := h'.done, h'.owner;
    ClientAccepts(bs, stop);
    var r := Finished(cfg, b.st, finish).st;
    assert r.tools.Keys == b.st.tools.Keys;
  }

  lemma FreshIsValid(cfg: Config)
    ensures Valid(cfg, FRESH, Hist([], None, map[]), [], [])
  {
  }
}
