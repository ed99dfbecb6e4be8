/**
 What a client sees of the OpenAI-side stream: one attempt's output only, never text beside
 tools when tools were asked for, a capped dense list of tools, and one `[DONE]` at the end.
 */
module FailoverOpenAiLaws {
  import opened Texts
  import opened Upstream
  import opened ToolEmitter
  import opened FailoverOpenAi
  import Keys
  import ToolArgs

  // ---------- reading a list of frames ----------

  function WireOf(f: Frame): seq<Item> { if f.Tool? then [f.item] else [] }

  function ShownOf(f: Frame): seq<Held> { if IsProse(f) then [Held(f.content, f.reasoning)] else [] }

  /** The tools on the wire, in order. */
  function Wire(out: seq<Frame>): seq<Item> {
    if out == [] then [] else Wire(out[..|out| - 1]) + WireOf(out[|out| - 1])
  }

  /** The text and reasoning on the wire, in order. */
  function Shown(out: seq<Frame>): seq<Held> {
    if out == [] then [] else Shown(out[..|out| - 1]) + ShownOf(out[|out| - 1])
  }

  lemma OneMore(out: seq<Frame>, f: Frame)
    ensures Wire(out + [f]) == Wire(out) + WireOf(f)
    ensures Shown(out + [f]) == Shown(out) + ShownOf(f)
  {
    hide WireOf, ShownOf;
    assert (out + [f])[..|out|] == out;
  }

  lemma NoFrames()
    ensures Wire([]) == [] && Shown([]) == []
  {
  }

  lemma {:induction false} WireIsTools(out: seq<Frame>)
    ensures Wire(out) != [] <==> exists f :: f in out && f.Tool?
    ensures Shown(out) != [] <==> exists f :: f in out && IsProse(f)
  {
    if out != [] {
      var h, l := out[..|out| - 1], out[|out| - 1];
      WireIsTools(h);
      assert forall f :: f in out <==> f in h || f == l;
    }
  }

  function ItemsOf(sent: seq<Emission>): (r: seq<Item>)
    ensures |r| == |sent| && forall i :: 0 <= i < |sent| ==> r[i] == sent[i].item
  {
    if sent == [] then [] else ItemsOf(sent[..|sent| - 1]) + [sent[|sent| - 1].item]
  }

  lemma ItemsOfOneMore(sent: seq<Emission>, e: Emission)
    ensures ItemsOf(sent + [e]) == ItemsOf(sent) + [e.item]
  {
    assert (sent + [e])[..|sent|] == sent;
  }

  // ---------- the invariant of one attempt ----------

  /** Whether the request asked for tools, and whether an earlier attempt sent the role frame. */
  datatype Env = Env(asked: bool, roleSent: bool)

  /** Frames that an attempt sends before its end: the role frame can only be the first. */
  ghost predicate Early(env: Env, out: seq<Frame>) {
    && (out != [] && !env.roleSent ==> out[0].Role?)
    && forall i :: 0 <= i < |out| ==>
         out[i].Keepalive? || out[i].Prose? || out[i].Tool? || (i == 0 && !env.roleSent && out[i].Role?)
  }

  /** `pend` are tools that have been built and are about to be sent. */
  ghost predicate Sending(cfg: Config, t: Turn, sent: seq<Emission>, pend: seq<Item>) {
    && Valid(t.acc, sent)
    && Wire(t.out) <= ItemsOf(sent)
    && (t.gone || !HasBudget(cfg, t.emitted) || Wire(t.out) + pend == ItemsOf(sent))
    && t.emitted == |Wire(t.out)|
    && (cfg.maxTools > 0 ==> t.emitted <= cfg.maxTools)
    && (Wire(t.out) != [] ==> t.saw)
    && (t.saw && !t.gone ==> Wire(t.out) + pend != [])
  }

  ghost predicate Speaking(env: Env, t: Turn) {
    && Early(env, t.out)
    && (Wire(t.out) != [] || Shown(t.out) != [] || t.acc != map[] ==> t.started)
    && (env.roleSent || t.out != [])
    && (env.asked ==> t.toolsRequested)
    && (env.asked && !t.saw && t.thinkOpen ==> t.held != [])
    && (env.asked ==> Shown(t.out) == [])
  }

  ghost predicate Good(cfg: Config, env: Env, t: Turn, sent: seq<Emission>) {
    Sending(cfg, t, sent, []) && Speaking(env, t)
  }

  // ---------- emission ----------

  /** Merging deltas and sending at most one item keeps the emitter's invariant. */
  lemma DeltaKeeps(acc: Acc, sent: seq<Emission>, ds: seq<Delta>, newId: NewId) returns (sent': seq<Emission>)
    requires Valid(acc, sent)
    ensures var e := DeltaAccumulated(acc, ds, newId);
      && Valid(e.acc, sent')
      && ItemsOf(sent') == ItemsOf(sent) + (if e.item.Some? then [e.item.value] else [])
  {
    hide Valid, Candidate, NameOf, Ingest, Keys.SortedKeys, ToolArgs.Complete, Built, KnownSlot;
    var t := Ingest(acc, ds);
    IngestKeeps(acc, sent, ds);
    CandidateOfAll(t);
    match Candidate(t, Keys.SortedKeys(t.Keys))
    case None => sent' := sent;
    case Some(k) => sent' := BuiltKeeps(t, sent, k, t[k].args, newId);
  }

  lemma BuiltKeeps(acc: Acc, sent: seq<Emission>, k: int, remaining: Text, newId: NewId) returns (sent': seq<Emission>)
    requires Valid(acc, sent) && k in acc && !acc[k].emitted && NameOf(acc[k]) != []
    ensures var e := Built(acc, k, remaining, newId);
      e.item.Some? && Valid(e.acc, sent') && ItemsOf(sent') == ItemsOf(sent) + [e.item.value]
  {
    hide Valid, NameOf, Strip, Used, LeastFree;
    NextIndex(acc, sent);
    TrimmedStrip(newId);
    StripNothing();
    var e := Built(acc, k, remaining, newId);
    var id := if Strip(acc[k].id) != [] then acc[k].id else newId;
    EmitKeeps(acc, sent, k, id, e.item.value);
    sent' := sent + [Emission(k, e.item.value)];
    ItemsOfOneMore(sent, Emission(k, e.item.value));
  }

  lemma FlushKeeps(acc: Acc, sent: seq<Emission>, newId: NewId) returns (sent': seq<Emission>)
    requires Valid(acc, sent)
    ensures var e := FlushedOne(acc, newId);
      && Valid(e.acc, sent')
      && ItemsOf(sent') == ItemsOf(sent) + (if e.item.Some? then [e.item.value] else [])
  {
    hide Valid, FlushCandidate, NameOf, Keys.SortedKeys, Built, Strip;
    FlushTakesNamed(acc, Keys.SortedKeys(acc.Keys));
    match FlushCandidate(acc, Keys.SortedKeys(acc.Keys))
    case None => sent' := sent;
    case Some(k) =>
      sent' := BuiltKeeps(acc, sent, k, if Strip(acc[k].args) != [] then acc[k].args else EMPTY_OBJECT, newId);
  }

  /** One tool frame. */
  lemma ToolFrameKeeps(cfg: Config, env: Env, t: Turn, item: Item, sent: seq<Emission>, pend: seq<Item>)
    requires Sending(cfg, t, sent, [item] + pend) && Speaking(env, t) && HasBudget(cfg, t.emitted) && !t.gone
    requires t.started && t.saw
    ensures var t' := Say(t, Tool(item)).(emitted := t.emitted + 1);
      Sending(cfg, t', sent, pend) && Speaking(env, t')
  {
    hide Valid, Wire, Shown, IsProse;
    OneMore(t.out, Tool(item));
    assert Wire(t.out) + ([item] + pend) == Wire(t.out) + [item] + pend;
    assert ShownOf(Tool(item)) == [] by { assert !IsProse(Tool(item)) by { NotProse(Tool(item)); } }
  }

  lemma NotProse(f: Frame)
    requires !f.Prose?
    ensures !IsProse(f)
  {
  }

  /** Any frame that is not a tool. */
  lemma OtherFrameKeeps(cfg: Config, env: Env, t: Turn, f: Frame, sent: seq<Emission>, pend: seq<Item>)
    requires Sending(cfg, t, sent, pend) && Speaking(env, t) && !f.Tool?
    requires f.Keepalive? || f.Prose?
    requires IsProse(f) ==> t.started && !env.asked
    ensures Sending(cfg, Say(t, f), sent, pend) && Speaking(env, Say(t, f))
  {
    hide Valid, Wire, Shown, IsProse, Sending, Early;
    OneMore(t.out, f);
    assert Wire(Say(t, f).out) == Wire(t.out);
    SameWire(cfg, t, Say(t, f), sent, pend);
    StillEarly(env, t.out, f);
  }

  lemma StillEarly(env: Env, out: seq<Frame>, f: Frame)
    requires Early(env, out)
    requires f.Keepalive? || f.Prose? || f.Tool?
    requires env.roleSent || out != []
    ensures Early(env, out + [f])
  {
  }

  lemma BuiltItemKeeps(cfg: Config, env: Env, t: Turn, e: Emitted, sent: seq<Emission>, sent': seq<Emission>, t': Turn)
    requires Good(cfg, env, t, sent) && t.started && !t.gone && HasBudget(cfg, t.emitted)
    requires Valid(e.acc, sent') && e.item.Some? && ItemsOf(sent') == ItemsOf(sent) + [e.item.value]
    requires (t' == SayTool(t, e) && t.saw) || t' == SayTool(t, e).(saw := true, held := [], thinkOpen := false)
    ensures Good(cfg, env, t', sent')
  {
    hide Valid, Wire, Shown, ItemsOf;
    var item := e.item.value;
    var t1 := t'.(out := t.out, emitted := t.emitted);
    assert Wire(t.out) + [] == Wire(t.out);
    assert ItemsOf(sent') == Wire(t.out) + [item];
    assert [item] + [] == [item];
    ToolFrameKeeps(cfg, env, t1, item, sent', []);
    assert t' == Say(t1, Tool(item)).(emitted := t.emitted + 1);
  }

  lemma {:induction false} DrainReadyKeeps(cfg: Config, env: Env, t: Turn,
    sent: seq<Emission>)
    returns (sent': seq<Emission>)
    requires Good(cfg, env, t, sent) && t.started && !t.gone && t.saw
    ensures Good(cfg, env, DrainReady(cfg, t), sent')
    ensures var t' := DrainReady(cfg, t); t'.started && !t'.gone && t'.saw
    decreases Waiting(t.acc)
  {
    hide Valid, Wire, Shown, ItemsOf, DeltaAccumulated;
    if !HasBudget(cfg, t.emitted) {
      sent' := sent;
    } else {
      var e := DeltaAccumulated(t.acc, [], cfg.ids(t.nextId));
      sent' := DeltaKeeps(t.acc, sent, [], cfg.ids(t.nextId));
      if e.item.Some? {
        BuiltItemKeeps(cfg, env, t, e, sent, sent', SayTool(t, e));
        EmissionShrinks(t.acc, cfg.ids(t.nextId));
        sent' := DrainReadyKeeps(cfg, env, SayTool(t, e), sent');
      } else {
        assert ItemsOf(sent') == ItemsOf(sent);
      }
    }
  }

  lemma {:induction false} FlushHeldKeeps(cfg: Config, env: Env, t: Turn,
    sent: seq<Emission>)
    returns (sent': seq<Emission>)
    requires Good(cfg, env, t, sent) && t.started && !t.gone
    ensures Good(cfg, env, FlushHeld(cfg, t), sent')
    ensures var t' := FlushHeld(cfg, t);
      t'.started && !t'.gone && (t'.saw || t' == t)
    decreases Waiting(t.acc)
  {
    hide Valid, Wire, Shown, ItemsOf, FlushedOne;
    if !HasBudget(cfg, t.emitted) {
      sent' := sent;
    } else {
      var e := FlushedOne(t.acc, cfg.ids(t.nextId));
      sent' := FlushKeeps(t.acc, sent, cfg.ids(t.nextId));
      if e.item.Some? {
        var t1 := SayTool(t, e).(saw := true, held := [], thinkOpen := false);
        BuiltItemKeeps(cfg, env, t, e, sent, sent', t1);
        EmissionShrinks(t.acc, cfg.ids(t.nextId));
        sent' := FlushHeldKeeps(cfg, env, t1, sent');
      } else {
        sent' := sent;
      }
    }
  }

  // ---------- one line ----------

  function Pend(item: Option<Item>): seq<Item> { if item.Some? then [item.value] else [] }

  lemma TakeCallsKeeps(cfg: Config, env: Env, t: Turn, calls: seq<Delta>,
    sent: seq<Emission>)
    returns (sent': seq<Emission>)
    requires Good(cfg, env, t, sent) && t.started
    ensures var (t', item) := TakeCalls(cfg, t, calls);
      && Sending(cfg, t', sent', Pend(item)) && Speaking(env, t') && t'.started && t'.gone == t.gone
      && (item.Some? ==> HasBudget(cfg, t'.emitted) && t'.saw)
  {
    hide Valid, Wire, Shown, ItemsOf, DeltaAccumulated, Ingest, Early, HasBudget;
    sent' := sent;
    if calls != [] {
      if HasBudget(cfg, t.emitted) {
        sent' := DeltaKeeps(t.acc, sent, calls, cfg.ids(t.nextId));
        var e := DeltaAccumulated(t.acc, calls, cfg.ids(t.nextId));
        assert Wire(t.out) + [] == Wire(t.out);
        assert ItemsOf(sent) + [] == ItemsOf(sent);
        assert e.item.Some? ==> Pend(e.item) == [e.item.value];
      } else {
        IngestKeeps(t.acc, sent, calls);
      }
    }
  }

  lemma RewriteFacts(mode: Mode, open: bool, content: Text, reasoning: Text)
    ensures var r := Rewrite(mode, open, content, reasoning);
      && (r.open ==> open || r.content != [])
      && (mode != ThinkTag ==> r.open == open)
  {
  }

  lemma TakeProseKeeps(cfg: Config, env: Env, t: Turn, content: Text, reasoning: Text, sent: seq<Emission>,
    pend: seq<Item>)
    requires Sending(cfg, t, sent, pend) && Speaking(env, t)
    ensures var (t', prose) := TakeProse(cfg, t, content, reasoning);
      && Sending(cfg, t', sent, pend) && Speaking(env, t')
      && t' == t.(thinkOpen := t'.thinkOpen, held := t'.held)
      && (prose.content != [] || prose.reasoning != [] ==> !env.asked)
  {
    hide Valid, Wire, Shown, ItemsOf, Rewrite;
    RewriteFacts(cfg.mode, t.thinkOpen, content, reasoning);
  }

  lemma TakeFinishKeeps(cfg: Config, env: Env, t: Turn, finish: Text, sent: seq<Emission>, pend: seq<Item>)
    requires Sending(cfg, t, sent, pend) && Speaking(env, t) && t.started
    ensures var t' := TakeFinish(cfg, t, finish);
      && Sending(cfg, t', sent, pend) && Speaking(env, t')
      && t'.started && t'.gone == t.gone && t'.saw == t.saw && t'.emitted == t.emitted
  {
    hide Valid, Wire, Shown, ItemsOf, Sending, Early, CloseTag;
    CloseTagFacts(cfg.mode, t.thinkOpen);
    var t' := TakeFinish(cfg, t, finish);
    var t1 := t.(finished := t'.finished, heldFinish := t'.heldFinish, thinkOpen := t'.thinkOpen);
    SameWire(cfg, t, t1, sent, pend);
    if t' != t1 {
      assert t' == Say(t1, Prose(CloseTag(cfg.mode, t.thinkOpen), []));
      OtherFrameKeeps(cfg, env, t1, Prose(CloseTag(cfg.mode, t.thinkOpen), []), sent, pend);
    }
  }

  lemma CloseTagFacts(mode: Mode, open: bool)
    ensures !open || mode != ThinkTag ==> CloseTag(mode, open) == []
  {
  }

  lemma SameWire(cfg: Config, t: Turn, t': Turn, sent: seq<Emission>, pend: seq<Item>)
    requires Sending(cfg, t, sent, pend)
    requires t'.acc == t.acc && Wire(t'.out) == Wire(t.out) && t'.gone == t.gone && t'.emitted == t.emitted
      && t'.saw == t.saw
    ensures Sending(cfg, t', sent, pend)
  {
    hide Valid, Wire, ItemsOf;
  }

  lemma SendChunkKeeps(cfg: Config, env: Env, t: Turn, prose: Held, item: Option<Item>,
    sent: seq<Emission>)
    returns (sent': seq<Emission>)
    requires Sending(cfg, t, sent, Pend(item)) && Speaking(env, t) && t.started
    requires item.Some? ==> HasBudget(cfg, t.emitted) && t.saw
    requires prose.content != [] || prose.reasoning != [] ==> !env.asked
    ensures Good(cfg, env, SendChunk(cfg, t, prose, item), sent')
    ensures SendChunk(cfg, t, prose, item).gone == t.gone && (t.saw ==> SendChunk(cfg, t, prose, item).saw)
  {
    hide Valid, Wire, Shown, ItemsOf, Sending, Speaking, DrainReady;
    sent' := sent;
    if t.gone {
      Unsent(cfg, t, sent, Pend(item));
    } else {
      var said := prose.content != [] || prose.reasoning != [];
      var t2 := if said then Say(t, Prose(prose.content, prose.reasoning)) else t;
      if said { OtherFrameKeeps(cfg, env, t, Prose(prose.content, prose.reasoning), sent, Pend(item)); }
      assert t.(started := true) == t;
      if item.Some? {
        assert Pend(item) == [item.value] + [];
        ToolFrameKeeps(cfg, env, t2, item.value, sent, []);
        var t3 := Say(t2, Tool(item.value)).(saw := true, emitted := t2.emitted + 1);
        sent' := DrainReadyKeeps(cfg, env, t3, sent);
      }
    }
  }

  lemma Unsent(cfg: Config, t: Turn, sent: seq<Emission>, pend: seq<Item>)
    requires Sending(cfg, t, sent, pend) && t.gone
    ensures Sending(cfg, t, sent, [])
  {
    hide Valid, Wire, ItemsOf;
  }

  /** A chunk that says something, once its text has been added up. */
  lemma ChunkKeeps(cfg: Config, env: Env, t: Turn, c: Line<Delta>, sent: seq<Emission>) returns (sent': seq<Emission>)
    requires c.Chunk? && Good(cfg, env, t, sent) && t.started
    ensures var (t1, item) := TakeCalls(cfg, t, c.calls);
      var (t2, prose) := TakeProse(cfg, t1, c.content, c.reasoning);
      var r := SendChunk(cfg, TakeFinish(cfg, t2, c.finish), prose, item);
      Good(cfg, env, r, sent') && r.gone == t.gone
  {
    hide Valid, Wire, Shown, ItemsOf, Sending, Speaking, HasBudget, TakeCalls, TakeProse, TakeFinish, SendChunk;
    sent' := TakeCallsKeeps(cfg, env, t, c.calls, sent);
    var (t1, item) := TakeCalls(cfg, t, c.calls);
    TakeProseKeeps(cfg, env, t1, c.content, c.reasoning, sent', Pend(item));
    var (t2, prose) := TakeProse(cfg, t1, c.content, c.reasoning);
    TakeFinishKeeps(cfg, env, t2, c.finish, sent', Pend(item));
    sent' := SendChunkKeeps(cfg, env, TakeFinish(cfg, t2, c.finish), prose, item, sent');
  }

  lemma OnChunkKeeps(cfg: Config, env: Env, t: Turn, c: Line<Delta>, sent: seq<Emission>) returns (sent': seq<Emission>)
    requires c.Chunk? && Good(cfg, env, t, sent)
    ensures Good(cfg, env, OnChunk(cfg, t, c), sent') && OnChunk(cfg, t, c).gone == t.gone
  {
    hide Good, TakeCalls, TakeProse, TakeFinish, SendChunk;
    sent' := sent;
    if !(c.content == [] && c.reasoning == [] && c.calls == [] && c.finish == []) {
      var t0 := t.(content := t.content + c.content, reasoning := t.reasoning + c.reasoning, started := true);
      Leaves(cfg, env, t, t0, sent);
      sent' := ChunkKeeps(cfg, env, t0, c, sent);
    }
  }

  lemma OnLineKeeps(cfg: Config, env: Env, t: Turn, ev: LineEvent<Delta>,
    sent: seq<Emission>)
    returns (sent': seq<Emission>)
    requires Good(cfg, env, t, sent)
    ensures Good(cfg, env, OnLine(cfg, t, ev), sent') && OnLine(cfg, t, ev).gone == (t.gone || ev.gone)
  {
    hide Valid, Wire, Shown, ItemsOf, OnChunk, Sending, Speaking;
    var t1 := t.(gone := t.gone || ev.gone);
    assert Good(cfg, env, t1, sent) by { Leaves(cfg, env, t, t1, sent); }
    sent' := sent;
    if ev.line.Chunk? {
      sent' := OnChunkKeeps(cfg, env, t1, ev.line, sent);
    } else if ev.line.Idle? {
      NotProse(Keepalive);
      OtherFrameKeeps(cfg, env, t1, Keepalive, sent, []);
    }
  }

  lemma Leaves(cfg: Config, env: Env, t: Turn, t': Turn, sent: seq<Emission>)
    requires Good(cfg, env, t, sent) && (t' == t || t' == t.(gone := true)
      || t' == t.(content := t'.content, reasoning := t'.reasoning, started := true))
    ensures Good(cfg, env, t', sent)
  {
    hide Valid, Wire, Shown, ItemsOf;
  }

  lemma {:induction false} OnLinesKeeps(cfg: Config, env: Env, t: Turn, lines: seq<LineEvent<Delta>>,
    sent: seq<Emission>)
    returns (sent': seq<Emission>)
    requires Good(cfg, env, t, sent)
    ensures Good(cfg, env, OnLines(cfg, t, lines), sent')
  {
    hide Good, OnLine;
    sent' := sent;
    if lines != [] {
      sent' := OnLinesKeeps(cfg, env, t, lines[..|lines| - 1], sent);
      sent' := OnLineKeeps(cfg, env, OnLines(cfg, t, lines[..|lines| - 1]), lines[|lines| - 1], sent');
    }
  }

  // ---------- bodies that are not streams ----------

  ghost predicate NothingHeld(acc: Acc) {
    FlushCandidate(acc, Keys.SortedKeys(acc.Keys)).None?
  }

  lemma {:induction false} FlushListKeeps(cfg: Config, t: Turn, sent: seq<Emission>) returns (sent': seq<Emission>)
    requires Valid(t.acc, sent)
    ensures var (t', items) := FlushList(cfg, t);
      && Valid(t'.acc, sent') && ItemsOf(sent') == ItemsOf(sent) + items && NothingHeld(t'.acc)
      && t' == t.(acc := t'.acc, nextId := t'.nextId)
    decreases Waiting(t.acc)
  {
    hide Valid, ItemsOf, FlushedOne, NothingHeld, Waiting, DeltaAccumulated;
    var e := FlushedOne(t.acc, cfg.ids(t.nextId));
    NothingLeft(t.acc, cfg.ids(t.nextId));
    sent' := FlushKeeps(t.acc, sent, cfg.ids(t.nextId));
    if e.item.None? {
      assert FlushList(cfg, t) == (t, []);
      sent' := sent;
      assert ItemsOf(sent) + [] == ItemsOf(sent);
    } else {
      EmissionShrinks(t.acc, cfg.ids(t.nextId));
      var t1 := t.(acc := e.acc, nextId := t.nextId + 1);
      var s1 := sent';
      sent' := FlushListKeeps(cfg, t1, s1);
      var r := FlushList(cfg, t1);
      assert FlushList(cfg, t) == (r.0, [e.item.value] + r.1);
      assert ItemsOf(sent') == ItemsOf(sent) + ([e.item.value] + r.1);
    }
  }

  lemma NothingLeft(acc: Acc, newId: NewId)
    ensures NothingHeld(acc) <==> FlushedOne(acc, newId).item.None?
  {
    hide FlushCandidate, Keys.SortedKeys, Strip, LeastFree, Used;
    FlushTakesNamed(acc, Keys.SortedKeys(acc.Keys));
  }

  /** What a serial emission changes. */
  lemma {:induction false} SerialKeeps(cfg: Config, env: Env, t: Turn, items: seq<Item>, first: bool,
    sent: seq<Emission>)
    requires Sending(cfg, t, sent, items) && Speaking(env, t) && t.started && !t.gone && (items != [] ==> t.saw)
    ensures var t' := Serial(cfg, t, items, first);
      && Good(cfg, env, t', sent)
      && t' == t.(out := t'.out, emitted := t'.emitted)
      && Shown(t'.out) == Shown(t.out)
      && (items == [] ==> t' == t)
    decreases |items|
  {
    hide Valid, Wire, Shown, ItemsOf, Sending, Speaking;
    if items == [] || !HasBudget(cfg, t.emitted) {
      assert Serial(cfg, t, items, first) == t;
      OutOfBudget(cfg, t, items, sent);
    } else {
      var t1 := if first then t else Say(t, Keepalive);
      if !first {
        NotProse(Keepalive);
        OneMore(t.out, Keepalive);
        OtherFrameKeeps(cfg, env, t, Keepalive, sent, items);
      }
      assert Shown(t1.out) == Shown(t.out);
      assert items == [items[0]] + items[1..];
      ToolFrameKeeps(cfg, env, t1, items[0], sent, items[1..]);
      NotProse(Tool(items[0]));
      OneMore(t1.out, Tool(items[0]));
      var t2 := Say(t1, Tool(items[0])).(emitted := t1.emitted + 1);
      assert Shown(t2.out) == Shown(t.out);
      SerialKeeps(cfg, env, t2, items[1..], false, sent);
    }
  }

  lemma OutOfBudget(cfg: Config, t: Turn, items: seq<Item>, sent: seq<Emission>)
    requires Sending(cfg, t, sent, items) && (items == [] || !HasBudget(cfg, t.emitted))
    ensures Sending(cfg, t, sent, [])
  {
    hide Valid, Wire, ItemsOf;
  }

  /** An attempt about to end.  Text may be on the wire of a tools turn only if no tool can follow. */
  ghost predicate Ready(cfg: Config, env: Env, t: Turn, sent: seq<Emission>) {
    && Good(cfg, env.(asked := false), t, sent)
    && (env.asked ==> t.toolsRequested && (Shown(t.out) == [] || (Wire(t.out) == [] && FlushHeld(cfg, t) == t)))
  }

  lemma GoodIsReady(cfg: Config, env: Env, t: Turn, sent: seq<Emission>)
    requires Good(cfg, env, t, sent)
    ensures Ready(cfg, env, t, sent)
  {
    hide Valid, Wire, Shown, ItemsOf, FlushHeld;
  }

  /** The state of an attempt that has seen nothing but the answer's header. */
  ghost predicate Opened(env: Env, t: Turn) {
    t == NewTurn(env.asked, t.nextId, if env.roleSent then [] else [Role])
  }

  lemma OpenedIsGood(cfg: Config, env: Env, t: Turn)
    requires Opened(env, t)
    ensures Good(cfg, env, t, [])
    ensures Wire(t.out) == [] && Shown(t.out) == []
  {
    hide Wire, Shown, IsProse, ItemsOf, Valid;
    NoFrames();
    NotProse(Role);
    OneMore([], Role);
    assert [] + [Role] == [Role];
    assert Wire(t.out) == [] && Shown(t.out) == [];
    assert ItemsOf([]) == [];
    assert Valid(t.acc, []) by { NothingSent(); }
  }

  lemma NothingSent()
    ensures Valid(map[], [])
  {
  }

  lemma OnRawBodyKeeps(cfg: Config, env: Env, t: Turn, text: Text)
    requires Opened(env, t)
    ensures Ready(cfg, env, OnRawBody(t, text), []) && !OnRawBody(t, text).gone
  {
    hide Valid, Wire, Shown, ItemsOf, Sending, Speaking;
    OpenedIsGood(cfg, env, t);
    var calm := env.(asked := false);
    var t1 := t.(content := t.content + text, started := true, finished := true, heldFinish := T("stop"));
    LeavesCalm(cfg, env, t, t1, []);
    OneMore(t1.out, Prose(text, []));
    OtherFrameKeeps(cfg, calm, t1, Prose(text, []), [], []);
    var t2 := OnRawBody(t, text);
    assert NothingHeld(t2.acc);
  }

  lemma LeavesCalm(cfg: Config, env: Env, t: Turn, t': Turn, sent: seq<Emission>)
    requires Good(cfg, env, t, sent)
    requires t' == t.(content := t'.content, started := t'.started, finished := t'.finished, heldFinish :=
      t'.heldFinish)
    requires t.started ==> t'.started
    ensures Good(cfg, env.(asked := false), t', sent)
  {
    hide Valid, Wire, Shown, ItemsOf;
  }

  lemma OnJsonBodyKeeps(cfg: Config, env: Env, t: Turn, b: Attempt<Delta>) returns (sent: seq<Emission>)
    requires Opened(env, t) && b.JsonBody?
    ensures Ready(cfg, env, OnJsonBody(cfg, t, b), sent) && !OnJsonBody(cfg, t, b).gone
  {
    hide Valid, Wire, Shown, ItemsOf, Sending, Speaking, BodyTools, BodyProse, SayBody, Serial, FlushHeld,
      NothingHeld, Rewrite, HasBudget;
    var calm := env.(asked := false);
    OpenedIsGood(cfg, env, t);
    LeavesCalm(cfg, env, t, t, []);
    sent := BodyToolsKeeps(cfg, calm, t, b.calls);
    var (t1, items) := BodyTools(cfg, t, b.calls);
    var t2 := t1.(saw := items != [], started := true,
                  content := t.content + b.content, reasoning := t.reasoning + b.reasoning);
    var (t3, prose) := BodyProse(cfg, t2, b.content, b.reasoning);
    assert t3 == t2.(held := t3.held, thinkOpen := t3.thinkOpen) by { BodyProseFacts(cfg, t2, b.content, b.reasoning); }
    BodyStarts(cfg, calm, t, t1, t3, items, sent);
    SerialKeeps(cfg, calm, t3, items, true, sent);
    var t4 := Serial(cfg, t3, items, true);
    SayBodyKeeps(cfg, calm, t4, prose, sent);
    var t5 := SayBody(cfg, t4, prose);
    var t6 := OnJsonBody(cfg, t, b);
    assert t6 == t5.(finished := true, heldFinish := t6.heldFinish);
    LeavesCalm(cfg, calm, t5, t6, sent);
    NothingToFlush(cfg, t6);
  }

  lemma NothingToFlush(cfg: Config, t: Turn)
    requires NothingHeld(t.acc)
    ensures FlushHeld(cfg, t) == t
  {
    hide NothingHeld, FlushedOne;
    NothingLeft(t.acc, cfg.ids(t.nextId));
  }

  lemma BodyProseFacts(cfg: Config, t: Turn, content: Text, reasoning: Text)
    ensures var (t', prose) := BodyProse(cfg, t, content, reasoning);
      t' == t.(held := t'.held, thinkOpen := t'.thinkOpen)
  {
    hide Rewrite, CloseTag;
  }

  /** Every tool of the body is about to be sent, and none is left behind. */
  lemma BodyToolsKeeps(cfg: Config, env: Env, t: Turn, calls: seq<Delta>) returns (sent: seq<Emission>)
    requires Good(cfg, env, t, []) && t.acc == map[] && Wire(t.out) == [] && !t.saw && !t.gone
    ensures var (t', items) := BodyTools(cfg, t, calls);
      && Valid(t'.acc, sent) && ItemsOf(sent) == items && NothingHeld(t'.acc)
      && t' == t.(acc := t'.acc, nextId := t'.nextId, pending := t'.pending, toolsRequested :=
        t.toolsRequested || calls != [])
  {
    hide Valid, Wire, Shown, ItemsOf, DeltaAccumulated, FlushList, NothingHeld;
    assert ItemsOf([]) == [];
    if calls == [] {
      sent := BodyFlushKeeps(cfg, t, []);
    } else {
      var e := DeltaAccumulated(t.acc, calls, cfg.ids(t.nextId));
      sent := DeltaKeeps(t.acc, [], calls, cfg.ids(t.nextId));
      var t1 := t.(pending := true, toolsRequested := true, acc := e.acc, nextId := t.nextId + 1);
      sent := BodyFlushKeeps(cfg, t1, sent);
    }
  }

  lemma BodyFlushKeeps(cfg: Config, t: Turn, sent: seq<Emission>) returns (sent': seq<Emission>)
    requires Valid(t.acc, sent)
    ensures var (t', items) := BodyFlush(cfg, t);
      && Valid(t'.acc, sent') && ItemsOf(sent') == ItemsOf(sent) + items && NothingHeld(t'.acc)
      && t' == t.(acc := t'.acc, nextId := t'.nextId)
  {
    hide Valid, ItemsOf, FlushList;
    sent' := sent;
    if t.acc != map[] { sent' := FlushListKeeps(cfg, t, sent); }
    else { assert ItemsOf(sent) + [] == ItemsOf(sent); }
  }

  lemma BodyStarts(cfg: Config, env: Env, t: Turn, t1: Turn, t3: Turn, items: seq<Item>, sent: seq<Emission>)
    requires Speaking(env, t) && t1.out == t.out && !env.asked && Valid(t1.acc, sent) && ItemsOf(sent) == items
    requires Wire(t1.out) == [] && t1.emitted == 0 && !t1.gone
    requires t3.out == t1.out && t3.acc == t1.acc && t3.emitted == 0 && !t3.gone && t3.started
      && t3.saw == (items != [])
    ensures Sending(cfg, t3, sent, items) && Speaking(env, t3)
  {
    hide Valid, Wire, Shown, ItemsOf;
    assert Wire(t1.out) + items == items;
  }

  lemma SayBodyKeeps(cfg: Config, env: Env, t: Turn, prose: Held, sent: seq<Emission>)
    requires Good(cfg, env, t, sent) && !env.asked && t.started
    ensures var t' := SayBody(cfg, t, prose);
      && Good(cfg, env, t', sent)
      && t' == t.(out := t'.out) && Wire(t'.out) == Wire(t.out)
      && (t.toolsRequested && t.saw ==> t' == t)
  {
    hide Valid, Wire, Shown, ItemsOf, Sending, Speaking;
    if !(t.toolsRequested && t.saw) {
      var t1 := t;
      if prose.content != [] {
        OtherFrameKeeps(cfg, env, t, Prose(prose.content, []), sent, []);
        OneMore(t.out, Prose(prose.content, []));
        t1 := Say(t, Prose(prose.content, []));
      }
      if prose.reasoning != [] && cfg.mode == Off {
        OneMore(t1.out, Prose([], prose.reasoning));
        OtherFrameKeeps(cfg, env, t1, Prose([], prose.reasoning), sent, []);
      }
    }
  }

  // ---------- the end of an attempt ----------

  /** Tools on the wire: indices 0, 1, 2, ..., each with an id and a name, within the cap. */
  ghost predicate Dense(cfg: Config, tools: seq<Item>) {
    && (forall i: nat :: i < |tools| ==> tools[i].index == i && tools[i].id != [] && tools[i].name != [])
    && (cfg.maxTools > 0 ==> |tools| <= cfg.maxTools)
  }

  lemma SendingIsDense(cfg: Config, t: Turn, sent: seq<Emission>)
    requires Sending(cfg, t, sent, [])
    ensures Dense(cfg, Wire(t.out))
  {
    hide Wire, Valid;
    ItemsAreDense(t.acc, sent);
  }

  ghost predicate Ending(tail: seq<Frame>) {
    tail == [] || tail == [ErrorFrame, Done] || (|tail| == 3 && tail[0].Finish? && tail[1].Usage? && tail[2].Done?)
  }

  /** An attempt that has ended: early frames, then its ending. */
  ghost predicate Ended(cfg: Config, env: Env, o: Outcome, early: seq<Frame>, tail: seq<Frame>) {
    && o.turn.out == early + tail
    && Early(env, early) && Ending(tail)
    && (tail == [] ==> o.next || o.turn.gone)
    && (o.next ==> tail == [] && Wire(early) == [] && Shown(early) == [])
    && (env.asked ==> o.turn.toolsRequested && (Wire(early) == [] || Shown(early) == []))
    && Dense(cfg, Wire(early))
  }

  ghost predicate Settling(cfg: Config, env: Env, t: Turn, sent: seq<Emission>) {
    && Good(cfg, env.(asked := false), t, sent)
    && (env.asked ==> t.toolsRequested && (Shown(t.out) == [] || Wire(t.out) == []))
  }

  lemma SettleToolsKeeps(cfg: Config, env: Env, t: Turn, sent: seq<Emission>) returns (sent': seq<Emission>)
    requires Ready(cfg, env, t, sent)
    ensures Settling(cfg, env, SettleTools(cfg, t), sent')
    ensures SettleTools(cfg, t).gone == t.gone
  {
    hide Valid, Wire, Shown, ItemsOf, FlushHeld, Finalized, Keys.SortedKeys, Sending, Speaking, AnyEmitted;
    var calm := env.(asked := false);
    var t1 := if t.acc != map[] && !t.gone then FlushHeld(cfg, t) else t;
    sent' := sent;
    if t.acc != map[] && !t.gone {
      assert t.started by { AccMeansStarted(calm, t); }
      sent' := FlushHeldKeeps(cfg, calm, t, sent);
      FlushHeldSays(cfg, t);
    }
    Exclusive(cfg, t1, sent');
    if AnyEmitted(t1.acc) { TakesTools(cfg, calm, t1, sent'); }
  }

  lemma AccMeansStarted(env: Env, t: Turn)
    requires Speaking(env, t) && t.acc != map[]
    ensures t.started
  {
    hide Wire, Shown;
  }

  lemma Exclusive(cfg: Config, t: Turn, sent: seq<Emission>)
    requires Sending(cfg, t, sent, [])
    ensures Wire(t.out) != [] ==> t.saw
  {
    hide Valid, Wire, ItemsOf;
  }

  lemma TakesTools(cfg: Config, env: Env, t: Turn, sent: seq<Emission>)
    requires Good(cfg, env, t, sent) && AnyEmitted(t.acc)
    ensures Good(cfg, env, t.(saw := true, held := [], thinkOpen := false), sent)
    ensures !t.gone ==> Wire(t.out) != []
  {
    hide Wire, Shown, Valid, Early;
    SomethingSent(t.acc, sent);
    assert Wire(t.out) + [] == Wire(t.out);
  }

  lemma SomethingSent(acc: Acc, sent: seq<Emission>)
    requires Valid(acc, sent) && AnyEmitted(acc)
    ensures |ItemsOf(sent)| > 0
  {
    var k :| k in acc && acc[k].emitted;
    assert EntryOk(k, acc[k], sent);
  }

  /** The terminal flush sends tools and no text. */
  lemma {:induction false} FlushHeldSays(cfg: Config, t: Turn)
    ensures var t' := FlushHeld(cfg, t);
      Shown(t'.out) == Shown(t.out) && t'.gone == t.gone && t'.toolsRequested == t.toolsRequested
    decreases Waiting(t.acc)
  {
    hide Wire, Shown, FlushedOne, Waiting, DeltaAccumulated, IsProse;
    if HasBudget(cfg, t.emitted) {
      var e := FlushedOne(t.acc, cfg.ids(t.nextId));
      if e.item.Some? {
        EmissionShrinks(t.acc, cfg.ids(t.nextId));
        OneMore(t.out, Tool(e.item.value));
        NotProse(Tool(e.item.value));
        FlushHeldSays(cfg, SayTool(t, e).(saw := true, held := [], thinkOpen := false));
      }
    }
  }

  lemma {:induction false} SayHeldKeeps(cfg: Config, env: Env, t: Turn, held: seq<Held>, sent: seq<Emission>)
    requires Good(cfg, env, t, sent) && !env.asked
    ensures var t' := SayHeld(t, held);
      Good(cfg, env, t', sent) && Wire(t'.out) == Wire(t.out) && t' == t.(out := t'.out, started := t'.started)
  {
    hide Wire, Shown, Sending, Speaking, IsProse;
    if held != [] {
      var h := held[|held| - 1];
      var t1 := SayHeld(t, held[..|held| - 1]);
      SayHeldKeeps(cfg, env, t, held[..|held| - 1], sent);
      if h.content != [] || h.reasoning != [] {
        var t2 := t1.(started := true);
        Leaves(cfg, env, t1, t2, sent);
        OneMore(t2.out, Prose(h.content, h.reasoning));
        OtherFrameKeeps(cfg, env, t2, Prose(h.content, h.reasoning), sent, []);
      }
    }
  }

  lemma ReleaseKeeps(cfg: Config, env: Env, t: Turn, sent: seq<Emission>)
    requires Good(cfg, env, t, sent) && !env.asked
    ensures var t' := Release(t);
      && Good(cfg, env, t', sent) && Wire(t'.out) == Wire(t.out)
      && t' == t.(held := [], out := t'.out, started := t'.started)
      && (t.saw ==> t'.out == t.out)
  {
    hide Wire, Shown, Good, SayHeld, IsProse;
    var t1 := if t.saw then t else SayHeld(t, t.held);
    if !t.saw { SayHeldKeeps(cfg, env, t, t.held, sent); }
    Clears(cfg, env, t1, t1.(held := []), sent);
  }

  lemma EndTextKeeps(cfg: Config, env: Env, t: Turn, sent: seq<Emission>)
    requires Good(cfg, env, t, sent) && !env.asked
    ensures var t' := EndText(cfg, t);
      && Good(cfg, env, t'.(started := true), sent) && Wire(t'.out) == Wire(t.out)
      && t'.toolsRequested == t.toolsRequested && t'.saw == t.saw && t'.gone == t.gone
      && (t.toolsRequested && t.saw ==> t'.out == t.out)
  {
    hide Wire, Shown, Good, Release, CloseTag, IsProse;
    ReleaseKeeps(cfg, env, t, sent);
    var t1 := Release(t);
    var tag := CloseTag(cfg.mode, t1.thinkOpen);
    var t2 := t1.(started := true, thinkOpen := if tag != [] then false else t1.thinkOpen);
    Clears(cfg, env, t1, t2, sent);
    if tag != [] && !(t2.toolsRequested && t2.saw) {
      OneMore(t2.out, Prose(tag, []));
      SayCalm(cfg, env, t2, Prose(tag, []), sent);
    }
  }

  lemma SayCalm(cfg: Config, env: Env, t: Turn, f: Frame, sent: seq<Emission>)
    requires Good(cfg, env, t, sent) && !env.asked && t.started && f.Prose?
    ensures Good(cfg, env, Say(t, f), sent)
  {
    hide Sending, Speaking;
    OtherFrameKeeps(cfg, env, t, f, sent, []);
  }

  lemma Clears(cfg: Config, env: Env, t: Turn, t': Turn, sent: seq<Emission>)
    requires Good(cfg, env, t, sent) && !env.asked
    requires t' == t.(held := t'.held, started := t'.started, thinkOpen := t'.thinkOpen) && (t.started ==> t'.started)
    ensures Good(cfg, env, t', sent)
  {
    hide Wire, Shown, Valid, ItemsOf;
  }

  lemma SettledKeeps(cfg: Config, env: Env, t: Turn, last: bool, sent: seq<Emission>)
    returns (early: seq<Frame>, tail: seq<Frame>)
    requires Ready(cfg, env, t, sent)
    ensures Ended(cfg, env, Settled(cfg, t, last), early, tail) && (env.roleSent || early != [])
    ensures Settled(cfg, t, last).turn.gone == t.gone
  {
    hide Settling, Ready, SettleTools, SayEnd, EmptyAnswer, Ended;
    var t1 := SettleTools(cfg, t);
    var sent' := SettleToolsKeeps(cfg, env, t, sent);
    if EmptyAnswer(t1) {
      early, tail := EmptyKeeps(cfg, env, t1, last, sent');
    } else {
      early, tail := SayEndKeeps(cfg, env, t1, sent');
    }
  }

  lemma EmptyKeeps(cfg: Config, env: Env, t: Turn, last: bool, sent: seq<Emission>)
    returns (early: seq<Frame>, tail: seq<Frame>)
    requires Settling(cfg, env, t, sent) && EmptyAnswer(t)
    ensures Ended(cfg, env, if !t.started && !last then Outcome(t, true) else Fails(t), early, tail)
    ensures env.roleSent || early != []
  {
    hide Wire, Shown, Sending, Speaking, EmptyAnswer, Early, ItemsOf, Dense;
    early, tail := t.out, if !t.started && !last then [] else [ErrorFrame, Done];
    SendingIsDense(cfg, t, sent);
    FromSpeaking(env, t);
    assert t.out + [] == t.out;
    if tail == [] { NothingSaid(env.(asked := false), t); }
  }

  lemma SayEndKeeps(cfg: Config, env: Env, t: Turn, sent: seq<Emission>)
    returns (early: seq<Frame>, tail: seq<Frame>)
    requires Settling(cfg, env, t, sent)
    ensures Ended(cfg, env, Outcome(SayEnd(cfg, t), false), early, tail) && (env.roleSent || early != [])
    ensures SayEnd(cfg, t).gone == t.gone
  {
    hide Wire, Shown, Sending, Speaking, EndText, Early, ItemsOf, Dense;
    Exclusive(cfg, t, sent);
    if t.gone {
      early, tail := t.out, [];
      SendingIsDense(cfg, t, sent);
      FromSpeaking(env, t);
      assert t.out + [] == t.out;
    } else {
      var t2 := EndText(cfg, t);
      EndTextKeeps(cfg, env.(asked := false), t, sent);
      SendingIsDense(cfg, t2.(started := true), sent);
      FromSpeaking(env, t2.(started := true));
      early, tail := t2.out, [Finish(FinishReason(t2)), Usage, Done];
    }
  }

  lemma FromSpeaking(env: Env, t: Turn)
    requires Speaking(env.(asked := false), t)
    ensures Early(env, t.out) && (env.roleSent || t.out != [])
  {
    hide Wire, Shown;
  }

  lemma NothingSaid(env: Env, t: Turn)
    requires Speaking(env, t) && !t.started
    ensures Wire(t.out) == [] && Shown(t.out) == []
  {
    hide Wire, Shown;
  }

  // ---------- one attempt ----------

  lemma {:induction false} GoneOnLines(cfg: Config, env: Env, t: Turn, lines: seq<LineEvent<Delta>>,
    sent: seq<Emission>)
    requires Good(cfg, env, t, sent) && !t.gone && forall i :: 0 <= i < |lines| ==> !lines[i].gone
    ensures !OnLines(cfg, t, lines).gone
  {
    hide Good, OnLine;
    if lines != [] {
      GoneOnLines(cfg, env, t, lines[..|lines| - 1], sent);
      var s := OnLinesKeeps(cfg, env, t, lines[..|lines| - 1], sent);
      s := OnLineKeeps(cfg, env, OnLines(cfg, t, lines[..|lines| - 1]), lines[|lines| - 1], s);
    }
  }

  /** What one attempt sends, whatever its upstream does. */
  lemma AttemptEnds(cfg: Config, env: Env, nextId: nat, a: Attempt<Delta>, last: bool)
    returns (early: seq<Frame>, tail: seq<Frame>)
    ensures var o := Tried(cfg, NewTurn(env.asked, nextId, []), env.roleSent, a, last);
      && Ended(cfg, env, o, early, tail)
      && (if Answers(a) then env.roleSent || early != [] else early == [])
      && (last ==> !o.next)
      && (Steady(a) ==> !o.turn.gone)
  {
    hide Ended, Settled, OnLines, OnRawBody, OnJsonBody, Good, Ready, Live, AtDone;
    var t := NewTurn(env.asked, nextId, []);
    var open := if env.roleSent then t else Say(t, Role);
    assert [] + [Role] == [Role];
    OpenedIsGood(cfg, env, open);
    match a
    case NoConnection => early, tail :=
      QuietEnd(cfg, env, t, if !env.roleSent && !last then Outcome(t, true) else Fails(t));
    case Status(code) => early, tail :=
      QuietEnd(cfg, env, t, if Retryable(code) && !last then Outcome(t, true) else Fails(t));
    case Sse(lines, raises) =>
      var t0 := OnLines(cfg, open, Live(lines));
      var t1 := AtDone(t0, lines);
      var sent := OnLinesKeeps(cfg, env, open, Live(lines), []);
      if Steady(a) { LiveSteady(lines); GoneOnLines(cfg, env, open, Live(lines), []); }
      AtDoneKeeps(cfg, env, t0, lines, sent);
      if raises && !SeesDone(lines) {
        early, tail := FailsKeeps(cfg, env, t1, sent);
      } else {
        GoodIsReady(cfg, env, t1, sent);
        early, tail := SettledKeeps(cfg, env, t1, last, sent);
        LastStops(cfg, t1, last);
      }
    case RawBody(text) =>
      OnRawBodyKeeps(cfg, env, open, text);
      early, tail := SettledKeeps(cfg, env, OnRawBody(open, text), last, []);
      LastStops(cfg, OnRawBody(open, text), last);
    case JsonBody(_, _, _, _) =>
      var sent := OnJsonBodyKeeps(cfg, env, open, a);
      early, tail := SettledKeeps(cfg, env, OnJsonBody(cfg, open, a), last, sent);
      LastStops(cfg, OnJsonBody(cfg, open, a), last);
    case BrokenBody => early, tail := FailsKeeps(cfg, env, open, []);
  }

  lemma AtDoneKeeps(cfg: Config, env: Env, t: Turn, lines: seq<LineEvent<Delta>>, sent: seq<Emission>)
    requires Good(cfg, env, t, sent)
    ensures Good(cfg, env, AtDone(t, lines), sent)
    ensures Steady(Sse(lines, false)) ==> AtDone(t, lines).gone == t.gone
  {
    hide Good;
    Leaves(cfg, env, t, AtDone(t, lines), sent);
    if Steady(Sse(lines, false)) { assert forall i :: 0 <= i < |lines| ==> !Sse(lines, false).lines[i].gone; }
  }

  lemma LastStops(cfg: Config, t: Turn, last: bool)
    ensures last ==> !Settled(cfg, t, last).next
  {
    hide SettleTools, SayEnd, EmptyAnswer;
  }

  lemma QuietEnd(cfg: Config, env: Env, t: Turn, o: Outcome) returns (early: seq<Frame>, tail: seq<Frame>)
    requires t.out == [] && t.toolsRequested == env.asked && (o == Outcome(t, true) || o == Fails(t))
    ensures Ended(cfg, env, o, early, tail) && early == []
  {
    NoFrames();
    early, tail := [], if o.next then [] else [ErrorFrame, Done];
    assert [] + tail == tail;
  }

  lemma FailsKeeps(cfg: Config, env: Env, t: Turn, sent: seq<Emission>) returns (early: seq<Frame>, tail: seq<Frame>)
    requires Good(cfg, env, t, sent)
    ensures Ended(cfg, env, Fails(t), early, tail) && (env.roleSent || early != [])
  {
    hide Wire, Shown, Sending, Early, ItemsOf, Dense;
    early, tail := t.out, [ErrorFrame, Done];
    SendingIsDense(cfg, t, sent);
  }

  // ---------- the chain ----------

  lemma {:induction false} WireConcat(a: seq<Frame>, b: seq<Frame>)
    ensures Wire(a + b) == Wire(a) + Wire(b)
    ensures Shown(a + b) == Shown(a) + Shown(b)
  {
    hide WireOf, ShownOf, Wire, Shown;
    if b == [] {
      assert a + b == a;
      NoFrames();
    } else {
      var h, l := b[..|b| - 1], b[|b| - 1];
      WireConcat(a, h);
      OneMore(a + h, l);
      OneMore(h, l);
      assert a + b == a + h + [l] && b == h + [l];
    }
  }

  lemma EndingIsSilent(tail: seq<Frame>)
    requires Ending(tail)
    ensures Wire(tail) == [] && Shown(tail) == []
  {
    WireIsTools(tail);
  }

  /** The role frame at most once, and before anything a model says. */
  ghost predicate RoleFirst(roleSent: bool, frames: seq<Frame>) {
    && (forall p :: 0 <= p < |frames| && frames[p].Role? ==> p == 0 && !roleSent)
    && (roleSent || (forall p :: 0 <= p < |frames| && IsOutput(frames[p]) ==> frames[0].Role?))
  }

  /** `[DONE]` only as the last frame; a client that stays gets it. */
  ghost predicate OneDone(frames: seq<Frame>, steady: bool) {
    && (forall p :: 0 <= p < |frames| && frames[p].Done? ==> p == |frames| - 1)
    && (steady ==> frames != [] && frames[|frames| - 1].Done?)
  }

  /** Output comes from the last account that was tried. */
  ghost predicate LastAccount(r: Run) {
    && |r.accounts| == |r.frames|
    && forall p :: 0 <= p < |r.frames| && IsOutput(r.frames[p]) ==> r.accounts[p] + 1 == r.tried
  }

  /** Tools are dense and capped, and never come with text when tools were asked for. */
  ghost predicate ToolsApart(cfg: Config, asked: bool, frames: seq<Frame>) {
    && (asked ==> Wire(frames) == [] || Shown(frames) == [])
    && Dense(cfg, Wire(frames))
  }

  ghost predicate Sound(cfg: Config, roleSent: bool, asked: bool, steady: bool, r: Run) {
    && RoleFirst(roleSent, r.frames) && OneDone(r.frames, steady)
    && LastAccount(r) && ToolsApart(cfg, asked, r.frames)
  }

  /** An attempt that stops the run. */
  lemma StopIsSound(cfg: Config, env: Env, o: Outcome, early: seq<Frame>, tail: seq<Frame>, i: nat, steady: bool)
    requires Ended(cfg, env, o, early, tail) && !o.next && (steady ==> !o.turn.gone)
    ensures Sound(cfg, env.roleSent, env.asked, steady, Run(o.turn.out, Copies(i, |o.turn.out|), i + 1))
  {
    hide Wire, Shown, Dense;
    EndingIsSilent(tail);
    WireConcat(early, tail);
    assert Wire(early) + [] == Wire(early) && Shown(early) + [] == Shown(early);
    var out := o.turn.out;
    forall p | 0 <= p < |out| ensures out[p] == if p < |early| then early[p] else tail[p - |early|] {
    }
  }

  /** An attempt that hands over to the next account. */
  lemma NextIsSound(cfg: Config, env: Env, o: Outcome, early: seq<Frame>, tail: seq<Frame>, i: nat,
    steady: bool, roleSent: bool, rest: Run)
    requires Ended(cfg, env, o, early, tail) && o.next
    requires if early == [] then roleSent == env.roleSent else roleSent
    requires Sound(cfg, roleSent, o.turn.toolsRequested, steady, rest)
    ensures Sound(cfg, env.roleSent, env.asked, steady,
                  Run(o.turn.out + rest.frames, Copies(i, |o.turn.out|) + rest.accounts, rest.tried))
  {
    hide Wire, Shown, Dense;
    WireConcat(early, rest.frames);
    assert [] + Wire(rest.frames) == Wire(rest.frames) && [] + Shown(rest.frames) == Shown(rest.frames);
    assert o.turn.out == early;
    WireIsTools(early);
    var out := early + rest.frames;
    forall p | 0 <= p < |out| ensures out[p] == if p < |early| then early[p] else rest.frames[p - |early|] {
    }
    assert forall p :: 0 <= p < |early| ==> !IsOutput(early[p]);
  }

  /**
   The stream as a whole, for every chain of accounts and everything their upstreams do: one
   attempt's output, one role frame ahead of it, one `[DONE]` at the end, tools dense, capped and
   apart from text.
   */
  lemma {:induction false} StreamedIsSound(cfg: Config, chain: seq<Attempt<Delta>>, i: nat, roleSent: bool,
    asked: bool, nextId: nat)
    requires i <= |chain|
    ensures Sound(cfg, roleSent, asked, AllSteady(chain), Streamed(cfg, chain, i, roleSent, asked, nextId))
    decreases |chain| - i
  {
    hide Tried, Sound, Ended;
    if i == |chain| {
      FailedIsSound(cfg, roleSent, asked, AllSteady(chain), i);
    } else {
      var env := Env(asked, roleSent);
      var last := i == |chain| - 1;
      var early, tail := AttemptEnds(cfg, env, nextId, chain[i], last);
      var o := Tried(cfg, NewTurn(asked, nextId, []), roleSent, chain[i], last);
      if o.next {
        var roleSent' := roleSent || Answers(chain[i]);
        StreamedIsSound(cfg, chain, i + 1, roleSent', o.turn.toolsRequested, o.turn.nextId);
        var rest := Streamed(cfg, chain, i + 1, roleSent', o.turn.toolsRequested, o.turn.nextId);
        NextIsSound(cfg, env, o, early, tail, i, AllSteady(chain), roleSent', rest);
      } else {
        StopIsSound(cfg, env, o, early, tail, i, AllSteady(chain));
      }
    }
  }

  lemma FailedIsSound(cfg: Config, roleSent: bool, asked: bool, steady: bool, i: nat)
    ensures Sound(cfg, roleSent, asked, steady, Run([ErrorFrame, Done], [i, i], i))
  {
    EndingIsSilent([ErrorFrame, Done]);
  }

  lemma AtDoneSame(t: Turn, lines: seq<LineEvent<Delta>>)
    requires !t.gone && Steady(Sse(lines, false))
    ensures AtDone(t, lines) == t
  {
    assert forall i :: 0 <= i < |lines| ==> !Sse(lines, false).lines[i].gone;
  }

  lemma FirstIn<A>(s: seq<A>)
    ensures s != [] ==> exists x :: x in s
  {
    if s != [] { assert s[0] in s; }
  }
}
