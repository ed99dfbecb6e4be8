/**
 What the OpenAI-side stream does not lose: every tool that upstream named is sent unless the cap
 is reached, and the text of a body is sent unless it came with tools.
 */
module FailoverOpenAiDelivery {
  import opened Texts
  import opened Upstream
  import opened ToolEmitter
  import opened FailoverOpenAi
  import opened FailoverOpenAiLaws
  import opened ToolHistory
  import opened ToolEmitterHistory
  import JsonLaws
  import Assembler
  import Keys
  import ToolArgs

  // ---------- the loops go on to their end ----------

  /** No slot is complete and next in line. */
  ghost predicate NothingReady(acc: Acc) {
    forall k :: Next(acc, k) ==> !ReadySlot(acc[k])
  }

  /** Every slot with a name has been sent. */
  ghost predicate AllSent(acc: Acc) {
    forall k :: k in acc && NameOf(acc[k]) != [] ==> acc[k].emitted
  }

  lemma NothingHeldIsAllSent(acc: Acc)
    requires NothingHeld(acc)
    ensures AllSent(acc)
  {
    hide FlushCandidate, Keys.SortedKeys, NameOf;
    FlushTakesNamed(acc, Keys.SortedKeys(acc.Keys));
  }

  /** The drain after a tool frame stops only at the cap, or when no tool can be sent. */
  lemma {:induction false} DrainReadyEnds(cfg: Config, t: Turn)
    ensures var t' := DrainReady(cfg, t); !HasBudget(cfg, t'.emitted) || NothingReady(t'.acc)
    decreases Waiting(t.acc)
  {
    hide DeltaAccumulated, Waiting, NothingReady;
    if HasBudget(cfg, t.emitted) {
      var e := DeltaAccumulated(t.acc, [], cfg.ids(t.nextId));
      if e.item.Some? {
        EmissionShrinks(t.acc, cfg.ids(t.nextId));
        DrainReadyEnds(cfg, SayTool(t, e));
      } else {
        NothingAccumulated(t.acc, cfg.ids(t.nextId));
      }
    }
  }

  lemma NothingAccumulated(acc: Acc, newId: NewId)
    requires DeltaAccumulated(acc, [], newId).item.None?
    ensures NothingReady(DeltaAccumulated(acc, [], newId).acc)
  {
    hide Candidate, Keys.SortedKeys, NameOf, ReadySlot;
    assert Ingest(acc, []) == acc;
    CandidateOfAll(acc);
  }

  /** The terminal flush stops only at the cap, or when every slot with a name has been sent. */
  lemma {:induction false} FlushHeldEnds(cfg: Config, t: Turn)
    ensures var t' := FlushHeld(cfg, t); !HasBudget(cfg, t'.emitted) || AllSent(t'.acc)
    decreases Waiting(t.acc)
  {
    hide FlushedOne, Waiting, AllSent, DeltaAccumulated;
    if HasBudget(cfg, t.emitted) {
      var e := FlushedOne(t.acc, cfg.ids(t.nextId));
      NothingLeft(t.acc, cfg.ids(t.nextId));
      if e.item.Some? {
        EmissionShrinks(t.acc, cfg.ids(t.nextId));
        FlushHeldEnds(cfg, SayTool(t, e).(saw := true, held := [], thinkOpen := false));
      } else {
        NothingHeldIsAllSent(t.acc);
      }
    }
  }

  /** One step of the flush of a JSON body, and what is left to it. */
  lemma FlushListStep(cfg: Config, t: Turn)
    ensures var e := FlushedOne(t.acc, cfg.ids(t.nextId));
      if e.item.None? then FlushList(cfg, t) == (t, [])
      else
        var r := FlushList(cfg, t.(acc := e.acc, nextId := t.nextId + 1));
        FlushList(cfg, t) == (r.0, [e.item.value] + r.1) && Waiting(e.acc) < Waiting(t.acc)
  {
    hide FlushedOne, Waiting, DeltaAccumulated;
    EmissionShrinks(t.acc, cfg.ids(t.nextId));
  }

  /** The flush of a JSON body leaves no slot with a name. */
  lemma {:induction false} FlushListEnds(cfg: Config, t: Turn)
    ensures AllSent(FlushList(cfg, t).0.acc)
    decreases Waiting(t.acc)
  {
    hide FlushList, FlushedOne, Waiting, AllSent;
    var e := FlushedOne(t.acc, cfg.ids(t.nextId));
    NothingLeft(t.acc, cfg.ids(t.nextId));
    FlushListStep(cfg, t);
    if e.item.Some? {
      FlushListEnds(cfg, t.(acc := e.acc, nextId := t.nextId + 1));
    } else {
      NothingHeldIsAllSent(t.acc);
    }
  }

  // ---------- names are not lost ----------

  predicate Names(d: Delta, k: int) { d.Delta? && d.index == k && Strip(NameGiven(d)) != [] }

  /** Whether some delta gives upstream index `k` a name. */
  predicate NamedBy(calls: seq<Delta>, k: int) {
    calls != [] && (NamedBy(calls[..|calls| - 1], k) || Names(calls[|calls| - 1], k))
  }

  predicate HasName(acc: Acc, k: int) { k in acc && NameOf(acc[k]) != [] }

  /** Every slot that has a name keeps one. */
  ghost predicate NamesStay(a: Acc, b: Acc) {
    forall k :: HasName(a, k) ==> HasName(b, k)
  }

  lemma AbsorbNames(e: Entry, d: Delta)
    requires d.Delta? && Strip(NameGiven(d)) != []
    ensures NameOf(Absorb(e, d)) != []
  {
    hide ToolArgs.Merge, Strip;
    var n := NameGiven(d);
    StripNothing();
    StripIdempotent(n);
    StripIdempotent(e.name);
    var e1 := if d.id != [] && e.id == [] then e.(id := d.id) else e;
    assert Absorb(e, d).name == Assembler.MergeName(e.name, n);
  }

  /** A slot has a name as soon as one delta has given it one. */
  lemma {:induction false} IngestNames(acc: Acc, ds: seq<Delta>, k: int)
    requires HasName(acc, k) || NamedBy(ds, k)
    ensures HasName(Ingest(acc, ds), k)
  {
    hide Absorb, NameOf, Strip;
    if ds != [] {
      var h, d := ds[..|ds| - 1], ds[|ds| - 1];
      var t := Ingest(acc, h);
      if HasName(acc, k) || NamedBy(h, k) {
        IngestNames(acc, h, k);
        if d.Delta? && d.index == k { AbsorbKeepsName(t[k], d); }
      } else {
        AbsorbNames(if k in t then t[k] else NEW, d);
      }
    }
  }

  lemma BuiltNamesStay(acc: Acc, k: int, remaining: Text, newId: NewId)
    requires k in acc
    ensures NamesStay(acc, Built(acc, k, remaining, newId).acc)
  {
    hide NameOf, Used, LeastFree, Strip;
    SameName(Built(acc, k, remaining, newId).acc[k], acc[k]);
  }

  lemma DeltaNamesStay(acc: Acc, ds: seq<Delta>, newId: NewId)
    ensures NamesStay(Ingest(acc, ds), DeltaAccumulated(acc, ds, newId).acc)
  {
    hide Candidate, Keys.SortedKeys, NameOf, Ingest, NamesStay, Built;
    var t := Ingest(acc, ds);
    NamesStayHere(t);
    match Candidate(t, Keys.SortedKeys(t.Keys))
    case None =>
    case Some(k) => if k in t { BuiltNamesStay(t, k, t[k].args, newId); }
  }

  lemma NamesStayHere(acc: Acc)
    ensures NamesStay(acc, acc)
  {
  }

  lemma FlushNamesStay(acc: Acc, newId: NewId)
    ensures NamesStay(acc, FlushedOne(acc, newId).acc)
  {
    hide FlushCandidate, Keys.SortedKeys, NameOf, Strip, NamesStay, Built;
    NamesStayHere(acc);
    match FlushCandidate(acc, Keys.SortedKeys(acc.Keys))
    case None =>
    case Some(k) =>
      if k in acc { BuiltNamesStay(acc, k, if Strip(acc[k].args) != [] then acc[k].args else EMPTY_OBJECT, newId); }
  }

  lemma {:induction false} DrainNamesStay(cfg: Config, t: Turn)
    ensures NamesStay(t.acc, DrainReady(cfg, t).acc)
    decreases Waiting(t.acc)
  {
    hide DeltaAccumulated, FlushedOne, Waiting, HasName, HasBudget;
    if HasBudget(cfg, t.emitted) {
      var e := DeltaAccumulated(t.acc, [], cfg.ids(t.nextId));
      assert Ingest(t.acc, []) == t.acc;
      DeltaNamesStay(t.acc, [], cfg.ids(t.nextId));
      if e.item.Some? {
        EmissionShrinks(t.acc, cfg.ids(t.nextId));
        DrainNamesStay(cfg, SayTool(t, e));
      }
    }
  }

  lemma {:induction false} FlushHeldNamesStay(cfg: Config, t: Turn)
    ensures NamesStay(t.acc, FlushHeld(cfg, t).acc)
    decreases Waiting(t.acc)
  {
    hide FlushedOne, DeltaAccumulated, Waiting, HasName, HasBudget;
    if HasBudget(cfg, t.emitted) {
      var e := FlushedOne(t.acc, cfg.ids(t.nextId));
      FlushNamesStay(t.acc, cfg.ids(t.nextId));
      if e.item.Some? {
        EmissionShrinks(t.acc, cfg.ids(t.nextId));
        FlushHeldNamesStay(cfg, SayTool(t, e).(saw := true, held := [], thinkOpen := false));
      }
    }
  }

  /** Whether some line gives upstream index `k` a name. */
  predicate NamedIn(lines: seq<LineEvent<Delta>>, k: int) {
    lines != [] &&
    (var l := lines[|lines| - 1].line; NamedIn(lines[..|lines| - 1], k) || (l.Chunk? && NamedBy(l.calls, k)))
  }

  lemma OnChunkNames(cfg: Config, t: Turn, c: Line<Delta>, k: int)
    requires c.Chunk? && (HasName(t.acc, k) || NamedBy(c.calls, k))
    ensures HasName(OnChunk(cfg, t, c).acc, k)
  {
    hide TakeFinish, TakeProse, SendChunk, DeltaAccumulated, Ingest, HasName, Names, HasBudget;
    if c.content == [] && c.reasoning == [] && c.calls == [] && c.finish == [] { return; }
    var t0 := t.(content := t.content + c.content, reasoning := t.reasoning + c.reasoning, started := true);
    var (t1, item) := TakeCalls(cfg, t0, c.calls);
    if c.calls != [] {
      IngestNames(t.acc, c.calls, k);
      DeltaNamesStay(t.acc, c.calls, cfg.ids(t.nextId));
    }
    assert HasName(t1.acc, k);
    var (t2, prose) := TakeProse(cfg, t1, c.content, c.reasoning);
    var t3 := TakeFinish(cfg, t2, c.finish);
    TextKeepsAcc(cfg, t1, c.content, c.reasoning, c.finish);
    SendNamesStay(cfg, t3, prose, item);
  }

  lemma TextKeepsAcc(cfg: Config, t: Turn, content: Text, reasoning: Text, finish: Text)
    ensures var (t', prose) := TakeProse(cfg, t, content, reasoning);
      t'.acc == t.acc && TakeFinish(cfg, t', finish).acc == t.acc
  {
    hide Rewrite, CloseTag, TakeFinish;
    FinishKeepsAcc(cfg, TakeProse(cfg, t, content, reasoning).0, finish);
  }

  lemma FinishKeepsAcc(cfg: Config, t: Turn, finish: Text)
    ensures TakeFinish(cfg, t, finish).acc == t.acc
  {
    hide CloseTag;
  }

  lemma SendNamesStay(cfg: Config, t: Turn, prose: Held, item: Option<Item>)
    ensures NamesStay(t.acc, SendChunk(cfg, t, prose, item).acc)
  {
    hide DrainReady, HasName, NamesStay;
    NamesStayHere(t.acc);
    if !(prose.content == [] && prose.reasoning == []) || item.Some? {
      var t1 := t.(started := true);
      var t2 := if prose.content == [] && prose.reasoning == [] then t1
                else Say(t1, Prose(prose.content, prose.reasoning));
      if item.Some? { DrainNamesStay(cfg, Say(t2, Tool(item.value)).(saw := true, emitted := t2.emitted + 1)); }
    }
  }

  lemma {:induction false} OnLinesName(cfg: Config, t: Turn, lines: seq<LineEvent<Delta>>, k: int)
    requires HasName(t.acc, k) || NamedIn(lines, k)
    ensures HasName(OnLines(cfg, t, lines).acc, k)
  {
    hide OnChunk, HasName, NamedBy;
    if lines != [] {
      var h, l := lines[..|lines| - 1], lines[|lines| - 1];
      var t1 := OnLines(cfg, t, h);
      if HasName(t.acc, k) || NamedIn(h, k) { OnLinesName(cfg, t, h, k); }
      if l.line.Chunk? { OnChunkNames(cfg, t1.(gone := t1.gone || l.gone), l.line, k); }
    }
  }

  // ---------- arguments are merged in order ----------

  lemma {:induction false} DrainKept(cfg: Config, t: Turn, ds: seq<Delta>)
    requires Kept(t.acc, ds, false)
    ensures Kept(DrainReady(cfg, t).acc, ds, false)
    decreases Waiting(t.acc)
  {
    hide DeltaAccumulated, FlushedOne, Waiting, Kept, HasBudget;
    if HasBudget(cfg, t.emitted) {
      var e := DeltaAccumulated(t.acc, [], cfg.ids(t.nextId));
      DeltaKept(t.acc, ds, [], cfg.ids(t.nextId));
      assert ds + [] == ds;
      if e.item.Some? {
        EmissionShrinks(t.acc, cfg.ids(t.nextId));
        DrainKept(cfg, SayTool(t, e), ds);
      }
    }
  }

  lemma {:induction false} FlushHeldKept(cfg: Config, t: Turn, ds: seq<Delta>)
    requires Kept(t.acc, ds, true)
    ensures Kept(FlushHeld(cfg, t).acc, ds, true)
    decreases Waiting(t.acc)
  {
    hide FlushedOne, DeltaAccumulated, Waiting, Kept, HasBudget;
    if HasBudget(cfg, t.emitted) {
      var e := FlushedOne(t.acc, cfg.ids(t.nextId));
      FlushKept(t.acc, ds, cfg.ids(t.nextId));
      if e.item.Some? {
        EmissionShrinks(t.acc, cfg.ids(t.nextId));
        FlushHeldKept(cfg, SayTool(t, e).(saw := true, held := [], thinkOpen := false), ds);
      }
    }
  }

  lemma {:induction false} FlushListKept(cfg: Config, t: Turn, ds: seq<Delta>)
    requires Kept(t.acc, ds, true)
    ensures Kept(FlushList(cfg, t).0.acc, ds, true)
    decreases Waiting(t.acc)
  {
    hide FlushedOne, DeltaAccumulated, Waiting, Kept;
    var e := FlushedOne(t.acc, cfg.ids(t.nextId));
    FlushKept(t.acc, ds, cfg.ids(t.nextId));
    if e.item.Some? {
      EmissionShrinks(t.acc, cfg.ids(t.nextId));
      FlushListKept(cfg, t.(acc := e.acc, nextId := t.nextId + 1), ds);
    }
  }

  lemma SendKept(cfg: Config, t: Turn, prose: Held, item: Option<Item>, ds: seq<Delta>)
    requires Kept(t.acc, ds, false)
    ensures Kept(SendChunk(cfg, t, prose, item).acc, ds, false)
  {
    hide DrainReady, Kept;
    if item.Some? {
      var t1 := t.(started := true);
      var t2 := if prose.content == [] && prose.reasoning == [] then t1
                else Say(t1, Prose(prose.content, prose.reasoning));
      DrainKept(cfg, Say(t2, Tool(item.value)).(saw := true, emitted := t2.emitted + 1), ds);
    }
  }

  lemma CallsKept(cfg: Config, t: Turn, calls: seq<Delta>, ds: seq<Delta>)
    requires Kept(t.acc, ds, false)
    ensures Kept(TakeCalls(cfg, t, calls).0.acc, ds + calls, false)
  {
    hide Kept, DeltaAccumulated, Ingest, HasBudget;
    if calls == [] {
      assert ds + calls == ds;
    } else {
      DeltaKept(t.acc, ds, calls, cfg.ids(t.nextId));
      IngestKept(t.acc, ds, calls);
    }
  }

  lemma OnChunkKept(cfg: Config, t: Turn, c: Line<Delta>, ds: seq<Delta>)
    requires c.Chunk? && Kept(t.acc, ds, false)
    ensures Kept(OnChunk(cfg, t, c).acc, ds + c.calls, false)
  {
    hide TakeCalls, TakeFinish, TakeProse, SendChunk, Kept;
    if c.content == [] && c.reasoning == [] && c.calls == [] && c.finish == [] {
      assert ds + c.calls == ds;
    } else {
      var t0 := t.(content := t.content + c.content, reasoning := t.reasoning + c.reasoning, started := true);
      var (t1, item) := TakeCalls(cfg, t0, c.calls);
      CallsKept(cfg, t0, c.calls, ds);
      var (t2, prose) := TakeProse(cfg, t1, c.content, c.reasoning);
      TextKeepsAcc(cfg, t1, c.content, c.reasoning, c.finish);
      SendKept(cfg, TakeFinish(cfg, t2, c.finish), prose, item, ds + c.calls);
    }
  }

  /** All the tool-call deltas of some lines, in order. */
  function CallsOf(lines: seq<LineEvent<Delta>>): seq<Delta> {
    if lines == [] then []
    else
      var l := lines[|lines| - 1].line;
      CallsOf(lines[..|lines| - 1]) + (if l.Chunk? then l.calls else [])
  }

  lemma OnLineKept(cfg: Config, t: Turn, ev: LineEvent<Delta>, ds: seq<Delta>)
    requires Kept(t.acc, ds, false)
    ensures Kept(OnLine(cfg, t, ev).acc, ds + (if ev.line.Chunk? then ev.line.calls else []), false)
  {
    hide OnChunk, Kept;
    assert ds + [] == ds;
    if ev.line.Chunk? { OnChunkKept(cfg, t.(gone := t.gone || ev.gone), ev.line, ds); }
  }

  lemma {:induction false} OnLinesKept(cfg: Config, t: Turn, lines: seq<LineEvent<Delta>>)
    requires t.acc == map[]
    ensures Kept(OnLines(cfg, t, lines).acc, CallsOf(lines), false)
  {
    hide OnLine, Kept;
    if lines == [] {
      NothingKept();
    } else {
      var h, l := lines[..|lines| - 1], lines[|lines| - 1];
      OnLinesKept(cfg, t, h);
      OnLineKept(cfg, OnLines(cfg, t, h), l, CallsOf(h));
    }
  }

  /** The tool-call deltas of an answer. */
  function CallsIn(a: Attempt<Delta>): seq<Delta> {
    match a
    case Sse(lines, _) => CallsOf(Live(lines))
    case JsonBody(_, _, calls, _) => calls
    case _ => []
  }

  lemma BodyKept(cfg: Config, t: Turn, b: Attempt<Delta>)
    requires b.JsonBody? && t.acc == map[]
    ensures Kept(OnJsonBody(cfg, t, b).acc, b.calls, true)
  {
    hide DeltaAccumulated, FlushList, Kept, OnJsonBody;
    NothingKept();
    BodyKeepsAcc(cfg, t, b);
    if b.calls == [] {
      KeptForFlush(t.acc, []);
    } else {
      DeltaKept(t.acc, [], b.calls, cfg.ids(t.nextId));
      assert [] + b.calls == b.calls;
      var e := DeltaAccumulated(t.acc, b.calls, cfg.ids(t.nextId));
      KeptForFlush(e.acc, b.calls);
      FlushListKept(cfg, t.(pending := true, toolsRequested := true, acc := e.acc, nextId := t.nextId + 1), b.calls);
    }
  }

  lemma SettleKept(cfg: Config, t: Turn, ds: seq<Delta>)
    requires Kept(t.acc, ds, true)
    ensures Kept(SettleTools(cfg, t).acc, ds, true)
  {
    hide FlushHeld, Kept, Finalized, AnyEmitted, Keys.SortedKeys;
    FlushHeldKept(cfg, t, ds);
  }

  // ---------- every tool that was named ----------

  /** The tools on the wire are those sent, and unless the cap is reached every named slot is among them. */
  ghost predicate Delivered(cfg: Config, t: Turn, sent: seq<Emission>) {
    && Valid(t.acc, sent) && Wire(t.out) <= ItemsOf(sent)
    && (!HasBudget(cfg, |Wire(t.out)|) || (Wire(t.out) == ItemsOf(sent) && AllSent(t.acc)))
  }

  /** A settled attempt sends no further tool after its flush. */
  lemma SettledWire(cfg: Config, env: Env, t: Turn, last: bool, sent: seq<Emission>)
    requires Settling(cfg, env, SettleTools(cfg, t), sent)
    ensures var o, t1 := Settled(cfg, t, last), SettleTools(cfg, t);
      Wire(o.turn.out) == Wire(t1.out) && o.turn.acc == t1.acc
  {
    hide Wire, Shown, SettleTools, EmptyAnswer, EndText, Good, CloseTag;
    var t1 := SettleTools(cfg, t);
    if EmptyAnswer(t1) {
      var rest := if !t1.started && !last then [] else [ErrorFrame, Done];
      EndingIsSilent(rest);
      WireConcat(t1.out, rest);
      assert t1.out + [] == t1.out;
      assert Wire(t1.out) + [] == Wire(t1.out);
    } else if !t1.gone {
      var t2 := EndText(cfg, t1);
      var rest := [Finish(FinishReason(t2)), Usage, Done];
      EndingIsSilent(rest);
      WireConcat(t2.out, rest);
      EndTextKeeps(cfg, env.(asked := false), t1, sent);
      EndTextAcc(cfg, t1);
      assert Wire(t2.out) + [] == Wire(t2.out);
    }
  }

  lemma {:induction false} SayHeldAcc(t: Turn, held: seq<Held>)
    ensures SayHeld(t, held).acc == t.acc
  {
    if held != [] { SayHeldAcc(t, held[..|held| - 1]); }
  }

  lemma EndTextAcc(cfg: Config, t: Turn)
    ensures EndText(cfg, t).acc == t.acc
  {
    hide SayHeld, CloseTag;
    SayHeldAcc(t, t.held);
  }

  lemma SettledDelivers(cfg: Config, env: Env, t: Turn, last: bool, sent: seq<Emission>) returns (sent': seq<Emission>)
    requires Ready(cfg, env, t, sent) && !t.gone
    ensures Delivered(cfg, Settled(cfg, t, last).turn, sent')
    ensures NamesStay(t.acc, Settled(cfg, t, last).turn.acc)
    ensures Settled(cfg, t, last).turn.acc == SettleTools(cfg, t).acc
  {
    hide Wire, Shown, Ready, Speaking, Valid, ItemsOf, HasBudget, Settled, FlushHeld, AllSent, HasName,
      NamesStay, Finalized, AnyEmitted, Keys.SortedKeys;
    sent' := SettleToolsKeeps(cfg, env, t, sent);
    var t1 := SettleTools(cfg, t);
    SettledWire(cfg, env, t, last, sent');
    assert Wire(t1.out) + [] == Wire(t1.out);
    NamesStayHere(t.acc);
    if t.acc != map[] {
      FlushHeldEnds(cfg, t);
      FlushHeldNamesStay(cfg, t);
    } else {
      NoSlots(t.acc);
    }
  }

  lemma NoSlots(acc: Acc)
    requires acc == map[]
    ensures AllSent(acc)
  {
  }

  /** What upstream named. */
  predicate NamedUpstream(a: Attempt<Delta>, k: int) {
    match a
    case Sse(lines, _) => NamedIn(Live(lines), k)
    case JsonBody(_, _, calls, _) => NamedBy(calls, k)
    case _ => false
  }

  lemma BodyNames(cfg: Config, t: Turn, b: Attempt<Delta>, k: int)
    requires b.JsonBody? && NamedBy(b.calls, k)
    ensures HasName(OnJsonBody(cfg, t, b).acc, k)
  {
    hide DeltaAccumulated, FlushList, Serial, BodyProse, SayBody, HasName, Names, Ingest;
    IngestNames(t.acc, b.calls, k);
    DeltaNamesStay(t.acc, b.calls, cfg.ids(t.nextId));
    var e := DeltaAccumulated(t.acc, b.calls, cfg.ids(t.nextId));
    var t1 := t.(pending := true, toolsRequested := true, acc := e.acc, nextId := t.nextId + 1);
    FlushListNamesStay(cfg, t1);
    NamesStayHere(t1.acc);
    BodyKeepsAcc(cfg, t, b);
  }

  lemma BodyKeepsAcc(cfg: Config, t: Turn, b: Attempt<Delta>)
    requires b.JsonBody?
    ensures OnJsonBody(cfg, t, b).acc == BodyTools(cfg, t, b.calls).0.acc
  {
    hide BodyTools, Serial, BodyProse, SayBody;
    var (t1, items) := BodyTools(cfg, t, b.calls);
    var t2 := t1.(saw := items != [], started := true,
                  content := t.content + b.content, reasoning := t.reasoning + b.reasoning);
    BodyProseFacts(cfg, t2, b.content, b.reasoning);
    var (t3, prose) := BodyProse(cfg, t2, b.content, b.reasoning);
    SerialKeepsAcc(cfg, t3, items, true);
    SayBodyKeepsAcc(cfg, Serial(cfg, t3, items, true), prose);
  }

  lemma SayBodyKeepsAcc(cfg: Config, t: Turn, prose: Held)
    ensures SayBody(cfg, t, prose).acc == t.acc
  {
    hide Say, SayBody;
    SayKeepsAcc(t, Prose(prose.content, []));
    SayKeepsAcc(t, Prose([], prose.reasoning));
    SayKeepsAcc(Say(t, Prose(prose.content, [])), Prose([], prose.reasoning));
    SayBodyCases(cfg, t, prose);
  }

  lemma SayKeepsAcc(t: Turn, f: Frame)
    ensures Say(t, f).acc == t.acc
  {
  }

  lemma SayBodyCases(cfg: Config, t: Turn, prose: Held)
    ensures var r := SayBody(cfg, t, prose);
      || r == t || r == Say(t, Prose(prose.content, [])) || r == Say(t, Prose([], prose.reasoning))
      || r == Say(Say(t, Prose(prose.content, [])), Prose([], prose.reasoning))
  {
    hide Say;
  }

  lemma {:induction false} SerialKeepsAcc(cfg: Config, t: Turn, items: seq<Item>, first: bool)
    ensures Serial(cfg, t, items, first).acc == t.acc
    decreases |items|
  {
    hide HasBudget, Say;
    if items != [] && HasBudget(cfg, t.emitted) {
      var t1 := if first then t else Say(t, Keepalive);
      SayKeepsAcc(t, Keepalive);
      SayKeepsAcc(t1, Tool(items[0]));
      SerialKeepsAcc(cfg, Say(t1, Tool(items[0])).(emitted := t1.emitted + 1), items[1..], false);
    }
  }

  lemma {:induction false} FlushListNamesStay(cfg: Config, t: Turn)
    ensures NamesStay(t.acc, FlushList(cfg, t).0.acc)
    decreases Waiting(t.acc)
  {
    hide FlushedOne, DeltaAccumulated, Waiting, HasName;
    var e := FlushedOne(t.acc, cfg.ids(t.nextId));
    FlushNamesStay(t.acc, cfg.ids(t.nextId));
    if e.item.Some? {
      EmissionShrinks(t.acc, cfg.ids(t.nextId));
      FlushListNamesStay(cfg, t.(acc := e.acc, nextId := t.nextId + 1));
    }
  }

  /** A slot that has been sent is one of the emissions. */
  lemma SentIsEmission(acc: Acc, sent: seq<Emission>, k: int)
    requires Valid(acc, sent) && AllSent(acc) && HasName(acc, k)
    ensures exists i :: 0 <= i < |sent| && sent[i].slot == k
  {
    hide NameOf;
    assert EntryOk(k, acc[k], sent);
    assert sent[acc[k].outIndex.value].slot == k;
  }

  /** Every item that was sent carries what the deltas of its index add up to. */
  lemma SentCarries(acc: Acc, sent: seq<Emission>, ds: seq<Delta>, i: nat)
    requires Valid(acc, sent) && Kept(acc, ds, true) && i < |sent|
    ensures Carried(sent[i], ds)
  {
    hide Own, Tells, CarriesFirst, NameOf;
    var k := sent[i].slot;
    assert acc[k].sentAs == Some(sent[i].item);
    assert EntryOk(k, acc[k], sent);
  }

  /**
   No tool is lost: in a stream that is drained with the client connected, and in every JSON body,
   each upstream index that was ever given a name is on the wire, unless the cap has been reached.
   `sent` pairs every tool frame with its upstream index, and each carries what the deltas of that
   index add up to: all of them, or those by which the arguments were complete.
   */
  lemma ToolsAreDelivered(cfg: Config, env: Env, nextId: nat, a: Attempt<Delta>, last: bool)
    returns (sent: seq<Emission>)
    requires a.JsonBody? || (a.Sse? && Steady(a) && (a.raises ==> SeesDone(a.lines)))
    ensures var t := Tried(cfg, NewTurn(env.asked, nextId, []), env.roleSent, a, last).turn;
      && Valid(t.acc, sent) && Wire(t.out) <= ItemsOf(sent)
      && ((cfg.maxTools > 0 && |Wire(t.out)| >= cfg.maxTools)
          || (&& Wire(t.out) == ItemsOf(sent)
              && forall k :: NamedUpstream(a, k) ==> exists i :: 0 <= i < |sent| && sent[i].slot == k))
    ensures forall i :: 0 <= i < |sent| ==> Carried(sent[i], CallsIn(a))
  {
    hide OnLines, Live, Settled, OnJsonBody, AtDone, Good, Ready, Valid, Wire, ItemsOf, AllSent, HasName,
      NamedIn, NamedBy, Kept, SettleTools, Carried, CallsOf;
    var t := if env.roleSent then NewTurn(env.asked, nextId, []) else Say(NewTurn(env.asked, nextId, []), Role);
    assert [] + [Role] == [Role];
    assert Opened(env, t);
    OpenedIsGood(cfg, env, t);
    var t1: Turn;
    if a.Sse? {
      t1 := OnLines(cfg, t, Live(a.lines));
      LiveSteady(a.lines);
      sent := OnLinesKeeps(cfg, env, t, Live(a.lines), []);
      GoneOnLines(cfg, env, t, Live(a.lines), []);
      AtDoneSame(t1, a.lines);
      GoodIsReady(cfg, env, t1, sent);
      OnLinesKept(cfg, t, Live(a.lines));
      KeptForFlush(t1.acc, CallsIn(a));
    } else {
      t1 := OnJsonBody(cfg, t, a);
      sent := OnJsonBodyKeeps(cfg, env, t, a);
      BodyKept(cfg, t, a);
    }
    sent := SettledDelivers(cfg, env, t1, last, sent);
    SettleKept(cfg, t1, CallsIn(a));
    var r := Settled(cfg, t1, last).turn;
    assert r == Tried(cfg, NewTurn(env.asked, nextId, []), env.roleSent, a, last).turn;
    forall k | NamedUpstream(a, k) && AllSent(r.acc) ensures exists i :: 0 <= i < |sent| && sent[i].slot == k {
      if a.Sse? { OnLinesName(cfg, t, Live(a.lines), k); } else { BodyNames(cfg, t, a, k); }
      assert HasName(r.acc, k) by { NamesStayOne(t1.acc, r.acc, k); }
      SentIsEmission(r.acc, sent, k);
    }
    forall i | 0 <= i < |sent| ensures Carried(sent[i], CallsIn(a)) {
      SentCarries(r.acc, sent, CallsIn(a), i);
    }
  }

  lemma NamesStayOne(a: Acc, b: Acc, k: int)
    requires NamesStay(a, b) && HasName(a, k)
    ensures HasName(b, k)
  {
  }

  /**
   The arguments of a tool arrive whole: if the pieces of index `k` are beginnings of one object or
   array text, the text itself among them, or cut it into pieces that continue each other, then every
   tool frame of this index carries exactly this text.
   */
  lemma ArgumentsArriveWhole(cfg: Config, env: Env, nextId: nat, a: Attempt<Delta>, last: bool, k: int, text: Text)
    returns (sent: seq<Emission>)
    requires a.JsonBody? || (a.Sse? && Steady(a) && (a.raises ==> SeesDone(a.lines)))
    requires JsonLaws.ContainerText(text) && Arrives(PartsOf(Own(CallsIn(a), k)), text)
    ensures var t := Tried(cfg, NewTurn(env.asked, nextId, []), env.roleSent, a, last).turn;
      && Wire(t.out) <= ItemsOf(sent)
      && ((cfg.maxTools > 0 && |Wire(t.out)| >= cfg.maxTools)
          || (&& Wire(t.out) == ItemsOf(sent)
              && (NamedUpstream(a, k) ==> exists i :: 0 <= i < |sent| && sent[i].slot == k)))
    ensures forall i :: 0 <= i < |sent| && sent[i].slot == k ==> sent[i].item.args == text
  {
    hide Tried, Steady, SeesDone, Wire, ItemsOf, Valid, NamedUpstream, CallsIn, Own, PartsOf, Arrives,
      JsonLaws.ContainerText, Carried;
    sent := ToolsAreDelivered(cfg, env, nextId, a, last);
    forall i | 0 <= i < |sent| && sent[i].slot == k ensures sent[i].item.args == text {
      WholeIsCarried(sent[i], CallsIn(a), text);
    }
  }
}
