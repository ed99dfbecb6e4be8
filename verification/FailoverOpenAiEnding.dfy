/**
 How an answered attempt of the OpenAI-side stream ends for a client that stays: with an error
 exactly if it was cut or empty, and otherwise with a finish reason that names the tools sent.
 */
module FailoverOpenAiEnding {
  import opened Texts
  import opened Upstream
  import opened ToolEmitter
  import opened FailoverOpenAi
  import opened FailoverOpenAiLaws
  import opened FailoverOpenAiDelivery
  import opened FailoverOpenAiText
  import opened FailoverOpenAiHandover
  import Keys

  /** Nothing but blank text, held text included. */
  predicate SaidBlank(mode: Mode, asked: bool, a: Attempt<Delta>) {
    match a
    case Sse(lines, _) => EmptyTold(ToldBy(mode, asked, Live(lines)))
    case RawBody(text) => Strip(text) == []
    case JsonBody(content, reasoning, _, _) => Strip(content) == [] && Strip(reasoning) == []
    case _ => true
  }

  predicate IsCut(a: Attempt<Delta>) { a.BrokenBody? || (a.Sse? && a.raises && !SeesDone(a.lines)) }

  // ---------- the end of an answer ----------

  predicate BlankTurn(t: Turn) {
    (forall h :: h in t.held ==> h.content == [] && h.reasoning == []) && Strip(t.content) == []
      && Strip(t.reasoning) == []
  }

  /** An answer counts as empty exactly if it ships no tool and its text is blank. */
  lemma EmptyExactly(cfg: Config, env: Env, t: Turn, sent: seq<Emission>)
    requires Ready(cfg, env, t, sent) && !t.gone
    ensures var t1 := SettleTools(cfg, t);
      && (EmptyAnswer(t1) <==> Wire(t1.out) == [] && BlankTurn(t))
      && (t1.saw <==> Wire(t1.out) != [])
      && SameMarks(t, t1)
  {
    hide Wire, Shown, SettleTools, Strip, Finalized, Keys.SortedKeys, Sending, Speaking;
    var calm := env.(asked := false);
    var sent' := SettleToolsKeeps(cfg, env, t, sent);
    var t1 := SettleTools(cfg, t);
    SettleKeepsMarks(cfg, t);
    SawIsSent(cfg, calm, t1, sent');
    if Wire(t1.out) == [] {
      SettlesUnchanged(cfg, calm, t, sent);
      NothingFinal(cfg, calm, t, sent);
    }
  }

  lemma SettleKeepsMarks(cfg: Config, t: Turn)
    ensures SameMarks(t, SettleTools(cfg, t))
  {
    hide FlushHeld, Finalized, AnyEmitted, Keys.SortedKeys;
    FlushKeepsMarks(cfg, t);
  }

  lemma SawIsSent(cfg: Config, env: Env, t: Turn, sent: seq<Emission>)
    requires Good(cfg, env, t, sent) && !t.gone
    ensures t.saw <==> Wire(t.out) != []
  {
    hide Wire, Shown, Valid, ItemsOf, Speaking;
    assert Wire(t.out) + [] == Wire(t.out);
  }

  lemma {:induction false} SayHeldKeepsMarks(t: Turn, held: seq<Held>)
    ensures var r := SayHeld(t, held); r.finished == t.finished && r.heldFinish == t.heldFinish && r.saw == t.saw
  {
    if held != [] { SayHeldKeepsMarks(t, held[..|held| - 1]); }
  }

  lemma EndTextKeepsMarks(cfg: Config, t: Turn)
    ensures var r := EndText(cfg, t); r.finished == t.finished && r.heldFinish == t.heldFinish && r.saw == t.saw
  {
    hide SayHeld, CloseTag;
    SayHeldKeepsMarks(t, t.held);
  }

  /** The last frames of an answer that is complete. */
  ghost predicate EndsAs(o: Outcome, finish: Text, failed: bool) {
    var out := o.turn.out;
    if failed then |out| >= 2 && out[|out| - 2..] == [ErrorFrame, Done]
    else |out| >= 3 && out[|out| - 3..] == [Finish(ReasonFor(finish, Wire(out) != [])), Usage, Done]
  }

  lemma ReasonIs(t: Turn, finish: Text)
    requires if finish == [] then !t.finished || t.heldFinish in {[], T("stop")} else t.finished && t.heldFinish == finish
    ensures FinishReason(t) == ReasonFor(finish, t.saw)
  {
  }

  lemma SettledEnds(cfg: Config, env: Env, t: Turn, last: bool, sent: seq<Emission>, finish: Text)
    requires Ready(cfg, env, t, sent) && !t.gone
    requires if finish == [] then !t.finished || t.heldFinish in {[], T("stop")} else t.finished && t.heldFinish == finish
    ensures var o := Settled(cfg, t, last);
      !o.next ==> EndsAs(o, finish, Wire(o.turn.out) == [] && BlankTurn(t))
  {
    hide Wire, Shown, SettleTools, EmptyAnswer, EndText, Ready, BlankTurn, FinishReason, ReasonFor;
    var sent' := SettleToolsKeeps(cfg, env, t, sent);
    SettledWire(cfg, env, t, last, sent');
    EmptyExactly(cfg, env, t, sent);
    var t1 := SettleTools(cfg, t);
    if !EmptyAnswer(t1) {
      var t2 := EndText(cfg, t1);
      EndTextKeepsMarks(cfg, t1);
      ReasonIs(t2, finish);
    }
  }

  /**
   How an answered attempt ends for a client that stays, unless the next account has its turn: with
   an error exactly if it was cut, or shipped no tool and blank text only; and otherwise with the
   finish reason that upstream gave, or with one that says whether there were tools.
   */
  lemma EndsExactly(cfg: Config, env: Env, nextId: nat, a: Attempt<Delta>, last: bool)
    requires Answers(a) && Steady(a)
    ensures var o := Tried(cfg, NewTurn(env.asked, nextId, []), env.roleSent, a, last);
      !o.next ==> EndsAs(o, UpstreamFinish(a),
                         IsCut(a) || (Wire(o.turn.out) == [] && SaidBlank(cfg.mode, env.asked, a)))
  {
    hide OnLines, Live, Settled, OnJsonBody, OnRawBody, AtDone, Good, Ready, Wire, EndsAs, BlankTurn, Strip,
      Stands, ToldBy, LastFinish, EmptyTold;
    var t := if env.roleSent then NewTurn(env.asked, nextId, []) else Say(NewTurn(env.asked, nextId, []), Role);
    assert [] + [Role] == [Role];
    assert Opened(env, t);
    OpenedIsGood(cfg, env, t);
    match a
    case Sse(lines, raises) =>
      var t1 := OnLines(cfg, t, Live(lines));
      LiveSteady(lines);
      GoneOnLines(cfg, env, t, Live(lines), []);
      AtDoneSame(t1, lines);
      if raises && !SeesDone(lines) {
        FailsEnds(t1, UpstreamFinish(a));
      } else {
        var sent := OnLinesKeeps(cfg, env, t, Live(lines), []);
        GoodIsReady(cfg, env, t1, sent);
        OnLinesStand(cfg, env, t, Live(lines));
        LinesStart(cfg, t, Live(lines));
        SettledEnds(cfg, env, t1, last, sent, UpstreamFinish(a));
        BlankWhenTold(cfg, env, t1, last, sent, ToldBy(cfg.mode, env.asked, Live(lines)));
      }
    case RawBody(text) =>
      OnRawBodyKeeps(cfg, env, t, text);
      RawMarks(t, text);
      SettledEnds(cfg, env, OnRawBody(t, text), last, [], []);
    case JsonBody(_, _, _, finish) =>
      var sent := OnJsonBodyKeeps(cfg, env, t, a);
      BodyMarks(cfg, env, t, a);
      SettledEnds(cfg, env, OnJsonBody(cfg, t, a), last, sent, finish);
    case BrokenBody => FailsEnds(t, []);
  }

  lemma FailsEnds(t: Turn, finish: Text)
    ensures EndsAs(Fails(t), finish, true)
  {
  }

  /** While no tool wins, the turn is blank exactly if what was told is. */
  lemma BlankWhenTold(cfg: Config, env: Env, t: Turn, last: bool, sent: seq<Emission>, s: Told)
    requires Good(cfg, env, t, sent) && !t.gone && Stands(s, t)
    ensures Wire(Settled(cfg, t, last).turn.out) == [] ==> (BlankTurn(t) <==> EmptyTold(s))
  {
    hide Wire, Shown, SettleTools, Good, Ready, Strip, Settled;
    GoodIsReady(cfg, env, t, sent);
    var sent' := SettleToolsKeeps(cfg, env, t, sent);
    SettledWire(cfg, env, t, last, sent');
    if Wire(SettleTools(cfg, t).out) == [] {
      SettlesUnchanged(cfg, env, t, sent);
      FirstIn(t.held);
    }
  }

  lemma RawMarks(t: Turn, text: Text)
    requires t.held == [] && t.content == [] && t.reasoning == []
    ensures var r := OnRawBody(t, text);
      r.finished && r.heldFinish == T("stop") && (BlankTurn(r) <==> Strip(text) == [])
  {
    assert [] + text == text;
    assert Strip([]) == [];
  }

  lemma BodyMarks(cfg: Config, env: Env, t: Turn, b: Attempt<Delta>)
    requires b.JsonBody? && Opened(env, t)
    ensures var r := OnJsonBody(cfg, t, b);
      && r.finished && r.heldFinish == (if b.finish == [] then T("stop") else b.finish)
      && (BlankTurn(r) <==> Strip(b.content) == [] && Strip(b.reasoning) == [])
  {
    hide BodyTools, BodyProse, Serial, SayBody, Strip;
    var (t1, items) := BodyTools(cfg, t, b.calls);
    var t2 := t1.(saw := items != [], started := true,
                  content := t.content + b.content, reasoning := t.reasoning + b.reasoning);
    BodyProseFacts(cfg, t2, b.content, b.reasoning);
    var (t3, prose) := BodyProse(cfg, t2, b.content, b.reasoning);
    SerialKeepsText(cfg, t3, items, true);
    SayBodyKeepsText(cfg, Serial(cfg, t3, items, true), prose);
    BodyHolds(cfg, t, b);
    assert [] + b.content == b.content && [] + b.reasoning == b.reasoning;
  }

  lemma BodyHolds(cfg: Config, t: Turn, b: Attempt<Delta>)
    requires b.JsonBody? && t.held == [] && !t.thinkOpen && !t.saw && !t.pending && t.acc == map[]
    requires Shown(t.out) == []
    ensures OnJsonBody(cfg, t, b).held == []
  {
    hide Shown, OnJsonBody;
    JsonSays(cfg, t, b);
  }

  ghost predicate SameText(t: Turn, t': Turn) { t'.content == t.content && t'.reasoning == t.reasoning }

  lemma SayKeepsText(t: Turn, f: Frame, n: nat)
    ensures SameText(t, Say(t, f)) && SameText(t, Say(t, f).(emitted := n))
  {
  }

  lemma {:induction false} SerialKeepsText(cfg: Config, t: Turn, items: seq<Item>, first: bool)
    ensures SameText(t, Serial(cfg, t, items, first))
    decreases |items|
  {
    hide HasBudget, Say;
    if items != [] && HasBudget(cfg, t.emitted) {
      var t1 := if first then t else Say(t, Keepalive);
      SayKeepsText(t, Keepalive, 0);
      SayKeepsText(t1, Tool(items[0]), t1.emitted + 1);
      SerialKeepsText(cfg, Say(t1, Tool(items[0])).(emitted := t1.emitted + 1), items[1..], false);
    }
  }

  lemma SayBodyKeepsText(cfg: Config, t: Turn, prose: Held)
    ensures SameText(t, SayBody(cfg, t, prose))
  {
    hide Say, SayBody;
    SayKeepsText(t, Prose(prose.content, []), 0);
    SayKeepsText(t, Prose([], prose.reasoning), 0);
    SayKeepsText(Say(t, Prose(prose.content, [])), Prose([], prose.reasoning), 0);
    SayBodyCases(cfg, t, prose);
  }

  // ---------- a client that is gone ----------

  lemma GoneGetsNoChunk(cfg: Config, t: Turn, c: Line<Delta>)
    requires c.Chunk? && t.gone
    ensures OnChunk(cfg, t, c).out == t.out
  {
    hide DeltaAccumulated, Ingest, HasBudget, Rewrite, DrainReady, CloseTag, TakeCalls, TakeProse, TakeFinish;
    var t0 := t.(content := t.content + c.content, reasoning := t.reasoning + c.reasoning, started := true);
    var (t1, item) := TakeCalls(cfg, t0, c.calls);
    var (t2, prose) := TakeProse(cfg, t1, c.content, c.reasoning);
    CallsStart(cfg, t0, c.calls);
    CallsSayNothing(cfg, t0, c.calls);
    ProseStarts(cfg, t1, c.content, c.reasoning);
    ProseSaysNothing(cfg, t1, c.content, c.reasoning);
    FinishStarts(cfg, t2, c.finish);
    GoneGetsNoTag(cfg, t2, c.finish);
  }

  lemma CallsSayNothing(cfg: Config, t: Turn, calls: seq<Delta>)
    ensures TakeCalls(cfg, t, calls).0.out == t.out
  {
    hide DeltaAccumulated, Ingest, HasBudget;
  }

  lemma ProseSaysNothing(cfg: Config, t: Turn, content: Text, reasoning: Text)
    ensures TakeProse(cfg, t, content, reasoning).0.out == t.out
  {
    hide Rewrite;
  }

  lemma GoneGetsNoTag(cfg: Config, t: Turn, finish: Text)
    requires t.gone
    ensures TakeFinish(cfg, t, finish).out == t.out
  {
    hide CloseTag;
  }

  lemma {:induction false} GoneGetsNoLines(cfg: Config, t: Turn, lines: seq<LineEvent<Delta>>)
    requires t.gone
    ensures OnLines(cfg, t, lines).out == t.out && OnLines(cfg, t, lines).gone
  {
    hide OnChunk;
    if lines != [] {
      var h, l := lines[..|lines| - 1], lines[|lines| - 1];
      GoneGetsNoLines(cfg, t, h);
      var t1 := OnLines(cfg, t, h).(gone := true);
      if l.line.Chunk? {
        GoneGetsNoChunk(cfg, t1, l.line);
        ChunkStarts(cfg, t1, l.line);
      }
    }
  }

  /** Once the client is found gone, it gets nothing more, and no other account is tried. */
  lemma GoneGetsNothing(cfg: Config, t: Turn, lines: seq<LineEvent<Delta>>, last: bool)
    requires t.gone
    ensures var o := Settled(cfg, AtDone(OnLines(cfg, t, Live(lines)), lines), last);
      o.turn.out == t.out && !o.next
  {
    hide OnLines, Live, FlushHeld, Finalized, AnyEmitted, Keys.SortedKeys, EmptyAnswer, SayEnd;
    GoneGetsNoLines(cfg, t, Live(lines));
    GoneEnds(cfg, AtDone(OnLines(cfg, t, Live(lines)), lines), last);
  }

  lemma GoneEnds(cfg: Config, t: Turn, last: bool)
    requires t.gone
    ensures Settled(cfg, t, last).turn.out == t.out && !Settled(cfg, t, last).next
  {
    hide FlushHeld, Finalized, AnyEmitted, Keys.SortedKeys, EndText, Strip;
  }
}
