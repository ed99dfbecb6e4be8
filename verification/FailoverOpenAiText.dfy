/**
 Text on the OpenAI-side stream in every mode, with tools in the request or not: what a client gets
 of it, and exactly when a closing think tag follows the reasoning that it closes.
 */
module FailoverOpenAiText {
  import opened Texts
  import opened Upstream
  import opened ToolEmitter
  import opened FailoverOpenAi
  import opened FailoverOpenAiLaws
  import opened FailoverOpenAiDelivery
  import Keys

  // ---------- pieces of text ----------

  function Piece(content: Text, reasoning: Text): seq<Held> {
    if content != [] || reasoning != [] then [Held(content, reasoning)] else []
  }

  /** The closing tag as a piece of text. */
  function Closing(mode: Mode, open: bool): seq<Held> { Piece(CloseTag(mode, open), []) }

  /** Every frame of text is text. */
  lemma ShownPiece(out: seq<Frame>, content: Text, reasoning: Text)
    ensures Shown(out + [Prose(content, reasoning)]) == Shown(out) + Piece(content, reasoning)
  {
    OneMore(out, Prose(content, reasoning));
  }

  lemma SendSays(cfg: Config, t: Turn, prose: Held)
    requires !t.gone && t.started
    ensures var t' := SendChunk(cfg, t, prose, None);
      t' == t.(out := t'.out) && Shown(t'.out) == Shown(t.out) + Piece(prose.content, prose.reasoning)
  {
    hide Shown;
    ShownPiece(t.out, prose.content, prose.reasoning);
    assert Shown(t.out) + [] == Shown(t.out);
  }

  lemma RewriteNothing(mode: Mode, open: bool)
    ensures var r := Rewrite(mode, open, [], []); r.content == [] && r.reasoning == [] && r.open == open
  {
  }

  lemma {:induction false} SayHeldSays(t: Turn, held: seq<Held>)
    requires forall h :: h in held ==> h.content != [] || h.reasoning != []
    ensures var t' := SayHeld(t, held);
      t' == t.(out := t'.out, started := t'.started) && Shown(t'.out) == Shown(t.out) + held
  {
    hide Shown;
    if held == [] {
      assert Shown(t.out) + [] == Shown(t.out);
    } else {
      var h := held[|held| - 1];
      assert h in held;
      var t1 := SayHeld(t, held[..|held| - 1]);
      SayHeldSays(t, held[..|held| - 1]);
      ShownPiece(t1.out, h.content, h.reasoning);
      assert Shown(t.out) + held[..|held| - 1] + [h] == Shown(t.out) + held;
    }
  }

  lemma SwapEnds(a: seq<Held>, p: seq<Held>, q: seq<Held>)
    requires |p| <= 1 && |q| <= 1
    ensures a + q + p == a + p + q <==> p == [] || q == [] || p == q
  {
    var x, y := a + q + p, a + p + q;
    if x == y && p != [] && q != [] {
      assert x[|a|] == q[0] && y[|a|] == p[0];
    }
  }

  /** A turn that sends no tool settles as it is. */
  lemma SettlesUnchanged(cfg: Config, env: Env, t: Turn, sent: seq<Emission>)
    requires Good(cfg, env, t, sent) && !t.gone && Wire(SettleTools(cfg, t).out) == []
    ensures SettleTools(cfg, t) == t && !t.saw
  {
    hide Valid, Wire, Shown, ItemsOf, FlushHeld, Finalized, Keys.SortedKeys, Speaking, AnyEmitted, HasBudget;
    var t1 := if t.acc != map[] then FlushHeld(cfg, t) else t;
    var sent' := sent;
    if t.acc != map[] {
      assert t.started by { AccMeansStarted(env, t); }
      sent' := FlushHeldKeeps(cfg, env, t, sent);
    }
    if AnyEmitted(t1.acc) { TakesTools(cfg, env, t1, sent'); }
    assert !t1.saw;
  }

  // ---------- what the lines of a stream say ----------

  /**
   What a stream has made of its text, as long as no tool wins: the pieces sent, the same pieces in
   the order in which they should stand, those held, and the text as upstream gave it.
   */
  datatype Told = Told(
    sent: seq<Held>, want: seq<Held>, held: seq<Held>, open: bool, asked: bool, content: Text, reasoning: Text)

  /** A finish reason closes an open think tag, unless text is held that it would overtake. */
  function ToldMore(mode: Mode, s: Told, c: Line<Delta>): Told
    requires c.Chunk?
  {
    var r := Rewrite(mode, s.open, c.content, c.reasoning);
    var piece, asked := Piece(r.content, r.reasoning), s.asked || c.calls != [];
    var held := if asked then s.held + piece else s.held;
    var tag := if c.finish == [] || (asked && held != []) then [] else Closing(mode, r.open);
    var now := if asked then [] else piece;
    Told(s.sent + tag + now, s.want + now + tag, held, tag == [] && r.open, asked,
         s.content + c.content, s.reasoning + c.reasoning)
  }

  function ToldBy(mode: Mode, asked: bool, lines: seq<LineEvent<Delta>>): Told {
    if lines == [] then Told([], [], [], false, asked, [], [])
    else
      var s, l := ToldBy(mode, asked, lines[..|lines| - 1]), lines[|lines| - 1].line;
      if l.Chunk? then ToldMore(mode, s, l) else s
  }

  /** Nothing is held and the text is blank: the answer counts as empty, and ends in an error. */
  predicate EmptyTold(s: Told) { s.held == [] && Strip(s.content) == [] && Strip(s.reasoning) == [] }

  /** What the stream sends when it has ended: held text and the last closing tag, but after an empty answer nothing. */
  function Rest(mode: Mode, s: Told): seq<Held> {
    s.held + (if EmptyTold(s) then [] else Closing(mode, s.open))
  }

  /** The text as it should stand: every piece in order, and every tag that is opened closed. */
  function Wanted(mode: Mode, asked: bool, lines: seq<LineEvent<Delta>>): seq<Held> {
    var s := ToldBy(mode, asked, lines);
    s.want + (s.held + Closing(mode, s.open))
  }

  /** The answer is empty and has left a think tag open. */
  predicate LeftOpen(mode: Mode, asked: bool, lines: seq<LineEvent<Delta>>) {
    var s := ToldBy(mode, asked, lines);
    EmptyTold(s) && Closing(mode, s.open) != []
  }

  /**
   A chunk that does not put a closing tag ahead of the reasoning it closes: one without a finish
   reason, with tools asked for, with content, without reasoning, or in a mode without tags.
   */
  predicate Orderly(mode: Mode, s: Told, c: Line<Delta>)
    requires c.Chunk?
  {
    || c.finish == [] || s.asked || c.calls != [] || mode != ThinkTag || c.content != [] || c.reasoning == []
    || Rewrite(mode, s.open, c.content, c.reasoning).content == THINK_CLOSE
  }

  predicate AllOrderly(mode: Mode, asked: bool, lines: seq<LineEvent<Delta>>) {
    lines == [] ||
    (var l := lines[|lines| - 1].line;
     && AllOrderly(mode, asked, lines[..|lines| - 1])
     && (l.Chunk? ==> Orderly(mode, ToldBy(mode, asked, lines[..|lines| - 1]), l)))
  }

  // ---------- order ----------

  lemma ToldMoreOrder(mode: Mode, s: Told, c: Line<Delta>)
    requires c.Chunk? && |s.sent| == |s.want|
    ensures var s' := ToldMore(mode, s, c);
      && |s'.sent| == |s'.want|
      && (s'.sent == s'.want <==> s.sent == s.want && Orderly(mode, s, c))
  {
    hide Rewrite, Closing, Piece;
    var r := Rewrite(mode, s.open, c.content, c.reasoning);
    var piece, asked := Piece(r.content, r.reasoning), s.asked || c.calls != [];
    var held := if asked then s.held + piece else s.held;
    var tag := if c.finish == [] || (asked && held != []) then [] else Closing(mode, r.open);
    var now := if asked then [] else piece;
    SameHead(s.sent, s.want, tag + now, now + tag);
    assert s.sent + tag + now == s.sent + (tag + now) && s.want + now + tag == s.want + (now + tag);
    SwapTwo(tag, now);
    OrderlyWhen(mode, s.open, c.content, c.reasoning);
  }

  lemma SwapTwo(p: seq<Held>, q: seq<Held>)
    ensures |p| <= 1 && |q| <= 1 ==> (p + q == q + p <==> p == [] || q == [] || p == q)
  {
    if |p| <= 1 && |q| <= 1 {
      SwapEnds([], p, q);
      assert [] + p + q == p + q && [] + q + p == q + p;
    }
  }

  /** A piece with reasoning and no content in think-tag mode leaves a tag open behind it; no other does both. */
  lemma OrderlyWhen(mode: Mode, open: bool, content: Text, reasoning: Text)
    ensures var r := Rewrite(mode, open, content, reasoning);
      var p, q := Closing(mode, r.open), Piece(r.content, r.reasoning);
      && |p| <= 1 && |q| <= 1
      && (p == [] || q == [] || p == q <==>
            mode != ThinkTag || content != [] || reasoning == [] || r.content == THINK_CLOSE)
  {
  }

  lemma SameHead(a: seq<Held>, b: seq<Held>, x: seq<Held>, y: seq<Held>)
    requires |a| == |b| && |x| == |y|
    ensures a + x == b + y <==> a == b && x == y
  {
    var s, t := a + x, b + y;
    if s == t {
      assert a == s[..|a|] == t[..|b|] == b;
      assert x == s[|a|..] == t[|b|..] == y;
    }
  }

  /** The pieces sent are in order exactly when every chunk is orderly. */
  lemma {:induction false} SentInOrder(mode: Mode, asked: bool, lines: seq<LineEvent<Delta>>)
    ensures var s := ToldBy(mode, asked, lines);
      |s.sent| == |s.want| && (s.sent == s.want <==> AllOrderly(mode, asked, lines))
  {
    hide ToldMore, Orderly;
    if lines != [] {
      var h, l := lines[..|lines| - 1], lines[|lines| - 1].line;
      SentInOrder(mode, asked, h);
      if l.Chunk? { ToldMoreOrder(mode, ToldBy(mode, asked, h), l); }
    }
  }

  // ---------- the stream ----------

  /** A turn in which no tool has won stands as the lines say. */
  ghost predicate Stands(s: Told, t: Turn) {
    !t.saw ==>
      && t.content == s.content && t.reasoning == s.reasoning
      && Shown(t.out) == s.sent && t.held == s.held && t.thinkOpen == s.open && t.toolsRequested == s.asked
      && (t.held != [] ==> t.toolsRequested)
      && (forall h :: h in t.held ==> h.content != [] || h.reasoning != [])
  }

  lemma TakeCallsStands(cfg: Config, t: Turn, calls: seq<Delta>)
    ensures var (t', item) := TakeCalls(cfg, t, calls);
      !t'.saw ==>
        && item.None? && !t.saw && t'.out == t.out && t'.held == t.held && t'.thinkOpen == t.thinkOpen
        && t'.toolsRequested == (t.toolsRequested || calls != [])
        && t'.content == t.content && t'.reasoning == t.reasoning
  {
    hide DeltaAccumulated, Ingest, HasBudget;
  }

  /** The text of a chunk whose tools have not won. */
  lemma TextStands(cfg: Config, t: Turn, c: Line<Delta>, s: Told)
    requires c.Chunk? && !t.saw && !t.gone && t.started
    requires Shown(t.out) == s.sent && t.held == s.held && t.thinkOpen == s.open
      && t.toolsRequested == (s.asked || c.calls != [])
    requires t.held != [] ==> s.asked
    requires forall h :: h in t.held ==> h.content != [] || h.reasoning != []
    ensures var (t1, prose) := TakeProse(cfg, t, c.content, c.reasoning);
      var t2 := SendChunk(cfg, TakeFinish(cfg, t1, c.finish), prose, None);
      var s' := ToldMore(cfg.mode, s, c);
      && t2 == t.(held := t2.held, thinkOpen := t2.thinkOpen, finished := t2.finished, heldFinish :=
        t2.heldFinish, out := t2.out)
      && Shown(t2.out) == s'.sent && t2.held == s'.held && t2.thinkOpen == s'.open
      && (forall h :: h in t2.held ==> h.content != [] || h.reasoning != [])
  {
    hide Shown, Rewrite, CloseTag, TakeFinish, TakeProse, SendChunk;
    var r := Rewrite(cfg.mode, t.thinkOpen, c.content, c.reasoning);
    var (t1, prose) := TakeProse(cfg, t, c.content, c.reasoning);
    ProseStands(cfg, t, c.content, c.reasoning);
    var tag := if c.finish == [] || (t.toolsRequested && t1.held != []) then [] else Closing(cfg.mode, r.open);
    FinishStands(cfg, t1, c.finish, tag);
    var t3 := TakeFinish(cfg, t1, c.finish);
    SendSays(cfg, t3, prose);
  }

  lemma ProseStands(cfg: Config, t: Turn, content: Text, reasoning: Text)
    requires !t.saw
    ensures var (t', prose) := TakeProse(cfg, t, content, reasoning);
      var r := Rewrite(cfg.mode, t.thinkOpen, content, reasoning);
      var piece := Piece(r.content, r.reasoning);
      && t' == t.(thinkOpen := r.open, held := if t.toolsRequested then t.held + piece else t.held)
      && Piece(prose.content, prose.reasoning) == if t.toolsRequested then [] else piece
  {
    hide Rewrite;
    assert t.held + [] == t.held;
  }

  lemma FinishStands(cfg: Config, t: Turn, finish: Text, tag: seq<Held>)
    requires !t.saw && !t.gone
    requires tag == if finish == [] || (t.toolsRequested && t.held != []) then [] else Closing(cfg.mode, t.thinkOpen)
    ensures var t' := TakeFinish(cfg, t, finish);
      && t' == t.(finished := t'.finished, heldFinish := t'.heldFinish,
                  thinkOpen := tag == [] && t.thinkOpen, out := t'.out)
      && Shown(t'.out) == Shown(t.out) + tag
  {
    hide Shown, CloseTag;
    CloseTagFacts(cfg.mode, t.thinkOpen);
    ShownPiece(t.out, CloseTag(cfg.mode, t.thinkOpen), []);
    assert Shown(t.out) + [] == Shown(t.out);
  }

  lemma OnChunkStands(cfg: Config, env: Env, t: Turn, c: Line<Delta>, sent: seq<Emission>, s: Told)
    requires c.Chunk? && Good(cfg, env, t, sent) && Stands(s, t) && !t.gone
    ensures Stands(ToldMore(cfg.mode, s, c), OnChunk(cfg, t, c))
  {
    hide Sending, Speaking, HasBudget, Rewrite, TakeCalls, TakeProse, TakeFinish, SendChunk, Shown, Good,
      CloseTag, ToldMore;
    if c.content == [] && c.reasoning == [] && c.calls == [] && c.finish == [] {
      NothingTold(cfg.mode, s, c);
    } else {
      var t0 := t.(content := t.content + c.content, reasoning := t.reasoning + c.reasoning, started := true);
      Leaves(cfg, env, t, t0, sent);
      var sent' := TakeCallsKeeps(cfg, env, t0, c.calls, sent);
      var (t1, item) := TakeCalls(cfg, t0, c.calls);
      TakeCallsStands(cfg, t0, c.calls);
      TakeProseKeeps(cfg, env, t1, c.content, c.reasoning, sent', Pend(item));
      var (t2, prose) := TakeProse(cfg, t1, c.content, c.reasoning);
      TakeFinishKeeps(cfg, env, t2, c.finish, sent', Pend(item));
      var t3 := TakeFinish(cfg, t2, c.finish);
      sent' := SendChunkKeeps(cfg, env, t3, prose, item, sent');
      ToldMoreRest(cfg.mode, s, c);
      if !t1.saw { TextStands(cfg, t1, c, s); }
    }
  }

  lemma ToldMoreRest(mode: Mode, s: Told, c: Line<Delta>)
    requires c.Chunk?
    ensures var s' := ToldMore(mode, s, c);
      && s'.asked == (s.asked || c.calls != []) && s'.content == s.content + c.content
      && s'.reasoning == s.reasoning + c.reasoning && (s'.asked || s'.held == s.held)
  {
    hide Rewrite, Closing;
  }

  lemma NothingTold(mode: Mode, s: Told, c: Line<Delta>)
    requires c.Chunk? && c.content == [] && c.reasoning == [] && c.calls == [] && c.finish == []
    ensures ToldMore(mode, s, c) == s
  {
    hide Rewrite;
    RewriteNothing(mode, s.open);
    assert s.sent + [] + [] == s.sent && s.want + [] + [] == s.want && s.held + [] == s.held;
    assert s.content + [] == s.content && s.reasoning + [] == s.reasoning;
  }

  lemma KeepaliveStands(t: Turn, s: Told)
    requires Stands(s, t)
    ensures Stands(s, Say(t, Keepalive))
  {
    hide Shown, IsProse;
    NotProse(Keepalive);
    OneMore(t.out, Keepalive);
    assert Shown(t.out) + [] == Shown(t.out);
  }

  lemma {:induction false} OnLinesStand(cfg: Config, env: Env, t: Turn, lines: seq<LineEvent<Delta>>)
    requires Opened(env, t) && forall i :: 0 <= i < |lines| ==> !lines[i].gone
    ensures Stands(ToldBy(cfg.mode, env.asked, lines), OnLines(cfg, t, lines))
  {
    hide Good, OnChunk, Opened, Stands, ToldMore;
    OpenedIsGood(cfg, env, t);
    if lines == [] {
      NothingStands(cfg, env, t);
    } else {
      var h, l := lines[..|lines| - 1], lines[|lines| - 1];
      var t1 := OnLines(cfg, t, h);
      OnLinesStand(cfg, env, t, h);
      var sent := OnLinesKeeps(cfg, env, t, h, []);
      assert !t.gone by { NothingStands(cfg, env, t); }
      GoneOnLines(cfg, env, t, h, []);
      assert t1.(gone := t1.gone || l.gone) == t1;
      if l.line.Chunk? { OnChunkStands(cfg, env, t1, l.line, sent, ToldBy(cfg.mode, env.asked, h)); }
      else if l.line.Idle? { KeepaliveStands(t1, ToldBy(cfg.mode, env.asked, h)); }
    }
  }

  lemma NothingStands(cfg: Config, env: Env, t: Turn)
    requires Opened(env, t)
    ensures Stands(ToldBy(cfg.mode, env.asked, []), t) && !t.gone
  {
    OpenedIsGood(cfg, env, t);
  }

  // ---------- the end ----------

  /** A settled turn without tools has no slot that would be finalised. */
  lemma NothingFinal(cfg: Config, env: Env, t: Turn, sent: seq<Emission>)
    requires Good(cfg, env, t, sent) && !t.gone && SettleTools(cfg, t) == t && !t.saw && Wire(t.out) == []
    ensures Finalized(t.acc, Keys.SortedKeys(t.acc.Keys)) == []
  {
    hide Valid, Wire, Shown, ItemsOf, FlushHeld, Finalized, Keys.SortedKeys, AnyEmitted, NameOf, Speaking;
    var keys := Keys.SortedKeys(t.acc.Keys);
    var finals := Finalized(t.acc, keys);
    FinalizedSlots(t.acc, keys);
    if t.acc != map[] {
      FlushHeldEnds(cfg, t);
      assert t.started by { AccMeansStarted(env, t); }
      var s := FlushHeldKeeps(cfg, env, t, sent);
      assert FlushHeld(cfg, t) == t;
    }
    forall f | f in finals ensures AnyEmitted(t.acc) {
      EmittedIsAny(t.acc, f.slot);
    }
    FirstIn(finals);
    if AnyEmitted(t.acc) { TakesTools(cfg, env, t, sent); }
  }

  lemma EmittedIsAny(acc: Acc, k: int)
    requires k in acc && NameOf(acc[k]) != [] && AllSent(acc)
    ensures AnyEmitted(acc)
  {
  }

  lemma SettledStands(cfg: Config, env: Env, t: Turn, last: bool, sent: seq<Emission>, s: Told)
    requires Good(cfg, env, t, sent) && !t.gone && Stands(s, t)
    ensures var out := Settled(cfg, t, last).turn.out;
      Wire(out) == [] ==> Shown(out) == s.sent + Rest(cfg.mode, s)
  {
    hide Wire, Shown, SettleTools, EmptyAnswer, EndText, Good, Closing, Stands, Ready, Rest;
    var out := Settled(cfg, t, last).turn.out;
    GoodIsReady(cfg, env, t, sent);
    var sent' := SettleToolsKeeps(cfg, env, t, sent);
    SettledWire(cfg, env, t, last, sent');
    if Wire(out) == [] {
      SettlesUnchanged(cfg, env, t, sent);
      NothingFinal(cfg, env, t, sent);
      EmptyWhen(t, s);
      if EmptyAnswer(t) {
        var rest := if !t.started && !last then [] else [ErrorFrame, Done];
        EndingIsSilent(rest);
        WireConcat(t.out, rest);
        assert t.out + [] == t.out;
        assert Shown(t.out) + [] == Shown(t.out);
        RestOfEmpty(cfg.mode, s);
      } else {
        var t2 := EndText(cfg, t);
        var rest := [Finish(FinishReason(t2)), Usage, Done];
        EndingIsSilent(rest);
        WireConcat(t2.out, rest);
        EndTextStands(cfg, t, s);
        assert Shown(t2.out) + [] == Shown(t2.out);
      }
    }
  }

  lemma EmptyWhen(t: Turn, s: Told)
    requires Stands(s, t) && !t.saw && !t.gone && Finalized(t.acc, Keys.SortedKeys(t.acc.Keys)) == []
    ensures EmptyAnswer(t) <==> EmptyTold(s)
    ensures Shown(t.out) == s.sent
  {
    hide Shown, Strip, Finalized, Keys.SortedKeys;
    FirstIn(t.held);
  }

  lemma RestOfEmpty(mode: Mode, s: Told)
    requires EmptyTold(s)
    ensures s.sent + Rest(mode, s) == s.sent
  {
  }

  lemma EndTextStands(cfg: Config, t: Turn, s: Told)
    requires Stands(s, t) && !t.saw && !EmptyTold(s)
    ensures Shown(EndText(cfg, t).out) == s.sent + Rest(cfg.mode, s)
  {
    hide Shown, SayHeld, CloseTag, Strip;
    SayHeldSays(t, t.held);
    var t1 := Release(t);
    ShownPiece(t1.out, CloseTag(cfg.mode, t1.thinkOpen), []);
    assert s.sent + s.held + [] == s.sent + s.held;
    assert s.sent + s.held + Closing(cfg.mode, s.open) == s.sent + (s.held + Closing(cfg.mode, s.open));
  }

  /**
   The text of a whole stream, in every mode and with tools asked for or not: when it is drained with
   the client connected and ships no tool, the client gets every piece, held or not.  It gets the text
   as it should stand, with every think tag closed after what it holds, exactly when every chunk is
   orderly and no empty answer leaves a tag open.
   */
  lemma TextIsInOrderExactly(cfg: Config, env: Env, nextId: nat, lines: seq<LineEvent<Delta>>, raises: bool, last: bool)
    requires Steady(Sse(lines, raises)) && (raises ==> SeesDone(lines))
    ensures var out := Tried(cfg, NewTurn(env.asked, nextId, []), env.roleSent, Sse(lines, raises), last).turn.out;
      var s := ToldBy(cfg.mode, env.asked, Live(lines));
      Wire(out) == [] ==>
        && Shown(out) == s.sent + Rest(cfg.mode, s)
        && (Shown(out) == Wanted(cfg.mode, env.asked, Live(lines)) <==>
              AllOrderly(cfg.mode, env.asked, Live(lines)) && !LeftOpen(cfg.mode, env.asked, Live(lines)))
  {
    hide Good, OnLines, Live, AtDone, Settled, ToldBy, Stands, Rest, Wire, Shown, AllOrderly, LeftOpen, Wanted;
    var t := if env.roleSent then NewTurn(env.asked, nextId, []) else Say(NewTurn(env.asked, nextId, []), Role);
    assert [] + [Role] == [Role];
    assert Opened(env, t);
    OpenedIsGood(cfg, env, t);
    LiveSteady(lines);
    OnLinesStand(cfg, env, t, Live(lines));
    var sent := OnLinesKeeps(cfg, env, t, Live(lines), []);
    GoneOnLines(cfg, env, t, Live(lines), []);
    var t0 := OnLines(cfg, t, Live(lines));
    assert AtDone(t0, lines) == t0 by { AtDoneSame(t0, lines); }
    SettledStands(cfg, env, t0, last, sent, ToldBy(cfg.mode, env.asked, Live(lines)));
    AsWantedExactly(cfg.mode, env.asked, Live(lines));
  }

  lemma AsWantedExactly(mode: Mode, asked: bool, lines: seq<LineEvent<Delta>>)
    ensures var s := ToldBy(mode, asked, lines);
      s.sent + Rest(mode, s) == Wanted(mode, asked, lines) <==>
        AllOrderly(mode, asked, lines) && !LeftOpen(mode, asked, lines)
  {
    hide ToldBy, AllOrderly, Closing, Strip;
    var s := ToldBy(mode, asked, lines);
    SentInOrder(mode, asked, lines);
    if LeftOpen(mode, asked, lines) {
      assert |s.sent + Rest(mode, s)| < |Wanted(mode, asked, lines)|;
    } else {
      assert Rest(mode, s) == s.held + Closing(mode, s.open);
      SameHead(s.sent, s.want, Rest(mode, s), Rest(mode, s));
    }
  }

  const BLANK: Line<Delta> := Chunk([], [0x20], [], [])

  lemma BlankChunk(cfg: Config, t: Turn)
    requires cfg.mode == ThinkTag && !t.toolsRequested && !t.gone && !t.thinkOpen
    ensures OnChunk(cfg, t, BLANK) ==
      t.(content := t.content + [], reasoning := t.reasoning + [0x20], started := true, thinkOpen := true,
         out := t.out + [Prose(THINK_OPEN + [0x20], [])])
  {
    assert [] + THINK_OPEN + [0x20] == THINK_OPEN + [0x20];
  }

  /** A blank answer without tools fails on the last account, whatever it has sent. */
  lemma BlankFails(cfg: Config, t: Turn)
    requires t.acc == map[] && !t.gone && !t.saw && t.held == [] && t.content == [] && t.reasoning == [0x20]
    ensures Settled(cfg, t, true) == Fails(t)
  {
    hide SayEnd, Fails;
    assert Strip([]) == [];
    assert LStrip([0x20]) == LStrip([]) == [];
    assert Keys.SortedKeys(t.acc.Keys) == [];
  }

  /** Blank reasoning alone, in think-tag mode without tools: the tag is opened, and the error ends the stream. */
  lemma BlankReasoningLeavesTagOpen(cfg: Config, nextId: nat)
    requires cfg.mode == ThinkTag
    ensures var lines := [LineEvent(false, BLANK)];
      && Tried(cfg, NewTurn(false, nextId, []), false, Sse(lines, false), true).turn.out
         == [Role, Prose(THINK_OPEN + [0x20], []), ErrorFrame, Done]
      && AllOrderly(cfg.mode, false, Live(lines)) && LeftOpen(cfg.mode, false, Live(lines))
  {
    hide OnChunk, Settled, Strip, ToldMore, Rewrite, Closing;
    var lines := [LineEvent(false, BLANK)];
    assert lines[1..] == [] && lines[..0] == [];
    assert Live(lines) == lines;
    var t := Say(NewTurn(false, nextId, []), Role);
    BlankChunk(cfg, t);
    var t1 := OnChunk(cfg, t, BLANK);
    assert t.(gone := t.gone || false) == t;
    assert OnLines(cfg, t, lines) == t1;
    BlankFails(cfg, t1);
    assert ToldBy(cfg.mode, false, lines) == ToldMore(cfg.mode, ToldBy(cfg.mode, false, []), BLANK);
    BlankTold(cfg.mode);
  }

  lemma BlankTold(mode: Mode)
    requires mode == ThinkTag
    ensures var s := ToldMore(mode, Told([], [], [], false, false, [], []), BLANK);
      EmptyTold(s) && Closing(mode, s.open) != []
  {
    var blank: Text := [0x20];
    assert [] + blank == blank && blank[1..] == [];
    assert Strip([]) == [];
    assert LStrip(blank) == LStrip([]) == [];
    assert Strip(blank) == [];
  }

  // ---------- without think tags, or with tools asked for ----------

  /** The text of some lines after `rewrite`, piece by piece, and whether a think tag is open. */
  datatype Said = Said(pieces: seq<Held>, open: bool)

  function SaidBy(mode: Mode, lines: seq<LineEvent<Delta>>): Said {
    if lines == [] then Said([], false)
    else
      var s := SaidBy(mode, lines[..|lines| - 1]);
      match lines[|lines| - 1].line
      case Chunk(c, g, _, _) =>
        var r := Rewrite(mode, s.open, c, g);
        Said(s.pieces + Piece(r.content, r.reasoning), r.open)
      case _ => s
  }

  /** With tools asked for, or without tags, pieces are never out of order and no tag is left open. */
  lemma {:induction false} SaidIsTold(mode: Mode, asked: bool, lines: seq<LineEvent<Delta>>)
    requires mode != ThinkTag || asked
    ensures var s, d := ToldBy(mode, asked, lines), SaidBy(mode, lines);
      && s.want + s.held == d.pieces && s.open == d.open
      && AllOrderly(mode, asked, lines) && !LeftOpen(mode, asked, lines)
      && (asked ==> s.asked && (s.open ==> s.held != [])) && (s.held != [] ==> s.asked)
  {
    hide Rewrite, Strip, CloseTag;
    if lines != [] {
      var h, l := lines[..|lines| - 1], lines[|lines| - 1].line;
      SaidIsTold(mode, asked, h);
      if l.Chunk? { MoreSaid(mode, asked, ToldBy(mode, asked, h), SaidBy(mode, h), l); }
    }
    CloseTagFacts(mode, ToldBy(mode, asked, lines).open);
  }

  lemma MoreSaid(mode: Mode, asked: bool, s: Told, d: Said, c: Line<Delta>)
    requires c.Chunk? && (mode != ThinkTag || asked) && s.want + s.held == d.pieces && s.open == d.open
    requires (asked ==> s.asked && (s.open ==> s.held != [])) && (s.held != [] ==> s.asked)
    ensures var s', r := ToldMore(mode, s, c), Rewrite(mode, d.open, c.content, c.reasoning);
      && s'.want + s'.held == d.pieces + Piece(r.content, r.reasoning) && s'.open == r.open
      && (asked ==> s'.asked && (s'.open ==> s'.held != [])) && (s'.held != [] ==> s'.asked)
  {
    hide Rewrite, CloseTag;
    var r := Rewrite(mode, s.open, c.content, c.reasoning);
    RewriteFacts(mode, s.open, c.content, c.reasoning);
    CloseTagFacts(mode, r.open);
    var piece := Piece(r.content, r.reasoning);
    assert s.want + [] + [] == s.want && s.want + piece + [] == s.want + piece;
    assert s.want + (s.held + piece) == s.want + s.held + piece;
    assert s.held == [] ==> s.want + s.held == s.want;
  }

  /**
   In particular, with tools asked for or in a mode without think tags, the client gets everything
   that was said, in order and in full, and an open think tag is closed.
   */
  lemma TextIsDelivered(cfg: Config, env: Env, nextId: nat, lines: seq<LineEvent<Delta>>, raises: bool, last: bool)
    requires Steady(Sse(lines, raises)) && (raises ==> SeesDone(lines))
    requires cfg.mode != ThinkTag || env.asked
    ensures var out := Tried(cfg, NewTurn(env.asked, nextId, []), env.roleSent, Sse(lines, raises), last).turn.out;
      var s := SaidBy(cfg.mode, Live(lines));
      Wire(out) == [] ==> Shown(out) == s.pieces + Closing(cfg.mode, s.open)
  {
    hide Tried, Live, ToldBy, SaidBy, AllOrderly, LeftOpen, Wire, Shown, Closing, Rest;
    TextIsInOrderExactly(cfg, env, nextId, lines, raises, last);
    SaidIsTold(cfg.mode, env.asked, Live(lines));
    var s := ToldBy(cfg.mode, env.asked, Live(lines));
    assert s.want + s.held + Closing(cfg.mode, s.open) == s.want + (s.held + Closing(cfg.mode, s.open));
  }

  // ---------- bodies ----------

  /** The text of a JSON body as it should go out. */
  function BodyText(mode: Mode, content: Text, reasoning: Text): seq<Held> {
    var r := Rewrite(mode, false, content, reasoning);
    Piece(r.content + CloseTag(mode, r.open), []) + Piece([], r.reasoning)
  }

  /** Only frames without text have been sent. */
  ghost predicate Silent(t: Turn, t': Turn) {
    t' == t.(out := t'.out, emitted := t'.emitted) && Shown(t'.out) == Shown(t.out)
  }

  lemma SilentThen(a: Turn, b: Turn, c: Turn)
    requires Silent(a, b) && Silent(b, c)
    ensures Silent(a, c)
  {
    hide Shown;
  }

  lemma SilentFrame(t: Turn, f: Frame, n: nat)
    requires !f.Prose?
    ensures Silent(t, Say(t, f)) && Silent(t, Say(t, f).(emitted := n)) && Silent(t, t)
  {
    hide Shown, IsProse;
    NotProse(f);
    OneMore(t.out, f);
    assert Shown(t.out) + [] == Shown(t.out);
  }

  lemma {:induction false} SerialSilent(cfg: Config, t: Turn, items: seq<Item>, first: bool)
    ensures Silent(t, Serial(cfg, t, items, first))
    decreases |items|
  {
    hide Silent, Say, HasBudget;
    SilentFrame(t, Keepalive, 0);
    if items != [] && HasBudget(cfg, t.emitted) {
      var t1 := if first then t else Say(t, Keepalive);
      var t2 := Say(t1, Tool(items[0])).(emitted := t1.emitted + 1);
      SilentFrame(t1, Tool(items[0]), t1.emitted + 1);
      SilentThen(t, t1, t2);
      SerialSilent(cfg, t2, items[1..], false);
      SilentThen(t, t2, Serial(cfg, t2, items[1..], false));
    }
  }

  /** A turn that holds nothing and has no open tag says nothing more. */
  lemma SettledSilent(cfg: Config, env: Env, t: Turn, last: bool, sent: seq<Emission>)
    requires Ready(cfg, env, t, sent) && t.held == [] && !t.thinkOpen
    ensures Shown(Settled(cfg, t, last).turn.out) == Shown(t.out)
  {
    hide Wire, Shown, EmptyAnswer, Ready, FlushHeld, Finalized, AnyEmitted, Keys.SortedKeys, SayHeld;
    FlushHeldSays(cfg, t);
    FlushHeldClears(cfg, t);
    var t1 := SettleTools(cfg, t);
    assert Shown(t1.out) == Shown(t.out) && t1.held == [] && !t1.thinkOpen;
    assert Shown(t1.out) + [] == Shown(t1.out);
    if EmptyAnswer(t1) {
      var rest := if !t1.started && !last then [] else [ErrorFrame, Done];
      EndingIsSilent(rest);
      WireConcat(t1.out, rest);
      assert t1.out + [] == t1.out;
    } else if !t1.gone {
      EndTextSilent(cfg, t1);
      var t2 := EndText(cfg, t1);
      var rest := [Finish(FinishReason(t2)), Usage, Done];
      EndingIsSilent(rest);
      WireConcat(t2.out, rest);
    }
  }

  lemma EndTextSilent(cfg: Config, t: Turn)
    requires t.held == [] && !t.thinkOpen
    ensures EndText(cfg, t).out == t.out
  {
    CloseTagFacts(cfg.mode, false);
    assert SayHeld(t, []) == t;
  }

  lemma {:induction false} FlushHeldClears(cfg: Config, t: Turn)
    requires t.held == [] && !t.thinkOpen
    ensures FlushHeld(cfg, t).held == [] && !FlushHeld(cfg, t).thinkOpen
    decreases Waiting(t.acc)
  {
    hide FlushedOne, Waiting, DeltaAccumulated, HasBudget;
    if HasBudget(cfg, t.emitted) {
      var e := FlushedOne(t.acc, cfg.ids(t.nextId));
      if e.item.Some? {
        EmissionShrinks(t.acc, cfg.ids(t.nextId));
        FlushHeldClears(cfg, SayTool(t, e).(saw := true, held := [], thinkOpen := false));
      }
    }
  }

  /** The text of a body that is no stream goes out in full exactly when it carries no tool calls. */
  lemma BodyTextExactly(cfg: Config, env: Env, nextId: nat, a: Attempt<Delta>, last: bool)
    requires a.JsonBody? || a.RawBody?
    ensures var out := Tried(cfg, NewTurn(env.asked, nextId, []), env.roleSent, a, last).turn.out;
      match a
      case RawBody(text) => Shown(out) == Piece(text, [])
      case JsonBody(content, reasoning, calls, _) =>
        Shown(out) == if calls == [] then BodyText(cfg.mode, content, reasoning) else []
      case _ => true
  {
    hide Settled, OnJsonBody, OnRawBody, Good, Ready, Wire, Shown;
    var t := if env.roleSent then NewTurn(env.asked, nextId, []) else Say(NewTurn(env.asked, nextId, []), Role);
    assert [] + [Role] == [Role];
    assert Opened(env, t);
    OpenedIsGood(cfg, env, t);
    match a
    case RawBody(text) =>
      OnRawBodyKeeps(cfg, env, t, text);
      RawSays(t, text);
      SettledSilent(cfg, env, OnRawBody(t, text), last, []);
    case JsonBody(_, _, _, _) =>
      var sent := OnJsonBodyKeeps(cfg, env, t, a);
      JsonSays(cfg, t, a);
      SettledSilent(cfg, env, OnJsonBody(cfg, t, a), last, sent);
  }

  lemma RawSays(t: Turn, text: Text)
    requires Shown(t.out) == [] && t.held == [] && !t.thinkOpen
    ensures var r := OnRawBody(t, text); Shown(r.out) == Piece(text, []) && r.held == [] && !r.thinkOpen
  {
    hide Shown;
    ShownPiece(t.out, text, []);
    assert [] + Piece(text, []) == Piece(text, []);
  }

  lemma JsonSays(cfg: Config, t: Turn, b: Attempt<Delta>)
    requires b.JsonBody? && Shown(t.out) == [] && t.held == [] && !t.thinkOpen && !t.saw && !t.pending && t.acc == map[]
    ensures var r := OnJsonBody(cfg, t, b);
      && r.held == [] && !r.thinkOpen
      && Shown(r.out) == if b.calls == [] then BodyText(cfg.mode, b.content, b.reasoning) else []
  {
    hide Shown, Serial, FlushList, DeltaAccumulated, Rewrite, CloseTag, SayBody;
    var (t1, items) := BodyTools(cfg, t, b.calls);
    BodyToolsFacts(cfg, t, b.calls);
    var t2 := t1.(saw := items != [], started := true,
                  content := t.content + b.content, reasoning := t.reasoning + b.reasoning);
    var (t3, prose) := BodyProse(cfg, t2, b.content, b.reasoning);
    CloseTagOpen(cfg.mode, b.content, b.reasoning);
    SerialSilent(cfg, t3, items, true);
    SayBodySays(cfg, Serial(cfg, t3, items, true), prose);
    RewriteKeepsApart(cfg.mode, b.content, b.reasoning);
  }

  lemma BodyToolsFacts(cfg: Config, t: Turn, calls: seq<Delta>)
    requires t.acc == map[]
    ensures var (t', items) := BodyTools(cfg, t, calls);
      && t'.out == t.out && t'.held == t.held && t'.thinkOpen == t.thinkOpen
      && (if calls == [] then t' == t && items == [] else t'.pending && t'.toolsRequested)
  {
    hide DeltaAccumulated, FlushList;
    if calls != [] {
      var e := DeltaAccumulated(t.acc, calls, cfg.ids(t.nextId));
      FlushListSilent(cfg, t.(pending := true, toolsRequested := true, acc := e.acc, nextId := t.nextId + 1));
    }
  }

  lemma {:induction false} FlushListSilent(cfg: Config, t: Turn)
    ensures var t' := FlushList(cfg, t).0; t' == t.(acc := t'.acc, nextId := t'.nextId)
    decreases Waiting(t.acc)
  {
    hide FlushedOne, Waiting, DeltaAccumulated;
    var e := FlushedOne(t.acc, cfg.ids(t.nextId));
    if e.item.Some? {
      EmissionShrinks(t.acc, cfg.ids(t.nextId));
      FlushListSilent(cfg, t.(acc := e.acc, nextId := t.nextId + 1));
    }
  }

  /** After the closing tag no think tag is open. */
  lemma CloseTagOpen(mode: Mode, content: Text, reasoning: Text)
    ensures var r := Rewrite(mode, false, content, reasoning); CloseTag(mode, r.open) == [] ==> !r.open
  {
  }

  lemma RewriteKeepsApart(mode: Mode, content: Text, reasoning: Text)
    ensures Rewrite(mode, false, content, reasoning).reasoning != [] ==> mode == Off
  {
  }

  lemma SayBodySays(cfg: Config, t: Turn, prose: Held)
    ensures var r := SayBody(cfg, t, prose);
      && r.held == t.held && r.thinkOpen == t.thinkOpen
      && Shown(r.out) == if t.toolsRequested && t.saw then Shown(t.out)
                         else Shown(t.out) + Piece(prose.content, [])
                              + (if cfg.mode == Off then Piece([], prose.reasoning) else [])
  {
    hide Shown;
    ShownPiece(t.out, prose.content, []);
    var t1 := if prose.content != [] then Say(t, Prose(prose.content, [])) else t;
    ShownPiece(t1.out, [], prose.reasoning);
    assert Shown(t.out) + [] == Shown(t.out) && Shown(t1.out) + [] == Shown(t1.out);
  }
}
