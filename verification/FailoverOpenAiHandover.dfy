/**
 When the OpenAI-side stream goes on to the next account, and what it leaves the client with if it
 does: the run of an attempt that hands over is the run from the next account.
 */
module FailoverOpenAiHandover {
  import opened Texts
  import opened Upstream
  import opened ToolEmitter
  import opened FailoverOpenAi
  import opened FailoverOpenAiLaws
  import Keys

  // ---------- what makes an attempt hand over ----------

  /** A line that says anything at all. */
  predicate Says(l: Line<Delta>) {
    l.Chunk? && (l.content != [] || l.reasoning != [] || l.calls != [] || l.finish != [])
  }

  ghost predicate SaysNothing(lines: seq<LineEvent<Delta>>) {
    forall i :: 0 <= i < |lines| ==> !Says(lines[i].line)
  }

  /** The client is there at every line that is read, the one of `[DONE]` included. */
  ghost predicate Present(lines: seq<LineEvent<Delta>>) {
    forall i :: 0 <= i < |lines| && i <= |Live(lines)| ==> !lines[i].gone
  }

  /**
   What lets the next account have its turn: no connection before the role frame has gone out, a
   status that another account may not meet, or a stream that is not cut and says nothing.
   */
  ghost predicate HandsOver(roleSent: bool, a: Attempt<Delta>) {
    match a
    case NoConnection => !roleSent
    case Status(code) => code == 401 || code == 403 || code == 429 || code == 500 || 502 <= code <= 504
    case Sse(lines, raises) => (raises ==> SeesDone(lines)) && Present(lines) && SaysNothing(Live(lines))
    case _ => false
  }

  // ---------- lines that say nothing ----------

  /** One keepalive for every tick of the line reader. */
  function Beats(lines: seq<LineEvent<Delta>>): seq<Frame> {
    if lines == [] then []
    else Beats(lines[..|lines| - 1]) + (if lines[|lines| - 1].line.Idle? then [Keepalive] else [])
  }

  lemma QuietLine(cfg: Config, t: Turn, ev: LineEvent<Delta>)
    requires !t.gone && !ev.gone && !Says(ev.line)
    ensures OnLine(cfg, t, ev) == if ev.line.Idle? then Say(t, Keepalive) else t
  {
    hide TakeCalls, TakeProse, TakeFinish, SendChunk;
    assert t.(gone := t.gone || ev.gone) == t;
  }

  lemma {:induction false} QuietLines(cfg: Config, t: Turn, lines: seq<LineEvent<Delta>>)
    requires !t.gone && SaysNothing(lines) && forall i :: 0 <= i < |lines| ==> !lines[i].gone
    ensures OnLines(cfg, t, lines) == t.(out := t.out + Beats(lines))
  {
    hide OnLine, Says;
    if lines == [] {
      assert t.out + [] == t.out;
    } else {
      var h, l := lines[..|lines| - 1], lines[|lines| - 1];
      QuietLines(cfg, t, h);
      var t1 := t.(out := t.out + Beats(h));
      QuietLine(cfg, t1, l);
      assert t.out + Beats(h) + [] == t.out + Beats(h);
      assert t.out + (Beats(h) + [Keepalive]) == t.out + Beats(h) + [Keepalive];
    }
  }

  lemma {:induction false} BeatsAreKeepalives(lines: seq<LineEvent<Delta>>)
    ensures forall f :: f in Beats(lines) ==> f == Keepalive
  {
    if lines != [] { BeatsAreKeepalives(lines[..|lines| - 1]); }
  }

  // ---------- what has started stays so ----------

  /** Sending and flushing tools changes none of these. */
  ghost predicate SameMarks(t: Turn, t': Turn) {
    t'.started == t.started && t'.gone == t.gone && t'.finished == t.finished && t'.heldFinish == t.heldFinish
  }

  lemma {:induction false} DrainKeepsMarks(cfg: Config, t: Turn)
    ensures SameMarks(t, DrainReady(cfg, t))
    decreases Waiting(t.acc)
  {
    hide DeltaAccumulated, Waiting;
    if HasBudget(cfg, t.emitted) {
      var e := DeltaAccumulated(t.acc, [], cfg.ids(t.nextId));
      if e.item.Some? {
        EmissionShrinks(t.acc, cfg.ids(t.nextId));
        DrainKeepsMarks(cfg, SayTool(t, e));
      }
    }
  }

  lemma {:induction false} FlushKeepsMarks(cfg: Config, t: Turn)
    ensures SameMarks(t, FlushHeld(cfg, t))
    decreases Waiting(t.acc)
  {
    hide FlushedOne, DeltaAccumulated, Waiting;
    if HasBudget(cfg, t.emitted) {
      var e := FlushedOne(t.acc, cfg.ids(t.nextId));
      if e.item.Some? {
        EmissionShrinks(t.acc, cfg.ids(t.nextId));
        FlushKeepsMarks(cfg, SayTool(t, e).(saw := true, held := [], thinkOpen := false));
      }
    }
  }

  lemma CallsStart(cfg: Config, t: Turn, calls: seq<Delta>)
    ensures SameMarks(t, TakeCalls(cfg, t, calls).0)
  {
    hide DeltaAccumulated, Ingest, HasBudget;
  }

  lemma ProseStarts(cfg: Config, t: Turn, content: Text, reasoning: Text)
    ensures SameMarks(t, TakeProse(cfg, t, content, reasoning).0)
  {
    hide Rewrite;
  }

  lemma FinishStarts(cfg: Config, t: Turn, finish: Text)
    ensures var r := TakeFinish(cfg, t, finish);
      && r.started == t.started && r.gone == t.gone
      && (if finish == [] then r == t else r.finished && r.heldFinish == finish)
  {
    hide CloseTag;
  }

  lemma ChunkStarts(cfg: Config, t: Turn, c: Line<Delta>)
    requires c.Chunk?
    ensures var r := OnChunk(cfg, t, c);
      && r.started == (t.started || Says(c)) && r.gone == t.gone
      && (if c.finish == [] then r.finished == t.finished && r.heldFinish == t.heldFinish
          else r.finished && r.heldFinish == c.finish)
  {
    hide TakeCalls, TakeProse, TakeFinish, SendChunk;
    if Says(c) {
      var t0 := t.(content := t.content + c.content, reasoning := t.reasoning + c.reasoning, started := true);
      var (t1, item) := TakeCalls(cfg, t0, c.calls);
      var (t2, prose) := TakeProse(cfg, t1, c.content, c.reasoning);
      CallsStart(cfg, t0, c.calls);
      ProseStarts(cfg, t1, c.content, c.reasoning);
      FinishStarts(cfg, t2, c.finish);
      SendStarts(cfg, TakeFinish(cfg, t2, c.finish), prose, item);
    }
  }

  lemma ToolKeepsMarks(cfg: Config, t: Turn, item: Item)
    ensures SameMarks(t, DrainReady(cfg, Say(t, Tool(item)).(saw := true, emitted := t.emitted + 1)))
  {
    hide DrainReady;
    DrainKeepsMarks(cfg, Say(t, Tool(item)).(saw := true, emitted := t.emitted + 1));
  }

  lemma SayKeepsMarks(t: Turn, f: Frame)
    ensures SameMarks(t, Say(t, f))
  {
  }

  lemma SendStarts(cfg: Config, t: Turn, prose: Held, item: Option<Item>)
    ensures var r := SendChunk(cfg, t, prose, item);
      (t.started ==> r.started) && r.gone == t.gone && r.finished == t.finished && r.heldFinish == t.heldFinish
  {
    hide DrainReady, Say;
    var t1 := t.(started := true);
    SayKeepsMarks(t1, Prose(prose.content, prose.reasoning));
    if item.Some? {
      ToolKeepsMarks(cfg, t1, item.value);
      ToolKeepsMarks(cfg, Say(t1, Prose(prose.content, prose.reasoning)), item.value);
    }
  }

  /** The finish reason and what has started after a line. */
  lemma LineStarts(cfg: Config, t: Turn, ev: LineEvent<Delta>)
    ensures var r := OnLine(cfg, t, ev);
      && r.started == (t.started || Says(ev.line)) && r.gone == (t.gone || ev.gone)
      && (if ev.line.Chunk? && ev.line.finish != [] then r.finished && r.heldFinish == ev.line.finish
          else r.finished == t.finished && r.heldFinish == t.heldFinish)
  {
    hide OnChunk, Says;
    NotSaid(ev.line);
    if ev.line.Chunk? { ChunkStarts(cfg, t.(gone := t.gone || ev.gone), ev.line); }
  }

  lemma {:induction false} LinesStart(cfg: Config, t: Turn, lines: seq<LineEvent<Delta>>)
    ensures var r := OnLines(cfg, t, lines);
      && (r.started <==> t.started || exists i :: 0 <= i < |lines| && Says(lines[i].line))
      && (r.gone <==> t.gone || exists i :: 0 <= i < |lines| && lines[i].gone)
      && (if LastFinish(lines) == [] then r.finished == t.finished && r.heldFinish == t.heldFinish
          else r.finished && r.heldFinish == LastFinish(lines))
  {
    hide OnLine, Says;
    if lines != [] {
      var h, l := lines[..|lines| - 1], lines[|lines| - 1];
      LinesStart(cfg, t, h);
      LineStarts(cfg, OnLines(cfg, t, h), l);
      assert forall i :: 0 <= i < |h| ==> h[i] == lines[i];
    }
  }

  lemma NotSaid(l: Line<Delta>)
    ensures Says(l) ==> l.Chunk?
  {
  }

  // ---------- one attempt ----------

  lemma StartedStops(cfg: Config, t: Turn, last: bool)
    requires t.started || t.gone
    ensures !Settled(cfg, t, last).next
  {
    hide FlushHeld, Finalized, AnyEmitted, Keys.SortedKeys, SayEnd, Strip;
    FlushKeepsMarks(cfg, t);
  }

  /** What has said nothing settles as an empty answer. */
  lemma QuietSettles(cfg: Config, t: Turn, last: bool)
    requires !t.started && !t.gone && !t.saw && t.acc == map[] && t.held == [] && t.content == [] && t.reasoning == []
    ensures Settled(cfg, t, last) == if last then Fails(t) else Outcome(t, true)
  {
    hide FlushHeld, SayEnd;
    StripNothing();
    assert Keys.SortedKeys(t.acc.Keys) == [];
  }

  lemma {:induction false} SerialStarted(cfg: Config, t: Turn, items: seq<Item>, first: bool)
    ensures Serial(cfg, t, items, first).started == t.started
    decreases |items|
  {
    hide HasBudget;
    if items != [] && HasBudget(cfg, t.emitted) {
      var t1 := if first then t else Say(t, Keepalive);
      SerialStarted(cfg, Say(t1, Tool(items[0])).(emitted := t1.emitted + 1), items[1..], false);
    }
  }

  lemma BodyStarted(cfg: Config, t: Turn, b: Attempt<Delta>)
    requires b.JsonBody?
    ensures OnJsonBody(cfg, t, b).started
  {
    hide BodyTools, BodyProse, Serial;
    var (t1, items) := BodyTools(cfg, t, b.calls);
    var t2 := t1.(saw := items != [], started := true,
                  content := t.content + b.content, reasoning := t.reasoning + b.reasoning);
    BodyProseFacts(cfg, t2, b.content, b.reasoning);
    SerialStarted(cfg, BodyProse(cfg, t2, b.content, b.reasoning).0, items, true);
  }

  /** A stream is left for another account exactly when the client is there and nothing was said. */
  lemma StreamHandsOver(cfg: Config, asked: bool, nextId: nat, out: seq<Frame>, lines: seq<LineEvent<Delta>>,
    last: bool)
    ensures var t := NewTurn(asked, nextId, out);
      var o := Settled(cfg, AtDone(OnLines(cfg, t, Live(lines)), lines), last);
      && (o.next <==> !last && Present(lines) && SaysNothing(Live(lines)))
      && (o.next ==> o.turn == t.(out := out + Beats(Live(lines))))
  {
    hide OnLines, Settled, Live, Says;
    var t := NewTurn(asked, nextId, out);
    var t0 := OnLines(cfg, t, Live(lines));
    LinesStart(cfg, t, Live(lines));
    LiveIsPrefix(lines);
    if Present(lines) && SaysNothing(Live(lines)) {
      QuietLines(cfg, t, Live(lines));
      assert AtDone(t0, lines) == t0;
      QuietSettles(cfg, t0, last);
    } else {
      assert AtDone(t0, lines).started || AtDone(t0, lines).gone by { Stopped(cfg, t, lines); }
      StartedStops(cfg, AtDone(t0, lines), last);
    }
  }

  lemma Stopped(cfg: Config, t: Turn, lines: seq<LineEvent<Delta>>)
    requires !(Present(lines) && SaysNothing(Live(lines)))
    ensures var r := AtDone(OnLines(cfg, t, Live(lines)), lines); r.started || r.gone
  {
    hide OnLines, Live, Says;
    LinesStart(cfg, t, Live(lines));
    LiveIsPrefix(lines);
    if !Present(lines) {
      var i :| 0 <= i < |lines| && i <= |Live(lines)| && lines[i].gone;
      if i < |Live(lines)| { assert Live(lines)[i].gone; }
    }
  }

  lemma {:induction false} LiveIsPrefix(lines: seq<LineEvent<Delta>>)
    ensures Live(lines) <= lines
  {
    if lines != [] && !lines[0].line.DoneMark? { LiveIsPrefix(lines[1..]); }
  }

  /**
   An attempt hands over exactly when another account is left and one of the stated things happens.
   It has sent nothing then, or no more than the role frame and keepalives, and the next attempt
   begins as this one did.
   */
  lemma HandsOverExactly(cfg: Config, roleSent: bool, asked: bool, nextId: nat, a: Attempt<Delta>, last: bool)
    ensures var o := Tried(cfg, NewTurn(asked, nextId, []), roleSent, a, last);
      && (o.next <==> !last && HandsOver(roleSent, a))
      && (o.next ==>
            && (!Answers(a) ==> o.turn.out == [])
            && (forall f :: f in o.turn.out ==> f == Keepalive || (f == Role && !roleSent))
            && o.turn.toolsRequested == asked && o.turn.nextId == nextId)
      && (!o.next && !Answers(a) ==> o.turn.out == [ErrorFrame, Done])
  {
    hide OnLines, Settled, OnJsonBody, Live, SeesDone, SaysNothing, Present;
    var t := NewTurn(asked, nextId, []);
    var open := if roleSent then t else Say(t, Role);
    assert [] + [Role] == [Role];
    match a
    case NoConnection =>
    case Status(code) =>
    case Sse(lines, raises) =>
      StreamHandsOver(cfg, asked, nextId, open.out, lines, last);
      BeatsAreKeepalives(Live(lines));
    case RawBody(text) => StartedStops(cfg, OnRawBody(open, text), last);
    case JsonBody(_, _, _, _) =>
      BodyStarted(cfg, open, a);
      StartedStops(cfg, OnJsonBody(cfg, open, a), last);
    case BrokenBody =>
  }

  // ---------- the chain ----------

  /** Whether the role frame has gone out by account `k` of a run from account `i`. */
  ghost predicate RoleBy(chain: seq<Attempt<Delta>>, i: nat, k: nat, roleSent: bool)
    requires k <= |chain|
  {
    roleSent || exists j :: i <= j < k && Answers(chain[j])
  }

  /** The account that a run ends with is the first that does not hand over, or the last there is. */
  ghost predicate FirstToStay(chain: seq<Attempt<Delta>>, i: nat, roleSent: bool, r: Run) {
    && i < r.tried <= |chain|
    && (forall k :: i <= k < r.tried - 1 ==> HandsOver(RoleBy(chain, i, k, roleSent), chain[k]))
    && (r.tried == |chain| || !HandsOver(RoleBy(chain, i, r.tried - 1, roleSent), chain[r.tried - 1]))
  }

  /** Frames that commit to no account. */
  predicate Neutral(f: Frame) { f == Keepalive || f == Role }

  /** A frame comes from the last account tried, or from one that has answered and then says nothing of its own. */
  ghost predicate NeutralAt(chain: seq<Attempt<Delta>>, i: nat, tried: nat, frame: Frame, account: nat) {
    && i <= account < tried <= |chain|
    && (account < tried - 1 ==> Answers(chain[account]) && Neutral(frame))
  }

  /** Earlier accounts leave no more than the role frame and keepalives, and only if they answered. */
  ghost predicate OthersNeutral(chain: seq<Attempt<Delta>>, i: nat, r: Run) {
    && i < r.tried <= |chain| && |r.accounts| == |r.frames|
    && forall p :: 0 <= p < |r.frames| ==> NeutralAt(chain, i, r.tried, r.frames[p], r.accounts[p])
  }

  /** One step of a run: it goes on as the run from the next account exactly if the attempt hands over. */
  lemma RunGoesOnExactly(cfg: Config, chain: seq<Attempt<Delta>>, i: nat, roleSent: bool, asked: bool, nextId: nat)
    returns (early: seq<Frame>)
    requires i < |chain|
    ensures var r := Streamed(cfg, chain, i, roleSent, asked, nextId);
      if i + 1 < |chain| && HandsOver(roleSent, chain[i]) then
        var rest := Streamed(cfg, chain, i + 1, roleSent || Answers(chain[i]), asked, nextId);
        && r == Run(early + rest.frames, Copies(i, |early|) + rest.accounts, rest.tried)
        && (!Answers(chain[i]) ==> early == [])
        && (forall f :: f in early ==> Neutral(f) && (roleSent ==> f != Role))
      else r.tried == i + 1 && r.accounts == Copies(i, |r.frames|)
  {
    hide Tried, HandsOver;
    HandsOverExactly(cfg, roleSent, asked, nextId, chain[i], i == |chain| - 1);
    early := Tried(cfg, NewTurn(asked, nextId, []), roleSent, chain[i], i == |chain| - 1).turn.out;
  }

  /** The first account that does not hand over is the one that the run ends with. */
  lemma {:induction false} RunStopsAtFirst(cfg: Config, chain: seq<Attempt<Delta>>, i: nat, roleSent: bool,
    asked: bool, nextId: nat)
    requires i < |chain|
    ensures var r := Streamed(cfg, chain, i, roleSent, asked, nextId);
      FirstToStay(chain, i, roleSent, r) && OthersNeutral(chain, i, r)
    decreases |chain| - i
  {
    hide HandsOver, Streamed, FirstToStay, OthersNeutral;
    var early := RunGoesOnExactly(cfg, chain, i, roleSent, asked, nextId);
    var r := Streamed(cfg, chain, i, roleSent, asked, nextId);
    if i + 1 < |chain| && HandsOver(roleSent, chain[i]) {
      var roleSent' := roleSent || Answers(chain[i]);
      RunStopsAtFirst(cfg, chain, i + 1, roleSent', asked, nextId);
      var rest := Streamed(cfg, chain, i + 1, roleSent', asked, nextId);
      StaysLater(chain, i, roleSent, rest, r);
      NeutralBefore(chain, i, early, rest);
    } else {
      StaysHere(chain, i, roleSent, r);
    }
  }

  lemma StaysHere(chain: seq<Attempt<Delta>>, i: nat, roleSent: bool, r: Run)
    requires i < |chain| && r.tried == i + 1 && r.accounts == Copies(i, |r.frames|)
    requires i + 1 == |chain| || !HandsOver(roleSent, chain[i])
    ensures FirstToStay(chain, i, roleSent, r) && OthersNeutral(chain, i, r)
  {
    hide HandsOver;
    assert RoleBy(chain, i, i, roleSent) == roleSent;
  }

  lemma StaysLater(chain: seq<Attempt<Delta>>, i: nat, roleSent: bool, rest: Run, r: Run)
    requires i + 1 < |chain| && HandsOver(roleSent, chain[i]) && r.tried == rest.tried
    requires FirstToStay(chain, i + 1, roleSent || Answers(chain[i]), rest)
    ensures FirstToStay(chain, i, roleSent, r)
  {
    hide HandsOver, Answers, RoleBy;
    forall k | i < k <= |chain|
      ensures RoleBy(chain, i, k, roleSent) == RoleBy(chain, i + 1, k, roleSent || Answers(chain[i]))
    {
      RoleByStep(chain, i, k, roleSent);
    }
    RoleByNow(chain, i, roleSent);
  }

  lemma RoleByNow(chain: seq<Attempt<Delta>>, i: nat, roleSent: bool)
    requires i <= |chain|
    ensures RoleBy(chain, i, i, roleSent) == roleSent
  {
  }

  lemma NeutralBefore(chain: seq<Attempt<Delta>>, i: nat, early: seq<Frame>, rest: Run)
    requires OthersNeutral(chain, i + 1, rest)
    requires (early != [] ==> Answers(chain[i])) && forall f :: f in early ==> Neutral(f)
    ensures OthersNeutral(chain, i, Run(early + rest.frames, Copies(i, |early|) + rest.accounts, rest.tried))
  {
    hide NeutralAt, Answers, Neutral;
    var r := Run(early + rest.frames, Copies(i, |early|) + rest.accounts, rest.tried);
    forall p | 0 <= p < |r.frames| ensures NeutralAt(chain, i, r.tried, r.frames[p], r.accounts[p]) {
      Joined(early, rest.frames, p);
      Joined(Copies(i, |early|), rest.accounts, p);
      if p < |early| {
        NeutralEarly(chain, i, rest.tried, early, p);
      } else {
        NeutralLater(chain, i, rest, p - |early|);
      }
    }
  }

  lemma Joined<T>(a: seq<T>, b: seq<T>, p: nat)
    requires p < |a| + |b|
    ensures (a + b)[p] == if p < |a| then a[p] else b[p - |a|]
  {
  }

  lemma NeutralEarly(chain: seq<Attempt<Delta>>, i: nat, tried: nat, early: seq<Frame>, p: nat)
    requires i < tried <= |chain| && p < |early| && Answers(chain[i]) && forall f :: f in early ==> Neutral(f)
    ensures NeutralAt(chain, i, tried, early[p], i)
  {
    hide Answers, Neutral;
    assert early[p] in early;
  }

  lemma NeutralLater(chain: seq<Attempt<Delta>>, i: nat, rest: Run, p: nat)
    requires OthersNeutral(chain, i + 1, rest) && p < |rest.frames|
    ensures NeutralAt(chain, i, rest.tried, rest.frames[p], rest.accounts[p])
  {
    hide Answers, Neutral;
  }

  lemma RoleByStep(chain: seq<Attempt<Delta>>, i: nat, k: nat, roleSent: bool)
    requires i < k <= |chain|
    ensures RoleBy(chain, i, k, roleSent) == RoleBy(chain, i + 1, k, roleSent || Answers(chain[i]))
  {
    hide Answers;
    if RoleBy(chain, i, k, roleSent) && !roleSent {
      var j :| i <= j < k && Answers(chain[j]);
    }
  }
}
