/**
 The Anthropic-side stream with failover (app.py, `_stream_anthropic_with_failover_inner`): a new
 assembler for every account, whose events go out as they come.
 */
module FailoverAnthropic {
  import opened Texts
  import opened Upstream
  import E = Events
  import A = Assembler
  import Laws = AssemblerLaws
  import Object = AssemblerObject

  type Calls = seq<A.ToolDelta>

  datatype Frame = Ping | Out(event: E.Event) | Error

  function Outs(es: seq<E.Event>): (r: seq<Frame>)
    ensures |r| == |es| && forall i :: 0 <= i < |es| ==> r[i] == Out(es[i])
  {
    if es == [] then [] else Outs(es[..|es| - 1]) + [Out(es[|es| - 1])]
  }

  /** The assembler events among some frames. */
  function EventsOf(out: seq<Frame>): seq<E.Event> {
    if out == [] then []
    else
      var l := out[|out| - 1];
      EventsOf(out[..|out| - 1]) + (if l.Out? then [l.event] else [])
  }

  // ---------- one attempt ----------

  /** The local variables of one attempt, and the frames it has sent. */
  datatype Turn = Turn(st: A.State, gone: bool, seen: bool, heldFinish: Text, out: seq<Frame>)

  const NEW: Turn := Turn(A.FRESH, false, false, [], [])

  function Say(t: Turn, f: Frame): Turn { t.(out := t.out + [f]) }

  /** A client that is gone gets nothing, but the assembler goes on. */
  function Send(t: Turn, s: A.Step): Turn {
    t.(st := s.st, out := if t.gone then t.out else t.out + Outs(s.events))
  }

  function Open(t: Turn): Turn { Send(t, A.Started(t.st)) }

  /** What a line gives the assembler: one chunk, or nothing. */
  function Payload(content: Text, reasoning: Text, calls: Calls): seq<A.Chunk> {
    if content == [] && reasoning == [] && calls == [] then [] else [A.Chunk(content, reasoning, calls)]
  }

  function Feed(cfg: A.Config, t: Turn, c: A.Chunk): Turn {
    Send(t.(seen := true), A.Fed(cfg, t.st, c))
  }

  function OnLine(cfg: A.Config, t: Turn, ev: LineEvent<A.ToolDelta>): Turn {
    var t1 := t.(gone := t.gone || ev.gone);
    match ev.line
    case Idle => if t1.gone then t1 else Say(t1, Ping)
    case Chunk(content, reasoning, calls, finish) =>
      var p := Payload(content, reasoning, calls);
      var t2 := if p == [] then t1 else Feed(cfg, t1, p[0]);
      if finish == [] then t2 else t2.(heldFinish := finish)
    case _ => t1
  }

  function OnLines(cfg: A.Config, t: Turn, lines: seq<LineEvent<A.ToolDelta>>): Turn {
    if lines == [] then t else OnLine(cfg, OnLines(cfg, t, lines[..|lines| - 1]), lines[|lines| - 1])
  }

  function AtDone(t: Turn, lines: seq<LineEvent<A.ToolDelta>>): Turn {
    var n := |Live(lines)|;
    if n < |lines| then t.(gone := t.gone || lines[n].gone) else t
  }

  /** The finish reason given to the assembler at the end of a stream. */
  function FinishReason(t: Turn): Text {
    if t.heldFinish == [] then (if t.st.sawTool then T("tool_calls") else T("stop"))
    else if t.st.sawTool && t.heldFinish in {T("stop"), T("end_turn")} then T("tool_calls")
    else t.heldFinish
  }

  function Finish(cfg: A.Config, t: Turn, reason: Text): Turn {
    Send(t, A.Finished(cfg, t.st, Some(reason)))
  }

  /** The finish reason given to the assembler after a JSON body. */
  function BodyReason(b: Attempt<A.ToolDelta>): Text
    requires b.JsonBody?
  {
    var reason := if b.finish == [] then T("stop") else b.finish;
    if b.calls != [] && reason in {T("stop"), T("end_turn")} then T("tool_calls") else reason
  }

  predicate EmptyBody(b: Attempt<A.ToolDelta>)
    requires b.JsonBody?
  {
    b.calls == [] && Strip(b.content) == [] && Strip(b.reasoning) == []
  }

  /** How an attempt ends: try the next account, or stop. */
  datatype Outcome = Outcome(turn: Turn, next: bool)

  function Fails(t: Turn): Outcome { Outcome(Say(t, Error), false) }

  /** One account. */
  function Tried(cfg: A.Config, a: Attempt<A.ToolDelta>, last: bool): Outcome {
    var t := Open(NEW);
    match a
    case NoConnection => if last then Fails(NEW) else Outcome(NEW, true)
    case Status(code) => if Retryable(code) && !last then Outcome(NEW, true) else Fails(NEW)
    case Sse(lines, raises) =>
      var t1 := AtDone(OnLines(cfg, t, Live(lines)), lines);
      if (raises && !SeesDone(lines)) || !t1.seen then Fails(t1)
      else Outcome(Finish(cfg, t1, FinishReason(t1)), false)
    case RawBody(text) =>
      if Strip(text) == [] then Fails(t)
      else Outcome(Finish(cfg, Feed(cfg, t, A.Chunk(text, [], [])), T("stop")), false)
    case JsonBody(content, reasoning, calls, _) =>
      if EmptyBody(a) then Fails(t)
      else Outcome(Finish(cfg, Feed(cfg, t, A.Chunk(content, reasoning, calls)), BodyReason(a)), false)
    case BrokenBody => Fails(t)
  }

  /** Everything sent to the client, the account each frame comes from, and how many were tried. */
  datatype Run = Run(frames: seq<Frame>, accounts: seq<nat>, tried: nat)

  /** `_stream_anthropic_with_failover_inner` from account `i` on. */
  function Streamed(cfg: A.Config, chain: seq<Attempt<A.ToolDelta>>, i: nat): Run
    requires i <= |chain|
    decreases |chain| - i
  {
    if i == |chain| then Run([Error], [i], i)
    else
      var o := Tried(cfg, chain[i], i == |chain| - 1);
      var mine := Copies(i, |o.turn.out|);
      if !o.next then Run(o.turn.out, mine, i + 1)
      else
        var rest := Streamed(cfg, chain, i + 1);
        Run(o.turn.out + rest.frames, mine + rest.accounts, rest.tried)
  }

  // ---------- what an upstream says ----------

  /** The chunks of some lines. */
  function ChunksOf(lines: seq<LineEvent<A.ToolDelta>>): seq<A.Chunk> {
    if lines == [] then []
    else
      ChunksOf(lines[..|lines| - 1]) +
      (match lines[|lines| - 1].line
       case Chunk(content, reasoning, calls, _) =>
         if |content| + |reasoning| + |calls| > 0 then [A.Chunk(content, reasoning, calls)] else []
       case _ => [])
  }

  /** Everything an answer says before it ends. */
  function SaidBy(a: Attempt<A.ToolDelta>): seq<A.Chunk> {
    match a
    case Sse(lines, _) => ChunksOf(Live(lines))
    case RawBody(text) => if Strip(text) == [] then [] else [A.Chunk(text, [], [])]
    case JsonBody(content, reasoning, calls, _) =>
      if calls != [] || Strip(content) != [] || Strip(reasoning) != [] then [A.Chunk(content, reasoning, calls)] else []
    case _ => []
  }

  /** An answer that says something and is not cut off. */
  predicate Completes(a: Attempt<A.ToolDelta>) {
    SaidBy(a) != [] && (a.Sse? && a.raises ==> SeesDone(a.lines))
  }

  const BEGUN: A.State := A.Started(A.FRESH).st

  /** Whether tools are known of before the end: sent in a stream, or given by a body. */
  predicate ToolsKnown(cfg: A.Config, a: Attempt<A.ToolDelta>) {
    match a
    case Sse(_, _) => E.ToolStarts(A.AllFed(cfg, BEGUN, SaidBy(a)).events) > 0
    case JsonBody(_, _, calls, _) => calls != []
    case _ => false
  }

  /** The finish reason that the assembler is given. */
  function ReasonOf(cfg: A.Config, a: Attempt<A.ToolDelta>): Text {
    ReasonFor(UpstreamFinish(a), ToolsKnown(cfg, a))
  }

  // ---------- laws ----------

  lemma EventsOne(out: seq<Frame>, f: Frame)
    ensures EventsOf(out + [f]) == EventsOf(out) + (if f.Out? then [f.event] else [])
  {
    assert (out + [f])[..|out|] == out;
  }

  lemma {:induction false} EventsOuts(out: seq<Frame>, es: seq<E.Event>)
    ensures EventsOf(out + Outs(es)) == EventsOf(out) + es
    ensures forall f :: f in Outs(es) ==> f.Out?
  {
    if es == [] {
      assert out + Outs(es) == out;
    } else {
      var h, l := es[..|es| - 1], es[|es| - 1];
      EventsOuts(out, h);
      EventsOne(out + Outs(h), Out(l));
      assert out + Outs(es) == out + Outs(h) + [Out(l)];
      assert h + [l] == es;
    }
  }

  /** The client has a prefix of the assembler's events, all of them if it stayed. */
  ghost predicate Follows(t: Turn, es: seq<E.Event>) {
    && EventsOf(t.out) <= es && (!t.gone ==> EventsOf(t.out) == es)
    && forall f :: f in t.out ==> !f.Error?
  }

  lemma SendFollows(t: Turn, es: seq<E.Event>, s: A.Step)
    requires Follows(t, es)
    ensures Follows(Send(t, s), es + s.events)
  {
    hide EventsOf;
    EventsOuts(t.out, s.events);
  }

  /** What an attempt has sent after some chunks. */
  ghost predicate Fed(cfg: A.Config, t: Turn, cs: seq<A.Chunk>) {
    var r := A.AllFed(cfg, BEGUN, cs);
    && t.st == r.st && (t.seen <==> cs != [])
    && Follows(t, [E.MessageStart] + r.events)
  }

  lemma OpenFed(cfg: A.Config)
    ensures Fed(cfg, Open(NEW), [])
    ensures Open(NEW).gone == false
  {
    SendFollows(NEW, [], A.Started(A.FRESH));
    assert [] + [E.MessageStart] == [E.MessageStart] && [E.MessageStart] + [] == [E.MessageStart];
  }

  lemma FeedFed(cfg: A.Config, t: Turn, cs: seq<A.Chunk>, c: A.Chunk)
    requires Fed(cfg, t, cs)
    ensures Fed(cfg, Feed(cfg, t, c), cs + [c])
  {
    hide A.Fed, Follows, Send, Outs;
    var r := A.AllFed(cfg, BEGUN, cs);
    assert (cs + [c])[..|cs|] == cs;
    var s := A.Fed(cfg, r.st, c);
    SeenFollows(t, [E.MessageStart] + r.events);
    SendFollows(t.(seen := true), [E.MessageStart] + r.events, s);
    assert [E.MessageStart] + r.events + s.events == [E.MessageStart] + (r.events + s.events);
    SendState(t.(seen := true), s);
  }

  lemma SeenFollows(t: Turn, es: seq<E.Event>)
    requires Follows(t, es)
    ensures Follows(t.(seen := true), es)
  {
  }

  lemma SendState(t: Turn, s: A.Step)
    ensures Send(t, s).st == s.st && Send(t, s).seen == t.seen && Send(t, s).gone == t.gone
  {
  }

  lemma OnLineFed(cfg: A.Config, t: Turn, lines: seq<LineEvent<A.ToolDelta>>, ev: LineEvent<A.ToolDelta>)
    requires Fed(cfg, t, ChunksOf(lines))
    ensures Fed(cfg, OnLine(cfg, t, ev), ChunksOf(lines + [ev]))
    ensures OnLine(cfg, t, ev).gone == (t.gone || ev.gone)
  {
    hide A.AllFed, A.Fed, ChunksOf, EventsOf, Outs;
    ChunksOne(lines, ev);
    var cs := ChunksOf(lines);
    assert cs + [] == cs;
    var t1 := t.(gone := t.gone || ev.gone);
    match ev.line
    case Idle => EventsOne(t1.out, Ping); assert EventsOf(t1.out) + [] == EventsOf(t1.out);
    case Chunk(content, reasoning, calls, finish) =>
      var p := Payload(content, reasoning, calls);
      if p != [] { FeedFed(cfg, t1, cs, p[0]); assert p == [p[0]]; }
    case _ =>
  }

  lemma ChunksOne(lines: seq<LineEvent<A.ToolDelta>>, ev: LineEvent<A.ToolDelta>)
    ensures ChunksOf(lines + [ev]) == ChunksOf(lines) +
      (if ev.line.Chunk? then Payload(ev.line.content, ev.line.reasoning, ev.line.calls) else [])
  {
    assert (lines + [ev])[..|lines|] == lines;
  }

  lemma {:induction false} OnLinesFed(cfg: A.Config, lines: seq<LineEvent<A.ToolDelta>>)
    ensures var t := OnLines(cfg, Open(NEW), lines);
      && Fed(cfg, t, ChunksOf(lines))
      && ((forall i :: 0 <= i < |lines| ==> !lines[i].gone) ==> !t.gone)
  {
    hide Fed, OnLine;
    if lines == [] {
      OpenFed(cfg);
    } else {
      var h, l := lines[..|lines| - 1], lines[|lines| - 1];
      OnLinesFed(cfg, h);
      OnLineFed(cfg, OnLines(cfg, Open(NEW), h), h, l);
      assert h + [l] == lines;
    }
  }

  // ---------- the end of an attempt ----------

  /** All of an assembler run over what the upstream said, or, for a client that left, its beginning. */
  ghost predicate WholeRun(cfg: A.Config, a: Attempt<A.ToolDelta>, out: seq<Frame>) {
    var run := A.Run(cfg, true, SaidBy(a), Some(ReasonOf(cfg, a)));
    && (forall f :: f in out ==> !f.Error?)
    && EventsOf(out) <= run && (Steady(a) ==> EventsOf(out) == run)
  }

  /** The message is broken off by one error, which is the last frame. */
  ghost predicate BrokenOff(cfg: A.Config, a: Attempt<A.ToolDelta>, out: seq<Frame>) {
    var events := [E.MessageStart] + A.AllFed(cfg, BEGUN, SaidBy(a)).events;
    && out != [] && out[|out| - 1].Error?
    && (forall i :: 0 <= i < |out| - 1 ==> !out[i].Error?)
    && EventsOf(out) <= events && (Steady(a) ==> EventsOf(out) == events)
  }

  lemma FailsBreaksOff(cfg: A.Config, a: Attempt<A.ToolDelta>, t: Turn)
    requires Fed(cfg, t, SaidBy(a)) && (Steady(a) ==> !t.gone)
    ensures BrokenOff(cfg, a, Fails(t).turn.out)
  {
    hide A.AllFed, EventsOf, SaidBy;
    EventsOne(t.out, Error);
    assert EventsOf(t.out) + [] == EventsOf(t.out);
  }

  lemma FinishIsWhole(cfg: A.Config, a: Attempt<A.ToolDelta>, t: Turn, reason: Text)
    requires Fed(cfg, t, SaidBy(a)) && (Steady(a) ==> !t.gone) && reason == ReasonOf(cfg, a)
    ensures WholeRun(cfg, a, Finish(cfg, t, reason).out)
  {
    hide A.AllFed, A.Finished, EventsOf, SaidBy, Outs, ReasonOf;
    var b := A.AllFed(cfg, BEGUN, SaidBy(a));
    var s := A.Finished(cfg, b.st, Some(reason));
    SendFollows(t, [E.MessageStart] + b.events, s);
    assert A.Run(cfg, true, SaidBy(a), Some(reason)) == [E.MessageStart] + b.events + s.events;
    SendState(t, s);
  }

  /** Whatever an account does, it sends nothing and hands over, or what it sends is final. */
  lemma AttemptEnds(cfg: A.Config, a: Attempt<A.ToolDelta>, last: bool)
    ensures var o := Tried(cfg, a, last);
      && (o.next ==> !Answers(a) && !last && o.turn.out == [])
      && (!o.next && !Answers(a) ==> o.turn.out == [Error])
      && (Completes(a) ==> WholeRun(cfg, a, o.turn.out))
      && (Answers(a) && !Completes(a) ==> BrokenOff(cfg, a, o.turn.out))
  {
    hide Fed, WholeRun, BrokenOff, Open, OnLines, AtDone, Feed, Finish, FinishReason, BodyReason, Strip,
      ChunksOf, Live, ToolsKnown;
    OpenFed(cfg);
    var t := Open(NEW);
    match a
    case NoConnection =>
    case Status(code) =>
    case Sse(lines, raises) =>
      var t1 := AtDone(OnLines(cfg, t, Live(lines)), lines);
      OnLinesFed(cfg, Live(lines));
      if Steady(a) { LiveSteady(lines); }
      AtDoneFed(cfg, OnLines(cfg, t, Live(lines)), lines, SaidBy(a));
      assert t1.seen <==> SaidBy(a) != [] by { SeenIsSaid(cfg, t1, SaidBy(a)); }
      var reason := FinishReason(t1);
      StreamReason(cfg, OnLines(cfg, t, Live(lines)), t1, a);
      if Completes(a) { FinishIsWhole(cfg, a, t1, reason); } else { FailsBreaksOff(cfg, a, t1); }
    case RawBody(text) =>
      var c := A.Chunk(text, [], []);
      FeedFed(cfg, t, [], c);
      FeedStays(cfg, t, c);
      assert [] + [c] == [c];
      BodyReasonIs(cfg, a);
      if Completes(a) { FinishIsWhole(cfg, a, Feed(cfg, t, c), T("stop")); } else { FailsBreaksOff(cfg, a, t); }
    case JsonBody(content, reasoning, calls, _) =>
      var c := A.Chunk(content, reasoning, calls);
      FeedFed(cfg, t, [], c);
      FeedStays(cfg, t, c);
      assert [] + [c] == [c];
      BodyReasonIs(cfg, a);
      if Completes(a) { FinishIsWhole(cfg, a, Feed(cfg, t, c), BodyReason(a)); } else { FailsBreaksOff(cfg, a, t); }
    case BrokenBody => FailsBreaksOff(cfg, a, t);
  }

  /** The reason given at the end of a stream. */
  lemma StreamReason(cfg: A.Config, t: Turn, t1: Turn, a: Attempt<A.ToolDelta>)
    requires a.Sse? && Fed(cfg, t, SaidBy(a)) && t == OnLines(cfg, Open(NEW), Live(a.lines)) && t1 == AtDone(t, a.lines)
    ensures FinishReason(t1) == ReasonOf(cfg, a)
  {
    hide A.AllFed, EventsOf, OnLines, SaidBy, E.ToolStarts, Live, Follows;
    HeldIsLast(cfg, Open(NEW), Live(a.lines));
    ToolsAreSeen(cfg, SaidBy(a));
  }

  lemma {:induction false} HeldIsLast(cfg: A.Config, t: Turn, lines: seq<LineEvent<A.ToolDelta>>)
    ensures OnLines(cfg, t, lines).heldFinish == if LastFinish(lines) == [] then t.heldFinish else LastFinish(lines)
  {
    hide A.Fed, Outs;
    if lines != [] { HeldIsLast(cfg, t, lines[..|lines| - 1]); }
  }

  /** The assembler knows whether it has sent a tool. */
  lemma ToolsAreSeen(cfg: A.Config, cs: seq<A.Chunk>)
    ensures A.AllFed(cfg, BEGUN, cs).st.sawTool <==> E.ToolStarts(A.AllFed(cfg, BEGUN, cs).events) > 0
  {
    hide A.AllFed, Laws.Valid, E.ToolStarts;
    var h := FedIsValid(cfg, cs);
    var r := A.AllFed(cfg, BEGUN, cs);
    var es := [E.MessageStart] + r.events;
    ValidKnowsTools(cfg, r.st, h, es, A.AllPieces(cs));
    E.SpokenConcat([E.MessageStart], r.events);
    OneStart();
  }

  lemma OneStart()
    ensures E.ToolStarts([E.MessageStart]) == 0
  {
    E.SpokenOne([], E.MessageStart);
    E.SpokenNone();
    assert [] + [E.MessageStart] == [E.MessageStart];
  }

  lemma ValidKnowsTools(cfg: A.Config, st: A.State, h: Laws.Hist, es: seq<E.Event>, fed: seq<E.Fragment>)
    requires Laws.Valid(cfg, st, h, es, fed) && es != []
    ensures st.sawTool <==> E.ToolStarts(es) > 0
  {
  }

  /** What has been fed keeps the assembler's invariant. */
  lemma FedIsValid(cfg: A.Config, cs: seq<A.Chunk>) returns (h: Laws.Hist)
    ensures var r := A.AllFed(cfg, BEGUN, cs);
      Laws.Valid(cfg, r.st, h, [E.MessageStart] + r.events, A.AllPieces(cs))
  {
    hide A.AllFed, Laws.Valid;
    Laws.FreshIsValid(cfg);
    var h0 := Laws.Hist([], None, map[]);
    Laws.StartedKeeps(cfg, A.FRESH, h0, [], []);
    assert [] + [E.MessageStart] == [E.MessageStart];
    h := Laws.AllFedKeeps(cfg, BEGUN, h0, [E.MessageStart], cs);
  }

  lemma BodyReasonIs(cfg: A.Config, a: Attempt<A.ToolDelta>)
    requires a.JsonBody? || a.RawBody?
    ensures (if a.JsonBody? then BodyReason(a) else T("stop")) == ReasonOf(cfg, a)
  {
  }

  lemma SeenIsSaid(cfg: A.Config, t: Turn, cs: seq<A.Chunk>)
    requires Fed(cfg, t, cs)
    ensures t.seen <==> cs != []
  {
    hide A.AllFed, EventsOf;
  }

  lemma FeedStays(cfg: A.Config, t: Turn, c: A.Chunk)
    ensures Feed(cfg, t, c).gone == t.gone
  {
    hide A.Fed;
  }

  lemma AtDoneFed(cfg: A.Config, t: Turn, lines: seq<LineEvent<A.ToolDelta>>, cs: seq<A.Chunk>)
    requires Fed(cfg, t, cs)
    ensures Fed(cfg, AtDone(t, lines), cs)
    ensures Steady(Sse(lines, false)) ==> AtDone(t, lines).gone == t.gone
  {
    hide A.AllFed, EventsOf;
    if Steady(Sse(lines, false)) { assert forall i :: 0 <= i < |lines| ==> !Sse(lines, false).lines[i].gone; }
  }

  // ---------- the client ----------

  lemma {:induction false} BrokenStays(es: seq<E.Event>)
    ensures E.ReactAll(E.Broken, es) == E.Broken
  {
    if es != [] { BrokenStays(es[..|es| - 1]); }
  }

  lemma {:induction false} StartedStays(c: E.Client, es: seq<E.Event>)
    requires c != E.Idle
    ensures E.ReactAll(c, es) != E.Idle
  {
    if es != [] { StartedStays(c, es[..|es| - 1]); }
  }

  /** A client that is not broken has seen `message_start` once, at the beginning, and no earlier break. */
  lemma PrefixAccepted(p: seq<E.Event>, es: seq<E.Event>)
    requires p <= es && E.ReactAll(E.Idle, es) != E.Broken
    ensures E.ReactAll(E.Idle, p) != E.Broken
    ensures forall i :: 0 < i < |p| ==> p[i] != E.MessageStart
  {
    hide E.ReactAll;
    assert p + es[|p|..] == es;
    E.ReactConcat(E.Idle, p, es[|p|..]);
    BrokenStays(es[|p|..]);
    forall i | 0 < i < |p| ensures p[i] != E.MessageStart {
      var a, b := p[..i], p[i + 1..];
      assert p == a + [p[i]] + b;
      E.ReactConcat(E.Idle, a + [p[i]], b);
      E.ReactConcat(E.Idle, a, [p[i]]);
      E.ReactOne(E.ReactAll(E.Idle, a), p[i]);
      BrokenStays(b);
      NotIdle(a);
    }
  }

  lemma NotIdle(a: seq<E.Event>)
    requires a != []
    ensures E.ReactAll(E.Idle, a) != E.Idle
  {
    hide E.ReactAll;
    assert a == [a[0]] + a[1..];
    E.ReactConcat(E.Idle, [a[0]], a[1..]);
    E.ReactOne(E.Idle, a[0]);
    StartedStays(E.React(E.Idle, a[0]), a[1..]);
  }

  /** A message that is still being fed is one that a client accepts and has not closed. */
  lemma FedAccepted(cfg: A.Config, cs: seq<A.Chunk>)
    ensures var es := [E.MessageStart] + A.AllFed(cfg, BEGUN, cs).events;
      E.ReactAll(E.Idle, es) != E.Broken && E.ReactAll(E.Idle, es) != E.Closed
  {
    hide A.AllFed, Laws.Valid;
    var h := FedIsValid(cfg, cs);
    var r := A.AllFed(cfg, BEGUN, cs);
    var es := [E.MessageStart] + r.events;
    IsPartial(cfg, r.st, h, es, A.AllPieces(cs));
    E.ClientAcceptsPartial(h.done, h.open);
  }

  lemma IsPartial(cfg: A.Config, st: A.State, h: Laws.Hist, es: seq<E.Event>, fed: seq<E.Fragment>)
    requires Laws.Valid(cfg, st, h, es, fed) && es != []
    ensures es == E.Partial(h.done, h.open)
  {
  }

  // ---------- the chain ----------

  /** The attempt that a run ends with: what the client gets of it, and what it makes of that. */
  ghost predicate Sound(cfg: A.Config, chain: seq<Attempt<A.ToolDelta>>, i: nat, r: Run)
    requires i <= |chain|
  {
    var es := EventsOf(r.frames);
    && |r.accounts| == |r.frames|
    && E.ReactAll(E.Idle, es) != E.Broken
    && (forall k :: 0 < k < |es| ==> es[k] != E.MessageStart)
    && (forall k :: 0 <= k < |r.frames| - 1 ==> !r.frames[k].Error?)
    && (i == |chain| ==> r.frames == [Error])
    && (i < |chain| ==>
          && i < r.tried <= |chain|
          && (forall k :: 0 <= k < |r.frames| ==> r.accounts[k] == r.tried - 1)
          && (forall k :: i <= k < r.tried - 1 ==> !Answers(chain[k]))
          && var a := chain[r.tried - 1];
             if Completes(a) then WholeRun(cfg, a, r.frames) && (Steady(a) ==> E.ReactAll(E.Idle, es) == E.Closed)
             else if Answers(a) then BrokenOff(cfg, a, r.frames) && E.ReactAll(E.Idle, es) != E.Closed
             else r.frames == [Error])
  }

  lemma StopIsSound(cfg: A.Config, chain: seq<Attempt<A.ToolDelta>>, i: nat, out: seq<Frame>)
    requires i < |chain|
    requires var a := chain[i];
      && (!Answers(a) ==> out == [Error])
      && (Completes(a) ==> WholeRun(cfg, a, out))
      && (Answers(a) && !Completes(a) ==> BrokenOff(cfg, a, out))
    ensures Sound(cfg, chain, i, Run(out, Copies(i, |out|), i + 1))
  {
    hide A.Run, A.AllFed, E.ReactAll, EventsOf, SaidBy, Completes, ReasonOf;
    var a := chain[i];
    if Completes(a) { WholeRunIsClosed(cfg, a, out); }
    else if Answers(a) { BrokenOffIsOpen(cfg, a, out); }
    else { NoEvents(); }
    AnswersIfComplete(a);
  }

  lemma AnswersIfComplete(a: Attempt<A.ToolDelta>)
    ensures Completes(a) ==> Answers(a)
  {
    hide ChunksOf, Live, EmptyBody, Strip;
  }

  lemma WholeRunIsClosed(cfg: A.Config, a: Attempt<A.ToolDelta>, out: seq<Frame>)
    requires WholeRun(cfg, a, out)
    ensures var es := EventsOf(out);
      && E.ReactAll(E.Idle, es) != E.Broken && (Steady(a) ==> E.ReactAll(E.Idle, es) == E.Closed)
      && forall k :: 0 < k < |es| ==> es[k] != E.MessageStart
    ensures forall k :: 0 <= k < |out| ==> !out[k].Error?
  {
    hide A.Run, E.ReactAll, EventsOf, SaidBy, ReasonOf, Laws.StopsFor;
    var bs, stop, slots := Laws.RunIsOneMessage(cfg, true, SaidBy(a), Some(ReasonOf(cfg, a)));
    PrefixAccepted(EventsOf(out), A.Run(cfg, true, SaidBy(a), Some(ReasonOf(cfg, a))));
    assert forall k :: 0 <= k < |out| ==> out[k] in out;
  }

  lemma BrokenOffIsOpen(cfg: A.Config, a: Attempt<A.ToolDelta>, out: seq<Frame>)
    requires BrokenOff(cfg, a, out)
    ensures var es := EventsOf(out);
      && E.ReactAll(E.Idle, es) != E.Broken && E.ReactAll(E.Idle, es) != E.Closed
      && forall k :: 0 < k < |es| ==> es[k] != E.MessageStart
  {
    hide A.AllFed, E.ReactAll, EventsOf, SaidBy;
    var whole := [E.MessageStart] + A.AllFed(cfg, BEGUN, SaidBy(a)).events;
    FedAccepted(cfg, SaidBy(a));
    PrefixAccepted(EventsOf(out), whole);
    PrefixOpen(EventsOf(out), whole);
  }

  lemma NoEvents()
    ensures EventsOf([Error]) == [] && E.ReactAll(E.Idle, []) == E.Idle
  {
    EventsOne([], Error);
    assert [] + [Error] == [Error];
  }

  /** Nothing may follow the end of a message, so a message that is not closed was not closed before. */
  lemma PrefixOpen(p: seq<E.Event>, es: seq<E.Event>)
    requires p <= es && E.ReactAll(E.Idle, es) != E.Closed && E.ReactAll(E.Idle, es) != E.Broken
    ensures E.ReactAll(E.Idle, p) != E.Closed
  {
    hide E.ReactAll;
    assert p + es[|p|..] == es;
    E.ReactConcat(E.Idle, p, es[|p|..]);
    var q := es[|p|..];
    if q == [] {
      assert p == es;
    } else {
      assert q == [q[0]] + q[1..];
      E.ReactConcat(E.Closed, [q[0]], q[1..]);
      E.ReactOne(E.Closed, q[0]);
      BrokenStays(q[1..]);
    }
  }

  lemma NobodyIsSound(cfg: A.Config, chain: seq<Attempt<A.ToolDelta>>)
    ensures Sound(cfg, chain, |chain|, Run([Error], [|chain|], |chain|))
  {
    NoEvents();
  }

  lemma GoingOnIsSound(cfg: A.Config, chain: seq<Attempt<A.ToolDelta>>, i: nat, rest: Run)
    requires i + 1 < |chain| && !Answers(chain[i]) && Sound(cfg, chain, i + 1, rest)
    ensures Sound(cfg, chain, i, rest)
  {
    hide Answers, Completes, WholeRun, BrokenOff, E.ReactAll, EventsOf;
  }

  /**
   The whole stream, for every chain and everything its upstreams do.  All frames come from the
   last account tried, no account is tried after one has answered, and `message_start` comes at
   most once.  If that account says something and is not cut off, the client has the assembler's
   message for what it said; otherwise a message broken off by one final error.
   */
  lemma {:induction false} StreamedIsSound(cfg: A.Config, chain: seq<Attempt<A.ToolDelta>>, i: nat)
    requires i <= |chain|
    ensures Sound(cfg, chain, i, Streamed(cfg, chain, i))
    decreases |chain| - i
  {
    hide Tried, Completes, WholeRun, BrokenOff, Answers, Sound;
    if i == |chain| {
      NobodyIsSound(cfg, chain);
    } else {
      var last := i == |chain| - 1;
      AttemptEnds(cfg, chain[i], last);
      var o := Tried(cfg, chain[i], last);
      if o.next {
        StreamedIsSound(cfg, chain, i + 1);
        var rest := Streamed(cfg, chain, i + 1);
        assert [] + rest.frames == rest.frames && Copies(i, 0) + rest.accounts == rest.accounts;
        GoingOnIsSound(cfg, chain, i, rest);
      } else {
        StopIsSound(cfg, chain, i, o.turn.out);
      }
    }
  }

  // ---------- when it fails over ----------

  /** What lets the next account have its turn: no connection, or a status that another account may not meet. */
  predicate HandsOver(a: Attempt<A.ToolDelta>) {
    match a
    case NoConnection => true
    case Status(code) => code == 401 || code == 403 || code == 429 || code == 500 || 502 <= code <= 504
    case _ => false
  }

  /**
   A run goes on as the run from the next account exactly if another is left and this one hands over;
   nothing has been sent then.  Otherwise it ends here, with one error if there was no answer.
   */
  lemma RunGoesOnExactly(cfg: A.Config, chain: seq<Attempt<A.ToolDelta>>, i: nat)
    requires i < |chain|
    ensures var r := Streamed(cfg, chain, i);
      if i + 1 < |chain| && HandsOver(chain[i]) then r == Streamed(cfg, chain, i + 1)
      else r.tried == i + 1 && (!Answers(chain[i]) ==> r.frames == [Error])
  {
    hide OnLines, AtDone, Feed, Finish, Strip, Live;
    var o := Tried(cfg, chain[i], i == |chain| - 1);
    if o.next {
      var rest := Streamed(cfg, chain, i + 1);
      assert [] + rest.frames == rest.frames && Copies(i, 0) + rest.accounts == rest.accounts;
    }
    if !Answers(chain[i]) { assert [] + [Error] == [Error]; }
  }

  /** The account that a run ends with is the first that does not hand over, or the last there is. */
  ghost predicate FirstToStay(chain: seq<Attempt<A.ToolDelta>>, i: nat, r: Run) {
    && i < r.tried <= |chain|
    && (forall k :: i <= k < r.tried - 1 ==> HandsOver(chain[k]))
    && (r.tried == |chain| || !HandsOver(chain[r.tried - 1]))
  }

  /** The first account that does not hand over is the one that the run ends with. */
  lemma {:induction false} RunStopsAtFirst(cfg: A.Config, chain: seq<Attempt<A.ToolDelta>>, i: nat)
    requires i < |chain|
    ensures FirstToStay(chain, i, Streamed(cfg, chain, i))
    decreases |chain| - i
  {
    hide Streamed, HandsOver;
    RunGoesOnExactly(cfg, chain, i);
    if i + 1 < |chain| && HandsOver(chain[i]) { RunStopsAtFirst(cfg, chain, i + 1); }
  }

  // ---------- the generator ----------

  /** `_yield_anthropic_events_serial`. */
  method Yield(t0: Turn, events: seq<E.Event>, st: A.State) returns (t: Turn)
    ensures t == Send(t0, A.Step(st, events))
  {
    t := t0.(st := st);
    if t.gone { return; }
    var k := 0;
    while k < |events|
      invariant 0 <= k <= |events|
      invariant t == t0.(st := st, out := t0.out + Outs(events)[..k])
    {
      t := Say(t, Out(events[k]));
      k := k + 1;
    }
    assert Outs(events)[..k] == Outs(events);
  }

  method FeedOne(assembler: Object.AnthropicStreamAssembler, t0: Turn, c: A.Chunk) returns (t: Turn)
    requires assembler.Valid() && t0.st == assembler.Now()
    modifies assembler
    ensures assembler.Valid() && t.st == assembler.Now()
    ensures t == Feed(assembler.cfg, t0, c)
  {
    hide A.Fed, Laws.Valid, Laws.CallsDone, Outs;
    var events := assembler.Feed(c);
    t := Yield(t0.(seen := true), events, assembler.Now());
  }

  method FinishOne(assembler: Object.AnthropicStreamAssembler, t0: Turn, reason: Text) returns (t: Turn)
    requires assembler.Valid() && t0.st == assembler.Now()
    modifies assembler
    ensures t == Finish(assembler.cfg, t0, reason)
  {
    hide A.Finished, Laws.Valid, Laws.Delivery, Outs;
    var events := assembler.Finish(Some(reason));
    t := Yield(t0, events, assembler.Now());
  }

  method ReadLine(assembler: Object.AnthropicStreamAssembler, t0: Turn, ev: LineEvent<A.ToolDelta>) returns (t: Turn)
    requires assembler.Valid() && t0.st == assembler.Now()
    modifies assembler
    ensures assembler.Valid() && t.st == assembler.Now()
    ensures t == OnLine(assembler.cfg, t0, ev)
  {
    hide Feed, Laws.Valid;
    t := t0.(gone := t0.gone || ev.gone);
    match ev.line
    case Idle =>
      if !t.gone { t := Say(t, Ping); }
    case Chunk(content, reasoning, calls, finish) =>
      if content != [] || reasoning != [] || calls != [] {
        t := FeedOne(assembler, t, A.Chunk(content, reasoning, calls));
      }
      if finish != [] { t := t.(heldFinish := finish); }
    case _ =>
  }

  /** The lines of a stream, until `[DONE]`. */
  method ReadLines(assembler: Object.AnthropicStreamAssembler, t0: Turn, lines: seq<LineEvent<A.ToolDelta>>)
      returns (t: Turn)
    requires assembler.Valid() && t0.st == assembler.Now()
    modifies assembler
    ensures assembler.Valid() && t.st == assembler.Now()
    ensures t == AtDone(OnLines(assembler.cfg, t0, Live(lines)), lines)
  {
    hide OnLine, Laws.Valid;
    t := t0;
    var k := 0;
    while k < |lines|
      invariant 0 <= k <= |lines|
      invariant assembler.Valid() && t.st == assembler.Now()
      invariant Live(lines) == lines[..k] + Live(lines[k..])
      invariant t == OnLines(assembler.cfg, t0, lines[..k])
    {
      assert lines[k..][1..] == lines[k + 1..];
      if lines[k].line.DoneMark? {
        t := t.(gone := t.gone || lines[k].gone);
        assert Live(lines) == lines[..k];
        return;
      }
      assert lines[..k + 1][..k] == lines[..k];
      assert lines[..k] + ([lines[k]] + Live(lines[k + 1..])) == lines[..k + 1] + Live(lines[k + 1..]);
      t := ReadLine(assembler, t, lines[k]);
      k := k + 1;
    }
    assert Live(lines) == lines;
    assert lines[..k] == lines;
  }

  /** One account, with an assembler of its own. */
  method TryAccount(cfg: A.Config, a: Attempt<A.ToolDelta>, last: bool) returns (o: Outcome)
    ensures o == Tried(cfg, a, last)
  {
    hide Feed, Finish, A.Started, Laws.Valid, OnLines, AtDone, Outs, Strip, Live, EmptyBody, BodyReason, FinishReason;
    if a.NoConnection? {
      return if last then Fails(NEW) else Outcome(NEW, true);
    }
    if a.Status? {
      return if Retryable(a.code) && !last then Outcome(NEW, true) else Fails(NEW);
    }
    var assembler := new Object.AnthropicStreamAssembler(cfg);
    Object.NotStarted();
    var events := assembler.Start();
    var t := Yield(NEW, events, assembler.Now());
    var reason;
    match a {
      case Sse(lines, raises) =>
        t := ReadLines(assembler, t, lines);
        if (raises && !SeesDone(lines)) || !t.seen { return Fails(t); }
        reason := FinishReason(t);
      case RawBody(text) =>
        if Strip(text) == [] { return Fails(t); }
        t := FeedOne(assembler, t, A.Chunk(text, [], []));
        reason := T("stop");
      case JsonBody(content, reasoning, calls, _) =>
        if EmptyBody(a) { return Fails(t); }
        t := FeedOne(assembler, t, A.Chunk(content, reasoning, calls));
        reason := BodyReason(a);
      case BrokenBody => return Fails(t);
    }
    t := FinishOne(assembler, t, reason);
    o := Outcome(t, false);
  }

  /** `_stream_anthropic_with_failover_inner`. */
  method StreamAnthropicWithFailover(cfg: A.Config, chain: seq<Attempt<A.ToolDelta>>) returns (r: Run)
    ensures r == Streamed(cfg, chain, 0)
    ensures Sound(cfg, chain, 0, r)
    ensures chain != [] ==> FirstToStay(chain, 0, r)
  {
    hide Tried, Sound, FirstToStay;
    StreamedIsSound(cfg, chain, 0);
    if chain != [] { RunStopsAtFirst(cfg, chain, 0); }
    var frames: seq<Frame>, accounts: seq<nat>, i := [], [], 0;
    while i < |chain|
      invariant 0 <= i <= |chain|
      invariant var rest := Streamed(cfg, chain, i);
        Streamed(cfg, chain, 0) == Run(frames + rest.frames, accounts + rest.accounts, rest.tried)
    {
      var o := TryAccount(cfg, chain[i], i == |chain| - 1);
      var mine := Copies(i, |o.turn.out|);
      if !o.next {
        return Run(frames + o.turn.out, accounts + mine, i + 1);
      }
      ghost var rest := Streamed(cfg, chain, i + 1);
      assert frames + (o.turn.out + rest.frames) == frames + o.turn.out + rest.frames;
      assert accounts + (mine + rest.accounts) == accounts + mine + rest.accounts;
      frames, accounts, i := frames + o.turn.out, accounts + mine, i + 1;
    }
    r := Run(frames + [Error], accounts + [i], i);
  }
}
