/**
 The Anthropic event stream: events, content blocks, and what a client that keeps one active
 block makes of them.
 */
module Events {
  import opened Texts

  datatype Kind = TextBlock | ThinkingBlock | ToolUse(id: Text, name: Text)

  datatype DeltaKind = TextDelta | ThinkingDelta | InputJsonDelta

  datatype Stop = EndTurn | ToolUseStop | MaxTokens | Refusal | StopSequence

  datatype Event =
    | MessageStart
    | BlockStart(index: nat, kind: Kind)
    | Delta(index: nat, dk: DeltaKind, text: Text)
    | BlockStop(index: nat)
    | MessageDelta(stop: Stop)
    | MessageStop

  datatype Block = Block(kind: Kind, deltas: seq<Text>)

  function DeltaKindOf(k: Kind): DeltaKind {
    match k
    case TextBlock => TextDelta
    case ThinkingBlock => ThinkingDelta
    case ToolUse(_, _) => InputJsonDelta
  }

  // ---------- rendering ----------

  /** One delta event a piece, all on block `i`. */
  function Deltas(i: nat, dk: DeltaKind, ds: seq<Text>): seq<Event> {
    if ds == [] then [] else Deltas(i, dk, ds[..|ds| - 1]) + [Delta(i, dk, ds[|ds| - 1])]
  }

  lemma OneDelta(i: nat, dk: DeltaKind, d: Text)
    ensures Deltas(i, dk, [d]) == [Delta(i, dk, d)]
  {
    assert [d][..0] == [];
    assert Deltas(i, dk, [d]) == Deltas(i, dk, []) + [Delta(i, dk, d)];
  }

  function RenderDeltas(b: Block, i: nat): seq<Event> {
    Deltas(i, DeltaKindOf(b.kind), b.deltas)
  }

  /** Start and deltas of block number `i`, not yet stopped. */
  function RenderOpen(b: Option<Block>, i: nat): seq<Event> {
    match b
    case None => []
    case Some(b) => [BlockStart(i, b.kind)] + RenderDeltas(b, i)
  }

  /** Blocks 0, 1, ..., each as start, deltas on its own index, stop. */
  function Render(bs: seq<Block>): seq<Event> {
    if bs == [] then []
    else
      var i := |bs| - 1;
      Render(bs[..i]) + RenderOpen(Some(bs[i]), i) + [BlockStop(i)]
  }

  /** A whole message. */
  function Message(bs: seq<Block>, stop: Stop): seq<Event> {
    [MessageStart] + Render(bs) + [MessageDelta(stop), MessageStop]
  }

  /** A message that is still being sent: closed blocks, then perhaps one open block. */
  function Partial(bs: seq<Block>, open: Option<Block>): seq<Event> {
    [MessageStart] + Render(bs) + RenderOpen(open, |bs|)
  }

  lemma PartialDelta(bs: seq<Block>, b: Block, d: Text)
    ensures Partial(bs, Some(Block(b.kind, b.deltas + [d])))
         == Partial(bs, Some(b)) + [Delta(|bs|, DeltaKindOf(b.kind), d)]
  {
    var b' := Block(b.kind, b.deltas + [d]);
    assert b'.deltas[..|b.deltas|] == b.deltas;
    assert RenderDeltas(b', |bs|) == RenderDeltas(b, |bs|) + [Delta(|bs|, DeltaKindOf(b.kind), d)];
  }

  lemma PartialStop(bs: seq<Block>, b: Block)
    ensures Partial(bs + [b], None) == Partial(bs, Some(b)) + [BlockStop(|bs|)]
  {
    assert (bs + [b])[..|bs|] == bs;
  }

  // ---------- a client with one active block ----------

  datatype Client = Idle | Between(next: nat) | Inside(index: nat, dk: DeltaKind) | Ended | Closed | Broken

  /** The next state of a client; `Broken` is its "Content block not found". */
  function React(c: Client, e: Event): Client {
    match (c, e)
    case (Idle, MessageStart) => Between(0)
    case (Between(n), BlockStart(i, k)) => if i == n then Inside(i, DeltaKindOf(k)) else Broken
    case (Inside(n, dk), Delta(i, dk', _)) => if i == n && dk == dk' then c else Broken
    case (Inside(n, _), BlockStop(i)) => if i == n then Between(n + 1) else Broken
    case (Between(_), MessageDelta(_)) => Ended
    case (Ended, MessageStop) => Closed
    case _ => Broken
  }

  function ReactAll(c: Client, es: seq<Event>): Client {
    if es == [] then c else React(ReactAll(c, es[..|es| - 1]), es[|es| - 1])
  }

  lemma {:induction false} ReactConcat(c: Client, a: seq<Event>, b: seq<Event>)
    ensures ReactAll(c, a + b) == ReactAll(ReactAll(c, a), b)
  {
    if b == [] {
      assert a + b == a;
    } else {
      ReactConcat(c, a, b[..|b| - 1]);
      assert (a + b)[..|a + b| - 1] == a + b[..|b| - 1];
    }
  }

  lemma ReactSnoc(c: Client, es: seq<Event>, e: Event)
    ensures ReactAll(c, es + [e]) == React(ReactAll(c, es), e)
  {
    assert (es + [e])[..|es|] == es;
  }

  lemma {:induction false} ReactDeltas(i: nat, dk: DeltaKind, ds: seq<Text>)
    ensures ReactAll(Inside(i, dk), Deltas(i, dk, ds)) == Inside(i, dk)
  {
    if ds != [] {
      ReactDeltas(i, dk, ds[..|ds| - 1]);
      ReactSnoc(Inside(i, dk), Deltas(i, dk, ds[..|ds| - 1]), Delta(i, dk, ds[|ds| - 1]));
    }
  }

  lemma ReactOpen(b: Block, i: nat)
    ensures ReactAll(Between(i), RenderOpen(Some(b), i)) == Inside(i, DeltaKindOf(b.kind))
  {
    var ds := RenderDeltas(b, i);
    ReactConcat(Between(i), [BlockStart(i, b.kind)], ds);
    assert ReactAll(Between(i), [BlockStart(i, b.kind)]) == React(ReactAll(Between(i), []), BlockStart(i, b.kind));
    ReactDeltas(i, DeltaKindOf(b.kind), b.deltas);
  }

  lemma {:induction false} ReactRender(bs: seq<Block>)
    ensures ReactAll(Between(0), Render(bs)) == Between(|bs|)
  {
    if bs != [] {
      var i := |bs| - 1;
      ReactRender(bs[..i]);
      ReactOpen(bs[i], i);
      var a, o, z := Render(bs[..i]), RenderOpen(Some(bs[i]), i), [BlockStop(i)];
      ReactConcat(Between(0), a, o);
      ReactConcat(Between(0), a + o, z);
      var c := Inside(i, DeltaKindOf(bs[i].kind));
      assert z[..|z| - 1] == [];
      assert ReactAll(c, z) == React(ReactAll(c, []), z[0]);
    }
  }

  lemma ReactOne(c: Client, e: Event)
    ensures ReactAll(c, [e]) == React(c, e)
  {
    assert [e][..|[e]| - 1] == [];
    assert ReactAll(c, []) == c;
  }

  /** A client never breaks on a message that is still being sent. */
  lemma ClientAcceptsPartial(bs: seq<Block>, open: Option<Block>)
    ensures ReactAll(Idle, Partial(bs, open)) ==
      if open.Some? then Inside(|bs|, DeltaKindOf(open.value.kind)) else Between(|bs|)
  {
    hide ReactAll;
    ReactOne(Idle, MessageStart);
    ReactConcat(Idle, [MessageStart], Render(bs));
    ReactRender(bs);
    ReactConcat(Idle, [MessageStart] + Render(bs), RenderOpen(open, |bs|));
    if open.Some? { ReactOpen(open.value, |bs|); } else { ReactNone(Between(|bs|)); }
  }

  lemma ReactNone(c: Client)
    ensures ReactAll(c, []) == c
  {
  }

  /** A client never breaks on a whole message, and has closed it at the end. */
  lemma ClientAccepts(bs: seq<Block>, stop: Stop)
    ensures ReactAll(Idle, Message(bs, stop)) == Closed
  {
    hide ReactAll;
    var p := Partial(bs, None);
    ClientAcceptsPartial(bs, None);
    assert p == [MessageStart] + Render(bs);
    assert Message(bs, stop) == p + [MessageDelta(stop)] + [MessageStop];
    ReactConcat(Idle, p, [MessageDelta(stop)]);
    ReactOne(Between(|bs|), MessageDelta(stop));
    ReactConcat(Idle, p + [MessageDelta(stop)], [MessageStop]);
    ReactOne(Ended, MessageStop);
  }

  // ---------- what a stream says ----------

  /** A piece of visible output: reasoning or answer text. */
  datatype Fragment = Fragment(thinking: bool, text: Text)

  function FragmentOf(e: Event): seq<Fragment> {
    match e
    case Delta(_, TextDelta, t) => [Fragment(false, t)]
    case Delta(_, ThinkingDelta, t) => [Fragment(true, t)]
    case _ => []
  }

  /** The text and thinking deltas of a stream, in order. */
  function Spoken(es: seq<Event>): seq<Fragment> {
    if es == [] then [] else Spoken(es[..|es| - 1]) + FragmentOf(es[|es| - 1])
  }

  predicate IsToolStart(e: Event) { e.BlockStart? && e.kind.ToolUse? }

  /** How many tool_use blocks a stream opens. */
  function ToolStarts(es: seq<Event>): nat {
    if es == [] then 0
    else ToolStarts(es[..|es| - 1]) + (if IsToolStart(es[|es| - 1]) then 1 else 0)
  }

  lemma SpokenOne(a: seq<Event>, e: Event)
    ensures Spoken(a + [e]) == Spoken(a) + FragmentOf(e)
    ensures ToolStarts(a + [e]) == ToolStarts(a) + (if IsToolStart(e) then 1 else 0)
  {
    hide FragmentOf, IsToolStart;
    assert (a + [e])[..|a|] == a;
  }

  lemma SpokenNone()
    ensures Spoken([]) == [] && ToolStarts([]) == 0
  {
  }

  lemma {:induction false} SpokenConcat(a: seq<Event>, b: seq<Event>)
    ensures Spoken(a + b) == Spoken(a) + Spoken(b)
    ensures ToolStarts(a + b) == ToolStarts(a) + ToolStarts(b)
  {
    hide FragmentOf, IsToolStart, Spoken, ToolStarts;
    if b == [] {
      assert a + b == a;
      SpokenNone();
    } else {
      var h, l := b[..|b| - 1], b[|b| - 1];
      SpokenConcat(a, h);
      SpokenOne(a + h, l);
      SpokenOne(h, l);
      assert a + b == a + h + [l] && b == h + [l];
    }
  }
}
