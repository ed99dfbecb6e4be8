/**
 What the rewriting of reasoning amounts to over a whole answer (app.py, `_ReasoningCompatState`):
 the same as writing down everything that was thought and said in one go, however it was cut.
 */
module ReasoningCompat {
  import opened Texts
  import opened Events
  import opened FailoverOpenAi

  /** The text and reasoning of one chunk. */
  datatype Cut = Cut(content: Text, reasoning: Text)

  /** What was thought and said in one chunk: thoughts come first. */
  function Added(c: Cut): seq<Fragment> {
    (if c.reasoning != [] then [Fragment(true, c.reasoning)] else [])
    + (if c.content != [] then [Fragment(false, c.content)] else [])
  }

  function FragmentsOf(cuts: seq<Cut>): seq<Fragment> {
    if cuts == [] then [] else FragmentsOf(cuts[..|cuts| - 1]) + Added(cuts[|cuts| - 1])
  }

  /** The rewriting, chunk by chunk. */
  function RewriteAll(mode: Mode, cuts: seq<Cut>): Rewritten {
    if cuts == [] then Rewritten([], [], false)
    else
      var was, c := RewriteAll(mode, cuts[..|cuts| - 1]), cuts[|cuts| - 1];
      var r := Rewrite(mode, was.open, c.content, c.reasoning);
      Rewritten(was.content + r.content, was.reasoning + r.reasoning, r.open)
  }

  predicate Thinking(fs: seq<Fragment>) { fs != [] && fs[|fs| - 1].thinking }

  /** Every stretch of thought between tags of its own; the last one is still open. */
  function Tagged(fs: seq<Fragment>): Text {
    if fs == [] then []
    else
      var front, f := fs[..|fs| - 1], fs[|fs| - 1];
      Tagged(front)
      + (if f.thinking && !Thinking(front) then THINK_OPEN
         else if !f.thinking && Thinking(front) then THINK_CLOSE else [])
      + f.text
  }

  /** The texts of some fragments, those that are thought or those that are said. */
  function TextOf(fs: seq<Fragment>, thinking: bool): Text {
    if fs == [] then []
    else
      var f := fs[|fs| - 1];
      TextOf(fs[..|fs| - 1], thinking) + (if f.thinking == thinking then f.text else [])
  }

  /** All texts. */
  function Everything(fs: seq<Fragment>): Text {
    if fs == [] then [] else Everything(fs[..|fs| - 1]) + fs[|fs| - 1].text
  }

  lemma OneMore(fs: seq<Fragment>, f: Fragment)
    ensures Tagged(fs + [f]) ==
      Tagged(fs) + (if f.thinking && !Thinking(fs) then THINK_OPEN
                    else if !f.thinking && Thinking(fs) then THINK_CLOSE else []) + f.text
    ensures TextOf(fs + [f], true) == TextOf(fs, true) + (if f.thinking then f.text else [])
    ensures TextOf(fs + [f], false) == TextOf(fs, false) + (if f.thinking then [] else f.text)
    ensures Everything(fs + [f]) == Everything(fs) + f.text
    ensures Thinking(fs + [f]) == f.thinking
  {
    assert (fs + [f])[..|fs|] == fs;
  }

  /**
   What a client should have: in think-tag mode everything as text, each stretch of thought between
   tags; with reasoning as plain content, everything as one text; otherwise thoughts and text apart.
   */
  predicate Right(mode: Mode, r: Rewritten, fs: seq<Fragment>) {
    match mode
    case ThinkTag => r.content == Tagged(fs) && r.reasoning == [] && r.open == Thinking(fs)
    case PlainContent => r.content == Everything(fs) && r.reasoning == [] && !r.open
    case Off => r.content == TextOf(fs, false) && r.reasoning == TextOf(fs, true) && !r.open
  }

  lemma AddedIs(fs: seq<Fragment>, c: Cut)
    ensures var t, s := Fragment(true, c.reasoning), Fragment(false, c.content);
      fs + Added(c) ==
        if c.reasoning == [] then (if c.content == [] then fs else fs + [s])
        else if c.content == [] then fs + [t] else fs + [t] + [s]
  {
  }

  lemma Step(mode: Mode, r: Rewritten, fs: seq<Fragment>, c: Cut)
    requires Right(mode, r, fs)
    ensures var x := Rewrite(mode, r.open, c.content, c.reasoning);
      Right(mode, Rewritten(r.content + x.content, r.reasoning + x.reasoning, x.open), fs + Added(c))
  {
    hide Tagged, Thinking, Everything, TextOf, THINK_OPEN, THINK_CLOSE, Added;
    AddedIs(fs, c);
    OneMore(fs, Fragment(true, c.reasoning));
    OneMore(fs, Fragment(false, c.content));
    OneMore(fs + [Fragment(true, c.reasoning)], Fragment(false, c.content));
    match mode
    case ThinkTag => StepIs(r.content, r.open, c);
    case PlainContent => assert r.content + (c.reasoning + c.content) == r.content + c.reasoning + c.content;
    case Off =>
  }

  lemma StepIs(t: Text, open: bool, c: Cut)
    ensures var r := Rewrite(ThinkTag, open, c.content, c.reasoning);
      var tag := if open then [] else THINK_OPEN;
      && r.reasoning == [] && r.open == (c.content == [] && (open || c.reasoning != []))
      && t + r.content ==
           if c.reasoning == [] then (if c.content == [] then t else t + (if open then THINK_CLOSE else []) + c.content)
           else if c.content == [] then t + tag + c.reasoning
           else t + tag + c.reasoning + THINK_CLOSE + c.content
  {
    hide THINK_OPEN, THINK_CLOSE;
    var tag := if open then [] else THINK_OPEN;
    assert t + [] == t;
    assert t + (tag + c.reasoning) == t + tag + c.reasoning;
    assert t + (tag + c.reasoning + THINK_CLOSE + c.content) == t + tag + c.reasoning + THINK_CLOSE + c.content;
    assert t + ([] + (if open then THINK_CLOSE else []) + c.content)
        == t + (if open then THINK_CLOSE else []) + c.content;
  }

  /**
   However an answer is cut into chunks, the client has what it should after each, and the closing
   tag closes the last thought.
   */
  lemma {:induction false} RewritingIsRight(mode: Mode, cuts: seq<Cut>)
    ensures Right(mode, RewriteAll(mode, cuts), FragmentsOf(cuts))
    ensures CloseTag(mode, RewriteAll(mode, cuts).open)
            == if mode == ThinkTag && Thinking(FragmentsOf(cuts)) then THINK_CLOSE else []
  {
    hide Rewrite, Tagged, TextOf, Everything, Added, THINK_CLOSE, THINK_OPEN;
    if cuts == [] {
      NothingIsRight(mode);
    } else {
      var h, c := cuts[..|cuts| - 1], cuts[|cuts| - 1];
      RewritingIsRight(mode, h);
      Step(mode, RewriteAll(mode, h), FragmentsOf(h), c);
      assert FragmentsOf(cuts) == FragmentsOf(h) + Added(c);
    }
  }

  lemma NothingIsRight(mode: Mode)
    ensures Right(mode, Rewritten([], [], false), [])
  {
  }
}
