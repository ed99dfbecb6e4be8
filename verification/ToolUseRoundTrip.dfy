/**
 Tool use across the two APIs (anthropic_compat.py): an assistant message of content blocks becomes
 an OpenAI message with tool calls, and tool calls become content blocks again.
 */
module ToolUseRoundTrip {
  import opened Texts
  import opened Json
  import opened JsonLaws
  import JsonCanon
  import ToolArgs
  import AssemblerDelivery

  const LF: Text := [0x0A]
  const EMPTY: Json := Obj([])
  const VALUE: Text := T("value")
  const RAW: Text := T("_raw")

  /** A block of an assistant message.  Missing text is empty, a missing input is `Null`. */
  datatype Block =
    | ToolUse(id: Text, name: Text, input: Json)
    | TextBlock(text: Text)       // a text block or a bare string
    | Thinking(thinking: Text)
    | Ignored                     // any other block

  datatype Call = Call(id: Text, name: Text, args: Text)

  /** An OpenAI assistant message; `None` is a missing or null field. */
  datatype Message = Message(content: Option<Text>, reasoning: Option<Text>, calls: seq<Call>)

  /** The `n`-th generated id. */
  type Ids = nat -> Text

  // ---------- to OpenAI ----------

  function ArgsOf(input: Json): Text {
    match input
    case Str(s) => s
    case Null => Dumps(EMPTY, true)
    case _ => Dumps(input, true)
  }

  function Calls(ids: Ids, blocks: seq<Block>): seq<Call> {
    if blocks == [] then []
    else
      var front, b := Calls(ids, blocks[..|blocks| - 1]), blocks[|blocks| - 1];
      if b.ToolUse? then front + [Call(if b.id != [] then b.id else ids(|front|), b.name, ArgsOf(b.input))] else front
  }

  function TextsOf(blocks: seq<Block>): seq<Text> {
    if blocks == [] then []
    else
      var b := blocks[|blocks| - 1];
      TextsOf(blocks[..|blocks| - 1]) + (if b.TextBlock? then [b.text] else [])
  }

  function ThoughtsOf(blocks: seq<Block>): seq<Text> {
    if blocks == [] then []
    else
      var b := blocks[|blocks| - 1];
      ThoughtsOf(blocks[..|blocks| - 1]) + (if b.Thinking? then [b.thinking] else [])
  }

  /** `"\n".join(parts)`. */
  function Join(parts: seq<Text>): Text {
    if parts == [] then [] else if |parts| == 1 then parts[0]
    else Join(parts[..|parts| - 1]) + LF + parts[|parts| - 1]
  }

  function NonEmpty(parts: seq<Text>): seq<Text> {
    if parts == [] then []
    else NonEmpty(parts[..|parts| - 1]) + (if parts[|parts| - 1] != [] then [parts[|parts| - 1]] else [])
  }

  /** The assistant branch of `anthropic_messages_to_openai`, for a list of blocks. */
  function ToOpenAi(ids: Ids, blocks: seq<Block>): Message {
    var joined, calls, thoughts := Join(NonEmpty(TextsOf(blocks))), Calls(ids, blocks), ThoughtsOf(blocks);
    Message(if calls != [] && joined == [] then None else Some(joined),
            if thoughts == [] then None else Some(Join(thoughts)), calls)
  }

  // ---------- and back ----------

  /** `_parse_tool_arguments` on a string. */
  function ParseArgs(raw: Text): Json {
    var cleaned := ToolArgs.Sanitize(raw);
    if cleaned == [] then EMPTY
    else
      match Loads(cleaned)
      case None => Obj([Member(RAW, Str(raw))])
      case Some(v) => if v.Obj? then v else Obj([Member(VALUE, v)])
  }

  function BlockOf(c: Call, newId: Text): Block {
    ToolUse(if c.id != [] then c.id else newId, c.name, ParseArgs(c.args))
  }

  /** `openai_tool_calls_to_content_blocks`. */
  function ToBlocks(ids: Ids, calls: seq<Call>): seq<Block> {
    if calls == [] then []
    else ToBlocks(ids, calls[..|calls| - 1]) + [BlockOf(calls[|calls| - 1], ids(|calls| - 1))]
  }

  // ---------- the round trip ----------

  function ToolUses(blocks: seq<Block>): seq<Block> {
    if blocks == [] then []
    else
      var b := blocks[|blocks| - 1];
      ToolUses(blocks[..|blocks| - 1]) + (if b.ToolUse? then [b] else [])
  }

  /** An object comes back from its printed text. */
  lemma ObjectComesBack(v: Json)
    requires Wf(v) && v.Obj?
    ensures ParseArgs(Dumps(v, true)) == v
  {
    hide Dumps, ToolArgs.Sanitize, Loads;
    var t := Dumps(v, true);
    JsonCanon.DumpsLoads(v, true);
    JsonCanon.DumpsContainer(v, true);
    assert ContainerText(t);
    OneCopy(t);
  }

  lemma OneCopy(t: Text)
    requires ContainerText(t)
    ensures ToolArgs.Sanitize(t) == t && t != []
  {
    hide ToolArgs.Sanitize;
    ToolArgs.SanitizePrefix(t, t);
  }

  /** What comes back is always an object. */
  lemma ParsedIsObject(raw: Text)
    ensures ParseArgs(raw).Obj?
  {
    hide ToolArgs.Sanitize, Loads;
  }

  /** An input comes back as it was exactly when it is an object. */
  lemma InputComesBack(input: Json)
    requires Wf(input)
    ensures ParseArgs(ArgsOf(input)) == input <==> input.Obj?
  {
    hide Dumps, ParseArgs;
    if input.Obj? { ObjectComesBack(input); }
    ParsedIsObject(ArgsOf(input));
  }

  /** An array, for one, comes back inside an object. */
  lemma ArrayComesBackWrapped(items: seq<Json>)
    requires Wf(Arr(items))
    ensures ParseArgs(ArgsOf(Arr(items))) == Obj([Member(VALUE, Arr(items))])
  {
    hide Dumps, ToolArgs.Sanitize, Loads;
    var t := Dumps(Arr(items), true);
    JsonCanon.DumpsLoads(Arr(items), true);
    JsonCanon.DumpsContainer(Arr(items), true);
    OneCopy(t);
  }

  /** So does any other value that is not text, and a missing input comes back as an empty object. */
  lemma ScalarComesBackWrapped(input: Json)
    requires Wf(input) && !input.Obj? && !input.Str?
    ensures ParseArgs(ArgsOf(input)) == if input.Null? then EMPTY else Obj([Member(VALUE, input)])
  {
    hide Dumps, Loads;
    var v := if input.Null? then EMPTY else input;
    JsonCanon.DumpsLoads(v, true);
    NothingReads();
  }

  lemma NothingReads()
    ensures Loads([]) == None
  {
  }

  /** Text comes back as the object it is, as any other value wrapped, or raw if it is none, not even repeated. */
  lemma TextComesBack(s: Text)
    ensures var r := ParseArgs(ArgsOf(Str(s)));
      && (s == [] ==> r == EMPTY)
      && (Loads(s).Some? ==> r == if Loads(s).value.Obj? then Loads(s).value else Obj([Member(VALUE, Loads(s).value)]))
      && (s != [] && Loads(ToolArgs.Sanitize(s)).None? ==> r == Obj([Member(RAW, Str(s))]))
  {
    hide Loads, ToolArgs.ValueEnds;
    NothingReads();
    if Strip(s) != [] { AssemblerDelivery.SanitizeNotBlank(s); } else { BlankStays(s); }
  }

  lemma BlankStays(s: Text)
    requires Strip(s) == []
    ensures ToolArgs.Sanitize(s) == s
  {
    hide Loads, ParseAt;
    StripIsTrimmed(s);
    SkipsAll(s, 0);
  }

  lemma {:induction false} SkipsAll(s: Text, i: nat)
    requires i <= |s| && forall k :: 0 <= k < |s| ==> IsSpace(s[k])
    ensures ToolArgs.SkipSpace(s, i) == |s|
    decreases |s| - i
  {
    if i < |s| { SkipsAll(s, i + 1); }
  }

  /** Which tool uses survive the round trip. */
  predicate Survives(b: Block) { b.ToolUse? ==> b.id != [] && b.input.Obj? }

  ghost predicate WellFormed(b: Block) { b.ToolUse? ==> Wf(b.input) }

  lemma BlockComesBack(ids: Ids, newIds: Ids, front: seq<Block>, b: Block)
    requires b.ToolUse? && Wf(b.input) && forall k :: ids(k) != []
    ensures var cs := Calls(ids, front + [b]);
      && |cs| == |Calls(ids, front)| + 1 && cs[..|cs| - 1] == Calls(ids, front)
      && (BlockOf(cs[|cs| - 1], newIds(|cs| - 1)) == b <==> Survives(b))
  {
    hide ArgsOf, ParseArgs;
    assert (front + [b])[..|front|] == front;
    InputComesBack(b.input);
  }

  /**
   The tool uses of an assistant message, sent to OpenAI form and back, are the same ids, names and
   inputs in the same order exactly when every one has an id and an object for its input, whatever
   text and thinking stand between them.
   */
  lemma {:induction false} ToolUseRoundTrips(ids: Ids, newIds: Ids, blocks: seq<Block>)
    requires (forall k :: ids(k) != []) && forall b :: b in blocks ==> WellFormed(b)
    ensures |ToBlocks(newIds, ToOpenAi(ids, blocks).calls)| == |ToolUses(blocks)|
    ensures ToBlocks(newIds, ToOpenAi(ids, blocks).calls) == ToolUses(blocks)
            <==> forall b :: b in blocks ==> Survives(b)
  {
    hide BlockOf, Survives;
    if blocks != [] {
      var front, b := blocks[..|blocks| - 1], blocks[|blocks| - 1];
      assert blocks == front + [b];
      ToolUseRoundTrips(ids, newIds, front);
      var cs := Calls(ids, blocks);
      if b.ToolUse? {
        assert WellFormed(b);
        BlockComesBack(ids, newIds, front, b);
        var r, u := ToBlocks(newIds, cs), ToolUses(blocks);
        assert r == ToBlocks(newIds, cs[..|cs| - 1]) + [BlockOf(cs[|cs| - 1], newIds(|cs| - 1))];
        assert r[..|r| - 1] == ToBlocks(newIds, Calls(ids, front)) && u[..|u| - 1] == ToolUses(front);
        assert r == u <==> r[..|r| - 1] == u[..|u| - 1] && r[|r| - 1] == u[|u| - 1];
      } else {
        OthersSurvive(b);
      }
    }
  }

  lemma OthersSurvive(b: Block)
    requires !b.ToolUse?
    ensures Survives(b)
  {
  }

  // ---------- the loops ----------

  /** The assistant branch of `anthropic_messages_to_openai`. */
  method MessageToOpenAi(ids: Ids, blocks: seq<Block>) returns (m: Message)
    ensures m == ToOpenAi(ids, blocks)
  {
    hide ArgsOf;
    var textParts: seq<Text>, toolCalls: seq<Call>, thinkingParts: seq<Text> := [], [], [];
    var i := 0;
    while i < |blocks|
      invariant 0 <= i <= |blocks|
      invariant textParts == TextsOf(blocks[..i]) && thinkingParts == ThoughtsOf(blocks[..i])
      invariant toolCalls == Calls(ids, blocks[..i])
    {
      assert blocks[..i + 1][..i] == blocks[..i];
      match blocks[i] {
        case ToolUse(id, name, input) =>
          toolCalls := toolCalls + [Call(if id != [] then id else ids(|toolCalls|), name, ArgsOf(input))];
        case TextBlock(text) => textParts := textParts + [text];
        case Thinking(thinking) => thinkingParts := thinkingParts + [thinking];
        case Ignored =>
      }
      i := i + 1;
    }
    assert blocks[..i] == blocks;
    var joined := Join(NonEmpty(textParts));
    m := Message(Some(joined), if thinkingParts == [] then None else Some(Join(thinkingParts)), toolCalls);
    if toolCalls != [] && joined == [] { m := m.(content := None); }
  }

  /** `openai_tool_calls_to_content_blocks`. */
  method CallsToBlocks(ids: Ids, calls: seq<Call>) returns (blocks: seq<Block>)
    ensures blocks == ToBlocks(ids, calls)
  {
    hide BlockOf;
    blocks := [];
    var i := 0;
    while i < |calls|
      invariant 0 <= i <= |calls|
      invariant blocks == ToBlocks(ids, calls[..i])
    {
      assert calls[..i + 1][..i] == calls[..i];
      blocks := blocks + [BlockOf(calls[i], ids(i))];
      i := i + 1;
    }
    assert calls[..i] == calls;
  }

  /** There and back: the tool uses that have ids and object inputs are all still there. */
  method ThereAndBack(ids: Ids, newIds: Ids, blocks: seq<Block>) returns (back: seq<Block>)
    requires (forall k :: ids(k) != []) && forall b :: b in blocks ==> WellFormed(b)
    ensures |back| == |ToolUses(blocks)|
    ensures back == ToolUses(blocks) <==> forall b :: b in blocks ==> Survives(b)
  {
    hide Survives, WellFormed, ToOpenAi;
    ToolUseRoundTrips(ids, newIds, blocks);
    var m := MessageToOpenAi(ids, blocks);
    back := CallsToBlocks(newIds, m.calls);
  }
}
