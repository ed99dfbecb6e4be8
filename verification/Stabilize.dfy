/**
 Stable history messages for the upstream prompt cache (app.py, `_stabilize_message_for_cache` and
 what it calls), on arbitrary JSON values.
 */
module Stabilize {
  import opened Texts
  import opened Json
  import opened JsonCanon

  const ROLE: Text := T("role")
  const NAME: Text := T("name")
  const CALL_ID: Text := T("tool_call_id")
  const CALLS: Text := T("tool_calls")
  const FUNCTION_CALL: Text := T("function_call")
  const CONTENT: Text := T("content")
  const REASONING: Text := T("reasoning_content")
  const ID: Text := T("id")
  const TYPE: Text := T("type")
  const FUNCTION: Text := T("function")
  const ARGUMENTS: Text := T("arguments")
  const TEXT: Text := T("text")
  const EMPTY_OBJECT: Text := [LBRACE, RBRACE]
  const CR: Code := 0x0D
  const LF: Code := 0x0A

  /** Python's `str` on values that are not strings. */
  type Printer = Json -> Text

  /** `str` never prints a number or a boolean like an object or a list. */
  ghost predicate PrintsScalars(p: Printer) {
    forall v: Json :: !v.Str? && !IsContainer(v) ==> CanonicalText(Quoted(p(v))).None?
  }

  // ---------- Python's view of a value ----------

  predicate IsZero(lexeme: Text) {
    lexeme == [] || lexeme[0] in {0x65, 0x45} || (!(0x31 <= lexeme[0] <= 0x39) && IsZero(lexeme[1..]))
  }

  predicate Truthy(v: Json) {
    match v
    case Null => false
    case Bool(b) => b
    case Num(l) => l != NAN && l != INFINITY && l != MINUS_INFINITY ==> !IsZero(l)
    case Str(s) => s != []
    case Arr(items) => items != []
    case Obj(ms) => ms != []
  }

  /** `d.get(k)`, with a missing key and `None` alike. */
  function Get(ms: seq<Member>, k: Text): Json {
    var v := Find(ms, k);
    if v.Some? then v.value else Null
  }

  /** A member, unless there is nothing to put in. */
  function Field(k: Text, v: Option<Json>): seq<Member> {
    if v.Some? then [Member(k, v.value)] else []
  }

  /** The members that do not have one of some keys. */
  function Except(ms: seq<Member>, ks: set<Text>): seq<Member> {
    if ms == [] then []
    else if ms[0].key in ks then Except(ms[1..], ks) else [ms[0]] + Except(ms[1..], ks)
  }

  // ---------- tool calls ----------

  function RawOf(v: Json): Raw {
    match v
    case Null => Missing
    case Str(s) => Quoted(s)
    case _ => Parsed(v)
  }

  /** Stable arguments: canonical text of an object or array, other strings as they are. */
  function StableArgs(p: Printer, v: Json): Text {
    match CanonicalText(RawOf(v))
    case Some(t) => t
    case None => if v.Null? then EMPTY_OBJECT else if v.Str? then v.s else p(v)
  }

  function StableFunction(p: Printer, fn: seq<Member>): seq<Member> {
    Put(fn, Member(ARGUMENTS, Str(StableArgs(p, Get(fn, ARGUMENTS)))))
  }

  function DroppedKeys(): set<Text> { {T("index"), T("extra_content"), T("thought_signature")} }

  /** A tool call with its upstream extras dropped and its arguments stable. */
  function CleanCall(p: Printer, ms: seq<Member>): seq<Member> {
    var item := Except(ms, DroppedKeys());
    if Get(item, FUNCTION).Obj? then Put(item, Member(FUNCTION, Obj(StableFunction(p, Get(item, FUNCTION).members))))
    else item
  }

  /** id, type and function first, then the rest in order. */
  function OrderedCall(item: seq<Member>): seq<Member> {
    var id, ty := Get(item, ID), Get(item, TYPE);
    var head := Field(ID, if id.Null? then None else Some(id))
                + [Member(TYPE, if Truthy(ty) then ty else Str(FUNCTION))]
                + Field(FUNCTION, Find(item, FUNCTION));
    head + Except(item, if id.Null? then {TYPE, FUNCTION} else {ID, TYPE, FUNCTION})
  }

  function StableCall(p: Printer, raw: Json): Json {
    if raw.Obj? then Obj(OrderedCall(CleanCall(p, raw.members))) else raw
  }

  /** `_stabilize_tool_calls` on a list. */
  function StableCalls(p: Printer, calls: seq<Json>): seq<Json> {
    if calls == [] then [] else [StableCall(p, calls[0])] + StableCalls(p, calls[1..])
  }

  // ---------- content ----------

  /** `text.replace("\r\n", "\n").replace("\r", "\n")`. */
  function UnixLines(s: Text): Text {
    if s == [] then []
    else if s[0] == CR then [LF] + UnixLines(if |s| > 1 && s[1] == LF then s[2..] else s[1..])
    else [s[0]] + UnixLines(s[1..])
  }

  /** `_stabilize_text_content`. */
  function StableText(s: Text, role: Text): Text {
    if role != T("system") then s
    else
      var n := UnixLines(s);
      var r := RStrip(n);
      if n != [] && n[|n| - 1] == LF && r != [] then r + [LF] else r
  }

  /** `str(v or "")`. */
  function Shown(p: Printer, v: Json): Text {
    if !Truthy(v) then [] else if v.Str? then v.s else p(v)
  }

  function Lower(s: Text): Text {
    if s == [] then [] else [if 0x41 <= s[0] <= 0x5A then s[0] + 0x20 else s[0]] + Lower(s[1..])
  }

  function TextPart(s: Text): Json { Obj([Member(TYPE, Str(TEXT)), Member(TEXT, Str(s))]) }

  predicate TextType(t: Text) { t in {TEXT, T("input_text"), T("output_text")} }

  /** What one element of a content list becomes.  `None` is the error of a type that is not a string. */
  function StablePart(p: Printer, part: Json): Option<seq<Json>> {
    match part
    case Str(s) => Some(if s == [] then [] else [TextPart(s)])
    case Obj(ms) =>
      var ty := Get(ms, TYPE);
      if Truthy(ty) && !ty.Str? then None
      else if TextType(Lower(if Truthy(ty) then ty.s else TEXT)) then
        Some(if Get(ms, TEXT).Null? then [] else [TextPart(Shown(p, Get(ms, TEXT)))])
      else Some([part])
    case _ => Some([part])
  }

  function StableParts(p: Printer, parts: seq<Json>): Option<seq<Json>> {
    if parts == [] then Some([])
    else
      var a, b := StablePart(p, parts[0]), StableParts(p, parts[1..]);
      if a.None? || b.None? then None else Some(a.value + b.value)
  }

  predicate IsText(part: Json) { part.Obj? && Get(part.members, TYPE) == Str(TEXT) }

  predicate AllText(parts: seq<Json>) { forall x :: x in parts ==> IsText(x) }

  function JoinedTexts(p: Printer, parts: seq<Json>): Text {
    if parts == [] then []
    else
      var t := if parts[0].Obj? then Shown(p, Get(parts[0].members, TEXT)) else [];
      if |parts| == 1 then t else t + [LF] + JoinedTexts(p, parts[1..])
  }

  function StableContent(p: Printer, role: Text, content: Json, calling: bool): Option<Json> {
    match content
    case Null => Some(if calling then Null else Str([]))
    case Str(s) => Some(Str(StableText(s, role)))
    case Arr(items) =>
      (match StableParts(p, items)
       case None => None
       case Some(parts) =>
         Some(if parts == [] then Str([])
              else if AllText(parts) then Str(StableText(JoinedTexts(p, parts), role))
              else Arr(parts)))
    case Obj(ms) =>
      if Get(ms, TYPE) in {Str(TEXT), Str(T("input_text"))} && HasKey(ms, TEXT) then
        Some(Str(StableText(Shown(p, Get(ms, TEXT)), role)))
      else
        var t := CanonicalText(Parsed(content));
        Some(if t.Some? then Str(t.value) else content)
    case _ => Some(content)
  }

  // ---------- the message ----------

  datatype Fields = Fields(
    role: Text, name: Option<Json>, callId: Option<Json>, calls: Option<Json>, functionCall: Option<Json>,
    content: Json, reasoning: Option<Json>)

  function Build(f: Fields): Json {
    Obj([Member(ROLE, Str(f.role))] + Field(NAME, f.name) + Field(CALL_ID, f.callId) + Field(CALLS, f.calls)
        + Field(FUNCTION_CALL, f.functionCall) + [Member(CONTENT, f.content)] + Field(REASONING, f.reasoning))
  }

  /** A value that is neither `None` nor empty text. */
  function Given(v: Json): Option<Json> {
    if v.Null? || v == Str([]) then None else Some(v)
  }

  function StableRole(v: Json): Text
    requires v.Str? || !Truthy(v)
  {
    var r := if v.Str? then Strip(v.s) else [];
    if r == [] then T("user") else r
  }

  function CallsField(p: Printer, v: Json): Option<Json> {
    if v.Arr? && v.items != [] then Some(Arr(StableCalls(p, v.items))) else None
  }

  function FunctionCallField(p: Printer, v: Json): Option<Json> {
    if v.Obj? && Truthy(Get(v.members, NAME)) then
      Some(Obj([Member(NAME, Get(v.members, NAME)), Member(ARGUMENTS, Str(StableArgs(p, Get(v.members, ARGUMENTS))))]))
    else None
  }

  function ReasoningField(v: Json): Option<Json> {
    if v.Str? && Strip(v.s) != [] then Some(v) else None
  }

  /** The fields of a stable message, or `None` where the source raises. */
  function StableFields(p: Printer, ms: seq<Member>): Option<Fields> {
    var role := Get(ms, ROLE);
    if Truthy(role) && !role.Str? then None
    else
      var calls, fc := CallsField(p, Get(ms, CALLS)), FunctionCallField(p, Get(ms, FUNCTION_CALL));
      match StableContent(p, StableRole(role), Get(ms, CONTENT), calls.Some? || fc.Some?)
      case None => None
      case Some(content) =>
        Some(Fields(StableRole(role), Given(Get(ms, NAME)), Given(Get(ms, CALL_ID)), calls, fc, content,
                    ReasoningField(Get(ms, REASONING))))
  }

  /** `_stabilize_message_for_cache`. */
  function Stable(p: Printer, m: Json): Option<Json> {
    if !m.Obj? then Some(m)
    else
      match StableFields(p, m.members)
      case None => None
      case Some(f) => Some(Build(f))
  }
}
