/**
 What a history message says, apart from its form, and that making it stable keeps exactly this: two
 messages get the same stable form if and only if they say the same.
 */
module StabilizeMeaning {
  import opened Texts
  import opened Json
  import opened JsonCanon
  import opened Stabilize
  import opened StabilizeLaws

  // ---------- arguments ----------

  /** Arguments are an object or array, whatever the order of its keys, or a text. */
  datatype Args = Value(v: Val) | Literal(s: Text)

  /** Missing arguments are an empty object, and a text is what it parses to, if that is an object or array. */
  function ReadArgs(p: Printer, v: Json): Args {
    match v
    case Null => Value(VObj(map[]))
    case Str(s) =>
      (match Loads(Strip(s))
       case Some(w) => if IsContainer(w) then Value(Meaning(w)) else Literal(s)
       case None => Literal(s))
    case Arr(_) => Value(Meaning(v))
    case Obj(_) => Value(Meaning(v))
    case _ => Literal(p(v))
  }

  /** Arguments that are a value: their stable form is its canonical text. */
  lemma ArgsOfValue(p: Printer, v: Json) returns (w: Json)
    requires Wf(v) && ReadArgs(p, v).Value?
    ensures Wf(w) && IsContainer(w) && ReadArgs(p, v) == Value(Meaning(w)) && StableArgs(p, v) == Dumps(Canon(w), false)
  {
    hide Loads, Canon, Dumps;
    match v
    case Null =>
      w := Obj([]);
      EmptyObjectText();
    case Str(s) =>
      w := Loads(Strip(s)).value;
      StripIsTrimmed(s);
      ContainerStarts(Strip(s));
      LoadsWf(Strip(s));
    case _ => w := v;
  }

  lemma EmptyObjectText()
    ensures Dumps(Canon(Obj([])), false) == EMPTY_OBJECT && Meaning(Obj([])) == VObj(map[])
    ensures CanonicalText(Missing).None?
  {
    assert CanonMembers([]) == [];
  }

  /** Arguments that are a text stay as they are. */
  lemma ArgsOfLiteral(p: Printer, v: Json)
    requires ReadArgs(p, v).Literal?
    ensures StableArgs(p, v) == ReadArgs(p, v).s
    ensures v.Str? || (!IsContainer(v) && !v.Null?)
  {
    hide Loads, Canon, Dumps;
  }

  /** Stable arguments say what the arguments say. */
  lemma ArgsKept(p: Printer, v: Json)
    requires PrintsScalars(p) && Wf(v)
    ensures ReadArgs(p, Str(StableArgs(p, v))) == ReadArgs(p, v)
  {
    hide Loads, Canon, Dumps, Strip, Meaning;
    if ReadArgs(p, v).Value? {
      var w := ArgsOfValue(p, v);
      CanonIsCanon(w);
      CanonContainer(w);
      DumpsLoads(Canon(w), false);
      DumpsContainer(Canon(w), false);
      TrimmedStrip(Dumps(Canon(w), false));
    } else {
      ArgsOfLiteral(p, v);
      if !v.Str? { PrintedIsLiteral(p, v); }
    }
  }

  lemma CanonContainer(w: Json)
    requires Wf(w)
    ensures IsContainer(Canon(w)) == IsContainer(w) && Meaning(Canon(w)) == Meaning(w)
  {
    CanonIsCanon(w);
  }

  lemma PrintedIsLiteral(p: Printer, v: Json)
    requires PrintsScalars(p) && !v.Str? && !IsContainer(v)
    ensures ReadArgs(p, Str(p(v))) == Literal(p(v))
  {
    hide Loads, Canon, Dumps;
    var s := p(v);
    assert CanonicalText(Quoted(s)).None?;
    StripIsTrimmed(s);
    if Loads(Strip(s)).Some? && IsContainer(Loads(Strip(s)).value) { ContainerStarts(Strip(s)); }
  }

  /** Two arguments have the same stable form if and only if they say the same. */
  lemma ArgsDecide(p: Printer, a: Json, b: Json)
    requires PrintsScalars(p) && Wf(a) && Wf(b)
    ensures StableArgs(p, a) == StableArgs(p, b) <==> ReadArgs(p, a) == ReadArgs(p, b)
  {
    hide StableArgs, ReadArgs, Canon, Dumps, PrintsScalars;
    ArgsKept(p, a);
    ArgsKept(p, b);
    if ReadArgs(p, a) == ReadArgs(p, b) {
      if ReadArgs(p, a).Value? {
        var v := ArgsOfValue(p, a);
        var w := ArgsOfValue(p, b);
        CanonIsNormalForm(v, w);
      } else {
        ArgsOfLiteral(p, a);
        ArgsOfLiteral(p, b);
      }
    }
  }

  // ---------- functions ----------

  /** The members of a dict before and after a key. */
  function Before(ms: seq<Member>, k: Text): seq<Member> {
    if ms == [] || ms[0].key == k then [] else [ms[0]] + Before(ms[1..], k)
  }

  function After(ms: seq<Member>, k: Text): seq<Member> {
    if ms == [] then [] else if ms[0].key == k then ms[1..] else After(ms[1..], k)
  }

  /** A function says its arguments, and its other members as they stand before and after them. */
  datatype Fn = Fn(front: seq<Member>, args: Args, back: seq<Member>)

  function ReadFn(p: Printer, fn: seq<Member>): Fn {
    Fn(Before(fn, ARGUMENTS), ReadArgs(p, Get(fn, ARGUMENTS)), After(fn, ARGUMENTS))
  }

  lemma {:induction false} PutSplits(ms: seq<Member>, m: Member)
    ensures Put(ms, m) == Before(ms, m.key) + [m] + After(ms, m.key)
    ensures Before(Put(ms, m), m.key) == Before(ms, m.key) && After(Put(ms, m), m.key) == After(ms, m.key)
    ensures Find(Put(ms, m), m.key) == Some(m.val)
  {
    if ms == [] {
      assert [] + [m] + [] == [m];
    } else if ms[0].key == m.key {
      assert [] + [m] + ms[1..] == [m] + ms[1..];
    } else {
      PutSplits(ms[1..], m);
      var b := Before(ms[1..], m.key);
      assert [ms[0]] + (b + [m] + After(ms[1..], m.key)) == [ms[0]] + b + [m] + After(ms[1..], m.key);
      assert Put(ms, m)[1..] == Put(ms[1..], m);
    }
  }

  lemma FnKept(p: Printer, fn: seq<Member>)
    requires PrintsScalars(p) && Wf(Get(fn, ARGUMENTS))
    ensures ReadFn(p, StableFunction(p, fn)) == ReadFn(p, fn)
  {
    hide StableArgs, ReadArgs, Put, Before, After, Find, PrintsScalars;
    PutSplits(fn, Member(ARGUMENTS, Str(StableArgs(p, Get(fn, ARGUMENTS)))));
    ArgsKept(p, Get(fn, ARGUMENTS));
  }

  lemma FnDecides(p: Printer, a: seq<Member>, b: seq<Member>)
    requires PrintsScalars(p) && Wf(Get(a, ARGUMENTS)) && Wf(Get(b, ARGUMENTS)) && ReadFn(p, a) == ReadFn(p, b)
    ensures StableFunction(p, a) == StableFunction(p, b)
  {
    hide StableArgs, ReadArgs, Put, Before, After, Find, PrintsScalars;
    PutSplits(a, Member(ARGUMENTS, Str(StableArgs(p, Get(a, ARGUMENTS)))));
    PutSplits(b, Member(ARGUMENTS, Str(StableArgs(p, Get(b, ARGUMENTS)))));
    ArgsDecide(p, Get(a, ARGUMENTS), Get(b, ARGUMENTS));
  }

  // ---------- tool calls ----------

  datatype Callee = Plain(v: Json) | Function(fn: Fn)

  /** A tool call says its id, its type, its function, and its other members in order. */
  datatype Call = NotACall(v: Json) | Call(id: Json, ctype: Json, callee: Option<Callee>, rest: seq<Member>)

  function ReadCallee(p: Printer, ms: seq<Member>): Option<Callee> {
    match Find(ms, FUNCTION)
    case None => None
    case Some(Obj(fn)) => Some(Function(ReadFn(p, fn)))
    case Some(v) => Some(Plain(v))
  }

  /** Members that the upstream adds, and those that a call says on their own, are not among the rest. */
  function RestOf(ms: seq<Member>): seq<Member> {
    Except(ms, {T("index"), T("extra_content"), T("thought_signature"), TYPE, FUNCTION}
               + (if Get(ms, ID).Null? then {} else {ID}))
  }

  function ReadCall(p: Printer, raw: Json): Call {
    if !raw.Obj? then NotACall(raw)
    else
      var ms := raw.members;
      Call(Get(ms, ID), if Truthy(Get(ms, TYPE)) then Get(ms, TYPE) else Str(FUNCTION), ReadCallee(p, ms), RestOf(ms))
  }

  /** The stable function of a call. */
  function CalleeField(p: Printer, ms: seq<Member>): Option<Json> {
    match Find(ms, FUNCTION)
    case None => None
    case Some(Obj(fn)) => Some(Obj(StableFunction(p, fn)))
    case Some(v) => Some(v)
  }

  lemma {:induction false} ExceptPut(ms: seq<Member>, m: Member, ks: set<Text>)
    requires m.key in ks
    ensures Except(Put(ms, m), ks) == Except(ms, ks)
  {
    if ms != [] && ms[0].key != m.key {
      ExceptPut(ms[1..], m, ks);
      assert Put(ms, m)[1..] == Put(ms[1..], m);
    }
  }

  /** The stable call: id, type and function, then the rest. */
  lemma CallIs(p: Printer, ms: seq<Member>)
    ensures StableCall(p, Obj(ms)) == Obj(
      Field(ID, if Get(ms, ID).Null? then None else Some(Get(ms, ID)))
      + [Member(TYPE, if Truthy(Get(ms, TYPE)) then Get(ms, TYPE) else Str(FUNCTION))]
      + Field(FUNCTION, CalleeField(p, ms)) + RestOf(ms))
  {
    hide Except, Find, Truthy, StableFunction, Put;
    KeysDiffer();
    var item := Except(ms, DroppedKeys());
    ExceptFind(ms, DroppedKeys(), ID);
    ExceptFind(ms, DroppedKeys(), TYPE);
    ExceptFind(ms, DroppedKeys(), FUNCTION);
    var clean := CleanCall(p, ms);
    var ks := if Get(ms, ID).Null? then {TYPE, FUNCTION} else {ID, TYPE, FUNCTION};
    if Get(item, FUNCTION).Obj? {
      var m := Member(FUNCTION, Obj(StableFunction(p, Get(item, FUNCTION).members)));
      ExceptPut(item, m, ks);
      PutHasKey(item, m, ID);
      PutHasKey(item, m, TYPE);
      PutHasKey(item, m, FUNCTION);
    }
    assert Get(clean, ID) == Get(ms, ID) && Get(clean, TYPE) == Get(ms, TYPE)
      && Find(clean, FUNCTION) == CalleeField(p, ms);
    ExceptTwice(ms, DroppedKeys(), ks);
    assert DroppedKeys() + ks == {T("index"), T("extra_content"), T("thought_signature"), TYPE, FUNCTION}
      + (if Get(ms, ID).Null? then {} else {ID});
  }

  lemma ReadCalleeOf(p: Printer, ms: seq<Member>, ms': seq<Member>)
    requires PrintsScalars(p) && WfMembers(ms) && Find(ms', FUNCTION) == CalleeField(p, ms)
    ensures ReadCallee(p, ms') == ReadCallee(p, ms)
  {
    hide ReadFn, StableFunction, PrintsScalars, Find;
    WfFind(ms, FUNCTION);
    if Find(ms, FUNCTION).Some? && Find(ms, FUNCTION).value.Obj? {
      var fn := Find(ms, FUNCTION).value.members;
      assert Wf(Get(ms, FUNCTION));
      WfFind(fn, ARGUMENTS);
      FnKept(p, fn);
    }
  }

  /** A stable call says what the call says. */
  lemma CallKept(p: Printer, raw: Json)
    requires PrintsScalars(p) && Wf(raw)
    ensures ReadCall(p, StableCall(p, raw)) == ReadCall(p, raw)
  {
    hide Except, Find, Truthy, StableFunction, Put, ReadCallee, PrintsScalars, StableCall, RestOf;
    if raw.Obj? {
      var ms := raw.members;
      CallIs(p, ms);
      var r := StableCall(p, raw).members;
      CallFinds(p, ms, r);
      ReadCalleeOf(p, ms, r);
      TruthyFunction();
      CallRest(p, ms, r);
    } else {
      assert StableCall(p, raw) == raw by { NotObject(p, raw); }
    }
  }

  lemma NotObject(p: Printer, raw: Json)
    requires !raw.Obj?
    ensures StableCall(p, raw) == raw
  {
  }

  /** What a stable call has under its keys. */
  lemma CallFinds(p: Printer, ms: seq<Member>, r: seq<Member>)
    requires Obj(r) == StableCall(p, Obj(ms))
    ensures Get(r, ID) == Get(ms, ID)
    ensures Get(r, TYPE) == if Truthy(Get(ms, TYPE)) then Get(ms, TYPE) else Str(FUNCTION)
    ensures Find(r, FUNCTION) == CalleeField(p, ms)
  {
    hide Except, Find, Truthy, CalleeField, StableCall;
    CallIs(p, ms);
    KeysDiffer();
    var id, ty := Get(ms, ID), if Truthy(Get(ms, TYPE)) then Get(ms, TYPE) else Str(FUNCTION);
    var a, b, c := Field(ID, if id.Null? then None else Some(id)), Field(TYPE, Some(ty)),
      Field(FUNCTION, CalleeField(p, ms));
    assert b == [Member(TYPE, ty)];
    var rest := RestOf(ms);
    forall k | k in {ID, TYPE, FUNCTION} ensures Find(r, k) ==
        if HasKey(a, k) then Find(a, k) else if HasKey(b, k) then Find(b, k)
        else if HasKey(c, k) then Find(c, k) else Find(rest, k)
    {
      FindConcat(a + b + c, rest, k);
      FindConcat(a + b, c, k);
      FindConcat(a, b, k);
    }
    FieldFinds(ID, if id.Null? then None else Some(id));
    FieldFinds(TYPE, Some(ty));
    FieldFinds(FUNCTION, CalleeField(p, ms));
    RestFinds(ms);
  }

  lemma FieldFinds(k: Text, v: Option<Json>)
    ensures forall x :: Find(Field(k, v), x) == if x == k then v else None
  {
    forall x ensures Find(Field(k, v), x) == if x == k then v else None { FindField(k, v, x); }
  }

  lemma RestFinds(ms: seq<Member>)
    ensures Find(RestOf(ms), TYPE) == None && Find(RestOf(ms), FUNCTION) == None
    ensures Find(RestOf(ms), ID) == if Get(ms, ID).Null? then Find(ms, ID) else None
  {
    hide Except, Find;
    KeysDiffer();
    var ks := {T("index"), T("extra_content"), T("thought_signature"), TYPE, FUNCTION}
      + (if Get(ms, ID).Null? then {} else {ID});
    ExceptFind(ms, ks, TYPE);
    ExceptFind(ms, ks, FUNCTION);
    ExceptFind(ms, ks, ID);
  }

  lemma CallRest(p: Printer, ms: seq<Member>, r: seq<Member>)
    requires Obj(r) == StableCall(p, Obj(ms))
    ensures RestOf(r) == RestOf(ms)
  {
    hide Except, Find, Truthy, CalleeField, StableCall;
    CallIs(p, ms);
    CallFinds(p, ms, r);
    var ks := {T("index"), T("extra_content"), T("thought_signature"), TYPE, FUNCTION}
      + (if Get(ms, ID).Null? then {} else {ID});
    var id, ty := Get(ms, ID), if Truthy(Get(ms, TYPE)) then Get(ms, TYPE) else Str(FUNCTION);
    var a, b, c := Field(ID, if id.Null? then None else Some(id)), Field(TYPE, Some(ty)),
      Field(FUNCTION, CalleeField(p, ms));
    assert b == [Member(TYPE, ty)];
    ExceptConcat(a + b + c, RestOf(ms), ks);
    ExceptConcat(a + b, c, ks);
    ExceptConcat(a, b, ks);
    ExceptField(ID, if id.Null? then None else Some(id), ks);
    ExceptField(TYPE, Some(ty), ks);
    ExceptField(FUNCTION, CalleeField(p, ms), ks);
    ExceptTwice(ms, ks, ks);
    assert ks + ks == ks;
    assert [] + [] + [] + RestOf(ms) == RestOf(ms);
  }

  /** Two tool calls have the same stable form if and only if they say the same. */
  lemma CallDecides(p: Printer, a: Json, b: Json)
    requires PrintsScalars(p) && Wf(a) && Wf(b)
    ensures StableCall(p, a) == StableCall(p, b) <==> ReadCall(p, a) == ReadCall(p, b)
  {
    hide Find, Truthy, ReadFn, StableFunction, PrintsScalars, StableCall, RestOf, CalleeField;
    CallKept(p, a);
    CallKept(p, b);
    if ReadCall(p, a) == ReadCall(p, b) && a.Obj? {
      CallIs(p, a.members);
      CallIs(p, b.members);
      CalleeDecides(p, a.members, b.members);
    } else if ReadCall(p, a) == ReadCall(p, b) {
      NotObject(p, a);
      NotObject(p, b);
    }
  }

  lemma CalleeDecides(p: Printer, a: seq<Member>, b: seq<Member>)
    requires PrintsScalars(p) && WfMembers(a) && WfMembers(b) && ReadCallee(p, a) == ReadCallee(p, b)
    ensures CalleeField(p, a) == CalleeField(p, b)
  {
    hide Find, ReadFn, StableFunction, PrintsScalars;
    WfFind(a, FUNCTION);
    WfFind(b, FUNCTION);
    if Find(a, FUNCTION).Some? && Find(a, FUNCTION).value.Obj? {
      var f, g := Find(a, FUNCTION).value.members, Find(b, FUNCTION).value.members;
      assert Wf(Get(a, FUNCTION)) && Wf(Get(b, FUNCTION));
      WfFind(f, ARGUMENTS);
      WfFind(g, ARGUMENTS);
      FnDecides(p, f, g);
    }
  }

  function ReadCalls(p: Printer, calls: seq<Json>): (r: seq<Call>)
    ensures |r| == |calls|
  {
    if calls == [] then [] else [ReadCall(p, calls[0])] + ReadCalls(p, calls[1..])
  }

  /** Lists of tool calls, call by call. */
  lemma {:induction false} CallsKept(p: Printer, calls: seq<Json>)
    requires PrintsScalars(p) && WfItems(calls)
    ensures ReadCalls(p, StableCalls(p, calls)) == ReadCalls(p, calls)
  {
    hide ReadCall, StableCall, PrintsScalars;
    if calls != [] {
      CallKept(p, calls[0]);
      CallsKept(p, calls[1..]);
      var r := StableCalls(p, calls);
      assert r[0] == StableCall(p, calls[0]) && r[1..] == StableCalls(p, calls[1..]);
    }
  }

  lemma {:induction false} CallsDecide(p: Printer, a: seq<Json>, b: seq<Json>)
    requires PrintsScalars(p) && WfItems(a) && WfItems(b) && ReadCalls(p, a) == ReadCalls(p, b)
    ensures StableCalls(p, a) == StableCalls(p, b)
    decreases |a|
  {
    hide ReadCall, StableCall, PrintsScalars;
    if a != [] {
      assert ReadCalls(p, a)[0] == ReadCalls(p, b)[0] && ReadCalls(p, a)[1..] == ReadCalls(p, b)[1..];
      CallDecides(p, a[0], b[0]);
      CallsDecide(p, a[1..], b[1..]);
    }
  }

  // ---------- text ----------

  /** The lines of a text, whatever ends them: CR, LF, or both. */
  function LinesOf(s: Text): (r: seq<Text>)
    ensures r != []
    decreases |s|
  {
    if s == [] then [[]]
    else if s[0] == CR && |s| > 1 && s[1] == LF then [[]] + LinesOf(s[2..])
    else if s[0] == CR || s[0] == LF then [[]] + LinesOf(s[1..])
    else
      var r := LinesOf(s[1..]);
      [[s[0]] + r[0]] + r[1..]
  }

  function Lined(lines: seq<Text>): Text {
    if lines == [] then [] else if |lines| == 1 then lines[0] else lines[0] + [LF] + Lined(lines[1..])
  }

  /**
   A system text says its lines up to white space at the end, and whether a line break ends it; any
   other text itself.
   */
  datatype Prose = Exact(s: Text) | System(body: Text, newline: bool)

  function ReadText(s: Text, role: Text): Prose {
    if role != T("system") then Exact(s)
    else
      var body := RStrip(Lined(LinesOf(s)));
      System(body, body != [] && s != [] && s[|s| - 1] in {CR, LF})
  }

  /** Normalising line endings keeps the lines. */
  lemma {:induction false} UnixLinesAreLines(s: Text)
    ensures UnixLines(s) == Lined(LinesOf(s))
    decreases |s|
  {
    if s != [] {
      if s[0] == CR && |s| > 1 && s[1] == LF {
        UnixLinesAreLines(s[2..]);
        LinedBreak(LinesOf(s[2..]));
      } else {
        UnixLinesAreLines(s[1..]);
        var r := LinesOf(s[1..]);
        if s[0] == CR || s[0] == LF { LinedBreak(r); } else { LinedMore(s[0], r); }
      }
    }
  }

  lemma LinedBreak(r: seq<Text>)
    requires r != []
    ensures Lined([[]] + r) == [LF] + Lined(r)
  {
    assert ([[]] + r)[1..] == r;
    assert [] + [LF] + Lined(r) == [LF] + Lined(r);
  }

  lemma LinedMore(c: Code, r: seq<Text>)
    requires r != []
    ensures Lined([[c] + r[0]] + r[1..]) == [c] + Lined(r)
  {
    var q := [[c] + r[0]] + r[1..];
    assert q[1..] == r[1..];
    if |r| > 1 { assert [c] + r[0] + [LF] + Lined(r[1..]) == [c] + (r[0] + [LF] + Lined(r[1..])); }
  }

  lemma {:induction false} UnixLinesEnd(s: Text)
    ensures UnixLines(s) != [] && UnixLines(s)[|UnixLines(s)| - 1] == LF <==> s != [] && s[|s| - 1] in {CR, LF}
    ensures UnixLines(s) == [] <==> s == []
    decreases |s|
  {
    if s != [] {
      if s[0] == CR && |s| > 1 && s[1] == LF { UnixLinesEnd(s[2..]); } else { UnixLinesEnd(s[1..]); }
    }
  }

  /** The stable text is made of what the text says. */
  lemma StableTextIs(s: Text, role: Text)
    ensures StableText(s, role) ==
      match ReadText(s, role)
      case Exact(t) => t
      case System(body, newline) => if newline then body + [LF] else body
  {
    hide UnixLines, Lined, LinesOf, RStrip;
    UnixLinesAreLines(s);
    UnixLinesEnd(s);
    RStripIsPrefix(UnixLines(s));
  }

  lemma TextKept(s: Text, role: Text)
    ensures ReadText(StableText(s, role), role) == ReadText(s, role)
  {
    hide UnixLines, Lined, LinesOf, RStrip;
    StableTextIs(s, role);
    if role == T("system") {
      var t := StableText(s, role);
      var body := RStrip(UnixLines(s));
      UnixLinesAreLines(s);
      UnixLinesAreLines(t);
      UnixLinesIs(s);
      RStripIsPrefix(UnixLines(s));
      UnixLinesIs(t);
      RStripTwice(body);
      BodyEnds(body);
    }
  }

  lemma BodyEnds(body: Text)
    ensures body != [] && !IsSpace(body[|body| - 1]) ==> body[|body| - 1] !in {CR, LF}
  {
  }

  // ---------- content ----------

  /** One element of a content list: words, or anything else as it stands. */
  datatype Piece = Words(t: Text) | Else(v: Json)

  /** `None` is the error of a type that is not a string. */
  function ReadPart(p: Printer, part: Json): Option<seq<Piece>> {
    match part
    case Str(s) => Some(if s == [] then [] else [Words(s)])
    case Obj(ms) =>
      var ty, t := Get(ms, TYPE), Get(ms, TEXT);
      if Truthy(ty) && !ty.Str? then None
      else if Truthy(ty) && Lower(ty.s) !in {TEXT, T("input_text"), T("output_text")} then Some([Else(part)])
      else if t.Null? then Some([])
      else Some([Words(if !Truthy(t) then [] else if t.Str? then t.s else p(t))])
    case _ => Some([Else(part)])
  }

  function ReadParts(p: Printer, parts: seq<Json>): Option<seq<Piece>> {
    if parts == [] then Some([])
    else
      match (ReadPart(p, parts[0]), ReadParts(p, parts[1..]))
      case (Some(a), Some(b)) => Some(a + b)
      case _ => None
  }

  predicate OnlyWords(pieces: seq<Piece>) { forall x :: x in pieces ==> x.Words? }

  /** The words of some pieces, one to a line. */
  function WordsOf(pieces: seq<Piece>): Text {
    if pieces == [] then []
    else
      var t := if pieces[0].Words? then pieces[0].t else [];
      if |pieces| == 1 then t else t + [LF] + WordsOf(pieces[1..])
  }

  /** Content says nothing, a text, words among other things, or a plain value. */
  datatype Content = Nothing | Said(prose: Prose) | Mixed(pieces: seq<Piece>) | PlainValue(v: Json)

  /** Text may be given as it is, in pieces, as one piece, or as the canonical text of an object. */
  function ReadContent(p: Printer, role: Text, content: Json, calling: bool): Option<Content> {
    match content
    case Null => Some(if calling then Nothing else Said(ReadText([], role)))
    case Str(s) => Some(Said(ReadText(s, role)))
    case Arr(items) =>
      (match ReadParts(p, items)
       case None => None
       case Some(pieces) => Some(if OnlyWords(pieces) then Said(ReadText(WordsOf(pieces), role)) else Mixed(pieces)))
    case Obj(ms) =>
      Some(Said(ReadText(
        if Get(ms, TYPE) in {Str(TEXT), Str(T("input_text"))} && HasKey(ms, TEXT)
        then (var t := Get(ms, TEXT); if !Truthy(t) then [] else if t.Str? then t.s else p(t))
        else Dumps(Canon(content), false), role)))
    case _ => Some(PlainValue(content))
  }

  /** A piece in its stable form. */
  function Written(x: Piece): Json { if x.Words? then TextPart(x.t) else x.v }

  function AllWritten(pieces: seq<Piece>): (r: seq<Json>)
    ensures |r| == |pieces| && forall i :: 0 <= i < |r| ==> r[i] == Written(pieces[i])
  {
    if pieces == [] then [] else [Written(pieces[0])] + AllWritten(pieces[1..])
  }

  /** A piece that is not words does not look like words. */
  predicate Sober(p: Printer, x: Piece) { x.Else? ==> !IsText(x.v) && ReadPart(p, x.v) == Some([x]) }

  lemma PartIs(p: Printer, part: Json)
    ensures StablePart(p, part).Some? <==> ReadPart(p, part).Some?
    ensures ReadPart(p, part).Some? ==>
      && StablePart(p, part).value == AllWritten(ReadPart(p, part).value)
      && forall x :: x in ReadPart(p, part).value ==> Sober(p, x)
  {
    hide Lower, Truthy;
    LowerText();
    if part.Obj? && Get(part.members, TYPE) == Str(TEXT) { assert Truthy(Str(TEXT)); }
  }

  lemma WrittenConcat(a: seq<Piece>, b: seq<Piece>)
    ensures AllWritten(a + b) == AllWritten(a) + AllWritten(b)
  {
  }

  lemma {:induction false} PartsAre(p: Printer, parts: seq<Json>)
    ensures StableParts(p, parts).Some? <==> ReadParts(p, parts).Some?
    ensures ReadParts(p, parts).Some? ==>
      && StableParts(p, parts).value == AllWritten(ReadParts(p, parts).value)
      && forall x :: x in ReadParts(p, parts).value ==> Sober(p, x)
  {
    hide StablePart, ReadPart, Sober, Written;
    if parts != [] {
      PartIs(p, parts[0]);
      PartsAre(p, parts[1..]);
      if ReadParts(p, parts).Some? { WrittenConcat(ReadPart(p, parts[0]).value, ReadParts(p, parts[1..]).value); }
    }
  }

  lemma ReadWritten(p: Printer, x: Piece)
    requires Sober(p, x)
    ensures ReadPart(p, Written(x)) == Some([x])
    ensures IsText(Written(x)) <==> x.Words?
  {
    hide Lower;
    if x.Words? {
      TextPartIs(p, x.t);
      LowerText();
      var ms := TextPart(x.t).members;
      assert ms[1..] == [Member(TEXT, Str(x.t))];
      assert Find(ms, TEXT) == Find(ms[1..], TEXT) == Some(Str(x.t));
    }
  }

  lemma {:induction false} ReadAllWritten(p: Printer, pieces: seq<Piece>)
    requires forall x :: x in pieces ==> Sober(p, x)
    ensures ReadParts(p, AllWritten(pieces)) == Some(pieces)
    ensures AllText(AllWritten(pieces)) <==> OnlyWords(pieces)
  {
    hide ReadPart, Sober, Written, IsText;
    if pieces != [] {
      ReadWritten(p, pieces[0]);
      ReadAllWritten(p, pieces[1..]);
      var r := AllWritten(pieces);
      assert r[0] == Written(pieces[0]) && r[1..] == AllWritten(pieces[1..]);
      assert forall x :: x in r <==> x == r[0] || x in r[1..];
      assert forall x :: x in pieces <==> x == pieces[0] || x in pieces[1..];
      assert [pieces[0]] + pieces[1..] == pieces;
    }
  }

  lemma ShownWords(p: Printer, t: Text)
    ensures TextPart(t).Obj? && Shown(p, Get(TextPart(t).members, TEXT)) == t
  {
    LowerText();
    var ms := TextPart(t).members;
    assert ms[1..] == [Member(TEXT, Str(t))];
    assert Find(ms, TEXT) == Find(ms[1..], TEXT) == Some(Str(t));
  }

  lemma {:induction false} JoinedIsWords(p: Printer, pieces: seq<Piece>)
    requires OnlyWords(pieces)
    ensures JoinedTexts(p, AllWritten(pieces)) == WordsOf(pieces)
  {
    hide Shown, TextPart;
    if pieces != [] {
      var r := AllWritten(pieces);
      assert r[0] == TextPart(pieces[0].t) && r[1..] == AllWritten(pieces[1..]);
      assert pieces[0] in pieces;
      ShownWords(p, pieces[0].t);
      JoinedIsWords(p, pieces[1..]);
    }
  }

  /** The text that content is read as. */
  function TextOf(prose: Prose): Text {
    match prose
    case Exact(t) => t
    case System(body, newline) => if newline then body + [LF] else body
  }

  /** Stable content is what the content says: text as text, mixed pieces in their stable form. */
  lemma ContentIs(p: Printer, role: Text, content: Json, calling: bool)
    requires Wf(content)
    ensures StableContent(p, role, content, calling).Some? <==> ReadContent(p, role, content, calling).Some?
    ensures ReadContent(p, role, content, calling).Some? ==>
      StableContent(p, role, content, calling).value ==
        match ReadContent(p, role, content, calling).value
        case Nothing => Null
        case Said(prose) => Str(TextOf(prose))
        case Mixed(pieces) => Arr(AllWritten(pieces))
        case PlainValue(v) => v
  {
    hide StableText, ReadText, StableParts, ReadParts, AllText, OnlyWords, JoinedTexts, WordsOf, Dumps,
      Canon, Find, Truthy;
    match content
    case Null => StableTextNothing(role); StableTextIs([], role);
    case Str(s) => StableTextIs(s, role);
    case Arr(items) =>
      PartsAre(p, items);
      if ReadParts(p, items).Some? { ListIs(p, role, items); }
    case Obj(ms) =>
      StableTextIs(Shown(p, Get(ms, TEXT)), role);
      CanonicalTextIsStable(content, role);
      StableTextIs(Dumps(Canon(content), false), role);
    case _ =>
  }

  lemma ListIs(p: Printer, role: Text, items: seq<Json>)
    requires ReadParts(p, items).Some?
    ensures StableParts(p, items).Some?
    ensures var parts, pieces := StableParts(p, items).value, ReadParts(p, items).value;
      (if parts == [] then Str([])
       else if AllText(parts) then Str(StableText(JoinedTexts(p, parts), role))
       else Arr(parts))
      == if OnlyWords(pieces) then Str(TextOf(ReadText(WordsOf(pieces), role))) else Arr(AllWritten(pieces))
  {
    hide StableText, ReadText, StableParts, ReadParts, Sober, Written, IsText;
    PartsAre(p, items);
    var pieces := ReadParts(p, items).value;
    ReadAllWritten(p, pieces);
    if OnlyWords(pieces) { JoinedIsWords(p, pieces); }
    StableTextIs(WordsOf(pieces), role);
    if pieces == [] { StableTextNothing(role); }
  }

  /** Stable content says what the content says. */
  lemma ContentKept(p: Printer, role: Text, content: Json, calling: bool)
    requires Wf(content) && StableContent(p, role, content, calling).Some?
    ensures ReadContent(p, role, StableContent(p, role, content, calling).value, calling)
            == ReadContent(p, role, content, calling)
  {
    hide StableContent, ReadText, ReadParts, OnlyWords, WordsOf, Dumps, Canon, Find, Truthy, TextOf, AllWritten;
    ContentIs(p, role, content, calling);
    match content
    case Null => ReadAgain([], role);
    case Str(s) => ReadAgain(s, role);
    case Arr(items) =>
      PartsAre(p, items);
      var pieces := ReadParts(p, items).value;
      ReadAllWritten(p, pieces);
      ReadAgain(WordsOf(pieces), role);
    case Obj(ms) =>
      var t := Get(ms, TEXT);
      ReadAgain(if !Truthy(t) then [] else if t.Str? then t.s else p(t), role);
      ReadAgain(Dumps(Canon(content), false), role);
    case _ =>
  }

  lemma ReadAgain(s: Text, role: Text)
    ensures ReadText(TextOf(ReadText(s, role)), role) == ReadText(s, role)
  {
    hide StableText, ReadText;
    StableTextIs(s, role);
    TextKept(s, role);
  }

  // ---------- the message ----------

  /** What a message says; the order of its members, and members that upstream does not know, say nothing. */
  datatype Message =
    | NotAMessage(v: Json)
    | Message(role: Text, name: Json, callId: Json, calls: seq<Call>, functionCall: Option<(Json, Args)>,
              content: Content, reasoning: Option<Text>)

  /** A name or id that is missing is an empty one. */
  function ReadName(v: Json): Json { if v == Str([]) then Null else v }

  function ReadRole(v: Json): Text { if v.Str? && Strip(v.s) != [] then Strip(v.s) else T("user") }

  function ReadCallList(p: Printer, v: Json): seq<Call> { if v.Arr? then ReadCalls(p, v.items) else [] }

  function ReadCalled(p: Printer, v: Json): Option<(Json, Args)> {
    if v.Obj? && Truthy(Get(v.members, NAME))
    then Some((Get(v.members, NAME), ReadArgs(p, Get(v.members, ARGUMENTS)))) else None
  }

  function ReadReasoning(v: Json): Option<Text> { if v.Str? && Strip(v.s) != [] then Some(v.s) else None }

  /** `None` is the error of a role that is not a string, or of such a type in a content list. */
  function ReadMessage(p: Printer, m: Json): Option<Message> {
    if !m.Obj? then Some(NotAMessage(m))
    else
      var ms := m.members;
      var calls, called := ReadCallList(p, Get(ms, CALLS)), ReadCalled(p, Get(ms, FUNCTION_CALL));
      if Truthy(Get(ms, ROLE)) && !Get(ms, ROLE).Str? then None
      else
        var role := ReadRole(Get(ms, ROLE));
        match ReadContent(p, role, Get(ms, CONTENT), calls != [] || called.Some?)
        case None => None
        case Some(content) =>
          Some(Message(role, ReadName(Get(ms, NAME)), ReadName(Get(ms, CALL_ID)), calls, called, content,
                       ReadReasoning(Get(ms, REASONING))))
  }

  /** The value of a field that may be left out. */
  function OrNull(v: Option<Json>): Json { if v.Some? then v.value else Null }

  lemma RoleKept(r: Json)
    requires !(Truthy(r) && !r.Str?)
    ensures StableRole(r) == ReadRole(r) && ReadRole(Str(ReadRole(r))) == ReadRole(r)
  {
    hide Strip;
    if r.Str? { StripIdempotent(r.s); }
    UserIsTrimmed();
  }

  lemma UserIsTrimmed()
    ensures T("user") != [] && Strip(T("user")) == T("user")
  {
    var user := T("user");
    assert |user| == 4 && user[0] == 0x75 && user[3] == 0x72;
    TrimmedStrip(user);
  }

  lemma NameKept(v: Json, w: Json)
    ensures ReadName(OrNull(Given(v))) == ReadName(v)
    ensures ReadName(v) == ReadName(w) ==> Given(v) == Given(w)
  {
  }

  lemma CallListKept(p: Printer, v: Json)
    requires PrintsScalars(p) && Wf(v)
    ensures ReadCallList(p, OrNull(CallsField(p, v))) == ReadCallList(p, v)
    ensures CallsField(p, v).Some? <==> ReadCallList(p, v) != []
  {
    hide ReadCall, StableCall, PrintsScalars;
    if v.Arr? { CallsKept(p, v.items); }
  }

  lemma CallListDecides(p: Printer, v: Json, w: Json)
    requires PrintsScalars(p) && Wf(v) && Wf(w) && ReadCallList(p, v) == ReadCallList(p, w)
    ensures CallsField(p, v) == CallsField(p, w)
  {
    hide ReadCall, StableCall, PrintsScalars;
    if v.Arr? && w.Arr? { CallsDecide(p, v.items, w.items); }
  }

  lemma CalledKept(p: Printer, v: Json)
    requires PrintsScalars(p) && Wf(v)
    ensures ReadCalled(p, OrNull(FunctionCallField(p, v))) == ReadCalled(p, v)
    ensures FunctionCallField(p, v).Some? <==> ReadCalled(p, v).Some?
  {
    hide StableArgs, ReadArgs, Truthy, PrintsScalars;
    if v.Obj? && Truthy(Get(v.members, NAME)) {
      MessageKeysDiffer();
      WfFind(v.members, ARGUMENTS);
      ArgsKept(p, Get(v.members, ARGUMENTS));
      var ms := FunctionCallField(p, v).value.members;
      assert ms[1..] == [ms[1]];
      assert Find(ms, ARGUMENTS) == Find(ms[1..], ARGUMENTS) == Some(ms[1].val);
    }
  }

  lemma CalledDecides(p: Printer, v: Json, w: Json)
    requires PrintsScalars(p) && Wf(v) && Wf(w) && ReadCalled(p, v) == ReadCalled(p, w)
    ensures FunctionCallField(p, v) == FunctionCallField(p, w)
  {
    hide StableArgs, ReadArgs, Truthy, PrintsScalars, Find;
    if ReadCalled(p, v).Some? {
      WfFind(v.members, ARGUMENTS);
      WfFind(w.members, ARGUMENTS);
      ArgsDecide(p, Get(v.members, ARGUMENTS), Get(w.members, ARGUMENTS));
    }
  }

  lemma ReasoningKept(v: Json, w: Json)
    ensures ReadReasoning(OrNull(ReasoningField(v))) == ReadReasoning(v)
    ensures ReadReasoning(v) == ReadReasoning(w) ==> ReasoningField(v) == ReasoningField(w)
  {
    hide Strip;
  }

  lemma ContentDecides(p: Printer, role: Text, a: Json, b: Json, calling: bool)
    requires Wf(a) && Wf(b) && ReadContent(p, role, a, calling) == ReadContent(p, role, b, calling)
    ensures StableContent(p, role, a, calling) == StableContent(p, role, b, calling)
  {
    hide StableContent, ReadContent;
    ContentIs(p, role, a, calling);
    ContentIs(p, role, b, calling);
  }

  /** A message is made stable, without an error, exactly if it can be read. */
  lemma StableExactly(p: Printer, m: Json)
    requires PrintsScalars(p) && Wf(m)
    ensures Stable(p, m).Some? <==> ReadMessage(p, m).Some?
  {
    hide PrintsScalars, Truthy, Find, StableContent, ReadContent, ReadCallList, ReadCalled, CallsField,
      FunctionCallField, StableRole, ReadRole;
    if m.Obj? {
      var ms := m.members;
      WfFind(ms, CALLS);
      WfFind(ms, FUNCTION_CALL);
      WfFind(ms, CONTENT);
      if !(Truthy(Get(ms, ROLE)) && !Get(ms, ROLE).Str?) {
        RoleKept(Get(ms, ROLE));
        CallListKept(p, Get(ms, CALLS));
        CalledKept(p, Get(ms, FUNCTION_CALL));
        ContentIs(p, ReadRole(Get(ms, ROLE)), Get(ms, CONTENT),
                  ReadCallList(p, Get(ms, CALLS)) != [] || ReadCalled(p, Get(ms, FUNCTION_CALL)).Some?);
      }
    }
  }

  /** Nothing is lost: a stable message says what the message says. */
  lemma StableKeeps(p: Printer, m: Json)
    requires PrintsScalars(p) && Wf(m) && Stable(p, m).Some?
    ensures ReadMessage(p, Stable(p, m).value) == ReadMessage(p, m)
  {
    hide PrintsScalars, Build, Truthy, Find, StableContent, ReadContent, ReadCallList, ReadCalled,
      CallsField, FunctionCallField, StableRole, ReadRole, ReadName, Given, ReadReasoning, ReasoningField;
    if m.Obj? {
      var ms := m.members;
      var f := StableFields(p, ms).value;
      BuildIsObject(f);
      MessageKeysDiffer();
      BuildFind(f, ROLE);
      BuildFind(f, NAME);
      BuildFind(f, CALL_ID);
      BuildFind(f, CALLS);
      BuildFind(f, FUNCTION_CALL);
      BuildFind(f, CONTENT);
      BuildFind(f, REASONING);
      WfFind(ms, CALLS);
      WfFind(ms, FUNCTION_CALL);
      WfFind(ms, CONTENT);
      RoleKept(Get(ms, ROLE));
      NameKept(Get(ms, NAME), Null);
      NameKept(Get(ms, CALL_ID), Null);
      CallListKept(p, Get(ms, CALLS));
      CalledKept(p, Get(ms, FUNCTION_CALL));
      ContentKept(p, f.role, Get(ms, CONTENT), f.calls.Some? || f.functionCall.Some?);
      ReasoningKept(Get(ms, REASONING), Null);
      StableExactly(p, m);
    }
  }

  /** The stable form is decided by what the message says. */
  lemma SameStable(p: Printer, a: Json, b: Json)
    requires PrintsScalars(p) && Wf(a) && Wf(b) && ReadMessage(p, a).Some? && ReadMessage(p, a) == ReadMessage(p, b)
    ensures Stable(p, a) == Stable(p, b)
  {
    hide PrintsScalars, Build, Truthy, Find, StableContent, ReadContent, ReadCallList, ReadCalled,
      CallsField, FunctionCallField, StableRole, ReadRole, ReadName, Given, ReadReasoning, ReasoningField;
    if a.Obj? {
      var ms, ns := a.members, b.members;
      RoleKept(Get(ms, ROLE));
      RoleKept(Get(ns, ROLE));
      NameKept(Get(ms, NAME), Get(ns, NAME));
      NameKept(Get(ms, CALL_ID), Get(ns, CALL_ID));
      WfFind(ms, CALLS);
      WfFind(ns, CALLS);
      CallListDecides(p, Get(ms, CALLS), Get(ns, CALLS));
      WfFind(ms, FUNCTION_CALL);
      WfFind(ns, FUNCTION_CALL);
      CalledDecides(p, Get(ms, FUNCTION_CALL), Get(ns, FUNCTION_CALL));
      CallListKept(p, Get(ms, CALLS));
      CalledKept(p, Get(ms, FUNCTION_CALL));
      WfFind(ms, CONTENT);
      WfFind(ns, CONTENT);
      ContentDecides(p, ReadRole(Get(ms, ROLE)), Get(ms, CONTENT), Get(ns, CONTENT),
                     ReadCallList(p, Get(ms, CALLS)) != [] || ReadCalled(p, Get(ms, FUNCTION_CALL)).Some?);
      ReasoningKept(Get(ms, REASONING), Get(ns, REASONING));
    }
  }

  /** What a stable form is for: two messages have the same one if and only if they say the same. */
  lemma StableDecides(p: Printer, a: Json, b: Json)
    requires PrintsScalars(p) && Wf(a) && Wf(b) && Stable(p, a).Some?
    ensures Stable(p, a) == Stable(p, b) <==> ReadMessage(p, a) == ReadMessage(p, b)
  {
    hide PrintsScalars, Stable, ReadMessage;
    StableExactly(p, a);
    StableExactly(p, b);
    StableKeeps(p, a);
    if Stable(p, b).Some? { StableKeeps(p, b); }
    if ReadMessage(p, a) == ReadMessage(p, b) { SameStable(p, a, b); }
  }

  // ---------- numbers ----------

  /** A digit other than 0 ahead of any exponent. */
  ghost predicate CountsAt(lexeme: Text, i: nat) {
    && i < |lexeme| && 0x31 <= lexeme[i] <= 0x39
    && forall j :: 0 <= j < i ==> lexeme[j] !in {0x65, 0x45}
  }

  /** Python takes a number for true if it is not zero: `NaN` and the infinities, or some digit counts. */
  lemma {:induction false} NumberIsTrue(lexeme: Text)
    ensures Truthy(Num(lexeme)) <==>
      lexeme in {NAN, INFINITY, MINUS_INFINITY} || exists i: nat :: CountsAt(lexeme, i)
  {
    ZeroHasNone(lexeme);
  }

  lemma {:induction false} ZeroHasNone(lexeme: Text)
    ensures IsZero(lexeme) <==> forall i: nat :: !CountsAt(lexeme, i)
  {
    if lexeme != [] && lexeme[0] !in {0x65, 0x45} {
      var t := lexeme[1..];
      ZeroHasNone(t);
      if 0x31 <= lexeme[0] <= 0x39 {
        assert CountsAt(lexeme, 0);
      } else if !IsZero(t) {
        var i: nat :| CountsAt(t, i);
        assert forall j :: 0 < j <= i + 1 ==> lexeme[j] == t[j - 1];
        assert CountsAt(lexeme, i + 1);
      } else {
        forall i: nat ensures !CountsAt(lexeme, i) {
          if CountsAt(lexeme, i) {
            assert forall j :: 0 <= j < i - 1 ==> t[j] == lexeme[j + 1];
            assert CountsAt(t, i - 1);
          }
        }
      }
    }
  }

  // ---------- the form of a stable message ----------

  /** The place of a key in a stable message. */
  function Place(k: Text): nat {
    if k == ROLE then 0 else if k == NAME then 1 else if k == CALL_ID then 2 else if k == CALLS then 3
    else if k == FUNCTION_CALL then 4 else if k == CONTENT then 5 else if k == REASONING then 6 else 7
  }

  ghost predicate InPlace(ms: seq<Member>, n: nat) {
    && (forall i :: 0 <= i < |ms| ==> Place(ms[i].key) < n)
    && (forall i, j :: 0 <= i < j < |ms| ==> Place(ms[i].key) < Place(ms[j].key))
  }

  lemma FieldInPlace(ms: seq<Member>, k: Text, v: Option<Json>, n: nat)
    requires InPlace(ms, n) && Place(k) == n
    ensures InPlace(ms + Field(k, v), n + 1)
  {
    hide Place;
    if v.None? { assert ms + [] == ms; }
  }

  /** The members of a stable message are some of seven, always in the same order, a role and content among them. */
  lemma StableInPlace(p: Printer, m: Json)
    requires m.Obj? && Stable(p, m).Some?
    ensures Stable(p, m).value.Obj?
    ensures var ms := Stable(p, m).value.members;
      InPlace(ms, 7) && HasKey(ms, ROLE) && HasKey(ms, CONTENT)
  {
    hide StableFields, Find, Place;
    var f := StableFields(p, m.members).value;
    Places();
    assert InPlace([], 0) && [] + Field(ROLE, Some(Str(f.role))) == [Member(ROLE, Str(f.role))];
    FieldInPlace([], ROLE, Some(Str(f.role)), 0);
    var a := [Member(ROLE, Str(f.role))];
    FieldInPlace(a, NAME, f.name, 1);
    var b := a + Field(NAME, f.name);
    FieldInPlace(b, CALL_ID, f.callId, 2);
    var c := b + Field(CALL_ID, f.callId);
    FieldInPlace(c, CALLS, f.calls, 3);
    var d := c + Field(CALLS, f.calls);
    FieldInPlace(d, FUNCTION_CALL, f.functionCall, 4);
    var e := d + Field(FUNCTION_CALL, f.functionCall);
    FieldInPlace(e, CONTENT, Some(f.content), 5);
    FieldInPlace(e + [Member(CONTENT, f.content)], REASONING, f.reasoning, 6);
    BuildFind(f, ROLE);
    BuildFind(f, CONTENT);
  }

  lemma Places()
    ensures Place(ROLE) == 0 && Place(NAME) == 1 && Place(CALL_ID) == 2 && Place(CALLS) == 3
    ensures Place(FUNCTION_CALL) == 4 && Place(CONTENT) == 5 && Place(REASONING) == 6
  {
    MessageKeysDiffer();
  }

  // ---------- messages that say the same ----------

  /** The order of members says nothing. */
  lemma MemberOrderSaysNothing(p: Printer, a: seq<Member>, b: seq<Member>)
    requires PrintsScalars(p) && Wf(Obj(a)) && Wf(Obj(b)) && Stable(p, Obj(a)).Some?
    requires forall k :: Find(a, k) == Find(b, k)
    ensures Stable(p, Obj(a)) == Stable(p, Obj(b))
  {
    hide PrintsScalars, Stable, Find, ReadContent, ReadCallList, ReadCalled, ReadRole, ReadName, ReadReasoning;
    StableDecides(p, Obj(a), Obj(b));
  }

  /** Neither does the form that a text is given in. */
  lemma TextFormSaysNothing(p: Printer, role: Text, s: Text, calling: bool)
    requires s != []
    ensures var said := Some(Said(ReadText(s, role)));
      && ReadContent(p, role, Str(s), calling) == said
      && ReadContent(p, role, Arr([Str(s)]), calling) == said
      && ReadContent(p, role, Arr([TextPart(s)]), calling) == said
      && ReadContent(p, role, TextPart(s), calling) == said
  {
    hide ReadText, Lower;
    LowerText();
    var ms := TextPart(s).members;
    assert ms[1..] == [Member(TEXT, Str(s))];
    assert Find(ms, TEXT) == Find(ms[1..], TEXT) == Some(Str(s));
    assert Get(ms, TYPE) == Str(TEXT) && Get(ms, TEXT) == Str(s);
    OnePart(p, Str(s), s);
    OnePart(p, TextPart(s), s);
  }

  lemma OnePart(p: Printer, part: Json, s: Text)
    requires ReadPart(p, part) == Some([Words(s)])
    ensures ReadParts(p, [part]) == Some([Words(s)]) && OnlyWords([Words(s)]) && WordsOf([Words(s)]) == s
  {
    hide ReadPart;
    assert [part][1..] == [] && [Words(s)] + [] == [Words(s)];
  }

  /** Nor do the line endings of a system text. */
  lemma LineEndingsSayNothing(s: Text, t: Text)
    requires LinesOf(s) == LinesOf(t)
    ensures StableText(s, T("system")) == StableText(t, T("system"))
  {
    hide UnixLines, LinesOf;
    UnixLinesAreLines(s);
    UnixLinesAreLines(t);
  }

  /** But the order of members inside a function does: these two calls are equal values with different stable forms. */
  lemma FunctionOrderSays(p: Printer, name: Text)
    requires PrintsScalars(p)
    ensures var n, a := Member(NAME, Str(name)), Member(ARGUMENTS, Str(EMPTY_OBJECT));
      var x, y := Obj([Member(FUNCTION, Obj([n, a]))]), Obj([Member(FUNCTION, Obj([a, n]))]);
      SameValue(x, y) && StableCall(p, x) != StableCall(p, y)
  {
    hide StableCall, ReadArgs, PrintsScalars, RestOf;
    MessageKeysDiffer();
    KeysDiffer();
    var n, a := Member(NAME, Str(name)), Member(ARGUMENTS, Str(EMPTY_OBJECT));
    var x, y := Obj([Member(FUNCTION, Obj([n, a]))]), Obj([Member(FUNCTION, Obj([a, n]))]);
    TwoMembers(n, a);
    TwoMembers(a, n);
    assert MeaningMembers([n, a]) == MeaningMembers([a, n]);
    OneMember(Member(FUNCTION, Obj([n, a])));
    OneMember(Member(FUNCTION, Obj([a, n])));
    CallDecides(p, x, y);
    assert ReadFn(p, [n, a]).front == [n] + Before([n, a][1..], ARGUMENTS);
    assert ReadFn(p, [a, n]).front == [];
  }

  lemma OneMember(m: Member)
    requires Wf(m.val)
    ensures Wf(Obj([m])) && Find([m], m.key) == Some(m.val) && MeaningMembers([m]) == map[m.key := Meaning(m.val)]
  {
    assert [m][1..] == [];
  }

  lemma TwoMembers(m: Member, n: Member)
    requires m.key != n.key && Wf(m.val) && Wf(n.val)
    ensures Wf(Obj([m, n])) && MeaningMembers([m, n]) == map[m.key := Meaning(m.val), n.key := Meaning(n.val)]
  {
    assert [m, n][1..] == [n];
    OneMember(n);
  }
}
