/** Making a history message stable twice is making it stable once. */
module StabilizeLaws {
  import opened Texts
  import opened Json
  import opened JsonCanon
  import opened Stabilize

  // ---------- dicts ----------

  lemma {:induction false} FindConcat(a: seq<Member>, b: seq<Member>, k: Text)
    ensures Find(a + b, k) == if HasKey(a, k) then Find(a, k) else Find(b, k)
  {
    if a == [] {
      assert a + b == b;
    } else {
      assert (a + b)[1..] == a[1..] + b;
      FindConcat(a[1..], b, k);
    }
  }

  lemma FindField(k: Text, v: Option<Json>, x: Text)
    ensures Find(Field(k, v), x) == if x == k then v else None
  {
  }

  lemma {:induction false} PutSame(ms: seq<Member>, k: Text, v: Json)
    requires Find(ms, k) == Some(v)
    ensures Put(ms, Member(k, v)) == ms
  {
    if ms[0].key != k { PutSame(ms[1..], k, v); }
  }

  lemma {:induction false} ExceptConcat(a: seq<Member>, b: seq<Member>, ks: set<Text>)
    ensures Except(a + b, ks) == Except(a, ks) + Except(b, ks)
  {
    if a == [] {
      assert a + b == b;
    } else {
      assert (a + b)[1..] == a[1..] + b;
      ExceptConcat(a[1..], b, ks);
    }
  }

  lemma {:induction false} ExceptFind(ms: seq<Member>, ks: set<Text>, k: Text)
    ensures Find(Except(ms, ks), k) == if k in ks then None else Find(ms, k)
  {
    if ms != [] { ExceptFind(ms[1..], ks, k); }
  }

  /** Leaving out keys that are not there. */
  lemma {:induction false} ExceptNone(ms: seq<Member>, ks: set<Text>)
    requires forall k :: k in ks ==> !HasKey(ms, k)
    ensures Except(ms, ks) == ms
  {
    if ms != [] {
      assert HasKey(ms, ms[0].key);
      assert forall k :: k in ks ==> !HasKey(ms[1..], k);
      ExceptNone(ms[1..], ks);
    }
  }

  lemma {:induction false} ExceptTwice(ms: seq<Member>, a: set<Text>, b: set<Text>)
    ensures Except(Except(ms, a), b) == Except(ms, a + b)
  {
    if ms != [] {
      ExceptTwice(ms[1..], a, b);
      if ms[0].key !in a { assert Except(ms, a)[1..] == Except(ms[1..], a); }
    }
  }

  // ---------- arguments ----------

  /** Stable arguments are their own stable form. */
  lemma StableArgsIdempotent(p: Printer, v: Json)
    requires PrintsScalars(p) && Wf(v)
    ensures StableArgs(p, Str(StableArgs(p, v))) == StableArgs(p, v)
  {
    hide CanonicalText;
    if CanonicalText(RawOf(v)).Some? {
      CanonicalTextIdempotent(RawOf(v));
    } else if v.Null? {
      EmptyObjectIsCanonical();
    } else if !v.Str? {
      assert !IsContainer(v) by { ContainersHaveText(v); }
    }
  }

  lemma ContainersHaveText(v: Json)
    ensures IsContainer(v) ==> CanonicalText(RawOf(v)).Some?
  {
  }

  lemma EmptyObjectIsCanonical()
    ensures CanonicalText(Quoted(EMPTY_OBJECT)) == Some(EMPTY_OBJECT)
  {
    var v := Obj([]);
    assert CanonMembers([]) == [];
    assert CanonicalText(Parsed(v)) == Some(EMPTY_OBJECT);
    CanonicalTextIdempotent(Parsed(v));
  }

  lemma StableFunctionIdempotent(p: Printer, fn: seq<Member>)
    requires PrintsScalars(p) && Wf(Get(fn, ARGUMENTS))
    ensures StableFunction(p, StableFunction(p, fn)) == StableFunction(p, fn)
  {
    hide StableArgs;
    var v := Str(StableArgs(p, Get(fn, ARGUMENTS)));
    StableArgsIdempotent(p, Get(fn, ARGUMENTS));
    PutHasKey(fn, Member(ARGUMENTS, v), ARGUMENTS);
    PutSame(StableFunction(p, fn), ARGUMENTS, v);
  }

  lemma {:induction false} WfFind(ms: seq<Member>, k: Text)
    requires WfMembers(ms)
    ensures Wf(Get(ms, k))
  {
    if ms != [] { WfFind(ms[1..], k); }
  }

  // ---------- tool calls ----------

  lemma KeysDiffer()
    ensures ID != TYPE && ID != FUNCTION && TYPE != FUNCTION
    ensures ID !in DroppedKeys() && TYPE !in DroppedKeys() && FUNCTION !in DroppedKeys()
    ensures FUNCTION != []
  {
    assert |ID| == 2 && |TYPE| == 4 && |FUNCTION| == 8;
    assert |T("index")| == 5 && |T("extra_content")| == 13 && |T("thought_signature")| == 17;
  }

  /** What a lookup in an ordered call gives. */
  lemma OrderedFind(item: seq<Member>, k: Text)
    ensures Find(OrderedCall(item), k) ==
      if k == TYPE then Some(if Truthy(Get(item, TYPE)) then Get(item, TYPE) else Str(FUNCTION)) else Find(item, k)
  {
    hide Except, Find, Truthy;
    KeysDiffer();
    var id, ty := Get(item, ID), Get(item, TYPE);
    var a := Field(ID, if id.Null? then None else Some(id));
    var b := [Member(TYPE, if Truthy(ty) then ty else Str(FUNCTION))];
    var c := Field(FUNCTION, Find(item, FUNCTION));
    var rest := Except(item, if id.Null? then {TYPE, FUNCTION} else {ID, TYPE, FUNCTION});
    assert b == Field(TYPE, Some(b[0].val));
    FindField(ID, if id.Null? then None else Some(id), k);
    FindField(TYPE, Some(b[0].val), k);
    FindField(FUNCTION, Find(item, FUNCTION), k);
    FindConcat(a + b + c, rest, k);
    FindConcat(a + b, c, k);
    FindConcat(a, b, k);
    ExceptFind(item, if id.Null? then {TYPE, FUNCTION} else {ID, TYPE, FUNCTION}, k);
  }

  lemma OrderedRest(item: seq<Member>, ks: set<Text>)
    requires ks == if Get(item, ID).Null? then {TYPE, FUNCTION} else {ID, TYPE, FUNCTION}
    ensures Except(OrderedCall(item), ks) == Except(item, ks)
  {
    hide Except, Find, Truthy;
    KeysDiffer();
    var id, ty := Get(item, ID), Get(item, TYPE);
    var a := Field(ID, if id.Null? then None else Some(id));
    var b := [Member(TYPE, if Truthy(ty) then ty else Str(FUNCTION))];
    var c := Field(FUNCTION, Find(item, FUNCTION));
    ExceptConcat(a + b + c, Except(item, ks), ks);
    ExceptConcat(a + b, c, ks);
    ExceptConcat(a, b, ks);
    ExceptField(ID, if id.Null? then None else Some(id), ks);
    ExceptField(TYPE, Some(b[0].val), ks);
    ExceptField(FUNCTION, Find(item, FUNCTION), ks);
    ExceptTwice(item, ks, ks);
    assert ks + ks == ks;
  }

  lemma ExceptField(k: Text, v: Option<Json>, ks: set<Text>)
    requires k in ks || v.None?
    ensures Except(Field(k, v), ks) == []
  {
  }

  lemma OrderedIdempotent(item: seq<Member>)
    ensures OrderedCall(OrderedCall(item)) == OrderedCall(item)
  {
    hide Except, Find, OrderedCall, Truthy;
    KeysDiffer();
    var r := OrderedCall(item);
    OrderedFind(item, ID);
    OrderedFind(item, TYPE);
    OrderedFind(item, FUNCTION);
    OrderedRest(item, if Get(item, ID).Null? then {TYPE, FUNCTION} else {ID, TYPE, FUNCTION});
    TruthyFunction();
    SameOrdered(item, r);
  }

  lemma TruthyFunction()
    ensures Truthy(Str(FUNCTION))
  {
    KeysDiffer();
  }

  /** `OrderedCall` looks at these only. */
  lemma SameOrdered(a: seq<Member>, b: seq<Member>)
    requires Get(a, ID) == Get(b, ID) && Find(a, FUNCTION) == Find(b, FUNCTION)
    requires (if Truthy(Get(a, TYPE)) then Get(a, TYPE) else Str(FUNCTION))
             == (if Truthy(Get(b, TYPE)) then Get(b, TYPE) else Str(FUNCTION))
    requires var ks := if Get(a, ID).Null? then {TYPE, FUNCTION} else {ID, TYPE, FUNCTION};
      Except(a, ks) == Except(b, ks)
    ensures OrderedCall(a) == OrderedCall(b)
  {
    hide Except, Find, Truthy;
  }

  lemma OrderedDropped(item: seq<Member>)
    requires Except(item, DroppedKeys()) == item
    ensures Except(OrderedCall(item), DroppedKeys()) == OrderedCall(item)
  {
    hide Except, Find, OrderedCall, DroppedKeys;
    forall k | k in DroppedKeys() ensures !HasKey(OrderedCall(item), k) {
      KeysDiffer();
      OrderedFind(item, k);
      ExceptFind(item, DroppedKeys(), k);
    }
    ExceptNone(OrderedCall(item), DroppedKeys());
  }

  lemma CleanIsClean(p: Printer, ms: seq<Member>)
    requires PrintsScalars(p) && WfMembers(ms)
    ensures var r := CleanCall(p, ms);
      && Except(r, DroppedKeys()) == r
      && (Get(r, FUNCTION).Obj? ==> StableFunction(p, Get(r, FUNCTION).members) == Get(r, FUNCTION).members)
  {
    hide Except, Find, StableFunction, DroppedKeys, PrintsScalars, Put;
    var item := Except(ms, DroppedKeys());
    ExceptTwice(ms, DroppedKeys(), DroppedKeys());
    assert DroppedKeys() + DroppedKeys() == DroppedKeys();
    var f := Get(item, FUNCTION);
    if f.Obj? {
      var v := Obj(StableFunction(p, f.members));
      PutHasKey(item, Member(FUNCTION, v), FUNCTION);
      forall k | k in DroppedKeys() ensures !HasKey(Put(item, Member(FUNCTION, v)), k) {
        KeysDiffer();
        PutHasKey(item, Member(FUNCTION, v), k);
        ExceptFind(ms, DroppedKeys(), k);
      }
      ExceptNone(Put(item, Member(FUNCTION, v)), DroppedKeys());
      KeysDiffer();
      ExceptFind(ms, DroppedKeys(), FUNCTION);
      WfFind(ms, FUNCTION);
      assert WfMembers(f.members);
      WfFind(f.members, ARGUMENTS);
      StableFunctionIdempotent(p, f.members);
    }
  }

  lemma StableCallIdempotent(p: Printer, raw: Json)
    requires PrintsScalars(p) && Wf(raw)
    ensures StableCall(p, StableCall(p, raw)) == StableCall(p, raw)
  {
    hide Except, Find, OrderedCall, StableFunction, DroppedKeys, PrintsScalars, Put;
    if raw.Obj? {
      var item := CleanCall(p, raw.members);
      CleanIsClean(p, raw.members);
      var r := OrderedCall(item);
      OrderedDropped(item);
      OrderedFind(item, FUNCTION);
      KeysDiffer();
      if Get(item, FUNCTION).Obj? { PutSame(r, FUNCTION, Get(item, FUNCTION)); }
      assert CleanCall(p, r) == r;
      OrderedIdempotent(item);
    }
  }

  lemma {:induction false} StableCallsIdempotent(p: Printer, calls: seq<Json>)
    requires PrintsScalars(p) && WfItems(calls)
    ensures StableCalls(p, StableCalls(p, calls)) == StableCalls(p, calls)
    ensures |StableCalls(p, calls)| == |calls|
  {
    hide StableCall, PrintsScalars;
    if calls != [] {
      StableCallIdempotent(p, calls[0]);
      StableCallsIdempotent(p, calls[1..]);
      var r := StableCalls(p, calls);
      assert r[0] == StableCall(p, calls[0]) && r[1..] == StableCalls(p, calls[1..]);
    }
  }

  // ---------- text ----------

  /** No line break of either kind, nor any other control character. */
  predicate Plain(s: Text) { forall k :: 0 <= k < |s| ==> s[k] >= 0x20 }

  predicate NoCR(s: Text) { forall k :: 0 <= k < |s| ==> s[k] != CR }

  lemma {:induction false} UnixLinesIs(s: Text)
    ensures NoCR(UnixLines(s))
    ensures NoCR(s) ==> UnixLines(s) == s
    decreases |s|
  {
    if s != [] {
      if s[0] == CR && |s| > 1 && s[1] == LF { UnixLinesIs(s[2..]); } else { UnixLinesIs(s[1..]); }
      assert NoCR(s) ==> NoCR(s[1..]);
      assert s == [s[0]] + s[1..];
    }
  }

  lemma RStripTwice(r: Text)
    requires r != [] ==> !IsSpace(r[|r| - 1])
    ensures RStrip(r) == r && RStrip(r + [LF]) == r
  {
    assert (r + [LF])[..|r|] == r;
  }

  lemma StableTextIdempotent(s: Text, role: Text)
    ensures StableText(StableText(s, role), role) == StableText(s, role)
  {
    hide UnixLines, RStrip;
    var n := UnixLines(s);
    var r := RStrip(n);
    UnixLinesIs(s);
    RStripIsPrefix(n);
    RStripTwice(r);
    UnixLinesIs(r);
    UnixLinesIs(r + [LF]);
  }

  /** Text without line breaks and white space at its end stays as it is. */
  lemma PlainIsStable(s: Text, role: Text)
    requires Plain(s) && Trimmed(s)
    ensures StableText(s, role) == s
  {
    hide UnixLines, RStrip;
    UnixLinesIs(s);
    RStripTwice(s);
    RStripIsPrefix(UnixLines(s));
  }

  // ---------- printed JSON has no line breaks ----------

  lemma {:induction false} BodyPlain(s: Text)
    ensures Plain(DumpBody(s))
  {
    if s != [] { BodyPlain(s[1..]); }
  }

  lemma {:induction false} DigitsPlain(s: Text, i: nat)
    requires i <= |s|
    ensures forall k :: i <= k < DigitsEnd(s, i) ==> s[k] >= 0x20
    decreases |s| - i
  {
    if i < DigitsEnd(s, i) { DigitsPlain(s, i + 1); }
  }

  lemma IntPlain(l: Text, i: nat)
    requires i <= |l| && IntEnd(l, i).Some?
    ensures forall k :: i <= k < IntEnd(l, i).value ==> l[k] >= 0x20
  {
    hide DigitsEnd;
    DigitsPlain(l, if l[i] == MINUS then i + 1 else i);
  }

  lemma FracPlain(l: Text, i: nat)
    requires i <= |l|
    ensures forall k :: i <= k < FracEnd(l, i) ==> l[k] >= 0x20
  {
    hide DigitsEnd;
    if i + 1 <= |l| { DigitsPlain(l, i + 1); }
  }

  lemma ExpPlain(l: Text, i: nat)
    requires i <= |l|
    ensures forall k :: i <= k < ExpEnd(l, i) ==> l[k] >= 0x20
  {
    hide DigitsEnd;
    if i + 1 <= |l| { DigitsPlain(l, i + 1); }
    if i + 2 <= |l| { DigitsPlain(l, i + 2); }
  }

  lemma NumberPlain(l: Text)
    requires NumberText(l)
    ensures Plain(l)
  {
    hide IntEnd, FracEnd, ExpEnd;
    if NumberEnd(l, 0) == Some(|l|) {
      var j := IntEnd(l, 0).value;
      IntPlain(l, 0);
      FracPlain(l, j);
      ExpPlain(l, FracEnd(l, j));
    }
  }

  lemma {:induction false} DumpsPlain(v: Json)
    requires Wf(v)
    ensures Plain(Dumps(v, false))
    decreases v, 0
  {
    match v
    case Num(l) => NumberPlain(l);
    case Str(s) => BodyPlain(s);
    case Arr(items) => if items != [] { ItemsPlain(items); }
    case Obj(ms) => if ms != [] { MembersPlain(ms); }
    case _ =>
  }

  lemma {:induction false} ItemsPlain(vs: seq<Json>)
    requires WfItems(vs) && vs != []
    ensures Plain(DumpItems(vs, false))
    decreases vs, 0
  {
    DumpsPlain(vs[0]);
    if |vs| > 1 { ItemsPlain(vs[1..]); }
  }

  lemma {:induction false} MembersPlain(ms: seq<Member>)
    requires WfMembers(ms) && ms != []
    ensures Plain(DumpMembers(ms, false))
    decreases ms, 0
  {
    BodyPlain(ms[0].key);
    DumpsPlain(ms[0].val);
    if |ms| > 1 { MembersPlain(ms[1..]); }
  }

  lemma CanonicalTextIsStable(v: Json, role: Text)
    requires Wf(v) && IsContainer(v)
    ensures CanonicalText(Parsed(v)).Some?
    ensures StableText(CanonicalText(Parsed(v)).value, role) == CanonicalText(Parsed(v)).value
  {
    hide Dumps, StableText;
    CanonIsCanon(v);
    DumpsPlain(Canon(v));
    DumpsContainer(Canon(v), false);
    PlainIsStable(Dumps(Canon(v), false), role);
  }

  // ---------- content ----------

  lemma LowerText()
    ensures Lower(TEXT) == TEXT && Truthy(Str(TEXT)) && TYPE != TEXT && TextType(TEXT)
  {
    assert TEXT[0] == 0x74 && TEXT[1] == 0x65 && TEXT[2] == 0x78 && TEXT[3] == 0x74;
    assert TYPE[1] == 0x79;
    assert TEXT == [0x74, 0x65, 0x78, 0x74];
    assert Lower([0x74]) == [0x74];
    assert Lower([0x78, 0x74]) == [0x78] + Lower([0x74]);
    assert Lower([0x65, 0x78, 0x74]) == [0x65] + Lower([0x78, 0x74]);
    assert Lower([0x74, 0x65, 0x78, 0x74]) == [0x74] + Lower([0x65, 0x78, 0x74]);
  }

  lemma TextPartIs(p: Printer, s: Text)
    ensures StablePart(p, TextPart(s)) == Some([TextPart(s)]) && IsText(TextPart(s))
  {
    hide Lower;
    LowerText();
    var ms := TextPart(s).members;
    assert ms[1..] == [Member(TEXT, Str(s))];
    assert Find(ms, TEXT) == Find(ms[1..], TEXT) == Some(Str(s));
    assert Get(ms, TYPE) == Str(TEXT) && Get(ms, TEXT) == Str(s);
    assert Shown(p, Str(s)) == s;
  }

  lemma StablePartIdempotent(p: Printer, part: Json)
    ensures StablePart(p, part).Some? ==>
      forall x :: x in StablePart(p, part).value ==> StablePart(p, x) == Some([x])
  {
    hide Lower, Truthy, TextType;
    if part.Str? {
      TextPartIs(p, part.s);
    } else if part.Obj? {
      TextPartIs(p, Shown(p, Get(part.members, TEXT)));
    }
  }

  lemma {:induction false} StablePartsFixed(p: Printer, parts: seq<Json>)
    requires forall x :: x in parts ==> StablePart(p, x) == Some([x])
    ensures StableParts(p, parts) == Some(parts)
  {
    hide StablePart;
    if parts != [] {
      StablePartsFixed(p, parts[1..]);
      assert parts == [parts[0]] + parts[1..];
    }
  }

  lemma {:induction false} StablePartsAreFixed(p: Printer, parts: seq<Json>)
    requires StableParts(p, parts).Some?
    ensures forall x :: x in StableParts(p, parts).value ==> StablePart(p, x) == Some([x])
  {
    hide StablePart;
    if parts != [] {
      StablePartIdempotent(p, parts[0]);
      StablePartsAreFixed(p, parts[1..]);
    }
  }

  lemma StableContentIdempotent(p: Printer, role: Text, content: Json, calling: bool)
    requires Wf(content) && StableContent(p, role, content, calling).Some?
    ensures var r := StableContent(p, role, content, calling).value;
      StableContent(p, role, r, calling) == Some(r)
  {
    hide StableText, StableParts, CanonicalText, AllText, JoinedTexts;
    StableTextNothing(role);
    match content
    case Str(s) => StableTextIdempotent(s, role);
    case Arr(items) =>
      var parts := StableParts(p, items).value;
      StablePartsAreFixed(p, items);
      StablePartsFixed(p, parts);
      StableTextIdempotent(JoinedTexts(p, parts), role);
    case Obj(ms) =>
      StableTextIdempotent(Shown(p, Get(ms, TEXT)), role);
      CanonicalTextIsStable(content, role);
    case _ =>
  }

  lemma StableTextNothing(role: Text)
    ensures StableText([], role) == []
  {
  }

  // ---------- the message ----------

  lemma MessageKeysDiffer()
    ensures ROLE != NAME && ROLE != CALL_ID && ROLE != CALLS && ROLE != FUNCTION_CALL && ROLE != CONTENT
      && ROLE != REASONING
    ensures NAME != CALL_ID && NAME != CALLS && NAME != FUNCTION_CALL && NAME != CONTENT && NAME != REASONING
    ensures CALL_ID != CALLS && CALL_ID != FUNCTION_CALL && CALL_ID != CONTENT && CALL_ID != REASONING
    ensures CALLS != FUNCTION_CALL && CALLS != CONTENT && CALLS != REASONING
    ensures FUNCTION_CALL != CONTENT && FUNCTION_CALL != REASONING && CONTENT != REASONING
    ensures NAME != ARGUMENTS
  {
    assert ROLE[0] == 0x72 && NAME[0] == 0x6E;
    assert |ROLE| == 4 && |NAME| == 4 && |CALL_ID| == 12 && |CALLS| == 10 && |FUNCTION_CALL| == 13;
    assert |CONTENT| == 7 && |REASONING| == 17 && |ARGUMENTS| == 9;
  }

  /** What a built message has under a key. */
  lemma BuildFind(f: Fields, k: Text)
    ensures Find(Build(f).members, k) ==
      if k == ROLE then Some(Str(f.role)) else if k == NAME then f.name else if k == CALL_ID then f.callId
      else if k == CALLS then f.calls else if k == FUNCTION_CALL then f.functionCall
      else if k == CONTENT then Some(f.content) else if k == REASONING then f.reasoning else None
  {
    hide Find;
    MessageKeysDiffer();
    var a := Field(ROLE, Some(Str(f.role)));
    var b, c, d := Field(NAME, f.name), Field(CALL_ID, f.callId), Field(CALLS, f.calls);
    var e, g, h := Field(FUNCTION_CALL, f.functionCall), Field(CONTENT, Some(f.content)), Field(REASONING, f.reasoning);
    FindConcat(a + b + c + d + e + g, h, k);
    FindConcat(a + b + c + d + e, g, k);
    FindConcat(a + b + c + d, e, k);
    FindConcat(a + b + c, d, k);
    FindConcat(a + b, c, k);
    FindConcat(a, b, k);
    FindField(ROLE, Some(Str(f.role)), k);
    FindField(NAME, f.name, k);
    FindField(CALL_ID, f.callId, k);
    FindField(CALLS, f.calls, k);
    FindField(FUNCTION_CALL, f.functionCall, k);
    FindField(CONTENT, Some(f.content), k);
    FindField(REASONING, f.reasoning, k);
  }

  lemma StableRoleIdempotent(v: Json)
    requires v.Str? || !Truthy(v)
    ensures StableRole(Str(StableRole(v))) == StableRole(v) && Truthy(Str(StableRole(v)))
  {
    hide Strip;
    if v.Str? { StripIdempotent(v.s); }
    var user := T("user");
    assert |user| == 4 && user[0] == 0x75 && user[3] == 0x72;
    assert Trimmed(user);
    TrimmedStrip(user);
  }

  lemma GivenIdempotent(v: Json)
    ensures Given(if Given(v).Some? then Given(v).value else Null) == Given(v)
  {
  }

  lemma CallsFieldIdempotent(p: Printer, v: Json)
    requires PrintsScalars(p) && Wf(v)
    ensures CallsField(p, if CallsField(p, v).Some? then CallsField(p, v).value else Null) == CallsField(p, v)
  {
    hide StableCalls, PrintsScalars;
    if v.Arr? && v.items != [] { StableCallsIdempotent(p, v.items); }
  }

  lemma FunctionCallFieldIdempotent(p: Printer, v: Json)
    requires PrintsScalars(p) && Wf(v)
    ensures var r := FunctionCallField(p, v);
      FunctionCallField(p, if r.Some? then r.value else Null) == r
  {
    hide StableArgs, PrintsScalars, Truthy;
    var r := FunctionCallField(p, v);
    if r.Some? {
      MessageKeysDiffer();
      WfFind(v.members, ARGUMENTS);
      StableArgsIdempotent(p, Get(v.members, ARGUMENTS));
      var ms := r.value.members;
      assert ms[1..] == [ms[1]];
      assert Find(ms, ARGUMENTS) == Find(ms[1..], ARGUMENTS) == Some(ms[1].val);
      assert Get(ms, NAME) == Get(v.members, NAME);
      assert Get(ms, ARGUMENTS) == ms[1].val;
    }
  }

  /** `_stabilize_message_for_cache` is idempotent wherever it does not raise. */
  lemma StableIdempotent(p: Printer, m: Json)
    requires PrintsScalars(p) && Wf(m) && Stable(p, m).Some?
    ensures Stable(p, Stable(p, m).value) == Stable(p, m)
  {
    hide PrintsScalars, Build, Find, Truthy, StableContent, StableRole, CallsField, FunctionCallField,
      ReasoningField, Given;
    if m.Obj? {
      var ms := m.members;
      var f := StableFields(p, ms).value;
      BuildIsObject(f);
      var r := Build(f).members;
      MessageKeysDiffer();
      BuildFind(f, ROLE);
      BuildFind(f, NAME);
      BuildFind(f, CALL_ID);
      BuildFind(f, CALLS);
      BuildFind(f, FUNCTION_CALL);
      BuildFind(f, CONTENT);
      BuildFind(f, REASONING);
      StableRoleIdempotent(Get(ms, ROLE));
      GivenIdempotent(Get(ms, NAME));
      GivenIdempotent(Get(ms, CALL_ID));
      WfFind(ms, CALLS);
      WfFind(ms, FUNCTION_CALL);
      WfFind(ms, CONTENT);
      CallsFieldIdempotent(p, Get(ms, CALLS));
      FunctionCallFieldIdempotent(p, Get(ms, FUNCTION_CALL));
      StableContentIdempotent(p, f.role, Get(ms, CONTENT), f.calls.Some? || f.functionCall.Some?);
      ReasoningIdempotent(Get(ms, REASONING));
      assert StableFields(p, r) == Some(f);
    }
  }

  lemma BuildIsObject(f: Fields)
    ensures Build(f).Obj?
  {
  }

  lemma ReasoningIdempotent(v: Json)
    ensures ReasoningField(if ReasoningField(v).Some? then ReasoningField(v).value else Null) == ReasoningField(v)
  {
  }
}
