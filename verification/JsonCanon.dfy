/**
 Canonical form of JSON values: object keys sorted at every depth.  `Meaning` is the reference
 definition of equality up to key order (Python's `==` on dicts and lists).
 */
module JsonCanon {
  import opened Texts
  import opened Json
  import opened JsonLaws

  /** A JSON value whose objects are maps: what Python's `==` looks at. */
  datatype Val =
    | VNull
    | VBool(b: bool)
    | VNum(lexeme: Text)
    | VStr(s: Text)
    | VArr(items: seq<Val>)
    | VObj(fields: map<Text, Val>)

  function Meaning(v: Json): Val
    decreases v, 0
  {
    match v
    case Null => VNull
    case Bool(b) => VBool(b)
    case Num(l) => VNum(l)
    case Str(s) => VStr(s)
    case Arr(items) => VArr(MeaningItems(items))
    case Obj(ms) => VObj(MeaningMembers(ms))
  }

  function MeaningItems(vs: seq<Json>): (r: seq<Val>)
    ensures |r| == |vs|
    decreases vs, 0
  {
    if vs == [] then [] else [Meaning(vs[0])] + MeaningItems(vs[1..])
  }

  function MeaningMembers(ms: seq<Member>): (r: map<Text, Val>)
    ensures forall k :: k in r <==> HasKey(ms, k)
    decreases ms, 0
  {
    if ms == [] then map[] else MeaningMembers(ms[1..])[ms[0].key := Meaning(ms[0].val)]
  }

  /** Python's `==` on JSON values. */
  predicate SameValue(a: Json, b: Json) {
    Meaning(a) == Meaning(b)
  }

  // ---------- the order of keys ----------

  /** Code point order, as `sorted(keys, key=str)` uses it. */
  predicate Less(a: Text, b: Text) {
    b != [] && (a == [] || a[0] < b[0] || (a[0] == b[0] && Less(a[1..], b[1..])))
  }

  lemma {:induction false} LessTotal(a: Text, b: Text)
    ensures Less(a, b) || Less(b, a) || a == b
    ensures !(Less(a, b) && Less(b, a))
    ensures !Less(a, a)
  {
    if a != [] {
      if b != [] {
        LessTotal(a[1..], b[1..]);
        if a[0] == b[0] && a[1..] == b[1..] {
          assert a == [a[0]] + a[1..] == b;
        }
      }
      LessTotal(a[1..], []);
      NotLessSelf(a);
    }
  }

  lemma {:induction false} NotLessSelf(a: Text)
    ensures !Less(a, a)
  {
    if a != [] { NotLessSelf(a[1..]); }
  }

  lemma {:induction false} LessTransitive(a: Text, b: Text, c: Text)
    requires Less(a, b) && Less(b, c)
    ensures Less(a, c)
  {
    if a != [] && a[0] == b[0] && b[0] == c[0] {
      LessTransitive(a[1..], b[1..], c[1..]);
    }
  }

  /** Keys strictly ascending. */
  predicate Sorted(ms: seq<Member>) {
    |ms| > 1 ==> Less(ms[0].key, ms[1].key) && Sorted(ms[1..])
  }

  lemma {:induction false} SortedHeadLeast(ms: seq<Member>, k: Text)
    requires Sorted(ms) && ms != [] && HasKey(ms[1..], k)
    ensures Less(ms[0].key, k)
  {
    if ms[1].key != k {
      SortedHeadLeast(ms[1..], k);
      LessTransitive(ms[0].key, ms[1].key, k);
    }
  }

  lemma {:induction false} SortedUnique(ms: seq<Member>)
    requires Sorted(ms)
    ensures UniqueKeys(ms)
  {
    if ms != [] {
      SortedUnique(ms[1..]);
      if HasKey(ms[1..], ms[0].key) {
        SortedHeadLeast(ms, ms[0].key);
        NotLessSelf(ms[0].key);
      }
    }
  }

  // ---------- canonicalisation ----------

  /** Insert by key, after any key that is not greater. */
  function Insert(m: Member, ms: seq<Member>): seq<Member> {
    if ms == [] || Less(m.key, ms[0].key) then [m] + ms else [ms[0]] + Insert(m, ms[1..])
  }

  /** `_canonicalize_json_value`. */
  function Canon(v: Json): Json
    decreases v, 0
  {
    match v
    case Arr(items) => Arr(CanonItems(items))
    case Obj(ms) => Obj(CanonMembers(ms))
    case _ => v
  }

  function CanonItems(vs: seq<Json>): seq<Json>
    decreases vs, 0
  {
    if vs == [] then [] else [Canon(vs[0])] + CanonItems(vs[1..])
  }

  function CanonMembers(ms: seq<Member>): seq<Member>
    decreases ms, 0
  {
    if ms == [] then [] else Insert(Member(ms[0].key, Canon(ms[0].val)), CanonMembers(ms[1..]))
  }

  /** Every object in `v` has its keys in strictly ascending order. */
  predicate IsCanon(v: Json)
    decreases v, 0
  {
    match v
    case Arr(items) => IsCanonItems(items)
    case Obj(ms) => Sorted(ms) && IsCanonMembers(ms)
    case _ => true
  }

  predicate IsCanonItems(vs: seq<Json>)
    decreases vs, 0
  {
    vs != [] ==> IsCanon(vs[0]) && IsCanonItems(vs[1..])
  }

  predicate IsCanonMembers(ms: seq<Member>)
    decreases ms, 0
  {
    ms != [] ==> IsCanon(ms[0].val) && IsCanonMembers(ms[1..])
  }

  lemma {:induction false} InsertSorted(m: Member, ms: seq<Member>)
    requires Sorted(ms) && !HasKey(ms, m.key)
    ensures Sorted(Insert(m, ms))
    ensures forall k :: HasKey(Insert(m, ms), k) <==> HasKey(ms, k) || k == m.key
    ensures MeaningMembers(Insert(m, ms)) == MeaningMembers(ms)[m.key := Meaning(m.val)]
    ensures IsCanon(m.val) && IsCanonMembers(ms) ==> IsCanonMembers(Insert(m, ms))
    ensures Wf(m.val) && WfMembers(ms) ==> WfMembers(Insert(m, ms))
  {
    var r := Insert(m, ms);
    if ms == [] || Less(m.key, ms[0].key) {
      assert r[1..] == ms;
    } else {
      InsertSorted(m, ms[1..]);
      assert r[1..] == Insert(m, ms[1..]);
      LessTotal(m.key, ms[0].key);
    }
  }

  lemma {:induction false} CanonIsCanon(v: Json)
    requires Wf(v)
    ensures IsCanon(Canon(v)) && Wf(Canon(v))
    ensures SameValue(Canon(v), v)
    decreases v, 0
  {
    match v
    case Arr(items) => CanonItemsIsCanon(items);
    case Obj(ms) => CanonMembersIsCanon(ms); SortedUnique(CanonMembers(ms));
    case _ =>
  }

  lemma {:induction false} CanonItemsIsCanon(vs: seq<Json>)
    requires WfItems(vs)
    ensures IsCanonItems(CanonItems(vs)) && WfItems(CanonItems(vs))
    ensures MeaningItems(CanonItems(vs)) == MeaningItems(vs)
    decreases vs, 0
  {
    if vs != [] {
      CanonIsCanon(vs[0]);
      CanonItemsIsCanon(vs[1..]);
    }
  }

  lemma {:induction false} CanonMembersIsCanon(ms: seq<Member>)
    requires WfMembers(ms) && UniqueKeys(ms)
    ensures Sorted(CanonMembers(ms)) && IsCanonMembers(CanonMembers(ms)) && WfMembers(CanonMembers(ms))
    ensures forall k :: HasKey(CanonMembers(ms), k) <==> HasKey(ms, k)
    ensures MeaningMembers(CanonMembers(ms)) == MeaningMembers(ms)
    decreases ms, 0
  {
    if ms != [] {
      CanonIsCanon(ms[0].val);
      CanonMembersIsCanon(ms[1..]);
      InsertSorted(Member(ms[0].key, Canon(ms[0].val)), CanonMembers(ms[1..]));
    }
  }

  /** Canonical values with the same meaning are the same value. */
  lemma {:induction false} CanonUnique(a: Json, b: Json)
    requires IsCanon(a) && IsCanon(b) && SameValue(a, b)
    ensures a == b
    decreases a, 0
  {
    match a
    case Arr(items) => CanonItemsUnique(items, b.items);
    case Obj(ms) => CanonMembersUnique(ms, b.members);
    case _ =>
  }

  lemma {:induction false} CanonItemsUnique(a: seq<Json>, b: seq<Json>)
    requires IsCanonItems(a) && IsCanonItems(b) && MeaningItems(a) == MeaningItems(b)
    ensures a == b
    decreases a, 0
  {
    if a != [] {
      assert MeaningItems(a)[0] == MeaningItems(b)[0] && MeaningItems(a)[1..] == MeaningItems(b)[1..];
      CanonUnique(a[0], b[0]);
      CanonItemsUnique(a[1..], b[1..]);
      assert a == [a[0]] + a[1..] && b == [b[0]] + b[1..];
    }
  }

  lemma EmptyMeaning(ms: seq<Member>)
    ensures MeaningMembers(ms) == map[] <==> ms == []
  {
    if ms != [] { assert ms[0].key in MeaningMembers(ms); }
  }

  /** Dicts with sorted keys and the same meaning begin with the same key. */
  lemma SameFirstKey(a: seq<Member>, b: seq<Member>)
    requires a != [] && b != [] && Sorted(a) && Sorted(b) && MeaningMembers(a) == MeaningMembers(b)
    ensures a[0].key == b[0].key
  {
    hide Meaning, Less;
    if a[0].key != b[0].key {
      assert a[0].key in MeaningMembers(a) && b[0].key in MeaningMembers(b);
      SortedHeadLeast(a, b[0].key);
      SortedHeadLeast(b, a[0].key);
      LessTotal(a[0].key, b[0].key);
    }
  }

  /** The rest of a dict means what the dict means without its first key. */
  lemma MeaningOfRest(ms: seq<Member>)
    requires ms != [] && Sorted(ms)
    ensures MeaningMembers(ms[1..]) == MeaningMembers(ms) - {ms[0].key}
    ensures ms[0].key in MeaningMembers(ms) && MeaningMembers(ms)[ms[0].key] == Meaning(ms[0].val)
  {
    hide Meaning;
    SortedUnique(ms);
  }

  lemma {:induction false} CanonMembersUnique(a: seq<Member>, b: seq<Member>)
    requires Sorted(a) && Sorted(b) && IsCanonMembers(a) && IsCanonMembers(b)
    requires MeaningMembers(a) == MeaningMembers(b)
    ensures a == b
    decreases a, 0
  {
    hide Meaning, MeaningMembers;
    EmptyMeaning(a);
    EmptyMeaning(b);
    if a != [] {
      SameFirstKey(a, b);
      MeaningOfRest(a);
      MeaningOfRest(b);
      CanonUnique(a[0].val, b[0].val);
      CanonMembersUnique(a[1..], b[1..]);
      assert a == [a[0]] + a[1..] && b == [b[0]] + b[1..];
    }
  }

  /** Two values canonicalise to the same value exactly when they differ only in key order. */
  lemma CanonIsNormalForm(a: Json, b: Json)
    requires Wf(a) && Wf(b)
    ensures Canon(a) == Canon(b) <==> SameValue(a, b)
  {
    CanonIsCanon(a);
    CanonIsCanon(b);
    if SameValue(a, b) {
      CanonUnique(Canon(a), Canon(b));
    }
  }

  lemma CanonIdempotent(v: Json)
    requires Wf(v)
    ensures Canon(Canon(v)) == Canon(v)
  {
    CanonIsCanon(v);
    CanonIsNormalForm(Canon(v), v);
  }

  // ---------- canonical text ----------

  /** What `_canonical_json_text` may be given. */
  datatype Raw = Missing | Quoted(s: Text) | Parsed(v: Json)

  predicate IsContainer(v: Json) { v.Obj? || v.Arr? }

  /** `_canonical_json_text`: compact, key-sorted text of an object or array. */
  function CanonicalText(raw: Raw): Option<Text> {
    match raw
    case Missing => None
    case Parsed(v) => if IsContainer(v) then Some(Dumps(Canon(v), false)) else None
    case Quoted(s) =>
      var t := Strip(s);
      if t == [] || (t[0] != LBRACE && t[0] != LBRACKET) then None
      else
        match Loads(t)
        case None => None
        case Some(v) => if IsContainer(v) then Some(Dumps(Canon(v), false)) else None
  }

  /** The value that a raw argument stands for. */
  function RawValue(raw: Raw): Option<Json> {
    match raw
    case Missing => None
    case Parsed(v) => Some(v)
    case Quoted(s) => Loads(Strip(s))
  }

  lemma DumpsLoads(v: Json, spaced: bool)
    requires Wf(v)
    ensures Loads(Dumps(v, spaced)) == Some(v)
  {
    DumpsStart(v, spaced);
    DumpsRoundTrip(v, spaced);
    NoSkip(Dumps(v, spaced), 0);
  }

  /** The printed text of an object or array is a whole container text. */
  lemma DumpsContainer(v: Json, spaced: bool)
    requires Wf(v) && IsContainer(v)
    ensures ContainerText(Dumps(v, spaced))
    ensures Trimmed(Dumps(v, spaced))
  {
    DumpsStart(v, spaced);
    DumpsRoundTrip(v, spaced);
    ContainerEnds(Dumps(v, spaced), 0);
  }

  lemma LoadsWf(s: Text)
    requires Loads(s).Some?
    ensures Wf(Loads(s).value)
  {
    ParseWf(s, SkipWs(s, 0));
  }

  /** A text that reads as an object or array begins like one. */
  lemma ContainerStarts(s: Text)
    requires Loads(s).Some? && IsContainer(Loads(s).value) && Trimmed(s)
    ensures s != [] && (s[0] == LBRACE || s[0] == LBRACKET)
  {
    hide ParseItems, ParseMembers;
    if s != [] { NoSkip(s, 0); }
  }

  /** The canonical text reads back as a value equal to the argument's. */
  lemma CanonicalTextReadsBack(raw: Raw)
    requires CanonicalText(raw).Some?
    requires raw.Parsed? ==> Wf(raw.v)
    ensures RawValue(raw).Some? && Loads(CanonicalText(raw).value).Some?
    ensures Loads(CanonicalText(raw).value) == Some(Canon(RawValue(raw).value))
    ensures SameValue(Loads(CanonicalText(raw).value).value, RawValue(raw).value)
  {
    if raw.Quoted? { LoadsWf(Strip(raw.s)); }
    var v := RawValue(raw).value;
    CanonIsCanon(v);
    DumpsLoads(Canon(v), false);
  }

  /** Canonicalising a canonical text changes nothing. */
  lemma CanonicalTextIdempotent(raw: Raw)
    requires CanonicalText(raw).Some?
    requires raw.Parsed? ==> Wf(raw.v)
    ensures CanonicalText(Quoted(CanonicalText(raw).value)) == CanonicalText(raw)
  {
    if raw.Quoted? { LoadsWf(Strip(raw.s)); }
    var v := RawValue(raw).value;
    CanonIsCanon(v);
    var t := Dumps(Canon(v), false);
    DumpsLoads(Canon(v), false);
    DumpsContainer(Canon(v), false);
    TrimmedStrip(t);
    CanonIdempotent(v);
  }

  /** Two arguments get the same canonical text exactly when their values differ only in key order. */
  lemma CanonicalTextDecidesEquality(a: Raw, b: Raw)
    requires CanonicalText(a).Some? && CanonicalText(b).Some?
    requires (a.Parsed? ==> Wf(a.v)) && (b.Parsed? ==> Wf(b.v))
    ensures CanonicalText(a) == CanonicalText(b) <==>
      SameValue(RawValue(a).value, RawValue(b).value)
  {
    if a.Quoted? { LoadsWf(Strip(a.s)); }
    if b.Quoted? { LoadsWf(Strip(b.s)); }
    CanonicalTextReadsBack(a);
    CanonicalTextReadsBack(b);
    CanonIsNormalForm(RawValue(a).value, RawValue(b).value);
  }
}
