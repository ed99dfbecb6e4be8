/**
 What `merge_tool_argument_delta` makes of whole values that are not re-sends of each other: a later
 object adds to an earlier one, and complete arguments stay complete.
 */
module ToolArgsMerge {
  import opened Texts
  import opened Json
  import opened JsonLaws
  import opened JsonCanon
  import opened ToolArgs

  // ---------- objects ----------

  lemma {:induction false} PutMeaning(ms: seq<Member>, m: Member)
    ensures MeaningMembers(Put(ms, m)) == MeaningMembers(ms)[m.key := Meaning(m.val)]
  {
    hide Meaning;
    if ms != [] {
      var r := Put(ms, m);
      if ms[0].key == m.key {
        assert r[1..] == ms[1..];
      } else {
        PutMeaning(ms[1..], m);
        assert r[1..] == Put(ms[1..], m);
      }
    }
  }

  lemma {:induction false} UpdateMeaning(d: seq<Member>, e: seq<Member>)
    requires UniqueKeys(e)
    ensures MeaningMembers(Update(d, e)) == MeaningMembers(d) + MeaningMembers(e)
    decreases |e|
  {
    hide Meaning, Put;
    if e != [] {
      PutMeaning(d, e[0]);
      UpdateMeaning(Put(d, e[0]), e[1..]);
      UnionStep(MeaningMembers(d), MeaningMembers(e[1..]), e[0].key, Meaning(e[0].val));
    }
  }

  lemma UnionStep(m: map<Text, Val>, n: map<Text, Val>, k: Text, v: Val)
    requires k !in n
    ensures m[k := v] + n == m + n[k := v]
  {
  }

  /** An object added to another: its members win, one level deep. */
  function Added(ms: seq<Member>, es: seq<Member>): Val {
    VObj(MeaningMembers(ms) + MeaningMembers(es))
  }

  /**
   What a merged object has under a key: the later value, where an object adds to an earlier one that
   is not empty.
   */
  function Later(a: seq<Member>, b: seq<Member>, k: Text): Option<Val> {
    match (Find(a, k), Find(b, k))
    case (None, None) => None
    case (Some(v), None) => Some(Meaning(v))
    case (Some(Obj(ms)), Some(Obj(es))) => Some(Added(ms, es))
    case (_, Some(w)) => Some(Meaning(w))
  }

  lemma MergedMeaning(was: Option<Json>, v: Json)
    requires Wf(v)
    ensures Meaning(MergedValue(was, v)) ==
      match (was, v)
      case (Some(Obj(ms)), Obj(es)) => Added(ms, es)
      case _ => Meaning(v)
  {
    if v.Obj? && was.Some? && was.value.Obj? { UpdateMeaning(was.value.members, v.members); }
  }

  lemma {:induction false} MeaningFinds(ms: seq<Member>, k: Text)
    ensures k in MeaningMembers(ms) <==> Find(ms, k).Some?
    ensures k in MeaningMembers(ms) ==> MeaningMembers(ms)[k] == Meaning(Find(ms, k).value)
  {
    hide Meaning;
    if ms != [] { MeaningFinds(ms[1..], k); }
  }

  /** Merging objects, key by key. */
  lemma {:induction false} MergeDictsMeaning(a: seq<Member>, b: seq<Member>, k: Text)
    requires WfMembers(b) && UniqueKeys(b)
    ensures var m := MeaningMembers(MergeDicts(a, b));
      (if k in m then Some(m[k]) else None) == Later(a, b, k)
    decreases |b|
  {
    hide Meaning, MergedValue;
    if b == [] {
      MeaningFinds(a, k);
    } else {
      var m := Member(b[0].key, MergedValue(Find(a, b[0].key), b[0].val));
      MergeDictsMeaning(Put(a, m), b[1..], k);
      PutFinds(a, m, k);
      MergedMeaning(Find(a, b[0].key), b[0].val);
      LaterStep(a, b, m, k);
    }
  }

  lemma PutFinds(ms: seq<Member>, m: Member, k: Text)
    ensures Find(Put(ms, m), k) == if k == m.key then Some(m.val) else Find(ms, k)
  {
    PutHasKey(ms, m, k);
  }

  lemma LaterStep(a: seq<Member>, b: seq<Member>, m: Member, k: Text)
    requires b != [] && UniqueKeys(b) && m.key == b[0].key
    requires Meaning(m.val) == match (Find(a, m.key), b[0].val)
      case (Some(Obj(ms)), Obj(es)) => Added(ms, es)
      case _ => Meaning(b[0].val)
    requires Find(Put(a, m), k) == if k == m.key then Some(m.val) else Find(a, k)
    ensures Later(Put(a, m), b[1..], k) == Later(a, b, k)
  {
    hide MeaningMembers, Put;
    if k == m.key { assert Find(b[1..], k) == None; }
  }

  lemma {:induction false} MergeDictsWf(a: seq<Member>, b: seq<Member>)
    requires WfMembers(a) && UniqueKeys(a) && WfMembers(b) && UniqueKeys(b)
    ensures WfMembers(MergeDicts(a, b)) && UniqueKeys(MergeDicts(a, b))
    decreases |b|
  {
    hide Wf;
    if b != [] {
      var m := Member(b[0].key, MergedValue(Find(a, b[0].key), b[0].val));
      MergedWf(a, b[0].key, b[0].val);
      PutWf(a, m);
      MergeDictsWf(Put(a, m), b[1..]);
    }
  }

  lemma {:induction false} FindWf(ms: seq<Member>, k: Text)
    requires WfMembers(ms) && HasKey(ms, k)
    ensures Wf(Find(ms, k).value)
  {
    hide Wf;
    if ms[0].key != k { FindWf(ms[1..], k); }
  }

  lemma MergedWf(a: seq<Member>, k: Text, v: Json)
    requires WfMembers(a) && Wf(v)
    ensures Wf(MergedValue(Find(a, k), v))
  {
    if HasKey(a, k) {
      FindWf(a, k);
      if Find(a, k).value.Obj? && v.Obj? { UpdateWf(Find(a, k).value.members, v.members); }
    }
  }

  lemma {:induction false} UpdateWf(d: seq<Member>, e: seq<Member>)
    requires WfMembers(d) && UniqueKeys(d) && WfMembers(e)
    ensures WfMembers(Update(d, e)) && UniqueKeys(Update(d, e))
    decreases |e|
  {
    hide Wf;
    if e != [] {
      PutWf(d, e[0]);
      UpdateWf(Put(d, e[0]), e[1..]);
    }
  }

  lemma {:induction false} PutWf(ms: seq<Member>, m: Member)
    requires WfMembers(ms) && UniqueKeys(ms) && Wf(m.val)
    ensures WfMembers(Put(ms, m)) && UniqueKeys(Put(ms, m))
  {
    hide Wf;
    if ms != [] {
      var r := Put(ms, m);
      if ms[0].key == m.key {
        assert r[1..] == ms[1..];
      } else {
        PutWf(ms[1..], m);
        assert r[1..] == Put(ms[1..], m);
        PutHasKey(ms[1..], m, ms[0].key);
      }
    }
  }

  lemma ContainerLoads(t: Text)
    requires ContainerText(t)
    ensures Loads(t).Some? && Wf(Loads(t).value) && Sanitize(t) == t
    ensures Strip(t) == t && t != [] && (t[0] == LBRACE || t[0] == LBRACKET)
  {
    hide ParseAt;
    ContainerTrimmed(t);
    TrimmedStrip(t);
    LoadsWf(t);
  }

  /** Two container texts of which one begins the other are the same. */
  lemma NeitherBegins(cur: Text, piece: Text)
    requires ContainerText(cur) && ContainerText(piece) && (cur <= piece || piece <= cur)
    ensures cur == piece
  {
    hide ParseAt, Loads;
    ContainerLoads(cur);
    ContainerLoads(piece);
    if cur < piece { PrefixFree(cur, piece); }
    if piece < cur { PrefixFree(piece, cur); }
  }

  /**
   Two object texts, both ready or both not: the merged text reads as the earlier object with the
   later one added, key by key, and nested objects added to in turn.
   */
  lemma ObjectsAdd(cur: Text, piece: Text, name: Text)
    requires ContainerText(cur) && ContainerText(piece) && Loads(cur).value.Obj? && Loads(piece).value.Obj?
    requires Complete(cur, name) <==> Complete(piece, name)
    ensures Loads(Merge(cur, piece, name)).Some? && Loads(Merge(cur, piece, name)).value.Obj?
    ensures forall k :: var m := MeaningMembers(Loads(Merge(cur, piece, name)).value.members);
      (if k in m then Some(m[k]) else None) == Later(Loads(cur).value.members, Loads(piece).value.members, k)
  {
    hide ParseAt, Loads, Sanitize, Complete, Dumps, MergeDicts, Later, SameValue, ContainerText;
    ContainerLoads(cur);
    ContainerLoads(piece);
    var a, b := Loads(cur).value.members, Loads(piece).value.members;
    if cur <= piece || piece <= cur { NeitherBegins(cur, piece); }
    if SameValue(Obj(a), Obj(b)) {
      forall k ensures (if k in MeaningMembers(a) then Some(MeaningMembers(a)[k]) else None) == Later(a, b, k) {
        SameIsLater(a, b, k);
      }
    } else {
      MergeDictsWf(a, b);
      DumpsLoads(Obj(MergeDicts(a, b)), false);
      SameValueReflexive(Obj(a));
      forall k ensures var m := MeaningMembers(MergeDicts(a, b));
          (if k in m then Some(m[k]) else None) == Later(a, b, k) {
        MergeDictsMeaning(a, b, k);
      }
    }
  }

  lemma SameValueReflexive(v: Json)
    ensures SameValue(v, v)
  {
  }

  lemma SameIsLater(a: seq<Member>, b: seq<Member>, k: Text)
    requires SameValue(Obj(a), Obj(b))
    ensures (if k in MeaningMembers(a) then Some(MeaningMembers(a)[k]) else None) == Later(a, b, k)
  {
    hide MeaningMembers;
    assert MeaningMembers(a) == MeaningMembers(b);
    MeaningFinds(a, k);
    MeaningFinds(b, k);
    match (Find(a, k), Find(b, k))
    case (Some(Obj(ms)), Some(Obj(es))) => assert MeaningMembers(ms) + MeaningMembers(es) == MeaningMembers(es);
    case _ =>
  }

  // ---------- complete arguments ----------

  lemma UsableMerged(a: seq<Member>, b: seq<Member>, k: Text)
    requires WfMembers(b) && UniqueKeys(b)
    requires (HasKey(b, k) && Usable(b, k)) || (!HasKey(b, k) && Usable(a, k))
    ensures Usable(MergeDicts(a, b), k)
  {
    hide MergeDicts, MergedValue;
    MergeDictsMeaning(a, b, k);
    MeaningFinds(MergeDicts(a, b), k);
    UsableMeaning(MergeDicts(a, b), k);
    UsableMeaning(a, k);
    UsableMeaning(b, k);
    EmptyMeanings(a, b, k);
  }

  /** Whether a value is usable shows in its meaning. */
  predicate UsableVal(v: Val) {
    match v
    case VNull => false
    case VStr(s) => Strip(s) != []
    case VArr(items) => items != []
    case VObj(fields) => fields != map[]
    case _ => true
  }

  lemma UsableMeaning(ms: seq<Member>, k: Text)
    ensures Usable(ms, k) <==> Find(ms, k).Some? && UsableVal(Meaning(Find(ms, k).value))
  {
    hide Strip;
    if Find(ms, k).Some? && Find(ms, k).value.Obj? { EmptyMeaning(Find(ms, k).value.members); }
  }

  lemma EmptyMeanings(a: seq<Member>, b: seq<Member>, k: Text)
    requires (HasKey(b, k) && Usable(b, k)) || (!HasKey(b, k) && Usable(a, k))
    ensures Later(a, b, k).Some? && UsableVal(Later(a, b, k).value)
  {
    hide Strip, MeaningMembers;
    UsableMeaning(a, k);
    UsableMeaning(b, k);
    match (Find(a, k), Find(b, k))
    case (Some(Obj(ms)), Some(Obj(es))) =>
      EmptyMeaning(es);
      UnionNotEmpty(MeaningMembers(ms), MeaningMembers(es));
    case _ =>
  }

  lemma UnionNotEmpty(m: map<Text, Val>, n: map<Text, Val>)
    ensures m + n == map[] ==> n == map[]
  {
    if m + n == map[] {
      forall k ensures k !in n { assert k in n ==> k in m + n; }
      assert n == map[];
    }
  }

  /** Complete arguments are not spoiled by a piece that is not complete, unless it extends them as a text. */
  lemma JunkIsRefused(cur: Text, piece: Text, name: Text)
    requires ContainerText(cur) && Complete(cur, name) && !Complete(Sanitize(piece), name)
    ensures Merge(cur, piece, name) == if cur < Sanitize(piece) then Sanitize(piece) else cur
  {
    hide ContainerText, Complete, Sanitize, MergeValues;
    ContainerLoads(cur);
  }

  lemma CompleteIs(t: Text, name: Text)
    requires ContainerText(t)
    ensures Complete(t, name) <==>
      match Loads(t).value
      case Obj(ms) => ms != [] && forall k :: k in RequiredKeys(name) ==> Usable(ms, T(k))
      case Arr(items) => items != []
      case _ => false
    ensures IsContainer(Loads(t).value) && (Loads(t).value.Obj? <==> t[0] == LBRACE)
  {
    hide Usable, RequiredKeys;
    ContainerLoads(t);
    ContainerTrimmed(t);
    ContainerEnds(t, 0);
    ContainerKind(t);
  }

  lemma ContainerKind(t: Text)
    requires ContainerText(t)
    ensures ParseAt(t, 0).val.Obj? <==> t[0] == LBRACE
  {
  }

  /**
   Whole values that are both ready stay ready, unless one is an object and the other an array: then
   the merge puts one after the other, which is nothing that parses.
   */
  lemma ReadyStaysReady(cur: Text, piece: Text, name: Text)
    requires ContainerText(cur) && ContainerText(piece) && Complete(cur, name) && Complete(piece, name)
    ensures Complete(Merge(cur, piece, name), name) <==> cur[0] == piece[0]
  {
    hide ParseAt, Loads, Sanitize, Complete, Dumps, MergeDicts, SameValue, ContainerText, RequiredKeys, Usable;
    ContainerLoads(cur);
    ContainerLoads(piece);
    CompleteIs(cur, name);
    CompleteIs(piece, name);
    if cur <= piece || piece <= cur { NeitherBegins(cur, piece); }
    if cur[0] == piece[0] {
      if Loads(cur).value.Obj? {
        ObjectsStayReady(Loads(cur).value.members, Loads(piece).value.members, name);
      }
    } else {
      KindsDiffer(Loads(cur).value, Loads(piece).value);
      TwoValues(cur, piece, name);
    }
  }

  lemma KindsDiffer(a: Json, b: Json)
    requires (IsContainer(a) || IsContainer(b)) && (a.Obj? != b.Obj? || a.Arr? != b.Arr?)
    ensures !SameValue(a, b) && !SameValue(b, a)
  {
  }

  lemma ObjectsStayReady(a: seq<Member>, b: seq<Member>, name: Text)
    requires Wf(Obj(a)) && Wf(Obj(b)) && a != []
    requires forall k :: k in RequiredKeys(name) ==> Usable(a, T(k)) && Usable(b, T(k))
    ensures Complete(Dumps(Obj(MergeDicts(a, b)), false), name)
  {
    hide Dumps, RequiredKeys, Usable, MergeDicts, Loads, ContainerText;
    var m := Obj(MergeDicts(a, b));
    MergeDictsWf(a, b);
    DumpsLoads(m, false);
    DumpsContainer(m, false);
    CompleteIs(Dumps(m, false), name);
    forall k | k in RequiredKeys(name) ensures Usable(MergeDicts(a, b), T(k)) {
      UsableHasKey(b, T(k));
      UsableMerged(a, b, T(k));
    }
    MergeNotEmpty(a, b);
  }

  lemma UsableHasKey(ms: seq<Member>, k: Text)
    ensures Usable(ms, k) ==> HasKey(ms, k)
  {
  }

  lemma {:induction false} MergeNotEmpty(a: seq<Member>, b: seq<Member>)
    requires a != []
    ensures MergeDicts(a, b) != []
    decreases |b|
  {
    if b != [] {
      PutHasKey(a, Member(b[0].key, MergedValue(Find(a, b[0].key), b[0].val)), b[0].key);
      MergeNotEmpty(Put(a, Member(b[0].key, MergedValue(Find(a, b[0].key), b[0].val))), b[1..]);
    }
  }

  /** Of two lists the longer is kept, and of two of the same length the later, unless they are equal. */
  lemma LongerListStays(cur: Text, piece: Text, name: Text)
    requires ContainerText(cur) && ContainerText(piece) && Loads(cur).value.Arr? && Loads(piece).value.Arr?
    ensures var a, b := Loads(cur).value, Loads(piece).value;
      Merge(cur, piece, name) == if SameValue(a, b) || |b.items| < |a.items| then cur else piece
  {
    hide ParseAt, Loads, Sanitize, Complete, ContainerText, RequiredKeys, SameValue;
    ContainerLoads(cur);
    ContainerLoads(piece);
    CompleteIs(cur, name);
    CompleteIs(piece, name);
    SameValueReflexive(Loads(cur).value);
    if cur <= piece || piece <= cur { NeitherBegins(cur, piece); }
    if SameValue(Loads(cur).value, Loads(piece).value) { EmptyLists(Loads(cur).value, Loads(piece).value); }
  }

  lemma EmptyLists(a: Json, b: Json)
    requires a.Arr? && b.Arr? && SameValue(a, b)
    ensures a.items == [] <==> b.items == []
  {
  }

  // ---------- scalars ----------

  /** A text that reads as a value that is neither an object nor a list. */
  predicate ScalarText(t: Text) { Loads(t).Some? && !IsContainer(Loads(t).value) }

  lemma ScalarStart(t: Text)
    requires ScalarText(t)
    ensures SkipWs(t, 0) < |t| && t[SkipWs(t, 0)] != LBRACE && t[SkipWs(t, 0)] != LBRACKET
    ensures !IsSpace(t[SkipWs(t, 0)])
  {
    hide ParseMembers, ParseItems, ParseAtom;
    AtomStart(t, SkipWs(t, 0));
  }

  lemma AtomStart(t: Text, i: nat)
    requires i < |t| && ParseAtom(t, i).Hit?
    ensures !IsSpace(t[i])
  {
    hide ScanString, NumValue;
  }

  /** Python's `strip` finds no object in a text where the parser finds a scalar. */
  lemma ScalarNotComplete(t: Text, name: Text)
    requires ScalarText(t)
    ensures !Complete(t, name) && t != [] && t[0] != LBRACE && t[0] != LBRACKET
  {
    hide Loads, ParseAt;
    ScalarStart(t);
    LStripIsSuffix(t);
    RStripIsPrefix(LStrip(t));
    var d, p := |t| - |LStrip(t)|, SkipWs(t, 0);
    if Strip(t) != [] {
      assert Strip(t)[0] == t[d];
      SkipWsIs(t, 0);
    }
  }

  lemma {:induction false} SkipWsIs(t: Text, i: nat)
    requires i <= |t|
    ensures forall k :: i <= k < SkipWs(t, i) ==> IsWs(t[k]) && IsSpace(t[k])
    decreases |t| - i
  {
    if i < |t| && IsWs(t[i]) { SkipWsIs(t, i + 1); }
  }

  /** A fragment that reads as a scalar gives way to an object or list, whichever came first. */
  lemma ScalarGivesWay(t: Text, scalar: Text, name: Text)
    requires ContainerText(t) && ScalarText(Sanitize(scalar))
    ensures Merge(t, scalar, name) == t && Merge(scalar, t, name) == t
  {
    hide ParseAt, Loads, Sanitize, Complete, ContainerText, Dumps, MergeDicts;
    var s := Sanitize(scalar);
    ContainerLoads(t);
    ContainerIs(t);
    ScalarNotComplete(s, name);
    KindsDiffer(Loads(t).value, Loads(s).value);
  }

  lemma ContainerIs(t: Text)
    requires ContainerText(t)
    ensures IsContainer(Loads(t).value)
  {
    CompleteIs(t, []);
  }

  /** One value after another is not a value. */
  lemma TwoValues(cur: Text, piece: Text, name: Text)
    requires ContainerText(cur) && ContainerText(piece)
    ensures !Complete(cur + piece, name)
  {
    hide ParseAt, ContainerText, RequiredKeys, Usable;
    var t := cur + piece;
    ContainerLoads(cur);
    ContainerLoads(piece);
    BothTrimmed(cur, piece);
    TrimmedStrip(t);
    if Loads(t).Some? {
      OneValue(t);
      PrefixFree(cur, t);
    }
  }

  lemma BothTrimmed(cur: Text, piece: Text)
    requires ContainerText(cur) && ContainerText(piece)
    ensures Trimmed(cur + piece)
  {
    hide ParseAt;
    ContainerTrimmed(cur);
    ContainerTrimmed(piece);
  }

  lemma OneValue(t: Text)
    requires t != [] && Trimmed(t) && Loads(t).Some? && (t[0] == LBRACE || t[0] == LBRACKET)
    ensures ContainerText(t)
  {
    hide ParseAt;
    NoSkip(t, 0);
    var j := ParseAt(t, 0).end;
    LastNotSkipped(t, j);
  }

  lemma {:induction false} LastNotSkipped(t: Text, j: nat)
    requires j <= |t| && SkipWs(t, j) == |t| && t != [] && !IsSpace(t[|t| - 1])
    ensures j == |t|
    decreases |t| - j
  {
    if j < |t| && IsWs(t[j]) { LastNotSkipped(t, j + 1); }
  }
}
