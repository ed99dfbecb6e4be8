/**
 True suffix deltas of tool arguments (anthropic_compat.py, `merge_tool_argument_delta`): the pieces
 of one object or array text, each sent once.  The merge is made for re-sends, so it rebuilds the
 text exactly when no piece looks like one.
 */
module ToolArgsDeltas {
  import opened Texts
  import opened Json
  import opened JsonLaws
  import opened JsonCanon
  import opened ToolArgs

  // ---------- printing is never longer than what was read ----------

  function Len(v: Json): nat { |Dumps(v, false)| }

  /** The length of some printed members, each with the comma or brace after it. */
  function Weight(ms: seq<Member>): nat {
    if ms == [] then 0 else |DumpMember(ms[0], false)| + 1 + Weight(ms[1..])
  }

  function ItemsWeight(vs: seq<Json>): nat {
    if vs == [] then 0 else Len(vs[0]) + 1 + ItemsWeight(vs[1..])
  }

  lemma {:induction false} MembersLength(ms: seq<Member>)
    requires ms != []
    ensures |DumpMembers(ms, false)| == Weight(ms)
  {
    hide DumpMember;
    if |ms| > 1 { MembersLength(ms[1..]); }
  }

  lemma {:induction false} ItemsLength(vs: seq<Json>)
    requires vs != []
    ensures |DumpItems(vs, false)| == ItemsWeight(vs)
  {
    hide Dumps;
    if |vs| > 1 { ItemsLength(vs[1..]); }
  }

  lemma ObjectLength(ms: seq<Member>)
    ensures Len(Obj(ms)) == if ms == [] then 2 else 1 + Weight(ms)
  {
    hide DumpMembers, Weight;
    if ms != [] { MembersLength(ms); }
  }

  lemma ArrayLength(vs: seq<Json>)
    ensures Len(Arr(vs)) == if vs == [] then 2 else 1 + ItemsWeight(vs)
  {
    hide DumpItems, ItemsWeight;
    if vs != [] { ItemsLength(vs); }
  }

  lemma MemberLength(m: Member)
    ensures |DumpMember(m, false)| == |DumpString(m.key)| + 1 + Len(m.val)
  {
    hide Dumps, DumpString;
  }

  lemma {:induction false} PutWeight(ms: seq<Member>, m: Member)
    ensures Weight(Put(ms, m)) <= Weight(ms) + |DumpMember(m, false)| + 1
    ensures Find(ms, m.key).Some? ==>
      Weight(Put(ms, m)) + Len(Find(ms, m.key).value) == Weight(ms) + Len(m.val)
  {
    hide Dumps, DumpMember;
    if ms != [] {
      if ms[0].key == m.key {
        MemberLength(ms[0]);
        MemberLength(m);
        assert Put(ms, m)[1..] == ms[1..];
      } else {
        PutWeight(ms[1..], m);
        assert Put(ms, m)[1..] == Put(ms[1..], m);
      }
    }
  }

  lemma {:induction false} DictWeight(ps: seq<Member>)
    ensures Weight(DictOf(ps)) <= Weight(ps)
  {
    hide DumpMember, Put;
    if ps != [] {
      var h, l := ps[..|ps| - 1], ps[|ps| - 1];
      DictWeight(h);
      PutWeight(DictOf(h), l);
      WeightSnoc(h, l);
      assert h + [l] == ps;
    }
  }

  lemma {:induction false} WeightSnoc(ms: seq<Member>, m: Member)
    ensures Weight(ms + [m]) == Weight(ms) + |DumpMember(m, false)| + 1
  {
    hide DumpMember;
    if ms == [] {
      assert [m][1..] == [];
      assert Weight([m]) == |DumpMember(m, false)| + 1 + Weight([]);
    } else {
      WeightSnoc(ms[1..], m);
      assert (ms + [m])[1..] == ms[1..] + [m];
    }
  }

  lemma {:induction false} StringShort(s: Text, i: nat)
    requires i <= |s| && ScanString(s, i).Hit?
    ensures |DumpBody(ScanString(s, i).val)| <= ScanString(s, i).end - i
    decreases |s| - i
  {
    hide ScanChar, Escape;
    if s[i] != QUOTE {
      var j := ScanChar(s, i).end;
      CharShort(s, i);
      StringShort(s, j);
      var cs := ScanString(s, i).val;
      assert cs[1..] == ScanString(s, j).val;
    }
  }

  lemma CharShort(s: Text, i: nat)
    requires i < |s| && ScanChar(s, i).Hit?
    ensures |Escape(ScanChar(s, i).val)| <= ScanChar(s, i).end - i
  {
    hide Hex4, LowSurrogateAt;
    if s[i] == BACKSLASH && s[i + 1] != 0x75 { assert SimpleEscape(s[i + 1]).Some?; }
  }

  lemma AtomShort(s: Text, i: nat)
    requires i <= |s| && ParseAtom(s, i).Hit?
    ensures Len(ParseAtom(s, i).val) <= ParseAtom(s, i).end - i
  {
    hide ScanString, NumberEnd, DumpBody;
    if s[i] == QUOTE { StringShort(s, i + 1); }
  }

  /** What is read from a text prints no longer than it, as numbers keep their spelling. */
  lemma {:induction false} ParseShort(s: Text, i: nat)
    requires i <= |s| && ParseAt(s, i).Hit?
    ensures Len(ParseAt(s, i).val) <= ParseAt(s, i).end - i
    decreases |s| - i, 0
  {
    hide ParseItems, ParseMembers, ParseAtom, Len, DictOf;
    if i < |s| && s[i] == LBRACE {
      var k := SkipWs(s, i + 1);
      ObjectLength([]);
      if !(k < |s| && s[k] == RBRACE) {
        var ps := ParseMembers(s, k).val;
        MembersShort(s, k);
        DictWeight(ps);
        ObjectLength(DictOf(ps));
      }
    } else if i < |s| && s[i] == LBRACKET {
      var k := SkipWs(s, i + 1);
      ArrayLength([]);
      if !(k < |s| && s[k] == RBRACKET) {
        ItemsShort(s, k);
        ArrayLength(ParseItems(s, k).val);
      }
    } else {
      AtomShort(s, i);
    }
  }

  lemma {:induction false} ItemsShort(s: Text, i: nat)
    requires i <= |s| && ParseItems(s, i).Hit?
    ensures ItemsWeight(ParseItems(s, i).val) <= ParseItems(s, i).end - i
    decreases |s| - i, 1
  {
    hide ParseAt, Len;
    ParseShort(s, i);
    var v, j := ParseAt(s, i).val, ParseAt(s, i).end;
    var k := SkipWs(s, j);
    var vs := ParseItems(s, i).val;
    if s[k] == COMMA {
      ItemsShort(s, SkipWs(s, k + 1));
      assert vs[1..] == ParseItems(s, SkipWs(s, k + 1)).val;
    } else {
      assert vs[1..] == [];
    }
  }

  lemma {:induction false} MemberShort(s: Text, i: nat)
    requires i <= |s| && ParseMember(s, i).Hit?
    ensures |DumpMember(ParseMember(s, i).val, false)| <= ParseMember(s, i).end - i
    decreases |s| - i, 1
  {
    hide ParseAt, ScanString, Dumps, DumpBody, DumpMember;
    var p := ParseKey(s, i).end;
    StringShort(s, i + 1);
    ParseShort(s, p);
    MemberLength(ParseMember(s, i).val);
  }

  lemma {:induction false} MembersShort(s: Text, i: nat)
    requires i <= |s| && ParseMembers(s, i).Hit?
    ensures Weight(ParseMembers(s, i).val) <= ParseMembers(s, i).end - i
    decreases |s| - i, 2
  {
    hide ParseMember, DumpMember;
    MemberShort(s, i);
    var j := ParseMember(s, i).end;
    var k := SkipWs(s, j);
    var ms := ParseMembers(s, i).val;
    if s[k] == COMMA {
      MembersShort(s, SkipWs(s, k + 1));
      assert ms[1..] == ParseMembers(s, SkipWs(s, k + 1)).val;
    } else {
      assert ms[1..] == [];
    }
  }

  lemma LoadsShort(s: Text)
    requires Loads(s).Some?
    ensures Len(Loads(s).value) <= |s|
  {
    hide ParseAt, Dumps;
    ParseShort(s, SkipWs(s, 0));
  }

  // ---------- no merge is longer than its parts ----------

  lemma {:induction false} UpdateWeight(d: seq<Member>, e: seq<Member>)
    ensures Weight(Update(d, e)) <= Weight(d) + Weight(e)
    decreases |e|
  {
    hide DumpMember, Put;
    if e != [] {
      PutWeight(d, e[0]);
      UpdateWeight(Put(d, e[0]), e[1..]);
    }
  }

  lemma MergedLength(was: Json, v: Json)
    ensures Len(MergedValue(Some(was), v)) <= Len(was) + Len(v)
  {
    hide Dumps, Update, Weight;
    if was.Obj? && v.Obj? && was.members != [] {
      UpdateWeight(was.members, v.members);
      ObjectLength(was.members);
      ObjectLength(v.members);
      ObjectLength(Update(was.members, v.members));
      NoWeight();
    }
  }

  lemma NoWeight()
    ensures Weight([]) == 0
  {
  }

  lemma {:induction false} MergeDictsWeight(a: seq<Member>, b: seq<Member>)
    ensures Weight(MergeDicts(a, b)) <= Weight(a) + Weight(b)
    decreases |b|
  {
    hide Dumps, DumpMember, Put, MergedValue;
    if b != [] {
      var was := Find(a, b[0].key);
      var m := Member(b[0].key, MergedValue(was, b[0].val));
      PutWeight(a, m);
      MemberLength(b[0]);
      if was.Some? {
        MergedLength(was.value, b[0].val);
      } else {
        assert MergedValue(was, b[0].val) == b[0].val by { NothingMerged(b[0].val); }
      }
      MemberLength(m);
      MergeDictsWeight(Put(a, m), b[1..]);
    }
  }

  lemma NothingMerged(v: Json)
    ensures MergedValue(None, v) == v
  {
  }

  lemma MergeValuesShrinks(cur: Text, piece: Text)
    ensures |MergeValues(cur, piece)| <= |cur| + |piece|
  {
    hide Loads, Dumps, MergeDicts, SameValue, Weight;
    if Loads(cur).Some? && Loads(piece).Some? && Loads(cur).value.Obj? && Loads(piece).value.Obj? {
      var a, b := Loads(cur).value.members, Loads(piece).value.members;
      LoadsShort(cur);
      LoadsShort(piece);
      MergeDictsWeight(a, b);
      ObjectLength(a);
      ObjectLength(b);
      ObjectLength(MergeDicts(a, b));
      NoWeight();
    }
  }

  /** A merge never gives more text than it was given, as numbers keep their spelling. */
  lemma MergeShrinks(cur: Text, piece: Text, name: Text)
    ensures |Merge(cur, piece, name)| <= |cur| + |piece|
  {
    hide Sanitize, Complete, MergeValues;
    SanitizeShrinks(cur);
    SanitizeShrinks(piece);
    MergeValuesShrinks(Sanitize(cur), Sanitize(piece));
  }

  // ---------- all the pieces of a text ----------

  function Joined(pieces: seq<Text>): Text {
    if pieces == [] then [] else pieces[0] + Joined(pieces[1..])
  }

  lemma {:induction false} FoldShrinks(buf: Text, pieces: seq<Text>, name: Text)
    ensures |FoldMerge(buf, pieces, name)| <= |buf| + |Joined(pieces)|
    decreases |pieces|
  {
    hide Merge;
    if pieces != [] {
      MergeShrinks(buf, pieces[0], name);
      FoldShrinks(Merge(buf, pieces[0], name), pieces[1..], name);
    }
  }

  /** A piece that does not look like a re-send of what is in the buffer, or like arguments of its own. */
  predicate Continues(buf: Text, piece: Text, name: Text) {
    piece == [] ||
    (Sanitize(piece) == piece && (buf == [] || (!(buf <= piece) && !(piece <= buf) && !Complete(piece, name))))
  }

  predicate AllContinue(buf: Text, pieces: seq<Text>, name: Text)
    decreases |pieces|
  {
    pieces == [] || (Continues(buf, pieces[0], name) && AllContinue(buf + pieces[0], pieces[1..], name))
  }

  lemma SanitizeSameSize(s: Text)
    requires |Sanitize(s)| == |s|
    ensures Sanitize(s) == s
  {
    hide ParseAt, Loads;
    StripPart(s);
    var src := if Strip(s) != [] then Strip(s) else s;
    var ends := ValueEnds(src, 0);
    if |ends| >= 2 {
      StripPart(src[..ends[0]]);
      SecondValue(src);
    }
  }

  lemma StripPart(s: Text)
    ensures |Strip(s)| <= |s| && (|Strip(s)| == |s| ==> Strip(s) == s)
  {
    LStripIsSuffix(s);
    RStripIsPrefix(LStrip(s));
  }

  /** The first of two values does not take the whole text. */
  lemma SecondValue(src: Text)
    requires |ValueEnds(src, 0)| >= 2
    ensures ValueEnds(src, 0)[0] < |src|
  {
    hide ParseAt;
    var k := SkipSpace(src, 0);
    var e := ParseAt(src, k).end;
    var rest := ValueEnds(src, e);
    assert ValueEnds(src, 0) == [e] + rest;
    assert rest[0] > e;
  }

  /** One piece of a text: appended exactly if it continues the buffer, and else some text is lost. */
  lemma PieceAppends(t: Text, buf: Text, piece: Text, name: Text)
    requires ContainerText(t) && buf + piece <= t
    ensures if Continues(buf, piece, name) then Merge(buf, piece, name) == buf + piece
            else |Merge(buf, piece, name)| < |buf| + |piece|
  {
    hide ParseAt, Loads, Complete, Sanitize, MergeValues;
    SanitizePrefix(buf, t);
    SanitizeShrinks(piece);
    if |Sanitize(piece)| == |piece| { SanitizeSameSize(piece); }
    assert buf + [] == buf && [] + piece == piece;
    if piece == [] {
      SanitizePrefix([], t);
    } else if buf != [] {
      assert buf < t;
      PrefixNotComplete(buf, t, name);
      PrefixFree(buf, t);
      Unloaded(buf, Sanitize(piece));
    }
  }

  lemma Unloaded(cur: Text, piece: Text)
    requires Loads(cur).None?
    ensures MergeValues(cur, piece) == cur + piece
  {
    hide Loads;
  }

  /**
   However a text is cut into pieces, merging them one after the other rebuilds it if and only if
   every piece continues the ones before it.
   */
  lemma {:induction false} DeltasRebuildExactly(t: Text, buf: Text, pieces: seq<Text>, name: Text)
    requires ContainerText(t) && buf + Joined(pieces) == t
    ensures FoldMerge(buf, pieces, name) == t <==> AllContinue(buf, pieces, name)
    decreases |pieces|
  {
    hide Merge, Continues;
    if pieces == [] {
      assert buf + [] == buf;
    } else {
      var p, rest := pieces[0], pieces[1..];
      assert buf + (p + Joined(rest)) == buf + p + Joined(rest);
      PieceAppends(t, buf, p, name);
      if Continues(buf, p, name) {
        DeltasRebuildExactly(t, buf + p, rest, name);
      } else {
        FoldShrinks(Merge(buf, p, name), rest, name);
      }
    }
  }

  /** An array in an array, its brackets sent one by one: the second is taken for a re-send of the first. */
  lemma BracketIsLost(t: Text, rest: Text, name: Text)
    requires ContainerText(t) && t == [LBRACKET, LBRACKET] + rest
    ensures FoldMerge([], [[LBRACKET], [LBRACKET], rest], name) != t
  {
    hide FoldMerge, Sanitize, Complete;
    var b := [LBRACKET];
    var pieces := [b, b, rest];
    assert pieces[1..] == [b, rest] && [b, rest][1..] == [rest] && [rest][1..] == [];
    assert Joined([rest]) == rest + Joined([]);
    assert Joined([b, rest]) == b + Joined([rest]);
    assert Joined(pieces) == b + Joined([b, rest]);
    assert [] + Joined(pieces) == t;
    DeltasRebuildExactly(t, [], pieces, name);
    assert [] + b == b;
    assert !AllContinue(b, [b, rest], name);
  }
}
