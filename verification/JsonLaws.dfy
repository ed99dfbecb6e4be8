/**
 What the parser reads depends only on the characters it consumes, so the text of an object or
 an array is never a proper prefix of another JSON text; and printing followed by parsing is
 the identity.
 */
module JsonLaws {
  import opened Texts
  import opened Json

  // ---------- parsing is local ----------

  /** `s[i..j)` stands in `t`, moved by `d`. */
  ghost predicate Agree(s: Text, i: nat, j: nat, t: Text, d: int) {
    && i <= j <= |s| && 0 <= i + d && j + d <= |t|
    && forall k :: i <= k < j ==> s[k] == t[k + d]
  }

  lemma AgreeSub(s: Text, i: nat, j: nat, t: Text, d: int, i': nat, j': nat)
    requires Agree(s, i, j, t, d) && i <= i' <= j' <= j
    ensures Agree(s, i', j', t, d)
  {
  }

  /** No number that ends before position `j` of `t` could be read further. */
  predicate NumStop(t: Text, j: nat) {
    j < |t| ==> !IsDigit(t[j]) && t[j] != DOT && t[j] != 0x65 && t[j] != 0x45
  }

  lemma {:induction false} SkipWsLocal(s: Text, i: nat, t: Text, d: int)
    requires i <= |s|
    requires Agree(s, i, SkipWs(s, i), t, d)
    requires SkipWs(s, i) + d < |t| ==> !IsWs(t[SkipWs(s, i) + d])
    ensures SkipWs(t, i + d) == SkipWs(s, i) + d
    decreases |s| - i
  {
    if i < |s| && IsWs(s[i]) {
      assert t[i + d] == s[i];
      SkipWsLocal(s, i + 1, t, d);
    }
  }

  lemma {:induction false} DigitsLocal(s: Text, i: nat, t: Text, d: int)
    requires i <= |s|
    requires Agree(s, i, DigitsEnd(s, i), t, d)
    requires DigitsEnd(s, i) + d < |t| ==> !IsDigit(t[DigitsEnd(s, i) + d])
    ensures DigitsEnd(t, i + d) == DigitsEnd(s, i) + d
    decreases |s| - i
  {
    if i < |s| && IsDigit(s[i]) {
      assert t[i + d] == s[i];
      DigitsLocal(s, i + 1, t, d);
    }
  }

  lemma IntLocal(s: Text, i: nat, t: Text, d: int)
    requires i <= |s| && IntEnd(s, i).Some?
    requires Agree(s, i, IntEnd(s, i).value, t, d)
    requires IntEnd(s, i).value + d < |t| ==> !IsDigit(t[IntEnd(s, i).value + d])
    ensures IntEnd(t, i + d) == Some(IntEnd(s, i).value + d)
  {
    assert t[i + d] == s[i];
    var p := if s[i] == MINUS then i + 1 else i;
    assert t[p + d] == s[p];
    if s[p] != ZERO {
      DigitsLocal(s, p, t, d);
    }
  }

  lemma FracLocal(s: Text, i: nat, t: Text, d: int)
    requires i <= |s|
    requires Agree(s, i, FracEnd(s, i), t, d)
    requires NumStop(t, FracEnd(s, i) + d) || (FracEnd(s, i) + d < |t| && t[FracEnd(s, i) + d] in {0x65, 0x45})
    ensures FracEnd(t, i + d) == FracEnd(s, i) + d
  {
    if i + 1 < |s| && s[i] == DOT && IsDigit(s[i + 1]) {
      assert t[i + d] == s[i] && t[i + 1 + d] == s[i + 1];
      DigitsLocal(s, i + 1, t, d);
    }
  }

  lemma ExpLocal(s: Text, i: nat, t: Text, d: int)
    requires i <= |s|
    requires Agree(s, i, ExpEnd(s, i), t, d)
    requires NumStop(t, ExpEnd(s, i) + d)
    ensures ExpEnd(t, i + d) == ExpEnd(s, i) + d
  {
    if ExpEnd(s, i) > i {
      var k := if i + 1 < |s| && (s[i + 1] == PLUS || s[i + 1] == MINUS) then i + 2 else i + 1;
      assert t[i + d] == s[i] && t[i + 1 + d] == s[i + 1] && t[k + d] == s[k];
      DigitsLocal(s, k, t, d);
    }
  }

  lemma NumberLocal(s: Text, i: nat, t: Text, d: int)
    requires i <= |s| && NumberEnd(s, i).Some?
    requires Agree(s, i, NumberEnd(s, i).value, t, d)
    requires NumStop(t, NumberEnd(s, i).value + d)
    ensures NumberEnd(t, i + d) == Some(NumberEnd(s, i).value + d)
  {
    hide DigitsEnd;
    var a := IntEnd(s, i).value;
    var b := FracEnd(s, a);
    var e := ExpEnd(s, b);
    assert a < e ==> t[a + d] == s[a];
    assert b < e ==> t[b + d] == s[b];
    IntLocal(s, i, t, d);
    FracLocal(s, a, t, d);
    ExpLocal(s, b, t, d);
  }

  lemma AgreeSlice(s: Text, i: nat, j: nat, t: Text, d: int)
    requires Agree(s, i, j, t, d)
    ensures t[i + d..j + d] == s[i..j]
  {
  }

  lemma {:induction false} StringLocal(s: Text, i: nat, t: Text, d: int)
    requires i <= |s| && ScanString(s, i).Hit?
    requires Agree(s, i, ScanString(s, i).end, t, d)
    ensures ScanString(t, i + d) == Hit(ScanString(s, i).val, ScanString(s, i).end + d)
    decreases |s| - i
  {
    assert t[i + d] == s[i];
    if s[i] != QUOTE {
      var c := ScanChar(s, i);
      StringLocal(s, c.end, t, d);
      CharLocal(s, i, t, d);
    }
  }

  lemma HexLocal(s: Text, i: nat, t: Text, d: int)
    requires Agree(s, i, i + 4, t, d)
    ensures HexAt(t, i + d) <==> HexAt(s, i)
    ensures HexAt(s, i) ==> Hex4(t, i + d) == Hex4(s, i)
  {
    assert t[i + d] == s[i] && t[i + 1 + d] == s[i + 1] && t[i + 2 + d] == s[i + 2] && t[i + 3 + d] == s[i + 3];
  }

  lemma LowSurrogateLocal(s: Text, i: nat, t: Text, d: int)
    requires Agree(s, i, i + 6, t, d)
    ensures LowSurrogateAt(t, i + d) <==> LowSurrogateAt(s, i)
  {
    hide Hex4, HexAt;
    assert t[i + d] == s[i] && t[i + 1 + d] == s[i + 1];
    HexLocal(s, i + 2, t, d);
  }

  /** After `\u` and four digits, whether a low surrogate follows is settled inside the string. */
  lemma PairLocal(s: Text, i: nat, t: Text, d: int)
    requires i < |s| && ScanString(s, i).Hit?
    requires Agree(s, i, ScanString(s, i).end, t, d)
    ensures LowSurrogateAt(t, i + d) <==> LowSurrogateAt(s, i)
    ensures LowSurrogateAt(s, i) ==> i + 6 <= ScanString(s, i).end
  {
    hide Hex4, ScanString;
    assert t[i + d] == s[i];
    if s[i] == BACKSLASH {
      CharBeforeEnd(s, i);
      assert t[i + 1 + d] == s[i + 1];
      if s[i + 1] == 0x75 {
        LowSurrogateLocal(s, i, t, d);
      }
    }
  }

  lemma CharBeforeEnd(s: Text, i: nat)
    requires i < |s| && s[i] != QUOTE && ScanString(s, i).Hit?
    ensures ScanChar(s, i).Hit? && ScanString(s, ScanChar(s, i).end).Hit?
    ensures ScanChar(s, i).end < ScanString(s, i).end == ScanString(s, ScanChar(s, i).end).end
  {
    hide ScanChar;
  }

  lemma CharLocal(s: Text, i: nat, t: Text, d: int)
    requires i < |s| && s[i] != QUOTE && ScanString(s, i).Hit?
    requires Agree(s, i, ScanString(s, i).end, t, d)
    ensures ScanChar(t, i + d) == Hit(ScanChar(s, i).val, ScanChar(s, i).end + d)
  {
    hide ScanString, Hex4, LowSurrogateAt;
    assert t[i + d] == s[i];
    CharBeforeEnd(s, i);
    if s[i] == BACKSLASH {
      assert t[i + 1 + d] == s[i + 1];
      if s[i + 1] == 0x75 {
        HexLocal(s, i + 2, t, d);
        if 0xD800 <= Hex4(s, i + 2) <= 0xDBFF {
          UnicodeEscapeLocal(s, i, t, d);
        }
      }
    }
  }

  lemma UnicodeEscapeLocal(s: Text, i: nat, t: Text, d: int)
    requires i + 6 <= |s| && s[i] == BACKSLASH && s[i + 1] == 0x75 && HexAt(s, i + 2)
    requires ScanString(s, i).Hit? && Agree(s, i, ScanString(s, i).end, t, d)
    ensures i + 6 <= ScanString(s, i).end
    ensures LowSurrogateAt(t, i + 6 + d) <==> LowSurrogateAt(s, i + 6)
    ensures LowSurrogateAt(s, i + 6) && 0xD800 <= Hex4(s, i + 2) <= 0xDBFF ==>
      i + 12 <= ScanString(s, i).end && HexAt(t, i + 8 + d) && Hex4(t, i + 8 + d) == Hex4(s, i + 8)
  {
    hide ScanString, Hex4;
    CharBeforeEnd(s, i);
    if ScanChar(s, i).end == i + 6 {
      PairLocal(s, i + 6, t, d);
    } else {
      LowSurrogateLocal(s, i + 6, t, d);
      HexLocal(s, i + 8, t, d);
    }
  }

  lemma LiteralLocal(s: Text, i: nat, lit: Text, t: Text, d: int)
    requires LiteralAt(s, i, lit) && Agree(s, i, i + |lit|, t, d)
    ensures LiteralAt(t, i + d, lit)
  {
    assert t[i + d..i + d + |lit|] == s[i..i + |lit|];
  }

  lemma AtomLocal(s: Text, i: nat, t: Text, d: int)
    requires i < |s| && ParseAtom(s, i).Hit?
    requires Agree(s, i, ParseAtom(s, i).end, t, d)
    requires ParseAtom(s, i).val.Num? ==> NumStop(t, ParseAtom(s, i).end + d)
    ensures ParseAtom(t, i + d) == Hit(ParseAtom(s, i).val, ParseAtom(s, i).end + d)
  {
    hide ScanString, NumberEnd, LiteralAt;
    assert t[i + d] == s[i];
    if s[i] == QUOTE {
      StringLocal(s, i + 1, t, d);
    } else if s[i] == NULL[0] {
      LiteralLocal(s, i, NULL, t, d);
    } else if s[i] == TRUE[0] {
      LiteralLocal(s, i, TRUE, t, d);
    } else if s[i] == FALSE[0] {
      LiteralLocal(s, i, FALSE, t, d);
    } else if s[i] == NAN[0] {
      LiteralLocal(s, i, NAN, t, d);
    } else if s[i] == INFINITY[0] {
      LiteralLocal(s, i, INFINITY, t, d);
    } else if NumberEnd(s, i).Some? {
      NumberLocal(s, i, t, d);
      AgreeSlice(s, i, NumberEnd(s, i).value, t, d);
    } else {
      LiteralLocal(s, i, MINUS_INFINITY, t, d);
      MinusInfinityIsNoNumber(t, i + d);
    }
  }

  lemma MinusInfinityIsNoNumber(t: Text, i: nat)
    requires LiteralAt(t, i, MINUS_INFINITY)
    ensures NumberEnd(t, i).None?
  {
    hide NumberEnd;
    assert t[i] == t[i..i + 9][0] == MINUS;
    assert t[i + 1] == t[i..i + 9][1] == INFINITY[0];
  }

  /** A parse is fixed by the text it consumes: the same text anywhere parses to the same value. */
  lemma {:induction false} ParseLocal(s: Text, i: nat, t: Text, d: int)
    requires i <= |s| && ParseAt(s, i).Hit?
    requires Agree(s, i, ParseAt(s, i).end, t, d)
    requires ParseAt(s, i).val.Num? ==> NumStop(t, ParseAt(s, i).end + d)
    ensures ParseAt(t, i + d) == Hit(ParseAt(s, i).val, ParseAt(s, i).end + d)
    decreases |s| - i, 0
  {
    hide ParseItems, ParseMembers, ParseAtom, ScanString, SkipWs;
    assert i < |s| && t[i + d] == s[i];
    var e := ParseAt(s, i).end;
    if s[i] == LBRACE || s[i] == LBRACKET {
      var k := SkipWs(s, i + 1);
      assert k < e by {
        if s[i] == LBRACE { assert s[k] == RBRACE || ParseMembers(s, k).Hit?; }
        else { assert s[k] == RBRACKET || ParseItems(s, k).Hit?; }
      }
      assert t[k + d] == s[k];
      SkipWsLocal(s, i + 1, t, d);
      if s[i] == LBRACE && s[k] != RBRACE {
        MembersLocal(s, k, t, d);
      } else if s[i] == LBRACKET && s[k] != RBRACKET {
        ItemsLocal(s, k, t, d);
      }
    } else {
      AtomLocal(s, i, t, d);
    }
  }

  /** What follows an item or a member value: white space, then a comma or the closing bracket. */
  lemma SeparatorLocal(s: Text, j: nat, e: nat, close: Code, t: Text, d: int)
    requires j <= e <= |s| && Agree(s, j, e, t, d)
    requires close == RBRACKET || close == RBRACE
    requires SkipWs(s, j) < e && s[SkipWs(s, j)] in {close, COMMA}
    requires s[SkipWs(s, j)] == COMMA ==> SkipWs(s, SkipWs(s, j) + 1) < e
    ensures SkipWs(t, j + d) == SkipWs(s, j) + d && t[SkipWs(s, j) + d] == s[SkipWs(s, j)]
    ensures NumStop(t, j + d)
    ensures s[SkipWs(s, j)] == COMMA ==>
      SkipWs(t, SkipWs(t, j + d) + 1) == SkipWs(s, SkipWs(s, j) + 1) + d
  {
    var k := SkipWs(s, j);
    assert t[j + d] == s[j] && t[k + d] == s[k];
    SkipWsLocal(s, j, t, d);
    if s[k] == COMMA {
      var m := SkipWs(s, k + 1);
      assert t[m + d] == s[m];
      SkipWsLocal(s, k + 1, t, d);
    }
  }

  /** One step of `ParseItems`, forwards and backwards. */
  lemma ItemsStep(s: Text, i: nat)
    requires i <= |s| && ParseAt(s, i).Hit? && SkipWs(s, ParseAt(s, i).end) < |s|
    ensures var v := ParseAt(s, i);
      var k := SkipWs(s, v.end);
      (s[k] == RBRACKET ==> ParseItems(s, i) == Hit([v.val], k + 1))
      && (s[k] == COMMA ==>
            var r := ParseItems(s, SkipWs(s, k + 1));
            ParseItems(s, i) == if r.Hit? then Hit([v.val] + r.val, r.end) else Fail)
  {
    hide ParseAt, SkipWs;
  }

  lemma ItemsShape(s: Text, i: nat)
    requires i <= |s| && ParseItems(s, i).Hit?
    ensures ParseAt(s, i).Hit?
    ensures var k := SkipWs(s, ParseAt(s, i).end);
      && k < ParseItems(s, i).end && s[k] in {RBRACKET, COMMA}
      && (s[k] == COMMA ==>
            var m := SkipWs(s, k + 1);
            m < ParseItems(s, i).end && ParseItems(s, m).Hit? && ParseItems(s, m).end == ParseItems(s, i).end)
  {
    hide ParseAt, SkipWs;
  }

  lemma {:induction false} ItemsLocal(s: Text, i: nat, t: Text, d: int)
    requires i <= |s| && ParseItems(s, i).Hit?
    requires Agree(s, i, ParseItems(s, i).end, t, d)
    ensures ParseItems(t, i + d) == Hit(ParseItems(s, i).val, ParseItems(s, i).end + d)
    decreases |s| - i, 1
  {
    hide ParseAt, SkipWs, Agree, ParseItems;
    ItemsShape(s, i);
    var e := ParseItems(s, i).end;
    var j := ParseAt(s, i).end;
    var k := SkipWs(s, j);
    ItemsStep(s, i);
    AgreeSub(s, i, e, t, d, i, j);
    AgreeSub(s, i, e, t, d, j, e);
    SeparatorLocal(s, j, e, RBRACKET, t, d);
    ParseLocal(s, i, t, d);
    ItemsStep(t, i + d);
    if s[k] == COMMA {
      AgreeSub(s, i, e, t, d, SkipWs(s, k + 1), e);
      ItemsLocal(s, SkipWs(s, k + 1), t, d);
    }
  }

  lemma KeyLocal(s: Text, i: nat, t: Text, d: int)
    requires i <= |s| && ParseKey(s, i).Hit? && ParseKey(s, i).end < |s|
    requires Agree(s, i, ParseKey(s, i).end + 1, t, d)
    ensures ParseKey(t, i + d) == Hit(ParseKey(s, i).val, ParseKey(s, i).end + d)
  {
    hide ScanString, SkipWs;
    assert t[i + d] == s[i];
    StringLocal(s, i + 1, t, d);
    var j := ScanString(s, i + 1).end;
    var k := SkipWs(s, j);
    var m := SkipWs(s, k + 1);
    assert t[k + d] == s[k] && t[m + d] == s[m];
    SkipWsLocal(s, j, t, d);
    SkipWsLocal(s, k + 1, t, d);
  }

  lemma {:induction false} MemberLocal(s: Text, i: nat, t: Text, d: int)
    requires i <= |s| && ParseMember(s, i).Hit? && ParseMember(s, i).end < |s|
    requires Agree(s, i, ParseMember(s, i).end, t, d) && NumStop(t, ParseMember(s, i).end + d)
    ensures ParseMember(t, i + d) == Hit(ParseMember(s, i).val, ParseMember(s, i).end + d)
    decreases |s| - i, 1
  {
    hide ParseAt, ParseKey;
    KeyLocal(s, i, t, d);
    ParseLocal(s, ParseKey(s, i).end, t, d);
  }

  /** One step of `ParseMembers`, forwards and backwards. */
  lemma MembersStep(s: Text, i: nat)
    requires i <= |s| && ParseMember(s, i).Hit? && SkipWs(s, ParseMember(s, i).end) < |s|
    ensures var m := ParseMember(s, i);
      var k := SkipWs(s, m.end);
      (s[k] == RBRACE ==> ParseMembers(s, i) == Hit([m.val], k + 1))
      && (s[k] == COMMA ==>
            var r := ParseMembers(s, SkipWs(s, k + 1));
            ParseMembers(s, i) == if r.Hit? then Hit([m.val] + r.val, r.end) else Fail)
  {
    hide ParseMember, SkipWs;
  }

  lemma MembersShape(s: Text, i: nat)
    requires i <= |s| && ParseMembers(s, i).Hit?
    ensures ParseMember(s, i).Hit?
    ensures var k := SkipWs(s, ParseMember(s, i).end);
      && k < ParseMembers(s, i).end && s[k] in {RBRACE, COMMA}
      && (s[k] == COMMA ==>
            var m := SkipWs(s, k + 1);
            m < ParseMembers(s, i).end && ParseMembers(s, m).Hit? && ParseMembers(s, m).end == ParseMembers(s, i).end)
  {
    hide ParseMember, SkipWs;
  }

  lemma {:induction false} MembersLocal(s: Text, i: nat, t: Text, d: int)
    requires i <= |s| && ParseMembers(s, i).Hit?
    requires Agree(s, i, ParseMembers(s, i).end, t, d)
    ensures ParseMembers(t, i + d) == Hit(ParseMembers(s, i).val, ParseMembers(s, i).end + d)
    decreases |s| - i, 2
  {
    hide ParseMember, SkipWs, Agree, ParseMembers;
    MembersShape(s, i);
    var e := ParseMembers(s, i).end;
    var j := ParseMember(s, i).end;
    var k := SkipWs(s, j);
    MembersStep(s, i);
    AgreeSub(s, i, e, t, d, i, j);
    AgreeSub(s, i, e, t, d, j, e);
    SeparatorLocal(s, j, e, RBRACE, t, d);
    MemberLocal(s, i, t, d);
    MembersStep(t, i + d);
    if s[k] == COMMA {
      AgreeSub(s, i, e, t, d, SkipWs(s, k + 1), e);
      MembersLocal(s, SkipWs(s, k + 1), t, d);
    }
  }

  // ---------- object and array texts ----------

  /** One whole object or array, with nothing before or after it. */
  predicate ContainerText(t: Text) {
    t != [] && (t[0] == LBRACE || t[0] == LBRACKET) && ParseAt(t, 0).Hit? && ParseAt(t, 0).end == |t|
  }

  lemma ContainerEnds(s: Text, i: nat)
    requires i < |s| && ParseAt(s, i).Hit? && (s[i] == LBRACE || s[i] == LBRACKET)
    ensures s[ParseAt(s, i).end - 1] == RBRACE || s[ParseAt(s, i).end - 1] == RBRACKET
    ensures ParseAt(s, i).val.Obj? || ParseAt(s, i).val.Arr?
  {
    var k := SkipWs(s, i + 1);
    if s[i] == LBRACE && s[k] != RBRACE { MembersEnd(s, k); }
    if s[i] == LBRACKET && s[k] != RBRACKET { ItemsEnd(s, k); }
  }

  lemma {:induction false} ItemsEnd(s: Text, i: nat)
    requires i <= |s| && ParseItems(s, i).Hit?
    ensures s[ParseItems(s, i).end - 1] == RBRACKET
    decreases |s| - i
  {
    hide ParseAt, SkipWs, ParseItems;
    ItemsShape(s, i);
    ItemsStep(s, i);
    var k := SkipWs(s, ParseAt(s, i).end);
    if s[k] != RBRACKET { ItemsEnd(s, SkipWs(s, k + 1)); }
  }

  lemma {:induction false} MembersEnd(s: Text, i: nat)
    requires i <= |s| && ParseMembers(s, i).Hit?
    ensures s[ParseMembers(s, i).end - 1] == RBRACE
    decreases |s| - i
  {
    hide ParseMember, SkipWs, ParseMembers;
    MembersShape(s, i);
    MembersStep(s, i);
    var k := SkipWs(s, ParseMember(s, i).end);
    if s[k] != RBRACE { MembersEnd(s, SkipWs(s, k + 1)); }
  }

  /** No proper prefix of an object or array text starts with a JSON value. */
  lemma PrefixFree(p: Text, t: Text)
    requires ContainerText(t) && p < t
    ensures ParseAt(p, 0).Fail?
    ensures Loads(p).None?
  {
    if p != [] {
      assert p[0] == t[0];
      if ParseAt(p, 0).Hit? {
        ContainerEnds(p, 0);
        ParseLocal(p, 0, t, 0);
      }
      assert SkipWs(p, 0) == 0;
    }
  }

  /** The text consumed by a parse parses, on its own, to the same value. */
  lemma ParseAlone(s: Text, i: nat)
    requires i <= |s| && ParseAt(s, i).Hit?
    ensures ParseAt(s[i..ParseAt(s, i).end], 0) == Hit(ParseAt(s, i).val, ParseAt(s, i).end - i)
  {
    var d: int := i;
    ParseLocal(s, i, s[i..ParseAt(s, i).end], 0 - d);
  }

  // ---------- parsing gives well-formed values ----------

  lemma {:induction false} WfMembersIn(ms: seq<Member>)
    ensures WfMembers(ms) <==> forall m :: m in ms ==> Wf(m.val)
  {
    if ms != [] {
      WfMembersIn(ms[1..]);
      assert ms == [ms[0]] + ms[1..];
    }
  }

  lemma AtomWf(s: Text, i: nat)
    requires i <= |s| && ParseAtom(s, i).Hit?
    ensures Wf(ParseAtom(s, i).val)
  {
    hide NumberEnd, ScanString;
    if i < |s| && NumberEnd(s, i).Some? {
      var e := NumberEnd(s, i).value;
      var d: int := i;
      NumberLocal(s, i, s[i..e], 0 - d);
      ZeroIsANumber();
    }
  }

  lemma ZeroIsANumber()
    ensures NumberEnd([ZERO], 0) == Some(1)
  {
  }

  lemma {:induction false} ParseWf(s: Text, i: nat)
    requires i <= |s| && ParseAt(s, i).Hit?
    ensures Wf(ParseAt(s, i).val)
    decreases |s| - i, 0
  {
    hide ParseItems, ParseMembers, ParseAtom, SkipWs;
    if s[i] == LBRACE {
      var k := SkipWs(s, i + 1);
      if k == |s| || s[k] != RBRACE {
        MembersWf(s, k);
        var ps := ParseMembers(s, k).val;
        DictOfUnique(ps);
        WfMembersIn(ps);
        WfMembersIn(DictOf(ps));
      }
    } else if s[i] == LBRACKET {
      var k := SkipWs(s, i + 1);
      if k == |s| || s[k] != RBRACKET {
        ItemsWf(s, k);
      }
    } else {
      AtomWf(s, i);
    }
  }

  lemma {:induction false} ItemsWf(s: Text, i: nat)
    requires i <= |s| && ParseItems(s, i).Hit?
    ensures WfItems(ParseItems(s, i).val)
    decreases |s| - i, 1
  {
    hide ParseAt, SkipWs, ParseItems;
    ItemsShape(s, i);
    ItemsStep(s, i);
    ParseWf(s, i);
    var k := SkipWs(s, ParseAt(s, i).end);
    if s[k] == COMMA {
      ItemsWf(s, SkipWs(s, k + 1));
    }
  }

  lemma {:induction false} MembersWf(s: Text, i: nat)
    requires i <= |s| && ParseMembers(s, i).Hit?
    ensures WfMembers(ParseMembers(s, i).val)
    decreases |s| - i, 1
  {
    hide ParseAt, ParseKey, SkipWs, ParseMembers;
    MembersShape(s, i);
    MembersStep(s, i);
    ParseWf(s, ParseKey(s, i).end);
    var k := SkipWs(s, ParseMember(s, i).end);
    if s[k] == COMMA {
      MembersWf(s, SkipWs(s, k + 1));
    }
  }

  // ---------- printing then parsing ----------

  lemma EscapeScans(c: Code, rest: Text)
    ensures ScanChar(Escape(c) + rest, 0) == Hit(c, |Escape(c)|)
    ensures Escape(c)[0] != QUOTE
  {
    if c < 0x20 {
      assert HexDigit(HexChar(c / 16)) == c / 16 && HexDigit(HexChar(c % 16)) == c % 16;
    }
  }

  lemma {:induction false} StringRoundTrip(s: Text)
    ensures ScanString(DumpBody(s), 0) == Hit(s, |DumpBody(s)|)
  {
    hide ScanChar, Escape;
    if s != [] {
      var r := DumpBody(s[1..]);
      var t := DumpBody(s);
      assert t == Escape(s[0]) + r;
      EscapeScans(s[0], r);
      assert t[0] == Escape(s[0])[0];
      StringRoundTrip(s[1..]);
      StringLocal(r, 0, t, |Escape(s[0])|);
      assert [s[0]] + s[1..] == s;
    }
  }

  lemma DumpsStart(v: Json, spaced: bool)
    requires Wf(v)
    ensures Dumps(v, spaced) != []
    ensures !IsWs(Dumps(v, spaced)[0]) && Dumps(v, spaced)[0] !in {RBRACE, RBRACKET}
    ensures Dumps(v, spaced)[0] == LBRACE <==> v.Obj?
    ensures Dumps(v, spaced)[0] == LBRACKET <==> v.Arr?
  {
    hide NumberEnd, DumpItems, DumpMembers, DumpBody;
  }

  lemma AtomRoundTrip(v: Json, spaced: bool)
    requires Wf(v) && !v.Arr? && !v.Obj?
    ensures ParseAtom(Dumps(v, spaced), 0) == Hit(v, |Dumps(v, spaced)|)
  {
    hide NumberEnd, ScanString, DumpBody;
    var t := Dumps(v, spaced);
    assert t[0..|t|] == t;
    if v.Str? {
      StringRoundTrip(v.s);
      StringLocal(DumpBody(v.s), 0, t, 1);
    } else if t == MINUS_INFINITY {
      MinusInfinityIsNoNumber(t, 0);
    }
  }

  /** `loads(dumps(v)) == v`, member order included. */
  lemma {:induction false} DumpsRoundTrip(v: Json, spaced: bool)
    requires Wf(v)
    ensures ParseAt(Dumps(v, spaced), 0) == Hit(v, |Dumps(v, spaced)|)
    decreases v, 0
  {
    hide ParseItems, ParseMembers, ParseAtom, DumpItems, DumpMembers;
    var t := Dumps(v, spaced);
    DumpsStart(v, spaced);
    if v.Arr? && v.items != [] {
      var b := DumpItems(v.items, spaced);
      ItemsRoundTrip(v.items, spaced);
      assert b[0] == t[1];
      ItemsLocal(b, 0, t, 1);
    } else if v.Obj? && v.members != [] {
      var b := DumpMembers(v.members, spaced);
      MembersRoundTrip(v.members, spaced);
      assert b[0] == t[1];
      MembersLocal(b, 0, t, 1);
      DictOfUnique(v.members);
    } else if !v.Arr? && !v.Obj? {
      AtomRoundTrip(v, spaced);
    }
  }

  lemma AgreeMiddle(a: Text, b: Text, c: Text)
    ensures Agree(b, 0, |b|, a + b + c, |a|)
    ensures c != [] ==> (a + b + c)[|a| + |b|] == c[0]
    ensures b != [] ==> (a + b + c)[|a|] == b[0]
  {
  }

  lemma SkipGap(t: Text, i: nat, spaced: bool)
    requires i + |Gap(spaced)| < |t| && (spaced ==> t[i] == SPACE) && !IsWs(t[i + |Gap(spaced)|])
    ensures SkipWs(t, i) == i + |Gap(spaced)|
  {
  }

  /** A printed value followed by a comma or a bracket is read back. */
  lemma ParseIn(a: Text, h: Text, c: Text, v: Json)
    requires h != [] && ParseAt(h, 0) == Hit(v, |h|)
    requires c != [] && c[0] in {COMMA, RBRACKET, RBRACE}
    ensures ParseAt(a + h + c, |a|) == Hit(v, |a| + |h|)
    ensures SkipWs(a + h + c, |a| + |h|) == |a| + |h|
  {
    hide ParseAt, Agree;
    AgreeMiddle(a, h, c);
    ParseLocal(h, 0, a + h + c, |a|);
  }

  /** Where a comma, the gap and the next printed element stand after `h`. */
  lemma Joined(h: Text, spaced: bool, r: Text)
    requires r != [] && !IsWs(r[0])
    ensures var t := h + ([COMMA] + Gap(spaced) + r);
      && |t| == |h| + 1 + |Gap(spaced)| + |r| && t[|h|] == COMMA
      && SkipWs(t, |h| + 1) == |h| + 1 + |Gap(spaced)|
      && Agree(r, 0, |r|, t, |h| + 1 + |Gap(spaced)|)
  {
    hide SkipWs, Gap;
    var g := Gap(spaced);
    var t := h + ([COMMA] + g + r);
    assert forall k :: 0 <= k < |r| ==> t[k + (|h| + 1 + |g|)] == r[k];
    GapIsBlank(spaced);
    assert t[|h| + 1 + |g|] == r[0];
    assert spaced ==> t[|h| + 1] == g[0];
    SkipGap(t, |h| + 1, spaced);
  }

  /** The last item of an array, and an item before others, read from their printed text. */
  lemma ItemLast(v: Json, h: Text)
    requires h != [] && ParseAt(h, 0) == Hit(v, |h|)
    ensures ParseItems(h + [RBRACKET], 0) == Hit([v], |h| + 1)
  {
    hide ParseAt, Agree, SkipWs, ParseItems;
    var t := h + [RBRACKET];
    assert t == [] + h + [RBRACKET];
    ParseIn([], h, [RBRACKET], v);
    ItemsStep(t, 0);
  }

  lemma ItemBefore(v: Json, h: Text, vs: seq<Json>, r: Text, spaced: bool)
    requires h != [] && ParseAt(h, 0) == Hit(v, |h|)
    requires r != [] && !IsWs(r[0]) && r[0] !in {RBRACE, RBRACKET} && ParseItems(r, 0) == Hit(vs, |r|)
    ensures var t := h + ([COMMA] + Gap(spaced) + r); ParseItems(t, 0) == Hit([v] + vs, |t|)
  {
    hide ParseAt, Agree, SkipWs, Gap, ParseItems;
    var c := [COMMA] + Gap(spaced) + r;
    var t := h + c;
    assert t == [] + h + c;
    ParseIn([], h, c, v);
    Joined(h, spaced, r);
    ItemsStep(t, 0);
    ItemsLocal(r, 0, t, |h| + 1 + |Gap(spaced)|);
  }

  lemma {:induction false} ItemsRoundTrip(vs: seq<Json>, spaced: bool)
    requires vs != [] && WfItems(vs)
    ensures DumpItems(vs, spaced) != []
    ensures ParseItems(DumpItems(vs, spaced), 0) == Hit(vs, |DumpItems(vs, spaced)|)
    ensures !IsWs(DumpItems(vs, spaced)[0]) && DumpItems(vs, spaced)[0] !in {RBRACE, RBRACKET}
    decreases vs, 0
  {
    hide ParseAt, Dumps, Gap, ParseItems;
    var h := Dumps(vs[0], spaced);
    DumpsStart(vs[0], spaced);
    DumpsRoundTrip(vs[0], spaced);
    if |vs| == 1 {
      ItemLast(vs[0], h);
      assert vs == [vs[0]];
    } else {
      ItemsRoundTrip(vs[1..], spaced);
      ItemBefore(vs[0], h, vs[1..], DumpItems(vs[1..], spaced), spaced);
      assert vs == [vs[0]] + vs[1..];
    }
  }

  lemma GapIsBlank(spaced: bool)
    ensures spaced ==> Gap(spaced) == [SPACE]
  {
  }

  /** A printed member followed by a comma or a brace is read back. */
  lemma {:induction false} MemberRoundTrip(m: Member, spaced: bool, c: Text)
    requires Wf(m.val)
    requires c != [] && c[0] in {COMMA, RBRACE}
    ensures ParseMember(DumpMember(m, spaced) + c, 0) == Hit(m, |DumpMember(m, spaced)|)
    ensures SkipWs(DumpMember(m, spaced) + c, |DumpMember(m, spaced)|) == |DumpMember(m, spaced)|
    decreases m, 1
  {
    hide ParseAt, Dumps, ScanString, DumpBody, SkipWs, Agree, Gap;
    var d := DumpMember(m, spaced);
    var b := DumpBody(m.key);
    var h := Dumps(m.val, spaced);
    var g := Gap(spaced);
    var t := d + c;
    StringRoundTrip(m.key);
    DumpsStart(m.val, spaced);
    DumpsRoundTrip(m.val, spaced);
    assert t == [QUOTE] + b + ([COLON] + g + h + c);
    AgreeMiddle([QUOTE], b, [COLON] + g + h + c);
    StringLocal(b, 0, t, 1);
    assert t == ([QUOTE] + b + [COLON]) + g + (h + c);
    AgreeMiddle([QUOTE] + b + [COLON], g, h + c);
    GapIsBlank(spaced);
    NoSkip(t, 1 + |b|);
    SkipGap(t, 2 + |b|, spaced);
    assert t == ([QUOTE] + b + [COLON] + g) + h + c;
    ParseIn([QUOTE] + b + [COLON] + g, h, c, m.val);
  }

  lemma NoSkip(t: Text, i: nat)
    requires i < |t| && !IsWs(t[i])
    ensures SkipWs(t, i) == i
  {
  }

  lemma MemberStarts(m: Member, spaced: bool)
    ensures DumpMember(m, spaced) != [] && DumpMember(m, spaced)[0] == QUOTE
  {
    hide Dumps, DumpBody;
  }

  lemma {:induction false} MembersRoundTrip(ms: seq<Member>, spaced: bool)
    requires ms != [] && WfMembers(ms)
    ensures DumpMembers(ms, spaced) != []
    ensures ParseMembers(DumpMembers(ms, spaced), 0) == Hit(ms, |DumpMembers(ms, spaced)|)
    ensures DumpMembers(ms, spaced)[0] == QUOTE
    decreases ms, 0
  {
    hide ParseAt, ParseMember, Agree, SkipWs, Gap, ParseMembers, DumpMember;
    var t := DumpMembers(ms, spaced);
    var h := DumpMember(ms[0], spaced);
    MemberStarts(ms[0], spaced);
    if |ms| == 1 {
      assert t == h + [RBRACE];
      MemberRoundTrip(ms[0], spaced, [RBRACE]);
      MembersStep(t, 0);
      assert ms == [ms[0]];
    } else {
      var r := DumpMembers(ms[1..], spaced);
      var c := [COMMA] + Gap(spaced) + r;
      MembersRoundTrip(ms[1..], spaced);
      assert t == h + c;
      MemberRoundTrip(ms[0], spaced, c);
      Joined(h, spaced, r);
      MembersStep(t, 0);
      MembersLocal(r, 0, t, |h| + 1 + |Gap(spaced)|);
      assert ms == [ms[0]] + ms[1..];
    }
  }
}
