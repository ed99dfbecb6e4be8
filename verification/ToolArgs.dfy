/**
 Tool-call arguments on a stream (anthropic_compat.py): recovery of doubled JSON, the readiness
 test, and the merge of stream pieces.
 */
module ToolArgs {
  import opened Texts
  import opened Json
  import opened JsonLaws
  import opened JsonCanon

  // ---------- sanitize_tool_arguments_json ----------

  /** White space in Python's sense, which is wider than JSON's. */
  function SkipSpace(s: Text, i: nat): (j: nat)
    requires i <= |s|
    ensures i <= j <= |s|
    ensures j < |s| ==> !IsSpace(s[j])
    decreases |s| - i
  {
    if i < |s| && IsSpace(s[i]) then SkipSpace(s, i + 1) else i
  }

  /** The ends of the JSON values that stand one after the other from position `i`. */
  function ValueEnds(s: Text, i: nat): (ends: seq<nat>)
    requires i <= |s|
    ensures forall k :: 0 <= k < |ends| ==> i < ends[k] <= |s|
    decreases |s| - i
  {
    var k := SkipSpace(s, i);
    if k == |s| || ParseAt(s, k).Fail? then []
    else
      var e := ParseAt(s, k).end;
      var rest := ValueEnds(s, e);
      assert forall x :: 0 <= x < |rest| ==> rest[x] == ([e] + rest)[x + 1];
      [e] + rest
  }

  /** What `sanitize_tool_arguments_json` returns for a string. */
  function Sanitize(s: Text): Text {
    var stripped := Strip(s);
    if s == [] || Loads(s).Some? then s
    else if stripped != [] && stripped != s && Loads(stripped).Some? then stripped
    else
      var src := if stripped != [] then stripped else s;
      var ends := ValueEnds(src, 0);
      if |ends| < 2 then s else Strip(src[..ends[0]])
  }

  /** The decoding loop: skip white space, decode one value, until neither is possible. */
  method DecodeAll(src: Text) returns (ends: seq<nat>)
    ensures ends == ValueEnds(src, 0)
  {
    hide ParseAt, ValueEnds;
    var idx: nat := 0;
    ends := [];
    ValueEndsStep(src, |src|);
    while idx < |src|
      invariant idx <= |src|
      invariant ends + ValueEnds(src, idx) == ValueEnds(src, 0)
    {
      ghost var start := idx;
      while idx < |src| && IsSpace(src[idx])
        invariant start <= idx <= |src|
        invariant SkipSpace(src, idx) == SkipSpace(src, start)
      {
        idx := idx + 1;
      }
      ValueEndsStep(src, start);
      if idx >= |src| { assert ends == ends + []; break; }
      var v := ParseAt(src, idx);
      if v.Fail? { assert ends == ends + []; break; }
      ends := ends + [v.end];
      idx := v.end;
    }
    assert ends + [] == ends;
  }

  /** `sanitize_tool_arguments_json` on a string. */
  method SanitizeToolArgumentsJson(s: Text) returns (r: Text)
    ensures r == Sanitize(s)
  {
    hide ValueEnds, ParseAt, Loads;
    if s == [] || Loads(s).Some? { return s; }
    var stripped := Strip(s);
    if stripped != [] && stripped != s && Loads(stripped).Some? { return stripped; }
    var src := if stripped != [] then stripped else s;
    var ends := DecodeAll(src);
    if |ends| < 2 { return s; }
    r := Strip(src[..ends[0]]);
  }

  lemma ValueEndsStep(s: Text, i: nat)
    requires i <= |s|
    ensures var k := SkipSpace(s, i);
      && (k == |s| || ParseAt(s, k).Fail? ==> ValueEnds(s, i) == [])
      && (k < |s| && ParseAt(s, k).Hit? ==> ValueEnds(s, i) == [ParseAt(s, k).end] + ValueEnds(s, ParseAt(s, k).end))
  {
    hide ParseAt;
  }

  lemma LoadsTrimmed(t: Text)
    requires t != [] && Trimmed(t) && ParseAt(t, 0).Hit? && ParseAt(t, 0).end == |t|
    ensures Loads(t) == Some(ParseAt(t, 0).val)
  {
  }

  lemma {:induction false} DigitsEndInDigit(s: Text, i: nat)
    requires i <= |s| && i < DigitsEnd(s, i)
    ensures IsDigit(s[DigitsEnd(s, i) - 1])
    decreases |s| - i
  {
    if i + 1 < DigitsEnd(s, i) { DigitsEndInDigit(s, i + 1); }
  }

  lemma NumberEndsInDigit(s: Text, i: nat)
    requires i <= |s| && NumberEnd(s, i).Some?
    ensures IsDigit(s[NumberEnd(s, i).value - 1])
  {
    hide DigitsEnd;
    var p := if s[i] == MINUS then i + 1 else i;
    var j := IntEnd(s, i).value;
    var f := FracEnd(s, j);
    if s[p] != ZERO { DigitsEndInDigit(s, p); DigitsAreMore(s, p); }
    if f > j { DigitsEndInDigit(s, j + 1); DigitsAreMore(s, j + 1); }
    if ExpEnd(s, f) > f {
      var k := if f + 1 < |s| && (s[f + 1] == PLUS || s[f + 1] == MINUS) then f + 2 else f + 1;
      DigitsAreMore(s, k);
      DigitsEndInDigit(s, k);
    }
  }

  lemma DigitsAreMore(s: Text, i: nat)
    requires i < |s| && IsDigit(s[i])
    ensures i < DigitsEnd(s, i)
  {
  }

  lemma {:induction false} StringEndsInQuote(s: Text, i: nat)
    requires i <= |s| && ScanString(s, i).Hit?
    ensures s[ScanString(s, i).end - 1] == QUOTE
    decreases |s| - i
  {
    hide ScanChar;
    if s[i] != QUOTE { StringEndsInQuote(s, ScanChar(s, i).end); }
  }

  /** A JSON value starts and ends with a character that is not white space. */
  lemma ValueIsTrimmed(s: Text, i: nat)
    requires i <= |s| && ParseAt(s, i).Hit?
    ensures Trimmed(s[i..ParseAt(s, i).end])
  {
    hide ScanString, NumberEnd, ParseItems, ParseMembers, LiteralAt;
    if s[i] == LBRACE || s[i] == LBRACKET {
      ContainerEnds(s, i);
    } else if s[i] == QUOTE {
      StringEndsInQuote(s, i + 1);
    } else if NumberEnd(s, i).Some? && s[i] !in {NULL[0], TRUE[0], FALSE[0], NAN[0], INFINITY[0]} {
      NumberEndsInDigit(s, i);
    } else {
      var lit := if s[i] == NULL[0] then NULL else if s[i] == TRUE[0] then TRUE else if s[i] == FALSE[0] then FALSE
                 else if s[i] == NAN[0] then NAN else if s[i] == INFINITY[0] then INFINITY else MINUS_INFINITY;
      LiteralEnd(s, i, lit);
    }
  }

  lemma LiteralEnd(s: Text, i: nat, lit: Text)
    requires lit != [] && LiteralAt(s, i, lit)
    ensures s[i] == lit[0] && s[i + |lit| - 1] == lit[|lit| - 1]
  {
    assert s[i..i + |lit|][0] == lit[0] && s[i..i + |lit|][|lit| - 1] == lit[|lit| - 1];
  }

  /** Sanitising twice is sanitising once, on every string. */
  lemma SanitizeIdempotent(s: Text)
    ensures Sanitize(Sanitize(s)) == Sanitize(s)
  {
    hide ParseAt, Loads;
    var stripped := Strip(s);
    var src := if stripped != [] then stripped else s;
    var ends := ValueEnds(src, 0);
    StripIsTrimmed(s);
    if stripped == [] {
      AllSpace(s, 0);
    } else if |ends| >= 2 {
      FirstValueAlone(src);
    }
  }

  lemma {:induction false} AllSpace(s: Text, i: nat)
    requires i <= |s| && forall k :: i <= k < |s| ==> IsSpace(s[k])
    ensures SkipSpace(s, i) == |s|
    decreases |s| - i
  {
    if i < |s| { AllSpace(s, i + 1); }
  }

  /** The text of the first value of a trimmed text is itself one whole JSON text. */
  lemma FirstValueAlone(src: Text)
    requires src != [] && Trimmed(src) && ValueEnds(src, 0) != []
    ensures Strip(src[..ValueEnds(src, 0)[0]]) == src[..ValueEnds(src, 0)[0]] != []
    ensures Loads(src[..ValueEnds(src, 0)[0]]).Some?
  {
    hide ParseAt, Loads;
    var t := src[0..ValueEnds(src, 0)[0]];
    ParseAlone(src, 0);
    ValueIsTrimmed(src, 0);
    TrimmedStrip(t);
    LoadsTrimmed(t);
    assert t == src[..ValueEnds(src, 0)[0]];
  }

  lemma ContainerTrimmed(t: Text)
    requires ContainerText(t)
    ensures Trimmed(t) && Loads(t) == Some(ParseAt(t, 0).val) && Sanitize(t) == t
  {
    ContainerEnds(t, 0);
    LoadsTrimmed(t);
  }

  lemma PrefixStripped(p: Text, t: Text)
    requires ContainerText(t) && p <= t && p != []
    ensures Strip(p) <= p && Strip(p) != []
  {
    assert LStrip(p) == p;
    RStripIsPrefix(p);
    assert !IsSpace(p[0]);
  }

  /** Every prefix of an object or array text is left unchanged. */
  lemma SanitizePrefix(p: Text, t: Text)
    requires ContainerText(t) && p <= t
    ensures Sanitize(p) == p
  {
    hide ParseAt, Loads;
    if p == t {
      ContainerTrimmed(t);
    } else if p != [] {
      PrefixStripped(p, t);
      PrefixFree(p, t);
      PrefixFree(Strip(p), t);
    }
  }

  function Repeat(t: Text, n: nat): Text {
    if n == 0 then [] else t + Repeat(t, n - 1)
  }

  lemma {:induction false} RepeatEnds(t: Text, n: nat)
    requires t != [] && n > 0
    ensures t <= Repeat(t, n)
    ensures Repeat(t, n)[|Repeat(t, n)| - 1] == t[|t| - 1]
    ensures |Repeat(t, n)| == |t| <==> n == 1
  {
    if n > 1 { RepeatEnds(t, n - 1); }
  }

  /** An object or array text sent n times over is recovered as one copy. */
  lemma SanitizeRepeated(t: Text, n: nat)
    requires ContainerText(t) && n > 0
    ensures Sanitize(Repeat(t, n)) == t
  {
    hide ParseAt, Loads;
    ContainerTrimmed(t);
    if n == 1 {
      assert Repeat(t, 1) == t + [] == t;
    } else {
      var r := Repeat(t, n - 1);
      var s := Repeat(t, n);
      assert s == t + r;
      RepeatEnds(t, n - 1);
      RepeatEnds(t, n);
      assert Trimmed(s);
      TrimmedStrip(s);
      TwoCopies(t, r, s);
      assert s[..|t|] == t;
      TrimmedStrip(t);
    }
  }

  lemma TwoCopies(t: Text, r: Text, s: Text)
    requires ContainerText(t) && Trimmed(t) && t <= r && s == t + r
    ensures |ValueEnds(s, 0)| >= 2 && ValueEnds(s, 0)[0] == |t|
    ensures Loads(s).None?
  {
    hide ParseAt, ValueEnds, SkipWs;
    CopyAt(t, [], r);
    assert [] + t + r == s;
    assert s == t + t + r[|t|..];
    CopyAt(t, t, r[|t|..]);
    assert s[0] == t[0] && s[|t|] == t[0];
    NoSkip(s, 0);
    NoSkip(s, |t|);
    ValueEndsStep(s, 0);
    ValueEndsStep(s, |t|);
  }

  /** A copy of `t` inside another text is parsed as it is alone. */
  lemma CopyAt(t: Text, a: Text, c: Text)
    requires ContainerText(t)
    ensures ParseAt(a + t + c, |a|) == Hit(ParseAt(t, 0).val, |a| + |t|)
  {
    hide ParseAt, Agree;
    ContainerEnds(t, 0);
    AgreeMiddle(a, t, c);
    ParseLocal(t, 0, a + t + c, |a|);
  }

  // ---------- is_complete_tool_arguments_json ----------

  function Lower(c: Code): Code {
    if 0x41 <= c <= 0x5A then c + 0x20 else c
  }

  predicate IsNameChar(c: Code) {
    0x61 <= c <= 0x7A || IsDigit(c) || c == 0x5F
  }

  /** Keep the characters a-z, 0-9 and _ of the lower-cased name. */
  function NameKey(s: Text): Text {
    if s == [] then []
    else (if IsNameChar(Lower(s[0])) then [Lower(s[0])] else []) + NameKey(s[1..])
  }

  /** The arguments each known tool cannot do without, in the order the table is searched. */
  const REQUIRED: seq<(string, seq<string>)> := [
    ("read", ["file_path"]),
    ("write", ["file_path", "content"]),
    ("edit", ["file_path", "old_string", "new_string"]),
    ("update", ["file_path", "old_string", "new_string"]),
    ("multiedit", ["file_path", "edits"]),
    ("notebookedit", ["notebook_path", "new_source"]),
    ("bash", ["command"]),
    ("shell", ["command"]),
    ("grep", ["pattern"]),
    ("glob", ["pattern"]),
    ("webfetch", ["url"]),
    ("websearch", ["query"]),
    ("web_search", ["query"])
  ]

  predicate EndsWith(s: Text, e: Text) {
    |e| <= |s| && s[|s| - |e|..] == e
  }

  function LookupExact(key: Text, table: seq<(string, seq<string>)>): Option<seq<string>> {
    if table == [] then None
    else if key == T(table[0].0) then Some(table[0].1)
    else LookupExact(key, table[1..])
  }

  function LookupSuffix(key: Text, table: seq<(string, seq<string>)>): seq<string> {
    if table == [] then []
    else if EndsWith(key, T(table[0].0)) then table[0].1
    else LookupSuffix(key, table[1..])
  }

  /** `_required_keys_for_tool`: exact name first, then the first table entry that is a suffix. */
  function RequiredKeys(name: Text): seq<string> {
    var key := NameKey(Strip(name));
    if key == [] then []
    else
      match LookupExact(key, REQUIRED)
      case Some(keys) => keys
      case None => LookupSuffix(key, REQUIRED)
  }

  /** A required argument is present and not empty. */
  predicate Usable(ms: seq<Member>, key: Text) {
    match Find(ms, key)
    case None => false
    case Some(Str(s)) => Strip(s) != []
    case Some(Null) => false
    case Some(Arr(items)) => items != []
    case Some(Obj(members)) => members != []
    case Some(_) => true
  }

  /** `is_complete_tool_arguments_json`. */
  predicate Complete(s: Text, name: Text) {
    var t := Strip(s);
    && t != [] && (t[0] == LBRACE || t[0] == LBRACKET)
    && match Loads(t)
       case Some(Obj(ms)) => ms != [] && forall k :: k in RequiredKeys(name) ==> Usable(ms, T(k))
       case Some(Arr(items)) => items != []
       case _ => false
  }

  /** Arguments are never ready before their text is whole. */
  lemma PrefixNotComplete(p: Text, t: Text, name: Text)
    requires ContainerText(t) && p < t
    ensures !Complete(p, name)
  {
    hide ParseAt, Loads;
    if p != [] {
      PrefixStripped(p, t);
      PrefixFree(Strip(p), t);
    }
  }

  // ---------- merge_tool_argument_delta ----------

  /** `d.update(e)`. */
  function Update(d: seq<Member>, e: seq<Member>): seq<Member>
    decreases |e|
  {
    if e == [] then d else Update(Put(d, e[0]), e[1..])
  }

  function MergedValue(was: Option<Json>, v: Json): Json {
    match was
    case Some(Obj(ms)) => if v.Obj? && ms != [] then Obj(Update(ms, v.members)) else v
    case _ => v
  }

  /** Later keys added to earlier ones; a shared key takes the later value, nested dicts are updated. */
  function MergeDicts(a: seq<Member>, b: seq<Member>): seq<Member>
    decreases |b|
  {
    if b == [] then a
    else MergeDicts(Put(a, Member(b[0].key, MergedValue(Find(a, b[0].key), b[0].val))), b[1..])
  }

  /** The last resort of the merge: compare the two pieces as JSON values. */
  function MergeValues(cur: Text, piece: Text): Text {
    match (Loads(cur), Loads(piece))
    case (Some(a), Some(b)) =>
      if SameValue(a, b) then cur
      else if a.Obj? && b.Obj? then Dumps(Obj(MergeDicts(a.members, b.members)), false)
      else if a.Arr? && b.Arr? then (if |b.items| >= |a.items| then piece else cur)
      else if IsContainer(a) && !IsContainer(b) then cur
      else if IsContainer(b) && !IsContainer(a) then piece
      else cur + piece
    case _ => cur + piece
  }

  function MergeClean(cur: Text, piece: Text, name: Text): Text {
    if piece == [] || piece == cur then cur
    else if cur <= piece then piece
    else if piece <= cur then cur
    else if Complete(piece, name) && !Complete(cur, name) then piece
    else if Complete(cur, name) && !Complete(piece, name) then cur
    else MergeValues(cur, piece)
  }

  /** `merge_tool_argument_delta`. */
  function Merge(current: Text, incoming: Text, name: Text): Text {
    MergeClean(Sanitize(current), Sanitize(incoming), name)
  }

  function FoldMerge(buf: Text, pieces: seq<Text>, name: Text): Text
    decreases |pieces|
  {
    if pieces == [] then buf else FoldMerge(Merge(buf, pieces[0], name), pieces[1..], name)
  }

  function Longest(n: nat, pieces: seq<Text>): (m: nat)
    ensures m >= n
    decreases |pieces|
  {
    if pieces == [] then n else Longest(if |pieces[0]| > n then |pieces[0]| else n, pieces[1..])
  }

  lemma {:induction false} LongestIsReached(n: nat, pieces: seq<Text>)
    ensures Longest(n, pieces) == n || exists i :: 0 <= i < |pieces| && |pieces[i]| == Longest(n, pieces)
    ensures forall i :: 0 <= i < |pieces| ==> |pieces[i]| <= Longest(n, pieces)
    decreases |pieces|
  {
    if pieces != [] {
      var m := if |pieces[0]| > n then |pieces[0]| else n;
      LongestIsReached(m, pieces[1..]);
      if Longest(n, pieces) != n && |pieces[0]| != Longest(n, pieces) {
        var i :| 0 <= i < |pieces[1..]| && |pieces[1..][i]| == Longest(m, pieces[1..]);
        assert |pieces[i + 1]| == Longest(n, pieces);
      }
      forall i | 0 <= i < |pieces| ensures |pieces[i]| <= Longest(n, pieces) {
        if i > 0 { assert pieces[i] == pieces[1..][i - 1]; }
      }
    }
  }

  /** Two prefixes of one object or array text merge to the longer one. */
  lemma MergePrefixes(t: Text, a: nat, b: nat, name: Text)
    requires ContainerText(t) && a <= |t| && b <= |t|
    ensures Merge(t[..a], t[..b], name) == t[..if a < b then b else a]
  {
    hide ParseAt, Loads, Complete;
    SanitizePrefix(t[..a], t);
    SanitizePrefix(t[..b], t);
    if a < b { assert t[..a] <= t[..b]; } else { assert t[..b] <= t[..a]; }
  }

  /**
   Cumulative re-sends: whatever prefixes of an object or array text arrive, in any order and
   with repeats, the buffer is the longest one seen.
   */
  lemma {:induction false} FoldPrefixes(t: Text, n: nat, pieces: seq<Text>, name: Text)
    requires ContainerText(t) && n <= |t|
    requires forall i :: 0 <= i < |pieces| ==> pieces[i] <= t
    ensures Longest(n, pieces) <= |t|
    ensures FoldMerge(t[..n], pieces, name) == t[..Longest(n, pieces)]
    decreases |pieces|
  {
    hide Merge;
    if pieces != [] {
      var b := |pieces[0]|;
      assert pieces[0] == t[..b];
      MergePrefixes(t, n, b, name);
      FoldPrefixes(t, if n < b then b else n, pieces[1..], name);
    }
  }

  /** Under re-sends of prefixes of `t` the buffer becomes ready exactly when `t` itself has arrived and is ready. */
  lemma ReadyWhenWhole(t: Text, pieces: seq<Text>, name: Text)
    requires ContainerText(t)
    requires forall i :: 0 <= i < |pieces| ==> pieces[i] <= t
    ensures Complete(FoldMerge([], pieces, name), name) <==> t in pieces && Complete(t, name)
  {
    hide Complete, Merge;
    FoldPrefixes(t, 0, pieces, name);
    LongestIsReached(0, pieces);
    assert t[..0] == [];
    var m := Longest(0, pieces);
    if m == |t| {
      assert t[..m] == t;
      assert t in pieces by {
        var i :| 0 <= i < |pieces| && |pieces[i]| == m;
        assert pieces[i] == t;
      }
    } else {
      assert t[..m] < t;
      PrefixNotComplete(t[..m], t, name);
    }
  }

  // ---------- true suffix deltas ----------

  lemma SanitizeShrinks(s: Text)
    ensures |Sanitize(s)| <= |s|
  {
    hide ParseAt, Loads;
    StripShrinks(s);
    var src := if Strip(s) != [] then Strip(s) else s;
    var ends := ValueEnds(src, 0);
    if |ends| >= 2 { StripShrinks(src[..ends[0]]); }
  }

  lemma StripShrinks(s: Text)
    ensures |Strip(s)| <= |s|
  {
    LStripIsSuffix(s);
    RStripIsPrefix(LStrip(s));
  }

  /**
   A piece that continues an unfinished object or array is appended exactly when it is clean, is
   not ready on its own, and neither begins the buffer nor begins with it.  Any other piece is
   dropped, takes the buffer's place, or is appended without what made it unclean.
   */
  lemma SuffixAppendsExactly(t: Text, cur: Text, piece: Text, name: Text)
    requires ContainerText(t) && cur < t && cur != [] && piece != []
    ensures Merge(cur, piece, name) == cur + piece <==>
      Sanitize(piece) == piece && !(cur <= piece) && !(piece <= cur) && !Complete(piece, name)
  {
    hide ParseAt, Loads, Complete, Sanitize;
    SanitizePrefix(cur, t);
    SanitizeShrinks(piece);
    PrefixNotComplete(cur, t, name);
    PrefixFree(cur, t);
    var p := Sanitize(piece);
    assert MergeValues(cur, p) == cur + p;
    assert |cur + p| == |cur| + |p|;
    if cur + p == cur + piece { assert (cur + p)[|cur|..] == p && (cur + piece)[|cur|..] == piece; }
  }
}
