/**
 JSON text as the gateway reads and writes it: the grammar of RFC 8259, section 2, with the
 extensions of Python's `json` module (NaN, Infinity, -Infinity).  `ParseAt` is `raw_decode`,
 `Loads` is `json.loads` and `Dumps` is `json.dumps(..., ensure_ascii=False)`.
 */
module Json {
  import opened Texts

  const QUOTE: Code := 0x22
  const BACKSLASH: Code := 0x5C
  const COMMA: Code := 0x2C
  const COLON: Code := 0x3A
  const LBRACE: Code := 0x7B
  const RBRACE: Code := 0x7D
  const LBRACKET: Code := 0x5B
  const RBRACKET: Code := 0x5D
  const SPACE: Code := 0x20
  const MINUS: Code := 0x2D
  const PLUS: Code := 0x2B
  const DOT: Code := 0x2E
  const ZERO: Code := 0x30

  const NULL: Text := [0x6E, 0x75, 0x6C, 0x6C]
  const TRUE: Text := [0x74, 0x72, 0x75, 0x65]
  const FALSE: Text := [0x66, 0x61, 0x6C, 0x73, 0x65]
  const NAN: Text := [0x4E, 0x61, 0x4E]
  const INFINITY: Text := [0x49, 0x6E, 0x66, 0x69, 0x6E, 0x69, 0x74, 0x79]
  const MINUS_INFINITY: Text := [0x2D, 0x49, 0x6E, 0x66, 0x69, 0x6E, 0x69, 0x74, 0x79]

  /** A Python value built from JSON.  A number is its source text; a dict keeps its order. */
  datatype Json =
    | Null
    | Bool(b: bool)
    | Num(lexeme: Text)
    | Str(s: Text)
    | Arr(items: seq<Json>)
    | Obj(members: seq<Member>)

  datatype Member = Member(key: Text, val: Json)

  datatype Scan<+A> = Fail | Hit(val: A, end: nat)

  // ---------- dicts ----------

  predicate HasKey(ms: seq<Member>, k: Text) {
    ms != [] && (ms[0].key == k || HasKey(ms[1..], k))
  }

  function Find(ms: seq<Member>, k: Text): (r: Option<Json>)
    ensures r.Some? <==> HasKey(ms, k)
  {
    if ms == [] then None
    else if ms[0].key == k then Some(ms[0].val)
    else Find(ms[1..], k)
  }

  /** `d[k] = v`: replace in place, or append. */
  function Put(ms: seq<Member>, m: Member): seq<Member> {
    if ms == [] then [m]
    else if ms[0].key == m.key then [m] + ms[1..]
    else [ms[0]] + Put(ms[1..], m)
  }

  predicate UniqueKeys(ms: seq<Member>) {
    ms != [] ==> !HasKey(ms[1..], ms[0].key) && UniqueKeys(ms[1..])
  }

  lemma {:induction false} HasKeyAppend(ms: seq<Member>, m: Member, k: Text)
    ensures HasKey(ms + [m], k) <==> HasKey(ms, k) || k == m.key
  {
    if ms != [] {
      assert (ms + [m])[1..] == ms[1..] + [m];
      HasKeyAppend(ms[1..], m, k);
    }
  }

  lemma {:induction false} UniqueAppend(ms: seq<Member>, m: Member)
    ensures UniqueKeys(ms + [m]) <==> UniqueKeys(ms) && !HasKey(ms, m.key)
  {
    if ms != [] {
      assert (ms + [m])[1..] == ms[1..] + [m];
      UniqueAppend(ms[1..], m);
      HasKeyAppend(ms[1..], m, ms[0].key);
    }
  }

  lemma {:induction false} PutHasKey(ms: seq<Member>, m: Member, k: Text)
    ensures HasKey(Put(ms, m), k) <==> HasKey(ms, k) || k == m.key
    ensures Find(Put(ms, m), k) == if k == m.key then Some(m.val) else Find(ms, k)
  {
    if ms != [] {
      if ms[0].key == m.key {
        assert Put(ms, m)[1..] == ms[1..];
      } else {
        assert Put(ms, m)[1..] == Put(ms[1..], m);
        PutHasKey(ms[1..], m, k);
      }
    }
  }

  lemma {:induction false} PutUnique(ms: seq<Member>, m: Member)
    requires UniqueKeys(ms)
    ensures UniqueKeys(Put(ms, m))
    ensures !HasKey(ms, m.key) ==> Put(ms, m) == ms + [m]
    ensures forall x :: x in Put(ms, m) ==> x in ms || x == m
  {
    if ms != [] {
      if ms[0].key == m.key {
        assert Put(ms, m)[1..] == ms[1..];
      } else {
        assert Put(ms, m)[1..] == Put(ms[1..], m);
        PutUnique(ms[1..], m);
        PutHasKey(ms[1..], m, ms[0].key);
      }
    }
  }

  /** The dict that a list of key/value pairs builds: a repeated key keeps its place, last value wins. */
  function DictOf(ps: seq<Member>): seq<Member> {
    if ps == [] then [] else Put(DictOf(ps[..|ps| - 1]), ps[|ps| - 1])
  }

  lemma {:induction false} DictOfUnique(ps: seq<Member>)
    ensures UniqueKeys(DictOf(ps))
    ensures forall x :: x in DictOf(ps) ==> x in ps
    ensures UniqueKeys(ps) ==> DictOf(ps) == ps
    ensures ps != [] ==> DictOf(ps) != []
  {
    if ps != [] {
      hide UniqueKeys, Put, HasKey;
      var h, l := ps[..|ps| - 1], ps[|ps| - 1];
      DictOfUnique(h);
      PutUnique(DictOf(h), l);
      assert ps == h + [l];
      UniqueAppend(h, l);
    }
  }

  // ---------- tokens ----------

  predicate IsWs(c: Code) { c == 0x20 || c == 0x09 || c == 0x0A || c == 0x0D }

  function SkipWs(s: Text, i: nat): (j: nat)
    requires i <= |s|
    ensures i <= j <= |s|
    ensures i < j ==> IsWs(s[i])
    ensures j < |s| ==> !IsWs(s[j])
    decreases |s| - i
  {
    if i < |s| && IsWs(s[i]) then SkipWs(s, i + 1) else i
  }

  predicate IsDigit(c: Code) { 0x30 <= c <= 0x39 }

  function DigitsEnd(s: Text, i: nat): (j: nat)
    requires i <= |s|
    ensures i <= j <= |s|
    ensures i < j ==> IsDigit(s[i])
    ensures j < |s| ==> !IsDigit(s[j])
    decreases |s| - i
  {
    if i < |s| && IsDigit(s[i]) then DigitsEnd(s, i + 1) else i
  }

  function IntEnd(s: Text, i: nat): (r: Option<nat>)
    requires i <= |s|
    ensures r.Some? ==> i < r.value <= |s|
  {
    var d := if i < |s| && s[i] == MINUS then i + 1 else i;
    if d >= |s| || !IsDigit(s[d]) then None
    else if s[d] == ZERO then Some(d + 1)
    else Some(DigitsEnd(s, d))
  }

  function FracEnd(s: Text, i: nat): (j: nat)
    requires i <= |s|
    ensures i <= j <= |s|
  {
    if i + 1 < |s| && s[i] == DOT && IsDigit(s[i + 1]) then DigitsEnd(s, i + 1) else i
  }

  function ExpEnd(s: Text, i: nat): (j: nat)
    requires i <= |s|
    ensures i <= j <= |s|
  {
    if i < |s| && (s[i] == 0x65 || s[i] == 0x45) then
      var k := if i + 1 < |s| && (s[i + 1] == PLUS || s[i + 1] == MINUS) then i + 2 else i + 1;
      if k < |s| && IsDigit(s[k]) then DigitsEnd(s, k) else i
    else i
  }

  /** The longest number starting at `i`: where it ends. */
  function NumberEnd(s: Text, i: nat): (r: Option<nat>)
    requires i <= |s|
    ensures r.Some? ==> i < r.value <= |s|
    ensures r.Some? ==> IsDigit(s[i]) || (s[i] == MINUS && i + 1 < |s| && IsDigit(s[i + 1]))
  {
    match IntEnd(s, i)
    case None => None
    case Some(j) => Some(ExpEnd(s, FracEnd(s, j)))
  }

  predicate IsHex(c: Code) { IsDigit(c) || 0x41 <= c <= 0x46 || 0x61 <= c <= 0x66 }

  function HexDigit(c: Code): (h: nat)
    requires IsHex(c)
    ensures h < 16
  {
    if IsDigit(c) then c - 0x30 else if c <= 0x46 then c - 0x37 else c - 0x57
  }

  predicate HexAt(s: Text, i: nat) {
    i + 4 <= |s| && IsHex(s[i]) && IsHex(s[i + 1]) && IsHex(s[i + 2]) && IsHex(s[i + 3])
  }

  function Hex4(s: Text, i: nat): (h: nat)
    requires HexAt(s, i)
    ensures h < 0x10000
  {
    HexDigit(s[i]) * 4096 + HexDigit(s[i + 1]) * 256 + HexDigit(s[i + 2]) * 16 + HexDigit(s[i + 3])
  }

  function SimpleEscape(c: Code): Option<Code> {
    if c == QUOTE || c == BACKSLASH || c == 0x2F then Some(c)
    else if c == 0x62 then Some(0x08)
    else if c == 0x66 then Some(0x0C)
    else if c == 0x6E then Some(0x0A)
    else if c == 0x72 then Some(0x0D)
    else if c == 0x74 then Some(0x09)
    else None
  }

  predicate LowSurrogateAt(s: Text, i: nat) {
    i + 6 <= |s| && s[i] == BACKSLASH && s[i + 1] == 0x75 && HexAt(s, i + 2)
    && 0xDC00 <= Hex4(s, i + 2) <= 0xDFFF
  }

  /** One character of a string body: itself, or an escape.  A surrogate pair counts as one. */
  function ScanChar(s: Text, i: nat): (r: Scan<Code>)
    requires i < |s|
    ensures r.Hit? ==> i < r.end <= |s|
  {
    if s[i] != BACKSLASH then
      if s[i] == QUOTE || s[i] < 0x20 then Fail else Hit(s[i], i + 1)
    else if i + 1 >= |s| then Fail
    else if s[i + 1] == 0x75 then
      if !HexAt(s, i + 2) then Fail
      else
        var u := Hex4(s, i + 2);
        if 0xD800 <= u <= 0xDBFF && LowSurrogateAt(s, i + 6) then
          Hit(0x10000 + (u - 0xD800) * 0x400 + (Hex4(s, i + 8) - 0xDC00), i + 12)
        else Hit(u, i + 6)
    else
      match SimpleEscape(s[i + 1])
      case None => Fail
      case Some(c) => Hit(c, i + 2)
  }

  /** The body of a string up to and including its closing quote; `i` is just after the opening one. */
  function ScanString(s: Text, i: nat): (r: Scan<Text>)
    requires i <= |s|
    ensures r.Hit? ==> i < r.end <= |s|
    decreases |s| - i
  {
    if i == |s| then Fail
    else if s[i] == QUOTE then Hit([], i + 1)
    else
      match ScanChar(s, i)
      case Fail => Fail
      case Hit(c, j) =>
        match ScanString(s, j)
        case Fail => Fail
        case Hit(cs, e) => Hit([c] + cs, e)
  }

  predicate LiteralAt(s: Text, i: nat, lit: Text) {
    i + |lit| <= |s| && s[i..i + |lit|] == lit
  }

  /** Python reads the integer -0 as 0; every other number is kept as written. */
  function NumValue(lexeme: Text): Json {
    if lexeme == [MINUS, ZERO] then Num([ZERO]) else Num(lexeme)
  }

  function ParseLiteral(s: Text, i: nat, lit: Text, v: Json): Scan<Json> {
    if LiteralAt(s, i, lit) then Hit(v, i + |lit|) else Fail
  }

  function ParseAtom(s: Text, i: nat): (r: Scan<Json>)
    requires i <= |s|
    ensures r.Hit? ==> i < r.end <= |s| && !r.val.Arr? && !r.val.Obj?
  {
    if i == |s| then Fail
    else if s[i] == QUOTE then
      match ScanString(s, i + 1)
      case Fail => Fail
      case Hit(cs, e) => Hit(Str(cs), e)
    else if s[i] == NULL[0] then ParseLiteral(s, i, NULL, Null)
    else if s[i] == TRUE[0] then ParseLiteral(s, i, TRUE, Bool(true))
    else if s[i] == FALSE[0] then ParseLiteral(s, i, FALSE, Bool(false))
    else if s[i] == NAN[0] then ParseLiteral(s, i, NAN, Num(NAN))
    else if s[i] == INFINITY[0] then ParseLiteral(s, i, INFINITY, Num(INFINITY))
    else if NumberEnd(s, i).Some? then
      Hit(NumValue(s[i..NumberEnd(s, i).value]), NumberEnd(s, i).value)
    else ParseLiteral(s, i, MINUS_INFINITY, Num(MINUS_INFINITY))
  }

  // ---------- values ----------

  /** `JSONDecoder().raw_decode(s, i)`. */
  function ParseAt(s: Text, i: nat): (r: Scan<Json>)
    requires i <= |s|
    ensures r.Hit? ==> i < r.end <= |s|
    decreases |s| - i, 0
  {
    if i < |s| && s[i] == LBRACE then
      var k := SkipWs(s, i + 1);
      if k < |s| && s[k] == RBRACE then Hit(Obj([]), k + 1)
      else
        match ParseMembers(s, k)
        case Fail => Fail
        case Hit(ps, e) => Hit(Obj(DictOf(ps)), e)
    else if i < |s| && s[i] == LBRACKET then
      var k := SkipWs(s, i + 1);
      if k < |s| && s[k] == RBRACKET then Hit(Arr([]), k + 1)
      else
        match ParseItems(s, k)
        case Fail => Fail
        case Hit(vs, e) => Hit(Arr(vs), e)
    else ParseAtom(s, i)
  }

  /** One or more array items and the closing bracket. */
  function ParseItems(s: Text, i: nat): (r: Scan<seq<Json>>)
    requires i <= |s|
    ensures r.Hit? ==> i < r.end <= |s|
    decreases |s| - i, 1
  {
    match ParseAt(s, i)
    case Fail => Fail
    case Hit(v, j) =>
      var k := SkipWs(s, j);
      if k < |s| && s[k] == RBRACKET then Hit([v], k + 1)
      else if k < |s| && s[k] == COMMA then
        match ParseItems(s, SkipWs(s, k + 1))
        case Fail => Fail
        case Hit(vs, e) => Hit([v] + vs, e)
      else Fail
  }

  /** A key, its colon, and the white space around the colon. */
  function ParseKey(s: Text, i: nat): (r: Scan<Text>)
    requires i <= |s|
    ensures r.Hit? ==> i < r.end <= |s|
  {
    if i == |s| || s[i] != QUOTE then Fail
    else
      match ScanString(s, i + 1)
      case Fail => Fail
      case Hit(key, j) =>
        var k := SkipWs(s, j);
        if k < |s| && s[k] == COLON then Hit(key, SkipWs(s, k + 1)) else Fail
  }

  function ParseMember(s: Text, i: nat): (r: Scan<Member>)
    requires i <= |s|
    ensures r.Hit? ==> i < r.end <= |s|
    decreases |s| - i, 1
  {
    match ParseKey(s, i)
    case Fail => Fail
    case Hit(key, p) =>
      match ParseAt(s, p)
      case Fail => Fail
      case Hit(v, j) => Hit(Member(key, v), j)
  }

  /** One or more members and the closing brace. */
  function ParseMembers(s: Text, i: nat): (r: Scan<seq<Member>>)
    requires i <= |s|
    ensures r.Hit? ==> i < r.end <= |s| && r.val != []
    decreases |s| - i, 2
  {
    match ParseMember(s, i)
    case Fail => Fail
    case Hit(m, j) =>
      var k := SkipWs(s, j);
      if k < |s| && s[k] == RBRACE then Hit([m], k + 1)
      else if k < |s| && s[k] == COMMA then
        match ParseMembers(s, SkipWs(s, k + 1))
        case Fail => Fail
        case Hit(ms, e) => Hit([m] + ms, e)
      else Fail
  }

  /** `json.loads(s)`: one value with white space around it. */
  function Loads(s: Text): Option<Json> {
    match ParseAt(s, SkipWs(s, 0))
    case Fail => None
    case Hit(v, j) => if SkipWs(s, j) == |s| then Some(v) else None
  }

  // ---------- printing ----------

  function HexChar(h: nat): Code
    requires h < 16
  {
    if h < 10 then 0x30 + h else 0x57 + h
  }

  /** How one character is written inside a string when `ensure_ascii` is off. */
  function Escape(c: Code): (r: Text)
    ensures r != []
  {
    if c == QUOTE || c == BACKSLASH then [BACKSLASH, c]
    else if c == 0x0A then [BACKSLASH, 0x6E]
    else if c == 0x0D then [BACKSLASH, 0x72]
    else if c == 0x09 then [BACKSLASH, 0x74]
    else if c == 0x08 then [BACKSLASH, 0x62]
    else if c == 0x0C then [BACKSLASH, 0x66]
    else if c < 0x20 then [BACKSLASH, 0x75, ZERO, ZERO, HexChar(c / 16), HexChar(c % 16)]
    else [c]
  }

  /** The body of a string and its closing quote. */
  function DumpBody(s: Text): Text {
    if s == [] then [QUOTE] else Escape(s[0]) + DumpBody(s[1..])
  }

  function DumpString(s: Text): Text {
    [QUOTE] + DumpBody(s)
  }

  /** The blank after `,` and `:` in Python's default separators; none with `separators=(",", ":")`. */
  function Gap(spaced: bool): Text {
    if spaced then [SPACE] else []
  }

  /** `json.dumps(v, ensure_ascii=False)`, with the default or the compact separators. */
  function Dumps(v: Json, spaced: bool): Text
    decreases v, 0
  {
    match v
    case Null => NULL
    case Bool(b) => if b then TRUE else FALSE
    case Num(lexeme) => lexeme
    case Str(s) => DumpString(s)
    case Arr(items) => if items == [] then [LBRACKET, RBRACKET] else [LBRACKET] + DumpItems(items, spaced)
    case Obj(ms) => if ms == [] then [LBRACE, RBRACE] else [LBRACE] + DumpMembers(ms, spaced)
  }

  function DumpItems(vs: seq<Json>, spaced: bool): Text
    requires vs != []
    decreases vs, 0
  {
    Dumps(vs[0], spaced)
    + if |vs| == 1 then [RBRACKET] else [COMMA] + Gap(spaced) + DumpItems(vs[1..], spaced)
  }

  function DumpMember(m: Member, spaced: bool): Text
    decreases m, 1
  {
    DumpString(m.key) + [COLON] + Gap(spaced) + Dumps(m.val, spaced)
  }

  function DumpMembers(ms: seq<Member>, spaced: bool): Text
    requires ms != []
    decreases ms, 0
  {
    DumpMember(ms[0], spaced)
    + if |ms| == 1 then [RBRACE] else [COMMA] + Gap(spaced) + DumpMembers(ms[1..], spaced)
  }

  // ---------- values that Python can hold ----------

  predicate NumberText(l: Text) {
    (NumberEnd(l, 0) == Some(|l|) && l != [MINUS, ZERO]) || l == NAN || l == INFINITY || l == MINUS_INFINITY
  }

  /** Numbers are number texts and no dict has a key twice, at every depth. */
  predicate Wf(v: Json)
    decreases v, 0
  {
    match v
    case Num(l) => NumberText(l)
    case Arr(items) => WfItems(items)
    case Obj(ms) => UniqueKeys(ms) && WfMembers(ms)
    case _ => true
  }

  predicate WfItems(vs: seq<Json>)
    decreases vs, 0
  {
    vs != [] ==> Wf(vs[0]) && WfItems(vs[1..])
  }

  predicate WfMembers(ms: seq<Member>)
    decreases ms, 0
  {
    ms != [] ==> Wf(ms[0].val) && WfMembers(ms[1..])
  }
}
