/**
 What the assembler does not lose: every upstream index that was given a name or arguments owns a
 tool block unless the cap is reached, and that block carries what its deltas merge to.
 */
module AssemblerDelivery {
  import opened Texts
  import opened Events
  import opened Json
  import opened JsonLaws
  import opened JsonCanon
  import opened ToolArgs
  import opened ToolHistory
  import ToolArgsDeltas
  import A = Assembler
  import Laws = AssemblerLaws

  // ---------- merging keeps what is not blank ----------

  predicate Blank(s: Text) { Strip(s) == [] }

  lemma BlankIs(s: Text)
    ensures Blank(s) <==> forall i :: 0 <= i < |s| ==> IsSpace(s[i])
  {
    StripIsTrimmed(s);
  }

  lemma NotBlankAt(s: Text, i: nat)
    requires i < |s| && !IsSpace(s[i])
    ensures !Blank(s)
  {
    hide Blank, IsSpace;
    BlankIs(s);
  }

  lemma PartNotBlank(a: Text, b: Text)
    ensures !Blank(a) || !Blank(b) ==> !Blank(a + b)
    ensures !Blank(a) && a <= b ==> !Blank(b)
  {
    hide Blank, IsSpace;
    BlankIs(a);
    BlankIs(b);
    BlankIs(a + b);
    if exists i :: 0 <= i < |a| && !IsSpace(a[i]) {
      var i :| 0 <= i < |a| && !IsSpace(a[i]);
      assert (a + b)[i] == a[i];
      if a <= b { assert b[i] == a[i]; }
    }
    if exists i :: 0 <= i < |b| && !IsSpace(b[i]) {
      var i :| 0 <= i < |b| && !IsSpace(b[i]);
      assert (a + b)[|a| + i] == b[i];
    }
  }

  lemma LoadedNotBlank(s: Text)
    requires Loads(s).Some?
    ensures !Blank(s)
  {
    hide ParseAt, Blank, IsSpace;
    var i := SkipWs(s, 0);
    ValueIsTrimmed(s, i);
    NotBlankAt(s, i);
  }

  lemma SanitizeNotBlank(s: Text)
    requires !Blank(s)
    ensures !Blank(Sanitize(s))
  {
    hide ParseAt, Loads, IsSpace, ValueEnds;
    StripIdempotent(s);
    var src := Strip(s);
    var ends := ValueEnds(src, 0);
    if |ends| >= 2 {
      ValueEndsStep(src, 0);
      var k := SkipSpace(src, 0);
      ValueIsTrimmed(src, k);
      var p := src[..ends[0]];
      assert p[k] == src[k];
      NotBlankAt(p, k);
      StripIdempotent(p);
    }
  }

  lemma MergeValuesNotBlank(cur: Text, piece: Text)
    requires !Blank(cur) || !Blank(piece)
    ensures !Blank(MergeValues(cur, piece))
  {
    hide Loads, Dumps, Blank, SameValue, MergeDicts;
    PartNotBlank(cur, piece);
    if Loads(cur).Some? { LoadedNotBlank(cur); }
    if Loads(piece).Some? { LoadedNotBlank(piece); }
    if Loads(cur).Some? && Loads(piece).Some? && Loads(cur).value.Obj? && Loads(piece).value.Obj? {
      PrintedObjectNotBlank(MergeDicts(Loads(cur).value.members, Loads(piece).value.members));
    }
  }

  lemma PrintedObjectNotBlank(ms: seq<Member>)
    ensures !Blank(Dumps(Obj(ms), false))
  {
    hide Blank, DumpMembers;
    assert Dumps(Obj(ms), false)[0] == LBRACE;
    NotBlankAt(Dumps(Obj(ms), false), 0);
  }

  /** Arguments that are not blank stay so, and a piece that is not blank makes them so. */
  lemma MergeNotBlank(cur: Text, piece: Text, name: Text)
    requires !Blank(cur) || !Blank(piece)
    ensures !Blank(Merge(cur, piece, name))
  {
    hide Sanitize, Blank, MergeValues, RequiredKeys, Loads;
    var a, b := Sanitize(cur), Sanitize(piece);
    if !Blank(cur) { SanitizeNotBlank(cur); }
    if !Blank(piece) { SanitizeNotBlank(piece); }
    PartNotBlank(a, b);
    PartNotBlank(b, a);
    MergeValuesNotBlank(a, b);
    EmptyIsBlank();
    CompleteNotBlank(a, name);
    CompleteNotBlank(b, name);
  }

  lemma EmptyIsBlank()
    ensures Blank([])
  {
  }

  lemma CompleteNotBlank(s: Text, name: Text)
    ensures Complete(s, name) ==> !Blank(s)
  {
  }

  // ---------- one slot ----------

  /** A delta with a name or arguments. */
  predicate Substantive(d: A.ToolDelta) {
    d.ToolDelta? && (!Blank(d.fnName) || !Blank(d.name) || !Blank(A.ArgsPiece(d)))
  }

  lemma MergeNameNotBlank(cur: Text, name: Text)
    ensures Blank(A.MergeName(cur, name)) <==> Blank(cur) && Blank(name)
  {
    StripIdempotent(cur);
    StripIdempotent(name);
  }

  lemma AbsorbNotGhostly(s: A.Slot, d: A.ToolDelta)
    requires d.ToolDelta? && !s.stopped && (!Laws.Ghostly(s) || Substantive(d))
    ensures !Laws.Ghostly(A.Absorb(s, d))
  {
    hide Strip, Merge, A.ArgsPiece, A.MergeName;
    EmptyIsBlank();
    var n1 := if d.fnName != [] then A.MergeName(s.name, d.fnName) else s.name;
    var n2 := if d.name != [] then A.MergeName(n1, d.name) else n1;
    MergeNameNotBlank(s.name, d.fnName);
    MergeNameNotBlank(n1, d.name);
    var piece := A.ArgsPiece(d);
    if !Blank(s.args) || !Blank(piece) { MergeNotBlank(s.args, piece, n2); }
  }

  // ---------- all the deltas of a run ----------

  predicate GivenBy(ds: seq<A.ToolDelta>, k: int) {
    ds != [] &&
    (var d := ds[|ds| - 1]; GivenBy(ds[..|ds| - 1], k) || (Substantive(d) && d.index == k))
  }

  /** Whether some chunk gives upstream index `k` a name or arguments. */
  predicate GivenIn(cs: seq<A.Chunk>, k: int) {
    cs != [] && (GivenIn(cs[..|cs| - 1], k) || GivenBy(cs[|cs| - 1].toolCalls, k))
  }

  function AllCalls(cs: seq<A.Chunk>): seq<A.ToolDelta> {
    if cs == [] then [] else AllCalls(cs[..|cs| - 1]) + cs[|cs| - 1].toolCalls
  }

  /** What the deltas of some chunks merge to, slot by slot, if nothing is ever sent. */
  function Merged(cs: seq<A.Chunk>): map<int, A.Slot> { A.Ingest(map[], AllCalls(cs)) }

  /** A slot that owns a block, or has a name or arguments. */
  predicate Kept(tools: map<int, A.Slot>, k: int) {
    k in tools && (tools[k].stopped || !Laws.Ghostly(tools[k]))
  }

  lemma {:induction false} IngestKept(tools: map<int, A.Slot>, ds: seq<A.ToolDelta>, k: int)
    requires Kept(tools, k) || GivenBy(ds, k)
    ensures Kept(A.Ingest(tools, ds), k)
  {
    hide A.Absorb, A.NewSlot, Substantive, Laws.Ghostly;
    if ds != [] {
      var h, d := ds[..|ds| - 1], ds[|ds| - 1];
      var t := A.Ingest(tools, h);
      if Kept(tools, k) || GivenBy(h, k) { IngestKept(tools, h, k); }
      if d.ToolDelta? && d.index == k {
        Laws.NewSlotShape(d);
        var s := if k in t then t[k] else A.NewSlot(d);
        if !s.stopped { AbsorbNotGhostly(s, d); } else { AbsorbStopped(s, d); }
      } else {
        NotSubstantive(d);
      }
    }
  }

  lemma AbsorbStopped(s: A.Slot, d: A.ToolDelta)
    requires d.ToolDelta? && s.stopped
    ensures A.Absorb(s, d) == s
  {
  }

  lemma NotSubstantive(d: A.ToolDelta)
    ensures Substantive(d) ==> d.ToolDelta?
  {
    hide A.ArgsPiece;
  }

  lemma {:induction false} IngestConcat(tools: map<int, A.Slot>, a: seq<A.ToolDelta>, b: seq<A.ToolDelta>)
    ensures A.Ingest(tools, a + b) == A.Ingest(A.Ingest(tools, a), b)
  {
    hide A.Absorb, A.NewSlot;
    if b == [] {
      assert a + b == a;
    } else {
      IngestConcat(tools, a, b[..|b| - 1]);
      assert (a + b)[..|a + b| - 1] == a + b[..|b| - 1];
    }
  }

  // ---------- what the deltas of one index add up to ----------

  /** The deltas of upstream index `k`. */
  function Own(ds: seq<A.ToolDelta>, k: int): seq<A.ToolDelta> {
    if ds == [] then []
    else
      var d := ds[|ds| - 1];
      Own(ds[..|ds| - 1], k) + (if d.ToolDelta? && d.index == k then [d] else [])
  }

  /** The first that is given of a function's arguments, bare arguments and an input. */
  function Given(d: A.ToolDelta): A.Raw
    requires d.ToolDelta?
  {
    if d.fnArgs != JsonCanon.Missing then d.fnArgs else if d.args != JsonCanon.Missing then d.args else d.input
  }

  function PartOf(d: A.ToolDelta): Part
    requires d.ToolDelta?
  {
    var t := TextOf(Given(d));
    Part((if d.fnName == [] then [] else [d.fnName]) + (if d.name == [] then [] else [d.name]),
         if t == Some([]) then None else t)
  }

  function PartsOf(own: seq<A.ToolDelta>): seq<Part> {
    if own == [] then []
    else
      PartsOf(own[..|own| - 1]) + (if own[|own| - 1].ToolDelta? then [PartOf(own[|own| - 1])] else [])
  }

  /** The ids that upstream gives. */
  function IdsOf(own: seq<A.ToolDelta>): seq<Text> {
    if own == [] then []
    else
      var d := own[|own| - 1];
      IdsOf(own[..|own| - 1]) + (if d.ToolDelta? && d.id != [] then [d.id] else [])
  }

  /** The first id that does not look like a generated one. */
  function FirstReal(ids: seq<Text>): Option<Text> {
    if ids == [] then None else if A.SYNTHETIC <= ids[0] then FirstReal(ids[1..]) else Some(ids[0])
  }

  /** The first real id; before there is one, the last id given, and at the beginning a generated one. */
  function IdIn(own: seq<A.ToolDelta>): Text {
    var ids := IdsOf(own);
    if FirstReal(ids).Some? then FirstReal(ids).value
    else if ids != [] then ids[|ids| - 1]
    else if own != [] && own[0].ToolDelta? then A.SYNTHETIC + own[0].newId
    else []
  }

  /** What the deltas of one index add up to. */
  function Told(own: seq<A.ToolDelta>): A.Slot {
    A.Slot(IdIn(own), NameIn(PartsOf(own)), ArgsIn(PartsOf(own)), false, false, None, [])
  }

  lemma {:induction false} FirstRealMore(ids: seq<Text>, id: Text)
    ensures FirstReal(ids + [id]) ==
      if FirstReal(ids).Some? then FirstReal(ids) else if A.SYNTHETIC <= id then None else Some(id)
  {
    if ids == [] {
      assert [id][1..] == [] && [] + [id] == [id];
    } else {
      FirstRealMore(ids[1..], id);
      assert (ids + [id])[1..] == ids[1..] + [id];
    }
  }

  lemma {:induction false} FirstRealIn(ids: seq<Text>)
    ensures FirstReal(ids).Some? ==> FirstReal(ids).value in ids && !(A.SYNTHETIC <= FirstReal(ids).value)
    ensures FirstReal(ids).None? ==> forall id :: id in ids ==> A.SYNTHETIC <= id
  {
    if ids != [] {
      FirstRealIn(ids[1..]);
      assert forall id :: id in ids ==> id == ids[0] || id in ids[1..];
    }
  }

  lemma {:induction false} OwnIsOwn(ds: seq<A.ToolDelta>, k: int)
    ensures forall d :: d in Own(ds, k) ==> d.ToolDelta? && d.index == k
  {
    if ds != [] { OwnIsOwn(ds[..|ds| - 1], k); }
  }

  lemma {:induction false} IdsGiven(own: seq<A.ToolDelta>)
    ensures forall id :: id in IdsOf(own) ==> id != []
  {
    if own != [] { IdsGiven(own[..|own| - 1]); }
  }

  /** One more delta and the id. */
  lemma IdMore(own: seq<A.ToolDelta>, d: A.ToolDelta)
    requires d.ToolDelta? && forall x :: x in own ==> x.ToolDelta?
    ensures var id := if own == [] then A.NewSlot(d).id else IdIn(own);
      IdIn(own + [d]) == if d.id != [] && (id == [] || A.SYNTHETIC <= id) then d.id else id
  {
    var ids := IdsOf(own);
    assert (own + [d])[..|own|] == own;
    assert IdsOf(own + [d]) == ids + (if d.id != [] then [d.id] else []);
    assert ids + [] == ids;
    FirstRealMore(ids, d.id);
    FirstRealIn(ids);
    IdsGiven(own);
    if own != [] { assert own[0] in own && (own + [d])[0] == own[0]; }
    if ids != [] { assert ids[|ids| - 1] in ids; }
  }

  lemma PartsMore(own: seq<A.ToolDelta>, d: A.ToolDelta)
    requires d.ToolDelta?
    ensures PartsOf(own + [d]) == PartsOf(own) + [PartOf(d)]
  {
    hide PartOf;
    assert (own + [d])[..|own|] == own;
  }

  lemma NamesMore(name: Text, d: A.ToolDelta)
    requires d.ToolDelta?
    ensures var n1 := if d.fnName != [] then A.MergeName(name, d.fnName) else name;
      WithNames(name, PartOf(d).names) == if d.name != [] then A.MergeName(n1, d.name) else n1
  {
    hide A.MergeName, TextOf, Given;
    var names := PartOf(d).names;
    if names != [] { assert names == names[..|names| - 1] + [names[|names| - 1]]; }
    assert WithNames(name, []) == name;
    if |names| == 2 { assert names[..1] == [d.fnName]; assert [d.fnName][..0] == []; }
    if |names| == 1 { assert names[..0] == []; }
  }

  /** The name and the arguments after one more delta. */
  lemma TextMore(own: seq<A.ToolDelta>, d: A.ToolDelta)
    requires d.ToolDelta?
    ensures var parts := PartsOf(own);
      var n1 := if d.fnName != [] then A.MergeName(NameIn(parts), d.fnName) else NameIn(parts);
      var n2 := if d.name != [] then A.MergeName(n1, d.name) else n1;
      && NameIn(PartsOf(own + [d])) == n2
      && ArgsIn(PartsOf(own + [d])) ==
           if A.ArgsPiece(d) != [] then Merge(ArgsIn(parts), A.ArgsPiece(d), n2) else ArgsIn(parts)
  {
    hide A.ArgsPiece, Merge, A.MergeName, WithNames, PartOf;
    PartsMore(own, d);
    var parts := PartsOf(own);
    assert (parts + [PartOf(d)])[..|parts|] == parts;
    NamesMore(NameIn(parts), d);
    PartArgs(d);
  }

  /** Merging one more delta into a slot. */
  lemma AbsorbTells(own: seq<A.ToolDelta>, d: A.ToolDelta)
    requires d.ToolDelta? && forall x :: x in own ==> x.ToolDelta?
    ensures A.Absorb(if own == [] then A.NewSlot(d) else Told(own), d) == Told(own + [d])
  {
    hide A.ArgsPiece, Merge, A.MergeName, IdIn, NameIn, ArgsIn;
    IdMore(own, d);
    TextMore(own, d);
    NothingTold();
  }

  lemma NothingTold()
    ensures NameIn(PartsOf([])) == [] && ArgsIn(PartsOf([])) == []
  {
  }

  lemma PartArgs(d: A.ToolDelta)
    requires d.ToolDelta?
    ensures PartOf(d).args == if A.ArgsPiece(d) == [] then None else Some(A.ArgsPiece(d))
  {
    hide Sanitize, Dumps;
  }

  /** The slots after any deltas are what the deltas of each index add up to. */
  lemma {:induction false} IngestTells(ds: seq<A.ToolDelta>, k: int)
    ensures var t := A.Ingest(map[], ds);
      && (k in t <==> Own(ds, k) != [])
      && (k in t ==> t[k] == Told(Own(ds, k)))
  {
    hide A.Absorb, Told, A.NewSlot;
    if ds != [] {
      var h, d := ds[..|ds| - 1], ds[|ds| - 1];
      IngestTells(h, k);
      OwnIsOwn(h, k);
      assert Own(h, k) + [] == Own(h, k);
      if d.ToolDelta? && d.index == k { AbsorbTells(Own(h, k), d); }
    }
  }

  /** Both maps have the same slot at `k`, or neither has one. */
  predicate SameAt(t: map<int, A.Slot>, u: map<int, A.Slot>, k: int) {
    (k in t <==> k in u) && (k in t && k in u ==> t[k] == u[k])
  }

  /** What becomes of a slot depends on that slot. */
  lemma {:induction false} IngestLocal(t: map<int, A.Slot>, u: map<int, A.Slot>, ds: seq<A.ToolDelta>, k: int)
    requires SameAt(t, u, k)
    ensures SameAt(A.Ingest(t, ds), A.Ingest(u, ds), k)
  {
    hide A.Absorb, A.NewSlot;
    if ds != [] { IngestLocal(t, u, ds[..|ds| - 1], k); }
  }

  lemma MergedMore(cs: seq<A.Chunk>, c: A.Chunk)
    ensures Merged(cs + [c]) == A.Ingest(Merged(cs), c.toolCalls)
  {
    hide A.Ingest;
    assert (cs + [c])[..|cs|] == cs;
    IngestConcat(map[], AllCalls(cs), c.toolCalls);
  }

  /** Slot `s` was sent whole and ready as what the first `m` chunks merge to. */
  ghost predicate SentAt(s: A.Slot, cs: seq<A.Chunk>, k: int, m: nat) {
    && m <= |cs| && k in Merged(cs[..m])
    && var was := Merged(cs[..m])[k];
       A.Ready(was) && s.id == was.id && s.name == was.name && s.args == was.args
  }

  /** Open slots are what their deltas merge to, and stopped ones were when they were sent. */
  ghost predicate Merging(tools: map<int, A.Slot>, cs: seq<A.Chunk>) {
    && (forall k :: k in Merged(cs) ==> k in tools)
    && (forall k :: k in tools ==>
          if tools[k].stopped then exists m: nat :: SentAt(tools[k], cs, k, m)
          else k in Merged(cs) && tools[k] == Merged(cs)[k])
    && (forall k :: GivenIn(cs, k) ==> Kept(tools, k))
  }

  lemma SentEarlier(s: A.Slot, cs: seq<A.Chunk>, c: A.Chunk, k: int, m: nat)
    requires SentAt(s, cs, k, m)
    ensures SentAt(s, cs + [c], k, m)
  {
    assert (cs + [c])[..m] == cs[..m];
  }

  lemma SentLast(s: A.Slot, s': A.Slot, cs: seq<A.Chunk>, k: int, h: Laws.Hist, h': Laws.Hist)
    requires k in Merged(cs) && Merged(cs)[k] == s && Laws.SentNow(s, s', h, h')
    ensures s'.stopped && SentAt(s', cs, k, |cs|)
  {
    hide Merged, A.Ready;
    assert cs[..|cs|] == cs;
  }

  /** One `feed`. */
  lemma FedMerges(cfg: A.Config, st: A.State, h: Laws.Hist, trace: seq<Event>, fed: seq<Fragment>,
    cs: seq<A.Chunk>, c: A.Chunk)
    requires Laws.Valid(cfg, st, h, trace, fed) && Merging(st.tools, cs)
    ensures Merging(A.Fed(cfg, st, c).st.tools, cs + [c])
  {
    hide Laws.Valid, A.Fed, A.Ingest, Merged, SentAt, Laws.SentNow, GivenBy, Laws.NothingHeldBack,
      Laws.InOrder, Laws.Ghostly;
    var h' := Laws.FedKeeps(cfg, st, h, trace, fed, c);
    var r := A.Fed(cfg, st, c).st.tools;
    var t := A.Ingest(st.tools, c.toolCalls);
    var m := Merged(cs + [c]);
    MergedMore(cs, c);
    assert (cs + [c])[..|cs|] == cs;
    IngestStopped(cfg, st, h, trace, fed, c.toolCalls);
    forall k ensures k in m ==> k in t {
      if k in st.tools && k !in Merged(cs) { StaysIn(st.tools, c.toolCalls, k); }
      else if k in st.tools && st.tools[k].stopped { StaysIn(st.tools, c.toolCalls, k); }
      else { IngestLocal(st.tools, Merged(cs), c.toolCalls, k); }
    }
    forall k | k in r
      ensures if r[k].stopped then exists m: nat :: SentAt(r[k], cs + [c], k, m) else k in m && r[k] == m[k]
    {
      if k in st.tools && st.tools[k].stopped {
        StoppedStays(t[k], r[k], h, h');
        var n: nat :| SentAt(st.tools[k], cs, k, n);
        SentEarlier(st.tools[k], cs, c, k, n);
      } else {
        IngestLocal(st.tools, Merged(cs), c.toolCalls, k);
        if r[k] != t[k] { SentLast(t[k], r[k], cs + [c], k, h, h'); }
      }
    }
    forall k | GivenIn(cs + [c], k) ensures Kept(r, k) {
      IngestKept(st.tools, c.toolCalls, k);
      if r[k] != t[k] { StoppedStays(t[k], r[k], h, h'); }
    }
  }

  lemma StaysIn(tools: map<int, A.Slot>, ds: seq<A.ToolDelta>, k: int)
    requires k in tools
    ensures k in A.Ingest(tools, ds)
  {
    hide A.Ingest;
    Laws.IngestKeys(tools, ds);
  }

  /** A slot that has been sent does not change any more. */
  lemma StoppedStays(s: A.Slot, s': A.Slot, h: Laws.Hist, h': Laws.Hist)
    requires s' == s || Laws.SentNow(s, s', h, h')
    ensures s.stopped ==> s' == s
    ensures s' != s ==> s'.stopped
  {
    hide A.Ready;
  }

  lemma IngestStopped(cfg: A.Config, st: A.State, h: Laws.Hist, trace: seq<Event>, fed: seq<Fragment>,
    ds: seq<A.ToolDelta>)
    requires Laws.Valid(cfg, st, h, trace, fed)
    ensures var t := A.Ingest(st.tools, ds);
      && (forall k :: k in st.tools && st.tools[k].stopped ==> k in t && t[k] == st.tools[k])
      && (forall k :: k in t && t[k].stopped ==> k in st.tools && st.tools[k].stopped)
  {
    hide A.Ingest, Laws.Whole, Laws.Spoke, Spoken, ToolStarts, Partial;
    ToolsOk(cfg, st, h, trace, fed);
    Laws.IngestInv(st.tools, ds, h.owner, h.done);
  }

  lemma ToolsOk(cfg: A.Config, st: A.State, h: Laws.Hist, trace: seq<Event>, fed: seq<Fragment>)
    requires Laws.Valid(cfg, st, h, trace, fed)
    ensures Laws.ToolsInv(st.tools, h.owner, h.done)
  {
    hide Laws.Whole, Laws.Spoke, Spoken, ToolStarts, Partial;
  }

  lemma {:induction false} AllFedMerges(cfg: A.Config, st: A.State, h: Laws.Hist, trace: seq<Event>, cs: seq<A.Chunk>)
    requires Laws.Valid(cfg, st, h, trace, []) && st.tools == map[]
    ensures Merging(A.AllFed(cfg, st, cs).st.tools, cs)
  {
    hide Laws.Valid, A.Fed, Merging;
    if cs == [] {
      NothingMerged();
    } else {
      var front, c := cs[..|cs| - 1], cs[|cs| - 1];
      AllFedMerges(cfg, st, h, trace, front);
      var a := A.AllFed(cfg, st, front);
      var h1 := Laws.AllFedKeeps(cfg, st, h, trace, front);
      FedMerges(cfg, a.st, h1, trace + a.events, A.AllPieces(front), front, c);
      assert front + [c] == cs;
    }
  }

  lemma NothingMerged()
    ensures Merging(map[], [])
  {
  }

  // ---------- whole runs ----------

  /** The deltas of index `k` in some chunks. */
  function OwnIn(cs: seq<A.Chunk>, k: int): seq<A.ToolDelta> { Own(AllCalls(cs), k) }

  /**
   A block carries what the deltas of index `k` add up to: all of them, or those of the first `m`
   chunks, whose arguments were complete.
   */
  ghost predicate Carries(b: Block, cs: seq<A.Chunk>, k: int, m: nat) {
    && m <= |cs| && OwnIn(cs[..m], k) != []
    && var own := OwnIn(cs[..m], k);
       var id, name, args := IdIn(own), NameIn(PartsOf(own)), ArgsIn(PartsOf(own));
       || (name != [] && Complete(args, name) && b == Block(ToolUse(id, name), [args]))
       || (m == |cs| && b == Block(ToolUse(id, if name == [] then A.TOOL else name), Laws.FinalDeltas(args)))
  }

  /** A run: its state before `finish`, and what `finish` makes of it. */
  lemma RunDelivers(cfg: A.Config, started: bool, cs: seq<A.Chunk>, finish: Option<Text>)
    returns (st: A.State, h: Laws.Hist, r: A.State, h': Laws.Hist, stop: Stop)
    ensures Laws.Delivery(cfg, st, A.AllPieces(cs), h, r, h', A.Run(cfg, started, cs, finish), stop, finish)
    ensures Merging(st.tools, cs) && Laws.Whole(st.tools, h.done)
  {
    hide A.AllFed, A.Finished, Laws.Valid, Merging, Laws.Whole, Laws.Delivery;
    var a := if started then A.Started(A.FRESH) else A.Step(A.FRESH, []);
    var h0 := Laws.Hist([], None, map[]);
    Laws.FreshIsValid(cfg);
    Laws.StartedKeeps(cfg, A.FRESH, h0, [], []);
    assert [] + a.events == a.events;
    var b := A.AllFed(cfg, a.st, cs);
    st := b.st;
    h := Laws.AllFedKeeps(cfg, a.st, h0, a.events, cs);
    AllFedMerges(cfg, a.st, h0, a.events, cs);
    var t := a.events + b.events;
    h', stop := Laws.FinishedKeeps(cfg, st, h, t, A.AllPieces(cs), finish);
    r := A.Finished(cfg, st, finish).st;
    assert A.Run(cfg, started, cs, finish) == t + A.Finished(cfg, st, finish).events;
    WholeSlots(cfg, st, h, t, A.AllPieces(cs));
  }

  /**
   No tool is lost in a run: every upstream index that was given a name or arguments owns a block,
   unless the cap has been reached; and every tool block carries the id, the name and the arguments
   that the deltas of its index add up to.
   */
  lemma ToolsAreDelivered(cfg: A.Config, started: bool, cs: seq<A.Chunk>, finish: Option<Text>)
    returns (bs: seq<Block>, stop: Stop, slotOf: map<nat, int>)
    ensures A.Run(cfg, started, cs, finish) == Message(bs, stop)
    ensures forall b: nat :: b < |bs| && bs[b].kind.ToolUse? <==> b in slotOf
    ensures forall b, c :: b in slotOf && c in slotOf && b != c ==> slotOf[b] != slotOf[c]
    ensures forall k :: GivenIn(cs, k) ==>
      || (exists b :: b in slotOf && slotOf[b] == k)
      || (cfg.maxTools > 0 && ToolStarts(A.Run(cfg, started, cs, finish)) >= cfg.maxTools)
    ensures forall b :: b in slotOf ==> b < |bs| && exists m: nat :: Carries(bs[b], cs, slotOf[b], m)
  {
    hide Message, A.Run, Spoken, ToolStarts, Laws.ProseFirst, Laws.ToolsWin, Laws.FinishedNow, Merging,
      Carries, GivenIn, Laws.Whole, Laws.StopsFor;
    var st, h, r, h';
    st, h, r, h', stop := RunDelivers(cfg, started, cs, finish);
    bs, slotOf := h'.done, h'.owner;
    var es := A.Run(cfg, started, cs, finish);
    forall k | GivenIn(cs, k)
      ensures (exists x :: x in slotOf && slotOf[x] == k) || (cfg.maxTools > 0 && ToolStarts(es) >= cfg.maxTools)
    {
      GivenIsSent(cfg, st, h, r, h', es, A.AllPieces(cs), stop, finish, cs, k);
    }
    forall x | x in slotOf ensures x < |bs| && exists m: nat :: Carries(bs[x], cs, slotOf[x], m) {
      var m := BlockCarries(cfg, st, h, r, h', es, A.AllPieces(cs), stop, finish, cs, x);
    }
  }

  /**
   The arguments of a tool arrive whole: if its pieces are beginnings of one object or array text,
   the text itself among them, or cut it into pieces that continue each other, then the index owns a
   block that carries exactly this text, unless the cap has been reached.
   */
  lemma ArgumentsArriveWhole(cfg: A.Config, started: bool, cs: seq<A.Chunk>, finish: Option<Text>, k: int, t: Text)
    returns (bs: seq<Block>, stop: Stop, slotOf: map<nat, int>)
    requires ContainerText(t) && Arrives(PartsOf(OwnIn(cs, k)), t)
    ensures A.Run(cfg, started, cs, finish) == Message(bs, stop)
    ensures (exists b :: b in slotOf && slotOf[b] == k)
      || (cfg.maxTools > 0 && ToolStarts(A.Run(cfg, started, cs, finish)) >= cfg.maxTools)
    ensures forall b :: b in slotOf && slotOf[b] == k ==> b < |bs| && bs[b].kind.ToolUse? && bs[b].deltas == [t]
  {
    hide A.Run, Message, ToolStarts, ContainerText, Arrives, Carries, OwnIn, GivenIn;
    bs, stop, slotOf := ToolsAreDelivered(cfg, started, cs, finish);
    ArrivedIsGiven(cs, k, t);
    forall b | b in slotOf && slotOf[b] == k ensures b < |bs| && bs[b].kind.ToolUse? && bs[b].deltas == [t] {
      var m: nat :| Carries(bs[b], cs, slotOf[b], m);
      WholeIsCarried(bs[b], cs, k, m, t);
    }
  }

  lemma WholeIsCarried(b: Block, cs: seq<A.Chunk>, k: int, m: nat, t: Text)
    requires ContainerText(t) && Arrives(PartsOf(OwnIn(cs, k)), t) && Carries(b, cs, k, m)
    ensures b.deltas == [t]
  {
    hide ContainerText, Arrives, NameIn, ArgsIn, Complete, IdIn, OwnIn, PartsOf;
    var own := OwnIn(cs[..m], k);
    var all := PartsOf(OwnIn(cs, k));
    OwnIsPrefix(cs, m, k);
    PartsOfPrefix(OwnIn(cs, k), |own|);
    assert own == OwnIn(cs, k)[..|own|];
    var n := |PartsOf(own)|;
    assert PartsOf(own) == all[..n];
    ArrivesWhole(all, t, n);
    NotBlankText(t);
    if m == |cs| { assert cs[..m] == cs; }
    if ArgsIn(PartsOf(own)) != t { PrefixNotComplete(ArgsIn(PartsOf(own)), t, NameIn(PartsOf(own))); }
  }

  lemma NotBlankText(t: Text)
    requires ContainerText(t)
    ensures t != [] && Strip(t) == t
  {
    ContainerTrimmed(t);
    TrimmedStrip(t);
  }

  lemma {:induction false} AllCallsOfPrefix(cs: seq<A.Chunk>, m: nat)
    requires m <= |cs|
    ensures AllCalls(cs[..m]) <= AllCalls(cs)
  {
    if m == |cs| {
      assert cs[..m] == cs;
    } else {
      var h := cs[..|cs| - 1];
      assert cs[..m] == h[..m];
      AllCallsOfPrefix(h, m);
    }
  }

  lemma {:induction false} OwnOfPrefix(ds: seq<A.ToolDelta>, n: nat, k: int)
    requires n <= |ds|
    ensures Own(ds[..n], k) <= Own(ds, k)
  {
    if n == |ds| {
      assert ds[..n] == ds;
    } else {
      var h := ds[..|ds| - 1];
      assert ds[..n] == h[..n];
      OwnOfPrefix(h, n, k);
    }
  }

  lemma OwnIsPrefix(cs: seq<A.Chunk>, m: nat, k: int)
    requires m <= |cs|
    ensures OwnIn(cs[..m], k) <= OwnIn(cs, k)
  {
    hide Own, AllCalls;
    AllCallsOfPrefix(cs, m);
    var n := |AllCalls(cs[..m])|;
    assert AllCalls(cs[..m]) == AllCalls(cs)[..n];
    OwnOfPrefix(AllCalls(cs), n, k);
  }

  lemma {:induction false} PartsOfPrefix(own: seq<A.ToolDelta>, n: nat)
    requires n <= |own|
    ensures PartsOf(own[..n]) <= PartsOf(own)
  {
    hide PartOf;
    if n == |own| {
      assert own[..n] == own;
    } else {
      var h := own[..|own| - 1];
      assert own[..n] == h[..n];
      PartsOfPrefix(h, n);
    }
  }

  // ---------- what arrives has been given ----------

  lemma {:induction false} OwnNotGiven(ds: seq<A.ToolDelta>, k: int)
    requires !GivenBy(ds, k)
    ensures forall d :: d in Own(ds, k) ==> d.ToolDelta? && !Substantive(d)
  {
    hide Substantive;
    if ds != [] { OwnNotGiven(ds[..|ds| - 1], k); }
  }

  lemma {:induction false} GivenConcat(a: seq<A.ToolDelta>, b: seq<A.ToolDelta>, k: int)
    ensures GivenBy(a + b, k) <==> GivenBy(a, k) || GivenBy(b, k)
  {
    hide Substantive;
    if b == [] {
      assert a + b == a;
    } else {
      GivenConcat(a, b[..|b| - 1], k);
      assert (a + b)[..|a + b| - 1] == a + b[..|b| - 1];
    }
  }

  lemma {:induction false} GivenInIs(cs: seq<A.Chunk>, k: int)
    ensures GivenIn(cs, k) <==> GivenBy(AllCalls(cs), k)
  {
    hide GivenBy;
    if cs == [] {
      NobodyGiven(k);
    } else {
      GivenInIs(cs[..|cs| - 1], k);
      GivenConcat(AllCalls(cs[..|cs| - 1]), cs[|cs| - 1].toolCalls, k);
    }
  }

  lemma NobodyGiven(k: int)
    ensures !GivenBy([], k)
  {
  }

  lemma {:induction false} BlankPieces(own: seq<A.ToolDelta>)
    requires forall d :: d in own ==> d.ToolDelta? && !Substantive(d)
    ensures forall p :: p in Pieces(PartsOf(own)) ==> Blank(p)
  {
    hide Blank, PartOf, A.ArgsPiece;
    if own != [] {
      var h, d := own[..|own| - 1], own[|own| - 1];
      BlankPieces(h);
      PartArgs(d);
      var parts := PartsOf(own);
      assert parts[..|parts| - 1] == PartsOf(h);
      assert !Substantive(d);
    }
  }

  lemma {:induction false} BlankJoined(pieces: seq<Text>)
    requires forall p :: p in pieces ==> Blank(p)
    ensures Blank(ToolArgsDeltas.Joined(pieces))
  {
    hide IsSpace;
    if pieces == [] {
      EmptyIsBlank();
    } else {
      BlankJoined(pieces[1..]);
      BlankIs(pieces[0]);
      BlankIs(ToolArgsDeltas.Joined(pieces[1..]));
      BlankIs(ToolArgsDeltas.Joined(pieces));
    }
  }

  lemma ArrivedIsGiven(cs: seq<A.Chunk>, k: int, t: Text)
    requires ContainerText(t) && Arrives(PartsOf(OwnIn(cs, k)), t)
    ensures GivenIn(cs, k)
  {
    hide ContainerText, PartsOf, Pieces, GivenBy, GivenIn, Own, AllCalls, AllGrow, ToolArgsDeltas.Joined;
    NotBlankText(t);
    GivenInIs(cs, k);
    if !GivenBy(AllCalls(cs), k) {
      OwnNotGiven(AllCalls(cs), k);
      BlankPieces(OwnIn(cs, k));
      BlankJoined(Pieces(PartsOf(OwnIn(cs, k))));
    }
  }

  lemma WholeSlots(cfg: A.Config, st: A.State, h: Laws.Hist, trace: seq<Event>, fed: seq<Fragment>)
    requires Laws.Valid(cfg, st, h, trace, fed)
    ensures Laws.Whole(st.tools, h.done)
  {
    hide Laws.Wired, Laws.Spoke;
  }

  lemma GivenIsSent(cfg: A.Config, st: A.State, h: Laws.Hist, r: A.State, h': Laws.Hist, es: seq<Event>,
    fed: seq<Fragment>, stop: Stop, finish: Option<Text>, cs: seq<A.Chunk>, k: int)
    requires Laws.Delivery(cfg, st, fed, h, r, h', es, stop, finish) && Merging(st.tools, cs) && GivenIn(cs, k)
    ensures (exists b :: b in h'.owner && h'.owner[b] == k) || (cfg.maxTools > 0 && ToolStarts(es) >= cfg.maxTools)
  {
    hide Message, Spoken, ToolStarts, Laws.ProseFirst, Laws.ToolsWin, Laws.FinishedNow, Merged, SentAt,
      Laws.Ghostly, GivenIn;
    assert Kept(st.tools, k);
    if r.tools[k] != st.tools[k] { Laws.FinishedShape(st.tools[k], r.tools[k], h, h, h'); }
    if r.tools[k].stopped {
      assert Laws.SlotInv(k, r.tools[k], h'.owner);
    }
  }

  /** What the first `m` chunks merge to is what their deltas add up to. */
  lemma MergedTells(cs: seq<A.Chunk>, k: int)
    requires k in Merged(cs)
    ensures OwnIn(cs, k) != [] && Merged(cs)[k] == Told(OwnIn(cs, k))
  {
    hide Own, A.Ingest, AllCalls, Told;
    IngestTells(AllCalls(cs), k);
  }

  lemma CarriesSent(s: A.Slot, b: Block, cs: seq<A.Chunk>, k: int, m: nat)
    requires SentAt(s, cs, k, m) && b == Block(ToolUse(s.id, s.name), [s.args])
    ensures Carries(b, cs, k, m)
  {
    hide OwnIn, Merged, IdIn, NameIn, ArgsIn, Complete;
    MergedTells(cs[..m], k);
  }

  lemma CarriesAll(s: A.Slot, b: Block, cs: seq<A.Chunk>, k: int)
    requires k in Merged(cs) && s == Merged(cs)[k]
    requires b == Block(ToolUse(s.id, Laws.FinalName(s)), Laws.FinalDeltas(s.args))
    ensures Carries(b, cs, k, |cs|)
  {
    hide OwnIn, Merged, IdIn, NameIn, ArgsIn, Complete, Laws.FinalDeltas;
    MergedTells(cs, k);
    assert cs[..|cs|] == cs;
    NameIsTrimmed(PartsOf(OwnIn(cs, k)));
  }

  lemma BlockCarries(cfg: A.Config, st: A.State, h: Laws.Hist, r: A.State, h': Laws.Hist, es: seq<Event>,
    fed: seq<Fragment>, stop: Stop, finish: Option<Text>, cs: seq<A.Chunk>, b: nat)
    returns (m: nat)
    requires Laws.Delivery(cfg, st, fed, h, r, h', es, stop, finish) && Merging(st.tools, cs)
      && Laws.Whole(st.tools, h.done)
    requires b in h'.owner
    ensures b < |h'.done| && Carries(h'.done[b], cs, h'.owner[b], m)
  {
    hide Message, Spoken, ToolStarts, Laws.ProseFirst, Laws.ToolsWin, Merged, Laws.Ghostly, GivenIn, Laws.FinalName,
         Laws.FinalDeltas, A.Ready, Complete, A.ClosedSlot, Carries, Merged, SentAt, Laws.StopsFor;
    var k := h'.owner[b];
    var s := st.tools[k];
    assert r.tools[k].stopped && r.tools[k].blockIndex == Some(b);
    if s.stopped {
      m :| SentAt(s, cs, k, m);
      assert h'.done[b] == h.done[b];
      CarriesSent(s, h'.done[b], cs, k, m);
    } else {
      assert Laws.FinishedNow(s, r.tools[k], h, h');
      ClosedIndex(s.(started := true, blockIndex := r.tools[k].blockIndex));
      m := |cs|;
      CarriesAll(s, h'.done[b], cs, k);
    }
  }

  lemma ClosedIndex(s: A.Slot)
    ensures A.ClosedSlot(s).blockIndex == s.blockIndex
  {
    hide A.Unsent, Strip;
  }
}
