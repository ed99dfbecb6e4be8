/**
 What the emitter's slots hold and what its items carry, told from the deltas of each upstream index
 alone: the first id given, the last type, the name, and the merge of all pieces of the arguments.
 */
module ToolEmitterHistory {
  import opened Texts
  import opened ToolArgs
  import opened ToolHistory
  import opened ToolEmitter
  import Assembler
  import AssemblerDelivery
  import Json
  import JsonLaws
  import JsonCanon
  import Keys

  // ---------- what the deltas of one index add up to ----------

  /** The deltas of upstream index `k`. */
  function Own(ds: seq<Delta>, k: int): seq<Delta> {
    if ds == [] then []
    else
      var d := ds[|ds| - 1];
      Own(ds[..|ds| - 1], k) + (if d.Delta? && d.index == k then [d] else [])
  }

  /** The name a delta carries: that of its function, if it has one. */
  function NameGiven(d: Delta): Text
    requires d.Delta?
  {
    if d.fn.Some? then d.fn.value.name else d.name
  }

  /** The arguments of its function, if it has one; otherwise bare arguments or an input. */
  function Given(d: Delta): Raw
    requires d.Delta?
  {
    if d.fn.Some? then d.fn.value.args else if d.args != JsonCanon.Missing then d.args else d.input
  }

  function PartOf(d: Delta): Part
    requires d.Delta?
  {
    Part(if NameGiven(d) == [] then [] else [NameGiven(d)], TextOf(Given(d)))
  }

  function PartsOf(own: seq<Delta>): seq<Part> {
    if own == [] then []
    else PartsOf(own[..|own| - 1]) + (if own[|own| - 1].Delta? then [PartOf(own[|own| - 1])] else [])
  }

  function FirstId(own: seq<Delta>): Text {
    if own == [] then [] else if own[0].Delta? && own[0].id != [] then own[0].id else FirstId(own[1..])
  }

  function LastType(own: seq<Delta>): Text {
    if own == [] then FUNCTION
    else
      var d := own[|own| - 1];
      if d.Delta? && d.ctype != [] then d.ctype else LastType(own[..|own| - 1])
  }

  lemma {:induction false} FirstIdMore(own: seq<Delta>, d: Delta)
    requires d.Delta?
    ensures FirstId(own + [d]) == if FirstId(own) != [] then FirstId(own) else d.id
  {
    if own == [] {
      assert [] + [d] == [d] && [d][1..] == [];
    } else {
      FirstIdMore(own[1..], d);
      assert (own + [d])[1..] == own[1..] + [d];
    }
  }

  lemma {:induction false} OwnIsOwn(ds: seq<Delta>, k: int)
    ensures forall d :: d in Own(ds, k) ==> d.Delta? && d.index == k
  {
    if ds != [] { OwnIsOwn(ds[..|ds| - 1], k); }
  }

  lemma {:induction false} OwnConcat(a: seq<Delta>, b: seq<Delta>, k: int)
    ensures Own(a + b, k) == Own(a, k) + Own(b, k)
  {
    if b == [] {
      assert a + b == a && Own(a, k) + [] == Own(a, k);
    } else {
      OwnConcat(a, b[..|b| - 1], k);
      assert (a + b)[..|a + b| - 1] == a + b[..|b| - 1];
    }
  }

  // ---------- what a slot holds ----------

  /** The state of a slot before it has been sent. */
  ghost predicate Tells(e: Entry, own: seq<Delta>) {
    && e.name == NameIn(PartsOf(own)) && e.args == ArgsIn(PartsOf(own)) && e.ctype == LastType(own)
    && (!e.emitted ==> e.id == FirstId(own) && e.sentAs == None)
  }

  lemma PartsMore(own: seq<Delta>, d: Delta)
    requires d.Delta?
    ensures PartsOf(own + [d]) == PartsOf(own) + [PartOf(d)]
      && LastType(own + [d]) == if d.ctype != [] then d.ctype else LastType(own)
  {
    hide PartOf;
    assert (own + [d])[..|own|] == own;
  }

  lemma TextMore(own: seq<Delta>, d: Delta)
    requires d.Delta?
    ensures var parts := PartsOf(own);
      var name := if NameGiven(d) != [] then Assembler.MergeName(NameIn(parts), NameGiven(d)) else NameIn(parts);
      && NameIn(PartsOf(own + [d])) == name
      && ArgsIn(PartsOf(own + [d])) ==
           if Given(d) != JsonCanon.Missing then Merge(ArgsIn(parts), Assembler.Coerce(Given(d)), name)
           else ArgsIn(parts)
  {
    hide Merge, Assembler.MergeName, NameGiven, Given;
    PartsMore(own, d);
    var parts := PartsOf(own);
    assert (parts + [PartOf(d)])[..|parts|] == parts;
    var names := PartOf(d).names;
    if names != [] { assert names[..0] == []; }
    assert WithNames(NameIn(parts), []) == NameIn(parts);
    CoerceIs(Given(d));
  }

  lemma CoerceIs(raw: Raw)
    ensures TextOf(raw) == if raw == JsonCanon.Missing then None else Some(Assembler.Coerce(raw))
  {
  }

  /** One delta: the first id, the last type, and the name before the arguments. */
  lemma AbsorbIs(e: Entry, d: Delta)
    requires d.Delta?
    ensures var name := if NameGiven(d) != [] then Assembler.MergeName(e.name, NameGiven(d)) else e.name;
      Absorb(e, d) == e.(
        id := if e.id != [] then e.id else d.id, ctype := if d.ctype != [] then d.ctype else e.ctype, name := name,
        args := if Given(d) != JsonCanon.Missing then Merge(e.args, Assembler.Coerce(Given(d)), name) else e.args)
  {
    hide Merge, Assembler.MergeName, Assembler.Coerce;
  }

  /** Merging one more delta into a slot. */
  lemma AbsorbTells(e: Entry, own: seq<Delta>, d: Delta)
    requires d.Delta? && Tells(e, own)
    ensures Tells(Absorb(e, d), own + [d])
  {
    hide Absorb, Merge, Assembler.MergeName, Assembler.Coerce, NameGiven, Given, NameIn, ArgsIn, LastType,
      FirstId, PartsOf;
    AbsorbIs(e, d);
    TextMore(own, d);
    PartsMore(own, d);
    FirstIdMore(own, d);
  }

  lemma NewTells()
    ensures Tells(NEW, [])
  {
  }

  // ---------- what an item carries ----------

  /** An item carries what the deltas of its index add up to, with the arguments as they are or `{}` for none. */
  ghost predicate Carries(item: Item, own: seq<Delta>) {
    var name, args := NameIn(PartsOf(own)), ArgsIn(PartsOf(own));
    && item.name == name && name != [] && item.ctype == LastType(own)
    && (Strip(FirstId(own)) != [] ==> item.id == Strip(FirstId(own)))
    && item.args == (if Strip(args) != [] then args else EMPTY_OBJECT)
  }

  /**
   An item carries the first `n` deltas of its index: complete arguments or, if it was flushed, all
   that there are.
   */
  ghost predicate CarriesFirst(item: Item, own: seq<Delta>, n: nat, flushed: bool) {
    && n <= |own| && Carries(item, own[..n])
    && (Complete(item.args, item.name) || (flushed && n == |own|))
  }

  /** An emission carries what the deltas of its index add up to, all of them or until the arguments were complete. */
  ghost predicate Carried(e: Emission, ds: seq<Delta>) {
    exists n: nat :: CarriesFirst(e.item, Own(ds, e.slot), n, true)
  }

  /** Every slot holds what its deltas add up to, and every item sent carries them. */
  ghost predicate Kept(acc: Acc, ds: seq<Delta>, flushed: bool) {
    forall k ::
      && (k in acc <==> Own(ds, k) != [])
      && (k in acc ==>
            && Tells(acc[k], Own(ds, k))
            && (acc[k].emitted ==>
                  && acc[k].sentAs.Some?
                  && exists n: nat :: CarriesFirst(acc[k].sentAs.value, Own(ds, k), n, flushed)))
  }

  lemma CarriedStays(item: Item, own: seq<Delta>, d: Delta, n: nat)
    requires CarriesFirst(item, own, n, false)
    ensures CarriesFirst(item, own + [d], n, false)
  {
    hide Carries, Complete;
    assert (own + [d])[..n] == own[..n];
  }

  lemma IngestOneKept(acc: Acc, ds: seq<Delta>, d: Delta)
    requires Kept(acc, ds, false)
    ensures Kept(IngestOne(acc, d), ds + [d], false)
  {
    hide Absorb, Tells, CarriesFirst, Own;
    var acc' := IngestOne(acc, d);
    forall k
      ensures k in acc' <==> Own(ds + [d], k) != []
      ensures k in acc' ==>
        && Tells(acc'[k], Own(ds + [d], k))
        && (acc'[k].emitted ==>
              && acc'[k].sentAs.Some?
              && exists n: nat :: CarriesFirst(acc'[k].sentAs.value, Own(ds + [d], k), n, false))
    {
      OneMoreOwn(ds, d, k);
      var own := Own(ds, k);
      if d.Delta? && d.index == k {
        var e := if k in acc then acc[k] else NEW;
        NewTells();
        AbsorbTells(e, own, d);
        if k in acc && acc[k].emitted {
          var n: nat :| CarriesFirst(acc[k].sentAs.value, own, n, false);
          CarriedStays(acc[k].sentAs.value, own, d, n);
        }
      } else {
        assert own + [] == own;
      }
    }
  }

  lemma OneMoreOwn(ds: seq<Delta>, d: Delta, k: int)
    ensures Own(ds + [d], k) == Own(ds, k) + (if d.Delta? && d.index == k then [d] else [])
  {
    assert (ds + [d])[..|ds|] == ds;
  }

  /** Merging any deltas. */
  lemma {:induction false} IngestKept(acc: Acc, ds: seq<Delta>, more: seq<Delta>)
    requires Kept(acc, ds, false)
    ensures Kept(Ingest(acc, more), ds + more, false)
  {
    hide Kept, IngestOne;
    if more == [] {
      assert ds + more == ds;
    } else {
      var h, d := more[..|more| - 1], more[|more| - 1];
      IngestKept(acc, ds, h);
      IngestOneKept(Ingest(acc, h), ds + h, d);
      assert ds + h + [d] == ds + more;
    }
  }

  lemma NothingKept()
    ensures Kept(map[], [], false)
  {
  }

  // ---------- sending ----------

  /** Sending a slot as it is. */
  lemma BuiltKept(acc: Acc, ds: seq<Delta>, k: int, remaining: Text, newId: NewId, flushed: bool)
    requires Kept(acc, ds, flushed) && k in acc && !acc[k].emitted && NameOf(acc[k]) != []
    requires remaining == if Strip(acc[k].args) != [] then acc[k].args else EMPTY_OBJECT
    requires flushed || Complete(remaining, NameOf(acc[k]))
    ensures Kept(Built(acc, k, remaining, newId).acc, ds, flushed)
  {
    hide Used, LeastFree, Complete, Own, Strip, NameIn, ArgsIn, LastType, FirstId;
    var own := Own(ds, k);
    NameIsTrimmed(PartsOf(own));
    var r := Built(acc, k, remaining, newId).acc;
    assert own[..|own|] == own;
    assert CarriesFirst(r[k].sentAs.value, own, |own|, flushed);
    assert Tells(r[k], own);
  }

  lemma DeltaKept(acc: Acc, ds: seq<Delta>, more: seq<Delta>, newId: NewId)
    requires Kept(acc, ds, false)
    ensures Kept(DeltaAccumulated(acc, more, newId).acc, ds + more, false)
  {
    hide Kept, Candidate, Keys.SortedKeys, NameOf, Ingest, Built, Complete, KnownSlot, Strip;
    IngestKept(acc, ds, more);
    var t := Ingest(acc, more);
    CandidateOfAll(t);
    match Candidate(t, Keys.SortedKeys(t.Keys))
    case None =>
    case Some(k) =>
      CompleteSays(t[k].args, NameOf(t[k]));
      BuiltKept(t, ds + more, k, t[k].args, newId, false);
  }

  lemma CompleteSays(args: Text, name: Text)
    requires Complete(args, name)
    ensures Strip(args) != []
  {
    hide Json.Loads;
  }

  lemma FlushKept(acc: Acc, ds: seq<Delta>, newId: NewId)
    requires Kept(acc, ds, true)
    ensures Kept(FlushedOne(acc, newId).acc, ds, true)
  {
    hide Kept, FlushCandidate, Keys.SortedKeys, NameOf, Built, Strip;
    FlushTakesNamed(acc, Keys.SortedKeys(acc.Keys));
    match FlushCandidate(acc, Keys.SortedKeys(acc.Keys))
    case None =>
    case Some(k) => BuiltKept(acc, ds, k, if Strip(acc[k].args) != [] then acc[k].args else EMPTY_OBJECT, newId, true);
  }

  /** What may be sent while streaming may be sent by the flush. */
  lemma KeptForFlush(acc: Acc, ds: seq<Delta>)
    requires Kept(acc, ds, false)
    ensures Kept(acc, ds, true)
  {
    hide Tells, Carries, Complete, Own;
    forall k | k in acc && acc[k].emitted
      ensures acc[k].sentAs.Some? && exists n: nat :: CarriesFirst(acc[k].sentAs.value, Own(ds, k), n, true)
    {
      var n: nat :| CarriesFirst(acc[k].sentAs.value, Own(ds, k), n, false);
      assert CarriesFirst(acc[k].sentAs.value, Own(ds, k), n, true);
    }
  }

  // ---------- the final list ----------

  lemma {:induction false} FinalsAre(acc: Acc, keys: seq<int>, f: Final)
    requires (forall k :: k in keys ==> k in acc) && f in Finalized(acc, keys)
    ensures f.slot in keys && FinalOf(f.slot, acc[f.slot]) == [f]
  {
    hide Sanitize, Strip;
    if f !in FinalOf(keys[0], acc[keys[0]]) { FinalsAre(acc, keys[1..], f); }
  }

  /**
   The final list tells what the deltas of each index add up to: the name, the last type, and the
   arguments without doubled copies, or `{}` for none.
   */
  lemma FinalsTell(acc: Acc, ds: seq<Delta>, flushed: bool, f: Final)
    requires Kept(acc, ds, flushed) && f in Finalized(acc, Keys.SortedKeys(acc.Keys))
    ensures var own := Own(ds, f.slot);
      var args := ArgsIn(PartsOf(own));
      && f.name == NameIn(PartsOf(own)) && f.name != [] && f.ctype == LastType(own)
      && (!acc[f.slot].emitted ==> f.id == FirstId(own))
      && f.args == if Strip(args) != [] then Sanitize(args) else EMPTY_OBJECT
  {
    hide Keys.SortedKeys, Sanitize, Finalized, NameIn, ArgsIn, LastType, FirstId, Strip, Own, PartsOf;
    FinalsAre(acc, Keys.SortedKeys(acc.Keys), f);
    var e := acc[f.slot];
    NameIsTrimmed(PartsOf(Own(ds, f.slot)));
    if Strip(e.args) != [] {
      AssemblerDelivery.SanitizeNotBlank(e.args);
    } else {
      BlankSanitized(e.args);
    }
  }

  lemma BlankSanitized(s: Text)
    requires Strip(s) == []
    ensures Strip(Sanitize(s)) == []
  {
    hide Json.Loads, ValueEnds, Strip;
    AssemblerDelivery.BlankIs(s);
    var ends := ValueEnds(s, 0);
    if |ends| >= 2 {
      AssemblerDelivery.BlankIs(s[..ends[0]]);
      StripIdempotent(s[..ends[0]]);
    }
  }

  // ---------- arguments that arrive whole ----------

  lemma {:induction false} PartsOfPrefix(own: seq<Delta>, n: nat)
    requires n <= |own|
    ensures PartsOf(own[..n]) <= PartsOf(own)
  {
    hide PartOf;
    if n == |own| {
      assert own[..n] == own;
    } else {
      var h := own[..|own| - 1];
      assert own[..n] == h[..n];
      PartsOfPrefix(h, n);
    }
  }

  /**
   If the pieces of a tool's arguments are beginnings of one text, the text itself among them, or cut
   it into pieces that continue each other, its item carries exactly this text.
   */
  lemma WholeIsCarried(e: Emission, ds: seq<Delta>, t: Text)
    requires JsonLaws.ContainerText(t) && Arrives(PartsOf(Own(ds, e.slot)), t) && Carried(e, ds)
    ensures e.item.args == t
  {
    hide JsonLaws.ContainerText, Arrives, CarriesFirst, Own;
    var n: nat :| CarriesFirst(e.item, Own(ds, e.slot), n, true);
    WholeIsCarriedFirst(e.item, Own(ds, e.slot), n, t);
  }

  lemma WholeIsCarriedFirst(item: Item, own: seq<Delta>, n: nat, t: Text)
    requires JsonLaws.ContainerText(t) && Arrives(PartsOf(own), t) && CarriesFirst(item, own, n, true)
    ensures item.args == t
  {
    hide JsonLaws.ContainerText, Arrives, NameIn, ArgsIn, Complete, FirstId, LastType, PartsOf, Strip;
    PartsOfPrefix(own, n);
    var p := |PartsOf(own[..n])|;
    assert PartsOf(own[..n]) == PartsOf(own)[..p];
    ArrivesWhole(PartsOf(own), t, p);
    ContainerTrimmed(t);
    TrimmedStrip(t);
    if n == |own| { assert own[..n] == own; }
    if item.args == ArgsIn(PartsOf(own[..n])) {
      if item.args != t { PrefixNotComplete(item.args, t, item.name); }
    } else if n < |own| {
      EmptyNotComplete(item.name);
    }
  }

  lemma EmptyNotComplete(name: Text)
    ensures !Complete(EMPTY_OBJECT, name)
  {
    hide Json.Loads;
    JsonCanon.DumpsLoads(Json.Obj([]), false);
    assert Json.Dumps(Json.Obj([]), false) == EMPTY_OBJECT;
    assert Trimmed(EMPTY_OBJECT);
    TrimmedStrip(EMPTY_OBJECT);
  }
}
