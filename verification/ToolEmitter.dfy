/**
 The OpenAI-side tool emitter (app.py): an accumulator over sparse upstream indices that sends
 each tool call once, whole, under dense outbound indices.
 */
module ToolEmitter {
  import opened Texts
  import opened Keys
  import opened ToolArgs
  import Json
  import JsonCanon
  import Assembler

  type Raw = JsonCanon.Raw

  const EMPTY_OBJECT: Text := [Json.LBRACE, Json.RBRACE]   // "{}"
  const FUNCTION: Text := T("function")

  datatype Fn = Fn(name: Text, args: Raw)

  /** One upstream tool_calls entry.  An empty text stands for a missing or empty string. */
  datatype Delta =
    | NotADict
    | Delta(index: int, id: Text, ctype: Text, fn: Option<Fn>, name: Text, args: Raw, input: Raw)

  /** State kept for one upstream index; `sentAs` is the item that it was sent as. */
  datatype Entry = Entry(
    id: Text, ctype: Text, name: Text, args: Text, emitted: bool, outIndex: Option<nat>, sentAs: Option<Item>)

  type Acc = map<int, Entry>

  /** One outbound tool_calls item. */
  datatype Item = Item(index: nat, id: Text, ctype: Text, name: Text, args: Text)

  /** One element of `_finalize_tool_calls`, with the slot it comes from. */
  datatype Final = Final(slot: int, id: Text, ctype: Text, name: Text, args: Text)

  /** A generated call id. */
  type NewId = t: Text | t != [] && Trimmed(t) witness [0x63]

  const NEW: Entry := Entry([], FUNCTION, [], [], false, None, None)

  // ---------- ingestion ----------

  function WithName(e: Entry, name: Text): Entry {
    if name == [] then e else e.(name := Assembler.MergeName(e.name, name))
  }

  function WithArgs(e: Entry, raw: Raw): Entry {
    if raw.Missing? then e else e.(args := Merge(e.args, Assembler.Coerce(raw), e.name))
  }

  /** What one delta does to its entry: nothing here emits. */
  function Absorb(e: Entry, d: Delta): (r: Entry)
    requires d.Delta?
    ensures r.emitted == e.emitted && r.outIndex == e.outIndex && r.sentAs == e.sentAs
    ensures e.id != [] ==> r.id == e.id
  {
    var e1 := if d.id != [] && e.id == [] then e.(id := d.id) else e;
    var e2 := if d.ctype != [] then e1.(ctype := d.ctype) else e1;
    match d.fn
    case Some(fn) => WithArgs(WithName(e2, fn.name), fn.args)
    case None =>
      var e3 := WithName(e2, d.name);
      if !d.args.Missing? then WithArgs(e3, d.args) else WithArgs(e3, d.input)
  }

  function IngestOne(acc: Acc, d: Delta): Acc {
    if d.NotADict? then acc
    else acc[d.index := Absorb(if d.index in acc then acc[d.index] else NEW, d)]
  }

  /** `_ingest_tool_call_deltas`. */
  function Ingest(acc: Acc, ds: seq<Delta>): Acc {
    if ds == [] then acc else IngestOne(Ingest(acc, ds[..|ds| - 1]), ds[|ds| - 1])
  }

  // ---------- choosing a slot ----------

  function NameOf(e: Entry): Text { Strip(e.name) }

  /** `_tool_slot_known`. */
  predicate KnownSlot(e: Entry) {
    e.id != [] || NameOf(e) != [] || Strip(e.args) != []
  }

  predicate ReadySlot(e: Entry) {
    NameOf(e) != [] && e.args != [] && Complete(e.args, NameOf(e))
  }

  predicate Overtakes(acc: Acc, idx: int) {
    exists lower :: 0 <= lower < idx && lower in acc && !acc[lower].emitted && KnownSlot(acc[lower])
  }

  /** The slot that `_tool_call_argument_delta` emits, over the given keys. */
  function Candidate(acc: Acc, keys: seq<int>): Option<int> {
    if keys == [] || keys[0] !in acc then None
    else
      var k, e := keys[0], acc[keys[0]];
      if e.emitted then Candidate(acc, keys[1..])
      else if Overtakes(acc, k) then None
      else if NameOf(e) == [] then
        if e.id != [] || Strip(e.args) != [] then None else Candidate(acc, keys[1..])
      else if e.args == [] || !Complete(e.args, NameOf(e)) then None
      else Some(k)
  }

  /** The slot that `_flush_one_tool_call` emits. */
  function FlushCandidate(acc: Acc, keys: seq<int>): Option<int> {
    if keys == [] || keys[0] !in acc then None
    else if acc[keys[0]].emitted || NameOf(acc[keys[0]]) == [] then FlushCandidate(acc, keys[1..])
    else Some(keys[0])
  }

  /** The outbound indices in use. */
  function Used(acc: Acc): set<nat> {
    set k | k in acc && acc[k].outIndex.Some? :: acc[k].outIndex.value
  }

  /** `entry` once it has been sent as `item`, and its id. */
  function Sent(e: Entry, id: Text, item: Item): Entry {
    e.(id := id, emitted := true, outIndex := Some(item.index), sentAs := Some(item))
  }

  /** The least index from `i` on that is not in use. */
  function LeastFree(used: set<nat>, i: nat): nat
    decreases used
  {
    if i in used then LeastFree(used - {i}, i + 1) else i
  }

  /** An accumulator after one step, and the item it sent. */
  datatype Emitted = Emitted(acc: Acc, item: Option<Item>)

  /** `_build_outbound_tool_item`. */
  function Built(acc: Acc, k: int, remaining: Text, newId: NewId): Emitted
    requires k in acc
  {
    var e := acc[k];
    var i := LeastFree(Used(acc), 0);
    var id := if Strip(e.id) != [] then e.id else newId;
    var item := Item(i, Strip(id), e.ctype, NameOf(e), remaining);
    Emitted(acc[k := Sent(e, id, item)], Some(item))
  }

  /** `_tool_call_argument_delta`. */
  function DeltaAccumulated(acc: Acc, ds: seq<Delta>, newId: NewId): Emitted {
    var t := Ingest(acc, ds);
    match Candidate(t, SortedKeys(t.Keys))
    case Some(k) => if k in t then Built(t, k, t[k].args, newId) else Emitted(t, None)
    case None => Emitted(t, None)
  }

  /** `_flush_one_tool_call`. */
  function FlushedOne(acc: Acc, newId: NewId): Emitted {
    match FlushCandidate(acc, SortedKeys(acc.Keys))
    case Some(k) =>
      if k in acc then Built(acc, k, if Strip(acc[k].args) != [] then acc[k].args else EMPTY_OBJECT, newId)
      else Emitted(acc, None)
    case None => Emitted(acc, None)
  }

  /** The slots that have not been sent. */
  function Waiting(acc: Acc): set<int> {
    set k | k in acc && !acc[k].emitted
  }

  lemma {:induction false} CandidateWaits(acc: Acc, keys: seq<int>)
    ensures Candidate(acc, keys).Some? ==> Candidate(acc, keys).value in Waiting(acc)
    ensures FlushCandidate(acc, keys).Some? ==> FlushCandidate(acc, keys).value in Waiting(acc)
    decreases |keys|
  {
    hide Complete, NameOf, Overtakes;
    if keys != [] { CandidateWaits(acc, keys[1..]); }
  }

  /** Every emission leaves one slot less to send. */
  lemma EmissionShrinks(acc: Acc, newId: NewId)
    ensures DeltaAccumulated(acc, [], newId).item.Some? ==> Waiting(DeltaAccumulated(acc, [], newId).acc) < Waiting(acc)
    ensures FlushedOne(acc, newId).item.Some? ==> Waiting(FlushedOne(acc, newId).acc) < Waiting(acc)
  {
    hide Candidate, FlushCandidate, LeastFree, NameOf, Strip, SortedKeys;
    var keys := SortedKeys(acc.Keys);
    assert Ingest(acc, []) == acc;
    CandidateWaits(acc, keys);
    var a, b := DeltaAccumulated(acc, [], newId), FlushedOne(acc, newId);
    if a.item.Some? { assert Waiting(a.acc) == Waiting(acc) - {Candidate(acc, keys).value}; }
    if b.item.Some? { assert Waiting(b.acc) == Waiting(acc) - {FlushCandidate(acc, keys).value}; }
  }

  // ---------- what the emitter keeps ----------

  /** One emission: the slot it came from and what was sent. */
  datatype Emission = Emission(slot: int, item: Item)

  /** Outbound indices are emission order, and every slot was emitted at most once. */
  ghost predicate Valid(acc: Acc, sent: seq<Emission>) {
    && (forall k :: k in acc ==> EntryOk(k, acc[k], sent))
    && (forall i: nat :: i < |sent| ==>
          && sent[i].slot in acc && acc[sent[i].slot].outIndex == Some(i)
            && acc[sent[i].slot].sentAs == Some(sent[i].item)
          && sent[i].item.index == i && sent[i].item.id != [] && sent[i].item.name != []
          && sent[i].item.id == Strip(acc[sent[i].slot].id))
  }

  ghost predicate EntryOk(k: int, e: Entry, sent: seq<Emission>) {
    && (e.emitted <==> e.outIndex.Some?)
    && (e.emitted ==> e.outIndex.value < |sent| && sent[e.outIndex.value].slot == k && NameOf(e) != [] && e.id != [])
  }

  /** A name that is not blank stays so, and an id once set stays. */
  lemma AbsorbKeepsName(e: Entry, d: Delta)
    requires d.Delta? && NameOf(e) != []
    ensures NameOf(Absorb(e, d)) != []
  {
    hide Merge;
    forall n | n != [] ensures NameOf(WithName(e, n)) != [] {
      StripIdempotent(e.name);
      StripIdempotent(n);
    }
    var e1 := if d.id != [] && e.id == [] then e.(id := d.id) else e;
    var e2 := if d.ctype != [] then e1.(ctype := d.ctype) else e1;
    var n := if d.fn.Some? then d.fn.value.name else d.name;
    assert WithName(e2, n).name == WithName(e, n).name;
  }

  lemma IngestOneKeeps(acc: Acc, sent: seq<Emission>, d: Delta)
    requires Valid(acc, sent)
    ensures Valid(IngestOne(acc, d), sent)
  {
    hide Absorb, NameOf;
    if d.Delta? && d.index in acc && acc[d.index].emitted {
      AbsorbKeepsName(acc[d.index], d);
      assert acc[d.index].id != [];
    }
  }

  lemma {:induction false} IngestKeeps(acc: Acc, sent: seq<Emission>, ds: seq<Delta>)
    requires Valid(acc, sent)
    ensures Valid(Ingest(acc, ds), sent)
  {
    hide Valid, IngestOne;
    if ds != [] {
      IngestKeeps(acc, sent, ds[..|ds| - 1]);
      IngestOneKeeps(Ingest(acc, ds[..|ds| - 1]), sent, ds[|ds| - 1]);
    }
  }

  /** The indices in use are 0, 1, ..., one for each emission. */
  lemma UsedIsPrefix(acc: Acc, sent: seq<Emission>)
    requires Valid(acc, sent)
    ensures forall i: nat :: i in Used(acc) <==> i < |sent|
  {
    forall i: nat | i < |sent| ensures i in Used(acc) {
      assert acc[sent[i].slot].outIndex == Some(i);
    }
    forall i: nat | i in Used(acc) ensures i < |sent| {
      var k :| k in acc && acc[k].outIndex.Some? && acc[k].outIndex.value == i;
      assert EntryOk(k, acc[k], sent);
    }
  }

  lemma {:induction false} LeastFreeIs(used: set<nat>, i: nat, n: nat)
    requires i <= n && forall x: nat :: i <= x ==> (x in used <==> x < n)
    ensures LeastFree(used, i) == n
    decreases n - i
  {
    if i < n { LeastFreeIs(used - {i}, i + 1, n); }
  }

  /** The next outbound index is the number of items sent so far. */
  lemma NextIndex(acc: Acc, sent: seq<Emission>)
    requires Valid(acc, sent)
    ensures LeastFree(Used(acc), 0) == |sent|
  {
    hide Valid, Used;
    UsedIsPrefix(acc, sent);
    LeastFreeIs(Used(acc), 0, |sent|);
  }

  lemma EmitKeeps(acc: Acc, sent: seq<Emission>, k: int, id: Text, item: Item)
    requires Valid(acc, sent) && k in acc && !acc[k].emitted && NameOf(acc[k]) != []
    requires id != [] && Strip(id) != [] && item.index == |sent| && item.id == Strip(id) && item.name == NameOf(acc[k])
    ensures Valid(acc[k := Sent(acc[k], id, item)], sent + [Emission(k, item)])
  {
    hide NameOf;
    var s' := sent + [Emission(k, item)];
    var a' := acc[k := Sent(acc[k], id, item)];
    assert a'[k].name == acc[k].name;
    SameName(a'[k], acc[k]);
    forall x | x in a' ensures EntryOk(x, a'[x], s') {
      if x != k { assert EntryOk(x, acc[x], sent); }
    }
    forall i: nat | i < |sent| ensures sent[i].slot != k {
      assert acc[sent[i].slot].outIndex == Some(i);
      assert EntryOk(k, acc[k], sent);
    }
  }

  lemma SameName(a: Entry, b: Entry)
    requires a.name == b.name
    ensures NameOf(a) == NameOf(b)
  {
  }

  // ---------- which slot is chosen ----------

  ghost predicate Ascending(keys: seq<int>) {
    forall i, j :: 0 <= i < j < |keys| ==> keys[i] < keys[j]
  }

  /** Every slot before the keys to visit has been emitted, or nothing is known of it. */
  ghost predicate Passed(acc: Acc, keys: seq<int>) {
    && Ascending(keys)
    && (forall k :: k in keys ==> k in acc)
    && (forall k :: k in acc && k !in keys ==>
          (acc[k].emitted || !KnownSlot(acc[k])) && forall j :: j in keys ==> k < j)
  }

  /** `k` is the smallest known slot that has not been emitted. */
  ghost predicate Next(acc: Acc, k: int) {
    && k in acc && !acc[k].emitted && KnownSlot(acc[k])
    && forall j :: j in acc && j < k ==> acc[j].emitted || !KnownSlot(acc[j])
  }

  /** A tool is sent while streaming exactly when it is the smallest waiting one and is complete. */
  lemma {:induction false} CandidateIsNext(acc: Acc, keys: seq<int>)
    requires Passed(acc, keys)
    ensures Candidate(acc, keys).Some? ==>
      Next(acc, Candidate(acc, keys).value) && ReadySlot(acc[Candidate(acc, keys).value])
    ensures Candidate(acc, keys).None? ==> forall k :: Next(acc, k) ==> !ReadySlot(acc[k])
    decreases |keys|
  {
    hide Complete, NameOf;
    if keys != [] {
      assert keys[0] in keys;
      var k, e := keys[0], acc[keys[0]];
      assert forall j :: j in keys ==> j == k || j in keys[1..];
      forall j | j in acc && j < k ensures acc[j].emitted || !KnownSlot(acc[j]) {
        assert j !in keys;
      }
      assert !Overtakes(acc, k);
      if e.emitted || !KnownSlot(e) {
        CandidateIsNext(acc, keys[1..]);
      } else {
        assert Next(acc, k);
        assert forall j :: Next(acc, j) ==> j == k;
      }
    }
  }

  lemma CandidateOfAll(acc: Acc)
    ensures var c := Candidate(acc, SortedKeys(acc.Keys));
      && (c.Some? ==> Next(acc, c.value) && ReadySlot(acc[c.value]))
      && (c.None? ==> forall k :: Next(acc, k) ==> !ReadySlot(acc[k]))
  {
    hide Complete, KnownSlot, NameOf;
    CandidateIsNext(acc, SortedKeys(acc.Keys));
  }

  /** The terminal flush takes the smallest unemitted slot that has a name. */
  lemma {:induction false} FlushTakesNamed(acc: Acc, keys: seq<int>)
    requires Ascending(keys) && forall k :: k in keys ==> k in acc
    ensures var c := FlushCandidate(acc, keys);
      && (c.Some? ==>
            && c.value in keys && !acc[c.value].emitted && NameOf(acc[c.value]) != []
            && forall k :: k in keys && k < c.value ==> acc[k].emitted || NameOf(acc[k]) == [])
      && (c.None? ==> forall k :: k in keys ==> acc[k].emitted || NameOf(acc[k]) == [])
    decreases |keys|
  {
    hide NameOf;
    if keys != [] {
      assert keys[0] in keys;
      assert forall j :: j in keys <==> j == keys[0] || j in keys[1..];
      FlushTakesNamed(acc, keys[1..]);
    }
  }

  // ---------- _finalize_tool_calls ----------

  /** What `_finalize_tool_calls` makes of one entry; one without an id would get a new one. */
  function FinalOf(k: int, e: Entry): seq<Final> {
    if (e.id == [] && e.name == []) || NameOf(e) == [] then []
    else
      var args := Sanitize(e.args);
      [Final(k, e.id, e.ctype, NameOf(e), if Strip(args) == [] then EMPTY_OBJECT else args)]
  }

  /** `_finalize_tool_calls` on the given keys. */
  function Finalized(acc: Acc, keys: seq<int>): seq<Final> {
    if keys == [] || keys[0] !in acc then []
    else FinalOf(keys[0], acc[keys[0]]) + Finalized(acc, keys[1..])
  }

  lemma {:induction false} FinalizedSlots(acc: Acc, keys: seq<int>)
    requires forall k :: k in keys ==> k in acc
    ensures forall k :: (exists f :: f in Finalized(acc, keys) && f.slot == k) <==> k in keys && NameOf(acc[k]) != []
    ensures forall f :: f in Finalized(acc, keys) ==>
      f.slot in acc && f.id == acc[f.slot].id && f.name == NameOf(acc[f.slot])
    decreases |keys|
  {
    hide Sanitize;
    if keys != [] {
      var h, t := keys[0], keys[1..];
      assert h in keys;
      FinalizedSlots(acc, t);
      assert Strip([]) == [];
      var r, q := Finalized(acc, keys), Finalized(acc, t);
      forall k ensures (exists f :: f in r && f.slot == k) <==> k in keys && NameOf(acc[k]) != [] {
        if k == h && NameOf(acc[h]) != [] {
          assert r[0] in r && r[0].slot == h;
        } else if exists f :: f in q && f.slot == k {
          var f :| f in q && f.slot == k;
          assert f in r;
        }
      }
    }
  }

  lemma FinalizedStep(acc: Acc, keys: seq<int>, k: nat)
    requires k < |keys| && keys[k] in acc
    ensures Finalized(acc, keys[k..]) == FinalOf(keys[k], acc[keys[k]]) + Finalized(acc, keys[k + 1..])
  {
    hide FinalOf;
    assert keys[k..][1..] == keys[k + 1..];
  }

  lemma FinalizedNone(acc: Acc)
    ensures Finalized(acc, []) == []
  {
  }

  // ---------- the accumulator ----------

  class Accumulator {
    var acc: Acc

    /** Everything emitted so far, in order. */
    ghost var sent: seq<Emission>

    ghost predicate Ok()
      reads this
    {
      Valid(acc, sent)
    }

    constructor ()
      ensures Ok() && acc == map[] && sent == []
    {
      acc, sent := map[], [];
    }

    /** `_assign_dense_tool_out_index` for an entry that has none: the least index not in use. */
    method AssignDense() returns (i: nat)
      requires Ok()
      ensures i == |sent| == LeastFree(Used(acc), 0)
    {
      hide Valid;
      NextIndex(acc, sent);
      UsedIsPrefix(acc, sent);
      var used := Used(acc);
      i := 0;
      while i in used
        invariant i <= |sent|
        decreases |sent| - i
      {
        i := i + 1;
      }
    }

    /** `_build_outbound_tool_item`.  `newId` is the generated id, used when the upstream gave none. */
    method Build(k: int, remaining: Text, newId: NewId) returns (item: Item)
      requires Ok() && k in acc && !acc[k].emitted && NameOf(acc[k]) != []
      modifies this
      ensures Ok() && k in acc && sent == old(sent) + [Emission(k, item)]
      ensures acc == old(acc)[k := Sent(old(acc)[k], acc[k].id, item)]
      ensures item == Item(|old(sent)|, Strip(acc[k].id), old(acc)[k].ctype, NameOf(old(acc)[k]), remaining)
      ensures acc[k].id == if Strip(old(acc)[k].id) != [] then old(acc)[k].id else newId
      ensures Emitted(acc, Some(item)) == Built(old(acc), k, remaining, newId)
    {
      hide Valid, Strip, NameOf;
      var e := acc[k];
      var i := AssignDense();
      var id := Strip(e.id);
      var kept := e.id;
      if id == [] {
        TrimmedStrip(newId);
        id := newId;
        kept := newId;
      } else if e.id == [] {
        StripNothing();
      }
      item := Item(i, id, e.ctype, NameOf(e), remaining);
      EmitKeeps(acc, sent, k, kept, item);
      acc := acc[k := Sent(e, kept, item)];
      sent := sent + [Emission(k, item)];
    }

    /** `_ingest_tool_call_deltas`. */
    method IngestDeltas(ds: seq<Delta>)
      requires Ok()
      modifies this`acc
      ensures Ok() && acc == Ingest(old(acc), ds)
    {
      hide IngestOne, Valid;
      IngestKeeps(acc, sent, ds);
      var k := 0;
      while k < |ds|
        invariant 0 <= k <= |ds|
        invariant acc == Ingest(old(acc), ds[..k])
      {
        assert ds[..k + 1][..k] == ds[..k];
        acc := IngestOne(acc, ds[k]);
        k := k + 1;
      }
      assert ds[..k] == ds;
    }

    /**
     `_tool_call_argument_delta`: merge the deltas, then send at most one tool, the smallest
     waiting one, and only when its arguments are complete.
     */
    method ArgumentDelta(ds: seq<Delta>, newId: NewId) returns (item: Option<Item>)
      requires Ok()
      modifies this
      ensures Ok() && Emitted(acc, item) == DeltaAccumulated(old(acc), ds, newId)
      ensures var t := Ingest(old(acc), ds);
        if item.None? then acc == t && sent == old(sent) && forall k :: Next(t, k) ==> !ReadySlot(t[k])
        else
          && |sent| == |old(sent)| + 1 && sent[..|old(sent)|] == old(sent)
          && var k := sent[|old(sent)|].slot;
             && sent[|old(sent)|].item == item.value
             && k in acc && Next(t, k) && ReadySlot(t[k]) && item.value.args == t[k].args
               && item.value.name == NameOf(t[k])
             && acc == t[k := Sent(t[k], acc[k].id, item.value)]
    {
      hide Valid, Candidate, NameOf, Ingest, SortedKeys, Complete, KnownSlot, Built;
      IngestDeltas(ds);
      CandidateOfAll(acc);
      match Candidate(acc, SortedKeys(acc.Keys))
      case None => item := None;
      case Some(k) =>
        var x := Build(k, acc[k].args, newId);
        item := Some(x);
    }

    /** `_flush_one_tool_call`: send the smallest named tool that is still held, best effort. */
    method FlushOne(newId: NewId) returns (item: Option<Item>)
      requires Ok()
      modifies this
      ensures Ok() && Emitted(acc, item) == FlushedOne(old(acc), newId)
      ensures if item.None? then
          && acc == old(acc) && sent == old(sent)
          && forall k :: k in acc ==> acc[k].emitted || NameOf(acc[k]) == []
        else
          && |sent| == |old(sent)| + 1 && sent[..|old(sent)|] == old(sent)
          && var k := sent[|old(sent)|].slot;
             && sent[|old(sent)|].item == item.value
             && k in acc && k in old(acc) && !old(acc)[k].emitted && item.value.name == NameOf(old(acc)[k]) != []
             && item.value.args == (if Strip(old(acc)[k].args) != [] then old(acc)[k].args else EMPTY_OBJECT)
             && (forall j :: j in old(acc) && j < k ==> old(acc)[j].emitted || NameOf(old(acc)[j]) == [])
             && acc == old(acc)[k := Sent(old(acc)[k], acc[k].id, item.value)]
    {
      hide Valid, FlushCandidate, NameOf, SortedKeys, Strip, Built;
      FlushTakesNamed(acc, SortedKeys(acc.Keys));
      match FlushCandidate(acc, SortedKeys(acc.Keys))
      case None => item := None;
      case Some(k) =>
        var x := Build(k, if Strip(acc[k].args) != [] then acc[k].args else EMPTY_OBJECT, newId);
        item := Some(x);
    }

    /** `_finalize_tool_calls`. */
    method Finalize() returns (out: seq<Final>)
      ensures out == Finalized(acc, SortedKeys(acc.Keys))
    {
      hide FinalOf, SortedKeys, Finalized;
      out := [];
      var keys := SortedKeys(acc.Keys);
      var k := 0;
      assert keys[0..] == keys && [] + Finalized(acc, keys) == Finalized(acc, keys);
      while k < |keys|
        invariant 0 <= k <= |keys|
        invariant out + Finalized(acc, keys[k..]) == Finalized(acc, keys)
      {
        FinalizedStep(acc, keys, k);
        out := out + FinalOf(keys[k], acc[keys[k]]);
        k := k + 1;
      }
      FinalizedNone(acc);
      assert keys[k..] == [] && out + [] == out;
    }

    /** A run of `_tool_call_argument_delta`. */
    method Stream(calls: seq<seq<Delta>>, newIds: nat -> NewId) returns (items: seq<Item>)
      requires Ok()
      modifies this
      ensures Ok()
      ensures |sent| == |old(sent)| + |items| && sent[..|old(sent)|] == old(sent)
      ensures forall i :: 0 <= i < |items| ==> sent[|old(sent)| + i].item == items[i]
    {
      hide Valid, NameOf, Ingest, Next, ReadySlot, Sent, DeltaAccumulated;
      items := [];
      var k := 0;
      while k < |calls|
        invariant 0 <= k <= |calls|
        invariant Ok()
        invariant |sent| == |old(sent)| + |items| && sent[..|old(sent)|] == old(sent)
        invariant forall i :: 0 <= i < |items| ==> sent[|old(sent)| + i].item == items[i]
      {
        ghost var before := sent;
        var item := ArgumentDelta(calls[k], newIds(k));
        if item.Some? {
          assert forall i :: 0 <= i < |before| ==> sent[i] == sent[..|before|][i];
          items := items + [item.value];
        }
        k := k + 1;
      }
    }

    /** The drain loop of the stream: flush until there is nothing left.  It always ends. */
    method Drain(newIds: nat -> NewId) returns (items: seq<Item>)
      requires Ok()
      modifies this
      ensures Ok() && acc.Keys == old(acc).Keys
      ensures |sent| == |old(sent)| + |items| && sent[..|old(sent)|] == old(sent)
      ensures forall i :: 0 <= i < |items| ==> sent[|old(sent)| + i].item == items[i]
      ensures forall k :: k in acc ==> acc[k].emitted || NameOf(acc[k]) == []
    {
      hide Valid, NameOf, Strip, FlushedOne;
      items := [];
      ghost var waiting := set k | k in acc && !acc[k].emitted;
      var more := true;
      while more
        invariant Ok() && acc.Keys == old(acc).Keys
        invariant waiting == set k | k in acc && !acc[k].emitted
        invariant |sent| == |old(sent)| + |items| && sent[..|old(sent)|] == old(sent)
        invariant forall i :: 0 <= i < |items| ==> sent[|old(sent)| + i].item == items[i]
        invariant !more ==> forall k :: k in acc ==> acc[k].emitted || NameOf(acc[k]) == []
        decreases waiting, more
      {
        ghost var before := sent;
        var item := FlushOne(newIds(|items|));
        if item.None? {
          more := false;
        } else {
          ghost var k := sent[|before|].slot;
          ghost var now := set x | x in acc && !acc[x].emitted;
          assert now == waiting - {k} && k in waiting;
          waiting := now;
          assert forall i :: 0 <= i < |before| ==> sent[i] == before[i];
          items := items + [item.value];
        }
      }
    }
  }

  lemma StripNothing()
    ensures Strip([]) == []
  {
  }

  function SlotsOf(sent: seq<Emission>): (r: seq<int>)
    ensures |r| == |sent| && forall i :: 0 <= i < |sent| ==> r[i] == sent[i].slot
  {
    if sent == [] then [] else SlotsOf(sent[..|sent| - 1]) + [sent[|sent| - 1].slot]
  }

  /**
   A whole run: calls of `_tool_call_argument_delta`, then the drain.  Outbound indices are
   0, 1, 2, ... in order, no slot is sent twice, every item has an id and a name, and the slots
   sent are exactly those of `_finalize_tool_calls`, under the same id up to outer blanks.
   */
  method EmitAll(calls: seq<seq<Delta>>, newIds: nat -> NewId, drainIds: nat -> NewId)
    returns (items: seq<Item>, finals: seq<Final>, ghost slots: seq<int>)
    ensures |slots| == |items|
    ensures forall i: nat :: i < |items| ==> items[i].index == i && items[i].id != [] && items[i].name != []
    ensures forall i, j :: 0 <= i < j < |slots| ==> slots[i] != slots[j]
    ensures forall k :: k in slots <==> exists f :: f in finals && f.slot == k
    ensures forall i, f :: 0 <= i < |slots| && f in finals && f.slot == slots[i] ==> items[i].id == Strip(f.id)
  {
    hide NameOf, Finalized, Strip, SortedKeys, Valid, SlotsOf;
    var a := new Accumulator();
    items := a.Stream(calls, newIds);
    ghost var before := a.sent;
    var more := a.Drain(drainIds);
    assert forall i :: 0 <= i < |before| ==> a.sent[i] == a.sent[..|before|][i];
    items := items + more;
    finals := a.Finalize();
    slots := SlotsOf(a.sent);
    RunIsWhole(a.acc, a.sent, items, finals, slots);
  }

  lemma RunIsWhole(acc: Acc, sent: seq<Emission>, items: seq<Item>, finals: seq<Final>, slots: seq<int>)
    requires Valid(acc, sent) && |items| == |sent| && forall i :: 0 <= i < |items| ==> sent[i].item == items[i]
    requires forall k :: k in acc ==> acc[k].emitted || NameOf(acc[k]) == []
    requires finals == Finalized(acc, SortedKeys(acc.Keys)) && slots == SlotsOf(sent)
    ensures |slots| == |items|
    ensures forall i: nat :: i < |items| ==> items[i].index == i && items[i].id != [] && items[i].name != []
    ensures forall i, j :: 0 <= i < j < |slots| ==> slots[i] != slots[j]
    ensures forall k :: k in slots <==> exists f :: f in finals && f.slot == k
    ensures forall i, f :: 0 <= i < |slots| && f in finals && f.slot == slots[i] ==> items[i].id == Strip(f.id)
  {
    hide NameOf, Finalized, Strip, SortedKeys, Valid;
    FinalizedSlots(acc, SortedKeys(acc.Keys));
    SlotsAreFinal(acc, sent, finals, slots);
    ItemsAreDense(acc, sent);
  }

  lemma ItemsAreDense(acc: Acc, sent: seq<Emission>)
    requires Valid(acc, sent)
    ensures forall i: nat :: i < |sent| ==> sent[i].item.index == i && sent[i].item.id != [] && sent[i].item.name != []
  {
  }

  lemma SlotsAreFinal(acc: Acc, sent: seq<Emission>, finals: seq<Final>, slots: seq<int>)
    requires Valid(acc, sent) && slots == SlotsOf(sent)
    requires forall k :: (exists f :: f in finals && f.slot == k) <==> k in acc && NameOf(acc[k]) != []
    requires forall f :: f in finals ==> f.slot in acc && f.id == acc[f.slot].id
    requires forall k :: k in acc ==> acc[k].emitted || NameOf(acc[k]) == []
    ensures forall i, j :: 0 <= i < j < |slots| ==> slots[i] != slots[j]
    ensures forall k :: k in slots <==> exists f :: f in finals && f.slot == k
    ensures forall i, f :: 0 <= i < |slots| && f in finals && f.slot == slots[i] ==> sent[i].item.id == Strip(f.id)
  {
    hide NameOf, Strip;
    forall i, j | 0 <= i < j < |slots| ensures slots[i] != slots[j] {
      assert acc[sent[i].slot].outIndex == Some(i) && acc[sent[j].slot].outIndex == Some(j);
    }
    forall k ensures k in slots <==> k in acc && NameOf(acc[k]) != [] {
      if k in slots {
        var i :| 0 <= i < |slots| && slots[i] == k;
        assert acc[sent[i].slot].outIndex == Some(i);
        assert EntryOk(k, acc[k], sent);
      }
      if k in acc && NameOf(acc[k]) != [] {
        assert EntryOk(k, acc[k], sent);
        assert slots[acc[k].outIndex.value] == k;
      }
    }
  }
}
