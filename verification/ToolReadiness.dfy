/**
 When arguments are ready (anthropic_compat.py, `is_complete_tool_arguments_json`), told by the table
 of tools: the arguments a known tool cannot do without are there and not blank.
 */
module ToolReadiness {
  import opened Texts
  import opened Json
  import opened JsonCanon
  import opened ToolArgs

  /** A value that stands for no argument: null, blank text, an empty list or object. */
  predicate Says(v: Json) {
    !v.Null? && (v.Str? ==> Strip(v.s) != []) && v != Arr([]) && v != Obj([])
  }

  /** Every one of some arguments is there and says something. */
  ghost predicate HasAll(ms: seq<Member>, keys: seq<string>) {
    forall k :: k in keys ==> HasKey(ms, T(k)) && Says(Find(ms, T(k)).value)
  }

  /** Ready for a tool that needs some arguments: a list that is not empty, or an object that has them. */
  ghost predicate ReadyWith(t: Text, keys: seq<string>) {
    match Loads(Strip(t))
    case Some(Arr(items)) => items != []
    case Some(Obj(ms)) => ms != [] && HasAll(ms, keys)
    case _ => false
  }

  lemma UsableSays(ms: seq<Member>, k: Text)
    ensures Usable(ms, k) <==> HasKey(ms, k) && Says(Find(ms, k).value)
  {
    hide Strip;
  }

  lemma CompleteIsReady(t: Text, name: Text)
    ensures Complete(t, name) <==> ReadyWith(t, RequiredKeys(name))
  {
    hide Loads, RequiredKeys, Usable, Says;
    var s := Strip(t);
    StripIsTrimmed(t);
    if Loads(s).Some? && IsContainer(Loads(s).value) { ContainerStarts(s); }
    if Loads(s).Some? && Loads(s).value.Obj? {
      forall k | k in RequiredKeys(name) ensures Usable(Loads(s).value.members, T(k)) <==>
          HasKey(Loads(s).value.members, T(k)) && Says(Find(Loads(s).value.members, T(k)).value)
      {
        UsableSays(Loads(s).value.members, T(k));
      }
    }
  }

  /** The table names no tool twice. */
  lemma ToolsDiffer(i: nat, j: nat)
    requires i < j < |REQUIRED|
    ensures T(REQUIRED[i].0) != T(REQUIRED[j].0)
  {
    var a, b := REQUIRED[i].0, REQUIRED[j].0;
    if |a| == |b| {
      var k :| 0 <= k < |a| && a[k] != b[k];
      assert T(a)[k] == a[k] as int && T(b)[k] == b[k] as int;
    }
  }

  lemma {:induction false} ExactFinds(key: Text, table: seq<(string, seq<string>)>, i: nat)
    requires i < |table| && key == T(table[i].0) && forall j :: 0 <= j < i ==> T(table[j].0) != key
    ensures LookupExact(key, table) == Some(table[i].1)
  {
    if i > 0 { ExactFinds(key, table[1..], i - 1); }
  }

  lemma {:induction false} ExactFindsNone(key: Text, table: seq<(string, seq<string>)>)
    requires forall j :: 0 <= j < |table| ==> T(table[j].0) != key
    ensures LookupExact(key, table) == None
  {
    if table != [] { ExactFindsNone(key, table[1..]); }
  }

  lemma {:induction false} SuffixFinds(key: Text, table: seq<(string, seq<string>)>, i: nat)
    requires i < |table| && EndsWith(key, T(table[i].0)) && forall j :: 0 <= j < i ==> !EndsWith(key, T(table[j].0))
    ensures LookupSuffix(key, table) == table[i].1
  {
    hide EndsWith;
    if i > 0 { SuffixFinds(key, table[1..], i - 1); }
  }

  lemma {:induction false} SuffixFindsNone(key: Text, table: seq<(string, seq<string>)>)
    requires forall j :: 0 <= j < |table| ==> !EndsWith(key, T(table[j].0))
    ensures LookupSuffix(key, table) == []
  {
    hide EndsWith;
    if table != [] { SuffixFindsNone(key, table[1..]); }
  }

  /** A tool that is in the table, whatever the case and punctuation of its name, needs the arguments listed there. */
  lemma KnownToolIsReady(t: Text, name: Text, i: nat)
    requires i < |REQUIRED| && NameKey(Strip(name)) == T(REQUIRED[i].0)
    ensures Complete(t, name) <==> ReadyWith(t, REQUIRED[i].1)
  {
    hide ReadyWith, Complete, EndsWith;
    CompleteIsReady(t, name);
    forall j | 0 <= j < i ensures T(REQUIRED[j].0) != T(REQUIRED[i].0) { ToolsDiffer(j, i); }
    ExactFinds(T(REQUIRED[i].0), REQUIRED, i);
    assert |REQUIRED[i].0| > 0;
  }

  /** A tool that is not there needs those of the first entry that its name ends with. */
  lemma SuffixToolIsReady(t: Text, name: Text, i: nat)
    requires i < |REQUIRED| && EndsWith(NameKey(Strip(name)), T(REQUIRED[i].0))
    requires forall j :: 0 <= j < i ==> !EndsWith(NameKey(Strip(name)), T(REQUIRED[j].0))
    requires forall j :: 0 <= j < |REQUIRED| ==> NameKey(Strip(name)) != T(REQUIRED[j].0)
    ensures Complete(t, name) <==> ReadyWith(t, REQUIRED[i].1)
  {
    hide ReadyWith, Complete;
    CompleteIsReady(t, name);
    var key := NameKey(Strip(name));
    ExactFindsNone(key, REQUIRED);
    SuffixFinds(key, REQUIRED, i);
    assert |REQUIRED[i].0| > 0;
  }

  /** Any other tool needs no more than one argument, whichever. */
  lemma UnknownToolIsReady(t: Text, name: Text)
    requires forall j :: 0 <= j < |REQUIRED| ==> !EndsWith(NameKey(Strip(name)), T(REQUIRED[j].0))
    ensures Complete(t, name) <==> ReadyWith(t, [])
  {
    hide ReadyWith, Complete;
    CompleteIsReady(t, name);
    var key := NameKey(Strip(name));
    forall j | 0 <= j < |REQUIRED| ensures T(REQUIRED[j].0) != key {
      assert !EndsWith(key, T(REQUIRED[j].0));
      if T(REQUIRED[j].0) == key { EndsWithItself(key); }
    }
    ExactFindsNone(key, REQUIRED);
    SuffixFindsNone(key, REQUIRED);
  }

  lemma EndsWithItself(s: Text)
    ensures EndsWith(s, s)
  {
  }
}
