/**
 What the deltas of one tool call add up to, told from the deltas alone: the name, and the arguments
 as the merge of every piece, in order, under the name known when it came.  Both accumulators keep
 this for every upstream index.
 */
module ToolHistory {
  import opened Texts
  import JsonLaws
  import opened ToolArgs
  import opened ToolArgsDeltas
  import Assembler
  import Json

  /** The text of raw arguments: a string without doubling, or the print of a value. */
  function TextOf(raw: Assembler.Raw): Option<Text> {
    match raw
    case Missing => None
    case Quoted(s) => Some(Sanitize(s))
    case Parsed(v) => Some(Json.Dumps(v, false))
  }

  /** What one delta says: names, in order, and a piece of the arguments. */
  datatype Part = Part(names: seq<Text>, args: Option<Text>)

  function WithNames(name: Text, names: seq<Text>): Text {
    if names == [] then name
    else Assembler.MergeName(WithNames(name, names[..|names| - 1]), names[|names| - 1])
  }

  function NameIn(parts: seq<Part>): Text {
    if parts == [] then [] else WithNames(NameIn(parts[..|parts| - 1]), parts[|parts| - 1].names)
  }

  function ArgsIn(parts: seq<Part>): Text {
    if parts == [] then []
    else
      var was := ArgsIn(parts[..|parts| - 1]);
      match parts[|parts| - 1].args
      case None => was
      case Some(piece) => Merge(was, piece, NameIn(parts))
  }

  // ---------- names ----------

  lemma {:induction false} NamesGrow(name: Text, names: seq<Text>, n: Text)
    requires name <= n && Trimmed(name) && forall x :: x in names ==> Strip(x) <= n
    ensures var r := WithNames(name, names);
      && name <= r <= n && Trimmed(r)
      && forall x :: x in names ==> Strip(x) <= r
  {
    hide Strip, Trimmed;
    if names != [] {
      var h, l := names[..|names| - 1], names[|names| - 1];
      NamesGrow(name, h, n);
      NameGrows(WithNames(name, h), l, n);
      assert forall x :: x in names ==> x in h || x == l;
    }
  }

  /** A name that does not begin the current one takes its place. */
  lemma NewNameWins(cur: Text, name: Text)
    ensures Assembler.MergeName(cur, name) == if Strip(name) <= Strip(cur) then Strip(cur) else Strip(name)
  {
    hide Strip;
  }

  lemma NameGrows(cur: Text, name: Text, n: Text)
    requires cur <= n && Trimmed(cur) && Strip(name) <= n
    ensures var r := Assembler.MergeName(cur, name);
      cur <= r <= n && Strip(name) <= r && Trimmed(r)
  {
    TrimmedStrip(cur);
    StripIsTrimmed(name);
  }

  /** Names that are all beginnings of one name, re-sent and blank ones included, add up to the longest. */
  lemma {:induction false} NameIsLongest(parts: seq<Part>, n: Text)
    requires forall i, x :: 0 <= i < |parts| && x in parts[i].names ==> Strip(x) <= n
    ensures NameIn(parts) <= n && Trimmed(NameIn(parts))
    ensures forall i, x :: 0 <= i < |parts| && x in parts[i].names ==> Strip(x) <= NameIn(parts)
  {
    hide Strip, WithNames;
    if parts == [] {
      NothingTrimmed();
    } else {
      var h, l := parts[..|parts| - 1], parts[|parts| - 1];
      forall i, x | 0 <= i < |h| && x in h[i].names ensures Strip(x) <= n { assert h[i] == parts[i]; }
      NameIsLongest(h, n);
      NamesGrow(NameIn(h), l.names, n);
      forall i, x | 0 <= i < |parts| && x in parts[i].names ensures Strip(x) <= NameIn(parts) {
        if i < |h| { assert h[i] == parts[i]; }
      }
    }
  }

  lemma NothingTrimmed()
    ensures Trimmed([])
  {
  }

  lemma {:induction false} NamesTrimmed(name: Text, names: seq<Text>)
    requires Trimmed(name)
    ensures Trimmed(WithNames(name, names))
  {
    hide Strip, Trimmed;
    if names != [] {
      var h, l := names[..|names| - 1], names[|names| - 1];
      NamesTrimmed(name, h);
      StripIsTrimmed(WithNames(name, h));
      StripIsTrimmed(l);
    }
  }

  lemma {:induction false} NameIsTrimmed(parts: seq<Part>)
    ensures Trimmed(NameIn(parts)) && Strip(NameIn(parts)) == NameIn(parts)
  {
    hide WithNames, Strip;
    NothingTrimmed();
    if parts != [] {
      NameIsTrimmed(parts[..|parts| - 1]);
      NamesTrimmed(NameIn(parts[..|parts| - 1]), parts[|parts| - 1].names);
    }
    TrimmedStrip(NameIn(parts));
  }

  // ---------- arguments ----------

  /** The pieces of the arguments. */
  function Pieces(parts: seq<Part>): seq<Text> {
    if parts == [] then []
    else
      var l := parts[|parts| - 1].args;
      Pieces(parts[..|parts| - 1]) + (if l.Some? then [l.value] else [])
  }

  /** Every piece continues what the ones before it have added up to. */
  predicate AllGrow(parts: seq<Part>) {
    parts == [] ||
    (var h, l := parts[..|parts| - 1], parts[|parts| - 1].args;
     AllGrow(h) && (l.Some? ==> Continues(ArgsIn(h), l.value, NameIn(parts))))
  }

  lemma {:induction false} JoinedMore(pieces: seq<Text>, p: Text)
    ensures Joined(pieces + [p]) == Joined(pieces) + p
  {
    if pieces == [] {
      assert [p][1..] == [] && [] + [p] == [p] && p + [] == p && [] + p == p;
    } else {
      JoinedMore(pieces[1..], p);
      assert (pieces + [p])[1..] == pieces[1..] + [p];
      assert pieces[0] + (Joined(pieces[1..]) + p) == pieces[0] + Joined(pieces[1..]) + p;
    }
  }

  /** A text that is sent in pieces is rebuilt if and only if every piece continues the ones before it. */
  lemma {:induction false} CutIsRebuiltExactly(t: Text, parts: seq<Part>)
    requires JsonLaws.ContainerText(t) && Joined(Pieces(parts)) <= t
    ensures if AllGrow(parts) then ArgsIn(parts) == Joined(Pieces(parts)) else |ArgsIn(parts)| < |Joined(Pieces(parts))|
  {
    hide Merge, Continues, NameIn, Joined, JsonLaws.ContainerText;
    if parts == [] {
      NothingJoined();
    } else {
      var h, l := parts[..|parts| - 1], parts[|parts| - 1].args;
      if l.Some? {
        JoinedMore(Pieces(h), l.value);
        CutIsRebuiltExactly(t, h);
        if AllGrow(h) {
          PieceAppends(t, ArgsIn(h), l.value, NameIn(parts));
        } else {
          MergeShrinks(ArgsIn(h), l.value, NameIn(parts));
        }
      } else {
        assert Pieces(h) + [] == Pieces(h);
        CutIsRebuiltExactly(t, h);
      }
    }
  }

  lemma NothingJoined()
    ensures Joined([]) == []
  {
  }

  /** Re-sends of beginnings of a text, in any order: the arguments are the longest. */
  lemma {:induction false} ResentIsLongest(t: Text, parts: seq<Part>)
    requires JsonLaws.ContainerText(t) && forall p :: p in Pieces(parts) ==> p <= t
    ensures ArgsIn(parts) <= t && forall p :: p in Pieces(parts) ==> p <= ArgsIn(parts)
  {
    hide Merge, NameIn, JsonLaws.ContainerText;
    if parts != [] {
      var h, l := parts[..|parts| - 1], parts[|parts| - 1].args;
      assert forall p :: p in Pieces(h) ==> p in Pieces(parts);
      ResentIsLongest(t, h);
      if l.Some? {
        assert l.value in Pieces(parts);
        var a, b := |ArgsIn(h)|, |l.value|;
        assert ArgsIn(h) == t[..a] && l.value == t[..b];
        MergePrefixes(t, a, b, NameIn(parts));
      }
    }
  }

  /**
   The arguments arrive as re-sends of beginnings of `t`, `t` among them, or cut into pieces that
   continue each other.
   */
  predicate Arrives(parts: seq<Part>, t: Text) {
    || (t in Pieces(parts) && forall p :: p in Pieces(parts) ==> p <= t)
    || (Joined(Pieces(parts)) == t && AllGrow(parts))
  }

  lemma {:induction false} PiecesOfPrefix(parts: seq<Part>, m: nat)
    requires m <= |parts|
    ensures Pieces(parts[..m]) <= Pieces(parts) && Joined(Pieces(parts[..m])) <= Joined(Pieces(parts))
    ensures AllGrow(parts) ==> AllGrow(parts[..m])
  {
    hide Joined, Continues, ArgsIn, NameIn;
    if m == |parts| {
      assert parts[..m] == parts;
    } else {
      var h, l := parts[..|parts| - 1], parts[|parts| - 1].args;
      assert parts[..m] == h[..m];
      PiecesOfPrefix(h, m);
      if l.Some? { JoinedMore(Pieces(h), l.value); } else { assert Pieces(h) + [] == Pieces(h); }
    }
  }

  /** Then the arguments are a beginning of `t` at every time, and `t` in the end. */
  lemma ArrivesWhole(parts: seq<Part>, t: Text, m: nat)
    requires JsonLaws.ContainerText(t) && Arrives(parts, t) && m <= |parts|
    ensures ArgsIn(parts[..m]) <= t && ArgsIn(parts) == t
  {
    hide ArgsIn, Joined, JsonLaws.ContainerText, AllGrow, Pieces;
    PiecesOfPrefix(parts, m);
    if Joined(Pieces(parts)) == t && AllGrow(parts) {
      assert Joined(Pieces(parts[..m])) <= t;
      CutIsRebuiltExactly(t, parts[..m]);
      CutIsRebuiltExactly(t, parts);
    } else {
      ResentIsLongest(t, parts);
      ResentIsWhole(ArgsIn(parts), t);
      forall p | p in Pieces(parts[..m]) ensures p <= t { assert p in Pieces(parts); }
      ResentIsLongest(t, parts[..m]);
    }
  }

  lemma ResentIsWhole(a: Text, t: Text)
    requires a <= t && t <= a
    ensures a == t
  {
  }
}
