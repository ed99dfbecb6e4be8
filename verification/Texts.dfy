/** Python text: strings are sequences of code points, lone surrogates included. */
module Texts {

  type Code = c: int | 0 <= c < 0x110000

  type Text = seq<Code>

  datatype Option<+T> = None | Some(value: T)

  /** A readable way to write a constant of type Text. */
  function T(s: string): (t: Text)
    ensures |t| == |s|
  {
    seq(|s|, i requires 0 <= i < |s| => s[i] as int)
  }

  /** `str.isspace` for one code point. */
  predicate IsSpace(c: Code) {
    || 0x09 <= c <= 0x0D
    || 0x1C <= c <= 0x20
    || c == 0x85 || c == 0xA0 || c == 0x1680
    || 0x2000 <= c <= 0x200A
    || c == 0x2028 || c == 0x2029 || c == 0x202F || c == 0x205F || c == 0x3000
  }

  function LStrip(s: Text): Text {
    if s != [] && IsSpace(s[0]) then LStrip(s[1..]) else s
  }

  function RStrip(s: Text): Text {
    if s != [] && IsSpace(s[|s| - 1]) then RStrip(s[..|s| - 1]) else s
  }

  /** `str.strip()`. */
  function Strip(s: Text): Text {
    RStrip(LStrip(s))
  }

  /** Neither end of `s` is white space. */
  predicate Trimmed(s: Text) {
    s != [] ==> !IsSpace(s[0]) && !IsSpace(s[|s| - 1])
  }

  /** What is left after `rstrip` is a prefix, and only white space is dropped. */
  lemma {:induction false} RStripIsPrefix(s: Text)
    ensures RStrip(s) <= s
    ensures RStrip(s) != [] ==> !IsSpace(RStrip(s)[|RStrip(s)| - 1])
    ensures forall k :: |RStrip(s)| <= k < |s| ==> IsSpace(s[k])
  {
    if s != [] && IsSpace(s[|s| - 1]) {
      RStripIsPrefix(s[..|s| - 1]);
    }
  }

  lemma {:induction false} LStripIsSuffix(s: Text)
    ensures |LStrip(s)| <= |s| && LStrip(s) == s[|s| - |LStrip(s)|..]
    ensures LStrip(s) != [] ==> !IsSpace(LStrip(s)[0])
    ensures forall k :: 0 <= k < |s| - |LStrip(s)| ==> IsSpace(s[k])
  {
    if s != [] && IsSpace(s[0]) {
      LStripIsSuffix(s[1..]);
      forall k | 0 <= k < |s| - |LStrip(s)| ensures IsSpace(s[k]) {
        if k > 0 { assert s[k] == s[1..][k - 1]; }
      }
    }
  }

  lemma StripIsTrimmed(s: Text)
    ensures Trimmed(Strip(s))
    ensures Strip(s) == [] <==> forall k :: 0 <= k < |s| ==> IsSpace(s[k])
  {
    var l := LStrip(s);
    LStripIsSuffix(s);
    RStripIsPrefix(l);
    if Strip(s) != [] {
      assert Strip(s)[0] == l[0] == s[|s| - |l|];
    }
  }

  lemma TrimmedStrip(s: Text)
    requires Trimmed(s)
    ensures Strip(s) == s
  {
  }

  lemma StripIdempotent(s: Text)
    ensures Strip(Strip(s)) == Strip(s)
  {
    StripIsTrimmed(s);
    TrimmedStrip(Strip(s));
  }
}
