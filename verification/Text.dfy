/** The text operations of the source's standard library that the model needs. */
module Text {

  /** The characters with the Unicode property White_Space. */
  predicate IsSpace(c: char) {
    var n := c as int;
    || 9 <= n <= 13 || n == 32 || n == 0x85 || n == 0xA0 || n == 0x1680 || 0x2000 <= n <= 0x200A
    || n == 0x2028 || n == 0x2029 || n == 0x202F || n == 0x205F || n == 0x3000
  }

  function TrimLeft(s: string, cut: char -> bool): (r: string)
    ensures |r| <= |s|
    ensures r == "" || !cut(r[0])
  {
    if s != "" && cut(s[0]) then TrimLeft(s[1..], cut) else s
  }

  function TrimRight(s: string, cut: char -> bool): (r: string)
    ensures r <= s
    ensures r == "" || !cut(r[|r| - 1])
  {
    if s != "" && cut(s[|s| - 1]) then TrimRight(s[..|s| - 1], cut) else s
  }

  function Trim(s: string, cut: char -> bool): string {
    TrimRight(TrimLeft(s, cut), cut)
  }

  function TrimSpace(s: string): string {
    Trim(s, IsSpace)
  }

  lemma {:induction false} TrimLeftMembers(s: string, cut: char -> bool)
    ensures forall c :: c in TrimLeft(s, cut) ==> c in s
  {
    if s != "" && cut(s[0]) {
      TrimLeftMembers(s[1..], cut);
    }
  }

  /** Trimming takes characters away and leaves none to cut at either end. */
  lemma TrimShape(s: string, cut: char -> bool)
    ensures var r := Trim(s, cut);
            && |r| <= |s| && (forall i :: 0 <= i < |r| ==> r[i] in s)
            && (r != "" ==> !cut(r[0]) && !cut(r[|r| - 1]))
  {
    var left := TrimLeft(s, cut);
    var r := TrimRight(left, cut);
    TrimLeftMembers(s, cut);
    assert forall i :: 0 <= i < |r| ==> r[i] == left[i];
  }

  lemma TrimNothing(s: string, cut: char -> bool)
    requires s != "" ==> !cut(s[0]) && !cut(s[|s| - 1])
    ensures Trim(s, cut) == s
  {
  }

  /** The length of the longest prefix of `s` all of whose characters satisfy `p`. */
  function RunLength(s: string, p: char -> bool): (n: nat)
    ensures n <= |s|
    ensures forall i :: 0 <= i < n ==> p(s[i])
    ensures n < |s| ==> !p(s[n])
  {
    if s == "" || !p(s[0]) then 0 else 1 + RunLength(s[1..], p)
  }

  lemma RunLengthIs(s: string, p: char -> bool, n: nat)
    requires n <= |s| && (forall i :: 0 <= i < n ==> p(s[i])) && (n < |s| ==> !p(s[n]))
    ensures RunLength(s, p) == n
  {
  }

  predicate NotSpace(c: char) {
    !IsSpace(c)
  }

  /** The words of `s`, as separated by runs of white space. */
  function Fields(s: string): seq<string>
    decreases |s|
  {
    var t := TrimLeft(s, IsSpace);
    if t == "" then []
    else
      var n := RunLength(t, NotSpace);
      [t[..n]] + Fields(t[n..])
  }

  ghost predicate Word(s: string) {
    s != "" && forall i :: 0 <= i < |s| ==> !IsSpace(s[i])
  }

  lemma TwoFields(a: string, b: string)
    requires Word(a) && Word(b)
    ensures Fields(a + " " + b) == [a, b]
  {
    var s := a + " " + b;
    RunLengthIs(s, NotSpace, |a|);
    var rest := s[|a|..];
    assert rest == " " + b;
    assert rest[1..] == b;
    assert TrimLeft(rest, IsSpace) == b;
    RunLengthIs(b, NotSpace, |b|);
    assert b[|b|..] == "" && b[..|b|] == b;
    assert TrimLeft(b, IsSpace) == b;
    assert Fields(b) == [b];
    assert Fields(rest) == Fields(b);
    assert s[..|a|] == a;
  }

  lemma OneField(a: string)
    requires Word(a)
    ensures Fields(a) == [a]
  {
    RunLengthIs(a, NotSpace, |a|);
    assert a[|a|..] == "" && a[..|a|] == a;
    assert TrimLeft(a, IsSpace) == a;
  }

  function LowerChar(c: char): char {
    if 'A' <= c <= 'Z' then (c as int + 32) as char else c
  }

  /** ASCII letters in lower case, everything else unchanged. */
  function Lower(s: string): (r: string)
    ensures |r| == |s| && forall i :: 0 <= i < |s| ==> r[i] == LowerChar(s[i])
  {
    seq(|s|, i requires 0 <= i < |s| => LowerChar(s[i]))
  }

  /** Equality up to the case of ASCII letters. */
  predicate EqualFold(a: string, b: string) {
    Lower(a) == Lower(b)
  }

  /** The number of bytes of the UTF-8 form of `s`. */
  function ByteLength(s: string): nat {
    if s == "" then 0
    else
      var n := s[0] as int;
      (if n < 0x80 then 1 else if n < 0x800 then 2 else if n < 0x10000 then 3 else 4) + ByteLength(s[1..])
  }
}
