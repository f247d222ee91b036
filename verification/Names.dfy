/**
 What handle a name becomes, said on the characters of the name: words stay,
 what lies between them becomes one hyphen or nothing, and what is too long
 is cut.
 */
module Names {
  import opened Prelude
  import opened Text
  import opened Library
  import opened Config
  import opened Handles

  /** Small letters, digits and the three marks. */
  predicate Plain(c: char) {
    ('a' <= c <= 'z') || ('0' <= c <= '9') || Mark(c)
  }

  predicate Mark(c: char) {
    c in ['.', '_', '-']
  }

  /** A text that becomes `low` in lower case, all of it plain, and has no white space at its ends. */
  ghost predicate Spells(lib: Library, text: string, low: string) {
    && text != "" && |low| == |text| && !IsSpace(text[0]) && !IsSpace(text[|text| - 1])
    && forall i :: 0 <= i < |text| ==> lib.lower(text[i]) == low[i] && Plain(low[i])
  }

  /** Nothing in the text is plain in lower case. */
  ghost predicate Between(lib: Library, text: string) {
    forall i :: 0 <= i < |text| ==> !Plain(lib.lower(text[i]))
  }

  /** Some character of the text is a letter, a number or white space. */
  ghost predicate Parts(lib: Library, text: string) {
    exists i :: 0 <= i < |text| && (lib.wordish(lib.lower(text[i])) || IsSpace(lib.lower(text[i])))
  }

  // ---- The loop, a stretch at a time ------------------------------------------------------

  lemma {:induction false} PlainStretch(lib: Library, x: string, y: string, out: string, last: bool)
    requires (forall i :: 0 <= i < |x| ==> Plain(x[i])) && |out| + |x| <= HANDLE_LIMIT
    ensures Squeeze(lib, x + y, out, last) == Squeeze(lib, y, out + x, if x == "" then last else Mark(x[|x| - 1]))
    decreases |x|
  {
    if x == "" {
      assert x + y == y && out + x == out;
    } else {
      assert (x + y)[1..] == x[1..] + y && out + [x[0]] + x[1..] == out + x;
      PlainStretch(lib, x[1..], y, out + [x[0]], Mark(x[0]));
    }
  }

  /** The run between two words, as the loop meets it. */
  ghost predicate PartsNow(lib: Library, x: string) {
    exists i :: 0 <= i < |x| && (lib.wordish(x[i]) || IsSpace(x[i]))
  }

  lemma {:induction false} RunStretch(lib: Library, x: string, y: string, out: string, last: bool)
    requires (forall i :: 0 <= i < |x| ==> !Plain(x[i])) && 0 < |out| < HANDLE_LIMIT
    ensures var hyphen := PartsNow(lib, x) && !last;
            Squeeze(lib, x + y, out, last) == Squeeze(lib, y, if hyphen then out + "-" else out, last || hyphen)
    decreases |x|
  {
    hide IsSpace;
    if x == "" {
      assert x + y == y;
    } else {
      assert (x + y)[1..] == x[1..] + y;
      assert !IsHandleChar(x[0]);
      if lib.wordish(x[0]) || IsSpace(x[0]) {
        if last {
          RunStretch(lib, x[1..], y, out, last);
        } else {
          SilentStretch(lib, x[1..], y, out + "-");
        }
      } else {
        RunStretch(lib, x[1..], y, out, last);
        PartsOfRest(lib, x);
      }
    }
  }

  lemma PartsOfRest(lib: Library, x: string)
    requires x != "" && !lib.wordish(x[0]) && !IsSpace(x[0])
    ensures PartsNow(lib, x) <==> PartsNow(lib, x[1..])
  {
    hide IsSpace;
    if PartsNow(lib, x) {
      var i :| 0 <= i < |x| && (lib.wordish(x[i]) || IsSpace(x[i]));
      assert x[i] == x[1..][i - 1];
    }
  }

  /** After a separator the rest of the run adds nothing. */
  lemma {:induction false} SilentStretch(lib: Library, x: string, y: string, out: string)
    requires forall i :: 0 <= i < |x| ==> !Plain(x[i])
    ensures Squeeze(lib, x + y, out, true) == Squeeze(lib, y, out, true)
    decreases |x|
  {
    hide IsSpace;
    if x == "" {
      assert x + y == y;
    } else {
      assert (x + y)[1..] == x[1..] + y;
      assert !IsHandleChar(x[0]);
      SilentStretch(lib, x[1..], y, out);
    }
  }

  /** Beyond the limit nothing is added. */
  lemma {:induction false} FullStretch(lib: Library, x: string, out: string, last: bool)
    requires (forall i :: 0 <= i < |x| ==> Plain(x[i])) && |out| == HANDLE_LIMIT
    ensures Squeeze(lib, x, out, last) == out
    decreases |x|
  {
    if x != "" {
      FullStretch(lib, x[1..], out, Mark(x[0]));
    }
  }

  // ---- Whole names --------------------------------------------------------------------------

  lemma LowerOf(lib: Library, text: string, low: string)
    requires |low| == |text| && forall i :: 0 <= i < |text| ==> lib.lower(text[i]) == low[i]
    ensures LowerAll(lib, text) == low
  {
  }

  lemma LowerOfThree(lib: Library, a: string, run: string, b: string)
    ensures LowerAll(lib, a + run + b) == LowerAll(lib, a) + LowerAll(lib, run) + LowerAll(lib, b)
  {
  }

  /** Two words and what lies between them: one hyphen if that has a letter, number or space and no mark comes before it, else nothing. */
  function Joined(low: string, parts: bool, low': string): string
    requires low != ""
  {
    low + (if parts && !Mark(low[|low| - 1]) then "-" else "") + low'
  }

  lemma NameOfTwo(lib: Library, a: string, low: string, run: string, b: string, low': string)
    requires Spells(lib, a, low) && Spells(lib, b, low') && Between(lib, run)
    requires !Mark(low[0]) && !Mark(low'[|low'| - 1]) && |low| + 1 + |low'| <= 32
    ensures Normalize(lib, a + run + b) == Joined(low, Parts(lib, run), low')
  {
    hide Squeeze, IsSpace, Trim, TrimSpace, Spells, Between, Joined, Parts, PartsNow, LowerAll;
    LowerOfTwo(lib, a, low, run, b, low');
    PartsOfLower(lib, run);
    SpeltPlain(lib, a, low);
    SpeltPlain(lib, b, low');
    RunLowered(lib, run);
    SqueezeTwo(lib, low, LowerAll(lib, run), low');
    JoinedEnds(low, Parts(lib, run), low');
  }

  lemma SpeltPlain(lib: Library, text: string, low: string)
    requires Spells(lib, text, low)
    ensures low != "" && forall i :: 0 <= i < |low| ==> Plain(low[i])
  {
  }

  lemma RunLowered(lib: Library, run: string)
    requires Between(lib, run)
    ensures forall i :: 0 <= i < |LowerAll(lib, run)| ==> !Plain(LowerAll(lib, run)[i])
  {
  }

  lemma LowerOfTwo(lib: Library, a: string, low: string, run: string, b: string, low': string)
    requires Spells(lib, a, low) && Spells(lib, b, low')
    ensures LowerAll(lib, TrimSpace(a + run + b)) == low + LowerAll(lib, run) + low'
  {
    hide IsSpace, Trim;
    TrimNothing(a + run + b, IsSpace);
    LowerOf(lib, a, low);
    LowerOf(lib, b, low');
    LowerOfThree(lib, a, run, b);
  }

  lemma SqueezeTwo(lib: Library, low: string, middle: string, low': string)
    requires low != "" && low' != "" && |low| + 1 + |low'| <= HANDLE_LIMIT
    requires (forall i :: 0 <= i < |low| ==> Plain(low[i])) && (forall i :: 0 <= i < |low'| ==> Plain(low'[i]))
    requires forall i :: 0 <= i < |middle| ==> !Plain(middle[i])
    ensures Squeeze(lib, low + middle + low', "", false) == Joined(low, PartsNow(lib, middle), low')
  {
    hide Squeeze, PartsNow, Plain, Joined, Mark;
    assert low + middle + low' == low + (middle + low');
    FirstWord(lib, low, middle + low');
    RunStretch(lib, middle, low', low, Mark(low[|low| - 1]));
    LastWord(lib, low, PartsNow(lib, middle), low');
  }

  lemma FirstWord(lib: Library, low: string, rest: string)
    requires low != "" && |low| <= HANDLE_LIMIT && forall i :: 0 <= i < |low| ==> Plain(low[i])
    ensures Squeeze(lib, low + rest, "", false) == Squeeze(lib, rest, low, Mark(low[|low| - 1]))
  {
    hide Squeeze, Plain, Mark;
    PlainStretch(lib, low, rest, "", false);
    assert "" + low == low;
  }

  lemma LastWord(lib: Library, low: string, parts: bool, low': string)
    requires low != "" && low' != "" && |low| + 1 + |low'| <= HANDLE_LIMIT && forall i :: 0 <= i < |low'| ==> Plain(low'[i])
    ensures var last := Mark(low[|low| - 1]);
            Squeeze(lib, low', if parts && !last then low + "-" else low, last || (parts && !last)) == Joined(low, parts, low')
  {
    hide Squeeze, Plain, Mark;
    var last := Mark(low[|low| - 1]);
    var out := if parts && !last then low + "-" else low;
    assert low' + "" == low';
    PlainStretch(lib, low', "", out, last || (parts && !last));
    SqueezedAll(lib, out + low', Mark(low'[|low'| - 1]));
  }

  lemma JoinedEnds(low: string, parts: bool, low': string)
    requires low != "" && low' != "" && !Mark(low[0]) && !Mark(low'[|low'| - 1])
    ensures Trim(Joined(low, parts, low'), IsSeparator) == Joined(low, parts, low')
  {
    hide Trim;
    TrimNothing(Joined(low, parts, low'), IsSeparator);
  }

  lemma SqueezedAll(lib: Library, out: string, last: bool)
    ensures Squeeze(lib, "", out, last) == out
  {
  }

  lemma PartsOfLower(lib: Library, run: string)
    ensures PartsNow(lib, LowerAll(lib, run)) <==> Parts(lib, run)
  {
    hide IsSpace;
    var low := LowerAll(lib, run);
    if PartsNow(lib, low) {
      var i :| 0 <= i < |low| && (lib.wordish(low[i]) || IsSpace(low[i]));
      assert lib.wordish(lib.lower(run[i])) || IsSpace(lib.lower(run[i]));
    }
    if Parts(lib, run) {
      var i :| 0 <= i < |run| && (lib.wordish(lib.lower(run[i])) || IsSpace(lib.lower(run[i])));
      assert lib.wordish(low[i]) || IsSpace(low[i]);
    }
  }

  /** A longer word is cut to 32 characters, and marks left at the end go. */
  lemma NameCut(lib: Library, text: string, low: string)
    requires Spells(lib, text, low) && !Mark(low[0]) && |low| >= 32
    ensures Normalize(lib, text) == TrimRight(low[..32], c => c == '.' || c == '_' || c == '-')
  {
    hide Squeeze, IsSpace, Spells, TrimRight, TrimSpace, LowerAll, Plain;
    LowerOfOne(lib, text, low);
    SpeltPlain(lib, text, low);
    assert low == low[..32] + low[32..];
    PlainStretch(lib, low[..32], low[32..], "", false);
    assert "" + low[..32] == low[..32];
    FullStretch(lib, low[32..], low[..32], Mark(low[..32][31]));
    SameCut(low[..32]);
    assert TrimLeft(low[..32], IsSeparator) == low[..32];
  }

  lemma LowerOfOne(lib: Library, text: string, low: string)
    requires Spells(lib, text, low)
    ensures LowerAll(lib, TrimSpace(text)) == low
  {
    hide IsSpace, Trim;
    TrimNothing(text, IsSpace);
    LowerOf(lib, text, low);
  }

  lemma {:induction false} SameCut(s: string)
    ensures TrimRight(s, IsSeparator) == TrimRight(s, c => c == '.' || c == '_' || c == '-')
  {
    if s != "" {
      SameCut(s[..|s| - 1]);
    }
  }

  // ---- Candidates ------------------------------------------------------------------------------

  /** Names that the bridge keeps for itself. */
  predicate NotForPersons(h: string) {
    || h == "admin" || h == "administrator" || h == "api" || h == "auth" || h == "help" || h == "indieauth"
    || h == "root" || h == "security" || h == "setup" || h == "support" || h == "system" || h == "test"
  }

  lemma ReservedExactly(h: string)
    ensures Reserved(h) <==> NotForPersons(h)
  {
  }

  /** The first name that gives a handle at all, if any does. */
  function DesiredFirst(lib: Library, identity: Identity): string {
    var preferred, user := Normalize(lib, identity.preferredUsername), Normalize(lib, identity.username);
    if preferred != "" then preferred else if user != "" then user else Normalize(lib, identity.name)
  }

  /** The preferred user name, the user name and the name are tried in this order; a reserved one is prefixed. */
  lemma CandidatesInOrder(lib: Library, identity: Identity, issuer: string)
    ensures var first := DesiredFirst(lib, identity);
            DesiredHandle(lib, identity, issuer)
            == (if first == "" then "user-" + lib.tag(issuer, identity.subject) else if NotForPersons(first) then "user-" + first else first)
  {
    hide Normalize, DesiredAmong, Reserved, NotForPersons;
    var tag := lib.tag(issuer, identity.subject);
    var candidates := [identity.preferredUsername, identity.username, identity.name];
    assert candidates[1..] == [identity.username, identity.name] && candidates[1..][1..] == [identity.name] && candidates[1..][1..][1..] == [];
    ReservedExactly(DesiredFirst(lib, identity));
    NextCandidate(lib, candidates, tag);
    NextCandidate(lib, candidates[1..], tag);
    NextCandidate(lib, candidates[1..][1..], tag);
    NoCandidate(lib, tag);
  }

  lemma NextCandidate(lib: Library, candidates: seq<string>, tag: string)
    requires candidates != []
    ensures var handle := Normalize(lib, candidates[0]);
            DesiredAmong(lib, candidates, tag)
            == if handle == "" then DesiredAmong(lib, candidates[1..], tag) else if Reserved(handle) then "user-" + handle else handle
  {
    hide Normalize, Reserved;
  }

  lemma NoCandidate(lib: Library, tag: string)
    ensures DesiredAmong(lib, [], tag) == "user-" + tag
  {
  }

  /** A handle that leaves room for a hyphen and the tag keeps all its characters. */
  lemma SuffixKeeps(handle: string, tag: Tag)
    requires GoodHandle(handle) && |handle| <= 23
    ensures SuffixedHandle(handle, tag) == handle + "-" + tag
  {
    assert handle[..|handle|] == handle;
  }
}
