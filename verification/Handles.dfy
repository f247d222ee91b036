/** Handles of managed profiles: how a claimed name becomes one, and its fallback forms. */
module Handles {
  import opened Prelude
  import opened Text
  import opened Library
  import opened Config

  const HANDLE_LIMIT: int := 32

  predicate IsSeparator(c: char) {
    c == '.' || c == '_' || c == '-'
  }

  predicate IsHandleChar(c: char) {
    'a' <= c <= 'z' || '0' <= c <= '9' || IsSeparator(c)
  }

  /** A handle in final form: 1 to 32 characters of the handle alphabet, no separator at either end. */
  ghost predicate GoodHandle(h: string) {
    && 1 <= |h| <= HANDLE_LIMIT
    && (forall i :: 0 <= i < |h| ==> IsHandleChar(h[i]))
    && !IsSeparator(h[0]) && !IsSeparator(h[|h| - 1])
  }

  predicate Reserved(h: string) {
    h in {"admin", "administrator", "api", "auth", "help", "indieauth", "root", "security", "setup", "support", "system", "test"}
  }

  /** The library's lower-casing leaves the handle alphabet alone. */
  ghost predicate LowerLaw(lib: Library) {
    forall c :: IsHandleChar(c) ==> lib.lower(c) == c
  }

  // ---- Normalization ----------------------------------------------------------------

  function LowerAll(lib: Library, s: string): (r: string)
    ensures |r| == |s| && forall i :: 0 <= i < |s| ==> r[i] == lib.lower(s[i])
  {
    seq(|s|, i requires 0 <= i < |s| => lib.lower(s[i]))
  }

  /** One character's effect on the text built so far and the last-was-a-separator flag. */
  function Push(lib: Library, out: string, lastSeparator: bool, c: char): (string, bool) {
    if IsHandleChar(c) then (if |out| < HANDLE_LIMIT then out + [c] else out, IsSeparator(c))
    else if (lib.wordish(c) || IsSpace(c)) && !lastSeparator && 0 < |out| < HANDLE_LIMIT then (out + "-", true)
    else (out, lastSeparator)
  }

  function Squeeze(lib: Library, rest: string, out: string, lastSeparator: bool): string {
    if rest == "" then out
    else
      var (out', last') := Push(lib, out, lastSeparator, rest[0]);
      Squeeze(lib, rest[1..], out', last')
  }

  function Normalize(lib: Library, value: string): string {
    Trim(Squeeze(lib, LowerAll(lib, TrimSpace(value)), "", false), IsSeparator)
  }

  method NormalizeManagedHandle(lib: Library, value: string) returns (handle: string)
    ensures handle == Normalize(lib, value)
  {
    var lowered := LowerAll(lib, TrimSpace(value));
    var out, lastSeparator := "", false;
    for i := 0 to |lowered|
      invariant Squeeze(lib, lowered[i..], out, lastSeparator) == Squeeze(lib, lowered, "", false)
    {
      var c := lowered[i];
      assert lowered[i..][0] == c && lowered[i..][1..] == lowered[i + 1..];
      if IsHandleChar(c) {
        if |out| < HANDLE_LIMIT {
          out := out + [c];
        }
        lastSeparator := IsSeparator(c);
        continue;
      }
      if (lib.wordish(c) || IsSpace(c)) && !lastSeparator && |out| > 0 && |out| < HANDLE_LIMIT {
        out := out + "-";
        lastSeparator := true;
      }
    }
    return Trim(out, IsSeparator);
  }

  lemma {:induction false} SqueezeShape(lib: Library, rest: string, out: string, last: bool)
    requires |out| <= HANDLE_LIMIT && forall i :: 0 <= i < |out| ==> IsHandleChar(out[i])
    ensures var r := Squeeze(lib, rest, out, last);
            |r| <= HANDLE_LIMIT && forall i :: 0 <= i < |r| ==> IsHandleChar(r[i])
    decreases |rest|
  {
    if rest != "" {
      var (out', last') := Push(lib, out, last, rest[0]);
      SqueezeShape(lib, rest[1..], out', last');
    }
  }

  /** Whatever the input, the result is empty or a handle in final form. */
  lemma NormalizeShape(lib: Library, value: string)
    ensures var h := Normalize(lib, value); h == "" || GoodHandle(h)
  {
    hide Squeeze, TrimSpace, Trim, LowerAll;
    SqueezeShape(lib, LowerAll(lib, TrimSpace(value)), "", false);
    TrimShape(Squeeze(lib, LowerAll(lib, TrimSpace(value)), "", false), IsSeparator);
  }

  lemma {:induction false} SqueezeCopies(lib: Library, rest: string, out: string, last: bool)
    requires |out| + |rest| <= HANDLE_LIMIT && forall i :: 0 <= i < |rest| ==> IsHandleChar(rest[i])
    ensures Squeeze(lib, rest, out, last) == out + rest
    decreases |rest|
  {
    if rest != "" {
      SqueezeCopies(lib, rest[1..], out + [rest[0]], IsSeparator(rest[0]));
      assert out + [rest[0]] + rest[1..] == out + rest;
    }
  }

  lemma HandleCharIsNotSpace(c: char)
    requires IsHandleChar(c)
    ensures !IsSpace(c)
  {
  }

  lemma SpaceTrimsNothing(h: string)
    requires h != "" && !IsSpace(h[0]) && !IsSpace(h[|h| - 1])
    ensures TrimSpace(h) == h
  {
    TrimNothing(h, IsSpace);
  }

  /** A handle in final form normalizes to itself. */
  lemma NormalizeFixesGood(lib: Library, h: string)
    requires LowerLaw(lib) && GoodHandle(h)
    ensures Normalize(lib, h) == h
  {
    hide Trim, TrimSpace, Squeeze, IsSpace;
    HandleCharIsNotSpace(h[0]);
    HandleCharIsNotSpace(h[|h| - 1]);
    SpaceTrimsNothing(h);
    assert LowerAll(lib, h) == h;
    SqueezeCopies(lib, h, "", false);
    assert "" + h == h;
    TrimNothing(h, IsSeparator);
  }

  /** Normalizing twice is normalizing once, and the fixed points are exactly the final forms. */
  lemma NormalizeIdempotent(lib: Library, value: string)
    requires LowerLaw(lib)
    ensures Normalize(lib, Normalize(lib, value)) == Normalize(lib, value)
    ensures Normalize(lib, value) == value <==> value == "" || GoodHandle(value)
  {
    NormalizeShape(lib, value);
    if Normalize(lib, value) != "" {
      NormalizeFixesGood(lib, Normalize(lib, value));
    }
    if GoodHandle(value) {
      NormalizeFixesGood(lib, value);
    }
  }

  // ---- The two candidates for a new identity ---------------------------------------------

  function DesiredAmong(lib: Library, candidates: seq<string>, fallback: string): string {
    if candidates == [] then "user-" + fallback
    else
      var handle := Normalize(lib, candidates[0]);
      if handle == "" then DesiredAmong(lib, candidates[1..], fallback)
      else if Reserved(handle) then "user-" + handle
      else handle
  }

  function DesiredHandle(lib: Library, identity: Identity, issuer: string): string {
    DesiredAmong(lib, [identity.preferredUsername, identity.username, identity.name], lib.tag(issuer, identity.subject))
  }

  method DesiredManagedHandle(lib: Library, identity: Identity, issuer: string) returns (handle: string)
    ensures handle == DesiredHandle(lib, identity, issuer)
  {
    var candidates := [identity.preferredUsername, identity.username, identity.name];
    for i := 0 to |candidates|
      invariant DesiredHandle(lib, identity, issuer) == DesiredAmong(lib, candidates[i..], lib.tag(issuer, identity.subject))
    {
      assert candidates[i..][0] == candidates[i] && candidates[i..][1..] == candidates[i + 1..];
      handle := NormalizeManagedHandle(lib, candidates[i]);
      if handle != "" {
        if Reserved(handle) {
          return "user-" + handle;
        }
        return handle;
      }
    }
    return "user-" + lib.tag(issuer, identity.subject);
  }

  /** The collision form: the handle cut short, and the identity's tag. */
  function SuffixedHandle(handle: string, tag: string): string {
    TrimRight(handle[..Min(|handle|, Nonnegative(HANDLE_LIMIT - |tag| - 1))], IsSeparator) + "-" + tag
  }

  function Nonnegative(n: int): nat {
    if n < 0 then 0 else n
  }

  lemma UserPrefixGood(h: string)
    requires 1 <= |h| <= HANDLE_LIMIT - 5 && (forall i :: 0 <= i < |h| ==> IsHandleChar(h[i])) && !IsSeparator(h[|h| - 1])
    ensures GoodHandle("user-" + h) && !Reserved("user-" + h)
  {
    assert ("user-" + h)[4] == '-';
  }

  lemma TagIsGood(tag: Tag)
    ensures forall i :: 0 <= i < |tag| ==> IsHandleChar(tag[i]) && !IsSeparator(tag[i])
  {
    forall i | 0 <= i < |tag|
      ensures IsHandleChar(tag[i]) && !IsSeparator(tag[i])
    {
      assert IsHex(tag[i]);
    }
  }

  lemma {:induction false} DesiredAmongGood(lib: Library, candidates: seq<string>, tag: Tag)
    ensures var h := DesiredAmong(lib, candidates, tag); GoodHandle(h) && !Reserved(h)
  {
    hide Normalize;
    if candidates == [] {
      TagIsGood(tag);
      UserPrefixGood(tag);
    } else {
      var handle := Normalize(lib, candidates[0]);
      NormalizeShape(lib, candidates[0]);
      if handle == "" {
        DesiredAmongGood(lib, candidates[1..], tag);
      } else if Reserved(handle) {
        ReservedIsShort(handle);
        UserPrefixGood(handle);
      }
    }
  }

  lemma ReservedIsShort(h: string)
    requires Reserved(h)
    ensures |h| <= 13
  {
  }

  /** The first candidate is always a non-reserved handle in final form. */
  lemma DesiredHandleGood(lib: Library, identity: Identity, issuer: string)
    ensures var h := DesiredHandle(lib, identity, issuer); GoodHandle(h) && !Reserved(h)
  {
    DesiredAmongGood(lib, [identity.preferredUsername, identity.username, identity.name], lib.tag(issuer, identity.subject));
  }

  lemma TrimRightKeepsFirst(s: string, cut: char -> bool)
    requires s != "" && !cut(s[0])
    ensures TrimRight(s, cut) != ""
  {
  }

  /** So is the second. */
  lemma SuffixedHandleGood(handle: string, tag: Tag)
    requires GoodHandle(handle)
    ensures var h := SuffixedHandle(handle, tag); GoodHandle(h) && !Reserved(h)
  {
    var cut := handle[..Min(|handle|, 23)];
    var base := TrimRight(cut, IsSeparator);
    TrimRightKeepsFirst(cut, IsSeparator);
    TagIsGood(tag);
    var h := base + "-" + tag;
    assert h == SuffixedHandle(handle, tag);
    assert h[|base|] == '-';
    assert h[|h| - 1] == tag[7];
    assert forall i :: 0 <= i < |base| ==> base[i] == handle[i];
    HyphenIsNotReserved(h, |base|);
  }

  lemma HyphenIsNotReserved(h: string, i: nat)
    requires i < |h| && h[i] == '-'
    ensures !Reserved(h)
  {
  }
}
