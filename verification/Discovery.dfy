/**
 The scanner for profile pages: the tags and attributes the source finds with
 three regular expressions, the identity a page names, and whether the page
 delegates to this bridge.
 */
module Discovery {
  import opened Prelude
  import opened Text
  import opened Library

  const PAGE_LIMIT: int := 256 * 1024
  const SUBJECT_LIMIT: int := 512

  // ---- Tags -------------------------------------------------------------------

  /** White space as the regular expressions understand it. */
  predicate IsTagSpace(c: char) {
    c == ' ' || c == '\t' || c == '\n' || c == '\r' || c as int == 12
  }

  /** `s` begins with `<`, the word in any case, and white space. */
  predicate OpensTag(s: string, word: string) {
    && |s| > |word| + 1 && s[0] == '<'
    && Lower(s[1..|word| + 1]) == word
    && IsTagSpace(s[|word| + 1])
  }

  /** The first position of `c`, or the length when there is none. */
  function IndexOf(s: string, c: char): (n: nat)
    ensures n <= |s|
    ensures forall i :: 0 <= i < n ==> s[i] != c
    ensures n < |s| ==> s[n] == c
  {
    if s == "" || s[0] == c then 0 else 1 + IndexOf(s[1..], c)
  }

  lemma IndexOfIs(s: string, c: char, n: nat)
    requires n <= |s| && (forall i :: 0 <= i < n ==> s[i] != c) && (n < |s| ==> s[n] == c)
    ensures IndexOf(s, c) == n
  {
  }

  /** The successive leftmost tags of one kind, each up to the first `>`. */
  function TagsIn(s: string, word: string): seq<string>
    decreases |s|
  {
    if s == "" then []
    else if OpensTag(s, word) && IndexOf(s, '>') < |s| then
      var n := IndexOf(s, '>') + 1;
      [s[..n]] + TagsIn(s[n..], word)
    else TagsIn(s[1..], word)
  }

  // ---- Attributes ---------------------------------------------------------------

  predicate IsNameStart(c: char) {
    'a' <= LowerChar(c) <= 'z' || c == '_' || c == ':'
  }

  predicate IsNameChar(c: char) {
    IsNameStart(c) || '0' <= c <= '9' || c == '.' || c == '-'
  }

  datatype Attribute = Attribute(name: string, value: string, length: nat)

  function SkipSpace(s: string): string {
    s[RunLength(s, IsTagSpace)..]
  }

  /** The quoted value at the very beginning of `v`, and how many characters follow it. */
  function QuotedAt(v: string): (r: Option<(string, nat)>)
    ensures r.Some? ==> r.value.1 < |v|
  {
    if v == "" || (v[0] != '"' && v[0] != '\'') then None
    else
      var inside := v[1..];
      var close := IndexOf(inside, v[0]);
      if close == |inside| then None else Some((inside[..close], |inside| - close - 1))
  }

  /** The quoted value after the `=` at the beginning of `a`. */
  function AssignedAt(a: string): (r: Option<(string, nat)>)
    ensures r.Some? ==> r.value.1 < |a|
  {
    if a == "" || a[0] != '=' then None else QuotedAt(SkipSpace(a[1..]))
  }

  /** A name, `=` and a quoted value at the very beginning of `s`. */
  function AttributeAt(s: string): (r: Option<Attribute>)
    ensures r.Some? ==> 0 < r.value.length <= |s|
  {
    if s == "" || !IsNameStart(s[0]) then None
    else
      var n := RunLength(s, IsNameChar);
      match AssignedAt(SkipSpace(s[n..]))
      case None => None
      case Some((value, left)) => Some(Attribute(s[..n], value, |s| - left))
  }

  /** The attributes found in `s`, added to `found`; a repeated name keeps its last value. */
  function AttributesIn(lib: Library, s: string, found: map<string, string>): map<string, string>
    decreases |s|
  {
    if s == "" then found
    else
      match AttributeAt(s)
      case None => AttributesIn(lib, s[1..], found)
      case Some(a) => AttributesIn(lib, s[a.length..], found[Lower(a.name) := lib.unescape(a.value)])
  }

  function Attributes(lib: Library, tag: string): map<string, string> {
    AttributesIn(lib, tag, map[])
  }

  function Get(attrs: map<string, string>, name: string): string {
    if name in attrs then attrs[name] else ""
  }

  method HtmlAttributes(lib: Library, tag: string) returns (attrs: map<string, string>)
    ensures attrs == Attributes(lib, tag)
  {
    attrs := map[];
    var rest := tag;
    while rest != ""
      invariant AttributesIn(lib, rest, attrs) == Attributes(lib, tag)
      decreases |rest|
    {
      var a := AttributeAt(rest);
      if a.Some? {
        attrs := attrs[Lower(a.value.name) := lib.unescape(a.value.value)];
        rest := rest[a.value.length..];
      } else {
        rest := rest[1..];
      }
    }
  }

  // ---- The identity a page names ----------------------------------------------------

  datatype MetadataError = NoMetadata | ManyMetadata | NotTwoWords | BadIssuer | BadSubject

  /** The trimmed content of an identity tag, empty for any other tag. */
  function IdentityValue(lib: Library, tag: string, metadataName: string): string {
    var attrs := Attributes(lib, tag);
    if EqualFold(Get(attrs, "name"), metadataName) then TrimSpace(Get(attrs, "content")) else ""
  }

  function IdentityValues(lib: Library, tags: seq<string>, metadataName: string): seq<string> {
    if tags == [] then []
    else
      var n := |tags| - 1;
      var value := IdentityValue(lib, tags[n], metadataName);
      IdentityValues(lib, tags[..n], metadataName) + if value == "" then [] else [value]
  }

  function IdentityOf(lib: Library, found: seq<string>, allowHttp: bool): Result<(string, string), MetadataError> {
    if |found| == 0 then Err(NoMetadata)
    else if |found| > 1 then Err(ManyMetadata)
    else
      var parts := Fields(found[0]);
      if |parts| != 2 then Err(NotTwoWords)
      else
        match ValidateHttpsUrl(lib, parts[0], allowHttp)
        case None => Err(BadIssuer)
        case Some(issuer) =>
          if TrimSpace(parts[1]) == "" || ByteLength(parts[1]) > SUBJECT_LIMIT then Err(BadSubject)
          else Ok((lib.render(issuer), parts[1]))
  }

  function IdentityMetadata(lib: Library, body: string, metadataName: string, allowHttp: bool): Result<(string, string), MetadataError> {
    IdentityOf(lib, IdentityValues(lib, TagsIn(body, "meta"), metadataName), allowHttp)
  }

  method IdentityMetadataFromHtml(lib: Library, body: string, metadataName: string, allowHttp: bool)
    returns (r: Result<(string, string), MetadataError>)
    ensures r == IdentityMetadata(lib, body, metadataName, allowHttp)
  {
    hide Attributes, TrimSpace, IdentityOf, TagsIn;
    var tags := TagsIn(body, "meta");
    var found := [];
    for i := 0 to |tags|
      invariant found == IdentityValues(lib, tags[..i], metadataName)
    {
      assert tags[..i + 1][..i] == tags[..i];
      var attrs := HtmlAttributes(lib, tags[i]);
      if EqualFold(Get(attrs, "name"), metadataName) {
        var value := TrimSpace(Get(attrs, "content"));
        if value != "" {
          found := found + [value];
        }
      }
    }
    assert tags[..|tags|] == tags;
    return IdentityOf(lib, found, allowHttp);
  }

  // ---- Delegation ---------------------------------------------------------------------

  ghost predicate RelContains(rel: string, want: string) {
    exists i :: 0 <= i < |Fields(rel)| && EqualFold(Fields(rel)[i], want)
  }

  method RelHas(rel: string, want: string) returns (r: bool)
    ensures r == RelContains(rel, want)
  {
    var parts := Fields(rel);
    for i := 0 to |parts|
      invariant forall k :: 0 <= k < i ==> !EqualFold(parts[k], want)
    {
      if EqualFold(parts[i], want) {
        return true;
      }
    }
    return false;
  }

  function BridgeRoot(publicUrl: string): string {
    TrimRight(publicUrl, c => c == '/')
  }

  function MetadataUrl(root: string): string {
    root + "/.well-known/oauth-authorization-server"
  }

  /** The absolute URL a link points at, if its `href` has one. */
  function LinkTarget(lib: Library, base: Url, href: string): Option<string> {
    if href == "" then None
    else
      match lib.parse(href)
      case None => None
      case Some(u) => Some(lib.render(if u.IsAbs() then u else lib.resolve(base, u)))
  }

  /** The relations that delegate, each with the endpoint it must point at. */
  function Wanted(publicUrl: string): map<string, string> {
    var root := BridgeRoot(publicUrl);
    map["indieauth-metadata" := MetadataUrl(root), "authorization_endpoint" := root + "/authorize"]
  }

  /** The link has one of the wanted relations and points at its endpoint. */
  ghost predicate LinkNamed(rels: string, target: string, wanted: map<string, string>) {
    exists rel :: rel in wanted && RelContains(rels, rel) && target == wanted[rel]
  }

  /** One link tag names this bridge as metadata document or as authorization endpoint. */
  ghost predicate DelegatingLink(lib: Library, base: Url, publicUrl: string, tag: string) {
    var attrs := Attributes(lib, tag);
    var target := LinkTarget(lib, base, TrimSpace(Get(attrs, "href")));
    target.Some? && LinkNamed(Get(attrs, "rel"), target.value, Wanted(publicUrl))
  }

  ghost predicate SomeDelegates(lib: Library, tags: seq<string>, base: Url, publicUrl: string) {
    exists i :: 0 <= i < |tags| && DelegatingLink(lib, base, publicUrl, tags[i])
  }

  ghost predicate PageDelegates(lib: Library, body: string, base: Url, publicUrl: string) {
    SomeDelegates(lib, TagsIn(body, "link"), base, publicUrl)
  }

  method LinkNames(rels: string, target: string, wanted: map<string, string>) returns (r: bool)
    ensures r == LinkNamed(rels, target, wanted)
  {
    var pending := wanted.Keys;
    while pending != {}
      invariant pending <= wanted.Keys
      invariant forall rel :: rel in wanted && rel !in pending ==> !(RelContains(rels, rel) && target == wanted[rel])
      decreases |pending|
    {
      var rel :| rel in pending;
      var has := RelHas(rels, rel);
      if has && target == wanted[rel] {
        return true;
      }
      pending := pending - {rel};
    }
    return false;
  }

  method LinkDelegates(lib: Library, base: Url, publicUrl: string, tag: string) returns (r: bool)
    ensures r == DelegatingLink(lib, base, publicUrl, tag)
  {
    var attrs := HtmlAttributes(lib, tag);
    var target := LinkTarget(lib, base, TrimSpace(Get(attrs, "href")));
    if target.None? {
      return false;
    }
    r := LinkNames(Get(attrs, "rel"), target.value, Wanted(publicUrl));
  }

  method AnyDelegates(lib: Library, tags: seq<string>, base: Url, publicUrl: string) returns (r: bool)
    ensures r == SomeDelegates(lib, tags, base, publicUrl)
  {
    hide DelegatingLink;
    for i := 0 to |tags|
      invariant forall k :: 0 <= k < i ==> !DelegatingLink(lib, base, publicUrl, tags[k])
    {
      var delegates := LinkDelegates(lib, base, publicUrl, tags[i]);
      if delegates {
        return true;
      }
    }
    return false;
  }

  method PageDelegatesToBridge(lib: Library, body: string, base: Url, publicUrl: string) returns (r: bool)
    ensures r == PageDelegates(lib, body, base, publicUrl)
  {
    r := AnyDelegates(lib, TagsIn(body, "link"), base, publicUrl);
  }

  // ---- The whole decision ---------------------------------------------------------------

  datatype Binding = Binding(me: string, issuer: string, subject: string)

  /** What a fetched profile page binds `me` to; `page` is empty when the fetch failed. */
  ghost function DiscoverIdentity(lib: Library, me: string, allowHttp: bool, metadataName: string,
                                  publicUrl: string, expectedIssuer: string, page: Option<string>): (r: Option<Binding>)
    ensures r.Some? ==> r.value.issuer == expectedIssuer
  {
    hide *;
    match ValidateHttpsUrl(lib, me, allowHttp)
    case None => None
    case Some(given) =>
      var profile := given.(fragment := "", path := if given.path == "" then "/" else given.path);
      if page.None? || ByteLength(page.value) > PAGE_LIMIT || !PageDelegates(lib, page.value, profile, publicUrl) then None
      else
        match IdentityMetadata(lib, page.value, metadataName, allowHttp)
        case Err(_) => None
        case Ok((issuer, subject)) =>
          var canonical := CanonicalUrl(lib, lib.render(profile));
          if issuer != expectedIssuer || canonical.None? then None
          else Some(Binding(canonical.value, issuer, subject))
  }

  method DiscoverProfileIdentity(lib: Library, me: string, allowHttp: bool, metadataName: string,
                                 publicUrl: string, expectedIssuer: string, page: Option<string>) returns (r: Option<Binding>)
    ensures r == DiscoverIdentity(lib, me, allowHttp, metadataName, publicUrl, expectedIssuer, page)
  {
    var given := ValidateHttpsUrl(lib, me, allowHttp);
    if given.None? {
      return None;
    }
    var profile := given.value;
    profile := profile.(fragment := "");
    if profile.path == "" {
      profile := profile.(path := "/");
    }
    if page.None? || ByteLength(page.value) > PAGE_LIMIT {
      return None;
    }
    var delegates := PageDelegatesToBridge(lib, page.value, profile, publicUrl);
    if !delegates {
      return None;
    }
    var identity := IdentityMetadataFromHtml(lib, page.value, metadataName, allowHttp);
    if identity.Err? || identity.value.0 != expectedIssuer {
      return None;
    }
    var canonical := CanonicalUrl(lib, lib.render(profile));
    if canonical.None? {
      return None;
    }
    return Some(Binding(canonical.value, identity.value.0, identity.value.1));
  }
}
