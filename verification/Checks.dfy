/**
 What the checks of the handlers amount to, said on the fields of what they
 look at and without the predicates the handlers use: what a redirect URI, a
 challenge, a verifier, an identity and a profile page must be like, and that
 nothing else passes.
 */
module Checks {
  import opened Prelude
  import opened Text
  import opened Library
  import opened Config
  import Handles
  import opened Discovery
  import opened Tables
  import opened Handlers

  // ---- URLs ----------------------------------------------------------------------------

  /** An `https` URL, or `http` where that is allowed, with a host and without user information. */
  predicate SafeUrl(u: Url, allowHttp: bool) {
    && (u.scheme == "https" || (allowHttp && u.scheme == "http"))
    && !u.userinfo && u.hostname != "" && forall i :: 0 <= i < |u.hostname| ==> u.hostname[i] !in [' ', '\t', '\r', '\n']
  }

  lemma SafeExactly(lib: Library, raw: string, allowHttp: bool)
    ensures ValidateHttpsUrl(lib, raw, allowHttp).Some? <==> lib.parse(raw).Some? && SafeUrl(lib.parse(raw).value, allowHttp)
    ensures ValidateHttpsUrl(lib, raw, allowHttp).Some? ==> ValidateHttpsUrl(lib, raw, allowHttp) == lib.parse(raw)
  {
  }

  /** The port, with the scheme's own filled in. */
  function PortOf(u: Url): string {
    if u.port == "" then (if u.scheme == "https" then "443" else "80") else u.port
  }

  /** Both URLs name the same scheme, host and port, letter case aside. */
  predicate SamePlace(a: Url, b: Url) {
    Lower(a.scheme) == Lower(b.scheme) && Lower(a.hostname) == Lower(b.hostname) && Lower(PortOf(a)) == Lower(PortOf(b))
  }

  /** On the client's own origin, without a fragment. */
  ghost predicate AtClient(lib: Library, clientId: string, redirectUri: string, allowHttp: bool) {
    && lib.parse(clientId).Some? && lib.parse(redirectUri).Some?
    && var c, r := lib.parse(clientId).value, lib.parse(redirectUri).value;
    && SafeUrl(c, allowHttp) && SafeUrl(r, allowHttp) && r.fragment == "" && SamePlace(c, r)
  }

  /** Prints like one of the declared ones, both without a fragment. */
  ghost predicate AmongDeclared(lib: Library, redirectUri: string, declared: seq<string>, allowHttp: bool) {
    && lib.parse(redirectUri).Some? && SafeUrl(lib.parse(redirectUri).value, allowHttp) && lib.parse(redirectUri).value.fragment == ""
    && exists i :: 0 <= i < |declared| && SamePrint(lib, declared[i], redirectUri, allowHttp)
  }

  predicate SamePrint(lib: Library, a: string, b: string, allowHttp: bool) {
    && lib.parse(a).Some? && lib.parse(b).Some?
    && SafeUrl(lib.parse(a).value, allowHttp) && lib.parse(a).value.fragment == ""
    && lib.render(lib.parse(a).value) == lib.render(lib.parse(b).value)
  }

  /** Where a client may have its code sent. */
  ghost predicate RedirectFits(lib: Library, clientId: string, redirectUri: string, allowHttp: bool, declared: Option<seq<string>>) {
    AtClient(lib, clientId, redirectUri, allowHttp) || (declared.Some? && AmongDeclared(lib, redirectUri, declared.value, allowHttp))
  }

  lemma OriginExactly(lib: Library, clientId: string, redirectUri: string, allowHttp: bool)
    ensures RedirectOnClientOrigin(lib, clientId, redirectUri, allowHttp) <==> AtClient(lib, clientId, redirectUri, allowHttp)
  {
    SafeExactly(lib, clientId, allowHttp);
    SafeExactly(lib, redirectUri, allowHttp);
    hide ValidateHttpsUrl, HostCharsOk, Lower;
  }

  lemma NormalizedExactly(lib: Library, raw: string, allowHttp: bool)
    ensures var n := NormalizedRedirect(lib, raw, allowHttp);
            && (n.Some? <==> lib.parse(raw).Some? && SafeUrl(lib.parse(raw).value, allowHttp) && lib.parse(raw).value.fragment == "")
            && (n.Some? ==> n.value == lib.render(lib.parse(raw).value))
  {
    SafeExactly(lib, raw, allowHttp);
  }

  /** The check of the redirect URI accepts these and no others. */
  lemma RedirectExactly(lib: Library, clientId: string, redirectUri: string, allowHttp: bool, declared: Option<seq<string>>)
    ensures RedirectAccepted(lib, clientId, redirectUri, allowHttp, declared) <==> RedirectFits(lib, clientId, redirectUri, allowHttp, declared)
  {
    hide RedirectOnClientOrigin, NormalizedRedirect, AtClient, SafeUrl;
    OriginExactly(lib, clientId, redirectUri, allowHttp);
    NormalizedExactly(lib, redirectUri, allowHttp);
    if declared.Some? {
      forall i | 0 <= i < |declared.value|
        ensures NormalizedRedirect(lib, declared.value[i], allowHttp) == NormalizedRedirect(lib, redirectUri, allowHttp)
                  && NormalizedRedirect(lib, redirectUri, allowHttp).Some?
                <==> NormalizedRedirect(lib, redirectUri, allowHttp).Some? && SamePrint(lib, declared.value[i], redirectUri, allowHttp)
      {
        NormalizedExactly(lib, declared.value[i], allowHttp);
      }
    }
  }

  // ---- Challenges and verifiers -------------------------------------------------------------

  /** Letters, digits and the four marks of RFC 7636 section 4.1. */
  predicate Unreserved(c: char) {
    ('a' <= c <= 'z') || ('A' <= c <= 'Z') || ('0' <= c <= '9') || c in ['-', '.', '_', '~']
  }

  ghost predicate S256Challenge(challenge: string, codeMethod: string) {
    codeMethod == "S256" && 43 <= |challenge| <= 128 && forall i :: 0 <= i < |challenge| ==> Unreserved(challenge[i])
  }

  /** With PKCE required every request but a legacy one, which names no response type, scope, challenge or method, brings a challenge. */
  ghost predicate ChallengeFits(cfg: Config, q: AuthorizeQuery) {
    if cfg.requirePkce && (q.responseType != "" || q.scope != "" || q.challenge != "" || q.challengeMethod != "") then
      S256Challenge(q.challenge, q.challengeMethod)
    else q.challenge != "" ==> q.challengeMethod == "S256"
  }

  lemma ChallengeExactly(cfg: Config, q: AuthorizeQuery)
    ensures ChallengeAccepted(cfg, q) <==> ChallengeFits(cfg, q)
    ensures WellFormedChallenge(q.challenge, q.challengeMethod) <==> S256Challenge(q.challenge, q.challengeMethod)
  {
  }

  /** The verifier is the preimage of the challenge. */
  predicate Answers(lib: Library, verifier: string, challenge: string) {
    verifier != "" && lib.digest(verifier) == challenge
  }

  /** What a presentation has to bring beside the code. */
  predicate Matches(cfg: Config, row: AuthorizationCode, form: CodeForm, atTokenEndpoint: bool) {
    && form.clientId == row.clientId && form.redirectUri == row.redirectUri
    && (row.challenge == "" ==> !atTokenEndpoint || !cfg.requirePkce)
    && (row.challenge != "" ==> Answers(cfg.lib, form.verifier, row.challenge))
  }

  lemma PresentationExactly(cfg: Config, row: AuthorizationCode, form: CodeForm, atTokenEndpoint: bool)
    ensures PresentationOk(cfg, row, form, atTokenEndpoint) <==> Matches(cfg, row, form, atTokenEndpoint)
  {
  }

  // ---- Scopes ---------------------------------------------------------------------------------

  ghost predicate ScopeFits(scope: string) {
    forall word :: word in Fields(scope) ==> word == "profile" || word == "email"
  }

  lemma ScopeExactly(scope: string)
    ensures ScopeAllowed(scope) <==> ScopeFits(scope)
  {
    hide Fields;
    if ScopeFits(scope) {
      assert forall i :: 0 <= i < |Fields(scope)| ==> Fields(scope)[i] in Fields(scope);
    }
  }

  // ---- Identities -----------------------------------------------------------------------------

  /** Some selector of the profile names the identity: its subject or a group as it is, a name or an address letter case aside. */
  ghost predicate Selected(p: ProfileConfig, identity: Identity) {
    || (identity.subject != "" && identity.subject in p.allowedSubjects)
    || (exists name :: name in p.allowedUsernames && name != "" && (Lower(name) == Lower(identity.username) || Lower(name) == Lower(identity.preferredUsername)))
    || (exists address :: address in p.allowedEmails && address != "" && Lower(address) == Lower(identity.email))
    || (exists group :: group in p.allowedGroups && group != "" && group in identity.groups)
  }

  lemma SelectedExactly(p: ProfileConfig, identity: Identity)
    ensures IdentityAllowed(p, identity) <==> Selected(p, identity)
  {
    hide Lower;
    if identity.subject != "" && identity.subject in p.allowedSubjects {
      var i :| 0 <= i < |p.allowedSubjects| && p.allowedSubjects[i] == identity.subject;
      assert SubjectMatches(p.allowedSubjects[i], identity);
    }
    if name :| name in p.allowedUsernames && name != "" && (Lower(name) == Lower(identity.username) || Lower(name) == Lower(identity.preferredUsername)) {
      var i :| 0 <= i < |p.allowedUsernames| && p.allowedUsernames[i] == name;
      assert UsernameMatches(p.allowedUsernames[i], identity);
    }
    if address :| address in p.allowedEmails && address != "" && Lower(address) == Lower(identity.email) {
      var i :| 0 <= i < |p.allowedEmails| && p.allowedEmails[i] == address;
      assert EmailMatches(p.allowedEmails[i], identity);
    }
    if group :| group in p.allowedGroups && group != "" && group in identity.groups {
      var i :| 0 <= i < |p.allowedGroups| && p.allowedGroups[i] == group;
      assert GroupMatches(p.allowedGroups[i], identity);
    }
  }

  /** The configured issuer of a backend, empty without one. */
  function IssuerAt(cfg: Config, backend: string): string {
    if backend !in cfg.backends then "" else cfg.backends[backend]
  }

  /** The login is the recorded owner's, or one that the configured profile of the URL selects. */
  ghost predicate MaySignIn(cfg: Config, row: AuthRequest, identity: Identity) {
    match row.backendState.owner
    case Some(owner) => identity.subject == owner.subject && IssuerAt(cfg, row.backend) == owner.issuer
    case None => ProfileByMe(cfg, row.me).Some? && Selected(ProfileByMe(cfg, row.me).value, identity)
  }

  lemma LoginExactly(cfg: Config, row: AuthRequest, identity: Identity)
    ensures LoginAllowed(cfg, row, identity) <==> MaySignIn(cfg, row, identity)
  {
    hide ProfileByMe, IdentityAllowed, Selected;
    if ProfileByMe(cfg, row.me).Some? {
      SelectedExactly(ProfileByMe(cfg, row.me).value, identity);
    }
  }

  // ---- Profile pages --------------------------------------------------------------------------

  /** The link's address, against the page's own URL if it is relative, prints as the target. */
  ghost predicate PointsAt(lib: Library, base: Url, href: string, target: string) {
    && href != "" && lib.parse(href).Some?
    && var u := lib.parse(href).value;
    target == lib.render(if u.scheme == "" then lib.resolve(base, u) else u)
  }

  lemma TargetExactly(lib: Library, base: Url, href: string, target: string)
    ensures LinkTarget(lib, base, href) == Some(target) <==> PointsAt(lib, base, href, target)
  {
  }

  /** A link tag with this relation, letter case aside, and this target. */
  ghost predicate LinksTo(lib: Library, base: Url, tag: string, rel: string, target: string) {
    var attrs := Attributes(lib, tag);
    && (exists word :: word in Fields(Get(attrs, "rel")) && Lower(word) == rel)
    && PointsAt(lib, base, TrimSpace(Get(attrs, "href")), target)
  }

  /** The tag names this bridge, by its metadata document or by its authorization endpoint. */
  ghost predicate NamesBridge(lib: Library, base: Url, publicUrl: string, tag: string) {
    var root := TrimRight(publicUrl, c => c == '/');
    || LinksTo(lib, base, tag, "indieauth-metadata", root + "/.well-known/oauth-authorization-server")
    || LinksTo(lib, base, tag, "authorization_endpoint", root + "/authorize")
  }

  lemma RelExactly(rels: string, rel: string)
    requires Lower(rel) == rel
    ensures RelContains(rels, rel) <==> exists word :: word in Fields(rels) && Lower(word) == rel
  {
    hide Fields, Lower;
    if word :| word in Fields(rels) && Lower(word) == rel {
      var i :| 0 <= i < |Fields(rels)| && Fields(rels)[i] == word;
      assert EqualFold(Fields(rels)[i], rel);
    }
  }

  lemma LinkExactly(lib: Library, base: Url, publicUrl: string, tag: string)
    ensures DelegatingLink(lib, base, publicUrl, tag) <==> NamesBridge(lib, base, publicUrl, tag)
  {
    hide Attributes, LinkTarget, Fields, TrimSpace, RelContains;
    var rels := Get(Attributes(lib, tag), "rel");
    assert Lower("indieauth-metadata") == "indieauth-metadata" && Lower("authorization_endpoint") == "authorization_endpoint";
    RelExactly(rels, "indieauth-metadata");
    RelExactly(rels, "authorization_endpoint");
    WantedTwo(publicUrl);
    hide Wanted, BridgeRoot, MetadataUrl;
    var href := TrimSpace(Get(Attributes(lib, tag), "href"));
    var target := LinkTarget(lib, base, href);
    TargetExactly(lib, base, href, Wanted(publicUrl)["indieauth-metadata"]);
    TargetExactly(lib, base, href, Wanted(publicUrl)["authorization_endpoint"]);
    hide PointsAt;
    if NamesBridge(lib, base, publicUrl, tag) {
      var rel := if LinksTo(lib, base, tag, "indieauth-metadata", Wanted(publicUrl)["indieauth-metadata"]) then "indieauth-metadata" else "authorization_endpoint";
      assert rel in Wanted(publicUrl) && RelContains(rels, rel) && target.value == Wanted(publicUrl)[rel];
    }
  }

  lemma WantedTwo(publicUrl: string)
    ensures Wanted(publicUrl).Keys == {"indieauth-metadata", "authorization_endpoint"}
    ensures var root := TrimRight(publicUrl, c => c == '/');
            && Wanted(publicUrl)["indieauth-metadata"] == root + "/.well-known/oauth-authorization-server"
            && Wanted(publicUrl)["authorization_endpoint"] == root + "/authorize"
  {
  }

  /** A page delegates exactly when some link tag of it names this bridge. */
  lemma DelegationExactly(lib: Library, body: string, base: Url, publicUrl: string)
    ensures PageDelegates(lib, body, base, publicUrl) <==> exists tag :: tag in TagsIn(body, "link") && NamesBridge(lib, base, publicUrl, tag)
  {
    hide TagsIn, DelegatingLink, NamesBridge;
    var tags := TagsIn(body, "link");
    forall tag | tag in tags
      ensures DelegatingLink(lib, base, publicUrl, tag) <==> NamesBridge(lib, base, publicUrl, tag)
    {
      LinkExactly(lib, base, publicUrl, tag);
    }
  }

  /** Discovery turns a page away, or a failed fetch, that has no link to this bridge. */
  lemma NotDelegated(lib: Library, me: string, allowHttp: bool, metadataName: string, publicUrl: string, expectedIssuer: string, page: Option<string>)
    requires (hide *; page.Some?) && lib.parse(me).Some? ==>
               var given := lib.parse(me).value;
               forall tag :: tag in TagsIn(page.value, "link") ==>
                 !NamesBridge(lib, given.(fragment := "", path := if given.path == "" then "/" else given.path), publicUrl, tag)
    ensures DiscoverIdentity(lib, me, allowHttp, metadataName, publicUrl, expectedIssuer, page) == None
  {
    hide TagsIn, NamesBridge, PageDelegates, IdentityMetadata, CanonicalUrl, ByteLength;
    SafeExactly(lib, me, allowHttp);
    if page.Some? && lib.parse(me).Some? {
      var given := lib.parse(me).value;
      DelegationExactly(lib, page.value, given.(fragment := "", path := if given.path == "" then "/" else given.path), publicUrl);
    }
  }

  /** The tag names an identity, by the configured name in any letter case and with this content. */
  predicate NamesIdentity(lib: Library, tag: string, metadataName: string, content: string) {
    var attrs := Attributes(lib, tag);
    content != "" && Lower(Get(attrs, "name")) == Lower(metadataName) && TrimSpace(Get(attrs, "content")) == content
  }

  /** Exactly one of the tags names an identity, with this content. */
  ghost predicate OnlyIdentity(lib: Library, tags: seq<string>, metadataName: string, content: string) {
    exists i :: 0 <= i < |tags| && NamesIdentity(lib, tags[i], metadataName, content)
                && forall j, other :: 0 <= j < |tags| && NamesIdentity(lib, tags[j], metadataName, other) ==> j == i
  }

  lemma ValueExactly(lib: Library, tag: string, metadataName: string, content: string)
    ensures NamesIdentity(lib, tag, metadataName, content) <==> content != "" && IdentityValue(lib, tag, metadataName) == content
  {
    hide Attributes, TrimSpace, Lower;
  }

  lemma {:induction false} NoValue(lib: Library, tags: seq<string>, metadataName: string)
    requires IdentityValues(lib, tags, metadataName) == []
    ensures forall j :: 0 <= j < |tags| ==> IdentityValue(lib, tags[j], metadataName) == ""
  {
    hide IdentityValue;
    if tags != [] {
      NoValue(lib, tags[..|tags| - 1], metadataName);
    }
  }

  lemma {:induction false} OneValue(lib: Library, tags: seq<string>, metadataName: string) returns (i: nat)
    requires |IdentityValues(lib, tags, metadataName)| == 1
    ensures i < |tags| && IdentityValue(lib, tags[i], metadataName) == IdentityValues(lib, tags, metadataName)[0] != ""
    ensures forall j :: 0 <= j < |tags| && j != i ==> IdentityValue(lib, tags[j], metadataName) == ""
  {
    hide IdentityValue;
    var n := |tags| - 1;
    if IdentityValue(lib, tags[n], metadataName) == "" {
      i := OneValue(lib, tags[..n], metadataName);
    } else {
      NoValue(lib, tags[..n], metadataName);
      i := n;
    }
  }

  lemma OneIdentity(lib: Library, tags: seq<string>, metadataName: string)
    requires |IdentityValues(lib, tags, metadataName)| == 1
    ensures OnlyIdentity(lib, tags, metadataName, IdentityValues(lib, tags, metadataName)[0])
  {
    hide IdentityValue, IdentityValues, NamesIdentity;
    var i := OneValue(lib, tags, metadataName);
    ValueExactly(lib, tags[i], metadataName, IdentityValues(lib, tags, metadataName)[0]);
    forall j, other | 0 <= j < |tags| && NamesIdentity(lib, tags[j], metadataName, other)
      ensures j == i
    {
      ValueExactly(lib, tags[j], metadataName, other);
    }
  }

  /**
   The page links to this bridge, and its one identity tag gives the issuer's URL, as it prints, and
   the subject, separated by white space and nothing else.
   */
  ghost predicate PageBinds(lib: Library, page: string, base: Url, allowHttp: bool, metadataName: string, publicUrl: string, issuer: string, subject: string) {
    hide *;
    && ByteLength(page) <= 256 * 1024
    && (exists tag :: tag in TagsIn(page, "link") && NamesBridge(lib, base, publicUrl, tag))
    && exists content, given ::
         && OnlyIdentity(lib, TagsIn(page, "meta"), metadataName, content) && Fields(content) == [given, subject]
         && lib.parse(given).Some? && SafeUrl(lib.parse(given).value, allowHttp) && issuer == lib.render(lib.parse(given).value)
         && TrimSpace(subject) != "" && ByteLength(subject) <= 512
  }

  lemma IdentityBinds(lib: Library, body: string, metadataName: string, allowHttp: bool)
    requires (hide *; IdentityMetadata(lib, body, metadataName, allowHttp).Ok?)
    ensures var (issuer, subject) := IdentityMetadata(lib, body, metadataName, allowHttp).value;
            exists content, given ::
              && OnlyIdentity(lib, TagsIn(body, "meta"), metadataName, content) && Fields(content) == [given, subject]
              && lib.parse(given).Some? && SafeUrl(lib.parse(given).value, allowHttp) && issuer == lib.render(lib.parse(given).value)
              && TrimSpace(subject) != "" && ByteLength(subject) <= 512
  {
    hide TagsIn, OnlyIdentity, Fields, ByteLength, IdentityValues, ValidateHttpsUrl, SafeUrl, TrimSpace;
    var found := IdentityValues(lib, TagsIn(body, "meta"), metadataName);
    OneIdentity(lib, TagsIn(body, "meta"), metadataName);
    var content := found[0];
    var parts := Fields(content);
    SafeExactly(lib, parts[0], allowHttp);
    assert parts == [parts[0], parts[1]];
  }

  /** What discovery binds a URL to, the page at that URL says. */
  lemma DiscoveredBinds(lib: Library, me: string, allowHttp: bool, metadataName: string, publicUrl: string, expectedIssuer: string, page: Option<string>)
    requires (hide *; DiscoverIdentity(lib, me, allowHttp, metadataName, publicUrl, expectedIssuer, page).Some?)
    ensures page.Some? && lib.parse(me).Some? && SafeUrl(lib.parse(me).value, allowHttp)
    ensures var b, given := DiscoverIdentity(lib, me, allowHttp, metadataName, publicUrl, expectedIssuer, page).value, lib.parse(me).value;
            PageBinds(lib, page.value, given.(fragment := "", path := if given.path == "" then "/" else given.path), allowHttp, metadataName, publicUrl,
                      expectedIssuer, b.subject)
  {
    hide TagsIn, NamesBridge, PageDelegates, IdentityMetadata, CanonicalUrl, ByteLength, OnlyIdentity, Fields, SafeUrl;
    SafeExactly(lib, me, allowHttp);
    var given := lib.parse(me).value;
    DelegationExactly(lib, page.value, given.(fragment := "", path := if given.path == "" then "/" else given.path), publicUrl);
    IdentityBinds(lib, page.value, metadataName, allowHttp);
  }

  // ---- The requested URL ------------------------------------------------------------------------

  /** The URL asked for: what was given, printed and in its canonical form. */
  ghost predicate AsksFor(lib: Library, raw: string, allowHttp: bool, me: string) {
    && lib.parse(raw).Some? && SafeUrl(lib.parse(raw).value, allowHttp)
    && var printed := lib.render(lib.parse(raw).value);
    && lib.parse(printed).Some?
    && var u := lib.parse(printed).value;
    && u.scheme != "" && (u.hostname != "" || u.port != "")
    && me == lib.render(Url(Lower(u.scheme), u.userinfo, Lower(u.hostname), u.port, if u.path == "" then "/" else u.path, u.query, ""))
  }

  lemma AskedExactly(cfg: Config, q: AuthorizeQuery, me: string)
    ensures RequestedMe(cfg, q) == Some(me) <==> AsksFor(cfg.lib, q.me, cfg.allowHttp, me)
  {
    hide SafeUrl, Lower, ValidateHttpsUrl;
    SafeExactly(cfg.lib, q.me, cfg.allowHttp);
  }

  // ---- All the checks of `/authorize` -----------------------------------------------------------

  ghost predicate QueryFits(cfg: Config, q: AuthorizeQuery, declared: Option<seq<string>>) {
    && (q.responseType == "" || q.responseType == "code") && q.state != "" && ScopeFits(q.scope)
    && (exists me :: AsksFor(cfg.lib, q.me, cfg.allowHttp, me))
    && cfg.lib.parse(q.clientId).Some? && SafeUrl(cfg.lib.parse(q.clientId).value, cfg.allowHttp)
    && RedirectFits(cfg.lib, q.clientId, q.redirectUri, cfg.allowHttp, declared) && ChallengeFits(cfg, q)
  }

  ghost predicate ProfileKnown(cfg: Config, db: Db, q: AuthorizeQuery) {
    && RequestedMe(cfg, q).Some?
    && var me := RequestedMe(cfg, q).value;
    && !ManagedProfileForMe(cfg, db, me).UnknownHandle?
    && (ProfileByMe(cfg, me).Some? || ManagedProfileForMe(cfg, db, me).OwnedBy? || cfg.dynamicEnabled)
  }

  /** The checks let these queries through, if the profile asked for is known, and refuse every other with 400. */
  lemma QueryExactly(cfg: Config, db: Db, q: AuthorizeQuery, fetched: Fetched)
    ensures (hide *; var fits := QueryFits(cfg, q, if cfg.clientDiscovery then fetched.declared else None);
            && (CheckAuthorize(cfg, db, q, fetched) == None ==> fits)
            && (fits && ProfileKnown(cfg, db, q) ==> CheckAuthorize(cfg, db, q, fetched) == None)
            && (CheckAuthorize(cfg, db, q, fetched).Some? ==> CheckAuthorize(cfg, db, q, fetched).value.status == 400))
  {
    hide RequestedMe, AsksFor, ManagedProfileForMe, ProfileByMe, ValidateHttpsUrl, SafeUrl, RedirectAccepted, RedirectFits, ChallengeAccepted, ChallengeFits,
      ScopeAllowed, ScopeFits;
    ScopeExactly(q.scope);
    SafeExactly(cfg.lib, q.clientId, cfg.allowHttp);
    RedirectExactly(cfg.lib, q.clientId, q.redirectUri, cfg.allowHttp, if cfg.clientDiscovery then fetched.declared else None);
    ChallengeExactly(cfg, q);
    if RequestedMe(cfg, q).Some? {
      AskedExactly(cfg, q, RequestedMe(cfg, q).value);
    }
    if me :| AsksFor(cfg.lib, q.me, cfg.allowHttp, me) {
      AskedExactly(cfg, q, me);
    }
  }

  // ---- The profile document ---------------------------------------------------------------------

  /** What the client is told: of a recorded owner the name, and the address if it is verified; of a configured profile what is configured. */
  predicate DocFits(row: AuthRequest, identity: Identity, doc: Option<ProfileDoc>) {
    if row.backendState.owner.None? then doc == row.profile
    else
      && doc.Some? && doc.value.url == row.me
      && doc.value.name == (if identity.name != "" then Some(identity.name) else None)
      && doc.value.email == (if identity.emailVerified && identity.email != "" then Some(identity.email) else None)
  }

  /** The document of a configured profile. */
  predicate ConfiguredDoc(p: ProfileConfig, doc: ProfileDoc) {
    && doc.url == p.me
    && doc.name == (if p.displayName != "" then Some(p.displayName) else None)
    && doc.email == (if p.email != "" then Some(p.email) else None)
  }

  /** The document of a stored profile: its name, if it has one, and no address. */
  function StoredDoc(me: string, row: ManagedProfile): ProfileDoc {
    ProfileDoc(me, if row.displayName != "" then Some(row.displayName) else None, None)
  }

  lemma ConfiguredExactly(p: ProfileConfig)
    ensures ConfiguredDoc(p, ProfileObject(p))
  {
  }

  // ---- Edits --------------------------------------------------------------------------------------

  /** No control characters, but for those in `allowed`. */
  ghost predicate NoControls(s: string, allowed: set<char>) {
    forall i :: 0 <= i < |s| ==> (0x20 <= s[i] as int < 0x7F || s[i] as int >= 0xA0) || s[i] in allowed
  }

  ghost predicate WebsiteFits(lib: Library, site: string) {
    site != "" ==>
      && lib.parse(site).Some?
      && var u := lib.parse(site).value;
      u.scheme == "https" && (u.hostname != "" || u.port != "") && !u.userinfo
  }

  /** A name of 1 to 80 characters, a text of up to 280 that may have line breaks and tabs, a web site or none, and one of five accents. */
  ghost predicate EditFits(cfg: Config, form: ProfileForm) {
    var name, bio, site, accent := TrimSpace(form.displayName), TrimSpace(form.bio), TrimSpace(form.websiteUrl), TrimSpace(form.accent);
    && 1 <= |name| <= 80 && NoControls(name, {}) && |bio| <= 280 && NoControls(bio, {'\n', '\r', '\t'})
    && WebsiteFits(cfg.lib, site)
    && (accent == "teal" || accent == "blue" || accent == "violet" || accent == "rose" || accent == "amber")
  }

  lemma EditExactly(cfg: Config, form: ProfileForm)
    ensures EditOk(cfg, form) <==> EditFits(cfg, form)
  {
    hide TrimSpace;
    WebsiteExactly(cfg, form.websiteUrl);
    TextExactly(TrimSpace(form.displayName), 80, false);
    TextExactly(TrimSpace(form.bio), 280, true);
    hide ValidText, NoControls, WebsiteOf, WebsiteFits;
  }

  lemma TextExactly(s: string, limit: int, multiline: bool)
    ensures ValidText(s, limit, multiline) <==> |s| <= limit && NoControls(s, if multiline then {'\n', '\r', '\t'} else {})
  {
  }

  lemma WebsiteExactly(cfg: Config, raw: string)
    ensures WebsiteOf(cfg, raw).Some? <==> WebsiteFits(cfg.lib, TrimSpace(raw))
    ensures var site := TrimSpace(raw);
            WebsiteOf(cfg, raw).Some? ==> WebsiteOf(cfg, raw).value == if site == "" then "" else cfg.lib.render(cfg.lib.parse(site).value)
  {
    hide TrimSpace;
  }

  // ---- Profile URLs and sealed values -----------------------------------------------------------------

  /** The URL is on the bridge's own origin, and its path is `/@` and one more segment, which normalizes to the handle. */
  ghost predicate AsksForHandle(cfg: Config, me: string, handle: string) {
    && cfg.lib.parse(me).Some? && cfg.lib.parse(cfg.publicUrl).Some?
    && var u, bridge := cfg.lib.parse(me).value, cfg.lib.parse(cfg.publicUrl).value;
    && SafeUrl(u, true) && SafeUrl(bridge, true) && SamePlace(u, bridge)
    && exists segment :: u.path == "/@" + segment && '/' !in segment && Handles.Normalize(cfg.lib, segment) == handle
  }

  lemma HandleExactly(cfg: Config, me: string, handle: string)
    requires handle != "" && (cfg.lib.parse(me).Some? ==> SafeUrl(cfg.lib.parse(me).value, true))
    requires cfg.lib.parse(cfg.publicUrl).Some? ==> SafeUrl(cfg.lib.parse(cfg.publicUrl).value, true)
    ensures HandleInUrl(cfg, me) == handle <==> AsksForHandle(cfg, me, handle)
  {
    hide Lower;
    if cfg.lib.parse(me).Some? && cfg.lib.parse(cfg.publicUrl).Some? {
      var u := cfg.lib.parse(me).value;
      SplitPath(u.path);
    }
  }

  lemma SplitPath(path: string)
    ensures "/@" <= path ==> path == "/@" + path[2..]
    ensures forall segment :: path == "/@" + segment ==> "/@" <= path && segment == path[2..]
  {
  }

  /** A tester cookie opens for its lifetime, in whole seconds, and gives its state. */
  lemma TesterOpens(cfg: Config, vault: map<string, Payload>, v: string, target: Target, state: string, verifier: string, at: int, now: int)
    requires v in vault && vault[v] == TesterPayload(cfg, target, state, verifier, at)
    ensures OpenTester(vault, v, now) == if state != "" && now / SECOND <= (at + cfg.requestTtl) / SECOND then Some(state) else None
  {
  }

  /** A setup credential opens for its lifetime, in whole seconds, and gives its owner. */
  lemma CredentialOpens(cfg: Config, vault: map<string, Payload>, v: string, owner: Owner, at: int, now: int)
    requires v in vault && vault[v] == SetupPayload(cfg, owner, at)
    ensures OpenSetup(vault, v, now)
            == if owner.issuer != "" && owner.subject != "" && now / SECOND <= (at + cfg.requestTtl) / SECOND then Some(owner) else None
  {
  }
}
