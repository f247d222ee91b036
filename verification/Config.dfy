/** The validated configuration, upstream identities, and who may sign in as which profile. */
module Config {
  import opened Prelude
  import opened Text
  import opened Library

  /** What the identity provider says about a person who signed in. */
  datatype Identity = Identity(subject: string, username: string, email: string, emailVerified: bool,
                               name: string, preferredUsername: string, groups: seq<string>)

  datatype ProfileConfig = ProfileConfig(me: string, displayName: string, email: string, backend: string,
                                         allowedSubjects: seq<string>, allowedUsernames: seq<string>,
                                         allowedEmails: seq<string>, allowedGroups: seq<string>)

  /** `backends` gives each backend's issuer; `lib` stands for the source's libraries. */
  datatype Config = Config(
    lib: Library,
    publicUrl: string,
    issuer: string,
    allowHttp: bool,
    requestTtl: int,
    codeTtl: int,
    tokenTtl: int,
    requirePkce: bool,
    consentRequired: bool,
    clientDiscovery: bool,
    dynamicEnabled: bool,
    dynamicBackend: string,
    metadataName: string,
    managedEnabled: bool,
    managedBackend: string,
    profiles: seq<ProfileConfig>,
    backends: map<string, string>)
  {
    /** The issuer of a backend, empty for one that is not configured. */
    function IssuerOf(backend: string): string {
      if backend in backends then backends[backend] else ""
    }
  }

  // ---- Profiles -----------------------------------------------------------------

  /** The first configured profile with this canonical URL. */
  function FindProfile(profiles: seq<ProfileConfig>, me: string): (r: Option<ProfileConfig>)
    ensures r.Some? ==> r.value in profiles && r.value.me == me
    ensures r.None? ==> forall p :: p in profiles ==> p.me != me
  {
    if profiles == [] then None
    else if profiles[0].me == me then Some(profiles[0])
    else FindProfile(profiles[1..], me)
  }

  function ProfileByMe(cfg: Config, me: string): Option<ProfileConfig> {
    match CanonicalUrl(cfg.lib, me)
    case None => None
    case Some(canonical) => FindProfile(cfg.profiles, canonical)
  }

  /** The profile document handed to clients; absent names and addresses are left out of it. */
  datatype ProfileDoc = ProfileDoc(url: string, name: Option<string>, email: Option<string>)

  function NonEmpty(s: string): Option<string> {
    if s == "" then None else Some(s)
  }

  function ProfileObject(p: ProfileConfig): ProfileDoc {
    ProfileDoc(p.me, NonEmpty(p.displayName), NonEmpty(p.email))
  }

  /** The document of a profile that is not configured: an address only when the provider verified it. */
  function DynamicProfile(me: string, identity: Identity): ProfileDoc {
    ProfileDoc(me, NonEmpty(identity.name), if identity.emailVerified then NonEmpty(identity.email) else None)
  }

  // ---- Who may sign in ------------------------------------------------------------

  predicate SubjectMatches(allowed: string, identity: Identity) {
    allowed != "" && allowed == identity.subject
  }

  predicate UsernameMatches(allowed: string, identity: Identity) {
    allowed != "" && (EqualFold(allowed, identity.username) || EqualFold(allowed, identity.preferredUsername))
  }

  predicate EmailMatches(allowed: string, identity: Identity) {
    allowed != "" && EqualFold(allowed, identity.email)
  }

  predicate GroupMatches(allowed: string, identity: Identity) {
    allowed != "" && allowed in identity.groups
  }

  /** A selector of the profile names this identity. */
  ghost predicate IdentityAllowed(p: ProfileConfig, identity: Identity) {
    || (exists i :: 0 <= i < |p.allowedSubjects| && SubjectMatches(p.allowedSubjects[i], identity))
    || (exists i :: 0 <= i < |p.allowedUsernames| && UsernameMatches(p.allowedUsernames[i], identity))
    || (exists i :: 0 <= i < |p.allowedEmails| && EmailMatches(p.allowedEmails[i], identity))
    || (exists i :: 0 <= i < |p.allowedGroups| && GroupMatches(p.allowedGroups[i], identity))
  }

  method AllowsIdentity(p: ProfileConfig, identity: Identity) returns (r: bool)
    ensures r == IdentityAllowed(p, identity)
  {
    for i := 0 to |p.allowedSubjects|
      invariant forall k :: 0 <= k < i ==> !SubjectMatches(p.allowedSubjects[k], identity)
    {
      if p.allowedSubjects[i] != "" && p.allowedSubjects[i] == identity.subject {
        assert SubjectMatches(p.allowedSubjects[i], identity);
        return true;
      }
    }
    for i := 0 to |p.allowedUsernames|
      invariant forall k :: 0 <= k < i ==> !UsernameMatches(p.allowedUsernames[k], identity)
    {
      var username := p.allowedUsernames[i];
      if username == "" {
        continue;
      }
      if EqualFold(username, identity.username) || EqualFold(username, identity.preferredUsername) {
        assert UsernameMatches(username, identity);
        return true;
      }
    }
    for i := 0 to |p.allowedEmails|
      invariant forall k :: 0 <= k < i ==> !EmailMatches(p.allowedEmails[k], identity)
    {
      if p.allowedEmails[i] != "" && EqualFold(p.allowedEmails[i], identity.email) {
        assert EmailMatches(p.allowedEmails[i], identity);
        return true;
      }
    }
    for i := 0 to |p.allowedGroups|
      invariant forall k :: 0 <= k < i ==> !GroupMatches(p.allowedGroups[k], identity)
    {
      for j := 0 to |identity.groups|
        invariant forall k :: 0 <= k < j ==> p.allowedGroups[i] == "" || p.allowedGroups[i] != identity.groups[k]
      {
        if p.allowedGroups[i] != "" && p.allowedGroups[i] == identity.groups[j] {
          assert GroupMatches(p.allowedGroups[i], identity);
          return true;
        }
      }
    }
    return false;
  }

  // ---- Scopes -----------------------------------------------------------------------

  predicate SupportedScope(item: string) {
    item == "profile" || item == "email"
  }

  ghost predicate ScopeAllowed(scope: string) {
    forall i :: 0 <= i < |Fields(scope)| ==> SupportedScope(Fields(scope)[i])
  }

  method AllowsScope(scope: string) returns (r: bool)
    ensures r == ScopeAllowed(scope)
  {
    if scope == "" {
      return true;
    }
    hide Fields;
    var items, supported := Fields(scope), ["profile", "email"];
    for i := 0 to |items|
      invariant forall k :: 0 <= k < i ==> SupportedScope(items[k])
    {
      var found := false;
      for j := 0 to |supported|
        invariant found <==> items[i] in supported[..j]
      {
        if items[i] == supported[j] {
          found := true;
          break;
        }
      }
      if !found {
        assert supported[..2] == supported;
        return false;
      }
    }
    return true;
  }

  // ---- Validation ---------------------------------------------------------------------

  /** No two configured profiles have the same URL, and each can be matched by some identity. */
  ghost predicate ProfilesDistinct(profiles: seq<ProfileConfig>) {
    forall i, j :: 0 <= i < j < |profiles| ==> profiles[i].me != profiles[j].me
  }

  predicate HasSelector(p: ProfileConfig) {
    p.allowedSubjects != [] || p.allowedUsernames != [] || p.allowedEmails != [] || p.allowedGroups != []
  }

  predicate ProfileComplete(p: ProfileConfig) {
    p.backend != "" && HasSelector(p)
  }

  /** Every profile with its URL replaced by the canonical form, when all of them have one. */
  ghost predicate Canonicalised(lib: Library, given: seq<ProfileConfig>, result: seq<ProfileConfig>) {
    && |result| == |given|
    && forall i :: 0 <= i < |given| ==> CanonicalUrl(lib, given[i].me).Some?
                                        && result[i] == given[i].(me := CanonicalUrl(lib, given[i].me).value)
  }

  /** With distinct canonical URLs, looking a profile up by its own URL finds that very profile. */
  lemma {:induction false} ProfileFound(profiles: seq<ProfileConfig>, i: nat)
    requires ProfilesDistinct(profiles) && i < |profiles|
    ensures FindProfile(profiles, profiles[i].me) == Some(profiles[i])
  {
    if i > 0 {
      ProfileFound(profiles[1..], i - 1);
    }
  }

  /**
   The profile part of validation: canonical URLs in place, rejecting a URL without a canonical
   form, a URL seen before, and a profile nobody could match. Each profile is then the one found
   under its own URL.
   */
  method ValidateProfiles(lib: Library, given: seq<ProfileConfig>) returns (r: Option<seq<ProfileConfig>>)
    ensures r.Some? ==> Canonicalised(lib, given, r.value) && ProfilesDistinct(r.value)
                        && forall k :: 0 <= k < |r.value| ==>
                             ProfileComplete(r.value[k]) && FindProfile(r.value, r.value[k].me) == Some(r.value[k])
    ensures r.None? ==> forall result :: Canonicalised(lib, given, result) ==>
                          !(ProfilesDistinct(result) && forall k :: 0 <= k < |result| ==> ProfileComplete(result[k]))
  {
    var profiles, seen: map<string, nat> := given, map[];
    for i := 0 to |given|
      invariant |profiles| == |given|
      invariant forall k :: i <= k < |given| ==> profiles[k] == given[k]
      invariant forall k :: 0 <= k < i ==> CanonicalUrl(lib, given[k].me).Some?
                                           && profiles[k] == given[k].(me := CanonicalUrl(lib, given[k].me).value)
      invariant forall k :: 0 <= k < i ==> profiles[k].me in seen && seen[profiles[k].me] == k && ProfileComplete(profiles[k])
      invariant forall me :: me in seen ==> seen[me] < i && profiles[seen[me]].me == me
    {
      var me := CanonicalUrl(lib, profiles[i].me);
      if me.None? {
        return None;
      }
      profiles := profiles[i := profiles[i].(me := me.value)];
      if me.value in seen {
        ghost var first := seen[me.value];
        forall result: seq<ProfileConfig> | Canonicalised(lib, given, result)
          ensures !ProfilesDistinct(result)
        {
          assert result[first].me == result[i].me;
        }
        return None;
      }
      seen := seen[me.value := i];
      if profiles[i].backend == "" || !HasSelector(profiles[i]) {
        forall result: seq<ProfileConfig> | Canonicalised(lib, given, result)
          ensures !ProfileComplete(result[i])
        {
          assert result[i] == profiles[i];
        }
        return None;
      }
    }
    forall k | 0 <= k < |profiles|
      ensures FindProfile(profiles, profiles[k].me) == Some(profiles[k])
    {
      ProfileFound(profiles, k);
    }
    return Some(profiles);
  }
}
