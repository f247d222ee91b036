/**
 The functions of the source's libraries whose insides are not modelled, and
 the URL and PKCE checks built on them.
 */
module Library {
  import opened Prelude
  import opened Text

  /** Letters, digits, `-` and `_`: the URL-safe base64 alphabet of RFC 4648 section 5. */
  predicate IsBase64Url(c: char) {
    'A' <= c <= 'Z' || 'a' <= c <= 'z' || '0' <= c <= '9' || c == '-' || c == '_'
  }

  /** Thirty-two bytes in unpadded base64url. */
  type Digest = s: string | |s| == 43 && forall i :: 0 <= i < |s| ==> IsBase64Url(s[i])
    witness seq(43, i => 'A')

  predicate IsHex(c: char) {
    '0' <= c <= '9' || 'a' <= c <= 'f'
  }

  /** Four bytes in lower-case hexadecimal. */
  type Tag = s: string | |s| == 8 && forall i :: 0 <= i < |s| ==> IsHex(s[i])
    witness seq(8, i => '0')

  datatype Url = Url(scheme: string, userinfo: bool, hostname: string, port: string,
                     path: string, query: string, fragment: string)
  {
    predicate IsAbs() {
      scheme != ""
    }

    predicate NoHost() {
      hostname == "" && port == ""
    }
  }

  /**
   `digest` is base64url over SHA-256 and `tag` the first four bytes of SHA-256 over issuer and
   subject in hexadecimal. `lower` and `wordish` are the Unicode lower-case mapping and the union
   of the letter and number classes.
   */
  datatype Library = Library(
    digest: string -> Digest,
    tag: (string, string) -> Tag,
    lower: char -> char,
    wordish: char -> bool,
    parse: string -> Option<Url>,
    render: Url -> string,
    resolve: (Url, Url) -> Url,
    unescape: string -> string)

  // ---- Secrets --------------------------------------------------------------

  /** A token as it is kept at rest. */
  function HashToken(lib: Library, token: string): string {
    lib.digest(token)
  }

  /** RFC 7636 section 4.6, method S256. */
  predicate VerifyPKCES256(lib: Library, verifier: string, challenge: string) {
    verifier != "" && challenge != "" && lib.digest(verifier) == challenge
  }

  predicate IsChallengeChar(c: char) {
    'A' <= c <= 'Z' || 'a' <= c <= 'z' || '0' <= c <= '9' || c == '-' || c == '.' || c == '_' || c == '~'
  }

  ghost predicate WellFormedChallenge(challenge: string, codeMethod: string) {
    && codeMethod == "S256"
    && 43 <= |challenge| <= 128
    && forall i :: 0 <= i < |challenge| ==> IsChallengeChar(challenge[i])
  }

  method ValidateCodeChallenge(challenge: string, codeMethod: string) returns (ok: bool)
    ensures ok <==> WellFormedChallenge(challenge, codeMethod)
  {
    if challenge == "" || codeMethod != "S256" || |challenge| < 43 || |challenge| > 128 {
      return false;
    }
    for i := 0 to |challenge|
      invariant forall k :: 0 <= k < i ==> IsChallengeChar(challenge[k])
    {
      if !IsChallengeChar(challenge[i]) {
        return false;
      }
    }
    return true;
  }

  /** The challenge an honest client derives from its verifier is well formed and verifies. */
  lemma HonestChallenge(lib: Library, verifier: string)
    requires verifier != ""
    ensures WellFormedChallenge(lib.digest(verifier), "S256")
    ensures VerifyPKCES256(lib, verifier, lib.digest(verifier))
  {
    var d: Digest := lib.digest(verifier);
    forall i | 0 <= i < |d|
      ensures IsChallengeChar(d[i])
    {
      assert IsBase64Url(d[i]);
    }
  }

  // ---- URLs -------------------------------------------------------------------

  predicate HostCharsOk(hostname: string) {
    forall i :: 0 <= i < |hostname| ==> hostname[i] !in " \t\r\n"
  }

  function ValidateHttpsUrl(lib: Library, raw: string, allowHttp: bool): Option<Url> {
    match lib.parse(raw)
    case None => None
    case Some(u) =>
      if u.scheme == "" || u.NoHost() || u.userinfo then None
      else if u.scheme != "https" && !(u.scheme == "http" && allowHttp) then None
      else if u.hostname == "" || !HostCharsOk(u.hostname) then None
      else Some(u)
  }

  function Canonical(u: Url): Url {
    u.(scheme := Lower(u.scheme), hostname := Lower(u.hostname), fragment := "",
       path := if u.path == "" then "/" else u.path)
  }

  function CanonicalUrl(lib: Library, raw: string): Option<string> {
    match lib.parse(raw)
    case None => None
    case Some(u) => if u.scheme == "" || u.NoHost() then None else Some(lib.render(Canonical(u)))
  }

  function EffectivePort(u: Url): string {
    if u.port != "" then u.port
    else if u.scheme == "https" then "443"
    else if u.scheme == "http" then "80"
    else ""
  }

  predicate SameOrigin(a: Url, b: Url) {
    EqualFold(a.scheme, b.scheme) && EqualFold(a.hostname, b.hostname) && EqualFold(EffectivePort(a), EffectivePort(b))
  }

  predicate RedirectOnClientOrigin(lib: Library, clientId: string, redirectUri: string, allowHttp: bool) {
    var client := ValidateHttpsUrl(lib, clientId, allowHttp);
    var redirect := ValidateHttpsUrl(lib, redirectUri, allowHttp);
    client.Some? && redirect.Some? && redirect.value.fragment == "" && SameOrigin(client.value, redirect.value)
  }

  function NormalizedRedirect(lib: Library, raw: string, allowHttp: bool): Option<string> {
    var u := ValidateHttpsUrl(lib, raw, allowHttp);
    if u.None? || u.value.fragment != "" then None else Some(lib.render(u.value))
  }

  /**
   `declared` holds the redirect URIs found at the client's own page, or nothing when discovery
   is off or the page could not be used.
   */
  predicate RedirectAccepted(lib: Library, clientId: string, redirectUri: string, allowHttp: bool, declared: Option<seq<string>>) {
    || RedirectOnClientOrigin(lib, clientId, redirectUri, allowHttp)
    || (declared.Some? && NormalizedRedirect(lib, redirectUri, allowHttp).Some?
        && exists i :: 0 <= i < |declared.value|
             && NormalizedRedirect(lib, declared.value[i], allowHttp) == NormalizedRedirect(lib, redirectUri, allowHttp))
  }

  method ValidateClientRedirect(lib: Library, clientId: string, redirectUri: string, allowHttp: bool, declared: Option<seq<string>>)
    returns (ok: bool)
    ensures ok <==> RedirectAccepted(lib, clientId, redirectUri, allowHttp, declared)
  {
    if RedirectOnClientOrigin(lib, clientId, redirectUri, allowHttp) {
      return true;
    }
    if declared.None? {
      return false;
    }
    var requested := NormalizedRedirect(lib, redirectUri, allowHttp);
    if requested.None? {
      return false;
    }
    for i := 0 to |declared.value|
      invariant forall k :: 0 <= k < i ==> NormalizedRedirect(lib, declared.value[k], allowHttp) != requested
    {
      if NormalizedRedirect(lib, declared.value[i], allowHttp) == requested {
        return true;
      }
    }
    return false;
  }

  /** Parsing and printing `s` gives `s` back. */
  predicate NormalForm(lib: Library, s: string) {
    var u := lib.parse(s);
    u.Some? && lib.render(u.value) == s
  }
}
