/**
 A small bridge of which everything is known: one configured profile, one
 backend, libraries that do next to nothing. From its initial state the runs
 of `Witness` are runs that happen.
 */
module Example {
  import opened Prelude
  import opened Text
  import opened Library
  import opened Config
  import opened Tables
  import opened Handlers
  import opened Runs
  import opened Invariant
  import opened Preservation
  import opened Traces
  import opened Provenance
  import opened Service
  import opened Overlap
  import opened HonestVisits
  import opened Witness

  // ---- The bridge -------------------------------------------------------------------------

  /** One letter, spelt out; every other text counts as `A`. */
  function Spelt(s: string): Digest {
    if |s| == 1 && IsBase64Url(s[0]) then seq(43, _ => s[0]) else seq(43, _ => 'A')
  }

  function SameTag(issuer: string, subject: string): Tag {
    seq(8, _ => '0')
  }

  /** A URL is its host. */
  const LIB: Library := Library(Spelt, SameTag, c => c, c => 'a' <= c <= 'z', s => Some(Url("https", false, s, "", "/", "", "")),
                                (u: Url) => u.hostname, (base: Url, u: Url) => u, s => s)

  function Sample(consentRequired: bool): Config {
    Config(LIB, "bridge", "bridge", false, 10 * MINUTE, 10 * MINUTE, 60 * MINUTE, true, consentRequired, true, false, "", "m", false, "",
           [ProfileConfig("me", "", "", "idp", ["sub"], [], [], [])], map["idp" := "https://idp"])
  }

  const PERSON: Identity := Identity("sub", "", "", false, "", "", [])

  const GUEST: Guest :=
    Guest(AuthorizeQuery("code", "x", "", "me", "client", "client", Spelt("v"), "S256"), Fetched(None, None), "v",
          SignIn("me", "idp", ProfileDoc("me", None, None), Static, None), "idp", CallbackQuery(Draw(1).b, "", "c"), IdToken(Draw(1).c, PERSON))

  lemma SampleIsCanonical(consentRequired: bool)
    ensures CanonicalLaw(Sample(consentRequired).lib)
  {
    assert Lower("https") == "https";
  }

  // ---- Its secrets ---------------------------------------------------------------------------

  function Letter(n: nat): string
    requires n < 0x200
  {
    [n as char]
  }

  /** The `i`th draw: a small letter, a capital and a letter beyond ASCII. The provider always vouches for the same person. */
  function Draw(i: nat): Choice
    requires i < 26
  {
    Choice(Letter(97 + i), Letter(65 + i), Letter(0x100 + i), true, "idp", Some(IdToken(Letter(0x101), PERSON)))
  }

  function Draws(): (draws: seq<Choice>)
    ensures |draws| == 12 && forall i :: 0 <= i < 12 ==> draws[i] == Draw(i)
  {
    seq(12, i requires 0 <= i < 12 => Draw(i))
  }

  predicate Older(s: string, n: nat) {
    |s| == 1 && (97 <= s[0] as int < 97 + n || 65 <= s[0] as int < 65 + n || 0x100 <= s[0] as int < 0x100 + n)
  }

  predicate OlderDigest(s: string, n: nat) {
    |s| == 43 && 97 <= s[0] as int < 97 + n
  }

  /** The draws take the letters in order. */
  predicate InLetters(draws: seq<Choice>) {
    |draws| <= 26
    && forall i :: 0 <= i < |draws| ==> draws[i].a == Letter(97 + i) && draws[i].b == Letter(65 + i) && draws[i].c == Letter(0x100 + i)
  }

  lemma {:induction false} DrawsFresh(cfg: Config, issued: set<string>, digests: set<string>, draws: seq<Choice>, n: nat)
    requires cfg.lib == LIB && InLetters(draws) && n <= |draws|
    requires (forall s :: s in issued ==> Older(s, n)) && (forall d :: d in digests ==> OlderDigest(d, n))
    ensures AllFresh(cfg, issued, digests, draws[n..])
    decreases |draws| - n
  {
    if n < |draws| {
      var ch := draws[n];
      assert draws[n..][0] == ch && draws[n..][1..] == draws[n + 1..];
      DrawsFresh(cfg, issued + {ch.a, ch.b, ch.c}, digests + {HashToken(cfg.lib, ch.a)}, draws, n + 1);
    }
  }

  // ---- It starts ---------------------------------------------------------------------------------

  const BEGINNING: Sys :=
    Sys(0, Shared(EMPTY, map[]), map[], {}, {}, History(map[], map[], map[], map[], map[], map[], {}, map[], map[], []))

  lemma IdleAtFirst(cfg: Config, draws: seq<Choice>)
    requires cfg.lib == LIB && InLetters(draws)
    ensures Idle(cfg, [BEGINNING], [], draws)
  {
    hide Advance, Step;
    EmptyRun(cfg, BEGINNING);
    DrawsFresh(cfg, {}, {}, draws, 0);
    assert draws[0..] == draws;
    hide IsRun, AllFresh;
  }

  lemma SampleIdle(consentRequired: bool)
    ensures Idle(Sample(consentRequired), [BEGINNING], [], Draws())
  {
    hide Idle;
    IdleAtFirst(Sample(consentRequired), Draws());
  }

  lemma SampleWelcome(consentRequired: bool, db: Db)
    ensures Welcome(Sample(consentRequired), db, GUEST)
  {
    var cfg := Sample(consentRequired);
    assert Lower("me") == "me";
    assert RequestedMe(cfg, GUEST.query) == Some("me");
    assert ProfileByMe(cfg, "me") == Some(cfg.profiles[0]);
    assert HostCharsOk("client");
    assert Fields("") == [];
  }

  lemma SampleFits(consentRequired: bool)
    ensures FitsDraws(Sample(consentRequired), GUEST, 0, Draws())
  {
    hide Advance, Step;
    var cfg := Sample(consentRequired);
    assert Lower("me") == "me";
    assert ProfileByMe(cfg, "me") == Some(cfg.profiles[0]);
    assert SubjectMatches(cfg.profiles[0].allowedSubjects[0], PERSON);
  }

  lemma SampleLifetime(consentRequired: bool)
    ensures Sample(consentRequired).tokenTtl == 60 * MINUTE
  {
  }

  /** A sign-in that happens: a token is granted, and reported active. */
  lemma SignInHappens(consentRequired: bool) returns (states: seq<Sys>, events: seq<Event>, i: nat, j: nat, doc: Option<ProfileDoc>)
    ensures var cfg := Sample(consentRequired);
            && IsRun(cfg, states, events) && i < j
            && AnswersAt(cfg, states, events, i, Some(TokenGranted("k", "", "me", doc)))
            && AnswersAt(cfg, states, events, j, Some(TokenActive("client", "", "me", Unix(60 * MINUTE), 0, doc)))
  {
    hide IsRun, Idle, Welcome, FitsDraws, Sample, AnswersAt, Advance, Step;
    SampleIdle(consentRequired);
    SampleWelcome(consentRequired, EMPTY);
    SampleFits(consentRequired);
    assert Draws()[10].a == "k";
    states, events, i, j, doc := SignInServed(Sample(consentRequired), [BEGINNING], [], GUEST, Draws());
    SampleLifetime(consentRequired);
  }

  lemma GuestComesBack(consentRequired: bool)
    ensures (hide *; HonestLogin(Sample(consentRequired), StoredRequest(Sample(consentRequired), GUEST.query, GUEST.signIn, 0, Draw(1)), GUEST.backend,
                        GUEST.callback, GUEST.login))
    ensures StoredRequest(Sample(consentRequired), GUEST.query, GUEST.signIn, 0, Draw(1)).expiresAt > 0
  {
    hide HonestLogin;
    SampleFits(consentRequired);
    Truncation(0, 10 * MINUTE);
  }

  /**
   Two callbacks of one sign-in, with one state and different codes of the provider, with consent
   required and without: two consents, or two codes, of one authorization request.
   */
  lemma CallbackOverlapHappens(consentRequired: bool) returns (states: seq<Sys>, events: seq<Event>, id: string)
    ensures (hide *; IsRun(Sample(consentRequired), states, events)) && |states| == |events| + 1
    ensures MoreThanOne(states[|events|].hist, id)
    ensures Overlaps(Sample(consentRequired), states, events, |events|, OfRequest(id))
    ensures ProviderCodes(events) == ["c", "d"]
  {
    hide IsRun, Idle, Welcome, Sample, HonestLogin, Overlaps, MoreThanOne, Inv, GainedTwice, StoredRequest, Advance, Step;
    var cfg := Sample(consentRequired);
    SampleIdle(consentRequired);
    SampleWelcome(consentRequired, EMPTY);
    GuestComesBack(consentRequired);
    assert Draws() == Draws()[..2] + Draws()[2..] && Draws()[2..] == Draws()[2..8] + Draws()[8..];
    states, events := ServeAuthorize(cfg, [BEGINNING], [], GUEST, Draws()[..2], Draws()[2..]);
    var row := StoredRequest(cfg, GUEST.query, GUEST.signIn, 0, Draw(1));
    IdleFirst(cfg, states, events, Draws()[2..8], Draws()[8..]);
    RowBackend(consentRequired);
    states, events := TwoCallbacks(cfg, states, events, GUEST, row, "d", Draws()[2..8]);
    id := row.id;
    RunKeepsInv(cfg, states, events, |events|);
    TwiceIsMore(cfg, states[|events|], OfRequest(id), id);
  }

  lemma RowBackend(consentRequired: bool)
    ensures StoredRequest(Sample(consentRequired), GUEST.query, GUEST.signIn, 0, Draw(1)).backend == "idp"
  {
  }

  lemma IdleFirst(cfg: Config, states: seq<Sys>, events: seq<Event>, draws: seq<Choice>, rest: seq<Choice>)
    requires Idle(cfg, states, events, draws + rest)
    ensures Idle(cfg, states, events, draws)
  {
    hide IsRun, AllFresh;
    FirstFresh(cfg, states[|events|].issued, states[|events|].digests, draws, rest);
  }

  /** The consent page of one sign-in sent twice: two codes of one authorization request, with one callback. */
  lemma ApprovalOverlapHappens() returns (states: seq<Sys>, events: seq<Event>, id: string, consent: string)
    ensures (hide *; IsRun(Sample(true), states, events)) && |states| == |events| + 1
    ensures MoreThanOne(states[|events|].hist, id)
    ensures ConsentOf(states[|events|].hist, consent, id) && Overlaps(Sample(true), states, events, |events|, OfConsent(consent))
  {
    hide IsRun, Idle, Welcome, HonestLogin, Overlaps, MoreThanOne, Inv, GainedTwice, StoredRequest, StoredConsent, Advance, Step;
    var cfg := Sample(true);
    SampleIdle(true);
    SampleWelcome(true, EMPTY);
    GuestComesBack(true);
    assert Draws() == Draws()[..2] + Draws()[2..] && Draws()[2..] == Draws()[2..6] + Draws()[6..] && Draws()[6..] == Draws()[6..10] + Draws()[10..];
    states, events := ServeAuthorize(cfg, [BEGINNING], [], GUEST, Draws()[..2], Draws()[2..]);
    var request := StoredRequest(cfg, GUEST.query, GUEST.signIn, 0, Draw(1));
    RowBackend(true);
    var reply;
    states, events, reply := ServeCallback(cfg, states, events, GUEST, request, Draws()[2..6], Draws()[6..]);
    IdleFirst(cfg, states, events, Draws()[6..10], Draws()[10..]);
    var row := StoredConsent(cfg, request, PERSON, 0, Draw(4));
    ConsentLastsHere(request);
    states, events := TwoApprovals(cfg, states, events, row, Draws()[6..10]);
    RunKeepsInv(cfg, states, events, |events|);
    ConsentSpentTwice(cfg, states[|events|], row.id);
    consent, id := row.id, states[|events|].hist.consents[row.id].requestId;
    TwiceIsMore(cfg, states[|events|], OfConsent(consent), id);
  }

  lemma ConsentLastsHere(request: AuthRequest)
    ensures var row := StoredConsent(Sample(true), request, PERSON, 0, Draw(4)); row.id == Draw(4).a && row.expiresAt > 0
  {
    Truncation(0, 10 * MINUTE);
  }

  /** A consent that gained something was stored. */
  lemma ConsentSpentTwice(cfg: Config, s: Sys, id: string)
    requires Inv(cfg, s) && GainedTwice(s.hist, OfConsent(id))
    ensures id in s.hist.consents
  {
    hide Inv, LoginOk;
    var g: Gain :| Gained(s.hist, OfConsent(id), g);
    CodeKnown(cfg, s, g.hash);
  }
}
