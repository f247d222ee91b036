# Verification of the IndieAuth bridge

A Dafny model of the bridge's sign-in protocol and of the parts it leans on, with proofs of what
they promise. `dafny verify dfyconfig.toml` checks everything.

The centre is the authorization run over the store: `/authorize`, the provider's callback, `/consent`,
`/token` or `POST /authorize`, `/introspect` and `/revoke`, with the setup login, profile edits and the
periodic cleanup beside it. It is modelled twice.

* As a transition system. A request in flight is a `Handlers.Proc`, cut at its store calls; one step
  (`Handlers.Advance`) runs it up to and including its next store call. `Runs` lets any number of requests
  take steps in any order, with clock ticks and the four deletes of the cleanup anywhere between them, and
  records a history that only observes. One connection and one transaction make each store call atomic
  (internal/storage/sqlite.go:33 and 242-287).
* As the imperative program. `Store.SQLite` holds the tables in fields that its methods update in place;
  `Server.Server` holds the handlers, written statement by statement. Each handler is proved to answer, and to
  leave tables and sealed values, exactly as its steps driven to their end (`Atomic.Drive`), and
  `Service.ServedIsRun` shows that any run goes on through a handler call as a run. So what is proved of all runs
  holds of the handlers, interleaved or not. The imperative code runs each handler alone; interleaving is `Runs`.

`Preservation.RunKeepsInv` keeps one invariant through every run; the theorems about runs rest on it.

| file | about |
|---|---|
| `Prelude`, `Text`, `Library` | instants in nanoseconds and their whole seconds; string functions; the libraries as a record of functions, URL checks, PKCE |
| `Config`, `Handles`, `Names`, `Discovery` | profiles and who may sign in; handles of managed profiles, and what handle a name becomes; the scanner for identity metadata |
| `Tables`, `Handlers`, `Runs` | statements of the store; handlers as steps; runs and their history |
| `Invariant`, `HistorySteps`, `Preservation`, `Traces` | the invariant, its proof, and reading a run backwards |
| `Checks`, `Refusals` | what each check amounts to, on the fields it looks at; what is turned away, in any run |
| `Provenance`, `OneUse`, `Introspection`, `AuditTrail` | where tokens come from; one-use codes; revocation and expiry; the audit trail |
| `ManagedProfiles`, `ProfileEdits`, `LostEdits` | handles and profile URLs; who may customize a profile; when an edit is lost |
| `Cleanup`, `Serial`, `Overlap`, `Lifetime` | the cleanup is invisible; uninterrupted handlers; when one request gives two codes; how long a sign-in can last |
| `Survival`, `HonestVisits`, `HonestRun` | what a run leaves alone; an honest sign-in succeeds |
| `Atomic`, `Store`, `Server`, `Service` | the imperative store and handlers, and their place in runs |
| `Witness`, `Example`, `SignInRun`, `LostEditRun` | runs that do happen, from any idle state and from the initial one |
| `RateLimiter`, `SetupFragments` | the token-bucket limiter; printing and reading back the setup fragments |

Conventions. An instant is an integer count of nanoseconds; a table keeps the whole second below it. Hashing is a
function that gives 43 base64url characters; it is not assumed injective, but secrets drawn at random do not collide
under it. Sealing is ideal: what opens was sealed before. The provider is an arbitrary value handed to the step that
asks it. Two laws of the URL library are hypotheses of the theorems that use them: the canonical form of a URL that
was parsed, with a scheme and a host, prints and parses to itself (`Invariant.CanonicalLaw`), and adding an `/@` path
to the public URL only sets its path (`ManagedProfiles.BareOrigin`). Three more are named where they are used:
`Handles.LowerLaw`, `SetupFragments.UnescapeLaw`, and `SetupFragments.BridgeUrl` and `AuthorizeUrl`. A `hide` at the head of a
contract keeps definitions out of the check that the contract is well formed; it changes nothing of what is stated.

Four claims one might expect hold only under a condition, which is proved to be the exact one.

* The trimmed limiter agrees with private buckets if and only if a bucket fills within ten minutes and a nanosecond,
  the shortest time after which it can be trimmed (`RateLimiter.RefinementExact`, with the input in
  `RateLimiter.LargeBurstDisagrees`). A burst of ten minutes' worth of requests always does, and at fewer than
  60,000,000,000 requests a minute no larger one does (`RateLimiter.TenMinutesWorth`).
* A cleanup shows in a lookup of an authorization request if and only if the lookup comes at the very instant the
  request expires (`Cleanup.CleanupSeenAtExpiry`).
* One authorization request gives at most one consent, one code and one token, unless requests overlap on its row: it
  gives more than one consent or code if and only if two good callbacks, or two approvals of a consent of its own, use
  it and the second of them looks it up while the first still has it in hand (`Overlap.OverlapExact`). The deletes are
  deferred to the end of the handlers, so a consent page sent twice is enough (`Example.ApprovalOverlapHappens`), and
  so are two logins under one state, each with a code of its own from the provider (`Example.CallbackOverlapHappens`).
* A customized profile changes only by an edit of its holder, unless a setup login of the holder looked it up before
  such an edit and renames it after (`LostEdits.LostExactly`); the edit is then lost (`LostEditRun.EditLostHappens`).

## Model

| member | source | states |
|---|---|---|
| Provenance.TokenProvenance | internal/http/server.go:1067-1140 | Every token granted at `/token`, in every run: an earlier `/authorize` request passed its checks, the redirect URI being the client's own or one its page declared and the profile resolved from the tables and the fetched page, and sent the browser off with a new state and nonce; the callback brought that state and a provider token with that nonce for an identity the profile admits; with consent required, and only then, an approval brought back the id and anti-forgery token of that very consent; the code then sent to the original redirect URI was presented by this token request, with the original client and redirect URI and a non-empty verifier whose S256 digest is the original challenge; scope, profile URL and profile document are the ones fixed on that trail, an address of a recorded owner only if the provider verified it |
| Provenance.AnswerProvenance | internal/http/server.go:1142-1182 | The same trail behind every profile answered at `POST /authorize` |
| Provenance.TokenNeedsPkce | internal/http/server.go:637-648 | With PKCE required, the `/authorize` request behind any token gave a challenge of 43 to 128 unreserved characters under S256, and the exchange's verifier has it as its digest, so a legacy sign-in never yields a token (RFC 7636 section 4.6) |
| Provenance.TrailEntitles | internal/http/server.go:649-792 | At the end of a trail the profile URL is the one asked for, and the identity is named by a selector of the configured profile with that URL (its subject or a group exactly, a name or address letter case aside), or holds the row stored for the URL's handle when `/authorize` looked, or is the subject that the one identity tag of the fetched page names at the bridge's own issuer, on a page with a link to this bridge |
| Checks.RedirectExactly | internal/indieauth/client_metadata.go:32-54 | A redirect URI is accepted if and only if it is a safe URL without a fragment that has the client's scheme, host and port (443 and 80 filled in), or prints like one of the declared ones |
| Checks.ChallengeExactly | internal/http/server.go:637-648 | A challenge is accepted if and only if it is S256 of 43 to 128 unreserved characters where PKCE is required and the request names any of response type, scope, challenge and method, and otherwise if it is empty or S256 |
| Checks.PresentationExactly | internal/http/server.go:1093-1107 | A presentation fits if and only if client and redirect URI are the code's own, a challenge is there where the token endpoint requires one, and the digest of a non-empty verifier is the challenge |
| Checks.ScopeExactly | internal/indieauth/indieauth.go:13-30 | A scope is accepted if and only if each of its words is `profile` or `email` |
| Checks.LoginExactly | internal/http/server.go:771-792 | An identity is admitted if and only if it is the recorded owner at the backend's issuer, or the configured profile of the URL selects it |
| Checks.SelectedExactly | internal/indieauth/indieauth.go:32-59 | A profile selects an identity if and only if its non-empty subject or a non-empty group is listed, or a listed non-empty name or address equals its own, letter case aside |
| Checks.AskedExactly | internal/http/server.go:607-616 | The URL asked for is the canonical print of the given safe URL, and nothing else is asked for |
| Checks.QueryExactly | internal/http/server.go:592-648 | A query whose profile is known passes all checks if and only if it fits field by field; every other is refused with 400 |
| Checks.DelegationExactly | internal/indieauth/profile_metadata.go:198-224 | A page delegates if and only if some link tag of it has the relation `indieauth-metadata` with the bridge's metadata document as target, or `authorization_endpoint` with its authorization endpoint |
| Checks.NotDelegated | internal/indieauth/profile_metadata.go:35-96 | A page without such a link, or no page at all, is bound to nothing |
| Checks.DiscoveredBinds | internal/indieauth/profile_metadata.go:35-96 | What discovery binds, the page says: within the size limit, with such a link, and with exactly one identity tag, of two words, the first of which is a safe URL that prints as the issuer |
| Checks.HandleExactly | internal/http/managed_profiles.go:305-329 | A URL asks for a handle if and only if it is on the bridge's own scheme, host and port and its path is `/@` and one segment that normalizes to the handle |
| Checks.TesterOpens | internal/http/tools.go:332-356 | A tester cookie opens, as the state sealed in it, through the last whole second of its lifetime |
| Checks.CredentialOpens | internal/http/tools.go:219-232 | So does a setup credential, as its owner |
| Checks.EditExactly | internal/http/managed_profiles.go:220-303 | An edit is accepted if and only if its name has 1 to 80 characters and its text up to 280, without control characters but line breaks and tabs in the text, its web site is blank or an `https` URL with a host and without user information, and its accent is one of five |
| Refusals.PresentationRefused | internal/http/server.go:1085-1107 | In any run, a presentation that the store accepts is answered invalid grant if and only if client, redirect URI or verifier do not fit or a required challenge is missing; the code is then burnt for good |
| Refusals.StrangerRefused | internal/http/server.go:771-792 | In any run, a login that the provider vouches for is refused with 403 if and only if the identity is neither the recorded owner nor selected by the configured profile; it then leaves no consent and no code |
| Refusals.QueryRefused | internal/http/server.go:592-648 | In any run, a query that does not fit is refused with 400 and leaves nothing |
| Refusals.OtherHostRefused | internal/security/security.go:153-174 | In particular one whose redirect URI is on another host than the client's, when the client declares none |
| Refusals.UndelegatedRefused | internal/http/server.go:664-682 | In any run, a URL that is neither configured nor a stored profile's, and whose page has no link to this bridge, is refused with 400 and leaves nothing |
| Refusals.RevocationAnswered | internal/http/server.go:1218-1237 | Any non-empty token handed in for revocation, known or not, is answered as done (RFC 7009 section 2.2) |
| Refusals.EditRefused | internal/http/managed_profiles.go:220-303 | In any run, an edit that does not fit, in its name, text, web site or accent, is refused and writes nothing |
| Names.NameOfTwo | internal/http/managed_profiles.go:106-125 | Two words of up to 31 characters together become themselves in lower case, with one hyphen between them if what separates them has a letter, number or space and no mark comes before it, and with nothing between them otherwise |
| Names.NameCut | internal/http/managed_profiles.go:106-125 | A longer word is cut to 32 characters, without marks at the end |
| Names.CandidatesInOrder | internal/http/managed_profiles.go:132-143 | Preferred user name, user name and name are tried in this order; a reserved handle is prefixed, and without any the tag is used |
| Names.SuffixKeeps | internal/http/managed_profiles.go:194-197 | The collision form of a handle of up to 23 characters is the handle, a hyphen and the tag |
| SetupFragments.AuthorizationLinkAlone | internal/indieauth/profile_metadata.go:35-96 | A page with the identity and only the link to the authorization endpoint is bound to the identity |
| SetupFragments.FragmentLinks | internal/http/server.go:854-867 | The printed discovery fragment is read as three links: metadata document, authorization endpoint and token endpoint, each at its own address |
| Provenance.CodeTrail | internal/http/server.go:924-957 | The trail behind every code ever stored, and that the code carries on client, redirect URI, scope, challenge and profile unchanged |
| Provenance.RequestTrail | internal/http/server.go:592-741 | Every stored authorization request came of an `/authorize` request that passed its checks, the redirect URI and the resolved profile among them, and repeats its query and that profile field by field |
| Provenance.ConsentTrail | internal/http/server.go:995-1040 | Behind every code for a consent stand an approval with that consent's own id and anti-forgery token and the login that created it |
| Provenance.ConsentOriginTrail | internal/http/server.go:793-828 | Behind every stored consent stands the login that created it, and it carries on the original query unchanged |
| Provenance.ConsentShows | internal/http/server.go:963-993 | What a consent page shows is what its approval grants: the client, redirect URI, scope and profile URL of the original request, with the id and anti-forgery token drawn at the login |
| Provenance.DenialGoesBack | internal/http/server.go:1021-1025 | A denial goes to the original redirect URI with the original state and issues nothing |
| OneUse.PassesExactly | internal/storage/sqlite.go:242-287 | In every run the store accepts a presentation exactly when the code was issued, never presented before, and has not reached its whole-second expiry |
| OneUse.SecondPresentationRefused | internal/http/server.go:1085-1107 | After one presentation passed the store, every later one at either endpoint is refused as invalid grant, even if the first failed its client, redirect or PKCE check (RFC 6749 section 4.1.2) |
| OneUse.PassingUses | internal/storage/sqlite.go:242-287 | A presentation that passes marks the code used for good, at most one code lifetime after its issue |
| OneUse.CodesConserved | internal/http/server.go:1085-1125 | In every state of every run the codes ever issued number exactly those unpresented, those held by a token request in flight, one for each token, those answered with a profile, and those burnt |
| OneUse.RunKeepsHeld | internal/http/server.go:1085-1125 | A code between presentation and token is held by exactly one request in flight, the one that presented it |
| Introspection.TokenLife | internal/http/server.go:1184-1216 | A token granted at one step is reported active at a later one exactly when no revocation of it was carried out in between and its truncated expiry has not come, and the report repeats the grant (RFC 7662 section 2.2) |
| Introspection.IntrospectionExact | internal/storage/sqlite.go:298-323 | Each introspection answers exactly by the history: issued, not revoked, not expired; unknown tokens are inactive |
| Introspection.RevokedSince | internal/storage/sqlite.go:325-329 | A token stands revoked exactly when a revocation step for it was carried out since its issue, whatever was cleaned up (RFC 7009 section 2.2) |
| Introspection.InactiveForever | internal/http/server.go:1184-1237 | A token once reported inactive is reported inactive at every later step |
| Cleanup.CleanupInvisible | internal/storage/sqlite.go:445-458 | Take any run with cleanups, or some of their four deletes, anywhere; without them the remaining events are still a run with the same answers, audit trail, history and requests in flight, unless some lookup falls on a stored request's last instant |
| Cleanup.StepSimulated | internal/http/server.go:1046-1065 | One step of the simulation: tables that lack only expired or used rows give the same answer and audit event |
| Cleanup.CleanSimulated | internal/storage/sqlite.go:445-458 | Each delete, with any clock value up to now, removes only rows that are expired or used |
| Cleanup.CleanupSeenAtExpiry | internal/storage/sqlite.go:201-225 | The delete of authorization requests changes a lookup if and only if the row found expires at that very instant and the delete reached it |
| Cleanup.CleanupLeavesLive | internal/storage/sqlite.go:445-458 | In every state of every run: after a whole cleanup no lookup at any instant of its second answers expired or used, and every lookup that succeeded before still does, but for an authorization request in its last instant; revoked tokens stay revoked until they expire |
| Serial.OnePerRequest | internal/http/server.go:755-759 | With handlers uninterrupted, one authorization request gives at most one consent, one code and one token in the whole run; `Overlap.OneUnlessOverlap` needs only that no requests overlap on its row |
| Serial.ActiveBeforeDeadline | internal/http/server.go:1119-1120 | With handlers uninterrupted, a token reported active belongs to an `/authorize` step less than request lifetime, code lifetime (twice with consent) and token lifetime ago |
| Lifetime.ActiveWithin | internal/http/server.go:743-1140 | In any run, a token reported active belongs to an `/authorize` step by that client, for that scope and profile URL, less long ago than the lifetimes of what the sign-in stored plus the time its callback, its approval and its exchange took from finding their row to using it |
| Serial.TokenDeadline | internal/storage/sqlite.go:289-296 | Every token goes back to one authorization request, whose profile URL, client and scope it carries, and expires before that request's deadline |
| Serial.RunLinear | internal/http/server.go:1006-1015 | The invariant of uninterrupted runs: what led to a consent or code is gone or about to be deleted, and every record was made before what it rests on expired |
| Overlap.OverlapExact | internal/http/server.go:755-759 | In every state of every run, an authorization request has given more than one consent or code if and only if two callbacks, or two approvals of one of its consents, overlapped on the row and both were good |
| Overlap.OneUnlessOverlap | internal/http/server.go:1006-1036 | So without such an overlap, whatever else is interleaved, one authorization request gives at most one consent, one code and one token |
| Overlap.TwiceExact | internal/http/server.go:743-845 | The same for each row by itself: an authorization request used up by a login, a consent used up by an approval |
| Overlap.HeldOrGone | internal/http/server.go:755-759 | A request that has looked a row up has it in hand until the row is deleted, and a deleted row never comes back |
| Overlap.TwoUsesTwoGains | internal/http/server.go:793-845 | Two requests with the same row in hand, each with a good login or an approval, get a consent or a code each |
| Example.CallbackOverlapHappens | internal/http/server.go:743-759 | From the initial state, with consent required or not: a run in which two callbacks with one state and different codes of the provider give two consents or two codes of one authorization request; no provider code comes twice |
| Example.ApprovalOverlapHappens | internal/http/server.go:1006-1036 | From the initial state: a run in which a consent page sent twice gives two codes of one authorization request |
| Serial.WrongTokenHarmless | internal/http/server.go:1011-1015 | An approval with the wrong anti-forgery token is refused and leaves the consent as it was |
| HonestRun.HonestSignIn | internal/http/server.go:592-1216 | In any run: if an honest guest's requests are answered, each within a lifetime less one second of the one before, and before them nobody else brings the callback's state, the consent's id and token or the code, nor revokes the token, then the browser goes to the provider, the code goes to the client, the exchange grants a token and its introspection reports it active, with the profile URL, scope and client asked for, whatever else is served and cleaned up meanwhile |
| SignInRun.HonestSignInHappens | internal/http/server.go:592-1216 | From the initial state, with consent required: a run that meets every one of those conditions |
| Survival.StoredStep | internal/storage/sqlite.go:445-458 | No step of a run takes away an unexpired authorization request or consent but its own deferred delete |
| Survival.HolderBrought | internal/http/server.go:1046-1065 | Whoever has an authorization request or a consent in hand, and so may delete it, began as a callback with its state or as an answer with its id and token |
| Witness.SignInServed | internal/http/server.go:592-1216 | Any idle run goes on with an honest sign-in, served request by request, to a token granted and then reported active |
| Example.SignInHappens | internal/http/server.go:592-1216 | From the initial state, with consent required or not: a run that grants a token and reports it active |
| HonestRun.AskingAnswered | internal/http/server.go:592-741 | In any run, a query with a supported scope, an accepted redirect and the S256 challenge of any non-empty verifier, for a profile known then, sends the browser to the provider and leaves its row |
| HonestRun.ReturningAnswered | internal/http/server.go:743-845 | In any run, the honest callback in time, alone with its state, finds its request whatever else is served, and is answered with the consent page or the code, whose row it leaves |
| HonestRun.ApprovingAnswered | internal/http/server.go:995-1040 | In any run, the first approval of its consent, in time, sends the code |
| HonestRun.ExchangingAnswered | internal/http/server.go:1067-1140 | In any run, the first presentation of its code, in time and with the verifier, is granted a token |
| HonestVisits.SearchFinds | internal/http/server.go:1046-1065 | Whatever the order of the backends, the search among all of them ends at the request's own |
| ManagedProfiles.HandleForever | internal/storage/sqlite.go:377-443 | Over any run a handle once given stays with its holder, and nobody ever holds two |
| ManagedProfiles.StoredHandle | internal/http/managed_profiles.go:106-143 | Every stored handle, in the plain, the `user-` and the suffixed form, is a non-reserved fixed point of the normalizer of 1 to 32 characters |
| ManagedProfiles.EnsureConflict | internal/http/managed_profiles.go:145-201 | Run without interruption, providing a profile fails for want of a handle if and only if the identity has none yet and other identities hold both candidates |
| ManagedProfiles.ConflictStep | internal/http/managed_profiles.go:172-201 | In any run, whatever is interleaved, a step of providing a profile fails if and only if the subject is blank, or it inserts the suffixed handle and another identity holds that too or this one has got a profile meanwhile; the first candidate then belongs to another identity |
| ManagedProfiles.EnsureProvides | internal/http/managed_profiles.go:145-201 | On success the identity holds exactly the profile returned, all handles stay good and unique, and no other profile changed |
| ManagedProfiles.EnsureNames | internal/http/managed_profiles.go:145-183 | The profile a login returns shows the name claimed then, or the handle without one, unless its holder has customized it |
| ManagedProfiles.EnsureLeavesCustomized | internal/http/managed_profiles.go:156-171 | An uninterrupted later login never alters a customized profile, and returns its holder that profile |
| ManagedProfiles.LoginAltersCustomized | internal/http/managed_profiles.go:163-170 | One login step alters a customized profile, in whatever tables, if and only if it is the rename for the same holder; `LostEdits.LostExactly` says when a run comes to it |
| LostEdits.LostExactly | internal/http/managed_profiles.go:156-171 | In any run, a step that is no edit by its holder changes a customized profile if and only if it renames it for a setup login that looked it up before an edit by the holder; the profile is then no longer customized |
| LostEdits.SerialKeepsCustomized | internal/http/managed_profiles.go:156-171 | With handlers uninterrupted, a customized profile changes only at an edit of its holder |
| LostEditRun.EditLostHappens | internal/http/managed_profiles.go:163-170 | From the initial state: a run whose last step renames a profile edited since the login looked it up, and loses the edit |
| ManagedProfiles.StepsEnsure | internal/http/managed_profiles.go:145-201 | The interleavable steps, run without interruption, do what the atomic form says |
| ManagedProfiles.UrlAsksForHandle | internal/http/managed_profiles.go:203-205 | Printing a handle's URL and reading the handle back from it gives the handle |
| ManagedProfiles.UrlsAndProfiles | internal/http/managed_profiles.go:305-329 | In every state of every run a `me` URL finds a stored profile if and only if it is that profile's own URL, and different profiles have different URLs |
| ProfileEdits.CustomizedByHolder | internal/http/managed_profiles.go:244-303 | Every customized profile was customized by an edit whose credential was sealed at a setup login of that very issuer and subject, opened less than the request lifetime and a second after it |
| ProfileEdits.EditAuthorized | internal/http/tools.go:219-232 | The same for every single write of an edit |
| ProfileEdits.SealsNotConfused | internal/http/tools.go:207-232 | No tester cookie opens as a setup credential and no setup credential as a tester cookie, although both use one key |
| ProfileEdits.NothingOpensTwice | internal/http/tools.go:341-350 | In every state of every run no value opens both ways |
| ProfileEdits.SetupPageOwn | internal/http/server.go:870-889 | The credential on a setup page opens, while it lives, as the very issuer and subject the page names, and the profile beside it is theirs |
| ProfileEdits.EditTakesEffect | internal/http/managed_profiles.go:244-303 | An edit with a live credential, a profile and an acceptable form rewrites that profile's fields and nothing else; any other edit is refused and changes nothing |
| AuditTrail.AuditTallies | internal/http/server.go:1254-1264 | In every state of every run there are as many audit events of created requests, required consents, issued codes, issued tokens, returned profiles and updated profiles as there are of the things themselves |
| AuditTrail.SuccessNamed | internal/http/server.go:1254-1264 | A step adds at most one event; one of success exactly with the record it reports, naming that record's client and profile URL |
| Preservation.RunKeepsInv | internal/http/server.go:430-454 | The invariant, in every state of every run: records are coherent and traced to their causes, tables agree with the history up to expired or used rows, profiles and sealed values agree with it, and so do requests in flight |
| Preservation.StepKeepsInv | internal/http/server.go:430-454 | Every event keeps the invariant whatever else is in flight |
| Preservation.ConsumedCode | internal/storage/sqlite.go:242-287 | A successful consumption is the first, before expiry, and returns the code as it was issued |
| Preservation.FoundRow | internal/storage/sqlite.go:201-225 | A found authorization request is the one stored with that state and backend, unchanged |
| Preservation.ResolvedSignInOk | internal/http/server.go:649-688 | The profile resolved for a checked request is the requested one, recognised as configured, managed or bound by its page |
| Preservation.OpenedCredential | internal/http/tools.go:219-232 | What opens as a setup credential was sealed at a setup login, less than its truncated lifetime and a second ago |
| HistorySteps.RecordKeepsTraced | internal/http/server.go:592-1140 | Each kind of record keeps every record traced to its cause |
| HistorySteps.ProcOkGrows | internal/http/server.go:592-1140 | A step of one request keeps what any other request in flight relies on |
| Traces.NoteSource | internal/storage/sqlite.go:188-296 | Every record was made by one step of the run, at the time it is dated |
| Traces.ProcSource | internal/http/server.go:430-454 | A request past its arrival got there by a step of its own |
| Traces.RunGrows | internal/storage/sqlite.go:242-329 | Over a run the history only grows, settled codes stay settled and the clock does not go back |
| Service.ServedIsRun | internal/http/server.go:430-454 | A request served by its handler extends any run by steps of its own, to the state and answer the handler gives |
| Atomic.DriveEnsure | internal/http/server.go:847-889 | A setup login driven to its end leaves what providing a profile leaves, less the stored request |
| Atomic.EnoughDraws | internal/http/server.go:743-845 | Every request but a backend search ends within a fixed number of steps |
| Server.Server.constructor | internal/http/server.go:415-428 | A server over an empty store is valid |
| Server.Server.HandleSetup | internal/http/server.go:548-590 | Answers and leaves the state as the setup request's steps do |
| Server.Server.CheckRequest | internal/http/server.go:592-648 | The checks of `/authorize` in their order, and which refusal they give |
| Server.Server.Resolve | internal/http/server.go:649-688 | The profile signed in as: managed, configured or bound by its page |
| Server.Server.StoreRequest | internal/http/server.go:689-741 | The stored request, its audit event and the redirect to the provider |
| Server.Server.HandleAuthorize | internal/http/server.go:592-741 | Answers and leaves the state as the request's steps do |
| Server.Server.FindManagedProfile | internal/http/managed_profiles.go:305-329 | A URL outside the `/@` space, an unknown handle, or the owner's row |
| Server.Server.FindAuthRequest | internal/http/server.go:1046-1065 | The loop over backends reaches the request found, or a refusal when none has it |
| Server.Server.Authenticate | internal/backends/oidc/oidc.go:69-91 | The provider's answer is taken only without error, with the state handed out, a code, and a token for the nonce handed out |
| Server.Server.CheckIdentity | internal/http/server.go:771-792 | Admitted if and only if the identity is the recorded one, or the configured profile names it |
| Server.Server.GrantLogin | internal/http/server.go:793-845 | Refusal, consent or code, as the login step does |
| Server.Server.RenderSetupIdentity | internal/http/server.go:847-889 | The credential is sealed for the identity's issuer and subject, and a profile provided if they are enabled |
| Server.Server.HandleCallback | internal/http/server.go:743-845 | Answers and leaves the state as the request's steps do, the delete at the end included |
| Server.Server.EnsureManagedProfile | internal/http/managed_profiles.go:145-201 | Does what the atomic form says |
| Server.Server.IssueCodeAndRedirect | internal/http/server.go:924-957 | The code's row, its audit event and the redirect |
| Server.Server.HandleConsentGet | internal/http/server.go:963-993 | Shows the consent stored under the id, if it is live |
| Server.Server.HandleConsentPost | internal/http/server.go:995-1040 | Answers and leaves the state as the request's steps do, the delete at the end included |
| Server.Server.HandleToken | internal/http/server.go:1067-1140 | Answers and leaves the state as the request's steps do |
| Server.Server.HandleAuthorizationCodeProfile | internal/http/server.go:1142-1182 | Answers and leaves the state as the request's step does |
| Server.Server.HandleIntrospect | internal/http/server.go:1184-1216 | Answers as the request's step does and changes nothing |
| Server.Server.HandleRevoke | internal/http/server.go:1218-1237 | Answers and leaves the state as the request's steps do |
| Server.Server.OpenSetupIdentity | internal/http/tools.go:219-232 | Opens a live setup credential and nothing else |
| Server.Server.HandleManagedProfileUpdate | internal/http/managed_profiles.go:244-303 | Answers and leaves the state as the request's steps do |
| Server.Server.HandleTestStart | internal/http/tools.go:253-330 | Seals the tester's state |
| Server.Server.CheckTestCallback | internal/http/tools.go:332-356 | A tester callback is taken if and only if its cookie is live and holds the state that came back |
| Store.SQLite.constructor | internal/storage/sqlite.go:23-40 | A new store is empty |
| Store.SQLite.CreateAuthRequest | internal/storage/sqlite.go:188-199 | Inserts under a new key, with whole-second instants, or fails and changes nothing |
| Store.SQLite.GetAuthRequestByBackendState | internal/storage/sqlite.go:201-225 | A row with that backend and state, valid up to and including its expiry; the one such row when states are unique |
| Store.SQLite.DeleteAuthRequest | internal/storage/sqlite.go:227-230 | Removes that row only |
| Store.SQLite.CreateConsentRequest | internal/storage/sqlite.go:331-338 | Inserts under a new key or fails |
| Store.SQLite.GetConsentRequest | internal/storage/sqlite.go:340-360 | The row, strictly before its expiry |
| Store.SQLite.DeleteConsentRequest | internal/storage/sqlite.go:362-365 | Removes that row only |
| Store.SQLite.CreateAuthorizationCode | internal/storage/sqlite.go:232-240 | Inserts under the code's hash, unused |
| Store.SQLite.ConsumeAuthorizationCode | internal/storage/sqlite.go:242-287 | Used, expired and unknown codes are rejected unchanged; any other is marked used and returned |
| Store.SQLite.CreateAccessToken | internal/storage/sqlite.go:289-296 | Inserts under the token's hash, unrevoked |
| Store.SQLite.GetAccessToken | internal/storage/sqlite.go:298-323 | The row unless revoked or expired |
| Store.SQLite.RevokeAccessToken | internal/storage/sqlite.go:325-329 | Marks the row revoked once |
| Store.SQLite.CreateManagedProfile | internal/storage/sqlite.go:377-388 | Fails, changing nothing, when the handle in any case or the owner is taken; keeps both unique |
| Store.SQLite.GetManagedProfileByHandle | internal/storage/sqlite.go:390-393 | Finds the handle in any case |
| Store.SQLite.GetManagedProfileByIdentity | internal/storage/sqlite.go:395-398 | Finds the owner's one row |
| Store.SQLite.UpdateManagedProfile | internal/storage/sqlite.go:426-443 | Rewrites the owner's presentation and nothing else; says whether there was a row |
| Store.SQLite.CreateAuditEvent | internal/storage/sqlite.go:367-375 | Appends one event |
| Store.SQLite.Cleanup | internal/storage/sqlite.go:445-458 | The loop of four deletes is their composition |
| RateLimiter.Limiter.constructor | internal/http/ratelimit.go:25-36 | The defaults, and an empty map |
| RateLimiter.Limiter.Admit | internal/http/ratelimit.go:57-81 | Trim loop, refill and decision in place do one step of the limiter's specification |
| RateLimiter.SharedRefinesSolo | internal/http/ratelimit.go:57-81 | For every sequence of calls in clock order, each answer of the shared, trimmed limiter is the answer of that key's own bucket, never trimmed and fed that key's calls only |
| RateLimiter.RefinementExact | internal/http/ratelimit.go:57-81 | That agreement holds for all sequences if and only if the burst is paid for by the time just over the idle limit, ten minutes and a nanosecond |
| RateLimiter.TenMinutesWorth | internal/http/ratelimit.go:60-67 | It holds for every burst of at most ten times the requests per minute, and below 60,000,000,000 requests a minute for no other |
| RateLimiter.LargeBurstDisagrees | internal/http/ratelimit.go:60-67 | With any larger burst a drained and trimmed bucket admits a request too many |
| RateLimiter.RecreatedIsRefilled | internal/http/ratelimit.go:68-79 | A bucket deleted and made anew ends in the same state as one refilled after more than ten idle minutes |
| RateLimiter.Potential | internal/http/ratelimit.go:68-80 | Over any sequence of calls in clock order, the requests admitted for a key since one of its calls are paid for by the burst, what time has given since, and the level that is left |
| RateLimiter.PaidStep | internal/http/ratelimit.go:68-80 | One call of a bucket keeps that account: it gains no more than time gives and an admission costs one request |
| RateLimiter.WindowBound | internal/http/ratelimit.go:68-80 | The requests admitted for a key between any two of its calls, both included, are at most the burst plus the rate times the time between them |
| RateLimiter.BoundedStaleness | internal/http/ratelimit.go:60-67 | After every call each remaining bucket was touched within the last fifteen minutes |
| RateLimiter.SteadyService | internal/http/ratelimit.go:68-80 | A key whose calls keep to the rate is never refused, whatever the other keys do |
| SetupFragments.SetupRoundTrip | internal/http/server.go:847-867 | The printed fragments, in either order inside any page without other meta or link tags, are read back as exactly that issuer and subject and judged to delegate to this bridge |
| SetupFragments.TwoIdentitiesRejected | internal/indieauth/profile_metadata.go:166-196 | A page with two identity tags is rejected, whatever they name |
| SetupFragments.DiscoveryAfterSetup | internal/indieauth/profile_metadata.go:35-96 | The whole discovery of such a page binds its URL to the printed identity |
| SetupFragments.TagsAfterClose | internal/indieauth/profile_metadata.go:22-24 | After text that ends by closing a tag, the tags found are those before and those after |
| SetupFragments.ReadTwoAttributes | internal/indieauth/profile_metadata.go:226-236 | The attribute scanner reads back exactly the two attributes printed |
| SetupFragments.AnyQuote | internal/indieauth/profile_metadata.go:226-236 | An attribute is read in either kind of quotes, and with white space around the equals sign |
| Discovery.HtmlAttributes | internal/indieauth/profile_metadata.go:226-236 | The scan for attributes, first to last, later ones winning |
| Discovery.IdentityMetadataFromHtml | internal/indieauth/profile_metadata.go:166-196 | The one identity named by the page's meta tags, or which error |
| Discovery.RelHas | internal/indieauth/client_metadata.go:170-177 | True if and only if one of the words equals the relation without regard to case |
| Discovery.LinkDelegates | internal/indieauth/profile_metadata.go:206-221 | True if and only if one relation of the link is a bridge endpoint's and its target that endpoint |
| Discovery.PageDelegatesToBridge | internal/indieauth/profile_metadata.go:198-224 | True if and only if some link of the page delegates |
| Discovery.DiscoverProfileIdentity | internal/indieauth/profile_metadata.go:35-96 | The binding of a fetched page, which always names the expected issuer |
| Handles.NormalizeManagedHandle | internal/http/managed_profiles.go:106-125 | The loop over builder and last-separator flag computes the normal form |
| Handles.NormalizeShape | internal/http/managed_profiles.go:106-125 | Its output, whatever the input, is empty or 1 to 32 characters of `[a-z0-9._-]` without a separator at either end |
| Handles.NormalizeIdempotent | internal/http/managed_profiles.go:106-125 | Normalizing twice is normalizing once, and the fixed points are exactly the empty string and the handles of that shape |
| Handles.DesiredManagedHandle | internal/http/managed_profiles.go:132-143 | The loop over the candidate names gives the first usable one |
| Handles.DesiredHandleGood | internal/http/managed_profiles.go:132-143 | The first candidate handle is always of that shape and not reserved |
| Handles.SuffixedHandleGood | internal/http/managed_profiles.go:194-197 | So is the collision form of any such handle |
| Config.ValidateProfiles | internal/config/config.go:275-294 | Succeeds, with canonical URLs in place, if and only if every URL has a canonical form, all are distinct, and each profile has a backend and a selector; each is then the one found under its own URL |
| Config.FindProfile | internal/config/config.go:352-363 | A configured profile with this URL, if there is one |
| Config.AllowsIdentity | internal/indieauth/indieauth.go:32-59 | True if and only if a non-empty selector of the profile names the identity |
| Config.AllowsScope | internal/indieauth/indieauth.go:13-30 | True if and only if every word of the scope is supported |
| Library.ValidateCodeChallenge | internal/security/security.go:91-108 | True if and only if the method is S256 and the challenge has 43 to 128 unreserved characters (RFC 7636 section 4.2) |
| Library.HonestChallenge | internal/security/security.go:82-89 | The S256 challenge of any non-empty verifier is well formed and verifies |
| Library.ValidateClientRedirect | internal/indieauth/client_metadata.go:32-54 | True if and only if the redirect is on the client's origin or among the declared ones in normal form |

## Left out

- An audit event is written in the same step as the store call before it; in the source another request's step can come between the two, which could only reorder the audit trail.
- Failures of the store other than those of its constraints, of the random source and of JSON encoding: handlers would answer 500. A failed token insertion for a duplicate key is modelled, and burns the code.
- The clock of a run does not go back. The lookup of an authorization request reads the system clock in the source and the server's own clock elsewhere; here they are one.
- HTTP, its headers and forms, redirect-URL encoding, HTML templates and JSON text: requests and answers are datatypes, and a form field stands for the first value.
- The client's redirect check runs over the list of redirect URIs its page declares; fetching and reading that page is not modelled, nor are address checks and redirect guards.
- Fetching of profile pages: the page, or nothing, is an input. The tester's exchange with a discovered server ends at the checks of its cookie and state.
- URL parsing, printing and resolving, SHA-256, AES-GCM, base64, SQL, OpenID Connect discovery and token verification are library functions or arbitrary inputs. The claims of an identity token are taken as the fields they become.
- Letter case is folded over ASCII where the source folds over Unicode, in schemes, host names, user names, mail addresses and the scanner of discovery (whose regular expressions also take U+017F for `s` and U+212A for `k`); the lower-casing inside the handle normalizer is an arbitrary function with `Handles.LowerLaw`.
- The regular expressions of discovery are leftmost scanners over characters; a page is text, with its length in bytes computed.
- The limiter's floating-point levels are exact scaled integers; calls whose time is before that of an earlier call are covered by the step of the limiter but by no theorem. Trusted proxies and the choice of the key are not modelled.
- Validation of settings other than profiles, environment and files, migrations, health checks, the command line and shutdown.
- Profile pages at `/@handle`, the page that checks a setup, and the metadata document only present what is stored.
