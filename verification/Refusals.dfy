/**
 What is turned away, in any run: queries, logins, presentations and edits
 that do not fit, each with the answer they get and with nothing recorded.
 */
module Refusals {
  import opened Prelude
  import opened Text
  import opened Library
  import opened Config
  import opened Discovery
  import opened Tables
  import opened Handlers
  import opened Runs
  import opened Invariant
  import opened Preservation
  import opened Traces
  import opened Checks
  import opened OneUse

  // ---- Presentations ---------------------------------------------------------------------

  function FormOf(r: Request): CodeForm {
    match r
    case Exchange(form) => form
    case CodeProfile(form) => form
    case _ => CodeForm("", "", "", "", "")
  }

  lemma RefusedForm(cfg: Config, s: Shared, p: Proc, now: int, ch: Choice, form: CodeForm, row: AuthorizationCode)
    requires (hide *; p == Arrived(CodeProfile(form)) || (p == Arrived(Exchange(form)) && form.grantType == "authorization_code"))
    requires form.code != "" && ConsumeAuthorizationCode(s.db, HashToken(cfg.lib, form.code), now).1 == Ok(row)
    ensures var o, hash := Advance(cfg, s, p, now, ch), HashToken(cfg.lib, form.code);
            if Matches(cfg, row, form, p.request.Exchange?) then o.reply != Some(OAuthError(400, InvalidGrant))
            else o.reply == Some(OAuthError(400, InvalidGrant)) && o.next == None && o.note == CodePresented(hash, ToWaste)
  {
    hide ConsumeAuthorizationCode, PresentationOk, Matches, Log, RefusedClient;
    PresentationExactly(cfg, row, form, true);
    PresentationExactly(cfg, row, form, false);
  }

  lemma WastedFate(h: History, pid: nat, now: int, hash: string)
    ensures var g := Record(h, pid, now, CodePresented(hash, ToWaste)); hash in g.fates && g.fates[hash] == Burnt
  {
  }

  /**
   A presentation that the store accepts is refused exactly when client, redirect URI or verifier do
   not fit what the code was issued for, or a challenge is missing that is required; the code is then
   burnt for good.
   */
  lemma PresentationRefused(cfg: Config, states: seq<Sys>, events: seq<Event>, i: nat, j: nat, hash: string)
    requires (hide Step, Advance; IsRun(cfg, states, events)) && i < |events| && i < j < |states| && Passes(cfg, states[i], events[i], hash)
    ensures Enabled(cfg, states[i], events[i]) && hash in states[i].hist.codes
    ensures var r := states[i].procs[events[i].pid].request;
            var fits := Matches(cfg, states[i].hist.codes[hash].row, FormOf(r), r.Exchange?);
            && (!fits <==> ReplyOf(cfg, states[i], events[i]) == Some(OAuthError(400, InvalidGrant)))
            && (!fits ==> hash in states[j].hist.fates && states[j].hist.fates[hash] == Burnt)
  {
    hide Advance, IsRun, Fresh, Inv, ChoiceOk, ConsumeAuthorizationCode, Matches, Record, Later;
    OneStep(cfg, states, events, i);
    ResumeStep(cfg, states, events, i);
    RunKeepsInv(cfg, states, events, i);
    ConsumedCode(cfg, states[i], hash);
    var pid, ch := events[i].pid, events[i].choice;
    var p := states[i].procs[pid];
    RefusedForm(cfg, states[i].shared, p, states[i].now, ch, FormOf(p.request), states[i].hist.codes[hash].row);
    RunGrows(cfg, states, events, i + 1, j);
    if !Matches(cfg, states[i].hist.codes[hash].row, FormOf(p.request), p.request.Exchange?) {
      WastedFate(states[i].hist, pid, states[i].now, hash);
      BurntStays(states[i + 1].hist, states[j].hist, hash);
    }
  }

  lemma BurntStays(h: History, g: History, hash: string)
    requires Later(h, g) && hash in h.fates && h.fates[hash] == Burnt
    ensures hash in g.fates && g.fates[hash] == Burnt
  {
  }

  // ---- Logins ----------------------------------------------------------------------------------

  lemma StrangerShape(cfg: Config, s: Shared, p: Proc, now: int, ch: Choice, login: IdToken)
    requires (hide *; p.Found?) && !p.row.backendState.setup && CompleteAuth(p.callback, p.row.backendState, ch.login) == Some(login)
    ensures var o := Advance(cfg, s, p, now, ch);
            if MaySignIn(cfg, p.row, login.identity) then o.reply != Some(HttpError(403))
            else o.reply == Some(HttpError(403)) && o.next == Some(Dropping(p.row.id)) && o.note == Nothing
  {
    hide CompleteAuth, LoginAllowed, MaySignIn, CreateConsentRequest, CreateAuthorizationCode, Log;
    LoginExactly(cfg, p.row, login.identity);
  }

  /**
   A login for which the provider vouches is refused exactly when the identity is neither the one
   recorded for the request nor one that the configured profile selects; it then leaves no consent
   and no code, and the request is deleted.
   */
  lemma StrangerRefused(cfg: Config, states: seq<Sys>, events: seq<Event>, i: nat, pid: nat, ch: Choice, p: Proc, login: IdToken)
    requires (hide Step, Advance; IsRun(cfg, states, events)) && StepOf(cfg, states, events, i, pid, ch, p)
    requires p.Found? && !p.row.backendState.setup && CompleteAuth(p.callback, p.row.backendState, ch.login) == Some(login)
    ensures Enabled(cfg, states[i], events[i])
    ensures ReplyOf(cfg, states[i], events[i]) == Some(HttpError(403)) <==> !MaySignIn(cfg, p.row, login.identity)
    ensures !MaySignIn(cfg, p.row, login.identity) ==>
              states[i + 1].hist == states[i].hist && pid in states[i + 1].procs && states[i + 1].procs[pid] == Dropping(p.row.id)
  {
    hide Advance, IsRun, Fresh, ChoiceOk, CompleteAuth, MaySignIn;
    OneStep(cfg, states, events, i);
    ResumeStep(cfg, states, events, i);
    StrangerShape(cfg, states[i].shared, p, states[i].now, ch, login);
  }

  // ---- Queries ----------------------------------------------------------------------------------

  lemma QueryShape(cfg: Config, s: Shared, q: AuthorizeQuery, fetched: Fetched, now: int, ch: Choice)
    requires (hide *; !QueryFits(cfg, q, if cfg.clientDiscovery then fetched.declared else None))
    ensures var o := Advance(cfg, s, Arrived(Authorize(q, fetched)), now, ch);
            o.reply == Some(HttpError(400)) && o.next == None && o.note == Nothing
  {
    hide QueryFits, CheckAuthorize, ResolveProfile, RequestedMe, Log;
    QueryExactly(cfg, s.db, q, fetched);
  }

  /** A query that does not fit, in the redirect URI, the challenge or anything else, is refused and leaves nothing. */
  lemma QueryRefused(cfg: Config, states: seq<Sys>, events: seq<Event>, i: nat, pid: nat, ch: Choice, q: AuthorizeQuery, fetched: Fetched)
    requires (hide Step, Advance; IsRun(cfg, states, events)) && StepOf(cfg, states, events, i, pid, ch, Arrived(Authorize(q, fetched)))
    requires !QueryFits(cfg, q, if cfg.clientDiscovery then fetched.declared else None)
    ensures Enabled(cfg, states[i], events[i]) && ReplyOf(cfg, states[i], events[i]) == Some(HttpError(400))
    ensures states[i + 1].hist == states[i].hist && pid !in states[i + 1].procs
  {
    hide Advance, IsRun, Fresh, ChoiceOk, QueryFits;
    OneStep(cfg, states, events, i);
    ResumeStep(cfg, states, events, i);
    QueryShape(cfg, states[i].shared, q, fetched, states[i].now, ch);
  }

  /** In particular a redirect URI on another host than the client's, when the client declares none. */
  lemma OtherHostRefused(cfg: Config, states: seq<Sys>, events: seq<Event>, i: nat, pid: nat, ch: Choice, q: AuthorizeQuery, fetched: Fetched)
    requires (hide Step, Advance; IsRun(cfg, states, events)) && StepOf(cfg, states, events, i, pid, ch, Arrived(Authorize(q, fetched)))
    requires fetched.declared == None || !cfg.clientDiscovery
    requires var client, redirect := cfg.lib.parse(q.clientId), cfg.lib.parse(q.redirectUri);
             client.Some? && redirect.Some? ==> Lower(client.value.hostname) != Lower(redirect.value.hostname)
    ensures Enabled(cfg, states[i], events[i]) && ReplyOf(cfg, states[i], events[i]) == Some(HttpError(400))
    ensures states[i + 1].hist == states[i].hist && pid !in states[i + 1].procs
  {
    hide Advance, IsRun, Fresh, ChoiceOk, StepOf, ReplyOf, Enabled, SafeUrl, Lower, AsksFor, ChallengeFits, ScopeFits;
    QueryRefused(cfg, states, events, i, pid, ch, q, fetched);
  }

  // ---- Profile pages -------------------------------------------------------------------------------

  lemma PageShape(cfg: Config, s: Shared, q: AuthorizeQuery, fetched: Fetched, me: string, now: int, ch: Choice)
    requires (hide *; RequestedMe(cfg, q) == Some(me)) && ProfileByMe(cfg, me) == None && !ManagedProfileForMe(cfg, s.db, me).OwnedBy?
    requires NoLinkHere(cfg, me, fetched.page)
    ensures var o := Advance(cfg, s, Arrived(Authorize(q, fetched)), now, ch);
            o.reply == Some(HttpError(400)) && o.next == None && o.note == Nothing
  {
    hide CheckAuthorize, RequestedMe, Log, DiscoverIdentity, ManagedProfileForMe, ProfileByMe, QueryFits, NamesBridge, TagsIn;
    QueryExactly(cfg, s.db, q, fetched);
    NotDelegated(cfg.lib, me, cfg.allowHttp, cfg.metadataName, cfg.publicUrl, cfg.IssuerOf(cfg.dynamicBackend), fetched.page);
  }

  /** The page at the URL could not be had, or no link tag of it names this bridge. */
  ghost predicate NoLinkHere(cfg: Config, me: string, page: Option<string>) {
    page.Some? && cfg.lib.parse(me).Some? ==>
      var given := cfg.lib.parse(me).value;
      forall tag :: tag in TagsIn(page.value, "link") ==>
        !NamesBridge(cfg.lib, given.(fragment := "", path := if given.path == "" then "/" else given.path), cfg.publicUrl, tag)
  }

  /** A URL that is neither configured nor a stored profile's, whose page has no link to this bridge, is refused. */
  lemma UndelegatedRefused(cfg: Config, states: seq<Sys>, events: seq<Event>, i: nat, pid: nat, ch: Choice, q: AuthorizeQuery, fetched: Fetched, me: string)
    requires (hide Step, Advance; IsRun(cfg, states, events)) && StepOf(cfg, states, events, i, pid, ch, Arrived(Authorize(q, fetched)))
    requires RequestedMe(cfg, q) == Some(me) && ProfileByMe(cfg, me) == None && !ManagedProfileForMe(cfg, states[i].shared.db, me).OwnedBy?
    requires NoLinkHere(cfg, me, fetched.page)
    ensures Enabled(cfg, states[i], events[i]) && ReplyOf(cfg, states[i], events[i]) == Some(HttpError(400))
    ensures states[i + 1].hist == states[i].hist && pid !in states[i + 1].procs
  {
    hide Advance, IsRun, Fresh, ChoiceOk, RequestedMe, ProfileByMe, ManagedProfileForMe, NoLinkHere;
    OneStep(cfg, states, events, i);
    ResumeStep(cfg, states, events, i);
    PageShape(cfg, states[i].shared, q, fetched, me, states[i].now, ch);
  }

  // ---- Revocation and edits ------------------------------------------------------------------------

  /** Any token can be handed in for revocation, known or not: the request goes on, and its next step answers that it is done (RFC 7009 section 2.2). */
  lemma RevocationAnswered(cfg: Config, s: Shared, token: string, now: int, ch: Choice, t: Shared, later: int, ch': Choice)
    requires (hide *; token != "")
    ensures var o := Advance(cfg, s, Arrived(Revoke(token)), now, ch); o.reply == None && o.next == Some(Revoking(token))
    ensures var o := Advance(cfg, t, Revoking(token), later, ch'); o.reply == Some(RevokedOk) && o.next == None
  {
    hide GetAccessToken, RevokeAccessToken, Log;
  }

  lemma EditShape(cfg: Config, s: Shared, form: ProfileForm, now: int, ch: Choice)
    requires (hide *; !EditFits(cfg, form))
    ensures var o := Advance(cfg, s, Arrived(EditProfile(form)), now, ch);
            o.reply.Some? && o.reply.value.HttpError? && o.next == None && o.note == Nothing && o.shared == s
  {
    hide TrimSpace, OpenSetup, EditOk, EditFits, GetManagedProfileByIdentity;
    EditExactly(cfg, form);
  }

  /** In any run, an edit that does not fit, in its name, text, web site or accent, is refused and writes nothing. */
  lemma EditRefused(cfg: Config, states: seq<Sys>, events: seq<Event>, i: nat, pid: nat, ch: Choice, form: ProfileForm)
    requires (hide Step, Advance; IsRun(cfg, states, events)) && StepOf(cfg, states, events, i, pid, ch, Arrived(EditProfile(form))) && !EditFits(cfg, form)
    ensures Enabled(cfg, states[i], events[i])
    ensures var r := ReplyOf(cfg, states[i], events[i]); r.Some? && r.value.HttpError?
    ensures states[i + 1].shared == states[i].shared && states[i + 1].hist == states[i].hist && pid !in states[i + 1].procs
  {
    hide Advance, IsRun, Fresh, ChoiceOk, EditFits;
    OneStep(cfg, states, events, i);
    ResumeStep(cfg, states, events, i);
    EditShape(cfg, states[i].shared, form, states[i].now, ch);
  }
}
