/**
 Runs that do happen: an honest sign-in served to its end from any idle
 state, and, for the two ways an authorization request gives more than it
 should and the way an edit is lost, a run from the initial state.
 */
module Witness {
  import opened Prelude
  import opened Library
  import opened Config
  import opened Tables
  import opened Handlers
  import opened Runs
  import opened Invariant
  import opened Preservation
  import opened Traces
  import opened Atomic
  import opened Service
  import opened Serial
  import opened Overlap
  import opened HonestVisits
  import opened HonestRun

  // ---- Requests served one after the other ---------------------------------------------------

  /** A run that ends with no request in flight and has these draws still to make. */
  ghost predicate Idle(cfg: Config, states: seq<Sys>, events: seq<Event>, draws: seq<Choice>) {
    hide *;
    && IsRun(cfg, states, events) && |states| == |events| + 1
    && var s := states[|events|];
    s.procs == map[] && AllFresh(cfg, s.issued, s.digests, draws)
  }

  lemma IdleReady(cfg: Config, states: seq<Sys>, events: seq<Event>, draws: seq<Choice>, i: nat)
    requires (hide *; Idle(cfg, states, events, draws)) && i < |draws|
    ensures IsRun(cfg, states, events) && |states| == |events| + 1 && Inv(cfg, states[|events|])
    ensures var s := states[|events|]; Ready(cfg, s, draws[i])
  {
    hide Initial, Enabled, Step, Inv, Fresh, AllFresh;
    RunKeepsInv(cfg, states, events, |events|);
    EachFresh(cfg, states[|events|], states[|events|].issued, states[|events|].digests, draws, i);
  }

  lemma {:induction false} EachFresh(cfg: Config, s: Sys, issued: set<string>, digests: set<string>, draws: seq<Choice>, i: nat)
    requires AllFresh(cfg, issued, digests, draws) && i < |draws| && s.issued <= issued && s.digests <= digests
    ensures Fresh(cfg, s, draws[i])
    decreases i
  {
    if i > 0 {
      var ch := draws[0];
      EachFresh(cfg, s, issued + {ch.a, ch.b, ch.c}, digests + {HashToken(cfg.lib, ch.a)}, draws[1..], i - 1);
    }
  }

  /** One request, served from an idle state. */
  lemma Serving(cfg: Config, states: seq<Sys>, events: seq<Event>, r: Request, draws: seq<Choice>, rest: seq<Choice>)
    returns (states': seq<Sys>, events': seq<Event>)
    requires (hide Step, Advance; Idle(cfg, states, events, draws + rest))
    requires Orderly(cfg, states[|events|].shared, Arrived(r), states[|events|].now, draws)
    ensures Idle(cfg, states', events', rest) && LongerBy(states, events, states', events')
    ensures var s, t := states[|events|], states'[|events'|];
            && t.shared == Drive(cfg, s.shared, Arrived(r), s.now, draws).0 && t.now == s.now
            && Answers(cfg, states', events', |events|, Drive(cfg, s.shared, Arrived(r), s.now, draws).1)
    ensures ProviderCodes(events') == ProviderCodes(events) + CodeIn(r)
    ensures IsSerial(states, events) ==> IsSerial(states', events')
  {
    hide IsRun, AllFresh, Orderly, Drive, Answers, Fresh, DrewFrom;
    StatesOfRun(cfg, states, events);
    FirstFresh(cfg, states[|events|].issued, states[|events|].digests, draws, rest);
    states', events' := ServedIsRun(cfg, states, events, 0, r, draws);
    StatesOfRun(cfg, states', events');
    RestFresh(cfg, states[|events|], states'[|events'|], draws, rest);
  }

  lemma OrderlyMore(cfg: Config, s: Shared, p: Proc, now: int, draws: seq<Choice>)
    requires (hide *; |draws| > 0) && ChoiceOk(p, draws[0])
    requires var o := Advance(cfg, s, p, now, draws[0]); o.next.Some? ==> Orderly(cfg, o.shared, o.next.value, now, draws[1..])
    ensures Orderly(cfg, s, p, now, draws)
  {
    hide Advance;
  }

  // ---- An honest sign-in ------------------------------------------------------------------------

  lemma ServeAuthorize(cfg: Config, states: seq<Sys>, events: seq<Event>, g: Guest, draws: seq<Choice>, rest: seq<Choice>)
    returns (states': seq<Sys>, events': seq<Event>)
    requires (hide Step, Advance; Idle(cfg, states, events, draws + rest)) && |draws| == 2 && draws[1].reachable && Welcome(cfg, states[|events|].shared.db, g)
    ensures Idle(cfg, states', events', rest) && states'[|events'|].now == states[|events|].now
    ensures ProviderCodes(events') == ProviderCodes(events)
    ensures var s, db := states[|events|], states'[|events'|].shared.db;
            var row := StoredRequest(cfg, g.query, g.signIn, s.now, draws[1]);
            row.id in db.requests && db.requests[row.id] == row
  {
    hide IsRun, Orderly, Drive, Answers, AllFresh, Advance, HonestQuery, Known, Fresh, Inv;
    IdleReady(cfg, states, events, draws + rest, 1);
    var s := states[|events|];
    UnusedKey(cfg, s, draws[1]);
    EnoughDraws(cfg, s.shared, Arrived(Authorize(g.query, g.fetched)), s.now, draws);
    states', events' := Serving(cfg, states, events, Authorize(g.query, g.fetched), draws, rest);
    assert draws == [draws[0], draws[1]];
    Authorizes(cfg, s.shared, g.query, g.fetched, g.verifier, g.signIn, s.now, draws[0], draws[1]);
  }

  /** A stored request found at once: arrive, look up, log in, delete. */
  lemma CallbackOrderly(cfg: Config, s: Shared, g: Guest, row: AuthRequest, now: int, draws: seq<Choice>)
    requires (hide *; Waiting(s.db, row, now)) && HonestLogin(cfg, row, g.backend, g.callback, g.login)
    requires |draws| == 4 && draws[1].backend == row.backend && draws[2].login == Some(g.login)
    requires draws[2].a !in s.db.consents && HashToken(cfg.lib, draws[2].a) !in s.db.codes
    ensures Orderly(cfg, s, Arrived(Callback(g.backend, g.callback)), now, draws)
    ensures SearchOrder(if g.backend == "" then cfg.backends.Keys else {g.backend}, draws[1..], 0, row.backend)
  {
    hide Advance, Waiting, HonestLogin, Orderly, LoginStored;
    var todo := if g.backend == "" then cfg.backends.Keys else {g.backend};
    CallbackGoesOn(cfg, s, g.backend, g.callback, row, g.login, now, draws[0]);
    StateMatches(cfg, row, g.backend, g.callback, g.login);
    SearchStep(cfg, s, g.callback, todo, row, now, draws[1]);
    LoginStep(cfg, s, g.backend, g.callback, row, g.login, now, draws[2]);
    var o := Advance(cfg, s, Found(g.callback, row), now, draws[2]);
    DropStep(cfg, o.shared, row.id, now, draws[3]);
    assert draws[1..][1..][1..] == [draws[3]] && draws[1..][1..] == [draws[2], draws[3]];
    OrderlyMore(cfg, o.shared, Dropping(row.id), now, [draws[3]]);
    OrderlyMore(cfg, s, Found(g.callback, row), now, draws[1..][1..]);
    OrderlyMore(cfg, s, Searching(g.callback, todo), now, draws[1..]);
    OrderlyMore(cfg, s, Arrived(Callback(g.backend, g.callback)), now, draws);
  }

  lemma ServeCallback(cfg: Config, states: seq<Sys>, events: seq<Event>, g: Guest, row: AuthRequest, draws: seq<Choice>, rest: seq<Choice>)
    returns (states': seq<Sys>, events': seq<Event>, reply: Option<Reply>)
    requires (hide Step, Advance; Idle(cfg, states, events, draws + rest)) && |draws| == 4
    requires var s := states[|events|];
             && row.id in s.shared.db.requests && s.shared.db.requests[row.id] == row && s.now <= row.expiresAt
             && HonestLogin(cfg, row, g.backend, g.callback, g.login)
    requires draws[1].backend == row.backend && draws[2].login == Some(g.login)
    ensures Idle(cfg, states', events', rest) && states'[|events'|].now == states[|events|].now
    ensures LoginStored(cfg, row, g.login.identity, states[|events|].now, draws[2], states'[|events'|].shared.db, reply)
    ensures Answers(cfg, states', events', |events|, reply)
  {
    hide *;
    IdleReady(cfg, states, events, draws + rest, 2);
    var s, r := states[|events|], Callback(g.backend, g.callback);
    UnusedKey(cfg, s, draws[2]);
    StoredNow(cfg, s, row);
    StillWaiting(cfg, s, row);
    CallbackOrderly(cfg, s.shared, g, row, s.now, draws);
    states', events' := Serving(cfg, states, events, r, draws, rest);
    reply := Drive(cfg, s.shared, Arrived(r), s.now, draws).1;
    LogsIn(cfg, s.shared, g.backend, g.callback, row, g.login, s.now, draws, 0);
  }

  lemma ServeApproval(cfg: Config, states: seq<Sys>, events: seq<Event>, row: ConsentRequest, draws: seq<Choice>, rest: seq<Choice>)
    returns (states': seq<Sys>, events': seq<Event>)
    requires (hide Step, Advance; Idle(cfg, states, events, draws + rest)) && |draws| == 3
    requires var s := states[|events|]; row.id in s.shared.db.consents && s.shared.db.consents[row.id] == row && s.now < row.expiresAt
    ensures Idle(cfg, states', events', rest) && states'[|events'|].now == states[|events|].now
    ensures var hash, now, db := HashToken(cfg.lib, draws[1].a), states[|events|].now, states'[|events'|].shared.db;
            hash in db.codes && db.codes[hash] == StoredCode(CodeRowFromConsent(cfg, row, now, draws[1]), cfg, now)
    ensures Answers(cfg, states', events', |events|, Some(ToClient(row.redirectUri, draws[1].a, row.clientState, cfg.issuer)))
  {
    hide IsRun, Orderly, Drive, Answers, AllFresh, Advance, Fresh, Inv, StoredCode, CodeRowFromConsent;
    IdleReady(cfg, states, events, draws + rest, 1);
    var s, r := states[|events|], ConsentAnswer(row.id, row.csrfToken, "approve");
    UnusedKey(cfg, s, draws[1]);
    EnoughDraws(cfg, s.shared, Arrived(r), s.now, draws);
    states', events' := Serving(cfg, states, events, r, draws, rest);
    assert draws == [draws[0], draws[1], draws[2]];
    Approves(cfg, s.shared, row, s.now, draws[0], draws[1], draws[2]);
  }

  lemma ServeExchange(cfg: Config, states: seq<Sys>, events: seq<Event>, g: Guest, code: string, row: AuthorizationCode, draws: seq<Choice>, rest: seq<Choice>)
    returns (states': seq<Sys>, events': seq<Event>)
    requires (hide Step, Advance; Idle(cfg, states, events, draws + rest)) && |draws| == 2
    requires g.verifier != "" && g.query.challenge == cfg.lib.digest(g.verifier) && code != "" && CodeFor(cfg, g.query, g.signIn.me, code, row)
    requires var s := states[|events|]; row.codeHash in s.shared.db.codes && s.shared.db.codes[row.codeHash] == row && s.now < row.expiresAt
    ensures Idle(cfg, states', events', rest) && states'[|events'|].now == states[|events|].now
    ensures var hash, now, db := HashToken(cfg.lib, draws[1].a), states[|events|].now, states'[|events'|].shared.db;
            && hash in db.tokens
            && db.tokens[hash] == AccessToken(hash, g.signIn.me, g.query.clientId, g.query.scope, row.profile, Whole(now + cfg.tokenTtl), Whole(now), None)
    ensures Answers(cfg, states', events', |events|, Some(TokenGranted(draws[1].a, g.query.scope, g.signIn.me, row.profile)))
  {
    hide IsRun, Orderly, Drive, Answers, AllFresh, Advance, Fresh, Inv, CodeFor;
    IdleReady(cfg, states, events, draws + rest, 1);
    var s, r := states[|events|], Exchange(HonestForm(g.query, code, g.verifier));
    UnusedKey(cfg, s, draws[1]);
    EnoughDraws(cfg, s.shared, Arrived(r), s.now, draws);
    states', events' := Serving(cfg, states, events, r, draws, rest);
    assert draws == [draws[0], draws[1]];
    Exchanges(cfg, s.shared, g.query, g.verifier, g.signIn.me, code, row, s.now, draws[0], draws[1]);
  }

  lemma ServeIntrospection(cfg: Config, states: seq<Sys>, events: seq<Event>, token: string, row: AccessToken, draws: seq<Choice>, rest: seq<Choice>)
    returns (states': seq<Sys>, events': seq<Event>)
    requires (hide Step, Advance; Idle(cfg, states, events, draws + rest)) && |draws| == 1
    requires token != "" && row.tokenHash == HashToken(cfg.lib, token) && row.revokedAt == None
    requires var s := states[|events|]; row.tokenHash in s.shared.db.tokens && s.shared.db.tokens[row.tokenHash] == row && s.now < row.expiresAt
    ensures Idle(cfg, states', events', rest) && LongerBy(states, events, states', events')
    ensures Answers(cfg, states', events', |events|,
                    Some(TokenActive(row.clientId, row.scope, row.me, Unix(row.expiresAt), Unix(row.createdAt), row.profile)))
  {
    hide IsRun, Orderly, Drive, Answers, AllFresh, Advance, Fresh, Inv;
    IdleReady(cfg, states, events, draws + rest, 0);
    var s, r := states[|events|], Introspect(token);
    EnoughDraws(cfg, s.shared, Arrived(r), s.now, draws);
    states', events' := Serving(cfg, states, events, r, draws, rest);
    assert draws == [draws[0]];
    Introspects(cfg, s.shared, token, row, s.now, draws[0]);
  }

  // ---- From beginning to end ---------------------------------------------------------------------

  /** What the guest brings fits the secrets drawn for the request, and the lifetimes are more than a second. */
  ghost predicate FitsDraws(cfg: Config, g: Guest, now: int, draws: seq<Choice>) {
    && |draws| == 12 && draws[1].reachable && draws[3].backend == g.signIn.backend && draws[4].login == Some(g.login)
    && HonestLogin(cfg, StoredRequest(cfg, g.query, g.signIn, now, draws[1]), g.backend, g.callback, g.login)
    && draws[4].a != "" && draws[7].a != "" && draws[10].a != ""
    && cfg.requestTtl > SECOND && cfg.codeTtl > SECOND && cfg.tokenTtl > SECOND
  }

  lemma ServeLogin(cfg: Config, states: seq<Sys>, events: seq<Event>, g: Guest, draws: seq<Choice>)
    returns (states': seq<Sys>, events': seq<Event>, code: string, row: AuthorizationCode)
    requires (hide Step, Advance; Idle(cfg, states, events, draws)) && Welcome(cfg, states[|events|].shared.db, g) && FitsDraws(cfg, g, states[|events|].now, draws)
    ensures Idle(cfg, states', events', draws[9..]) && states'[|events'|].now == states[|events|].now
    ensures code != "" && CodeFor(cfg, g.query, g.signIn.me, code, row) && row.expiresAt == Whole(states[|events|].now + cfg.codeTtl)
    ensures var db := states'[|events'|].shared.db; row.codeHash in db.codes && db.codes[row.codeHash] == row
  {
    hide IsRun, Answers, AllFresh, Welcome, HonestLogin;
    var now := states[|events|].now;
    var request := StoredRequest(cfg, g.query, g.signIn, now, draws[1]);
    Truncation(now, cfg.requestTtl);
    Truncation(now, cfg.codeTtl);
    assert draws == draws[..2] + draws[2..] && draws[2..] == draws[2..6] + draws[6..] && draws[6..] == draws[6..9] + draws[9..];
    var reply;
    states', events' := ServeAuthorize(cfg, states, events, g, draws[..2], draws[2..]);
    states', events', reply := ServeCallback(cfg, states', events', g, request, draws[2..6], draws[6..]);
    if cfg.consentRequired {
      code := draws[7].a;
      states', events' := ServeApproval(cfg, states', events', StoredConsent(cfg, request, g.login.identity, now, draws[4]), draws[6..9], draws[9..]);
    } else {
      code := draws[4].a;
      IdleSkips(cfg, states', events', draws[6..9], draws[9..]);
    }
    row := states'[|events'|].shared.db.codes[HashToken(cfg.lib, code)];
  }

  /** Draws that are not needed need not be made. */
  lemma IdleSkips(cfg: Config, states: seq<Sys>, events: seq<Event>, draws: seq<Choice>, rest: seq<Choice>)
    requires Idle(cfg, states, events, draws + rest)
    ensures Idle(cfg, states, events, rest)
  {
    hide IsRun, AllFresh, HashToken;
    RestFresh(cfg, states[|events|], states[|events|], draws, rest);
  }

  /** A code exchanged and its token looked up: a draw for the exchange, one for the token and one for the lookup. */
  lemma ServeToken(cfg: Config, states: seq<Sys>, events: seq<Event>, g: Guest, code: string, row: AuthorizationCode, draws: seq<Choice>)
    returns (states': seq<Sys>, events': seq<Event>, i: nat, j: nat)
    requires (hide Step, Advance; Idle(cfg, states, events, draws)) && |draws| == 3 && draws[1].a != "" && cfg.tokenTtl > SECOND
    requires g.verifier != "" && g.query.challenge == cfg.lib.digest(g.verifier) && code != "" && CodeFor(cfg, g.query, g.signIn.me, code, row)
    requires var s := states[|events|]; row.codeHash in s.shared.db.codes && s.shared.db.codes[row.codeHash] == row && s.now < row.expiresAt
    ensures IsRun(cfg, states', events') && i < j
    ensures AnswersAt(cfg, states', events', i, Some(TokenGranted(draws[1].a, g.query.scope, g.signIn.me, row.profile)))
    ensures var now := states[|events|].now;
            AnswersAt(cfg, states', events', j, Some(TokenActive(g.query.clientId, g.query.scope, g.signIn.me, Unix(now + cfg.tokenTtl), Unix(now), row.profile)))
  {
    hide IsRun, AllFresh, AnswersAt, CodeFor;
    var now := states[|events|].now;
    Truncation(now, cfg.tokenTtl);
    assert draws == draws[..2] + draws[2..] && draws[2..] == draws[2..] + [];
    var t, e := ServeExchange(cfg, states, events, g, code, row, draws[..2], draws[2..]);
    var granted := Some(TokenGranted(draws[1].a, g.query.scope, g.signIn.me, row.profile));
    i := AnswerIndex(cfg, t, e, |events|, granted);
    var token := t[|e|].shared.db.tokens[HashToken(cfg.lib, draws[1].a)];
    states', events' := ServeIntrospection(cfg, t, e, draws[1].a, token, draws[2..], []);
    j := AnswerIndex(cfg, states', events', |e|,
                     Some(TokenActive(token.clientId, token.scope, token.me, Unix(token.expiresAt), Unix(token.createdAt), token.profile)));
    AnswerStays(cfg, t, e, states', events', i, granted);
  }

  lemma AnswerIndex(cfg: Config, states: seq<Sys>, events: seq<Event>, from: nat, reply: Option<Reply>) returns (i: nat)
    requires Answers(cfg, states, events, from, reply) && reply.Some?
    ensures from <= i && AnswersAt(cfg, states, events, i, reply)
  {
    hide AnswersAt;
    i :| from <= i && AnswersAt(cfg, states, events, i, reply);
  }

  /**
   Any idle run goes on with an honest guest's sign-in, one request served after the other, to a
   token granted and then reported active.
   */
  lemma SignInServed(cfg: Config, states: seq<Sys>, events: seq<Event>, g: Guest, draws: seq<Choice>)
    returns (states': seq<Sys>, events': seq<Event>, i: nat, j: nat, doc: Option<ProfileDoc>)
    requires (hide Step, Advance; Idle(cfg, states, events, draws)) && Welcome(cfg, states[|events|].shared.db, g) && FitsDraws(cfg, g, states[|events|].now, draws)
    ensures IsRun(cfg, states', events') && i < j
    ensures AnswersAt(cfg, states', events', i, Some(TokenGranted(draws[10].a, g.query.scope, g.signIn.me, doc)))
    ensures var now := states[|events|].now;
            AnswersAt(cfg, states', events', j, Some(TokenActive(g.query.clientId, g.query.scope, g.signIn.me, Unix(now + cfg.tokenTtl), Unix(now), doc)))
  {
    hide IsRun, AllFresh, HonestLogin, AnswersAt, CodeFor, Welcome;
    var now := states[|events|].now;
    var t, e, code, row := ServeLogin(cfg, states, events, g, draws);
    VerifierAnswers(cfg, states[|events|].shared.db, g);
    Truncation(now, cfg.codeTtl);
    assert draws[9..][1] == draws[10];
    states', events', i, j := ServeToken(cfg, t, e, g, code, row, draws[9..]);
    doc := row.profile;
  }

  lemma AnswerStays(cfg: Config, states: seq<Sys>, events: seq<Event>, states': seq<Sys>, events': seq<Event>, i: nat, reply: Option<Reply>)
    requires AnswersAt(cfg, states, events, i, reply) && LongerBy(states, events, states', events')
    ensures i < |events| && AnswersAt(cfg, states', events', i, reply)
  {
    hide Enabled, ReplyOf;
    assert states'[i] == states[i] && events'[i] == events[i];
  }

  // ---- Requests in between each other ------------------------------------------------------------------

  /** A run that ends here, with these draws still to make. */
  ghost predicate Here(cfg: Config, states: seq<Sys>, events: seq<Event>, s: Shared, now: int, procs: map<nat, Proc>, draws: seq<Choice>) {
    hide *;
    && IsRun(cfg, states, events) && |states| == |events| + 1
    && var t := states[|events|];
    t.shared == s && t.now == now && t.procs == procs && AllFresh(cfg, t.issued, t.digests, draws)
  }

  lemma HereIs(cfg: Config, states: seq<Sys>, events: seq<Event>, s: Shared, now: int, procs: map<nat, Proc>, draws: seq<Choice>)
    requires (hide *; Here(cfg, states, events, s, now, procs, draws))
    ensures IsRun(cfg, states, events) && |states| == |events| + 1
    ensures states[|events|].shared == s && states[|events|].procs == procs && states[|events|].now == now
  {
    hide IsRun, AllFresh;
  }

  lemma HereReady(cfg: Config, states: seq<Sys>, events: seq<Event>, s: Shared, now: int, procs: map<nat, Proc>, draws: seq<Choice>)
    requires (hide Step, Advance; Here(cfg, states, events, s, now, procs, draws)) && draws != []
    ensures Ready(cfg, states[|events|], draws[0])
  {
    hide IsRun, Inv, Fresh;
    RunKeepsInv(cfg, states, events, |events|);
    EachFresh(cfg, states[|events|], states[|events|].issued, states[|events|].digests, draws, 0);
  }

  lemma StartOne(cfg: Config, states: seq<Sys>, events: seq<Event>, s: Shared, now: int, procs: map<nat, Proc>, draws: seq<Choice>, pid: nat, r: Request)
    returns (states': seq<Sys>, events': seq<Event>)
    requires (hide *; Here(cfg, states, events, s, now, procs, draws)) && pid !in procs
    ensures Here(cfg, states', events', s, now, procs[pid := Arrived(r)], draws)
    ensures |states'| == |states| + 1 == |events| + 2 && states'[..|states|] == states && events' == events + [Event.Start(pid, r)]
    ensures ProviderCodes(events') == ProviderCodes(events) + CodeIn(r)
  {
    hide IsRun, AllFresh, Fresh;
    OneMoreEvent(events, Event.Start(pid, r));
    var e := Event.Start(pid, r);
    LongerRun(cfg, states, events, e);
    states', events' := states + [Step(cfg, states[|events|], e)], events + [e];
  }

  lemma StepOne(cfg: Config, states: seq<Sys>, events: seq<Event>, s: Shared, now: int, procs: map<nat, Proc>, draws: seq<Choice>, pid: nat)
    returns (states': seq<Sys>, events': seq<Event>)
    requires (hide *; Here(cfg, states, events, s, now, procs, draws)) && pid in procs && draws != [] && ChoiceOk(procs[pid], draws[0])
    ensures var o := Advance(cfg, s, procs[pid], now, draws[0]);
            && Here(cfg, states', events', o.shared, now, SetProc(procs, pid, o.next), draws[1..])
            && |states| == |events| + 1
            && states' == states + [Commit(cfg, states[|events|], pid, draws[0], o)] && events' == events + [Event.Resume(pid, draws[0])]
    ensures ProviderCodes(events') == ProviderCodes(events)
  {
    hide IsRun, Advance, ChoiceOk, Commit, Initial;
    OneMoreEvent(events, Event.Resume(pid, draws[0]));
    var t, o := states[|events|], Advance(cfg, s, procs[pid], now, draws[0]);
    OneMoreStep(cfg, states, events, pid, draws[0]);
    states', events' := states + [Commit(cfg, t, pid, draws[0], o)], events + [Event.Resume(pid, draws[0])];
  }

  /** A step that leaves the tables alone and goes on. */
  lemma QuietStep(cfg: Config, states: seq<Sys>, events: seq<Event>, s: Shared, now: int, procs: map<nat, Proc>, draws: seq<Choice>, pid: nat, next: Proc)
    returns (states': seq<Sys>, events': seq<Event>)
    requires (hide *; Here(cfg, states, events, s, now, procs, draws)) && pid in procs && draws != [] && ChoiceOk(procs[pid], draws[0])
    requires Advance(cfg, s, procs[pid], now, draws[0]) == Continue(s, next)
    ensures Here(cfg, states', events', s, now, procs[pid := next], draws[1..]) && ProviderCodes(events') == ProviderCodes(events)
  {
    hide Here, Advance, ChoiceOk;
    states', events' := StepOne(cfg, states, events, s, now, procs, draws, pid);
  }

  /** Two requests that have the same row in hand use it up one after the other. */
  lemma UseTwice(cfg: Config, states: seq<Sys>, events: seq<Event>, s: Shared, now: int, procs: map<nat, Proc>, draws: seq<Choice>, a: nat, b: nat, x: Ticket)
    returns (states': seq<Sys>, events': seq<Event>)
    requires (hide *; Here(cfg, states, events, s, now, procs, draws)) && |draws| >= 2 && a in procs && b in procs && a != b
    requires UsesUp(cfg, procs[a], draws[0], x) && UsesUp(cfg, procs[b], draws[1], x)
    ensures IsRun(cfg, states', events') && |states'| == |events'| + 1
    ensures GainedTwice(states'[|events'|].hist, x) && Overlaps(cfg, states', events', |events'|, x)
    ensures ProviderCodes(events') == ProviderCodes(events)
  {
    hide IsRun, Advance, UsesUp, Commit, Fresh, Inv, Gained, Overlaps;
    var u := states[|events|];
    RunKeepsInv(cfg, states, events, |events|);
    UserNotSearching(cfg, procs[a], draws[0], x);
    UserNotSearching(cfg, procs[b], draws[1], x);
    EachFresh(cfg, u, u.issued, u.digests, draws, 0);
    var t, e := StepOne(cfg, states, events, s, now, procs, draws, a);
    var v := t[|e|];
    EachFresh(cfg, v, v.issued, v.digests, draws[1..], 0);
    var o := Advance(cfg, s, procs[a], now, draws[0]);
    states', events' := StepOne(cfg, t, e, o.shared, now, SetProc(procs, a, o.next), draws[1..], b);
    var g, g' := TwoUsesTwoGains(cfg, u, a, b, x, draws[0], draws[1]);
    TwiceExact(cfg, states', events', |events'|, x);
  }

  lemma UserNotSearching(cfg: Config, p: Proc, ch: Choice, x: Ticket)
    requires UsesUp(cfg, p, ch, x)
    ensures ChoiceOk(p, ch)
  {
    hide CompleteAuth, LoginAllowed;
  }

  lemma HonestUsesUp(cfg: Config, g: Guest, row: AuthRequest, ch: Choice)
    requires HonestLogin(cfg, row, g.backend, g.callback, g.login) && ch.login == Some(g.login)
    ensures UsesUp(cfg, Found(g.callback, row), ch, OfRequest(row.id))
  {
    hide LoginAllowed;
  }

  /** The same callback, with another code of the provider. */
  function WithCode(g: Guest, code: string): Guest {
    g.(callback := g.callback.(code := code))
  }

  lemma ComesBackAgain(cfg: Config, g: Guest, row: AuthRequest, code: string)
    requires HonestLogin(cfg, row, g.backend, g.callback, g.login) && code != ""
    ensures HonestLogin(cfg, row, g.backend, WithCode(g, code).callback, g.login)
  {
    hide LoginAllowed;
  }

  /** The callback `q` is about to look the row up. */
  ghost predicate LooksFor(cfg: Config, s: Shared, now: int, g: Guest, row: AuthRequest) {
    Waiting(s.db, row, now) && HonestLogin(cfg, row, g.backend, g.callback, g.login)
  }

  function TodoOf(cfg: Config, g: Guest): set<string> {
    if g.backend == "" then cfg.backends.Keys else {g.backend}
  }

  lemma CallbackWay(cfg: Config, s: Shared, now: int, g: Guest, row: AuthRequest, c0: Choice, c1: Choice, c2: Choice)
    requires LooksFor(cfg, s, now, g, row) && c1.backend == row.backend && c2.login == Some(g.login)
    ensures Advance(cfg, s, Arrived(Callback(g.backend, g.callback)), now, c0) == Continue(s, Searching(g.callback, TodoOf(cfg, g)))
    ensures ChoiceOk(Searching(g.callback, TodoOf(cfg, g)), c1)
    ensures Advance(cfg, s, Searching(g.callback, TodoOf(cfg, g)), now, c1) == Continue(s, Found(g.callback, row))
    ensures UsesUp(cfg, Found(g.callback, row), c2, OfRequest(row.id))
  {
    hide Advance, Waiting, HonestLogin, UsesUp;
    CallbackGoesOn(cfg, s, g.backend, g.callback, row, g.login, now, c0);
    StateMatches(cfg, row, g.backend, g.callback, g.login);
    SearchStep(cfg, s, g.callback, TodoOf(cfg, g), row, now, c1);
    HonestUsesUp(cfg, g, row, c2);
  }

  /**
   The person answers the provider's page twice and comes back with one state and two codes: both
   callbacks find the request before either deletes it.
   */
  lemma TwoCallbacks(cfg: Config, states: seq<Sys>, events: seq<Event>, g: Guest, row: AuthRequest, code: string, draws: seq<Choice>)
    returns (states': seq<Sys>, events': seq<Event>)
    requires (hide Step, Advance; Idle(cfg, states, events, draws)) && |draws| == 6
    requires var s := states[|events|];
             && row.id in s.shared.db.requests && s.shared.db.requests[row.id] == row && s.now <= row.expiresAt
             && HonestLogin(cfg, row, g.backend, g.callback, g.login) && code != ""
    requires draws[2].backend == row.backend && draws[3].backend == row.backend && draws[4].login == Some(g.login) && draws[5].login == Some(g.login)
    ensures IsRun(cfg, states', events') && |states'| == |events'| + 1
    ensures GainedTwice(states'[|events'|].hist, OfRequest(row.id)) && Overlaps(cfg, states', events', |events'|, OfRequest(row.id))
    ensures ProviderCodes(events') == ProviderCodes(events) + [g.callback.code, code]
  {
    hide IsRun, Advance, Here, AllFresh, HonestLogin, UsesUp, Waiting, Overlaps, GainedTwice, Inv, Fresh, TodoOf, ChoiceOk;
    IdleReady(cfg, states, events, draws, 0);
    var u, h := states[|events|], WithCode(g, code);
    var s, now, todo := u.shared, u.now, TodoOf(cfg, g);
    var q, r := g.callback, h.callback;
    StoredNow(cfg, u, row);
    StillWaiting(cfg, u, row);
    ComesBackAgain(cfg, g, row, code);
    CallbackWay(cfg, s, now, g, row, draws[0], draws[2], draws[4]);
    CallbackWay(cfg, s, now, h, row, draws[1], draws[3], draws[5]);
    SameTodo(cfg, g, code);
    ArrivedChoosesNothing(Callback(g.backend, q), draws[0]);
    ArrivedChoosesNothing(Callback(g.backend, r), draws[1]);
    IdleIsHere(cfg, states, events, draws);
    var procs: map<nat, Proc> := map[];
    states', events' := StartOne(cfg, states, events, s, now, procs, draws, 0, Callback(g.backend, q));
    procs := procs[0 := Arrived(Callback(g.backend, q))];
    states', events' := StartOne(cfg, states', events', s, now, procs, draws, 1, Callback(g.backend, r));
    procs := procs[1 := Arrived(Callback(g.backend, r))];
    states', events' := QuietStep(cfg, states', events', s, now, procs, draws, 0, Searching(q, todo));
    procs := procs[0 := Searching(q, todo)];
    states', events' := QuietStep(cfg, states', events', s, now, procs, draws[1..], 1, Searching(r, todo));
    procs := procs[1 := Searching(r, todo)];
    states', events' := QuietStep(cfg, states', events', s, now, procs, draws[1..][1..], 0, Found(q, row));
    procs := procs[0 := Found(q, row)];
    states', events' := QuietStep(cfg, states', events', s, now, procs, draws[1..][1..][1..], 1, Found(r, row));
    procs := procs[1 := Found(r, row)];
    states', events' := UseTwice(cfg, states', events', s, now, procs, draws[1..][1..][1..][1..], 0, 1, OfRequest(row.id));
  }

  lemma SameTodo(cfg: Config, g: Guest, code: string)
    ensures TodoOf(cfg, WithCode(g, code)) == TodoOf(cfg, g)
  {
  }

  lemma ArrivedChoosesNothing(r: Request, ch: Choice)
    ensures ChoiceOk(Arrived(r), ch)
  {
  }

  lemma IdleIsHere(cfg: Config, states: seq<Sys>, events: seq<Event>, draws: seq<Choice>)
    requires (hide Step, Advance; Idle(cfg, states, events, draws))
    ensures Here(cfg, states, events, states[|events|].shared, states[|events|].now, map[], draws)
  {
    hide IsRun, AllFresh;
  }

  /** The consent page sent twice. */
  lemma TwoApprovals(cfg: Config, states: seq<Sys>, events: seq<Event>, row: ConsentRequest, draws: seq<Choice>)
    returns (states': seq<Sys>, events': seq<Event>)
    requires (hide Step, Advance; Idle(cfg, states, events, draws)) && |draws| == 4
    requires var s := states[|events|]; row.id in s.shared.db.consents && s.shared.db.consents[row.id] == row && s.now < row.expiresAt
    ensures IsRun(cfg, states', events') && |states'| == |events'| + 1
    ensures GainedTwice(states'[|events'|].hist, OfConsent(row.id)) && Overlaps(cfg, states', events', |events'|, OfConsent(row.id))
  {
    hide IsRun, Advance, Here, AllFresh, Overlaps, GainedTwice, Fresh;
    var u := states[|events|];
    var s, now, r, p := u.shared, u.now, ConsentAnswer(row.id, row.csrfToken, "approve"), Matched(row, row.csrfToken, "approve");
    IdleIsHere(cfg, states, events, draws);
    states', events' := StartOne(cfg, states, events, s, now, map[], draws, 0, r);
    states', events' := StartOne(cfg, states', events', s, now, map[0 := Arrived(r)], draws, 1, r);
    MatchStep(cfg, s, row, now, draws[0]);
    MatchStep(cfg, s, row, now, draws[1]);
    states', events' := QuietStep(cfg, states', events', s, now, map[0 := Arrived(r)][1 := Arrived(r)], draws, 0, p);
    states', events' := QuietStep(cfg, states', events', s, now, map[0 := Arrived(r)][1 := Arrived(r)][0 := p], draws[1..], 1, p);
    states', events' := UseTwice(cfg, states', events', s, now, map[0 := Arrived(r)][1 := Arrived(r)][0 := p][1 := p], draws[1..][1..], 0, 1, OfConsent(row.id));
  }
}
