/**
 An honest sign-in succeeds, in any run: its five requests are answered as
 they should be, whatever else the bridge serves, deletes and forgets
 meanwhile, if each comes less than a lifetime, less one second, after the
 one before and nobody else brings the secrets it hangs on.
 */
module HonestRun {
  import opened Prelude
  import opened Library
  import opened Config
  import opened Tables
  import opened Handlers
  import opened Runs
  import opened Invariant
  import opened HistorySteps
  import opened Preservation
  import opened Traces
  import opened OneUse
  import opened Introspection
  import opened Serial
  import opened Overlap
  import opened Survival
  import opened HonestVisits

  // ---- A request from its first step to its answer --------------------------------------------

  /** Request `pid`, which takes its first step at `first` and is answered at step `answer`. */
  datatype Served = Served(pid: nat, first: nat, answer: nat)

  ghost predicate RepliesAt(cfg: Config, states: seq<Sys>, events: seq<Event>, i: nat, pid: nat) {
    hide Step, Advance, Welcome, HonestLogin;
    Moves(states, events, i, pid) && OutcomeAt(cfg, states, i, states[i].procs[pid], events[i].choice).reply.Some?
  }

  ghost predicate Serves(cfg: Config, states: seq<Sys>, events: seq<Event>, v: Served, r: Request) {
    hide Step, Advance, Welcome, HonestLogin;
    && v.first <= v.answer && Moves(states, events, v.first, v.pid) && states[v.first].procs[v.pid] == Arrived(r)
    && RepliesAt(cfg, states, events, v.answer, v.pid)
    && forall i :: v.first <= i < v.answer ==> !RepliesAt(cfg, states, events, i, v.pid)
  }

  /** What the step drew. */
  function DrawAt(events: seq<Event>, i: nat): Choice {
    if i < |events| && events[i].Resume? then events[i].choice else Choice("", "", "", false, "", None)
  }

  lemma OthersStay(cfg: Config, states: seq<Sys>, events: seq<Event>, i: nat, pid: nat)
    requires (hide Step, Advance, Welcome, HonestLogin; IsRun(cfg, states, events)) && i < |events| && pid in states[i].procs
    requires !Moves(states, events, i, pid)
    ensures pid in states[i + 1].procs && states[i + 1].procs[pid] == states[i].procs[pid]
  {
    hide Advance, Fresh, Initial, ChoiceOk, Record;
    OneStep(cfg, states, events, i);
  }

  lemma MoveStep(cfg: Config, states: seq<Sys>, events: seq<Event>, i: nat, pid: nat)
    requires (hide Step, Advance, Welcome, HonestLogin; IsRun(cfg, states, events)) && Moves(states, events, i, pid)
    ensures i < |events| && |states| == |events| + 1
    ensures Ready(cfg, states[i], events[i].choice) && ChoiceOk(states[i].procs[pid], events[i].choice)
    ensures Enabled(cfg, states[i], events[i])
    ensures var o := OutcomeAt(cfg, states, i, states[i].procs[pid], events[i].choice);
            && ReplyOf(cfg, states[i], events[i]) == o.reply
            && states[i + 1] == Commit(cfg, states[i], pid, events[i].choice, o)
            && (o.next.Some? ==> pid in states[i + 1].procs && states[i + 1].procs[pid] == o.next.value)
  {
    hide Advance, Fresh, IsRun, Inv, ChoiceOk, Record;
    OneStep(cfg, states, events, i);
    ResumeStep(cfg, states, events, i);
    RunKeepsInv(cfg, states, events, i);
  }

  /** A request whose next step answers. */
  predicate AnswersNext(p: Proc) {
    p.Bound? || p.Matched? || p.Redeemed?
  }

  lemma AnswersAtOnce(cfg: Config, s: Shared, p: Proc, now: int, ch: Choice)
    requires AnswersNext(p)
    ensures Advance(cfg, s, p, now, ch).reply.Some?
  {
    hide CreateAuthRequest, CreateAuthorizationCode, CreateAccessToken;
  }

  /** It waits where it is until it answers. */
  lemma {:induction false} Waits(cfg: Config, states: seq<Sys>, events: seq<Event>, v: Served, r: Request, p: Proc, m: nat)
    requires (hide Step, Advance, Welcome, HonestLogin; IsRun(cfg, states, events)) && Serves(cfg, states, events, v, r) && v.first < m <= v.answer && AnswersNext(p)
    requires v.pid in states[v.first + 1].procs && states[v.first + 1].procs[v.pid] == p
    ensures v.pid in states[m].procs && states[m].procs[v.pid] == p
  {
    hide Advance, IsRun;
    if m > v.first + 1 {
      Waits(cfg, states, events, v, r, p, m - 1);
      assert !RepliesAt(cfg, states, events, m - 1, v.pid);
      if Moves(states, events, m - 1, v.pid) {
        AnswersAtOnce(cfg, states[m - 1].shared, p, states[m - 1].now, events[m - 1].choice);
      }
      OthersStay(cfg, states, events, m - 1, v.pid);
    }
  }

  /** A first step that goes on to `p`, which answers next: the request is at `p` when it answers. */
  lemma GoesOn(cfg: Config, states: seq<Sys>, events: seq<Event>, v: Served, r: Request, p: Proc)
    requires (hide Step, Advance, Welcome, HonestLogin; IsRun(cfg, states, events)) && Serves(cfg, states, events, v, r) && AnswersNext(p)
    requires var o := OutcomeAt(cfg, states, v.first, Arrived(r), events[v.first].choice); o.reply == None && o.next == Some(p)
    ensures v.first < v.answer && v.pid in states[v.answer].procs && states[v.answer].procs[v.pid] == p
  {
    hide Advance, IsRun, Inv, Fresh, ChoiceOk, Commit;
    MoveStep(cfg, states, events, v.first, v.pid);
    Waits(cfg, states, events, v, r, p, v.answer);
  }

  // ---- /authorize ---------------------------------------------------------------------------------

  /** An honest guest asks, for a profile known then, and the provider can be reached. */
  ghost predicate Asking(cfg: Config, states: seq<Sys>, events: seq<Event>, g: Guest, a: Served) {
    hide Step, Advance, Welcome, HonestLogin;
    && Serves(cfg, states, events, a, Authorize(g.query, g.fetched))
    && Welcome(cfg, states[a.first].shared.db, g) && DrawAt(events, a.answer).reachable
  }

  /** The row that the answer leaves. */
  function RowAt(cfg: Config, states: seq<Sys>, events: seq<Event>, g: Guest, a: Served): AuthRequest
    requires a.answer < |states|
  {
    StoredRequest(cfg, g.query, g.signIn, states[a.answer].now, DrawAt(events, a.answer))
  }

  lemma UnusedKey(cfg: Config, s: Sys, ch: Choice)
    requires Ready(cfg, s, ch)
    ensures ch.a !in s.shared.db.requests && ch.a !in s.shared.db.consents
    ensures HashToken(cfg.lib, ch.a) !in s.shared.db.codes && HashToken(cfg.lib, ch.a) !in s.shared.db.tokens
  {
    hide Traced, ProfilesKept, CustomKept, VaultKept, ProcsOk;
  }

  lemma AskingAnswered(cfg: Config, states: seq<Sys>, events: seq<Event>, g: Guest, a: Served)
    requires (hide Step, Advance, Welcome, HonestLogin; IsRun(cfg, states, events)) && Asking(cfg, states, events, g, a)
    ensures a.answer < |events| && Enabled(cfg, states[a.answer], events[a.answer])
    ensures var ch := DrawAt(events, a.answer);
            ReplyOf(cfg, states[a.answer], events[a.answer]) == Some(ToProvider(g.signIn.backend, ch.b, ch.c))
    ensures var row := RowAt(cfg, states, events, g, a);
            row.id in states[a.answer + 1].shared.db.requests && states[a.answer + 1].shared.db.requests[row.id] == row
  {
    hide Advance, IsRun, Inv, Fresh, ChoiceOk, HonestQuery, Known, Record, StoredRequest;
    PassesOn(cfg, states[a.first].shared, g.query, g.fetched, g.verifier, g.signIn, states[a.first].now, events[a.first].choice);
    GoesOn(cfg, states, events, a, Authorize(g.query, g.fetched), Bound(g.query, g.signIn));
    MoveStep(cfg, states, events, a.answer, a.pid);
    UnusedKey(cfg, states[a.answer], events[a.answer].choice);
    SendsToProvider(cfg, states[a.answer].shared, g.query, g.signIn, states[a.answer].now, events[a.answer].choice);
    RowNamed(cfg, states, events, g, a);
  }

  lemma RowNamed(cfg: Config, states: seq<Sys>, events: seq<Event>, g: Guest, a: Served)
    requires a.answer < |states|
    ensures RowAt(cfg, states, events, g, a).id == DrawAt(events, a.answer).a
    ensures RowAt(cfg, states, events, g, a).expiresAt == Whole(states[a.answer].now + cfg.requestTtl)
  {
  }

  // ---- The callback ---------------------------------------------------------------------------------

  /** Some step before `n`, other than `own`, is the first of a callback with this state. */
  ghost predicate StateUsed(states: seq<Sys>, events: seq<Event>, n: nat, own: nat, state: string) {
    exists i: nat :: i < n && i != own && i < |events| && i < |states| && events[i].Resume? && events[i].pid in states[i].procs
                     && BringsState(states[i].procs[events[i].pid], state)
  }

  predicate BringsState(p: Proc, state: string) {
    p.Arrived? && p.request.Callback? && p.request.callback.state == state
  }

  /** The person comes back in time with an entitled identity, and nobody else comes with this state. */
  ghost predicate Returning(cfg: Config, states: seq<Sys>, events: seq<Event>, g: Guest, a: Served, b: Served) {
    hide *;
    && a.answer < b.first <= b.answer < |states|
    && Serves(cfg, states, events, b, Callback(g.backend, g.callback))
    && states[b.answer].now < states[a.answer].now + cfg.requestTtl - SECOND
    && HonestLogin(cfg, RowAt(cfg, states, events, g, a), g.backend, g.callback, g.login) && DrawAt(events, b.answer).login == Some(g.login)
    && !StateUsed(states, events, b.answer, b.first, g.callback.state)
  }

  /** The request's row is still there, and the callback, if it came, is looking for it or has found it. */
  ghost predicate OnTheWay(s: Sys, row: AuthRequest, b: Served, m: nat, q: CallbackQuery) {
    && row.id in s.shared.db.requests && row.id in s.hist.requests && s.hist.requests[row.id].row == row
    && (m > b.first ==> b.pid in s.procs && Seeking(s.procs[b.pid], q, row))
  }

  predicate Seeking(p: Proc, q: CallbackQuery, row: AuthRequest) {
    p == Found(q, row) || (p.Searching? && p.callback == q && row.backend in p.todo)
  }

  lemma StoredNow(cfg: Config, s: Sys, row: AuthRequest)
    requires (hide *; Inv(cfg, s)) && row.id in s.shared.db.requests && s.shared.db.requests[row.id] == row
    ensures row.id in s.hist.requests && s.hist.requests[row.id].row == row
  {
    hide Traced, ConsentsKept, CodesKept, TokensKept, ProfilesKept, CustomKept, VaultKept, SecretsDrawn, ProcsOk;
  }

  /** A row that has not expired is found by its state. */
  lemma StillWaiting(cfg: Config, s: Sys, row: AuthRequest)
    requires (hide *; Inv(cfg, s)) && row.id in s.shared.db.requests && row.id in s.hist.requests && s.hist.requests[row.id].row == row
    requires s.now <= row.expiresAt
    ensures Waiting(s.shared.db, row, s.now)
  {
    hide Traced, ConsentsKept, CodesKept, TokensKept, ProfilesKept, CustomKept, VaultKept, ProcsOk;
  }

  /** Whoever has the row in hand is the callback that brought its state. */
  lemma OnlyOwnHolds(cfg: Config, states: seq<Sys>, events: seq<Event>, n: nat, own: Served, m: nat, pid: nat, row: AuthRequest)
    requires (hide *; IsRun(cfg, states, events)) && m <= n < |states| && !StateUsed(states, events, n, own.first, row.backendState.state)
    requires Moves(states, events, own.first, own.pid)
    requires row.id in states[m].hist.requests && states[m].hist.requests[row.id].row == row
    requires InHand(states[m].procs, pid, OfRequest(row.id))
    ensures pid == own.pid && own.first < m
  {
    hide IsRun;
    var i := HolderBrought(cfg, states, events, m, pid, OfRequest(row.id));
    assert BringsState(states[i].procs[pid], row.backendState.state);
  }

  lemma SeekingStep(cfg: Config, states: seq<Sys>, events: seq<Event>, m: nat, row: AuthRequest, g: Guest, pid: nat)
    requires (hide Step, Advance, Welcome, HonestLogin; IsRun(cfg, states, events)) && Moves(states, events, m, pid) && Seeking(states[m].procs[pid], g.callback, row)
    requires HonestLogin(cfg, row, g.backend, g.callback, g.login)
    requires row.id in states[m].shared.db.requests && row.id in states[m].hist.requests && states[m].hist.requests[row.id].row == row
    requires states[m].now <= row.expiresAt
    ensures !RepliesAt(cfg, states, events, m, pid) ==> pid in states[m + 1].procs && Seeking(states[m + 1].procs[pid], g.callback, row)
    ensures RepliesAt(cfg, states, events, m, pid) ==> states[m].procs[pid] == Found(g.callback, row)
  {
    hide Advance, IsRun, Inv, Fresh, LoginAllowed, Commit, Waiting;
    MoveStep(cfg, states, events, m, pid);
    StillWaiting(cfg, states[m], row);
    var p, ch := states[m].procs[pid], events[m].choice;
    if p.Searching? {
      SearchStep(cfg, states[m].shared, p.callback, p.todo, row, states[m].now, ch);
    } else {
      FoundReplies(cfg, states[m].shared, p.callback, row, states[m].now, ch);
    }
  }

  lemma FoundReplies(cfg: Config, s: Shared, q: CallbackQuery, row: AuthRequest, now: int, ch: Choice)
    requires !row.backendState.setup
    ensures Advance(cfg, s, Found(q, row), now, ch).reply.Some?
  {
    hide CompleteAuth, LoginAllowed, CreateConsentRequest, CreateAuthorizationCode;
  }

  lemma WayStep(cfg: Config, states: seq<Sys>, events: seq<Event>, g: Guest, row: AuthRequest, b: Served, m: nat)
    requires (hide *; IsRun(cfg, states, events)) && Serves(cfg, states, events, b, Callback(g.backend, g.callback))
    requires m < b.answer < |states| && states[m].now < row.expiresAt && HonestLogin(cfg, row, g.backend, g.callback, g.login)
    requires !StateUsed(states, events, b.answer, b.first, g.callback.state)
    requires OnTheWay(states[m], row, b, m, g.callback)
    ensures OnTheWay(states[m + 1], row, b, m + 1, g.callback)
  {
    hide Advance, IsRun, Inv, Fresh, LoginAllowed, StateUsed, Seeking, Commit, Later;
    RunKeepsInv(cfg, states, events, m);
    if events[m].Resume? && InHand(states[m].procs, events[m].pid, OfRequest(row.id)) {
      OnlyOwnHolds(cfg, states, events, b.answer, b, m, events[m].pid, row);
      SeekingNotDropping(states[m].procs[b.pid], g.callback, row);
    }
    StoredStep(cfg, states, events, m, OfRequest(row.id));
    RunGrows(cfg, states, events, m, m + 1);
    LaterMaps(states[m].hist, states[m + 1].hist);
    if m > b.first && Moves(states, events, m, b.pid) {
      SeekingStep(cfg, states, events, m, row, g, b.pid);
    } else if m > b.first {
      OthersStay(cfg, states, events, m, b.pid);
    } else if m == b.first {
      MoveStep(cfg, states, events, m, b.pid);
      CallbackGoesOn(cfg, states[m].shared, g.backend, g.callback, row, g.login, states[m].now, events[m].choice);
      SeekingStarts(g.callback, if g.backend == "" then cfg.backends.Keys else {g.backend}, row);
    }
  }

  lemma SeekingNotDropping(p: Proc, q: CallbackQuery, row: AuthRequest)
    requires Seeking(p, q, row)
    ensures p != Dropping(row.id)
  {
  }

  lemma SeekingStarts(q: CallbackQuery, todo: set<string>, row: AuthRequest)
    requires row.backend in todo
    ensures Seeking(Searching(q, todo), q, row)
  {
  }

  /** From the answer of `/authorize` to that of the callback. */
  lemma {:induction false} WholeWay(cfg: Config, states: seq<Sys>, events: seq<Event>, g: Guest, row: AuthRequest, b: Served, from: nat, m: nat)
    requires (hide *; IsRun(cfg, states, events)) && Serves(cfg, states, events, b, Callback(g.backend, g.callback))
    requires from <= m <= b.answer < |states| && from <= b.first && states[b.answer].now < row.expiresAt
    requires HonestLogin(cfg, row, g.backend, g.callback, g.login) && !StateUsed(states, events, b.answer, b.first, g.callback.state)
    requires row.id in states[from].shared.db.requests && states[from].shared.db.requests[row.id] == row
    ensures OnTheWay(states[m], row, b, m, g.callback)
  {
    hide IsRun, Inv, LoginAllowed, StateUsed, Serves, HonestLogin, Seeking, Later;
    if m == from {
      RunKeepsInv(cfg, states, events, m);
      StoredNow(cfg, states[m], row);
    } else {
      WholeWay(cfg, states, events, g, row, b, from, m - 1);
      RunGrows(cfg, states, events, m - 1, b.answer);
      WayStep(cfg, states, events, g, row, b, m - 1);
    }
  }

  /** The callback is answered as the login step answers, which leaves the consent or the code. */
  lemma ReturningAnswered(cfg: Config, states: seq<Sys>, events: seq<Event>, g: Guest, a: Served, b: Served)
    requires (hide Step, Advance, Welcome, HonestLogin; IsRun(cfg, states, events)) && Asking(cfg, states, events, g, a) && Returning(cfg, states, events, g, a, b)
    ensures b.answer < |events| && Enabled(cfg, states[b.answer], events[b.answer])
    ensures LoginStored(cfg, RowAt(cfg, states, events, g, a), g.login.identity, states[b.answer].now, DrawAt(events, b.answer),
                        states[b.answer + 1].shared.db, ReplyOf(cfg, states[b.answer], events[b.answer]))
  {
    hide Advance, IsRun, Inv, Fresh, ChoiceOk, HonestLogin, StateUsed, Seeking, Asking, RowAt, LoginStored, Record, Later;
    var row, m := RowAt(cfg, states, events, g, a), b.answer;
    AskingAnswered(cfg, states, events, g, a);
    RowNamed(cfg, states, events, g, a);
    Truncation(states[a.answer].now, cfg.requestTtl);
    WholeWay(cfg, states, events, g, row, b, a.answer + 1, m);
    MoveStep(cfg, states, events, m, b.pid);
    FirstNotLast(cfg, states, events, g, b, row);
    SeekingStep(cfg, states, events, m, row, g, b.pid);
    UnusedKey(cfg, states[m], events[m].choice);
    LoginStep(cfg, states[m].shared, g.backend, g.callback, row, g.login, states[m].now, events[m].choice);
  }

  lemma FirstNotLast(cfg: Config, states: seq<Sys>, events: seq<Event>, g: Guest, b: Served, row: AuthRequest)
    requires Serves(cfg, states, events, b, Callback(g.backend, g.callback)) && HonestLogin(cfg, row, g.backend, g.callback, g.login)
    ensures b.first < b.answer
  {
    hide Advance, LoginAllowed;
    CallbackGoesOn(cfg, states[b.first].shared, g.backend, g.callback, row, g.login, states[b.first].now, events[b.first].choice);
  }

  // ---- Consent ------------------------------------------------------------------------------------------

  /** Some step before `n` is the first of an answer to this consent with its token. */
  ghost predicate ConsentUsed(states: seq<Sys>, events: seq<Event>, n: nat, id: string, csrf: string) {
    exists i: nat :: i < n && i < |events| && i < |states| && events[i].Resume? && events[i].pid in states[i].procs
                     && BringsConsent(states[i].procs[events[i].pid], id, csrf)
  }

  predicate BringsConsent(p: Proc, id: string, csrf: string) {
    p.Arrived? && p.request.ConsentAnswer? && p.request.id == id && p.request.csrf == csrf
  }

  /** The person approves in time, on the page the login led to, and nobody has answered that page before. */
  ghost predicate Approving(cfg: Config, states: seq<Sys>, events: seq<Event>, b: Served, c: Served) {
    hide *;
    var ch := DrawAt(events, b.answer);
    && b.answer < c.first < |states| && Serves(cfg, states, events, c, ConsentAnswer(ch.a, ch.b, "approve"))
    && states[c.first].now < states[b.answer].now + cfg.codeTtl - SECOND
    && !ConsentUsed(states, events, c.first, ch.a, ch.b)
  }

  ghost predicate ConsentWaiting(s: Sys, row: ConsentRequest) {
    row.id in s.shared.db.consents && row.id in s.hist.consents && s.hist.consents[row.id].row == row
  }

  lemma ConsentStoredNow(cfg: Config, s: Sys, row: ConsentRequest)
    requires (hide *; Inv(cfg, s)) && row.id in s.shared.db.consents
    ensures s.shared.db.consents[row.id] == row <==> ConsentWaiting(s, row)
  {
    hide Traced, RequestsKept, CodesKept, TokensKept, ProfilesKept, CustomKept, VaultKept, SecretsDrawn, ProcsOk;
  }

  lemma NobodyHolds(cfg: Config, states: seq<Sys>, events: seq<Event>, n: nat, m: nat, pid: nat, row: ConsentRequest)
    requires (hide *; IsRun(cfg, states, events)) && m <= n < |states| && !ConsentUsed(states, events, n, row.id, row.csrfToken)
    requires ConsentWaiting(states[m], row)
    ensures !InHand(states[m].procs, pid, OfConsent(row.id))
  {
    hide IsRun, InHand;
    if InHand(states[m].procs, pid, OfConsent(row.id)) {
      var i := HolderBrought(cfg, states, events, m, pid, OfConsent(row.id));
    }
  }

  lemma {:induction false} ConsentLasts(cfg: Config, states: seq<Sys>, events: seq<Event>, row: ConsentRequest, n: nat, from: nat, m: nat)
    requires (hide *; IsRun(cfg, states, events)) && from <= m <= n < |states| && states[n].now < row.expiresAt
    requires !ConsentUsed(states, events, n, row.id, row.csrfToken) && ConsentWaiting(states[from], row)
    ensures ConsentWaiting(states[m], row)
  {
    hide IsRun, ConsentUsed, Later, InHand;
    if m > from {
      ConsentLasts(cfg, states, events, row, n, from, m - 1);
      RunGrows(cfg, states, events, m - 1, m);
      RunGrows(cfg, states, events, m - 1, n);
      LaterMaps(states[m - 1].hist, states[m].hist);
      StatesOfRun(cfg, states, events);
      if events[m - 1].Resume? {
        NobodyHolds(cfg, states, events, n, m - 1, events[m - 1].pid, row);
        DropperHolds(states[m - 1].procs, events[m - 1].pid, OfConsent(row.id));
      }
      StoredStep(cfg, states, events, m - 1, OfConsent(row.id));
    }
  }

  lemma DropperHolds(procs: map<nat, Proc>, pid: nat, x: Ticket)
    ensures pid in procs && procs[pid] == Dropper(x) ==> InHand(procs, pid, x)
  {
  }

  /** The consent that the login step left. */
  function ConsentAt(cfg: Config, states: seq<Sys>, events: seq<Event>, g: Guest, a: Served, b: Served): ConsentRequest
    requires a.answer < |states| && b.answer < |states|
  {
    StoredConsent(cfg, RowAt(cfg, states, events, g, a), g.login.identity, states[b.answer].now, DrawAt(events, b.answer))
  }

  lemma ApprovingAnswered(cfg: Config, states: seq<Sys>, events: seq<Event>, g: Guest, a: Served, b: Served, c: Served)
    requires (hide Step, Advance, Welcome, HonestLogin; IsRun(cfg, states, events)) && Asking(cfg, states, events, g, a) && Returning(cfg, states, events, g, a, b)
    requires cfg.consentRequired && Approving(cfg, states, events, b, c)
    ensures c.answer < |events| && Enabled(cfg, states[c.answer], events[c.answer])
    ensures CodeSent(cfg, g, states[c.answer].now, DrawAt(events, c.answer).a, states[c.answer + 1].shared.db, ReplyOf(cfg, states[c.answer], events[c.answer]))
  {
    hide Advance, IsRun, Inv, Fresh, ChoiceOk, HonestLogin, ConsentUsed, StateUsed, Asking, RowAt, Record, Serves, Later;
    StatesOfRun(cfg, states, events);
    var row := ConsentAt(cfg, states, events, g, a, b);
    ReturningAnswered(cfg, states, events, g, a, b);
    ServedMoves(cfg, states, events, c, ConsentAnswer(row.id, row.csrfToken, "approve"));
    Truncation(states[b.answer].now, cfg.codeTtl);
    RunKeepsInv(cfg, states, events, b.answer + 1);
    ConsentStoredNow(cfg, states[b.answer + 1], row);
    ConsentLasts(cfg, states, events, row, c.first, b.answer + 1, c.first);
    RunKeepsInv(cfg, states, events, c.first);
    ConsentStoredNow(cfg, states[c.first], row);
    MatchStep(cfg, states[c.first].shared, row, states[c.first].now, events[c.first].choice);
    GoesOn(cfg, states, events, c, ConsentAnswer(row.id, row.csrfToken, "approve"), Matched(row, row.csrfToken, "approve"));
    MoveStep(cfg, states, events, c.answer, c.pid);
    UnusedKey(cfg, states[c.answer], events[c.answer].choice);
    ApprovalStep(cfg, states[c.answer].shared, row, states[c.answer].now, events[c.answer].choice);
    CodeFromConsent(cfg, states, events, g, a, b);
  }

  lemma ServedMoves(cfg: Config, states: seq<Sys>, events: seq<Event>, v: Served, r: Request)
    requires Serves(cfg, states, events, v, r)
    ensures Moves(states, events, v.first, v.pid) && Moves(states, events, v.answer, v.pid)
  {
    hide Advance;
  }

  lemma CodeFromConsent(cfg: Config, states: seq<Sys>, events: seq<Event>, g: Guest, a: Served, b: Served)
    requires a.answer < |states| && b.answer < |states|
    ensures var row, consent := RowAt(cfg, states, events, g, a), ConsentAt(cfg, states, events, g, a, b);
            && consent.redirectUri == g.query.redirectUri && consent.clientState == g.query.state && consent.me == g.signIn.me
            && consent.clientId == g.query.clientId && consent.scope == g.query.scope && consent.challenge == g.query.challenge
            && row.redirectUri == g.query.redirectUri && row.clientState == g.query.state && row.me == g.signIn.me
            && row.clientId == g.query.clientId && row.scope == g.query.scope && row.challenge == g.query.challenge
  {
  }

  // ---- The code ---------------------------------------------------------------------------------------------

  /** The requests of a sign-in up to its code; the approval counts only where consent is required. */
  ghost predicate SigningIn(cfg: Config, states: seq<Sys>, events: seq<Event>, g: Guest, a: Served, b: Served, c: Served) {
    && Asking(cfg, states, events, g, a) && Returning(cfg, states, events, g, a, b)
    && (cfg.consentRequired ==> Approving(cfg, states, events, b, c))
  }

  /** The step that sends the code. */
  function IssuedAt(cfg: Config, b: Served, c: Served): nat {
    if cfg.consentRequired then c.answer else b.answer
  }

  lemma CodeIssued(cfg: Config, states: seq<Sys>, events: seq<Event>, g: Guest, a: Served, b: Served, c: Served)
    requires (hide Step, Advance, Welcome, HonestLogin; IsRun(cfg, states, events)) && SigningIn(cfg, states, events, g, a, b, c)
    ensures var i := IssuedAt(cfg, b, c);
            && i < |events| && Enabled(cfg, states[i], events[i])
            && CodeSent(cfg, g, states[i].now, DrawAt(events, i).a, states[i + 1].shared.db, ReplyOf(cfg, states[i], events[i]))
  {
    hide IsRun, Asking, Returning, Approving, ReplyOf, Enabled;
    if cfg.consentRequired {
      ApprovingAnswered(cfg, states, events, g, a, b, c);
    } else {
      ReturningAnswered(cfg, states, events, g, a, b);
      AnsweredInRun(cfg, states, events, g, a, b);
      CodeFromConsent(cfg, states, events, g, a, b);
    }
  }

  lemma AnsweredInRun(cfg: Config, states: seq<Sys>, events: seq<Event>, g: Guest, a: Served, b: Served)
    requires Asking(cfg, states, events, g, a) && Returning(cfg, states, events, g, a, b)
    ensures a.answer < b.answer < |states|
  {
    hide Serves, Welcome, HonestLogin, StateUsed;
  }

  /** Some step before `n` presents the code. */
  ghost predicate CodeUsed(cfg: Config, states: seq<Sys>, events: seq<Event>, n: nat, hash: string) {
    exists i: nat :: i < n && i < |events| && i < |states| && Presents(cfg, states[i], events[i], hash)
  }

  lemma PresentedShape(cfg: Config, s: Shared, p: Proc, now: int, ch: Choice)
    requires (hide *; Advance(cfg, s, p, now, ch).note.CodePresented?)
    ensures p.Arrived?
    ensures var hash := Advance(cfg, s, p, now, ch).note.codeHash;
            match p.request
            case Exchange(f) => f.grantType == "authorization_code" && f.code != "" && HashToken(cfg.lib, f.code) == hash
            case CodeProfile(f) => f.code != "" && HashToken(cfg.lib, f.code) == hash
            case _ => false
  {
    hide CheckAuthorize, ResolveProfile, RequestedMe, LoginAllowed, PresentationOk, EditOk, OpenSetup, ConsumeAuthorizationCode, CompleteAuth,
      NewProfile, ClaimedName, CreateManagedProfile;
  }

  /** What nobody presented is not marked presented. */
  lemma {:induction false} NotPresented(cfg: Config, states: seq<Sys>, events: seq<Event>, n: nat, hash: string)
    requires (hide *; IsRun(cfg, states, events)) && n < |states| && !CodeUsed(cfg, states, events, n, hash)
    ensures hash !in states[n].hist.presented
  {
    hide Advance, Enabled, Fresh, Record, Presents, Purge, SetProc;
    if n > 0 {
      hide Initial;
      NotPresented(cfg, states, events, n - 1, hash);
      OneStep(cfg, states, events, n - 1);
      if events[n - 1].Resume? {
        ResumeStep(cfg, states, events, n - 1);
        var s, pid, ch := states[n - 1], events[n - 1].pid, events[n - 1].choice;
        var note := OutcomeAt(cfg, states, n - 1, s.procs[pid], ch).note;
        RecordedRest(s.hist, pid, s.now, note);
        if note.CodePresented? && note.codeHash == hash {
          PresentedShape(cfg, s.shared, s.procs[pid], s.now, ch);
          ThatPresents(cfg, s, events[n - 1], hash);
        }
      }
    }
  }

  lemma ThatPresents(cfg: Config, s: Sys, e: Event, hash: string)
    requires e.Resume? && e.pid in s.procs && s.procs[e.pid].Arrived?
    requires match s.procs[e.pid].request
             case Exchange(f) => f.grantType == "authorization_code" && f.code != "" && HashToken(cfg.lib, f.code) == hash
             case CodeProfile(f) => f.code != "" && HashToken(cfg.lib, f.code) == hash
             case _ => false
    ensures Presents(cfg, s, e, hash)
  {
  }

  // ---- The exchange -------------------------------------------------------------------------------------------

  /** The client exchanges the code sent at step `i` in time, with its verifier, and nobody has presented the code before. */
  ghost predicate Exchanging(cfg: Config, states: seq<Sys>, events: seq<Event>, g: Guest, i: nat, d: Served) {
    hide *;
    var code := DrawAt(events, i).a;
    && i < d.first < |states| && Serves(cfg, states, events, d, Exchange(HonestForm(g.query, code, g.verifier)))
    && states[d.first].now < states[i].now + cfg.codeTtl - SECOND
    && code != "" && !CodeUsed(cfg, states, events, d.first, HashToken(cfg.lib, code))
  }

  lemma CodeRecorded(cfg: Config, s: Sys, hash: string)
    requires (hide *; Inv(cfg, s)) && hash in s.shared.db.codes && s.shared.db.codes[hash].usedAt == None
    ensures hash in s.hist.codes && s.hist.codes[hash].row == s.shared.db.codes[hash]
  {
    hide Traced, RequestsKept, ConsentsKept, TokensKept, ProfilesKept, CustomKept, VaultKept, SecretsDrawn, ProcsOk;
    var row := s.shared.db.codes[hash];
    assert row.(usedAt := None) == row;
  }

  lemma ConsumedRow(db: Db, hash: string, now: int)
    requires ConsumeAuthorizationCode(db, hash, now).1.Ok?
    ensures var row := ConsumeAuthorizationCode(db, hash, now).1.value;
            hash in db.codes && db.codes[hash] == row && now < row.expiresAt
  {
  }

  lemma StepPresents(cfg: Config, states: seq<Sys>, events: seq<Event>, i: nat, pid: nat, form: CodeForm)
    requires Moves(states, events, i, pid) && states[i].procs[pid] == Arrived(Exchange(form))
    requires form.grantType == "authorization_code" && form.code != ""
    ensures Presents(cfg, states[i], events[i], HashToken(cfg.lib, form.code))
  {
  }

  /** The code as issued is what its presentation finds. */
  lemma CodeWaits(cfg: Config, states: seq<Sys>, events: seq<Event>, i: nat, j: nat, hash: string, form: CodeForm, pid: nat)
    requires (hide Step, Advance, Welcome, HonestLogin; IsRun(cfg, states, events)) && i < j < |events| && Moves(states, events, j, pid)
    requires states[j].procs[pid] == Arrived(Exchange(form)) && form.grantType == "authorization_code" && form.code != ""
    requires hash == HashToken(cfg.lib, form.code) && !CodeUsed(cfg, states, events, j, hash)
    requires hash in states[i + 1].shared.db.codes && states[i + 1].shared.db.codes[hash].usedAt == None
    requires states[j].now < states[i + 1].shared.db.codes[hash].expiresAt
    ensures hash in states[j].shared.db.codes && states[j].shared.db.codes[hash] == states[i + 1].shared.db.codes[hash]
  {
    hide IsRun, Inv, Presents, ConsumeAuthorizationCode, CodeUsed, Later;
    RunKeepsInv(cfg, states, events, i + 1);
    CodeRecorded(cfg, states[i + 1], hash);
    RunGrows(cfg, states, events, i + 1, j);
    LaterMaps(states[i + 1].hist, states[j].hist);
    NotPresented(cfg, states, events, j, hash);
    StepPresents(cfg, states, events, j, pid, form);
    PassesExactly(cfg, states, events, j, hash);
    RunKeepsInv(cfg, states, events, j);
    ConsumedCode(cfg, states[j], hash);
    ConsumedRow(states[j].shared.db, hash, states[j].now);
  }

  lemma ExchangingAnswered(cfg: Config, states: seq<Sys>, events: seq<Event>, g: Guest, a: Served, b: Served, c: Served, d: Served)
    requires (hide Step, Advance, Welcome, HonestLogin; IsRun(cfg, states, events)) && SigningIn(cfg, states, events, g, a, b, c) && Exchanging(cfg, states, events, g, IssuedAt(cfg, b, c), d)
    ensures d.answer < |events| && Enabled(cfg, states[d.answer], events[d.answer])
    ensures var r := ReplyOf(cfg, states[d.answer], events[d.answer]);
            && r.Some? && r.value.TokenGranted? && r.value.token == DrawAt(events, d.answer).a
            && r.value.scope == g.query.scope && r.value.me == g.signIn.me
    ensures d.pid in states[d.answer].procs && states[d.answer].procs[d.pid].Redeemed?
            && states[d.answer].procs[d.pid].form.clientId == g.query.clientId
    ensures events[d.answer].Resume? && events[d.answer].pid == d.pid
  {
    hide Advance, IsRun, Inv, Fresh, ChoiceOk, Asking, Returning, Approving, CodeUsed, Record, Serves, Enabled, ReplyOf;
    var i := IssuedAt(cfg, b, c);
    var code := DrawAt(events, i).a;
    var hash, form := HashToken(cfg.lib, code), HonestForm(g.query, code, g.verifier);
    StatesOfRun(cfg, states, events);
    CodeIssued(cfg, states, events, g, a, b, c);
    Truncation(states[i].now, cfg.codeTtl);
    ServedMoves(cfg, states, events, d, Exchange(form));
    ServedArrives(cfg, states, events, d, Exchange(form));
    CodeWaits(cfg, states, events, i, d.first, hash, form, d.pid);
    var row := states[d.first].shared.db.codes[hash];
    GuestVerifies(cfg, states, events, g, a);
    RedeemStep(cfg, states[d.first].shared, g.query, g.verifier, g.signIn.me, code, row, states[d.first].now, events[d.first].choice);
    GoesOn(cfg, states, events, d, Exchange(form), Redeemed(row, form));
    MoveStep(cfg, states, events, d.answer, d.pid);
    UnusedKey(cfg, states[d.answer], events[d.answer].choice);
    GrantStep(cfg, states[d.answer].shared, row, form, states[d.answer].now, events[d.answer].choice);
  }

  lemma ServedArrives(cfg: Config, states: seq<Sys>, events: seq<Event>, v: Served, r: Request)
    requires (hide Step, Advance, Welcome, HonestLogin; Serves(cfg, states, events, v, r))
    ensures Moves(states, events, v.first, v.pid) && states[v.first].procs[v.pid] == Arrived(r)
  {
    hide Advance;
  }

  lemma GuestVerifies(cfg: Config, states: seq<Sys>, events: seq<Event>, g: Guest, a: Served)
    requires Asking(cfg, states, events, g, a)
    ensures g.verifier != "" && g.query.challenge == cfg.lib.digest(g.verifier)
  {
    hide Serves, Welcome;
    ServedMoves(cfg, states, events, a, Authorize(g.query, g.fetched));
    VerifierAnswers(cfg, states[a.first].shared.db, g);
  }

  // ---- All of it ----------------------------------------------------------------------------------------------------

  /** The client asks about its token in time, and nobody has revoked it. */
  ghost predicate Checking(cfg: Config, states: seq<Sys>, events: seq<Event>, d: Served, e: nat) {
    hide *;
    var token := DrawAt(events, d.answer).a;
    && d.answer < e < |events| < |states| && Asks(states[e], events[e], token)
    && states[e].now < states[d.answer].now + cfg.tokenTtl - SECOND
    && !RevokedBetween(cfg, states, events, d.answer + 1, e, HashToken(cfg.lib, token))
  }

  /**
   In any run: an honest guest's `/authorize`, callback, approval where consent is required, exchange
   and introspection end with a token that is active, for the client, scope and profile URL asked for,
   whatever else happens before, between and during them.
   */
  lemma HonestSignIn(cfg: Config, states: seq<Sys>, events: seq<Event>, g: Guest, a: Served, b: Served, c: Served, d: Served, e: nat)
    requires (hide Step, Advance, Welcome, HonestLogin; IsRun(cfg, states, events)) && CanonicalLaw(cfg.lib)
    requires SigningIn(cfg, states, events, g, a, b, c) && Exchanging(cfg, states, events, g, IssuedAt(cfg, b, c), d)
    requires Checking(cfg, states, events, d, e)
    ensures RequestedMe(cfg, g.query) == Some(g.signIn.me)
    ensures a.answer < b.answer <= IssuedAt(cfg, b, c) < d.answer < e < |events|
    ensures forall i :: i in {a.answer, b.answer, IssuedAt(cfg, b, c), d.answer, e} ==> Enabled(cfg, states[i], events[i])
    ensures var ch := DrawAt(events, a.answer);
            ReplyOf(cfg, states[a.answer], events[a.answer]) == Some(ToProvider(g.signIn.backend, ch.b, ch.c))
    ensures cfg.consentRequired ==> ReplyOf(cfg, states[b.answer], events[b.answer]) == Some(ToConsent(DrawAt(events, b.answer).a))
    ensures var i := IssuedAt(cfg, b, c);
            ReplyOf(cfg, states[i], events[i]) == Some(ToClient(g.query.redirectUri, DrawAt(events, i).a, g.query.state, cfg.issuer))
    ensures var r := ReplyOf(cfg, states[d.answer], events[d.answer]);
            && r.Some? && r.value.TokenGranted? && r.value.token == DrawAt(events, d.answer).a
            && r.value.me == g.signIn.me && r.value.scope == g.query.scope
    ensures var r := ReplyOf(cfg, states[e], events[e]);
            && r.Some? && r.value.TokenActive?
            && r.value.me == g.signIn.me && r.value.scope == g.query.scope && r.value.clientId == g.query.clientId
  {
    hide IsRun, Asking, Returning, Approving, ReplyOf, Enabled, CanonicalLaw, RequestedMe, Serves, RevokedBetween, CodeUsed, ConsentUsed, StateUsed;
    AskedFor(cfg, states, events, g, a);
    AskingAnswered(cfg, states, events, g, a);
    ReturningAnswered(cfg, states, events, g, a, b);
    CodeIssued(cfg, states, events, g, a, b, c);
    Ordered(cfg, states, events, g, a, b, c);
    ExchangingAnswered(cfg, states, events, g, a, b, c, d);
    ServedInOrder(cfg, states, events, d, Exchange(HonestForm(g.query, DrawAt(events, IssuedAt(cfg, b, c)).a, g.verifier)));
    EnabledAt(cfg, states, events, e);
    Truncation(states[d.answer].now, cfg.tokenTtl);
    TokenLife(cfg, states, events, d.answer, e, DrawAt(events, d.answer).a);
  }

  lemma EnabledAt(cfg: Config, states: seq<Sys>, events: seq<Event>, i: nat)
    requires (hide Step, Advance, Welcome, HonestLogin; IsRun(cfg, states, events)) && i < |events|
    ensures Enabled(cfg, states[i], events[i])
  {
    hide Initial, Enabled, Step;
  }

  lemma AskedFor(cfg: Config, states: seq<Sys>, events: seq<Event>, g: Guest, a: Served)
    requires Asking(cfg, states, events, g, a) && CanonicalLaw(cfg.lib)
    ensures RequestedMe(cfg, g.query) == Some(g.signIn.me)
  {
    hide Serves, HonestQuery, RequestedMe, CanonicalLaw, ManagedProfileForMe, ProfileByMe, ResolveProfile;
    ServedMoves(cfg, states, events, a, Authorize(g.query, g.fetched));
    ResolvedMe(cfg, states[a.first].shared.db, g.query, g.fetched.page);
  }

  lemma Ordered(cfg: Config, states: seq<Sys>, events: seq<Event>, g: Guest, a: Served, b: Served, c: Served)
    requires SigningIn(cfg, states, events, g, a, b, c)
    ensures a.answer < b.answer <= IssuedAt(cfg, b, c)
  {
    hide HonestLogin, StateUsed, ConsentUsed, Welcome, RepliesAt;
  }

  lemma ServedInOrder(cfg: Config, states: seq<Sys>, events: seq<Event>, v: Served, r: Request)
    requires Serves(cfg, states, events, v, r)
    ensures v.first <= v.answer
  {
    hide RepliesAt;
  }
}
