/**
 How long a sign-in can last, in any run: the lifetimes of what it stores,
 and the time its own requests take between looking a row up and using it.
 */
module Lifetime {
  import opened Prelude
  import opened Library
  import opened Config
  import opened Tables
  import opened Handlers
  import opened Runs
  import opened Invariant
  import opened Preservation
  import opened Traces
  import opened Provenance
  import opened OneUse
  import opened Introspection
  import opened Serial
  import opened Overlap

  /** Request `pid` looked a row up at step `found` and used it at step `used`. */
  datatype Spell = Spell(pid: nat, found: nat, used: nat)

  function Taking(states: seq<Sys>, u: Spell): int
    requires u.found < |states| && u.used < |states|
  {
    states[u.used].now - states[u.found].now
  }

  /** It used the row up for `g`. */
  ghost predicate Uses(cfg: Config, states: seq<Sys>, events: seq<Event>, u: Spell, x: Ticket, g: Gain) {
    Spent(cfg, states, events, u.found, u.used, u.pid, x) && GivesAt(cfg, states, events, u.used, x, g)
  }

  /** The request redeemed code `k` at step `found` and was granted token `t` at step `used`, with nothing of its own in between. */
  ghost predicate Exchanges(cfg: Config, states: seq<Sys>, events: seq<Event>, u: Spell, k: string, t: string) {
    hide Step, Advance;
    && u.found < u.used < |events| && |states| == |events| + 1
    && Moves(states, events, u.found, u.pid) && Moves(states, events, u.used, u.pid)
    && states[u.used].procs[u.pid].Redeemed? && states[u.used].procs[u.pid].code.codeHash == k
    && (var n := OutcomeAt(cfg, states, u.used, states[u.used].procs[u.pid], events[u.used].choice).note; n.TokenStored? && n.token.tokenHash == t)
    && forall m :: u.found < m <= u.used ==> u.pid in states[m].procs && states[m].procs[u.pid] == states[u.used].procs[u.pid]
  }

  // ---- Each row is used before it expires -------------------------------------------------------

  lemma LookedUpInTime(cfg: Config, s: Sys, p: Proc, ch: Choice, x: Ticket)
    requires (hide *; Inv(cfg, s)) && LooksUp(s.shared.db, p, s.now, ch, x)
    ensures match x
            case OfRequest(id) => id in s.hist.requests && s.now <= s.hist.requests[id].at + cfg.requestTtl
            case OfConsent(id) => id in s.hist.consents && s.now < s.hist.consents[id].at + cfg.codeTtl
  {
    hide Inv, LoginOk, QueryOk, SignInOk;
    match x
    case OfRequest(id) =>
      FoundRow(cfg, s, ch.backend, p.callback.state);
      RequestKnown(cfg, s, id);
      Truncation(s.hist.requests[id].at, cfg.requestTtl);
    case OfConsent(id) =>
      ConsentRowKnown(cfg, s, p.request.id);
      ConsentKnown(cfg, s, id);
      Truncation(s.hist.consents[id].at, cfg.codeTtl);
  }

  /** The use behind a gain, and by when the row was looked up. */
  lemma UseBehind(cfg: Config, states: seq<Sys>, events: seq<Event>, n: nat, x: Ticket, g: Gain) returns (u: Spell)
    requires (hide Step, Advance; IsRun(cfg, states, events)) && n < |states| && Gained(states[n].hist, x, g)
    ensures u.used < n && Uses(cfg, states, events, u, x, g) && states[u.used].now == DateOf(states[n].hist, x, g)
    ensures match x
            case OfRequest(id) => id in states[n].hist.requests && states[u.found].now <= states[n].hist.requests[id].at + cfg.requestTtl
            case OfConsent(id) => id in states[n].hist.consents && states[u.found].now < states[n].hist.consents[id].at + cfg.codeTtl
  {
    hide IsRun, Inv, LooksUp, UsesUp, Gained, GivesAt, Later, DateOf;
    var i, j, pid := SpentFor(cfg, states, events, n, x, g);
    u := Spell(pid, i, j);
    RunKeepsInv(cfg, states, events, i);
    LookedUpInTime(cfg, states[i], states[i].procs[pid], events[i].choice, x);
    RunGrows(cfg, states, events, i, n);
    LaterMaps(states[i].hist, states[n].hist);
  }

  /** The exchange behind a token. */
  lemma ExchangeBehind(cfg: Config, states: seq<Sys>, events: seq<Event>, n: nat, t: string) returns (u: Spell)
    requires (hide Step, Advance; IsRun(cfg, states, events)) && n < |states| && t in states[n].hist.tokens
    ensures u.used < n && Exchanges(cfg, states, events, u, states[n].hist.tokens[t].codeHash, t)
    ensures states[u.used].now == states[n].hist.tokens[t].at
    ensures var k := states[n].hist.tokens[t].codeHash;
            k in states[n].hist.codes && states[u.found].now < states[n].hist.codes[k].at + cfg.codeTtl
  {
    hide Advance, IsRun, Inv, Fresh, ConsumeAuthorizationCode, Later, TokenOk, CodeOk;
    var o := states[n].hist.tokens[t];
    RunKeepsInv(cfg, states, events, n);
    TokenNamed(cfg, states[n], t);
    var j, pid, ch, p := NoteSource(cfg, states, events, n, TokenStored(o.row, o.codeHash, o.form), o.at);
    TokenStoredShape(cfg, states[j].shared, p, states[j].now, ch);
    var i, ch', q := ProcSource(cfg, states, events, j, pid);
    u := Spell(pid, i, j);
    RedeemedShape(cfg, states[i].shared, q, states[i].now, ch');
    RunKeepsInv(cfg, states, events, i);
    ConsumedCode(cfg, states[i], HashToken(cfg.lib, p.form.code));
    OneUse.CodeExpiry(cfg, states[i], p.code.codeHash);
    Truncation(states[i].hist.codes[p.code.codeHash].at, cfg.codeTtl);
    RunGrows(cfg, states, events, i, n);
    LaterMaps(states[i].hist, states[n].hist);
  }

  lemma TokenNamed(cfg: Config, s: Sys, t: string)
    requires (hide *; Inv(cfg, s)) && t in s.hist.tokens
    ensures s.hist.tokens[t].row.tokenHash == t && s.hist.tokens[t].row.expiresAt == Whole(s.hist.tokens[t].at + cfg.tokenTtl)
    ensures var k, row := s.hist.tokens[t].codeHash, s.hist.tokens[t].row;
            && k in s.hist.codes && row.me == s.hist.codes[k].row.me
            && row.clientId == s.hist.codes[k].row.clientId && row.scope == s.hist.codes[k].row.scope
  {
    hide Inv, PresentationOk;
    TokenKnown(cfg, s, t);
  }

  lemma TokenStoredShape(cfg: Config, s: Shared, p: Proc, now: int, ch: Choice)
    requires (hide *; Advance(cfg, s, p, now, ch).note.TokenStored?)
    ensures p.Redeemed? && p.code.codeHash == Advance(cfg, s, p, now, ch).note.codeHash
  {
    hide *;
    AdvanceShaped(cfg, s, p, now, ch);
    ShapedToken(s, p, now, ch, Advance(cfg, s, p, now, ch));
    hide Advance;
  }

  lemma ShapedToken(s: Shared, p: Proc, now: int, ch: Choice, o: Outcome)
    requires (hide *; Shaped(s, p, now, ch, o)) && o.note.TokenStored?
    ensures p.Redeemed? && p.code.codeHash == o.note.codeHash
  {
    hide GetAuthRequest, GetConsentRequest, ConsumeAuthorizationCode;
  }

  // ---- From the token back to `/authorize` -------------------------------------------------------

  /** The approval of a consent. */
  datatype Consenting = Consenting(consentId: string, spell: Spell)

  function ApprovalTaking(states: seq<Sys>, a: Option<Consenting>): int
    requires a.Some? ==> a.value.spell.found < |states| && a.value.spell.used < |states|
  {
    if a.Some? then Taking(states, a.value.spell) else 0
  }

  /** The login behind a code, and the approval where consent is required. */
  ghost predicate LedTo(cfg: Config, states: seq<Sys>, events: seq<Event>, id: string, login: Spell, approval: Option<Consenting>, k: string) {
    && (cfg.consentRequired <==> approval.Some?)
    && match approval
       case None => Uses(cfg, states, events, login, OfRequest(id), CodeGained(k))
       case Some(a) =>
         && Uses(cfg, states, events, login, OfRequest(id), ConsentGained(a.consentId))
         && Uses(cfg, states, events, a.spell, OfConsent(a.consentId), CodeGained(k))
  }

  lemma UsesInRun(cfg: Config, states: seq<Sys>, events: seq<Event>, u: Spell, x: Ticket, g: Gain)
    requires Uses(cfg, states, events, u, x, g)
    ensures u.found < u.used < |states|
  {
    hide LooksUp, UsesUp, GivesAt;
  }

  /** What a code goes back to, and by when it was issued. */
  lemma CodeBehind(cfg: Config, states: seq<Sys>, events: seq<Event>, n: nat, k: string) returns (id: string, login: Spell, approval: Option<Consenting>)
    requires (hide *; IsRun(cfg, states, events)) && n < |states| && k in states[n].hist.codes
    ensures id in states[n].hist.requests && states[n].hist.requests[id].query.Some? && LedTo(cfg, states, events, id, login, approval, k)
    ensures login.found < |states| && login.used < |states|
    ensures approval.Some? ==> approval.value.spell.found < |states| && approval.value.spell.used < |states|
    ensures states[n].hist.codes[k].at <= states[n].hist.requests[id].at + cfg.requestTtl + Taking(states, login) + ApprovalTaking(states, approval)
                                          + if cfg.consentRequired then cfg.codeTtl else 0
    ensures var r, row := states[n].hist.requests[id].row, states[n].hist.codes[k].row;
            row.me == r.me && row.clientId == r.clientId && row.scope == r.scope
  {
    hide IsRun, Inv, Uses, LoginAllowed, QueryOk, SignInOk;
    var h := states[n].hist;
    RunKeepsInv(cfg, states, events, n);
    CodeKnown(cfg, states[n], k);
    OneWay(cfg, states[n], k);
    match h.codes[k].cause {
      case Login(requestId, _) =>
        id, approval := requestId, None;
        login := UseBehind(cfg, states, events, n, OfRequest(id), CodeGained(k));
        UsesInRun(cfg, states, events, login, OfRequest(id), CodeGained(k));
      case Approval(consentId, _) =>
        ConsentKnown(cfg, states[n], consentId);
        id := h.consents[consentId].requestId;
        login := UseBehind(cfg, states, events, n, OfRequest(id), ConsentGained(consentId));
        UsesInRun(cfg, states, events, login, OfRequest(id), ConsentGained(consentId));
        var spell := UseBehind(cfg, states, events, n, OfConsent(consentId), CodeGained(k));
        approval := Some(Consenting(consentId, spell));
        UsesInRun(cfg, states, events, spell, OfConsent(consentId), CodeGained(k));
    }
    RequestKnown(cfg, states[n], id);
  }

  /**
   In any run, a token reported active belongs to an `/authorize` request, by the client, for the scope
   and with the profile URL it reports, and less time has passed since that request sent the browser
   off than the lifetimes of what the sign-in stored and the time its callback, its approval and its
   exchange took from finding their row to using it.
   */
  lemma ActiveWithin(cfg: Config, states: seq<Sys>, events: seq<Event>, j: nat, token: string)
    returns (s: Sending, login: Spell, approval: Option<Consenting>, exchange: Spell, k: string)
    requires (hide Step, Advance, Sent; IsRun(cfg, states, events)) && j < |events|
    requires Enabled(cfg, states[j], events[j]) && Asks(states[j], events[j], token)
    requires ReplyOf(cfg, states[j], events[j]) != Some(TokenInactive)
    ensures s.sent < j && Sent(cfg, states, events, s) && LedTo(cfg, states, events, s.draw.a, login, approval, k)
    ensures exchange.used < j && Exchanges(cfg, states, events, exchange, k, HashToken(cfg.lib, token))
    ensures login.found < |states| && login.used < |states| && exchange.found < |states| && exchange.used < |states|
    ensures approval.Some? ==> approval.value.spell.found < |states| && approval.value.spell.used < |states|
    ensures states[j].now < Deadline(cfg, states[s.sent].now) + Taking(states, login) + ApprovalTaking(states, approval) + Taking(states, exchange)
    ensures var r := ReplyOf(cfg, states[j], events[j]);
            r.Some? && r.value.TokenActive? && r.value.clientId == s.query.clientId && r.value.scope == s.query.scope && r.value.me == s.signIn.me
  {
    hide Initial, Enabled, Step, ReplyOf, Inv, Uses, Sent, LedTo, Moves, HashToken, Advance;
    IntrospectionExact(cfg, states, events, j, token);
    RunKeepsInv(cfg, states, events, j);
    var t := HashToken(cfg.lib, token);
    TokenNamed(cfg, states[j], t);
    Truncation(states[j].hist.tokens[t].at, cfg.tokenTtl);
    exchange := ExchangeBehind(cfg, states, events, j, t);
    k := states[j].hist.tokens[t].codeHash;
    var id;
    id, login, approval := CodeBehind(cfg, states, events, j, k);
    s := RequestTrail(cfg, states, events, j, id);
    RequestNamed(cfg, states[j], id);
  }

  lemma RequestNamed(cfg: Config, s: Sys, id: string)
    requires (hide *; Inv(cfg, s)) && id in s.hist.requests
    ensures s.hist.requests[id].row.id == id
  {
    hide Inv, QueryOk, SignInOk;
    RequestKnown(cfg, s, id);
  }
}
