/** What `/introspect` says of a token, against what the run did with it (RFC 7662 section 2.2, RFC 7009 section 2.2). */
module Introspection {
  import opened Prelude
  import opened Library
  import opened Config
  import opened Tables
  import opened Handlers
  import opened Runs
  import opened Invariant
  import opened HistorySteps
  import opened Preservation
  import opened Traces
  import opened Provenance

  /** The event answers an introspection of `token`. */
  ghost predicate Asks(s: Sys, e: Event, token: string) {
    e.Resume? && e.pid in s.procs && s.procs[e.pid] == Arrived(Introspect(token)) && token != ""
  }

  /** The event is the step of a revocation of `token` that updates the table and answers. */
  ghost predicate Revokes(cfg: Config, s: Sys, e: Event, hash: string) {
    e.Resume? && e.pid in s.procs && s.procs[e.pid].Revoking? && HashToken(cfg.lib, s.procs[e.pid].token) == hash
  }

  /** Issued, not revoked since, and not past its truncated expiry. */
  ghost predicate Live(s: Sys, hash: string) {
    hash in s.hist.tokens && hash !in s.hist.revoked && s.now < s.hist.tokens[hash].row.expiresAt
  }

  ghost function ActiveReply(row: AccessToken): Reply {
    TokenActive(row.clientId, row.scope, row.me, Unix(row.expiresAt), Unix(row.createdAt), row.profile)
  }

  lemma TokenLookup(cfg: Config, s: Sys, hash: string)
    requires Inv(cfg, s)
    ensures Live(s, hash) ==> GetAccessToken(s.shared.db, hash, s.now) == Ok(s.hist.tokens[hash].row)
    ensures !Live(s, hash) ==> GetAccessToken(s.shared.db, hash, s.now).Err?
  {
    hide RequestsTraced, ConsentsTraced, CodesTraced, FatesOk, EditsTraced, RequestsKept, ConsentsKept, CodesKept, ProfilesKept, CustomKept,
      VaultKept, SecretsDrawn, ProcsOk, PresentationOk;
    if Live(s, hash) {
      assert TokenOk(cfg, s.hist.codes, s.hist.fates, hash, s.hist.tokens[hash]);
      var row := s.shared.db.tokens[hash];
      assert row.(revokedAt := None) == row;
    }
  }

  /** The answer follows the history exactly. */
  lemma IntrospectionExact(cfg: Config, states: seq<Sys>, events: seq<Event>, j: nat, token: string)
    requires (hide Step, Advance; IsRun(cfg, states, events)) && j < |events| && Asks(states[j], events[j], token)
    ensures Enabled(cfg, states[j], events[j])
    ensures var hash := HashToken(cfg.lib, token);
            ReplyOf(cfg, states[j], events[j])
            == Some(if Live(states[j], hash) then ActiveReply(states[j].hist.tokens[hash].row) else TokenInactive)
  {
    hide Initial, Fresh, Step, Inv, Live, GetAccessToken, ChoiceOk;
    OneStep(cfg, states, events, j);
    RunKeepsInv(cfg, states, events, j);
    TokenLookup(cfg, states[j], HashToken(cfg.lib, token));
  }

  // ---- From the grant to the answer -------------------------------------------------------

  ghost predicate RevokedBetween(cfg: Config, states: seq<Sys>, events: seq<Event>, i: nat, j: nat, hash: string)
    requires j <= |events| < |states|
  {
    exists k :: i <= k < j && Revokes(cfg, states[k], events[k], hash)
  }

  lemma RevokingShape(cfg: Config, s: Shared, p: Proc, now: int, ch: Choice)
    ensures (hide *; var n := Advance(cfg, s, p, now, ch).note;
            n.TokenRevoked? <==> p.Revoking?)
    ensures p.Revoking? ==> Advance(cfg, s, p, now, ch).note == TokenRevoked(HashToken(cfg.lib, p.token))
  {
    hide CheckAuthorize, ResolveProfile, RequestedMe, LoginAllowed, PresentationOk, EditOk, OpenSetup, ConsumeAuthorizationCode, CompleteAuth,
      NewProfile, ClaimedName, CreateManagedProfile;
  }

  lemma RevokedByStep(h: History, pid: nat, now: int, n: Note, hash: string)
    requires hash in h.tokens
    ensures hash in Record(h, pid, now, n).revoked <==> hash in h.revoked || n == TokenRevoked(hash)
  {
    hide UseFate;
    match n
    case TokenRevoked(_) =>
    case _ =>
  }

  lemma RevocationStep(cfg: Config, states: seq<Sys>, events: seq<Event>, k: nat, hash: string)
    requires (hide Step, Advance; IsRun(cfg, states, events)) && k < |events| && hash in states[k].hist.tokens
    ensures hash in states[k + 1].hist.revoked <==> hash in states[k].hist.revoked || Revokes(cfg, states[k], events[k], hash)
  {
    hide Initial, Fresh, Inv, Advance, ChoiceOk, Purge, Record;
    OneStep(cfg, states, events, k);
    if events[k].Resume? {
      ResumeStep(cfg, states, events, k);
      var pid, ch := events[k].pid, events[k].choice;
      RevokingShape(cfg, states[k].shared, states[k].procs[pid], states[k].now, ch);
      RevokedByStep(states[k].hist, pid, states[k].now, OutcomeAt(cfg, states, k, states[k].procs[pid], ch).note, hash);
    }
  }

  /** A token stands revoked exactly when a revocation of it was carried out since. */
  lemma {:induction false} RevokedSince(cfg: Config, states: seq<Sys>, events: seq<Event>, i: nat, j: nat, hash: string)
    requires (hide Step, Advance; IsRun(cfg, states, events)) && i <= j <= |events|
    requires hash in states[i].hist.tokens && hash !in states[i].hist.revoked
    ensures hash in states[j].hist.revoked <==> RevokedBetween(cfg, states, events, i, j, hash)
    decreases j - i
  {
    hide Initial, Enabled, Step, Revokes;
    if i < j {
      RevokedSince(cfg, states, events, i, j - 1, hash);
      RunGrows(cfg, states, events, i, j - 1);
      RevocationStep(cfg, states, events, j - 1, hash);
      if RevokedBetween(cfg, states, events, i, j, hash) && !RevokedBetween(cfg, states, events, i, j - 1, hash) {
        var k :| i <= k < j && Revokes(cfg, states[k], events[k], hash);
        assert k == j - 1;
      }
    }
  }

  /** What a grant records. */
  lemma GrantRecorded(cfg: Config, states: seq<Sys>, events: seq<Event>, i: nat, token: string)
    requires (hide Step, Advance; IsRun(cfg, states, events)) && i < |events| && Enabled(cfg, states[i], events[i])
    requires var r := ReplyOf(cfg, states[i], events[i]); r.Some? && r.value.TokenGranted? && r.value.token == token
    ensures events[i].Resume? && events[i].pid in states[i].procs && states[i].procs[events[i].pid].Redeemed?
    ensures var hash, r, code := HashToken(cfg.lib, token), ReplyOf(cfg, states[i], events[i]).value, states[i].procs[events[i].pid].code;
            && hash in states[i + 1].hist.tokens && hash !in states[i + 1].hist.revoked
            && states[i + 1].hist.tokens[hash].row ==
               AccessToken(hash, r.me, code.clientId, r.scope, r.profile, Whole(states[i].now + cfg.tokenTtl), Whole(states[i].now), None)
  {
    hide Initial, Fresh, Inv, Advance, Enabled, ChoiceOk, NoteOk;
    ResumeStep(cfg, states, events, i);
    var pid, ch := events[i].pid, events[i].choice;
    var p := states[i].procs[pid];
    GrantShape(cfg, states[i].shared, p, states[i].now, ch);
    GrantRow(cfg, states[i].shared, p, states[i].now, ch);
    StepInv(cfg, states, events, i, pid, ch, p);
    NotRevokedYet(cfg, states[i], ch);
  }

  lemma GrantRow(cfg: Config, s: Shared, p: Proc, now: int, ch: Choice)
    requires (hide *; p.Redeemed?) && Advance(cfg, s, p, now, ch).note.TokenStored?
    ensures Advance(cfg, s, p, now, ch).note.token ==
            AccessToken(HashToken(cfg.lib, ch.a), p.code.me, p.code.clientId, p.code.scope, p.code.profile, Whole(now + cfg.tokenTtl), Whole(now), None)
  {
  }

  lemma NotRevokedYet(cfg: Config, s: Sys, ch: Choice)
    requires Ready(cfg, s, ch)
    ensures HashToken(cfg.lib, ch.a) !in s.hist.revoked
  {
    hide Traced, RequestsKept, ConsentsKept, CodesKept, ProfilesKept, CustomKept, VaultKept, SecretsDrawn, ProcsOk;
    UnusedDigest(cfg, s, ch);
  }

  /**
   A token obtained at step `i` is reported active at step `j` exactly when no revocation of it was
   carried out in between and its whole-second expiry has not come; the report repeats the grant.
   */
  lemma TokenLife(cfg: Config, states: seq<Sys>, events: seq<Event>, i: nat, j: nat, token: string)
    requires (hide Step, Advance; IsRun(cfg, states, events)) && i < j < |events| && Enabled(cfg, states[i], events[i]) && Enabled(cfg, states[j], events[j])
    requires var r := ReplyOf(cfg, states[i], events[i]); r.Some? && r.value.TokenGranted? && r.value.token == token
    requires Asks(states[j], events[j], token)
    ensures events[i].Resume? && states[i].procs[events[i].pid].Redeemed?
    ensures var r, at := ReplyOf(cfg, states[i], events[i]).value, states[i].now;
            ReplyOf(cfg, states[j], events[j]) == Some(
              if states[j].now < Whole(at + cfg.tokenTtl) && !RevokedBetween(cfg, states, events, i + 1, j, HashToken(cfg.lib, token)) then
                TokenActive(states[i].procs[events[i].pid].form.clientId, r.scope, r.me, Unix(at + cfg.tokenTtl), Unix(at), r.profile)
              else TokenInactive)
  {
    hide Initial, Enabled, Step, ReplyOf, Inv, RevokedBetween;
    var hash := HashToken(cfg.lib, token);
    GrantRecorded(cfg, states, events, i, token);
    RunGrows(cfg, states, events, i + 1, j);
    RevokedSince(cfg, states, events, i + 1, j, hash);
    IntrospectionExact(cfg, states, events, j, token);
    RedeemedForm(cfg, states, events, i);
  }

  lemma RedeemedForm(cfg: Config, states: seq<Sys>, events: seq<Event>, i: nat)
    requires (hide Step, Advance; IsRun(cfg, states, events)) && i < |events| && events[i].Resume?
    requires events[i].pid in states[i].procs && states[i].procs[events[i].pid].Redeemed?
    ensures states[i].procs[events[i].pid].form.clientId == states[i].procs[events[i].pid].code.clientId
  {
    hide Initial, Enabled, Step, Inv;
    RunKeepsInv(cfg, states, events, i);
    InFlightOk(cfg, states[i], events[i].pid);
  }

  /** Once reported inactive, a token obtained from the bridge is reported inactive for ever. */
  lemma InactiveForever(cfg: Config, states: seq<Sys>, events: seq<Event>, i: nat, j: nat, k: nat, token: string)
    requires (hide Step, Advance; IsRun(cfg, states, events)) && i < j < k < |events|
    requires Enabled(cfg, states[i], events[i]) && Enabled(cfg, states[j], events[j]) && Enabled(cfg, states[k], events[k])
    requires var r := ReplyOf(cfg, states[i], events[i]); r.Some? && r.value.TokenGranted? && r.value.token == token
    requires Asks(states[j], events[j], token) && Asks(states[k], events[k], token)
    requires ReplyOf(cfg, states[j], events[j]) == Some(TokenInactive)
    ensures ReplyOf(cfg, states[k], events[k]) == Some(TokenInactive)
  {
    hide Initial, Enabled, Step, ReplyOf, Inv, Revokes;
    TokenLife(cfg, states, events, i, j, token);
    TokenLife(cfg, states, events, i, k, token);
    RunGrows(cfg, states, events, j, k);
    var hash := HashToken(cfg.lib, token);
    if RevokedBetween(cfg, states, events, i + 1, j, hash) {
      var r :| i + 1 <= r < j && Revokes(cfg, states[r], events[r], hash);
      assert RevokedBetween(cfg, states, events, i + 1, k, hash);
    }
  }
}
