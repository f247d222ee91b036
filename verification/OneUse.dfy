/**
 A code is good for one presentation, ever (RFC 6749 section 4.1.2), and the
 codes ever issued are accounted for to the last one.
 */
module OneUse {
  import opened Prelude
  import opened Library
  import opened Config
  import opened Tables
  import opened Handlers
  import opened Runs
  import opened Invariant
  import opened HistorySteps
  import opened Preservation
  import opened Traces

  // ---- One presentation ----------------------------------------------------------------

  /** The event is the first step of a request that presents the code with this hash, at either endpoint. */
  ghost predicate Presents(cfg: Config, s: Sys, e: Event, hash: string) {
    && e.Resume? && e.pid in s.procs && s.procs[e.pid].Arrived?
    && match s.procs[e.pid].request
       case Exchange(f) => f.grantType == "authorization_code" && f.code != "" && HashToken(cfg.lib, f.code) == hash
       case CodeProfile(f) => f.code != "" && HashToken(cfg.lib, f.code) == hash
       case _ => false
  }

  /** The store accepted the presentation. Whether the client passes the checks that follow is another matter. */
  ghost predicate Passes(cfg: Config, s: Sys, e: Event, hash: string) {
    Presents(cfg, s, e, hash) && ConsumeAuthorizationCode(s.shared.db, hash, s.now).1.Ok?
  }

  lemma PassingIsRecorded(cfg: Config, s: Shared, p: Proc, now: int, ch: Choice, form: CodeForm)
    requires (hide *; p == Arrived(CodeProfile(form)) || (p == Arrived(Exchange(form)) && form.grantType == "authorization_code"))
    requires form.code != "" && ConsumeAuthorizationCode(s.db, HashToken(cfg.lib, form.code), now).1.Ok?
    ensures var n := Advance(cfg, s, p, now, ch).note; n.CodePresented? && n.codeHash == HashToken(cfg.lib, form.code)
  {
    hide ConsumeAuthorizationCode, PresentationOk;
  }

  lemma FailingIsRefused(cfg: Config, s: Shared, p: Proc, now: int, ch: Choice, form: CodeForm)
    requires p == Arrived(CodeProfile(form)) || (p == Arrived(Exchange(form)) && form.grantType == "authorization_code")
    requires form.code != "" && ConsumeAuthorizationCode(s.db, HashToken(cfg.lib, form.code), now).1.Err?
    ensures Advance(cfg, s, p, now, ch).reply == Some(OAuthError(400, InvalidGrant))
  {
    hide ConsumeAuthorizationCode, PresentationOk;
  }

  /** A presentation that passes uses up the code, for a moment before its expiry. */
  lemma PassingUses(cfg: Config, states: seq<Sys>, events: seq<Event>, i: nat, hash: string)
    requires (hide Step, Advance; IsRun(cfg, states, events)) && i < |events| && Passes(cfg, states[i], events[i], hash)
    ensures hash !in states[i].hist.presented && hash in states[i + 1].hist.presented
    ensures hash in states[i].hist.codes
    ensures var o := states[i].hist.codes[hash];
            states[i].now < o.row.expiresAt <= o.at + cfg.codeTtl
  {
    hide Advance, IsRun, Fresh, Inv, ConsumeAuthorizationCode, ChoiceOk;
    ResumeStep(cfg, states, events, i);
    var p := states[i].procs[events[i].pid];
    PassingIsRecorded(cfg, states[i].shared, p, states[i].now, events[i].choice, p.request.form);
    RunKeepsInv(cfg, states, events, i);
    ConsumedCode(cfg, states[i], hash);
    CodeExpiry(cfg, states[i], hash);
  }

  lemma CodeExpiry(cfg: Config, s: Sys, hash: string)
    requires (hide *; Inv(cfg, s)) && hash in s.hist.codes
    ensures s.hist.codes[hash].row.expiresAt == Whole(s.hist.codes[hash].at + cfg.codeTtl)
  {
    hide LoginOk, RequestsTraced, ConsentsTraced, TokensTraced, FatesOk, EditsTraced, Kept, SecretsDrawn, ProcsOk;
    assert CodeOk(cfg, s.hist.requests, s.hist.consents, hash, s.hist.codes[hash]);
  }

  /**
   Once a presentation of a code has passed the store, every later presentation of it is refused,
   whatever became of the first one and whatever ran in between.
   */
  lemma SecondPresentationRefused(cfg: Config, states: seq<Sys>, events: seq<Event>, i: nat, j: nat, hash: string)
    requires (hide Step, Advance; IsRun(cfg, states, events)) && i < j < |events|
    requires Passes(cfg, states[i], events[i], hash) && Presents(cfg, states[j], events[j], hash)
    ensures !Passes(cfg, states[j], events[j], hash)
    ensures Enabled(cfg, states[j], events[j]) && ReplyOf(cfg, states[j], events[j]) == Some(OAuthError(400, InvalidGrant))
  {
    hide Advance, Fresh, Initial, Step, ConsumeAuthorizationCode, ChoiceOk;
    PassingUses(cfg, states, events, i, hash);
    RunGrows(cfg, states, events, i + 1, j);
    if Passes(cfg, states[j], events[j], hash) {
      PassingUses(cfg, states, events, j, hash);
    }
    OneStep(cfg, states, events, j);
    var p := states[j].procs[events[j].pid];
    FailingIsRefused(cfg, states[j].shared, p, states[j].now, events[j].choice, p.request.form);
  }

  /** The store accepts a presentation exactly when the code was issued, never presented before, and has not expired. */
  lemma PassesExactly(cfg: Config, states: seq<Sys>, events: seq<Event>, i: nat, hash: string)
    requires (hide Step, Advance; IsRun(cfg, states, events)) && i < |events| && Presents(cfg, states[i], events[i], hash)
    ensures var h := states[i].hist;
            Passes(cfg, states[i], events[i], hash)
            <==> hash in h.codes && hash !in h.presented && states[i].now < h.codes[hash].row.expiresAt
  {
    hide Initial, Enabled, Step, Inv, Presents, ConsumeAuthorizationCode;
    RunKeepsInv(cfg, states, events, i);
    var h := states[i].hist;
    if Passes(cfg, states[i], events[i], hash) {
      ConsumedCode(cfg, states[i], hash);
    } else if hash in h.codes && hash !in h.presented && states[i].now < h.codes[hash].row.expiresAt {
      Consumable(cfg, states[i], hash);
    }
  }

  lemma Consumable(cfg: Config, s: Sys, hash: string)
    requires (hide *; Inv(cfg, s)) && hash in s.hist.codes && hash !in s.hist.presented && s.now < s.hist.codes[hash].row.expiresAt
    ensures ConsumeAuthorizationCode(s.shared.db, hash, s.now).1 == Ok(s.hist.codes[hash].row)
  {
    hide Traced, RequestsKept, ConsentsKept, TokensKept, ProfilesKept, CustomKept, VaultKept, SecretsDrawn, ProcsOk;
    var row := s.shared.db.codes[hash];
    assert row.(usedAt := None) == row;
  }

  // ---- Conservation --------------------------------------------------------------------------

  /** The token requests in flight, each with the hash of the code it redeemed. */
  ghost function Holding(procs: map<nat, Proc>): map<nat, string> {
    map pid | pid in procs && procs[pid].Redeemed? :: procs[pid].code.codeHash
  }

  /** A code between presentation and token is held by the request in flight that presented it. */
  ghost predicate RedeemingHeld(fates: map<string, Fate>, holding: map<nat, string>) {
    && (forall k :: k in fates && fates[k].Redeeming? ==> fates[k].pid in holding && holding[fates[k].pid] == k)
    && (forall pid :: pid in holding ==> holding[pid] in fates && fates[holding[pid]] == Redeeming(pid))
  }

  lemma RedeemedEnds(cfg: Config, s: Shared, p: Proc, now: int, ch: Choice)
    requires (hide *; p.Redeemed?)
    ensures var o := Advance(cfg, s, p, now, ch);
            && o.next == None
            && (o.note.TokenStored? || o.note.CodeWasted?) && o.note.codeHash == p.code.codeHash
  {
  }

  lemma OthersKeepTokens(cfg: Config, s: Shared, p: Proc, now: int, ch: Choice)
    requires !p.Redeemed?
    ensures var n := Advance(cfg, s, p, now, ch).note; !n.TokenStored? && !n.CodeWasted?
  {
    hide CheckAuthorize, ResolveProfile, RequestedMe, LoginAllowed, PresentationOk, EditOk, OpenSetup, ConsumeAuthorizationCode, CompleteAuth,
      NewProfile, ClaimedName, CreateManagedProfile;
  }

  lemma HeldWasPresented(cfg: Config, s: Shared, p: Proc, now: int, ch: Choice)
    requires (hide *; var n := Advance(cfg, s, p, now, ch).next; n.Some? && n.value.Redeemed?)
    ensures var n := Advance(cfg, s, p, now, ch).note; n.CodePresented? && n.use == ToExchange
  {
    hide CheckAuthorize, ResolveProfile, RequestedMe, LoginAllowed, PresentationOk, EditOk, OpenSetup, ConsumeAuthorizationCode, CompleteAuth,
      NewProfile, ClaimedName, CreateManagedProfile;
  }

  lemma PresentedIsHeld(cfg: Config, s: Shared, p: Proc, now: int, ch: Choice)
    requires (hide *; var n := Advance(cfg, s, p, now, ch).note; n.CodePresented? && n.use == ToExchange)
    ensures var n := Advance(cfg, s, p, now, ch).next; n.Some? && n.value.Redeemed?
  {
    hide CheckAuthorize, ResolveProfile, RequestedMe, LoginAllowed, PresentationOk, EditOk, OpenSetup, ConsumeAuthorizationCode, CompleteAuth,
      NewProfile, ClaimedName, CreateManagedProfile;
  }

  lemma HoldingAfter(procs: map<nat, Proc>, pid: nat, next: Option<Proc>)
    ensures Holding(SetProc(procs, pid, next)) ==
            if next.Some? && next.value.Redeemed? then Holding(procs)[pid := next.value.code.codeHash] else Holding(procs) - {pid}
  {
  }

  /** What a record does to the fates, against what the requests in flight hold before and after it. */
  lemma RecordKeepsHeld(h: History, holding: map<nat, string>, pid: nat, now: int, n: Note, held: Option<string>)
    requires RedeemingHeld(h.fates, holding)
    requires n.CodeStored? ==> n.code.codeHash !in h.fates
    requires n.CodePresented? ==> n.codeHash in h.fates && h.fates[n.codeHash].Unredeemed?
    requires if n.TokenStored? || n.CodeWasted? then pid in holding && holding[pid] == n.codeHash && held == None else pid !in holding
    requires held.Some? <==> n.CodePresented? && n.use == ToExchange
    requires held.Some? ==> held.value in Record(h, pid, now, n).fates && Record(h, pid, now, n).fates[held.value] == Redeeming(pid)
    ensures RedeemingHeld(Record(h, pid, now, n).fates, if held.Some? then holding[pid := held.value] else holding - {pid})
  {
  }

  lemma CommitKeepsHeld(cfg: Config, s: Sys, pid: nat, o: Outcome)
    requires (hide *; RedeemingHeld(s.hist.fates, Holding(s.procs))) && pid in s.procs
    requires FatesOk(s.hist.codes, s.hist.fates, s.hist.presented, s.hist.tokens)
    requires NoteOk(cfg, s.hist, pid, s.now, o.note)
    requires o.next.Some? ==> ProcOk(cfg, Record(s.hist, pid, s.now, o.note), pid, s.now, o.next.value)
    requires s.procs[pid].Redeemed? ==> (o.next == None && (o.note.TokenStored? || o.note.CodeWasted?) && o.note.codeHash == s.procs[pid].code.codeHash)
    requires !s.procs[pid].Redeemed? ==> !o.note.TokenStored? && !o.note.CodeWasted?
    requires o.note.CodePresented? && o.note.use == ToExchange <==> o.next.Some? && o.next.value.Redeemed?
    ensures RedeemingHeld(Record(s.hist, pid, s.now, o.note).fates, Holding(SetProc(s.procs, pid, o.next)))
  {
    HoldingAfter(s.procs, pid, o.next);
    NoteMovesFate(cfg, s.hist, pid, s.now, o.note);
    hide NoteOk, RedeemingHeld, SetProc, FatesOk, Record, ProcOk;
    var held := None;
    if o.next.Some? && o.next.value.Redeemed? {
      held := Some(o.next.value.code.codeHash);
      RedeemedHolds(cfg, Record(s.hist, pid, s.now, o.note), pid, s.now, o.next.value);
    }
    RecordKeepsHeld(s.hist, Holding(s.procs), pid, s.now, o.note, held);
  }

  lemma RedeemedHolds(cfg: Config, h: History, pid: nat, now: int, p: Proc)
    requires (hide *; ProcOk(cfg, h, pid, now, p)) && p.Redeemed?
    ensures p.code.codeHash in h.fates && h.fates[p.code.codeHash] == Redeeming(pid)
  {
    hide PresentationOk;
  }

  lemma NoteMovesFate(cfg: Config, h: History, pid: nat, now: int, n: Note)
    requires (hide *; FatesOk(h.codes, h.fates, h.presented, h.tokens)) && NoteOk(cfg, h, pid, now, n)
    ensures n.CodeStored? ==> n.code.codeHash !in h.fates
    ensures n.CodePresented? ==> n.codeHash in h.fates && h.fates[n.codeHash].Unredeemed?
  {
    hide RequestOk, ConsentOk, CodeOk, TokenOk, CredentialGood;
  }

  lemma StepKeepsHeld(cfg: Config, states: seq<Sys>, events: seq<Event>, i: nat)
    requires (hide Step, Advance; IsRun(cfg, states, events)) && i < |events| && RedeemingHeld(states[i].hist.fates, Holding(states[i].procs))
    ensures RedeemingHeld(states[i + 1].hist.fates, Holding(states[i + 1].procs))
  {
    hide Advance, Fresh, Initial, Inv, NoteOk, ProcOk, ChoiceOk, Purge, Kept, NoteSecrets, RedeemingHeld;
    OneStep(cfg, states, events, i);
    var s := states[i];
    match events[i]
    case Resume(pid, ch) =>
      ResumeStep(cfg, states, events, i);
      var p, o := s.procs[pid], OutcomeAt(cfg, states, i, s.procs[pid], ch);
      StepInv(cfg, states, events, i, pid, ch, p);
      AdvanceGood(cfg, s, pid, ch);
      if p.Redeemed? {
        RedeemedEnds(cfg, s.shared, p, s.now, ch);
      } else {
        OthersKeepTokens(cfg, s.shared, p, s.now, ch);
      }
      if o.note.CodePresented? && o.note.use == ToExchange {
        PresentedIsHeld(cfg, s.shared, p, s.now, ch);
      }
      if o.next.Some? && o.next.value.Redeemed? {
        HeldWasPresented(cfg, s.shared, p, s.now, ch);
      }
      FatesKnown(cfg, s);
      CommitKeepsHeld(cfg, s, pid, o);
    case _ =>
      assert Holding(states[i + 1].procs) == Holding(s.procs);
  }

  lemma FatesKnown(cfg: Config, s: Sys)
    requires Inv(cfg, s)
    ensures FatesOk(s.hist.codes, s.hist.fates, s.hist.presented, s.hist.tokens) && TokensTraced(cfg, s.hist.tokens, s.hist.codes, s.hist.fates)
  {
    hide RequestsTraced, ConsentsTraced, CodesTraced, TokensTraced, FatesOk, EditsTraced, Kept, SecretsDrawn, ProcsOk;
  }

  lemma {:induction false} RunKeepsHeld(cfg: Config, states: seq<Sys>, events: seq<Event>, i: nat)
    requires (hide *; IsRun(cfg, states, events)) && i < |states|
    ensures RedeemingHeld(states[i].hist.fates, Holding(states[i].procs))
  {
    hide Enabled, Step;
    if i > 0 {
      hide RedeemingHeld, Initial;
      RunKeepsHeld(cfg, states, events, i - 1);
      StepKeepsHeld(cfg, states, events, i - 1);
    }
  }

  // ---- Counting --------------------------------------------------------------------------------

  lemma {:induction false} Injection<A(!new), B(!new)>(m: map<A, B>, to: set<B>)
    requires (forall a :: a in m ==> m[a] in to) && forall a, a' :: a in m && a' in m && m[a] == m[a'] ==> a == a'
    ensures |m.Keys| <= |to|
    decreases |m.Keys|
  {
    if m.Keys != {} {
      var a :| a in m;
      assert (m - {a}).Keys == m.Keys - {a};
      Injection(m - {a}, to - {m[a]});
    }
  }

  ghost function CodesUnredeemed(fates: map<string, Fate>): set<string> {
    set k | k in fates && fates[k].Unredeemed?
  }

  ghost function CodesHeld(fates: map<string, Fate>): set<string> {
    set k | k in fates && fates[k].Redeeming?
  }

  ghost function CodesExchanged(fates: map<string, Fate>): set<string> {
    set k | k in fates && fates[k].Exchanged?
  }

  ghost function CodesAnswered(fates: map<string, Fate>): set<string> {
    set k | k in fates && fates[k].Answered?
  }

  ghost function CodesBurnt(fates: map<string, Fate>): set<string> {
    set k | k in fates && fates[k].Burnt?
  }

  lemma TwoParts(all: set<string>, a: set<string>, b: set<string>)
    requires all == a + b && a !! b
    ensures |all| == |a| + |b|
  {
  }

  lemma SplitByFate(fates: map<string, Fate>)
    ensures |fates.Keys| == |CodesUnredeemed(fates)| + |CodesHeld(fates)| + |CodesExchanged(fates)| + |CodesAnswered(fates)| + |CodesBurnt(fates)|
  {
    var u, r, x, a, b := CodesUnredeemed(fates), CodesHeld(fates), CodesExchanged(fates), CodesAnswered(fates), CodesBurnt(fates);
    assert fates.Keys == u + (r + (x + (a + b)));
    TwoParts(fates.Keys, u, r + (x + (a + b)));
    TwoParts(r + (x + (a + b)), r, x + (a + b));
    TwoParts(x + (a + b), x, a + b);
    TwoParts(a + b, a, b);
  }

  /**
   In every state of every run the codes ever issued split into those not presented yet, those held
   by a token request in flight, those that became a token (one each), those answered with a
   profile, and those burnt.
   */
  lemma CodesConserved(cfg: Config, states: seq<Sys>, events: seq<Event>, i: nat)
    requires (hide *; IsRun(cfg, states, events)) && i < |states|
    ensures var s := states[i];
            |s.hist.codes.Keys| == |CodesUnredeemed(s.hist.fates)| + |Holding(s.procs).Keys|
                              + |s.hist.tokens.Keys| + |CodesAnswered(s.hist.fates)| + |CodesBurnt(s.hist.fates)|
  {
    hide Initial, Enabled, Step, Inv;
    var s := states[i];
    RunKeepsInv(cfg, states, events, i);
    RunKeepsHeld(cfg, states, events, i);
    FatesKnown(cfg, s);
    SplitByFate(s.hist.fates);
    HeldOneToOne(s.hist.fates, Holding(s.procs));
    ExchangedOneToOne(cfg, s.hist);
    hide RedeemingHeld, TokensTraced, CodesUnredeemed, CodesHeld, CodesExchanged, CodesAnswered, CodesBurnt;
    assert s.hist.fates.Keys == s.hist.codes.Keys;
  }

  lemma HeldOneToOne(fates: map<string, Fate>, holding: map<nat, string>)
    requires RedeemingHeld(fates, holding)
    ensures |CodesHeld(fates)| == |holding.Keys|
  {
    var m := map k | k in CodesHeld(fates) :: fates[k].pid;
    assert m.Keys == CodesHeld(fates);
    Injection(m, holding.Keys);
    Injection(holding, CodesHeld(fates));
  }

  lemma ExchangedOneToOne(cfg: Config, h: History)
    requires FatesOk(h.codes, h.fates, h.presented, h.tokens) && TokensTraced(cfg, h.tokens, h.codes, h.fates)
    ensures |CodesExchanged(h.fates)| == |h.tokens.Keys|
  {
    hide PresentationOk;
    var m, back := map k | k in CodesExchanged(h.fates) :: h.fates[k].tokenHash, map t | t in h.tokens :: h.tokens[t].codeHash;
    assert m.Keys == CodesExchanged(h.fates) && back.Keys == h.tokens.Keys;
    forall t | t in h.tokens
      ensures h.tokens[t].codeHash in h.fates && h.fates[h.tokens[t].codeHash] == Exchanged(t)
    {
      assert TokenOk(cfg, h.codes, h.fates, t, h.tokens[t]);
    }
    Injection(m, h.tokens.Keys);
    Injection(back, CodesExchanged(h.fates));
  }
}
