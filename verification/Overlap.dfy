/**
 When one authorization request gives more than one consent or code, in any
 run at all: exactly when two callbacks, or two approvals of one consent,
 overlap and both are good. The deletes come after the answer, so a second
 lookup can find what another request still holds.
 */
module Overlap {
  import opened Prelude
  import opened Library
  import opened Config
  import opened Handles
  import opened Tables
  import opened Handlers
  import opened Runs
  import opened Invariant
  import opened HistorySteps
  import opened Preservation
  import opened Traces
  import opened Provenance
  import opened Serial

  // ---- Requests that overlap ------------------------------------------------------------

  /** A row that is used up once: a stored authorization request by a login, a consent by an approval. */
  datatype Ticket = OfRequest(id: string) | OfConsent(id: string)

  predicate Stored(db: Db, x: Ticket) {
    match x
    case OfRequest(id) => id in db.requests
    case OfConsent(id) => id in db.consents
  }

  predicate OnceStored(h: History, x: Ticket) {
    match x
    case OfRequest(id) => id in h.requests
    case OfConsent(id) => id in h.consents
  }

  /** The request has looked the row up and not deleted it yet. */
  predicate Holds(p: Proc, x: Ticket) {
    match p
    case Found(_, row) => x == OfRequest(row.id)
    case Provisioning(id, _, _, _, _) => x == OfRequest(id)
    case Dropping(id) => x == OfRequest(id)
    case Matched(row, _, _) => x == OfConsent(row.id)
    case DroppingConsent(id) => x == OfConsent(id)
    case _ => false
  }

  predicate InHand(procs: map<nat, Proc>, pid: nat, x: Ticket) {
    pid in procs && Holds(procs[pid], x)
  }

  /** The next step of the request finds the row: a callback by its state, an answer to a consent by its id, with the right token. */
  ghost predicate LooksUp(db: Db, p: Proc, now: int, ch: Choice, x: Ticket) {
    match x
    case OfRequest(id) =>
      && p.Searching?
      && var r := GetAuthRequest(db, ch.backend, p.callback.state, now);
      r.Ok? && r.value.id == id
    case OfConsent(id) =>
      && p.Arrived? && p.request.ConsentAnswer?
      && var r := GetConsentRequest(db, p.request.id, now);
      r.Ok? && r.value.id == id && p.request.csrf == r.value.csrfToken
  }

  /** The next step of the request uses the row up: a login that it admits, an approval. */
  ghost predicate UsesUp(cfg: Config, p: Proc, ch: Choice, x: Ticket) {
    match x
    case OfRequest(id) =>
      && p.Found? && p.row.id == id && !p.row.backendState.setup
      && CompleteAuth(p.callback, p.row.backendState, ch.login).Some?
      && LoginAllowed(cfg, p.row, CompleteAuth(p.callback, p.row.backendState, ch.login).value.identity)
    case OfConsent(id) => p.Matched? && p.consent.id == id && p.decision == "approve"
  }

  /** Step `i` is a step of request `pid`. */
  predicate Moves(states: seq<Sys>, events: seq<Event>, i: nat, pid: nat) {
    i < |events| && i < |states| && events[i].Resume? && events[i].pid == pid && pid in states[i].procs
  }

  ghost predicate LooksUpAt(states: seq<Sys>, events: seq<Event>, i: nat, pid: nat, x: Ticket) {
    Moves(states, events, i, pid) && LooksUp(states[i].shared.db, states[i].procs[pid], states[i].now, events[i].choice, x)
  }

  ghost predicate UsesUpAt(cfg: Config, states: seq<Sys>, events: seq<Event>, j: nat, pid: nat, x: Ticket) {
    Moves(states, events, j, pid) && UsesUp(cfg, states[j].procs[pid], events[j].choice, x)
  }

  /** Before state `n` a request found the row while another had it in hand, and both used it up. */
  ghost predicate Overlaps(cfg: Config, states: seq<Sys>, events: seq<Event>, n: nat, x: Ticket) {
    hide *;
    exists i: nat, a: nat, b: nat, ja: nat, jb: nat ::
      && i < n <= |events| && i < |states| && ja < n && jb < n && a != b
      && LooksUpAt(states, events, i, b, x) && InHand(states[i].procs, a, x)
      && UsesUpAt(cfg, states, events, ja, a, x) && UsesUpAt(cfg, states, events, jb, b, x)
  }

  /** What came of a row. */
  datatype Gain = ConsentGained(id: string) | CodeGained(hash: string)

  predicate Gained(h: History, x: Ticket, g: Gain) {
    match (x, g)
    case (OfRequest(id), ConsentGained(c)) => c in h.consents && h.consents[c].requestId == id
    case (OfRequest(id), CodeGained(k)) => k in h.codes && CausedByLogin(h.codes[k].cause, id)
    case (OfConsent(id), CodeGained(k)) => k in h.codes && CausedByApproval(h.codes[k].cause, id)
    case (OfConsent(_), ConsentGained(_)) => false
  }

  // ---- In hand until it is deleted ---------------------------------------------------------

  function Dropper(x: Ticket): Proc {
    match x
    case OfRequest(id) => Dropping(id)
    case OfConsent(id) => DroppingConsent(id)
  }

  lemma HandOn(cfg: Config, s: Shared, p: Proc, now: int, ch: Choice, x: Ticket)
    requires (hide *; Holds(p, x))
    ensures var o := Advance(cfg, s, p, now, ch);
            if o.next.Some? then Holds(o.next.value, x) else p == Dropper(x)
  {
    hide CompleteAuth, LoginAllowed, NewProfile, ClaimedName, SuffixedHandle, SetupPayload, CreateManagedProfile, UpdateManagedProfile,
      CreateConsentRequest, CreateAuthorizationCode, GetManagedProfileByIdentity, HashToken;
  }

  lemma AddedIsNew(cfg: Config, h: History, pid: nat, now: int, n: Note)
    requires NoteOk(cfg, h, pid, now, n)
    ensures forall id :: id in AddedRequest(n) ==> id !in h.requests
    ensures forall id :: id in AddedConsent(n) ==> id !in h.consents
  {
    hide RequestOk, ConsentOk, CodeOk, TokenOk, CredentialGood;
  }

  /** A row once stored is there after a step only if it was there before, and the step did not delete it. */
  lemma StillStored(cfg: Config, states: seq<Sys>, events: seq<Event>, i: nat, pid: nat, ch: Choice, p: Proc, x: Ticket)
    requires (hide Step, Advance; IsRun(cfg, states, events)) && StepOf(cfg, states, events, i, pid, ch, p)
    requires OnceStored(states[i].hist, x) && Stored(OutcomeAt(cfg, states, i, p, ch).shared.db, x)
    ensures Stored(states[i].shared.db, x) && p != Dropper(x)
  {
    hide Advance, Fresh, Initial, Enabled, Step, Inv, ChoiceOk;
    StepNoteOk(cfg, states, events, i, pid, ch, p);
    var o := OutcomeAt(cfg, states, i, p, ch);
    AdvanceShaped(cfg, states[i].shared, p, states[i].now, ch);
    ShapedSweeps(states[i].shared, p, states[i].now, ch, o);
    AddedIsNew(cfg, states[i].hist, pid, states[i].now, o.note);
    hide Shaped, NoteOk;
  }

  lemma PurgedNotAdded(db: Db, part: CleanupPart, at: int, x: Ticket)
    requires Stored(Purge(db, part, at), x)
    ensures Stored(db, x)
  {
  }

  /** A deleted row never comes back, and what a request has in hand it keeps in hand until then. */
  lemma HeldStep(cfg: Config, states: seq<Sys>, events: seq<Event>, i: nat, pid: nat, x: Ticket)
    requires (hide Step, Advance; IsRun(cfg, states, events)) && i < |events| && OnceStored(states[i].hist, x)
    requires InHand(states[i].procs, pid, x) || !Stored(states[i].shared.db, x)
    ensures InHand(states[i + 1].procs, pid, x) || !Stored(states[i + 1].shared.db, x)
  {
    hide Advance, Fresh, Initial, Inv, ChoiceOk, Record, Purge, Holds, Stored;
    OneStep(cfg, states, events, i);
    match events[i]
    case Resume(actor, ch) =>
      ResumeStep(cfg, states, events, i);
      var p := states[i].procs[actor];
      if Stored(OutcomeAt(cfg, states, i, p, ch).shared.db, x) {
        StillStored(cfg, states, events, i, actor, ch, p, x);
        if actor == pid {
          HandOn(cfg, states[i].shared, p, states[i].now, ch, x);
        }
      }
    case Clean(part, at) =>
      if Stored(states[i + 1].shared.db, x) {
        PurgedNotAdded(states[i].shared.db, part, at, x);
      }
    case _ =>
  }

  lemma OnceStoredLater(h: History, g: History, x: Ticket)
    requires Later(h, g) && OnceStored(h, x)
    ensures OnceStored(g, x)
  {
  }

  lemma {:induction false} HeldOrGone(cfg: Config, states: seq<Sys>, events: seq<Event>, i: nat, j: nat, pid: nat, x: Ticket)
    requires (hide *; IsRun(cfg, states, events)) && i <= j < |states| && InHand(states[i].procs, pid, x) && OnceStored(states[i].hist, x)
    ensures InHand(states[j].procs, pid, x) || !Stored(states[j].shared.db, x)
    decreases j - i
  {
    hide Initial, Enabled, Step, InHand, Stored, OnceStored, Later;
    if i < j {
      HeldOrGone(cfg, states, events, i, j - 1, pid, x);
      RunGrows(cfg, states, events, i, j - 1);
      OnceStoredLater(states[i].hist, states[j - 1].hist, x);
      HeldStep(cfg, states, events, j - 1, pid, x);
    }
  }

  // ---- How a row came to be used up ---------------------------------------------------------

  /** What a record gained, and from which row. */
  predicate Gives(n: Note, x: Ticket, g: Gain) {
    match n
    case ConsentStored(row, id, _) => x == OfRequest(id) && g == ConsentGained(row.id)
    case CodeStored(row, Login(id, _)) => x == OfRequest(id) && g == CodeGained(row.codeHash)
    case CodeStored(row, Approval(id, _)) => x == OfConsent(id) && g == CodeGained(row.codeHash)
    case _ => false
  }

  lemma GivesOne(n: Note, x: Ticket, g: Gain, g': Gain)
    requires Gives(n, x, g) && Gives(n, x, g')
    ensures g == g'
  {
  }

  /** The record behind a gain. */
  function NoteOf(h: History, x: Ticket, g: Gain): (n: Note)
    requires Gained(h, x, g)
  {
    match g
    case ConsentGained(c) => ConsentStored(h.consents[c].row, h.consents[c].requestId, h.consents[c].login)
    case CodeGained(k) => CodeStored(h.codes[k].row, h.codes[k].cause)
  }

  function DateOf(h: History, x: Ticket, g: Gain): int
    requires Gained(h, x, g)
  {
    match g
    case ConsentGained(c) => h.consents[c].at
    case CodeGained(k) => h.codes[k].at
  }

  lemma GainKnown(cfg: Config, s: Sys, x: Ticket, g: Gain)
    requires (hide *; Inv(cfg, s)) && Gained(s.hist, x, g)
    ensures Shows(s.hist, NoteOf(s.hist, x, g), DateOf(s.hist, x, g)) && Gives(NoteOf(s.hist, x, g), x, g)
  {
    hide Inv, ConsentOk, CodeOk;
    match g
    case ConsentGained(c) => ConsentKnown(cfg, s, c);
      GainNamed(cfg, s, x, g);
    case CodeGained(k) => CodeKnown(cfg, s, k);
      GainNamed(cfg, s, x, g);
  }

  lemma GainNamed(cfg: Config, s: Sys, x: Ticket, g: Gain)
    requires Gained(s.hist, x, g)
    requires g.ConsentGained? ==> ConsentOk(cfg, s.hist.requests, g.id, s.hist.consents[g.id])
    requires g.CodeGained? ==> CodeOk(cfg, s.hist.requests, s.hist.consents, g.hash, s.hist.codes[g.hash])
    ensures Shows(s.hist, NoteOf(s.hist, x, g), DateOf(s.hist, x, g)) && Gives(NoteOf(s.hist, x, g), x, g)
  {
    hide LoginOk;
  }

  /** A step that gives something uses the row up, and goes on to delete it. */
  lemma GivingUsesUp(cfg: Config, s: Shared, p: Proc, now: int, ch: Choice, x: Ticket, g: Gain)
    requires (hide *; Gives(Advance(cfg, s, p, now, ch).note, x, g))
    ensures (p.Found? || p.Matched?) && Holds(p, x) && Advance(cfg, s, p, now, ch).next == Some(Dropper(x))
    ensures p.Found? ==> Advance(cfg, s, p, now, ch) == OnFound(cfg, s, p.callback, p.row, now, ch)
    ensures p.Matched? ==> p.decision == "approve"
  {
    hide *;
    var o := Advance(cfg, s, p, now, ch);
    AdvanceShaped(cfg, s, p, now, ch);
    GivingHolds(s, p, now, ch, o, x, g);
    if p.Matched? {
      CodeStoredShape(cfg, s, p, now, ch);
    }
    if p.Found? {
      AdvanceFound(cfg, s, p, now, ch);
    }
  }

  lemma AdvanceFound(cfg: Config, s: Shared, p: Proc, now: int, ch: Choice)
    requires (hide *; p.Found?)
    ensures Advance(cfg, s, p, now, ch) == OnFound(cfg, s, p.callback, p.row, now, ch)
  {
    hide OnFound;
  }

  lemma GivingHolds(s: Shared, p: Proc, now: int, ch: Choice, o: Outcome, x: Ticket, g: Gain)
    requires Shaped(s, p, now, ch, o) && Gives(o.note, x, g)
    ensures (p.Found? && o.note.ConsentStored?) || (p.Found? && o.note.CodeStored?) || (p.Matched? && o.note.CodeStored?)
    ensures Holds(p, x) && o.next == Some(Dropper(x))
  {
    hide GetAuthRequest, GetConsentRequest, ConsumeAuthorizationCode;
  }

  lemma LoginGiving(cfg: Config, s: Shared, p: Proc, now: int, ch: Choice)
    requires (hide *; p.Found?) && var n := OnFound(cfg, s, p.callback, p.row, now, ch).note; n.ConsentStored? || n.CodeStored?
    ensures UsesUp(cfg, p, ch, OfRequest(p.row.id))
  {
    hide CompleteAuth, LoginAllowed, OnSetupLogin, CreateConsentRequest, CreateAuthorizationCode, ConsentRow, CodeRowFromRequest;
    SetupGivesNothing(cfg, s, p, now, ch);
  }

  lemma SetupGivesNothing(cfg: Config, s: Shared, p: Proc, now: int, ch: Choice)
    requires p.Found?
    ensures forall login: IdToken :: OnSetupLogin(cfg, s, p.row, login.identity, now, ch).note.SetupLogin?
  {
    hide SetupPayload;
  }

  /** A request comes to hold an unused row by looking it up. */
  lemma ComesToHold(cfg: Config, s: Shared, p: Proc, now: int, ch: Choice, x: Ticket)
    requires (hide *; var n := Advance(cfg, s, p, now, ch).next; n.Some? && (n.value.Found? || n.value.Matched?) && Holds(n.value, x))
    ensures LooksUp(s.db, p, now, ch, x) && !Holds(p, x)
  {
    hide Advance, GetAuthRequest, GetConsentRequest;
    var n := Advance(cfg, s, p, now, ch).next;
    if n.value.Matched? {
      MatchedShape(cfg, s, p, now, ch);
      TokenMatched(cfg, s, p, now, ch);
    } else {
      FoundShape(cfg, s, p, now, ch);
      LookupFound(cfg, s, p, now, ch);
    }
  }

  lemma TokenMatched(cfg: Config, s: Shared, p: Proc, now: int, ch: Choice)
    requires (hide *; p.Arrived?) && p.request.ConsentAnswer? && Advance(cfg, s, p, now, ch).next.Some?
    ensures GetConsentRequest(s.db, p.request.id, now).Ok? && p.request.csrf == GetConsentRequest(s.db, p.request.id, now).value.csrfToken
  {
    hide GetConsentRequest;
  }

  lemma LookupFound(cfg: Config, s: Shared, p: Proc, now: int, ch: Choice)
    requires (hide *; p.Searching? || (p.Arrived? && p.request.Callback?))
    requires var n := Advance(cfg, s, p, now, ch).next; n.Some? && n.value.Found?
    ensures p.Searching? && GetAuthRequest(s.db, ch.backend, p.callback.state, now) == Ok(Advance(cfg, s, p, now, ch).next.value.row)
  {
    hide GetAuthRequest;
  }

  lemma FoundRowStored(db: Db, p: Proc, now: int, ch: Choice, x: Ticket, h: History)
    requires LooksUp(db, p, now, ch, x) && RequestsKept(db.requests, h.requests) && ConsentsKept(db.consents, h.consents)
    requires forall id :: id in h.requests ==> h.requests[id].row.id == id
    requires forall id :: id in h.consents ==> h.consents[id].row.id == id
    ensures Stored(db, x) && OnceStored(h, x)
  {
    hide Advance, Step;
  }

  lemma LookedUpIsStored(cfg: Config, s: Sys, p: Proc, ch: Choice, x: Ticket)
    requires Inv(cfg, s) && LooksUp(s.shared.db, p, s.now, ch, x)
    ensures Stored(s.shared.db, x) && OnceStored(s.hist, x)
  {
    IdsNamed(cfg, s);
    hide Traced, CodesKept, TokensKept, ProfilesKept, CustomKept, VaultKept, SecretsDrawn, ProcsOk, LooksUp, RequestsKept, ConsentsKept, LoginsPast;
    FoundRowStored(s.shared.db, p, s.now, ch, x, s.hist);
  }

  lemma IdsNamed(cfg: Config, s: Sys)
    requires (hide *; Inv(cfg, s))
    ensures forall id :: id in s.hist.requests ==> s.hist.requests[id].row.id == id
    ensures forall id :: id in s.hist.consents ==> s.hist.consents[id].row.id == id
  {
    hide Inv, LoginOk, QueryOk, SignInOk;
    forall id | id in s.hist.requests
      ensures s.hist.requests[id].row.id == id
    {
      RequestKnown(cfg, s, id);
    }
    forall id | id in s.hist.consents
      ensures s.hist.consents[id].row.id == id
    {
      ConsentKnown(cfg, s, id);
    }
  }

  /** Request `pid` looked the row up at step `i`, kept it until step `j`, and used it up there. */
  ghost predicate Spent(cfg: Config, states: seq<Sys>, events: seq<Event>, i: nat, j: nat, pid: nat, x: Ticket) {
    hide Step, Advance;
    && i < j < |events| && |states| == |events| + 1
    && LooksUpAt(states, events, i, pid, x) && UsesUpAt(cfg, states, events, j, pid, x)
    && forall m :: i < m <= j ==> pid in states[m].procs && states[m].procs[pid] == states[j].procs[pid]
  }

  ghost predicate GivesAt(cfg: Config, states: seq<Sys>, events: seq<Event>, j: nat, x: Ticket, g: Gain) {
    hide *;
    && j < |events| && j < |states| && events[j].Resume? && events[j].pid in states[j].procs
    && Gives(OutcomeAt(cfg, states, j, states[j].procs[events[j].pid], events[j].choice).note, x, g)
  }

  /** Each gain comes from a step that used the row up, after the same request looked it up. */
  lemma SpentFor(cfg: Config, states: seq<Sys>, events: seq<Event>, n: nat, x: Ticket, g: Gain) returns (i: nat, j: nat, pid: nat)
    requires (hide *; IsRun(cfg, states, events)) && n < |states| && Gained(states[n].hist, x, g)
    ensures j < n && Spent(cfg, states, events, i, j, pid, x) && GivesAt(cfg, states, events, j, x, g)
    ensures states[j].now == DateOf(states[n].hist, x, g)
  {
    hide Advance, IsRun, Inv, Fresh, Gives, NoteOf, DateOf, Shows, LooksUp, UsesUp;
    RunKeepsInv(cfg, states, events, n);
    GainKnown(cfg, states[n], x, g);
    var ch, p;
    j, pid, ch, p := NoteSource(cfg, states, events, n, NoteOf(states[n].hist, x, g), DateOf(states[n].hist, x, g));
    GivingUses(cfg, states[j].shared, p, states[j].now, ch, x, g);
    var ch', q;
    i, ch', q := ProcSource(cfg, states, events, j, pid);
    ComesToHold(cfg, states[i].shared, q, states[i].now, ch', x);
  }

  lemma GivingUses(cfg: Config, s: Shared, p: Proc, now: int, ch: Choice, x: Ticket, g: Gain)
    requires Gives(Advance(cfg, s, p, now, ch).note, x, g)
    ensures (p.Found? || p.Matched?) && Holds(p, x) && UsesUp(cfg, p, ch, x)
  {
    hide Advance, OnFound, LoginAllowed, CompleteAuth;
    GivingUsesUp(cfg, s, p, now, ch, x, g);
    if p.Found? {
      LoginGiving(cfg, s, p, now, ch);
    }
  }

  /** Two gains from one row: two different requests. */
  lemma TwoSpent(cfg: Config, states: seq<Sys>, events: seq<Event>, n: nat, x: Ticket, i: nat, j: nat, a: nat, i': nat, j': nat, b: nat,
                 g: Gain, g': Gain)
    requires IsRun(cfg, states, events) && n < |states| && i <= i' && j < n && j' < n && g != g'
    requires Spent(cfg, states, events, i, j, a, x) && GivesAt(cfg, states, events, j, x, g)
    requires Spent(cfg, states, events, i', j', b, x) && GivesAt(cfg, states, events, j', x, g')
    ensures Overlaps(cfg, states, events, n, x)
  {
    hide Advance, IsRun, Inv, Fresh, LooksUp, UsesUp, Gives, Stored, OnceStored, Holds, Later;
    if i == i' {
      NotTwice(cfg, states, events, i, j, j', a, x, g, g');
    } else {
      assert InHand(states[i + 1].procs, a, x) by {
        UsedIsHeld(cfg, states[j].procs[a], events[j].choice, x);
      }
      RunKeepsInv(cfg, states, events, i);
      LookedUpIsStored(cfg, states[i], states[i].procs[a], events[i].choice, x);
      RunGrows(cfg, states, events, i, i + 1);
      OnceStoredLater(states[i].hist, states[i + 1].hist, x);
      HeldOrGone(cfg, states, events, i + 1, i', a, x);
      RunKeepsInv(cfg, states, events, i');
      LookedUpIsStored(cfg, states[i'], states[i'].procs[b], events[i'].choice, x);
      LookingNotHolding(states[i'].shared.db, states[i'].procs[b], states[i'].now, events[i'].choice, x);
    }
  }

  lemma UsedIsHeld(cfg: Config, p: Proc, ch: Choice, x: Ticket)
    requires UsesUp(cfg, p, ch, x)
    ensures Holds(p, x) && p != Dropper(x)
  {
    hide LoginAllowed, CompleteAuth;
  }

  lemma LookingNotHolding(db: Db, p: Proc, now: int, ch: Choice, x: Ticket)
    requires LooksUp(db, p, now, ch, x)
    ensures !Holds(p, x)
  {
    hide GetAuthRequest, GetConsentRequest;
  }

  /** After one lookup the row is used up at most once: the next thing is to delete it. */
  lemma NotTwice(cfg: Config, states: seq<Sys>, events: seq<Event>, i: nat, j: nat, j': nat, pid: nat, x: Ticket, g: Gain, g': Gain)
    requires IsRun(cfg, states, events) && Spent(cfg, states, events, i, j, pid, x) && Spent(cfg, states, events, i, j', pid, x)
    requires GivesAt(cfg, states, events, j, x, g) && GivesAt(cfg, states, events, j', x, g')
    ensures g == g'
  {
    hide Advance, IsRun, Fresh, LooksUp, UsesUp, Gives, Holds;
    if j == j' {
      GivesOne(OutcomeAt(cfg, states, j, states[j].procs[pid], events[j].choice).note, x, g, g');
    } else if j < j' {
      DropsNext(cfg, states, events, j, pid, x, g);
      UsedIsHeld(cfg, states[j'].procs[pid], events[j'].choice, x);
    } else {
      DropsNext(cfg, states, events, j', pid, x, g');
      UsedIsHeld(cfg, states[j].procs[pid], events[j].choice, x);
    }
  }

  lemma DropsNext(cfg: Config, states: seq<Sys>, events: seq<Event>, j: nat, pid: nat, x: Ticket, g: Gain)
    requires (hide Step, Advance; IsRun(cfg, states, events)) && GivesAt(cfg, states, events, j, x, g) && events[j].pid == pid
    ensures pid in states[j + 1].procs && states[j + 1].procs[pid] == Dropper(x)
  {
    hide Advance, IsRun, Fresh, LooksUp, UsesUp, Gives, Holds;
    ResumeStep(cfg, states, events, j);
    GivingUsesUp(cfg, states[j].shared, states[j].procs[pid], states[j].now, events[j].choice, x, g);
  }

  // ---- A row used up gives something ------------------------------------------------------------

  lemma UsingGives(cfg: Config, s: Sys, pid: nat, ch: Choice, x: Ticket) returns (g: Gain)
    requires (hide *; Inv(cfg, s)) && Fresh(cfg, s, ch) && pid in s.procs && UsesUp(cfg, s.procs[pid], ch, x)
    ensures Gives(OutcomeOf(cfg, s, pid, ch).note, x, g)
    ensures !Gained(s.hist, x, g)
  {
    hide CompleteAuth, LoginAllowed, Fresh, Inv, ConsentRow, CodeRowFromConsent, CodeRowFromRequest, Advance, Step;
    KeysUnused(cfg, s, ch);
    g := if x.OfRequest? && cfg.consentRequired then ConsentGained(ch.a) else CodeGained(HashToken(cfg.lib, ch.a));
    if x.OfRequest? {
      LoginGives(cfg, s.shared, s.procs[pid], s.now, ch, x.id);
    } else {
      ApprovalGives(cfg, s.shared, s.procs[pid], s.now, ch, x.id);
    }
  }

  lemma KeysUnused(cfg: Config, s: Sys, ch: Choice)
    requires Inv(cfg, s) && Fresh(cfg, s, ch)
    ensures ch.a !in s.hist.consents && ch.a !in s.shared.db.consents
    ensures HashToken(cfg.lib, ch.a) !in s.hist.codes && HashToken(cfg.lib, ch.a) !in s.shared.db.codes
  {
    hide Traced, RequestsKept, TokensKept, ProfilesKept, CustomKept, VaultKept, ProcsOk;
  }

  lemma LoginGives(cfg: Config, s: Shared, p: Proc, now: int, ch: Choice, id: string)
    requires UsesUp(cfg, p, ch, OfRequest(id)) && ch.a !in s.db.consents && HashToken(cfg.lib, ch.a) !in s.db.codes
    ensures Gives(Advance(cfg, s, p, now, ch).note, OfRequest(id), if cfg.consentRequired then ConsentGained(ch.a) else CodeGained(HashToken(cfg.lib, ch.a)))
  {
    hide CompleteAuth, LoginAllowed, SignedInProfile;
  }

  lemma ApprovalGives(cfg: Config, s: Shared, p: Proc, now: int, ch: Choice, id: string)
    requires UsesUp(cfg, p, ch, OfConsent(id)) && HashToken(cfg.lib, ch.a) !in s.db.codes
    ensures Gives(Advance(cfg, s, p, now, ch).note, OfConsent(id), CodeGained(HashToken(cfg.lib, ch.a)))
  {
  }

  lemma RecordGains(h: History, pid: nat, now: int, n: Note, x: Ticket, g: Gain)
    requires Gives(n, x, g)
    ensures Gained(Record(h, pid, now, n), x, g)
  {
    hide Record;
    RecordedParts(h, pid, now, n);
  }

  lemma GainedLater(h: History, g: History, x: Ticket, y: Gain)
    requires Later(h, g) && Gained(h, x, y)
    ensures Gained(g, x, y)
  {
  }

  lemma UsedIsGained(cfg: Config, states: seq<Sys>, events: seq<Event>, j: nat, n: nat, pid: nat, x: Ticket) returns (g: Gain)
    requires (hide *; IsRun(cfg, states, events)) && j < n < |states| && UsesUpAt(cfg, states, events, j, pid, x)
    ensures !Gained(states[j].hist, x, g) && Gained(states[j + 1].hist, x, g) && Gained(states[n].hist, x, g)
  {
    hide Advance, IsRun, Inv, Fresh, UsesUp, Gives, Gained, Later;
    RunKeepsInv(cfg, states, events, j);
    ResumeStep(cfg, states, events, j);
    var ch := events[j].choice;
    g := UsingGives(cfg, states[j], pid, ch, x);
    RecordGains(states[j].hist, pid, states[j].now, OutcomeAt(cfg, states, j, states[j].procs[pid], ch).note, x, g);
    RunGrows(cfg, states, events, j + 1, n);
    GainedLater(states[j + 1].hist, states[n].hist, x, g);
  }

  // ---- The exact condition ------------------------------------------------------------------------

  ghost predicate GainedTwice(h: History, x: Ticket) {
    exists g, g' :: g != g' && Gained(h, x, g) && Gained(h, x, g')
  }

  /** More than one consent from one authorization request, or more than one code from one request or consent: exactly after an overlap. */
  lemma TwiceExact(cfg: Config, states: seq<Sys>, events: seq<Event>, n: nat, x: Ticket)
    requires (hide *; IsRun(cfg, states, events)) && n < |states|
    ensures GainedTwice(states[n].hist, x) <==> Overlaps(cfg, states, events, n, x)
  {
    hide IsRun, LooksUpAt, UsesUpAt, InHand, Gained;
    if GainedTwice(states[n].hist, x) {
      TwiceOverlaps(cfg, states, events, n, x);
    }
    if Overlaps(cfg, states, events, n, x) {
      var i: nat, a: nat, b: nat, ja: nat, jb: nat :|
        i < n && ja < n && jb < n && a != b && LooksUpAt(states, events, i, b, x) && InHand(states[i].procs, a, x)
        && UsesUpAt(cfg, states, events, ja, a, x) && UsesUpAt(cfg, states, events, jb, b, x);
      OverlapGainsTwice(cfg, states, events, n, x, a, b, ja, jb);
    }
  }

  lemma TwiceOverlaps(cfg: Config, states: seq<Sys>, events: seq<Event>, n: nat, x: Ticket)
    requires (hide *; IsRun(cfg, states, events)) && n < |states| && GainedTwice(states[n].hist, x)
    ensures Overlaps(cfg, states, events, n, x)
  {
    hide IsRun, Gained, Spent, GivesAt, Overlaps;
    var g: Gain, g': Gain :| g != g' && Gained(states[n].hist, x, g) && Gained(states[n].hist, x, g');
    var i, j, a := SpentFor(cfg, states, events, n, x, g);
    var i', j', b := SpentFor(cfg, states, events, n, x, g');
    if i <= i' {
      TwoSpent(cfg, states, events, n, x, i, j, a, i', j', b, g, g');
    } else {
      TwoSpent(cfg, states, events, n, x, i', j', b, i, j, a, g', g);
    }
  }

  lemma OverlapGainsTwice(cfg: Config, states: seq<Sys>, events: seq<Event>, n: nat, x: Ticket, a: nat, b: nat, ja: nat, jb: nat)
    requires (hide *; IsRun(cfg, states, events)) && n < |states| && ja < n && jb < n && a != b
    requires UsesUpAt(cfg, states, events, ja, a, x) && UsesUpAt(cfg, states, events, jb, b, x)
    ensures GainedTwice(states[n].hist, x)
  {
    hide IsRun, UsesUp, Gained, Later;
    var g := UsedIsGained(cfg, states, events, ja, n, a, x);
    var g' := UsedIsGained(cfg, states, events, jb, n, b, x);
    if ja < jb {
      RunGrows(cfg, states, events, ja + 1, jb);
      GainedLater(states[ja + 1].hist, states[jb].hist, x, g);
    } else {
      RunGrows(cfg, states, events, jb + 1, ja);
      GainedLater(states[jb + 1].hist, states[ja].hist, x, g');
    }
  }

  /** The authorization request gave two consents or two codes, directly or through its consents. */
  ghost predicate MoreThanOne(h: History, id: string) {
    || (exists c, d :: c != d && ConsentOf(h, c, id) && ConsentOf(h, d, id))
    || (exists k, l :: k != l && CodeOfRequest(h, k, id) && CodeOfRequest(h, l, id))
  }

  predicate ConsentOf(h: History, c: string, id: string) {
    c in h.consents && h.consents[c].requestId == id
  }

  /** Two good callbacks of the request overlapped, or two approvals of a consent of its own. */
  ghost predicate OverlapOf(cfg: Config, states: seq<Sys>, events: seq<Event>, n: nat, id: string)
    requires (hide *; n < |states|)
  {
    || Overlaps(cfg, states, events, n, OfRequest(id))
    || exists c :: ConsentOf(states[n].hist, c, id) && Overlaps(cfg, states, events, n, OfConsent(c))
  }

  /** In any run, an authorization request gives more than one consent or code if and only if requests overlapped on it or on its consent. */
  lemma OverlapExact(cfg: Config, states: seq<Sys>, events: seq<Event>, n: nat, id: string)
    requires (hide *; IsRun(cfg, states, events)) && n < |states|
    ensures MoreThanOne(states[n].hist, id) <==> OverlapOf(cfg, states, events, n, id)
  {
    hide IsRun, Overlaps, Inv;
    RunKeepsInv(cfg, states, events, n);
    forall x: Ticket
      ensures GainedTwice(states[n].hist, x) <==> Overlaps(cfg, states, events, n, x)
    {
      TwiceExact(cfg, states, events, n, x);
    }
    if MoreThanOne(states[n].hist, id) {
      MoreIsTwice(cfg, states[n], id);
    }
    if GainedTwice(states[n].hist, OfRequest(id)) {
      TwiceIsMore(cfg, states[n], OfRequest(id), id);
    }
    forall c | ConsentOf(states[n].hist, c, id) && GainedTwice(states[n].hist, OfConsent(c))
      ensures MoreThanOne(states[n].hist, id)
    {
      TwiceIsMore(cfg, states[n], OfConsent(c), id);
    }
  }

  lemma MoreIsTwice(cfg: Config, s: Sys, id: string)
    requires Inv(cfg, s) && MoreThanOne(s.hist, id)
    ensures GainedTwice(s.hist, OfRequest(id)) || exists c :: ConsentOf(s.hist, c, id) && GainedTwice(s.hist, OfConsent(c))
  {
    hide Inv;
    var h := s.hist;
    if c, d :| c != d && ConsentOf(h, c, id) && ConsentOf(h, d, id) {
      TwoGains(h, OfRequest(id), ConsentGained(c), ConsentGained(d));
    } else {
      var k, l :| k != l && CodeOfRequest(h, k, id) && CodeOfRequest(h, l, id);
      OneWay(cfg, s, k);
      OneWay(cfg, s, l);
      if h.codes[k].cause.Login? {
        TwoGains(h, OfRequest(id), CodeGained(k), CodeGained(l));
      } else {
        var c := h.codes[k].cause.consentId;
        assert ConsentOf(h, c, id) && ConsentOf(h, h.codes[l].cause.consentId, id);
        TwoGains(h, OfConsent(c), CodeGained(k), CodeGained(l));
      }
    }
  }

  lemma TwoGains(h: History, x: Ticket, g: Gain, g': Gain)
    requires g != g' && Gained(h, x, g) && Gained(h, x, g')
    ensures GainedTwice(h, x)
  {
  }

  lemma TwiceIsMore(cfg: Config, s: Sys, x: Ticket, id: string)
    requires Inv(cfg, s) && GainedTwice(s.hist, x)
    requires match x case OfRequest(r) => r == id case OfConsent(c) => ConsentOf(s.hist, c, id)
    ensures MoreThanOne(s.hist, id)
  {
    hide Inv, LoginOk;
    var h := s.hist;
    var g: Gain, g': Gain :| g != g' && Gained(h, x, g) && Gained(h, x, g');
    match (g, g')
    case (ConsentGained(c), ConsentGained(d)) => assert ConsentOf(h, c, id) && ConsentOf(h, d, id);
    case (CodeGained(k), CodeGained(l)) => assert CodeOfRequest(h, k, id) && CodeOfRequest(h, l, id);
    case (ConsentGained(c), CodeGained(k)) => NotBoth(cfg, s, c, k, id);
    case (CodeGained(k), ConsentGained(c)) => NotBoth(cfg, s, c, k, id);
  }

  lemma NotBoth(cfg: Config, s: Sys, c: string, k: string, id: string)
    requires (hide *; Inv(cfg, s)) && c in s.hist.consents
    ensures !(k in s.hist.codes && CausedByLogin(s.hist.codes[k].cause, id))
  {
    hide Inv, LoginOk;
    ConsentKnown(cfg, s, c);
    if k in s.hist.codes {
      OneWay(cfg, s, k);
    }
  }

  /** Without an overlap, one authorization request gives at most one consent, one code and one token. */
  lemma OneUnlessOverlap(cfg: Config, states: seq<Sys>, events: seq<Event>, n: nat, id: string)
    requires (hide *; IsRun(cfg, states, events)) && n < |states| && !OverlapOf(cfg, states, events, n, id)
    ensures var h := states[n].hist;
            && (forall c, d :: ConsentOf(h, c, id) && ConsentOf(h, d, id) ==> c == d)
            && (forall k, l :: CodeOfRequest(h, k, id) && CodeOfRequest(h, l, id) ==> k == l)
            && (forall t, u :: TokenOfRequest(h, t, id) && TokenOfRequest(h, u, id) ==> t == u)
  {
    hide IsRun, OverlapOf, Inv, ConsentOf, CodeOfRequest;
    var h := states[n].hist;
    RunKeepsInv(cfg, states, events, n);
    OverlapExact(cfg, states, events, n, id);
    forall t, u | TokenOfRequest(h, t, id) && TokenOfRequest(h, u, id)
      ensures t == u
    {
      TokenKnown(cfg, states[n], t);
      TokenKnown(cfg, states[n], u);
    }
  }

  /** Two requests that have the same row in hand, each about to use it up, get a gain each. */
  lemma TwoUsesTwoGains(cfg: Config, s: Sys, a: nat, b: nat, x: Ticket, ch: Choice, ch': Choice) returns (g: Gain, g': Gain)
    requires (hide *; Inv(cfg, s)) && a != b && a in s.procs && b in s.procs && Fresh(cfg, s, ch)
    requires UsesUp(cfg, s.procs[a], ch, x) && UsesUp(cfg, s.procs[b], ch', x)
    requires Fresh(cfg, Commit(cfg, s, a, ch, OutcomeOf(cfg, s, a, ch)), ch')
    ensures var t := Commit(cfg, s, a, ch, OutcomeOf(cfg, s, a, ch));
            && b in t.procs
            && var h := Commit(cfg, t, b, ch', OutcomeOf(cfg, t, b, ch')).hist;
            g != g' && Gained(h, x, g) && Gained(h, x, g')
  {
    hide Inv, Fresh, Advance, UsesUp, Gained, Gives, Record, NoteOk, Later;
    var o := OutcomeOf(cfg, s, a, ch);
    var t := Commit(cfg, s, a, ch, o);
    ResumeKeepsInv(cfg, s, a, ch);
    g := UsingGives(cfg, s, a, ch, x);
    RecordGains(s.hist, a, s.now, o.note, x, g);
    g' := UsingGives(cfg, t, b, ch', x);
    RecordGains(t.hist, b, t.now, OutcomeOf(cfg, t, b, ch').note, x, g');
    AdvanceGood(cfg, t, b, ch');
    RecordLater(cfg, t, b, OutcomeOf(cfg, t, b, ch').note);
    GainedLater(t.hist, Record(t.hist, b, t.now, OutcomeOf(cfg, t, b, ch').note), x, g);
  }
}
