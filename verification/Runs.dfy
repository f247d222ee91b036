/**
 The running bridge: any number of requests in flight, each store call one
 atomic step, with clock ticks and the deletes of the cleanup in between, and
 a history that only observes.
 */
module Runs {
  import opened Prelude
  import opened Library
  import opened Config
  import opened Tables
  import opened Handlers

  // ---- History ----------------------------------------------------------------------

  datatype RequestOrigin = RequestOrigin(row: AuthRequest, query: Option<AuthorizeQuery>, source: Source, at: int)
  datatype ConsentOrigin = ConsentOrigin(row: ConsentRequest, requestId: string, login: IdToken, at: int)
  datatype CodeOrigin = CodeOrigin(row: AuthorizationCode, cause: Cause, at: int)
  datatype TokenOrigin = TokenOrigin(row: AccessToken, codeHash: string, form: CodeForm, at: int)
  datatype LoginOrigin = LoginOrigin(owner: Owner, at: int)
  datatype Edit = Edit(owner: Owner, credential: string, checkedAt: int, at: int)

  /** What became of a code. `Redeeming` lasts until the token of the presenting request is stored. */
  datatype Fate = Unredeemed | Redeeming(pid: nat) | Exchanged(tokenHash: string) | Answered | Burnt

  /** Everything ever stored, with its cause. Nothing is ever removed. */
  datatype History = History(
    requests: map<string, RequestOrigin>,
    consents: map<string, ConsentOrigin>,
    codes: map<string, CodeOrigin>,
    fates: map<string, Fate>,
    presented: map<string, int>,
    tokens: map<string, TokenOrigin>,
    revoked: set<string>,
    logins: map<string, LoginOrigin>,
    owners: map<string, Owner>,
    edits: seq<Edit>)

  function UseFate(use: Use, pid: nat): Fate {
    match use
    case ToExchange => Redeeming(pid)
    case ToAnswer => Answered
    case ToWaste => Burnt
  }

  function Record(h: History, pid: nat, now: int, n: Note): History {
    match n
    case Nothing => h
    case RequestStored(row, query, source) => h.(requests := h.requests[row.id := RequestOrigin(row, query, source, now)])
    case ConsentStored(row, requestId, login) => h.(consents := h.consents[row.id := ConsentOrigin(row, requestId, login, now)])
    case CodeStored(row, cause) =>
      h.(codes := h.codes[row.codeHash := CodeOrigin(row, cause, now)], fates := h.fates[row.codeHash := Unredeemed])
    case CodePresented(hash, use) => h.(fates := h.fates[hash := UseFate(use, pid)], presented := h.presented[hash := now])
    case TokenStored(row, codeHash, form) =>
      h.(tokens := h.tokens[row.tokenHash := TokenOrigin(row, codeHash, form, now)],
         fates := h.fates[codeHash := Exchanged(row.tokenHash)])
    case CodeWasted(hash) => h.(fates := h.fates[hash := Burnt])
    case TokenRevoked(hash) => if hash in h.tokens then h.(revoked := h.revoked + {hash}) else h
    case SetupLogin(credential, owner) => h.(logins := h.logins[credential := LoginOrigin(owner, now)])
    case HandleGiven(profile) => h.(owners := h.owners[profile.handle := profile.Holder()])
    case ProfileEdited(owner, credential, checkedAt) => h.(edits := h.edits + [Edit(owner, credential, checkedAt, now)])
  }

  // ---- States and steps ------------------------------------------------------------------

  /** `issued` and `digests` hold every secret drawn so far and the hashes of those kept hashed. */
  datatype Sys = Sys(now: int, shared: Shared, procs: map<nat, Proc>, issued: set<string>, digests: set<string>, hist: History)

  ghost predicate Initial(s: Sys) {
    && s.shared == Shared(EMPTY, map[]) && s.procs == map[] && s.issued == {} && s.digests == {}
    && s.hist == History(map[], map[], map[], map[], map[], map[], {}, map[], map[], [])
  }

  datatype Event =
    | Tick(elapsed: int)
    | Clean(part: CleanupPart, at: int)
    | Start(pid: nat, request: Request)
    | Resume(pid: nat, choice: Choice)

  /** Random secrets are new, different from each other, and do not collide under the hash. */
  ghost predicate Fresh(cfg: Config, s: Sys, ch: Choice) {
    && ch.a !in s.issued && ch.b !in s.issued && ch.c !in s.issued
    && ch.a != ch.b && ch.a != ch.c && ch.b != ch.c
    && HashToken(cfg.lib, ch.a) !in s.digests
  }

  ghost predicate Enabled(cfg: Config, s: Sys, e: Event) {
    match e
    case Tick(elapsed) => elapsed >= 0
    case Clean(_, at) => at <= s.now
    case Start(pid, _) => pid !in s.procs
    case Resume(pid, ch) => pid in s.procs && Fresh(cfg, s, ch) && ChoiceOk(s.procs[pid], ch)
  }

  ghost function OutcomeOf(cfg: Config, s: Sys, pid: nat, ch: Choice): Outcome
    requires (hide *; pid in s.procs)
  {
    Advance(cfg, s.shared, s.procs[pid], s.now, ch)
  }

  function SetProc(procs: map<nat, Proc>, pid: nat, next: Option<Proc>): map<nat, Proc> {
    if next.Some? then procs[pid := next.value] else procs - {pid}
  }

  ghost function Commit(cfg: Config, s: Sys, pid: nat, ch: Choice, o: Outcome): Sys {
    Sys(s.now, o.shared, SetProc(s.procs, pid, o.next), s.issued + {ch.a, ch.b, ch.c},
        s.digests + {HashToken(cfg.lib, ch.a)}, Record(s.hist, pid, s.now, o.note))
  }

  ghost function Step(cfg: Config, s: Sys, e: Event): Sys
    requires (hide Advance; Enabled(cfg, s, e))
  {
    match e
    case Tick(elapsed) => s.(now := s.now + elapsed)
    case Clean(part, at) => s.(shared := s.shared.(db := Purge(s.shared.db, part, at)))
    case Start(pid, request) => s.(procs := s.procs[pid := Arrived(request)])
    case Resume(pid, ch) => Commit(cfg, s, pid, ch, OutcomeOf(cfg, s, pid, ch))
  }

  /** What the step answers to its client, if anything. */
  ghost function ReplyOf(cfg: Config, s: Sys, e: Event): Option<Reply>
    requires (hide Advance; Enabled(cfg, s, e))
  {
    match e
    case Resume(pid, ch) => OutcomeOf(cfg, s, pid, ch).reply
    case _ => None
  }

  /** A run: the states passed through and the events between them. */
  ghost predicate IsRun(cfg: Config, states: seq<Sys>, events: seq<Event>) {
    hide *;
    && |states| == |events| + 1
    && Initial(states[0])
    && forall i :: 0 <= i < |events| ==> Enabled(cfg, states[i], events[i]) && states[i + 1] == Step(cfg, states[i], events[i])
  }
}
