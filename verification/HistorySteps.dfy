/** Each kind of record keeps the history coherent, and leaves what other requests rely on. */
module HistorySteps {
  import opened Prelude
  import opened Library
  import opened Config
  import opened Handles
  import opened Tables
  import opened Handlers
  import opened Runs
  import opened Invariant

  /** What a step must have established for what it records. */
  ghost predicate NoteOk(cfg: Config, h: History, pid: nat, now: int, n: Note) {
    hide *;
    match n
    case Nothing => true
    case RequestStored(row, query, source) =>
      row.id !in h.requests && RequestOk(cfg, h.owners, row.id, RequestOrigin(row, query, source, now))
    case ConsentStored(row, requestId, login) =>
      row.id !in h.consents && ConsentOk(cfg, h.requests, row.id, ConsentOrigin(row, requestId, login, now))
    case CodeStored(row, cause) =>
      row.codeHash !in h.codes && CodeOk(cfg, h.requests, h.consents, row.codeHash, CodeOrigin(row, cause, now))
    case CodePresented(hash, _) =>
      hash in h.codes && hash !in h.presented && now < h.codes[hash].row.expiresAt
    case TokenStored(row, codeHash, form) =>
      && row.tokenHash !in h.tokens && codeHash in h.fates && h.fates[codeHash] == Redeeming(pid)
      && TokenOk(cfg, h.codes, h.fates[codeHash := Exchanged(row.tokenHash)], row.tokenHash, TokenOrigin(row, codeHash, form, now))
    case CodeWasted(hash) => hash in h.fates && h.fates[hash] == Redeeming(pid)
    case TokenRevoked(_) => true
    case SetupLogin(credential, _) => credential !in h.logins
    case HandleGiven(profile) => profile.handle !in h.owners
    case ProfileEdited(owner, credential, checkedAt) => CredentialGood(cfg, h.logins, credential, owner, checkedAt) && checkedAt <= now
  }

  // ---- Coherence -----------------------------------------------------------------------

  ghost predicate SubMap<K, V>(m: map<K, V>, n: map<K, V>) {
    forall k :: k in m ==> k in n && n[k] == m[k]
  }

  lemma RequestOkGrows(cfg: Config, owners: map<string, Owner>, owners': map<string, Owner>, id: string, o: RequestOrigin)
    requires SubMap(owners, owners') && RequestOk(cfg, owners, id, o)
    ensures RequestOk(cfg, owners', id, o)
  {
    hide QueryOk;
    if !o.row.backendState.setup {
      SignInOkGrows(cfg, owners, owners', o.query.value,
                    SignIn(o.row.me, o.row.backend, o.row.profile.value, o.source, o.row.backendState.owner));
    }
  }

  lemma SignInOkGrows(cfg: Config, owners: map<string, Owner>, owners': map<string, Owner>, q: AuthorizeQuery, si: SignIn)
    requires SubMap(owners, owners') && SignInOk(cfg, owners, q, si)
    ensures SignInOk(cfg, owners', q, si)
  {
    hide RequestedMe, CanonicalLaw, ProfileByMe, HandleInUrl;
  }

  lemma OwnersGrow(cfg: Config, requests: map<string, RequestOrigin>, owners: map<string, Owner>, owners': map<string, Owner>)
    requires RequestsTraced(cfg, requests, owners) && SubMap(owners, owners')
    ensures RequestsTraced(cfg, requests, owners')
  {
    hide RequestOk;
    forall id | id in requests
      ensures RequestOk(cfg, owners', id, requests[id])
    {
      RequestOkGrows(cfg, owners, owners', id, requests[id]);
    }
  }

  lemma ConsentsWithMoreRequests(cfg: Config, consents: map<string, ConsentOrigin>, requests: map<string, RequestOrigin>, requests': map<string, RequestOrigin>)
    requires ConsentsTraced(cfg, consents, requests) && SubMap(requests, requests')
    ensures ConsentsTraced(cfg, consents, requests')
  {
    hide LoginOk;
    forall id | id in consents
      ensures ConsentOk(cfg, requests', id, consents[id])
    {
      assert ConsentOk(cfg, requests, id, consents[id]);
    }
  }

  lemma CodesWithMoreCauses(cfg: Config, codes: map<string, CodeOrigin>,
                            consents: map<string, ConsentOrigin>, requests: map<string, RequestOrigin>,
                            consents': map<string, ConsentOrigin>, requests': map<string, RequestOrigin>)
    requires CodesTraced(cfg, codes, consents, requests) && SubMap(consents, consents') && SubMap(requests, requests')
    ensures CodesTraced(cfg, codes, consents', requests')
  {
    hide LoginOk;
    forall k | k in codes
      ensures CodeOk(cfg, requests', consents', k, codes[k])
    {
      assert CodeOk(cfg, requests, consents, k, codes[k]);
    }
  }

  lemma TokensWithMoreCodes(cfg: Config, tokens: map<string, TokenOrigin>, codes: map<string, CodeOrigin>, codes': map<string, CodeOrigin>,
                            fates: map<string, Fate>, fates': map<string, Fate>)
    requires TokensTraced(cfg, tokens, codes, fates) && SubMap(codes, codes')
    requires forall k :: k in fates && fates[k].Exchanged? ==> k in fates' && fates'[k] == fates[k]
    ensures TokensTraced(cfg, tokens, codes', fates')
  {
    hide PresentationOk;
    forall t | t in tokens
      ensures TokenOk(cfg, codes', fates', t, tokens[t])
    {
      assert TokenOk(cfg, codes, fates, t, tokens[t]);
    }
  }

  lemma EditsWithMoreLogins(cfg: Config, edits: seq<Edit>, logins: map<string, LoginOrigin>, logins': map<string, LoginOrigin>)
    requires EditsTraced(cfg, edits, logins) && SubMap(logins, logins')
    ensures EditsTraced(cfg, edits, logins')
  {
  }

  lemma AddRequest(cfg: Config, h: History, o: RequestOrigin)
    requires Traced(cfg, h) && o.row.id !in h.requests && RequestOk(cfg, h.owners, o.row.id, o)
    ensures Traced(cfg, h.(requests := h.requests[o.row.id := o]))
  {
    hide RequestOk, ConsentsTraced, CodesTraced, TokensTraced, FatesOk, EditsTraced;
    var requests := h.requests[o.row.id := o];
    ConsentsWithMoreRequests(cfg, h.consents, h.requests, requests);
    CodesWithMoreCauses(cfg, h.codes, h.consents, h.requests, h.consents, requests);
  }

  lemma AddConsent(cfg: Config, h: History, o: ConsentOrigin)
    requires Traced(cfg, h) && o.row.id !in h.consents && ConsentOk(cfg, h.requests, o.row.id, o)
    ensures Traced(cfg, h.(consents := h.consents[o.row.id := o]))
  {
    hide ConsentOk, RequestsTraced, CodesTraced, TokensTraced, FatesOk, EditsTraced;
    CodesWithMoreCauses(cfg, h.codes, h.consents, h.requests, h.consents[o.row.id := o], h.requests);
  }

  lemma AddCode(cfg: Config, h: History, o: CodeOrigin)
    requires Traced(cfg, h) && o.row.codeHash !in h.codes && CodeOk(cfg, h.requests, h.consents, o.row.codeHash, o)
    ensures Traced(cfg, h.(codes := h.codes[o.row.codeHash := o], fates := h.fates[o.row.codeHash := Unredeemed]))
  {
    hide CodeOk, TokenOk, RequestsTraced, ConsentsTraced, EditsTraced, TokensTraced;
    var codes, fates := h.codes[o.row.codeHash := o], h.fates[o.row.codeHash := Unredeemed];
    assert o.row.codeHash !in h.fates;
    TokensWithMoreCodes(cfg, h.tokens, h.codes, codes, h.fates, fates);
  }

  lemma PresentCode(cfg: Config, h: History, pid: nat, now: int, hash: string, use: Use)
    requires (hide *; Traced(cfg, h)) && hash in h.codes && hash !in h.presented && now < h.codes[hash].row.expiresAt
    ensures Traced(cfg, h.(fates := h.fates[hash := UseFate(use, pid)], presented := h.presented[hash := now]))
  {
    hide RequestsTraced, ConsentsTraced, CodesTraced, EditsTraced, TokensTraced;
    assert h.fates[hash].Unredeemed?;
    TokensWithMoreCodes(cfg, h.tokens, h.codes, h.codes, h.fates, h.fates[hash := UseFate(use, pid)]);
  }

  lemma AddToken(cfg: Config, h: History, pid: nat, o: TokenOrigin)
    requires (hide *; Traced(cfg, h)) && o.row.tokenHash !in h.tokens
    requires o.codeHash in h.fates && h.fates[o.codeHash] == Redeeming(pid)
    requires TokenOk(cfg, h.codes, h.fates[o.codeHash := Exchanged(o.row.tokenHash)], o.row.tokenHash, o)
    ensures Traced(cfg, h.(tokens := h.tokens[o.row.tokenHash := o], fates := h.fates[o.codeHash := Exchanged(o.row.tokenHash)]))
  {
    hide RequestsTraced, ConsentsTraced, CodesTraced, EditsTraced, TokenOk;
    var fates := h.fates[o.codeHash := Exchanged(o.row.tokenHash)];
    TokensWithMoreCodes(cfg, h.tokens, h.codes, h.codes, h.fates, fates);
  }

  lemma WasteCode(cfg: Config, h: History, pid: nat, hash: string)
    requires (hide *; Traced(cfg, h)) && hash in h.fates && h.fates[hash] == Redeeming(pid)
    ensures Traced(cfg, h.(fates := h.fates[hash := Burnt]))
  {
    hide RequestsTraced, ConsentsTraced, CodesTraced, EditsTraced, TokensTraced;
    TokensWithMoreCodes(cfg, h.tokens, h.codes, h.codes, h.fates, h.fates[hash := Burnt]);
  }

  lemma AddLogin(cfg: Config, h: History, credential: string, o: LoginOrigin)
    requires Traced(cfg, h) && credential !in h.logins
    ensures Traced(cfg, h.(logins := h.logins[credential := o]))
  {
    hide RequestsTraced, ConsentsTraced, CodesTraced, TokensTraced, FatesOk, EditsTraced;
    EditsWithMoreLogins(cfg, h.edits, h.logins, h.logins[credential := o]);
  }

  lemma AddOwner(cfg: Config, h: History, handle: string, owner: Owner)
    requires Traced(cfg, h) && handle !in h.owners
    ensures Traced(cfg, h.(owners := h.owners[handle := owner]))
  {
    hide RequestsTraced, ConsentsTraced, CodesTraced, TokensTraced, FatesOk, EditsTraced;
    OwnersGrow(cfg, h.requests, h.owners, h.owners[handle := owner]);
  }

  lemma AddEdit(cfg: Config, h: History, e: Edit)
    requires Traced(cfg, h) && CredentialGood(cfg, h.logins, e.credential, e.owner, e.checkedAt) && e.checkedAt <= e.at
    ensures Traced(cfg, h.(edits := h.edits + [e]))
  {
    hide RequestsTraced, ConsentsTraced, CodesTraced, TokensTraced, FatesOk, CredentialGood;
  }

  lemma RecordKeepsTraced(cfg: Config, h: History, pid: nat, now: int, n: Note)
    requires Traced(cfg, h) && NoteOk(cfg, h, pid, now, n)
    ensures Traced(cfg, Record(h, pid, now, n))
  {
    hide RequestOk, ConsentOk, CodeOk, TokenOk, CredentialGood, UseFate;
    match n
    case Nothing =>
    case RequestStored(row, query, source) => AddRequest(cfg, h, RequestOrigin(row, query, source, now));
    case ConsentStored(row, requestId, login) => AddConsent(cfg, h, ConsentOrigin(row, requestId, login, now));
    case CodeStored(row, cause) => AddCode(cfg, h, CodeOrigin(row, cause, now));
    case CodePresented(hash, use) => PresentCode(cfg, h, pid, now, hash, use);
    case TokenStored(row, codeHash, form) => AddToken(cfg, h, pid, TokenOrigin(row, codeHash, form, now));
    case CodeWasted(hash) => WasteCode(cfg, h, pid, hash);
    case TokenRevoked(_) => hide *;
      RevokeKeepsTraced(cfg, h, pid, now, n);
    case SetupLogin(credential, owner) => AddLogin(cfg, h, credential, LoginOrigin(owner, now));
    case HandleGiven(profile) => AddOwner(cfg, h, profile.handle, profile.Holder());
    case ProfileEdited(owner, credential, checkedAt) => AddEdit(cfg, h, Edit(owner, credential, checkedAt, now));
  }

  lemma RevokeKeepsTraced(cfg: Config, h: History, pid: nat, now: int, n: Note)
    requires Traced(cfg, h) && n.TokenRevoked?
    ensures Traced(cfg, Record(h, pid, now, n))
  {
    hide RequestsTraced, ConsentsTraced, CodesTraced, TokensTraced, FatesOk, EditsTraced;
  }

  // ---- Growth: what other requests in flight rely on --------------------------------------------

  /** `g` extends `h`; only codes of request `pid`, or codes not presented, change their fate. */
  ghost predicate Grows(h: History, g: History, pid: nat) {
    && SubMap(h.requests, g.requests) && SubMap(h.consents, g.consents) && SubMap(h.codes, g.codes)
    && SubMap(h.tokens, g.tokens) && SubMap(h.logins, g.logins) && SubMap(h.owners, g.owners) && SubMap(h.presented, g.presented)
    && h.revoked <= g.revoked
    && h.edits <= g.edits
    && FatesMove(h.fates, g.fates, pid)
  }

  ghost predicate FatesMove(fates: map<string, Fate>, fates': map<string, Fate>, pid: nat) {
    && fates.Keys <= fates'.Keys
    && forall k :: k in fates ==> fates'[k] == fates[k] || fates[k].Unredeemed? || fates[k] == Redeeming(pid)
  }

  lemma RecordMovesFates(cfg: Config, h: History, pid: nat, now: int, n: Note)
    requires FatesOk(h.codes, h.fates, h.presented, h.tokens) && NoteOk(cfg, h, pid, now, n)
    ensures FatesMove(h.fates, Record(h, pid, now, n).fates, pid)
  {
    hide RequestOk, ConsentOk, CodeOk, TokenOk, CredentialGood;
    match n
    case CodePresented(hash, use) => assert h.fates[hash].Unredeemed?;
    case CodeStored(row, cause) => assert row.codeHash !in h.fates;
    case _ =>
  }

  /** What a record adds to each part of the history. */
  lemma RecordedParts(h: History, pid: nat, now: int, n: Note)
    ensures var g := Record(h, pid, now, n);
            && g.requests == (if n.RequestStored? then h.requests[n.row.id := RequestOrigin(n.row, n.query, n.source, now)] else h.requests)
            && g.consents == (if n.ConsentStored? then h.consents[n.consent.id := ConsentOrigin(n.consent, n.requestId, n.login, now)] else h.consents)
            && g.codes == (if n.CodeStored? then h.codes[n.code.codeHash := CodeOrigin(n.code, n.cause, now)] else h.codes)
            && g.tokens == (if n.TokenStored? then h.tokens[n.token.tokenHash := TokenOrigin(n.token, n.codeHash, n.form, now)] else h.tokens)
  {
    hide Record;
    RecordedRequests(h, pid, now, n);
    RecordedCodes(h, pid, now, n);
  }

  lemma RecordedRequests(h: History, pid: nat, now: int, n: Note)
    ensures var g := Record(h, pid, now, n);
            && g.requests == (if n.RequestStored? then h.requests[n.row.id := RequestOrigin(n.row, n.query, n.source, now)] else h.requests)
            && g.consents == (if n.ConsentStored? then h.consents[n.consent.id := ConsentOrigin(n.consent, n.requestId, n.login, now)] else h.consents)
  {
    hide UseFate;
    match n {
      case RequestStored(_, _, _) =>
      case ConsentStored(_, _, _) =>
      case _ =>
    }
  }

  lemma RecordedCodes(h: History, pid: nat, now: int, n: Note)
    ensures var g := Record(h, pid, now, n);
            && g.codes == (if n.CodeStored? then h.codes[n.code.codeHash := CodeOrigin(n.code, n.cause, now)] else h.codes)
            && g.tokens == (if n.TokenStored? then h.tokens[n.token.tokenHash := TokenOrigin(n.token, n.codeHash, n.form, now)] else h.tokens)
  {
    hide UseFate;
    match n {
      case CodeStored(_, _) =>
      case TokenStored(_, _, _) =>
      case _ =>
    }
  }

  lemma RecordedRest(h: History, pid: nat, now: int, n: Note)
    ensures var g := Record(h, pid, now, n);
            && g.presented == (if n.CodePresented? then h.presented[n.codeHash := now] else h.presented)
            && g.logins == (if n.SetupLogin? then h.logins[n.credential := LoginOrigin(n.owner, now)] else h.logins)
            && g.owners == (if n.HandleGiven? then h.owners[n.profile.handle := n.profile.Holder()] else h.owners)
            && h.revoked <= g.revoked && h.edits <= g.edits
  {
    hide UseFate;
    match n {
      case CodePresented(_, _) =>
      case SetupLogin(_, _) =>
      case HandleGiven(_) =>
      case TokenRevoked(_) =>
      case _ =>
    }
  }

  /** What a record adds is new. */
  lemma RecordedIsNew(cfg: Config, h: History, pid: nat, now: int, n: Note)
    requires (hide *; NoteOk(cfg, h, pid, now, n))
    ensures n.RequestStored? ==> n.row.id !in h.requests
    ensures n.ConsentStored? ==> n.consent.id !in h.consents
    ensures n.CodeStored? ==> n.code.codeHash !in h.codes
    ensures n.TokenStored? ==> n.token.tokenHash !in h.tokens
    ensures n.CodePresented? ==> n.codeHash !in h.presented
    ensures n.SetupLogin? ==> n.credential !in h.logins
    ensures n.HandleGiven? ==> n.profile.handle !in h.owners
  {
    hide RequestOk, ConsentOk, CodeOk, TokenOk, CredentialGood;
  }

  lemma AddingGrows<K, V>(m: map<K, V>, k: K, v: V)
    requires k !in m
    ensures SubMap(m, m[k := v])
  {
  }

  lemma StayingGrows<K, V>(m: map<K, V>)
    ensures SubMap(m, m)
  {
  }

  lemma RecordGrows(cfg: Config, h: History, pid: nat, now: int, n: Note)
    requires Traced(cfg, h) && NoteOk(cfg, h, pid, now, n)
    ensures Grows(h, Record(h, pid, now, n), pid)
  {
    hide RequestsTraced, ConsentsTraced, CodesTraced, TokensTraced, EditsTraced, FatesOk, FatesMove, NoteOk, Record, SubMap;
    RecordMovesFates(cfg, h, pid, now, n);
    RecordedParts(h, pid, now, n);
    RecordedRest(h, pid, now, n);
    RecordedIsNew(cfg, h, pid, now, n);
    var g := Record(h, pid, now, n);
    StayingGrows(h.requests);
    StayingGrows(h.consents);
    StayingGrows(h.codes);
    StayingGrows(h.tokens);
    StayingGrows(h.presented);
    StayingGrows(h.logins);
    StayingGrows(h.owners);
    match n
    case RequestStored(row, _, _) => AddingGrows(h.requests, row.id, g.requests[row.id]);
    case ConsentStored(row, _, _) => AddingGrows(h.consents, row.id, g.consents[row.id]);
    case CodeStored(row, _) => AddingGrows(h.codes, row.codeHash, g.codes[row.codeHash]);
    case TokenStored(row, _, _) => AddingGrows(h.tokens, row.tokenHash, g.tokens[row.tokenHash]);
    case CodePresented(hash, _) => AddingGrows(h.presented, hash, now);
    case SetupLogin(credential, _) => AddingGrows(h.logins, credential, g.logins[credential]);
    case HandleGiven(profile) => AddingGrows(h.owners, profile.handle, profile.Holder());
    case _ =>
  }

  lemma ProcOkGrows(cfg: Config, h: History, g: History, actor: nat, pid: nat, now: int, later: int, p: Proc)
    requires ProcOk(cfg, h, pid, now, p) && Grows(h, g, actor) && pid != actor && now <= later
    ensures ProcOk(cfg, g, pid, later, p)
  {
    hide SignInOk, QueryOk, PresentationOk, CandidatesOk;
    if p.Bound? {
      SignInOkGrows(cfg, h.owners, g.owners, p.query, p.signIn);
    }
    if p.Provisioning? {
      CandidatesGrow(cfg, h.owners, g.owners, p.identity, p.issuer, p.stage);
    }
  }

  lemma CandidatesGrow(cfg: Config, owners: map<string, Owner>, owners': map<string, Owner>, identity: Identity, issuer: string, stage: Stage)
    requires CandidatesOk(cfg, owners, identity, issuer, stage) && SubMap(owners, owners')
    ensures CandidatesOk(cfg, owners', identity, issuer, stage)
  {
    hide DesiredHandle, SuffixedHandle;
  }
}
