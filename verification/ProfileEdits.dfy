/** Who may customize a managed profile: always the person the provider vouched for at a setup login shortly before. */
module ProfileEdits {
  import opened Prelude
  import opened Text
  import opened Library
  import opened Config
  import opened Handles
  import opened Tables
  import opened Handlers
  import opened Runs
  import opened Invariant
  import opened Preservation
  import opened Traces
  import opened Provenance
  import opened ManagedProfiles
  import opened Atomic

  // ---- Sealed values -----------------------------------------------------------------

  /** A tester cookie never opens as a setup credential, nor the reverse, whatever either was made of. */
  lemma SealsNotConfused(cfg: Config, vault: map<string, Payload>, v: string, now: int, owner: Owner, at: int, target: Target, state: string, verifier: string)
    requires v in vault
    ensures vault[v] == TesterPayload(cfg, target, state, verifier, at) ==> OpenSetup(vault, v, now) == None
    ensures vault[v] == SetupPayload(cfg, owner, at) ==> OpenTester(vault, v, now) == None
  {
  }

  /** In every state of every run, no value opens both ways. */
  lemma NothingOpensTwice(cfg: Config, states: seq<Sys>, events: seq<Event>, i: nat, v: string, now: int)
    requires (hide *; IsRun(cfg, states, events)) && i < |states|
    ensures OpenSetup(states[i].shared.vault, v, now).None? || OpenTester(states[i].shared.vault, v, now).None?
  {
    hide Initial, Enabled, Step, RequestsKept, ConsentsKept, CodesKept, TokensKept, CustomKept, ProfilesKept, Traced, SecretsDrawn, ProcsOk,
      LoginsPast;
    RunKeepsInv(cfg, states, events, i);
    var vault, logins := states[i].shared.vault, states[i].hist.logins;
    if v in logins && v in vault {
      SealsNotConfused(cfg, vault, v, now, logins[v].owner, logins[v].at, Target("", "", "", "", false), "", "");
    }
  }

  // ---- Edits ----------------------------------------------------------------------------

  /**
   The steps behind an edit: the setup login `loggedIn`, which sealed `credential` for the identity
   the provider vouched for, the edit request's first step `checked`, which opened it, and its
   step `written`.
   */
  datatype EditTrail = EditTrail(loggedIn: nat, loginBy: nat, loginDraw: Choice, callback: CallbackQuery, row: AuthRequest, login: IdToken,
                                 editor: nat, checked: nat, written: nat, form: ProfileForm)

  ghost predicate EditTrailOk(cfg: Config, states: seq<Sys>, events: seq<Event>, t: EditTrail) {
    hide *;
    && t.loggedIn < t.checked < t.written < |states|
    && StepOf(cfg, states, events, t.loggedIn, t.loginBy, t.loginDraw, Found(t.callback, t.row))
    && t.row.backendState.setup && t.loginDraw.login == Some(t.login) && t.login.nonce == t.row.backendState.nonce
    && t.form.credential == t.loginDraw.a
    && Began(cfg, states, events, t.checked, t.editor, EditProfile(t.form))
    && (exists ch, p :: StepOf(cfg, states, events, t.written, t.editor, ch, p) && p.Editing?)
    && states[t.loggedIn].now <= states[t.checked].now < states[t.loggedIn].now + cfg.requestTtl + SECOND
  }

  /** Whose login it was. */
  function EditorOf(cfg: Config, t: EditTrail): Owner {
    Owner(cfg.IssuerOf(t.row.backend), t.login.identity.subject)
  }

  lemma EditShape(cfg: Config, s: Shared, p: Proc, now: int, ch: Choice)
    requires (hide *; Advance(cfg, s, p, now, ch).note.ProfileEdited?)
    ensures p.Editing? && Advance(cfg, s, p, now, ch).note == ProfileEdited(p.profile.Holder(), p.credential, p.checkedAt)
  {
    hide CheckAuthorize, ResolveProfile, RequestedMe, LoginAllowed, PresentationOk, EditOk, OpenSetup, ConsumeAuthorizationCode, CompleteAuth,
      NewProfile, ClaimedName, CreateManagedProfile, UpdateManagedProfile;
  }

  lemma EditingShape(cfg: Config, s: Shared, p: Proc, now: int, ch: Choice)
    requires (hide *; var n := Advance(cfg, s, p, now, ch).next; n.Some? && n.value.Editing?)
    ensures var q := Advance(cfg, s, p, now, ch).next.value;
            && p.Arrived? && p.request.EditProfile? && p.request.edit.credential == q.credential && q.checkedAt == now
            && OpenSetup(s.vault, q.credential, now) == Some(q.profile.Holder())
  {
    hide CheckAuthorize, ResolveProfile, RequestedMe, LoginAllowed, PresentationOk, EditOk, OpenSetup, ConsumeAuthorizationCode, CompleteAuth,
      NewProfile, ClaimedName, CreateManagedProfile, WebsiteOf;
  }

  lemma SetupLoginShape(cfg: Config, s: Shared, p: Proc, now: int, ch: Choice)
    requires (hide *; Advance(cfg, s, p, now, ch).note.SetupLogin?)
    ensures p.Found? && p.row.backendState.setup && CompleteAuth(p.callback, p.row.backendState, ch.login).Some?
    ensures var login := CompleteAuth(p.callback, p.row.backendState, ch.login).value;
            Advance(cfg, s, p, now, ch).note == SetupLogin(ch.a, Owner(cfg.IssuerOf(p.row.backend), login.identity.subject))
  {
    hide CheckAuthorize, ResolveProfile, RequestedMe, LoginAllowed, PresentationOk, EditOk, OpenSetup, ConsumeAuthorizationCode, CompleteAuth,
      NewProfile, ClaimedName, CreateManagedProfile;
  }

  /** Every edit in the history was made by a step. */
  lemma {:induction false} EditSource(cfg: Config, states: seq<Sys>, events: seq<Event>, j: nat, n: nat)
    returns (i: nat, pid: nat, ch: Choice, p: Proc)
    requires (hide *; IsRun(cfg, states, events)) && j < |states| && n < |states[j].hist.edits|
    ensures i < j && StepOf(cfg, states, events, i, pid, ch, p) && p.Editing?
    ensures states[j].hist.edits[n].owner == p.profile.Holder()
  {
    hide Initial, Enabled, Step, Fresh;
    if j > 0 {
      if n < |states[j - 1].hist.edits| {
        i, pid, ch, p := EditSource(cfg, states, events, j - 1, n);
        RunGrows(cfg, states, events, j - 1, j);
      } else {
        i, pid, ch, p := NewEdit(cfg, states, events, j - 1, n);
      }
    } else {
      NoEditYet(cfg, states, events);
    }
  }

  lemma NoEditYet(cfg: Config, states: seq<Sys>, events: seq<Event>)
    requires (hide Step, Advance; IsRun(cfg, states, events))
    ensures states[0].hist.edits == []
  {
    hide Enabled, Step;
  }

  /** The step that added the edit. */
  lemma NewEdit(cfg: Config, states: seq<Sys>, events: seq<Event>, i: nat, n: nat) returns (j: nat, pid: nat, ch: Choice, p: Proc)
    requires (hide Step, Advance; IsRun(cfg, states, events)) && i < |events| && |states[i].hist.edits| <= n < |states[i + 1].hist.edits|
    ensures j == i && StepOf(cfg, states, events, i, pid, ch, p) && p.Editing?
    ensures states[i + 1].hist.edits[n].owner == p.profile.Holder()
  {
    hide Advance, Fresh, Initial, Enabled, ChoiceOk, Record, Inv;
    OneStep(cfg, states, events, i);
    assert events[i].Resume?;
    ResumeStep(cfg, states, events, i);
    j, pid, ch := i, events[i].pid, events[i].choice;
    p := states[i].procs[pid];
    EditAdded(states[i].hist, pid, states[i].now, OutcomeAt(cfg, states, i, p, ch).note);
    EditShape(cfg, states[i].shared, p, states[i].now, ch);
  }

  lemma EditAdded(h: History, pid: nat, now: int, n: Note)
    requires Record(h, pid, now, n).edits != h.edits
    ensures n.ProfileEdited? && Record(h, pid, now, n).edits == h.edits + [Edit(n.owner, n.credential, n.checkedAt, now)]
  {
  }

  /** A request about to write an edit was admitted on the strength of a recent setup login of that very holder. */
  lemma EditAuthorized(cfg: Config, states: seq<Sys>, events: seq<Event>, j: nat, pid: nat, ch: Choice, p: Proc) returns (t: EditTrail)
    requires (hide *; IsRun(cfg, states, events)) && StepOf(cfg, states, events, j, pid, ch, p) && p.Editing?
    ensures EditTrailOk(cfg, states, events, t) && t.written == j && t.editor == pid && EditorOf(cfg, t) == p.profile.Holder()
  {
    hide Advance, Initial, Enabled, Step, Fresh, Inv, OpenSetup, CredentialGood;
    var i, ch', q := ProcSource(cfg, states, events, j, pid);
    EditingShape(cfg, states[i].shared, q, states[i].now, ch');
    StepInv(cfg, states, events, i, pid, ch', q);
    CredentialKnown(cfg, states[i], p.credential);
    var o := states[i].hist.logins[p.credential];
    var k, pid'', ch'', f := NoteSource(cfg, states, events, i, SetupLogin(p.credential, o.owner), o.at);
    SetupLoginShape(cfg, states[k].shared, f, states[k].now, ch'');
    t := EditTrail(k, pid'', ch'', f.callback, f.row, CompleteAuth(f.callback, f.row.backendState, ch''.login).value, pid, i, j, q.request.edit);
  }

  lemma CredentialKnown(cfg: Config, s: Sys, value: string)
    requires (hide *; Inv(cfg, s)) && OpenSetup(s.shared.vault, value, s.now).Some?
    ensures value in s.hist.logins
    ensures var o := s.hist.logins[value];
            o.owner == OpenSetup(s.shared.vault, value, s.now).value && o.at <= s.now < o.at + cfg.requestTtl + SECOND
  {
    hide RequestsKept, ConsentsKept, CodesKept, TokensKept, CustomKept, ProfilesKept, Traced, SecretsDrawn, ProcsOk, LoginsPast, OpenSetup, VaultKept;
    OpenedCredential(cfg, s, value);
  }

  /** Every customized profile, in every state of every run, was customized by its own holder in this way. */
  lemma CustomizedByHolder(cfg: Config, states: seq<Sys>, events: seq<Event>, j: nat, h: string) returns (t: EditTrail)
    requires (hide *; IsRun(cfg, states, events)) && j < |states|
    requires h in states[j].shared.db.profiles && states[j].shared.db.profiles[h].customized
    ensures EditTrailOk(cfg, states, events, t) && t.written < j
    ensures EditorOf(cfg, t) == states[j].shared.db.profiles[h].Holder()
  {
    hide Initial, Enabled, Step, Inv, EditTrailOk, StepOf;
    RunKeepsInv(cfg, states, events, j);
    var n := EditOf(cfg, states[j], h);
    var i, pid, ch, p := EditSource(cfg, states, events, j, n);
    t := EditAuthorized(cfg, states, events, i, pid, ch, p);
  }

  lemma EditOf(cfg: Config, s: Sys, h: string) returns (n: nat)
    requires (hide *; Inv(cfg, s)) && h in s.shared.db.profiles && s.shared.db.profiles[h].customized
    ensures n < |s.hist.edits| && s.hist.edits[n].owner == s.shared.db.profiles[h].Holder()
  {
    hide RequestsKept, ConsentsKept, CodesKept, TokensKept, ProfilesKept, VaultKept, Traced, SecretsDrawn, ProcsOk, LoginsPast;
    n :| 0 <= n < |s.hist.edits| && s.hist.edits[n].owner == s.shared.db.profiles[h].Holder();
  }

  // ---- The setup page ------------------------------------------------------------------------

  lemma SetupPageFrom(cfg: Config, s: Shared, p: Proc, now: int, ch: Choice)
    requires (hide *; var r := Advance(cfg, s, p, now, ch).reply; r.Some? && r.value.SetupPage?)
    ensures p.Found? || p.Provisioning?
  {
    hide CheckAuthorize, ResolveProfile, RequestedMe, PresentationOk, EditOk, OpenSetup, GetConsentRequest, ConsumeAuthorizationCode, OnFound,
      OnProvisioning, UpdateManagedProfile;
  }

  lemma PageAtLogin(cfg: Config, s: Shared, q: CallbackQuery, row: AuthRequest, now: int, ch: Choice)
    requires (hide *; var r := OnFound(cfg, s, q, row, now, ch).reply; r.Some? && r.value.SetupPage?)
    ensures var o := OnFound(cfg, s, q, row, now, ch);
            && o.note == SetupLogin(o.reply.value.credential, Owner(o.reply.value.issuer, o.reply.value.subject))
            && o.reply.value.managed == None
  {
    hide LoginAllowed, CompleteAuth, SetupPayload, HashToken;
  }

  lemma PageAfterProvisioning(cfg: Config, s: Shared, p: Proc, now: int)
    requires (hide *; p.Provisioning?) && StageOk(Owner(p.issuer, p.identity.subject), p.stage)
    requires var r := OnProvisioning(cfg, s, p, now).reply; r.Some? && r.value.SetupPage?
    ensures var r := OnProvisioning(cfg, s, p, now).reply.value;
            && r.issuer == p.issuer && r.subject == p.identity.subject && r.credential == p.credential
            && r.managed.Some? && r.managed.value.Holder() == Owner(p.issuer, p.identity.subject)
  {
    hide NewProfile, ClaimedName, CreateManagedProfile, UpdateManagedProfile, SuffixedHandle, GoodHandle, Reserved;
  }

  lemma SetupPageShape(cfg: Config, s: Shared, p: Proc, now: int, ch: Choice)
    requires (hide *; var r := Advance(cfg, s, p, now, ch).reply; r.Some? && r.value.SetupPage?)
    requires p.Provisioning? ==> StageOk(Owner(p.issuer, p.identity.subject), p.stage)
    ensures var o := Advance(cfg, s, p, now, ch);
            if p.Provisioning? then
              && o.reply.value.issuer == p.issuer && o.reply.value.subject == p.identity.subject && o.reply.value.credential == p.credential
              && o.reply.value.managed.Some? && o.reply.value.managed.value.Holder() == Owner(p.issuer, p.identity.subject)
            else
              && o.note == SetupLogin(o.reply.value.credential, Owner(o.reply.value.issuer, o.reply.value.subject))
              && o.reply.value.managed == None
  {
    hide OnFound, OnProvisioning, StageOk;
    SetupPageFrom(cfg, s, p, now, ch);
    if p.Provisioning? {
      PageAfterProvisioning(cfg, s, p, now);
    } else {
      PageAtLogin(cfg, s, p.callback, p.row, now, ch);
    }
  }

  /**
   The credential on a setup page is that of the very identity the page names: while it lives it opens
   as that issuer and subject, and the managed profile shown beside it is theirs.
   */
  lemma SetupPageOwn(cfg: Config, states: seq<Sys>, events: seq<Event>, j: nat, later: nat)
    requires (hide *; IsRun(cfg, states, events)) && j < |events| && j < later < |states| && Enabled(cfg, states[j], events[j])
    requires var r := ReplyOf(cfg, states[j], events[j]); r.Some? && r.value.SetupPage?
    ensures var r := ReplyOf(cfg, states[j], events[j]).value;
            var holder := OpenSetup(states[later].shared.vault, r.credential, states[later].now);
            && (holder.Some? ==> holder.value == Owner(r.issuer, r.subject))
            && (r.managed.Some? ==> r.managed.value.Holder() == Owner(r.issuer, r.subject))
  {
    hide Advance, Initial, Step, Fresh, Inv, OpenSetup, StageOk, ChoiceOk;
    ResumeStep(cfg, states, events, j);
    var pid, ch := events[j].pid, events[j].choice;
    var p := states[j].procs[pid];
    StepInv(cfg, states, events, j, pid, ch, p);
    SetupPageShape(cfg, states[j].shared, p, states[j].now, ch);
    RunGrows(cfg, states, events, j, j + 1);
    RunGrows(cfg, states, events, j + 1, later);
    RunKeepsInv(cfg, states, events, later);
    var r := ReplyOf(cfg, states[j], events[j]).value;
    LoginRecorded(states[j].hist, pid, states[j].now, r.credential, Owner(r.issuer, r.subject));
    if OpenSetup(states[later].shared.vault, r.credential, states[later].now).Some? {
      CredentialKnown(cfg, states[later], r.credential);
    }
  }

  lemma LoginRecorded(h: History, pid: nat, now: int, credential: string, owner: Owner)
    ensures var g := Record(h, pid, now, SetupLogin(credential, owner)); credential in g.logins && g.logins[credential].owner == owner
  {
  }

  // ---- What an edit does ----------------------------------------------------------------------

  /** An edit of a live credential's profile with an acceptable form rewrites that profile and nothing else; any other edit is refused. */
  lemma EditTakesEffect(cfg: Config, s: Shared, owners: map<string, Owner>, form: ProfileForm, now: int, c0: Choice, c1: Choice)
    requires (hide Step, Advance; ProfilesKept(s.db.profiles, owners))
    ensures var (t, reply) := Drive(cfg, s, Arrived(EditProfile(form)), now, [c0, c1]);
            var owner := OpenSetup(s.vault, form.credential, now);
            if cfg.managedEnabled && owner.Some? && OwnerTaken(s.db, owner.value) && EditOk(cfg, form) then
              var row := GetManagedProfileByIdentity(s.db, owner.value).value;
              && row.handle in s.db.profiles && s.db.profiles[row.handle] == row && row.Holder() == owner.value
              && reply == Some(ToProfile(ManagedProfileUrl(cfg, row.handle)))
              && t == s.(db := s.db.(audit := t.db.audit, profiles := t.db.profiles))
              && t.db.profiles == s.db.profiles[row.handle := row.(
                   displayName := TrimSpace(form.displayName), bio := TrimSpace(form.bio), websiteUrl := WebsiteOf(cfg, form.websiteUrl).value,
                   accent := TrimSpace(form.accent), customized := true, updatedAt := Whole(now))]
            else t == s && reply.Some? && reply.value.HttpError?
  {
    hide Advance, Drive, OpenSetup, EditOk, TrimSpace, WebsiteOf, GoodHandle, Reserved, ManagedProfileUrl, Edited, UpdateManagedProfile;
    DriveArrived(cfg, s, EditProfile(form), now, [c0, c1]);
    assert [c0, c1][1..] == [c1];
    var owner := OpenSetup(s.vault, form.credential, now);
    if cfg.managedEnabled && owner.Some? && OwnerTaken(s.db, owner.value) && EditOk(cfg, form) {
      var row := GetManagedProfileByIdentity(s.db, owner.value).value;
      var edited := Edited(cfg, row, form);
      KnownRow(s.db, owners, row);
      DriveEditing(cfg, s, edited, form.credential, now, now, c1);
      EditedRow(cfg, row, form);
      OneRowRewritten(s.db, owners, row, edited.(updatedAt := now));
    }
  }

  lemma EditedRow(cfg: Config, row: ManagedProfile, form: ProfileForm)
    requires EditOk(cfg, form)
    ensures Edited(cfg, row, form) == row.(displayName := TrimSpace(form.displayName), bio := TrimSpace(form.bio),
              websiteUrl := WebsiteOf(cfg, form.websiteUrl).value, accent := TrimSpace(form.accent), customized := true)
  {
    hide TrimSpace, WebsiteOf;
  }

  lemma OneRowRewritten(db: Db, owners: map<string, Owner>, row: ManagedProfile, p: ManagedProfile)
    requires ProfilesKept(db.profiles, owners) && row.handle in db.profiles && db.profiles[row.handle] == row && p.Holder() == row.Holder()
    ensures UpdateManagedProfile(db, p) == (db.(profiles := db.profiles[row.handle := Presented(row, p)]), true)
  {
    hide GoodHandle, Reserved;
    forall h | h in db.profiles && db.profiles[h].Holder() == p.Holder()
      ensures h == row.handle
    {
      assert owners[h] == owners[row.handle];
    }
    assert UpdateManagedProfile(db, p).0.profiles == db.profiles[row.handle := Presented(row, p)];
  }
}
