/** Managed profiles over whole runs: who holds a handle, which URL finds it, and who may change its page. */
module ManagedProfiles {
  import opened Prelude
  import opened Text
  import opened Library
  import opened Config
  import opened Handles
  import opened Tables
  import opened Handlers
  import opened Runs
  import opened Invariant
  import opened Preservation
  import opened Traces
  import opened Provenance

  // ---- Handles -----------------------------------------------------------------------

  lemma StoredProfiles(cfg: Config, states: seq<Sys>, events: seq<Event>, i: nat)
    requires (hide *; IsRun(cfg, states, events)) && i < |states|
    ensures ProfilesKept(states[i].shared.db.profiles, states[i].hist.owners)
  {
    hide Initial, Enabled, Step, ProfilesKept, RequestsKept, ConsentsKept, CodesKept, TokensKept, CustomKept, VaultKept, Traced, SecretsDrawn,
      ProcsOk;
    RunKeepsInv(cfg, states, events, i);
  }

  /** A handle once given stays with its holder, and nobody ever holds two. */
  lemma HandleForever(cfg: Config, states: seq<Sys>, events: seq<Event>, i: nat, j: nat, g: string, h: string)
    requires (hide *; IsRun(cfg, states, events)) && i <= j < |states|
    requires g in states[i].shared.db.profiles && h in states[j].shared.db.profiles
    ensures g in states[j].shared.db.profiles
    ensures states[j].shared.db.profiles[g].Holder() == states[i].shared.db.profiles[g].Holder()
    ensures states[j].shared.db.profiles[h].Holder() == states[i].shared.db.profiles[g].Holder() ==> g == h
  {
    hide Initial, Enabled, Step, GoodHandle, Reserved;
    StoredProfiles(cfg, states, events, i);
    StoredProfiles(cfg, states, events, j);
    RunGrows(cfg, states, events, i, j);
  }

  /** Every stored handle is a non-reserved fixed point of the normalizer, whichever form it was given in. */
  lemma StoredHandle(cfg: Config, states: seq<Sys>, events: seq<Event>, i: nat, h: string)
    requires (hide *; IsRun(cfg, states, events)) && i < |states| && h in states[i].shared.db.profiles && LowerLaw(cfg.lib)
    ensures states[i].shared.db.profiles[h].handle == h
    ensures Normalize(cfg.lib, h) == h && GoodHandle(h) && !Reserved(h)
  {
    hide Initial, Enabled, Step, GoodHandle, Reserved, Normalize, LowerLaw;
    StoredProfiles(cfg, states, events, i);
    NormalizeFixesGood(cfg.lib, h);
  }

  // ---- Providing a profile -------------------------------------------------------------

  datatype EnsureError = NoSubject | HandlesTaken

  /** The whole of providing a profile for an identity, run without interruption at one instant. */
  ghost function Ensure(cfg: Config, db: Db, identity: Identity, issuer: string, now: int): (Db, Result<ManagedProfile, EnsureError>) {
    var owner := Owner(issuer, identity.subject);
    if TrimSpace(identity.subject) == "" then (db, Err(NoSubject))
    else
      match GetManagedProfileByIdentity(db, owner)
      case Some(row) =>
        var name := ClaimedName(identity, row.handle);
        var shown := row.(accent := if row.accent == "" then "teal" else row.accent);
        if !row.customized && name != row.displayName then
          var renamed := shown.(displayName := name, updatedAt := now);
          (UpdateManagedProfile(db, renamed).0, Ok(renamed))
        else (db, Ok(shown))
      case None =>
        var first := NewProfile(cfg, identity, issuer, now);
        var second := first.(handle := SuffixedHandle(first.handle, cfg.lib.tag(issuer, identity.subject)));
        if CreateManagedProfile(db, first).1 then (CreateManagedProfile(db, first).0, Ok(first))
        else if CreateManagedProfile(db, second).1 then (CreateManagedProfile(db, second).0, Ok(second))
        else (db, Err(HandlesTaken))
  }

  /** Someone other than `owner` holds the handle. */
  predicate HeldByOther(db: Db, handle: string, owner: Owner) {
    handle in db.profiles && db.profiles[handle].Holder() != owner
  }

  /** It fails for want of a handle exactly when the identity has no profile and others hold both candidates. */
  lemma EnsureConflict(cfg: Config, db: Db, owners: map<string, Owner>, identity: Identity, issuer: string, now: int)
    requires ProfilesKept(db.profiles, owners) && TrimSpace(identity.subject) != ""
    ensures var owner, first := Owner(issuer, identity.subject), DesiredHandle(cfg.lib, identity, issuer);
            Ensure(cfg, db, identity, issuer, now).1 == Err(HandlesTaken)
            <==> !OwnerTaken(db, owner) && HeldByOther(db, first, owner)
                 && HeldByOther(db, SuffixedHandle(first, cfg.lib.tag(issuer, identity.subject)), owner)
  {
    hide TrimSpace, DesiredHandle, SuffixedHandle, GoodHandle, Reserved, UpdateManagedProfile;
    DesiredHandleGood(cfg.lib, identity, issuer);
    var first := DesiredHandle(cfg.lib, identity, issuer);
    SuffixedHandleGood(first, cfg.lib.tag(issuer, identity.subject));
    GoodHandleIsLower(first);
    GoodHandleIsLower(SuffixedHandle(first, cfg.lib.tag(issuer, identity.subject)));
  }

  /**
   A step of any run, whatever is in flight: providing a profile fails exactly when the subject is
   blank, or at the suffixed handle when another identity holds that too or this one has taken a
   profile meanwhile. By then another identity holds the first candidate for good.
   */
  lemma ConflictStep(cfg: Config, states: seq<Sys>, events: seq<Event>, i: nat, pid: nat, ch: Choice, p: Proc)
    requires (hide Step, Advance; IsRun(cfg, states, events)) && StepOf(cfg, states, events, i, pid, ch, p) && p.Provisioning?
    ensures var db, owner, first := states[i].shared.db, Owner(p.issuer, p.identity.subject), DesiredHandle(cfg.lib, p.identity, p.issuer);
            && (OutcomeAt(cfg, states, i, p, ch).reply == Some(HttpError(500))
                <==> (p.stage.Looking? && TrimSpace(p.identity.subject) == "")
                     || (p.stage.Suffixing?
                         && (OwnerTaken(db, owner) || HeldByOther(db, SuffixedHandle(first, cfg.lib.tag(p.issuer, p.identity.subject)), owner))))
            && (p.stage.Suffixing? ==> HeldByOther(db, first, owner))
  {
    hide Advance, Fresh, Initial, Enabled, Step, Inv, ProfilesKept, OnProvisioning, TrimSpace, DesiredHandle, SuffixedHandle, GoodHandle, Reserved,
      StageOk, CandidatesOk, CredentialGood;
    StepInv(cfg, states, events, i, pid, ch, p);
    StoredProfiles(cfg, states, events, i);
    AdvanceProvisions(cfg, states[i].shared, p, states[i].now, ch);
    ConflictOf(cfg, states[i].shared, states[i].hist.owners, p, states[i].now);
  }

  lemma AdvanceProvisions(cfg: Config, s: Shared, p: Proc, now: int, ch: Choice)
    requires (hide *; p.Provisioning?)
    ensures Advance(cfg, s, p, now, ch) == OnProvisioning(cfg, s, p, now)
  {
    hide OnProvisioning;
  }

  lemma ConflictOf(cfg: Config, s: Shared, owners: map<string, Owner>, p: Proc, now: int)
    requires (hide *; ProfilesKept(s.db.profiles, owners)) && p.Provisioning? && StageOk(Owner(p.issuer, p.identity.subject), p.stage)
    requires CandidatesOk(cfg, owners, p.identity, p.issuer, p.stage)
    ensures var owner, first := Owner(p.issuer, p.identity.subject), DesiredHandle(cfg.lib, p.identity, p.issuer);
            && (OnProvisioning(cfg, s, p, now).reply == Some(HttpError(500))
                <==> (p.stage.Looking? && TrimSpace(p.identity.subject) == "")
                     || (p.stage.Suffixing?
                         && (OwnerTaken(s.db, owner) || HeldByOther(s.db, SuffixedHandle(first, cfg.lib.tag(p.issuer, p.identity.subject)), owner))))
            && (p.stage.Suffixing? ==> HeldByOther(s.db, first, owner))
  {
    hide TrimSpace, DesiredHandle, SuffixedHandle, GoodHandle, Reserved, ProfilesKept, HasHandle, NewProfile, ClaimedName, CreateManagedProfile,
      Rewritten;
    var owner := Owner(p.issuer, p.identity.subject);
    HeldHasHandle(s.db, owners, owner);
    match p.stage
    case Creating(row) =>
    case Suffixing(row) => SuffixFails(s.db, owners, row, DesiredHandle(cfg.lib, p.identity, p.issuer));
    case _ =>
  }

  lemma SuffixFails(db: Db, owners: map<string, Owner>, row: ManagedProfile, first: string)
    requires ProfilesKept(db.profiles, owners) && GoodHandle(row.handle) && first in owners && owners[first] != row.Holder()
    ensures !CreateManagedProfile(db, row).1 <==> OwnerTaken(db, row.Holder()) || HeldByOther(db, row.handle, row.Holder())
    ensures HeldByOther(db, first, row.Holder())
  {
    hide GoodHandle, Reserved;
    GoodHandleIsLower(row.handle);
  }

  ghost predicate OthersUntouched(rows: map<string, ManagedProfile>, rows': map<string, ManagedProfile>, owner: Owner) {
    && (forall h :: h in rows && rows[h].Holder() != owner ==> h in rows' && rows'[h] == rows[h])
    && (forall h :: h in rows' && rows'[h].Holder() != owner ==> h in rows && rows'[h] == rows[h])
  }

  /** On success the identity holds exactly one profile, the one returned, and nobody else's changed. */
  lemma EnsureProvides(cfg: Config, db: Db, owners: map<string, Owner>, identity: Identity, issuer: string, now: int)
    requires ProfilesKept(db.profiles, owners) && Ensure(cfg, db, identity, issuer, now).1.Ok?
    ensures var (db', r) := Ensure(cfg, db, identity, issuer, now);
            var owner := Owner(issuer, identity.subject);
            && r.value.Holder() == owner && r.value.handle in db'.profiles && db'.profiles[r.value.handle].Holder() == owner
            && ProfilesKept(db'.profiles, owners[r.value.handle := owner])
            && OthersUntouched(db.profiles, db'.profiles, owner)
  {
    hide TrimSpace, DesiredHandle, SuffixedHandle, GoodHandle, Reserved, ProfilesKept, CreateManagedProfile, UpdateManagedProfile, OthersUntouched,
      ClaimedName;
    var owner, first := Owner(issuer, identity.subject), NewProfile(cfg, identity, issuer, now);
    match GetManagedProfileByIdentity(db, owner)
    case Some(row) => KnownRow(db, owners, row);
      var name := ClaimedName(identity, row.handle);
      EnsureRenames(db, owners, row, row.(accent := if row.accent == "" then "teal" else row.accent, displayName := name, updatedAt := now));
    case None =>
      var second := first.(handle := SuffixedHandle(first.handle, cfg.lib.tag(issuer, identity.subject)));
      DesiredHandleGood(cfg.lib, identity, issuer);
      SuffixedHandleGood(first.handle, cfg.lib.tag(issuer, identity.subject));
      if CreateManagedProfile(db, first).1 {
        EnsureCreates(db, owners, first);
      } else if CreateManagedProfile(db, second).1 {
        EnsureCreates(db, owners, second);
      }
  }

  lemma KnownRow(db: Db, owners: map<string, Owner>, row: ManagedProfile)
    requires ProfilesKept(db.profiles, owners) && row in db.profiles.Values
    ensures row.handle in db.profiles && db.profiles[row.handle] == row && row.handle in owners && owners == owners[row.handle := row.Holder()]
    ensures OthersUntouched(db.profiles, db.profiles, row.Holder())
  {
    hide GoodHandle, Reserved;
  }

  lemma EnsureRenames(db: Db, owners: map<string, Owner>, row: ManagedProfile, p: ManagedProfile)
    requires ProfilesKept(db.profiles, owners) && row in db.profiles.Values && p.handle == row.handle && p.Holder() == row.Holder()
    ensures var db' := UpdateManagedProfile(db, p).0;
            && p.handle in db'.profiles && db'.profiles[p.handle].Holder() == p.Holder()
            && ProfilesKept(db'.profiles, owners) && OthersUntouched(db.profiles, db'.profiles, p.Holder())
  {
    hide GoodHandle, Reserved;
    KnownRow(db, owners, row);
    UpdateKeepsProfiles(db, owners, p);
  }

  lemma EnsureCreates(db: Db, owners: map<string, Owner>, p: ManagedProfile)
    requires ProfilesKept(db.profiles, owners) && GoodHandle(p.handle) && !Reserved(p.handle) && CreateManagedProfile(db, p).1
    ensures var db' := CreateManagedProfile(db, p).0;
            && p.handle in db'.profiles && db'.profiles[p.handle].Holder() == p.Holder()
            && ProfilesKept(db'.profiles, owners[p.handle := p.Holder()]) && OthersUntouched(db.profiles, db'.profiles, p.Holder())
  {
    hide GoodHandle, Reserved, ProfilesKept;
    HandleJoins(db, owners, p);
    GoodHandleIsLower(p.handle);
  }

  /** A profile its holder customized comes back from a later login as it is, unless an old row lacked an accent to show. */
  lemma EnsureLeavesCustomized(cfg: Config, db: Db, owners: map<string, Owner>, identity: Identity, issuer: string, now: int, h: string)
    requires ProfilesKept(db.profiles, owners) && h in db.profiles && db.profiles[h].customized
    ensures var (db', r) := Ensure(cfg, db, identity, issuer, now);
            && h in db'.profiles && db'.profiles[h] == db.profiles[h]
            && (db.profiles[h].Holder() == Owner(issuer, identity.subject) && TrimSpace(identity.subject) != "" ==>
                  r == Ok(db.profiles[h].(accent := if db.profiles[h].accent == "" then "teal" else db.profiles[h].accent)))
  {
    hide TrimSpace, DesiredHandle, SuffixedHandle, ClaimedName, ProfilesKept, CreateManagedProfile, UpdateManagedProfile;
    var owner := Owner(issuer, identity.subject);
    if db.profiles[h].Holder() == owner {
      KeptIsKeyed(db.profiles, owners);
      FoundByOwner(db, h);
    } else if Ensure(cfg, db, identity, issuer, now).1.Ok? {
      hide Ensure;
      EnsureProvides(cfg, db, owners, identity, issuer, now);
    }
  }

  /** The name on the page is the one claimed at the login, or the handle, unless the holder has customized it. */
  lemma EnsureNames(cfg: Config, db: Db, identity: Identity, issuer: string, now: int)
    requires Ensure(cfg, db, identity, issuer, now).1.Ok?
    ensures var held, shown := GetManagedProfileByIdentity(db, Owner(issuer, identity.subject)), Ensure(cfg, db, identity, issuer, now).1.value;
            var handle := if held.Some? then held.value.handle else DesiredHandle(cfg.lib, identity, issuer);
            && shown.displayName == (if held.Some? && held.value.customized then held.value.displayName
                                     else if TrimSpace(identity.name) != "" then TrimSpace(identity.name) else "@" + handle)
            && shown.accent == (if held.Some? && held.value.accent != "" then held.value.accent else "teal")
            && shown.customized == (held.Some? && held.value.customized)
  {
    hide TrimSpace, DesiredHandle, SuffixedHandle, CreateManagedProfile, UpdateManagedProfile, GetManagedProfileByIdentity;
  }

  lemma KeptIsKeyed(rows: map<string, ManagedProfile>, owners: map<string, Owner>)
    requires ProfilesKept(rows, owners)
    ensures ProfilesKeyed(rows)
  {
    hide GoodHandle, Reserved;
    forall h | h in rows
      ensures Lower(rows[h].handle) == h
    {
      assert GoodHandle(h);
      GoodHandleIsLower(h);
    }
  }

  // ---- The atomic form and the steps ---------------------------------------------------------

  /** At most `k` more steps of a request that nothing interrupts, starting at `p`. */
  ghost function Steps(cfg: Config, s: Shared, p: Proc, now: int, k: nat): Outcome
    requires (hide *; p.Provisioning?)
    decreases k
  {
    var o := OnProvisioning(cfg, s, p, now);
    if k == 0 || o.next.None? || !o.next.value.Provisioning? then o else Steps(cfg, o.shared, o.next.value, now, k - 1)
  }

  lemma NextStep(cfg: Config, s: Shared, p: Proc, now: int, k: nat)
    requires (hide *; p.Provisioning?) && k > 0
    ensures var o := OnProvisioning(cfg, s, p, now);
            Steps(cfg, s, p, now, k) == if o.next.Some? && o.next.value.Provisioning? then Steps(cfg, o.shared, o.next.value, now, k - 1) else o
  {
    hide OnProvisioning;
  }

  /** Run without interruption, the provisioning steps do what `Ensure` says. */
  lemma StepsEnsure(cfg: Config, s: Shared, p: Proc, now: int)
    requires (hide *; p.Provisioning?) && p.stage == Looking
    ensures var o := Steps(cfg, s, p, now, 4);
            var (db, r) := Ensure(cfg, s.db, p.identity, p.issuer, now);
            && o.shared == s.(db := db) && o.next == Some(Dropping(p.requestId))
            && o.reply == Some(if r.Ok? then SetupPage(p.issuer, p.identity.subject, p.credential, Some(r.value)) else HttpError(500))
  {
    hide TrimSpace, NewProfile, SuffixedHandle, ClaimedName, CreateManagedProfile, Steps;
    NextStep(cfg, s, p, now, 4);
    var o := OnProvisioning(cfg, s, p, now);
    if o.next.value.Provisioning? {
      NextStep(cfg, s, o.next.value, now, 3);
      if o.next.value.stage.Creating? {
        if !CreateManagedProfile(s.db, o.next.value.stage.row).1 {
          NoProfileYet(cfg, s, o.next.value, now);
        }
      }
    }
  }

  lemma NoProfileYet(cfg: Config, s: Shared, p: Proc, now: int)
    requires (hide *; p.Provisioning?) && p.stage.Creating? && !OwnerTaken(s.db, Owner(p.issuer, p.identity.subject))
    requires !CreateManagedProfile(s.db, p.stage.row).1
    ensures var second := p.stage.row.(handle := SuffixedHandle(p.stage.row.handle, cfg.lib.tag(p.issuer, p.identity.subject)));
            Steps(cfg, s, p, now, 3) == OnProvisioning(cfg, s, p.(stage := Suffixing(second)), now)
  {
    hide SuffixedHandle, CreateManagedProfile, Steps;
    NextStep(cfg, s, p, now, 3);
    NextStep(cfg, s, p.(stage := Rechecking(p.stage.row)), now, 2);
    var second := p.stage.row.(handle := SuffixedHandle(p.stage.row.handle, cfg.lib.tag(p.issuer, p.identity.subject)));
    NextStep(cfg, s, p.(stage := Suffixing(second)), now, 1);
  }

  /**
   With other requests in between, a login step can still alter a customized profile, exactly when
   it renames from a row it read before the edit and that row differs from what is stored now.
   */
  lemma LoginAltersCustomized(cfg: Config, db: Db, vault: map<string, Payload>, p: Proc, now: int, h: string)
    requires (hide *; h in db.profiles) && db.profiles[h].customized
    requires p.Provisioning? && StageOk(Owner(p.issuer, p.identity.subject), p.stage)
    ensures var rows := OnProvisioning(cfg, Shared(db, vault), p, now).shared.db.profiles;
            && h in rows
            && (rows[h] != db.profiles[h] <==> p.stage.Renaming? && p.stage.row.Holder() == db.profiles[h].Holder())
            && (rows[h] != db.profiles[h] ==> !rows[h].customized)
  {
    hide OnLooking, SuffixedHandle, GoodHandle, Reserved, CreateManagedProfile, UpdateManagedProfile;
    match p.stage
    case Looking => OnlyLooks(cfg, Shared(db, vault), p, now);
    case Renaming(row) => RenameWrites(db, row, h);
    case Creating(row) => CreateKeeps(db, row, h);
    case Rechecking(row) =>
    case Suffixing(row) => CreateKeeps(db, row, h);
  }

  lemma OnlyLooks(cfg: Config, s: Shared, p: Proc, now: int)
    requires (hide *; p.Provisioning?)
    ensures OnLooking(cfg, s, p, now).shared == s
  {
    hide TrimSpace, NewProfile, ClaimedName;
  }

  lemma RenameWrites(db: Db, row: ManagedProfile, h: string)
    requires h in db.profiles && db.profiles[h].customized && !row.customized
    ensures var rows := UpdateManagedProfile(db, row).0.profiles;
            && h in rows && (rows[h] != db.profiles[h] <==> row.Holder() == db.profiles[h].Holder())
            && (rows[h] != db.profiles[h] ==> !rows[h].customized)
  {
  }

  lemma CreateKeeps(db: Db, row: ManagedProfile, h: string)
    requires h in db.profiles
    ensures h in CreateManagedProfile(db, row).0.profiles && CreateManagedProfile(db, row).0.profiles[h] == db.profiles[h]
  {
  }

  // ---- Profile URLs -------------------------------------------------------------------------

  /** The public URL is a bare origin: adding an `/@` path to it only sets the path. */
  ghost predicate BareOrigin(cfg: Config) {
    && cfg.lib.parse(cfg.publicUrl).Some?
    && forall h :: GoodHandle(h) ==>
         cfg.lib.parse(ManagedProfileUrl(cfg, h)) == Some(cfg.lib.parse(cfg.publicUrl).value.(path := "/@" + h))
  }

  /** A good handle's own URL asks for that handle. */
  lemma UrlAsksForHandle(cfg: Config, h: string)
    requires BareOrigin(cfg) && LowerLaw(cfg.lib) && GoodHandle(h)
    ensures HandleInUrl(cfg, ManagedProfileUrl(cfg, h)) == h
  {
    hide GoodHandle, LowerLaw, Normalize;
    var bridge := cfg.lib.parse(cfg.publicUrl).value;
    var u := bridge.(path := "/@" + h);
    assert cfg.lib.parse(ManagedProfileUrl(cfg, h)) == Some(u);
    assert u.path[2..] == h;
    NoSlash(h);
    NormalizeFixesGood(cfg.lib, h);
    SameSelf(bridge, u);
  }

  lemma NoSlash(h: string)
    requires GoodHandle(h)
    ensures '/' !in h
  {
  }

  lemma SameSelf(a: Url, b: Url)
    requires a.scheme == b.scheme && a.hostname == b.hostname && a.port == b.port
    ensures SameOrigin(a, b)
  {
  }

  lemma DifferentUrls(cfg: Config, g: string, h: string)
    requires ManagedProfileUrl(cfg, g) == ManagedProfileUrl(cfg, h)
    ensures g == h
  {
    assert ManagedProfileUrl(cfg, g)[|cfg.publicUrl| + 2..] == g;
    assert ManagedProfileUrl(cfg, h)[|cfg.publicUrl| + 2..] == h;
  }

  /**
   In every state of every run a `me` URL finds a stored profile exactly when it is that profile's
   own URL, so accepted URLs and stored profiles correspond one to one.
   */
  lemma UrlsAndProfiles(cfg: Config, states: seq<Sys>, events: seq<Event>, i: nat, me: string, row: ManagedProfile)
    requires (hide *; IsRun(cfg, states, events)) && i < |states| && cfg.managedEnabled && BareOrigin(cfg) && LowerLaw(cfg.lib)
    ensures var db := states[i].shared.db;
            ManagedProfileForMe(cfg, db, me) == OwnedBy(row) <==> row in db.profiles.Values && me == ManagedProfileUrl(cfg, row.handle)
    ensures var rows := states[i].shared.db.profiles;
            forall g, h :: g in rows && h in rows && ManagedProfileUrl(cfg, rows[g].handle) == ManagedProfileUrl(cfg, rows[h].handle) ==> g == h
  {
    hide Initial, Enabled, Step, GoodHandle, Reserved, LowerLaw, HandleInUrl, BareOrigin, ManagedProfileUrl;
    StoredProfiles(cfg, states, events, i);
    var rows := states[i].shared.db.profiles;
    if row in rows.Values && me == ManagedProfileUrl(cfg, row.handle) {
      UrlAsksForHandle(cfg, row.handle);
      GoodHandleIsLower(row.handle);
      assert |row.handle| > 0 by {
        NotEmpty(row.handle);
      }
    }
    forall g, h | g in rows && h in rows && ManagedProfileUrl(cfg, rows[g].handle) == ManagedProfileUrl(cfg, rows[h].handle)
      ensures g == h
    {
      DifferentUrls(cfg, rows[g].handle, rows[h].handle);
    }
  }

  lemma NotEmpty(h: string)
    requires GoodHandle(h)
    ensures h != ""
  {
  }
}
