/**
 What can happen to a profile its holder has customized, in any run: an edit
 of the holder, and nothing else, unless a setup login of the holder read the
 profile before the edit and renames it after.
 */
module LostEdits {
  import opened Prelude
  import opened Text
  import opened Config
  import opened Handles
  import opened Tables
  import opened Handlers
  import opened Runs
  import opened Invariant
  import opened Preservation
  import opened Traces
  import opened ManagedProfiles
  import opened Serial
  import opened Overlap
  import opened Survival

  // ---- One step -----------------------------------------------------------------------------

  /** The next step writes the profile of this owner. */
  predicate Rewrites(p: Proc, owner: Owner) {
    match p
    case Editing(profile, _, _) => profile.Holder() == owner
    case Provisioning(_, Renaming(row), _, _, _) => row.Holder() == owner
    case _ => false
  }

  predicate WritesCustomized(p: Proc) {
    match p
    case Editing(profile, _, _) => profile.customized
    case Provisioning(_, Renaming(row), _, _, _) => row.customized
    case _ => false
  }

  /** Each profile stays as it is, or is the one the step writes. */
  ghost predicate ProfileMoves(rows: map<string, ManagedProfile>, rows': map<string, ManagedProfile>, p: Proc) {
    forall h :: h in rows ==>
      && h in rows' && rows'[h].Holder() == rows[h].Holder()
      && (rows'[h] != rows[h] ==> Rewrites(p, rows[h].Holder()))
      && (Rewrites(p, rows[h].Holder()) ==> rows'[h].customized == WritesCustomized(p))
  }

  lemma UpdateMoves(db: Db, profile: ManagedProfile, p: Proc)
    requires forall owner :: Rewrites(p, owner) <==> profile.Holder() == owner
    requires WritesCustomized(p) == profile.customized
    ensures ProfileMoves(db.profiles, UpdateManagedProfile(db, profile).0.profiles, p)
  {
    hide Rewrites, WritesCustomized;
  }

  lemma CreateMoves(db: Db, profile: ManagedProfile, p: Proc)
    requires forall owner :: !Rewrites(p, owner)
    ensures ProfileMoves(db.profiles, CreateManagedProfile(db, profile).0.profiles, p)
  {
    hide Rewrites, WritesCustomized;
  }

  lemma StillMoves(rows: map<string, ManagedProfile>, p: Proc)
    requires forall owner :: !Rewrites(p, owner)
    ensures ProfileMoves(rows, rows, p)
  {
    hide Rewrites, WritesCustomized;
  }

  lemma EditMoves(cfg: Config, s: Shared, p: Proc, now: int)
    requires p.Editing?
    ensures ProfileMoves(s.db.profiles, OnEditing(cfg, s, p.profile, p.credential, p.checkedAt, now).shared.db.profiles, p)
  {
    hide ProfileMoves;
    UpdateMoves(s.db, p.profile.(updatedAt := now), p);
  }

  lemma ProvisioningMoves(cfg: Config, s: Shared, p: Proc, now: int)
    requires (hide *; p.Provisioning?)
    ensures ProfileMoves(s.db.profiles, OnProvisioning(cfg, s, p, now).shared.db.profiles, p)
  {
    hide OnLooking, SuffixedHandle, GetManagedProfileByIdentity, CreateManagedProfile, UpdateManagedProfile, ProfileMoves;
    match p.stage
    case Looking => OnlyLooks(cfg, s, p, now);
      StillMoves(s.db.profiles, p);
    case Renaming(row) => UpdateMoves(s.db, row, p);
    case Creating(row) => CreateMoves(s.db, row, p);
      StillMoves(s.db.profiles, p);
    case Rechecking(row) => StillMoves(s.db.profiles, p);
    case Suffixing(row) => CreateMoves(s.db, row, p);
      StillMoves(s.db.profiles, p);
  }

  lemma AdvanceMoves(cfg: Config, s: Shared, p: Proc, now: int, ch: Choice)
    ensures ProfileMoves(s.db.profiles, Advance(cfg, s, p, now, ch).shared.db.profiles, p)
  {
    if p.Provisioning? {
      hide Advance, ProfileMoves;
      AdvanceProvisions(cfg, s, p, now, ch);
      ProvisioningMoves(cfg, s, p, now);
    } else if p.Editing? {
      hide ProfileMoves, OnEditing;
      EditMoves(cfg, s, p, now);
    } else {
      hide ProfileMoves;
      StillMoves(s.db.profiles, p);
      if p.Dropping? || p.DroppingConsent? {
      } else {
        hide Advance;
        AdvanceKeeps(cfg, s, p, now, ch);
      }
    }
  }

  // ---- In a run -------------------------------------------------------------------------------

  /** Step `i` carries out an edit of this owner's profile. */
  ghost predicate EditedAt(states: seq<Sys>, events: seq<Event>, i: nat, owner: Owner) {
    && i < |events| && i < |states| && events[i].Resume? && events[i].pid in states[i].procs
    && states[i].procs[events[i].pid].Editing? && states[i].procs[events[i].pid].profile.Holder() == owner
  }

  /** Step `i` renames this owner's profile, as the owner's setup login decided at step `k`, before the edit at step `m`. */
  ghost predicate RenamedOver(states: seq<Sys>, events: seq<Event>, i: nat, owner: Owner) {
    && i < |events| && i < |states| && events[i].Resume?
    && RenamesAt(states, events, i, events[i].pid, owner)
    && exists k: nat, m: nat :: k < m < i && DecidesAt(states, events, k, i, events[i].pid, owner) && EditedAt(states, events, m, owner)
  }

  predicate RenamesAt(states: seq<Sys>, events: seq<Event>, i: nat, pid: nat, owner: Owner) {
    && Moves(states, events, i, pid)
    && var p := states[i].procs[pid];
    p.Provisioning? && p.stage.Renaming? && p.stage.row.Holder() == owner
  }

  /** Step `k` is the setup login's lookup of the profile, after which it waits until step `i`. */
  predicate DecidesAt(states: seq<Sys>, events: seq<Event>, k: nat, i: nat, pid: nat, owner: Owner) {
    && Moves(states, events, k, pid) && i < |states| && pid in states[i].procs
    && (forall n :: k < n <= i ==> pid in states[n].procs && states[n].procs[pid] == states[i].procs[pid])
    && var p := states[k].procs[pid];
    p.Provisioning? && p.stage.Looking? && Owner(p.issuer, p.identity.subject) == owner
  }

  lemma RunMoves(cfg: Config, states: seq<Sys>, events: seq<Event>, i: nat, h: string)
    requires (hide Step, Advance; IsRun(cfg, states, events)) && i < |events| && h in states[i].shared.db.profiles
    ensures h in states[i + 1].shared.db.profiles
    ensures var row, row' := states[i].shared.db.profiles[h], states[i + 1].shared.db.profiles[h];
            && row'.Holder() == row.Holder()
            && (events[i].Resume? ==>
                  && events[i].pid in states[i].procs
                  && (row' != row ==> Rewrites(states[i].procs[events[i].pid], row.Holder()))
                  && (Rewrites(states[i].procs[events[i].pid], row.Holder()) ==> row'.customized == WritesCustomized(states[i].procs[events[i].pid])))
            && (!events[i].Resume? ==> row' == row)
  {
    hide Advance, Fresh, Initial, ChoiceOk, Record, Rewrites, WritesCustomized;
    OneStep(cfg, states, events, i);
    if events[i].Resume? {
      ResumeStep(cfg, states, events, i);
      AdvanceMoves(cfg, states[i].shared, states[i].procs[events[i].pid], states[i].now, events[i].choice);
    }
  }

  /** No login in flight is about to write a customized row. */
  lemma RenamesPlain(cfg: Config, states: seq<Sys>, events: seq<Event>, i: nat, pid: nat, owner: Owner)
    requires (hide Step, Advance; IsRun(cfg, states, events)) && RenamesAt(states, events, i, pid, owner)
    ensures var p := states[i].procs[pid]; !p.stage.row.customized && owner == Owner(p.issuer, p.identity.subject)
  {
    hide IsRun, Inv, CandidatesOk;
    RunKeepsInv(cfg, states, events, i);
    InFlightOk(cfg, states[i], pid);
  }

  /** A profile becomes customized by an edit of its holder. */
  lemma {:induction false} BecameCustomized(cfg: Config, states: seq<Sys>, events: seq<Event>, a: nat, b: nat, h: string) returns (m: nat)
    requires (hide *; IsRun(cfg, states, events)) && a <= b < |states| && h in states[a].shared.db.profiles && !states[a].shared.db.profiles[h].customized
    requires h in states[b].shared.db.profiles && states[b].shared.db.profiles[h].customized
    ensures a <= m < b && EditedAt(states, events, m, states[a].shared.db.profiles[h].Holder())
    decreases b - a
  {
    hide IsRun, Inv;
    StatesOfRun(cfg, states, events);
    RunMoves(cfg, states, events, a, h);
    if states[a + 1].shared.db.profiles[h].customized {
      m := a;
      var pid, owner := events[a].pid, states[a].shared.db.profiles[h].Holder();
      if !states[a].procs[pid].Editing? {
        RenamesPlain(cfg, states, events, a, pid, owner);
      }
    } else {
      m := BecameCustomized(cfg, states, events, a + 1, b, h);
    }
  }

  // ---- The login that renames --------------------------------------------------------------------

  lemma RenamingFrom(cfg: Config, s: Shared, p: Proc, now: int, ch: Choice)
    requires (hide *; var n := Advance(cfg, s, p, now, ch).next; n.Some? && n.value.Provisioning? && n.value.stage.Renaming?)
    ensures p.Provisioning? && p.stage.Looking? && Advance(cfg, s, p, now, ch).shared == s
    ensures var n, owner := Advance(cfg, s, p, now, ch).next.value, Owner(p.issuer, p.identity.subject);
            && n.issuer == p.issuer && n.identity == p.identity && n.stage.row.Holder() == owner
            && var found := GetManagedProfileByIdentity(s.db, owner); found.Some? && !found.value.customized
  {
    hide CheckAuthorize, ResolveProfile, RequestedMe, LoginAllowed, PresentationOk, EditOk, OpenSetup, TrimSpace, ConsumeAuthorizationCode,
      CompleteAuth, NewProfile, ClaimedName, CreateManagedProfile, UpdateManagedProfile, GetManagedProfileByIdentity;
  }

  /** The row that a login found is that of the profile, the owner's only one. */
  lemma FoundThatRow(cfg: Config, states: seq<Sys>, events: seq<Event>, k: nat, i: nat, h: string)
    requires (hide *; IsRun(cfg, states, events)) && k <= i < |states| && h in states[i].shared.db.profiles
    requires GetManagedProfileByIdentity(states[k].shared.db, states[i].shared.db.profiles[h].Holder()).Some?
    ensures h in states[k].shared.db.profiles
    ensures GetManagedProfileByIdentity(states[k].shared.db, states[i].shared.db.profiles[h].Holder()) == Some(states[k].shared.db.profiles[h])
    ensures states[k].shared.db.profiles[h].Holder() == states[i].shared.db.profiles[h].Holder()
  {
    hide IsRun, GoodHandle, Reserved;
    StoredProfiles(cfg, states, events, k);
    StoredProfiles(cfg, states, events, i);
    RunGrows(cfg, states, events, k, i);
  }

  lemma RenamingTrail(cfg: Config, states: seq<Sys>, events: seq<Event>, i: nat, pid: nat, h: string)
    requires (hide Step, Advance; IsRun(cfg, states, events)) && i < |events| && h in states[i].shared.db.profiles && states[i].shared.db.profiles[h].customized
    requires events[i].Resume? && events[i].pid == pid && RenamesAt(states, events, i, pid, states[i].shared.db.profiles[h].Holder())
    ensures RenamedOver(states, events, i, states[i].shared.db.profiles[h].Holder())
  {
    hide IsRun, Advance, Fresh, Inv;
    var owner := states[i].shared.db.profiles[h].Holder();
    var k, ch, p := ProcSource(cfg, states, events, i, pid);
    RenamingFrom(cfg, states[k].shared, p, states[k].now, ch);
    RenamesPlain(cfg, states, events, i, pid, owner);
    FoundThatRow(cfg, states, events, k, i, h);
    RunMoves(cfg, states, events, k, h);
    LookingRewritesNothing(p, owner);
    var m := BecameCustomized(cfg, states, events, k + 1, i, h);
    assert DecidesAt(states, events, k, i, pid, owner) && EditedAt(states, events, m, owner);
  }

  lemma LookingRewritesNothing(p: Proc, owner: Owner)
    requires p.Provisioning? && p.stage.Looking?
    ensures !Rewrites(p, owner)
  {
  }

  /**
   In any run: a step that is no edit by its holder changes a customized profile exactly when it
   renames the profile for a setup login that read it before an edit. The profile is then no longer customized.
   */
  lemma LostExactly(cfg: Config, states: seq<Sys>, events: seq<Event>, i: nat, h: string)
    requires (hide Step, Advance; IsRun(cfg, states, events)) && i < |events| && h in states[i].shared.db.profiles && states[i].shared.db.profiles[h].customized
    requires !EditedAt(states, events, i, states[i].shared.db.profiles[h].Holder())
    ensures h in states[i + 1].shared.db.profiles
    ensures states[i + 1].shared.db.profiles[h] != states[i].shared.db.profiles[h]
            <==> RenamedOver(states, events, i, states[i].shared.db.profiles[h].Holder())
    ensures states[i + 1].shared.db.profiles[h] != states[i].shared.db.profiles[h] ==> !states[i + 1].shared.db.profiles[h].customized
  {
    hide IsRun, Advance, Fresh, Inv;
    StatesOfRun(cfg, states, events);
    RunMoves(cfg, states, events, i, h);
    var owner := states[i].shared.db.profiles[h].Holder();
    if events[i].Resume? && Rewrites(states[i].procs[events[i].pid], owner) {
      RenamesPlain(cfg, states, events, i, events[i].pid, owner);
      RenamingTrail(cfg, states, events, i, events[i].pid, h);
    }
  }

  /** Uninterrupted, a login cannot have an edit between its lookup and its rename. */
  lemma SerialNotOver(cfg: Config, states: seq<Sys>, events: seq<Event>, i: nat, owner: Owner)
    requires IsRun(cfg, states, events) && IsSerial(states, events)
    ensures !RenamedOver(states, events, i, owner)
  {
    hide IsRun, IsSerial, Linear;
    if RenamedOver(states, events, i, owner) {
      var k: nat, m: nat :| k < m < i && DecidesAt(states, events, k, i, events[i].pid, owner) && EditedAt(states, events, m, owner);
      var flight := RunLinear(cfg, states, events, m);
    }
  }

  /** In a serial run only an edit of the holder changes a customized profile. */
  lemma SerialKeepsCustomized(cfg: Config, states: seq<Sys>, events: seq<Event>, i: nat, h: string)
    requires (hide Step, Advance; IsRun(cfg, states, events)) && IsSerial(states, events) && i < |events|
    requires h in states[i].shared.db.profiles && states[i].shared.db.profiles[h].customized
    ensures h in states[i + 1].shared.db.profiles
    ensures states[i + 1].shared.db.profiles[h] == states[i].shared.db.profiles[h]
            || EditedAt(states, events, i, states[i].shared.db.profiles[h].Holder())
  {
    hide IsRun, Advance, Fresh, Inv, IsSerial, Linear;
    StatesOfRun(cfg, states, events);
    var owner := states[i].shared.db.profiles[h].Holder();
    if !EditedAt(states, events, i, owner) {
      LostExactly(cfg, states, events, i, h);
      SerialNotOver(cfg, states, events, i, owner);
    } else {
      RunMoves(cfg, states, events, i, h);
    }
  }
}
