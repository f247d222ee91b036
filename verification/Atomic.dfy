/** A request served from beginning to end with nothing in between. */
module Atomic {
  import opened Prelude
  import opened Config
  import opened Tables
  import opened Handles
  import opened Handlers
  import opened ManagedProfiles

  /** Runs a request without interruption, one draw a step, as far as the draws last. */
  ghost function Drive(cfg: Config, s: Shared, p: Proc, now: int, draws: seq<Choice>): (Shared, Option<Reply>)
    decreases |draws|
  {
    hide *;
    if draws == [] then (s, None)
    else
      var o := Advance(cfg, s, p, now, draws[0]);
      if o.next.None? then (o.shared, o.reply)
      else
        var (t, reply) := Drive(cfg, o.shared, o.next.value, now, draws[1..]);
        (t, if o.reply.Some? then o.reply else reply)
  }

  lemma DriveLast(cfg: Config, s: Shared, p: Proc, now: int, draws: seq<Choice>)
    requires (hide *; |draws| > 0) && Advance(cfg, s, p, now, draws[0]).next == None
    ensures var o := Advance(cfg, s, p, now, draws[0]); Drive(cfg, s, p, now, draws) == (o.shared, o.reply)
  {
    hide Advance;
  }

  lemma DriveMore(cfg: Config, s: Shared, p: Proc, now: int, draws: seq<Choice>)
    requires (hide *; |draws| > 0) && Advance(cfg, s, p, now, draws[0]).next.Some?
    ensures var o := Advance(cfg, s, p, now, draws[0]);
            var (t, reply) := Drive(cfg, o.shared, o.next.value, now, draws[1..]);
            Drive(cfg, s, p, now, draws) == (t, if o.reply.Some? then o.reply else reply)
  {
    hide Advance;
  }

  /** The rest of a request after the outcome of one step. */
  ghost function After(cfg: Config, o: Outcome, now: int, rest: seq<Choice>): (Shared, Option<Reply>) {
    hide *;
    if o.next.None? then (o.shared, o.reply)
    else
      var (t, reply) := Drive(cfg, o.shared, o.next.value, now, rest);
      (t, if o.reply.Some? then o.reply else reply)
  }

  lemma DriveArrived(cfg: Config, s: Shared, r: Request, now: int, draws: seq<Choice>)
    requires (hide *; |draws| > 0)
    ensures Drive(cfg, s, Arrived(r), now, draws) == After(cfg, Begin(cfg, s, r, now, draws[0]), now, draws[1..])
  {
    hide Begin;
  }

  lemma DriveBound(cfg: Config, s: Shared, q: AuthorizeQuery, si: SignIn, now: int, ch: Choice)
    ensures Drive(cfg, s, Bound(q, si), now, [ch]) == After(cfg, OnBound(cfg, s, q, si, now, ch), now, [])
  {
    hide OnBound;
  }

  lemma DriveFound(cfg: Config, s: Shared, q: CallbackQuery, row: AuthRequest, now: int, draws: seq<Choice>)
    requires (hide *; |draws| > 0)
    ensures Drive(cfg, s, Found(q, row), now, draws) == After(cfg, OnFound(cfg, s, q, row, now, draws[0]), now, draws[1..])
  {
    hide OnFound;
  }

  lemma DriveMatched(cfg: Config, s: Shared, row: ConsentRequest, csrf: string, decision: string, now: int, draws: seq<Choice>)
    requires (hide *; |draws| > 0)
    ensures Drive(cfg, s, Matched(row, csrf, decision), now, draws) == After(cfg, OnMatched(cfg, s, row, csrf, decision, now, draws[0]), now, draws[1..])
  {
    hide OnMatched;
  }

  lemma DriveDropsConsent(cfg: Config, s: Shared, id: string, now: int, draws: seq<Choice>)
    requires |draws| > 0
    ensures Drive(cfg, s, DroppingConsent(id), now, draws) == (s.(db := DeleteConsentRequest(s.db, id)), None)
  {
    DriveLast(cfg, s, DroppingConsent(id), now, draws);
  }

  lemma DriveRedeemed(cfg: Config, s: Shared, row: AuthorizationCode, form: CodeForm, now: int, ch: Choice)
    ensures Drive(cfg, s, Redeemed(row, form), now, [ch]) == After(cfg, OnRedeemed(cfg, s, row, form, now, ch), now, [])
  {
    hide OnRedeemed;
  }

  lemma DriveRevoking(cfg: Config, s: Shared, token: string, now: int, ch: Choice)
    ensures Drive(cfg, s, Revoking(token), now, [ch]) == After(cfg, OnRevoking(cfg, s, token, now), now, [])
  {
    hide OnRevoking;
  }

  lemma DriveEditing(cfg: Config, s: Shared, profile: ManagedProfile, credential: string, checkedAt: int, now: int, ch: Choice)
    ensures Drive(cfg, s, Editing(profile, credential, checkedAt), now, [ch])
            == After(cfg, OnEditing(cfg, s, profile, credential, checkedAt, now), now, [])
  {
    hide OnEditing;
  }

  /** The draws in `tried` take a request, silently, from `p` to `q`. */
  ghost predicate Reaches(cfg: Config, s: Shared, p: Proc, now: int, tried: seq<Choice>, t: Shared, q: Proc)
    decreases |tried|
  {
    hide *;
    if tried == [] then s == t && p == q
    else
      var o := Advance(cfg, s, p, now, tried[0]);
      ChoiceOk(p, tried[0]) && o.reply.None? && o.next.Some? && Reaches(cfg, o.shared, o.next.value, now, tried[1..], t, q)
  }

  lemma {:induction false} ReachesMore(cfg: Config, s: Shared, p: Proc, now: int, tried: seq<Choice>, t: Shared, q: Proc, ch: Choice, u: Shared, r: Proc)
    requires Reaches(cfg, s, p, now, tried, t, q) && ChoiceOk(q, ch) && Advance(cfg, t, q, now, ch) == Continue(u, r)
    ensures Reaches(cfg, s, p, now, tried + [ch], u, r)
    decreases |tried|
  {
    hide Advance;
    if tried == [] {
      assert tried + [ch] == [ch] && [ch][1..] == [];
      ReachesNow(cfg, u, r, now);
    } else {
      var o := Advance(cfg, s, p, now, tried[0]);
      ReachesMore(cfg, o.shared, o.next.value, now, tried[1..], t, q, ch, u, r);
      assert (tried + [ch])[1..] == tried[1..] + [ch];
    }
  }

  lemma ReachesNow(cfg: Config, s: Shared, p: Proc, now: int)
    ensures Reaches(cfg, s, p, now, [], s, p)
  {
    hide Advance;
  }

  lemma {:induction false} ReachesDrive(cfg: Config, s: Shared, p: Proc, now: int, tried: seq<Choice>, t: Shared, q: Proc, rest: seq<Choice>)
    requires Reaches(cfg, s, p, now, tried, t, q)
    ensures Drive(cfg, s, p, now, tried + rest) == Drive(cfg, t, q, now, rest)
    decreases |tried|
  {
    hide Advance, Drive;
    if tried == [] {
      assert tried + rest == rest;
    } else {
      var o := Advance(cfg, s, p, now, tried[0]);
      ReachesDrive(cfg, o.shared, o.next.value, now, tried[1..], t, q, rest);
      assert (tried + rest)[1..] == tried[1..] + rest;
      DriveMore(cfg, s, p, now, tried + rest);
    }
  }

  // ---- Enough draws, each in order -----------------------------------------------------

  /** The draws last until the request ends, and each backend tried is one not tried before. */
  ghost predicate Orderly(cfg: Config, s: Shared, p: Proc, now: int, draws: seq<Choice>)
    decreases |draws|
  {
    hide *;
    && draws != [] && ChoiceOk(p, draws[0])
    && var o := Advance(cfg, s, p, now, draws[0]);
    o.next.Some? ==> Orderly(cfg, o.shared, o.next.value, now, draws[1..])
  }

  lemma {:induction false} ReachesOrderly(cfg: Config, s: Shared, p: Proc, now: int, tried: seq<Choice>, t: Shared, q: Proc, rest: seq<Choice>)
    requires Reaches(cfg, s, p, now, tried, t, q) && Orderly(cfg, t, q, now, rest)
    ensures Orderly(cfg, s, p, now, tried + rest)
    decreases |tried|
  {
    hide Advance, ChoiceOk;
    if tried == [] {
      assert tried + rest == rest;
    } else {
      var o := Advance(cfg, s, p, now, tried[0]);
      ReachesOrderly(cfg, o.shared, o.next.value, now, tried[1..], t, q, rest);
      assert (tried + rest)[1..] == tried[1..] + rest;
    }
  }

  /** An upper bound on the steps left, for a request that does not search the backends. */
  function StepsLeft(p: Proc): nat {
    match p
    case Arrived(r) => if r.ConsentAnswer? then 3 else if r.Authorize? || r.Exchange? || r.Revoke? || r.EditProfile? then 2 else 1
    case Found(_, _) => 6
    case Provisioning(_, stage, _, _, _) =>
      (match stage
       case Looking => 5
       case Creating(_) => 4
       case Rechecking(_) => 3
       case Suffixing(_) => 2
       case Renaming(_) => 2)
    case Matched(_, _, _) => 2
    case _ => 1
  }

  predicate Straight(p: Proc) {
    !p.Searching? && !(p.Arrived? && p.request.Callback?)
  }

  lemma BeginStraight(cfg: Config, s: Shared, r: Request, now: int, ch: Choice)
    requires (hide *; !r.Callback?)
    ensures var next := Begin(cfg, s, r, now, ch).next; next.Some? ==> Straight(next.value) && StepsLeft(next.value) < StepsLeft(Arrived(r))
  {
    hide CheckAuthorize, ResolveProfile, RequestedMe, PresentationOk, EditOk, Edited, OpenSetup, ConsumeAuthorizationCode, GetConsentRequest,
      GetAccessToken, GetManagedProfileByIdentity, CreateAuthRequest, Log, TesterPayload;
  }

  lemma ProvisioningStraight(cfg: Config, s: Shared, p: Proc, now: int)
    requires (hide *; p.Provisioning?)
    ensures var next := OnProvisioning(cfg, s, p, now).next; next.Some? ==> Straight(next.value) && StepsLeft(next.value) < StepsLeft(p)
  {
    hide NewProfile, ClaimedName, CreateManagedProfile, UpdateManagedProfile, SuffixedHandle;
  }

  lemma StraightOn(cfg: Config, s: Shared, p: Proc, now: int, ch: Choice)
    requires (hide *; Straight(p))
    ensures var next := Advance(cfg, s, p, now, ch).next; next.Some? ==> Straight(next.value) && StepsLeft(next.value) < StepsLeft(p)
  {
    hide Begin, OnProvisioning, LoginAllowed, CompleteAuth, UpdateManagedProfile;
    if p.Arrived? {
      BeginStraight(cfg, s, p.request, now, ch);
    } else if p.Provisioning? {
      ProvisioningStraight(cfg, s, p, now);
    }
  }

  lemma {:induction false} EnoughDraws(cfg: Config, s: Shared, p: Proc, now: int, draws: seq<Choice>)
    requires Straight(p) && |draws| >= StepsLeft(p)
    ensures Orderly(cfg, s, p, now, draws)
    decreases |draws|
  {
    hide Advance, StepsLeft;
    assert StepsLeft(p) > 0 by {
      SomeStepLeft(p);
    }
    StraightOn(cfg, s, p, now, draws[0]);
    var o := Advance(cfg, s, p, now, draws[0]);
    if o.next.Some? {
      EnoughDraws(cfg, o.shared, o.next.value, now, draws[1..]);
    }
  }

  lemma SomeStepLeft(p: Proc)
    ensures StepsLeft(p) > 0
  {
  }

  // ---- Providing a profile, and the deletes at the end ---------------------------------

  lemma DriveDrops(cfg: Config, s: Shared, id: string, now: int, draws: seq<Choice>)
    requires |draws| > 0
    ensures Drive(cfg, s, Dropping(id), now, draws) == (s.(db := DeleteAuthRequest(s.db, id)), None)
  {
    DriveLast(cfg, s, Dropping(id), now, draws);
  }

  lemma DriveProvisions(cfg: Config, s: Shared, p: Proc, now: int, draws: seq<Choice>)
    requires (hide *; p.Provisioning?) && |draws| > 0 && OnProvisioning(cfg, s, p, now).next.Some?
    ensures var o := OnProvisioning(cfg, s, p, now);
            var (t, reply) := Drive(cfg, o.shared, o.next.value, now, draws[1..]);
            Drive(cfg, s, p, now, draws) == (t, if o.reply.Some? then o.reply else reply)
  {
    hide OnProvisioning, Drive;
    assert Advance(cfg, s, p, now, draws[0]) == OnProvisioning(cfg, s, p, now);
    DriveMore(cfg, s, p, now, draws);
  }

  lemma StepsUnfold(cfg: Config, s: Shared, p: Proc, now: int, k: nat)
    requires (hide *; p.Provisioning?)
    ensures var o := OnProvisioning(cfg, s, p, now);
            Steps(cfg, s, p, now, k) == if k > 0 && o.next.Some? && o.next.value.Provisioning? then Steps(cfg, o.shared, o.next.value, now, k - 1) else o
  {
    hide OnProvisioning;
  }

  lemma AlwaysContinues(cfg: Config, s: Shared, p: Proc, now: int)
    requires (hide *; p.Provisioning?)
    ensures var o := OnProvisioning(cfg, s, p, now);
            && o.next.Some? && (o.reply.Some? ==> o.next.value == Dropping(p.requestId))
  {
    hide ClaimedName, NewProfile, CreateManagedProfile, UpdateManagedProfile, SuffixedHandle;
  }

  /** The provisioning steps, driven to their end. */
  lemma {:induction false} DriveSteps(cfg: Config, s: Shared, p: Proc, now: int, k: nat, draws: seq<Choice>)
    requires (hide *; p.Provisioning?) && |draws| >= k + 2
    requires var o := Steps(cfg, s, p, now, k); o.reply.Some? && o.next == Some(Dropping(p.requestId))
    ensures var o := Steps(cfg, s, p, now, k);
            Drive(cfg, s, p, now, draws) == (o.shared.(db := DeleteAuthRequest(o.shared.db, p.requestId)), o.reply)
    decreases k
  {
    hide OnProvisioning, Drive, Steps;
    var o := OnProvisioning(cfg, s, p, now);
    StepsUnfold(cfg, s, p, now, k);
    AlwaysContinues(cfg, s, p, now);
    DriveProvisions(cfg, s, p, now, draws);
    if k > 0 && o.next.value.Provisioning? {
      SameRequest(cfg, s, p, now);
      DriveSteps(cfg, o.shared, o.next.value, now, k - 1, draws[1..]);
    } else {
      DriveDrops(cfg, o.shared, p.requestId, now, draws[1..]);
    }
  }

  lemma SameRequest(cfg: Config, s: Shared, p: Proc, now: int)
    requires (hide *; p.Provisioning?)
    ensures var o := OnProvisioning(cfg, s, p, now);
            o.next.Some? && o.next.value.Provisioning? ==> o.next.value.requestId == p.requestId && o.reply == None
  {
    hide ClaimedName, NewProfile, CreateManagedProfile, UpdateManagedProfile, SuffixedHandle;
  }

  /** A setup login's request for a profile, from the lookup to the delete of its stored request. */
  lemma DriveEnsure(cfg: Config, s: Shared, p: Proc, now: int, draws: seq<Choice>)
    requires (hide *; p.Provisioning?) && p.stage == Looking && |draws| >= 6
    ensures var (db, r) := Ensure(cfg, s.db, p.identity, p.issuer, now);
            Drive(cfg, s, p, now, draws) ==
              (s.(db := DeleteAuthRequest(db, p.requestId)),
               Some(if r.Ok? then SetupPage(p.issuer, p.identity.subject, p.credential, Some(r.value)) else HttpError(500)))
  {
    hide OnProvisioning, Drive, Steps, Ensure;
    StepsEnsure(cfg, s, p, now);
    DriveSteps(cfg, s, p, now, 4, draws);
  }
}
