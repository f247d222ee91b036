/**
 An edit that is lost, from the initial state on: a person signs in at
 `/setup` and gets a profile, signs in again with a new name, edits the
 profile while that second login is still being served, and the login, which
 read the profile before the edit, writes the old one back under the new name.
 */
module LostEditRun {
  import opened Prelude
  import opened Text
  import opened Config
  import opened Handles
  import opened Tables
  import opened Handlers
  import opened Runs
  import opened Invariant
  import opened Preservation
  import opened Service
  import opened HonestVisits
  import opened HonestRun
  import opened LostEdits
  import opened Witness
  import opened Example

  // ---- Steps of a setup login -----------------------------------------------------------------

  const OWNER: Owner := Owner("https://idp", "sub")

  function Hosted(): Config {
    Sample(true).(managedEnabled := true, managedBackend := "idp")
  }

  function SetupRow(now: int, ch: Choice): AuthRequest {
    AuthRequest(ch.a, "idp", BackendState(ch.b, ch.c, true, None), "", "", "", "", "", "", "", None, Whole(now + 10 * MINUTE), Whole(now))
  }

  function Named(name: string): Identity {
    PERSON.(name := name)
  }

  lemma SetupStep(s: Shared, now: int, ch: Choice)
    requires ch.reachable && ch.a !in s.db.requests
    ensures var o := Advance(Hosted(), s, Arrived(Setup), now, ch);
            && o.next == None && o.shared == s.(db := s.db.(requests := s.db.requests[ch.a := SetupRow(now, ch)]))
  {
  }

  lemma CallbackBegins(s: Shared, q: CallbackQuery, now: int, ch: Choice)
    requires q.state != ""
    ensures Advance(Hosted(), s, Arrived(Callback("idp", q)), now, ch) == Continue(s, Searching(q, {"idp"}))
  {
    assert {"idp"} * Hosted().backends.Keys == {"idp"};
  }

  lemma LoginTaken(s: Shared, q: CallbackQuery, row: AuthRequest, name: string, now: int, ch: Choice)
    requires row.backend == "idp" && row.backendState.setup && q.error == "" && q.state == row.backendState.state && q.code != ""
    requires ch.login == Some(IdToken(row.backendState.nonce, Named(name)))
    ensures var o := Advance(Hosted(), s, Found(q, row), now, ch);
            && o.next == Some(Provisioning(row.id, Looking, Named(name), "https://idp", ch.a))
            && o.shared == s.(vault := s.vault[ch.a := SetupPayload(Hosted(), OWNER, now)])
  {
    hide SetupPayload;
  }

  lemma LooksInVain(s: Shared, id: string, name: string, credential: string, now: int, ch: Choice)
    requires s.db.profiles == map[]
    ensures Advance(Hosted(), s, Provisioning(id, Looking, Named(name), "https://idp", credential), now, ch)
            == Continue(s, Provisioning(id, Creating(NewProfile(Hosted(), Named(name), "https://idp", now)), Named(name), "https://idp", credential))
  {
    hide NewProfile;
    assert TrimSpace("sub") == "sub";
  }

  lemma Creates(s: Shared, p: Proc, row: ManagedProfile, now: int, ch: Choice)
    requires (hide *; p.Provisioning?) && p.stage == Creating(row) && s.db.profiles == map[]
    ensures var o := Advance(Hosted(), s, p, now, ch);
            && o.next == Some(Dropping(p.requestId))
            && o.shared == s.(db := s.db.(profiles := map[Lower(row.handle) := row.(createdAt := Whole(row.createdAt), updatedAt := Whole(row.updatedAt))]))
  {
  }

  lemma LooksAndFinds(s: Shared, h: string, id: string, name: string, credential: string, now: int, ch: Choice)
    requires (hide *; s.db.profiles.Keys == {h}) && s.db.profiles[h].Holder() == OWNER && !s.db.profiles[h].customized
    requires ClaimedName(Named(name), s.db.profiles[h].handle) != s.db.profiles[h].displayName
    ensures var o := Advance(Hosted(), s, Provisioning(id, Looking, Named(name), "https://idp", credential), now, ch);
            && o.shared == s && o.next.Some? && o.next.value.Provisioning? && o.next.value.stage.Renaming?
            && o.next.value.stage.row.Holder() == OWNER
  {
    hide ClaimedName;
    assert TrimSpace("sub") == "sub";
    assert OwnerTaken(s.db, OWNER);
  }

  // ---- Steps of an edit ---------------------------------------------------------------------------

  function Form(credential: string): ProfileForm {
    ProfileForm(credential, "Mine", "", "", "teal")
  }

  lemma SealedOpens(vault: map<string, Payload>, credential: string, now: int)
    requires credential in vault && vault[credential] == SetupPayload(Hosted(), OWNER, now)
    ensures OpenSetup(vault, credential, now) == Some(OWNER)
  {
  }

  lemma FormIsOk(credential: string)
    ensures EditOk(Hosted(), Form(credential))
  {
    assert TrimSpace("Mine") == "Mine" && TrimSpace("") == "" && TrimSpace("teal") == "teal";
  }

  lemma EditBegins(s: Shared, h: string, credential: string, now: int, ch: Choice)
    requires (hide *; s.db.profiles.Keys == {h}) && s.db.profiles[h].Holder() == OWNER
    requires credential in s.vault && s.vault[credential] == SetupPayload(Hosted(), OWNER, now)
    ensures Advance(Hosted(), s, Arrived(EditProfile(Form(credential))), now, ch)
            == (FormIsOk(credential); Continue(s, Editing(Edited(Hosted(), s.db.profiles[h], Form(credential)), credential, now)))
  {
    hide EditOk, OpenSetup, Edited;
    SealedOpens(s.vault, credential, now);
    FormIsOk(credential);
    assert OwnerTaken(s.db, OWNER);
  }

  lemma EditWrites(s: Shared, h: string, p: Proc, now: int, ch: Choice)
    requires (hide *; s.db.profiles.Keys == {h}) && s.db.profiles[h].Holder() == OWNER
    requires p.Editing? && p.profile.Holder() == OWNER && p.profile.customized
    ensures var o := Advance(Hosted(), s, p, now, ch);
            && o.next == None && o.shared.db.profiles.Keys == {h}
            && o.shared.db.profiles[h].customized && o.shared.db.profiles[h].Holder() == OWNER
  {
    hide ManagedProfileUrl;
  }

  // ---- The run --------------------------------------------------------------------------------------

  /** The provider vouches for the same person each time, under a new name the second time. */
  function HostedDraw(i: nat): Choice
    requires i < 26
  {
    Draw(i).(login := Some(if i < 7 then IdToken(Letter(0x100), Named("One")) else IdToken(Letter(0x107), Named("Two"))))
  }

  const STEPS: seq<Choice> := seq(15, i requires 0 <= i < 15 => HostedDraw(i))

  lemma StepAt(states: seq<Sys>, events: seq<Event>, s: Shared, procs: map<nat, Proc>, n: nat, pid: nat)
    returns (states': seq<Sys>, events': seq<Event>)
    requires (hide Step, Advance; n < 15) && Here(Hosted(), states, events, s, 0, procs, STEPS[n..]) && pid in procs && ChoiceOk(procs[pid], HostedDraw(n))
    ensures var o := Advance(Hosted(), s, procs[pid], 0, HostedDraw(n));
            Here(Hosted(), states', events', o.shared, 0, SetProc(procs, pid, o.next), STEPS[n + 1..])
    ensures |states| <= |states'| && states'[..|states|] == states && events' == events + [Event.Resume(pid, HostedDraw(n))]
  {
    hide Here, Advance, ChoiceOk, Hosted;
    assert STEPS[n..][0] == HostedDraw(n) && STEPS[n..][1..] == STEPS[n + 1..];
    states', events' := StepOne(Hosted(), states, events, s, 0, procs, STEPS[n..], pid);
  }

  /** A step of the only request in flight. */
  lemma Onward(states: seq<Sys>, events: seq<Event>, s: Shared, p: Proc, n: nat, t: Shared, next: Proc)
    returns (states': seq<Sys>, events': seq<Event>)
    requires (hide Step, Advance; n < 15) && Here(Hosted(), states, events, s, 0, map[0 := p], STEPS[n..]) && ChoiceOk(p, HostedDraw(n))
    requires var o := Advance(Hosted(), s, p, 0, HostedDraw(n)); o.shared == t && o.next == Some(next)
    ensures Here(Hosted(), states', events', t, 0, map[0 := next], STEPS[n + 1..])
  {
    hide Here, Advance, ChoiceOk, Hosted;
    states', events' := StepAt(states, events, s, map[0 := p], n, 0);
    assert map[0 := p][0 := next] == map[0 := next];
  }

  /** Its last step. */
  lemma Ends(states: seq<Sys>, events: seq<Event>, s: Shared, p: Proc, n: nat, t: Shared)
    returns (states': seq<Sys>, events': seq<Event>)
    requires (hide Step, Advance; n < 15) && Here(Hosted(), states, events, s, 0, map[0 := p], STEPS[n..]) && ChoiceOk(p, HostedDraw(n))
    requires var o := Advance(Hosted(), s, p, 0, HostedDraw(n)); o.shared == t && o.next == None
    ensures Here(Hosted(), states', events', t, 0, map[], STEPS[n + 1..])
  {
    hide Here, Advance, ChoiceOk, Hosted;
    states', events' := StepAt(states, events, s, map[0 := p], n, 0);
    assert map[0 := p] - {0} == map[];
  }

  lemma Begins(states: seq<Sys>, events: seq<Event>, s: Shared, r: Request, n: nat)
    returns (states': seq<Sys>, events': seq<Event>)
    requires (hide Step, Advance; n < 15) && Here(Hosted(), states, events, s, 0, map[], STEPS[n..])
    ensures Here(Hosted(), states', events', s, 0, map[0 := Arrived(r)], STEPS[n..])
  {
    hide Here, Hosted;
    states', events' := StartOne(Hosted(), states, events, s, 0, map[], STEPS[n..], 0, r);
    assert map[][0 := Arrived(r)] == map[0 := Arrived(r)];
  }

  /** `/setup` leaves its row. */
  lemma SetupServed(states: seq<Sys>, events: seq<Event>, s: Shared, n: nat)
    returns (states': seq<Sys>, events': seq<Event>, t: Shared)
    requires (hide Step, Advance; n < 14) && Here(Hosted(), states, events, s, 0, map[], STEPS[n..])
    ensures Here(Hosted(), states', events', t, 0, map[], STEPS[n + 1..])
    ensures t.db.profiles == s.db.profiles && Waiting(t.db, SetupRow(0, HostedDraw(n)), 0)
  {
    hide Here, Advance, Hosted, Inv, Fresh, Waiting, Step;
    var ch := HostedDraw(n);
    HereReady(Hosted(), states, events, s, 0, map[], STEPS[n..]);
    assert STEPS[n..][0] == ch;
    HereIs(Hosted(), states, events, s, 0, map[], STEPS[n..]);
    UnusedKey(Hosted(), states[|events|], ch);
    t := s.(db := s.db.(requests := s.db.requests[ch.a := SetupRow(0, ch)]));
    SetupStep(s, 0, ch);
    states', events' := Begins(states, events, s, Setup, n);
    states', events' := Ends(states', events', s, Arrived(Setup), n, t);
    RowIsFound(states', events', t, SetupRow(0, ch), n + 1);
  }

  /** `/setup`, and the callback up to the point where the login has been taken. */
  lemma SetupAndLogin(states: seq<Sys>, events: seq<Event>, s: Shared, n: nat, name: string)
    returns (states': seq<Sys>, events': seq<Event>, t: Shared)
    requires (hide Step, Advance; n + 3 < 15) && Here(Hosted(), states, events, s, 0, map[], STEPS[n..])
    requires HostedDraw(n + 3).login == Some(IdToken(HostedDraw(n).c, Named(name)))
    ensures var credential := HostedDraw(n + 3).a;
            && Here(Hosted(), states', events', t, 0, map[0 := Provisioning(HostedDraw(n).a, Looking, Named(name), "https://idp", credential)], STEPS[n + 4..])
            && t.db.profiles == s.db.profiles && credential in t.vault && t.vault[credential] == SetupPayload(Hosted(), OWNER, 0)
  {
    hide Here, Advance, Hosted, Waiting, SetupPayload;
    var row := SetupRow(0, HostedDraw(n));
    var q := CallbackQuery(HostedDraw(n).b, "", HostedDraw(n).c);
    states', events', t := SetupServed(states, events, s, n);
    states', events' := Begins(states', events', t, Callback("idp", q), n + 1);
    CallbackBegins(t, q, 0, HostedDraw(n + 1));
    states', events' := Onward(states', events', t, Arrived(Callback("idp", q)), n + 1, t, Searching(q, {"idp"}));
    SearchStep(Hosted(), t, q, {"idp"}, row, 0, HostedDraw(n + 2));
    states', events' := Onward(states', events', t, Searching(q, {"idp"}), n + 2, t, Found(q, row));
    LoginTaken(t, q, row, name, 0, HostedDraw(n + 3));
    var u := t.(vault := t.vault[HostedDraw(n + 3).a := SetupPayload(Hosted(), OWNER, 0)]);
    states', events' := Onward(states', events', t, Found(q, row), n + 3, u, Provisioning(row.id, Looking, Named(name), "https://idp", HostedDraw(n + 3).a));
    t := u;
  }

  lemma RowIsFound(states: seq<Sys>, events: seq<Event>, s: Shared, row: AuthRequest, n: nat)
    requires (hide Step, Advance; n < 15) && Here(Hosted(), states, events, s, 0, map[], STEPS[n..])
    requires row.id in s.db.requests && s.db.requests[row.id] == row && row.expiresAt >= 0
    ensures Waiting(s.db, row, 0)
  {
    hide Waiting, Inv, IsRun, AllFresh;
    RunKeepsInv(Hosted(), states, events, |events|);
    StoredNow(Hosted(), states[|events|], row);
    StillWaiting(Hosted(), states[|events|], row);
  }

  /** The first login gives the person a profile under the name claimed then. */
  lemma FirstLogin() returns (states: seq<Sys>, events: seq<Event>, t: Shared, h: string)
    ensures (hide Step, Advance; Here(Hosted(), states, events, t, 0, map[], STEPS[7..]))
    ensures t.db.profiles.Keys == {h} && t.db.profiles[h].Holder() == OWNER && !t.db.profiles[h].customized && t.db.profiles[h].displayName == "One"
  {
    hide Here, Advance, Hosted, SetupPayload, NewProfile, Idle;
    IdleAtFirst(Hosted(), STEPS) by {
      LibOfHosted();
    }
    assert STEPS[0..] == STEPS;
    IdleIsHere(Hosted(), [BEGINNING], [], STEPS);
    states, events, t := SetupAndLogin([BEGINNING], [], BEGINNING.shared, 0, "One");
    var p := Provisioning(HostedDraw(0).a, Looking, Named("One"), "https://idp", HostedDraw(3).a);
    var given := NewProfile(Hosted(), Named("One"), "https://idp", 0);
    LooksInVain(t, p.requestId, "One", p.credential, 0, HostedDraw(4));
    states, events := Onward(states, events, t, p, 4, t, p.(stage := Creating(given)));
    Creates(t, p.(stage := Creating(given)), given, 0, HostedDraw(5));
    h := Lower(given.handle);
    var u := t.(db := t.db.(profiles := map[h := given.(createdAt := Whole(given.createdAt), updatedAt := Whole(given.updatedAt))]));
    states, events := Onward(states, events, t, p.(stage := Creating(given)), 5, u, Dropping(p.requestId));
    t := u.(db := DeleteAuthRequest(u.db, p.requestId));
    Drops(u, p.requestId, HostedDraw(6));
    states, events := Ends(states, events, u, Dropping(p.requestId), 6, t);
    GivenIsPlain();
  }

  lemma LibOfHosted()
    ensures Hosted().lib == LIB && InLetters(STEPS)
  {
  }

  lemma Drops(s: Shared, id: string, ch: Choice)
    ensures var o := Advance(Hosted(), s, Dropping(id), 0, ch); o.next == None && o.shared == s.(db := DeleteAuthRequest(s.db, id))
  {
  }

  lemma GivenIsPlain()
    ensures var given := NewProfile(Hosted(), Named("One"), "https://idp", 0);
            given.Holder() == OWNER && !given.customized && given.displayName == "One"
  {
    hide DesiredHandle;
    assert TrimSpace("One") == "One";
  }

  lemma SecondName(handle: string)
    ensures ClaimedName(Named("Two"), handle) != "One"
  {
    assert TrimSpace("Two") == "Two";
  }

  /** A login's rename of a customized profile takes the edit back. */
  lemma RenameLoses(cfg: Config, states: seq<Sys>, events: seq<Event>, i: nat, h: string)
    requires (hide Step, Advance; IsRun(cfg, states, events)) && i < |events| && h in states[i].shared.db.profiles && states[i].shared.db.profiles[h].customized
    requires events[i].Resume? && RenamesAt(states, events, i, events[i].pid, states[i].shared.db.profiles[h].Holder())
    ensures h in states[i + 1].shared.db.profiles && !states[i + 1].shared.db.profiles[h].customized
    ensures RenamedOver(states, events, i, states[i].shared.db.profiles[h].Holder())
  {
    hide IsRun, Advance, Fresh, Inv;
    RunMoves(cfg, states, events, i, h);
    RenamesPlain(cfg, states, events, i, events[i].pid, states[i].shared.db.profiles[h].Holder());
    RenamingTrail(cfg, states, events, i, events[i].pid, h);
  }

  /** The second login, up to the point where it is about to rename. */
  lemma SecondLogin() returns (states: seq<Sys>, events: seq<Event>, t: Shared, h: string, p: Proc)
    ensures (hide Step, Advance; Here(Hosted(), states, events, t, 0, map[0 := p], STEPS[12..]))
    ensures p.Provisioning? && p.stage.Renaming? && p.stage.row.Holder() == OWNER
    ensures t.db.profiles.Keys == {h} && t.db.profiles[h].Holder() == OWNER
    ensures var credential := HostedDraw(10).a; credential in t.vault && t.vault[credential] == SetupPayload(Hosted(), OWNER, 0)
  {
    hide Here, Advance, Hosted, SetupPayload, ClaimedName;
    var s;
    states, events, s, h := FirstLogin();
    states, events, t := SetupAndLogin(states, events, s, 7, "Two");
    var q := Provisioning(HostedDraw(7).a, Looking, Named("Two"), "https://idp", HostedDraw(10).a);
    SecondName(t.db.profiles[h].handle);
    LooksAndFinds(t, h, q.requestId, "Two", q.credential, 0, HostedDraw(11));
    p := Advance(Hosted(), t, q, 0, HostedDraw(11)).next.value;
    states, events := Onward(states, events, t, q, 11, t, p);
  }

  /** The lost edit: the last step of this run takes a customized profile back to what the second login had read. */
  lemma EditLostHappens() returns (states: seq<Sys>, events: seq<Event>, i: nat, h: string)
    ensures (hide *; IsRun(Hosted(), states, events)) && i + 1 == |events| && |states| == |events| + 1
    ensures h in states[i].shared.db.profiles && states[i].shared.db.profiles[h].customized
    ensures h in states[i + 1].shared.db.profiles && !states[i + 1].shared.db.profiles[h].customized
    ensures RenamedOver(states, events, i, states[i].shared.db.profiles[h].Holder())
  {
    hide Here, Advance, Hosted, SetupPayload, EditOk, Edited, RenamedOver, IsRun;
    var t, p;
    states, events, t, h, p := SecondLogin();
    var r, credential := EditProfile(Form(HostedDraw(10).a)), HostedDraw(10).a;
    states, events := StartOne(Hosted(), states, events, t, 0, map[0 := p], STEPS[12..], 1, r);
    EditBegins(t, h, credential, 0, HostedDraw(12));
    FormIsOk(credential);
    var e := Editing(Edited(Hosted(), t.db.profiles[h], Form(credential)), credential, 0);
    states, events := StepAt(states, events, t, map[0 := p][1 := Arrived(r)], 12, 1);
    EditedKeeps(t.db.profiles[h], credential);
    EditWrites(t, h, e, 0, HostedDraw(13));
    var u := Advance(Hosted(), t, e, 0, HostedDraw(13)).shared;
    states, events := StepAt(states, events, t, map[0 := p][1 := Arrived(r)][1 := e], 13, 1);
    assert map[0 := p][1 := Arrived(r)][1 := e] - {1} == map[0 := p];
    states, events, i := LastStep(states, events, u, p, h);
  }

  lemma LastStep(states: seq<Sys>, events: seq<Event>, s: Shared, p: Proc, h: string)
    returns (states': seq<Sys>, events': seq<Event>, i: nat)
    requires (hide Step, Advance; Here(Hosted(), states, events, s, 0, map[0 := p], STEPS[14..]))
    requires p.Provisioning? && p.stage.Renaming? && p.stage.row.Holder() == OWNER
    requires s.db.profiles.Keys == {h} && s.db.profiles[h].customized && s.db.profiles[h].Holder() == OWNER
    ensures IsRun(Hosted(), states', events') && i + 1 == |events'| && |states'| == |events'| + 1
    ensures h in states'[i].shared.db.profiles && states'[i].shared.db.profiles[h].customized
    ensures h in states'[i + 1].shared.db.profiles && !states'[i + 1].shared.db.profiles[h].customized
    ensures RenamedOver(states', events', i, states'[i].shared.db.profiles[h].Holder())
  {
    hide Here, Advance, Hosted, RenamedOver, IsRun;
    i := |events|;
    HereIs(Hosted(), states, events, s, 0, map[0 := p], STEPS[14..]);
    states', events' := StepAt(states, events, s, map[0 := p], 14, 0);
    var o := Advance(Hosted(), s, p, 0, HostedDraw(14));
    HereIs(Hosted(), states', events', o.shared, 0, SetProc(map[0 := p], 0, o.next), STEPS[15..]);
    assert states'[i] == states'[..|states|][i] == states[i];
    RenameLoses(Hosted(), states', events', i, h);
  }

  lemma EditedKeeps(row: ManagedProfile, credential: string)
    requires EditOk(Hosted(), Form(credential))
    ensures Edited(Hosted(), row, Form(credential)).Holder() == row.Holder() && Edited(Hosted(), row, Form(credential)).customized
  {
  }
}
