/**
 An honest sign-in with consent, from the initial state, step by step: the
 run meets every condition of `HonestRun.HonestSignIn`.
 */
module SignInRun {
  import opened Prelude
  import opened Library
  import opened Config
  import opened Tables
  import opened Handlers
  import opened Runs
  import opened Invariant
  import opened Preservation
  import opened Traces
  import opened Introspection
  import opened Service
  import opened Overlap
  import opened HonestVisits
  import opened HonestRun
  import opened Witness
  import opened Example

  // ---- A run with its steps written down ----------------------------------------------------

  /** What happened at each step: a request came in, or the one in flight was at `p`, drew `ch`, and was answered or not. */
  datatype Mark = Came | Went(p: Proc, ch: Choice, replied: bool)

  function Bridge(): Config {
    Sample(true)
  }

  ghost predicate MarkOk(states: seq<Sys>, events: seq<Event>, i: nat, mark: Mark)
    requires (hide *; i < |states|) && i < |events|
  {
    if mark.Came? then events[i].Start?
    else
      && events[i] == Event.Resume(0, mark.ch) && 0 in states[i].procs && states[i].procs[0] == mark.p && states[i].now == 0
      && (mark.replied <==> OutcomeAt(Bridge(), states, i, mark.p, mark.ch).reply.Some?)
  }

  ghost predicate MarksOk(states: seq<Sys>, events: seq<Event>, marks: seq<Mark>) {
    hide *;
    |marks| == |events| <= |states| && forall i :: 0 <= i < |marks| ==> MarkOk(states, events, i, marks[i])
  }

  ghost predicate Written(states: seq<Sys>, events: seq<Event>, s: Shared, procs: map<nat, Proc>, n: nat, marks: seq<Mark>)
    requires (hide *; n <= 12)
  {
    Here(Bridge(), states, events, s, 0, procs, Draws()[n..]) && MarksOk(states, events, marks)
  }

  lemma OneMoreMark(states: seq<Sys>, events: seq<Event>, marks: seq<Mark>, t: Sys, e: Event, mark: Mark)
    requires (hide *; MarksOk(states, events, marks)) && |states| == |events| + 1
    requires MarkOk(states, events + [e], |events|, mark)
    ensures MarksOk(states + [t], events + [e], marks + [mark])
  {
    hide Advance, Bridge;
    forall i | 0 <= i < |marks| + 1
      ensures MarkOk(states + [t], events + [e], i, (marks + [mark])[i])
    {
      if i < |marks| {
        assert MarkOk(states, events, i, marks[i]);
      }
    }
  }

  lemma Comes(states: seq<Sys>, events: seq<Event>, s: Shared, n: nat, marks: seq<Mark>, r: Request)
    returns (states': seq<Sys>, events': seq<Event>)
    requires (hide *; n <= 12) && Written(states, events, s, map[], n, marks)
    ensures Written(states', events', s, map[0 := Arrived(r)], n, marks + [Came])
  {
    hide IsRun, MarksOk, AllFresh, Bridge, Advance;
    states', events' := StartOne(Bridge(), states, events, s, 0, map[], Draws()[n..], 0, r);
    assert map[][0 := Arrived(r)] == map[0 := Arrived(r)];
    assert states' == states + [states'[|events'|]];
    OneMoreMark(states, events, marks, states'[|events'|], Event.Start(0, r), Came);
  }

  lemma Goes(states: seq<Sys>, events: seq<Event>, s: Shared, p: Proc, n: nat, marks: seq<Mark>, o: Outcome)
    returns (states': seq<Sys>, events': seq<Event>)
    requires (hide *; n < 12) && Written(states, events, s, map[0 := p], n, marks) && ChoiceOk(p, Draw(n)) && Advance(Bridge(), s, p, 0, Draw(n)) == o
    ensures Written(states', events', o.shared, if o.next.Some? then map[0 := o.next.value] else map[], n + 1, marks + [Went(p, Draw(n), o.reply.Some?)])
  {
    hide IsRun, MarksOk, AllFresh, Bridge, Advance, ChoiceOk;
    assert Draws()[n..][0] == Draw(n) && Draws()[n..][1..] == Draws()[n + 1..];
    HereIs(Bridge(), states, events, s, 0, map[0 := p], Draws()[n..]);
    states', events' := StepOne(Bridge(), states, events, s, 0, map[0 := p], Draws()[n..], 0);
    assert SetProc(map[0 := p], 0, o.next) == if o.next.Some? then map[0 := o.next.value] else map[];
    OneMoreMark(states, events, marks, states'[|events'|], Event.Resume(0, Draw(n)), Went(p, Draw(n), o.reply.Some?));
  }

  lemma KeysUnusedHere(states: seq<Sys>, events: seq<Event>, s: Shared, procs: map<nat, Proc>, n: nat, marks: seq<Mark>)
    requires (hide *; n < 12) && Written(states, events, s, procs, n, marks)
    ensures var a := Draw(n).a;
            && a !in s.db.requests && a !in s.db.consents
            && HashToken(Bridge().lib, a) !in s.db.codes && HashToken(Bridge().lib, a) !in s.db.tokens
  {
    hide Here, MarksOk, Bridge, Inv, Fresh, Advance, Step;
    HereReady(Bridge(), states, events, s, 0, procs, Draws()[n..]);
    HereIs(Bridge(), states, events, s, 0, procs, Draws()[n..]);
    assert Draws()[n..][0] == Draw(n);
    UnusedKey(Bridge(), states[|events|], Draw(n));
  }

  // ---- The steps ---------------------------------------------------------------------------------

  function Row(): AuthRequest {
    StoredRequest(Bridge(), GUEST.query, GUEST.signIn, 0, Draw(1))
  }

  function Consent(): ConsentRequest {
    hide *;
    StoredConsent(Bridge(), Row(), PERSON, 0, Draw(4))
  }

  function Form(): CodeForm {
    HonestForm(GUEST.query, Draw(7).a, GUEST.verifier)
  }

  function Code(): AuthorizationCode {
    hide *;
    StoredCode(CodeRowFromConsent(Bridge(), Consent(), 0, Draw(7)), Bridge(), 0)
  }

  function AuthorizeMarks(): seq<Mark> {
    [Came, Went(Arrived(Authorize(GUEST.query, GUEST.fetched)), Draw(0), false), Went(Bound(GUEST.query, GUEST.signIn), Draw(1), true)]
  }

  function CallbackMarks(): seq<Mark> {
    hide *;
    [Came, Went(Arrived(Callback("idp", GUEST.callback)), Draw(2), false), Went(Searching(GUEST.callback, {"idp"}), Draw(3), false),
     Went(Found(GUEST.callback, Row()), Draw(4), true), Went(Dropping(Row().id), Draw(5), false)]
  }

  function ConsentMarks(): seq<Mark> {
    hide *;
    [Came, Went(Arrived(ConsentAnswer(Consent().id, Consent().csrfToken, "approve")), Draw(6), false),
     Went(Matched(Consent(), Consent().csrfToken, "approve"), Draw(7), true), Went(DroppingConsent(Consent().id), Draw(8), false)]
  }

  function TokenMarks(): seq<Mark> {
    hide *;
    [Came, Went(Arrived(Exchange(Form())), Draw(9), false), Went(Redeemed(Code(), Form()), Draw(10), true)]
  }

  lemma AuthorizeSteps() returns (states: seq<Sys>, events: seq<Event>, s: Shared)
    ensures (hide *; Written(states, events, s, map[], 2, AuthorizeMarks()))
    ensures Row().id in s.db.requests && s.db.requests[Row().id] == Row()
  {
    hide Here, MarksOk, Bridge, Advance, HonestQuery, Known, StoredRequest;
    StartsWritten();
    s := BEGINNING.shared;
    var r, p := Authorize(GUEST.query, GUEST.fetched), Bound(GUEST.query, GUEST.signIn);
    states, events := Comes([BEGINNING], [], s, 0, [], r);
    BridgeWelcomes(s.db);
    PassesOn(Bridge(), s, GUEST.query, GUEST.fetched, GUEST.verifier, GUEST.signIn, 0, Draw(0));
    states, events := Goes(states, events, s, Arrived(r), 0, [] + [Came], Continue(s, p));
    var marks := [] + [Came] + [Went(Arrived(r), Draw(0), false)];
    KeysUnusedHere(states, events, s, map[0 := p], 1, marks);
    SendsToProvider(Bridge(), s, GUEST.query, GUEST.signIn, 0, Draw(1));
    var o := Advance(Bridge(), s, p, 0, Draw(1));
    states, events := Goes(states, events, s, p, 1, marks, o);
    assert marks + [Went(p, Draw(1), true)] == AuthorizeMarks();
    RowIs();
    s := o.shared;
  }

  lemma BridgeWelcomes(db: Db)
    ensures Welcome(Bridge(), db, GUEST)
    ensures HonestQuery(Bridge(), GUEST.query, GUEST.fetched, GUEST.verifier) && Known(Bridge(), db, GUEST.query, GUEST.fetched, GUEST.signIn)
  {
    hide HonestQuery, Known, Sample;
    SampleWelcome(true, db);
  }

  lemma StartsWritten()
    ensures (hide *; Written([BEGINNING], [], BEGINNING.shared, map[], 0, []))
  {
    hide Idle, Here, Advance, Step;
    SampleIdle(true);
    IdleIsHere(Bridge(), [BEGINNING], [], Draws());
    assert Draws()[0..] == Draws();
  }

  lemma RowIs()
    ensures (hide *; Row().id == Draw(1).a) && Row().backend == "idp" && Row().expiresAt > 0
    ensures HonestLogin(Bridge(), Row(), "idp", GUEST.callback, GUEST.login)
  {
    hide HonestLogin;
    GuestComesBack(true);
  }

  lemma CallbackSteps() returns (states: seq<Sys>, events: seq<Event>, s: Shared)
    ensures (hide *; Written(states, events, s, map[], 6, AuthorizeMarks() + CallbackMarks()))
    ensures Consent().id in s.db.consents && s.db.consents[Consent().id] == Consent()
  {
    hide Here, MarksOk, Bridge, Advance, HonestLogin, Waiting, Row, StoredConsent;
    states, events, s := AuthorizeSteps();
    RowIs();
    RowWaits(states, events, s, AuthorizeMarks());
    var q, row := GUEST.callback, Row();
    CallbackGoesOn(Bridge(), s, "idp", q, row, GUEST.login, 0, Draw(2));
    SearchStep(Bridge(), s, q, {"idp"}, row, 0, Draw(3));
    var marks := AuthorizeMarks();
    states, events := Comes(states, events, s, 2, marks, Callback("idp", q));
    marks := marks + [Came];
    states, events := Goes(states, events, s, Arrived(Callback("idp", q)), 2, marks, Continue(s, Searching(q, {"idp"})));
    marks := marks + [Went(Arrived(Callback("idp", q)), Draw(2), false)];
    states, events := Goes(states, events, s, Searching(q, {"idp"}), 3, marks, Continue(s, Found(q, row)));
    marks := marks + [Went(Searching(q, {"idp"}), Draw(3), false)];
    KeysUnusedHere(states, events, s, map[0 := Found(q, row)], 4, marks);
    LoginStep(Bridge(), s, "idp", q, row, GUEST.login, 0, Draw(4));
    var o := Advance(Bridge(), s, Found(q, row), 0, Draw(4));
    states, events := Goes(states, events, s, Found(q, row), 4, marks, o);
    BridgeAsks();
    ConsentIs();
    marks := marks + [Went(Found(q, row), Draw(4), true)];
    DropStep(Bridge(), o.shared, row.id, 0, Draw(5));
    var d := Advance(Bridge(), o.shared, Dropping(row.id), 0, Draw(5));
    states, events := Goes(states, events, o.shared, Dropping(row.id), 5, marks, d);
    assert marks + [Went(Dropping(row.id), Draw(5), false)] == AuthorizeMarks() + CallbackMarks();
    s := d.shared;
  }

  lemma RowWaits(states: seq<Sys>, events: seq<Event>, s: Shared, marks: seq<Mark>)
    requires (hide *; Written(states, events, s, map[], 2, marks)) && Row().id in s.db.requests && s.db.requests[Row().id] == Row()
    ensures Waiting(s.db, Row(), 0) && GUEST.callback.state == Row().backendState.state
  {
    hide Here, MarksOk, Bridge, Inv, Waiting, HonestLogin, Fresh, Advance, Step;
    HereReady(Bridge(), states, events, s, 0, map[], Draws()[2..]);
    HereIs(Bridge(), states, events, s, 0, map[], Draws()[2..]);
    RowIs();
    StoredNow(Bridge(), states[|events|], Row());
    StillWaiting(Bridge(), states[|events|], Row());
    StateMatches(Bridge(), Row(), "idp", GUEST.callback, GUEST.login);
  }

  lemma BridgeAsks()
    ensures Bridge().consentRequired
  {
  }

  lemma ConsentIs()
    ensures (hide *; Consent().id == Draw(4).a) && Consent().csrfToken == Draw(4).b && Consent().expiresAt > 0
  {
    Truncation(0, 10 * MINUTE);
  }

  lemma ConsentSteps() returns (states: seq<Sys>, events: seq<Event>, s: Shared)
    ensures (hide *; Written(states, events, s, map[], 9, AuthorizeMarks() + CallbackMarks() + ConsentMarks()))
    ensures Code().codeHash in s.db.codes && s.db.codes[Code().codeHash] == Code()
  {
    hide Here, MarksOk, Bridge, Advance, Consent, StoredCode, CodeRowFromConsent;
    states, events, s := CallbackSteps();
    var row, marks := Consent(), AuthorizeMarks() + CallbackMarks();
    var r, p := ConsentAnswer(row.id, row.csrfToken, "approve"), Matched(row, row.csrfToken, "approve");
    ConsentIs();
    MatchStep(Bridge(), s, row, 0, Draw(6));
    states, events := Comes(states, events, s, 6, marks, r);
    marks := marks + [Came];
    states, events := Goes(states, events, s, Arrived(r), 6, marks, Continue(s, p));
    marks := marks + [Went(Arrived(r), Draw(6), false)];
    KeysUnusedHere(states, events, s, map[0 := p], 7, marks);
    ApprovalStep(Bridge(), s, row, 0, Draw(7));
    CodeIs();
    var o := Advance(Bridge(), s, p, 0, Draw(7));
    states, events := Goes(states, events, s, p, 7, marks, o);
    marks := marks + [Went(p, Draw(7), true)];
    HonestVisits.DropConsentStep(Bridge(), o.shared, row.id, 0, Draw(8));
    var d := Advance(Bridge(), o.shared, DroppingConsent(row.id), 0, Draw(8));
    states, events := Goes(states, events, o.shared, DroppingConsent(row.id), 8, marks, d);
    assert marks + [Went(DroppingConsent(row.id), Draw(8), false)] == AuthorizeMarks() + CallbackMarks() + ConsentMarks();
    s := d.shared;
  }

  lemma CodeIs()
    ensures (hide *; Code().codeHash == HashToken(Bridge().lib, Draw(7).a)) && Code().expiresAt > 0 && CodeFor(Bridge(), GUEST.query, "me", Draw(7).a, Code())
  {
    Truncation(0, 10 * MINUTE);
  }

  lemma TokenSteps() returns (states: seq<Sys>, events: seq<Event>)
    ensures IsRun(Bridge(), states, events) && MarksOk(states, events, AllMarks()) && |states| == |events| + 1
  {
    hide Here, MarksOk, Bridge, Advance, Code, IsRun, CodeFor, AuthorizeMarks, CallbackMarks, ConsentMarks;
    var s;
    states, events, s := ConsentSteps();
    var marks := AuthorizeMarks() + CallbackMarks() + ConsentMarks();
    CodeIs();
    RedeemStep(Bridge(), s, GUEST.query, GUEST.verifier, "me", Draw(7).a, Code(), 0, Draw(9)) by {
      LibraryIs();
    }
    states, events := Comes(states, events, s, 9, marks, Exchange(Form()));
    marks := marks + [Came];
    var o := Advance(Bridge(), s, Arrived(Exchange(Form())), 0, Draw(9));
    states, events := Goes(states, events, s, Arrived(Exchange(Form())), 9, marks, o);
    marks := marks + [Went(Arrived(Exchange(Form())), Draw(9), false)];
    var p := Redeemed(Code(), Form());
    KeysUnusedHere(states, events, o.shared, map[0 := p], 10, marks);
    GrantStep(Bridge(), o.shared, Code(), Form(), 0, Draw(10));
    var g := Advance(Bridge(), o.shared, p, 0, Draw(10));
    states, events := Goes(states, events, o.shared, p, 10, marks, g);
    marks := marks + [Went(p, Draw(10), true)];
    states, events := Comes(states, events, g.shared, 11, marks, Introspect(Draw(10).a));
    marks := marks + [Came];
    var last := Advance(Bridge(), g.shared, Arrived(Introspect(Draw(10).a)), 0, Draw(11));
    states, events := Goes(states, events, g.shared, Arrived(Introspect(Draw(10).a)), 11, marks, last);
    Introspected(g.shared);
    assert marks + [Went(Arrived(Introspect(Draw(10).a)), Draw(11), true)] == AllMarks();
    HereIs(Bridge(), states, events, last.shared, 0, if last.next.Some? then map[0 := last.next.value] else map[], Draws()[12..]);
  }

  function AllMarks(): seq<Mark> {
    hide *;
    AuthorizeMarks() + CallbackMarks() + ConsentMarks() + TokenMarks() + [Came, Went(Arrived(Introspect(Draw(10).a)), Draw(11), true)]
  }

  lemma LibraryIs()
    ensures Bridge().lib == LIB && GUEST.query.challenge == LIB.digest(GUEST.verifier)
  {
  }

  lemma Introspected(s: Shared)
    ensures (hide *; Advance(Bridge(), s, Arrived(Introspect(Draw(10).a)), 0, Draw(11)).reply.Some?)
  {
    hide GetAccessToken;
  }

  // ---- What the steps say ------------------------------------------------------------------------

  ghost predicate Silent(mark: Mark) {
    mark.Came? || !mark.replied
  }

  lemma MarkServes(states: seq<Sys>, events: seq<Event>, marks: seq<Mark>, v: Served, r: Request)
    requires (hide *; MarksOk(states, events, marks)) && v.pid == 0 && v.first <= v.answer < |marks|
    requires marks[v.first].Went? && marks[v.first].p == Arrived(r) && marks[v.answer].Went? && marks[v.answer].replied
    requires forall i :: v.first <= i < v.answer ==> Silent(marks[i])
    ensures Serves(Bridge(), states, events, v, r)
  {
    hide Advance, Bridge;
    assert MarkOk(states, events, v.first, marks[v.first]) && MarkOk(states, events, v.answer, marks[v.answer]);
    forall i | v.first <= i < v.answer
      ensures !RepliesAt(Bridge(), states, events, i, 0)
    {
      assert MarkOk(states, events, i, marks[i]) && Silent(marks[i]);
    }
  }

  lemma MarkIs(states: seq<Sys>, events: seq<Event>, marks: seq<Mark>, i: nat)
    requires (hide Step, Advance; MarksOk(states, events, marks)) && i < |marks| && marks[i].Went?
    ensures events[i] == Event.Resume(0, marks[i].ch) && DrawAt(events, i) == marks[i].ch && states[i].now == 0
    ensures 0 in states[i].procs && states[i].procs[0] == marks[i].p
  {
    hide Advance, Bridge;
    assert MarkOk(states, events, i, marks[i]);
  }

  /** Only the marks that arrive bring anything. */
  lemma NobodyElse(states: seq<Sys>, events: seq<Event>)
    requires (hide *; MarksOk(states, events, AllMarks()))
    ensures !StateUsed(states, events, 6, 4, GUEST.callback.state)
    ensures !ConsentUsed(states, events, 9, Consent().id, Consent().csrfToken)
    ensures !CodeUsed(Bridge(), states, events, 13, HashToken(Bridge().lib, Draw(7).a))
    ensures |events| == 17 && |events| <= |states|
    ensures !Revokes(Bridge(), states[15], events[15], HashToken(Bridge().lib, Draw(10).a))
  {
    hide Advance, Bridge, Consent, Code, Row, Form, MarksOk;
    var marks := AllMarks();
    MarksStart(states, events);
    forall i: nat | i < 17 && i != 0 && i != 3 && i != 8 && i != 12 && i != 15
      ensures events[i] == Event.Resume(0, marks[i].ch) && 0 in states[i].procs && states[i].procs[0] == marks[i].p
    {
      MarkIs(states, events, marks, i);
    }
  }

  lemma MarksStart(states: seq<Sys>, events: seq<Event>)
    requires (hide *; MarksOk(states, events, AllMarks()))
    ensures |events| == 17 && |events| <= |states| && forall i :: i in {0, 3, 8, 12, 15} ==> events[i].Start?
  {
    hide Advance, Bridge, Consent, Code, Row, Form;
    var marks := AllMarks();
    assert MarkOk(states, events, 0, marks[0]) && MarkOk(states, events, 3, marks[3]) && MarkOk(states, events, 8, marks[8]);
    assert MarkOk(states, events, 12, marks[12]) && MarkOk(states, events, 15, marks[15]);
  }

  lemma AskingMet(states: seq<Sys>, events: seq<Event>)
    requires (hide Step, Advance; MarksOk(states, events, AllMarks()))
    ensures Asking(Bridge(), states, events, GUEST, Served(0, 1, 2)) && RowAt(Bridge(), states, events, GUEST, Served(0, 1, 2)) == Row()
    ensures states[2].now == 0
  {
    hide Advance, Bridge, MarksOk, Serves, Welcome, Consent, Code, Form, StoredRequest;
    var marks := AllMarks();
    MarksStart(states, events);
    MarkServes(states, events, marks, Served(0, 1, 2), Authorize(GUEST.query, GUEST.fetched));
    MarkIs(states, events, marks, 2);
    BridgeWelcomes(states[1].shared.db);
  }

  lemma ReturningMet(states: seq<Sys>, events: seq<Event>)
    requires (hide Step, Advance; MarksOk(states, events, AllMarks()))
    ensures Returning(Bridge(), states, events, GUEST, Served(0, 1, 2), Served(0, 4, 6))
    ensures DrawAt(events, 6) == Draw(4) && states[6].now == 0
  {
    hide Advance, Bridge, MarksOk, Serves, Welcome, Consent, Code, Form, Row, RowAt, StateUsed, HonestLogin, Asking, Consent, CodeUsed;
    var marks := AllMarks();
    MarksStart(states, events);
    AskingMet(states, events);
    MarkServes(states, events, marks, Served(0, 4, 6), Callback("idp", GUEST.callback));
    MarkIs(states, events, marks, 6);
    RowIs();
    NobodyElse(states, events);
    Lifetimes();
  }

  lemma Lifetimes()
    ensures Bridge().requestTtl > SECOND && Bridge().codeTtl > SECOND && Bridge().tokenTtl > SECOND && Bridge().consentRequired
  {
  }

  lemma ApprovingMet(states: seq<Sys>, events: seq<Event>)
    requires (hide Step, Advance; MarksOk(states, events, AllMarks()))
    ensures Approving(Bridge(), states, events, Served(0, 4, 6), Served(0, 9, 10))
    ensures DrawAt(events, 10) == Draw(7) && states[10].now == 0
  {
    hide Advance, Bridge, MarksOk, Serves, Consent, Code, Form, Row, ConsentUsed, StateUsed, CodeUsed, Returning;
    var marks := AllMarks();
    MarksStart(states, events);
    ReturningMet(states, events);
    ConsentIs();
    MarkServes(states, events, marks, Served(0, 9, 10), ConsentAnswer(Consent().id, Consent().csrfToken, "approve"));
    MarkIs(states, events, marks, 9);
    MarkIs(states, events, marks, 10);
    NobodyElse(states, events);
    Lifetimes();
  }

  lemma ExchangingMet(states: seq<Sys>, events: seq<Event>)
    requires (hide Step, Advance; MarksOk(states, events, AllMarks()))
    ensures Exchanging(Bridge(), states, events, GUEST, 10, Served(0, 13, 14))
    ensures DrawAt(events, 14) == Draw(10) && states[14].now == 0
  {
    hide Advance, Bridge, MarksOk, Serves, Consent, Code, Row, CodeUsed, StateUsed, ConsentUsed, Approving;
    var marks := AllMarks();
    MarksStart(states, events);
    ApprovingMet(states, events);
    MarkServes(states, events, marks, Served(0, 13, 14), Exchange(Form()));
    MarkIs(states, events, marks, 13);
    MarkIs(states, events, marks, 14);
    NobodyElse(states, events);
    Lifetimes();
  }

  lemma CheckingMet(states: seq<Sys>, events: seq<Event>)
    requires (hide *; MarksOk(states, events, AllMarks())) && |states| == |events| + 1
    ensures Checking(Bridge(), states, events, Served(0, 13, 14), 16)
  {
    hide Advance, Bridge, MarksOk, Consent, Code, Row, Form, CodeUsed, StateUsed, ConsentUsed, Exchanging, Revokes;
    var marks := AllMarks();
    MarksStart(states, events);
    ExchangingMet(states, events);
    MarkIs(states, events, marks, 16);
    NobodyElse(states, events);
    Lifetimes();
  }

  /** A run that meets every condition of an honest sign-in. */
  lemma HonestSignInHappens() returns (states: seq<Sys>, events: seq<Event>, a: Served, b: Served, c: Served, d: Served, e: nat)
    ensures IsRun(Bridge(), states, events) && CanonicalLaw(Bridge().lib)
    ensures SigningIn(Bridge(), states, events, GUEST, a, b, c)
    ensures Exchanging(Bridge(), states, events, GUEST, IssuedAt(Bridge(), b, c), d)
    ensures Checking(Bridge(), states, events, d, e)
  {
    hide IsRun, Advance, Bridge, MarksOk, Asking, Returning, Approving, Exchanging, Checking, CanonicalLaw, AllMarks;
    states, events := TokenSteps();
    a, b, c, d, e := Served(0, 1, 2), Served(0, 4, 6), Served(0, 9, 10), Served(0, 13, 14), 16;
    AskingMet(states, events);
    ReturningMet(states, events);
    ApprovingMet(states, events);
    ExchangingMet(states, events);
    CheckingMet(states, events);
    Lifetimes();
    BridgeIsCanonical();
  }

  lemma BridgeIsCanonical()
    ensures CanonicalLaw(Bridge().lib)
  {
    hide CanonicalLaw;
    SampleIsCanonical(true);
  }
}
