/**
 A request served from beginning to end is part of a run: the handlers of
 `Server`, which do what `Drive` says, extend any run by steps of its own,
 so what holds of all runs holds of any sequence of handler calls.
 */
module Service {
  import opened Prelude
  import opened Library
  import opened Config
  import opened Handlers
  import opened Runs
  import opened Traces
  import opened Atomic
  import opened Serial

  /** Every draw is new: to the run, and to the draws before it. */
  ghost predicate AllFresh(cfg: Config, issued: set<string>, digests: set<string>, draws: seq<Choice>)
    decreases |draws|
  {
    if draws == [] then true
    else
      var ch := draws[0];
      && ch.a !in issued && ch.b !in issued && ch.c !in issued && ch.a != ch.b && ch.a != ch.c && ch.b != ch.c
      && HashToken(cfg.lib, ch.a) !in digests
      && AllFresh(cfg, issued + {ch.a, ch.b, ch.c}, digests + {HashToken(cfg.lib, ch.a)}, draws[1..])
  }

  /** All secrets drawn, and the hashes of those kept hashed. */
  function Secrets(draws: seq<Choice>): set<string> {
    if draws == [] then {} else {draws[0].a, draws[0].b, draws[0].c} + Secrets(draws[1..])
  }

  function Hashes(cfg: Config, draws: seq<Choice>): set<string> {
    if draws == [] then {} else {HashToken(cfg.lib, draws[0].a)} + Hashes(cfg, draws[1..])
  }

  /** At most these draws went into the secrets of `t`. */
  predicate DrewFrom(cfg: Config, s: Sys, t: Sys, draws: seq<Choice>) {
    t.issued <= s.issued + Secrets(draws) && t.digests <= s.digests + Hashes(cfg, draws)
  }

  /** What is left of fresh draws stays fresh. */
  lemma {:induction false} RestFresh(cfg: Config, s: Sys, t: Sys, draws: seq<Choice>, rest: seq<Choice>)
    requires AllFresh(cfg, s.issued, s.digests, draws + rest) && DrewFrom(cfg, s, t, draws)
    ensures AllFresh(cfg, t.issued, t.digests, rest)
    decreases |draws|
  {
    if draws == [] {
      assert draws + rest == rest;
      FewerDrawn(cfg, s.issued, s.digests, t.issued, t.digests, rest);
    } else {
      var ch := draws[0];
      assert (draws + rest)[1..] == draws[1..] + rest;
      RestFresh(cfg, s.(issued := s.issued + {ch.a, ch.b, ch.c}, digests := s.digests + {HashToken(cfg.lib, ch.a)}), t, draws[1..], rest);
    }
  }

  lemma {:induction false} FewerDrawn(cfg: Config, issued: set<string>, digests: set<string>, issued': set<string>, digests': set<string>, draws: seq<Choice>)
    requires AllFresh(cfg, issued, digests, draws) && issued' <= issued && digests' <= digests
    ensures AllFresh(cfg, issued', digests', draws)
    decreases |draws|
  {
    if draws != [] {
      var ch := draws[0];
      FewerDrawn(cfg, issued + {ch.a, ch.b, ch.c}, digests + {HashToken(cfg.lib, ch.a)},
                 issued' + {ch.a, ch.b, ch.c}, digests' + {HashToken(cfg.lib, ch.a)}, draws[1..]);
    }
  }

  lemma {:induction false} FirstFresh(cfg: Config, issued: set<string>, digests: set<string>, draws: seq<Choice>, rest: seq<Choice>)
    requires AllFresh(cfg, issued, digests, draws + rest)
    ensures AllFresh(cfg, issued, digests, draws)
    decreases |draws|
  {
    if draws != [] {
      var ch := draws[0];
      assert (draws + rest)[1..] == draws[1..] + rest;
      FirstFresh(cfg, issued + {ch.a, ch.b, ch.c}, digests + {HashToken(cfg.lib, ch.a)}, draws[1..], rest);
    }
  }

  /** The run goes on with steps of request `pid` alone. */
  ghost predicate Extends(states: seq<Sys>, events: seq<Event>, states': seq<Sys>, events': seq<Event>, pid: nat) {
    && |events| <= |events'| && |states| <= |states'| && states'[..|states|] == states && events'[..|events|] == events
    && forall i :: |events| <= i < |events'| ==> events'[i].Resume? && events'[i].pid == pid
  }

  ghost predicate LongerBy(states: seq<Sys>, events: seq<Event>, states': seq<Sys>, events': seq<Event>) {
    && |states| <= |states'| && states'[..|states|] == states
    && |events| <= |events'| && events'[..|events|] == events
  }

  /** The codes that callbacks bring back from the provider, in the order the callbacks start. */
  function ProviderCodes(events: seq<Event>): seq<string> {
    if events == [] then []
    else
      var e := events[|events| - 1];
      ProviderCodes(events[..|events| - 1]) + if e.Start? then CodeIn(e.request) else []
  }

  function CodeIn(r: Request): seq<string> {
    if r.Callback? then [r.callback.code] else []
  }

  lemma OneMoreEvent(events: seq<Event>, e: Event)
    ensures ProviderCodes(events + [e]) == ProviderCodes(events) + if e.Start? then CodeIn(e.request) else []
  {
    assert (events + [e])[..|events|] == events;
  }

  lemma {:induction false} ResumesBringNoCodes(states: seq<Sys>, events: seq<Event>, states': seq<Sys>, events': seq<Event>, pid: nat, n: nat)
    requires Extends(states, events, states', events', pid) && |events| <= n <= |events'|
    ensures ProviderCodes(events'[..n]) == ProviderCodes(events)
    decreases n
  {
    if n > |events| {
      ResumesBringNoCodes(states, events, states', events', pid, n - 1);
      assert events'[..n][..n - 1] == events'[..n - 1];
    }
  }

  lemma OneRequestBrings(states: seq<Sys>, events: seq<Event>, states': seq<Sys>, events': seq<Event>, pid: nat, r: Request)
    requires Extends(states, events + [Start(pid, r)], states', events', pid)
    ensures ProviderCodes(events') == ProviderCodes(events) + CodeIn(r)
  {
    hide ProviderCodes, CodeIn;
    OneMoreEvent(events, Start(pid, r));
    ResumesBringNoCodes(states, events + [Start(pid, r)], states', events', pid, |events'|);
    assert events'[..|events'|] == events';
  }

  /** Step `i` answers `reply`. */
  ghost predicate AnswersAt(cfg: Config, states: seq<Sys>, events: seq<Event>, i: nat, reply: Option<Reply>) {
    hide *;
    i < |events| && i < |states| && Enabled(cfg, states[i], events[i]) && ReplyOf(cfg, states[i], events[i]) == reply
  }

  /** One of the run's steps from `from` on answers `reply`, if it is an answer. */
  ghost predicate Answers(cfg: Config, states: seq<Sys>, events: seq<Event>, from: nat, reply: Option<Reply>) {
    reply.Some? ==> exists i :: from <= i && AnswersAt(cfg, states, events, i, reply)
  }

  lemma OneMoreStep(cfg: Config, states: seq<Sys>, events: seq<Event>, pid: nat, ch: Choice)
    requires (hide Step, Advance; IsRun(cfg, states, events))
    requires var s := states[|events|]; pid in s.procs && Fresh(cfg, s, ch) && ChoiceOk(s.procs[pid], ch)
    ensures var s := states[|events|];
            var o := Advance(cfg, s.shared, s.procs[pid], s.now, ch);
            var t := Commit(cfg, s, pid, ch, o);
            && IsRun(cfg, states + [t], events + [Resume(pid, ch)])
            && Enabled(cfg, s, Resume(pid, ch)) && ReplyOf(cfg, s, Resume(pid, ch)) == o.reply
            && t.shared == o.shared && t.now == s.now && t.issued == s.issued + {ch.a, ch.b, ch.c} && t.digests == s.digests + {HashToken(cfg.lib, ch.a)}
            && t.procs == SetProc(s.procs, pid, o.next)
  {
    hide Advance, Initial, ChoiceOk, Fresh, Commit;
    var s := states[|events|];
    LongerRun(cfg, states, events, Resume(pid, ch));
    CommitParts(cfg, s, pid, ch, Advance(cfg, s.shared, s.procs[pid], s.now, ch));
  }

  lemma CommitParts(cfg: Config, s: Sys, pid: nat, ch: Choice, o: Outcome)
    ensures var t := Commit(cfg, s, pid, ch, o);
            && t.shared == o.shared && t.now == s.now && t.issued == s.issued + {ch.a, ch.b, ch.c} && t.digests == s.digests + {HashToken(cfg.lib, ch.a)}
            && t.procs == SetProc(s.procs, pid, o.next)
  {
    hide SetProc, Record, HashToken;
  }

  /** What a request in flight does when it is driven to its end is done by a run. */
  lemma {:induction false} DriveIsRun(cfg: Config, states: seq<Sys>, events: seq<Event>, pid: nat, p: Proc, draws: seq<Choice>)
    returns (states': seq<Sys>, events': seq<Event>)
    requires (hide Step, Advance; IsRun(cfg, states, events))
    requires var s := states[|events|];
             && pid in s.procs && s.procs[pid] == p && Orderly(cfg, s.shared, p, s.now, draws)
             && AllFresh(cfg, s.issued, s.digests, draws)
    ensures IsRun(cfg, states', events') && Extends(states, events, states', events', pid)
    ensures var s, t := states[|events|], states'[|events'|];
            && t.shared == Drive(cfg, s.shared, p, s.now, draws).0 && t.now == s.now && t.procs == s.procs - {pid}
            && Answers(cfg, states', events', |events|, Drive(cfg, s.shared, p, s.now, draws).1)
            && DrewFrom(cfg, s, t, draws)
    decreases |draws|
  {
    hide Advance, Drive, Initial, Enabled, Step, Commit, ReplyOf, HashToken, Secrets, Hashes;
    SecretsUnfold(cfg, draws);
    var s, ch := states[|events|], draws[0];
    OneMoreStep(cfg, states, events, pid, ch);
    var o := Advance(cfg, s.shared, p, s.now, ch);
    var t := Commit(cfg, s, pid, ch, o);
    if o.next.None? {
      states', events' := states + [t], events + [Resume(pid, ch)];
      DriveLast(cfg, s.shared, p, s.now, draws);
      assert AnswersAt(cfg, states', events', |events|, o.reply);
    } else {
      DriveMore(cfg, s.shared, p, s.now, draws);
      states', events' := DriveIsRun(cfg, states + [t], events + [Resume(pid, ch)], pid, o.next.value, draws[1..]);
      ExtendsMore(states, events, t, Resume(pid, ch), states', events', pid);
      FirstAnswer(cfg, states, events, t, Resume(pid, ch), states', events', pid, o.reply);
    }
  }

  lemma SecretsUnfold(cfg: Config, draws: seq<Choice>)
    requires draws != []
    ensures Secrets(draws) == {draws[0].a, draws[0].b, draws[0].c} + Secrets(draws[1..])
    ensures Hashes(cfg, draws) == {HashToken(cfg.lib, draws[0].a)} + Hashes(cfg, draws[1..])
  {
  }

  lemma ExtendsMore(states: seq<Sys>, events: seq<Event>, t: Sys, e: Event, states': seq<Sys>, events': seq<Event>, pid: nat)
    requires Extends(states + [t], events + [e], states', events', pid) && e.Resume? && e.pid == pid
    ensures Extends(states, events, states', events', pid)
  {
    assert states'[..|states|] == (states + [t])[..|states|];
    assert events'[..|events|] == (events + [e])[..|events|];
    assert events'[|events|] == (events + [e])[|events|];
  }

  /** What the first of the added steps answered, it answers in the whole. */
  lemma FirstAnswer(cfg: Config, states: seq<Sys>, events: seq<Event>, t: Sys, e: Event, states': seq<Sys>, events': seq<Event>, pid: nat,
                    reply: Option<Reply>)
    requires (hide *; |states| == |events| + 1) && Extends(states + [t], events + [e], states', events', pid)
    requires Enabled(cfg, states[|events|], e) && ReplyOf(cfg, states[|events|], e) == reply
    ensures Answers(cfg, states', events', |events|, reply)
  {
    hide Enabled, ReplyOf;
    assert states'[|events|] == (states + [t])[|events|];
    assert events'[|events|] == (events + [e])[|events|];
    assert AnswersAt(cfg, states', events', |events|, reply);
  }

  /**
   Any run, with a request served from arrival to end as the handlers of `Server` serve it, goes on
   as a run: the tables and sealed values are those the handler leaves, its answer is given, and
   nothing else in flight has moved. If the run was serial and idle it still is.
   */
  lemma ServedIsRun(cfg: Config, states: seq<Sys>, events: seq<Event>, pid: nat, r: Request, draws: seq<Choice>)
    returns (states': seq<Sys>, events': seq<Event>)
    requires (hide Step, Advance; IsRun(cfg, states, events))
    requires var s := states[|events|];
             && pid !in s.procs && Orderly(cfg, s.shared, Arrived(r), s.now, draws)
             && AllFresh(cfg, s.issued, s.digests, draws)
    ensures IsRun(cfg, states', events') && LongerBy(states, events, states', events')
    ensures var s, t := states[|events|], states'[|events'|];
            && t.shared == Drive(cfg, s.shared, Arrived(r), s.now, draws).0 && t.now == s.now && t.procs == s.procs
            && Answers(cfg, states', events', |events|, Drive(cfg, s.shared, Arrived(r), s.now, draws).1)
            && DrewFrom(cfg, s, t, draws)
    ensures ProviderCodes(events') == ProviderCodes(events) + CodeIn(r)
    ensures IsSerial(states, events) && states[|events|].procs == map[] ==> IsSerial(states', events')
  {
    hide Advance, Drive, Initial, AllFresh, Orderly, Answers, Fresh, OutcomeOf, ProviderCodes, CodeIn;
    var s := states[|events|];
    LongerRun(cfg, states, events, Start(pid, r));
    var t := s.(procs := s.procs[pid := Arrived(r)]);
    states', events' := DriveIsRun(cfg, states + [t], events + [Start(pid, r)], pid, Arrived(r), draws);
    OneRequestBrings(states + [t], events, states', events', pid, r);
    assert s.procs[pid := Arrived(r)] - {pid} == s.procs;
    AnswersSooner(cfg, states', events', |events| + 1, |events|, Drive(cfg, s.shared, Arrived(r), s.now, draws).1);
    assert states'[..|states|] == (states + [t])[..|states|];
    assert events'[..|events|] == (events + [Start(pid, r)])[..|events|];
    if IsSerial(states, events) && s.procs == map[] {
      StaysSerial(states, events, t, Start(pid, r), states', events', pid);
    }
  }

  lemma AnswersSooner(cfg: Config, states: seq<Sys>, events: seq<Event>, from: nat, sooner: nat, reply: Option<Reply>)
    requires Answers(cfg, states, events, from, reply) && sooner <= from
    ensures Answers(cfg, states, events, sooner, reply)
  {
    hide AnswersAt;
  }

  lemma StaysSerial(states: seq<Sys>, events: seq<Event>, t: Sys, e: Event, states': seq<Sys>, events': seq<Event>, pid: nat)
    requires |states| == |events| + 1 && Extends(states + [t], events + [e], states', events', pid)
    requires IsSerial(states, events) && states[|events|].procs == map[]
    ensures IsSerial(states', events')
  {
    forall i | 0 <= i < |events'| && i < |states'| && (events'[i].Start? || events'[i].Tick?)
      ensures states'[i].procs == map[]
    {
      if i <= |events| {
        assert states'[i] == states'[..|states| + 1][i] == (states + [t])[i] == states[i];
        assert events'[i] == events'[..|events| + 1][i] == (events + [e])[i];
      }
    }
  }
}
