/** Reading a run backwards: the step that brought a request to where it is, and the step that stored a record. */
module Traces {
  import opened Prelude
  import opened Library
  import opened Config
  import opened Tables
  import opened Handlers
  import opened Runs
  import opened Invariant
  import opened HistorySteps
  import opened Preservation

  /** Step `i` belongs to request `pid`, which is at `p` and draws `ch`. */
  ghost predicate StepOf(cfg: Config, states: seq<Sys>, events: seq<Event>, i: nat, pid: nat, ch: Choice, p: Proc) {
    && i < |events| && |states| == |events| + 1
    && events[i] == Resume(pid, ch)
    && pid in states[i].procs && states[i].procs[pid] == p
    && Fresh(cfg, states[i], ch)
  }

  ghost function OutcomeAt(cfg: Config, states: seq<Sys>, i: nat, p: Proc, ch: Choice): Outcome
    requires (hide *; i < |states|)
  {
    Advance(cfg, states[i].shared, p, states[i].now, ch)
  }

  lemma StatesOfRun(cfg: Config, states: seq<Sys>, events: seq<Event>)
    requires IsRun(cfg, states, events)
    ensures |states| == |events| + 1
  {
    hide Initial, Enabled, Step;
  }

  lemma OneStep(cfg: Config, states: seq<Sys>, events: seq<Event>, i: nat)
    requires (hide Step, Advance; IsRun(cfg, states, events)) && i < |events|
    ensures Enabled(cfg, states[i], events[i]) && states[i + 1] == Step(cfg, states[i], events[i])
  {
    hide Initial, Enabled, Step;
  }

  lemma ResumeStep(cfg: Config, states: seq<Sys>, events: seq<Event>, i: nat)
    requires (hide Step, Advance; IsRun(cfg, states, events)) && i < |events| && events[i].Resume?
    ensures var Resume(pid, ch) := events[i];
            && pid in states[i].procs && ChoiceOk(states[i].procs[pid], ch)
            && StepOf(cfg, states, events, i, pid, ch, states[i].procs[pid])
            && states[i + 1] == Commit(cfg, states[i], pid, ch, OutcomeAt(cfg, states, i, states[i].procs[pid], ch))
            && ReplyOf(cfg, states[i], events[i]) == OutcomeAt(cfg, states, i, states[i].procs[pid], ch).reply
  {
    hide Advance, Fresh, Commit, Initial, ChoiceOk;
    OneStep(cfg, states, events, i);
  }

  /** A request past its arrival got there by one of its own steps, and has stayed there since. */
  lemma {:induction false} ProcSource(cfg: Config, states: seq<Sys>, events: seq<Event>, j: nat, pid: nat)
    returns (i: nat, ch: Choice, q: Proc)
    requires (hide *; IsRun(cfg, states, events)) && j < |states|
    requires pid in states[j].procs && !states[j].procs[pid].Arrived?
    ensures i < j && StepOf(cfg, states, events, i, pid, ch, q)
    ensures OutcomeAt(cfg, states, i, q, ch).next == Some(states[j].procs[pid])
    ensures forall m :: i < m <= j ==> pid in states[m].procs && states[m].procs[pid] == states[j].procs[pid]
  {
    hide Advance, Fresh, Enabled, ChoiceOk;
    if j > 0 {
      OneStep(cfg, states, events, j - 1);
      if events[j - 1].Resume? {
        ResumeStep(cfg, states, events, j - 1);
      }
      if events[j - 1].Resume? && events[j - 1].pid == pid {
        i, ch, q := j - 1, events[j - 1].choice, states[j - 1].procs[pid];
      } else {
        i, ch, q := ProcSource(cfg, states, events, j - 1, pid);
      }
    }
  }

  /** The history holds what `n` records, dated `at`. */
  ghost predicate Shows(h: History, n: Note, at: int) {
    match n
    case RequestStored(row, query, source) => row.id in h.requests && h.requests[row.id] == RequestOrigin(row, query, source, at)
    case ConsentStored(row, requestId, login) => row.id in h.consents && h.consents[row.id] == ConsentOrigin(row, requestId, login, at)
    case CodeStored(row, cause) => row.codeHash in h.codes && h.codes[row.codeHash] == CodeOrigin(row, cause, at)
    case TokenStored(row, codeHash, form) => row.tokenHash in h.tokens && h.tokens[row.tokenHash] == TokenOrigin(row, codeHash, form, at)
    case SetupLogin(credential, owner) => credential in h.logins && h.logins[credential] == LoginOrigin(owner, at)
    case _ => false
  }

  lemma NewlyShown(h: History, pid: nat, now: int, m: Note, n: Note, at: int)
    requires !Shows(h, n, at) && Shows(Record(h, pid, now, m), n, at)
    ensures m == n && now == at
  {
  }

  /** Every record was made by a step, at the time it is dated. */
  lemma {:induction false} NoteSource(cfg: Config, states: seq<Sys>, events: seq<Event>, j: nat, n: Note, at: int)
    returns (i: nat, pid: nat, ch: Choice, p: Proc)
    requires (hide *; IsRun(cfg, states, events)) && j < |states| && Shows(states[j].hist, n, at)
    ensures i < j && StepOf(cfg, states, events, i, pid, ch, p)
    ensures OutcomeAt(cfg, states, i, p, ch).note == n && states[i].now == at
  {
    hide Advance, Fresh, Enabled, ChoiceOk, Shows;
    if j == 0 {
      assert Initial(states[0]);
      NothingShown(n, at);
    } else {
      OneStep(cfg, states, events, j - 1);
      if Shows(states[j - 1].hist, n, at) {
        i, pid, ch, p := NoteSource(cfg, states, events, j - 1, n, at);
      } else {
        assert events[j - 1].Resume?;
        ResumeStep(cfg, states, events, j - 1);
        i, pid, ch := j - 1, events[j - 1].pid, events[j - 1].choice;
        p := states[i].procs[pid];
        NewlyShown(states[i].hist, pid, states[i].now, OutcomeAt(cfg, states, i, p, ch).note, n, at);
      }
    }
  }

  lemma NothingShown(n: Note, at: int)
    ensures !Shows(History(map[], map[], map[], map[], map[], map[], {}, map[], map[], []), n, at)
  {
  }

  /** The invariant and the state of one request, where it takes a step. */
  lemma StepInv(cfg: Config, states: seq<Sys>, events: seq<Event>, i: nat, pid: nat, ch: Choice, p: Proc)
    requires (hide Step, Advance; IsRun(cfg, states, events)) && StepOf(cfg, states, events, i, pid, ch, p)
    ensures Inv(cfg, states[i]) && Ready(cfg, states[i], ch) && ProcOk(cfg, states[i].hist, pid, states[i].now, p)
  {
    hide Inv, Fresh, ProcOk, Advance, Step;
    RunKeepsInv(cfg, states, events, i);
    InFlightOk(cfg, states[i], pid);
  }

  /** What a step records, it has established. */
  lemma StepNoteOk(cfg: Config, states: seq<Sys>, events: seq<Event>, i: nat, pid: nat, ch: Choice, p: Proc)
    requires (hide Step, Advance; IsRun(cfg, states, events)) && StepOf(cfg, states, events, i, pid, ch, p)
    ensures NoteOk(cfg, states[i].hist, pid, states[i].now, OutcomeAt(cfg, states, i, p, ch).note)
  {
    hide Inv, Fresh, ProcOk, Advance, Kept, NoteOk;
    StepInv(cfg, states, events, i, pid, ch, p);
    AdvanceGood(cfg, states[i], pid, ch);
  }

  // ---- Later histories ----------------------------------------------------------------------

  predicate Settled(f: Fate) {
    f.Exchanged? || f.Answered? || f.Burnt?
  }

  /** `g` is a later history: nothing was forgotten, and no settled fate changed. */
  ghost predicate Later(h: History, g: History) {
    && SubMap(h.requests, g.requests) && SubMap(h.consents, g.consents) && SubMap(h.codes, g.codes)
    && SubMap(h.tokens, g.tokens) && SubMap(h.logins, g.logins) && SubMap(h.owners, g.owners) && SubMap(h.presented, g.presented)
    && h.revoked <= g.revoked && h.edits <= g.edits
    && h.fates.Keys <= g.fates.Keys
    && (forall k :: k in h.fates && Settled(h.fates[k]) ==> g.fates[k] == h.fates[k])
  }

  lemma GrowsIsLater(h: History, g: History, pid: nat)
    requires Grows(h, g, pid)
    ensures Later(h, g)
  {
  }

  lemma LaterAgain(h: History, g: History, f: History)
    requires Later(h, g) && Later(g, f)
    ensures Later(h, f)
  {
    hide Advance, Step;
  }

  lemma StepIsLater(cfg: Config, states: seq<Sys>, events: seq<Event>, i: nat)
    requires (hide Step, Advance; IsRun(cfg, states, events)) && i < |events|
    ensures Later(states[i].hist, states[i + 1].hist) && states[i].now <= states[i + 1].now
  {
    hide Advance, Fresh, Inv, IsRun, Grows, ChoiceOk, NoteOk, Purge;
    OneStep(cfg, states, events, i);
    if events[i].Resume? {
      var pid, ch := events[i].pid, events[i].choice;
      ResumeStep(cfg, states, events, i);
      hide Later;
      StepNoteOk(cfg, states, events, i, pid, ch, states[i].procs[pid]);
      RunKeepsInv(cfg, states, events, i);
      RecordLater(cfg, states[i], pid, OutcomeAt(cfg, states, i, states[i].procs[pid], ch).note);
    }
  }

  lemma RecordLater(cfg: Config, s: Sys, pid: nat, n: Note)
    requires Inv(cfg, s) && NoteOk(cfg, s.hist, pid, s.now, n)
    ensures Later(s.hist, Record(s.hist, pid, s.now, n))
  {
    hide NoteOk, Traced, Kept, SecretsDrawn, ProcsOk, Record, Later, Grows;
    RecordGrows(cfg, s.hist, pid, s.now, n);
    GrowsIsLater(s.hist, Record(s.hist, pid, s.now, n), pid);
  }

  /** Over a run the clock and the history only move forward. */
  lemma {:induction false} RunGrows(cfg: Config, states: seq<Sys>, events: seq<Event>, i: nat, j: nat)
    requires (hide *; IsRun(cfg, states, events)) && i <= j < |states|
    ensures Later(states[i].hist, states[j].hist) && states[i].now <= states[j].now
    decreases j - i
  {
    hide Initial, Enabled, Step;
    if i < j {
      hide Later;
      RunGrows(cfg, states, events, i, j - 1);
      StepIsLater(cfg, states, events, j - 1);
      LaterAgain(states[i].hist, states[j - 1].hist, states[j].hist);
    }
  }

  // ---- Longer runs -----------------------------------------------------------------------

  lemma EmptyRun(cfg: Config, s: Sys)
    requires Initial(s)
    ensures IsRun(cfg, [s], [])
  {
    hide Initial, Advance, Step;
  }

  lemma LongerRun(cfg: Config, states: seq<Sys>, events: seq<Event>, e: Event)
    requires (hide Step, Advance; IsRun(cfg, states, events)) && Enabled(cfg, states[|events|], e)
    ensures IsRun(cfg, states + [Step(cfg, states[|events|], e)], events + [e])
  {
    hide Initial, Enabled, Step;
  }
}
