/**
 What a run of the agent asks of the outside world on behalf of one job id. The worker makes
 the calls of a job while it processes it; they are counted from the moment it takes the job.
 */
module AgentCalls {
  import opened Common
  import opened Protocol
  import opened Queue
  import opened Server
  import opened Worker
  import opened PrintAgent
  import opened AgentQueue
  import opened AgentDelivery
  import opened AgentTheorems

  /** The step takes a job with this id from the queue. */
  predicate Takes(s: State, step: Step, id: string) {
    step.Pop? && s.queue.pending != [] && s.queue.pending[0].job.jobId == id
  }

  function CourseTaken(codecs: Codecs, s: State, step: Step, id: string): Course
    requires Takes(s, step, id)
  {
    JobCourse(codecs, s.queue.pending[0], step.config, step.world)
  }

  /** Every call of the first `n` steps on behalf of this id. */
  function Asked(codecs: Codecs, states: seq<State>, steps: seq<Step>, n: nat, id: string): seq<Call>
    requires n <= |steps| < |states|
  {
    if n == 0 then []
    else
      Asked(codecs, states, steps, n - 1, id)
      + (if Takes(states[n - 1], steps[n - 1], id)
         then CourseTaken(codecs, states[n - 1], steps[n - 1], id).calls else [])
  }

  /** Everything emitted or still to be emitted about a job that has been taken. */
  function WholeOf(id: string, s: State): seq<Event> {
    About({id}, s.events)
    + (if s.worker.Processing? && s.worker.job.job.jobId == id then s.worker.script else [])
  }

  /** What taking the job at step `m` decided: the calls for it, and its whole trace. */
  ghost predicate Decided(
    codecs: Codecs, states: seq<State>, steps: seq<Step>, n: nat, id: string, m: nat)
    requires n <= |steps| < |states|
  {
    && m < n && Takes(states[m], steps[m], id)
    && Asked(codecs, states, steps, n, id) == CourseTaken(codecs, states[m], steps[m], id).calls
    && WholeOf(id, states[n])
       == Trace(codecs, states[m].queue.pending[0], steps[m].config, steps[m].world)
  }

  // ----- One step -----

  /** A job that is being taken has not been taken before, and nothing has been said about it. */
  lemma TakenIsNew(codecs: Codecs, s: State, step: Step, id: string)
    requires Enabled(s, step) && Takes(s, step, id)
    requires Conservation(s) && Traced(codecs, s)
    ensures id !in IdsOf(Taken(s))
    ensures About({id}, s.events) == []
  {
    hide BatchesContiguous, IsTrace, About;
    var taken := Taken(s);
    assert s.accepted == taken + s.queue.pending;
    assert s.accepted[|taken|] == s.queue.pending[0];
    forall i | 0 <= i < |taken| ensures taken[i].job.jobId != id {
      assert s.accepted[i] == taken[i];
    }
    NothingAboutAbsent(id, s.events);
  }

  /** Taking a job decides its whole trace. */
  lemma TakingDecides(codecs: Codecs, s: State, step: Step, id: string)
    requires Enabled(s, step) && Takes(s, step, id)
    requires Conservation(s) && Traced(codecs, s)
    ensures var t := Do(codecs, s, step);
            && id in IdsOf(Taken(t))
            && WholeOf(id, t) == Trace(codecs, s.queue.pending[0], step.config, step.world)
  {
    hide Trace, Conservation, Traced, About;
    var t := Do(codecs, s, step);
    TakenIsNew(codecs, s, step, id);
    assert s.queue.pending[0] in Taken(t);
  }

  /** Emitting an event moves it from what is still to be said to what has been said. */
  lemma EmittingKeepsWhole(codecs: Codecs, s: State, id: string)
    requires Enabled(s, Emit) && Traced(codecs, s)
    ensures WholeOf(id, Do(codecs, s, Emit)) == WholeOf(id, s)
  {
    hide About, IsTrace, DoSubmit, DoPop, DoNotifyOne, DoReply, Received, Departed;
    var event, script := s.worker.script[0], s.worker.script;
    assert event in script;
    AboutAppend({id}, s.events, event);
    MoveFirst(About({id}, s.events), script);
  }

  lemma MoveFirst(said: seq<Event>, script: seq<Event>)
    requires script != []
    ensures said + [script[0]] + script[1..] == said + script
    ensures said + [] == said
  {
    assert script == [script[0]] + script[1..];
  }

  /** Every other step leaves the taken jobs, and what is said about them, alone. */
  lemma OtherStepsKeepWhole(codecs: Codecs, s: State, step: Step, id: string)
    requires Enabled(s, step) && !Takes(s, step, id) && !step.Emit?
    ensures var t := Do(codecs, s, step);
            && (id in IdsOf(Taken(t)) <==> id in IdsOf(Taken(s)))
            && WholeOf(id, t) == WholeOf(id, s)
  {
    hide Trace, Handle, About, Received, Departed;
    var t := Do(codecs, s, step);
    if step.Pop? && s.queue.pending != [] {
      IdsOfConcat(s.finished, [s.queue.pending[0]]);
      assert Taken(s) == s.finished;
    } else {
      assert Taken(t) == Taken(s);
    }
  }

  lemma StepKeepsWhole(codecs: Codecs, s: State, step: Step, id: string)
    requires Enabled(s, step) && !Takes(s, step, id) && Traced(codecs, s)
    ensures var t := Do(codecs, s, step);
            && (id in IdsOf(Taken(t)) <==> id in IdsOf(Taken(s)))
            && WholeOf(id, t) == WholeOf(id, s)
  {
    hide WholeOf, Traced;
    if step.Emit? {
      EmittingKeepsWhole(codecs, s, id);
      assert Taken(Do(codecs, s, step)) == Taken(s);
    } else {
      OtherStepsKeepWhole(codecs, s, step, id);
    }
  }

  // ----- Whole runs -----

  /** Before a job is taken nothing is asked for it; afterwards the one step that took it decided everything. */
  lemma {:induction false} TakenOnce(codecs: Codecs, states: seq<State>, steps: seq<Step>, n: nat, id: string)
    returns (m: nat)
    requires IsRun(codecs, states, steps) && n < |states|
    ensures id !in IdsOf(Taken(states[n])) ==> Asked(codecs, states, steps, n, id) == []
    ensures id in IdsOf(Taken(states[n])) ==> Decided(codecs, states, steps, n, id, m)
    decreases n
  {
    hide Do, Enabled, Invariant, Traced, Delivery, History, Conservation, WholeOf, Taken, IdsOf, Takes;
    hide Trace, JobCourse, Everything;
    m := 0;
    if n == 0 {
      NothingTaken();
    } else {
      var s, step := states[n - 1], steps[n - 1];
      m := TakenOnce(codecs, states, steps, n - 1, id);
      RunKeepsEverything(codecs, states, steps, n - 1);
      QueueAndTraces(codecs, s);
      if Takes(s, step, id) {
        m := n - 1;
        TakenIsNew(codecs, s, step, id);
        TakingDecides(codecs, s, step, id);
        assert [] + CourseTaken(codecs, s, step, id).calls == CourseTaken(codecs, s, step, id).calls;
      } else {
        StepKeepsWhole(codecs, s, step, id);
        assert Asked(codecs, states, steps, n - 1, id) + [] == Asked(codecs, states, steps, n - 1, id);
      }
    }
  }

  /** What taking a job decided stays decided. */
  lemma {:induction false} TakenStaysDecided(
    codecs: Codecs, states: seq<State>, steps: seq<Step>, m: nat, n: nat, id: string)
    requires IsRun(codecs, states, steps) && m < n < |states| && Takes(states[m], steps[m], id)
    ensures id in IdsOf(Taken(states[n]))
    ensures WholeOf(id, states[n]) == Trace(codecs, states[m].queue.pending[0], steps[m].config, steps[m].world)
    decreases n
  {
    hide Do, Enabled, Invariant, Traced, Delivery, History, Conservation, WholeOf, Taken, IdsOf, Trace;
    var s, step := states[n - 1], steps[n - 1];
    RunKeepsEverything(codecs, states, steps, n - 1);
    QueueAndTraces(codecs, s);
    if m == n - 1 {
      TakingDecides(codecs, s, step, id);
    } else {
      TakenStaysDecided(codecs, states, steps, m, n - 1, id);
      if Takes(s, step, id) {
        TakenIsNew(codecs, s, step, id);
        assert false;
      }
      StepKeepsWhole(codecs, s, step, id);
    }
  }

  lemma NothingTaken()
    ensures IdsOf(Taken(INITIAL)) == {}
  {
  }

  lemma QueueAndTraces(codecs: Codecs, s: State)
    requires Everything(codecs, s)
    ensures Conservation(s) && Traced(codecs, s)
  {
  }

  /**
   Over whole runs: the print system is asked at most once per job id, and not at all before the
   job is taken. An id with a Submitted event was asked for exactly once, by the step that took
   it, and the print system said yes; a finished id without one was not asked for, or was
   refused.
   */
  lemma SubmittedOncePerId(codecs: Codecs, states: seq<State>, steps: seq<Step>, n: nat, id: string)
    returns (m: nat)
    requires IsRun(codecs, states, steps) && n < |states|
    ensures Submissions(Asked(codecs, states, steps, n, id)) <= 1
    ensures id !in IdsOf(Taken(states[n])) ==> Asked(codecs, states, steps, n, id) == []
    ensures Submitted in StatusesOf(id, states[n]) ==>
              && Submissions(Asked(codecs, states, steps, n, id)) == 1
              && m < n && Takes(states[m], steps[m], id) && steps[m].world.backend.Ok?
    ensures id in IdsOf(states[n].finished) ==>
              && m < n && Takes(states[m], steps[m], id)
              && (Submitted in StatusesOf(id, states[n])
                  <==> Submissions(Asked(codecs, states, steps, n, id)) == 1 && steps[m].world.backend.Ok?)
  {
    hide Do, Enabled, Asked, Trace, JobCourse, Submissions, About, IdsOf, Everything, WholeOf, Taken;
    m := TakenOnce(codecs, states, steps, n, id);
    var s := states[n];
    if id in IdsOf(Taken(s)) {
      SubmissionIsTruthful(codecs, states[m].queue.pending[0], steps[m].config, steps[m].world);
      SaidIsPartOfWhole(id, s);
      if id in IdsOf(s.finished) {
        RunKeepsEverything(codecs, states, steps, n);
        QueueAndTraces(codecs, s);
        FinishedHaveNoScript(s, id);
      }
    } else {
      NobodySaid(codecs, states, steps, n, id);
    }
  }

  lemma SaidIsPartOfWhole(id: string, s: State)
    ensures Submitted in StatusesOf(id, s) ==> Submitted in Statuses(WholeOf(id, s))
  {
    hide About;
    var said, whole := About({id}, s.events), WholeOf(id, s);
    if i :| 0 <= i < |said| && Statuses(said)[i] == Submitted {
      assert whole[i] == said[i];
      assert Statuses(whole)[i] == Submitted;
    }
  }

  lemma FinishedHaveNoScript(s: State, id: string)
    requires Conservation(s) && id in IdsOf(s.finished)
    ensures id in IdsOf(Taken(s)) && WholeOf(id, s) == About({id}, s.events)
  {
    hide About, Conservation;
    var q :| q in s.finished && q.job.jobId == id;
    assert q in Taken(s);
    if s.worker.Processing? {
      InFlightIsNew(s, q);
    }
    assert About({id}, s.events) + [] == About({id}, s.events);
  }

  lemma NobodySaid(codecs: Codecs, states: seq<State>, steps: seq<Step>, n: nat, id: string)
    requires IsRun(codecs, states, steps) && n < |states|
    requires id !in IdsOf(Taken(states[n]))
    ensures StatusesOf(id, states[n]) == [] && id !in IdsOf(states[n].finished)
    ensures Submissions([]) == 0
  {
    hide IsRun, IsTrace, About;
    RunKeepsEverything(codecs, states, steps, n);
    NothingAboutAbsent(id, states[n].events);
    IdsOfConcat(states[n].finished, InFlight(states[n].worker));
  }
}
