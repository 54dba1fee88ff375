/**
 The spooler over a whole run of the agent with CUPS as its print system: each job that the
 worker takes meets CUPS in some condition, given by `answers` at the index of the taking step.
 */
module AgentSpooler {
  import opened Common
  import opened Protocol
  import opened Queue
  import opened Worker
  import opened PrintAgent
  import opened AgentQueue
  import opened AgentDelivery
  import opened AgentTheorems
  import opened AgentCalls
  import opened CupsSubmission

  predicate TakesJob(s: State, step: Step) {
    step.Pop? && s.queue.pending != []
  }

  function TakenTrace(codecs: Codecs, s: State, step: Step): seq<Event>
    requires TakesJob(s, step)
  {
    Trace(codecs, s.queue.pending[0], step.config, step.world)
  }

  /** The spool jobs that are live after `n` steps. */
  function Live(
    codecs: Codecs, states: seq<State>, steps: seq<Step>, answers: seq<Cups>, before: set<string>, n: nat): set<string>
    requires n <= |steps| < |states| && |answers| == |steps|
  {
    if n == 0 then before
    else
      var live := Live(codecs, states, steps, answers, before, n - 1);
      var s, step := states[n - 1], steps[n - 1];
      if TakesJob(s, step) then
        LiveAfter(codecs, s.queue.pending[0], step.config, step.world, answers[n - 1], live)
      else live
  }

  /** The worker's print system is CUPS, which gives every spool job a new id and names it truthfully. */
  ghost predicate PrintsWithCups(
    codecs: Codecs, states: seq<State>, steps: seq<Step>, answers: seq<Cups>, before: set<string>)
    requires |steps| < |states| && |answers| == |steps|
  {
    forall m :: 0 <= m < |steps| && TakesJob(states[m], steps[m]) ==>
      var live := Live(codecs, states, steps, answers, before, m);
      && answers[m].jobId !in live && ReportsOwnJob(answers[m])
      && steps[m].world.backend == BackendAnswer(answers[m], live)
  }

  /** The spool jobs of the jobs whose trace announces a submission. */
  function Announced(codecs: Codecs, states: seq<State>, steps: seq<Step>, answers: seq<Cups>, n: nat): set<string>
    requires n <= |steps| < |states| && |answers| == |steps|
  {
    set m | 0 <= m < n && TakesJob(states[m], steps[m])
            && Submitted in Statuses(TakenTrace(codecs, states[m], steps[m])) :: answers[m].jobId
  }

  lemma AnnouncedByStep(codecs: Codecs, states: seq<State>, steps: seq<Step>, answers: seq<Cups>, n: nat)
    requires 0 < n <= |steps| < |states| && |answers| == |steps|
    ensures Announced(codecs, states, steps, answers, n)
            == Announced(codecs, states, steps, answers, n - 1)
               + (if TakesJob(states[n - 1], steps[n - 1])
                     && Submitted in Statuses(TakenTrace(codecs, states[n - 1], steps[n - 1]))
                  then {answers[n - 1].jobId} else {})
  {
    hide TakenTrace;
  }

  lemma {:induction false} LiveIsAnnounced(
    codecs: Codecs, states: seq<State>, steps: seq<Step>, answers: seq<Cups>, before: set<string>, n: nat)
    requires n <= |steps| < |states| && |answers| == |steps|
    requires PrintsWithCups(codecs, states, steps, answers, before)
    ensures Live(codecs, states, steps, answers, before, n) == before + Announced(codecs, states, steps, answers, n)
    decreases n
  {
    hide Announced, LiveAfter, BackendAnswer, ReportsOwnJob, Trace, JobCourse;
    if n == 0 {
      NoneAnnounced(codecs, states, steps, answers);
    } else {
      var s, step := states[n - 1], steps[n - 1];
      LiveIsAnnounced(codecs, states, steps, answers, before, n - 1);
      AnnouncedByStep(codecs, states, steps, answers, n);
      if TakesJob(s, step) {
        var live := Live(codecs, states, steps, answers, before, n - 1);
        StatusIsTruthful(codecs, s.queue.pending[0], step.config, step.world, answers[n - 1], live);
      }
    }
  }

  lemma NoneAnnounced(codecs: Codecs, states: seq<State>, steps: seq<Step>, answers: seq<Cups>)
    requires 0 <= |steps| < |states| && |answers| == |steps|
    ensures Announced(codecs, states, steps, answers, 0) == {}
  {
  }

  /** The spool jobs of the jobs that have a Submitted event by now. */
  function Reported(states: seq<State>, steps: seq<Step>, answers: seq<Cups>, n: nat): set<string>
    requires n <= |steps| < |states| && |answers| == |steps|
  {
    set m | 0 <= m < n && TakesJob(states[m], steps[m])
            && Submitted in StatusesOf(states[m].queue.pending[0].job.jobId, states[n]) :: answers[m].jobId
  }

  /**
   Over whole runs, whenever no job is in flight: the live spool jobs are those from before the
   run plus exactly those of the jobs with a Submitted event.
   */
  lemma SpoolerMatchesEvents(
    codecs: Codecs, states: seq<State>, steps: seq<Step>, answers: seq<Cups>, before: set<string>, n: nat)
    requires IsRun(codecs, states, steps) && n < |states| && |answers| == |steps|
    requires PrintsWithCups(codecs, states, steps, answers, before)
    requires !states[n].worker.Processing?
    ensures Live(codecs, states, steps, answers, before, n) == before + Reported(states, steps, answers, n)
  {
    hide Do, Enabled, PrintsWithCups, Live, StatusesOf, Statuses, Trace;
    LiveIsAnnounced(codecs, states, steps, answers, before, n);
    forall m | 0 <= m < n && TakesJob(states[m], steps[m])
      ensures Submitted in Statuses(TakenTrace(codecs, states[m], steps[m]))
              <==> Submitted in StatusesOf(states[m].queue.pending[0].job.jobId, states[n])
    {
      var id := states[m].queue.pending[0].job.jobId;
      TakenStaysDecided(codecs, states, steps, m, n, id);
      NothingLeftToSay(id, states[n]);
    }
  }

  lemma NothingLeftToSay(id: string, s: State)
    requires !s.worker.Processing?
    ensures Statuses(WholeOf(id, s)) == StatusesOf(id, s)
  {
    hide About;
    assert About({id}, s.events) + [] == About({id}, s.events);
  }
}
