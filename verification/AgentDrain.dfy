/**
 Progress: without new submissions and without shutdown the queue drains. A measure drops
 with every step of the worker and of the notifying producers, and once none of those steps
 is possible every accepted job is finished.
 */
module AgentDrain {
  import opened Common
  import opened Protocol
  import opened Queue
  import opened Server
  import opened Worker
  import opened PrintAgent
  import opened AgentQueue
  import opened AgentDelivery
  import opened AgentTheorems

  /** A step of the worker, or a producer's call of the notifier. */
  predicate IsWork(step: Step) {
    step.NotifyOne? || step.CheckShutdown? || step.Pop? || step.Emit? || step.Finish?
    || step.PollNotified? || step.Resume? || step.StopWaiting?
  }

  ghost function Pushing(s: State): set<nat> {
    set c | c in s.connections && s.connections[c].phase.Pushed?
  }

  function Rank(worker: WorkerAt): nat {
    match worker
    case Top => 4
    case Popping => 3
    case Processing(_, _, script) => 6 + |script|
    case FoundNothing => 2
    case Parked => 1
    case Woken => 5
    case Exited => 0
  }

  ghost function WorkLeft(s: State): nat {
    20 * |s.queue.pending| + 6 * |Pushing(s)| + (if s.permit then 4 else 0) + Rank(s.worker)
  }

  lemma TraceIsShort(codecs: Codecs, queued: QueuedJob, config: Config, world: World)
    ensures |Trace(codecs, queued, config, world)| <= 6
  {
    hide Trace;
    TraceIsGrammatical(codecs, queued, config, world);
    GrammarConsequences(Statuses(Trace(codecs, queued, config, world)));
  }

  lemma NotifyReducesPushing(s: State, c: nat)
    requires c in s.connections && s.connections[c].phase.Pushed?
    ensures Pushing(DoNotifyOne(s, c)) == Pushing(s) - {c}
    ensures |Pushing(DoNotifyOne(s, c))| == |Pushing(s)| - 1
  {
  }

  /** Every work step uses up some of the work that is left. */
  lemma WorkShrinks(codecs: Codecs, s: State, step: Step)
    requires Enabled(s, step) && IsWork(step)
    ensures WorkLeft(Do(codecs, s, step)) < WorkLeft(s)
  {
    hide Trace, Pushing;
    if step.NotifyOne? {
      NotifyReducesPushing(s, step.c);
    } else {
      if step.Pop? && s.queue.pending != [] {
        TraceIsShort(codecs, s.queue.pending[0], step.config, step.world);
      }
      WorkerLeavesPushing(codecs, s, step);
    }
  }

  lemma WorkerLeavesPushing(codecs: Codecs, s: State, step: Step)
    requires Enabled(s, step) && IsWork(step) && !step.NotifyOne?
    ensures Pushing(Do(codecs, s, step)) == Pushing(s)
  {
    hide Trace;
    assert Do(codecs, s, step).connections == s.connections;
  }

  /** Connections that come, read, reply and leave add no work. */
  lemma OthersAddNoWork(codecs: Codecs, s: State, step: Step)
    requires Enabled(s, step) && !IsWork(step) && !step.Submit?
    ensures WorkLeft(Do(codecs, s, step)) == WorkLeft(s)
  {
    hide Trace, Handle;
    var t := Do(codecs, s, step);
    assert Pushing(t) == Pushing(s);
  }

  /** The number of work steps between two states of a run. */
  function WorkDone(steps: seq<Step>, m: nat, n: nat): nat
    requires m <= n <= |steps|
    decreases n
  {
    if m == n then 0 else WorkDone(steps, m, n - 1) + (if IsWork(steps[n - 1]) then 1 else 0)
  }

  /** However the tasks interleave, the work done after the last submission is bounded in advance. */
  lemma {:induction false} WorkIsBounded(codecs: Codecs, states: seq<State>, steps: seq<Step>, m: nat, n: nat)
    requires IsRun(codecs, states, steps) && m <= n < |states|
    requires forall i :: m <= i < n ==> !steps[i].Submit?
    ensures WorkDone(steps, m, n) + WorkLeft(states[n]) <= WorkLeft(states[m])
    decreases n
  {
    hide Do, Enabled, WorkLeft;
    if m < n {
      WorkIsBounded(codecs, states, steps, m, n - 1);
      if IsWork(steps[n - 1]) {
        WorkShrinks(codecs, states[n - 1], steps[n - 1]);
      } else {
        OthersAddNoWork(codecs, states[n - 1], steps[n - 1]);
      }
    }
  }

  /** No task can do any more work. */
  ghost predicate Idle(s: State) {
    forall step :: IsWork(step) ==> !Enabled(s, step)
  }

  /** An idle agent that was not told to stop has finished everything it accepted. */
  lemma IdleMeansDrained(codecs: Codecs, states: seq<State>, steps: seq<Step>, n: nat)
    requires IsRun(codecs, states, steps) && n < |states|
    requires Idle(states[n]) && !states[n].cancelled
    ensures states[n].queue.pending == [] && states[n].finished == states[n].accepted
    ensures states[n].worker.Parked? && !states[n].permit
  {
    hide IsRun, Do, Traced, Delivery, Provenance, Ownership;
    RunKeepsEverything(codecs, states, steps, n);
    var s := states[n];
    var anyConfig := Config(None, None, 0, 0, 0);
    var anyWorld := World(Ok(Unit), Ok(None), Ok(""), Ok(None), Ok(Unit), Ok(Unit), Ok(""), Err(""),
                          TrackedUnknown(""));
    assert !Enabled(s, CheckShutdown) && !Enabled(s, Pop(anyConfig, anyWorld)) && !Enabled(s, Emit)
        && !Enabled(s, Finish) && !Enabled(s, PollNotified) && !Enabled(s, Resume);
    if s.queue.pending != [] {
      NoWakeUpIsLost(codecs, states, steps, n);
    }
    assert s.finished + [] + [] == s.finished;
  }

  /** And work is never impossible while a job is unfinished: some schedule always drains the queue. */
  lemma {:induction false} QueueCanAlwaysDrain(codecs: Codecs, states: seq<State>, steps: seq<Step>)
    returns (allStates: seq<State>, allSteps: seq<Step>)
    requires IsRun(codecs, states, steps) && !states[|steps|].cancelled
    ensures IsRun(codecs, allStates, allSteps)
    ensures states <= allStates && steps <= allSteps
    ensures forall i :: |steps| <= i < |allSteps| ==> IsWork(allSteps[i])
    ensures |allSteps| <= |steps| + WorkLeft(states[|steps|])
    ensures var end := allStates[|allSteps|];
            end.finished == end.accepted == states[|steps|].accepted
    decreases WorkLeft(states[|steps|])
  {
    hide Do, Enabled, WorkLeft;
    var s := states[|steps|];
    if Idle(s) {
      IdleMeansDrained(codecs, states, steps, |steps|);
      allStates, allSteps := states, steps;
    } else {
      var step :| IsWork(step) && Enabled(s, step);
      var t := Do(codecs, s, step);
      WorkShrinks(codecs, s, step);
      WorkKeepsAccepted(codecs, s, step);
      var longer, more := states + [t], steps + [step];
      ExtendRun(codecs, states, steps, step);
      allStates, allSteps := QueueCanAlwaysDrain(codecs, longer, more);
      assert forall i :: 0 <= i < |states| ==> states[i] == longer[i] == allStates[i];
      assert forall i :: 0 <= i < |steps| ==> steps[i] == more[i] == allSteps[i];
      assert allSteps[|steps|] == more[|steps|] == step;
    }
  }

  lemma ExtendRun(codecs: Codecs, states: seq<State>, steps: seq<Step>, step: Step)
    requires IsRun(codecs, states, steps) && Enabled(states[|steps|], step)
    ensures IsRun(codecs, states + [Do(codecs, states[|steps|], step)], steps + [step])
  {
    hide Do, Enabled;
  }

  lemma WorkKeepsAccepted(codecs: Codecs, s: State, step: Step)
    requires Enabled(s, step) && IsWork(step)
    ensures Do(codecs, s, step).accepted == s.accepted
    ensures Do(codecs, s, step).cancelled == s.cancelled
  {
    hide Trace;
  }
}
