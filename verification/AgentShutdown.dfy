/**
 Stopping: once shutdown is requested the worker finishes the job in its hands and leaves the
 queue, however long, as it is.
 */
module AgentShutdown {
  import opened Common
  import opened Protocol
  import opened Queue
  import opened Server
  import opened Worker
  import opened PrintAgent
  import opened AgentQueue
  import opened AgentDelivery
  import opened AgentTheorems
  import opened AgentDrain

  /** A step that the worker's own task takes. */
  predicate IsWorkerStep(step: Step) {
    IsWork(step) && !step.NotifyOne?
  }

  /** The jobs the worker has taken, and the one it may take without looking at the shutdown signal again. */
  function Committed(s: State): nat {
    |Taken(s)| + (if s.worker.Popping? then 1 else 0)
  }

  /** How many of its own steps a worker that was told to stop can still take. */
  function StepsToExit(worker: WorkerAt): nat {
    match worker
    case Exited => 0
    case Top => 1
    case Woken => 2
    case Parked => 3
    case FoundNothing => 4
    case Processing(_, _, script) => 2 + |script|
    case Popping => 9
  }

  const MOST_STEPS_TO_EXIT := 9

  lemma CancelledStep(codecs: Codecs, s: State, step: Step)
    requires Enabled(s, step) && s.cancelled
    ensures var t := Do(codecs, s, step);
            && t.cancelled
            && Committed(t) <= Committed(s)
            && StepsToExit(t.worker) + (if IsWorkerStep(step) then 1 else 0) <= StepsToExit(s.worker)
  {
    hide Trace, Handle;
    if step.Pop? && s.queue.pending != [] {
      TraceIsShort(codecs, s.queue.pending[0], step.config, step.world);
    }
  }

  lemma StepKeepsTaken(codecs: Codecs, s: State, step: Step)
    requires Enabled(s, step)
    ensures |Taken(s)| <= |Taken(Do(codecs, s, step))|
  {
    hide Trace, Handle;
  }

  /** Jobs stay taken, in the same order. */
  lemma {:induction false} TakenOnlyGrows(codecs: Codecs, states: seq<State>, steps: seq<Step>, m: nat, n: nat)
    requires IsRun(codecs, states, steps) && m <= n < |states|
    ensures Taken(states[m]) <= Taken(states[n])
    decreases n
  {
    hide Do, Enabled, Everything;
    if m < n {
      TakenOnlyGrows(codecs, states, steps, m, n - 1);
      StepKeepsTaken(codecs, states[n - 1], steps[n - 1]);
      QueueIsConserved(codecs, states, steps, n - 1);
      QueueIsConserved(codecs, states, steps, n);
      HistoryOnlyGrows(codecs, states, steps, n - 1, n);
      var before, after := Taken(states[n - 1]), Taken(states[n]);
      assert states[n - 1].accepted[..|before|] == before;
      assert states[n].accepted[..|before|] == before;
      assert after[..|before|] == before;
    }
  }

  /** The number of steps of the worker between two states of a run. */
  function WorkerStepsBetween(steps: seq<Step>, m: nat, n: nat): nat
    requires m <= n <= |steps|
    decreases n
  {
    if m == n then 0 else WorkerStepsBetween(steps, m, n - 1) + (if IsWorkerStep(steps[n - 1]) then 1 else 0)
  }

  lemma {:induction false} CancelledRun(codecs: Codecs, states: seq<State>, steps: seq<Step>, m: nat, n: nat)
    requires IsRun(codecs, states, steps) && m <= n < |states| && states[m].cancelled
    ensures states[n].cancelled && Committed(states[n]) <= Committed(states[m])
    ensures WorkerStepsBetween(steps, m, n) + StepsToExit(states[n].worker) <= StepsToExit(states[m].worker)
    decreases n
  {
    hide Do, Enabled, Committed, StepsToExit, IsWorkerStep;
    if m < n {
      CancelledRun(codecs, states, steps, m, n - 1);
      CancelledStep(codecs, states[n - 1], steps[n - 1]);
    }
  }

  lemma ScriptIsShort(codecs: Codecs, states: seq<State>, steps: seq<Step>, n: nat)
    requires IsRun(codecs, states, steps) && n < |states|
    ensures StepsToExit(states[n].worker) <= MOST_STEPS_TO_EXIT
  {
    hide IsRun, Trace, Invariant, Delivery, About;
    RunKeepsEverything(codecs, states, steps, n);
    var worker := states[n].worker;
    if worker.Processing? {
      assert IsTrace(codecs, worker.job, worker.emitted + worker.script);
      var config, world :| worker.emitted + worker.script == Trace(codecs, worker.job, config, world);
      TraceIsShort(codecs, worker.job, config, world);
    }
  }

  /**
   From the moment a shutdown is requested at most one more job is taken, and that only by a
   worker that had already looked at the signal. The worker takes a number of steps that does
   not depend on the length of the queue, and it is never stuck before it has exited.
   */
  lemma ShutdownStopsTheWorker(codecs: Codecs, states: seq<State>, steps: seq<Step>, m: nat, n: nat)
    requires IsRun(codecs, states, steps) && m < n < |states| && steps[m].Shutdown?
    ensures |Taken(states[n])| <= |Taken(states[m])| + (if states[m].worker.Popping? then 1 else 0)
    ensures WorkerStepsBetween(steps, m + 1, n) <= MOST_STEPS_TO_EXIT
    ensures WorkerIsStuck(states[n]) ==> states[n].worker.Exited?
  {
    hide WorkerIsStuck;
    ShutdownIsSeen(codecs, states, steps, m);
    CancelledRun(codecs, states, steps, m + 1, n);
    ScriptIsShort(codecs, states, steps, m + 1);
    if WorkerIsStuck(states[n]) {
      NeverStuck(states[n]);
    }
  }

  lemma ShutdownIsSeen(codecs: Codecs, states: seq<State>, steps: seq<Step>, m: nat)
    requires IsRun(codecs, states, steps) && m < |steps| && steps[m].Shutdown?
    ensures states[m + 1] == states[m].(cancelled := true)
  {
  }

  /** The worker's task has no step to take. */
  ghost predicate WorkerIsStuck(s: State) {
    forall step :: IsWorkerStep(step) ==> !Enabled(s, step)
  }

  lemma NeverStuck(s: State)
    requires s.cancelled && WorkerIsStuck(s)
    ensures s.worker.Exited?
  {
    var config := Config(None, None, 0, 0, 0);
    var world := World(Ok(Unit), Ok(None), Ok(""), Ok(None), Ok(Unit), Ok(Unit), Ok(""), Err(""), TrackedUnknown(""));
    assert !Enabled(s, CheckShutdown) && !Enabled(s, Pop(config, world)) && !Enabled(s, Emit)
        && !Enabled(s, Finish) && !Enabled(s, StopWaiting);
  }

  /**
   The job in hand is completed: a worker that has exited has finished exactly the jobs it had
   taken when shutdown was requested, and perhaps the one it was just about to take.
   */
  lemma ExitFinishesWhatWasTaken(codecs: Codecs, states: seq<State>, steps: seq<Step>, m: nat, n: nat)
    requires IsRun(codecs, states, steps) && m < n < |states| && steps[m].Shutdown? && states[n].worker.Exited?
    ensures Taken(states[m]) <= states[n].finished
    ensures |states[n].finished| <= |Taken(states[m])| + (if states[m].worker.Popping? then 1 else 0)
    ensures states[n].accepted == states[n].finished + states[n].queue.pending
  {
    hide IsRun;
    ShutdownStopsTheWorker(codecs, states, steps, m, n);
    TakenOnlyGrows(codecs, states, steps, m, n);
    QueueIsConserved(codecs, states, steps, n);
    assert states[n].finished + [] == states[n].finished;
  }
}
