/**
 The global browser launch gate: a flag under a mutex with a condition variable, and a guard
 that moves into a detached thread together with the launch closure.

 Every critical section is one step. Waits may end by notification, by timeout or spuriously,
 launches may fail or panic, callers may give up at any time after their deadline, and time
 advances arbitrarily between steps.
 */
module LaunchGate {
  import opened Common

  datatype Outcome = Launched | Failed | TimedOut

  datatype Caller =
    | Arriving                     // about to lock the gate for the first time
    | Parked                       // inside the timed wait
    | Awake(timedOut: bool)        // the wait returned; the mutex is not yet re-locked
    | Owning                       // holds the guard, has not looked at the remaining time
    | Abandoning(outcome: Outcome) // is about to drop the guard itself
    | Listening                    // the guard went into the thread
    | Done(outcome: Outcome)

  datatype Thread =
    | NotSpawned
    | Ready
    | Running                                // the launch closure is executing
    | Ended(message: Option<Outcome>)        // the closure returned, or panicked without a message
    | Released(message: Option<Outcome>)     // and the guard has been dropped

  datatype Call = Call(deadline: nat, caller: Caller, thread: Thread)

  datatype State = State(inProgress: bool, calls: map<nat, Call>, now: nat)

  const INITIAL := State(false, map[], 0)

  datatype Step =
    | Tick(elapsed: nat)
    | Arrive(id: nat, timeout: nat)
    | Lock(id: nat)
    | WaitTimesOut(id: nat)
    | WakeSpuriously(id: nat)
    | Spawn(id: nat, succeeds: bool)
    | DropByCaller(id: nat, notified: Option<nat>)
    | StartLaunch(id: nat)
    | EndLaunch(id: nat, message: Option<Outcome>)
    | DropByThread(id: nat, notified: Option<nat>)
    | Hear(id: nat)
    | StopListening(id: nat)

  predicate IsAt(s: State, id: nat, caller: Caller) {
    id in s.calls && s.calls[id].caller == caller
  }

  /** `notify_one` wakes one parked caller whenever there is one. */
  ghost predicate CanNotify(s: State, notified: Option<nat>) {
    match notified
    case Some(other) => IsAt(s, other, Parked)
    case None => forall other :: other in s.calls ==> !s.calls[other].caller.Parked?
  }

  ghost predicate Enabled(s: State, step: Step) {
    match step
    case Tick(_) => true
    case Arrive(id, _) => id !in s.calls
    case Lock(id) => id in s.calls && (s.calls[id].caller.Arriving? || s.calls[id].caller.Awake?)
    case WaitTimesOut(id) => IsAt(s, id, Parked) && s.now >= s.calls[id].deadline
    case WakeSpuriously(id) => IsAt(s, id, Parked)
    case Spawn(id, _) => IsAt(s, id, Owning)
    case DropByCaller(id, notified) => id in s.calls && s.calls[id].caller.Abandoning? && CanNotify(s, notified)
    case StartLaunch(id) => id in s.calls && s.calls[id].thread.Ready?
    case EndLaunch(id, message) =>
      id in s.calls && s.calls[id].thread.Running? && message != Some(TimedOut)
    case DropByThread(id, notified) => id in s.calls && s.calls[id].thread.Ended? && CanNotify(s, notified)
    case Hear(id) => IsAt(s, id, Listening) && (s.calls[id].thread.Ended? || s.calls[id].thread.Released?)
    case StopListening(id) => IsAt(s, id, Listening) && s.now >= s.calls[id].deadline
  }

  function WithCaller(s: State, id: nat, caller: Caller): State
    requires id in s.calls
  {
    s.(calls := s.calls[id := s.calls[id].(caller := caller)])
  }

  function WithThread(s: State, id: nat, thread: Thread): State
    requires id in s.calls
  {
    s.(calls := s.calls[id := s.calls[id].(thread := thread)])
  }

  /** One pass of the acquire loop, with the mutex held. */
  function DoLock(s: State, id: nat): State
    requires id in s.calls && (s.calls[id].caller.Arriving? || s.calls[id].caller.Awake?)
  {
    var call := s.calls[id];
    if !s.inProgress then WithCaller(s, id, Owning).(inProgress := true)
    else if call.caller == Awake(true) || s.now >= call.deadline then WithCaller(s, id, Done(TimedOut))
    else WithCaller(s, id, Parked)
  }

  /** Dropping the guard reopens the gate and wakes at most one waiter. */
  function Reopen(s: State, notified: Option<nat>): State
    requires notified.Some? ==> notified.value in s.calls
  {
    var open := s.(inProgress := false);
    match notified
    case None => open
    case Some(other) => WithCaller(open, other, Awake(false))
  }

  function Do(s: State, step: Step): State
    requires Enabled(s, step)
  {
    match step
    case Tick(elapsed) => s.(now := s.now + elapsed)
    case Arrive(id, timeout) => s.(calls := s.calls[id := Call(s.now + timeout, Arriving, NotSpawned)])
    case Lock(id) => DoLock(s, id)
    case WaitTimesOut(id) => WithCaller(s, id, Awake(true))
    case WakeSpuriously(id) => WithCaller(s, id, Awake(false))
    case Spawn(id, succeeds) =>
      if s.now >= s.calls[id].deadline then WithCaller(s, id, Abandoning(TimedOut))
      else if !succeeds then WithCaller(s, id, Abandoning(Failed))
      else WithThread(WithCaller(s, id, Listening), id, Ready)
    case DropByCaller(id, notified) => WithCaller(Reopen(s, notified), id, Done(s.calls[id].caller.outcome))
    case StartLaunch(id) => WithThread(s, id, Running)
    case EndLaunch(id, message) => WithThread(s, id, Ended(message))
    case DropByThread(id, notified) => WithThread(Reopen(s, notified), id, Released(s.calls[id].thread.message))
    case Hear(id) =>
      var message := s.calls[id].thread.message;
      WithCaller(s, id, Done(if message.Some? then message.value else Failed))
    case StopListening(id) => WithCaller(s, id, Done(TimedOut))
  }

  ghost predicate IsRun(states: seq<State>, steps: seq<Step>) {
    && |states| == |steps| + 1
    && states[0] == INITIAL
    && forall i :: 0 <= i < |steps| ==> Enabled(states[i], steps[i]) && states[i + 1] == Do(states[i], steps[i])
  }

  // ----- Invariants -----

  /** The call's guard exists, in the hands of the caller or of the launch thread. */
  predicate GuardLive(call: Call) {
    call.caller.Owning? || call.caller.Abandoning?
    || call.thread.Ready? || call.thread.Running? || call.thread.Ended?
  }

  /** The flag is set exactly while one guard is live. */
  ghost predicate FlagMatchesGuard(s: State) {
    && (s.inProgress <==> exists id :: id in s.calls && GuardLive(s.calls[id]))
    && (forall i, j :: i in s.calls && j in s.calls && GuardLive(s.calls[i]) && GuardLive(s.calls[j]) ==> i == j)
  }

  /** A thread exists only for callers that got through the gate. */
  ghost predicate ThreadsFollowCallers(s: State) {
    forall id :: id in s.calls ==>
      && (!s.calls[id].thread.NotSpawned? ==> s.calls[id].caller.Listening? || s.calls[id].caller.Done?)
      && (s.calls[id].caller.Listening? ==> !s.calls[id].thread.NotSpawned?)
  }

  /** An open gate with a parked waiter means that some waiter is already awake. */
  ghost predicate WakeUpUnderWay(s: State) {
    !s.inProgress && (exists id :: IsAt(s, id, Parked)) ==> exists id :: id in s.calls && s.calls[id].caller.Awake?
  }

  predicate IsHonest(call: Call, now: nat) {
    && ((call.caller == Done(TimedOut) || call.caller == Abandoning(TimedOut) || call.caller == Awake(true)) ==>
          now >= call.deadline)
    && (call.thread.Ended? || call.thread.Released? ==> call.thread.message != Some(TimedOut))
  }

  /** Nobody reports a timeout before the deadline, nor a wait that timed out early. */
  ghost predicate TimeoutsAreHonest(s: State) {
    forall id :: id in s.calls ==> IsHonest(s.calls[id], s.now)
  }

  ghost predicate Invariant(s: State) {
    FlagMatchesGuard(s) && ThreadsFollowCallers(s) && WakeUpUnderWay(s) && TimeoutsAreHonest(s)
  }

  lemma StepKeepsFlag(s: State, step: Step)
    requires Enabled(s, step) && FlagMatchesGuard(s) && ThreadsFollowCallers(s)
    ensures FlagMatchesGuard(Do(s, step))
  {
    var t := Do(s, step);
    match step
    case Lock(id) =>
      if !s.inProgress {
        assert GuardLive(t.calls[id]);
      } else {
        KeepsLiveness(s, t);
      }
    case DropByCaller(id, notified) =>
      assert GuardLive(s.calls[id]);
      NoGuardLeft(s, t, id);
    case DropByThread(id, notified) =>
      assert GuardLive(s.calls[id]);
      NoGuardLeft(s, t, id);
    case _ =>
      KeepsLiveness(s, t);
  }

  /** The same guards are live in both states. */
  lemma KeepsLiveness(s: State, t: State)
    requires FlagMatchesGuard(s) && t.inProgress == s.inProgress
    requires s.calls.Keys <= t.calls.Keys
    requires forall id :: id in t.calls ==> (GuardLive(t.calls[id]) <==> id in s.calls && GuardLive(s.calls[id]))
    ensures FlagMatchesGuard(t)
  {
    if s.inProgress {
      var id :| id in s.calls && GuardLive(s.calls[id]);
      assert GuardLive(t.calls[id]);
    }
  }

  lemma NoGuardLeft(s: State, t: State, id: nat)
    requires FlagMatchesGuard(s) && id in s.calls && GuardLive(s.calls[id])
    requires !t.inProgress && t.calls.Keys == s.calls.Keys && !GuardLive(t.calls[id])
    requires forall other :: other in t.calls && GuardLive(t.calls[other]) ==> GuardLive(s.calls[other])
    ensures FlagMatchesGuard(t)
  {
  }

  lemma StepKeepsWakeUp(s: State, step: Step)
    requires Enabled(s, step) && FlagMatchesGuard(s) && WakeUpUnderWay(s)
    ensures WakeUpUnderWay(Do(s, step))
  {
    var t := Do(s, step);
    if !t.inProgress && exists id :: IsAt(t, id, Parked) {
      var parked :| IsAt(t, parked, Parked);
      if step.WaitTimesOut? || step.WakeSpuriously? {
        assert t.calls[step.id].caller.Awake?;
      } else {
        assert IsAt(s, parked, Parked);
        if step.DropByCaller? || step.DropByThread? {
          assert t.calls[step.notified.value].caller.Awake?;
        } else {
          var awake :| awake in s.calls && s.calls[awake].caller.Awake?;
          assert t.calls[awake].caller.Awake?;
        }
      }
    }
  }

  lemma StepKeepsThreads(s: State, step: Step)
    requires Enabled(s, step) && ThreadsFollowCallers(s)
    ensures ThreadsFollowCallers(Do(s, step))
  {
  }

  /** A step with an honest effect on its own call keeps all calls honest. */
  lemma OneCallStaysHonest(s: State, t: State, id: nat)
    requires TimeoutsAreHonest(s) && t.now == s.now && id in t.calls
    requires t.calls == s.calls[id := t.calls[id]] && IsHonest(t.calls[id], t.now)
    ensures TimeoutsAreHonest(t)
  {
    hide IsHonest;
  }

  lemma ReopeningIsHonest(s: State, notified: Option<nat>)
    requires TimeoutsAreHonest(s) && CanNotify(s, notified)
    ensures TimeoutsAreHonest(Reopen(s, notified))
  {
  }

  lemma TimePassesHonestly(s: State, elapsed: nat)
    requires TimeoutsAreHonest(s)
    ensures TimeoutsAreHonest(s.(now := s.now + elapsed))
  {
  }

  lemma StepKeepsHonesty(s: State, step: Step)
    requires Enabled(s, step) && TimeoutsAreHonest(s)
    ensures TimeoutsAreHonest(Do(s, step))
  {
    hide TimeoutsAreHonest, Reopen;
    HonestSoFar(s);
    var t := Do(s, step);
    if step.Tick? {
      TimePassesHonestly(s, step.elapsed);
    } else if step.DropByCaller? || step.DropByThread? {
      var open := Reopen(s, step.notified);
      ReopeningIsHonest(s, step.notified);
      ReopeningSpares(s, step.notified, step.id);
      HonestSoFar(open);
      OneCallStaysHonest(open, t, step.id);
    } else {
      OneCallStaysHonest(s, t, step.id);
    }
  }

  lemma HonestSoFar(s: State)
    requires TimeoutsAreHonest(s)
    ensures forall id :: id in s.calls ==> IsHonest(s.calls[id], s.now)
  {
  }

  /** Waking somebody touches neither threads nor deadlines. */
  lemma ReopeningSpares(s: State, notified: Option<nat>, id: nat)
    requires CanNotify(s, notified) && id in s.calls
    ensures var open := Reopen(s, notified);
            && open.now == s.now && id in open.calls
            && open.calls[id].thread == s.calls[id].thread
            && open.calls[id].deadline == s.calls[id].deadline
  {
  }

  lemma StepKeepsInvariant(s: State, step: Step)
    requires Enabled(s, step) && Invariant(s)
    ensures Invariant(Do(s, step))
  {
    hide Do, FlagMatchesGuard, ThreadsFollowCallers, WakeUpUnderWay, TimeoutsAreHonest;
    StepKeepsFlag(s, step);
    StepKeepsThreads(s, step);
    StepKeepsWakeUp(s, step);
    StepKeepsHonesty(s, step);
  }

  lemma {:induction false} RunKeepsInvariant(states: seq<State>, steps: seq<Step>, n: nat)
    requires IsRun(states, steps) && n < |states|
    ensures Invariant(states[n])
  {
    if n > 0 {
      RunKeepsInvariant(states, steps, n - 1);
      StepKeepsInvariant(states[n - 1], steps[n - 1]);
    }
  }

  // ----- What the gate promises -----

  /**
   In every interleaving the flag is set exactly while one guard is live, and at most one launch
   closure runs at a time, even when its caller has long since timed out.
   */
  lemma AtMostOneLaunch(states: seq<State>, steps: seq<Step>, n: nat, i: nat, j: nat)
    requires IsRun(states, steps) && n < |states|
    requires i in states[n].calls && j in states[n].calls
    ensures states[n].calls[i].thread.Running? && states[n].calls[j].thread.Running? ==> i == j
    ensures states[n].calls[i].thread.Running? ==> states[n].inProgress
    ensures states[n].inProgress <==> exists id :: id in states[n].calls && GuardLive(states[n].calls[id])
  {
    RunKeepsInvariant(states, steps, n);
    assert GuardLive(states[n].calls[i]) || !states[n].calls[i].thread.Running?;
    assert GuardLive(states[n].calls[j]) || !states[n].calls[j].thread.Running?;
  }

  lemma DoneIsFinal(s: State, step: Step, id: nat)
    requires Enabled(s, step) && ThreadsFollowCallers(s)
    requires id in s.calls && s.calls[id].caller.Done? && s.calls[id].thread.NotSpawned?
    ensures id in Do(s, step).calls && Do(s, step).calls[id] == s.calls[id]
  {
  }

  /** A caller that gave up at the gate never launches anything, at any later time. */
  lemma {:induction false} GivingUpAtTheGateIsFinal(states: seq<State>, steps: seq<Step>, m: nat, n: nat, id: nat)
    requires IsRun(states, steps) && m <= n < |states|
    requires id in states[m].calls
    requires states[m].calls[id].caller.Done? && states[m].calls[id].thread.NotSpawned?
    ensures id in states[n].calls && states[n].calls[id] == states[m].calls[id]
    decreases n
  {
    if m < n {
      GivingUpAtTheGateIsFinal(states, steps, m, n - 1, id);
      RunKeepsInvariant(states, steps, n - 1);
      DoneIsFinal(states[n - 1], steps[n - 1], id);
    }
  }

  /** A timeout is reported only once the caller's own deadline has passed. */
  lemma TimeoutMeansDeadlinePassed(states: seq<State>, steps: seq<Step>, n: nat, id: nat)
    requires IsRun(states, steps) && n < |states|
    requires IsAt(states[n], id, Done(TimedOut))
    ensures states[n].now >= states[n].calls[id].deadline
  {
    RunKeepsInvariant(states, steps, n);
  }

  /** With the gate open nobody is stranded: an awake waiter exists and takes the gate when it locks. */
  lemma OpenGateIsTaken(states: seq<State>, steps: seq<Step>, n: nat, parked: nat)
    requires IsRun(states, steps) && n < |states|
    requires !states[n].inProgress && IsAt(states[n], parked, Parked)
    ensures exists id :: id in states[n].calls && states[n].calls[id].caller.Awake?
                         && IsAt(DoLock(states[n], id), id, Owning)
  {
    RunKeepsInvariant(states, steps, n);
    var s := states[n];
    assert exists id :: IsAt(s, id, Parked);
    var id :| id in s.calls && s.calls[id].caller.Awake?;
    assert IsAt(DoLock(s, id), id, Owning);
  }

  /** How many of its own steps a guard needs before it is dropped. */
  function StepsToRelease(call: Call): nat {
    if call.thread.Ready? then 3
    else if call.thread.Running? then 2
    else if call.thread.Ended? then 1
    else if call.caller.Owning? then 4
    else if call.caller.Abandoning? then 1
    else 0
  }

  /** A closed gate is never stuck: its owner can always take the next step towards releasing it. */
  lemma ClosedGateMovesOn(states: seq<State>, steps: seq<Step>, n: nat)
    returns (id: nat, step: Step)
    requires IsRun(states, steps) && n < |states| && states[n].inProgress
    ensures id in states[n].calls && GuardLive(states[n].calls[id])
    ensures Enabled(states[n], step)
    ensures var t := Do(states[n], step);
            && id in t.calls
            && StepsToRelease(t.calls[id]) < StepsToRelease(states[n].calls[id])
            && (StepsToRelease(t.calls[id]) == 0 ==> !t.inProgress)
  {
    RunKeepsInvariant(states, steps, n);
    var s := states[n];
    id :| id in s.calls && GuardLive(s.calls[id]);
    var notified := AnyParked(s);
    var call := s.calls[id];
    step := if call.thread.Ready? then StartLaunch(id)
            else if call.thread.Running? then EndLaunch(id, None)
            else if call.thread.Ended? then DropByThread(id, notified)
            else if call.caller.Owning? then Spawn(id, true)
            else DropByCaller(id, notified);
  }

  lemma AnyParked(s: State) returns (notified: Option<nat>)
    ensures CanNotify(s, notified)
  {
    if other :| other in s.calls && s.calls[other].caller.Parked? {
      notified := Some(other);
    } else {
      notified := None;
    }
  }

  // ----- When waiting ends -----

  /** A caller goes to sleep only before its deadline, and never right after a wait that ran out. */
  lemma NobodyParksLate(states: seq<State>, steps: seq<Step>, n: nat, id: nat)
    requires IsRun(states, steps) && n < |steps|
    requires IsAt(states[n + 1], id, Parked) && !IsAt(states[n], id, Parked)
    ensures id in states[n].calls && states[n].inProgress
    ensures states[n].now < states[n].calls[id].deadline && states[n].calls[id].caller != Awake(true)
  {
  }

  lemma DeadlineStays(s: State, step: Step, id: nat)
    requires Enabled(s, step) && id in s.calls
    ensures id in Do(s, step).calls && Do(s, step).calls[id].deadline == s.calls[id].deadline
    ensures Do(s, step).now >= s.now
  {
  }

  /** A caller's deadline is its timeout counted from its arrival, and nothing moves it. */
  lemma {:induction false} DeadlineIsFromArrival(states: seq<State>, steps: seq<Step>, m: nat, n: nat)
    requires IsRun(states, steps) && m < n < |states| && steps[m].Arrive?
    ensures steps[m].id in states[n].calls
    ensures states[n].calls[steps[m].id].deadline == states[m].now + steps[m].timeout
    ensures states[n].now >= states[m].now
    decreases n
  {
    hide Do;
    if m == n - 1 {
      ArrivingCaller(states[m], steps[m]);
    } else {
      DeadlineIsFromArrival(states, steps, m, n - 1);
      DeadlineStays(states[n - 1], steps[n - 1], steps[m].id);
    }
  }

  lemma ArrivingCaller(s: State, step: Step)
    requires Enabled(s, step) && step.Arrive?
    ensures var t := Do(s, step);
            && t.now == s.now && step.id in t.calls
            && t.calls[step.id].deadline == s.now + step.timeout && t.calls[step.id].caller.Arriving?
  {
  }

  predicate IsOwnStep(step: Step, id: nat) {
    (step.Lock? || step.WaitTimesOut? || step.WakeSpuriously? || step.Spawn? || step.DropByCaller?
     || step.Hear? || step.StopListening?)
    && step.id == id
  }

  /** How many of its own steps a caller whose deadline has passed can still take. */
  function StepsToDone(caller: Caller): nat {
    match caller
    case Done(_) => 0
    case Listening => 1
    case Abandoning(_) => 1
    case Owning => 2
    case Arriving => 3
    case Awake(_) => 3
    case Parked => 4
  }

  lemma LateStep(s: State, step: Step, id: nat)
    requires Enabled(s, step) && id in s.calls && s.now >= s.calls[id].deadline
    ensures var t := Do(s, step);
            && id in t.calls && t.calls[id].deadline == s.calls[id].deadline && t.now >= s.now
            && StepsToDone(t.calls[id].caller) + (if IsOwnStep(step, id) then 1 else 0)
               <= StepsToDone(s.calls[id].caller)
  {
  }

  /** The number of steps of one caller between two states of a run. */
  function OwnSteps(steps: seq<Step>, id: nat, m: nat, n: nat): nat
    requires m <= n <= |steps|
    decreases n
  {
    if m == n then 0 else OwnSteps(steps, id, m, n - 1) + (if IsOwnStep(steps[n - 1], id) then 1 else 0)
  }

  lemma {:induction false} LateRun(states: seq<State>, steps: seq<Step>, m: nat, n: nat, id: nat)
    requires IsRun(states, steps) && m <= n < |states|
    requires id in states[m].calls && states[m].now >= states[m].calls[id].deadline
    ensures id in states[n].calls && states[n].now >= states[n].calls[id].deadline
    ensures OwnSteps(steps, id, m, n) + StepsToDone(states[n].calls[id].caller)
            <= StepsToDone(states[m].calls[id].caller)
    decreases n
  {
    hide Do, Enabled, StepsToDone, IsOwnStep;
    if m < n {
      LateRun(states, steps, m, n - 1, id);
      LateStep(states[n - 1], steps[n - 1], id);
    }
  }

  lemma LateCallerCanMove(s: State, id: nat) returns (step: Step)
    requires id in s.calls && s.now >= s.calls[id].deadline && !s.calls[id].caller.Done?
    ensures IsOwnStep(step, id) && Enabled(s, step)
  {
    var notified := AnyParked(s);
    step := match s.calls[id].caller
            case Parked => WaitTimesOut(id)
            case Owning => Spawn(id, true)
            case Abandoning(_) => DropByCaller(id, notified)
            case Listening => StopListening(id)
            case _ => Lock(id);
  }

  /**
   A passed deadline ends the waiting, wherever the caller is and whatever the others do: within
   four of its own steps it is done, and until then it always has one to take.
   */
  lemma DeadlineEndsTheCall(states: seq<State>, steps: seq<Step>, m: nat, n: nat, id: nat)
    requires IsRun(states, steps) && m <= n < |states|
    requires id in states[m].calls && states[m].now >= states[m].calls[id].deadline
    ensures id in states[n].calls && OwnSteps(steps, id, m, n) <= 4
    ensures OwnSteps(steps, id, m, n) == 4 ==> states[n].calls[id].caller.Done?
    ensures !states[n].calls[id].caller.Done? ==>
              exists step :: IsOwnStep(step, id) && Enabled(states[n], step)
  {
    LateRun(states, steps, m, n, id);
    if !states[n].calls[id].caller.Done? {
      var step := LateCallerCanMove(states[n], id);
    }
  }

  /** The launch thread is spawned only while there is time left. */
  lemma NobodySpawnsLate(states: seq<State>, steps: seq<Step>, n: nat, id: nat)
    requires IsRun(states, steps) && n < |steps|
    requires id in states[n].calls && states[n].calls[id].thread.NotSpawned?
    requires id in states[n + 1].calls && !states[n + 1].calls[id].thread.NotSpawned?
    ensures steps[n] == Spawn(id, true) && states[n].now < states[n].calls[id].deadline
  {
  }

  // ----- What a caller is told -----

  predicate HasEnded(thread: Thread) {
    thread.Ended? || thread.Released?
  }

  /** Success and failure are what the launch itself reported; a failure may also be that of spawning. */
  predicate IsTruthful(call: Call) {
    && (call.caller == Done(Launched) ==> HasEnded(call.thread) && call.thread.message == Some(Launched))
    && (call.caller == Done(Failed) && !call.thread.NotSpawned? ==>
          HasEnded(call.thread) && call.thread.message != Some(Launched))
    && (call.caller.Abandoning? ==> call.caller.outcome != Launched && call.thread.NotSpawned?)
  }

  ghost predicate AllTruthful(s: State) {
    forall id :: id in s.calls ==> IsTruthful(s.calls[id])
  }

  lemma OneCallStaysTruthful(s: State, t: State, id: nat)
    requires AllTruthful(s) && id in t.calls
    requires t.calls == s.calls[id := t.calls[id]] && IsTruthful(t.calls[id])
    ensures AllTruthful(t)
  {
    hide IsTruthful;
  }

  lemma ReopeningIsTruthful(s: State, notified: Option<nat>)
    requires AllTruthful(s) && CanNotify(s, notified)
    ensures AllTruthful(Reopen(s, notified))
  {
  }

  lemma StepKeepsTruth(s: State, step: Step)
    requires Enabled(s, step) && AllTruthful(s) && ThreadsFollowCallers(s) && TimeoutsAreHonest(s)
    ensures AllTruthful(Do(s, step))
  {
    hide AllTruthful, Reopen;
    TruthfulSoFar(s);
    var t := Do(s, step);
    if step.Tick? {
      TruthfulSoFar(t);
    } else if step.DropByCaller? || step.DropByThread? {
      var open := Reopen(s, step.notified);
      ReopeningIsTruthful(s, step.notified);
      ReopeningSpares(s, step.notified, step.id);
      TruthfulSoFar(open);
      OneCallStaysTruthful(open, t, step.id);
    } else {
      OneCallStaysTruthful(s, t, step.id);
    }
  }

  lemma TruthfulSoFar(s: State)
    ensures AllTruthful(s) <==> forall id :: id in s.calls ==> IsTruthful(s.calls[id])
  {
  }

  lemma {:induction false} RunKeepsTruth(states: seq<State>, steps: seq<Step>, n: nat)
    requires IsRun(states, steps) && n < |states|
    ensures AllTruthful(states[n])
  {
    hide Do, Enabled;
    if n > 0 {
      RunKeepsTruth(states, steps, n - 1);
      RunKeepsInvariant(states, steps, n - 1);
      StepKeepsTruth(states[n - 1], steps[n - 1]);
    }
  }

  lemma DoneStep(s: State, step: Step, id: nat)
    requires Enabled(s, step) && id in s.calls && s.calls[id].caller.Done?
    ensures id in Do(s, step).calls && Do(s, step).calls[id].caller == s.calls[id].caller
  {
  }

  /**
   What a caller was told stays true: it hears of a browser exactly when its own launch reported
   one, of a failure only when spawning failed or the launch reported one or panicked, and of a
   timeout only after its deadline. Its answer never changes.
   */
  lemma {:induction false} AnswersAreTrueAndFinal(states: seq<State>, steps: seq<Step>, m: nat, n: nat, id: nat)
    requires IsRun(states, steps) && m <= n < |states|
    requires id in states[m].calls && states[m].calls[id].caller.Done?
    ensures id in states[n].calls && states[n].calls[id].caller == states[m].calls[id].caller
    ensures var call := states[n].calls[id];
            match call.caller.outcome
            case Launched => HasEnded(call.thread) && call.thread.message == Some(Launched)
            case Failed => call.thread.NotSpawned?
                           || (HasEnded(call.thread) && call.thread.message != Some(Launched))
            case TimedOut => states[n].now >= call.deadline
    decreases n
  {
    hide Do, Enabled;
    RunKeepsTruth(states, steps, n);
    RunKeepsInvariant(states, steps, n);
    if m < n {
      AnswersAreTrueAndFinal(states, steps, m, n - 1, id);
      DoneStep(states[n - 1], steps[n - 1], id);
    }
  }
}
