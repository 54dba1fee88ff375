/**
 The cooperative deadline of one HTML rendering: a clock that other threads let advance, a
 cancel flag that other threads may raise at any moment, and the driver's stages, each of
 which must pass a gate before it starts.

 Instants are natural numbers of nanoseconds. Between any two actions of the driver time may
 advance and the flag may be raised (`Elapse`), so every contract holds for all schedules.
 */
module RenderControl {
  import opened Common

  const WAIT_POLL_INTERVAL := 10_000_000

  datatype RenderError = TimedOut | RendererUnavailable | Navigation | PdfExport | Io

  type Gate = Result<Unit, RenderError>

  /** `Navigate` first clears what the proxy had to block so far, and then navigates. */
  datatype Stage = Launch | NewTab | Navigate | AwaitNavigation | ExportPdf | WriteFile

  /** The stages behind a successful launch, in the driver's order. */
  const AFTER_LAUNCH := [NewTab, Navigate, AwaitNavigation, ExportPdf, WriteFile]

  /** A stage that passed its gate: when the flag was read, and when the stage could start. */
  datatype Started = Started(stage: Stage, checkedAt: nat, at: nat)

  function StagesOf(log: seq<Started>): (r: seq<Stage>)
    ensures |r| == |log|
    ensures forall i :: 0 <= i < |log| ==> r[i] == log[i].stage
  {
    seq(|log|, i requires 0 <= i < |log| => log[i].stage)
  }

  /** Some launch attempts, then a first part of the remaining stages in order. */
  predicate InOrder(stages: seq<Stage>, launches: nat, done: nat) {
    && done <= |AFTER_LAUNCH|
    && (done > 0 ==> launches > 0)
    && stages == seq(launches, _ => Launch) + AFTER_LAUNCH[..done]
  }

  /** The clock, when the cancel flag was first raised, if it was, and whether by another thread. */
  datatype Moment = Moment(now: nat, cancelledAt: Option<nat>, byOthers: bool)

  /** Time only moves forward and a raised flag stays raised, with its first instant. */
  ghost predicate Later(a: Moment, b: Moment) {
    && a.now <= b.now
    && (a.cancelledAt.Some? ==> b.cancelledAt == a.cancelledAt && b.byOthers == a.byOthers)
    && (a.cancelledAt.None? && b.cancelledAt.Some? ==> a.now <= b.cancelledAt.value)
  }

  /** In between, the driver itself raised the flag. */
  ghost predicate GaveUp(a: Moment, b: Moment) {
    a.cancelledAt.None? && b.cancelledAt.Some? && !b.byOthers
  }

  lemma LaterStill(a: Moment, b: Moment, c: Moment)
    requires Later(a, b) && Later(b, c)
    ensures Later(a, c)
  {
  }

  /** A flag that is up in the middle was up at the start or was raised by others. */
  lemma BlameStays(start: Moment, middle: Moment, end: Moment)
    requires Later(middle, end) && !GaveUp(start, middle)
    ensures middle.cancelledAt.Some? ==> start.cancelledAt.Some? || end.byOthers
    ensures GaveUp(start, end) ==> GaveUp(middle, end)
  {
  }

  datatype LaunchResult = Launched | LaunchFailed | LaunchTimedOut

  /** How long each CDP request of a call takes, and the time lost before the first and between them. */
  datatype Requests = Requests(durations: seq<nat>, idle: nat)

  const NO_REQUESTS := Requests([], 0)

  type TwoRequests = r: Requests | |r.durations| == 2 witness Requests([0, 0], 0)

  /** What the browser answers in one rendering. */
  datatype Browser = Browser(
    candidates: seq<LaunchResult>,
    newTab: bool,
    navigate: bool,
    navigateRequests: TwoRequests,
    navigated: bool,
    pdf: bool,
    exportRequests: TwoRequests,
    write: bool)

  class Control {
    const deadline: nat
    const cdpOperationTimeout: nat
    const maxInstant: nat
    var now: nat
    var cancelled: bool
    ghost var cancelledAt: Option<nat> // when the flag was first raised
    ghost var byOthers: bool           // whether another thread raised it
    ghost var log: seq<Started>

    /** The flag and its history agree, and nothing in the log broke the rules. */
    ghost predicate Valid()
      reads this
    {
      && (cancelled <==> cancelledAt.Some?)
      && (cancelled ==> cancelledAt.value <= now)
      && (byOthers ==> cancelled)
      && forall i :: 0 <= i < |log| ==>
           && log[i].checkedAt <= log[i].at < deadline
           && log[i].at <= now
           && (cancelled ==> log[i].checkedAt <= cancelledAt.value)
    }

    ghost function Present(): Moment
      reads this
    {
      Moment(now, cancelledAt, byOthers)
    }

    constructor (deadline: nat, cdpOperationTimeout: nat, maxInstant: nat, now: nat)
      ensures Valid() && !cancelled && log == [] && this.now == now
      ensures this.deadline == deadline && this.cdpOperationTimeout == cdpOperationTimeout
      ensures this.maxInstant == maxInstant
    {
      this.deadline := deadline;
      this.cdpOperationTimeout := cdpOperationTimeout;
      this.maxInstant := maxInstant;
      this.now := now;
      cancelled, cancelledAt, byOthers, log := false, None, false, [];
    }

    /** Other threads run: time passes, and the renderer's own timeout may raise the flag. */
    method Elapse(atLeast: nat)
      requires Valid()
      modifies this`now, this`cancelled, this`cancelledAt, this`byOthers
      ensures Valid() && Later(old(Present()), Present())
      ensures now >= old(now) + atLeast
      ensures cancelled ==> old(cancelled) || byOthers
    {
      var more: nat :| 0 <= more;
      var raise: bool :| raise || !raise;
      now := now + atLeast + more;
      if raise && !cancelled {
        cancelled, cancelledAt, byOthers := true, Some(now), true;
      }
    }

    /** There is no time left for this many CDP requests. */
    ghost predicate RanOut(requestCount: nat)
      reads this
    {
      now >= deadline || now + cdpOperationTimeout * requestCount > deadline
    }

    method Cancel()
      requires Valid()
      modifies this`cancelled, this`cancelledAt
      ensures Valid() && Later(old(Present()), Present()) && cancelled
      ensures !old(cancelled) ==> cancelledAt == Some(now)
    {
      if !cancelled {
        cancelled, cancelledAt := true, Some(now);
      }
    }

    /** Reads the flag, then the clock; `checkedAt` is the instant of the first reading. */
    method CheckActive() returns (r: Gate, ghost checkedAt: nat)
      requires Valid()
      modifies this`now, this`cancelled, this`cancelledAt, this`byOthers
      ensures Valid() && Later(old(Present()), Present())
      ensures old(cancelled) ==> r.Err?
      ensures r.Ok? ==> now < deadline && old(now) <= checkedAt <= now
      ensures r.Ok? && cancelled ==> checkedAt <= cancelledAt.value
      ensures r.Err? ==> r.error == TimedOut && cancelled
      ensures r.Err? ==> old(cancelled) || byOthers || RanOut(0)
      ensures GaveUp(old(Present()), Present()) ==> r.Err?
    {
      Elapse(0);
      checkedAt := now;
      if cancelled {
        return Err(TimedOut), checkedAt;
      }
      Elapse(0);
      if now >= deadline {
        Cancel();
        return Err(TimedOut), checkedAt;
      }
      return Ok(Unit), checkedAt;
    }

    method Remaining() returns (r: Result<nat, RenderError>, ghost checkedAt: nat)
      requires Valid()
      modifies this`now, this`cancelled, this`cancelledAt, this`byOthers
      ensures Valid() && Later(old(Present()), Present())
      ensures old(cancelled) ==> r.Err?
      ensures r.Ok? ==> 0 < r.value && now + r.value == deadline && old(now) <= checkedAt <= now
      ensures r.Ok? && cancelled ==> checkedAt <= cancelledAt.value
      ensures r.Err? ==> r.error == TimedOut && cancelled
      ensures r.Err? ==> old(cancelled) || byOthers || RanOut(0)
      ensures GaveUp(old(Present()), Present()) ==> r.Err?
    {
      var active: Gate;
      active, checkedAt := CheckActive();
      if active.Err? {
        return Err(active.error), checkedAt;
      }
      Elapse(0);
      if deadline <= now {
        Cancel();
        return Err(TimedOut), checkedAt;
      }
      return Ok(deadline - now), checkedAt;
    }

    /** Opens only when all the requests of the coming call fit before the deadline. */
    method BeforeCdpOperations(requestCount: nat) returns (r: Gate, ghost checkedAt: nat)
      requires Valid()
      modifies this`now, this`cancelled, this`cancelledAt, this`byOthers
      ensures Valid() && Later(old(Present()), Present())
      ensures old(cancelled) ==> r.Err?
      ensures r.Ok? ==> now < deadline && now + cdpOperationTimeout * requestCount <= deadline
      ensures r.Ok? ==> old(now) <= checkedAt <= now
      ensures r.Ok? && cancelled ==> checkedAt <= cancelledAt.value
      ensures r.Err? ==> r.error == TimedOut && cancelled
      ensures r.Err? ==> old(cancelled) || byOthers || RanOut(requestCount)
      ensures GaveUp(old(Present()), Present()) ==> r.Err?
    {
      var remaining: Result<nat, RenderError>;
      remaining, checkedAt := Remaining();
      if remaining.Err? {
        return Err(remaining.error), checkedAt;
      }
      if remaining.value < cdpOperationTimeout * requestCount {
        Cancel();
        return Err(TimedOut), checkedAt;
      }
      return Ok(Unit), checkedAt;
    }

    /** Sleeps in short naps until the duration is over; a clock overflow waits for the deadline instead. */
    method Wait(duration: nat) returns (r: Gate)
      requires Valid()
      modifies this`now, this`cancelled, this`cancelledAt, this`byOthers
      ensures Valid() && Later(old(Present()), Present())
      ensures old(cancelled) ==> r.Err?
      ensures r.Ok? && deadline + duration <= maxInstant ==> now >= old(now) + duration
      ensures r.Ok? ==> now >= old(now) + duration || now >= deadline
      ensures r.Err? ==> r.error == TimedOut && cancelled
      ensures r.Err? ==> old(cancelled) || byOthers || RanOut(0)
      ensures GaveUp(old(Present()), Present()) ==> r.Err?
    {
      Elapse(0);
      var start := now;
      var waitDeadline := if start + duration > maxInstant then deadline else start + duration;
      while true
        invariant Valid() && Later(old(Present()), Present())
        invariant start <= now
        invariant old(cancelled) ==> cancelled
        invariant !GaveUp(old(Present()), Present())
        decreases waitDeadline - now
      {
        var active, _ := CheckActive();
        if active.Err? {
          return active;
        }
        Elapse(0);
        var current := now;
        if current >= waitDeadline {
          return Ok(Unit);
        }
        var remaining, _ := Remaining();
        if remaining.Err? {
          return Err(remaining.error);
        }
        var nap := Min(Min(remaining.value, waitDeadline - current), WAIT_POLL_INTERVAL);
        Elapse(nap);
      }
    }

    /** Records that a stage starts now, behind a gate that read the flag at `checkedAt`. */
    ghost method Start(stage: Stage, checkedAt: nat)
      requires Valid()
      requires checkedAt <= now < deadline && (cancelled ==> checkedAt <= cancelledAt.value)
      modifies this`log
      ensures Valid()
      ensures log == old(log) + [Started(stage, checkedAt, now)]
      ensures StagesOf(log) == StagesOf(old(log)) + [stage]
    {
      log := log + [Started(stage, checkedAt, now)];
    }
  }

  lemma FlagIsRecorded(control: Control)
    requires control.Valid()
    ensures control.cancelled <==> control.Present().cancelledAt.Some?
  {
  }

  lemma StartsArePast(control: Control)
    requires control.Valid()
    ensures forall i :: 0 <= i < |control.log| ==> control.log[i].at <= control.now
  {
  }

  function Sum(durations: seq<nat>): nat {
    if durations == [] then 0 else durations[0] + Sum(durations[1..])
  }

  function Elapsed(requests: Requests): nat {
    requests.idle + Sum(requests.durations)
  }

  /** Each request takes no longer than the per-request bound. */
  predicate KeepsBound(durations: seq<nat>, bound: nat) {
    forall i :: 0 <= i < |durations| ==> durations[i] <= bound
  }

  /** Then together they take no longer than the gate allowed for. */
  lemma {:induction false} GroupKeepsWithinBudget(durations: seq<nat>, bound: nat)
    requires KeepsBound(durations, bound)
    ensures Sum(durations) <= bound * |durations|
  {
    if durations != [] {
      GroupKeepsWithinBudget(durations[1..], bound);
    }
  }

  /** `log` is `before` with one more stage. */
  ghost predicate OneMore(log: seq<Started>, before: seq<Started>, stage: Stage) {
    |log| == |before| + 1 && log[..|before|] == before && log[|before|].stage == stage
  }

  /**
   When each of the stage's requests keeps the bound, the last is over by the deadline, or later
   by no more than the time that was lost before and between them.
   */
  ghost predicate EndsInTime(started: Started, requests: Requests, bound: nat, deadline: nat) {
    KeepsBound(requests.durations, bound) ==> started.at + Elapsed(requests) <= deadline + requests.idle
  }

  /**
   Starts a stage behind a gate for its CDP requests, and performs them; with no requests the
   gate only asks for some time to be left.
   */
  method RunAdmittedGroup(control: Control, stage: Stage, requests: Requests) returns (r: Gate, ghost started: bool)
    requires control.Valid()
    modifies control`now, control`cancelled, control`cancelledAt, control`byOthers, control`log
    ensures control.Valid() && Later(old(control.Present()), control.Present())
    ensures old(control.cancelled) ==> !started
    ensures !started ==> r == Err(TimedOut) && control.log == old(control.log)
    ensures !started ==> old(control.cancelled) || control.byOthers || control.RanOut(|requests.durations|)
    ensures started ==> !GaveUp(old(control.Present()), control.Present())
    ensures started ==> r == Ok(Unit) && OneMore(control.log, old(control.log), stage)
    ensures started ==> StagesOf(control.log) == StagesOf(old(control.log)) + [stage]
    ensures started ==> old(control.now) <= control.log[|old(control.log)|].at
    ensures started ==> control.log[|old(control.log)|].at + Elapsed(requests) <= control.now
    ensures started ==>
              EndsInTime(control.log[|old(control.log)|], requests, control.cdpOperationTimeout, control.deadline)
  {
    ghost var checkedAt: nat;
    started := false;
    r, checkedAt := control.BeforeCdpOperations(|requests.durations|);
    if r.Err? {
      return;
    }
    if KeepsBound(requests.durations, control.cdpOperationTimeout) {
      GroupKeepsWithinBudget(requests.durations, control.cdpOperationTimeout);
    }
    control.Start(stage, checkedAt);
    started := true;
    control.Elapse(Elapsed(requests));
    r := Ok(Unit);
  }

  /** What the last of some launch attempts came to. */
  predicate EndedWith(candidates: seq<LaunchResult>, launches: nat, result: LaunchResult) {
    0 < launches <= |candidates| && candidates[launches - 1] == result
  }

  /** Tries the installed browsers in order until one starts. */
  method LaunchFirstAvailable(control: Control, candidates: seq<LaunchResult>) returns (r: Gate, ghost launches: nat)
    requires control.Valid() && control.log == []
    modifies control`now, control`cancelled, control`cancelledAt, control`byOthers, control`log
    ensures control.Valid() && Later(old(control.Present()), control.Present())
    ensures StagesOf(control.log) == seq(launches, _ => Launch)
    ensures old(control.cancelled) ==> launches == 0 && r.Err?
    ensures launches <= |candidates| && forall i :: 0 <= i < launches - 1 ==> candidates[i] == LaunchFailed
    ensures r == Err(RendererUnavailable) ==>
              launches == |candidates| && forall i :: 0 <= i < launches ==> candidates[i] == LaunchFailed
    ensures r.Err? ==> r.error == RendererUnavailable || r.error == TimedOut
    ensures r == Err(TimedOut) ==>
              || old(control.cancelled) || control.byOthers || control.RanOut(0)
              || EndedWith(candidates, launches, LaunchTimedOut)
    ensures r.Ok? <==> EndedWith(candidates, launches, Launched)
    ensures GaveUp(old(control.Present()), control.Present()) ==> r == Err(TimedOut)
  {
    launches := 0;
    for n := 0 to |candidates|
      invariant control.Valid() && Later(old(control.Present()), control.Present())
      invariant launches == n && StagesOf(control.log) == seq(launches, _ => Launch)
      invariant old(control.cancelled) ==> n == 0 && control.cancelled
      invariant forall i :: 0 <= i < n ==> candidates[i] == LaunchFailed
      invariant !GaveUp(old(control.Present()), control.Present())
    {
      var remaining, checkedAt := control.Remaining();
      if remaining.Err? {
        return Err(remaining.error), launches;
      }
      control.Start(Launch, checkedAt);
      launches := launches + 1;
      control.Elapse(0);
      match candidates[n]
      case Launched => return Ok(Unit), launches;
      case LaunchTimedOut => return Err(TimedOut), launches;
      case LaunchFailed =>
    }
    return Err(RendererUnavailable), launches;
  }

  /** A stage of the driver: it starts behind its gate or not at all, and then succeeds or fails. */
  method RunStage(control: Control, stage: Stage, requests: Requests, succeeds: bool, failure: RenderError)
    returns (r: Gate, ghost started: bool)
    requires control.Valid()
    modifies control`now, control`cancelled, control`cancelledAt, control`byOthers, control`log
    ensures control.Valid() && Later(old(control.Present()), control.Present())
    ensures old(control.cancelled) ==> !started
    ensures !started ==> r == Err(TimedOut) && control.log == old(control.log)
    ensures !started ==> old(control.cancelled) || control.byOthers || control.RanOut(|requests.durations|)
    ensures started ==> !GaveUp(old(control.Present()), control.Present())
    ensures started ==> r == (if succeeds then Ok(Unit) else Err(failure))
    ensures started ==> OneMore(control.log, old(control.log), stage)
    ensures started ==> StagesOf(control.log) == StagesOf(old(control.log)) + [stage]
    ensures started ==> old(control.now) <= control.log[|old(control.log)|].at
    ensures started ==> control.log[|old(control.log)|].at + Elapsed(requests) <= control.now
    ensures started ==>
              EndsInTime(control.log[|old(control.log)|], requests, control.cdpOperationTimeout, control.deadline)
  {
    r, started := RunAdmittedGroup(control, stage, requests);
    if r.Ok? && !succeeds {
      r := Err(failure);
    }
  }

  /** Stages behind those of `before`, which stay as they were. */
  ghost predicate Continues(log: seq<Started>, before: seq<Started>, stages: seq<Stage>) {
    && |log| == |before| + |stages|
    && log[..|before|] == before
    && StagesOf(log) == StagesOf(before) + stages
  }

  lemma ContinuesNot(log: seq<Started>)
    ensures Continues(log, log, [])
  {
    assert StagesOf(log) + [] == StagesOf(log);
  }

  lemma ContinuesBy(log: seq<Started>, middle: seq<Started>, before: seq<Started>, a: seq<Stage>, b: seq<Stage>)
    requires Continues(middle, before, a) && Continues(log, middle, b)
    ensures Continues(log, before, a + b)
    ensures forall i :: 0 <= i < |middle| ==> log[i] == middle[i]
  {
    hide StagesOf;
    assert forall i :: 0 <= i < |middle| ==> log[i] == log[..|middle|][i];
    assert log[..|before|] == middle[..|before|];
    assert StagesOf(before) + a + b == StagesOf(before) + (a + b);
  }

  lemma OneMoreContinues(log: seq<Started>, before: seq<Started>, stage: Stage)
    requires OneMore(log, before, stage) && StagesOf(log) == StagesOf(before) + [stage]
    ensures Continues(log, before, [stage])
  {
  }

  lemma FirstParts()
    ensures AFTER_LAUNCH[..0] == [] && AFTER_LAUNCH[..1] == [NewTab]
    ensures AFTER_LAUNCH[..2] == [NewTab] + [Navigate] == [NewTab, Navigate]
    ensures AFTER_LAUNCH[..3] == [NewTab, Navigate] + [AwaitNavigation]
    ensures AFTER_LAUNCH[3..3] == [] && AFTER_LAUNCH[3..4] == [ExportPdf]
    ensures AFTER_LAUNCH[3..5] == [ExportPdf] + [WriteFile]
  {
  }

  /** The requests that the next gate makes room for, behind these launch attempts and stages. */
  function GateRequests(browser: Browser, launches: nat, done: nat): nat {
    if !EndedWith(browser.candidates, launches, Launched) then 0 else PageGateRequests(done)
  }

  /** The same with the browser running: opening the tab, the navigation and the export send requests. */
  function PageGateRequests(done: nat): nat {
    match done
    case 0 => 1
    case 1 => 2
    case 3 => 2
    case _ => 0
  }

  /** The stages that have started were reached through the success of those before. */
  predicate ReachedBySuccess(browser: Browser, done: nat) {
    && (done >= 2 ==> browser.newTab)
    && (done >= 3 ==> browser.navigate)
    && (done >= 4 ==> browser.navigated)
    && (done >= 5 ==> browser.pdf)
  }

  /** A failure of the browser is that of the stage that started last. */
  predicate FailedAt(browser: Browser, error: RenderError, done: nat) {
    match error
    case Navigation =>
      (done == 1 && !browser.newTab) || (done == 2 && !browser.navigate) || (done == 3 && !browser.navigated)
    case PdfExport => done == 4 && !browser.pdf
    case Io => done == 5 && !browser.write
    case _ => false
  }

  /** An error other than a timeout is a failure of the browser, and this is which. */
  predicate BrowserFailed(browser: Browser, error: RenderError, launches: nat, done: nat) {
    if error.RendererUnavailable? then
      && done == 0 && launches == |browser.candidates|
      && (forall i :: 0 <= i < launches ==> browser.candidates[i] == LaunchFailed)
    else FailedAt(browser, error, done)
  }

  /** Opens the page: the stages up to the finished navigation. */
  method OpenPage(control: Control, browser: Browser) returns (r: Gate, ghost done: nat)
    requires control.Valid()
    modifies control`now, control`cancelled, control`cancelledAt, control`byOthers, control`log
    ensures control.Valid() && Later(old(control.Present()), control.Present())
    ensures old(control.cancelled) ==> done == 0 && r.Err?
    ensures done <= 3 && Continues(control.log, old(control.log), AFTER_LAUNCH[..done])
    ensures r.Ok? ==> done == 3 && browser.newTab && browser.navigate && browser.navigated
    ensures ReachedBySuccess(browser, done)
    ensures r.Err? && r.error != TimedOut ==> FailedAt(browser, r.error, done)
    ensures r == Err(TimedOut) ==> old(control.cancelled) || control.byOthers || control.RanOut(PageGateRequests(done))
    ensures GaveUp(old(control.Present()), control.Present()) ==> r == Err(TimedOut)
    ensures done >= 1 ==> old(control.now) + control.cdpOperationTimeout <= control.deadline
    ensures done >= 2 ==>
              EndsInTime(control.log[|old(control.log)| + 1], browser.navigateRequests,
                         control.cdpOperationTimeout, control.deadline)
    ensures done >= 3 ==> control.log[|old(control.log)| + 1].at + Elapsed(browser.navigateRequests)
                          <= control.log[|old(control.log)| + 2].at <= control.now
  {
    hide StagesOf, Later, Control.Valid, EndsInTime, Continues, Elapsed, GaveUp;
    ghost var start, before := control.Present(), control.log;
    ghost var checkedAt: nat;
    ghost var started: bool;
    done := 0;
    ContinuesNot(before);
    FirstParts();
    FlagIsRecorded(control);
    r, checkedAt := control.BeforeCdpOperations(1);
    if r.Err? {
      return;
    }
    ghost var gate := control.Present();
    FlagIsRecorded(control);
    r, started := RunStage(control, NewTab, NO_REQUESTS, browser.newTab, Navigation);
    LaterStill(start, gate, control.Present());
    BlameStays(start, gate, control.Present());
    ghost var tab, tabLog := control.Present(), control.log;
    if started {
      done := 1;
      OneMoreContinues(tabLog, before, NewTab);
    }
    if r.Err? {
      return;
    }
    FlagIsRecorded(control);
    r, started := RunStage(control, Navigate, browser.navigateRequests, browser.navigate, Navigation);
    LaterStill(start, tab, control.Present());
    BlameStays(start, tab, control.Present());
    ghost var page, pageLog := control.Present(), control.log;
    if started {
      done := 2;
      OneMoreContinues(pageLog, tabLog, Navigate);
      ContinuesBy(pageLog, tabLog, before, [NewTab], [Navigate]);
    }
    if r.Err? {
      return;
    }
    FlagIsRecorded(control);
    r, started := RunStage(control, AwaitNavigation, NO_REQUESTS, browser.navigated, Navigation);
    LaterStill(start, page, control.Present());
    BlameStays(start, page, control.Present());
    if started {
      done := 3;
      OneMoreContinues(control.log, pageLog, AwaitNavigation);
      ContinuesBy(control.log, pageLog, before, [NewTab, Navigate], [AwaitNavigation]);
    }
  }

  /** Lets the page settle, then exports and writes the PDF. */
  method ExportPage(control: Control, browser: Browser, wait: nat) returns (r: Gate, ghost done: nat)
    requires control.Valid()
    modifies control`now, control`cancelled, control`cancelledAt, control`byOthers, control`log
    ensures control.Valid() && Later(old(control.Present()), control.Present())
    ensures done <= 2 && Continues(control.log, old(control.log), AFTER_LAUNCH[3..3 + done])
    ensures r.Ok? ==> done == 2 && browser.pdf && browser.write
    ensures done == 2 ==> browser.pdf
    ensures r.Err? && r.error != TimedOut ==> FailedAt(browser, r.error, 3 + done)
    ensures r == Err(TimedOut) ==>
              old(control.cancelled) || control.byOthers || control.RanOut(PageGateRequests(3 + done))
    ensures GaveUp(old(control.Present()), control.Present()) ==> r == Err(TimedOut)
    ensures done >= 1 && control.deadline + wait <= control.maxInstant ==>
              control.log[|old(control.log)|].at >= old(control.now) + wait
    ensures done >= 1 ==>
              EndsInTime(control.log[|old(control.log)|], browser.exportRequests,
                         control.cdpOperationTimeout, control.deadline)
    ensures done >= 2 ==> control.log[|old(control.log)|].at + Elapsed(browser.exportRequests)
                          <= control.log[|old(control.log)| + 1].at
  {
    hide StagesOf, EndsInTime, Continues, Elapsed;
    ghost var start, before := control.Present(), control.log;
    ghost var checkedAt: nat;
    ghost var started: bool;
    done := 0;
    ContinuesNot(before);
    FirstParts();
    r := control.Wait(wait);
    if r.Err? {
      return;
    }
    r, started := RunStage(control, ExportPdf, browser.exportRequests, browser.pdf, PdfExport);
    ghost var exported := control.log;
    if started {
      done := 1;
      OneMoreContinues(exported, before, ExportPdf);
    }
    if r.Err? {
      return;
    }
    r, checkedAt := control.CheckActive();
    if r.Err? {
      return;
    }
    control.Start(WriteFile, checkedAt);
    done := 2;
    OneMoreContinues(control.log, exported, WriteFile);
    ContinuesBy(control.log, exported, before, [ExportPdf], [WriteFile]);
    control.Elapse(0);
    r := if browser.write then Ok(Unit) else Err(Io);
  }

  lemma ThreeThenMore(log: seq<Started>, middle: seq<Started>, before: seq<Started>, more: nat)
    requires more <= 2
    requires Continues(middle, before, AFTER_LAUNCH[..3]) && Continues(log, middle, AFTER_LAUNCH[3..3 + more])
    ensures Continues(log, before, AFTER_LAUNCH[..3 + more])
    ensures forall i :: 0 <= i < |middle| ==> log[i] == middle[i]
  {
    hide Continues;
    ContinuesBy(log, middle, before, AFTER_LAUNCH[..3], AFTER_LAUNCH[3..3 + more]);
    assert AFTER_LAUNCH[..3 + more] == AFTER_LAUNCH[..3] + AFTER_LAUNCH[3..3 + more];
  }

  lemma LaunchesThenMore(log: seq<Started>, launched: seq<Started>, launches: nat, done: nat)
    requires StagesOf(launched) == seq(launches, _ => Launch)
    requires done <= |AFTER_LAUNCH| && (done > 0 ==> launches > 0)
    requires Continues(log, launched, AFTER_LAUNCH[..done])
    ensures InOrder(StagesOf(log), launches, done)
    ensures |launched| == launches && |log| == launches + done
    ensures forall i :: 0 <= i < launches ==> log[i] == launched[i]
  {
    assert forall i :: 0 <= i < |launched| ==> log[i] == log[..|launched|][i];
  }

  /**
   One rendering by the driver: the stages that started are launch attempts followed by a first
   part of the fixed order, all of them when the rendering succeeds; the export starts only after
   the page has had its full settling time; and navigation and export, when their requests keep
   the per-request bound, are over before the next stage, and by the deadline but for lost time.
   */
  method Render(control: Control, browser: Browser, wait: nat) returns (r: Gate, ghost launches: nat, ghost done: nat)
    requires control.Valid() && control.log == []
    modifies control`now, control`cancelled, control`cancelledAt, control`byOthers, control`log
    ensures control.Valid() && Later(old(control.Present()), control.Present())
    ensures InOrder(StagesOf(control.log), launches, done) && |control.log| == launches + done
    ensures old(control.cancelled) ==> control.log == [] && r.Err?
    ensures r.Ok? ==> done == |AFTER_LAUNCH|
                      && browser.newTab && browser.navigate && browser.navigated && browser.pdf && browser.write
    ensures launches <= |browser.candidates|
    ensures forall i :: 0 <= i < launches - 1 ==> browser.candidates[i] == LaunchFailed
    ensures done >= 1 ==> EndedWith(browser.candidates, launches, Launched) && ReachedBySuccess(browser, done)
    ensures r.Err? && r.error != TimedOut ==> BrowserFailed(browser, r.error, launches, done)
    ensures r == Err(TimedOut) ==>
              || old(control.cancelled) || control.byOthers || control.RanOut(GateRequests(browser, launches, done))
              || (done == 0 && EndedWith(browser.candidates, launches, LaunchTimedOut))
    ensures GaveUp(old(control.Present()), control.Present()) ==> r == Err(TimedOut)
    ensures done >= 1 ==> control.log[launches - 1].at + control.cdpOperationTimeout <= control.deadline
    ensures done >= 2 ==>
              EndsInTime(control.log[launches + 1], browser.navigateRequests,
                         control.cdpOperationTimeout, control.deadline)
    ensures done >= 3 ==>
              control.log[launches + 1].at + Elapsed(browser.navigateRequests) <= control.log[launches + 2].at
    ensures done >= 4 && control.deadline + wait <= control.maxInstant ==>
              control.log[launches + 3].at >= control.log[launches + 2].at + wait
    ensures done >= 4 ==>
              EndsInTime(control.log[launches + 3], browser.exportRequests,
                         control.cdpOperationTimeout, control.deadline)
    ensures done >= 5 ==>
              control.log[launches + 3].at + Elapsed(browser.exportRequests) <= control.log[launches + 4].at
  {
    hide StagesOf, Later, Control.Valid, EndsInTime, Continues, InOrder, Elapsed, GaveUp, Control.RanOut;
    ghost var start := control.Present();
    done := 0;
    FlagIsRecorded(control);
    r, launches := LaunchFirstAvailable(control, browser.candidates);
    ghost var ready, launched := control.Present(), control.log;
    ContinuesNot(launched);
    LaunchesThenMore(launched, launched, launches, 0);
    FlagIsRecorded(control);
    StartsArePast(control);
    if r.Err? {
      return;
    }
    r, done := OpenPage(control, browser);
    ghost var page, pageLog := control.Present(), control.log;
    FlagIsRecorded(control);
    LaterStill(start, ready, page);
    BlameStays(start, ready, page);
    LaunchesThenMore(pageLog, launched, launches, done);
    if r.Err? {
      return;
    }
    ghost var exported: nat;
    r, exported := ExportPage(control, browser, wait);
    done := 3 + exported;
    LaterStill(start, page, control.Present());
    BlameStays(start, page, control.Present());
    ThreeThenMore(control.log, pageLog, launched, exported);
    LaunchesThenMore(control.log, launched, launches, done);
  }

  function Min(a: nat, b: nat): nat {
    if a <= b then a else b
  }
}
