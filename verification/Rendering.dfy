/**
 A whole rendering: the driver under its deadline, the proxy that serves the page meanwhile, and
 the result that depends on both.
 */
module Rendering {
  import opened Common
  import opened RenderControl
  import Proxy

  /** How often the driver has started to navigate. */
  function Navigations(stages: seq<Stage>): nat {
    if stages == [] then 0
    else Navigations(stages[..|stages| - 1]) + (if stages[|stages| - 1].Navigate? then 1 else 0)
  }

  /** How often the tracker of blocked resources was cleared. */
  function Clears(steps: seq<Proxy.Step>): nat {
    if steps == [] then 0 else (if steps[0].ClearRejected? then 1 else 0) + Clears(steps[1..])
  }

  lemma {:induction false} NavigationsConcat(a: seq<Stage>, b: seq<Stage>)
    ensures Navigations(a + b) == Navigations(a) + Navigations(b)
    decreases |b|
  {
    if b == [] {
      assert a + b == a;
    } else {
      assert (a + b)[..|a + b| - 1] == a + b[..|b| - 1];
      NavigationsConcat(a, b[..|b| - 1]);
    }
  }

  lemma {:induction false} LaunchesDoNotNavigate(launches: nat)
    ensures Navigations(seq(launches, _ => Launch)) == 0
  {
    if launches > 0 {
      var stages := seq(launches, _ => Launch);
      assert stages[..launches - 1] == seq(launches - 1, _ => Launch);
      LaunchesDoNotNavigate(launches - 1);
    }
  }

  lemma {:induction false} NavigationsAfterLaunch(done: nat)
    requires done <= |AFTER_LAUNCH|
    ensures Navigations(AFTER_LAUNCH[..done]) == if done >= 2 then 1 else 0
  {
    if done > 0 {
      assert AFTER_LAUNCH[..done][..done - 1] == AFTER_LAUNCH[..done - 1];
      NavigationsAfterLaunch(done - 1);
    }
  }

  /** The driver navigates once, as its second stage behind the launch. */
  lemma NavigatesOnce(stages: seq<Stage>, launches: nat, done: nat)
    requires InOrder(stages, launches, done)
    ensures Navigations(stages) == if done >= 2 then 1 else 0
  {
    NavigationsConcat(seq(launches, _ => Launch), AFTER_LAUNCH[..done]);
    LaunchesDoNotNavigate(launches);
    NavigationsAfterLaunch(done);
  }

  /** Renders and concludes; `rejected` is what the tracker holds when the driver is done. */
  method RenderHtml(control: Control, browser: Browser, wait: nat, rejected: Option<string>)
    returns (outcome: Proxy.RenderOutcome, result: Gate, active: bool, ghost launches: nat, ghost done: nat)
    requires control.Valid() && control.log == []
    modifies control`now, control`cancelled, control`cancelledAt, control`byOthers, control`log
    ensures outcome == Proxy.Conclude(result.Ok?, rejected, active)
    ensures InOrder(StagesOf(control.log), launches, done) && (result.Ok? ==> done == |AFTER_LAUNCH|)
    ensures outcome.Rendered? ==> control.now < control.deadline
    ensures result.Err? && result.error != TimedOut ==> BrowserFailed(browser, result.error, launches, done)
    ensures result == Err(TimedOut) ==>
              || old(control.cancelled) || control.byOthers || control.RanOut(GateRequests(browser, launches, done))
              || (done == 0 && EndedWith(browser.candidates, launches, LaunchTimedOut))
    ensures outcome.Stopped? ==> control.byOthers || control.now >= control.deadline
    ensures old(control.cancelled) ==> outcome.DriverFailed? && control.log == []
  {
    result, launches, done := Render(control, browser, wait);
    active := false;
    if result.Err? {
      return Proxy.DriverFailed, result, active, launches, done;
    }
    if rejected.Some? {
      return Proxy.Blocked(rejected.value), result, active, launches, done;
    }
    var check, _ := control.CheckActive();
    active := check.Ok?;
    outcome := if active then Proxy.Rendered else Proxy.Stopped;
  }

  lemma {:induction false} NoClear(steps: seq<Proxy.Step>)
    requires Clears(steps) == 0
    ensures forall i :: 0 <= i < |steps| ==> !steps[i].ClearRejected?
  {
    if steps != [] {
      NoClear(steps[1..]);
      assert forall i :: 0 < i < |steps| ==> steps[i] == steps[1..][i - 1];
    }
  }

  lemma {:induction false} OnlyClear(steps: seq<Proxy.Step>) returns (c: nat)
    requires Clears(steps) == 1
    ensures c < |steps| && steps[c].ClearRejected?
    ensures forall i :: c < i < |steps| ==> !steps[i].ClearRejected?
  {
    if steps[0].ClearRejected? {
      c := 0;
      NoClear(steps[1..]);
    } else {
      c := OnlyClear(steps[1..]);
      c := c + 1;
    }
    assert forall i :: 0 < i < |steps| ==> steps[i] == steps[1..][i - 1];
  }

  /**
   The result of a whole rendering. The tracker is cleared by the driver as it starts to navigate
   and by nobody else; whatever was blocked before that is forgotten. The page is rendered exactly
   when the driver succeeded, was not stopped, and nothing has been blocked for the page since it
   navigated; and after a successful driver the first such block is what the result names.
   */
  lemma RenderedExactly(
    lib: Proxy.Library, config: Proxy.Config, steps: seq<Proxy.Step>,
    stages: seq<Stage>, launches: nat, done: nat, driverOk: bool, active: bool)
    returns (c: nat)
    requires InOrder(stages, launches, done) && (driverOk ==> done == |AFTER_LAUNCH|)
    requires Proxy.IsRun(lib, config, Proxy.START, steps) && Clears(steps) == Navigations(stages)
    ensures var rejected := Proxy.Run(lib, config, Proxy.START, steps).tracker.rejected;
            var outcome := Proxy.Conclude(driverOk, rejected, active);
            if !driverOk then outcome.DriverFailed?
            else
              && c < |steps| && steps[c].ClearRejected?
              && (forall i :: c < i < |steps| ==> !steps[i].ClearRejected?)
              && steps == steps[..c + 1] + steps[c + 1..]
              && Proxy.IsRun(lib, config, Proxy.START, steps[..c + 1])
              && var navigating := Proxy.Run(lib, config, Proxy.START, steps[..c + 1]);
              && Proxy.IsRun(lib, config, navigating, steps[c + 1..])
              && var blocks := Proxy.PageBlocks(lib, config, navigating, steps[c + 1..]);
              && (outcome.Rendered? <==> active && blocks == [])
              && (blocks != [] ==> outcome == Proxy.Blocked(blocks[0]))
  {
    hide Proxy.Respond, Proxy.BelongsToPage, Proxy.PageBlock, Proxy.PageBlocks, Clears, Navigations;
    c := 0;
    if driverOk {
      NavigatesOnce(stages, launches, done);
      c := OnlyClear(steps);
      var before, since := steps[..c], steps[c + 1..];
      assert steps == before + ([steps[c]] + since);
      assert steps[..c + 1] == before + [steps[c]];
      Proxy.RunSplits(lib, config, Proxy.START, before, [steps[c]] + since);
      var unsettled := Proxy.Run(lib, config, Proxy.START, before);
      Proxy.RunSplits(lib, config, unsettled, [steps[c]], since);
      assert steps == steps[..c + 1] + since;
      Proxy.RunSplits(lib, config, Proxy.START, steps[..c + 1], since);
      Proxy.RunSplits(lib, config, Proxy.START, before, [steps[c]]);
      Proxy.OneStep(lib, config, unsettled, steps[c]);
      Proxy.RenderReportsFirstBlock(lib, config, unsettled, since, driverOk, active);
    }
  }
}
