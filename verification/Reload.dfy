/**
 Reloading the environment: the dispatcher's stop and start (src/blueapi/service/runner.py), the request that
 schedules them (src/blueapi/service/main.py), and the client that polls until a new environment is up
 (src/blueapi/client/client.py).  Reloads scheduled by several requests may run at the same time.
 */
module Reload {
  import opened Basics

  /** A uuid */
  type EnvironmentId = nat

  datatype EnvironmentResponse = EnvironmentResponse(id: EnvironmentId, initialized: bool, error: Option<string>)

  // ---------- the server ----------

  /** Where a thread that stops and then starts the dispatcher is. */
  datatype Job =
    | Scheduled
    | TearingDown(captured: EnvironmentId)  // in stop, after reading the id
    | Down                                  // between stop and start
    | SettingUp(drawn: EnvironmentId)       // in start, after drawing the id
    | Finished

  datatype Server = Server(env: EnvironmentResponse, jobs: seq<Job>)

  datatype Step =
    | Delete                                // DELETE /environment
    | BeginStop(job: nat)
    | EndStop(job: nat, raised: Option<string>)
    | BeginStart(job: nat, drawn: EnvironmentId)
    | EndStart(job: nat, raised: Option<string>)
    | Poll                                  // GET /environment

  predicate Enabled(s: Server, a: Step) {
    match a
    case Delete => true
    case BeginStop(j) => j < |s.jobs| && s.jobs[j] == Scheduled
    case EndStop(j, _) => j < |s.jobs| && s.jobs[j].TearingDown?
    case BeginStart(j, _) => j < |s.jobs| && s.jobs[j] == Down
    case EndStart(j, _) => j < |s.jobs| && s.jobs[j].SettingUp?
    case Poll => true
  }

  function Next(s: Server, a: Step): Server
    requires Enabled(s, a)
  {
    match a
    case Delete => if s.env.initialized || s.env.error.Some? then s.(jobs := s.jobs + [Scheduled]) else s
    case BeginStop(j) => s.(jobs := s.jobs[j := TearingDown(s.env.id)])
    case EndStop(j, raised) =>
      Server(EnvironmentResponse(s.jobs[j].captured, false, if raised.Some? then raised else s.env.error),
             s.jobs[j := Down])
    case BeginStart(j, drawn) => s.(jobs := s.jobs[j := SettingUp(drawn)])
    case EndStart(j, raised) =>
      Server(EnvironmentResponse(s.jobs[j].drawn, raised.None?, raised), s.jobs[j := Finished])
    case Poll => s
  }

  /** A new dispatcher, about to be started by setup_runner. */
  predicate IsInitial(s: Server) {
    !s.env.initialized && s.env.error.None? && s.jobs == [Down]
  }

  /** Any interleaving of requests and jobs. */
  ghost predicate Behaviour(states: seq<Server>, steps: seq<Step>) {
    && |states| == |steps| + 1 && IsInitial(states[0])
    && forall i :: 0 <= i < |steps| ==> Enabled(states[i], steps[i]) && states[i + 1] == Next(states[i], steps[i])
  }

  // ---------- what the server keeps ----------

  lemma {:induction false} InitializedMeansNoError(states: seq<Server>, steps: seq<Step>, p: nat)
    requires Behaviour(states, steps) && p < |states|
    ensures states[p].env.initialized ==> states[p].env.error == None
  {
    if p > 0 {
      InitializedMeansNoError(states, steps, p - 1);
      assert states[p] == Next(states[p - 1], steps[p - 1]);
    }
  }

  /** Step j is the end of a start that succeeded, and it put this environment in place. */
  ghost predicate PutInPlace(states: seq<Server>, steps: seq<Step>, j: nat, env: EnvironmentResponse)
    requires Behaviour(states, steps)
  {
    && j < |steps| && steps[j].EndStart? && steps[j].raised == None
    && states[j].jobs[steps[j].job] == SettingUp(env.id) && states[j + 1].env == env
  }

  /** An initialized environment was put in place by a successful start, and nothing has replaced it since. */
  lemma {:induction false} WhoPutItInPlace(states: seq<Server>, steps: seq<Step>, p: nat) returns (j: nat)
    requires Behaviour(states, steps) && p < |states| && states[p].env.initialized
    ensures j < p && PutInPlace(states, steps, j, states[p].env)
    ensures forall i :: j < i <= p ==> states[i].env == states[p].env
  {
    assert states[p] == Next(states[p - 1], steps[p - 1]);
    if steps[p - 1].EndStart? {
      j := p - 1;
    } else {
      j := WhoPutItInPlace(states, steps, p - 1);
    }
  }

  /** What a client sees as new comes from a start that finished after the request that captured the old id. */
  lemma NeverStale(states: seq<Server>, steps: seq<Step>, d: nat, p: nat) returns (j: nat)
    requires Behaviour(states, steps) && d <= p < |states|
    requires states[p].env.initialized && states[p].env.id != states[d].env.id
    ensures d <= j < p && PutInPlace(states, steps, j, states[p].env) && states[p].env.error == None
  {
    j := WhoPutItInPlace(states, steps, p);
    InitializedMeansNoError(states, steps, p);
  }

  // ---------- what the steps say ----------

  /** The error of the last start, or that of a later stop which failed. */
  function ErrorAfter(steps: seq<Step>, k: nat): Option<string>
    requires k <= |steps|
  {
    if k == 0 then None
    else
      match steps[k - 1]
      case EndStart(_, raised) => raised
      case EndStop(_, Some(message)) => Some(message)
      case _ => ErrorAfter(steps, k - 1)
  }

  /** The last thing to finish was a start, and it raised nothing. */
  predicate Up(steps: seq<Step>, k: nat)
    requires k <= |steps|
  {
    k > 0 &&
    match steps[k - 1]
    case EndStart(_, raised) => raised == None
    case EndStop(_, _) => false
    case _ => Up(steps, k - 1)
  }

  lemma {:induction false} EnvironmentFollows(states: seq<Server>, steps: seq<Step>, k: nat)
    requires Behaviour(states, steps) && k <= |steps|
    ensures states[k].env.error == ErrorAfter(steps, k)
    ensures states[k].env.initialized <==> Up(steps, k)
  {
    if k > 0 {
      EnvironmentFollows(states, steps, k - 1);
      assert states[k] == Next(states[k - 1], steps[k - 1]);
    }
  }

  /** A request to delete schedules one reload if the environment is up or has an error, and otherwise none. */
  lemma DeleteSchedules(states: seq<Server>, steps: seq<Step>, k: nat)
    requires Behaviour(states, steps) && k < |steps|
    ensures |states[k + 1].jobs| == |states[k].jobs| +
            if steps[k] == Delete && (Up(steps, k) || ErrorAfter(steps, k) != None) then 1 else 0
    ensures |states[k + 1].jobs| > |states[k].jobs| ==>
              states[k + 1].jobs == states[k].jobs + [Scheduled] && states[k + 1].env == states[k].env
  {
    EnvironmentFollows(states, steps, k);
    assert states[k + 1] == Next(states[k], steps[k]);
  }

  /** A start that ends, well or not, leaves the id that it drew when it began. */
  lemma StartLeavesDrawnId(states: seq<Server>, steps: seq<Step>, e: nat) returns (i: nat)
    requires Behaviour(states, steps) && e < |steps| && steps[e].EndStart?
    ensures i < e && steps[i] == BeginStart(steps[e].job, states[e + 1].env.id)
    ensures forall k :: i < k < e ==> !(steps[k].EndStart? && steps[k].job == steps[e].job)
  {
    assert states[e + 1] == Next(states[e], steps[e]);
    i := Drew(states, steps, e, steps[e].job);
  }

  // ---------- when stop keeps the id ----------

  predicate Writes(a: Step) {
    a.EndStop? || a.EndStart?
  }

  /** No step from i up to k replaces the environment. */
  predicate Unwritten(steps: seq<Step>, i: nat, k: nat)
    requires k <= |steps|
  {
    forall w | i <= w < k :: !Writes(steps[w])
  }

  lemma {:induction false} UnwrittenKeepsEnv(states: seq<Server>, steps: seq<Step>, i: nat, k: nat)
    requires Behaviour(states, steps) && i <= k <= |steps| && Unwritten(steps, i, k)
    ensures states[k].env == states[i].env
    decreases k
  {
    if i < k {
      UnwrittenKeepsEnv(states, steps, i, k - 1);
      assert states[k] == Next(states[k - 1], steps[k - 1]);
    }
  }

  /** A job that has begun to stop holds the id it saw, until it has stopped. */
  lemma {:induction false} Captures(states: seq<Server>, steps: seq<Step>, c: nat, k: nat, job: nat)
    requires Behaviour(states, steps) && c < k <= |steps| && steps[c] == BeginStop(job)
    ensures job < |states[k].jobs|
    ensures states[k].jobs[job].TearingDown? ==> states[k].jobs[job].captured == states[c].env.id
    ensures !states[k].jobs[job].Scheduled?
    decreases k
  {
    assert states[k] == Next(states[k - 1], steps[k - 1]);
    if c < k - 1 {
      Captures(states, steps, c, k - 1, job);
    }
  }

  /** The step at which a job now tearing down began, and that it has done nothing else since. */
  lemma {:induction false} BeganStop(states: seq<Server>, steps: seq<Step>, k: nat, job: nat) returns (c: nat)
    requires Behaviour(states, steps) && k < |states| && job < |states[k].jobs| && states[k].jobs[job].TearingDown?
    ensures c < k && steps[c] == BeginStop(job)
    ensures forall i :: c < i <= k ==> job < |states[i].jobs| && states[i].jobs[job].TearingDown?
  {
    assert states[k] == Next(states[k - 1], steps[k - 1]);
    if steps[k - 1] == BeginStop(job) {
      c := k - 1;
    } else {
      c := BeganStop(states, steps, k - 1, job);
    }
  }

  /** Every start draws an id of its own, different from the initial one. */
  ghost predicate FreshDraws(states: seq<Server>, steps: seq<Step>) {
    && |states| > 0
    && (forall i | 0 <= i < |steps| && steps[i].BeginStart? :: steps[i].drawn != states[0].env.id)
    && (forall i, k | 0 <= i < k < |steps| && steps[i].BeginStart? && steps[k].BeginStart? ::
          steps[i].drawn != steps[k].drawn)
  }

  /** A job setting up drew its id in an earlier step, and has not finished since. */
  lemma {:induction false} Drew(states: seq<Server>, steps: seq<Step>, k: nat, job: nat) returns (i: nat)
    requires Behaviour(states, steps) && k < |states| && job < |states[k].jobs| && states[k].jobs[job].SettingUp?
    ensures i < k && steps[i] == BeginStart(job, states[k].jobs[job].drawn)
    ensures forall e :: i < e < k ==> !(steps[e].EndStart? && steps[e].job == job)
  {
    assert states[k] == Next(states[k - 1], steps[k - 1]);
    if steps[k - 1].BeginStart? && steps[k - 1].job == job {
      i := k - 1;
    } else {
      i := Drew(states, steps, k - 1, job);
    }
  }

  /** Step e is the end of the start that began at step i. */
  ghost predicate Draw(steps: seq<Step>, i: nat, e: nat, id: EnvironmentId) {
    && i < e < |steps| && steps[i].BeginStart? && steps[i].drawn == id
    && steps[e].EndStart? && steps[e].job == steps[i].job
  }

  /** An id in place is the initial one, or was drawn by a start that has finished. */
  ghost predicate FromDraw(states: seq<Server>, steps: seq<Step>, p: nat, id: EnvironmentId) {
    |states| > 0 && (id == states[0].env.id || exists i: nat, e: nat :: e < p && Draw(steps, i, e, id))
  }

  lemma {:induction false} IdFromDraw(states: seq<Server>, steps: seq<Step>, p: nat)
    requires Behaviour(states, steps) && p < |states|
    ensures FromDraw(states, steps, p, states[p].env.id)
    decreases p
  {
    if p > 0 {
      var a := steps[p - 1];
      assert states[p] == Next(states[p - 1], a);
      if a.EndStart? {
        var i := Drew(states, steps, p - 1, a.job);
        assert Draw(steps, i, p - 1, states[p].env.id);
      } else {
        var q := p - 1;
        if a.EndStop? {
          q := BeganStop(states, steps, p - 1, a.job);
          Captures(states, steps, q, p - 1, a.job);
        }
        IdFromDraw(states, steps, q);
        if states[p].env.id != states[0].env.id {
          var i: nat, e: nat :| e < q && Draw(steps, i, e, states[q].env.id);
          assert e < p && Draw(steps, i, e, states[p].env.id);
        }
      }
    }
  }

  /** What a start puts in place was never in place before, and will not be put there by another start. */
  lemma StartPutsNewId(states: seq<Server>, steps: seq<Step>, b: nat, w: nat)
    requires Behaviour(states, steps) && FreshDraws(states, steps) && b <= w < |steps| && steps[w].EndStart?
    ensures states[w + 1].env.id != states[b].env.id
  {
    assert states[w + 1] == Next(states[w], steps[w]);
    var job := steps[w].job;
    var i := Drew(states, steps, w, job);
    IdFromDraw(states, steps, b);
  }

  /** The last to replace the environment since step b, before step p, was a stop that had seen this id. */
  ghost predicate RestoredBy(states: seq<Server>, steps: seq<Step>, b: nat, p: nat, w: nat, c: nat)
    requires p < |steps| && p < |states|
  {
    && c < w && b < w < p && steps[w].EndStop? && Unwritten(steps, w + 1, p)
    && steps[c] == BeginStop(steps[w].job) && states[c].env.id == states[b].env.id
  }

  /** Between the beginning and the end of the stop, the environment's id was not replaced for good. */
  ghost predicate IdStands(states: seq<Server>, steps: seq<Step>, b: nat, p: nat)
    requires p < |steps| && p < |states|
  {
    Unwritten(steps, b + 1, p) || exists w: nat, c: nat :: RestoredBy(states, steps, b, p, w, c)
  }

  lemma {:induction false} LastWriter(steps: seq<Step>, i: nat, k: nat) returns (w: nat)
    requires i <= k <= |steps| && !Unwritten(steps, i, k)
    ensures i <= w < k && Writes(steps[w]) && Unwritten(steps, w + 1, k)
    decreases k
  {
    if Writes(steps[k - 1]) {
      w := k - 1;
    } else {
      w := LastWriter(steps, i, k - 1);
    }
  }

  /** What a stop leaves is what it captured. */
  lemma StopRestores(states: seq<Server>, steps: seq<Step>, c: nat, w: nat)
    requires Behaviour(states, steps) && c < w < |steps| && steps[w].EndStop? && steps[c] == BeginStop(steps[w].job)
    ensures states[w + 1].env.id == states[c].env.id
  {
    assert states[w + 1] == Next(states[w], steps[w]);
    Captures(states, steps, c, w, steps[w].job);
  }

  lemma StandingIdIsKept(states: seq<Server>, steps: seq<Step>, b: nat, p: nat)
    requires Behaviour(states, steps) && b < p < |steps| && steps[p].EndStop? && steps[b] == BeginStop(steps[p].job)
    requires IdStands(states, steps, b, p)
    ensures states[p + 1].env.id == states[p].env.id
  {
    StopRestores(states, steps, b, p);
    if Unwritten(steps, b + 1, p) {
      assert states[b + 1] == Next(states[b], steps[b]);
      UnwrittenKeepsEnv(states, steps, b + 1, p);
    } else {
      var w: nat, c: nat :| RestoredBy(states, steps, b, p, w, c);
      StopRestores(states, steps, c, w);
      UnwrittenKeepsEnv(states, steps, w + 1, p);
    }
  }

  /**
   * A stop keeps the id exactly if nothing has replaced the environment since it began, or the last to do so was
   * another stop, which had seen the same id.
   */
  lemma StopKeepsIdExactly(states: seq<Server>, steps: seq<Step>, b: nat, p: nat)
    requires Behaviour(states, steps) && FreshDraws(states, steps)
    requires b < p < |steps| && steps[p].EndStop? && steps[b] == BeginStop(steps[p].job)
    ensures states[p + 1].env.id == states[p].env.id <==> IdStands(states, steps, b, p)
  {
    if IdStands(states, steps, b, p) {
      StandingIdIsKept(states, steps, b, p);
    } else {
      StopRestores(states, steps, b, p);
      var w := LastWriter(steps, b + 1, p);
      UnwrittenKeepsEnv(states, steps, w + 1, p);
      assert states[w + 1] == Next(states[w], steps[w]);
      if steps[w].EndStart? {
        StartPutsNewId(states, steps, b, w);
      } else {
        var c := BeganStop(states, steps, w, steps[w].job);
        StopRestores(states, steps, c, w);
        assert !RestoredBy(states, steps, b, p, w, c);
      }
    }
  }

  /** Every stop that ends has begun, in one step of its own. */
  lemma StopBegan(states: seq<Server>, steps: seq<Step>, p: nat) returns (b: nat)
    requires Behaviour(states, steps) && p < |steps| && steps[p].EndStop?
    ensures b < p && steps[b] == BeginStop(steps[p].job)
    ensures forall c :: 0 <= c < p && steps[c] == BeginStop(steps[p].job) ==> c == b
  {
    b := BeganStop(states, steps, p, steps[p].job);
    forall c | 0 <= c < p && steps[c] == BeginStop(steps[p].job) ensures c == b {
      if c < b {
        Captures(states, steps, c, b, steps[p].job);
      }
    }
  }

  // ---------- in particular, if reloads do not overlap ----------

  ghost predicate Idle(j: Job) {
    j.Scheduled? || j.Finished?
  }

  /** At most one job is between its first and its last step. */
  ghost predicate Serial(s: Server) {
    forall i, j :: 0 <= i < j < |s.jobs| ==> Idle(s.jobs[i]) || Idle(s.jobs[j])
  }

  lemma StopKeepsId(states: seq<Server>, steps: seq<Step>, p: nat)
    requires Behaviour(states, steps) && p < |steps| && steps[p].EndStop?
    requires forall i :: 0 <= i < p ==> Serial(states[i])
    ensures states[p + 1].env.id == states[p].env.id
  {
    var job := steps[p].job;
    var b := BeganStop(states, steps, p, job);
    forall w | b + 1 <= w < p ensures !Writes(steps[w]) {
      assert Serial(states[w]) && states[w].jobs[job].TearingDown?;
      assert Enabled(states[w], steps[w]);
      assert states[w + 1].jobs[job].TearingDown? && states[w + 1] == Next(states[w], steps[w]);
    }
    StandingIdIsKept(states, steps, b, p);
  }

  /** Overlapping stops can keep it too: the second one restores what the first one left. */
  lemma OverlappingStopsKeepId() returns (states: seq<Server>, steps: seq<Step>)
    ensures Behaviour(states, steps) && steps != [] && steps[|steps| - 1].EndStop?
    ensures exists i :: 0 <= i < |steps| && !Serial(states[i])
    ensures states[|steps|].env.id == states[|steps| - 1].env.id
  {
    var s0 := Server(EnvironmentResponse(0, false, None), [Down]);
    steps := [BeginStart(0, 1), EndStart(0, None), Delete, Delete, BeginStop(1), BeginStop(2),
              EndStop(1, None), EndStop(2, None)];
    var s1 := Next(s0, steps[0]);
    var s2 := Next(s1, steps[1]);
    var s3 := Next(s2, steps[2]);
    var s4 := Next(s3, steps[3]);
    var s5 := Next(s4, steps[4]);
    var s6 := Next(s5, steps[5]);
    var s7 := Next(s6, steps[6]);
    var s8 := Next(s7, steps[7]);
    states := [s0, s1, s2, s3, s4, s5, s6, s7, s8];
    assert states[6] == s6 && s6.jobs[1].TearingDown? && s6.jobs[2].TearingDown?;
  }

  /** With two overlapping reloads a stop can bring back the id of an environment already replaced. */
  lemma OverlappingReloadsBringBackOldId() returns (states: seq<Server>, steps: seq<Step>)
    ensures Behaviour(states, steps) && steps != [] && steps[|steps| - 1].EndStop?
    ensures states[|steps|].env.id != states[|steps| - 1].env.id
  {
    var s0 := Server(EnvironmentResponse(0, false, None), [Down]);
    steps := [BeginStart(0, 1), EndStart(0, None), Delete, Delete, BeginStop(1), BeginStop(2), EndStop(1, None),
              BeginStart(1, 2), EndStart(1, None), EndStop(2, None)];
    var s1 := Next(s0, steps[0]);
    var s2 := Next(s1, steps[1]);
    var s3 := Next(s2, steps[2]);
    var s4 := Next(s3, steps[3]);
    var s5 := Next(s4, steps[4]);
    var s6 := Next(s5, steps[5]);
    var s7 := Next(s6, steps[6]);
    var s8 := Next(s7, steps[7]);
    var s9 := Next(s8, steps[8]);
    var s10 := Next(s9, steps[9]);
    states := [s0, s1, s2, s3, s4, s5, s6, s7, s8, s9, s10];
  }

  // ---------- the client ----------

  datatype Outcome =
    | Reloaded(env: EnvironmentResponse)
    | ReloadFailed(message: string)
    | TimedOut
    | StillWaiting    // as far as the given number of polls goes

  predicate Undecided(e: EnvironmentResponse, previous: EnvironmentId) {
    e.error.None? && !(e.initialized && e.id != previous)
  }

  /**
   The polling loop.  The i-th answer of the server is answers(i); clock(0) is read before the loop and clock(i + 1)
   at the i-th test of the loop condition.
   */
  method WaitForReload(previous: EnvironmentId, timeout: Option<real>, answers: nat -> EnvironmentResponse,
                       clock: nat -> real, polls: nat)
    returns (outcome: Outcome, requests: nat)
    ensures requests <= polls
    ensures timeout.Some? ==> forall k :: 1 <= k <= requests ==> clock(k) < clock(0) + timeout.value
    ensures forall k :: 0 <= k < requests - 1 ==> Undecided(answers(k), previous)
    ensures outcome.TimedOut? || outcome.StillWaiting? ==>
              forall k :: 0 <= k < requests ==> Undecided(answers(k), previous)
    ensures outcome.Reloaded? ==> requests > 0 && outcome.env == answers(requests - 1)
                                  && outcome.env.initialized && outcome.env.error == None && outcome.env.id != previous
    ensures outcome.ReloadFailed? ==> requests > 0 && answers(requests - 1).error == Some(outcome.message)
    ensures outcome.TimedOut? ==> timeout.Some? && clock(requests + 1) >= clock(0) + timeout.value
    ensures outcome.StillWaiting? ==> requests == polls
  {
    var tooLate := if timeout.Some? then Some(clock(0) + timeout.value) else None;
    requests := 0;
    while requests < polls
      invariant requests <= polls
      invariant timeout.Some? ==> forall k :: 1 <= k <= requests ==> clock(k) < clock(0) + timeout.value
      invariant forall k :: 0 <= k < requests ==> Undecided(answers(k), previous)
    {
      if tooLate.Some? && clock(requests + 1) >= tooLate.value {
        return TimedOut, requests;
      }
      var status := answers(requests);
      requests := requests + 1;
      if status.error.Some? {
        return ReloadFailed(status.error.value), requests;
      } else if status.initialized && status.id != previous {
        return Reloaded(status), requests;
      }
    }
    outcome := StillWaiting;
  }

  /** Each sleep takes at least the polling interval. */
  ghost predicate Ticks(clock: nat -> real, interval: real) {
    clock(1) >= clock(0) && forall i: nat :: i > 0 ==> clock(i + 1) >= clock(i) + interval
  }

  lemma {:induction false} ClockAdvances(clock: nat -> real, interval: real, k: nat)
    requires Ticks(clock, interval)
    ensures clock(k + 1) >= clock(0) + k as real * interval
  {
    if k > 0 {
      ClockAdvances(clock, interval, k - 1);
    }
  }

  function Ceiling(x: real): int {
    -((-x).Floor)
  }

  lemma FewerThan(k: nat, timeout: real, interval: real)
    requires interval > 0.0 && k as real * interval < timeout
    ensures k + 1 <= Ceiling(timeout / interval)
  {
    assert k as real < timeout / interval;
  }

  /** With a timeout the client gives up after at most ceil(timeout / interval) requests. */
  method BoundedWait(previous: EnvironmentId, timeout: real, interval: real,
                          answers: nat -> EnvironmentResponse, clock: nat -> real, polls: nat)
    returns (outcome: Outcome, requests: nat)
    requires interval > 0.0 && timeout >= 0.0 && Ticks(clock, interval)
    ensures requests <= Ceiling(timeout / interval)
    ensures polls > Ceiling(timeout / interval) ==> !outcome.StillWaiting?
  {
    outcome, requests := WaitForReload(previous, Some(timeout), answers, clock, polls);
    if requests > 0 {
      ClockAdvances(clock, interval, requests - 1);
      FewerThan(requests - 1, timeout, interval);
    } else {
      assert timeout / interval >= 0.0;
    }
  }

  /**
   reload_environment against any interleaving: the request is answered in state d, the i-th poll in state at(i).
   */
  method ReloadEnvironment(ghost states: seq<Server>, ghost steps: seq<Step>, ghost d: nat, ghost at: nat -> nat,
                           previous: EnvironmentId, timeout: Option<real>, answers: nat -> EnvironmentResponse,
                           clock: nat -> real, polls: nat)
    returns (outcome: Outcome)
    requires Behaviour(states, steps) && d < |states| && previous == states[d].env.id
    requires forall i :: 0 <= i < polls ==> d <= at(i) < |states| && answers(i) == states[at(i)].env
    ensures outcome.Reloaded? ==> outcome.env.initialized && outcome.env.error == None
    ensures outcome.Reloaded? ==> exists j :: d <= j < |steps| && PutInPlace(states, steps, j, outcome.env)
  {
    var requests;
    outcome, requests := WaitForReload(previous, timeout, answers, clock, polls);
    if outcome.Reloaded? {
      ghost var j := NeverStale(states, steps, d, at(requests - 1));
    }
  }
}
