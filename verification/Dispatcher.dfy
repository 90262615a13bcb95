/**
 WorkerDispatcher itself (src/blueapi/service/runner.py): start and stop each read or draw an id, work for a while, and
 then replace the state.  The two halves are methods of their own, so that other threads may come in between; each
 makes the step of Reload of the same name.
 */
module Dispatcher {
  import opened Basics
  import opened Reload

  const NOT_STARTED := "InvalidRunnerStateError: Subprocess runner has not been started"

  class WorkerDispatcher {
    var state: EnvironmentResponse
    var hasSubprocess: bool
    ghost var jobs: seq<Job>

    ghost function Abstract(): Server
      reads this
    {
      Server(state, jobs)
    }

    constructor (id: EnvironmentId)
      ensures IsInitial(Abstract()) && state.id == id && !hasSubprocess
    {
      state := EnvironmentResponse(id, false, None);
      hasSubprocess := false;
      jobs := [Down];
    }

    /** DELETE /environment: answers with the id the client will compare with. */
    method Delete() returns (response: EnvironmentResponse)
      modifies this`jobs
      ensures Abstract() == Next(old(Abstract()), Step.Delete)
      ensures response == EnvironmentResponse(state.id, false, None)
    {
      if state.initialized || state.error.Some? {
        jobs := jobs + [Scheduled];
      }
      response := EnvironmentResponse(state.id, false, None);
    }

    method BeginStop(ghost job: nat) returns (captured: EnvironmentId)
      requires Enabled(Abstract(), Step.BeginStop(job))
      modifies this`jobs
      ensures Abstract() == Next(old(Abstract()), Step.BeginStop(job)) && captured == state.id
    {
      captured := state.id;
      jobs := jobs[job := TearingDown(captured)];
    }

    /** Tearing down fails at once without a subprocess; a state already carrying an error keeps it unless it fails. */
    method EndStop(ghost job: nat, captured: EnvironmentId, teardown: Option<string>)
      requires job < |jobs| && jobs[job] == TearingDown(captured)
      modifies this`state, this`jobs
      ensures var raised := if hasSubprocess then teardown else Some(NOT_STARTED);
              Abstract() == Next(old(Abstract()), Step.EndStop(job, raised))
    {
      var raised := if hasSubprocess then teardown else Some(NOT_STARTED);
      if raised.None? {
        state := EnvironmentResponse(captured, false, state.error);
      } else {
        state := EnvironmentResponse(captured, false, raised);
      }
      jobs := jobs[job := Down];
    }

    method BeginStart(ghost job: nat, drawn: EnvironmentId)
      requires Enabled(Abstract(), Step.BeginStart(job, drawn))
      modifies this`jobs
      ensures Abstract() == Next(old(Abstract()), Step.BeginStart(job, drawn))
    {
      jobs := jobs[job := SettingUp(drawn)];
    }

    /** The factory of subprocesses may fail, and so may the set-up inside the new one. */
    method EndStart(ghost job: nat, drawn: EnvironmentId, factory: Option<string>, setup: Option<string>)
      requires job < |jobs| && jobs[job] == SettingUp(drawn)
      modifies this
      ensures var raised := if factory.Some? then factory else setup;
              Abstract() == Next(old(Abstract()), Step.EndStart(job, raised))
      ensures hasSubprocess == (old(hasSubprocess) || factory.None?)
    {
      if factory.Some? {
        state := EnvironmentResponse(drawn, false, factory);
      } else {
        hasSubprocess := true;
        if setup.Some? {
          state := EnvironmentResponse(drawn, false, setup);
        } else {
          state := EnvironmentResponse(drawn, true, None);
        }
      }
      jobs := jobs[job := Finished];
    }

    /** An undisturbed reload puts the drawn id in place, whatever the stop came to; its error is that of the start. */
    method Reload(ghost job: nat, teardown: Option<string>, drawn: EnvironmentId,
                  factory: Option<string>, setup: Option<string>)
      requires Enabled(Abstract(), Step.BeginStop(job))
      modifies this
      ensures state == EnvironmentResponse(drawn, factory.None? && setup.None?,
                                           if factory.Some? then factory else setup)
      ensures jobs == old(jobs)[job := Finished]
    {
      var captured := BeginStop(job);
      EndStop(job, captured, teardown);
      BeginStart(job, drawn);
      EndStart(job, drawn, factory, setup);
    }
  }

  /** A request to reload, the reload, and a client polling afterwards: it gets the new environment or the error. */
  method DeleteThenWait(dispatcher: WorkerDispatcher, teardown: Option<string>, drawn: EnvironmentId,
                        factory: Option<string>,
                        setup: Option<string>, clock: nat -> real)
    returns (outcome: Outcome)
    requires dispatcher.state.initialized && drawn != dispatcher.state.id
    modifies dispatcher
    ensures factory.None? && setup.None? ==> outcome == Reloaded(EnvironmentResponse(drawn, true, None))
    ensures factory.Some? || setup.Some? ==>
              outcome == ReloadFailed(if factory.Some? then factory.value else setup.value)
  {
    var response := dispatcher.Delete();
    dispatcher.Reload(|dispatcher.jobs| - 1, teardown, drawn, factory, setup);
    var state := dispatcher.state;
    var answers := (i: nat) => state;
    var requests;
    outcome, requests := WaitForReload(response.id, None, answers, clock, 1);
    assert !Undecided(answers(0), response.id);
  }
}
