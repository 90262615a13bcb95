/** The vocabulary of the worker's event stream (src/blueapi/worker/event.py). */
module WorkerEvents {
  import opened Basics

  /** str(uuid.uuid4()) */
  datatype TaskId = TaskId(text: string)

  datatype WorkerState =
    | IDLE | RUNNING | PAUSING | PAUSED | HALTING | STOPPING | ABORTING | SUSPENDING | PANICKED | UNKNOWN

  /** `TaskResult | TaskError`: what a plan returned, or the exception it raised. */
  datatype TaskOutcome =
    | TaskResult(value: string)
    | TaskError(kind: string, message: string)

  datatype TaskStatus = TaskStatus(taskId: TaskId, result: Option<TaskOutcome>, taskComplete: bool, taskFailed: bool)

  datatype WorkerEvent = WorkerEvent(state: WorkerState, taskStatus: Option<TaskStatus>, errors: seq<string>) {

    predicate IsComplete() {
      taskStatus.Some? && taskStatus.value.taskComplete
    }

    predicate Concerns(id: TaskId) {
      taskStatus.Some? && taskStatus.value.taskId == id
    }
  }
}
