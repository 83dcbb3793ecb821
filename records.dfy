/** Records that several parts of the model share. `TaskEvent` and `Trace` stand for the
    classes of the same names in `bpdfr_simulation_engine/execution_info.py`, which is not
    part of this model: only the fields the modelled code reads or writes are kept, and
    instants are plain integers. */
module Records {
  import opened Wrappers

  /** One executed task: case, task, resource and the enabled/started/completed instants. */
  datatype TaskEvent = TaskEvent(
    caseId: string,
    taskId: string,
    resourceId: string,
    enabledAt: Option<int>,
    startedAt: int,
    completedAt: int)

  /** A case and its events, in the order they were added. */
  datatype Trace = Trace(caseId: string, events: seq<TaskEvent>)

  /** One weekly availability window, `{"from", "to", "beginTime", "endTime"}`. */
  datatype TimePeriod = TimePeriod(fromDay: string, toDay: string, beginTime: string, endTime: string)

  /** `{"distribution_name": name, "distribution_params": params}`. */
  datatype Distribution = Distribution(name: string, params: seq<real>)
}
