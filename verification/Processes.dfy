/** Processes and the schedules that name them. */
module Processes {
  type Pid = nat
}
