/** The states of a mirror job (worker/job.go:34-45). */
module JobStates {
  datatype JobState = StateNone | Ready | Paused | Disabled | Halting
}
