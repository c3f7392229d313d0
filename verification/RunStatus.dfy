/** Run statuses (internal/runstatus). */
module RunStatus {
  predicate Done(status: string) {
    status in {"applied", "planned_and_finished", "discarded", "canceled", "force_canceled", "errored"}
  }

  predicate Queued(status: string) { status == "plan_queued" || status == "apply_queued" }
}
