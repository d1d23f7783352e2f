/** The ticket statuses and the table of actions they admit. */
module Transitions {

  datatype Status = Waiting | Called | Serving | Done | NoShow | Cancelled | Held

  const TRANSITION_MAP: map<string, seq<Status>> :=
    map[
      "call_next" := [Waiting],
      "start_serving" := [Called],
      "complete" := [Serving],
      "cancel" := [Waiting],
      "hold" := [Waiting],
      "unhold" := [Held],
      "recall" := [Called],
      "transfer" := [Waiting, Called, Serving],
      "no_show" := [Called]
    ]

  predicate ValidTransition(action: string, fromStatus: Status) {
    action in TRANSITION_MAP && fromStatus in TRANSITION_MAP[action]
  }

  predicate Final(s: Status) {
    s == Done || s == Cancelled || s == NoShow
  }

  /** A ticket that sits at, or ended at, a counter. */
  predicate AtCounter(s: Status) {
    s == Called || s == Serving || s == Done || s == NoShow
  }
}
