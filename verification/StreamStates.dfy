/** The stream states of the AAudio backend and the two classifications the state
    thread makes of them. */
module StreamStates {

  datatype StreamState =
    | INIT
    | STOPPED
    | STOPPING
    | STARTED
    | STARTING
    | DRAINING
    | ERROR
    | SHUTDOWN

  /** The states `update_state` returns from at once: nothing is awaited. */
  predicate Settled(st: StreamState) {
    st.INIT? || st.STARTED? || st.STOPPED? || st.SHUTDOWN?
  }

  /** The states that make the state thread poll with a timeout. */
  predicate WaitingState(st: StreamState) {
    match st
    case DRAINING => true
    case STARTING => true
    case STOPPING => true
    case ERROR => true
    case _ => false
  }

  /** A stream is polled exactly when `update_state` has something left to do for it. */
  lemma WaitingIsUnsettled(st: StreamState)
    ensures WaitingState(st) <==> !Settled(st)
  {
  }
}
