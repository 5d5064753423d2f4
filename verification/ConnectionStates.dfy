/** The lifecycle state of a connection or of the component that owns it. */
module ConnectionStates {
  datatype ConnectionState = Connected | Reconnecting | Failed | Unknown | Stopped
}
