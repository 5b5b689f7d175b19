/** The states of a connection (StateE in include/TcpConnection.h). */
module ConnStates {
  datatype ConnState = Disconnected | Connecting | Connected | Disconnecting
}
