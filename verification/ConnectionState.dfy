/** The state of a connection, as `TcpConnection` keeps it and everyone else asks for it. */
module ConnectionState {

  datatype State = Connecting | Connected | Disconnecting | Disconnected
}
