module Numbers {
  function Max(a: int, b: int): int { if a < b then b else a }

  function Min(a: nat, b: nat): nat { if a < b then a else b }
}

/** TcpConnection::StateE. */
module ConnectionStatus {
  datatype Status = Connecting | Connected | Disconnecting | Disconnected
}
