/** Channel.cc: which callbacks one report of the poller runs, and in which order. */
module Channels {

  datatype Flag = In | Pri | Out | Err | Hup | Nval | RdHup

  datatype Callback = CloseCallback | ErrorCallback | ReadCallback | WriteCallback

  /** Channel::handleEvent, for a channel with all four callbacks set. */
  function Dispatch(flags: set<Flag>): seq<Callback> {
    (if Hup in flags && In !in flags then [CloseCallback] else []) +
    (if Err in flags || Nval in flags then [ErrorCallback] else []) +
    (if In in flags || Pri in flags || RdHup in flags then [ReadCallback] else []) +
    (if Out in flags then [WriteCallback] else [])
  }
}
