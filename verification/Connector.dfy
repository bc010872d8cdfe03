/** The class Connector. Its public methods keep the invariant of `ConnectorTheorems`; the helpers
    below them are proved against the transitions they carry out. */
module Connectors {
  import opened Channels
  import opened Numbers
  import opened ConnectorModel
  import opened ConnectorTheorems

  class Connector {
    var connect_: bool
    var state_: Phase
    var channel_: Option<nat>
    var retryDelayMs: nat
    var timerId: Option<nat>
    // Environment: the poller, the functor queue, the timers and the sockets.
    var registered: bool
    var resets: nat
    var timers: set<nat>
    var stale: set<nat>
    var nextTimer: nat
    var sockets: seq<Sock>
    ghost var delays: seq<nat>

    ghost function Abs(): State
      reads this
    {
      State(connect_, state_, channel_, registered, resets, timers, stale, timerId, nextTimer, retryDelayMs,
            sockets, false, delays)
    }

    /** One attempt at most, every other socket settled, and the delay that of the backoff. */
    ghost predicate Valid()
      reads this
    {
      Inv(Abs())
    }

    constructor ()
      ensures Abs() == Init() && Valid()
    {
      connect_, state_, channel_, retryDelayMs, timerId := false, Disconnected, None, INIT_DELAY, None;
      registered, resets, timers, stale, nextTimer, sockets, delays := false, 0, {}, {}, 0, [], [];
    }

    /** start, where it leads to no failed assertion. */
    method Start(r: ConnectResult)
      requires Valid() && SafeToStart(Abs(), r)
      modifies this
      ensures Abs() == Step(old(Abs()), Event.Start(r)) && Valid()
      ensures connect_ && (registered <==> r.InProgress?) && |sockets| == |old(sockets)| + 1
    {
      SafeStartKeeps(Abs(), r);
      connect_ := true;
      StartInLoop(r);
    }

    /** restart, after the connection that was handed over has gone. */
    method Restart(r: ConnectResult)
      requires Valid() && Disciplined(Abs(), Event.Restart(r))
      modifies this
      ensures Abs() == Step(old(Abs()), Event.Restart(r)) && Valid()
      ensures connect_ && (registered <==> r.InProgress?) && |sockets| == |old(sockets)| + 1
      ensures delays == if r.Temporary? then [INIT_DELAY] else []
    {
      StepInv(Abs(), Event.Restart(r));
      state_ := Disconnected;
      retryDelayMs := INIT_DELAY;
      delays := [];
      connect_ := true;
      StartInLoop(r);
    }

    method Stop(late: bool)
      requires Valid()
      modifies this`connect_, this`timers, this`stale
      ensures Abs() == Step(old(Abs()), Event.Stop(late)) && Valid()
      ensures !connect_ && timers == {}
    {
      StepInv(Abs(), Event.Stop(late));
      connect_ := false;
      if timerId.Some? {
        if late && resets == 0 {
          stale := stale + (timers * {timerId.value});
        }
        timers := timers - {timerId.value};
      }
    }

    /** A retry timer calls startInLoop, possibly one that stop has cancelled too late. */
    method TimerFires(t: nat, r: ConnectResult)
      requires Valid() && (t in timers || t in stale) && resets == 0
      modifies this
      ensures Abs() == Step(old(Abs()), Event.TimerFires(t, r)) && Valid()
      ensures timers <= {old(nextTimer)} && stale == {}
      ensures !connect_ ==> sockets == old(sockets) && !registered
    {
      StepInv(Abs(), Event.TimerFires(t, r));
      assert timers - {t} == {} && stale - {t} == {};
      timers := timers - {t};
      stale := stale - {t};
      StartInLoop(r);
    }

    /** handleEvent of the connector's channel, which has an error and a write callback. */
    method HandleEvent(flags: set<Flag>, err: bool, selfConnect: bool)
      requires Valid() && registered
      modifies this
      ensures Abs() == Step(old(Abs()), Ready(flags, err, selfConnect)) && Valid()
      ensures Outcome(old(Abs()), flags, err, selfConnect, Abs())
    {
      InvOutcome(Abs(), flags, err, selfConnect);
      HandlersKeep(Abs(), err, selfConnect);
      CallErrorWrite(Abs(), flags, err, selfConnect);
      if Err in flags || Nval in flags {
        HandleError();
      }
      if Out in flags {
        HandleWrite(err, selfConnect);
      }
    }

    /** The queued resetChannel; after it no channel is left unless one is in the poller. */
    method RunFunctors()
      requires Valid()
      modifies this`channel_, this`resets, this`stale
      ensures Abs() == Step(old(Abs()), Drain) && Valid()
      ensures channel_.Some? <==> registered
    {
      StepInv(Abs(), Drain);
      if 0 < resets {
        channel_ := None;
      }
      resets := 0;
      stale := {};
    }

    method HandleWrite(err: bool, selfConnect: bool)
      requires Valid()
      modifies this
      ensures Abs() == ConnectorModel.HandleWrite(old(Abs()), err, selfConnect) && Valid()
      ensures !registered && (!old(registered) ==> Abs() == old(Abs()))
    {
      HandlersKeep(Abs(), err, selfConnect);
      if state_.Connecting? {
        var k := RemoveAndResetChannel();
        if err || selfConnect {
          Retry(k);
        } else {
          state_ := Connected;
          if connect_ {
            sockets := sockets[k := Given];
          } else {
            sockets := sockets[k := Closed];
          }
        }
      }
    }

    method HandleError()
      requires Valid() && registered
      modifies this
      ensures Abs() == ConnectorModel.HandleError(old(Abs())) && Valid()
      ensures !registered && state_.Disconnected? && (timers != {} <==> connect_)
    {
      HandlersKeep(Abs(), false, false);
      assert state_.Connecting?;
      var k := RemoveAndResetChannel();
      Retry(k);
      assert connect_ ==> nextTimer - 1 in timers;
    }

    // ---- helpers ----------------------------------------------------------------------------

    method Retry(k: nat)
      requires k < |sockets| && sockets[k].Open?
      modifies this
      ensures Abs() == ConnectorModel.Retry(old(Abs()), k)
    {
      sockets := sockets[k := Closed];
      state_ := Disconnected;
      if connect_ {
        timers := timers + {nextTimer};
        timerId := Some(nextTimer);
        nextTimer := nextTimer + 1;
        delays := delays + [retryDelayMs];
        retryDelayMs := Min(retryDelayMs * 2, MAX_DELAY);
      }
    }

    method Connecting(k: nat)
      requires channel_.None?
      modifies this`state_, this`channel_, this`registered
      ensures Abs() == BeginConnecting(old(Abs()), k)
    {
      state_ := Phase.Connecting;
      channel_ := Some(k);
      registered := true;
    }

    method Connect(r: ConnectResult)
      requires r.InProgress? ==> channel_.None?
      modifies this
      ensures Abs() == ConnectorModel.Connect(old(Abs()), r)
    {
      var k := |sockets|;
      sockets := sockets + [Open];
      match r {
        case InProgress => Connecting(k);
        case Temporary => Retry(k);
        case Fatal => sockets := sockets[k := Closed];
      }
    }

    method StartInLoop(r: ConnectResult)
      requires state_.Disconnected? && (r.InProgress? ==> channel_.None?)
      modifies this
      ensures Abs() == ConnectorModel.StartInLoop(old(Abs()), r)
    {
      if connect_ {
        Connect(r);
      }
    }

    method RemoveAndResetChannel() returns (k: nat)
      requires channel_.Some? && registered
      modifies this`registered, this`resets
      ensures Abs() == RemoveChannel(old(Abs())) && k == channel_.value
    {
      registered := false;
      k := channel_.value;
      resets := resets + 1;
    }
  }
}
