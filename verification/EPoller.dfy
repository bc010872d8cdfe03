/** The classes EPoller and Channel, the latter as the memory its pointers lead to. */
module EPollers {
  import opened PollerModel
  import opened PollerTheorems

  class EPoller {
    var channels: map<Fd, Ptr>
    var chans: map<Ptr, Chan>          // the Channel objects
    var kernel: map<Fd, Interest>      // the interest set of epollfd_
    ghost var refused: bool

    ghost function Abs(): State
      reads this
    {
      State(chans, channels, kernel, false, refused)
    }

    ghost predicate Valid()
      reads this
    {
      Agreement(Abs()) && !refused
    }

    constructor ()
      ensures Valid() && Abs() == Init()
    {
      channels, chans, kernel, refused := map[], map[], map[], false;
    }

    /** EPoller::update. */
    method Update(op: CtlOp, p: Ptr)
      requires p in chans
      modifies this`kernel, this`refused
      ensures Abs() == Ctl(old(Abs()), op, p)
    {
      var c := chans[p];
      if op.CtlAdd? == (c.fd in kernel) {
        refused := true;
      } else if op.CtlDel? {
        kernel := kernel - {c.fd};
      } else {
        kernel := kernel[c.fd := Interest(c.events, p)];
      }
    }

    method SetIndex(p: Ptr, i: Index)
      requires p in chans
      modifies this`chans
      ensures Abs() == PollerModel.SetIndex(old(Abs()), p, i)
    {
      chans := chans[p := chans[p].(index := i)];
    }

    /** updateChannel, for a new channel whose descriptor is free or one that the map holds. */
    method UpdateChannel(p: Ptr)
      requires p in chans
      requires var c := chans[p]; if c.index.New? then c.fd !in channels else c.fd in channels && channels[c.fd] == p
      modifies this
      ensures Abs() == PollerModel.UpdateChannel(old(Abs()), p)
      ensures p in chans && chans[p].fd in channels && channels[chans[p].fd] == p && !chans[p].index.New?
    {
      var index := chans[p].index;
      var fd := chans[p].fd;
      if index.New? || index.Deleted? {
        if index.New? {
          assert fd !in channels;
          channels := channels[fd := p];
        } else {
          assert fd in channels && channels[fd] == p;
        }
        SetIndex(p, Added);
        Update(CtlAdd, p);
      } else {
        assert fd in channels && channels[fd] == p;
        if chans[p].events == NONE {
          Update(CtlDel, p);
          SetIndex(p, Deleted);
        } else {
          Update(CtlMod, p);
        }
      }
    }

    /** enableReading, enableWriting, disableReading, disableWriting and disableAll. */
    method Modify(p: Ptr, change: Change)
      requires Valid() && Allowed(Abs(), Event.Modify(p, change))
      modifies this
      ensures Abs() == ModifyChannel(old(Abs()), p, change) && Valid()
      ensures p in chans && AsAsked(old(chans)[p].events, change, chans[p].events)
      ensures chans[p].fd in kernel ==> kernel[chans[p].fd] == Interest(chans[p].events, p)
    {
      ModifyKeeps(Abs(), p, change);
      assert ChannelOk(Abs(), p);
      chans := chans[p := chans[p].(events := Changed(chans[p].events, change))];
      UpdateChannel(p);
    }

    method RemoveChannel(p: Ptr)
      requires Valid() && Allowed(Abs(), Remove(p))
      modifies this
      ensures Abs() == PollerModel.RemoveChannel(old(Abs()), p) && Valid()
    {
      RemoveKeeps(Abs(), p);
      var fd := chans[p].fd;
      assert fd in channels && channels[fd] == p;
      var index := chans[p].index;
      assert index.Added? || index.Deleted?;
      channels := channels - {fd};
      if index.Added? {
        Update(CtlDel, p);
      }
      SetIndex(p, New);
    }

    /** fillActiveChannels. */
    method FillActiveChannels(reports: seq<Report>) returns (active: seq<Ptr>)
      requires Valid() && forall r | r in reports :: FromKernel(Abs(), r)
      modifies this`chans
      ensures Abs() == Fill(old(Abs()), reports) && Valid()
      ensures |active| == |reports| && forall i | 0 <= i < |reports| :: active[i] == reports[i].ptr
    {
      ghost var s := Abs();
      FillWorks(s, reports);
      active := [];
      var i := 0;
      while i < |reports|
        invariant 0 <= i <= |reports| && |active| == i
        invariant forall k | 0 <= k < i :: active[k] == reports[k].ptr
        invariant Fill(Abs(), reports[i..]) == Fill(s, reports)
      {
        var r := reports[i];
        assert reports[i..][0] == r && reports[i..][1..] == reports[i + 1..];
        FillSafe(Abs(), reports[i..]);
        var fd := chans[r.ptr].fd;
        assert fd in channels && channels[fd] == r.ptr;
        chans := chans[r.ptr := chans[r.ptr].(revents := r.flags)];
        active := active + [r.ptr];
        i := i + 1;
      }
    }
  }

  /** If the loop of fillActiveChannels ends without a failed assertion, so does its first turn. */
  lemma FillSafe(s: State, rs: seq<Report>)
    requires !Fill(s, rs).fault && rs != []
    ensures !Fill1(s, rs[0]).fault
  {}
}
