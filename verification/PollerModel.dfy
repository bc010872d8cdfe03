/** EPoller.cc and Channel.h: the poller's map from descriptors to channels, each
    channel's index, and the interest set in the kernel. Channels are raw pointers into `chans`.
    A failed assertion of the source puts the state in `fault`; a failed epoll_ctl, which the
    source only logs, is recorded in `refused`. */
module PollerModel {
  import opened Channels

  type Fd = nat
  type Ptr = nat

  datatype Index = New | Added | Deleted

  // events_: kReadEvent and kWriteEvent are set and cleared as wholes.
  datatype Mask = Mask(read: bool, write: bool)

  const NONE: Mask := Mask(false, false)

  datatype Chan = Chan(fd: Fd, events: Mask, index: Index, revents: set<Flag>)

  datatype Interest = Interest(mask: Mask, ptr: Ptr)

  datatype State = State(
    chans: map<Ptr, Chan>,
    channels: map<Fd, Ptr>,
    kernel: map<Fd, Interest>,
    fault: bool,
    refused: bool)

  datatype Change = EnableReading | EnableWriting | DisableReading | DisableWriting | DisableAll

  datatype Event =
    | Create(ptr: Ptr, fd: Fd)
    | Destroy(ptr: Ptr)
    | Modify(ptr: Ptr, change: Change)   // change events_, then update()
    | Remove(ptr: Ptr)                   // removeChannel

  datatype CtlOp = CtlAdd | CtlMod | CtlDel

  function Init(): State { State(map[], map[], map[], false, false) }

  function Fail(s: State): State { s.(fault := true) }

  function Changed(m: Mask, c: Change): Mask {
    match c
    case EnableReading => m.(read := true)
    case EnableWriting => m.(write := true)
    case DisableReading => m.(read := false)
    case DisableWriting => m.(write := false)
    case DisableAll => NONE
  }

  /** EPoller::update, with the kernel's own rules for epoll_ctl. */
  function Ctl(s: State, op: CtlOp, p: Ptr): State
    requires p in s.chans
  {
    var c := s.chans[p];
    match op
    case CtlAdd =>
      if c.fd in s.kernel then s.(refused := true) else s.(kernel := s.kernel[c.fd := Interest(c.events, p)])
    case CtlMod =>
      if c.fd !in s.kernel then s.(refused := true) else s.(kernel := s.kernel[c.fd := Interest(c.events, p)])
    case CtlDel =>
      if c.fd !in s.kernel then s.(refused := true) else s.(kernel := s.kernel - {c.fd})
  }

  function SetIndex(s: State, p: Ptr, i: Index): (r: State)
    requires p in s.chans
    ensures p in r.chans
  {
    s.(chans := s.chans[p := s.chans[p].(index := i)])
  }

  function UpdateChannel(s: State, p: Ptr): State {
    if p !in s.chans then Fail(s)
    else
      var c := s.chans[p];
      match c.index
      case New =>
        if c.fd in s.channels then Fail(s)
        else Ctl(SetIndex(s.(channels := s.channels[c.fd := p]), p, Added), CtlAdd, p)
      case Deleted =>
        if c.fd !in s.channels || s.channels[c.fd] != p then Fail(s)
        else Ctl(SetIndex(s, p, Added), CtlAdd, p)
      case Added =>
        if c.fd !in s.channels || s.channels[c.fd] != p then Fail(s)
        else if c.events == NONE then SetIndexAfter(Ctl(s, CtlDel, p), p, Deleted)
        else Ctl(s, CtlMod, p)
  }

  function SetIndexAfter(s: State, p: Ptr, i: Index): State {
    if p in s.chans then SetIndex(s, p, i) else Fail(s)
  }

  function ModifyChannel(s: State, p: Ptr, change: Change): State {
    if p !in s.chans then Fail(s)
    else UpdateChannel(s.(chans := s.chans[p := s.chans[p].(events := Changed(s.chans[p].events, change))]), p)
  }

  function RemoveChannel(s: State, p: Ptr): State {
    if p !in s.chans then Fail(s)
    else
      var c := s.chans[p];
      if c.fd !in s.channels || s.channels[c.fd] != p || c.events != NONE || c.index.New? then Fail(s)
      else
        var s1 := s.(channels := s.channels - {c.fd});
        SetIndexAfter(if c.index.Added? then Ctl(s1, CtlDel, p) else s1, p, New)
  }

  function Step(s: State, e: Event): State {
    if s.fault then s
    else
      match e
      case Create(p, fd) => if p in s.chans then s else s.(chans := s.chans[p := Chan(fd, NONE, New, {})])
      case Destroy(p) => if p in s.chans && s.chans[p].index.New? then s.(chans := s.chans - {p}) else s
      case Modify(p, change) => ModifyChannel(s, p, change)
      case Remove(p) => RemoveChannel(s, p)
  }

  function Run(s: State, es: seq<Event>): State
    decreases |es|
  {
    if es == [] then s else Step(Run(s, es[..|es| - 1]), es[|es| - 1])
  }

  ghost predicate Reachable(s: State) {
    exists es :: s == Run(Init(), es)
  }

  // ---- fillActiveChannels ---------------------------------------------------------------

  datatype Report = Report(ptr: Ptr, flags: set<Flag>)

  /** epoll_wait hands back pointers that are registered in the kernel. */
  ghost predicate FromKernel(s: State, r: Report) {
    exists fd :: fd in s.kernel && s.kernel[fd].ptr == r.ptr
  }

  function Fill1(s: State, r: Report): State {
    if r.ptr !in s.chans || s.chans[r.ptr].fd !in s.channels || s.channels[s.chans[r.ptr].fd] != r.ptr
    then Fail(s)
    else s.(chans := s.chans[r.ptr := s.chans[r.ptr].(revents := r.flags)])
  }

  function Fill(s: State, rs: seq<Report>): State
    decreases |rs|
  {
    if rs == [] || s.fault then s else Fill(Fill1(s, rs[0]), rs[1..])
  }
}

module PollerTheorems {
  import opened PollerModel

  /** What each index means for channel `p`. */
  ghost predicate ChannelOk(s: State, p: Ptr)
    requires p in s.chans
  {
    var c := s.chans[p];
    match c.index
    case New => c.fd in s.channels ==> s.channels[c.fd] != p
    case Added => c.fd in s.channels && s.channels[c.fd] == p && c.fd in s.kernel && s.kernel[c.fd] == Interest(c.events, p)
    case Deleted => c.fd in s.channels && s.channels[c.fd] == p && c.fd !in s.kernel && c.events == NONE
  }

  ghost predicate Agreement(s: State) {
    && (forall p | p in s.chans :: ChannelOk(s, p))
    && (forall fd | fd in s.channels ::
          s.channels[fd] in s.chans && s.chans[s.channels[fd]].fd == fd && !s.chans[s.channels[fd]].index.New?)
    && (forall fd | fd in s.kernel :: fd in s.channels && s.kernel[fd].ptr == s.channels[fd])
  }

  ghost predicate Inv(s: State) {
    !s.fault ==> Agreement(s) && !s.refused
  }

  /** A change confined to one channel, its descriptor and its interest keeps the rest. */
  lemma LocalChange(s: State, r: State, p: Ptr)
    requires Agreement(s) && p in s.chans && p in r.chans
    requires var fd := s.chans[p].fd;
      && r.chans == s.chans[p := r.chans[p]] && r.chans[p].fd == fd && !r.chans[p].index.New?
      && (fd in s.channels ==> s.channels[fd] == p)
      && r.channels == s.channels[fd := p]
      && (forall f | f != fd :: (f in r.kernel <==> f in s.kernel) && (f in s.kernel ==> r.kernel[f] == s.kernel[f]))
      && (fd in r.kernel ==> r.kernel[fd].ptr == p)
    requires ChannelOk(r, p)
    ensures Agreement(r)
  {
    assert forall q | q in s.chans && q != p :: ChannelOk(s, q) ==> ChannelOk(r, q);
  }

  lemma ModifyKeeps(s: State, p: Ptr, change: Change)
    requires Agreement(s) && !s.refused && !s.fault && p in s.chans
    ensures var r := ModifyChannel(s, p, change);
      && (r.fault <==> s.chans[p].index.New? && s.chans[p].fd in s.channels)
      && (!r.fault ==> Agreement(r) && !r.refused)
  {
    var r := ModifyChannel(s, p, change);
    assert ChannelOk(s, p);
    if !r.fault {
      var fd := s.chans[p].fd;
      if fd in s.channels { assert s.channels[fd := p] == s.channels; }
      LocalChange(s, r, p);
    }
  }

  /** A channel leaves the map and the kernel, and nothing else changes. */
  lemma LocalRemoval(s: State, r: State, p: Ptr)
    requires Agreement(s) && p in s.chans && s.chans[p].fd in s.channels && s.channels[s.chans[p].fd] == p
    requires r.chans == s.chans[p := s.chans[p].(index := New)]
    requires r.channels == s.channels - {s.chans[p].fd} && r.kernel == s.kernel - {s.chans[p].fd}
    ensures Agreement(r)
  {
    assert forall q | q in s.chans && q != p :: ChannelOk(s, q) ==> ChannelOk(r, q);
  }

  lemma RemoveKeeps(s: State, p: Ptr)
    requires Agreement(s) && !s.refused && !s.fault && p in s.chans
    ensures var r := RemoveChannel(s, p);
      && (r.fault <==> s.chans[p].index.New? || s.chans[p].events != NONE)
      && (!r.fault ==>
            && Agreement(r) && !r.refused
            && s.chans[p].fd !in r.channels && s.chans[p].fd !in r.kernel
            && p in r.chans && r.chans[p] == s.chans[p].(index := New))
  {
    var r := RemoveChannel(s, p);
    assert ChannelOk(s, p);
    if !r.fault {
      if s.chans[p].index.Deleted? { assert s.kernel - {s.chans[p].fd} == s.kernel; }
      LocalRemoval(s, r, p);
    }
  }

  lemma StepInv(s: State, e: Event)
    requires Inv(s)
    ensures Inv(Step(s, e))
  {
    if !s.fault {
      match e
      case Create(p, fd) => assert forall q | q in s.chans :: ChannelOk(s, q) ==> ChannelOk(Step(s, e), q);
      case Destroy(p) => assert forall q | q in s.chans && q != p :: ChannelOk(s, q) ==> ChannelOk(Step(s, e), q);
      case Modify(p, change) => if p in s.chans { ModifyKeeps(s, p, change); }
      case Remove(p) => if p in s.chans { RemoveKeeps(s, p); }
    }
  }

  lemma {:induction false} RunInv(es: seq<Event>)
    ensures Inv(Run(Init(), es))
    decreases |es|
  {
    if es != [] {
      RunInv(es[..|es| - 1]);
      StepInv(Run(Init(), es[..|es| - 1]), es[|es| - 1]);
    }
  }

  /** As long as no assertion has failed, the index of every channel, the map and the kernel
      agree, and no epoll_ctl has been refused. */
  lemma PollerAgreement(s: State)
    requires Reachable(s) && !s.fault
    ensures Agreement(s) && !s.refused
  {
    var es :| s == Run(Init(), es);
    RunInv(es);
  }

  /** What a caller has to respect: a channel joins the poller only while no other channel holds
      its descriptor, and leaves it only after disableAll. */
  predicate Allowed(s: State, e: Event) {
    match e
    case Create(_, _) => true
    case Destroy(_) => true
    case Modify(p, _) => p in s.chans && (s.chans[p].index.New? ==> s.chans[p].fd !in s.channels)
    case Remove(p) => p in s.chans && !s.chans[p].index.New? && s.chans[p].events == NONE
  }

  /** The assertions fail exactly when a caller does not respect that. */
  lemma FaultIff(s: State, e: Event)
    requires Reachable(s) && !s.fault
    ensures Step(s, e).fault <==> !Allowed(s, e)
  {
    PollerAgreement(s);
    match e
    case Create(_, _) =>
    case Destroy(_) =>
    case Modify(p, change) => if p in s.chans { ModifyKeeps(s, p, change); }
    case Remove(p) => if p in s.chans { RemoveKeeps(s, p); }
  }

  /** The direction asked for is on or off, and the other is as before. */
  predicate AsAsked(before: Mask, change: Change, after: Mask) {
    match change
    case EnableReading => after.read && after.write == before.write
    case DisableReading => !after.read && after.write == before.write
    case EnableWriting => after.write && after.read == before.read
    case DisableWriting => !after.write && after.read == before.read
    case DisableAll => !after.read && !after.write
  }

  /** What the five operations do to the interest of their channel: the direction asked for is on
      or off, the other is as before, the kernel agrees, and a channel without interest leaves it
      if it was there. No other channel changes. */
  lemma ModifyExact(s: State, p: Ptr, change: Change, r: State)
    requires Reachable(s) && !s.fault && Allowed(s, Modify(p, change)) && r == Step(s, Modify(p, change))
    ensures p in r.chans && r.chans[p].fd == s.chans[p].fd
    ensures AsAsked(s.chans[p].events, change, r.chans[p].events)
    ensures s.chans[p].fd in r.kernel <==>
      !s.chans[p].index.Added? || r.chans[p].events.read || r.chans[p].events.write
    ensures s.chans[p].fd in r.kernel ==> r.kernel[s.chans[p].fd] == Interest(r.chans[p].events, p)
    ensures forall q | q in s.chans && q != p :: q in r.chans && r.chans[q] == s.chans[q]
    ensures forall f | f != s.chans[p].fd :: (f in r.kernel <==> f in s.kernel) && (f in s.kernel ==> r.kernel[f] == s.kernel[f])
  {
    PollerAgreement(s);
    var c := s.chans[p];
    assert ChannelOk(s, p);
    UpdateShape(s.(chans := s.chans[p := c.(events := Changed(c.events, change))]), p);
  }

  /** What updateChannel does to the channel, its entry in the kernel, and nothing else. */
  lemma UpdateShape(s: State, p: Ptr)
    requires !s.fault && p in s.chans
    requires var c := s.chans[p];
      if c.index.New? then c.fd !in s.channels && c.fd !in s.kernel
      else c.fd in s.channels && s.channels[c.fd] == p && (c.fd in s.kernel <==> c.index.Added?)
    ensures var r := UpdateChannel(s, p); var c := s.chans[p];
      && !r.fault && p in r.chans
      && r.chans == s.chans[p := c.(index := if c.index.Added? && c.events == NONE then Deleted else Added)]
      && r.kernel == if c.index.Added? && c.events == NONE then s.kernel - {c.fd} else s.kernel[c.fd := Interest(c.events, p)]
  {}

  /** A channel begins without interest and outside the poller. */
  lemma CreateExact(s: State, p: Ptr, fd: Fd, r: State)
    requires Reachable(s) && !s.fault && p !in s.chans && r == Step(s, Create(p, fd))
    ensures p in r.chans && r.chans[p].fd == fd && r.chans[p].index == New
    ensures !r.chans[p].events.read && !r.chans[p].events.write
    ensures r.channels == s.channels && r.kernel == s.kernel
  {}

  /** The destructor takes a channel away that is outside the poller. */
  lemma DestroyExact(s: State, p: Ptr, r: State)
    requires Reachable(s) && !s.fault && p in s.chans && s.chans[p].index.New? && r == Step(s, Destroy(p))
    ensures p !in r.chans && r.channels == s.channels && r.kernel == s.kernel
    ensures forall q | q in s.chans && q != p :: q in r.chans && r.chans[q] == s.chans[q]
  {}

  /** disableAll after disableAll puts the channel back into the kernel with an empty mask;
      removeChannel then takes it out again. This is what connectDestroyed does after handleClose. */
  lemma CloseThenDestroy(s: State, p: Ptr)
    requires Reachable(s) && !s.fault && p in s.chans && s.chans[p].index.Added?
    ensures var closed := Step(s, Modify(p, DisableAll));
      var again := Step(closed, Modify(p, DisableAll));
      var removed := Step(again, Remove(p));
      && !removed.fault && !removed.refused
      && closed.chans[p].index == Deleted && s.chans[p].fd !in closed.kernel
      && again.chans[p].index == Added && again.kernel[s.chans[p].fd] == Interest(NONE, p)
      && removed.chans[p].index == New
      && s.chans[p].fd !in removed.channels && s.chans[p].fd !in removed.kernel
  {
    PollerAgreement(s);
    var closed := Step(s, Modify(p, DisableAll));
    DisableAdded(s, p);
    DisableDeleted(closed, p);
    RemoveKeeps(Step(closed, Modify(p, DisableAll)), p);
  }

  /** What happens if the channel is enabled once more after that, as sendInLoop does for a functor
      that runs after connectDestroyed: it is registered again, with nobody left to remove it. */
  lemma RemovedChannelReturns(s: State, p: Ptr)
    requires Reachable(s) && !s.fault && p in s.chans && s.chans[p].index.Added?
    ensures var removed := Step(Step(Step(s, Modify(p, DisableAll)), Modify(p, DisableAll)), Remove(p));
      var r := Step(removed, Modify(p, EnableWriting));
      && p in removed.chans && removed.chans[p].index == New
      && !r.fault && !r.refused && p in r.chans && r.chans[p].index == Added
      && s.chans[p].fd in r.kernel && r.kernel[s.chans[p].fd] == Interest(Mask(false, true), p)
  {
    PollerAgreement(s);
    var closed := Step(s, Modify(p, DisableAll));
    var again := Step(closed, Modify(p, DisableAll));
    DisableAdded(s, p);
    DisableDeleted(closed, p);
    RemoveKeeps(again, p);
    EnableRemoved(Step(again, Remove(p)), p);
  }

  lemma EnableRemoved(s: State, p: Ptr)
    requires Agreement(s) && !s.refused && !s.fault && p in s.chans && s.chans[p].index.New?
    requires s.chans[p].fd !in s.channels && s.chans[p].fd !in s.kernel && s.chans[p].events == NONE
    ensures var r := Step(s, Modify(p, EnableWriting));
      && !r.fault && !r.refused && p in r.chans && r.chans[p].index == Added
      && s.chans[p].fd in r.kernel && r.kernel[s.chans[p].fd] == Interest(Mask(false, true), p)
  {
    ModifyKeeps(s, p, EnableWriting);
  }

  lemma DisableAdded(s: State, p: Ptr)
    requires Agreement(s) && !s.refused && !s.fault && p in s.chans && s.chans[p].index.Added?
    ensures var r := Step(s, Modify(p, DisableAll));
      && Agreement(r) && !r.refused && !r.fault && p in r.chans && r.chans[p].index == Deleted
      && r.chans[p].fd == s.chans[p].fd && s.chans[p].fd !in r.kernel
  {
    ModifyKeeps(s, p, DisableAll);
  }

  lemma DisableDeleted(s: State, p: Ptr)
    requires Agreement(s) && !s.refused && !s.fault && p in s.chans && s.chans[p].index.Deleted?
    ensures var r := Step(s, Modify(p, DisableAll));
      && Agreement(r) && !r.refused && !r.fault && p in r.chans && r.chans[p].index == Added
      && r.chans[p].fd == s.chans[p].fd && r.chans[p].events == NONE
      && s.chans[p].fd in r.kernel && r.kernel[s.chans[p].fd] == Interest(NONE, p)
  {
    ModifyKeeps(s, p, DisableAll);
  }

  /** The assertions of fillActiveChannels hold for every list of reports from the kernel, and
      nothing but the revents of reported channels changes. */
  lemma {:induction false} FillWorks(s: State, rs: seq<Report>)
    requires !s.fault && Agreement(s)
    requires forall r | r in rs :: FromKernel(s, r)
    ensures var t := Fill(s, rs);
      && !t.fault && Agreement(t) && t.channels == s.channels && t.kernel == s.kernel && t.refused == s.refused
      && t.chans.Keys == s.chans.Keys
      && (forall p | p in s.chans && (forall i | 0 <= i < |rs| :: rs[i].ptr != p) :: t.chans[p] == s.chans[p])
    decreases |rs|
  {
    if rs != [] {
      assert FromKernel(s, rs[0]);
      var s1 := Fill1(s, rs[0]);
      Fill1Works(s, rs[0]);
      assert forall r | r in rs[1..] :: FromKernel(s, r) ==> FromKernel(s1, r);
      FillWorks(s1, rs[1..]);
      assert forall i | 0 <= i < |rs[1..]| :: rs[1..][i] == rs[i + 1];
    }
  }

  /** Every active channel carries the flags of its last report. */
  lemma {:induction false} FillFlags(s: State, rs: seq<Report>, i: nat)
    requires !s.fault && Agreement(s) && i < |rs|
    requires forall r | r in rs :: FromKernel(s, r)
    requires forall j | i < j < |rs| :: rs[j].ptr != rs[i].ptr
    ensures var t := Fill(s, rs); rs[i].ptr in t.chans && t.chans[rs[i].ptr].revents == rs[i].flags
    decreases |rs|
  {
    assert FromKernel(s, rs[0]);
    var s1 := Fill1(s, rs[0]);
    Fill1Works(s, rs[0]);
    assert forall r | r in rs[1..] :: FromKernel(s, r) ==> FromKernel(s1, r);
    assert forall j | 0 <= j < |rs[1..]| :: rs[1..][j] == rs[j + 1];
    if i == 0 {
      FillWorks(s1, rs[1..]);
    } else {
      FillFlags(s1, rs[1..], i - 1);
    }
  }

  lemma Fill1Works(s: State, r: Report)
    requires !s.fault && Agreement(s) && FromKernel(s, r)
    ensures var t := Fill1(s, r);
      && !t.fault && Agreement(t) && t.channels == s.channels && t.kernel == s.kernel && t.chans.Keys == s.chans.Keys
      && r.ptr in t.chans && t.chans[r.ptr].revents == r.flags
      && (forall p | p in s.chans && p != r.ptr :: t.chans[p] == s.chans[p])
  {
    var t := Fill1(s, r);
    assert forall q | q in s.chans :: ChannelOk(s, q) ==> ChannelOk(t, q);
  }
}
