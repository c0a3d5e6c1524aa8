/** Channels and the epoll poller: the registration index of each channel and the channels_ table against the
    interest set the kernel keeps behind the epoll descriptor. */
module Pollers {

  type Fd = int
  type Mask = bv32

  const NONE_EVENT: Mask := 0
  const READ_EVENT: Mask := 3   // EPOLLIN | EPOLLPRI
  const WRITE_EVENT: Mask := 4  // EPOLLOUT

  /** kNew, kAdded and kDeleted. */
  datatype Index = New | Added | Deleted

  datatype Operation = Add | Modify | Delete

  /** epoll_ctl: adding a present descriptor, or modifying or deleting an absent one, is refused. */
  predicate Accepted(kernel: map<Fd, Mask>, op: Operation, fd: Fd) {
    op.Add? <==> fd !in kernel
  }

  function EpollCtl(kernel: map<Fd, Mask>, op: Operation, fd: Fd, mask: Mask): map<Fd, Mask> {
    if !Accepted(kernel, op, fd) then kernel
    else if op.Delete? then kernel - {fd}
    else kernel[fd := mask]
  }

  // ---------------------------------------------------------------------------------------------------------------
  // Whole runs: any number of channels, any sequence of operations

  type Id = nat

  /** A live Channel object; `id` is its identity, as a descriptor may be reused by a later channel. */
  datatype Chan = Chan(id: Id, events: Mask, index: Index)

  datatype State = State(
    chans: map<Fd, Chan>,       // the live channels, by descriptor
    table: map<Fd, Id>,         // channels_
    kernel: map<Fd, Mask>,      // the interest set
    refused: nat)               // epoll_ctl calls that failed

  datatype Event =
    | Create(fd: Fd, id: Id)
    | SetEvents(fd: Fd, events: Mask)   // enable/disable reading or writing, disableAll: a new mask, then update()
    | Remove(fd: Fd)
    | Destroy(fd: Fd)

  function Control(s: State, op: Operation, fd: Fd, mask: Mask): State {
    s.(kernel := EpollCtl(s.kernel, op, fd, mask),
       refused := s.refused + (if Accepted(s.kernel, op, fd) then 0 else 1))
  }

  /** EPollPoller::updateChannel, on a channel whose mask has just become `mask`. */
  function Updated(s: State, fd: Fd, mask: Mask): State
    requires fd in s.chans
  {
    var c := s.chans[fd].(events := mask);
    if c.index != Added then
      var table := if c.index == New then s.table[fd := c.id] else s.table;
      Control(s.(table := table, chans := s.chans[fd := c.(index := Added)]), Add, fd, mask)
    else if mask == NONE_EVENT then
      Control(s, Delete, fd, mask).(chans := s.chans[fd := c.(index := Deleted)])
    else
      Control(s, Modify, fd, mask).(chans := s.chans[fd := c])
  }

  /** EPollPoller::removeChannel. */
  function Removed(s: State, fd: Fd): State
    requires fd in s.chans
  {
    var c := s.chans[fd];
    var s1 := s.(table := s.table - {fd}, chans := s.chans[fd := c.(index := New)]);
    if c.index == Added then Control(s1, Delete, fd, c.events) else s1
  }

  /** What the callers owe: live channels have distinct descriptors, remove() follows disableAll() on a registered
      channel, and a channel is destroyed only unregistered. */
  predicate Enabled(s: State, e: Event) {
    match e
    case Create(fd, _) => fd !in s.chans
    case SetEvents(fd, _) => fd in s.chans
    case Remove(fd) => fd in s.chans && s.chans[fd].events == NONE_EVENT && s.chans[fd].index != New
    case Destroy(fd) => fd in s.chans && s.chans[fd].index == New
  }

  function Apply(s: State, e: Event): State
    requires Enabled(s, e)
  {
    match e
    case Create(fd, id) => s.(chans := s.chans[fd := Chan(id, NONE_EVENT, New)])
    case SetEvents(fd, mask) => Updated(s, fd, mask)
    case Remove(fd) => Removed(s, fd)
    case Destroy(fd) => s.(chans := s.chans - {fd})
  }

  ghost predicate IsRun(s: State, events: seq<Event>, t: State)
    decreases |events|
  {
    if events == [] then s == t
    else Enabled(s, events[0]) && IsRun(Apply(s, events[0]), events[1..], t)
  }

  const INITIAL := State(map[], map[], map[], 0)

  /** channels_ holds exactly the registered channels; the interest set exactly those with index kAdded, each with its
      mask; nothing was ever refused. */
  ghost predicate Inv(s: State) {
    && (forall fd :: fd in s.chans ==> (fd in s.table <==> s.chans[fd].index != New))
    && (forall fd :: fd in s.table ==> fd in s.chans && s.table[fd] == s.chans[fd].id)
    && (forall fd :: fd in s.chans ==> (fd in s.kernel <==> s.chans[fd].index == Added))
    && (forall fd :: fd in s.kernel ==> fd in s.chans && s.kernel[fd] == s.chans[fd].events)
    && s.refused == 0
  }

  lemma StepKeepsInv(s: State, e: Event)
    requires Inv(s) && Enabled(s, e)
    ensures Inv(Apply(s, e))
  {
  }

  lemma {:induction false} RunKeepsInv(s: State, events: seq<Event>, t: State)
    requires Inv(s) && IsRun(s, events, t)
    ensures Inv(t)
    decreases |events|
  {
    if events != [] {
      StepKeepsInv(s, events[0]);
      RunKeepsInv(Apply(s, events[0]), events[1..], t);
    }
  }

  /** The interest set the indices call for. */
  ghost function Interest(chans: map<Fd, Chan>): map<Fd, Mask> {
    map fd | fd in chans && chans[fd].index == Added :: chans[fd].events
  }

  /** After any sequence of operations the kernel watches exactly the descriptors whose channel has index kAdded, each
      with the channel's mask, and no epoll_ctl call was ever refused. */
  lemma KernelMatchesIndices(events: seq<Event>, s: State)
    requires IsRun(INITIAL, events, s)
    ensures s.kernel == Interest(s.chans) && s.refused == 0
  {
    RunKeepsInv(INITIAL, events, s);
    var interest := Interest(s.chans);
    forall fd ensures fd in s.kernel <==> fd in interest {
    }
    forall fd | fd in s.kernel ensures s.kernel[fd] == interest[fd] {
    }
  }

  /** The asserts of updateChannel and removeChannel: a new channel's descriptor is not in the table, any other
      channel is itself the table's entry for its descriptor. */
  lemma TableAssertsHold(events: seq<Event>, s: State, fd: Fd)
    requires IsRun(INITIAL, events, s) && fd in s.chans
    ensures s.chans[fd].index == New ==> fd !in s.table
    ensures s.chans[fd].index != New ==> fd in s.table && s.table[fd] == s.chans[fd].id
  {
    RunKeepsInv(INITIAL, events, s);
  }

  /** disableAll twice re-registers the channel with an empty mask: the first call deletes it, the second adds it
      back, so the kernel goes on reporting errors and hang-ups for it until remove(). */
  lemma DisablingTwiceReAdds(events: seq<Event>, s: State, fd: Fd)
    requires IsRun(INITIAL, events, s) && fd in s.chans && s.chans[fd].index == Added
    ensures var once := Apply(s, SetEvents(fd, NONE_EVENT));
            var twice := Apply(once, SetEvents(fd, NONE_EVENT));
            && once.kernel == s.kernel - {fd}
            && twice.kernel == s.kernel[fd := NONE_EVENT]
            && Apply(twice, Remove(fd)).kernel == s.kernel - {fd}
  {
    RunKeepsInv(INITIAL, events, s);
    assert (s.kernel - {fd})[fd := NONE_EVENT] == s.kernel[fd := NONE_EVENT];
    assert s.kernel[fd := NONE_EVENT] - {fd} == s.kernel - {fd};
  }

  /** One update in every reachable state, in the terms of the objects below: the channel has the mask; the kernel drops
      it if it was registered and the mask is empty, and otherwise has it with the mask; no other channel changes. */
  lemma UpdateIs(events: seq<Event>, s: State, fd: Fd, mask: Mask)
    requires IsRun(INITIAL, events, s) && fd in s.chans
    ensures var c, t := s.chans[fd], Apply(s, SetEvents(fd, mask));
            var index := if c.index == Added && mask == NONE_EVENT then Deleted else Added;
            && t.chans == s.chans[fd := Chan(c.id, mask, index)]
            && t.table == s.table[fd := c.id]
            && t.kernel == (if index == Added then s.kernel[fd := mask] else s.kernel - {fd})
  {
    RunKeepsInv(INITIAL, events, s);
    assert fd in s.table && s.table[fd] == s.chans[fd].id ==> s.table == s.table[fd := s.chans[fd].id];
  }

  /** One removal likewise: the channel is new again, and table and kernel have forgotten it. */
  lemma RemoveIs(events: seq<Event>, s: State, fd: Fd)
    requires IsRun(INITIAL, events, s) && Enabled(s, Remove(fd))
    ensures var c, t := s.chans[fd], Apply(s, Remove(fd));
            && t.chans == s.chans[fd := Chan(c.id, NONE_EVENT, New)]
            && t.table == s.table - {fd} && t.kernel == s.kernel - {fd}
  {
    RunKeepsInv(INITIAL, events, s);
    assert fd !in s.kernel ==> s.kernel - {fd} == s.kernel;
  }

  // ---------------------------------------------------------------------------------------------------------------
  // The objects

  class Channel {
    const fd: Fd
    var events: Mask
    var index: Index
    var addedToLoop: bool

    constructor (fd: Fd)
      ensures this.fd == fd && events == NONE_EVENT && index == New && !addedToLoop
    {
      this.fd := fd;
      events, index, addedToLoop := NONE_EVENT, New, false;
    }

    /** The common part of the enable and disable operations, with the new mask. */
    method Update(poller: EPollPoller, mask: Mask)
      requires poller.Valid() && poller.Knows(this)
      modifies this, poller
      ensures poller.Valid() && poller.Knows(this) && events == mask && addedToLoop
      ensures index == if old(index) == Added && mask == NONE_EVENT then Deleted else Added
      ensures poller.kernel == if index == Added then old(poller.kernel)[fd := mask] else old(poller.kernel) - {fd}
      ensures poller.channels == old(poller.channels)[fd := this]
    {
      events := mask;
      addedToLoop := true;
      poller.UpdateChannel(this);
    }

    method EnableReading(poller: EPollPoller)
      requires poller.Valid() && poller.Knows(this)
      modifies this, poller
      ensures poller.Valid() && poller.Knows(this) && events == old(events) | READ_EVENT && index == Added
      ensures poller.kernel == old(poller.kernel)[fd := events]
      ensures poller.channels == old(poller.channels)[fd := this]
    {
      NonEmptyMask(events);
      Update(poller, events | READ_EVENT);
    }

    method EnableWriting(poller: EPollPoller)
      requires poller.Valid() && poller.Knows(this)
      modifies this, poller
      ensures poller.Valid() && poller.Knows(this) && events == old(events) | WRITE_EVENT && index == Added
      ensures poller.kernel == old(poller.kernel)[fd := events]
      ensures poller.channels == old(poller.channels)[fd := this]
    {
      NonEmptyMask(events);
      Update(poller, events | WRITE_EVENT);
    }

    method DisableReading(poller: EPollPoller)
      requires poller.Valid() && poller.Knows(this)
      modifies this, poller
      ensures poller.Valid() && poller.Knows(this) && events == old(events) & !READ_EVENT
      ensures index == if old(index) == Added && events == NONE_EVENT then Deleted else Added
      ensures poller.kernel == if index == Added then old(poller.kernel)[fd := events] else old(poller.kernel) - {fd}
      ensures poller.channels == old(poller.channels)[fd := this]
    {
      Update(poller, events & !READ_EVENT);
    }

    method DisableWriting(poller: EPollPoller)
      requires poller.Valid() && poller.Knows(this)
      modifies this, poller
      ensures poller.Valid() && poller.Knows(this) && events == old(events) & !WRITE_EVENT
      ensures index == if old(index) == Added && events == NONE_EVENT then Deleted else Added
      ensures poller.kernel == if index == Added then old(poller.kernel)[fd := events] else old(poller.kernel) - {fd}
      ensures poller.channels == old(poller.channels)[fd := this]
    {
      Update(poller, events & !WRITE_EVENT);
    }

    method DisableAll(poller: EPollPoller)
      requires poller.Valid() && poller.Knows(this)
      modifies this, poller
      ensures poller.Valid() && poller.Knows(this) && events == NONE_EVENT
      ensures index == if old(index) == Added then Deleted else Added
      ensures poller.kernel == if index == Added then old(poller.kernel)[fd := events] else old(poller.kernel) - {fd}
      ensures poller.channels == old(poller.channels)[fd := this]
    {
      Update(poller, NONE_EVENT);
    }

    method Remove(poller: EPollPoller)
      requires poller.Valid() && poller.Knows(this) && index != New && events == NONE_EVENT
      modifies this, poller
      ensures poller.Valid() && poller.Knows(this) && index == New && !addedToLoop
      ensures poller.channels == old(poller.channels) - {fd} && poller.kernel == old(poller.kernel) - {fd}
    {
      addedToLoop := false;
      poller.RemoveChannel(this);
    }
  }

  lemma NonEmptyMask(events: Mask)
    ensures events | READ_EVENT != NONE_EVENT && events | WRITE_EVENT != NONE_EVENT
  {
  }

  class EPollPoller {
    var channels: map<Fd, Channel>
    var kernel: map<Fd, Mask>

    constructor ()
      ensures Valid() && channels == map[] && kernel == map[]
    {
      channels, kernel := map[], map[];
    }

    /** Table and interest set agree with the channels, the mask of `but` aside. */
    ghost predicate ValidBut(but: Channel?)
      reads this, channels.Values
    {
      && (forall fd :: fd in channels ==> channels[fd].fd == fd && channels[fd].index != New)
      && (forall fd :: fd in channels ==> (fd in kernel <==> channels[fd].index == Added))
      && (forall fd :: fd in channels && fd in kernel && channels[fd] != but ==> kernel[fd] == channels[fd].events)
      && (forall fd :: fd in kernel ==> fd in channels)
    }

    ghost predicate Valid()
      reads this, channels.Values
    {
      ValidBut(null)
    }

    /** A new channel's descriptor is free; any other channel is the table's entry for its descriptor. */
    ghost predicate Knows(channel: Channel)
      reads this, channel
    {
      if channel.index == New then channel.fd !in channels && channel !in channels.Values
      else channel.fd in channels && channels[channel.fd] == channel
    }

    /** update: issues one epoll_ctl.  A refusal changes nothing; the code logs it, and aborts unless it was a delete. */
    method Control(op: Operation, channel: Channel) returns (ok: bool)
      modifies this`kernel
      ensures ok <==> Accepted(old(kernel), op, channel.fd)
      ensures kernel == EpollCtl(old(kernel), op, channel.fd, channel.events)
    {
      ok := op.Add? == (channel.fd !in kernel);
      if ok {
        if op.Delete? {
          kernel := kernel - {channel.fd};
        } else {
          kernel := kernel[channel.fd := channel.events];
        }
      }
    }

    /** updateChannel.  None of its epoll_ctl calls is refused. */
    method UpdateChannel(channel: Channel)
      requires ValidBut(channel) && Knows(channel)
      modifies this, channel`index
      ensures Valid() && Knows(channel)
      ensures channels == old(channels)[channel.fd := channel]
      ensures channel.index == if old(channel.index) == Added && channel.events == NONE_EVENT then Deleted else Added
      ensures kernel == if channel.index == Added then old(kernel)[channel.fd := channel.events] else old(kernel) - {channel.fd}
    {
      var fd := channel.fd;
      if channel.index == New || channel.index == Deleted {
        if channel.index == New {
          assert fd !in channels;
          channels := channels[fd := channel];
        } else {
          assert fd in channels && channels[fd] == channel;
        }
        channel.index := Added;
        var ok := Control(Add, channel);
        assert ok;
      } else {
        assert fd in channels && channels[fd] == channel && channel.index == Added;
        if channel.events == NONE_EVENT {
          var ok := Control(Delete, channel);
          assert ok;
          channel.index := Deleted;
        } else {
          var ok := Control(Modify, channel);
          assert ok;
        }
      }
    }

    /** removeChannel.  Its epoll_ctl call is not refused. */
    method RemoveChannel(channel: Channel)
      requires Valid() && Knows(channel) && channel.index != New && channel.events == NONE_EVENT
      modifies this, channel`index
      ensures Valid() && Knows(channel) && channel.index == New
      ensures channels == old(channels) - {channel.fd} && kernel == old(kernel) - {channel.fd}
    {
      var fd := channel.fd;
      assert fd in channels && channels[fd] == channel;
      channels := channels - {fd};
      assert forall f :: f in channels ==> channels[f].fd == f && channels[f] != channel;
      if channel.index == Added {
        var ok := Control(Delete, channel);
        assert ok;
      }
      channel.index := New;
    }
  }
}
