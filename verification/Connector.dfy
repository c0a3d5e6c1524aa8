/** The client's connector: a three-state machine driven by channel events, by functors it queues in its own event
    loop, by retry timers, and by start, stop and restart calls.

    A run interleaves the loop thread's steps with the two halves of stop() and start() made by other threads.  The
    channel is removed from the poller inside an event handler but its object is reset later, by a queued functor. */
module Connectors {
  import opened Common

  const INIT_RETRY_DELAY_MS: nat := 500
  const MAX_RETRY_DELAY_MS: nat := 30 * 1000

  datatype States = Disconnected | Connecting | Connected

  /** The connector's own functors in the loop's queue. */
  datatype Call = StartInLoop | StopInLoop | ResetChannel

  /** Channel::handleEventWithGuard as far as the connector has callbacks: error first, then write. */
  datatype Callback = OnError | OnWrite

  /** The bits of revents_ the connector has callbacks for: EPOLLERR and EPOLLOUT. */
  datatype Revents = Revents(err: bool, out: bool)

  function Dispatch(r: Revents): seq<Callback> {
    (if r.err then [OnError] else []) + (if r.out then [OnWrite] else [])
  }

  /** What connect(2) says: in progress (or done), worth a retry, or hopeless. */
  datatype ConnectResult = InProgress | Retriable | Hopeless

  /** What handleWrite finds on the socket. */
  datatype WriteResult = SocketError | SelfConnect | Established

  /** How often a socket was closed, and how often it was handed to newConnectionCallback_. */
  datatype Socket = Socket(closes: nat, handovers: nat)

  datatype State = State(
    connect: bool,              // connect_
    state: States,              // state_
    channel: Option<nat>,       // channel_: the socket of the Channel object, if there is one
    registered: bool,           // that channel is in the poller
    delay: nat,                 // retryDelayMs_
    calls: seq<Call>,           // functors queued in the loop, oldest first
    inBatch: nat,               // how many of them belong to the batch now running
    handling: bool,             // the loop is handling events (otherwise running a batch, or between iterations)
    events: seq<Callback>,      // callbacks of our channel still to be made in this iteration
    inEvent: bool,              // its handleEvent has made at least one of them
    due: nat,                   // retry timers set in an earlier iteration
    recent: nat,                // retry timers set in this iteration
    starting: bool,             // another thread is in start(), before runInLoop
    stopping: nat,              // threads in stop(), before queueInLoop
    started: bool,
    sockets: seq<Socket>,       // every socket created
    delays: seq<nat>,           // the delays scheduled since construction or restart
    broken: bool)               // an assert failed

  datatype Event =
    | StartHere(result: ConnectResult)       // start() in the loop thread
    | StartFlag                              // start() elsewhere: connect_ = true
    | StartQueue                             //                    runInLoop
    | StopFlag                               // stop(): connect_ = false
    | StopQueue                              //         queueInLoop
    | Restart(result: ConnectResult)
    | Poll(revents: Revents)                 // a new iteration begins
    | MakeCallback(found: WriteResult)       // the next callback of our channel
    | TimerFires(result: ConnectResult)
    | BeginBatch
    | RunCall(result: ConnectResult)         // the next functor of the batch

  const INITIAL := State(false, Disconnected, None, false, INIT_RETRY_DELAY_MS, [], 0, false, [], false, 0, 0,
                         false, 0, false, [], [], false)

  // ---------------------------------------------------------------------------------------------------------------
  // The member functions

  function Min(a: nat, b: nat): nat {
    if a < b then a else b
  }

  function ClosedOnce(socket: Socket): Socket {
    socket.(closes := socket.closes + 1)
  }

  function HandedOverOnce(socket: Socket): Socket {
    socket.(handovers := socket.handovers + 1)
  }

  function Closed(s: State, sock: nat): State {
    s.(sockets := if sock < |s.sockets| then s.sockets[sock := ClosedOnce(s.sockets[sock])] else s.sockets,
       broken := s.broken || sock >= |s.sockets|)
  }

  /** A connection made: handed over to a connector that wants it, closed otherwise. */
  function Settled(s: State, sock: nat): State {
    s.(sockets :=
         if sock >= |s.sockets| then s.sockets
         else s.sockets[sock := if s.connect then HandedOverOnce(s.sockets[sock]) else ClosedOnce(s.sockets[sock])],
       broken := s.broken || sock >= |s.sockets|)
  }

  function Retry(s: State, sock: nat): State {
    var t := Closed(s, sock);
    t.(state := Disconnected,
       recent := if t.connect then t.recent + 1 else t.recent,
       delays := if t.connect then t.delays + [t.delay] else t.delays,
       delay := if t.connect then Min(t.delay * 2, MAX_RETRY_DELAY_MS) else t.delay)
  }

  function Engage(s: State, sock: nat): State {
    s.(state := Connecting, broken := s.broken || s.channel.Some?, channel := Some(sock), registered := true)
  }

  function Connect(s: State, result: ConnectResult): State {
    var sock := |s.sockets|;
    var t := s.(sockets := s.sockets + [Socket(0, 0)]);
    match result
    case InProgress => Engage(t, sock)
    case Retriable => Retry(t, sock)
    case Hopeless => Closed(t, sock)
  }

  function DoStartInLoop(s: State, result: ConnectResult): State {
    var t := s.(broken := s.broken || s.state != Disconnected);
    if t.connect then Connect(t, result) else t
  }

  /** removeAndResetChannel; the channel must be there to be removed. */
  function Disengage(s: State): State {
    s.(registered := false, calls := s.calls + [ResetChannel], broken := s.broken || s.channel.None? || !s.registered)
  }

  function SocketOf(s: State): nat {
    if s.channel.Some? then s.channel.value else 0
  }

  function DoStopInLoop(s: State): State {
    if s.state == Connecting then Retry(Disengage(s.(state := Disconnected)), SocketOf(s)) else s
  }

  function DoResetChannel(s: State): State {
    s.(channel := None, broken := s.broken || s.registered)
  }

  function HandleWrite(s: State, result: WriteResult): State {
    if s.state != Connecting then s.(broken := s.broken || s.state != Disconnected)
    else if result != Established then Retry(Disengage(s), SocketOf(s))
    else Settled(Disengage(s).(state := Connected), SocketOf(s))
  }

  function HandleError(s: State): State {
    if s.state == Connecting then Retry(Disengage(s), SocketOf(s)) else s
  }

  function DoRestart(s: State, result: ConnectResult): State {
    DoStartInLoop(s.(state := Disconnected, delay := INIT_RETRY_DELAY_MS, delays := [], connect := true), result)
  }

  // ---------------------------------------------------------------------------------------------------------------
  // The loop around them

  predicate Enabled(s: State, e: Event) {
    match e
    case StartHere(_) => !s.inEvent
    case StartFlag => !s.starting
    case StartQueue => s.starting
    case StopFlag => true
    case StopQueue => s.stopping > 0
    case Restart(_) => true
    case Poll(_) => !s.handling && s.inBatch == 0
    case MakeCallback(_) => s.handling && s.events != []
    case TimerFires(_) => s.handling && !s.inEvent && s.due > 0
    case BeginBatch => s.handling && s.events == []
    case RunCall(_) => !s.handling && 0 < s.inBatch <= |s.calls|
  }

  function Apply(s: State, e: Event): State
    requires Enabled(s, e)
  {
    match e
    case StartHere(result) => DoStartInLoop(s.(connect := true, started := true), result)
    case StartFlag => s.(connect := true, started := true, starting := true)
    case StartQueue => s.(starting := false, calls := s.calls + [StartInLoop])
    case StopFlag => s.(connect := false, stopping := s.stopping + 1)
    case StopQueue => s.(stopping := s.stopping - 1, calls := s.calls + [StopInLoop])
    case Restart(result) => DoRestart(s, result)
    case Poll(revents) =>
      s.(handling := true, events := if s.registered then Dispatch(revents) else [], inEvent := false,
         due := s.due + s.recent, recent := 0)
    case MakeCallback(result) =>
      var t := s.(events := s.events[1..], inEvent := |s.events| > 1);
      if s.events[0] == OnError then HandleError(t) else HandleWrite(t, result)
    case TimerFires(result) => DoStartInLoop(s.(due := s.due - 1), result)
    case BeginBatch => s.(handling := false, inBatch := |s.calls|)
    case RunCall(result) =>
      var t := s.(calls := s.calls[1..], inBatch := s.inBatch - 1);
      (match s.calls[0]
       case StartInLoop => DoStartInLoop(t, result)
       case StopInLoop => DoStopInLoop(t)
       case ResetChannel => DoResetChannel(t))
  }

  predicate StopPending(s: State) {
    s.stopping > 0 || StopInLoop in s.calls
  }

  /** The client's discipline: start() once and restart() from kConnected only, neither of them overtaking a stop().
      In the loop thread that means no stopInLoop still to come; elsewhere start() queues behind those already queued,
      so only a stop() between its two halves matters.  For restart() the old channel must be gone as well.  Each of
      these conditions is necessary: see StartIsSafeIff and RestartIsSafeIff. */
  predicate Proper(s: State, e: Event) {
    match e
    case StartHere(_) => !s.started && !StopPending(s)
    case StartFlag => !s.started && s.stopping == 0
    case Restart(_) => s.state == Connected && s.channel.None? && !StopPending(s)
    case _ => true
  }

  ghost predicate IsRun(s: State, events: seq<Event>, t: State)
    decreases |events|
  {
    if events == [] then s == t
    else Enabled(s, events[0]) && IsRun(Apply(s, events[0]), events[1..], t)
  }

  /** A run of a disciplined client. */
  ghost predicate ProperRun(s: State, events: seq<Event>, t: State)
    decreases |events|
  {
    if events == [] then s == t
    else Enabled(s, events[0]) && Proper(s, events[0]) && ProperRun(Apply(s, events[0]), events[1..], t)
  }

  // ---------------------------------------------------------------------------------------------------------------
  // Invariants

  function Count(calls: seq<Call>, call: Call): nat {
    multiset(calls)[call]
  }

  /** Start attempts under way: queued, about to be queued, or waiting on a timer. */
  function Outstanding(s: State): nat {
    Count(s.calls, StartInLoop) + (if s.starting then 1 else 0) + s.due + s.recent
  }

  ghost predicate ChannelInv(s: State) {
    && s.inBatch <= |s.calls|
    && (s.registered <==> s.state == Connecting)
    && (s.registered ==> s.channel.Some?)
    && Count(s.calls, ResetChannel) == (if s.channel.Some? && !s.registered then 1 else 0)
    // the object is reset before any start attempt that could create the next one
    && (s.due > 0 ==> s.channel.None?)
    && (s.recent > 0 && s.channel.Some? ==> s.handling || ResetChannel in s.calls[..s.inBatch])
    && (s.starting || StartInLoop in s.calls ==> s.channel.None?)
  }

  ghost predicate AttemptInv(s: State) {
    && Outstanding(s) <= 1
    && (s.state != Disconnected ==> Outstanding(s) == 0)
    && (s.stopping > 0 ==> !s.connect)
    // a stopInLoop that comes too late for connect_ runs before the start attempt, and so finds nothing to stop
    && (s.connect && StopInLoop in s.calls ==> s.starting || s.calls[|s.calls| - 1] == StartInLoop)
    && (!s.started ==> s.state == Disconnected && s.channel.None? && Outstanding(s) == 0 && !s.connect)
  }

  /** Callbacks still to be made belong to a channel that is connecting -- or, after the error callback, no more. */
  ghost predicate EventInv(s: State) {
    && (s.handling ==> s.inBatch == 0)
    && (!s.handling ==> s.events == [])
    && (s.inEvent ==> s.events == [OnWrite] && s.state == Disconnected && s.started)
    && (s.events != [] && !s.inEvent ==>
          s.state == Connecting && (s.events == [OnWrite] || s.events == [OnError] || s.events == [OnError, OnWrite]))
  }

  /** Every socket but the one being connected has been closed once or handed over once, and not both. */
  ghost predicate SocketInv(s: State) {
    && (s.registered ==> s.channel.Some? && s.channel.value < |s.sockets|)
    && (forall i :: 0 <= i < |s.sockets| ==>
          s.sockets[i].closes + s.sockets[i].handovers == (if s.registered && s.channel == Some(i) then 0 else 1))
  }

  /** All of it but the callbacks. */
  ghost predicate Core(s: State) {
    !s.broken && ChannelInv(s) && AttemptInv(s) && SocketInv(s)
  }

  ghost predicate Inv(s: State) {
    Core(s) && EventInv(s)
  }

  lemma CallsSplit(calls: seq<Call>)
    requires calls != []
    ensures multiset(calls) == multiset{calls[0]} + multiset(calls[1..])
  {
    assert calls == [calls[0]] + calls[1..];
  }

  /** A start attempt made with nothing else under way. */
  lemma StartKeepsCore(s: State, result: ConnectResult)
    requires Core(s) && s.started && s.state == Disconnected && s.channel.None? && Outstanding(s) == 0
    ensures Core(DoStartInLoop(s, result))
    ensures DoStartInLoop(s, result).state != Connected
  {
  }

  /** Giving up the connecting socket, in an event handler or once connect_ is off. */
  lemma GiveUpKeepsCore(s: State)
    requires Core(s) && s.state == Connecting && (s.handling || !s.connect)
    ensures Core(Retry(Disengage(s), SocketOf(s)))
  {
  }

  lemma ConnectedKeepsCore(s: State)
    requires Core(s) && s.state == Connecting && s.handling
    ensures Core(HandleWrite(s, Established))
  {
  }

  lemma PopKeepsCore(s: State)
    requires Core(s) && !s.handling && 0 < s.inBatch && s.calls[0] != ResetChannel
    ensures Core(s.(calls := s.calls[1..], inBatch := s.inBatch - 1))
  {
    CallsSplit(s.calls);
    assert s.calls[..s.inBatch] == [s.calls[0]] + s.calls[1..][..s.inBatch - 1];
  }

  lemma ResetKeepsCore(s: State)
    requires Core(s) && !s.handling && 0 < s.inBatch && s.calls[0] == ResetChannel
    ensures Core(DoResetChannel(s.(calls := s.calls[1..], inBatch := s.inBatch - 1)))
  {
    CallsSplit(s.calls);
  }

  lemma QueueKeepsCore(s: State, e: Event)
    requires Core(s) && Enabled(s, e) && Proper(s, e)
    requires e.StartFlag? || e.StartQueue? || e.StopFlag? || e.StopQueue?
    ensures Core(Apply(s, e))
  {
    assert (s.calls + [StartInLoop])[..s.inBatch] == s.calls[..s.inBatch];
    assert (s.calls + [StopInLoop])[..s.inBatch] == s.calls[..s.inBatch];
  }

  lemma CallKeepsCore(s: State, result: ConnectResult)
    requires Core(s) && !s.handling && 0 < s.inBatch
    ensures Core(Apply(s, RunCall(result)))
  {
    CallsSplit(s.calls);
    var t := s.(calls := s.calls[1..], inBatch := s.inBatch - 1);
    match s.calls[0] {
      case StartInLoop =>
        PopKeepsCore(s);
        StartKeepsCore(t, result);
      case StopInLoop =>
        PopKeepsCore(s);
        if s.state == Connecting { GiveUpKeepsCore(t); }
      case ResetChannel => ResetKeepsCore(s);
    }
  }

  lemma CoreIgnoresEvents(s: State, events: seq<Callback>, inEvent: bool)
    requires Core(s)
    ensures Core(s.(events := events, inEvent := inEvent))
  {
  }

  lemma ErrorKeepsCore(s: State)
    requires Core(s) && s.handling
    ensures Core(HandleError(s))
  {
    if s.state == Connecting {
      GiveUpKeepsCore(s);
    }
  }

  lemma WriteKeepsCore(s: State, found: WriteResult)
    requires Core(s) && s.handling && s.state != Connected
    ensures Core(HandleWrite(s, found))
  {
    if s.state == Connecting {
      if found == Established {
        ConnectedKeepsCore(s);
      } else {
        GiveUpKeepsCore(s);
      }
    }
  }

  lemma CallbackKeepsCore(s: State, found: WriteResult)
    requires Inv(s) && s.handling && s.events != []
    ensures Core(Apply(s, MakeCallback(found)))
  {
    var t := s.(events := s.events[1..], inEvent := |s.events| > 1);
    CoreIgnoresEvents(s, t.events, t.inEvent);
    if s.events[0] == OnError {
      ErrorKeepsCore(t);
    } else {
      WriteKeepsCore(t, found);
    }
  }

  lemma StepKeepsCore(s: State, e: Event)
    requires Inv(s) && Enabled(s, e) && Proper(s, e)
    ensures Core(Apply(s, e))
  {
    match e {
      case StartHere(result) => StartKeepsCore(s.(connect := true, started := true), result);
      case Restart(result) =>
        StartKeepsCore(s.(state := Disconnected, delay := INIT_RETRY_DELAY_MS, delays := [], connect := true), result);
      case TimerFires(result) => StartKeepsCore(s.(due := s.due - 1), result);
      case RunCall(result) => CallKeepsCore(s, result);
      case MakeCallback(found) => CallbackKeepsCore(s, found);
      case Poll(_) =>
      case BeginBatch => assert s.calls[..|s.calls|] == s.calls;
      case _ => QueueKeepsCore(s, e);
    }
  }

  lemma CallbackKeepsEventInv(s: State, found: WriteResult)
    requires Inv(s) && s.handling && s.events != []
    ensures EventInv(Apply(s, MakeCallback(found)))
  {
  }

  lemma StepKeepsEventInv(s: State, e: Event)
    requires Inv(s) && Enabled(s, e) && Proper(s, e)
    ensures EventInv(Apply(s, e))
  {
    match e {
      case MakeCallback(found) => CallbackKeepsEventInv(s, found);
      case StartHere(_) => assert s.state == Disconnected;
      case Restart(_) => assert s.state == Connected;
      case TimerFires(_) => assert s.state == Disconnected;
      case _ =>
    }
  }

  lemma {:induction false} RunKeepsInv(s: State, events: seq<Event>, t: State)
    requires Inv(s) && ProperRun(s, events, t)
    ensures Inv(t)
    decreases |events|
  {
    if events != [] {
      StepKeepsCore(s, events[0]);
      StepKeepsEventInv(s, events[0]);
      RunKeepsInv(Apply(s, events[0]), events[1..], t);
    }
  }

  // ---------------------------------------------------------------------------------------------------------------
  // Theorems

  /** For disciplined clients, in every interleaving, with stop() at any time and with error and writability reported
      together: no assert fails, at most one start attempt is under way and none while connecting or connected, and
      every socket has been closed once or handed over once but for the one the live channel is connecting. */
  lemma ConnectorSafety(events: seq<Event>, s: State)
    requires ProperRun(INITIAL, events, s)
    ensures !s.broken
    ensures Outstanding(s) <= 1 && (s.state != Disconnected ==> Outstanding(s) == 0)
    ensures s.registered <==> s.state == Connecting
    ensures s.state == Connecting ==> s.channel.Some? && s.channel.value < |s.sockets|
    ensures forall i :: 0 <= i < |s.sockets| ==>
              s.sockets[i].closes + s.sockets[i].handovers == (if s.state == Connecting && s.channel == Some(i) then 0 else 1)
  {
    RunKeepsInv(INITIAL, events, s);
  }

  // ---------------------------------------------------------------------------------------------------------------
  // What a wanted and an unwanted connector do

  /** A channel being connected is on the newest socket. */
  ghost predicate NewestInv(s: State) {
    s.state == Connecting ==> s.channel == Some(|s.sockets| - 1)
  }

  /** While connect_ is off, an attempt under way is about to be stopped. */
  ghost predicate StopInv(s: State) {
    s.state == Connecting && !s.connect ==> StopPending(s)
  }

  /** While connect_ is on, a disconnected connector has an attempt under way. */
  ghost predicate WantedInv(s: State) {
    s.started && s.connect && s.state == Disconnected ==> Outstanding(s) == 1
  }

  /** The connection made last was handed over. */
  ghost predicate HandedOverInv(s: State) {
    && (s.started ==> s.connect)
    && (s.state == Connected ==> s.sockets != [] && s.sockets[|s.sockets| - 1] == Socket(0, 1))
  }

  predicate IsHopeless(e: Event) {
    (e.StartHere? || e.Restart? || e.TimerFires? || e.RunCall?) && e.result == Hopeless
  }

  /** What the first write callback makes of the socket being connected: closed on an error, on a self-connection and
      for an unwanted connector, handed over otherwise. */
  lemma EstablishedIsHandedOver(events: seq<Event>, s: State, found: WriteResult)
    requires ProperRun(INITIAL, events, s)
    requires s.state == Connecting && s.handling && s.events != [] && s.events[0] == OnWrite
    ensures s.channel.Some? && s.channel.value < |s.sockets|
    ensures var t := Apply(s, MakeCallback(found));
            && t.sockets == s.sockets[s.channel.value := if found == Established && s.connect then Socket(0, 1) else Socket(1, 0)]
            && t.state == (if found == Established then Connected else Disconnected)
  {
    RunKeepsInv(INITIAL, events, s);
    var i := s.channel.value;
    assert s.sockets[i].closes + s.sockets[i].handovers == 0;
  }

  lemma StartKeepsNewest(s: State, result: ConnectResult)
    requires s.state != Connecting
    ensures NewestInv(DoStartInLoop(s, result))
  {
  }

  lemma CallKeepsNewest(s: State, result: ConnectResult)
    requires Inv(s) && NewestInv(s) && Enabled(s, RunCall(result))
    ensures NewestInv(Apply(s, RunCall(result)))
  {
    CallsSplit(s.calls);
    var t := s.(calls := s.calls[1..], inBatch := s.inBatch - 1);
    match s.calls[0] {
      case StartInLoop => StartKeepsNewest(t, result);
      case StopInLoop => assert DoStopInLoop(t).state != Connecting;
      case ResetChannel =>
    }
  }

  lemma CallbackLeavesConnecting(s: State, found: WriteResult)
    requires Enabled(s, MakeCallback(found))
    ensures Apply(s, MakeCallback(found)).state != Connecting
  {
    var t := s.(events := s.events[1..], inEvent := |s.events| > 1);
    assert HandleError(t).state != Connecting;
    assert HandleWrite(t, found).state != Connecting;
  }

  lemma StepKeepsNewest(s: State, e: Event)
    requires Inv(s) && NewestInv(s) && Enabled(s, e) && Proper(s, e)
    ensures NewestInv(Apply(s, e))
  {
    match e {
      case StartHere(result) => StartKeepsNewest(s.(connect := true, started := true), result);
      case Restart(result) =>
        StartKeepsNewest(s.(state := Disconnected, delay := INIT_RETRY_DELAY_MS, delays := [], connect := true), result);
      case TimerFires(result) => StartKeepsNewest(s.(due := s.due - 1), result);
      case RunCall(result) => CallKeepsNewest(s, result);
      case MakeCallback(found) => CallbackLeavesConnecting(s, found);
      case _ =>
    }
  }

  lemma StartIsWanted(s: State, result: ConnectResult)
    requires s.state != Connecting
    ensures DoStartInLoop(s, result).state == Connecting ==> s.connect && DoStartInLoop(s, result).connect
    ensures s.state == Disconnected ==> DoStartInLoop(s, result).state != Connected
    ensures DoStartInLoop(s, result).connect == s.connect && DoStartInLoop(s, result).started == s.started
  {
  }

  lemma CallKeepsStop(s: State, result: ConnectResult)
    requires Inv(s) && StopInv(s) && Enabled(s, RunCall(result))
    ensures StopInv(Apply(s, RunCall(result)))
  {
    CallsSplit(s.calls);
    var t := s.(calls := s.calls[1..], inBatch := s.inBatch - 1);
    match s.calls[0] {
      case StartInLoop => StartIsWanted(t, result);
      case StopInLoop => assert DoStopInLoop(t).state != Connecting;
      case ResetChannel => assert StopInLoop in s.calls ==> StopInLoop in t.calls;
    }
  }

  lemma StepKeepsStop(s: State, e: Event)
    requires Inv(s) && StopInv(s) && Enabled(s, e) && Proper(s, e)
    ensures StopInv(Apply(s, e))
  {
    match e {
      case StartHere(result) => StartIsWanted(s.(connect := true, started := true), result);
      case Restart(result) =>
        StartIsWanted(s.(state := Disconnected, delay := INIT_RETRY_DELAY_MS, delays := [], connect := true), result);
      case TimerFires(result) => StartIsWanted(s.(due := s.due - 1), result);
      case RunCall(result) => CallKeepsStop(s, result);
      case MakeCallback(found) => CallbackLeavesConnecting(s, found);
      case _ =>
    }
  }

  lemma CallKeepsWanted(s: State, result: ConnectResult)
    requires Inv(s) && WantedInv(s) && Enabled(s, RunCall(result)) && result != Hopeless
    ensures WantedInv(Apply(s, RunCall(result)))
  {
    CallsSplit(s.calls);
  }

  lemma CallbackKeepsWanted(s: State, found: WriteResult)
    requires Inv(s) && WantedInv(s) && Enabled(s, MakeCallback(found))
    ensures WantedInv(Apply(s, MakeCallback(found)))
  {
  }

  lemma StepKeepsWanted(s: State, e: Event)
    requires Inv(s) && WantedInv(s) && Enabled(s, e) && Proper(s, e) && !IsHopeless(e)
    ensures WantedInv(Apply(s, e))
  {
    match e {
      case RunCall(result) => CallKeepsWanted(s, result);
      case MakeCallback(found) => CallbackKeepsWanted(s, found);
      case _ =>
    }
  }

  lemma WriteKeepsHandedOver(s: State, found: WriteResult)
    requires Core(s) && NewestInv(s) && HandedOverInv(s)
    ensures HandedOverInv(HandleWrite(s, found)) && HandedOverInv(HandleError(s))
  {
    if s.state == Connecting {
      assert s.started;
      assert s.sockets[s.channel.value].closes + s.sockets[s.channel.value].handovers == 0;
    }
  }

  lemma CallbackKeepsHandedOver(s: State, found: WriteResult)
    requires Inv(s) && NewestInv(s) && HandedOverInv(s) && Enabled(s, MakeCallback(found))
    ensures HandedOverInv(Apply(s, MakeCallback(found)))
  {
    var t := s.(events := s.events[1..], inEvent := |s.events| > 1);
    CoreIgnoresEvents(s, t.events, t.inEvent);
    WriteKeepsHandedOver(t, found);
  }

  lemma CallKeepsHandedOver(s: State, result: ConnectResult)
    requires Inv(s) && HandedOverInv(s) && Enabled(s, RunCall(result))
    ensures HandedOverInv(Apply(s, RunCall(result)))
  {
    CallsSplit(s.calls);
    var t := s.(calls := s.calls[1..], inBatch := s.inBatch - 1);
    match s.calls[0] {
      case StartInLoop => StartIsWanted(t, result);
      case StopInLoop => assert DoStopInLoop(t).state == Connected ==> t.state == Connected && DoStopInLoop(t) == t;
      case ResetChannel =>
    }
  }

  lemma StepKeepsHandedOver(s: State, e: Event)
    requires Inv(s) && NewestInv(s) && HandedOverInv(s) && Enabled(s, e) && Proper(s, e) && e != StopFlag
    ensures HandedOverInv(Apply(s, e))
  {
    match e {
      case StartHere(result) => StartIsWanted(s.(connect := true, started := true), result);
      case Restart(result) =>
        StartIsWanted(s.(state := Disconnected, delay := INIT_RETRY_DELAY_MS, delays := [], connect := true), result);
      case TimerFires(result) => StartIsWanted(s.(due := s.due - 1), result);
      case RunCall(result) => CallKeepsHandedOver(s, result);
      case MakeCallback(found) => CallbackKeepsHandedOver(s, found);
      case _ =>
    }
  }

  lemma {:induction false} RunKeepsWishes(s: State, events: seq<Event>, t: State)
    requires Inv(s) && NewestInv(s) && StopInv(s) && ProperRun(s, events, t)
    ensures NewestInv(t) && StopInv(t)
    ensures WantedInv(s) && (forall i :: 0 <= i < |events| ==> !IsHopeless(events[i])) ==> WantedInv(t)
    ensures HandedOverInv(s) && StopFlag !in events ==> HandedOverInv(t)
    decreases |events|
  {
    if events != [] {
      var e, next := events[0], Apply(s, events[0]);
      StepKeepsCore(s, e);
      StepKeepsEventInv(s, e);
      StepKeepsNewest(s, e);
      StepKeepsStop(s, e);
      if WantedInv(s) && !IsHopeless(e) {
        StepKeepsWanted(s, e);
      }
      if HandedOverInv(s) && e != StopFlag {
        StepKeepsHandedOver(s, e);
      }
      RunKeepsWishes(next, events[1..], t);
    }
  }

  /** stop() takes effect: once no stopInLoop is to come, an unwanted connector is not connecting. */
  lemma StopTakesEffect(events: seq<Event>, s: State)
    requires ProperRun(INITIAL, events, s) && !s.connect && !StopPending(s)
    ensures s.state != Connecting
  {
    RunKeepsWishes(INITIAL, events, s);
  }

  /** A wanted connector never goes idle: unless connect(2) has failed for good, it is connected, connecting, or exactly
      one start attempt is under way. */
  lemma NeverIdleWhileWanted(events: seq<Event>, s: State)
    requires ProperRun(INITIAL, events, s) && s.started && s.connect && s.state == Disconnected
    requires forall i :: 0 <= i < |events| ==> !IsHopeless(events[i])
    ensures Outstanding(s) == 1
  {
    RunKeepsWishes(INITIAL, events, s);
  }

  /** If connect(2) has failed for good, nothing is under way any more. */
  lemma HopelessGivesUp(events: seq<Event>, s: State, e: Event)
    requires ProperRun(INITIAL, events, s) && Enabled(s, e) && Proper(s, e) && IsHopeless(e)
    requires e.RunCall? ==> s.calls[0] == StartInLoop
    ensures Apply(s, e).state == Disconnected && Outstanding(Apply(s, e)) == 0
  {
    RunKeepsInv(INITIAL, events, s);
    if e.RunCall? {
      CallsSplit(s.calls);
    }
  }

  /** Without a stop() every connection made is handed over, once, and not closed by the connector. */
  lemma ConnectedMeansHandedOver(events: seq<Event>, s: State)
    requires ProperRun(INITIAL, events, s) && StopFlag !in events && s.state == Connected
    ensures s.sockets != [] && s.sockets[|s.sockets| - 1] == Socket(0, 1)
  {
    RunKeepsWishes(INITIAL, events, s);
  }

  /** restart() starts over: wanted, and with the delays from the beginning. */
  lemma RestartStartsOver(s: State, result: ConnectResult)
    ensures var t := Apply(s, Restart(result));
            t.connect && t.delays == (if result == Retriable then [500] else []) && t.delay == (if result == Retriable then 1000 else 500)
  {
  }

  // ---------------------------------------------------------------------------------------------------------------
  // Retry delays

  function PowerOfTwo(k: nat): nat {
    if k == 0 then 1 else 2 * PowerOfTwo(k - 1)
  }

  /** The delay before the k-th retry. */
  function Backoff(k: nat): nat {
    Min(INIT_RETRY_DELAY_MS * PowerOfTwo(k), MAX_RETRY_DELAY_MS)
  }

  ghost predicate Doubling(delay: nat, delays: seq<nat>) {
    delay == Backoff(|delays|) && forall k :: 0 <= k < |delays| ==> delays[k] == Backoff(k)
  }

  ghost predicate DelayInv(s: State) {
    Doubling(s.delay, s.delays)
  }

  lemma BackoffStep(k: nat)
    ensures Backoff(k + 1) == Min(Backoff(k) * 2, MAX_RETRY_DELAY_MS)
  {
  }

  lemma NextDelay(delay: nat, delays: seq<nat>)
    requires Doubling(delay, delays)
    ensures Doubling(Min(delay * 2, MAX_RETRY_DELAY_MS), delays + [delay])
  {
    BackoffStep(|delays|);
  }

  lemma RetryKeepsDelays(s: State, sock: nat)
    requires DelayInv(s)
    ensures DelayInv(Retry(s, sock))
  {
    NextDelay(s.delay, s.delays);
  }

  lemma StartKeepsDelays(s: State, result: ConnectResult)
    requires DelayInv(s)
    ensures DelayInv(DoStartInLoop(s, result))
  {
    NextDelay(s.delay, s.delays);
  }

  lemma CallbackKeepsDelays(s: State, found: WriteResult)
    requires DelayInv(s) && s.handling && s.events != []
    ensures DelayInv(Apply(s, MakeCallback(found)))
  {
    var t := s.(events := s.events[1..], inEvent := |s.events| > 1);
    RetryKeepsDelays(Disengage(t), SocketOf(t));
  }

  lemma CallKeepsDelays(s: State, result: ConnectResult)
    requires DelayInv(s) && !s.handling && 0 < s.inBatch <= |s.calls|
    ensures DelayInv(Apply(s, RunCall(result)))
  {
    var t := s.(calls := s.calls[1..], inBatch := s.inBatch - 1);
    match s.calls[0] {
      case StartInLoop => StartKeepsDelays(t, result);
      case StopInLoop => RetryKeepsDelays(Disengage(t.(state := Disconnected)), SocketOf(t));
      case ResetChannel =>
    }
  }

  lemma StartHereKeepsDelays(s: State, result: ConnectResult)
    requires DelayInv(s) && Enabled(s, StartHere(result))
    ensures DelayInv(Apply(s, StartHere(result)))
  {
    StartKeepsDelays(s.(connect := true, started := true), result);
  }

  lemma RestartKeepsDelays(s: State, result: ConnectResult)
    ensures DelayInv(Apply(s, Restart(result)))
  {
    StartKeepsDelays(s.(state := Disconnected, delay := INIT_RETRY_DELAY_MS, delays := [], connect := true), result);
  }

  lemma TimerKeepsDelays(s: State, result: ConnectResult)
    requires DelayInv(s) && Enabled(s, TimerFires(result))
    ensures DelayInv(Apply(s, TimerFires(result)))
  {
    StartKeepsDelays(s.(due := s.due - 1), result);
  }

  lemma StepKeepsDelays(s: State, e: Event)
    requires DelayInv(s) && Enabled(s, e)
    ensures DelayInv(Apply(s, e))
  {
    match e {
      case StartHere(result) => StartHereKeepsDelays(s, result);
      case Restart(result) => RestartKeepsDelays(s, result);
      case TimerFires(result) => TimerKeepsDelays(s, result);
      case MakeCallback(found) => CallbackKeepsDelays(s, found);
      case RunCall(result) => CallKeepsDelays(s, result);
      case _ =>
    }
  }

  lemma {:induction false} RunKeepsDelays(s: State, events: seq<Event>, t: State)
    requires DelayInv(s) && IsRun(s, events, t)
    ensures DelayInv(t)
    decreases |events|
  {
    if events != [] {
      StepKeepsDelays(s, events[0]);
      RunKeepsDelays(Apply(s, events[0]), events[1..], t);
    }
  }

  /** The k-th retry since construction or restart waits min(500 * 2^k, 30000) ms, whatever the client does. */
  lemma BackoffClosedForm(events: seq<Event>, s: State, k: nat)
    requires IsRun(INITIAL, events, s) && k < |s.delays|
    ensures s.delays[k] == Min(500 * PowerOfTwo(k), 30000)
    ensures 500 <= s.delays[k] <= 30000 && (k > 0 ==> s.delays[k - 1] <= s.delays[k])
  {
    RunKeepsDelays(INITIAL, events, s);
    PowerPositive(k);
    if k > 0 { PowerPositive(k - 1); }
  }

  lemma {:induction false} PowerPositive(k: nat)
    ensures PowerOfTwo(k) >= 1
  {
    if k > 0 { PowerPositive(k - 1); }
  }

  // ---------------------------------------------------------------------------------------------------------------
  // What the discipline is for

  /** restart() from kConnected itself meets assert(!channel_) in connecting() exactly when connect(2) gets that far and
      the old channel object has not been reset: called from inside newConnectionCallback_, or anywhere in the
      iteration that connected, it fails. */
  lemma RestartFailsIff(events: seq<Event>, s: State, result: ConnectResult)
    requires ProperRun(INITIAL, events, s)
    requires s.state == Connected
    ensures Apply(s, Restart(result)).broken <==> result == InProgress && s.channel.Some?
  {
    RunKeepsInv(INITIAL, events, s);
  }

  /** From `s` on a disciplined client meets no failing assert, whatever the loop, the sockets and the timers do. */
  ghost predicate Safe(s: State) {
    forall more, t :: ProperRun(s, more, t) ==> !t.broken
  }

  lemma InvIsSafe(s: State)
    requires Inv(s)
    ensures Safe(s)
  {
    forall more, t | ProperRun(s, more, t) ensures !t.broken {
      RunKeepsInv(s, more, t);
    }
  }

  lemma BrokenIsUnsafe(s: State)
    requires s.broken
    ensures !Safe(s)
  {
    assert ProperRun(s, [], s);
  }

  lemma UnsafeBefore(s: State, e: Event)
    requires Enabled(s, e) && Proper(s, e) && !Safe(Apply(s, e))
    ensures !Safe(s)
  {
    var more, t :| ProperRun(Apply(s, e), more, t) && t.broken;
    assert ([e] + more)[1..] == more;
    assert ProperRun(s, [e] + more, t);
  }

  /** A retry timer is set although the old channel is still there; its reset comes after the rest of this batch, which
      holds nothing but stopInLoop.  The batch ends, the next iteration begins, the timer fires. */
  ghost predicate Doomed(s: State) {
    && s.state == Disconnected && s.connect && s.channel.Some? && !s.registered && s.recent > 0
    && !s.handling && s.inBatch <= |s.calls| && forall i :: 0 <= i < s.inBatch ==> s.calls[i] == StopInLoop
  }

  lemma {:induction false} DoomedIsUnsafe(s: State)
    requires Doomed(s)
    ensures !Safe(s)
    decreases s.inBatch
  {
    if s.inBatch > 0 {
      DoomedIsUnsafe(Apply(s, RunCall(InProgress)));
      UnsafeBefore(s, RunCall(InProgress));
    } else {
      var t := Apply(s, Poll(QUIET));
      BrokenIsUnsafe(Apply(t, TimerFires(InProgress)));
      UnsafeBefore(t, TimerFires(InProgress));
      UnsafeBefore(s, Poll(QUIET));
    }
  }

  /** An attempt under way and wanted, with nothing queued in the loop but stopInLoop. */
  ghost predicate Overtaking(s: State) {
    && s.state == Connecting && s.connect && s.channel.Some? && s.channel.value < |s.sockets| && s.registered
    && s.events == [] && s.inBatch <= |s.calls| && (s.handling ==> s.inBatch == 0)
    && forall i :: 0 <= i < |s.calls| ==> s.calls[i] == StopInLoop
  }

  lemma StopTearsDown(s: State)
    requires Overtaking(s) && !s.handling && s.inBatch > 0
    ensures !Safe(s)
  {
    DoomedIsUnsafe(Apply(s, RunCall(InProgress)));
    UnsafeBefore(s, RunCall(InProgress));
  }

  lemma QueuedStopTearsDown(s: State)
    requires Overtaking(s) && s.calls != []
    ensures !Safe(s)
  {
    if s.handling {
      StopTearsDown(Apply(s, BeginBatch));
      UnsafeBefore(s, BeginBatch);
    } else if s.inBatch > 0 {
      StopTearsDown(s);
    } else {
      var t := Apply(s, Poll(QUIET));
      StopTearsDown(Apply(t, BeginBatch));
      UnsafeBefore(t, BeginBatch);
      UnsafeBefore(s, Poll(QUIET));
    }
  }

  lemma OvertakingIsUnsafe(s: State)
    requires Overtaking(s) && StopPending(s)
    ensures !Safe(s)
  {
    if s.calls == [] {
      QueuedStopTearsDown(Apply(s, StopQueue));
      UnsafeBefore(s, StopQueue);
    } else {
      QueuedStopTearsDown(s);
    }
  }

  /** A start attempt queued behind nothing but stopInLoop, wanted, while a stop() is between its two halves. */
  ghost predicate StartComing(s: State) {
    && s.state == Disconnected && s.connect && s.channel.None? && !s.registered && s.stopping > 0
    && s.events == [] && s.inBatch <= |s.calls| && (s.handling ==> s.inBatch == 0)
    && s.calls != [] && s.calls[|s.calls| - 1] == StartInLoop
    && forall i :: 0 <= i < |s.calls| - 1 ==> s.calls[i] == StopInLoop
  }

  lemma {:induction false} StartComingIsUnsafe(s: State)
    requires StartComing(s)
    ensures !Safe(s)
    decreases |s.calls|, !s.handling && s.inBatch == 0, s.handling
  {
    if s.handling {
      StartComingIsUnsafe(Apply(s, BeginBatch));
      UnsafeBefore(s, BeginBatch);
    } else if s.inBatch == 0 {
      StartComingIsUnsafe(Apply(s, Poll(QUIET)));
      UnsafeBefore(s, Poll(QUIET));
    } else {
      NextCallBeforeStart(s);
      var t := Apply(s, RunCall(InProgress));
      if |s.calls| == 1 {
        OvertakingIsUnsafe(t);
      } else {
        StartComingIsUnsafe(t);
      }
      UnsafeBefore(s, RunCall(InProgress));
    }
  }

  lemma NextCallBeforeStart(s: State)
    requires StartComing(s) && !s.handling && s.inBatch > 0
    ensures var t := Apply(s, RunCall(InProgress));
            if |s.calls| == 1 then Overtaking(t) && t.stopping > 0 else StartComing(t) && |t.calls| < |s.calls|
  {
  }

  lemma OnlyStopsQueued(s: State)
    requires Inv(s) && s.channel.None? && Outstanding(s) == 0
    ensures forall i :: 0 <= i < |s.calls| ==> s.calls[i] == StopInLoop
  {
    forall i | 0 <= i < |s.calls| ensures s.calls[i] == StopInLoop {
      assert s.calls[i] in multiset(s.calls);
    }
  }

  /** The exact condition on restart() in a connected state: some continuation fails an assert, now or later, exactly if
      the old channel is still there or a stop() is still under way. */
  lemma RestartIsSafeIff(events: seq<Event>, s: State)
    requires ProperRun(INITIAL, events, s) && s.state == Connected
    ensures Safe(Apply(s, Restart(InProgress))) <==> s.channel.None? && !StopPending(s)
    ensures s.channel.None? && !StopPending(s) ==> forall result :: Safe(Apply(s, Restart(result)))
  {
    RunKeepsInv(INITIAL, events, s);
    if s.channel.Some? {
      BrokenIsUnsafe(Apply(s, Restart(InProgress)));
    } else if StopPending(s) {
      OnlyStopsQueued(s);
      OvertakingIsUnsafe(Apply(s, Restart(InProgress)));
    } else {
      forall result ensures Safe(Apply(s, Restart(result))) {
        StepKeepsCore(s, Restart(result));
        StepKeepsEventInv(s, Restart(result));
        InvIsSafe(Apply(s, Restart(result)));
      }
    }
  }

  /** The exact condition on the one start().  In the loop thread: no stop() still under way.  In any other thread: no
      stop() between its two halves. */
  lemma StartIsSafeIff(events: seq<Event>, s: State)
    requires ProperRun(INITIAL, events, s) && !s.started
    ensures Enabled(s, StartHere(InProgress)) && Enabled(s, StartFlag)
    ensures Safe(Apply(s, StartHere(InProgress))) <==> !StopPending(s)
    ensures !StopPending(s) ==> forall result :: Safe(Apply(s, StartHere(result)))
    ensures Safe(Apply(s, StartFlag)) <==> s.stopping == 0
  {
    RunKeepsInv(INITIAL, events, s);
    OnlyStopsQueued(s);
    if StopPending(s) {
      OvertakingIsUnsafe(Apply(s, StartHere(InProgress)));
    } else {
      forall result ensures Safe(Apply(s, StartHere(result))) {
        StepKeepsCore(s, StartHere(result));
        StepKeepsEventInv(s, StartHere(result));
        InvIsSafe(Apply(s, StartHere(result)));
      }
    }
    StartElsewhereIsSafeIff(s);
  }

  lemma StartElsewhereIsSafeIff(s: State)
    requires Inv(s) && !s.started
    ensures Safe(Apply(s, StartFlag)) <==> s.stopping == 0
  {
    var t := Apply(s, StartFlag);
    if s.stopping == 0 {
      StepKeepsCore(s, StartFlag);
      StepKeepsEventInv(s, StartFlag);
      InvIsSafe(t);
    } else {
      OnlyStopsQueued(s);
      StartComingIsUnsafe(Apply(t, StartQueue));
      UnsafeBefore(t, StartQueue);
    }
  }

  const QUIET := Revents(false, false)
  const WRITABLE := Revents(false, true)

  lemma {:induction false} RunConcat(s: State, before: seq<Event>, t: State, after: seq<Event>, u: State)
    requires IsRun(s, before, t) && IsRun(t, after, u)
    ensures IsRun(s, before + after, u)
    decreases |before|
  {
    if before == [] {
      assert before + after == after;
    } else {
      RunConcat(Apply(s, before[0]), before[1..], t, after, u);
      assert (before + after)[1..] == before[1..] + after;
    }
  }

  /** The failing run in full, for restart() in every idle connected state: the queued stopInLoop tears down the new
      attempt while connect_ is on, so it sets a retry timer although its own resetChannel is still queued; if the timer
      fires at the start of the next iteration, connecting() finds the old channel. */
  lemma StopThenRestartBreaks(s: State)
    requires Inv(s) && s.state == Connected && s.channel.None? && s.calls == [] && !s.handling
    ensures exists t :: IsRun(s, [StopFlag, StopQueue, Restart(InProgress)] + TEAR_DOWN, t) &&
                        !t.broken && Enabled(t, TimerFires(InProgress)) && Apply(t, TimerFires(InProgress)).broken
  {
    var t := TornDownWhileWanted(s, Restart(InProgress));
  }

  /** The same for a start() that overtakes a stop() on a new connector. */
  lemma StopThenStartBreaks()
    ensures exists t :: IsRun(INITIAL, [StopFlag, StopQueue, StartHere(InProgress)] + TEAR_DOWN, t) &&
                        !t.broken && Enabled(t, TimerFires(InProgress)) && Apply(t, TimerFires(InProgress)).broken
  {
    var t := TornDownWhileWanted(INITIAL, StartHere(InProgress));
  }

  /** An iteration whose batch holds the stopInLoop, and the start of the next one. */
  const TEAR_DOWN := [Poll(QUIET), BeginBatch, RunCall(InProgress), Poll(QUIET)]

  lemma TornDownWhileWanted(s: State, start: Event) returns (t: State)
    requires Inv(s) && s.channel.None? && s.calls == [] && !s.handling
    requires (start == Restart(InProgress) && s.state == Connected) || (start == StartHere(InProgress) && !s.started)
    ensures IsRun(s, [StopFlag, StopQueue, start] + TEAR_DOWN, t)
    ensures !t.broken && Enabled(t, TimerFires(InProgress)) && Apply(t, TimerFires(InProgress)).broken
  {
    var s2 := StartOvertakesStop(s, start);
    t := TornDown(s2);
    RunConcat(s, [StopFlag, StopQueue, start], s2, TEAR_DOWN, t);
  }

  /** A new attempt with a stale stopInLoop queued behind it. */
  predicate Overtaken(s: State) {
    && !s.broken && s.connect && s.state == Connecting && s.registered && !s.handling && s.inBatch == 0
    && s.calls == [StopInLoop] && s.channel.Some? && s.channel.value < |s.sockets|
  }

  lemma StartOvertakesStop(s: State, start: Event) returns (t: State)
    requires Inv(s) && s.channel.None? && s.calls == [] && !s.handling
    requires (start == Restart(InProgress) && s.state == Connected) || (start == StartHere(InProgress) && !s.started)
    ensures IsRun(s, [StopFlag, StopQueue, start], t) && Overtaken(t)
  {
    var s1 := Apply(s, StopFlag);
    var s2 := Apply(s1, StopQueue);
    t := Apply(s2, start);
    assert [start][1..] == [] && [StopQueue, start][1..] == [start];
    assert [StopFlag, StopQueue, start][1..] == [StopQueue, start];
    assert IsRun(s2, [start], t);
    assert IsRun(s1, [StopQueue, start], t);
  }

  lemma TornDown(s: State) returns (t: State)
    requires Overtaken(s)
    ensures IsRun(s, TEAR_DOWN, t)
    ensures !t.broken && t.handling && !t.inEvent && t.due > 0 && t.connect && t.channel.Some?
  {
    var s1 := Apply(s, Poll(QUIET));
    assert s1.events == [];
    var s2 := Apply(s1, BeginBatch);
    var s3 := Apply(s2, RunCall(InProgress));
    t := Apply(s3, Poll(QUIET));
    assert TEAR_DOWN[3..] == [Poll(QUIET)] && TEAR_DOWN[3..][1..] == [];
    assert TEAR_DOWN[2..][1..] == TEAR_DOWN[3..] && TEAR_DOWN[1..][1..] == TEAR_DOWN[2..];
    assert IsRun(s3, TEAR_DOWN[3..], t);
    assert IsRun(s2, TEAR_DOWN[2..], t);
    assert IsRun(s1, TEAR_DOWN[1..], t);
  }

  /** Such a state is reached by a disciplined client: start, connect, reset the channel. */
  lemma IdleConnectedIsReachable()
    ensures exists events, s :: ProperRun(INITIAL, events, s) &&
                                s.state == Connected && s.channel.None? && s.calls == [] && !s.handling
  {
    var s1 := Apply(INITIAL, StartHere(InProgress));
    var s2 := Apply(s1, Poll(WRITABLE));
    assert s2.events == [OnWrite];
    var last := [MakeCallback(Established), BeginBatch, RunCall(InProgress)];
    var t := EstablishedThenReset(s2);
    assert ([Poll(WRITABLE)] + last)[1..] == last;
    assert ProperRun(s1, [Poll(WRITABLE)] + last, t);
    assert ([StartHere(InProgress)] + ([Poll(WRITABLE)] + last))[1..] == [Poll(WRITABLE)] + last;
    assert ProperRun(INITIAL, [StartHere(InProgress)] + ([Poll(WRITABLE)] + last), t);
  }

  lemma EstablishedThenReset(s: State) returns (t: State)
    requires s.handling && s.events == [OnWrite] && s.state == Connecting && s.calls == []
    ensures ProperRun(s, [MakeCallback(Established), BeginBatch, RunCall(InProgress)], t)
    ensures t.state == Connected && t.channel.None? && t.calls == [] && !t.handling
  {
    var s1 := Apply(s, MakeCallback(Established));
    EstablishedQueuesReset(s);
    var s2 := Apply(s1, BeginBatch);
    t := Apply(s2, RunCall(InProgress));
    RunOfThree(s, MakeCallback(Established), BeginBatch, RunCall(InProgress));
  }

  lemma EstablishedQueuesReset(s: State)
    requires s.handling && s.events == [OnWrite] && s.state == Connecting && s.calls == []
    ensures var t := Apply(s, MakeCallback(Established));
            t.handling && t.events == [] && t.calls == [ResetChannel] && t.state == Connected
  {
  }

  lemma RunOfThree(s: State, e1: Event, e2: Event, e3: Event)
    requires Enabled(s, e1) && Proper(s, e1)
    requires var s1 := Apply(s, e1); Enabled(s1, e2) && Proper(s1, e2)
    requires var s2 := Apply(Apply(s, e1), e2); Enabled(s2, e3) && Proper(s2, e3)
    ensures ProperRun(s, [e1, e2, e3], Apply(Apply(Apply(s, e1), e2), e3))
  {
    assert [e1, e2, e3][1..] == [e2, e3] && [e2, e3][1..] == [e3] && [e3][1..] == [];
    var s1 := Apply(s, e1);
    var s2 := Apply(s1, e2);
    assert ProperRun(s2, [e3], Apply(s2, e3));
    assert ProperRun(s1, [e2, e3], Apply(s2, e3));
  }

  // ---------------------------------------------------------------------------------------------------------------
  // The object itself

  /** A connecting connector has a registered channel on an open socket. */
  predicate Ready(s: State) {
    s.state == Connecting ==> s.registered && s.channel.Some? && s.channel.value < |s.sockets|
  }

  /** In a disciplined run the functions below are called in states that meet their preconditions. */
  lemma CallsAreReady(events: seq<Event>, s: State)
    requires ProperRun(INITIAL, events, s)
    ensures Ready(s)
    ensures s.events != [] && s.events[0] == OnWrite ==> s.state != Connected
    ensures s.due > 0 && s.handling ==> s.state == Disconnected && s.channel.None?
    ensures 0 < s.inBatch ==>
              && s.inBatch <= |s.calls|
              && (s.calls[0] == StartInLoop ==> s.state == Disconnected && s.channel.None?)
              && (s.calls[0] == ResetChannel ==> !s.registered)
  {
    RunKeepsInv(INITIAL, events, s);
    if 0 < s.inBatch {
      CallsSplit(s.calls);
    }
  }

  /** The connector's fields, and what the loop and the kernel hold on its behalf.  `run` is the specification state;
      the asserts are the source's own. */
  class Connector {
    var connect: bool
    var state: States
    var channel: Option<nat>
    var retryDelayMs: nat
    var registered: bool
    var pendingFunctors: seq<Call>
    var timersSet: nat
    var sockets: seq<Socket>
    ghost var run: State

    ghost predicate Agrees()
      reads this
    {
      && !run.broken
      && (connect, state, channel, retryDelayMs) == (run.connect, run.state, run.channel, run.delay)
      && (registered, pendingFunctors, timersSet, sockets) == (run.registered, run.calls, run.recent, run.sockets)
    }

    constructor ()
      ensures Agrees() && run == INITIAL && Inv(run)
    {
      connect, state, channel, retryDelayMs := false, Disconnected, None, INIT_RETRY_DELAY_MS;
      registered, pendingFunctors, timersSet, sockets := false, [], 0, [];
      run := INITIAL;
    }

    method CloseSocket(sock: nat)
      requires Agrees() && sock < |sockets|
      modifies this
      ensures Agrees() && run == Closed(old(run), sock)
      ensures sockets == old(sockets)[sock := Socket(old(sockets)[sock].closes + 1, old(sockets)[sock].handovers)]
    {
      sockets := sockets[sock := sockets[sock].(closes := sockets[sock].closes + 1)];
      run := Closed(run, sock);
    }

    method RetryConnect(sock: nat)
      requires Agrees() && sock < |sockets|
      modifies this
      ensures Agrees() && run == Retry(old(run), sock)
      ensures state == Disconnected && sockets[sock].closes == old(sockets)[sock].closes + 1
      ensures timersSet == old(timersSet) + (if connect then 1 else 0) && connect == old(connect)
      ensures retryDelayMs == (if connect then Min(old(retryDelayMs) * 2, 30000) else old(retryDelayMs))
    {
      ghost var before := run;
      CloseSocket(sock);
      state := Disconnected;
      if connect {
        timersSet := timersSet + 1;
        retryDelayMs := if retryDelayMs * 2 < MAX_RETRY_DELAY_MS then retryDelayMs * 2 else MAX_RETRY_DELAY_MS;
      }
      run := Retry(before, sock);
    }

    method StartConnecting(sock: nat)
      requires Agrees() && channel.None?
      modifies this
      ensures Agrees() && run == Engage(old(run), sock)
      ensures state == Connecting && channel == Some(sock) && registered && unchanged(`connect, `timersSet, `sockets)
    {
      state := Connecting;
      assert channel.None?;
      channel := Some(sock);
      registered := true;
      run := Engage(run, sock);
    }

    method CreateAndConnect(result: ConnectResult)
      requires Agrees() && channel.None?
      modifies this
      ensures Agrees() && run == Connect(old(run), result)
      ensures |sockets| == |old(sockets)| + 1 && sockets[..|old(sockets)|] == old(sockets)
      ensures sockets[|old(sockets)|] == if result == InProgress then Socket(0, 0) else Socket(1, 0)
      ensures state == match result case InProgress => Connecting case Retriable => Disconnected case Hopeless => old(state)
      ensures timersSet == old(timersSet) + (if result == Retriable && connect then 1 else 0)
    {
      ghost var before := run;
      var sock := |sockets|;
      sockets := sockets + [Socket(0, 0)];
      run := run.(sockets := sockets);
      match result {
        case InProgress => StartConnecting(sock);
        case Retriable => RetryConnect(sock);
        case Hopeless => CloseSocket(sock);
      }
      assert run == Connect(before, result);
    }

    method RunStartInLoop(result: ConnectResult)
      requires Agrees() && state == Disconnected && channel.None?
      modifies this
      ensures Agrees() && run == DoStartInLoop(old(run), result)
    {
      assert state == Disconnected;
      if connect {
        CreateAndConnect(result);
      }
    }

    method RemoveAndResetChannel() returns (sock: nat)
      requires Agrees() && channel.Some? && registered
      modifies this
      ensures Agrees() && run == Disengage(old(run)) && Some(sock) == old(channel)
      ensures !registered && channel == old(channel) && pendingFunctors == old(pendingFunctors) + [ResetChannel]
    {
      registered := false;
      sock := channel.value;
      pendingFunctors := pendingFunctors + [ResetChannel];
      run := Disengage(run);
    }

    method RunStopInLoop()
      requires Agrees() && Ready(run)
      modifies this
      ensures Agrees() && run == DoStopInLoop(old(run))
      ensures state == (if old(state) == Connecting then Disconnected else old(state))
      ensures old(state) == Connecting ==> !registered && pendingFunctors == old(pendingFunctors) + [ResetChannel]
    {
      if state == Connecting {
        state := Disconnected;
        run := run.(state := Disconnected);
        var sock := RemoveAndResetChannel();
        RetryConnect(sock);
      }
    }

    method RunResetChannel()
      requires Agrees() && !registered
      modifies this
      ensures Agrees() && run == DoResetChannel(old(run)) && channel == None
    {
      channel := None;
      run := DoResetChannel(run);
    }

    method RunHandleWrite(found: WriteResult)
      requires Agrees() && Ready(run) && state != Connected
      modifies this
      ensures Agrees() && run == HandleWrite(old(run), found)
      ensures old(state) == Connecting ==>
                var sock := old(channel).value;
                && state == (if found == Established then Connected else Disconnected)
                && sockets[sock].handovers == old(sockets)[sock].handovers + (if found == Established && connect then 1 else 0)
                && sockets[sock].closes == old(sockets)[sock].closes + (if found == Established && connect then 0 else 1)
    {
      if state == Connecting {
        var sock := RemoveAndResetChannel();
        if found != Established {
          RetryConnect(sock);
        } else {
          state := Connected;
          run := run.(state := Connected);
          if connect {
            sockets := sockets[sock := sockets[sock].(handovers := sockets[sock].handovers + 1)];
            run := Settled(run, sock);
          } else {
            CloseSocket(sock);
          }
        }
      } else {
        assert state == Disconnected;
      }
    }

    method RunHandleError()
      requires Agrees() && Ready(run)
      modifies this
      ensures Agrees() && run == HandleError(old(run))
      ensures state == (if old(state) == Connecting then Disconnected else old(state))
    {
      if state == Connecting {
        var sock := RemoveAndResetChannel();
        RetryConnect(sock);
      }
    }

    method RunRestart(result: ConnectResult)
      requires Agrees() && channel.None?
      modifies this
      ensures Agrees() && run == DoRestart(old(run), result)
      ensures connect && (state == if result == InProgress then Connecting else Disconnected)
      ensures retryDelayMs == if result == Retriable then 1000 else 500
    {
      state := Disconnected;
      retryDelayMs := INIT_RETRY_DELAY_MS;
      connect := true;
      run := run.(state := Disconnected, delay := INIT_RETRY_DELAY_MS, delays := [], connect := true);
      RunStartInLoop(result);
    }
  }
}
