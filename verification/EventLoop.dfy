/** The reactor's pending-functor queue and its eventfd wakeup protocol.

    The loop thread polls, handles events, then swaps out and runs a batch of functors.  Other threads push under
    the mutex and write the eventfd afterwards, as two separate steps.  Every interleaving of those atomic steps is
    a sequence of `Event`s; the theorems at the end range over all of them. */
module EventLoops {
  import opened Common

  type ThreadId = nat

  /** The largest value an eventfd counter may hold; a non-blocking write beyond it fails and leaves it unchanged. */
  const COUNTER_LIMIT: nat := 0xFFFF_FFFF_FFFF_FFFE

  /** A queued functor: its identity, whether the loop thread itself queued it, and how many batches had been
      swapped out when it was queued. */
  datatype Task = Task(id: nat, own: bool, epoch: nat)

  /** Where the loop thread is. */
  datatype Phase =
    | Idle                                        // loop() has not been entered
    | Testing                                     // at while (!quit_)
    | Polling                                     // about to block in poll
    | Handling(woken: bool)                       // walking activeChannels_; woken: wakeup channel still to be handled
    | Swapping                                    // in doPendingFunctors, flag set, batch not yet swapped out
    | Running(rest: seq<Task>, inside: bool)      // running the batch; inside: a functor is executing
    | Finished                                    // loop() has returned

  /** The shared fields, the position of every thread, and the history of the run. */
  datatype State = State(
    phase: Phase,
    pending: seq<Task>,          // pendingFunctors_
    counter: nat,                // the eventfd behind wakeupFd_
    quit: bool,                  // quit_
    calling: bool,               // callingPendingFunctors_
    selfPushed: bool,            // the loop thread is in queueInLoop, past the push
    inFlight: set<ThreadId>,     // other threads past their push (or past quit_ = true), before their wakeup()
    history: seq<Task>,          // every queueInLoop call, in mutex order
    ran: seq<Task>,              // functors run from the queue, in order
    ranIn: seq<nat>,             // the batch each of them ran in
    batches: nat,                // number of swaps
    polls: nat,                  // number of polls that returned
    foreignQuits: nat)           // quit() calls made by other threads

  datatype Event =
    | LoopStart
    | Test
    | PollReturn(woken: bool)
    | HandleRead
    | BeginPending
    | Swap
    | BeginFunctor
    | EndFunctor
    | EndPending
    | OwnPush(id: nat)
    | OwnCheckWakeup
    | OwnQuit
    | ForeignPush(thread: ThreadId, id: nat)
    | ForeignQuit(thread: ThreadId)
    | ForeignWakeup(thread: ThreadId)

  const INITIAL := State(Idle, [], 0, false, false, false, {}, [], [], [], 0, 0, 0)

  /** The loop thread is inside a callback, where client code may call back into the loop. */
  predicate InCallback(s: State) {
    s.phase.Idle? || s.phase.Handling? || (s.phase.Running? && s.phase.inside)
  }

  predicate Enabled(s: State, e: Event) {
    match e
    case LoopStart => s.phase.Idle? && !s.selfPushed
    case Test => s.phase.Testing?
    case PollReturn(woken) => s.phase.Polling? && (woken ==> s.counter > 0)
    case HandleRead => s.phase.Handling? && s.phase.woken && !s.selfPushed
    case BeginPending => s.phase.Handling? && !s.phase.woken && !s.selfPushed
    case Swap => s.phase.Swapping?
    case BeginFunctor => s.phase.Running? && !s.phase.inside && s.phase.rest != []
    case EndFunctor => s.phase.Running? && s.phase.inside && !s.selfPushed
    case EndPending => s.phase.Running? && !s.phase.inside && s.phase.rest == []
    case OwnPush(_) => InCallback(s) && !s.selfPushed
    case OwnCheckWakeup => s.selfPushed
    case OwnQuit => InCallback(s) && !s.selfPushed
    case ForeignPush(t, _) => t !in s.inFlight
    case ForeignQuit(t) => t !in s.inFlight
    case ForeignWakeup(t) => t in s.inFlight
  }

  function Written(counter: nat): nat {
    if counter < COUNTER_LIMIT then counter + 1 else counter
  }

  function Pushed(s: State, id: nat, own: bool): State {
    var task := Task(id, own, s.batches);
    s.(pending := s.pending + [task], history := s.history + [task])
  }

  function Apply(s: State, e: Event): State
    requires Enabled(s, e)
  {
    match e
    case LoopStart => s.(phase := Testing, quit := false)
    case Test => s.(phase := if s.quit then Finished else Polling)
    case PollReturn(woken) => s.(phase := Handling(woken), polls := s.polls + 1)
    case HandleRead => s.(phase := Handling(false), counter := 0)
    case BeginPending => s.(phase := Swapping, calling := true)
    case Swap => s.(phase := Running(s.pending, false), pending := [], batches := s.batches + 1)
    case BeginFunctor =>
      s.(phase := Running(s.phase.rest[1..], true), ran := s.ran + [s.phase.rest[0]], ranIn := s.ranIn + [s.batches])
    case EndFunctor => s.(phase := Running(s.phase.rest, false))
    case EndPending => s.(phase := Testing, calling := false)
    case OwnPush(id) => Pushed(s, id, true).(selfPushed := true)
    case OwnCheckWakeup => s.(selfPushed := false, counter := if s.calling then Written(s.counter) else s.counter)
    case OwnQuit => s.(quit := true)
    case ForeignPush(t, id) => Pushed(s, id, false).(inFlight := s.inFlight + {t})
    case ForeignQuit(t) => s.(quit := true, inFlight := s.inFlight + {t}, foreignQuits := s.foreignQuits + 1)
    case ForeignWakeup(t) => s.(counter := Written(s.counter), inFlight := s.inFlight - {t})
  }

  /** `events` is a possible interleaving leading from `s` to `t`. */
  ghost predicate IsRun(s: State, events: seq<Event>, t: State)
    decreases |events|
  {
    if events == [] then s == t
    else Enabled(s, events[0]) && IsRun(Apply(s, events[0]), events[1..], t)
  }

  // ---------------------------------------------------------------------------------------------------------------
  // Invariants

  /** A wakeup has been delivered and not consumed, or a thread is committed to delivering one. */
  predicate WakeupDue(s: State) {
    s.counter > 0 || s.inFlight != {}
  }

  /** Some thread other than the loop thread has called queueInLoop or quit. */
  predicate ForeignCall(s: State) {
    s.foreignQuits > 0 || exists i :: 0 <= i < |s.history| && !s.history[i].own
  }

  /** The functors of the current batch that have not started. */
  function Unstarted(s: State): seq<Task> {
    if s.phase.Running? then s.phase.rest else []
  }

  /** Queue order: what ran, what is left of the batch and what is pending make up the history, and each functor
      runs in the very next batch swapped out after it was queued. */
  ghost predicate QueueInv(s: State) {
    && s.ran + Unstarted(s) + s.pending == s.history
    && |s.ranIn| == |s.ran|
    && (forall i :: 0 <= i < |s.ran| ==> s.ranIn[i] == s.ran[i].epoch + 1 <= s.batches)
    && (forall i :: 0 <= i < |Unstarted(s)| ==> Unstarted(s)[i].epoch + 1 == s.batches)
    && (forall i :: 0 <= i < |s.pending| ==> s.pending[i].epoch == s.batches)
  }

  /** Wakeup protocol. */
  ghost predicate WakeupInv(s: State) {
    && (s.calling <==> s.phase.Swapping? || s.phase.Running?)
    && (s.selfPushed ==> InCallback(s))
    && (s.phase.Handling? && s.phase.woken ==> s.counter > 0)
    // once a batch has been swapped out, whatever is queued next comes with a wakeup
    && (s.phase.Running? && s.pending != [] ==> WakeupDue(s) || s.selfPushed)
    && ((s.phase.Testing? || s.phase.Polling?) && s.polls > 0 && s.pending != [] ==> WakeupDue(s))
    && (s.phase.Polling? && s.quit ==> WakeupDue(s))
    // up to the first poll nothing consumes the counter
    && (s.phase.Idle? ==> s.polls == 0)
    && (s.polls == 0 && !s.phase.Finished? ==>
          (s.phase.Idle? || s.phase.Testing? || s.phase.Polling?) && (WakeupDue(s) <==> ForeignCall(s)))
    && (s.polls == 0 ==> s.batches == 0 && s.ran == [])
  }

  ghost predicate Inv(s: State) {
    QueueInv(s) && WakeupInv(s)
  }

  lemma StepKeepsQueueInv(s: State, e: Event)
    requires QueueInv(s) && Enabled(s, e)
    ensures QueueInv(Apply(s, e))
  {
    var t := Apply(s, e);
    match e {
      case BeginFunctor =>
        assert s.phase.rest == [s.phase.rest[0]] + t.phase.rest;
        assert t.ran + Unstarted(t) == s.ran + s.phase.rest;
      case OwnPush(_) =>
        assert t.ran + Unstarted(t) + t.pending == s.history + [t.pending[|s.pending|]];
      case ForeignPush(_, _) =>
        assert t.ran + Unstarted(t) + t.pending == s.history + [t.pending[|s.pending|]];
      case _ =>
    }
  }

  lemma PushForeignCall(s: State, id: nat, own: bool)
    ensures ForeignCall(Pushed(s, id, own)) <==> ForeignCall(s) || !own
  {
    var t := Pushed(s, id, own);
    assert t.history[|s.history|].own == own;
    if i :| 0 <= i < |s.history| && !s.history[i].own {
      assert !t.history[i].own;
    }
  }

  lemma StepKeepsWakeupInv(s: State, e: Event)
    requires WakeupInv(s) && Enabled(s, e)
    ensures WakeupInv(Apply(s, e))
  {
    match e {
      case OwnPush(id) => PushForeignCall(s, id, true);
      case ForeignPush(t, id) =>
        PushForeignCall(s, id, false);
        assert t in Apply(s, e).inFlight;
      case ForeignQuit(t) => assert t in Apply(s, e).inFlight;
      case _ =>
    }
  }

  lemma {:induction false} RunKeepsInv(s: State, events: seq<Event>, t: State)
    requires Inv(s) && IsRun(s, events, t)
    ensures Inv(t)
    decreases |events|
  {
    if events != [] {
      StepKeepsQueueInv(s, events[0]);
      StepKeepsWakeupInv(s, events[0]);
      RunKeepsInv(Apply(s, events[0]), events[1..], t);
    }
  }

  // ---------------------------------------------------------------------------------------------------------------
  // Theorems over all interleavings

  /** No lost wakeup.  Whenever the loop thread is about to block in poll with functors pending, a wakeup has been
      delivered or is on its way -- except at the first poll, where it is missing exactly when functors were queued
      but no other thread has called queueInLoop or quit: queueInLoop skips the wakeup in the loop thread. */
  lemma NoLostWakeup(events: seq<Event>, s: State)
    requires IsRun(INITIAL, events, s)
    requires s.phase.Polling? && s.pending != []
    ensures s.polls > 0 ==> WakeupDue(s)
    ensures s.polls == 0 ==> (WakeupDue(s) <==> ForeignCall(s))
  {
    RunKeepsInv(INITIAL, events, s);
  }

  /** The exception above is reachable: one functor queued by the loop thread before loop() leaves it blocked. */
  lemma FirstPollMayBlock()
    ensures exists events, s ::
              IsRun(INITIAL, events, s) && s.phase.Polling? && s.pending != [] && !WakeupDue(s)
  {
    var s1 := Apply(INITIAL, OwnPush(7));
    var s2 := Apply(s1, OwnCheckWakeup);
    var s3 := Apply(s2, LoopStart);
    var s4 := Apply(s3, Test);
    assert IsRun(s4, [], s4);
    assert [Test][1..] == [];
    assert IsRun(s3, [Test], s4);
    assert [LoopStart, Test][1..] == [Test];
    assert IsRun(s2, [LoopStart, Test], s4);
    assert [OwnCheckWakeup, LoopStart, Test][1..] == [LoopStart, Test];
    assert IsRun(s1, [OwnCheckWakeup, LoopStart, Test], s4);
    var events := [OwnPush(7), OwnCheckWakeup, LoopStart, Test];
    assert events[1..] == [OwnCheckWakeup, LoopStart, Test];
    assert IsRun(INITIAL, events, s4);
  }

  /** A quit is never slept through either, and it is honoured at the next test. */
  lemma NoLostQuit(events: seq<Event>, s: State)
    requires IsRun(INITIAL, events, s)
    requires s.quit
    ensures s.phase.Polling? ==> WakeupDue(s)
    ensures s.phase.Testing? ==> Apply(s, Test).phase.Finished?
  {
    RunKeepsInv(INITIAL, events, s);
  }

  /** Exactly once, in order: at every moment the functors already run, then the unstarted rest of the batch, then
      pendingFunctors_, are the whole history of queueInLoop calls; and each functor ran in the batch right after
      the one current when it was queued, so no batch takes in what is queued while it runs. */
  lemma ExactlyOnceFifo(events: seq<Event>, s: State)
    requires IsRun(INITIAL, events, s)
    ensures s.ran + Unstarted(s) + s.pending == s.history
    ensures |s.ranIn| == |s.ran|
    ensures forall i :: 0 <= i < |s.ran| ==> s.ran[i] == s.history[i] && s.ranIn[i] == s.history[i].epoch + 1
    ensures forall i :: 0 <= i < |Unstarted(s)| ==> Unstarted(s)[i].epoch + 1 == s.batches
  {
    RunKeepsInv(INITIAL, events, s);
    assert s.history == s.ran + (Unstarted(s) + s.pending);
  }

  lemma {:induction false} HistoryGrows(s: State, events: seq<Event>, t: State)
    requires IsRun(s, events, t)
    ensures s.history <= t.history && s.batches <= t.batches
    decreases |events|
  {
    if events != [] {
      HistoryGrows(Apply(s, events[0]), events[1..], t);
    }
  }

  /** Progress: once a batch swapped out after `s` has been run to its end, everything queued up to `s` has run. */
  lemma NextBatchDrains(before: seq<Event>, s: State, after: seq<Event>, t: State)
    requires IsRun(INITIAL, before, s) && IsRun(s, after, t)
    requires t.batches > s.batches && Unstarted(t) == []
    ensures s.history <= t.ran
  {
    RunKeepsInv(INITIAL, before, s);
    RunKeepsInv(s, after, t);
    HistoryGrows(s, after, t);
    assert t.ran + t.pending == t.history;
    if |t.ran| < |s.history| {
      // the functor just past t.ran was queued by the time of s, yet still carries t's batch number
      var task := t.history[|t.ran|];
      assert task == t.pending[0] && task.epoch == t.batches;
      assert task == s.history[|t.ran|];
      EpochBound(s);
      assert false;
    }
  }

  /** No queued functor can carry a batch number from the future. */
  lemma EpochBound(s: State)
    requires QueueInv(s)
    ensures forall i :: 0 <= i < |s.history| ==> s.history[i].epoch <= s.batches
  {
    assert s.history == s.ran + (Unstarted(s) + s.pending);
  }

  // ---------------------------------------------------------------------------------------------------------------
  // The state as a function of what happened

  /** The last of loop() being entered and quit() being called was a quit(). */
  predicate QuitAsked(events: seq<Event>) {
    events != [] &&
    match events[|events| - 1]
    case LoopStart => false
    case OwnQuit => true
    case ForeignQuit(_) => true
    case _ => QuitAsked(events[..|events| - 1])
  }

  /** doPendingFunctors has begun and not ended. */
  predicate InBatch(events: seq<Event>) {
    events != [] &&
    match events[|events| - 1]
    case BeginPending => true
    case EndPending => false
    case _ => InBatch(events[..|events| - 1])
  }

  /** The wakeups made since the eventfd was last read: one per call of another thread, and one per queueInLoop of the
      loop thread from inside a functor. */
  function Unread(events: seq<Event>): nat {
    if events == [] then 0
    else
      var before := events[..|events| - 1];
      match events[|events| - 1]
      case HandleRead => 0
      case ForeignWakeup(_) => Unread(before) + 1
      case OwnCheckWakeup => Unread(before) + (if InBatch(before) then 1 else 0)
      case _ => Unread(before)
  }

  /** Every queueInLoop call, in order: the functor and whether the loop thread made it. */
  function Queued(events: seq<Event>): seq<(nat, bool)> {
    if events == [] then []
    else
      var before := Queued(events[..|events| - 1]);
      match events[|events| - 1]
      case OwnPush(id) => before + [(id, true)]
      case ForeignPush(_, id) => before + [(id, false)]
      case _ => before
  }

  predicate IsLoopStep(e: Event) {
    !(e.OwnPush? || e.OwnCheckWakeup? || e.OwnQuit? || e.ForeignPush? || e.ForeignQuit? || e.ForeignWakeup?)
  }

  /** The loop thread's own last step, client calls aside. */
  function LastLoopStep(events: seq<Event>): Option<Event> {
    if events == [] then None
    else if IsLoopStep(events[|events| - 1]) then Some(events[|events| - 1])
    else LastLoopStep(events[..|events| - 1])
  }

  /** Where the loop thread is after its last step. */
  predicate After(phase: Phase, last: Option<Event>) {
    match phase
    case Idle => last == None
    case Testing => last == Some(LoopStart) || last == Some(EndPending)
    case Polling => last == Some(Test)
    case Handling(woken) =>
      if woken then last == Some(PollReturn(true)) else last == Some(PollReturn(false)) || last == Some(HandleRead)
    case Swapping => last == Some(BeginPending)
    case Running(_, inside) => if inside then last == Some(BeginFunctor) else last == Some(Swap) || last == Some(EndFunctor)
    case Finished => last == Some(Test)
  }

  ghost predicate TraceInv(events: seq<Event>, s: State) {
    && s.quit == QuitAsked(events)
    && s.calling == InBatch(events)
    && s.counter == (if Unread(events) < COUNTER_LIMIT then Unread(events) else COUNTER_LIMIT)
    && After(s.phase, LastLoopStep(events))
    && (s.phase.Finished? ==> s.quit)
  }

  ghost predicate HistoryInv(events: seq<Event>, s: State) {
    && |s.history| == |Queued(events)|
    && forall i :: 0 <= i < |s.history| ==> (s.history[i].id, s.history[i].own) == Queued(events)[i]
  }

  lemma {:induction false} RunLast(s: State, events: seq<Event>, t: State) returns (u: State)
    requires IsRun(s, events, t) && events != []
    ensures var n := |events| - 1;
            IsRun(s, events[..n], u) && Enabled(u, events[n]) && t == Apply(u, events[n])
    decreases |events|
  {
    var n := |events| - 1;
    if n == 0 {
      u := s;
      assert events[..n] == [];
    } else {
      u := RunLast(Apply(s, events[0]), events[1..], t);
      assert events[1..][..n - 1] == events[..n][1..];
    }
  }

  lemma StepKeepsTrace(events: seq<Event>, s: State, e: Event)
    requires TraceInv(events, s) && Enabled(s, e)
    ensures TraceInv(events + [e], Apply(s, e))
  {
    assert (events + [e])[..|events|] == events;
  }

  lemma StepKeepsHistory(events: seq<Event>, s: State, e: Event)
    requires HistoryInv(events, s) && Enabled(s, e)
    ensures HistoryInv(events + [e], Apply(s, e))
  {
    assert (events + [e])[..|events|] == events;
  }

  lemma {:induction false} RunKeepsTrace(events: seq<Event>, s: State)
    requires IsRun(INITIAL, events, s)
    ensures TraceInv(events, s) && HistoryInv(events, s)
  {
    if events != [] {
      var n := |events| - 1;
      var u := RunLast(INITIAL, events, s);
      RunKeepsTrace(events[..n], u);
      StepKeepsTrace(events[..n], u, events[n]);
      StepKeepsHistory(events[..n], u, events[n]);
      assert events[..n] + [events[n]] == events;
    }
  }

  /** loop() has returned only after a quit() made since it was entered; until such a quit() every test leads to poll,
      and after it the next test leads out. */
  lemma ReturnsOnlyAfterQuit(events: seq<Event>, s: State)
    requires IsRun(INITIAL, events, s)
    ensures s.phase.Finished? ==> QuitAsked(events)
    ensures s.phase.Testing? ==> (Apply(s, Test).phase == if QuitAsked(events) then Finished else Polling)
  {
    RunKeepsTrace(events, s);
  }

  /** The eventfd holds exactly the wakeups made since it was last read, as far as it can count. */
  lemma CounterCountsWakeups(events: seq<Event>, s: State)
    requires IsRun(INITIAL, events, s)
    ensures s.counter == (if Unread(events) < 0xFFFF_FFFF_FFFF_FFFE then Unread(events) else 0xFFFF_FFFF_FFFF_FFFE)
  {
    RunKeepsTrace(events, s);
  }

  /** The history is the calls of queueInLoop themselves, and the functors that ran are the first of them. */
  lemma RunsWhatWasQueued(events: seq<Event>, s: State)
    requires IsRun(INITIAL, events, s)
    ensures |s.ran| <= |Queued(events)| == |s.history|
    ensures forall i :: 0 <= i < |s.ran| ==> (s.ran[i].id, s.ran[i].own) == Queued(events)[i]
  {
    RunKeepsTrace(events, s);
    ExactlyOnceFifo(events, s);
  }

  /** In every interleaving the loop thread takes its steps in the order of the source: test, poll, the wakeup channel's
      handler if and only if poll reported it, the swap, the functors one by one until none of the batch is left. */
  lemma StepsComeInOrder(events: seq<Event>, s: State, e: Event)
    requires IsRun(INITIAL, events, s) && Enabled(s, e) && IsLoopStep(e)
    ensures var last := LastLoopStep(events);
            match e
            case LoopStart => last == None
            case Test => last == Some(LoopStart) || last == Some(EndPending)
            case PollReturn(_) => last == Some(Test)
            case HandleRead => last == Some(PollReturn(true))
            case BeginPending => last == Some(PollReturn(false)) || last == Some(Event.HandleRead)
            case Swap => last == Some(BeginPending)
            case BeginFunctor => (last == Some(Swap) || last == Some(EndFunctor)) && Unstarted(s) != []
            case EndFunctor => last == Some(BeginFunctor)
            case EndPending => (last == Some(Swap) || last == Some(EndFunctor)) && Unstarted(s) == []
            case _ => false
  {
    RunKeepsTrace(events, s);
  }

  // ---------------------------------------------------------------------------------------------------------------
  // The object itself

  /** The mutable fields and the atomic sections of the member functions.  Each section keeps the fields in step with
      the run it belongs to; `run` is the specification state. */
  class EventLoop {
    var looping: bool
    var quitFlag: bool
    var callingPendingFunctors: bool
    var wakeupFd: nat
    var pendingFunctors: seq<nat>
    ghost var run: State

    ghost predicate Valid()
      reads this
    {
      && Inv(run)
      && quitFlag == run.quit
      && callingPendingFunctors == run.calling
      && wakeupFd == run.counter
      && looping == (!run.phase.Idle? && !run.phase.Finished?)
      && Ids(pendingFunctors, run.pending)
    }

    static ghost predicate Ids(ids: seq<nat>, tasks: seq<Task>) {
      |ids| == |tasks| && forall i :: 0 <= i < |ids| ==> ids[i] == tasks[i].id
    }

    constructor ()
      ensures Valid() && run == INITIAL
    {
      looping, quitFlag, callingPendingFunctors, wakeupFd, pendingFunctors := false, false, false, 0, [];
      run := INITIAL;
    }

    ghost method Advance(e: Event)
      requires Inv(run) && Enabled(run, e)
      modifies this`run
      ensures Inv(run) && run == Apply(old(run), e)
    {
      StepKeepsQueueInv(run, e);
      StepKeepsWakeupInv(run, e);
      run := Apply(run, e);
    }

    /** queueInLoop, under the mutex. */
    method PushUnderLock(id: nat, ghost e: Event)
      requires Valid() && Enabled(run, e)
      requires e == OwnPush(id) || (e.ForeignPush? && e.id == id)
      modifies this`pendingFunctors, this`run
      ensures Valid() && run == Apply(old(run), e)
      ensures pendingFunctors == old(pendingFunctors) + [id]
    {
      pendingFunctors := pendingFunctors + [id];
      Advance(e);
    }

    /** queueInLoop, after the mutex is released, and the end of quit(): wake the loop unless that is pointless. */
    method WakeupIfNeeded(inLoopThread: bool, ghost e: Event)
      requires Valid() && Enabled(run, e)
      requires if inLoopThread then e == OwnCheckWakeup else e.ForeignWakeup?
      modifies this`wakeupFd, this`run
      ensures Valid() && run == Apply(old(run), e)
      ensures wakeupFd == if (inLoopThread && !callingPendingFunctors) || old(wakeupFd) >= COUNTER_LIMIT then old(wakeupFd)
                          else old(wakeupFd) + 1
    {
      if !inLoopThread || callingPendingFunctors {
        if wakeupFd < COUNTER_LIMIT {
          wakeupFd := wakeupFd + 1;
        }
      }
      Advance(e);
    }

    method SetQuit(ghost e: Event)
      requires Valid() && Enabled(run, e) && (e.OwnQuit? || e.ForeignQuit?)
      modifies this`quitFlag, this`run
      ensures Valid() && run == Apply(old(run), e) && quitFlag
    {
      quitFlag := true;
      Advance(e);
    }

    /** loop() entered; the assertion !looping_ holds because a run enters it from Idle only. */
    method Start()
      requires Valid() && Enabled(run, LoopStart)
      modifies this`looping, this`quitFlag, this`run
      ensures Valid() && run == Apply(old(run), LoopStart) && looping && !quitFlag
    {
      assert !looping;
      looping, quitFlag := true, false;
      Advance(LoopStart);
    }

    /** The loop test.  `goOn` false means loop() returns; true means poll is entered with no wakeup lost. */
    method TestQuit() returns (goOn: bool)
      requires Valid() && Enabled(run, Test)
      modifies this`looping, this`run
      ensures Valid() && run == Apply(old(run), Test)
      ensures (goOn <==> !quitFlag) && goOn == looping == run.phase.Polling?
      ensures goOn && run.polls > 0 && pendingFunctors != [] ==> WakeupDue(run)
    {
      goOn := !quitFlag;
      looping := goOn;
      Advance(Test);
    }

    method HandleRead()
      requires Valid() && Enabled(run, Event.HandleRead)
      modifies this`wakeupFd, this`run
      ensures Valid() && run == Apply(old(run), Event.HandleRead) && wakeupFd == 0
    {
      assert wakeupFd > 0;  // the non-blocking read finds something to read
      wakeupFd := 0;
      Advance(Event.HandleRead);
    }

    /** doPendingFunctors up to the end of its critical section. */
    method TakeBatch() returns (functors: seq<nat>)
      requires Valid() && Enabled(run, BeginPending)
      modifies this`callingPendingFunctors, this`pendingFunctors, this`run
      ensures Valid() && run == Apply(Apply(old(run), BeginPending), Swap) && callingPendingFunctors
      ensures functors == old(pendingFunctors) && Ids(functors, Unstarted(run)) && pendingFunctors == []
    {
      callingPendingFunctors := true;
      Advance(BeginPending);
      functors, pendingFunctors := pendingFunctors, [];
      Advance(Swap);
    }

    method FinishBatch()
      requires Valid() && Enabled(run, EndPending)
      modifies this`callingPendingFunctors, this`run
      ensures Valid() && run == Apply(old(run), EndPending) && !callingPendingFunctors
    {
      callingPendingFunctors := false;
      Advance(EndPending);
    }
  }
}
