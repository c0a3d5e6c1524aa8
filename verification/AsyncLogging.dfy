/** The asynchronous logger: front-end threads fill buffers under a mutex, one back-end thread swaps the filled ones
    out, writes them and recycles two of them.

    A run is any interleaving of appends with the steps of the back end.  The state keeps what the code keeps --
    currentBuffer_, nextBuffer_, buffers_, newBuffer1, newBuffer2, buffersToWrite -- plus the history needed to say
    what became of every byte. */
module AsyncLogs {
  import opened Common

  /** kLargeBuffer, and the number of buffers above which a round is an overload. */
  const CAPACITY: nat := 4000 * 1000
  const OVERLOAD: nat := 25

  /** What reaches the log file: a buffer's bytes, or the notice that buffers were dropped. */
  datatype Chunk = Data(bytes: string) | Dropped(stamp: string, buffers: nat)

  /** One batch swapped out by the back end, and the time printed if it had to be cut. */
  datatype Round = Round(batch: seq<string>, stamp: string)

  datatype Phase =
    | Head                // at while (running_)
    | Entering            // about to take the mutex
    | Waiting             // in waitForSeconds
    | Draining            // holds a fresh batch
    | Writing(next: nat)  // writes buffersToWrite[next] next
    | Stopped

  datatype State = State(
    phase: Phase,
    running: bool,
    current: string,
    next: Option<string>,
    buffers: seq<string>,
    new1: Option<string>,
    new2: Option<string>,
    toWrite: seq<string>,
    file: seq<Chunk>,
    lines: seq<string>,   // every logline appended, in lock order
    rounds: seq<Round>)   // every batch swapped out, the one in hand last

  datatype Event =
    | Append(line: string)
    | Stop
    | TestRunning
    | Lock
    | WaitReturns
    | Trim(stamp: string)
    | WriteBuffer
    | Recycle

  /** The state when threadFunc reaches its loop for the first time. */
  const INITIAL := State(Head, true, "", Some(""), [], Some(""), Some(""), [], [], [], [])

  /** FixedBuffer::append: all or nothing. */
  function Filled(buffer: string, line: string): string {
    if |buffer| + |line| < CAPACITY then buffer + line else buffer
  }

  function Appended(s: State, line: string): State {
    if |s.current| + |line| < CAPACITY then
      s.(current := s.current + line, lines := s.lines + [line])
    else
      s.(buffers := s.buffers + [s.current],
         current := Filled(if s.next.Some? then s.next.value else "", line),
         next := None,
         lines := s.lines + [line])
  }

  /** The rest of the critical section, after the wait. */
  function Exchanged(s: State): State
    requires s.new1.Some?
  {
    var batch := s.buffers + [s.current];
    s.(phase := Draining, buffers := [], toWrite := batch, rounds := s.rounds + [Round(batch, "")],
       current := s.new1.value, new1 := None,
       next := if s.next.None? then s.new2 else s.next,
       new2 := if s.next.None? then None else s.new2)
  }

  function Kept(batch: seq<string>): seq<string> {
    if |batch| > OVERLOAD then batch[..2] else batch
  }

  function Notice(r: Round): seq<Chunk> {
    if |r.batch| > OVERLOAD then [Dropped(r.stamp, |r.batch| - 2)] else []
  }

  /** Resize to two, then refill the empty spares from the back, cleared. */
  function Recycled(s: State): State {
    var left := if |s.toWrite| > 2 then s.toWrite[..2] else s.toWrite;
    var used1 := s.new1.None? && left != [];
    var left1 := if used1 then left[..|left| - 1] else left;
    var used2 := s.new2.None? && left1 != [];
    s.(phase := Head, toWrite := [],
       new1 := if used1 then Some("") else s.new1,
       new2 := if used2 then Some("") else s.new2)
  }

  predicate Enabled(s: State, e: Event) {
    match e
    case Append(_) => true
    case Stop => true
    case TestRunning => s.phase.Head?
    case Lock => s.phase.Entering? && s.new1.Some?
    case WaitReturns => s.phase.Waiting? && s.new1.Some?
    case Trim(_) => s.phase.Draining? && s.rounds != []
    case WriteBuffer => s.phase.Writing? && s.phase.next < |s.toWrite|
    case Recycle => s.phase.Writing? && s.phase.next == |s.toWrite|
  }

  function Apply(s: State, e: Event): State
    requires Enabled(s, e)
  {
    match e
    case Append(line) => Appended(s, line)
    case Stop => s.(running := false)
    case TestRunning => s.(phase := if s.running then Entering else Stopped)
    case Lock => if s.buffers == [] then s.(phase := Waiting) else Exchanged(s)
    case WaitReturns => Exchanged(s)
    case Trim(stamp) =>
      var round := Round(s.rounds[|s.rounds| - 1].batch, stamp);
      s.(phase := Writing(0), toWrite := Kept(s.toWrite),
         rounds := s.rounds[..|s.rounds| - 1] + [round],
         file := if |s.toWrite| > OVERLOAD then s.file + [Dropped(stamp, |s.toWrite| - 2)] else s.file)
    case WriteBuffer =>
      s.(phase := Writing(s.phase.next + 1), file := s.file + [Data(s.toWrite[s.phase.next])])
    case Recycle => Recycled(s)
  }

  ghost predicate IsRun(s: State, events: seq<Event>, t: State)
    decreases |events|
  {
    if events == [] then s == t
    else Enabled(s, events[0]) && IsRun(Apply(s, events[0]), events[1..], t)
  }

  // ---------------------------------------------------------------------------------------------------------------
  // Byte accounting

  function Concat(parts: seq<string>): string {
    if parts == [] then "" else parts[0] + Concat(parts[1..])
  }

  lemma {:induction false} ConcatAppend(a: seq<string>, b: seq<string>)
    ensures Concat(a + b) == Concat(a) + Concat(b)
  {
    if a == [] {
      assert a + b == b;
    } else {
      assert (a + b)[1..] == a[1..] + b;
      ConcatAppend(a[1..], b);
    }
  }

  lemma ConcatOne(part: string)
    ensures Concat([part]) == part
  {
    assert [part][1..] == [];
  }

  /** The lines that fit into an empty buffer; longer ones are dropped by FixedBuffer::append. */
  function Accepted(lines: seq<string>): seq<string> {
    if lines == [] then []
    else Accepted(lines[..|lines| - 1]) +
         (if |lines[|lines| - 1]| < CAPACITY then [lines[|lines| - 1]] else [])
  }

  lemma AcceptedSnoc(lines: seq<string>, line: string)
    ensures Concat(Accepted(lines + [line])) == Concat(Accepted(lines)) + (if |line| < CAPACITY then line else "")
  {
    assert (lines + [line])[..|lines|] == lines;
    ConcatAppend(Accepted(lines), if |line| < CAPACITY then [line] else []);
    ConcatOne(line);
  }

  /** The buffers of all rounds, in order. */
  function Batches(rounds: seq<Round>): seq<string> {
    if rounds == [] then [] else Batches(rounds[..|rounds| - 1]) + rounds[|rounds| - 1].batch
  }

  function Chunks(buffers: seq<string>): seq<Chunk> {
    seq(|buffers|, i requires 0 <= i < |buffers| => Data(buffers[i]))
  }

  /** What a complete round leaves in the file. */
  function Rendered(r: Round): seq<Chunk> {
    Notice(r) + Chunks(Kept(r.batch))
  }

  function RenderedAll(rounds: seq<Round>): seq<Chunk> {
    if rounds == [] then [] else RenderedAll(rounds[..|rounds| - 1]) + Rendered(rounds[|rounds| - 1])
  }

  // ---------------------------------------------------------------------------------------------------------------
  // Invariants

  /** The cross-thread invariant behind the asserts: nextBuffer_ is consumed exactly when something was pushed to
      buffers_. */
  ghost predicate BufferInv(s: State) {
    && (s.next.Some? ==> s.next.value == "")
    && (s.next.None? <==> s.buffers != [])
    && (s.new1.Some? ==> s.new1.value == "")
    && (s.new2.Some? ==> s.new2.value == "")
    && (s.phase.Head? || s.phase.Entering? || s.phase.Waiting? || s.phase.Stopped? ==>
          s.new1.Some? && s.new2.Some? && s.toWrite == [])
    && (s.phase.Draining? || s.phase.Writing? ==>
          && s.new1.None? && s.toWrite != [] && (s.new2.None? ==> |s.toWrite| >= 2)
          && s.rounds != [] && s.toWrite == (if s.phase.Draining? then LastBatch(s) else Kept(LastBatch(s))))
    && (s.phase.Writing? ==> s.phase.next <= |s.toWrite|)
  }

  function LastBatch(s: State): seq<string>
    requires s.rounds != []
  {
    s.rounds[|s.rounds| - 1].batch
  }

  /** Every accepted byte is in a round, in buffers_ or in currentBuffer_, in order. */
  ghost predicate ByteInv(s: State) {
    Concat(Accepted(s.lines)) == Concat(Batches(s.rounds)) + Concat(s.buffers) + s.current
  }

  /** All complete rounds, and the part of the round in hand already written. */
  function WrittenSoFar(phase: Phase, rounds: seq<Round>, toWrite: seq<string>): seq<Chunk>
    requires phase.Draining? || phase.Writing? ==> rounds != []
    requires phase.Writing? ==> phase.next <= |toWrite|
  {
    var n := |rounds| - 1;
    match phase
    case Draining => RenderedAll(rounds[..n])
    case Writing(k) => RenderedAll(rounds[..n]) + Notice(rounds[n]) + Chunks(toWrite[..k])
    case _ => RenderedAll(rounds)
  }

  ghost predicate FileInv(s: State)
    requires BufferInv(s)
  {
    s.file == WrittenSoFar(s.phase, s.rounds, s.toWrite)
  }

  ghost predicate Inv(s: State) {
    BufferInv(s) && ByteInv(s) && FileInv(s)
  }

  lemma StepKeepsBufferInv(s: State, e: Event)
    requires BufferInv(s) && Enabled(s, e)
    ensures BufferInv(Apply(s, e))
  {
  }

  lemma AppendKeepsByteInv(s: State, line: string)
    requires BufferInv(s) && ByteInv(s)
    ensures ByteInv(Appended(s, line))
  {
    AcceptedSnoc(s.lines, line);
    var before := Concat(Batches(s.rounds));
    if |s.current| + |line| < CAPACITY {
      Assoc(before + Concat(s.buffers), s.current, line);
    } else {
      ConcatAppend(s.buffers, [s.current]);
      ConcatOne(s.current);
      Assoc(before, Concat(s.buffers), s.current);
      FilledEmpty(line);
    }
  }

  lemma FilledEmpty(line: string)
    ensures Filled("", line) == if |line| < CAPACITY then line else ""
  {
    assert "" + line == line;
  }

  lemma ExchangeKeepsByteInv(s: State)
    requires s.new1 == Some("") && ByteInv(s)
    ensures ByteInv(Exchanged(s))
  {
    var t := Exchanged(s);
    var batch := s.buffers + [s.current];
    assert t.rounds[..|s.rounds|] == s.rounds;
    assert Batches(t.rounds) == Batches(s.rounds) + batch;
    ConcatAppend(Batches(s.rounds), batch);
    ConcatAppend(s.buffers, [s.current]);
    ConcatOne(s.current);
    Assoc(Concat(Batches(s.rounds)), Concat(s.buffers), s.current);
    assert Concat(Accepted(s.lines)) == Concat(Batches(t.rounds));
  }

  /** Naming the time of the last round changes no bytes. */
  lemma RestampKeepsBatches(rounds: seq<Round>, stamp: string)
    requires rounds != []
    ensures var n := |rounds| - 1;
            Batches(rounds[..n] + [Round(rounds[n].batch, stamp)]) == Batches(rounds)
  {
    var n := |rounds| - 1;
    var restamped := rounds[..n] + [Round(rounds[n].batch, stamp)];
    assert restamped[..n] == rounds[..n];
  }

  lemma StepKeepsByteInv(s: State, e: Event)
    requires BufferInv(s) && ByteInv(s) && Enabled(s, e)
    ensures ByteInv(Apply(s, e))
  {
    match e {
      case Append(line) => AppendKeepsByteInv(s, line);
      case Lock => if s.buffers != [] { ExchangeKeepsByteInv(s); }
      case WaitReturns => ExchangeKeepsByteInv(s);
      case Trim(stamp) => RestampKeepsBatches(s.rounds, stamp);
      case _ =>
    }
  }

  lemma TrimKeepsFileInv(s: State, stamp: string)
    requires BufferInv(s) && FileInv(s) && Enabled(s, Trim(stamp))
    ensures BufferInv(Apply(s, Trim(stamp))) && FileInv(Apply(s, Trim(stamp)))
  {
    var t := Apply(s, Trim(stamp));
    var n := |s.rounds| - 1;
    assert t.rounds[..n] == s.rounds[..n];
    assert Chunks(t.toWrite[..0]) == [];
    assert t.file == RenderedAll(t.rounds[..n]) + Notice(t.rounds[n]);
  }

  lemma ChunksSnoc(buffers: seq<string>, k: nat)
    requires k < |buffers|
    ensures Chunks(buffers[..k + 1]) == Chunks(buffers[..k]) + [Data(buffers[k])]
  {
    assert buffers[..k + 1][..k] == buffers[..k];
  }

  lemma WriteKeepsFileInv(s: State)
    requires BufferInv(s) && FileInv(s) && Enabled(s, WriteBuffer)
    ensures BufferInv(Apply(s, WriteBuffer)) && FileInv(Apply(s, WriteBuffer))
  {
    var n, k := |s.rounds| - 1, s.phase.next;
    ChunksSnoc(s.toWrite, k);
    Assoc(RenderedAll(s.rounds[..n]) + Notice(s.rounds[n]), Chunks(s.toWrite[..k]), [Data(s.toWrite[k])]);
  }

  /** When every kept buffer is written, the file has gained the round's rendering. */
  lemma RoundWritten(s: State)
    requires BufferInv(s) && FileInv(s) && s.phase == Writing(|s.toWrite|)
    ensures s.file == RenderedAll(s.rounds[..|s.rounds| - 1]) + Rendered(s.rounds[|s.rounds| - 1])
  {
    var n := |s.rounds| - 1;
    var kept := Kept(s.rounds[n].batch);
    assert s.toWrite[..|s.toWrite|] == kept;
    Assoc(RenderedAll(s.rounds[..n]), Notice(s.rounds[n]), Chunks(kept));
  }

  lemma ExchangeKeepsFileInv(s: State)
    requires BufferInv(s) && s.new1.Some? && s.file == RenderedAll(s.rounds)
    ensures BufferInv(Exchanged(s)) && FileInv(Exchanged(s))
  {
    assert Exchanged(s).rounds[..|s.rounds|] == s.rounds;
  }

  lemma StepKeepsFileInv(s: State, e: Event)
    requires BufferInv(s) && FileInv(s) && Enabled(s, e)
    ensures BufferInv(Apply(s, e)) && FileInv(Apply(s, e))
  {
    StepKeepsBufferInv(s, e);
    match e {
      case Lock => if s.buffers != [] { ExchangeKeepsFileInv(s); }
      case WaitReturns => ExchangeKeepsFileInv(s);
      case Trim(stamp) => TrimKeepsFileInv(s, stamp);
      case WriteBuffer => WriteKeepsFileInv(s);
      case Recycle => RoundWritten(s);
      case _ =>
    }
  }

  lemma {:induction false} RunKeepsInv(s: State, events: seq<Event>, t: State)
    requires Inv(s) && IsRun(s, events, t)
    ensures Inv(t)
    decreases |events|
  {
    if events != [] {
      StepKeepsBufferInv(s, events[0]);
      StepKeepsByteInv(s, events[0]);
      StepKeepsFileInv(s, events[0]);
      RunKeepsInv(Apply(s, events[0]), events[1..], t);
    }
  }

  // ---------------------------------------------------------------------------------------------------------------
  // Theorems over all interleavings

  /** Every assert of threadFunc holds: both spares are back and empty at the loop head with nothing left to write,
      a swap always yields a batch, and enough buffers come back for the spares that were consumed. */
  lemma RecyclingNeverFails(events: seq<Event>, s: State)
    requires IsRun(INITIAL, events, s)
    ensures s.phase.Head? || s.phase.Entering? ==> s.new1 == Some("") && s.new2 == Some("") && s.toWrite == []
    ensures s.phase.Draining? ==> s.toWrite != []
    ensures s.phase.Writing? ==>
              |s.toWrite| >= (if s.new1.None? then 1 else 0) + (if s.new2.None? then 1 else 0)
  {
    RunKeepsInv(INITIAL, events, s);
  }

  /** The bytes a sequence of chunks contributes, notices aside. */
  function FileBytes(chunks: seq<Chunk>): string {
    if chunks == [] then ""
    else FileBytes(chunks[..|chunks| - 1]) +
         (if chunks[|chunks| - 1].Data? then chunks[|chunks| - 1].bytes else "")
  }

  /** What the back end still holds of the round in hand. */
  function InHand(s: State): seq<string> {
    if s.phase.Draining? then s.toWrite
    else if s.phase.Writing? && s.phase.next <= |s.toWrite| then s.toWrite[s.phase.next..]
    else []
  }

  predicate NoOverload(rounds: seq<Round>) {
    forall i :: 0 <= i < |rounds| ==> |rounds[i].batch| <= 25
  }

  lemma {:induction false} FileBytesChunks(chunks: seq<Chunk>, buffers: seq<string>)
    ensures FileBytes(chunks + Chunks(buffers)) == FileBytes(chunks) + Concat(buffers)
  {
    if buffers == [] {
      assert chunks + Chunks(buffers) == chunks;
    } else {
      var n := |buffers| - 1;
      var all := chunks + Chunks(buffers);
      assert all[..|all| - 1] == chunks + Chunks(buffers[..n]);
      FileBytesChunks(chunks, buffers[..n]);
      assert buffers == buffers[..n] + [buffers[n]];
      ConcatAppend(buffers[..n], [buffers[n]]);
      ConcatOne(buffers[n]);
    }
  }

  lemma {:induction false} NoOverloadRendersBatches(rounds: seq<Round>)
    requires NoOverload(rounds)
    ensures FileBytes(RenderedAll(rounds)) == Concat(Batches(rounds))
  {
    if rounds != [] {
      var n := |rounds| - 1;
      NoOverloadRendersBatches(rounds[..n]);
      assert Rendered(rounds[n]) == Chunks(rounds[n].batch);
      FileBytesChunks(RenderedAll(rounds[..n]), rounds[n].batch);
      ConcatAppend(Batches(rounds[..n]), rounds[n].batch);
    }
  }

  /** Conservation and order: without an overload, the bytes in the file, then the buffers the back end holds, then
      buffers_, then currentBuffer_, are exactly the accepted loglines in lock order -- at every moment of every run. */
  lemma LogConservation(events: seq<Event>, s: State)
    requires IsRun(INITIAL, events, s)
    requires NoOverload(s.rounds)
    ensures FileBytes(s.file) + Concat(InHand(s)) + Concat(s.buffers) + s.current == Concat(Accepted(s.lines))
  {
    RunKeepsInv(INITIAL, events, s);
    assert FileBytes(s.file) + Concat(InHand(s)) == Concat(Batches(s.rounds)) by {
      if s.phase.Draining? || s.phase.Writing? {
        HandConservation(s);
      } else {
        NoOverloadRendersBatches(s.rounds);
        assert Concat(InHand(s)) == "";
      }
    }
  }

  lemma HandConservation(s: State)
    requires BufferInv(s) && FileInv(s) && NoOverload(s.rounds)
    requires s.phase.Draining? || s.phase.Writing?
    ensures FileBytes(s.file) + Concat(InHand(s)) == Concat(Batches(s.rounds))
  {
    var n := |s.rounds| - 1;
    if s.phase.Draining? {
      assert Chunks(s.toWrite[..0]) == [];
      assert s.toWrite[0..] == s.toWrite;
      PartialRound(s.rounds, 0);
      assert s.file == RenderedAll(s.rounds[..n]) + Chunks(s.toWrite[..0]);
    } else {
      assert Notice(s.rounds[n]) == [];
      assert s.file == RenderedAll(s.rounds[..n]) + Chunks(s.toWrite[..s.phase.next]);
      PartialRound(s.rounds, s.phase.next);
    }
  }

  /** The rounds before the last and the first `done` buffers of it, then the rest of it. */
  lemma PartialRound(rounds: seq<Round>, done: nat)
    requires rounds != [] && NoOverload(rounds) && done <= |rounds[|rounds| - 1].batch|
    ensures var n := |rounds| - 1;
            var batch := rounds[n].batch;
            FileBytes(RenderedAll(rounds[..n]) + Chunks(batch[..done])) + Concat(batch[done..]) == Concat(Batches(rounds))
  {
    var n := |rounds| - 1;
    var batch := rounds[n].batch;
    NoOverloadRendersBatches(rounds[..n]);
    FileBytesChunks(RenderedAll(rounds[..n]), batch[..done]);
    assert batch == batch[..done] + batch[done..];
    ConcatAppend(batch[..done], batch[done..]);
    ConcatAppend(Batches(rounds[..n]), batch);
    Assoc(Concat(Batches(rounds[..n])), Concat(batch[..done]), Concat(batch[done..]));
  }

  /** Overload or not: between rounds the file is the rendering of the rounds, each either whole or -- beyond 25
      buffers -- a notice counting the lost ones and the first two; and the rounds' buffers, buffers_ and
      currentBuffer_ together are the accepted loglines.  So a byte is lost only in a buffer from index 2 on of a
      round of more than 25. */
  lemma LossIsExactlyTheOverload(events: seq<Event>, s: State)
    requires IsRun(INITIAL, events, s)
    requires s.phase.Head? || s.phase.Stopped?
    ensures s.file == RenderedAll(s.rounds)
    ensures Concat(Batches(s.rounds)) + Concat(s.buffers) + s.current == Concat(Accepted(s.lines))
    ensures forall i :: 0 <= i < |s.rounds| && |s.rounds[i].batch| > 25 ==>
              Rendered(s.rounds[i]) == [Dropped(s.rounds[i].stamp, |s.rounds[i].batch| - 2),
                                        Data(s.rounds[i].batch[0]), Data(s.rounds[i].batch[1])]
    ensures forall i :: 0 <= i < |s.rounds| && |s.rounds[i].batch| <= 25 ==> Rendered(s.rounds[i]) == Chunks(s.rounds[i].batch)
  {
    RunKeepsInv(INITIAL, events, s);
    forall i | 0 <= i < |s.rounds| && |s.rounds[i].batch| > 25
      ensures Rendered(s.rounds[i]) == [Dropped(s.rounds[i].stamp, |s.rounds[i].batch| - 2),
                                        Data(s.rounds[i].batch[0]), Data(s.rounds[i].batch[1])]
    {
      assert |Chunks(Kept(s.rounds[i].batch))| == 2;
    }
  }

  /** An overload is reachable: enough full lines while the back end does not get its turn. */
  lemma OverloadIsReachable()
    ensures exists events, s :: IsRun(INITIAL, events, s) && s.phase.Draining? && s.rounds != [] && |LastBatch(s)| > 25
  {
    var events, s := FillBuffers(OVERLOAD);
    var t := Apply(s, TestRunning);
    RunSnoc(INITIAL, events, s, TestRunning);
    RunSnoc(INITIAL, events + [TestRunning], t, Lock);
    assert IsRun(INITIAL, events + [TestRunning] + [Lock], Apply(t, Lock));
  }

  /** `n` buffers in buffers_ and one more in use, the back end still at its loop head. */
  lemma {:induction false} FillBuffers(n: nat) returns (events: seq<Event>, s: State)
    ensures IsRun(INITIAL, events, s) && s.phase.Head? && s.running && s.new1.Some?
    ensures |s.buffers| == n && |s.current| == CAPACITY - 1 && (s.next.Some? ==> s.next.value == "")
  {
    var before: seq<Event>, t: State := [], INITIAL;
    if n > 0 {
      before, t := FillBuffers(n - 1);
    }
    var line := seq(CAPACITY - 1, _ => 'x');
    events, s := before + [Append(line)], Apply(t, Append(line));
    RunSnoc(INITIAL, before, t, Append(line));
  }

  /** A line survives exactly when it is shorter than a buffer. */
  lemma LineKeptIff(events: seq<Event>, s: State, line: string)
    requires IsRun(INITIAL, events, s)
    ensures var t := Apply(s, Append(line));
            Concat(t.buffers) + t.current == Concat(s.buffers) + s.current + (if |line| < 4000000 then line else "")
  {
    RunKeepsInv(INITIAL, events, s);
    if |s.current| + |line| < CAPACITY {
      Assoc(Concat(s.buffers), s.current, line);
    } else {
      ConcatAppend(s.buffers, [s.current]);
      ConcatOne(s.current);
      FilledEmpty(line);
    }
  }

  // ---------------------------------------------------------------------------------------------------------------
  // When a buffer is given up

  /** No two neighbouring buffers would have fitted into one. */
  ghost predicate Packed(buffers: seq<string>) {
    forall i :: 0 <= i < |buffers| - 1 ==> |buffers[i]| + |buffers[i + 1]| >= CAPACITY
  }

  ghost predicate PackedInv(s: State) {
    && Packed(s.buffers + [s.current])
    && forall i :: 0 <= i < |s.rounds| ==> Packed(s.rounds[i].batch)
  }

  lemma AppendKeepsPacked(s: State, line: string)
    requires BufferInv(s) && PackedInv(s) && |line| < CAPACITY
    ensures PackedInv(Appended(s, line))
  {
    var t := Appended(s, line);
    var before, after := s.buffers + [s.current], t.buffers + [t.current];
    if |s.current| + |line| < CAPACITY {
      forall i | 0 <= i < |after| - 1 ensures |after[i]| + |after[i + 1]| >= CAPACITY {
        assert |before[i]| + |before[i + 1]| >= CAPACITY;
      }
    } else {
      assert t.buffers == before && t.current == line;
      forall i | 0 <= i < |after| - 1 ensures |after[i]| + |after[i + 1]| >= CAPACITY {
        if i < |before| - 1 { assert |before[i]| + |before[i + 1]| >= CAPACITY; }
      }
    }
  }

  lemma StepKeepsPacked(s: State, e: Event)
    requires BufferInv(s) && PackedInv(s) && Enabled(s, e) && (e.Append? ==> |e.line| < CAPACITY)
    ensures PackedInv(Apply(s, e))
  {
    match e {
      case Append(line) => AppendKeepsPacked(s, line);
      case _ =>
    }
  }

  lemma {:induction false} RunKeepsPacked(s: State, events: seq<Event>, t: State)
    requires Inv(s) && PackedInv(s) && IsRun(s, events, t)
    requires forall i :: 0 <= i < |events| && events[i].Append? ==> |events[i].line| < CAPACITY
    ensures PackedInv(t)
    decreases |events|
  {
    if events != [] {
      StepKeepsPacked(s, events[0]);
      StepKeepsBufferInv(s, events[0]);
      StepKeepsByteInv(s, events[0]);
      StepKeepsFileInv(s, events[0]);
      RunKeepsPacked(Apply(s, events[0]), events[1..], t);
    }
  }

  lemma {:induction false} PackedBytes(buffers: seq<string>)
    requires Packed(buffers)
    ensures |Concat(buffers)| >= |buffers| / 2 * CAPACITY
  {
    if |buffers| >= 2 {
      var rest := buffers[2..];
      forall i | 0 <= i < |rest| - 1 ensures |rest[i]| + |rest[i + 1]| >= CAPACITY {
        assert |buffers[i + 2]| + |buffers[i + 3]| >= CAPACITY;
      }
      PackedBytes(rest);
      assert buffers[1..][1..] == rest;
      assert Concat(buffers) == buffers[0] + (buffers[1] + Concat(rest));
    }
  }

  /** A buffer is given up only for a line it has no room for: in every run of lines shorter than a buffer, two
      neighbouring buffers in use or in a round hold at least 4000000 bytes together, so that a round is cut for
      overload only if it holds at least thirteen times as much. */
  lemma BuffersAreFilled(events: seq<Event>, s: State)
    requires IsRun(INITIAL, events, s)
    requires forall i :: 0 <= i < |events| && events[i].Append? ==> |events[i].line| < 4000000
    ensures Packed(s.buffers + [s.current])
    ensures forall i :: 0 <= i < |s.rounds| ==> Packed(s.rounds[i].batch)
    ensures forall i :: 0 <= i < |s.rounds| && |s.rounds[i].batch| > 25 ==> |Concat(s.rounds[i].batch)| >= 13 * 4000000
  {
    assert Packed(INITIAL.buffers + [INITIAL.current]);
    RunKeepsPacked(INITIAL, events, s);
    forall i | 0 <= i < |s.rounds| && |s.rounds[i].batch| > 25
      ensures |Concat(s.rounds[i].batch)| >= 13 * 4000000
    {
      PackedBytes(s.rounds[i].batch);
    }
  }

  // ---------------------------------------------------------------------------------------------------------------
  // The state as a function of what happened

  function Lines(events: seq<Event>): seq<string> {
    if events == [] then []
    else
      var e := events[|events| - 1];
      Lines(events[..|events| - 1]) + (if e.Append? then [e.line] else [])
  }

  /** The times printed in the rounds trimmed so far. */
  function Stamps(events: seq<Event>): seq<string> {
    if events == [] then []
    else
      var e := events[|events| - 1];
      Stamps(events[..|events| - 1]) + (if e.Trim? then [e.stamp] else [])
  }

  /** The back end's last step. */
  function LastBackEndStep(events: seq<Event>): Option<Event> {
    if events == [] then None
    else if events[|events| - 1].Append? || events[|events| - 1].Stop? then LastBackEndStep(events[..|events| - 1])
    else Some(events[|events| - 1])
  }

  /** Where the back end is after its last step. */
  predicate After(phase: Phase, last: Option<Event>) {
    match phase
    case Head => last == None || last == Some(Recycle)
    case Entering => last == Some(TestRunning)
    case Waiting => last == Some(Lock)
    case Draining => last == Some(Lock) || last == Some(WaitReturns)
    case Writing(_) => last.Some? && (last.value.Trim? || last.value.WriteBuffer?)
    case Stopped => last == Some(TestRunning)
  }

  ghost predicate TraceInv(events: seq<Event>, s: State) {
    && s.lines == Lines(events)
    && (s.running <==> Stop !in events)
    && (s.phase.Stopped? ==> !s.running)
    && After(s.phase, LastBackEndStep(events))
    && |s.rounds| == |Stamps(events)| + (if s.phase.Draining? then 1 else 0)
    && forall i :: 0 <= i < |Stamps(events)| ==> s.rounds[i].stamp == Stamps(events)[i]
  }

  lemma StepKeepsTrace(events: seq<Event>, s: State, e: Event)
    requires TraceInv(events, s) && Enabled(s, e)
    ensures TraceInv(events + [e], Apply(s, e))
  {
    assert (events + [e])[..|events|] == events;
    assert Stop in events + [e] <==> Stop in events || e.Stop?;
  }

  lemma {:induction false} RunLast(s: State, events: seq<Event>, t: State) returns (u: State)
    requires IsRun(s, events, t) && events != []
    ensures var n := |events| - 1;
            IsRun(s, events[..n], u) && Enabled(u, events[n]) && t == Apply(u, events[n])
    decreases |events|
  {
    var n := |events| - 1;
    if n == 0 {
      u := s;
      assert events[..n] == [];
    } else {
      u := RunLast(Apply(s, events[0]), events[1..], t);
      assert events[1..][..n - 1] == events[..n][1..];
    }
  }

  lemma {:induction false} RunKeepsTrace(events: seq<Event>, s: State)
    requires IsRun(INITIAL, events, s)
    ensures TraceInv(events, s)
  {
    if events != [] {
      var n := |events| - 1;
      var u := RunLast(INITIAL, events, s);
      RunKeepsTrace(events[..n], u);
      StepKeepsTrace(events[..n], u, events[n]);
      assert events[..n] + [events[n]] == events;
    }
  }

  /** The lines accounted for are those appended, in lock order; the notices carry the times of their rounds; the back
      end ends only after stop(), and then at its next test. */
  lemma HistoryIsWhatHappened(events: seq<Event>, s: State)
    requires IsRun(INITIAL, events, s)
    ensures s.lines == Lines(events)
    ensures |Stamps(events)| <= |s.rounds| && forall i :: 0 <= i < |Stamps(events)| ==> s.rounds[i].stamp == Stamps(events)[i]
    ensures s.phase.Stopped? ==> Stop in events
    ensures s.phase.Head? ==> (Apply(s, TestRunning).phase == if Stop in events then Stopped else Entering)
  {
    RunKeepsTrace(events, s);
  }

  /** In every interleaving the back end takes its steps in the order of the source, and it waits exactly if it finds
      buffers_ empty when it takes the lock. */
  lemma StepsComeInOrder(events: seq<Event>, s: State, e: Event)
    requires IsRun(INITIAL, events, s) && Enabled(s, e)
    ensures var last := LastBackEndStep(events);
            match e
            case TestRunning => last == None || last == Some(Recycle)
            case Lock => last == Some(TestRunning) && (Apply(s, Lock).phase.Waiting? <==> s.buffers == [])
            case WaitReturns => last == Some(Lock)
            case Trim(_) => last == Some(Lock) || last == Some(WaitReturns)
            case WriteBuffer => last.Some? && (last.value.Trim? || last.value.WriteBuffer?)
            case Recycle => last.Some? && (last.value.Trim? || last.value.WriteBuffer?)
            case _ => true
  {
    RunKeepsTrace(events, s);
  }

  // ---------------------------------------------------------------------------------------------------------------
  // The object itself

  ghost predicate Reachable(s: State) {
    exists events :: IsRun(INITIAL, events, s)
  }

  lemma {:induction false} RunSnoc(s: State, events: seq<Event>, t: State, e: Event)
    requires IsRun(s, events, t) && Enabled(t, e)
    ensures IsRun(s, events + [e], Apply(t, e))
    decreases |events|
  {
    if events == [] {
      assert [e][1..] == [];
    } else {
      RunSnoc(Apply(s, events[0]), events[1..], t, e);
      assert (events + [e])[1..] == events[1..] + [e];
    }
  }

  lemma ReachableBuffers(s: State)
    requires Reachable(s)
    ensures BufferInv(s) && FileInv(s)
  {
    var events :| IsRun(INITIAL, events, s);
    RunKeepsInv(INITIAL, events, s);
  }

  /** AsyncLogging's fields and threadFunc's locals.  The asserts below are the source's own. */
  class AsyncLogging {
    var running: bool
    var currentBuffer: string
    var nextBuffer: Option<string>
    var buffers: seq<string>
    var newBuffer1: Option<string>
    var newBuffer2: Option<string>
    var buffersToWrite: seq<string>
    var output: seq<Chunk>
    ghost var run: State

    ghost predicate Valid()
      reads this
    {
      && Reachable(run)
      && (running, currentBuffer, nextBuffer, buffers) == (run.running, run.current, run.next, run.buffers)
      && (newBuffer1, newBuffer2, buffersToWrite, output) == (run.new1, run.new2, run.toWrite, run.file)
    }

    constructor ()
      ensures Valid() && run == INITIAL
    {
      running, currentBuffer, nextBuffer, buffers := true, "", Some(""), [];
      newBuffer1, newBuffer2, buffersToWrite, output := Some(""), Some(""), [], [];
      run := INITIAL;
      assert IsRun(INITIAL, [], INITIAL);
    }

    ghost method Advance(e: Event)
      requires Reachable(run) && Enabled(run, e)
      modifies this`run
      ensures Reachable(run) && run == Apply(old(run), e)
    {
      var events :| IsRun(INITIAL, events, run);
      RunSnoc(INITIAL, events, run, e);
      run := Apply(run, e);
    }

    /** append, which holds the mutex throughout. */
    method Append(line: string)
      requires Valid()
      modifies this`currentBuffer, this`nextBuffer, this`buffers, this`run
      ensures Valid() && run == Apply(old(run), Event.Append(line))
      ensures if |old(currentBuffer)| + |line| < CAPACITY then
                currentBuffer == old(currentBuffer) + line && nextBuffer == old(nextBuffer) && buffers == old(buffers)
              else
                && currentBuffer == (if |line| < CAPACITY then line else "") && nextBuffer == None
                && buffers == old(buffers) + [old(currentBuffer)]
    {
      ReachableBuffers(run);
      if CAPACITY - |currentBuffer| > |line| {
        currentBuffer := currentBuffer + line;
      } else {
        buffers := buffers + [currentBuffer];
        if nextBuffer.Some? {
          currentBuffer, nextBuffer := nextBuffer.value, None;
        } else {
          currentBuffer := "";
        }
        if CAPACITY - |currentBuffer| > |line| {
          currentBuffer := currentBuffer + line;
        }
      }
      Advance(Event.Append(line));
    }

    /** The back end's critical section, entered with the mutex held and any wait over. */
    method Exchange(ghost e: Event)
      requires Valid() && Enabled(run, e)
      requires e == WaitReturns || (e == Lock && buffers != [])
      modifies this
      ensures Valid() && run == Apply(old(run), e) && run.phase.Draining? && unchanged(`running, `output)
      ensures buffersToWrite == old(buffers) + [old(currentBuffer)] && buffers == [] && currentBuffer == ""
      ensures nextBuffer == Some("") && newBuffer1 == None
      ensures newBuffer2 == if old(nextBuffer) == None then None else Some("")
    {
      ReachableBuffers(run);
      assert newBuffer1 == Some("") && newBuffer2 == Some("") && buffersToWrite == [];
      buffers := buffers + [currentBuffer];
      currentBuffer, newBuffer1 := newBuffer1.value, None;
      buffersToWrite, buffers := buffers, buffersToWrite;
      if nextBuffer.None? {
        nextBuffer, newBuffer2 := newBuffer2, None;
      }
      Advance(e);
    }

    method CutOverload(stamp: string)
      requires Valid() && run.phase.Draining?
      modifies this`buffersToWrite, this`output, this`run
      ensures Valid() && Enabled(old(run), Trim(stamp)) && run == Apply(old(run), Trim(stamp))
      ensures if |old(buffersToWrite)| > 25 then
                && buffersToWrite == old(buffersToWrite)[..2]
                && output == old(output) + [Dropped(stamp, |old(buffersToWrite)| - 2)]
              else buffersToWrite == old(buffersToWrite) && output == old(output)
    {
      ReachableBuffers(run);
      assert buffersToWrite != [];
      if |buffersToWrite| > OVERLOAD {
        output := output + [Dropped(stamp, |buffersToWrite| - 2)];
        buffersToWrite := buffersToWrite[..2];
      }
      Advance(Trim(stamp));
    }

    method WriteNext(i: nat)
      requires Valid() && run.phase == Writing(i) && i < |buffersToWrite|
      modifies this`output, this`run
      ensures Valid() && run.phase == Writing(i + 1) && run.rounds == old(run.rounds) && run.lines == old(run.lines)
      ensures output == old(output) + [Data(buffersToWrite[i])]
    {
      output := output + [Data(buffersToWrite[i])];
      Advance(WriteBuffer);
    }

    /** Write what is left of the batch; the file then shows the whole round. */
    method WriteKept()
      requires Valid() && run.phase == Writing(0)
      modifies this`output, this`run
      ensures Valid() && run.phase == Writing(|buffersToWrite|)
      ensures run.rounds == old(run.rounds) != [] && run.lines == old(run.lines)
      ensures output == old(output) + Chunks(buffersToWrite)
      ensures output == RenderedAll(run.rounds[..|run.rounds| - 1]) + Rendered(run.rounds[|run.rounds| - 1])
    {
      ReachableBuffers(run);
      var i := 0;
      while i < |buffersToWrite|
        invariant 0 <= i <= |buffersToWrite| && run.phase == Writing(i) && Valid()
        invariant run.rounds == old(run.rounds) && run.lines == old(run.lines)
        invariant output == old(output) + Chunks(buffersToWrite[..i])
      {
        ChunksSnoc(buffersToWrite, i);
        WriteNext(i);
        i := i + 1;
      }
      ReachableBuffers(run);
      RoundWritten(run);
      assert buffersToWrite[..i] == buffersToWrite;
    }

    /** Keep two buffers at most and hand them to the spares that were consumed. */
    method RecycleSpares()
      requires Valid() && run.phase == Writing(|buffersToWrite|)
      modifies this`newBuffer1, this`newBuffer2, this`buffersToWrite, this`run
      ensures Valid() && run == Apply(old(run), Recycle)
      ensures newBuffer1 == Some("") && newBuffer2 == Some("") && buffersToWrite == []
    {
      ReachableBuffers(run);
      if |buffersToWrite| > 2 {
        buffersToWrite := buffersToWrite[..2];
      }
      if newBuffer1.None? {
        assert buffersToWrite != [];
        newBuffer1, buffersToWrite := Some(""), buffersToWrite[..|buffersToWrite| - 1];
      }
      if newBuffer2.None? {
        assert buffersToWrite != [];
        newBuffer2, buffersToWrite := Some(""), buffersToWrite[..|buffersToWrite| - 1];
      }
      buffersToWrite := [];
      Advance(Recycle);
    }
  }
}
