/** Log rolling over a clock, on top of a file whose writes may be partial. */
module LogFiles {

  const ROLL_PER_SECONDS: nat := 60 * 60 * 24

  // ---------------------------------------------------------------------------------------------------------------
  // AppendFile::append and its partial writes

  /** What one fwrite of `remain` bytes returns when the device takes at most the next entry of `writes`; a device that
      is not mentioned takes everything. */
  function Taken(remain: nat, writes: seq<nat>): (x: nat)
    ensures x <= remain
  {
    if writes != [] && writes[0] < remain then writes[0] else remain
  }

  function Later(writes: seq<nat>): seq<nat> {
    if writes == [] then [] else writes[1..]
  }

  /** The bytes the loop still delivers: it goes on until all is written or a write takes nothing. */
  function LoopDelivers(remain: nat, writes: seq<nat>): (n: nat)
    ensures n <= remain
    decreases remain
  {
    if remain == 0 then 0
    else
      var x := Taken(remain, writes);
      if x == 0 then 0 else x + LoopDelivers(remain - x, Later(writes))
  }

  /** The bytes one append delivers in all: a first write, then the loop. */
  function Delivers(len: nat, writes: seq<nat>): (n: nat)
    ensures n <= len
  {
    var first := Taken(len, writes);
    first + LoopDelivers(len - first, Later(writes))
  }

  function Sum(writes: seq<nat>): nat {
    if writes == [] then 0 else writes[0] + Sum(writes[1..])
  }

  /** The device takes something each time it is asked while bytes remain: its first `i` writes do not add up to `len`. */
  predicate KeepsTaking(len: nat, writes: seq<nat>, first: nat) {
    forall i :: first <= i < |writes| && Sum(writes[..i]) < len ==> writes[i] > 0
  }

  lemma KeepsTakingLater(len: nat, writes: seq<nat>, first: nat)
    requires writes != [] && writes[0] <= len && first > 0
    ensures KeepsTaking(len, writes, first) <==> KeepsTaking(len - writes[0], writes[1..], first - 1)
  {
    forall i | 0 < i < |writes| ensures Sum(writes[..i]) == writes[0] + Sum(writes[1..][..i - 1]) {
      assert writes[..i][1..] == writes[1..][..i - 1];
    }
    if KeepsTaking(len, writes, first) {
      forall i | first - 1 <= i < |writes[1..]| && Sum(writes[1..][..i]) < len - writes[0] ensures writes[1..][i] > 0 {
        assert Sum(writes[..i + 1]) == writes[0] + Sum(writes[1..][..i]) && writes[i + 1] > 0;
      }
    }
    if KeepsTaking(len - writes[0], writes[1..], first - 1) {
      forall i | first <= i < |writes| && Sum(writes[..i]) < len ensures writes[i] > 0 {
        assert Sum(writes[..i]) == writes[0] + Sum(writes[1..][..i - 1]) && writes[1..][i - 1] > 0;
      }
    }
  }

  lemma SumAtLeastFirst(writes: seq<nat>, i: nat)
    requires 0 < i <= |writes|
    ensures Sum(writes[..i]) >= writes[0]
  {
  }

  lemma {:induction false} LoopDeliversAllIff(remain: nat, writes: seq<nat>)
    ensures LoopDelivers(remain, writes) == remain <==> KeepsTaking(remain, writes, 0)
    decreases remain
  {
    if remain > 0 && writes != [] {
      assert Sum(writes[..0]) == 0;
      if writes[0] == 0 {
        assert !KeepsTaking(remain, writes, 0);
      } else {
        assert KeepsTaking(remain, writes, 0) <==> KeepsTaking(remain, writes, 1);
        RestIsDelivered(remain, writes);
        if writes[0] < remain {
          LoopDeliversAllIff(remain - writes[0], writes[1..]);
        }
      }
    }
  }

  /** After a first write, the rest of the pattern decides about the rest of the bytes. */
  lemma RestIsDelivered(len: nat, writes: seq<nat>)
    requires writes != []
    ensures KeepsTaking(len, writes, 1) <==> KeepsTaking(len - Taken(len, writes), Later(writes), 0)
  {
    if writes[0] <= len {
      KeepsTakingLater(len, writes, 1);
    } else {
      forall i | 1 <= i < |writes| ensures Sum(writes[..i]) >= len {
        SumAtLeastFirst(writes, i);
      }
    }
  }

  /** For any pattern of partial writes the whole line gets through exactly when the device, after the first write,
      takes something each time it is asked while the writes before do not add up to the line. */
  lemma DeliversAllIff(len: nat, writes: seq<nat>)
    ensures Delivers(len, writes) == len <==> KeepsTaking(len, writes, 1)
  {
    LoopDeliversAllIff(len - Taken(len, writes), Later(writes));
    if writes != [] {
      RestIsDelivered(len, writes);
    }
  }

  lemma {:induction false} LoopStopsShort(remain: nat, writes: seq<nat>, i: nat)
    requires i < |writes| && writes[i] == 0 && Sum(writes[..i]) < remain
    requires forall j :: 0 <= j < i ==> writes[j] > 0
    ensures LoopDelivers(remain, writes) == Sum(writes[..i])
    decreases i
  {
    if i > 0 {
      assert writes[..i][1..] == writes[1..][..i - 1];
      LoopStopsShort(remain - writes[0], writes[1..], i - 1);
    }
  }

  /** A write error, the first write aside: exactly what the device had taken before it is delivered. */
  lemma StopsShort(len: nat, writes: seq<nat>, i: nat)
    requires 0 < i < |writes| && writes[i] == 0 && Sum(writes[..i]) < len
    requires forall j :: 0 < j < i ==> writes[j] > 0
    ensures Delivers(len, writes) == Sum(writes[..i])
  {
    assert writes[..i][1..] == writes[1..][..i - 1];
    LoopStopsShort(len - writes[0], writes[1..], i - 1);
  }

  lemma NextPart(written: string, line: string, n: nat, x: nat)
    requires n + x <= |line|
    ensures written + line[..n] + line[n..][..x] == written + line[..n + x]
  {
    assert line[..n] + line[n..][..x] == line[..n + x];
  }

  class AppendFile {
    var contents: string
    var writtenBytes: nat

    constructor ()
      ensures contents == "" && writtenBytes == 0
    {
      contents, writtenBytes := "", 0;
    }

    method Write(data: string, writes: seq<nat>) returns (x: nat)
      modifies this`contents
      ensures x == Taken(|data|, writes) && contents == old(contents) + data[..x]
    {
      x := if writes != [] && writes[0] < |data| then writes[0] else |data|;
      contents := contents + data[..x];
    }

    /** append: the count grows by the whole line whatever was written. */
    method Append(line: string, writes: seq<nat>)
      modifies this
      ensures contents == old(contents) + line[..Delivers(|line|, writes)]
      ensures writtenBytes == old(writtenBytes) + |line|
    {
      ghost var total := Delivers(|line|, writes);
      var pattern := writes;
      var n := Write(line, pattern);
      pattern := Later(pattern);
      var remain := |line| - n;
      while remain > 0
        invariant 0 <= n <= total && remain == |line| - n && writtenBytes == old(writtenBytes)
        invariant contents == old(contents) + line[..n]
        invariant total == n + LoopDelivers(remain, pattern)
        decreases remain
      {
        var x := Write(line[n..], pattern);
        pattern := Later(pattern);
        if x == 0 {
          break;
        }
        NextPart(old(contents), line, n, x);
        n := n + x;
        remain := |line| - n;
      }
      writtenBytes := writtenBytes + |line|;
    }
  }

  // ---------------------------------------------------------------------------------------------------------------
  // Rolling

  datatype File = File(openedAt: nat, contents: string, written: nat)

  datatype Config = Config(rollSize: nat, flushInterval: nat, checkEveryN: nat)

  datatype State = State(
    files: seq<File>,          // in opening order; the last one is live
    count: nat,                // count_
    startOfPeriod: nat,        // startOfPeriod_
    lastRoll: nat,             // lastRoll_
    lastFlush: nat,            // lastFlush_
    clock: nat,                // the last time read
    lastAppend: nat,           // the time of the last append
    stream: string)            // everything delivered so far

  /** One append: what fwrite takes, the clock when the code first reads it, and when rollFile reads it again. */
  datatype Event = Append(line: string, writes: seq<nat>, now: nat, later: nat)

  function DayOf(t: nat): nat {
    t / ROLL_PER_SECONDS * ROLL_PER_SECONDS
  }

  function Rolled(s: State, now: nat): State {
    if now > s.lastRoll then
      s.(lastRoll := now, lastFlush := now, startOfPeriod := DayOf(now), files := s.files + [File(now, "", 0)])
    else s
  }

  /** The constructor's rollFile, at a time after the epoch. */
  function Opened(now: nat): State {
    Rolled(State([], 0, 0, 0, 0, now, now, ""), now)
  }

  function Written(s: State, e: Event): State
    requires s.files != []
  {
    var n := |s.files| - 1;
    var text := e.line[..Delivers(|e.line|, e.writes)];
    var live := s.files[n].(contents := s.files[n].contents + text, written := s.files[n].written + |e.line|);
    s.(files := s.files[n := live], stream := s.stream + text, clock := e.later, lastAppend := e.now)
  }

  function Apply(c: Config, s: State, e: Event): State
    requires s.files != []
  {
    var t := Written(s, e);
    if t.files[|t.files| - 1].written > c.rollSize then Rolled(t, e.now)
    else if t.count + 1 < c.checkEveryN then t.(count := t.count + 1)
    else if DayOf(e.now) != t.startOfPeriod then Rolled(t.(count := 0), e.later)
    else if e.now - t.lastFlush > c.flushInterval then t.(count := 0, lastFlush := e.now)
    else t.(count := 0)
  }

  /** The clock does not go backwards. */
  predicate Enabled(s: State, e: Event) {
    s.files != [] && s.clock <= e.now <= e.later
  }

  ghost predicate IsRun(c: Config, s: State, events: seq<Event>, t: State)
    decreases |events|
  {
    if events == [] then s == t
    else Enabled(s, events[0]) && IsRun(c, Apply(c, s, events[0]), events[1..], t)
  }

  function Contents(files: seq<File>): string {
    if files == [] then "" else Contents(files[..|files| - 1]) + files[|files| - 1].contents
  }

  /** Why a file is no longer live: it outgrew the limit, or the next one was opened on a later day. */
  predicate ClosedForCause(c: Config, f: File, next: File) {
    f.written > c.rollSize || DayOf(f.openedAt) < DayOf(next.openedAt)
  }

  ghost predicate FilesInv(c: Config, s: State) {
    && s.files != []
    && s.files[|s.files| - 1].openedAt == s.lastRoll <= s.clock
    && s.startOfPeriod == DayOf(s.lastRoll)
    && s.lastAppend <= s.clock
    && (forall i :: 0 < i < |s.files| ==> s.files[i - 1].openedAt < s.files[i].openedAt)
    && (forall i :: 0 < i < |s.files| ==> ClosedForCause(c, s.files[i - 1], s.files[i]))
    && Contents(s.files) == s.stream
  }

  ghost predicate Inv(c: Config, s: State) {
    FilesInv(c, s) && (s.files[|s.files| - 1].written > c.rollSize ==> s.lastAppend == s.lastRoll)
  }

  lemma WrittenKeepsContents(s: State, e: Event)
    requires s.files != [] && Contents(s.files) == s.stream
    ensures Contents(Written(s, e).files) == Written(s, e).stream
  {
    var n := |s.files| - 1;
    var t := Written(s, e);
    assert t.files[..n] == s.files[..n];
    assert Contents(s.files[..n]) + (s.files[n].contents + e.line[..Delivers(|e.line|, e.writes)])
        == Contents(s.files[..n]) + s.files[n].contents + e.line[..Delivers(|e.line|, e.writes)];
  }

  lemma WrittenKeepsFiles(c: Config, s: State, e: Event)
    requires FilesInv(c, s) && Enabled(s, e)
    ensures FilesInv(c, Written(s, e))
  {
    var t := Written(s, e);
    WrittenKeepsContents(s, e);
    forall i | 0 < i < |t.files| ensures ClosedForCause(c, t.files[i - 1], t.files[i]) {
      assert ClosedForCause(c, s.files[i - 1], s.files[i]);
    }
  }

  lemma RolledKeepsInv(c: Config, s: State, now: nat)
    requires FilesInv(c, s) && s.lastRoll <= now <= s.clock && s.lastAppend <= now
    requires s.files[|s.files| - 1].written > c.rollSize || DayOf(s.lastRoll) < DayOf(now)
    requires s.files[|s.files| - 1].written > c.rollSize ==> s.lastAppend == now
    ensures Inv(c, Rolled(s, now))
  {
    var t := Rolled(s, now);
    if now > s.lastRoll {
      assert t.files[..|s.files|] == s.files;
      assert Contents(t.files) == Contents(s.files) + "";
    }
  }

  lemma DaysAreOrdered(a: nat, b: nat)
    requires a <= b
    ensures DayOf(a) <= DayOf(b)
  {
  }

  lemma StepKeepsInv(c: Config, s: State, e: Event)
    requires Inv(c, s) && Enabled(s, e)
    ensures Inv(c, Apply(c, s, e))
  {
    var t := Written(s, e);
    WrittenKeepsFiles(c, s, e);
    DaysAreOrdered(s.lastRoll, e.now);
    DaysAreOrdered(e.now, e.later);
    if t.files[|t.files| - 1].written > c.rollSize {
      RolledKeepsInv(c, t, e.now);
    } else if t.count + 1 >= c.checkEveryN && DayOf(e.now) != t.startOfPeriod {
      RolledKeepsInv(c, t.(count := 0), e.later);
    }
  }

  lemma {:induction false} RunKeepsInv(c: Config, s: State, events: seq<Event>, t: State)
    requires Inv(c, s) && IsRun(c, s, events, t)
    ensures Inv(c, t)
    decreases |events|
  {
    if events != [] {
      StepKeepsInv(c, s, events[0]);
      RunKeepsInv(c, Apply(c, s, events[0]), events[1..], t);
    }
  }

  /** With a clock that does not run backwards: files are opened at strictly increasing seconds, the period is the day
      of the last roll, a file is closed only for size or for a new day, and the live file is over the limit only if
      the last append fell into the second of the last roll. */
  lemma RollingIsSound(c: Config, start: nat, events: seq<Event>, s: State)
    requires start > 0 && IsRun(c, Opened(start), events, s)
    ensures s.files != []
    ensures forall i :: 0 < i < |s.files| ==> s.files[i - 1].openedAt < s.files[i].openedAt
    ensures forall i :: 0 < i < |s.files| ==> ClosedForCause(c, s.files[i - 1], s.files[i])
    ensures s.files[|s.files| - 1].openedAt == s.lastRoll
    ensures s.startOfPeriod % 86400 == 0 && s.startOfPeriod <= s.lastRoll < s.startOfPeriod + 86400
    ensures s.files[|s.files| - 1].written > c.rollSize ==> s.lastAppend == s.lastRoll
  {
    OpenedIsSound(c, start);
    RunKeepsInv(c, Opened(start), events, s);
  }

  lemma StepRollsForward(c: Config, s: State, e: Event)
    requires Inv(c, s) && Enabled(s, e)
    ensures s.lastRoll <= Apply(c, s, e).lastRoll
  {
  }

  lemma {:induction false} RollsForward(c: Config, s: State, events: seq<Event>, t: State)
    requires Inv(c, s) && IsRun(c, s, events, t)
    ensures s.lastRoll <= t.lastRoll
    decreases |events|
  {
    if events != [] {
      StepRollsForward(c, s, events[0]);
      StepKeepsInv(c, s, events[0]);
      RollsForward(c, Apply(c, s, events[0]), events[1..], t);
    }
  }

  /** An append on a later day rolls, or is counted and leaves the check to come. */
  lemma LaterDayRollsOrCounts(c: Config, s: State, e: Event)
    requires Inv(c, s) && Enabled(s, e) && DayOf(e.now) > DayOf(s.lastRoll)
    ensures var t := Apply(c, s, e);
            || DayOf(t.lastRoll) > DayOf(s.lastRoll)
            || (t.lastRoll == s.lastRoll && t.count == s.count + 1 < c.checkEveryN)
  {
    DaysAreOrdered(e.now, e.later);
    if e.now <= s.lastRoll {
      DaysAreOrdered(e.now, s.lastRoll);
    }
  }

  lemma {:induction false} DayOrCount(c: Config, s: State, events: seq<Event>, t: State)
    requires Inv(c, s) && IsRun(c, s, events, t)
    requires forall i :: 0 <= i < |events| ==> DayOf(events[i].now) > DayOf(s.lastRoll)
    ensures DayOf(t.lastRoll) > DayOf(s.lastRoll) || (t.count == s.count + |events| && (events == [] || t.count < c.checkEveryN))
    decreases |events|
  {
    if events != [] {
      var next := Apply(c, s, events[0]);
      LaterDayRollsOrCounts(c, s, events[0]);
      StepKeepsInv(c, s, events[0]);
      if next.lastRoll == s.lastRoll {
        DayOrCount(c, next, events[1..], t);
      } else {
        RollsForward(c, next, events[1..], t);
        DaysAreOrdered(next.lastRoll, t.lastRoll);
      }
    }
  }

  /** A new day does roll the file: after checkEveryN appends in a row on later days than the live file's, or a single
      one if checkEveryN is 0, the live file has been opened on a later day. */
  lemma NewDayRolls(c: Config, s: State, events: seq<Event>, t: State)
    requires Inv(c, s) && IsRun(c, s, events, t) && events != [] && |events| >= c.checkEveryN
    requires forall i :: 0 <= i < |events| ==> DayOf(events[i].now) > DayOf(s.lastRoll)
    ensures t.files != [] && DayOf(t.files[|t.files| - 1].openedAt) > DayOf(s.lastRoll)
  {
    RunKeepsInv(c, s, events, t);
    DayOrCount(c, s, events, t);
  }

  /** A check that does not roll leaves no more than flushInterval seconds unflushed, and flushes only for that. */
  lemma CheckFlushes(c: Config, s: State, e: Event)
    requires Inv(c, s) && Enabled(s, e) && s.count + 1 >= c.checkEveryN
    requires s.files[|s.files| - 1].written + |e.line| <= c.rollSize && DayOf(e.now) == DayOf(s.lastRoll)
    ensures var t := Apply(c, s, e);
            && t.lastRoll == s.lastRoll && t.count == 0
            && t.lastFlush == if e.now > s.lastFlush + c.flushInterval then e.now else s.lastFlush
  {
  }

  lemma OpenedIsSound(c: Config, start: nat)
    requires start > 0
    ensures Inv(c, Opened(start))
  {
    var s := Opened(start);
    assert s.files == [File(start, "", 0)];
    assert s.files[..0] == [];
  }

  /** The appended lines, in order. */
  function Lines(events: seq<Event>): string {
    if events == [] then "" else events[0].line + Lines(events[1..])
  }

  /** No write of the event, the first one aside, takes nothing while bytes remain. */
  predicate NoWriteError(e: Event) {
    KeepsTaking(|e.line|, e.writes, 1)
  }

  /** For any pattern of partial writes without a write error, the files concatenated in opening order are the appended
      stream: rolling loses, repeats and reorders nothing. */
  lemma FilesHoldTheStream(c: Config, start: nat, events: seq<Event>, s: State)
    requires start > 0 && IsRun(c, Opened(start), events, s)
    requires forall i :: 0 <= i < |events| ==> NoWriteError(events[i])
    ensures Contents(s.files) == Lines(events)
  {
    OpenedIsSound(c, start);
    RunKeepsInv(c, Opened(start), events, s);
    StreamGrows(c, Opened(start), events, s);
    assert "" + Lines(events) == Lines(events);
  }

  lemma StreamStep(c: Config, s: State, e: Event)
    requires s.files != [] && NoWriteError(e)
    ensures Apply(c, s, e).stream == s.stream + e.line
  {
    DeliversAllIff(|e.line|, e.writes);
    assert e.line[..|e.line|] == e.line;
  }

  lemma {:induction false} StreamGrows(c: Config, s: State, events: seq<Event>, t: State)
    requires IsRun(c, s, events, t)
    requires forall i :: 0 <= i < |events| ==> NoWriteError(events[i])
    ensures t.stream == s.stream + Lines(events)
    decreases |events|
  {
    if events != [] {
      StreamStep(c, s, events[0]);
      StreamGrows(c, Apply(c, s, events[0]), events[1..], t);
    }
  }

  // ---------------------------------------------------------------------------------------------------------------
  // The object itself

  class LogFile {
    const config: Config
    var count: nat
    var startOfPeriod: nat
    var lastRoll: nat
    var lastFlush: nat
    var file: AppendFile
    ghost var run: State

    ghost predicate Valid()
      reads this, file
    {
      && run.files != []
      && (count, startOfPeriod, lastRoll, lastFlush) == (run.count, run.startOfPeriod, run.lastRoll, run.lastFlush)
      && (file.contents, file.writtenBytes) == (run.files[|run.files| - 1].contents, run.files[|run.files| - 1].written)
    }

    constructor (config: Config, now: nat)
      requires now > 0
      ensures Valid() && fresh(file) && this.config == config && run == Opened(now)
    {
      this.config := config;
      count, startOfPeriod, lastRoll, lastFlush := 0, now / ROLL_PER_SECONDS * ROLL_PER_SECONDS, now, now;
      file := new AppendFile();
      run := Opened(now);
    }

    /** rollFile; `before` is the specification state, whose live file is the one held. */
    method RollFile(now: nat, ghost before: State) returns (rolled: bool)
      requires before.files != []
      requires (count, startOfPeriod, lastRoll, lastFlush) == (before.count, before.startOfPeriod, before.lastRoll, before.lastFlush)
      requires (file.contents, file.writtenBytes) == (before.files[|before.files| - 1].contents, before.files[|before.files| - 1].written)
      modifies this
      ensures run == Rolled(before, now) && rolled == (now > old(lastRoll)) && count == old(count)
      ensures if rolled then lastRoll == lastFlush == now && startOfPeriod == now - now % 86400
              else unchanged(`lastRoll, `lastFlush, `startOfPeriod)
      ensures (count, startOfPeriod, lastRoll, lastFlush) == (run.count, run.startOfPeriod, run.lastRoll, run.lastFlush)
      ensures (file.contents, file.writtenBytes) == (run.files[|run.files| - 1].contents, run.files[|run.files| - 1].written)
      ensures if rolled then fresh(file) else file == old(file)
    {
      var start := now / ROLL_PER_SECONDS * ROLL_PER_SECONDS;
      rolled := now > lastRoll;
      if rolled {
        lastRoll, lastFlush, startOfPeriod := now, now, start;
        file := new AppendFile();
      }
      run := Rolled(before, now);
    }

    /** append_unlocked. */
    method AppendUnlocked(line: string, writes: seq<nat>, now: nat, later: nat)
      requires Valid() && Enabled(run, Append(line, writes, now, later))
      modifies this, file
      ensures Valid() && run == Apply(config, old(run), Append(line, writes, now, later))
      ensures file == old(file) || fresh(file)
      ensures var over := old(file.writtenBytes) + |line| > config.rollSize;
              var check := old(count) + 1 >= config.checkEveryN;
              && count == (if over then old(count) else if check then 0 else old(count) + 1)
              && (fresh(file) <==> if over then now > old(lastRoll)
                                   else check && now - now % 86400 != old(startOfPeriod) && later > old(lastRoll))
    {
      ghost var e := Append(line, writes, now, later);
      ghost var t := Written(run, e);
      file.Append(line, writes);
      if file.writtenBytes > config.rollSize {
        var _ := RollFile(now, t);
      } else {
        count := count + 1;
        if count >= config.checkEveryN {
          count := 0;
          var thisPeriod := now / ROLL_PER_SECONDS * ROLL_PER_SECONDS;
          if thisPeriod != startOfPeriod {
            var _ := RollFile(later, t.(count := 0));
          } else if now - lastFlush > config.flushInterval {
            lastFlush := now;
            run := t.(count := 0, lastFlush := now);
          } else {
            run := t.(count := 0);
          }
        } else {
          run := t.(count := t.count + 1);
        }
      }
    }
  }
}
