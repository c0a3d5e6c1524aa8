/** The cache connection pool: a monitor with a condition variable.  Getters sleep when nothing is free and the pool is
    at its limit; a release signals one sleeper, which has to compete for the lock again. */
module CachePools {
  import opened Common

  type Conn = nat
  type ThreadId = nat

  const MIN_CACHE_CONN_CNT: nat := 2

  datatype State = State(
    free: seq<Conn>,              // m_free_list
    cur: nat,                     // m_cur_conn_cnt
    max: int,                     // m_max_conn_cnt
    lent: map<Conn, ThreadId>,    // connections handed out, and to whom
    created: nat,                 // connections created: 0 .. created-1
    asleep: set<ThreadId>,        // getters in m_lock.Wait()
    woken: set<ThreadId>)         // signalled getters, not yet back in the monitor

  datatype Event =
    | Get(thread: ThreadId, initOk: bool)                             // GetCacheConn up to its return or its wait
    | Resume(thread: ThreadId, initOk: bool)                          // the same from the end of the wait on
    | Release(thread: ThreadId, conn: Conn, signalled: Option<ThreadId>)
    | SpuriousWakeup(thread: ThreadId)

  /** Connections 0 and 1 free, after a successful Init. */
  function Initial(max: int): State {
    State([0, 1], MIN_CACHE_CONN_CNT, max, map[], 2, {}, {})
  }

  /** The getter's loop, entered holding the lock. */
  function Entered(s: State, t: ThreadId, initOk: bool): State {
    if s.free != [] then s.(free := s.free[1..], lent := s.lent[s.free[0] := t])
    else if s.cur >= s.max then s.(asleep := s.asleep + {t})
    else if !initOk then s
    else s.(cur := s.cur + 1, created := s.created + 1, lent := s.lent[s.created := t])
  }

  function Returned(s: State, t: ThreadId, conn: Conn): State {
    s.(free := if conn in s.free then s.free else s.free + [conn],
       lent := if conn in s.lent && s.lent[conn] == t then s.lent - {conn} else s.lent)
  }

  predicate Enabled(s: State, e: Event) {
    match e
    case Get(t, _) => t !in s.asleep && t !in s.woken
    case Resume(t, _) => t in s.woken
    case Release(_, _, signalled) => if s.asleep == {} then signalled.None? else signalled.Some? && signalled.value in s.asleep
    case SpuriousWakeup(t) => t in s.asleep
  }

  function Apply(s: State, e: Event): State
    requires Enabled(s, e)
  {
    match e
    case Get(t, initOk) => Entered(s, t, initOk)
    case Resume(t, initOk) => Entered(s.(woken := s.woken - {t}), t, initOk)
    case Release(t, conn, signalled) =>
      var r := Returned(s, t, conn);
      if signalled.None? then r else r.(asleep := r.asleep - {signalled.value}, woken := r.woken + {signalled.value})
    case SpuriousWakeup(t) => s.(asleep := s.asleep - {t}, woken := s.woken + {t})
  }

  /** Release by the holder; a repeated release of a connection that is still free is harmless too. */
  predicate Proper(s: State, e: Event) {
    e.Release? ==> e.conn in s.free || (e.conn in s.lent && s.lent[e.conn] == e.thread)
  }

  ghost predicate ProperRun(s: State, events: seq<Event>, t: State)
    decreases |events|
  {
    if events == [] then s == t
    else Enabled(s, events[0]) && Proper(s, events[0]) && ProperRun(Apply(s, events[0]), events[1..], t)
  }

  function Max(a: int, b: int): int {
    if a < b then b else a
  }

  ghost predicate NoDuplicates(conns: seq<Conn>) {
    forall i, j :: 0 <= i < j < |conns| ==> conns[i] != conns[j]
  }

  /** Every connection is either free or lent, once, and the count is right. */
  ghost predicate OwnershipInv(s: State) {
    && NoDuplicates(s.free)
    && (forall c :: c in s.free ==> c !in s.lent && c < s.created)
    && (forall c :: c in s.lent ==> c < s.created)
    && |s.free| + |s.lent| == s.cur == s.created
    && s.cur <= Max(MIN_CACHE_CONN_CNT, s.max)
  }

  /** Nobody sleeps through a free connection: each one has a woken getter to come for it. */
  ghost predicate WaitInv(s: State) {
    && s.asleep !! s.woken
    && (s.asleep != {} ==> s.cur >= s.max && |s.free| <= |s.woken|)
  }

  lemma EnterKeepsOwnership(s: State, t: ThreadId, initOk: bool)
    requires OwnershipInv(s)
    ensures OwnershipInv(Entered(s, t, initOk))
  {
    var s' := Entered(s, t, initOk);
    if s.free != [] {
      assert s.free[0] in s.free;
      assert forall c :: c in s'.free ==> c in s.free;
    }
  }

  lemma ReturnKeepsOwnership(s: State, t: ThreadId, conn: Conn)
    requires OwnershipInv(s)
    requires conn in s.free || (conn in s.lent && s.lent[conn] == t)
    ensures OwnershipInv(Returned(s, t, conn))
  {
    var s' := Returned(s, t, conn);
    if conn !in s.free {
      assert s.lent.Keys == s'.lent.Keys + {conn};
      assert |s.lent.Keys| == |s'.lent.Keys| + 1;
    }
  }

  lemma StepKeepsOwnership(s: State, e: Event)
    requires OwnershipInv(s) && Enabled(s, e) && Proper(s, e)
    ensures OwnershipInv(Apply(s, e))
  {
    match e {
      case Get(t, initOk) => EnterKeepsOwnership(s, t, initOk);
      case Resume(t, initOk) => EnterKeepsOwnership(s.(woken := s.woken - {t}), t, initOk);
      case Release(t, conn, _) => ReturnKeepsOwnership(s, t, conn);
      case SpuriousWakeup(_) =>
    }
  }

  lemma StepKeepsWaiting(s: State, e: Event)
    requires WaitInv(s) && Enabled(s, e)
    ensures WaitInv(Apply(s, e))
  {
    match e {
      case Get(_, _) =>
      case Resume(t, _) => assert |s.woken - {t}| == |s.woken| - 1;
      case Release(_, _, signalled) =>
        if signalled.Some? {
          assert |s.woken + {signalled.value}| == |s.woken| + 1;
        }
      case SpuriousWakeup(t) => assert |s.woken + {t}| == |s.woken| + 1;
    }
  }

  lemma StepKeepsInv(s: State, e: Event)
    requires OwnershipInv(s) && WaitInv(s) && Enabled(s, e) && Proper(s, e)
    ensures OwnershipInv(Apply(s, e)) && WaitInv(Apply(s, e))
  {
    StepKeepsOwnership(s, e);
    StepKeepsWaiting(s, e);
  }

  lemma {:induction false} RunKeepsInv(s: State, events: seq<Event>, t: State)
    requires OwnershipInv(s) && WaitInv(s) && ProperRun(s, events, t)
    ensures OwnershipInv(t) && WaitInv(t) && t.max == s.max
    decreases |events|
  {
    if events != [] {
      StepKeepsInv(s, events[0]);
      RunKeepsInv(Apply(s, events[0]), events[1..], t);
    }
  }

  /** In every interleaving: free and lent connections are disjoint and without duplicates, together they are all that
      were created and counted, never more than the limit (or the initial two), and while a getter sleeps there are at
      most as many free connections as woken getters -- so no free connection is left unclaimed by the sleepers. */
  lemma PoolIsSound(max: int, events: seq<Event>, s: State)
    requires ProperRun(Initial(max), events, s)
    ensures NoDuplicates(s.free) && (forall c :: c in s.free ==> c !in s.lent)
    ensures |s.free| + |s.lent| == s.cur <= Max(2, max)
    ensures s.asleep != {} ==> |s.free| <= |s.woken|
    ensures s.asleep != {} && s.woken == {} ==> s.free == [] && |s.lent| == s.cur
  {
    RunKeepsInv(Initial(max), events, s);
  }

  /** Release by the holder, or of a connection already free, is exactly what keeps the pool sound: returning one that
      another thread holds puts it on the free list while it is in use. */
  lemma ReleaseIsSoundIff(s: State, e: Event)
    requires OwnershipInv(s) && e.Release? && Enabled(s, e)
    ensures OwnershipInv(Apply(s, e)) <==> Proper(s, e)
  {
    var t := Apply(s, e);
    if Proper(s, e) {
      ReturnKeepsOwnership(s, e.thread, e.conn);
    } else {
      assert t.free[|s.free|] == e.conn;
      assert e.conn in t.free && t.lent == s.lent;
    }
  }

  // ---------------------------------------------------------------------------------------------------------------
  // The object itself

  class CachePool {
    var freeList: seq<Conn>
    var curConnCnt: nat
    const maxConnCnt: int
    ghost var run: State

    ghost predicate Agrees()
      reads this
    {
      (freeList, curConnCnt, maxConnCnt) == (run.free, run.cur, run.max)
    }

    ghost predicate Valid()
      reads this
    {
      Agrees() && OwnershipInv(run) && WaitInv(run)
    }

    constructor (maxConnCnt: int)
      ensures this.maxConnCnt == maxConnCnt && freeList == [] && curConnCnt == MIN_CACHE_CONN_CNT
    {
      this.maxConnCnt := maxConnCnt;
      freeList, curConnCnt := [], MIN_CACHE_CONN_CNT;
      run := Initial(maxConnCnt);
    }

    /** Init: `initOk` says which connections could be opened; the first failure ends it. */
    method Init(initOk: seq<bool>) returns (ret: int)
      requires freeList == [] && curConnCnt == MIN_CACHE_CONN_CNT <= |initOk|
      modifies this`freeList, this`run
      ensures ret == 0 <==> initOk[0] && initOk[1]
      ensures ret == 0 ==> Valid() && run == Initial(maxConnCnt)
    {
      for i := 0 to curConnCnt
        invariant |freeList| == i && forall j :: 0 <= j < i ==> freeList[j] == j
        invariant forall j :: 0 <= j < i ==> initOk[j]
      {
        if !initOk[i] {
          return 1;
        }
        freeList := freeList + [i];
      }
      run := Initial(maxConnCnt);
      assert freeList == [0, 1];
      return 0;
    }

    /** GetCacheConn from the loop test on: a connection, a failure (None, not waiting), or a wait. */
    method Enter(initOk: bool, ghost e: Event) returns (conn: Option<Conn>, waits: bool)
      requires Valid() && Enabled(run, e)
      requires (e.Get? || e.Resume?) && e.initOk == initOk
      modifies this
      ensures Valid() && run == Apply(old(run), e)
      ensures waits <==> old(freeList) == [] && old(curConnCnt) >= maxConnCnt
      ensures waits <==> e.thread in run.asleep
      ensures old(freeList) != [] ==> conn == Some(old(freeList)[0]) && freeList == old(freeList)[1..] && curConnCnt == old(curConnCnt)
      ensures old(freeList) == [] && !waits ==>
                if initOk then conn == Some(old(curConnCnt)) && curConnCnt == old(curConnCnt) + 1 && freeList == []
                else conn == None && curConnCnt == old(curConnCnt) && freeList == []
      ensures conn.Some? ==> conn.value in run.lent && run.lent[conn.value] == e.thread && conn.value !in old(run.lent)
      ensures conn.None? && !waits ==> run.lent == old(run.lent) && !initOk
    {
      ghost var before := run;
      StepKeepsInv(run, e);
      conn, waits := None, false;
      if freeList == [] {
        if curConnCnt >= maxConnCnt {
          waits := true;
        } else if initOk {
          freeList := freeList + [curConnCnt];
          curConnCnt := curConnCnt + 1;
        }
      }
      if !waits && freeList != [] {
        conn := Some(freeList[0]);
        freeList := freeList[1..];
      }
      run := Apply(run, e);
      assert before.free != [] ==> before.free[0] in before.free;
      assert freeList == run.free;
    }

    /** RelCacheConn: the scan for a double release, then the signal. */
    method RelCacheConn(conn: Conn, ghost e: Event)
      requires Agrees() && Enabled(run, e) && e.Release? && e.conn == conn
      modifies this
      ensures Agrees() && run == Apply(old(run), e)
      ensures freeList == (if conn in old(freeList) then old(freeList) else old(freeList) + [conn])
      ensures curConnCnt == old(curConnCnt)
      ensures old(Valid()) && Proper(old(run), e) ==> Valid()
      ensures old(Valid()) && !Proper(old(run), e) ==> !Valid()
    {
      if Valid() {
        ReleaseIsSoundIff(run, e);
        if Proper(run, e) { StepKeepsInv(run, e); }
      }
      var i := 0;
      while i < |freeList| && freeList[i] != conn
        invariant 0 <= i <= |freeList|
        invariant forall j :: 0 <= j < i ==> freeList[j] != conn
      {
        i := i + 1;
      }
      if i == |freeList| {
        freeList := freeList + [conn];
      }
      run := Apply(run, e);
    }
  }
}
