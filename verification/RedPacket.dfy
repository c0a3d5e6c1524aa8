/** Sums over the values of a finite map. */
module Sums {

  ghost function Sum<K>(m: map<K, int>): int {
    if m == map[] then 0 else var k :| k in m; m[k] + Sum(m - {k})
  }

  /** The order in which the keys are picked does not matter. */
  lemma {:induction false} SumRemove<K>(m: map<K, int>, k: K)
    requires k in m
    ensures Sum(m) == m[k] + Sum(m - {k})
    decreases |m|
  {
    var j :| j in m && Sum(m) == m[j] + Sum(m - {j});
    if j != k {
      SumRemove(m - {j}, k);
      SumRemove(m - {k}, j);
      assert m - {j} - {k} == m - {k} - {j};
    }
  }

  lemma SumUpdate<K>(m: map<K, int>, k: K, v: int)
    ensures Sum(m[k := v]) == Sum(m) + v - (if k in m then m[k] else 0)
  {
    SumRemove(m[k := v], k);
    assert m[k := v] - {k} == m - {k};
    if k in m {
      SumRemove(m, k);
    } else {
      assert m - {k} == m;
    }
  }
}

/** A red packet: what one holds, how a share is drawn, and what any sequence of takers leaves. */
module Packets {
  import opened Common

  type Name = string

  datatype Share = Share(name: Name, money: int)

  /** IM::SendHongbao, money in cents. */
  datatype Packet = Packet(sender: Name, money: int, left: int, count: int, leftCount: int, shares: seq<Share>)

  /** A default-constructed message, which is what getpb leaves when the key is gone. */
  const BLANK := Packet("", 0, 0, 0, 0, [])

  function Fresh(sender: Name, money: int, count: int): Packet {
    Packet(sender, money, money, count, count, [])
  }

  /** Two's-complement wrap-around of a 32-bit product. */
  function Wrap32(x: int): (r: int)
    ensures -0x8000_0000 <= r < 0x8000_0000 && (x - r) % 0x1_0000_0000 == 0
  {
    var m := x % 0x1_0000_0000;
    if m < 0x8000_0000 then m else m - 0x1_0000_0000
  }

  /** getRandomMoney, with the number drawn by RAND(1,199) as an argument. */
  function RandomMoney(remain: int, packs: int, draw: int): int {
    if packs == 0 then 0
    else if Quot(remain, packs) == 1 then Quot(remain, packs)
    else if packs == 1 then remain
    else Quot(Quot(Wrap32(remain * draw), 100), packs)
  }

  datatype Outcome = Expired | AlreadyRobbed | Gone | Got(share: int, packet: Packet)

  predicate HasTaken(p: Packet, taker: Name) {
    exists i :: 0 <= i < |p.shares| && p.shares[i].name == taker
  }

  function Taken(p: Packet, taker: Name, share: int): Packet {
    p.(left := p.left - share, leftCount := p.leftCount - 1, shares := p.shares + [Share(taker, share)])
  }

  /** The critical section of RobHongbao on a packet found under the key. */
  function Rob(p: Packet, taker: Name, draw: int): Outcome {
    if HasTaken(p, taker) then AlreadyRobbed
    else if p.leftCount == 0 then Gone
    else
      var share := RandomMoney(p.left, p.leftCount, draw);
      Got(share, Taken(p, taker, share))
  }

  function SumShares(shares: seq<Share>): int {
    if shares == [] then 0 else SumShares(shares[..|shares| - 1]) + shares[|shares| - 1].money
  }

  /** What every sequence of robs keeps: the shares and the rest make up the money, shares and remaining places make
      up the count, nobody takes twice, and an exhausted packet is empty. */
  ghost predicate PacketInv(p: Packet) {
    && p.money == p.left + SumShares(p.shares)
    && p.count == p.leftCount + |p.shares|
    && (forall i, j :: 0 <= i < j < |p.shares| ==> p.shares[i].name != p.shares[j].name)
    && (p.leftCount == 0 ==> p.left == 0)
  }

  lemma RobKeepsPacketInv(p: Packet, taker: Name, draw: int)
    requires PacketInv(p) && Rob(p, taker, draw).Got?
    ensures PacketInv(Rob(p, taker, draw).packet)
  {
    var q := Rob(p, taker, draw).packet;
    assert q.shares[..|p.shares|] == p.shares;
    forall i | 0 <= i < |p.shares| ensures q.shares[i].name != taker {
      assert p.shares[i].name != taker;
    }
  }

  /** Any number of attempts, each a taker and a draw; failed attempts change nothing. */
  function RobAll(p: Packet, attempts: seq<(Name, int)>): Packet {
    if attempts == [] then p
    else
      var before := RobAll(p, attempts[..|attempts| - 1]);
      var (taker, draw) := attempts[|attempts| - 1];
      var outcome := Rob(before, taker, draw);
      if outcome.Got? then outcome.packet else before
  }

  /** The packet invariant after any sequence of attempts with any draws, on any amount. */
  lemma {:induction false} RobAllKeepsPacketInv(p: Packet, attempts: seq<(Name, int)>)
    requires PacketInv(p)
    ensures PacketInv(RobAll(p, attempts)) && RobAll(p, attempts).money == p.money
    ensures RobAll(p, attempts).count == p.count && RobAll(p, attempts).sender == p.sender
  {
    if attempts != [] {
      var n := |attempts| - 1;
      RobAllKeepsPacketInv(p, attempts[..n]);
      var before := RobAll(p, attempts[..n]);
      if Rob(before, attempts[n].0, attempts[n].1).Got? {
        RobKeepsPacketInv(before, attempts[n].0, attempts[n].1);
      }
    }
  }

  /** Skipping the refund at leftcount 0 is harmless for every course of robbing exactly when the packet was sent
      with a non-zero count, or with no money: with count 0 the money is neither robbed nor returned. */
  lemma ExhaustedMeansEmptyIff(sender: Name, money: int, count: int)
    ensures (forall attempts :: RobAll(Fresh(sender, money, count), attempts).leftCount == 0 ==>
                                  RobAll(Fresh(sender, money, count), attempts).left == 0)
            <==> count != 0 || money == 0
  {
    var p := Fresh(sender, money, count);
    if count != 0 || money == 0 {
      forall attempts | RobAll(p, attempts).leftCount == 0 ensures RobAll(p, attempts).left == 0 {
        RobAllKeepsPacketInv(p, attempts);
      }
    } else {
      assert RobAll(p, []) == p;
    }
  }

  /** The product in getRandomMoney fits in 32 bits for every draw exactly up to 10791375 cents. */
  lemma ProductFitsIff(remain: nat)
    ensures (forall draw :: 1 <= draw <= 199 ==> Wrap32(remain * draw) == remain * draw) <==> remain <= 10791375
  {
    if remain <= 10791375 {
      forall draw | 1 <= draw <= 199 ensures Wrap32(remain * draw) == remain * draw {
        MulMonotone(remain, draw, 199);
      }
    } else {
      assert 199 * 10791376 >= 0x8000_0000;
      assert Wrap32(remain * 199) != remain * 199;
    }
  }

  /** Within that bound each share lies between nothing and what is left, and the last taker gets all of it. */
  lemma ShareBounds(remain: nat, packs: nat, draw: int)
    requires remain <= 10791375 && packs > 0 && 1 <= draw <= 199
    ensures 0 <= RandomMoney(remain, packs, draw) <= remain
    ensures packs == 1 ==> RandomMoney(remain, packs, draw) == remain
  {
    if packs > 1 && Quot(remain, packs) != 1 {
      ProductFitsIff(remain);
      var product := Wrap32(remain * draw);
      assert product == remain * draw;
      MulMonotone(remain, draw, 199);
      assert 0 <= product <= 199 * remain;
      DivisionBound(product / 100, packs, remain);
    }
  }

  lemma DivisionBound(a: nat, b: nat, c: nat)
    requires b >= 2 && a <= 2 * c
    ensures 0 <= a / b <= c
  {
    assert a == b * (a / b) + a % b;
    if a / b > c {
      MulMonotone(a / b, 2, b);
      assert false;
    }
  }

  /** The exact condition for one draw: with at least two places left and not one cent each, the share lies between
      nothing and what is left unless the wrapped product is at or below minus 100 cents per place; then it is
      negative.  It never exceeds what is left. */
  lemma ShareInRangeIff(remain: nat, packs: nat, draw: int)
    requires packs >= 2 && Quot(remain, packs) != 1 && 1 <= draw <= 199
    ensures RandomMoney(remain, packs, draw) <= remain
    ensures RandomMoney(remain, packs, draw) < 0 <==> Wrap32(remain * draw) <= -100 * packs
  {
    var w := Wrap32(remain * draw);
    NegativeQuotientIff(Quot(w, 100), packs);
    if w >= 0 {
      if remain <= 10791375 {
        ShareBounds(remain, packs, draw);
      } else {
        DivisionBound(w / 100, packs, remain);
      }
    }
  }

  lemma NegativeQuotientIff(a: int, b: nat)
    requires b >= 2
    ensures Quot(a, b) < 0 <==> a + b <= 0
  {
    if a < 0 {
      QuotientOfNegative(-a, b);
      DivisionIsPositiveIff(-a, b);
    } else {
      QuotientOfNatural(a, b);
    }
  }

  lemma QuotientOfNegative(a: nat, b: nat)
    requires a > 0 && b > 0
    ensures Quot(0 - a, b) == 0 - a / b
  {
  }

  lemma QuotientOfNatural(a: nat, b: nat)
    requires b > 0
    ensures Quot(a, b) >= 0
  {
    QuotientIsNatural(a, b);
    assert Quot(a, b) == a / b;
  }

  lemma DivisionIsPositiveIff(a: nat, b: nat)
    requires b > 0
    ensures a / b >= 1 <==> b <= a
  {
    if a < b {
      QuotientBound(a, b, 1);
    }
  }

  lemma NestedQuotient(w: nat, packs: nat)
    requires packs > 0
    ensures var q := w / 100 / packs; q >= 0 && 100 * packs * q <= w < 100 * packs * (q + 1)
  {
    var h: nat := w / 100;
    var q := h / packs;
    DivMod(h, packs);
    QuotientOfNatural(h, packs);
    assert q * packs <= h < (q + 1) * packs;
    assert 100 * packs * q == 100 * (q * packs);
    assert 100 * packs * (q + 1) == 100 * ((q + 1) * packs);
  }

  /** What a share is, for any amount, number of places and draw: nothing without a place, one cent if one cent each is
      left, everything in the last place, and otherwise the wrapped product over 100 times the places, truncated. */
  lemma ShareIs(remain: int, packs: nat, draw: int)
    ensures var share := RandomMoney(remain, packs, draw);
            var w := Wrap32(remain * draw);
            if packs == 0 then share == 0
            else if Quot(remain, packs) == 1 then share == 1
            else if packs == 1 then share == remain
            else if w >= 0 then 0 <= 100 * packs * share <= w < 100 * packs * (share + 1)
            else 100 * packs * (share - 1) < w <= 100 * packs * share <= 0
  {
    var w := Wrap32(remain * draw);
    if packs >= 2 && Quot(remain, packs) != 1 {
      if w >= 0 {
        NestedQuotient(w, packs);
        NaturalShare(w, packs);
      } else {
        NestedQuotient(-w, packs);
        NegativeShare(-w, packs);
      }
    }
  }

  lemma NaturalShare(w: nat, packs: nat)
    requires packs >= 2
    ensures Quot(Quot(w, 100), packs) == w / 100 / packs
    ensures w / 100 / packs >= 0 ==> 100 * packs * (w / 100 / packs) >= 0
  {
    if w / 100 / packs >= 0 {
      MulMonotone(100 * packs, 0, w / 100 / packs);
    }
  }

  lemma NegativeShare(w: nat, packs: nat)
    requires packs >= 2 && w > 0
    ensures var share := Quot(Quot(0 - w, 100), packs);
            var q := w / 100 / packs;
            && share == -q
            && 100 * packs * share == -(100 * packs * q)
            && 100 * packs * (share - 1) == -(100 * packs * (q + 1))
            && (q >= 0 ==> 100 * packs * q >= 0)
  {
    var q := w / 100 / packs;
    var h: nat := w / 100;
    assert Quot(0 - w, 100) == 0 - h;
    if h == 0 {
      QuotientOfNatural(0, packs);
      QuotientBound(0, packs, 1);
    } else {
      QuotientOfNegative(h, packs);
    }
    if q >= 0 {
      MulMonotone(100 * packs, 0, q);
    }
  }

  /** Within the bound nothing wraps: the share is the drawn fraction of an even split, rounded down. */
  lemma ShareIsDrawnFraction(remain: nat, packs: nat, draw: int)
    requires remain <= 10791375 && packs >= 2 && Quot(remain, packs) != 1 && 1 <= draw <= 199
    ensures var share := RandomMoney(remain, packs, draw);
            100 * packs * share <= remain * draw < 100 * packs * (share + 1)
  {
    ProductFitsIff(remain);
    MulMonotone(remain, 0, draw);
    assert Wrap32(remain * draw) == remain * draw;
    ShareIs(remain, packs, draw);
  }

  /** Past the bound some draw is the first whose product needs the 32nd bit. */
  lemma OverflowingDraw(remain: nat) returns (draw: nat)
    requires 10791375 < remain < 0x8000_0000
    ensures 2 <= draw <= 199 && 0x8000_0000 <= remain * draw < 0x8000_0000 + remain
  {
    var q := 0x7fff_ffff / remain;
    DivMod(0x7fff_ffff, remain);
    DivisionIsPositiveIff(0x7fff_ffff, remain);
    QuotientBound(0x7fff_ffff, remain, 199);
    draw := q + 1;
    assert remain * draw == remain * q + remain;
  }

  /** The exact bound over all draws, up to 100 cents per place below what 32 bits hold. */
  lemma SharesInRangeIff(remain: nat, packs: nat)
    requires packs >= 2 && Quot(remain, packs) != 1 && remain <= 0x8000_0000 - 100 * packs
    ensures (forall draw :: 1 <= draw <= 199 ==> 0 <= RandomMoney(remain, packs, draw) <= remain)
            <==> remain <= 10791375
  {
    if remain <= 10791375 {
      forall draw | 1 <= draw <= 199 ensures 0 <= RandomMoney(remain, packs, draw) <= remain {
        ShareBounds(remain, packs, draw);
      }
    } else {
      var draw := OverflowingDraw(remain);
      assert Wrap32(remain * draw) == remain * draw - 0x1_0000_0000;
      ShareInRangeIff(remain, packs, draw);
    }
  }

  /** Why the last statement stops short of the top: for the largest amount and two places no draw goes negative. */
  lemma LargestAmountStaysInRange(draw: int)
    requires 1 <= draw <= 199
    ensures 0 <= RandomMoney(0x7fff_ffff, 2, draw)
  {
    var half := draw / 2;
    if draw % 2 == 0 {
      assert 0x7fff_ffff * draw == 0x1_0000_0000 * half - draw;
      assert Wrap32(0x7fff_ffff * draw) == -draw;
    } else {
      assert 0x7fff_ffff * draw == 0x1_0000_0000 * half + 0x8000_0000 - draw;
      assert Wrap32(0x7fff_ffff * draw) == 0x8000_0000 - draw;
    }
    ShareInRangeIff(0x7fff_ffff, 2, draw);
  }

  /** Each share lay between nothing and what was left when it was taken, and the last place took everything left. */
  ghost predicate Fair(p: Packet) {
    && 0 <= p.left <= p.money && 0 <= p.leftCount == p.count - |p.shares|
    && (forall i :: 0 <= i < |p.shares| ==> 0 <= p.shares[i].money <= p.money - SumShares(p.shares[..i]))
    && (p.leftCount == 0 < p.count ==> p.shares[p.count - 1].money == p.money - SumShares(p.shares[..p.count - 1]))
  }

  lemma TakingKeepsFair(p: Packet, taker: Name, share: int)
    requires PacketInv(p) && Fair(p) && p.leftCount > 0 && 0 <= share <= p.left && (p.leftCount == 1 ==> share == p.left)
    ensures Fair(Taken(p, taker, share))
  {
    var q := Taken(p, taker, share);
    assert forall i :: 0 <= i <= |p.shares| ==> q.shares[..i] == p.shares[..i];
    assert p.shares[..|p.shares|] == p.shares;
  }

  /** Positive packets within the bound are fair after any attempts. */
  lemma {:induction false} PositivePacket(p: Packet, attempts: seq<(Name, int)>)
    requires PacketInv(p) && p.shares == [] && 0 <= p.money <= 10791375 && p.count > 0
    requires forall i :: 0 <= i < |attempts| ==> 1 <= attempts[i].1 <= 199
    ensures Fair(RobAll(p, attempts))
  {
    if attempts != [] {
      var n := |attempts| - 1;
      var (taker, draw) := attempts[n];
      PositivePacket(p, attempts[..n]);
      RobAllKeepsPacketInv(p, attempts[..n]);
      var before := RobAll(p, attempts[..n]);
      if before.leftCount > 0 {
        ShareBounds(before.left, before.leftCount, draw);
        TakingKeepsFair(before, taker, RandomMoney(before.left, before.leftCount, draw));
      }
    }
  }
}

/** The ledger: balances in the database, sessions and packets in the cache, and the handlers SendHongbao, RobHongbao
    and StopRobHongbao taken apart into the steps that other threads can observe. */
module RedPackets {
  import opened IntegerFormat
  import opened Packets
  import opened Sums

  type Key = string
  type ThreadId = nat

  /** The amount credited on registration: 10000.00. */
  const WELCOME: int := 1000000

  datatype Session = Session(name: Name, money: int)

  /** A handler between two of its steps. */
  datatype Task =
    | Sending(key: Key, packet: Packet)                                // debited, packet not yet stored
    | Robbing(key: Key, packet: Packet, taker: Name, share: int)       // lock held, new packet not yet stored
    | Paying(key: Key, taker: Name, share: int)                        // lock held, stored, taker not yet credited
    | Stopping(key: Key, packet: Packet)                               // packet read, key not yet deleted
    | Refunding(packet: Packet)                                        // key deleted, refund not yet booked

  datatype State = State(
    balances: map<Name, int>,
    sessions: map<Name, Session>,
    packets: map<Key, Packet>,
    tasks: map<ThreadId, Task>)

  datatype Event =
    | Register(name: Name)
    | Login(name: Name)
    | SendDebit(thread: ThreadId, key: Key, sender: Name, money: int, count: int)
    | SendStore(thread: ThreadId)
    | RobRead(thread: ThreadId, key: Key, taker: Name, draw: int)
    | RobStore(thread: ThreadId)
    | RobPay(thread: ThreadId)
    | StopGet(thread: ThreadId, key: Key)
    | StopDelete(thread: ThreadId)
    | StopRefund(thread: ThreadId)

  /** update IMUser set money = money + amount where name = ... : nothing happens if no row matches. */
  function Credited(balances: map<Name, int>, name: Name, amount: int): map<Name, int> {
    if name in balances then balances[name := balances[name] + amount] else balances
  }

  function SessionOf(s: State, name: Name): Session {
    if name in s.sessions then s.sessions[name] else Session("", 0)
  }

  /** The money check; the session's amount is not lowered by sending. */
  predicate Accepts(s: State, sender: Name, money: int) {
    SessionOf(s, sender).money - money > 0
  }

  predicate LockHeld(s: State, key: Key) {
    exists t :: t in s.tasks && (s.tasks[t].Robbing? || s.tasks[t].Paying?) && s.tasks[t].key == key
  }

  predicate Enabled(s: State, e: Event) {
    match e
    case Register(name) => name !in s.balances
    case Login(name) => name in s.balances
    case SendDebit(t, _, _, _, _) => t !in s.tasks
    case SendStore(t) => t in s.tasks && s.tasks[t].Sending?
    case RobRead(t, key, _, _) => t !in s.tasks && !LockHeld(s, key)
    case RobStore(t) => t in s.tasks && s.tasks[t].Robbing?
    case RobPay(t) => t in s.tasks && s.tasks[t].Paying?
    case StopGet(t, _) => t !in s.tasks
    case StopDelete(t) => t in s.tasks && s.tasks[t].Stopping?
    case StopRefund(t) => t in s.tasks && s.tasks[t].Refunding?
  }

  function Found(s: State, key: Key, taker: Name, draw: int): Outcome {
    if key in s.packets then Rob(s.packets[key], taker, draw) else Expired
  }

  function Apply(s: State, e: Event): State
    requires Enabled(s, e)
  {
    match e
    case Register(name) => s.(balances := s.balances[name := WELCOME])
    case Login(name) => s.(sessions := s.sessions[name := Session(name, s.balances[name])])
    case SendDebit(t, key, sender, money, count) =>
      if !Accepts(s, sender, money) then s
      else s.(balances := Credited(s.balances, SessionOf(s, sender).name, -money),
              tasks := s.tasks[t := Sending(key, Fresh(sender, money, count))])
    case SendStore(t) =>
      s.(packets := s.packets[s.tasks[t].key := s.tasks[t].packet], tasks := s.tasks - {t})
    case RobRead(t, key, taker, draw) =>
      (match Found(s, key, taker, draw)
       case Got(share, packet) => s.(tasks := s.tasks[t := Robbing(key, packet, taker, share)])
       case _ => s)
    case RobStore(t) =>
      var task := s.tasks[t];
      s.(packets := s.packets[task.key := task.packet], tasks := s.tasks[t := Paying(task.key, task.taker, task.share)])
    case RobPay(t) =>
      s.(balances := Credited(s.balances, s.tasks[t].taker, s.tasks[t].share), tasks := s.tasks - {t})
    case StopGet(t, key) =>
      s.(tasks := s.tasks[t := Stopping(key, if key in s.packets then s.packets[key] else BLANK)])
    case StopDelete(t) =>
      s.(packets := s.packets - {s.tasks[t].key}, tasks := s.tasks[t := Refunding(s.tasks[t].packet)])
    case StopRefund(t) =>
      var packet := s.tasks[t].packet;
      s.(balances := if packet.leftCount != 0 then Credited(s.balances, packet.sender, packet.left) else s.balances,
         tasks := s.tasks - {t})
  }

  // ---------------------------------------------------------------------------------------------------------------
  // The money in the system

  /** Money on its way inside a handler: taken out of one place, not yet put into the next. */
  function InTransit(task: Task): int {
    match task
    case Sending(_, packet) => packet.left
    case Paying(_, _, share) => share
    case Refunding(packet) => packet.left
    case _ => 0
  }

  ghost function Lefts(packets: map<Key, Packet>): map<Key, int> {
    map k | k in packets :: packets[k].left
  }

  ghost function Transits(tasks: map<ThreadId, Task>): map<ThreadId, int> {
    map t | t in tasks :: InTransit(tasks[t])
  }

  ghost function Total(s: State): int {
    Sum(s.balances) + Sum(Lefts(s.packets)) + Sum(Transits(s.tasks))
  }

  /** A handler that will overwrite or delete the packet under `key` on the strength of what it read. */
  predicate Claims(task: Task, key: Key) {
    (task.Sending? || task.Robbing? || task.Stopping?) && task.key == key
  }

  predicate Claimed(s: State, key: Key) {
    exists t :: t in s.tasks && Claims(s.tasks[t], key)
  }

  /** The same, robs aside: those exclude each other by the lock. */
  predicate ClaimedUnlocked(s: State, key: Key) {
    exists t :: t in s.tasks && Claims(s.tasks[t], key) && !s.tasks[t].Robbing?
  }

  lemma LockedOrUnlocked(s: State, key: Key)
    ensures Claimed(s, key) ==> ClaimedUnlocked(s, key) || LockHeld(s, key)
  {
    if Claimed(s, key) {
      var t :| t in s.tasks && Claims(s.tasks[t], key);
      if s.tasks[t].Robbing? {
        assert s.tasks[t].key == key;
      }
    }
  }

  /** What the clients and the clock have to respect.  Keys are fresh (one packet per sender and second), counts are
      not zero, takers are registered, and the stop timer of a packet does not fall into a rob of the same packet, nor a
      rob into the send or the stop.  Robs may overlap as they like: the lock keeps them apart. */
  predicate Orderly(s: State, e: Event) {
    match e
    case SendDebit(_, key, sender, money, count) =>
      Accepts(s, sender, money) ==>
        sender in s.sessions && key !in s.packets && !Claimed(s, key) && (count != 0 || money == 0)
    case RobRead(_, key, taker, _) => taker in s.balances && !ClaimedUnlocked(s, key)
    case StopGet(_, key) => !Claimed(s, key)
    case _ => true
  }

  ghost predicate TaskInv(s: State, task: Task) {
    match task
    case Sending(key, packet) => key !in s.packets && PacketInv(packet) && packet.sender in s.balances
    case Robbing(key, packet, taker, share) =>
      && key in s.packets && s.packets[key].left == packet.left + share && PacketInv(packet)
      && packet.sender in s.balances && taker in s.balances
    case Paying(_, taker, _) => taker in s.balances
    case Stopping(key, packet) => packet == if key in s.packets then s.packets[key] else BLANK
    case Refunding(packet) => if packet.leftCount == 0 then packet.left == 0 else packet.sender in s.balances
  }

  ghost predicate Inv(s: State) {
    && (forall n :: n in s.sessions ==> s.sessions[n].name == n && n in s.balances)
    && (forall k :: k in s.packets ==> PacketInv(s.packets[k]) && s.packets[k].sender in s.balances)
    && (forall t :: t in s.tasks ==> TaskInv(s, s.tasks[t]))
    && Exclusive(s.tasks)
  }

  /** No two handlers claim the same key. */
  ghost predicate Exclusive(tasks: map<ThreadId, Task>) {
    forall t, u :: t in tasks && u in tasks && t != u ==> !Conflict(tasks[t], tasks[u])
  }

  predicate Conflict(a: Task, b: Task) {
    !a.Refunding? && Claims(a, a.key) && Claims(b, a.key)
  }

  lemma UpdateLefts(packets: map<Key, Packet>, key: Key, packet: Packet)
    ensures Sum(Lefts(packets[key := packet])) ==
            Sum(Lefts(packets)) + packet.left - (if key in packets then packets[key].left else 0)
  {
    assert Lefts(packets[key := packet]) == Lefts(packets)[key := packet.left];
    SumUpdate(Lefts(packets), key, packet.left);
  }

  lemma RemoveLefts(packets: map<Key, Packet>, key: Key)
    ensures Sum(Lefts(packets - {key})) == Sum(Lefts(packets)) - (if key in packets then packets[key].left else 0)
  {
    assert Lefts(packets - {key}) == Lefts(packets) - {key};
    if key in packets {
      SumRemove(Lefts(packets), key);
    } else {
      assert Lefts(packets) - {key} == Lefts(packets);
    }
  }

  lemma UpdateTransits(tasks: map<ThreadId, Task>, t: ThreadId, task: Task)
    ensures Sum(Transits(tasks[t := task])) ==
            Sum(Transits(tasks)) + InTransit(task) - (if t in tasks then InTransit(tasks[t]) else 0)
  {
    assert Transits(tasks[t := task]) == Transits(tasks)[t := InTransit(task)];
    SumUpdate(Transits(tasks), t, InTransit(task));
  }

  lemma RemoveTransits(tasks: map<ThreadId, Task>, t: ThreadId)
    requires t in tasks
    ensures Sum(Transits(tasks - {t})) == Sum(Transits(tasks)) - InTransit(tasks[t])
  {
    assert Transits(tasks - {t}) == Transits(tasks) - {t};
    SumRemove(Transits(tasks), t);
  }

  /** One account changes, by the amount, and none is opened or closed. */
  lemma CreditsOne(balances: map<Name, int>, name: Name, amount: int)
    ensures var after := Credited(balances, name, amount);
            && after.Keys == balances.Keys
            && forall n :: n in balances ==> after[n] == balances[n] + (if n == name then amount else 0)
  {
  }

  lemma CreditSum(balances: map<Name, int>, name: Name, amount: int)
    ensures Sum(Credited(balances, name, amount)) == Sum(balances) + (if name in balances then amount else 0)
  {
    if name in balances {
      SumUpdate(balances, name, balances[name] + amount);
    }
  }

  // ---------------------------------------------------------------------------------------------------------------
  // Where money comes from and goes to

  /** The exact change of the total in one step of the code, whatever the callers do. */
  ghost function Gain(s: State, e: Event): int
    requires Enabled(s, e)
  {
    match e
    case Register(_) => WELCOME
    case SendDebit(_, _, sender, money, _) =>
      if Accepts(s, sender, money) && SessionOf(s, sender).name !in s.balances then money else 0
    case SendStore(t) => -(if s.tasks[t].key in s.packets then s.packets[s.tasks[t].key].left else 0)
    case RobStore(t) =>
      var task := s.tasks[t];
      task.packet.left + task.share - (if task.key in s.packets then s.packets[task.key].left else 0)
    case RobPay(t) => if s.tasks[t].taker in s.balances then 0 else -s.tasks[t].share
    case StopDelete(t) =>
      var task := s.tasks[t];
      task.packet.left - (if task.key in s.packets then s.packets[task.key].left else 0)
    case StopRefund(t) =>
      var packet := s.tasks[t].packet;
      if packet.leftCount != 0 && packet.sender in s.balances then 0 else -packet.left
    case _ => 0
  }

  lemma SendGain(s: State, e: Event)
    requires Enabled(s, e) && (e.SendDebit? || e.SendStore?)
    ensures Total(Apply(s, e)) == Total(s) + Gain(s, e)
  {
    match e {
      case SendDebit(t, key, sender, money, count) =>
        CreditSum(s.balances, SessionOf(s, sender).name, -money);
        UpdateTransits(s.tasks, t, Sending(key, Fresh(sender, money, count)));
      case SendStore(t) =>
        UpdateLefts(s.packets, s.tasks[t].key, s.tasks[t].packet);
        RemoveTransits(s.tasks, t);
    }
  }

  lemma RobGain(s: State, e: Event)
    requires Enabled(s, e) && (e.RobRead? || e.RobStore? || e.RobPay?)
    ensures Total(Apply(s, e)) == Total(s) + Gain(s, e)
  {
    match e {
      case RobRead(t, key, taker, draw) =>
        var outcome := Found(s, key, taker, draw);
        if outcome.Got? { UpdateTransits(s.tasks, t, Robbing(key, outcome.packet, taker, outcome.share)); }
      case RobStore(t) =>
        UpdateLefts(s.packets, s.tasks[t].key, s.tasks[t].packet);
        UpdateTransits(s.tasks, t, Paying(s.tasks[t].key, s.tasks[t].taker, s.tasks[t].share));
      case RobPay(t) =>
        CreditSum(s.balances, s.tasks[t].taker, s.tasks[t].share);
        RemoveTransits(s.tasks, t);
    }
  }

  lemma StopGain(s: State, e: Event)
    requires Enabled(s, e) && (e.StopGet? || e.StopDelete? || e.StopRefund?)
    ensures Total(Apply(s, e)) == Total(s) + Gain(s, e)
  {
    match e {
      case StopGet(t, key) =>
        UpdateTransits(s.tasks, t, Stopping(key, if key in s.packets then s.packets[key] else BLANK));
      case StopDelete(t) =>
        RemoveLefts(s.packets, s.tasks[t].key);
        UpdateTransits(s.tasks, t, Refunding(s.tasks[t].packet));
      case StopRefund(t) =>
        CreditSum(s.balances, s.tasks[t].packet.sender, s.tasks[t].packet.left);
        RemoveTransits(s.tasks, t);
    }
  }

  lemma StepGain(s: State, e: Event)
    requires Enabled(s, e)
    ensures Total(Apply(s, e)) == Total(s) + Gain(s, e)
  {
    if e.Register? {
      SumUpdate(s.balances, e.name, WELCOME);
    } else if e.SendDebit? || e.SendStore? {
      SendGain(s, e);
    } else if e.RobRead? || e.RobStore? || e.RobPay? {
      RobGain(s, e);
    } else if !e.Login? {
      StopGain(s, e);
    }
  }

  /** Starting a handler that claims an unclaimed key. */
  lemma StartKeepsInv(s: State, t: ThreadId, task: Task)
    requires Inv(s) && t !in s.tasks && TaskInv(s, task) && !task.Refunding? && !Claimed(s, task.key)
    ensures Inv(s.(tasks := s.tasks[t := task]))
  {
    var tasks := s.tasks[t := task];
    assert Exclusive(tasks) by {
      forall u | u in s.tasks ensures !Conflict(task, s.tasks[u]) && !Conflict(s.tasks[u], task) {
        assert !Claims(s.tasks[u], task.key);
      }
    }
    var s' := s.(tasks := tasks);
    assert forall u :: u in s.tasks ==> TaskInv(s, s.tasks[u]) && TaskInv(s', s.tasks[u]);
  }

  /** A handler writing or deleting the packet it claims, and giving up the claim. */
  lemma WriteKeepsInv(s: State, t: ThreadId, packets: map<Key, Packet>, next: Task)
    requires Inv(s) && t in s.tasks && !s.tasks[t].Refunding? && Claims(s.tasks[t], s.tasks[t].key)
    requires packets - {s.tasks[t].key} == s.packets - {s.tasks[t].key}
    requires s.tasks[t].key in packets ==>
               var packet := packets[s.tasks[t].key]; PacketInv(packet) && packet.sender in s.balances
    requires (next.Paying? || next.Refunding?) && TaskInv(s, next)
    ensures Inv(s.(packets := packets, tasks := s.tasks[t := next]))
  {
    var key := s.tasks[t].key;
    var s' := s.(packets := packets, tasks := s.tasks[t := next]);
    forall k | k in packets ensures PacketInv(packets[k]) && packets[k].sender in s.balances {
      if k != key { assert k in packets - {key}; }
    }
    forall u | u in s'.tasks ensures TaskInv(s', s'.tasks[u]) {
      if u != t {
        var task := s.tasks[u];
        assert TaskInv(s, task) && !Conflict(s.tasks[t], task);
        if !task.Refunding? && Claims(task, task.key) {
          SameElsewhere(packets, s.packets, key, task.key);
        }
      }
    }
  }

  lemma SameElsewhere(a: map<Key, Packet>, b: map<Key, Packet>, key: Key, k: Key)
    requires a - {key} == b - {key} && k != key
    ensures (k in a <==> k in b) && (k in a ==> a[k] == b[k])
  {
    assert k in a <==> k in a - {key};
    assert k in b <==> k in b - {key};
  }

  lemma FinishKeepsInv(s: State, t: ThreadId)
    requires Inv(s) && t in s.tasks
    ensures Inv(s.(tasks := s.tasks - {t}))
  {
    var s' := s.(tasks := s.tasks - {t});
    assert forall u :: u in s'.tasks ==> TaskInv(s, s.tasks[u]) && TaskInv(s', s.tasks[u]);
  }

  lemma CreditKeepsInv(s: State, name: Name, amount: int)
    requires Inv(s)
    ensures Inv(s.(balances := Credited(s.balances, name, amount)))
  {
    var s' := s.(balances := Credited(s.balances, name, amount));
    assert s'.balances.Keys == s.balances.Keys;
    assert forall u :: u in s.tasks ==> TaskInv(s, s.tasks[u]) && TaskInv(s', s.tasks[u]);
  }

  lemma SendDebitKeepsInv(s: State, t: ThreadId, key: Key, sender: Name, money: int, count: int)
    requires Inv(s) && Orderly(s, SendDebit(t, key, sender, money, count)) && t !in s.tasks
    ensures Inv(Apply(s, SendDebit(t, key, sender, money, count)))
  {
    if Accepts(s, sender, money) {
      var task := Sending(key, Fresh(sender, money, count));
      StartKeepsInv(s, t, task);
      CreditKeepsInv(s.(tasks := s.tasks[t := task]), sender, -money);
    }
  }

  lemma SendStoreKeepsInv(s: State, t: ThreadId)
    requires Inv(s) && Enabled(s, SendStore(t))
    ensures Inv(Apply(s, SendStore(t)))
  {
    var task := s.tasks[t];
    assert TaskInv(s, task);
    var packets := s.packets[task.key := task.packet];
    WriteKeepsInv(s, t, packets, Refunding(BLANK));
    FinishKeepsInv(s.(packets := packets, tasks := s.tasks[t := Refunding(BLANK)]), t);
    assert s.tasks[t := Refunding(BLANK)] - {t} == s.tasks - {t};
  }

  lemma RobKeepsInv(s: State, e: Event)
    requires Inv(s) && Enabled(s, e) && Orderly(s, e) && (e.RobRead? || e.RobStore? || e.RobPay?)
    ensures Inv(Apply(s, e))
  {
    match e {
      case RobRead(t, key, taker, draw) =>
        var outcome := Found(s, key, taker, draw);
        if outcome.Got? {
          LockedOrUnlocked(s, key);
          RobKeepsPacketInv(s.packets[key], taker, draw);
          StartKeepsInv(s, t, Robbing(key, outcome.packet, taker, outcome.share));
        }
      case RobStore(t) =>
        var task := s.tasks[t];
        assert TaskInv(s, task);
        WriteKeepsInv(s, t, s.packets[task.key := task.packet], Paying(task.key, task.taker, task.share));
      case RobPay(t) =>
        CreditKeepsInv(s, s.tasks[t].taker, s.tasks[t].share);
        FinishKeepsInv(s.(balances := Credited(s.balances, s.tasks[t].taker, s.tasks[t].share)), t);
    }
  }

  lemma StopKeepsInv(s: State, e: Event)
    requires Inv(s) && Enabled(s, e) && Orderly(s, e) && (e.StopGet? || e.StopDelete? || e.StopRefund?)
    ensures Inv(Apply(s, e))
  {
    match e {
      case StopGet(t, key) => StartKeepsInv(s, t, Stopping(key, if key in s.packets then s.packets[key] else BLANK));
      case StopDelete(t) =>
        var task := s.tasks[t];
        assert TaskInv(s, task);
        WriteKeepsInv(s, t, s.packets - {task.key}, Refunding(task.packet));
      case StopRefund(t) =>
        var packet := s.tasks[t].packet;
        CreditKeepsInv(s, packet.sender, packet.left);
        FinishKeepsInv(s.(balances := Credited(s.balances, packet.sender, packet.left)), t);
        FinishKeepsInv(s, t);
    }
  }

  lemma AccountKeepsInv(s: State, e: Event)
    requires Inv(s) && Enabled(s, e) && (e.Register? || e.Login?)
    ensures Inv(Apply(s, e))
  {
    var t := Apply(s, e);
    assert forall u :: u in s.tasks ==> TaskInv(s, s.tasks[u]) && TaskInv(t, s.tasks[u]);
  }

  lemma OrderlyStepKeepsInv(s: State, e: Event)
    requires Inv(s) && Enabled(s, e) && Orderly(s, e)
    ensures Inv(Apply(s, e))
  {
    match e {
      case Register(_) => AccountKeepsInv(s, e);
      case Login(_) => AccountKeepsInv(s, e);
      case SendDebit(t, key, sender, money, count) => SendDebitKeepsInv(s, t, key, sender, money, count);
      case SendStore(t) => SendStoreKeepsInv(s, t);
      case RobRead(_, _, _, _) => RobKeepsInv(s, e);
      case RobStore(_) => RobKeepsInv(s, e);
      case RobPay(_) => RobKeepsInv(s, e);
      case StopGet(_, _) => StopKeepsInv(s, e);
      case StopDelete(_) => StopKeepsInv(s, e);
      case StopRefund(_) => StopKeepsInv(s, e);
    }
  }

  /** In an orderly step nothing leaks and nothing appears. */
  lemma OrderlyStepGainsNothing(s: State, e: Event)
    requires Inv(s) && Enabled(s, e) && Orderly(s, e)
    ensures Gain(s, e) == if e.Register? then WELCOME else 0
  {
    if e.SendStore? || e.RobStore? || e.RobPay? || e.StopDelete? || e.StopRefund? {
      assert TaskInv(s, s.tasks[e.thread]);
    }
  }

  ghost predicate IsRun(s: State, events: seq<Event>, t: State)
    decreases |events|
  {
    if events == [] then s == t
    else Enabled(s, events[0]) && IsRun(Apply(s, events[0]), events[1..], t)
  }

  ghost function Gains(s: State, events: seq<Event>, t: State): int
    requires IsRun(s, events, t)
    decreases |events|
  {
    if events == [] then 0 else Gain(s, events[0]) + Gains(Apply(s, events[0]), events[1..], t)
  }

  /** The exact change of the total over any run at all, orderly or not. */
  lemma {:induction false} RunGain(s: State, events: seq<Event>, t: State)
    requires IsRun(s, events, t)
    ensures Total(t) == Total(s) + Gains(s, events, t)
    decreases |events|
  {
    if events != [] {
      StepGain(s, events[0]);
      RunGain(Apply(s, events[0]), events[1..], t);
    }
  }

  ghost predicate OrderlyRun(s: State, events: seq<Event>)
    decreases |events|
  {
    events == [] ||
    (Enabled(s, events[0]) && Orderly(s, events[0]) && OrderlyRun(Apply(s, events[0]), events[1..]))
  }

  function Registrations(events: seq<Event>): nat {
    if events == [] then 0 else (if events[0].Register? then 1 else 0) + Registrations(events[1..])
  }

  /** Conservation over whole runs, in every interleaving of the handlers' steps: the money in balances, live packets
      and handlers changes by registration only. */
  lemma {:induction false} MoneyIsConserved(s: State, events: seq<Event>, t: State)
    requires Inv(s) && IsRun(s, events, t) && OrderlyRun(s, events)
    ensures Inv(t) && Total(t) == Total(s) + WELCOME * Registrations(events)
    decreases |events|
  {
    if events != [] {
      StepGain(s, events[0]);
      OrderlyStepKeepsInv(s, events[0]);
      OrderlyStepGainsNothing(s, events[0]);
      MoneyIsConserved(Apply(s, events[0]), events[1..], t);
    }
  }

  /** Nobody registered, nothing sent. */
  const EMPTY := State(map[], map[], map[], map[])

  lemma EmptyLedger()
    ensures Inv(EMPTY) && Total(EMPTY) == 0
  {
    assert Lefts(EMPTY.packets) == map[] && Transits(EMPTY.tasks) == map[];
  }

  /** From the empty ledger on, in every orderly run: the money in the system is what registration has credited. */
  lemma MoneyComesFromRegistration(events: seq<Event>, t: State)
    requires IsRun(EMPTY, events, t) && OrderlyRun(EMPTY, events)
    ensures Inv(t) && Total(t) == 1000000 * Registrations(events)
  {
    EmptyLedger();
    MoneyIsConserved(EMPTY, events, t);
  }

  /** With every handler at rest, what is not in a balance is in a live packet. */
  lemma AtRestNothingIsInTransit(s: State)
    requires s.tasks == map[]
    ensures Total(s) == Sum(s.balances) + Sum(Lefts(s.packets))
  {
    assert Transits(s.tasks) == map[];
  }

  /** Without that order money appears: StopRobHongbao takes no lock, and if it runs between RobHongbao's read and
      write of the same packet, the total grows by all that was left in the packet -- in every state in which the
      rob would have succeeded. */
  lemma StopInsideRobMintsMoney(s: State, rob: ThreadId, stop: ThreadId, key: Key, taker: Name, draw: int)
    requires Inv(s) && rob !in s.tasks && stop !in s.tasks && rob != stop
    requires !LockHeld(s, key) && !Claimed(s, key) && taker in s.balances
    requires Found(s, key, taker, draw).Got?
    ensures exists t ::
              && IsRun(s, [RobRead(rob, key, taker, draw), StopGet(stop, key), StopDelete(stop), StopRefund(stop),
                           RobStore(rob), RobPay(rob)], t)
              && Total(t) == Total(s) + s.packets[key].left
  {
    var e1, e2, e3 := RobRead(rob, key, taker, draw), StopGet(stop, key), StopDelete(stop);
    var e4, e5, e6 := StopRefund(stop), RobStore(rob), RobPay(rob);
    var s3 := StopOvertakesRob(s, rob, stop, key, taker, draw);
    var s4 := Apply(s3, e4);
    var s5 := Apply(s4, e5);
    StepGain(s3, e4);
    StepGain(s4, e5);
    StepGain(s5, e6);
    RunOfSix(s, e1, e2, e3, e4, e5, e6);
  }

  /** The first three steps: the rob has read the packet, the stop has read and deleted it. */
  lemma StopOvertakesRob(s: State, rob: ThreadId, stop: ThreadId, key: Key, taker: Name, draw: int) returns (s3: State)
    requires Inv(s) && rob !in s.tasks && stop !in s.tasks && rob != stop
    requires !LockHeld(s, key) && Found(s, key, taker, draw).Got?
    ensures Enabled(s, RobRead(rob, key, taker, draw))
    ensures var s1 := Apply(s, RobRead(rob, key, taker, draw));
            Enabled(s1, StopGet(stop, key)) && Enabled(Apply(s1, StopGet(stop, key)), StopDelete(stop)) &&
            s3 == Apply(Apply(s1, StopGet(stop, key)), StopDelete(stop))
    ensures Total(s3) == Total(s) && key !in s3.packets && s3.balances == s.balances
    ensures rob in s3.tasks && stop in s3.tasks && s3.tasks[stop] == Refunding(s.packets[key])
    ensures var got := Found(s, key, taker, draw); s3.tasks[rob] == Robbing(key, got.packet, taker, got.share)
  {
    var s1 := Apply(s, RobRead(rob, key, taker, draw));
    var s2 := Apply(s1, StopGet(stop, key));
    s3 := Apply(s2, StopDelete(stop));
    StepGain(s, RobRead(rob, key, taker, draw));
    StepGain(s1, StopGet(stop, key));
    StepGain(s2, StopDelete(stop));
  }

  lemma RunOfSix(s: State, e1: Event, e2: Event, e3: Event, e4: Event, e5: Event, e6: Event)
    requires Enabled(s, e1)
    requires Enabled(Apply(s, e1), e2)
    requires Enabled(Apply(Apply(s, e1), e2), e3)
    requires Enabled(Apply(Apply(Apply(s, e1), e2), e3), e4)
    requires Enabled(Apply(Apply(Apply(Apply(s, e1), e2), e3), e4), e5)
    requires Enabled(Apply(Apply(Apply(Apply(Apply(s, e1), e2), e3), e4), e5), e6)
    ensures IsRun(s, [e1, e2, e3, e4, e5, e6],
                  Apply(Apply(Apply(Apply(Apply(Apply(s, e1), e2), e3), e4), e5), e6))
  {
    assert [e1, e2, e3, e4, e5, e6][1..] == [e2, e3, e4, e5, e6];
    assert [e2, e3, e4, e5, e6][1..] == [e3, e4, e5, e6];
    assert [e3, e4, e5, e6][1..] == [e4, e5, e6];
    assert [e4, e5, e6][1..] == [e5, e6];
    assert [e5, e6][1..] == [e6];
    assert [e6][1..] == [];
    var s3 := Apply(Apply(Apply(s, e1), e2), e3);
    var s6 := Apply(Apply(Apply(s3, e4), e5), e6);
    assert IsRun(s6, [], s6);
    assert IsRun(Apply(Apply(s3, e4), e5), [e6], s6);
    assert IsRun(Apply(s3, e4), [e5, e6], s6);
    assert IsRun(s3, [e4, e5, e6], s6);
    assert IsRun(Apply(Apply(s, e1), e2), [e3, e4, e5, e6], s6);
    assert IsRun(Apply(s, e1), [e2, e3, e4, e5, e6], s6);
  }

  lemma {:induction false} RunAppend(s: State, before: seq<Event>, t: State, after: seq<Event>, u: State)
    requires IsRun(s, before, t) && IsRun(t, after, u)
    ensures IsRun(s, before + after, u)
    decreases |before|
  {
    if before == [] {
      assert before + after == after;
    } else {
      RunAppend(Apply(s, before[0]), before[1..], t, after, u);
      assert (before + after)[1..] == before[1..] + after;
    }
  }

  /** `before`, and after it no registration. */
  lemma {:induction false} NoMoreRegistrations(before: seq<Event>, after: seq<Event>)
    requires forall i :: 0 <= i < |after| ==> !after[i].Register?
    ensures Registrations(before + after) == Registrations(before)
    decreases |before|, |after|
  {
    if before != [] {
      NoMoreRegistrations(before[1..], after);
      assert (before + after)[1..] == before[1..] + after;
    } else if after != [] {
      NoMoreRegistrations([], after[1..]);
      assert [] + after == after && [] + after[1..] == after[1..];
    }
  }

  const KEY := KeyOf("ann", 1)
  const SETUP := [Register("ann"), Register("bob"), Login("ann"), SendDebit(0, KEY, "ann", 100, 2), SendStore(0)]

  /** Two accounts, and a packet of 100 cents in two places. */
  lemma PacketSent() returns (s: State)
    ensures IsRun(EMPTY, SETUP, s) && OrderlyRun(EMPTY, SETUP)
    ensures s.tasks == map[] && s.packets == map[KEY := Fresh("ann", 100, 2)] && "bob" in s.balances
  {
    var s1 := Apply(EMPTY, SETUP[0]);
    var s2 := Apply(s1, SETUP[1]);
    var s3 := Apply(s2, SETUP[2]);
    assert s3.tasks == map[] && s3.sessions["ann"] == Session("ann", WELCOME);
    var s4 := Apply(s3, SETUP[3]);
    s := Apply(s4, SETUP[4]);
    assert s4.tasks == map[0 := Sending(KEY, Fresh("ann", 100, 2))] && s.tasks == map[];
    assert SETUP[4..] == [SETUP[4]] && SETUP[4..][1..] == [];
    assert SETUP[3..][1..] == SETUP[4..] && SETUP[2..][1..] == SETUP[3..] && SETUP[1..][1..] == SETUP[2..];
    assert IsRun(s4, SETUP[4..], s) && OrderlyRun(s4, SETUP[4..]);
    assert IsRun(s3, SETUP[3..], s) && OrderlyRun(s3, SETUP[3..]);
    assert IsRun(s2, SETUP[2..], s) && OrderlyRun(s2, SETUP[2..]);
    assert IsRun(s1, SETUP[1..], s) && OrderlyRun(s1, SETUP[1..]);
  }

  lemma OrderlySetup() returns (events: seq<Event>, s: State)
    ensures IsRun(EMPTY, events, s) && Total(s) == WELCOME * Registrations(events)
    ensures Inv(s) && s.tasks == map[] && s.packets == map[KEY := Fresh("ann", 100, 2)] && "bob" in s.balances
  {
    s := PacketSent();
    events := SETUP;
    MoneyComesFromRegistration(events, s);
  }

  lemma MintingRun(s: State, rob: ThreadId, stop: ThreadId, key: Key, taker: Name, draw: int)
    returns (events: seq<Event>, t: State)
    requires Inv(s) && s.tasks == map[] && rob != stop && taker in s.balances && Found(s, key, taker, draw).Got?
    ensures IsRun(s, events, t) && Total(t) == Total(s) + s.packets[key].left
    ensures forall i :: 0 <= i < |events| ==> !events[i].Register?
  {
    StopInsideRobMintsMoney(s, rob, stop, key, taker, draw);
    events := [RobRead(rob, key, taker, draw), StopGet(stop, key), StopDelete(stop), StopRefund(stop), RobStore(rob),
               RobPay(rob)];
    t :| IsRun(s, events, t) && Total(t) == Total(s) + s.packets[key].left;
  }

  /** An orderly run with a gaining one behind it. */
  lemma GainAfterOrder(before: seq<Event>, s: State, after: seq<Event>, t: State)
    requires IsRun(EMPTY, before, s) && Total(s) == WELCOME * Registrations(before)
    requires IsRun(s, after, t) && Total(t) > Total(s) && forall i :: 0 <= i < |after| ==> !after[i].Register?
    ensures exists events, u :: IsRun(EMPTY, events, u) && Total(u) > WELCOME * Registrations(events)
  {
    RunAppend(EMPTY, before, s, after, t);
    NoMoreRegistrations(before, after);
    var events := before + after;
    assert IsRun(EMPTY, events, t) && Total(t) > WELCOME * Registrations(events);
  }

  /** So the order matters: a run from the empty ledger ends with more money than registration has credited. */
  lemma MoneyCanAppear()
    ensures exists events, t :: IsRun(EMPTY, events, t) && Total(t) > WELCOME * Registrations(events)
  {
    var before, s := OrderlySetup();
    var after, t := MintingRun(s, 1, 2, KEY, "bob", 1);
    GainAfterOrder(before, s, after, t);
  }

  // ---------------------------------------------------------------------------------------------------------------
  // The handlers

  /** The cache key of a packet: sender, send time in seconds, suffix. */
  function KeyOf(sender: Name, seconds: nat): Key {
    sender + "_" + Dec(seconds) + "_HBcount"
  }

  lemma DecHasNoUnderscore(n: nat)
    ensures forall i :: 0 <= i < |Dec(n)| ==> Dec(n)[i] != '_'
  {
    NumeralCanonical(n, 10);
    forall i | 0 <= i < |Dec(n)| ensures Dec(n)[i] != '_' {
      assert IsDigit(Dec(n)[i], 10);
      var d :| 0 <= d < 10 && DIGITS_HEX[d] == Dec(n)[i];
      TableValue(d);
    }
  }

  /** Two packets share a key exactly when one sender sent both within the same second. */
  lemma KeyInjective(a: Name, s: nat, b: Name, t: nat)
    ensures KeyOf(a, s) == KeyOf(b, t) <==> a == b && s == t
  {
    if KeyOf(a, s) == KeyOf(b, t) {
      var k := KeyOf(a, s);
      assert k[..|k| - 8] == a + "_" + Dec(s);
      assert k[..|k| - 8] == b + "_" + Dec(t);
      SplitAtUnderscore(a, Dec(s), b, Dec(t), s, t);
      NumeralRoundTrip(s, 10);
      NumeralRoundTrip(t, 10);
    }
  }

  lemma SplitAtUnderscore(a: string, x: string, b: string, y: string, s: nat, t: nat)
    requires a + "_" + x == b + "_" + y && x == Dec(s) && y == Dec(t)
    ensures a == b && x == y
  {
    DecHasNoUnderscore(s);
    DecHasNoUnderscore(t);
    var k := a + "_" + x;
    assert k == b + "_" + y;
    assert forall i :: |a| < i < |k| ==> k[i] == x[i - |a| - 1] && k[i] != '_';
    assert forall i :: |b| < i < |k| ==> k[i] == y[i - |b| - 1] && k[i] != '_';
    assert k[|a|] == '_' && k[|b|] == '_';
    assert a == k[..|a|] && b == k[..|b|];
    assert x == k[|a| + 1..] && y == k[|b| + 1..];
  }

  datatype SendResponse = SendOk(key: Key) | NotEnough
  datatype RobResponse = RobOk(share: int, totalCount: int, leftCount: int) | EmptyKey | RobFailed(why: Outcome)

  /** A whole send is its two steps in a row: the sender's account is debited and the packet is there, with all its money
      and all its places. */
  lemma SendIsItsSteps(s: State, key: Key, sender: Name, money: int, count: int)
    requires s.tasks == map[] && Accepts(s, sender, money)
    ensures var t := Apply(s, SendDebit(0, key, sender, money, count));
            && Enabled(t, SendStore(0))
            && Apply(t, SendStore(0)) ==
               s.(balances := Credited(s.balances, SessionOf(s, sender).name, -money),
                  packets := s.packets[key := Packet(sender, money, money, count, count, [])])
  {
    var t := Apply(s, SendDebit(0, key, sender, money, count));
    assert t.tasks - {0} == map[];
  }

  /** A whole rob is its three steps in a row: the taker, and nobody else, is paid the share taken out of the packet. */
  lemma RobIsItsSteps(s: State, key: Key, taker: Name, draw: int)
    requires s.tasks == map[] && Found(s, key, taker, draw).Got?
    ensures var p, share := s.packets[key], Found(s, key, taker, draw).share;
            var s1 := Apply(s, RobRead(0, key, taker, draw));
            && Enabled(s1, RobStore(0)) && Enabled(Apply(s1, RobStore(0)), RobPay(0))
            && Apply(Apply(s1, RobStore(0)), RobPay(0)) ==
               s.(packets := s.packets[key := Packet(p.sender, p.money, p.left - share, p.count, p.leftCount - 1,
                                                     p.shares + [Share(taker, share)])],
                  balances := Credited(s.balances, taker, share))
  {
    var s2 := Apply(Apply(s, RobRead(0, key, taker, draw)), RobStore(0));
    assert s2.tasks - {0} == map[];
  }

  /** A whole stop is its three steps in a row: the packet is gone, and its sender has what was left unless no place was. */
  lemma StopIsItsSteps(s: State, key: Key)
    requires s.tasks == map[]
    ensures var p := if key in s.packets then s.packets[key] else BLANK;
            var s1 := Apply(s, StopGet(0, key));
            && Enabled(s1, StopDelete(0)) && Enabled(Apply(s1, StopDelete(0)), StopRefund(0))
            && Apply(Apply(s1, StopDelete(0)), StopRefund(0)) ==
               s.(packets := s.packets - {key},
                  balances := if p.leftCount != 0 then Credited(s.balances, p.sender, p.left) else s.balances)
  {
    var s2 := Apply(Apply(s, StopGet(0, key)), StopDelete(0));
    assert s2.tasks - {0} == map[];
  }

  /** The session is a copy of the account at login; sending, robbing and stopping leave it alone. */
  lemma SessionsAreSnapshots(s: State, e: Event)
    requires Enabled(s, e)
    ensures Apply(s, e).sessions == if e.Login? then s.sessions[e.name := Session(e.name, s.balances[e.name])] else s.sessions
  {
  }

  /** So a whole rob conserves money like any orderly run. */
  lemma RobIsConserving(s: State, key: Key, taker: Name, draw: int)
    requires Inv(s) && s.tasks == map[] && taker in s.balances
    requires key in s.packets && !HasTaken(s.packets[key], taker) && s.packets[key].leftCount != 0
    ensures var got := Found(s, key, taker, draw);
            var t := s.(packets := s.packets[key := got.packet], balances := Credited(s.balances, taker, got.share));
            Inv(t) && Total(t) == Total(s)
  {
    var e := RobRead(0, key, taker, draw);
    var s1 := Apply(s, e);
    var s2 := Apply(s1, RobStore(0));
    RobIsItsSteps(s, key, taker, draw);
    StepGain(s, e);
    OrderlyStepKeepsInv(s, e);
    StepGain(s1, RobStore(0));
    OrderlyStepKeepsInv(s1, RobStore(0));
    StepGain(s2, RobPay(0));
    OrderlyStepKeepsInv(s2, RobPay(0));
  }

  /** RobHongbao's loop over the shares already taken. */
  method LooksUpTaker(shares: seq<Share>, name: Name) returns (taken: bool)
    ensures taken <==> exists i :: 0 <= i < |shares| && shares[i].name == name
  {
    for i := 0 to |shares|
      invariant forall j :: 0 <= j < i ==> shares[j].name != name
    {
      if name == shares[i].name {
        return true;
      }
    }
    return false;
  }

  /** SendHongbao, RobHongbao and StopRobHongbao, each run to its end. */
  class Ledger {
    var balances: map<Name, int>
    var sessions: map<Name, Session>
    var packets: map<Key, Packet>

    ghost function Now(): State
      reads this
    {
      State(balances, sessions, packets, map[])
    }

    method UpdateMoney(name: Name, amount: int)
      modifies this`balances
      ensures balances == Credited(old(balances), name, amount)
    {
      if name in balances {
        balances := balances[name := balances[name] + amount];
      }
    }

    method SendHongbao(sender: Name, money: int, count: int, seconds: nat) returns (response: SendResponse)
      modifies this`balances, this`packets
      ensures response == NotEnough <==> (if sender in sessions then sessions[sender].money else 0) <= money
      ensures response == NotEnough ==> Now() == old(Now())
      ensures response != NotEnough ==>
                var name := if sender in sessions then sessions[sender].name else "";
                && response == SendOk(sender + "_" + Dec(seconds) + "_HBcount")
                && packets == old(packets)[response.key := Packet(sender, money, money, count, count, [])]
                && balances == Credited(old(balances), name, -money)
      ensures Inv(old(Now())) && Orderly(old(Now()), SendDebit(0, KeyOf(sender, seconds), sender, money, count)) ==>
                Inv(Now()) && Total(Now()) == old(Total(Now()))
    {
      var packet := Packet(sender, money, money, count, count, []);
      var session := if sender in sessions then sessions[sender] else Session("", 0);
      if session.money - money <= 0 {
        return NotEnough;
      }
      UpdateMoney(session.name, -money);
      var key := sender + "_" + Dec(seconds) + "_HBcount";
      packets := packets[key := packet];
      response := SendOk(key);

      ghost var s, e := old(Now()), SendDebit(0, key, sender, money, count);
      ghost var s1 := Apply(s, e);
      SendIsItsSteps(s, key, sender, money, count);
      if Inv(s) && Orderly(s, e) {
        assert [e, SendStore(0)][1..] == [SendStore(0)];
        assert [SendStore(0)][1..] == [];
        assert IsRun(s1, [SendStore(0)], Now()) && OrderlyRun(s1, [SendStore(0)]);
        MoneyIsConserved(s, [e, SendStore(0)], Now());
        assert Registrations([SendStore(0)]) == 0;
      }
    }

    method RobHongbao(key: Key, selfName: Name, draw: int) returns (response: RobResponse)
      modifies this`balances, this`packets
      ensures key == "" ==> response == EmptyKey && Now() == old(Now())
      ensures key != "" && key !in old(packets) ==> response == RobFailed(Expired) && Now() == old(Now())
      ensures response.RobFailed? ==> response.why == Found(old(Now()), key, selfName, draw)
      ensures key != "" && key in old(packets) ==>
                var p := old(packets)[key];
                if exists i :: 0 <= i < |p.shares| && p.shares[i].name == selfName then
                  response == RobFailed(AlreadyRobbed) && Now() == old(Now())
                else if p.leftCount == 0 then response == RobFailed(Gone) && Now() == old(Now())
                else
                  var share := RandomMoney(p.left, p.leftCount, draw);
                  && response == RobOk(share, p.count, p.leftCount - 1)
                  && packets == old(packets)[key := Packet(p.sender, p.money, p.left - share, p.count, p.leftCount - 1,
                                                           p.shares + [Share(selfName, share)])]
                  && balances == Credited(old(balances), selfName, share)
      ensures Inv(old(Now())) && selfName in old(balances) ==> Inv(Now()) && Total(Now()) == old(Total(Now()))
    {
      if |key| == 0 {
        return EmptyKey;
      }
      if key !in packets {
        return RobFailed(Expired);
      }
      var packet := packets[key];
      var taken := LooksUpTaker(packet.shares, selfName);
      if taken {
        return RobFailed(AlreadyRobbed);
      }
      if packet.leftCount == 0 {
        return RobFailed(Gone);
      }
      response := TakeShare(key, packet, selfName, draw);
    }

    /** The rest of RobHongbao, once a share is sure. */
    method TakeShare(key: Key, packet: Packet, selfName: Name, draw: int) returns (response: RobResponse)
      requires key in packets && packets[key] == packet && !HasTaken(packet, selfName) && packet.leftCount != 0
      modifies this`balances, this`packets
      ensures var share := RandomMoney(packet.left, packet.leftCount, draw);
              && response == RobOk(share, packet.count, packet.leftCount - 1)
              && packets == old(packets)[key := Packet(packet.sender, packet.money, packet.left - share, packet.count,
                                                       packet.leftCount - 1, packet.shares + [Share(selfName, share)])]
              && balances == Credited(old(balances), selfName, share)
      ensures Inv(old(Now())) && selfName in old(balances) ==> Inv(Now()) && Total(Now()) == old(Total(Now()))
    {
      var share := RandomMoney(packet.left, packet.leftCount, draw);
      var leftCount := if packet.leftCount != 0 then packet.leftCount - 1 else 0;
      var robbed := packet.(left := packet.left - share, leftCount := leftCount,
                            shares := packet.shares + [Share(selfName, share)]);
      packets := packets[key := robbed];
      UpdateMoney(selfName, share);
      response := RobOk(share, robbed.count, leftCount);
      if Inv(old(Now())) && selfName in old(balances) {
        RobIsConserving(old(Now()), key, selfName, draw);
      }
    }

    method StopRobHongbao(key: Key)
      modifies this`balances, this`packets
      ensures packets == old(packets) - {key}
      ensures var packet := if key in old(packets) then old(packets)[key] else BLANK;
              balances == if packet.leftCount != 0 then Credited(old(balances), packet.sender, packet.left) else old(balances)
      ensures Inv(old(Now())) ==> Total(Now()) == old(Total(Now()))
    {
      var packet := if key in packets then packets[key] else BLANK;
      packets := packets - {key};
      if packet.leftCount != 0 {
        UpdateMoney(packet.sender, packet.left);
      }
      RemoveLefts(old(packets), key);
      CreditSum(old(balances), packet.sender, packet.left);
    }
  }
}
