/**
 The hub comes to rest. Once arrivals stop, every step of a goroutine other than an entry waiter's poll
 uses up part of a finite amount of remaining work, and as long as some work remains a step is possible.
 With real agents it comes to rest with nothing left behind.
*/
module Drain {
  import opened PendingHeap
  import opened Protocol
  import opened ProtocolInvariant
  import opened ProtocolOwnership
  import opened SessionTheorems
  import opened ComposedSystem
  import Handshake
  import Registry

  // An entry waiter looked its session up and goes on waiting.
  ghost predicate Poll(s: State, l: Label) {
    && l.Go? && l.t.Wait? && l.t in s.th && s.th[l.t].EWait? && !l.c.Timer? && s.th[l.t].key in s.sh.heap.pending
  }

  function OnceWork(o: Once): nat {
    match o
    case Idle => 4
    case CloseFirst => 3
    case CloseSecond => 2
    case Unlist => 1
    case Finished => 0
  }

  function PairWork(p: Pair): nat {
    (if p.left then 1 else 0) + (if p.right then 1 else 0) + OnceWork(p.once)
  }

  // An upper bound on the steps a thread and the threads it starts still take.
  function Work(pc: Pc): nat {
    match pc
    case SLookup(_) => 9
    case SCheck(_, _) => 8
    case SInsert(_, _) => 7
    case SSend(_, _) => 6
    case SMark(_) => 5
    case SSpawn(_) => 4
    case SFail(_) => 1
    case TAgent(_, _) => 13
    case TAccept(_, _, _) => 12
    case TRead(_, _, _) => 11
    case TLookup(_, _, _) => 10
    case TCreate(_, _, _) => 9
    case TBind(_, _) => 8
    case TVerify(_, _) => 7
    case TSend(_, _) => 8
    case TMark(_) => 7
    case TSpawn(_) => 6
    case TEntry(_) => 1
    case TFail(_) => 2
    case TFailClose => 1
    case TMismatch(_, _) => 0
    case WArm(_) => 3
    case WRead(_, _) => 2
    case WClean(_) => 1
    case EState(_, _) => 8
    case ETunnel(_, _) => 7
    case EWait(_) => 2
    case EClean(_) => 1
    case EClosed => 0
    case EHanded(_) => 0
    case FPair(_, _, _, p) => PairWork(p)
    case XPair(_, p) => PairWork(p)
    case ADial(_, _) => 15
    case AShake(_, _) => 1
    case Done => 0
  }

  ghost function Total(th: Threads): nat {
    if th == map[] then 0
    else
      var t :| t in th;
      Work(th[t]) + Total(th - {t})
  }

  lemma {:induction false} TotalSplit(th: Threads, t: Tid)
    requires t in th
    ensures Total(th) == Work(th[t]) + Total(th - {t})
    decreases |th|
  {
    var u :| u in th && Total(th) == Work(th[u]) + Total(th - {u});
    if u != t {
      TotalSplit(th - {u}, t);
      TotalSplit(th - {t}, u);
      assert th - {u} - {t} == th - {t} - {u};
    }
  }

  lemma EmptyTotal()
    ensures Total(map[]) == 0
  {
  }

  lemma {:induction false} TotalUnion(a: Threads, b: Threads)
    requires a.Keys !! b.Keys
    ensures Total(a + b) == Total(a) + Total(b)
    decreases |b|
  {
    hide Total, Work;
    if b == map[] {
      EmptyTotal();
      assert a + b == a;
    } else {
      var t :| t in b;
      TotalSplit(b, t);
      TotalSplit(a + b, t);
      UnionLess(a, b, t);
      TotalUnion(a, b - {t});
    }
  }

  lemma UnionLess(a: Threads, b: Threads, t: Tid)
    requires t in b && t !in a
    ensures (a + b) - {t} == a + (b - {t})
  {
  }

  lemma TotalOne(t: Tid, pc: Pc)
    ensures Total(map[t := pc]) == Work(pc)
  {
    TotalSplit(map[t := pc], t);
    assert map[t := pc] - {t} == map[];
  }

  lemma TotalTwo(t: Tid, pc: Pc, u: Tid, pc': Pc)
    requires t != u
    ensures Total(map[t := pc, u := pc']) == Work(pc) + Work(pc')
  {
    TotalOne(t, pc);
    TotalOne(u, pc');
    assert map[t := pc] + map[u := pc'] == map[t := pc, u := pc'];
    TotalUnion(map[t := pc], map[u := pc']);
  }

  lemma TotalMove(th: Threads, t: Tid, pc: Pc, spawn: Threads)
    requires t in th && t !in spawn && spawn.Keys !! th.Keys
    ensures Total(th[t := pc] + spawn) == Total(th) - Work(th[t]) + Work(pc) + Total(spawn)
  {
    TotalUnion(th[t := pc], spawn);
    TotalSplit(th, t);
    TotalSplit(th[t := pc], t);
    assert th[t := pc] - {t} == th - {t};
  }

  // ---------- Every step but a poll uses work up ----------

  lemma SshWorks(sh: Shared, id: Id, pc: Pc, c: Choice)
    requires IsSsh(pc) && CanSsh(sh, id, pc, c)
    ensures var e := SshStep(sh, id, pc, c); Work(e.pc) + Total(e.spawn) < Work(pc)
  {
    EmptyTotal();
    if pc.SSpawn? { TotalOne(Watch(id), WArm(pc.key)); }
  }

  lemma TunSpawnWorks(sh: Shared, id: Id, pc: Pc, c: Choice)
    requires (pc.TSpawn? || pc.TVerify?) && CanTun(sh, id, pc, c)
    ensures var e := TunStep(sh, id, pc, c); Work(e.pc) + Total(e.spawn) < Work(pc)
  {
    hide Total, KeysMatch, Close;
    EmptyTotal();
    var e := TunStep(sh, id, pc, c);
    if pc.TSpawn? {
      TotalTwo(Wait(id), EWait(pc.key), Watch(id), WArm(pc.key));
    } else if e.pc.Done? {
      TotalOne(Fwd(id), e.spawn[Fwd(id)]);
    }
  }

  lemma TunWorks(sh: Shared, id: Id, pc: Pc, c: Choice)
    requires IsTun(pc) && CanTun(sh, id, pc, c)
    ensures var e := TunStep(sh, id, pc, c); Work(e.pc) + Total(e.spawn) < Work(pc)
  {
    hide Total, KeysMatch, Cleanup, Bind, BindOutcome, Attach, Insert, MarkOpenSent, Close, ReadId, Control;
    EmptyTotal();
    if pc.TSpawn? || pc.TVerify? { TunSpawnWorks(sh, id, pc, c); }
  }

  lemma WatchWorks(sh: Shared, pc: Pc)
    requires IsWatch(pc) && CanWatch(sh, pc)
    ensures var e := WatchStep(sh, pc); Work(e.pc) + Total(e.spawn) < Work(pc)
  {
    EmptyTotal();
  }

  lemma WaitWorks(sh: Shared, id: Id, pc: Pc, c: Choice)
    requires IsWait(pc) && CanWait(sh, pc)
    requires pc.EWait? ==> c.Timer? || pc.key !in sh.heap.pending
    ensures var e := WaitStep(sh, id, pc, c); Work(e.pc) + Total(e.spawn) < Work(pc)
  {
    hide Total;
    EmptyTotal();
    var e := WaitStep(sh, id, pc, c);
    if e.pc.EHanded? { TotalOne(Splice(id), e.spawn[Splice(id)]); }
  }

  lemma PairWorks(sh: Shared, id: Id, pc: Pc, c: Choice)
    requires CanPair(sh, pc, c)
    ensures var e := PairStep(sh, id, pc, c); Work(e.pc) + Total(e.spawn) < Work(pc)
  {
    EmptyTotal();
  }

  lemma DialWorks(sh: Shared, m: nat, pc: Pc, c: Choice)
    requires IsDial(pc)
    ensures var e := DialStep(sh, m, pc, c); Work(e.pc) + Total(e.spawn) < Work(pc)
  {
    EmptyTotal();
    if pc.ADial? { TotalOne(Main(Tun(sh.next)), TAgent(pc.agent, pc.key)); }
  }

  lemma StepWorks(sh: Shared, t: Tid, pc: Pc, c: Choice)
    requires CanStep(sh, t, pc, c)
    requires t.Wait? && pc.EWait? ==> c.Timer? || pc.key !in sh.heap.pending
    ensures var e := Step(sh, t, pc, c); Work(e.pc) + Total(e.spawn) < Work(pc)
  {
    hide Work, Total, CanSsh, CanTun, CanWatch, CanWait, CanPair, IsSsh, IsTun, IsWatch, IsWait, IsDial, SshStep,
         TunStep, WatchStep, WaitStep, PairStep, DialStep;
    match t {
      case Main(id) => if id.Ssh? { SshWorks(sh, id, pc, c); } else { TunWorks(sh, id, pc, c); }
      case Watch(_) => WatchWorks(sh, pc);
      case Wait(id) => WaitWorks(sh, id, pc, c);
      case Fwd(id) => PairWorks(sh, id, pc, c);
      case Splice(id) => PairWorks(sh, id, pc, c);
      case Dial(m) => DialWorks(sh, m, pc, c);
    }
  }

  // The threads a step starts are new.
  lemma SpawnsAreFresh(s: State, t: Tid, c: Choice)
    requires Inv(s) && SpawnInv(s) && Enabled(s, Go(t, c))
    ensures var e := Step(s.sh, t, s.th[t], c); e.spawn.Keys !! s.th.Keys
  {
    var e := Step(s.sh, t, s.th[t], c);
    StepShape(s.sh, t, s.th[t], c);
    NextIsNoThread(s, Tun(s.sh.next));
    assert t.Dial? || SpawnOk(s.th, t.id);
    hide Inv, CanStep, Step;
  }

  lemma GoWorks(s: State, t: Tid, c: Choice)
    requires Inv(s) && SpawnInv(s) && Enabled(s, Go(t, c)) && !Poll(s, Go(t, c))
    ensures Total(Do(s, Go(t, c)).th) < Total(s.th)
  {
    var e := Step(s.sh, t, s.th[t], c);
    SpawnsAreFresh(s, t, c);
    StepWorks(s.sh, t, s.th[t], c);
    TotalMove(s.th, t, e.pc, e.spawn);
  }

  // Looking up again costs at most the steps up to the next look.
  lemma PollCosts(s: State, t: Tid, c: Choice)
    requires Enabled(s, Go(t, c)) && Poll(s, Go(t, c))
    ensures Total(Do(s, Go(t, c)).th) == Total(s.th) + 6
  {
    hide Total;
    var e := Step(s.sh, t, s.th[t], c);
    EmptyTotal();
    assert e.spawn == map[] && e.pc.EState?;
    TotalMove(s.th, t, e.pc, e.spawn);
  }

  // ls is a schedule of goroutine steps that passes through the states ss.
  ghost predicate Draining(ss: seq<State>, ls: seq<Label>) {
    && |ss| == |ls| + 1
    && Inv(ss[0]) && SpawnInv(ss[0])
    && forall i {:trigger ls[i]} :: 0 <= i < |ls| ==>
         ls[i].Go? && Enabled(ss[i], ls[i]) && ss[i + 1] == Do(ss[i], ls[i])
  }

  // How many of the steps are polls.
  ghost function Polls(ss: seq<State>, ls: seq<Label>): nat
    requires |ss| == |ls| + 1
  {
    if ls == [] then 0
    else
      var n := |ls| - 1;
      Polls(ss[..n + 1], ls[..n]) + if Poll(ss[n], ls[n]) then 1 else 0
  }

  // However the goroutines are scheduled, a hub with no new arrivals takes a number of steps bounded by the
  // work it started with and the number of polls; so only a waiter that polls forever can keep it running.
  lemma {:induction false} DrainIsBounded(ss: seq<State>, ls: seq<Label>)
    requires Draining(ss, ls)
    ensures |ls| + Total(ss[|ls|].th) <= Total(ss[0].th) + 7 * Polls(ss, ls)
    ensures Inv(ss[|ls|]) && SpawnInv(ss[|ls|])
    decreases |ls|
  {
    hide Inv, SpawnInv, Enabled, Do, Poll, Total;
    if ls != [] {
      var n := |ls| - 1;
      assert ls[n].Go? && Enabled(ss[n], ls[n]) && ss[n + 1] == Do(ss[n], ls[n]);
      assert forall i :: 0 <= i < n ==> ls[..n][i] == ls[i];
      DrainIsBounded(ss[..n + 1], ls[..n]);
      if Poll(ss[n], ls[n]) { PollCosts(ss[n], ls[n].t, ls[n].c); } else { GoWorks(ss[n], ls[n].t, ls[n].c); }
      StepInv(ss[n], ls[n]);
      SpawnStep(ss[n], ls[n]);
    }
  }

  // ---------- Work that remains can be done ----------

  // Some choice lets the thread step; onSSHConn needs uuid.New to return an unused ID.
  ghost predicate CanMoveOn(s: State, t: Tid) {
    t in s.th && exists c :: Enabled(s, Go(t, c)) && !Poll(s, Go(t, c))
  }

  lemma PairMoves(sh: Shared, t: Tid, pc: Pc) returns (c: Choice)
    requires (t.Fwd? && pc.FPair?) || (t.Splice? && pc.XPair?)
    requires KeysMatch(sh.heap) && !AtRest(pc) && (pc.pair.once.Idle? <==> pc.pair.left && pc.pair.right)
    ensures CanStep(sh, t, pc, c) && !c.New?
  {
    c := if pc.pair.left then Left else if pc.pair.right then Right else Ok;
  }

  lemma MainMoves(sh: Shared, id: Id, pc: Pc) returns (c: Choice)
    requires SharedInv(sh) && PcOk(sh, Main(id), pc) && !AtRest(pc) && !pc.SInsert?
    ensures CanStep(sh, Main(id), pc, c) && !c.New?
  {
    c := if pc.TRead? then Fail else Ok;
  }

  // A step for a goroutine that has not finished; only onSSHConn's insert takes an ID.
  lemma Mover(s: State, t: Tid, unused: string) returns (c: Choice)
    requires Inv(s) && t in s.th && !AtRest(s.th[t])
    requires s.th[t].SInsert? ==> Handshake.IsUuid(unused) && Fresh(s, unused)
    ensures Enabled(s, Go(t, c)) && !Poll(s, Go(t, c))
    ensures c.New? ==> s.th[t].SInsert? && c == New(unused)
  {
    var pc := s.th[t];
    c := if pc.SInsert? then New(unused) else if pc.EWait? then Timer else Ok;
    assert PcOk(s.sh, t, pc);
    if t.Main? && !pc.SInsert? {
      c := MainMoves(s.sh, t.id, pc);
    } else if t.Fwd? || t.Splice? {
      c := PairMoves(s.sh, t, pc);
    }
    hide SharedInv, Registry.Inv, Numbered, Fresh;
  }

  lemma NoneStuck(s: State, t: Tid, unused: string)
    requires Inv(s) && t in s.th && !AtRest(s.th[t]) && Handshake.IsUuid(unused) && Fresh(s, unused)
    ensures CanMoveOn(s, t)
  {
    hide Inv, Enabled, Poll, Fresh;
    var c := Mover(s, t, unused);
    assert Enabled(s, Go(t, c)) && !Poll(s, Go(t, c));
  }

  // A hub in which no goroutine can step, except to poll, is at rest.
  lemma StuckIsAtRest(s: State, unused: string)
    requires Inv(s) && Handshake.IsUuid(unused) && Fresh(s, unused)
    requires forall t :: t in s.th ==> !CanMoveOn(s, t)
    ensures Quiescent(s)
  {
    forall t | t in s.th ensures AtRest(s.th[t]) {
      if !AtRest(s.th[t]) { NoneStuck(s, t, unused); }
    }
  }

  // ---------- The hub with real agents comes to rest and leaves nothing behind ----------

  // From any point i of a composed run, once only goroutines run and until they can do no more: the number
  // of steps is bounded, the hub is then at rest, it lists no SSH-initiated session, and every SSH
  // connection and every tunnel of an SSH-initiated session is closed.
  lemma DrainLeavesNothing(ss: seq<State>, ls: seq<Label>, i: nat, unused: string)
    requires ComposedTrace(ss, ls) && i <= |ls|
    requires forall k :: i <= k < |ls| ==> ls[k].Go?
    requires Handshake.IsUuid(unused) && Fresh(ss[|ls|], unused)
    requires forall t :: t in ss[|ls|].th ==> !CanMoveOn(ss[|ls|], t)
    ensures |ls| - i <= Total(ss[i].th) + 7 * Polls(ss[i..], ls[i..])
    ensures Quiescent(ss[|ls|])
    ensures var h := ss[|ls|].sh.heap;
            && (forall k :: k in h.pending ==> h.pending[k].Tun?)
            && (forall c :: c in ss[|ls|].sh.port ==> c in h.closed)
            && (forall o :: o in h.objs && o.Ssh? ==> Owned(h, o) <= h.closed)
  {
    hide Inv, SpawnInv, OwnerInv, Enabled, Do, Init, Poll, Total, Polls, Quiescent, CanMoveOn, Fresh, FromAgents;
    TraceHeld(ss, ls, i);
    var ss', ls' := ss[i..], ls[i..];
    forall k {:trigger ls'[k]} | 0 <= k < |ls'|
      ensures ls'[k].Go? && Enabled(ss'[k], ls'[k]) && ss'[k + 1] == Do(ss'[k], ls'[k])
    {
      assert ls'[k] == ls[i + k];
    }
    DrainIsBounded(ss', ls');
    TraceInv(ss, ls, |ls|);
    StuckIsAtRest(ss[|ls|], unused);
    NothingLeftBehind(ss, ls, |ls|);
  }
}
