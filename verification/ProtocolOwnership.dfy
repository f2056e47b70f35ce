/**
 Which goroutine is responsible for a session. Every SSH-initiated session in the hub's map has an owner
 that has not finished: its onSSHConn, its watcher, the tunnel handler that bound it, or its forwarding
 pair. The one exception is a session bound by a handler of another agent, which refuses to forward.
*/
module ProtocolOwnership {
  import opened Options
  import opened PendingHeap
  import opened Protocol
  import opened ProtocolInvariant
  import Registry

  type Threads = map<Tid, Pc>

  // A handler starts its watcher, waiter and forwarding pair with its last step, a waiter its splice.
  ghost predicate SpawnOk(th: Threads, id: Id) {
    && (Watch(id) in th || Fwd(id) in th || Wait(id) in th ==> Main(id) in th && th[Main(id)].Done?)
    && (Splice(id) in th ==> Wait(id) in th && th[Wait(id)].EHanded?)
    && (Wait(id) in th && th[Wait(id)].EHanded? ==>
          Splice(id) in th && th[Splice(id)].XPair? && th[Splice(id)].tunnel == th[Wait(id)].tunnel)
  }

  ghost predicate SpawnInv(s: State) {
    && (forall id :: SpawnOk(s.th, id))
    && (forall c :: c in s.sh.port ==> c.Ssh? && Main(c) in s.th)
  }

  ghost predicate OwnedInit(th: Threads, o: Id) {
    Main(o) in th && (th[Main(o)].SSend? || th[Main(o)].SFail? || th[Main(o)].SMark?)
  }

  ghost predicate OwnedOpen(th: Threads, o: Id) {
    || (Main(o) in th && th[Main(o)].SSpawn?)
    || (Watch(o) in th && IsWatch(th[Watch(o)]))
  }

  ghost predicate HoldsBound(th: Threads, o: Id, w: Id) {
    || (Main(w) in th && th[Main(w)].TVerify? && th[Main(w)].o == o)
    || (Fwd(w) in th && th[Fwd(w)].FPair? && th[Fwd(w)].o == o)
  }

  // Someone who has not finished is responsible for session o, which is bound to w.
  ghost predicate OwnedBound(th: Threads, o: Id, w: Id) {
    HoldsBound(th, o, w) && (Fwd(w) in th ==> th[Fwd(w)].FPair? && !th[Fwd(w)].pair.once.Finished?)
  }

  // The handler that bound o to w found that it serves another agent, and gave up.
  ghost predicate Refused(th: Threads, o: Id, w: Id) {
    Main(w) in th && th[Main(w)].TMismatch? && th[Main(w)].o == o
  }

  ghost predicate OwnerOk(th: Threads, o: Id, p: Session) {
    && (p.phase.INIT? ==> OwnedInit(th, o))
    && (p.phase.OPEN_SENT? ==> OwnedOpen(th, o))
    && (p.phase.BOUND? ==> p.tunnel.Some? && (HoldsBound(th, o, p.tunnel.value) || Refused(th, o, p.tunnel.value)))
  }

  ghost predicate OwnerInv(s: State) {
    forall o :: o in s.sh.heap.objs && o.Ssh? ==> OwnerOk(s.th, o, s.sh.heap.objs[o])
  }

  // ---------- Which threads a step starts ----------

  ghost predicate SpawnShape(next: nat, t: Tid, e: Effect) {
    && (forall u :: u in e.spawn ==>
          || (t.Main? && e.pc.Done?
              && ((u == Watch(t.id) && e.spawn[u].WArm?) || u == Fwd(t.id) || (u == Wait(t.id) && e.spawn[u].EWait?)))
          || (t.Wait? && u == Splice(t.id) && e.pc.EHanded? && e.spawn[u].XPair? && e.spawn[u].tunnel == e.pc.tunnel)
          || (t.Dial? && u == Main(Tun(next))))
    && (t.Wait? && e.pc.EHanded? ==> Splice(t.id) in e.spawn)
  }

  ghost predicate Exited(pc: Pc) {
    pc.Done? || pc.EHanded? || pc.EClosed? || pc.TMismatch?
  }

  // A thread that has finished takes no step; a pair keeps its session or tunnel.
  ghost predicate MoveShape(t: Tid, pc: Pc, e: Effect) {
    && !Exited(pc)
    && (t.Splice? ==> pc.XPair? && e.pc.XPair? && e.pc.tunnel == pc.tunnel)
    && (t.Fwd? ==> pc.FPair? && e.pc.FPair? && e.pc.o == pc.o)
  }

  lemma MainShape(sh: Shared, id: Id, pc: Pc, c: Choice)
    requires CanStep(sh, Main(id), pc, c)
    ensures SpawnShape(sh.next, Main(id), Step(sh, Main(id), pc, c))
            && MoveShape(Main(id), pc, Step(sh, Main(id), pc, c))
  {
    hide KeysMatch, BindOutcome, Bind, Cleanup, ReadId, SendOpen, Control;
  }

  lemma OtherShape(sh: Shared, t: Tid, pc: Pc, c: Choice)
    requires CanStep(sh, t, pc, c) && !t.Main?
    ensures SpawnShape(sh.next, t, Step(sh, t, pc, c)) && MoveShape(t, pc, Step(sh, t, pc, c))
  {
    hide KeysMatch, Cleanup, CanSsh, CanTun, SshStep, TunStep;
  }

  lemma StepShape(sh: Shared, t: Tid, pc: Pc, c: Choice)
    requires CanStep(sh, t, pc, c)
    ensures SpawnShape(sh.next, t, Step(sh, t, pc, c)) && MoveShape(t, pc, Step(sh, t, pc, c))
  {
    hide SpawnShape, MoveShape, CanStep, Step;
    if t.Main? { MainShape(sh, t.id, pc, c); } else { OtherShape(sh, t, pc, c); }
  }

  lemma NextIsNoThread(s: State, id: Id)
    requires Inv(s) && id.n == s.sh.next
    ensures Main(id) !in s.th
  {
    assert Main(id) in s.th ==> PcOk(s.sh, Main(id), s.th[Main(id)]);
  }

  lemma SpawnMove(th: Threads, t: Tid, e: Effect, next: nat, id: Id)
    requires SpawnOk(th, id) && t in th
    requires SpawnShape(next, t, e) && MoveShape(t, th[t], e)
    requires Main(Tun(next)) !in th
    ensures SpawnOk(th[t := e.pc] + e.spawn, id)
  {
  }

  lemma SpawnStep(s: State, l: Label)
    requires Inv(s) && SpawnInv(s) && Enabled(s, l)
    ensures SpawnInv(Do(s, l))
  {
    hide Inv, CanStep, Step, SpawnShape, MoveShape, Registry.Enabled, Registry.Do, Fresh;
    NextIsNoThread(s, Tun(s.sh.next));
    NextIsNoThread(s, Ssh(s.sh.next));
    if l.Go? { StepAccounted(s.sh, l.t, s.th[l.t], l.c); }
    forall id ensures SpawnOk(Do(s, l).th, id) {
      assert SpawnOk(s.th, id);
      if l.Go? {
        StepShape(s.sh, l.t, s.th[l.t], l.c);
        SpawnMove(s.th, l.t, Step(s.sh, l.t, s.th[l.t], l.c), s.sh.next, id);
      }
    }
  }

  // ---------- Owners ----------

  // A thread that is neither started nor stepped stays where it was.
  lemma Elsewhere(th: Threads, t: Tid, e: Effect, next: nat, u: Tid)
    requires SpawnShape(next, t, e) && Main(Tun(next)) !in th
    requires u != t && u in th && u.Main?
    ensures u in th[t := e.pc] + e.spawn && (th[t := e.pc] + e.spawn)[u] == th[u]
  {
  }

  // What the handler of session o does to it, one step at a time.
  lemma SshOwns(sh: Shared, o: Id, pc: Pc, c: Choice)
    requires SharedInv(sh) && PcOk(sh, Main(o), pc) && o.Ssh? && IsSsh(pc) && CanSsh(sh, o, pc, c)
    ensures var e := SshStep(sh, o, pc, c); o in e.sh.heap.objs ==>
              && (e.sh.heap.objs[o].phase.INIT? ==> e.pc.SSend? || e.pc.SFail? || e.pc.SMark?)
              && (e.sh.heap.objs[o].phase.OPEN_SENT? ==>
                    e.pc.SSpawn? || (Watch(o) in e.spawn && IsWatch(e.spawn[Watch(o)])))
  {
    hide KeysMatch, Handshake.IsUuid;
    if o in sh.heap.objs { assert Listed(sh.heap, o); }
  }

  // A watcher gives up on a live session only when it is bound.
  lemma WatchOwns(sh: Shared, o: Id, pc: Pc)
    requires SharedInv(sh) && PcOk(sh, Watch(o), pc) && o.Ssh? && IsWatch(pc) && CanWatch(sh, pc)
    ensures var e := WatchStep(sh, pc); e.sh.heap.objs[o].phase.OPEN_SENT? ==> IsWatch(e.pc)
  {
    assert Listed(sh.heap, o);
  }

  lemma TunBindOwns(sh: Shared, w: Id, pc: Pc, c: Choice, o: Id)
    requires pc.TBind? && CanTun(sh, w, pc, c) && o in sh.heap.objs
    ensures var e := TunStep(sh, w, pc, c);
            && o in e.sh.heap.objs
            && (e.sh.heap.objs[o].tunnel != sh.heap.objs[o].tunnel ==> e.pc == TVerify(pc.agent, o))
  {
    hide KeysMatch;
  }

  lemma TunVerifyOwns(sh: Shared, w: Id, pc: Pc, c: Choice)
    requires pc.TVerify? && CanTun(sh, w, pc, c)
    ensures var e := TunStep(sh, w, pc, c);
            || (e.pc.TMismatch? && e.pc.o == pc.o)
            || (Fwd(w) in e.spawn && e.spawn[Fwd(w)].FPair? && e.spawn[Fwd(w)].o == pc.o)
  {
    hide KeysMatch;
  }

  lemma CleanupKeepsTunnels(h: Heap, key: string, phase: Phase, o: Id)
    requires KeysMatch(h) && o in h.objs
    ensures o in Cleanup(h, key, phase).objs && Cleanup(h, key, phase).objs[o].tunnel == h.objs[o].tunnel
  {
  }

  lemma TunKeepsTunnels(sh: Shared, w: Id, pc: Pc, c: Choice, o: Id)
    requires IsTun(pc) && CanTun(sh, w, pc, c) && w.Tun? && o in sh.heap.objs && o.Ssh? && !pc.TBind?
    requires pc.TEntry? ==> pc.o.Tun?
    ensures var h := TunStep(sh, w, pc, c).sh.heap; o in h.objs && h.objs[o].tunnel == sh.heap.objs[o].tunnel
  {
    if pc.TFail? { CleanupKeepsTunnels(sh.heap, pc.key, CLOSED, o); }
    hide KeysMatch, Cleanup, Bind, BindOutcome, ReadId;
  }

  // Only the lookup under the bind's own lock gives an SSH-initiated session a tunnel.
  lemma TunOwns(sh: Shared, w: Id, pc: Pc, c: Choice, o: Id)
    requires SharedInv(sh) && PcOk(sh, Main(w), pc) && w.Tun? && IsTun(pc) && CanTun(sh, w, pc, c)
    requires o in sh.heap.objs && o.Ssh?
    ensures var e := TunStep(sh, w, pc, c);
            && o in e.sh.heap.objs
            && (e.sh.heap.objs[o].tunnel != sh.heap.objs[o].tunnel ==> pc.TBind? && e.pc == TVerify(pc.agent, o))
            && (pc.TVerify? && pc.o == o ==>
                  || (e.pc.TMismatch? && e.pc.o == o)
                  || (Fwd(w) in e.spawn && e.spawn[Fwd(w)].FPair? && e.spawn[Fwd(w)].o == o))
  {
    assert pc.TEntry? ==> pc.o.Tun?;
    hide SharedInv, PcOk;
    if pc.TBind? {
      TunBindOwns(sh, w, pc, c, o);
    } else {
      TunKeepsTunnels(sh, w, pc, c, o);
      if pc.TVerify? { TunVerifyOwns(sh, w, pc, c); }
    }
    hide CanTun, IsTun, TunStep;
  }

  // What a step of thread t does to session o, whichever thread it is.
  ghost predicate Owns(sh: Shared, t: Tid, pc: Pc, e: Effect, o: Id) {
    && (t == Main(o) && o in e.sh.heap.objs ==>
          && (e.sh.heap.objs[o].phase.INIT? ==> e.pc.SSend? || e.pc.SFail? || e.pc.SMark?)
          && (e.sh.heap.objs[o].phase.OPEN_SENT? ==>
                e.pc.SSpawn? || (Watch(o) in e.spawn && IsWatch(e.spawn[Watch(o)]))))
    && (t == Watch(o) && o in e.sh.heap.objs && e.sh.heap.objs[o].phase.OPEN_SENT? ==> IsWatch(e.pc))
    && (t.Main? && o in sh.heap.objs && o in e.sh.heap.objs ==>
          && (e.sh.heap.objs[o].tunnel != sh.heap.objs[o].tunnel ==> e.pc.TVerify? && e.pc.o == o)
          && (pc.TVerify? && pc.o == o ==>
                || (e.pc.TMismatch? && e.pc.o == o)
                || (Fwd(t.id) in e.spawn && e.spawn[Fwd(t.id)].FPair? && e.spawn[Fwd(t.id)].o == o)))
  }

  lemma SshKeepsTunnels(sh: Shared, id: Id, pc: Pc, c: Choice, o: Id)
    requires id.Ssh? && IsSsh(pc) && CanSsh(sh, id, pc, c) && o in sh.heap.objs && (pc.SInsert? ==> id !in sh.heap.objs)
    ensures var h := SshStep(sh, id, pc, c).sh.heap;
            o in h.objs && h.objs[o].tunnel == sh.heap.objs[o].tunnel && !pc.TVerify?
  {
    if pc.SFail? { CleanupKeepsTunnels(sh.heap, pc.key, CLOSED, o); }
    hide KeysMatch, Cleanup;
  }

  lemma InsertsNew(sh: Shared, id: Id, pc: Pc)
    requires id.Ssh? && PcOk(sh, Main(id), pc)
    ensures pc.SInsert? ==> id !in sh.heap.objs
  {
  }

  lemma StepOwns(sh: Shared, t: Tid, pc: Pc, c: Choice, o: Id)
    requires SharedInv(sh) && PcOk(sh, t, pc) && CanStep(sh, t, pc, c) && o.Ssh?
    ensures Owns(sh, t, pc, Step(sh, t, pc, c), o)
  {
    hide SharedInv, PcOk, CanSsh, CanTun, CanWatch, CanWait, CanPair, IsSsh, IsTun, IsWatch, SshStep, TunStep,
         WatchStep, WaitStep, PairStep, DialStep;
    if t.Main? && t.id.Ssh? && o in sh.heap.objs {
      InsertsNew(sh, t.id, pc);
      SshKeepsTunnels(sh, t.id, pc, c, o);
    }
    if t == Main(o) {
      SshOwns(sh, o, pc, c);
    } else if t == Watch(o) {
      WatchOwns(sh, o, pc);
    } else if t.Main? && t.id.Tun? && o in sh.heap.objs {
      TunOwns(sh, t.id, pc, c, o);
    }
  }

  lemma OpenMove(a: Shared, th: Threads, t: Tid, e: Effect, o: Id)
    requires t in th && Guarantee(a, e.sh, t) && SpawnShape(a.next, t, e) && Main(Tun(a.next)) !in th
    requires Owns(a, t, th[t], e, o) && o.Ssh? && o in a.heap.objs && o in e.sh.heap.objs
    requires OwnerOk(th, o, a.heap.objs[o]) && e.sh.heap.objs[o].phase.OPEN_SENT?
    ensures OwnedOpen(th[t := e.pc] + e.spawn, o)
  {
    assert PhaseEdge(a.heap.objs[o].phase, OPEN_SENT);
    hide Guarantee;
  }

  lemma BoundMove(a: Shared, th: Threads, t: Tid, e: Effect, o: Id, w: Id)
    requires t in th && SpawnShape(a.next, t, e) && MoveShape(t, th[t], e) && Main(Tun(a.next)) !in th
    requires Owns(a, t, th[t], e, o) && o in a.heap.objs && o in e.sh.heap.objs
    requires SpawnOk(th, w)
    requires if a.heap.objs[o].tunnel == Some(w) then HoldsBound(th, o, w) || Refused(th, o, w)
             else t == Main(w) && e.sh.heap.objs[o].tunnel == Some(w)
    ensures HoldsBound(th[t := e.pc] + e.spawn, o, w) || Refused(th[t := e.pc] + e.spawn, o, w)
  {
  }

  // An owner outlives a step that leaves its session in the state it owns it in.
  lemma OwnerMove(a: Shared, th: Threads, t: Tid, e: Effect, o: Id)
    requires t in th && Guarantee(a, e.sh, t) && SpawnShape(a.next, t, e) && MoveShape(t, th[t], e)
    requires Main(Tun(a.next)) !in th
    requires Owns(a, t, th[t], e, o) && o.Ssh? && o in a.heap.objs && o in e.sh.heap.objs
    requires Listed(a.heap, o) && Listed(e.sh.heap, o)
    requires OwnerOk(th, o, a.heap.objs[o])
    requires forall w :: SpawnOk(th, w)
    ensures OwnerOk(th[t := e.pc] + e.spawn, o, e.sh.heap.objs[o])
  {
    var p, q := a.heap.objs[o], e.sh.heap.objs[o];
    assert PhaseEdge(p.phase, q.phase);
    if q.phase.INIT? {
      if t != Main(o) { Elsewhere(th, t, e, a.next, Main(o)); }
    } else if q.phase.OPEN_SENT? {
      OpenMove(a, th, t, e, o);
    } else if q.phase.BOUND? {
      assert p.tunnel != q.tunnel ==> t == Main(q.tunnel.value);
      BoundMove(a, th, t, e, o, q.tunnel.value);
    }
  }

  lemma OwnerGo(s: State, t: Tid, c: Choice)
    requires Inv(s) && SpawnInv(s) && OwnerInv(s) && Enabled(s, Go(t, c))
    ensures OwnerInv(Do(s, Go(t, c)))
  {
    var e, s' := Step(s.sh, t, s.th[t], c), Do(s, Go(t, c));
    GoInv(s, t, c);
    NextIsNoThread(s, Tun(s.sh.next));
    StepShape(s.sh, t, s.th[t], c);
    assert SharedInv(s.sh) && SharedInv(s'.sh) && PcOk(s.sh, t, s.th[t]);
    forall o | o in s'.sh.heap.objs && o.Ssh? ensures OwnerOk(s'.th, o, s'.sh.heap.objs[o]) {
      OwnerGoOne(s, t, c, e, o);
    }
  }

  lemma OwnerGoOne(s: State, t: Tid, c: Choice, e: Effect, o: Id)
    requires t in s.th && CanStep(s.sh, t, s.th[t], c) && e == Step(s.sh, t, s.th[t], c)
    requires SharedInv(s.sh) && SharedInv(e.sh) && PcOk(s.sh, t, s.th[t]) && Guarantee(s.sh, e.sh, t)
    requires SpawnShape(s.sh.next, t, e) && MoveShape(t, s.th[t], e) && Main(Tun(s.sh.next)) !in s.th
    requires SpawnInv(s) && OwnerInv(s)
    requires o in e.sh.heap.objs && o.Ssh?
    ensures OwnerOk(s.th[t := e.pc] + e.spawn, o, e.sh.heap.objs[o])
  {
    hide SharedInv, PcOk, Guarantee, CanStep, Step, SpawnShape, MoveShape, Owns, OwnerOk, Listed, SpawnOk;
    StepOwns(s.sh, t, s.th[t], c, o);
    IsListed(e.sh, o);
    if o in s.sh.heap.objs {
      IsListed(s.sh, o);
      assert OwnerOk(s.th, o, s.sh.heap.objs[o]);
      OwnerMove(s.sh, s.th, t, e, o);
    } else {
      NewOwner(s.sh, s.th, t, e, o);
    }
  }

  lemma IsListed(sh: Shared, o: Id)
    requires SharedInv(sh) && o in sh.heap.objs && o.Ssh?
    ensures Listed(sh.heap, o)
  {
  }

  lemma NewOwner(a: Shared, th: Threads, t: Tid, e: Effect, o: Id)
    requires t in th && Guarantee(a, e.sh, t) && SpawnShape(a.next, t, e)
    requires Owns(a, t, th[t], e, o) && o.Ssh? && o !in a.heap.objs && o in e.sh.heap.objs
    ensures OwnerOk(th[t := e.pc] + e.spawn, o, e.sh.heap.objs[o])
  {
    assert t == Main(o) && e.sh.heap.objs[o].phase.INIT?;
  }

  lemma OwnerStep(s: State, l: Label)
    requires Inv(s) && SpawnInv(s) && OwnerInv(s) && Enabled(s, l)
    ensures OwnerInv(Do(s, l))
  {
    if l.Go? {
      OwnerGo(s, l.t, l.c);
    } else {
      var s' := Do(s, l);
      EnvInv(s, l);
      forall o | o in s'.sh.heap.objs && o.Ssh? ensures OwnerOk(s'.th, o, s'.sh.heap.objs[o]) {
        assert OwnerOk(s.th, o, s.sh.heap.objs[o]);
        EnvOwner(s, l, o);
      }
    }
  }

  lemma EnvOwner(s: State, l: Label, o: Id)
    requires Inv(s) && Enabled(s, l) && !l.Go?
    requires o in s.sh.heap.objs && OwnerOk(s.th, o, s.sh.heap.objs[o])
    ensures OwnerOk(Do(s, l).th, o, s.sh.heap.objs[o])
  {
    hide Inv, Enabled, Do;
    var s' := Do(s, l);
    forall u | u in s.th ensures u in s'.th && s'.th[u] == s.th[u] {
      EnvThreads(s, l, u);
    }
  }

  lemma InitOwned(s: State)
    requires Init(s)
    ensures SpawnInv(s) && OwnerInv(s)
  {
  }

  // A pair that has finished its cleanup holds no bound session.
  lemma HolderOwns(s: State, o: Id, w: Id)
    requires Inv(s) && SpawnInv(s) && HoldsBound(s.th, o, w)
    requires o in s.sh.heap.objs && o.Ssh? && s.sh.heap.objs[o].phase.BOUND?
    ensures OwnedBound(s.th, o, w)
  {
    hide Inv;
    if Fwd(w) in s.th {
      ThreadOk(s, Fwd(w));
      assert SpawnOk(s.th, w);
    }
    hide SpawnInv;
  }

  // A live SSH-initiated session has an owner that has not finished, or was refused by the handler that
  // bound it.
  ghost predicate OwnedOk(s: State, o: Id)
    requires o in s.sh.heap.objs
  {
    var p := s.sh.heap.objs[o];
    && (p.phase.INIT? ==> OwnedInit(s.th, o))
    && (p.phase.OPEN_SENT? ==> OwnedOpen(s.th, o))
    && (p.phase.BOUND? ==>
          p.tunnel.Some? && (OwnedBound(s.th, o, p.tunnel.value) || Refused(s.th, o, p.tunnel.value)))
  }

  lemma OwnerIsOwned(s: State, o: Id)
    requires Inv(s) && SpawnInv(s) && OwnerInv(s) && o in s.sh.heap.objs && o.Ssh?
    ensures OwnedOk(s, o)
  {
    hide Inv, SpawnInv;
    var p := s.sh.heap.objs[o];
    assert OwnerOk(s.th, o, p);
    if p.phase.BOUND? && HoldsBound(s.th, o, p.tunnel.value) { HolderOwns(s, o, p.tunnel.value); }
  }

  lemma {:induction false} TraceHeld(ss: seq<State>, ls: seq<Label>, i: nat)
    requires Trace(ss, ls) && i < |ss|
    ensures Inv(ss[i]) && SpawnInv(ss[i]) && OwnerInv(ss[i])
  {
    hide Inv, SpawnInv, OwnerInv, Enabled, Do, Init;
    TraceInv(ss, ls, i);
    if i == 0 {
      InitOwned(ss[0]);
    } else {
      TraceHeld(ss, ls, i - 1);
      assert Enabled(ss[i - 1], ls[i - 1]);
      SpawnStep(ss[i - 1], ls[i - 1]);
      OwnerStep(ss[i - 1], ls[i - 1]);
    }
  }

  // In every state of every run, each SSH-initiated session is owned.
  lemma TraceOwned(ss: seq<State>, ls: seq<Label>, i: nat)
    requires Trace(ss, ls) && i < |ss|
    ensures Inv(ss[i]) && SpawnInv(ss[i]) && OwnerInv(ss[i])
    ensures forall o :: o in ss[i].sh.heap.objs && o.Ssh? ==> OwnedOk(ss[i], o)
  {
    hide Inv, SpawnInv, OwnerInv, OwnedOk, Trace;
    TraceHeld(ss, ls, i);
    forall o | o in ss[i].sh.heap.objs && o.Ssh? ensures OwnedOk(ss[i], o) {
      OwnerIsOwned(ss[i], o);
    }
  }
}
