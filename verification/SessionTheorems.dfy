/**
 Safety of the session protocol over whole runs, with arbitrary clients: any number of tunnel requests,
 with any headers and any first frames, interleaved in any order with everything the hub does.
*/
module SessionTheorems {
  import opened Options
  import opened PendingHeap
  import opened Protocol
  import opened ProtocolInvariant
  import opened ProtocolOwnership
  import Handshake
  import Registry

  // ---------- What holds from one state to every later one ----------

  // The states an SSH-initiated session in state p can be in from then on.
  predicate PhaseLater(p: Phase, q: Phase) {
    match p
    case INIT => true
    case OPEN_SENT => !q.INIT?
    case BOUND => q.BOUND? || Over(q)
    case _ => q == p
  }

  ghost predicate SessionLater(p: Session, q: Session, ssh: bool) {
    && q.key == p.key && q.agent == p.agent
    && (p.tunnel.Some? ==> q.tunnel.Some?)
    && (ssh ==> PhaseLater(p.phase, q.phase) && (p.tunnel.Some? ==> q.tunnel == p.tunnel))
  }

  ghost predicate Later(a: Shared, b: Shared) {
    && (forall o :: o in a.heap.objs ==> o in b.heap.objs && SessionLater(a.heap.objs[o], b.heap.objs[o], o.Ssh?))
    && a.heap.closed <= b.heap.closed
    && Registry.Extends(a.reg, b.reg)
  }

  lemma LaterOfGuarantee(a: Shared, b: Shared, t: Tid)
    requires Guarantee(a, b, t) && SharedInv(a)
    ensures Later(a, b)
  {
    hide SharedInv;
    forall o | o in a.heap.objs ensures o in b.heap.objs && SessionLater(a.heap.objs[o], b.heap.objs[o], o.Ssh?) {
      if o.Ssh? { IsListed(a, o); }
    }
  }

  lemma LaterStep(s: State, l: Label)
    requires Inv(s) && Enabled(s, l)
    ensures Later(s.sh, Do(s, l).sh)
  {
    hide SharedInv, PcOk, CanStep, Step, Fresh, Registry.Enabled, Registry.Do;
    if l.Go? {
      GoInv(s, l.t, l.c);
      LaterOfGuarantee(s.sh, Do(s, l).sh, l.t);
    } else {
      EnvInv(s, l);
      hide SharedInv, Inv, Do, Enabled;
    }
  }

  lemma LaterTransitive(a: Shared, b: Shared, c: Shared)
    requires Later(a, b) && Later(b, c)
    ensures Later(a, c)
  {
    forall o | o in a.heap.objs ensures o in c.heap.objs && SessionLater(a.heap.objs[o], c.heap.objs[o], o.Ssh?) {
      assert SessionLater(a.heap.objs[o], b.heap.objs[o], o.Ssh?);
      assert SessionLater(b.heap.objs[o], c.heap.objs[o], o.Ssh?);
    }
  }

  lemma {:induction false} LaterRun(ss: seq<State>, ls: seq<Label>, i: nat, j: nat)
    requires Trace(ss, ls) && i <= j < |ss|
    ensures Later(ss[i].sh, ss[j].sh)
    decreases j
  {
    hide Inv, Enabled, Do, Init, Later;
    if i == j {
      LaterSame(ss[i].sh);
    } else {
      LaterRun(ss, ls, i, j - 1);
      TraceInv(ss, ls, j - 1);
      assert Enabled(ss[j - 1], ls[j - 1]);
      LaterStep(ss[j - 1], ls[j - 1]);
      LaterTransitive(ss[i].sh, ss[j - 1].sh, ss[j].sh);
    }
  }

  lemma LaterSame(a: Shared)
    ensures Later(a, a)
  {
  }

  // ---------- Map and state ----------

  // In every reachable state an SSH-initiated session is in the hub's map exactly when its state is INIT,
  // OPEN_SENT or BOUND, and out of the map its SSH connection and its tunnel are closed.
  lemma MapStateCorrespondence(ss: seq<State>, ls: seq<Label>, i: nat, o: Id)
    requires Trace(ss, ls) && i < |ss| && o in ss[i].sh.heap.objs && o.Ssh?
    ensures var h := ss[i].sh.heap;
            && (InPending(h, o) <==> Live(h.objs[o].phase))
            && (!InPending(h, o) ==> o in h.closed && (h.objs[o].tunnel.Some? ==> h.objs[o].tunnel.value in h.closed))
  {
    TraceInv(ss, ls, i);
    assert Listed(ss[i].sh.heap, o);
  }

  // Once out of the map it stays out, in the same final state, whatever later uses its ID.
  lemma RemovedForever(ss: seq<State>, ls: seq<Label>, i: nat, j: nat, o: Id)
    requires Trace(ss, ls) && i <= j < |ss| && o in ss[i].sh.heap.objs && o.Ssh? && !InPending(ss[i].sh.heap, o)
    ensures o in ss[j].sh.heap.objs && !InPending(ss[j].sh.heap, o)
    ensures Over(ss[j].sh.heap.objs[o].phase) && ss[j].sh.heap.objs[o].phase == ss[i].sh.heap.objs[o].phase
    ensures o in ss[j].sh.heap.closed
  {
    MapStateCorrespondence(ss, ls, i, o);
    LaterRun(ss, ls, i, j);
    MapStateCorrespondence(ss, ls, j, o);
  }

  // ---------- Progress of a session's state ----------

  // Each step takes an SSH-initiated session along one of six edges or leaves its state alone, and sets its
  // tunnel only together with OPEN_SENT to BOUND; OPEN_SENT means that the tunnel is not set yet.
  lemma StateProgress(ss: seq<State>, ls: seq<Label>, i: nat, o: Id)
    requires Trace(ss, ls) && i < |ls| && o in ss[i].sh.heap.objs && o.Ssh?
    ensures o in ss[i + 1].sh.heap.objs
    ensures var p, q := ss[i].sh.heap.objs[o], ss[i + 1].sh.heap.objs[o];
            && PhaseEdge(p.phase, q.phase)
            && (p.tunnel != q.tunnel <==> p.phase.OPEN_SENT? && q.phase.BOUND?)
            && (p.phase.OPEN_SENT? ==> p.tunnel.None?)
  {
    hide Inv, Enabled, Do, Init, SharedInv;
    TraceInv(ss, ls, i);
    TraceInv(ss, ls, i + 1);
    assert Enabled(ss[i], ls[i]) && ss[i + 1] == Do(ss[i], ls[i]);
    StepHeap(ss[i], ls[i], o);
    IsListedIn(ss[i], o);
    IsListedIn(ss[i + 1], o);
  }

  lemma IsListedIn(s: State, o: Id)
    requires Inv(s) && o in s.sh.heap.objs && o.Ssh?
    ensures Listed(s.sh.heap, o)
  {
    IsListed(s.sh, o);
  }

  lemma StepHeap(s: State, l: Label, o: Id)
    requires Inv(s) && Enabled(s, l) && o in s.sh.heap.objs && o.Ssh?
    ensures o in Do(s, l).sh.heap.objs
    ensures var p, q := s.sh.heap.objs[o], Do(s, l).sh.heap.objs[o];
            PhaseEdge(p.phase, q.phase) && (p.tunnel != q.tunnel ==> p.phase.OPEN_SENT? && q.phase.BOUND?)
  {
    if l.Go? {
      GoInv(s, l.t, l.c);
      assert HeapGuarantee(s.sh.heap, Do(s, l).sh.heap, l.t);
    } else {
      EnvInv(s, l);
    }
  }

  // The second test of bindTunnel's guard never decides: for an SSH-initiated session the bind succeeds
  // exactly when the session is listed and in OPEN_SENT.
  lemma BindGuard(ss: seq<State>, ls: seq<Label>, i: nat, o: Id)
    requires Trace(ss, ls) && i < |ss| && o in ss[i].sh.heap.objs && o.Ssh?
    ensures KeysMatch(ss[i].sh.heap)
    ensures var h := ss[i].sh.heap;
            BindOutcome(h, h.objs[o].key) == Success(o) <==> h.objs[o].phase.OPEN_SENT?
  {
    TraceInv(ss, ls, i);
    IsListed(ss[i].sh, o);
  }

  // ---------- At most one bind, one forwarding pair, one cleanup ----------

  // Step i is a bindTunnel that succeeds on session o, by the handler of websocket w.
  ghost predicate Binds(s: State, l: Label, o: Id, w: Id) {
    && l.Go? && l.t == Main(w) && Main(w) in s.th && s.th[Main(w)].TBind?
    && KeysMatch(s.sh.heap) && BindOutcome(s.sh.heap, s.th[Main(w)].key) == Success(o)
  }

  lemma BindSets(s: State, l: Label, o: Id, w: Id)
    requires Inv(s) && Enabled(s, l) && Binds(s, l, o, w)
    ensures o in Do(s, l).sh.heap.objs && Do(s, l).sh.heap.objs[o].tunnel == Some(w)
  {
    assert CanStep(s.sh, l.t, s.th[l.t], l.c);
  }

  // Over a whole run bindTunnel succeeds at most once on each session, however many handlers race.
  lemma BindAtMostOnce(ss: seq<State>, ls: seq<Label>, i: nat, j: nat, o: Id, w: Id, w': Id)
    requires Trace(ss, ls) && i < |ls| && j < |ls|
    requires Binds(ss[i], ls[i], o, w) && Binds(ss[j], ls[j], o, w')
    ensures i == j
  {
    if i < j {
      BindTwice(ss, ls, i, j, o, w, w');
    } else if j < i {
      BindTwice(ss, ls, j, i, o, w', w);
    }
  }

  lemma BindTwice(ss: seq<State>, ls: seq<Label>, i: nat, j: nat, o: Id, w: Id, w': Id)
    requires Trace(ss, ls) && i < j < |ls| && Binds(ss[i], ls[i], o, w)
    ensures !Binds(ss[j], ls[j], o, w')
  {
    hide Inv, Enabled, Do, Init, Binds;
    TraceInv(ss, ls, i);
    TraceInv(ss, ls, j);
    assert Enabled(ss[i], ls[i]) && Enabled(ss[j], ls[j]);
    BindSets(ss[i], ls[i], o, w);
    LaterRun(ss, ls, i + 1, j);
    BindNeedsNone(ss[j], ls[j], o, w');
  }

  lemma BindNeedsNone(s: State, l: Label, o: Id, w: Id)
    requires o in s.sh.heap.objs && s.sh.heap.objs[o].tunnel.Some?
    ensures !Binds(s, l, o, w)
  {
  }

  // No websocket is ever the tunnel of two sessions.
  lemma DistinctTunnels(ss: seq<State>, ls: seq<Label>, i: nat, o1: Id, o2: Id)
    requires Trace(ss, ls) && i < |ss| && o1 in ss[i].sh.heap.objs && o2 in ss[i].sh.heap.objs
    requires ss[i].sh.heap.objs[o1].tunnel.Some? && ss[i].sh.heap.objs[o1].tunnel == ss[i].sh.heap.objs[o2].tunnel
    ensures o1 == o2
  {
    TraceInv(ss, ls, i);
  }

  // Step i starts forwarding for session o over websocket w.
  ghost predicate Forwards(s: State, l: Label, o: Id, w: Id) {
    && l.Go? && l.t == Main(w) && Main(w) in s.th && s.th[Main(w)].TVerify? && s.th[Main(w)].o == o
    && o in s.sh.heap.objs && s.sh.heap.objs[o].agent == s.th[Main(w)].agent
  }

  lemma ForwardEnds(s: State, l: Label, o: Id, w: Id)
    requires Inv(s) && Enabled(s, l) && Forwards(s, l, o, w) && o.Ssh?
    ensures s.sh.heap.objs[o].tunnel == Some(w)
    ensures Main(w) in Do(s, l).th && Do(s, l).th[Main(w)].Done?
  {
    ForwardNeedsBound(s, o, w);
  }

  lemma {:induction false} FinishedForever(ss: seq<State>, ls: seq<Label>, i: nat, j: nat, t: Tid)
    requires Trace(ss, ls) && i <= j < |ss| && t in ss[i].th && Exited(ss[i].th[t])
    ensures t in ss[j].th && ss[j].th[t] == ss[i].th[t]
    decreases j
  {
    hide Inv, SpawnInv, OwnerInv, Enabled, Do, Init, Exited;
    if i < j {
      FinishedForever(ss, ls, i, j - 1, t);
      TraceHeld(ss, ls, j - 1);
      assert Enabled(ss[j - 1], ls[j - 1]);
      FinishedStays(ss[j - 1], ls[j - 1], t);
    }
  }

  lemma FinishedStays(s: State, l: Label, t: Tid)
    requires Inv(s) && SpawnInv(s) && Enabled(s, l) && t in s.th && Exited(s.th[t])
    ensures t in Do(s, l).th && Do(s, l).th[t] == s.th[t]
  {
    hide Inv, CanStep, Step, Fresh, Registry.Enabled, Registry.Do;
    if l.Go? {
      NextIsNoThread(s, Tun(s.sh.next));
      StepShape(s.sh, l.t, s.th[l.t], l.c);
      assert t.Dial? || SpawnOk(s.th, t.id);
      hide SpawnInv;
    } else {
      EnvThreads(s, l, t);
    }
  }

  // Each SSH-initiated session gets at most one forwarding pair in a whole run.
  lemma ForwardAtMostOnce(ss: seq<State>, ls: seq<Label>, i: nat, j: nat, o: Id, w: Id, w': Id)
    requires Trace(ss, ls) && i < |ls| && j < |ls| && o.Ssh?
    requires Forwards(ss[i], ls[i], o, w) && Forwards(ss[j], ls[j], o, w')
    ensures i == j && w == w'
  {
    if i < j {
      ForwardTwice(ss, ls, i, j, o, w, w');
    } else if j < i {
      ForwardTwice(ss, ls, j, i, o, w', w);
    }
  }

  lemma ForwardTwice(ss: seq<State>, ls: seq<Label>, i: nat, j: nat, o: Id, w: Id, w': Id)
    requires Trace(ss, ls) && i < j < |ls| && o.Ssh? && Forwards(ss[i], ls[i], o, w)
    ensures !Forwards(ss[j], ls[j], o, w')
  {
    hide Inv, Enabled, Do, Init;
    TraceInv(ss, ls, i);
    TraceInv(ss, ls, j);
    assert Enabled(ss[i], ls[i]) && Enabled(ss[j], ls[j]);
    ForwardEnds(ss[i], ls[i], o, w);
    LaterRun(ss, ls, i, j);
    FinishedForever(ss, ls, i + 1, j, Main(w));
    if Forwards(ss[j], ls[j], o, w') { ForwardNeedsBound(ss[j], o, w'); }
  }

  lemma ForwardNeedsBound(s: State, o: Id, w: Id)
    requires Inv(s) && Main(w) in s.th && s.th[Main(w)].TVerify? && s.th[Main(w)].o == o && o.Ssh?
    ensures o in s.sh.heap.objs && s.sh.heap.objs[o].tunnel == Some(w)
  {
    assert PcOk(s.sh, Main(w), s.th[Main(w)]);
  }

  // Step i enters the once-only cleanup of the forwarding pair of websocket w.
  ghost predicate CleansUp(s: State, l: Label, w: Id) {
    && l.Go? && l.t == Fwd(w) && Fwd(w) in s.th && s.th[Fwd(w)].FPair? && s.th[Fwd(w)].pair.once.Idle?
    && (l.c.Left? || l.c.Right?)
  }

  ghost predicate Cleaning(s: State, w: Id) {
    Fwd(w) in s.th && s.th[Fwd(w)].FPair? && !s.th[Fwd(w)].pair.once.Idle?
  }

  lemma CleaningStays(s: State, l: Label, w: Id)
    requires Inv(s) && SpawnInv(s) && Enabled(s, l)
    requires Cleaning(s, w) || CleansUp(s, l, w)
    ensures Cleaning(Do(s, l), w)
  {
    hide Inv;
    if l.Go? {
      hide CanStep, Step, SpawnInv;
      NextIsNoThread(s, Tun(s.sh.next));
      StepShape(s.sh, l.t, s.th[l.t], l.c);
      CleaningMoves(s, l.t, l.c, w);
    } else {
      hide CanStep, Step, SpawnInv, Registry.Do, Registry.Enabled, Fresh;
      EnvThreads(s, l, Fwd(w));
    }
  }

  // A pair's pair of copies only moves forward, and no step starts the pair again.
  lemma CleaningMoves(s: State, t: Tid, c: Choice, w: Id)
    requires SpawnInv(s) && Enabled(s, Go(t, c)) && MoveShape(t, s.th[t], Step(s.sh, t, s.th[t], c))
    requires SpawnShape(s.sh.next, t, Step(s.sh, t, s.th[t], c)) && Main(Tun(s.sh.next)) !in s.th
    requires Cleaning(s, w) || CleansUp(s, Go(t, c), w)
    ensures Cleaning(Do(s, Go(t, c)), w)
  {
    hide Fresh, KeysMatch, CanSsh, CanTun, SshStep, TunStep, WatchStep, WaitStep, DialStep;
    assert SpawnOk(s.th, w);
    hide SpawnInv;
    if t == Fwd(w) { PairGoesOn(s.sh, w, s.th[t], c); }
    hide Step, CanStep, PairStep;
  }

  lemma PairGoesOn(sh: Shared, w: Id, pc: Pc, c: Choice)
    requires CanPair(sh, pc, c) && (!pc.pair.once.Idle? || !c.Ok?)
    ensures var e := PairStep(sh, w, pc, c); (e.pc.FPair? <==> pc.FPair?) && (e.pc.FPair? ==> !e.pc.pair.once.Idle?)
  {
  }

  lemma {:induction false} CleaningForever(ss: seq<State>, ls: seq<Label>, i: nat, j: nat, w: Id)
    requires Trace(ss, ls) && i <= j < |ss| && Cleaning(ss[i], w)
    ensures Cleaning(ss[j], w)
    decreases j
  {
    hide Inv, SpawnInv, OwnerInv, Enabled, Do, Init, Cleaning, CleansUp;
    if i < j {
      CleaningForever(ss, ls, i, j - 1, w);
      TraceHeld(ss, ls, j - 1);
      assert Enabled(ss[j - 1], ls[j - 1]);
      CleaningStays(ss[j - 1], ls[j - 1], w);
    }
  }

  lemma CleaningOnce(s: State, l: Label, w: Id)
    requires Cleaning(s, w)
    ensures !CleansUp(s, l, w)
  {
  }

  // Both copy goroutines reach cleanup, but its body runs at most once per forwarding pair.
  lemma CleanupAtMostOnce(ss: seq<State>, ls: seq<Label>, i: nat, j: nat, w: Id)
    requires Trace(ss, ls) && i <= j < |ls| && CleansUp(ss[i], ls[i], w) && CleansUp(ss[j], ls[j], w)
    ensures i == j
  {
    hide Inv, SpawnInv, OwnerInv, Enabled, Do, Init, Cleaning, CleansUp;
    if i < j {
      TraceHeld(ss, ls, i);
      assert Enabled(ss[i], ls[i]);
      CleaningStays(ss[i], ls[i], w);
      CleaningForever(ss, ls, i + 1, j, w);
      CleaningOnce(ss[j], ls[j], w);
    }
  }

  // ---------- End-to-end routing ----------

  // The header X-Agent that websocket w came with, and its first frame.
  ghost predicate CameAs(sh: Shared, w: Id, agent: string, frame: Wire) {
    && w in sh.hello && sh.hello[w].agent == agent
    && w in sh.wire && sh.wire[w] == frame
  }

  // OPEN messages of session o went only to control connections of this agent.
  ghost predicate OpenedOnlyTo(sh: Shared, o: Id, agent: string) {
    forall m :: 0 <= m < |sh.sent| && sh.sent[m].sender == o ==>
      sh.sent[m].ws in sh.reg.owner && sh.reg.owner[sh.sent[m].ws] == agent
  }

  // Whenever a forwarding pair exists for an SSH connection, that connection was accepted on a port q whose
  // agent is the session's; OPEN went only to that agent's control connections; the tunnel is the one bound
  // to the session, it came with X-Agent ports[q], and its first frame is BuildHandshake of the session's ID.
  lemma EndToEndRouting(ss: seq<State>, ls: seq<Label>, i: nat, w: Id, o: Id)
    requires Trace(ss, ls) && i < |ss|
    requires Fwd(w) in ss[i].th && ss[i].th[Fwd(w)].FPair? && ss[i].th[Fwd(w)].o == o && o.Ssh?
    ensures var sh := ss[i].sh;
            && o in sh.heap.objs && o in sh.port && sh.port[o] in sh.reg.book.ports
            && var agent, key := sh.reg.book.ports[sh.port[o]], sh.heap.objs[o].key;
               && sh.heap.objs[o].agent == agent
               && OpenedOnlyTo(sh, o, agent)
               && sh.heap.objs[o].tunnel == Some(w)
               && CameAs(sh, w, agent, Wire(true, Handshake.Frame(sh.sha, key)))
  {
    TraceInv(ss, ls, i);
    Routed(ss[i], w);
  }

  lemma Routed(s: State, w: Id)
    requires Inv(s) && Fwd(w) in s.th && s.th[Fwd(w)].o.Ssh?
    ensures s.th[Fwd(w)].FPair?
    ensures var sh, o := s.sh, s.th[Fwd(w)].o;
            && o in sh.heap.objs && PortOf(sh, o, sh.heap.objs[o].agent)
            && OpenedOnlyTo(sh, o, sh.heap.objs[o].agent)
            && sh.heap.objs[o].tunnel == Some(w)
            && CameAs(sh, w, sh.heap.objs[o].agent, Wire(true, Handshake.Frame(sh.sha, sh.heap.objs[o].key)))
  {
    assert PcOk(s.sh, Fwd(w), s.th[Fwd(w)]);
    assert SshOk(s.sh, s.th[Fwd(w)].o);
  }

  // ---------- No orphans ----------

  // Nothing runs any more: every handler, watcher, waiter and dialer has returned, and every pair has ended
  // both copies and its cleanup.
  ghost predicate AtRest(pc: Pc) {
    || Exited(pc)
    || ((pc.FPair? || pc.XPair?) && !pc.pair.left && !pc.pair.right && pc.pair.once.Finished?)
  }

  ghost predicate Quiescent(s: State) {
    forall t :: t in s.th ==> AtRest(s.th[t])
  }

  // The websocket bound to session o belongs to a handler that found the session to be another agent's.
  ghost predicate BoundByStranger(s: State, o: Id) {
    && o in s.sh.heap.objs && s.sh.heap.objs[o].phase.BOUND? && s.sh.heap.objs[o].tunnel.Some?
    && Refused(s.th, o, s.sh.heap.objs[o].tunnel.value)
  }

  // When the hub is at rest, an SSH-initiated session is still listed exactly if a tunnel handler of another
  // agent bound it; any other one has its SSH connection and its tunnel closed.
  lemma ListedAtRest(ss: seq<State>, ls: seq<Label>, i: nat, o: Id)
    requires Trace(ss, ls) && i < |ss| && Quiescent(ss[i]) && o in ss[i].sh.heap.objs && o.Ssh?
    ensures InPending(ss[i].sh.heap, o) <==> BoundByStranger(ss[i], o)
    ensures !BoundByStranger(ss[i], o) ==> Owned(ss[i].sh.heap, o) <= ss[i].sh.heap.closed
  {
    TraceHeld(ss, ls, i);
    IsListedIn(ss[i], o);
    if Live(ss[i].sh.heap.objs[o].phase) { RestOrphan(ss[i], o); }
  }

  lemma RestOrphan(s: State, o: Id)
    requires Inv(s) && OwnerInv(s) && Quiescent(s) && o in s.sh.heap.objs && o.Ssh? && Live(s.sh.heap.objs[o].phase)
    ensures BoundByStranger(s, o)
  {
    hide Inv;
    var p := s.sh.heap.objs[o];
    assert OwnerOk(s.th, o, p);
    hide OwnerInv;
    if p.tunnel.Some? { RestUnowned(s, o, p.tunnel.value); }
  }

  // A pair that has finished owns no live session.
  lemma RestUnowned(s: State, o: Id, w: Id)
    requires Inv(s) && Quiescent(s) && o in s.sh.heap.objs && o.Ssh? && Live(s.sh.heap.objs[o].phase)
    ensures !HoldsBound(s.th, o, w)
  {
    if Fwd(w) in s.th {
      assert AtRest(s.th[Fwd(w)]) && PcOk(s.sh, Fwd(w), s.th[Fwd(w)]);
    }
    hide Inv;
  }

  // Every SSH connection the hub accepted has by then been closed, or belongs to such a session.
  lemma ClosedAtRest(ss: seq<State>, ls: seq<Label>, i: nat, c: Id)
    requires Trace(ss, ls) && i < |ss| && Quiescent(ss[i]) && c in ss[i].sh.port
    ensures c in ss[i].sh.heap.closed || BoundByStranger(ss[i], c)
  {
    TraceHeld(ss, ls, i);
    var s := ss[i];
    assert Main(c) in s.th && AtRest(s.th[Main(c)]);
    assert PcOk(s.sh, Main(c), s.th[Main(c)]);
    if c in s.sh.heap.objs {
      ListedAtRest(ss, ls, i, c);
    }
  }
}
