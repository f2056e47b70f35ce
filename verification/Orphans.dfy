/**
 Which cleanup ends an SSH-initiated session, and exactly which requests leave one listed when the hub has
 come to rest: those that the code binds before it finds that they came from another agent.
*/
module Orphans {
  import opened Options
  import opened PendingHeap
  import opened Protocol
  import opened ProtocolInvariant
  import opened ProtocolOwnership
  import opened SessionTheorems
  import opened SessionCleanups
  import opened TunnelHistory
  import Registry

  // ---------- Who ends a session ----------

  // The goroutine belongs to session o: its onSSHConn, its watcher, or its forwarding pair.
  ghost predicate BelongsTo(s: State, t: Tid, o: Id) {
    t == Main(o) || t == Watch(o) || (t.Fwd? && t in s.th && s.th[t].FPair? && s.th[t].o == o)
  }

  // The session whose goroutine t is.
  function SessionOf(t: Tid, pc: Pc): Id
    requires (t.Fwd? && pc.FPair?) || t.Main? || t.Watch? || t.Wait?
  {
    if t.Fwd? then pc.o else t.id
  }

  // A goroutine cleans up the ID of its own session.
  lemma CleanerHolds(sh: Shared, t: Tid, pc: Pc, c: Choice)
    requires CanStep(sh, t, pc, c) && PcOk(sh, t, pc) && IsCleanup(pc, c)
    ensures (t.Fwd? && pc.FPair?) || t.Main? || t.Watch? || t.Wait?
    ensures SessionOf(t, pc) in sh.heap.objs && sh.heap.objs[SessionOf(t, pc)].key == pc.key
    ensures t.Wait? ==> t.id.Tun?
  {
    hide KeysMatch, Gone, Begun, FrameOk, HelloOk, RefOk, Unbound, CanMove;
  }

  // Under the ID of a listed SSH-initiated session there is no other session.
  lemma OneOwner(sh: Shared, o: Id, x: Id)
    requires SharedInv(sh) && o.Ssh? && o in sh.heap.objs && x in sh.heap.objs
             && sh.heap.objs[x].key == sh.heap.objs[o].key
    requires InPending(sh.heap, o)
    ensures x == o
  {
    IssuedTo(sh, o);
    IsListed(sh, o);
    assert x.Tun? ==> Gone(sh, sh.heap.objs[x].key);
    if x.Ssh? { IssuedTo(sh, x); }
    hide SharedInv;
  }

  // A cleanup, by whatever ID, ends an SSH-initiated session only if its goroutine belongs to that session.
  lemma CleanupEndsOnlyItsOwn(ss: seq<State>, ls: seq<Label>, j: nat, key: string)
    requires Trace(ss, ls) && j < |ls| && Cleans(ss[j], ls[j], key)
    requires key in ss[j].sh.heap.pending && ss[j].sh.heap.pending[key].Ssh?
    ensures BelongsTo(ss[j], ls[j].t, ss[j].sh.heap.pending[key])
  {
    hide Inv, Do, SharedInv, CanStep;
    TraceInv(ss, ls, j);
    assert Enabled(ss[j], ls[j]);
    CleanerIn(ss[j], ls[j], ss[j].sh.heap.pending[key]);
  }

  lemma CleanerIn(s: State, l: Label, o: Id)
    requires Inv(s) && Enabled(s, l) && l.Go? && IsCleanup(s.th[l.t], l.c) && o.Ssh?
    requires s.th[l.t].key in s.sh.heap.pending && s.sh.heap.pending[s.th[l.t].key] == o
    ensures BelongsTo(s, l.t, o)
  {
    ListedKey(s, s.th[l.t].key);
    hide Inv, SharedInv, PcOk, CanStep;
    ThreadOk(s, l.t);
    CleanerHolds(s.sh, l.t, s.th[l.t], l.c);
    OneOwner(s.sh, o, SessionOf(l.t, s.th[l.t]));
  }

  lemma ListedKey(s: State, key: string)
    requires Inv(s) && key in s.sh.heap.pending
    ensures SharedInv(s.sh) && s.sh.heap.pending[key] in s.sh.heap.objs
    ensures s.sh.heap.objs[s.sh.heap.pending[key]].key == key
  {
  }

  // A live SSH-initiated session ends in no other way than by a cleanup of its ID.
  lemma EndsByCleanup(s: State, l: Label, o: Id)
    requires Inv(s) && Enabled(s, l) && o in s.sh.heap.objs && o.Ssh? && Live(s.sh.heap.objs[o].phase)
    requires o in Do(s, l).sh.heap.objs && Over(Do(s, l).sh.heap.objs[o].phase)
    ensures l.Go? && l.t in s.th && IsCleanup(s.th[l.t], l.c) && s.th[l.t].key == s.sh.heap.objs[o].key
    ensures s.th[l.t].key in s.sh.heap.pending && s.sh.heap.pending[s.th[l.t].key] == o
  {
    var key := s.sh.heap.objs[o].key;
    hide Inv, Do, Enabled, Cleans, Inserts, IsCleanup;
    IsListedIn(s, o);
    StepInv(s, l);
    IsListedIn(Do(s, l), o);
    KeyStays(s, l, o);
    StepEntry(s, l, key);
    InsertsOverNone(s, l, o);
    CleansIs(s, l, key);
  }

  lemma KeyStays(s: State, l: Label, o: Id)
    requires Inv(s) && Enabled(s, l) && o in s.sh.heap.objs && o in Do(s, l).sh.heap.objs
    ensures Do(s, l).sh.heap.objs[o].key == s.sh.heap.objs[o].key
    ensures Do(s, l).sh.heap.objs[o].agent == s.sh.heap.objs[o].agent
  {
    hide Inv, Enabled, Do;
    LaterStep(s, l);
  }

  lemma CleansIs(s: State, l: Label, key: string)
    ensures Cleans(s, l, key) ==> l.Go? && l.t in s.th && IsCleanup(s.th[l.t], l.c) && s.th[l.t].key == key
  {
  }

  // No session is entered over a live SSH-initiated one.
  lemma InsertsOverNone(s: State, l: Label, o: Id)
    requires Inv(s) && Enabled(s, l) && o in s.sh.heap.objs && o.Ssh? && Live(s.sh.heap.objs[o].phase)
    ensures !Inserts(s, l, s.sh.heap.objs[o].key)
  {
    hide Inv, Do, CanStep;
    if l.Go? {
      ThreadOk(s, l.t);
      KeyIssued(s, o);
      InsertsFresh(s.sh, l.t, s.th[l.t]);
      hide PcOk;
    }
  }

  lemma KeyIssued(s: State, o: Id)
    requires Inv(s) && o in s.sh.heap.objs && o.Ssh?
    ensures s.sh.heap.objs[o].key in s.sh.issued && s.sh.issued[s.sh.heap.objs[o].key] == o
  {
    IssuedTo(s.sh, o);
  }

  lemma InsertsFresh(sh: Shared, t: Tid, pc: Pc)
    requires PcOk(sh, t, pc)
    ensures pc.TCreate? ==> Gone(sh, pc.key)
  {
    hide Gone, Begun, FrameOk, HelloOk, RefOk, Unbound;
  }

  // ---------- Bound by a stranger ----------

  // A request that came with an X-Agent header other than the agent of session o binds o, while the watcher
  // of o has not decided to time it out.
  ghost predicate StrangerBinds(s: State, l: Label, o: Id, w: Id) {
    && Binds(s, l, o, w)
    && w in s.sh.hello && o in s.sh.heap.objs && s.sh.hello[w].agent != s.sh.heap.objs[o].agent
    && !TimingOut(s, o)
  }

  // The watcher of o has seen it unbound and is about to end it.
  ghost predicate TimingOut(s: State, o: Id) {
    Watch(o) in s.th && s.th[Watch(o)].WClean?
  }

  // Session o is bound to w, whose handler will refuse it or has done so.
  ghost predicate Stuck(s: State, o: Id, w: Id) {
    && o in s.sh.heap.objs && s.sh.heap.objs[o].phase.BOUND? && s.sh.heap.objs[o].tunnel == Some(w)
    && Main(w) in s.th && RefusesNext(s.th[Main(w)], o, s.sh.heap.objs[o].agent)
    && !TimingOut(s, o)
  }

  ghost predicate RefusesNext(pc: Pc, o: Id, agent: string) {
    (pc.TVerify? && pc.o == o && pc.agent != agent) || (pc.TMismatch? && pc.o == o)
  }

  // Nobody belongs to a session that is stuck, so nobody ends it.
  lemma StuckStaysBound(s: State, l: Label, o: Id, w: Id)
    requires Inv(s) && SpawnInv(s) && Enabled(s, l) && Stuck(s, o, w) && o.Ssh?
    ensures o in Do(s, l).sh.heap.objs && Do(s, l).sh.heap.objs[o].phase.BOUND?
    ensures Do(s, l).sh.heap.objs[o].tunnel == Some(w)
  {
    hide Inv, SpawnInv, Do, Enabled, RefusesNext, IsCleanup;
    StepHeap(s, l, o);
    if Over(Do(s, l).sh.heap.objs[o].phase) {
      EndsByCleanup(s, l, o);
      CleanerIn(s, l, o);
      assert l == Go(l.t, l.c);
      StuckHasNoCleaner(s, l.t, l.c, o, w);
    }
  }

  lemma StuckHasNoCleaner(s: State, t: Tid, c: Choice, o: Id, w: Id)
    requires Inv(s) && SpawnInv(s) && Stuck(s, o, w) && o.Ssh? && t in s.th && BelongsTo(s, t, o)
    requires Enabled(s, Go(t, c))
    ensures !IsCleanup(s.th[t], c)
  {
    assert SpawnOk(s.th, w);
    ThreadOk(s, t);
    hide Inv, SpawnInv, Enabled, SpawnOk;
  }

  lemma RefusalMoves(sh: Shared, w: Id, pc: Pc, c: Choice, o: Id)
    requires CanStep(sh, Main(w), pc, c) && o in sh.heap.objs && RefusesNext(pc, o, sh.heap.objs[o].agent)
    ensures RefusesNext(Step(sh, Main(w), pc, c).pc, o, sh.heap.objs[o].agent)
  {
    hide KeysMatch;
  }

  lemma WatchMoves(sh: Shared, o: Id, pc: Pc, c: Choice)
    requires CanStep(sh, Watch(o), pc, c) && PcOk(sh, Watch(o), pc)
    requires o.Ssh? && o in sh.heap.objs && sh.heap.objs[o].phase.BOUND?
    ensures !Step(sh, Watch(o), pc, c).pc.WClean?
  {
    hide KeysMatch, Cleanup;
  }

  lemma StuckStays(s: State, l: Label, o: Id, w: Id)
    requires Inv(s) && SpawnInv(s) && Enabled(s, l) && Stuck(s, o, w) && o.Ssh?
    ensures Stuck(Do(s, l), o, w)
  {
    hide Inv, SpawnInv, CanStep, Step, PcOk, RefusesNext, Registry.Enabled, Registry.Do, Fresh;
    StuckStaysBound(s, l, o, w);
    KeyStays(s, l, o);
    if l.Go? {
      NextIsNoThread(s, Tun(s.sh.next));
      StepShape(s.sh, l.t, s.th[l.t], l.c);
      ThreadOk(s, l.t);
      if l.t == Main(w) {
        RefusalMoves(s.sh, w, s.th[l.t], l.c, o);
      } else if l.t == Watch(o) {
        WatchMoves(s.sh, o, s.th[l.t], l.c);
      }
    } else {
      EnvStuck(s, l, o, w);
    }
  }

  lemma EnvStuck(s: State, l: Label, o: Id, w: Id)
    requires Inv(s) && Enabled(s, l) && !l.Go? && Main(w) in s.th && !TimingOut(s, o)
    ensures Main(w) in Do(s, l).th && Do(s, l).th[Main(w)] == s.th[Main(w)] && !TimingOut(Do(s, l), o)
  {
    EnvThreads(s, l, Main(w));
    hide Inv, Registry.Enabled, Registry.Do, Fresh;
  }

  lemma {:induction false} StuckForever(ss: seq<State>, ls: seq<Label>, i: nat, j: nat, o: Id, w: Id)
    requires Trace(ss, ls) && i <= j < |ss| && Stuck(ss[i], o, w) && o.Ssh?
    ensures Stuck(ss[j], o, w)
    decreases j
  {
    hide Inv, SpawnInv, OwnerInv, Enabled, Do, Init, Stuck;
    if i < j {
      StuckForever(ss, ls, i, j - 1, o, w);
      TraceHeld(ss, ls, j - 1);
      assert Enabled(ss[j - 1], ls[j - 1]);
      StuckStays(ss[j - 1], ls[j - 1], o, w);
    }
  }

  lemma StrangerSticks(s: State, l: Label, o: Id, w: Id)
    requires Inv(s) && SpawnInv(s) && Enabled(s, l) && StrangerBinds(s, l, o, w) && o.Ssh?
    ensures Stuck(Do(s, l), o, w)
  {
    hide Inv, SpawnInv, CanStep, Step, Registry.Enabled, Registry.Do, Fresh, KeysMatch;
    ThreadOk(s, Main(w));
    HelloAtBind(s, w);
    BindSets(s, l, o, w);
    KeyStays(s, l, o);
    BindGoesOn(s.sh, w, s.th[Main(w)], l.c, o);
    hide PcOk;
  }

  lemma HelloAtBind(s: State, w: Id)
    requires Inv(s) && Main(w) in s.th && s.th[Main(w)].TBind?
    ensures w in s.sh.hello && s.sh.hello[w].agent == s.th[Main(w)].agent
  {
    ThreadOk(s, Main(w));
    hide Inv;
  }

  lemma BindGoesOn(sh: Shared, w: Id, pc: Pc, c: Choice, o: Id)
    requires CanStep(sh, Main(w), pc, c) && pc.TBind? && KeysMatch(sh.heap)
             && BindOutcome(sh.heap, pc.key) == Success(o)
    ensures var e := Step(sh, Main(w), pc, c); e.pc == TVerify(pc.agent, o) && e.spawn == map[]
    ensures var h := Step(sh, Main(w), pc, c).sh.heap; o in h.objs && h.objs[o].phase.BOUND?
  {
    hide KeysMatch;
  }

  // ---------- The watcher's last word ----------

  // The session is over or its watcher is about to end it.
  ghost predicate Doomed(s: State, o: Id) {
    o in s.sh.heap.objs && (Over(s.sh.heap.objs[o].phase) || TimingOut(s, o))
  }

  lemma TimesOut(s: State, l: Label, o: Id)
    requires Inv(s) && Enabled(s, l) && l.Go? && l.t == Watch(o) && s.th[l.t].WClean? && o.Ssh? && o in s.sh.heap.objs
    ensures o in Do(s, l).sh.heap.objs && Over(Do(s, l).sh.heap.objs[o].phase)
  {
    hide Do, Cleans, Inserts, Inv, CanStep, Step, Registry.Enabled, Registry.Do, Fresh;
    StepHeap(s, l, o);
    StepInv(s, l);
    IsListedIn(Do(s, l), o);
    KeyStays(s, l, o);
    WatcherCleans(s, l, o);
    StepEntry(s, l, s.th[l.t].key);
  }

  lemma WatcherCleans(s: State, l: Label, o: Id)
    requires Inv(s) && l.Go? && l.t == Watch(o) && l.t in s.th && s.th[l.t].WClean?
    ensures o in s.sh.heap.objs && s.sh.heap.objs[o].key == s.th[l.t].key
    ensures Cleans(s, l, s.th[l.t].key) && !Inserts(s, l, s.th[l.t].key)
  {
    ThreadOk(s, l.t);
    hide Inv;
  }

  lemma DoomedStays(s: State, l: Label, o: Id)
    requires Inv(s) && SpawnInv(s) && Enabled(s, l) && Doomed(s, o) && o.Ssh?
    ensures Doomed(Do(s, l), o)
  {
    hide Inv, SpawnInv, CanStep, Step, Registry.Enabled, Registry.Do, Fresh;
    StepHeap(s, l, o);
    if TimingOut(s, o) {
      if l.Go? {
        NextIsNoThread(s, Tun(s.sh.next));
        StepShape(s.sh, l.t, s.th[l.t], l.c);
        WatchIsOld(s, l.t, o);
        if l.t == Watch(o) { TimesOut(s, l, o); }
      } else {
        EnvThreads(s, l, Watch(o));
      }
    }
  }

  // The watcher of o is running, so its onSSHConn has returned and starts no other one.
  lemma WatchIsOld(s: State, t: Tid, o: Id)
    requires SpawnInv(s) && Watch(o) in s.th && t in s.th
    ensures t == Main(o) ==> s.th[t].Done?
  {
    assert SpawnOk(s.th, o);
  }

  lemma {:induction false} DoomedForever(ss: seq<State>, ls: seq<Label>, i: nat, j: nat, o: Id)
    requires Trace(ss, ls) && i <= j < |ss| && Doomed(ss[i], o) && o.Ssh?
    ensures Doomed(ss[j], o)
    decreases j
  {
    hide Inv, SpawnInv, OwnerInv, Enabled, Do, Init, Doomed;
    if i < j {
      DoomedForever(ss, ls, i, j - 1, o);
      TraceHeld(ss, ls, j - 1);
      assert Enabled(ss[j - 1], ls[j - 1]);
      DoomedStays(ss[j - 1], ls[j - 1], o);
    }
  }

  // ---------- Main result ----------

  lemma HelloStays(s: State, l: Label)
    requires Inv(s) && Enabled(s, l)
    ensures forall c :: c in s.sh.hello ==> c in Do(s, l).sh.hello && Do(s, l).sh.hello[c] == s.sh.hello[c]
  {
    hide Do, Enabled;
    if l.Go? {
      GoInv(s, l.t, l.c);
    } else {
      EnvInv(s, l);
    }
    hide Inv, HeapGuarantee, Registry.Extends;
  }

  lemma {:induction false} HelloRun(ss: seq<State>, ls: seq<Label>, i: nat, j: nat, w: Id)
    requires Trace(ss, ls) && i <= j < |ss| && w in ss[i].sh.hello
    ensures w in ss[j].sh.hello && ss[j].sh.hello[w] == ss[i].sh.hello[w]
    decreases j
  {
    hide Inv, Enabled, Do, Init;
    if i < j {
      HelloRun(ss, ls, i, j - 1, w);
      TraceInv(ss, ls, j - 1);
      assert Enabled(ss[j - 1], ls[j - 1]);
      HelloStays(ss[j - 1], ls[j - 1]);
    }
  }

  // A websocket is given to an SSH-initiated session by bindTunnel only, to a handler whose header is known.
  lemma GivenByBind(s: State, l: Label, o: Id, w: Id)
    requires Inv(s) && Gives(s, l, o, w) && o.Ssh?
    ensures Binds(s, l, o, w) && w in s.sh.hello && o in s.sh.heap.objs
  {
    ThreadOk(s, Main(w));
    hide Inv;
  }

  lemma RefusedIsStranger(s: State, o: Id, w: Id)
    requires Inv(s) && Refused(s.th, o, w)
    ensures o in s.sh.heap.objs && w in s.sh.hello && s.sh.hello[w].agent != s.sh.heap.objs[o].agent
  {
    ThreadOk(s, Main(w));
    hide Inv;
  }

  // A listed session at rest was bound by a stranger.
  lemma OrphanWasBound(ss: seq<State>, ls: seq<Label>, i: nat, o: Id)
    requires Trace(ss, ls) && i < |ss| && Quiescent(ss[i]) && o in ss[i].sh.heap.objs && o.Ssh?
    requires InPending(ss[i].sh.heap, o)
    ensures exists k, w :: 0 <= k < i && StrangerBinds(ss[k], ls[k], o, w)
  {
    hide Inv, SpawnInv, OwnerInv, Enabled, Do, Init, Refused, Gives, Binds, SessionLater;
    ListedAtRest(ss, ls, i, o);
    TraceInv(ss, ls, i);
    IsListedIn(ss[i], o);
    var w := ss[i].sh.heap.objs[o].tunnel.value;
    RefusedIsStranger(ss[i], o, w);
    TunnelWasGiven(ss, ls, i, o, w);
    var k :| 0 <= k < i && Gives(ss[k], ls[k], o, w);
    TraceInv(ss, ls, k);
    GivenByBind(ss[k], ls[k], o, w);
    HelloRun(ss, ls, k, i, w);
    AgentRun(ss, ls, k, i, o);
    NotTimingOut(ss, ls, k, i, o);
    assert StrangerBinds(ss[k], ls[k], o, w);
  }

  lemma AgentRun(ss: seq<State>, ls: seq<Label>, k: nat, i: nat, o: Id)
    requires Trace(ss, ls) && k <= i < |ss| && o in ss[k].sh.heap.objs
    ensures o in ss[i].sh.heap.objs && ss[i].sh.heap.objs[o].agent == ss[k].sh.heap.objs[o].agent
  {
    hide Trace;
    LaterRun(ss, ls, k, i);
  }

  // A watcher that was about to end the session has done so in a hub at rest.
  lemma NotTimingOut(ss: seq<State>, ls: seq<Label>, k: nat, i: nat, o: Id)
    requires Trace(ss, ls) && k <= i < |ss| && o in ss[k].sh.heap.objs && o.Ssh? && Quiescent(ss[i])
    requires o in ss[i].sh.heap.objs && Live(ss[i].sh.heap.objs[o].phase)
    ensures !TimingOut(ss[k], o)
  {
    hide Trace;
    if TimingOut(ss[k], o) {
      DoomedForever(ss, ls, k, i, o);
    }
  }

  // When the hub has come to rest, an SSH-initiated session is still listed if and only if some request of
  // another agent bound it, at a moment when its watcher had not yet decided to time it out.
  lemma OrphansOnlyByStrangers(ss: seq<State>, ls: seq<Label>, i: nat, o: Id)
    requires Trace(ss, ls) && i < |ss| && Quiescent(ss[i]) && o in ss[i].sh.heap.objs && o.Ssh?
    ensures InPending(ss[i].sh.heap, o) <==> exists k, w :: 0 <= k < i && StrangerBinds(ss[k], ls[k], o, w)
    ensures !InPending(ss[i].sh.heap, o) ==> Owned(ss[i].sh.heap, o) <= ss[i].sh.heap.closed
  {
    hide Inv, SpawnInv, OwnerInv, Enabled, Do, Init, StrangerBinds;
    ListedAtRest(ss, ls, i, o);
    if InPending(ss[i].sh.heap, o) { OrphanWasBound(ss, ls, i, o); }
    forall k, w | 0 <= k < i && StrangerBinds(ss[k], ls[k], o, w) ensures InPending(ss[i].sh.heap, o) {
      TraceHeld(ss, ls, k);
      assert Enabled(ss[k], ls[k]) && ss[k + 1] == Do(ss[k], ls[k]);
      StrangerSticks(ss[k], ls[k], o, w);
      StuckForever(ss, ls, k + 1, i, o, w);
      TraceInv(ss, ls, i);
      IsListedIn(ss[i], o);
    }
  }

  // Every SSH connection the hub accepted has by then been closed, or belongs to a session so bound.
  lemma ConnectionsClosed(ss: seq<State>, ls: seq<Label>, i: nat, c: Id)
    requires Trace(ss, ls) && i < |ss| && Quiescent(ss[i]) && c in ss[i].sh.port
    ensures c in ss[i].sh.heap.closed || exists k, w :: 0 <= k < i && StrangerBinds(ss[k], ls[k], c, w)
  {
    hide Trace, Quiescent, StrangerBinds;
    ClosedAtRest(ss, ls, i, c);
    if c !in ss[i].sh.heap.closed {
      PortsAreSsh(ss, ls, i, c);
      ListedAtRest(ss, ls, i, c);
      OrphansOnlyByStrangers(ss, ls, i, c);
    }
  }

  lemma PortsAreSsh(ss: seq<State>, ls: seq<Label>, i: nat, c: Id)
    requires Trace(ss, ls) && i < |ss| && c in ss[i].sh.port
    ensures c.Ssh?
  {
    hide Inv, OwnerInv;
    TraceHeld(ss, ls, i);
  }
}
