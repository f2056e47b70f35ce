/**
 The state of every session, of either kind and in every run, is what the last step that wrote it wrote: INIT on
 entry, OPEN_SENT after OPEN, BOUND with a tunnel, and CLOSED or TIMEOUT by the goroutine that cleaned it up.
*/
module SessionStates {
  import opened Options
  import opened PendingHeap
  import opened Protocol
  import opened ProtocolInvariant
  import opened ProtocolOwnership
  import opened SessionCleanups
  import opened Orphans
  import opened ThreadHistory
  import Handshake
  import Registry

  // Handlers and forwarding pairs close a session, watchers and waiters time it out.
  function FinalState(t: Tid): Phase {
    if t.Main? || t.Fwd? then CLOSED else TIMEOUT
  }

  // Some goroutine's cleanup finds o listed.
  ghost predicate CleansSession(sh: Shared, pc: Pc, c: Choice, o: Id) {
    IsCleanup(pc, c) && pc.key in sh.heap.pending && sh.heap.pending[pc.key] == o
  }

  // The handler of a websocket makes it the tunnel of o.
  ghost predicate BindsSession(sh: Shared, pc: Pc, o: Id) {
    || (pc.TBind? && KeysMatch(sh.heap) && BindOutcome(sh.heap, pc.key) == Success(o))
    || (pc.TEntry? && pc.o == o)
  }

  // What a step of t at pc writes into the state of session o.
  ghost function WrittenBy(sh: Shared, t: Tid, pc: Pc, c: Choice, o: Id): Option<Phase> {
    if t == Main(o) && ((pc.SInsert? && c.New?) || pc.TCreate?) then Some(INIT)
    else if t == Main(o) && (pc.SMark? || pc.TMark?) then Some(OPEN_SENT)
    else if t.Main? && BindsSession(sh, pc, o) then Some(BOUND)
    else if CleansSession(sh, pc, c, o) then Some(FinalState(t))
    else None
  }

  ghost function Written(s: State, l: Label, o: Id): Option<Phase> {
    if l.Go? && l.t in s.th then WrittenBy(s.sh, l.t, s.th[l.t], l.c, o) else None
  }

  // Session o has state p in b if it is new or was written, and otherwise the one it had in a.
  ghost predicate Becomes(a: Heap, b: Heap, o: Id, p: Option<Phase>) {
    && (o in a.objs ==> o in b.objs)
    && (o in b.objs ==> (p.Some? && b.objs[o].phase == p.value)
                        || (p.None? && o in a.objs && b.objs[o].phase == a.objs[o].phase))
  }

  lemma CleanupWrites(h: Heap, key: string, phase: Phase, o: Id)
    requires KeysMatch(h)
    ensures Becomes(h, Cleanup(h, key, phase), o,
                    if key in h.pending && h.pending[key] == o then Some(phase) else None)
  {
  }

  lemma BindWrites(h: Heap, key: string, w: Id, o: Id)
    requires KeysMatch(h)
    ensures Becomes(h, Bind(h, key, w), o, if BindOutcome(h, key) == Success(o) then Some(BOUND) else None)
  {
  }

  lemma SshWrites(sh: Shared, id: Id, pc: Pc, c: Choice, o: Id)
    requires IsSsh(pc) && CanSsh(sh, id, pc, c)
    ensures Becomes(sh.heap, SshStep(sh, id, pc, c).sh.heap, o, WrittenBy(sh, Main(id), pc, c, o))
  {
    hide KeysMatch, Cleanup, Control, SendOk, Handshake.IsUuid, BindOutcome;
    if pc.SFail? { CleanupWrites(sh.heap, pc.key, CLOSED, o); }
  }

  lemma TunWrites(sh: Shared, id: Id, pc: Pc, c: Choice, o: Id)
    requires IsTun(pc) && CanTun(sh, id, pc, c)
    ensures Becomes(sh.heap, TunStep(sh, id, pc, c).sh.heap, o, WrittenBy(sh, Main(id), pc, c, o))
  {
    hide KeysMatch, Cleanup, Bind, BindOutcome, ReadId, Control, SendOk;
    if pc.TFail? {
      CleanupWrites(sh.heap, pc.key, CLOSED, o);
    } else if pc.TBind? {
      BindWrites(sh.heap, pc.key, id, o);
      TunBindHeap(sh, id, pc, c);
      hide TunStep;
    } else if pc.TEntry? || pc.TCreate? || pc.TMark? {
      TunWritesOne(sh, id, pc, c, o);
      hide TunStep, WrittenBy;
    } else {
      TunWritesNone(sh, id, pc, c, o);
      hide TunStep;
    }
  }

  lemma TunWritesOne(sh: Shared, id: Id, pc: Pc, c: Choice, o: Id)
    requires (pc.TEntry? || pc.TCreate? || pc.TMark?) && CanTun(sh, id, pc, c)
    ensures Becomes(sh.heap, TunStep(sh, id, pc, c).sh.heap, o, WrittenBy(sh, Main(id), pc, c, o))
  {
    hide KeysMatch, BindOutcome;
  }

  lemma TunWritesNone(sh: Shared, id: Id, pc: Pc, c: Choice, o: Id)
    requires IsTun(pc) && CanTun(sh, id, pc, c)
    requires !pc.TFail? && !pc.TBind? && !pc.TEntry? && !pc.TCreate? && !pc.TMark?
    ensures TunStep(sh, id, pc, c).sh.heap.objs == sh.heap.objs && WrittenBy(sh, Main(id), pc, c, o).None?
  {
    hide KeysMatch, BindOutcome, ReadId, Control, SendOk, CanTun;
  }

  lemma TunBindHeap(sh: Shared, id: Id, pc: Pc, c: Choice)
    requires pc.TBind? && CanTun(sh, id, pc, c)
    ensures TunStep(sh, id, pc, c).sh.heap.objs == Bind(sh.heap, pc.key, id).objs
  {
    hide KeysMatch, Attach, BindOutcome;
  }

  lemma PairWrites(sh: Shared, t: Tid, pc: Pc, c: Choice, o: Id)
    requires CanPair(sh, pc, c) && ((t.Fwd? && pc.FPair?) || (t.Splice? && pc.XPair?))
    ensures Becomes(sh.heap, PairStep(sh, t.id, pc, c).sh.heap, o, WrittenBy(sh, t, pc, c, o))
  {
    hide KeysMatch, Cleanup, BindOutcome;
    if pc.FPair? && c.Ok? && pc.pair.once.Unlist? {
      CleanupWrites(sh.heap, pc.key, CLOSED, o);
    } else {
      PairWritesNone(sh, t, pc, c, o);
      hide PairStep, WrittenBy, CanPair;
    }
  }

  lemma PairWritesNone(sh: Shared, t: Tid, pc: Pc, c: Choice, o: Id)
    requires CanPair(sh, pc, c) && ((t.Fwd? && pc.FPair?) || (t.Splice? && pc.XPair?))
    requires !(pc.FPair? && c.Ok? && pc.pair.once.Unlist?)
    ensures PairStep(sh, t.id, pc, c).sh.heap.objs == sh.heap.objs && WrittenBy(sh, t, pc, c, o).None?
  {
    if pc.FPair? { ForwardKeeps(sh, t.id, pc, c); }
    hide KeysMatch, Cleanup, BindOutcome;
    if pc.FPair? { hide PairStep, CanPair; }
  }

  lemma ForwardKeeps(sh: Shared, id: Id, pc: Pc, c: Choice)
    requires CanPair(sh, pc, c) && pc.FPair? && !(c.Ok? && pc.pair.once.Unlist?)
    ensures PairStep(sh, id, pc, c).sh.heap.objs == sh.heap.objs
  {
    hide KeysMatch, Cleanup;
  }

  lemma OtherWrites(sh: Shared, t: Tid, pc: Pc, c: Choice, o: Id)
    requires CanStep(sh, t, pc, c) && (t.Watch? || t.Wait? || t.Dial?)
    ensures Becomes(sh.heap, Step(sh, t, pc, c).sh.heap, o, WrittenBy(sh, t, pc, c, o))
  {
    hide KeysMatch, Cleanup, BindOutcome, CanSsh, CanTun, CanPair, SshStep, TunStep, PairStep;
    if pc.WClean? || pc.EClean? { CleanupWrites(sh.heap, pc.key, TIMEOUT, o); }
  }

  lemma StepWrites(sh: Shared, t: Tid, pc: Pc, c: Choice, o: Id)
    requires CanStep(sh, t, pc, c)
    ensures Becomes(sh.heap, Step(sh, t, pc, c).sh.heap, o, WrittenBy(sh, t, pc, c, o))
  {
    hide WrittenBy, Becomes, CanSsh, CanTun, IsSsh, IsTun, SshStep, TunStep, PairStep;
    if t.Main? && t.id.Ssh? {
      SshWrites(sh, t.id, pc, c, o);
    } else if t.Main? {
      TunWrites(sh, t.id, pc, c, o);
    } else if t.Fwd? || t.Splice? {
      PairWrites(sh, t, pc, c, o);
    } else {
      OtherWrites(sh, t, pc, c, o);
    }
  }

  lemma StateStep(s: State, l: Label, o: Id)
    requires Enabled(s, l)
    ensures Becomes(s.sh.heap, Do(s, l).sh.heap, o, Written(s, l, o))
  {
    hide CanStep, Step, WrittenBy, Registry.Enabled, Registry.Do, Fresh;
    if l.Go? {
      StepWrites(s.sh, l.t, s.th[l.t], l.c, o);
      hide Becomes;
      assert Do(s, l).sh.heap == Step(s.sh, l.t, s.th[l.t], l.c).sh.heap;
    } else {
      assert Do(s, l).sh.heap == s.sh.heap;
    }
  }

  // ---------- Over a run ----------

  // Step k writes p into the state of o, and no step between it and i writes it again.
  ghost predicate LastWrite(ss: seq<State>, ls: seq<Label>, k: nat, i: nat, o: Id, p: Phase)
    requires i <= |ls| < |ss|
  {
    && k < i && Written(ss[k], ls[k], o) == Some(p)
    && forall n {:trigger ls[n]} :: k < n < i ==> Written(ss[n], ls[n], o).None?
  }

  // The state of a session is what the last step that wrote it wrote.
  lemma {:induction false} StateIsLastWrite(ss: seq<State>, ls: seq<Label>, i: nat, o: Id)
    requires Trace(ss, ls) && i <= |ls| < |ss| && o in ss[i].sh.heap.objs
    ensures exists k :: LastWrite(ss, ls, k, i, o, ss[i].sh.heap.objs[o].phase)
  {
    hide Enabled, Do, Written;
    if i > 0 {
      var j := i - 1;
      assert Enabled(ss[j], ls[j]) && ss[i] == Do(ss[j], ls[j]);
      StateStep(ss[j], ls[j], o);
      if Written(ss[j], ls[j], o).None? {
        StateIsLastWrite(ss, ls, j, o);
        var k :| LastWrite(ss, ls, k, j, o, ss[j].sh.heap.objs[o].phase);
        assert LastWrite(ss, ls, k, i, o, ss[i].sh.heap.objs[o].phase);
      } else {
        assert LastWrite(ss, ls, j, i, o, ss[i].sh.heap.objs[o].phase);
      }
    }
  }

  // ---------- Which final state ----------

  // The send of OPEN by the handler of o reports an error, or there is no control connection to send it on.
  ghost predicate FailsToSend(s: State, l: Label, o: Id) {
    && StepOf(l, Main(o)) && Main(o) in s.th && (s.th[Main(o)].SSend? || s.th[Main(o)].TSend?)
    && (!l.c.Ok? || Control(s.sh, s.th[Main(o)].ref).None?)
  }

  lemma FailFollows(sh: Shared, id: Id, pc: Pc, c: Choice)
    requires CanStep(sh, Main(id), pc, c)
    ensures var e := Step(sh, Main(id), pc, c);
            e.pc.SFail? || e.pc.TFail? ==> (pc.SSend? || pc.TSend?) && (!c.Ok? || Control(sh, pc.ref).None?)
  {
    hide KeysMatch, Cleanup, Bind, BindOutcome, ReadId, SendOpen, Control;
  }

  // A handler that is about to clean up has failed to send.
  lemma FailedBefore(ss: seq<State>, ls: seq<Label>, i: nat, o: Id)
    requires Trace(ss, ls) && i <= |ls| < |ss| && Main(o) in ss[i].th
    requires ss[i].th[Main(o)].SFail? || ss[i].th[Main(o)].TFail?
    ensures exists k :: 0 <= k < i && FailsToSend(ss[k], ls[k], o)
  {
    hide Trace, Inv, SpawnInv, PutBy, CanStep, Step, Fresh;
    var k := OwnStep(ss, ls, i, Main(o));
    GoNext(ss[k], ls[k], Main(o));
    FailFollows(ss[k].sh, o, ss[k].th[Main(o)], ls[k].c);
    hide Enabled, Do;
    assert FailsToSend(ss[k], ls[k], o);
  }

  ghost predicate EndsNow(s: State, l: Label, o: Id)
    requires Enabled(s, l)
  {
    && o in s.sh.heap.objs && Live(s.sh.heap.objs[o].phase)
    && o in Do(s, l).sh.heap.objs && Over(Do(s, l).sh.heap.objs[o].phase)
  }

  lemma EnderIs(s: State, l: Label, o: Id)
    requires Inv(s) && Enabled(s, l) && EndsNow(s, l, o) && o.Ssh?
    ensures l.Go? && l.t in s.th && Do(s, l).sh.heap.objs[o].phase == FinalState(l.t)
    ensures || (l.t == Main(o) && s.th[l.t].SFail?) || l.t == Watch(o)
            || (l.t.Fwd? && s.th[l.t].FPair? && s.th[l.t].o == o)
  {
    hide Inv, SharedInv, Do, CanStep, Registry.Enabled, Fresh;
    EndsByCleanup(s, l, o);
    CleanerIn(s, l, o);
    StateStep(s, l, o);
    WritesFinal(s.sh, l.t, s.th[l.t], l.c, o);
    ThreadOk(s, l.t);
    CleanersOf(s.sh, l.t, s.th[l.t], l.c);
  }

  lemma WritesFinal(sh: Shared, t: Tid, pc: Pc, c: Choice, o: Id)
    requires CleansSession(sh, pc, c, o)
    ensures WrittenBy(sh, t, pc, c, o) == Some(FinalState(t))
  {
  }

  lemma CleanersOf(sh: Shared, t: Tid, pc: Pc, c: Choice)
    requires PcOk(sh, t, pc) && IsCleanup(pc, c)
    ensures t.Main? && t.id.Ssh? ==> pc.SFail?
  {
    hide Gone, Begun, FrameOk, HelloOk, RefOk, Unbound, Holding, PortOf;
  }

  // An SSH-initiated session ends CLOSED if and only if its onSSHConn gives up after a failed send or its
  // forwarding pair finishes, and TIMEOUT if and only if its watcher gives up.
  lemma FinalStateIff(ss: seq<State>, ls: seq<Label>, i: nat, o: Id)
    requires Trace(ss, ls) && i < |ls| < |ss| && Enabled(ss[i], ls[i]) && EndsNow(ss[i], ls[i], o) && o.Ssh?
    ensures ls[i].Go? && ls[i].t in ss[i].th && o in ss[i + 1].sh.heap.objs
    ensures ss[i + 1].sh.heap.objs[o].phase == CLOSED
            <==> (ls[i].t == Main(o) && exists k :: 0 <= k < i && FailsToSend(ss[k], ls[k], o))
                 || (ls[i].t.Fwd? && ss[i].th[ls[i].t].FPair? && ss[i].th[ls[i].t].o == o)
    ensures ss[i + 1].sh.heap.objs[o].phase == TIMEOUT <==> ls[i].t == Watch(o)
  {
    hide Inv, Enabled, Do, FailsToSend;
    TraceInv(ss, ls, i);
    assert ss[i + 1] == Do(ss[i], ls[i]);
    hide Trace;
    EnderIs(ss[i], ls[i], o);
    if ls[i].t == Main(o) { FailedBefore(ss, ls, i, o); }
  }
}
