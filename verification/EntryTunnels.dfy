/**
 Which websockets the hub closes. Every tunnel websocket it accepts is closed in a hub at rest, except one that
 was written into an entry session and that nobody took out of it again.
*/
module EntryTunnels {
  import opened Options
  import opened PendingHeap
  import opened Protocol
  import opened ProtocolInvariant
  import opened ProtocolOwnership
  import opened SessionTheorems
  import opened SessionCleanups
  import opened TunnelHistory
  import opened EntryTheorems
  import Registry

  // The upgrade of request w to a websocket succeeds.
  ghost predicate Accepts(s: State, l: Label, w: Id) {
    l == Go(Main(w), Ok) && w.Tun? && Main(w) in s.th && s.th[Main(w)].TAccept?
  }

  // The handler of websocket w writes it into the entry session that it has looked up.
  ghost predicate Parks(s: State, l: Label, w: Id) {
    l.Go? && l.t == Main(w) && Main(w) in s.th && s.th[Main(w)].TEntry?
  }

  // A waiter hands its client over to tunnel w.
  ghost predicate HandedTo(s: State, l: Label, w: Id) {
    l.Go? && l.t.Wait? && l.t in s.th && s.th[l.t].ETunnel? && HasTunnel(s, s.th[l.t].o, w)
  }

  // A cleanup finds a listed session with tunnel w.
  ghost predicate CleansTunnel(s: State, l: Label, w: Id) {
    && l.Go? && l.t in s.th && IsCleanup(s.th[l.t], l.c) && s.th[l.t].key in s.sh.heap.pending
    && HasTunnel(s, s.sh.heap.pending[s.th[l.t].key], w)
  }

  ghost predicate PicksUp(s: State, l: Label, w: Id) {
    HandedTo(s, l, w) || CleansTunnel(s, l, w)
  }

  // ---------- Who closes a websocket ----------

  // One of the goroutines of w itself closes it.
  ghost predicate ClosesOwn(t: Tid, pc: Pc, e: Effect, w: Id) {
    || (t == Main(w) && !pc.TEntry? && (e.pc.Done? || e.pc.TMismatch?))
    || t == Wait(w) || t == Fwd(w) || t == Splice(w)
  }

  ghost predicate SplicedTo(pc: Pc, w: Id) {
    pc.XPair? && pc.tunnel == w
  }

  ghost predicate Cleaned(sh: Shared, pc: Pc, c: Choice, w: Id) {
    && IsCleanup(pc, c) && pc.key in sh.heap.pending && sh.heap.pending[pc.key] in sh.heap.objs
    && sh.heap.objs[sh.heap.pending[pc.key]].tunnel == Some(w)
  }

  lemma CleanupCloses(h: Heap, key: string, phase: Phase, w: Id)
    requires KeysMatch(h) && w.Tun? && w !in h.closed && w in Cleanup(h, key, phase).closed
    ensures key in h.pending && h.pending[key] in h.objs && h.objs[h.pending[key]].tunnel == Some(w)
  {
  }

  lemma SshCloses(sh: Shared, id: Id, pc: Pc, c: Choice, w: Id)
    requires IsSsh(pc) && CanSsh(sh, id, pc, c) && id.Ssh? && w.Tun? && w !in sh.heap.closed
    requires w in SshStep(sh, id, pc, c).sh.heap.closed
    ensures Cleaned(sh, pc, c, w)
  {
    hide KeysMatch, Cleanup, Control, SendOk;
    if pc.SFail? { CleanupCloses(sh.heap, pc.key, CLOSED, w); }
  }

  lemma TunCloses(sh: Shared, id: Id, pc: Pc, c: Choice, w: Id)
    requires IsTun(pc) && CanTun(sh, id, pc, c) && w.Tun? && w !in sh.heap.closed
    requires w in TunStep(sh, id, pc, c).sh.heap.closed
    ensures Cleaned(sh, pc, c, w) || ClosesOwn(Main(id), pc, TunStep(sh, id, pc, c), w)
  {
    hide KeysMatch, Cleanup, BindOutcome, ReadId, Control, SendOk;
    if pc.TFail? { CleanupCloses(sh.heap, pc.key, CLOSED, w); }
  }

  lemma PairCloses(sh: Shared, id: Id, pc: Pc, c: Choice, w: Id)
    requires CanPair(sh, pc, c) && w.Tun? && w !in sh.heap.closed && w in PairStep(sh, id, pc, c).sh.heap.closed
    ensures Cleaned(sh, pc, c, w) || w == id || SplicedTo(pc, w)
  {
    hide KeysMatch, Cleanup, Cleaned;
    if pc.FPair? { ForwardCloses(sh, id, pc, c, w); }
  }

  lemma ForwardCloses(sh: Shared, id: Id, pc: Pc, c: Choice, w: Id)
    requires CanPair(sh, pc, c) && pc.FPair? && w.Tun? && w !in sh.heap.closed
    requires w in PairStep(sh, id, pc, c).sh.heap.closed
    ensures Cleaned(sh, pc, c, w) || w == id
  {
    hide KeysMatch, Cleanup, Cleaned;
    if c.Ok? && pc.pair.once.Unlist? { ForwardCleans(sh, id, pc, w); }
  }

  lemma ForwardCleans(sh: Shared, id: Id, pc: Pc, w: Id)
    requires CanPair(sh, pc, Ok) && pc.FPair? && pc.pair.once.Unlist? && w.Tun? && w !in sh.heap.closed
    requires w in PairStep(sh, id, pc, Ok).sh.heap.closed
    ensures Cleaned(sh, pc, Ok, w)
  {
    hide KeysMatch, Cleanup;
    CleanupCloses(sh.heap, pc.key, CLOSED, w);
  }

  lemma OtherCloses(sh: Shared, t: Tid, pc: Pc, c: Choice, w: Id)
    requires CanStep(sh, t, pc, c) && (t.Watch? || t.Wait? || t.Dial?) && w.Tun? && w !in sh.heap.closed
    requires w in Step(sh, t, pc, c).sh.heap.closed
    ensures Cleaned(sh, pc, c, w) || t == Wait(w)
  {
    hide KeysMatch, Cleanup, CanSsh, CanTun, CanPair, SshStep, TunStep, PairStep;
    if pc.WClean? || pc.EClean? { CleanupCloses(sh.heap, pc.key, TIMEOUT, w); }
  }

  lemma StepCloses(sh: Shared, t: Tid, pc: Pc, c: Choice, w: Id)
    requires CanStep(sh, t, pc, c) && w.Tun? && w !in sh.heap.closed && w in Step(sh, t, pc, c).sh.heap.closed
    ensures Cleaned(sh, pc, c, w) || ClosesOwn(t, pc, Step(sh, t, pc, c), w) || (t.Splice? && SplicedTo(pc, w))
  {
    hide Cleaned, CanSsh, CanTun, CanPair, IsSsh, IsTun, SshStep, TunStep, PairStep;
    if t.Main? && t.id.Ssh? {
      SshCloses(sh, t.id, pc, c, w);
    } else if t.Main? {
      TunCloses(sh, t.id, pc, c, w);
    } else if t.Fwd? || t.Splice? {
      PairCloses(sh, t.id, pc, c, w);
    } else {
      OtherCloses(sh, t, pc, c, w);
    }
  }

  // Step m closes w.
  ghost predicate ClosesAt(ss: seq<State>, m: nat, w: Id)
    requires m + 1 < |ss|
  {
    w !in ss[m].sh.heap.closed && w in ss[m + 1].sh.heap.closed
  }

  lemma {:induction false} WasClosed(ss: seq<State>, ls: seq<Label>, i: nat, w: Id)
    requires Trace(ss, ls) && i < |ss| && w in ss[i].sh.heap.closed
    ensures exists m :: 0 <= m < i && ClosesAt(ss, m, w)
  {
    hide Enabled, Do;
    if i > 0 {
      if w in ss[i - 1].sh.heap.closed { WasClosed(ss, ls, i - 1, w); } else { assert ClosesAt(ss, i - 1, w); }
    }
  }

  // ---------- A websocket that was written into an entry session ----------

  // Its handler has returned and started nothing.
  ghost predicate GaveAway(th: Threads, w: Id) {
    Main(w) in th && th[Main(w)].Done? && Wait(w) !in th && Fwd(w) !in th && Splice(w) !in th
  }

  lemma ParkGives(s: State, l: Label, w: Id)
    requires Inv(s) && SpawnInv(s) && Enabled(s, l) && Parks(s, l, w)
    ensures GaveAway(Do(s, l).th, w)
  {
    ThreadOk(s, Main(w));
    assert SpawnOk(s.th, w);
    hide Inv, SpawnInv, KeysMatch;
  }

  lemma GaveAwayStays(s: State, l: Label, w: Id)
    requires Inv(s) && SpawnInv(s) && Enabled(s, l) && GaveAway(s.th, w)
    ensures GaveAway(Do(s, l).th, w)
  {
    hide Inv, SpawnInv, CanStep, Step, KeysMatch, Registry.Enabled, Registry.Do, Fresh;
    if l.Go? {
      NextIsNoThread(s, Tun(s.sh.next));
      StepShape(s.sh, l.t, s.th[l.t], l.c);
    } else {
      EnvThreads(s, l, Main(w));
    }
  }

  lemma {:induction false} GaveAwayForever(ss: seq<State>, ls: seq<Label>, i: nat, j: nat, w: Id)
    requires Trace(ss, ls) && i <= j < |ss| && GaveAway(ss[i].th, w)
    ensures GaveAway(ss[j].th, w)
    decreases j
  {
    hide Inv, SpawnInv, OwnerInv, Enabled, Do, Init, GaveAway;
    if i < j {
      GaveAwayForever(ss, ls, i, j - 1, w);
      TraceHeld(ss, ls, j - 1);
      assert Enabled(ss[j - 1], ls[j - 1]);
      GaveAwayStays(ss[j - 1], ls[j - 1], w);
    }
  }

  // A goroutine of w other than its handler runs only once the handler is done.
  lemma OwnAfterMain(s: State, t: Tid, w: Id)
    requires SpawnInv(s) && t in s.th && (t == Wait(w) || t == Fwd(w) || t == Splice(w))
    ensures Main(w) in s.th && s.th[Main(w)].Done?
  {
    assert SpawnOk(s.th, w);
  }

  lemma OwnClosing(s: State, l: Label, w: Id)
    requires Inv(s) && SpawnInv(s) && Enabled(s, l) && l.Go?
    requires ClosesOwn(l.t, s.th[l.t], Step(s.sh, l.t, s.th[l.t], l.c), w)
    ensures !GaveAway(s.th, w) && !Parks(s, l, w)
    ensures Main(w) in Do(s, l).th && Exited(Do(s, l).th[Main(w)])
  {
    hide Inv, CanStep, Step, KeysMatch, Fresh;
    StepShape(s.sh, l.t, s.th[l.t], l.c);
    NextIsNoThread(s, Tun(s.sh.next));
    if l.t != Main(w) { OwnAfterMain(s, l.t, w); }
    hide SpawnInv;
  }

  // So none of its goroutines closes it.
  lemma NotClosedByOwn(ss: seq<State>, ls: seq<Label>, k: nat, m: nat, w: Id)
    requires Trace(ss, ls) && k < |ls| && m < |ls| && Parks(ss[k], ls[k], w) && ls[m].Go? && Enabled(ss[m], ls[m])
    ensures !ClosesOwn(ls[m].t, ss[m].th[ls[m].t], Step(ss[m].sh, ls[m].t, ss[m].th[ls[m].t], ls[m].c), w)
  {
    hide Inv, SpawnInv, OwnerInv, Do, CanStep, Step, Fresh, Init, GaveAway, ClosesOwn, Parks;
    TraceHeld(ss, ls, k);
    TraceHeld(ss, ls, m);
    assert Enabled(ss[k], ls[k]) && ss[k + 1] == Do(ss[k], ls[k]) && ss[m + 1] == Do(ss[m], ls[m]);
    hide Enabled;
    if ClosesOwn(ls[m].t, ss[m].th[ls[m].t], Step(ss[m].sh, ls[m].t, ss[m].th[ls[m].t], ls[m].c), w) {
      OwnClosing(ss[m], ls[m], w);
      ParkGives(ss[k], ls[k], w);
      if k < m {
        GaveAwayForever(ss, ls, k + 1, m, w);
      } else if m < k {
        FinishedForever(ss, ls, m + 1, k, Main(w));
        ExitedParksNot(ss[k], ls[k], w);
      }
    }
  }

  lemma ExitedParksNot(s: State, l: Label, w: Id)
    requires Main(w) in s.th && Exited(s.th[Main(w)])
    ensures !Parks(s, l, w)
  {
  }

  // A splice with w was started by a waiter that took w out of a session.
  lemma SpliceWasHanded(ss: seq<State>, ls: seq<Label>, m: nat, id: Id, w: Id)
    requires Trace(ss, ls) && m < |ls| && Splice(id) in ss[m].th && SplicedTo(ss[m].th[Splice(id)], w)
    ensures exists j :: 0 <= j < m && HandedTo(ss[j], ls[j], w)
  {
    hide Inv, OwnerInv, Trace;
    TraceLength(ss, ls);
    TraceHeld(ss, ls, m);
    assert SpawnOk(ss[m].th, id);
    WasHandedOver(ss, ls, m, id);
    var j, o :| 0 <= j < m && HandsOver(ss[j], ls[j], id, o, w);
    assert HandedTo(ss[j], ls[j], w);
  }

  // A closed websocket that was written into an entry session was taken out of it.
  lemma ClosedWasPicked(ss: seq<State>, ls: seq<Label>, i: nat, k: nat, w: Id)
    requires Trace(ss, ls) && i < |ss| && w.Tun? && w in ss[i].sh.heap.closed
    requires k < i && Parks(ss[k], ls[k], w)
    ensures exists j :: 0 <= j < i && PicksUp(ss[j], ls[j], w)
  {
    WasClosed(ss, ls, i, w);
    TraceLength(ss, ls);
    var m :| 0 <= m < i && ClosesAt(ss, m, w);
    assert Enabled(ss[m], ls[m]) && ss[m + 1] == Do(ss[m], ls[m]);
    hide Trace, Parks, ClosesOwn, CanStep, Step, HandedTo, Fresh, SplicedTo;
    EnvCloses(ss[m], ls[m], w);
    StepCloses(ss[m].sh, ls[m].t, ss[m].th[ls[m].t], ls[m].c, w);
    NotClosedByOwn(ss, ls, k, m, w);
    if Cleaned(ss[m].sh, ss[m].th[ls[m].t], ls[m].c, w) {
      assert PicksUp(ss[m], ls[m], w);
    } else {
      SpliceWasHanded(ss, ls, m, ls[m].t.id, w);
    }
  }

  lemma EnvCloses(s: State, l: Label, w: Id)
    requires Enabled(s, l) && w !in s.sh.heap.closed && w in Do(s, l).sh.heap.closed
    ensures l.Go? && w in Step(s.sh, l.t, s.th[l.t], l.c).sh.heap.closed
  {
    hide CanStep, Step, Registry.Enabled, Registry.Do;
  }

  // ---------- A websocket that was taken out, or never written in ----------

  lemma CleanClosesNow(s: State, l: Label, w: Id)
    requires Enabled(s, l) && CleansTunnel(s, l, w)
    ensures w in Do(s, l).sh.heap.closed
  {
    var pc := s.th[l.t];
    CleanupClosesOwned(s.sh.heap, pc.key, CLOSED);
    CleanupClosesOwned(s.sh.heap, pc.key, TIMEOUT);
    hide KeysMatch, Cleanup;
  }

  lemma CleanupClosesOwned(h: Heap, key: string, phase: Phase)
    requires KeysMatch(h) && key in h.pending
    ensures h.pending[key] in h.objs && Owned(h, h.pending[key]) <= Cleanup(h, key, phase).closed
  {
  }

  lemma HandedMoves(s: State, l: Label, w: Id)
    requires Inv(s) && SpawnInv(s) && Enabled(s, l) && HandedTo(s, l, w)
    ensures var th := Do(s, l).th; l.t in th && th[l.t].EHanded? && th[l.t].tunnel == w
  {
    ThreadOk(s, l.t);
    hide Inv, SpawnInv, KeysMatch;
  }

  lemma PickedIsClosed(ss: seq<State>, ls: seq<Label>, i: nat, j: nat, w: Id)
    requires Trace(ss, ls) && i < |ss| && Quiescent(ss[i]) && j < i && PicksUp(ss[j], ls[j], w)
    ensures w in ss[i].sh.heap.closed
  {
    hide Inv, SpawnInv, OwnerInv, Do, CleansTunnel, HandedTo, Quiescent;
    TraceHeld(ss, ls, j);
    TraceLength(ss, ls);
    assert Enabled(ss[j], ls[j]) && ss[j + 1] == Do(ss[j], ls[j]);
    hide Enabled, Trace;
    if CleansTunnel(ss[j], ls[j], w) {
      CleanClosesNow(ss[j], ls[j], w);
      LaterRun(ss, ls, j + 1, i);
    } else {
      HandedByWaiter(ss[j], ls[j], w);
      HandedMoves(ss[j], ls[j], w);
      var t := ls[j].t;
      FinishedForever(ss, ls, j + 1, i, t);
      EntryClosedAtRest(ss, ls, i, t.id);
    }
  }

  lemma HandedByWaiter(s: State, l: Label, w: Id)
    requires HandedTo(s, l, w)
    ensures l.Go? && l.t.Wait?
  {
  }

  ghost predicate OnItsWay(pc: Pc) {
    || pc.TRead? || pc.TLookup? || pc.TBind? || pc.TVerify? || pc.TEntry? || pc.TCreate? || pc.TSend? || pc.TFail?
    || pc.TFailClose? || pc.TMark? || pc.TSpawn?
  }

  // An accepted websocket is closed, or some goroutine is still to close it.
  ghost predicate InHand(s: State, w: Id) {
    && Main(w) in s.th
    && (w in s.sh.heap.closed || OnItsWay(s.th[Main(w)]) || Fwd(w) in s.th || Wait(w) in s.th)
  }

  lemma TunInHand(sh: Shared, w: Id, pc: Pc, c: Choice)
    requires IsTun(pc) && CanTun(sh, w, pc, c) && OnItsWay(pc) && !pc.TEntry?
    ensures var e := TunStep(sh, w, pc, c);
            w in e.sh.heap.closed || OnItsWay(e.pc) || Fwd(w) in e.spawn || Wait(w) in e.spawn
  {
    hide KeysMatch, Cleanup, Bind, BindOutcome, ReadId, SendOpen, SendOk;
  }

  lemma MainInHand(sh: Shared, w: Id, pc: Pc, c: Choice)
    requires CanStep(sh, Main(w), pc, c) && w.Tun? && OnItsWay(pc) && !pc.TEntry?
    ensures var e := Step(sh, Main(w), pc, c);
            w in e.sh.heap.closed || OnItsWay(e.pc) || Fwd(w) in e.spawn || Wait(w) in e.spawn
  {
    hide IsTun, CanTun, TunStep, IsSsh, CanSsh, SshStep, OnItsWay;
    TunInHand(sh, w, pc, c);
  }

  lemma InHandStays(s: State, l: Label, w: Id)
    requires Inv(s) && SpawnInv(s) && Enabled(s, l) && w.Tun? && InHand(s, w)
    requires !Parks(s, l, w)
    ensures InHand(Do(s, l), w)
  {
    hide Inv, SpawnInv, Step, KeysMatch, Registry.Enabled, Registry.Do, Fresh;
    LaterStep(s, l);
    if l.Go? {
      var pc := s.th[l.t];
      NextIsNoThread(s, Tun(s.sh.next));
      StepShape(s.sh, l.t, pc, l.c);
      if l.t == Main(w) && OnItsWay(pc) {
        MainInHand(s.sh, w, pc, l.c);
      }
    } else {
      EnvInHand(s, l, w);
    }
  }

  lemma EnvInHand(s: State, l: Label, w: Id)
    requires Inv(s) && Enabled(s, l) && !l.Go? && InHand(s, w)
    ensures InHand(Do(s, l), w)
  {
    hide Inv, Registry.Enabled, Registry.Do;
    EnvThreads(s, l, Main(w));
    if Fwd(w) in s.th { EnvThreads(s, l, Fwd(w)); }
    if Wait(w) in s.th { EnvThreads(s, l, Wait(w)); }
  }

  lemma AcceptedInHand(s: State, l: Label, w: Id)
    requires Enabled(s, l) && Accepts(s, l, w)
    ensures InHand(Do(s, l), w)
  {
    hide KeysMatch;
  }

  lemma {:induction false} InHandForever(ss: seq<State>, ls: seq<Label>, i: nat, j: nat, w: Id)
    requires Trace(ss, ls) && i <= j < |ss| && w.Tun? && InHand(ss[i], w)
    requires forall k :: i <= k < j ==> !Parks(ss[k], ls[k], w)
    ensures InHand(ss[j], w)
    decreases j
  {
    hide Inv, SpawnInv, OwnerInv, Enabled, Do, Init, InHand, Parks;
    if i < j {
      InHandForever(ss, ls, i, j - 1, w);
      TraceHeld(ss, ls, j - 1);
      assert Enabled(ss[j - 1], ls[j - 1]);
      InHandStays(ss[j - 1], ls[j - 1], w);
    }
  }

  lemma InHandAtRest(ss: seq<State>, ls: seq<Label>, i: nat, w: Id)
    requires Trace(ss, ls) && i < |ss| && Quiescent(ss[i]) && w.Tun? && InHand(ss[i], w)
    ensures w in ss[i].sh.heap.closed
  {
    hide Trace, Inv, OwnerInv, SpawnInv;
    TraceHeld(ss, ls, i);
    if Fwd(w) in ss[i].th {
      ThreadOk(ss[i], Fwd(w));
    } else if Wait(w) in ss[i].th {
      EntryClosedAtRest(ss, ls, i, w);
    }
  }

  lemma AcceptedSoFar(ss: seq<State>, ls: seq<Label>, m: nat, w: Id)
    requires Trace(ss, ls) && m < |ls| && Accepts(ss[m], ls[m], w)
    ensures w.Tun? && InHand(ss[m + 1], w)
  {
    assert Enabled(ss[m], ls[m]) && ss[m + 1] == Do(ss[m], ls[m]);
    hide Init, Enabled, Do, InHand;
    AcceptedInHand(ss[m], ls[m], w);
  }

  // In a hub at rest an accepted tunnel websocket is still open if and only if its handler wrote it into an
  // entry session, and no waiter has handed a client over to it and no cleanup has found it as the tunnel of a
  // listed session.
  lemma OpenIffForgotten(ss: seq<State>, ls: seq<Label>, i: nat, m: nat, w: Id)
    requires Trace(ss, ls) && i < |ss| && Quiescent(ss[i]) && m < i && Accepts(ss[m], ls[m], w)
    ensures w !in ss[i].sh.heap.closed
            <==> (exists k :: 0 <= k < i && Parks(ss[k], ls[k], w))
                 && !(exists j :: 0 <= j < i && PicksUp(ss[j], ls[j], w))
  {
    hide Trace, Quiescent, Parks, Accepts, PicksUp, InHand;
    TraceLength(ss, ls);
    AcceptedSoFar(ss, ls, m, w);
    if k :| 0 <= k < i && Parks(ss[k], ls[k], w) {
      if w in ss[i].sh.heap.closed { ClosedWasPicked(ss, ls, i, k, w); }
      forall j | 0 <= j < i && PicksUp(ss[j], ls[j], w) ensures w in ss[i].sh.heap.closed {
        PickedIsClosed(ss, ls, i, j, w);
      }
    } else {
      InHandForever(ss, ls, m + 1, i, w);
      InHandAtRest(ss, ls, i, w);
    }
  }
}
