/**
 Which steps close a connection: in every run a connection is closed exactly if one of these steps has happened.
*/
module Closings {
  import opened PendingHeap
  import opened Protocol
  import opened ProtocolInvariant
  import opened SessionCleanups
  import Handshake
  import Registry

  // onSSHConn turns the SSH connection x away: no such agent, or no control connection.
  ghost predicate RefusesSsh(sh: Shared, t: Tid, pc: Pc, x: Id) {
    && t == Main(x) && x.Ssh?
    && ((pc.SLookup? && pc.agent !in sh.reg.book.agents) || (pc.SCheck? && Control(sh, pc.ref).None?))
  }

  // handleTunnelWS refuses websocket x: an unreadable or wrong first frame, a bind that fails, another agent's
  // session, or an OPEN that could not be sent.
  ghost predicate RefusesTunnel(sh: Shared, t: Tid, pc: Pc, c: Choice, x: Id) {
    t == Main(x) && x.Tun? &&
    (|| (pc.TRead? && !(c.Ok? && x in sh.wire && ReadId(sh.sha, pc.hdr, sh.wire[x]).Some?))
     || (pc.TBind? && KeysMatch(sh.heap) && BindOutcome(sh.heap, pc.key).Failure?)
     || (pc.TVerify? && pc.o in sh.heap.objs && sh.heap.objs[pc.o].agent != pc.agent)
     || pc.TFailClose?)
  }

  // The waiter of entry client x gives it up.
  ghost predicate LetsGo(sh: Shared, t: Tid, pc: Pc, c: Choice, x: Id) {
    t == Wait(x) && pc.EWait? && (c.Timer? || pc.key !in sh.heap.pending)
  }

  // The cleanup of a pair that x is part of comes to x.
  ghost predicate PairEnds(t: Tid, pc: Pc, c: Choice, x: Id) {
    c.Ok? &&
    (|| (t.Fwd? && pc.FPair? && pc.o == x && x.Ssh? && pc.pair.once.CloseFirst?)
     || (t == Fwd(x) && pc.FPair? && pc.pair.once.CloseSecond?)
     || (t == Splice(x) && pc.XPair? && pc.pair.once.CloseFirst?)
     || (t.Splice? && pc.XPair? && pc.tunnel == x && pc.pair.once.CloseSecond?))
  }

  // A cleanup finds a listed session that x belongs to.
  ghost predicate CleansUp(sh: Shared, pc: Pc, c: Choice, x: Id) {
    && IsCleanup(pc, c) && pc.key in sh.heap.pending && sh.heap.pending[pc.key] in sh.heap.objs
    && x in Owned(sh.heap, sh.heap.pending[pc.key])
  }

  ghost predicate ClosesNow(sh: Shared, t: Tid, pc: Pc, c: Choice, x: Id) {
    || RefusesSsh(sh, t, pc, x) || RefusesTunnel(sh, t, pc, c, x) || LetsGo(sh, t, pc, c, x) || PairEnds(t, pc, c, x)
    || CleansUp(sh, pc, c, x)
  }

  ghost predicate Closes(s: State, l: Label, x: Id) {
    l.Go? && l.t in s.th && ClosesNow(s.sh, l.t, s.th[l.t], l.c, x)
  }

  // ---------- One step ----------

  lemma CleanupClosed(h: Heap, key: string, phase: Phase)
    requires KeysMatch(h)
    ensures key in h.pending ==> h.pending[key] in h.objs
    ensures Cleanup(h, key, phase).closed
            == h.closed + if key in h.pending then Owned(h, h.pending[key]) else {}
  {
  }

  lemma SshClosed(sh: Shared, id: Id, pc: Pc, c: Choice, x: Id)
    requires IsSsh(pc) && CanSsh(sh, id, pc, c) && id.Ssh?
    ensures x in SshStep(sh, id, pc, c).sh.heap.closed <==> x in sh.heap.closed || ClosesNow(sh, Main(id), pc, c, x)
  {
    hide KeysMatch, Cleanup, Control, SendOk, Handshake.IsUuid, Owned;
    OnlySsh(sh, id, pc, c, x);
    hide ClosesNow;
    if pc.SFail? { CleanupClosed(sh.heap, pc.key, CLOSED); }
  }

  lemma OnlySsh(sh: Shared, id: Id, pc: Pc, c: Choice, x: Id)
    requires IsSsh(pc) && id.Ssh?
    ensures ClosesNow(sh, Main(id), pc, c, x) <==> RefusesSsh(sh, Main(id), pc, x) || CleansUp(sh, pc, c, x)
  {
    hide RefusesSsh, CleansUp, PairEnds, KeysMatch, BindOutcome, ReadId;
    OthersRefuseNot(sh, Main(id), pc, c, x);
  }

  lemma TunClosed(sh: Shared, id: Id, pc: Pc, c: Choice, x: Id)
    requires IsTun(pc) && CanTun(sh, id, pc, c) && id.Tun?
    ensures x in TunStep(sh, id, pc, c).sh.heap.closed <==> x in sh.heap.closed || ClosesNow(sh, Main(id), pc, c, x)
  {
    hide KeysMatch, Cleanup, BindOutcome, ReadId, Control, SendOk, Owned;
    if pc.TFail? {
      CleanupClosed(sh.heap, pc.key, CLOSED);
    } else {
      NoCleanup(sh, id, pc, c, x);
      hide CleansUp, PairEnds, LetsGo, RefusesSsh, ClosesNow;
      if pc.TRead? || pc.TBind? || pc.TVerify? || pc.TFailClose? {
        TunRefused(sh, id, pc, c, x);
      } else {
        TunKept(sh, id, pc, c, x);
      }
      hide TunStep, RefusesTunnel;
    }
  }

  lemma NoCleanup(sh: Shared, id: Id, pc: Pc, c: Choice, x: Id)
    requires IsTun(pc) && !pc.TFail?
    ensures ClosesNow(sh, Main(id), pc, c, x) <==> RefusesTunnel(sh, Main(id), pc, c, x)
  {
    hide KeysMatch, BindOutcome, ReadId, Owned, RefusesTunnel;
  }

  lemma TunRefused(sh: Shared, id: Id, pc: Pc, c: Choice, x: Id)
    requires (pc.TRead? || pc.TBind? || pc.TVerify? || pc.TFailClose?) && CanTun(sh, id, pc, c) && id.Tun?
    ensures x in TunStep(sh, id, pc, c).sh.heap.closed
            <==> x in sh.heap.closed || RefusesTunnel(sh, Main(id), pc, c, x)
  {
    hide KeysMatch, BindOutcome, ReadId;
    if pc.TBind? { BindRefused(sh, id, pc, c, x); hide TunStep, RefusesTunnel; }
  }

  lemma BindRefused(sh: Shared, id: Id, pc: Pc, c: Choice, x: Id)
    requires pc.TBind? && CanTun(sh, id, pc, c) && id.Tun?
    ensures x in TunStep(sh, id, pc, c).sh.heap.closed
            <==> x in sh.heap.closed || RefusesTunnel(sh, Main(id), pc, c, x)
  {
    hide KeysMatch, ReadId;
  }

  lemma TunKept(sh: Shared, id: Id, pc: Pc, c: Choice, x: Id)
    requires IsTun(pc) && CanTun(sh, id, pc, c)
    requires !(pc.TRead? || pc.TBind? || pc.TVerify? || pc.TFailClose? || pc.TFail?)
    ensures TunStep(sh, id, pc, c).sh.heap.closed == sh.heap.closed && !RefusesTunnel(sh, Main(id), pc, c, x)
  {
    hide KeysMatch, BindOutcome, ReadId, Control, SendOk;
  }

  lemma PairClosed(sh: Shared, t: Tid, pc: Pc, c: Choice, x: Id)
    requires CanPair(sh, pc, c) && ((t.Fwd? && pc.FPair?) || (t.Splice? && pc.XPair?))
    requires pc.XPair? ==> !pc.pair.once.Unlist?
    ensures x in PairStep(sh, t.id, pc, c).sh.heap.closed <==> x in sh.heap.closed || ClosesNow(sh, t, pc, c, x)
  {
    hide KeysMatch, Cleanup, Owned;
    if t.Fwd? { ForwardClosed(sh, t.id, pc, c, x); } else { SpliceClosed(sh, t.id, pc, c, x); }
    OnlyPairEnds(sh, t, pc, c, x);
    hide PairStep, ClosesNow, PairEnds, CanPair;
  }

  lemma OnlyPairEnds(sh: Shared, t: Tid, pc: Pc, c: Choice, x: Id)
    requires t.Fwd? || t.Splice?
    ensures ClosesNow(sh, t, pc, c, x) <==> PairEnds(t, pc, c, x) || CleansUp(sh, pc, c, x)
  {
    hide RefusesSsh, RefusesTunnel, PairEnds, CleansUp;
    OthersRefuseNot(sh, t, pc, c, x);
  }

  lemma ForwardClosed(sh: Shared, id: Id, pc: Pc, c: Choice, x: Id)
    requires CanPair(sh, pc, c) && pc.FPair?
    ensures x in PairStep(sh, id, pc, c).sh.heap.closed
            <==> x in sh.heap.closed || PairEnds(Fwd(id), pc, c, x) || CleansUp(sh, pc, c, x)
  {
    hide KeysMatch, Cleanup, Owned;
    CleanupClosed(sh.heap, pc.key, CLOSED);
    if c.Ok? { StagesOfPair(pc.pair); }
    hide CanMove;
  }

  lemma StagesOfPair(p: Pair)
    requires CanMove(p, Ok)
    ensures p.once.CloseFirst? || p.once.CloseSecond? || p.once.Unlist?
  {
  }

  lemma SpliceClosed(sh: Shared, id: Id, pc: Pc, c: Choice, x: Id)
    requires CanPair(sh, pc, c) && pc.XPair? && !pc.pair.once.Unlist?
    ensures x in PairStep(sh, id, pc, c).sh.heap.closed
            <==> x in sh.heap.closed || PairEnds(Splice(id), pc, c, x) || CleansUp(sh, pc, c, x)
  {
    hide KeysMatch, Cleanup, Owned;
    if c.Ok? { StagesOfPair(pc.pair); }
    hide CanMove;
  }

  lemma OtherClosed(sh: Shared, t: Tid, pc: Pc, c: Choice, x: Id)
    requires CanStep(sh, t, pc, c) && (t.Watch? || t.Wait? || t.Dial?)
    ensures x in Step(sh, t, pc, c).sh.heap.closed <==> x in sh.heap.closed || ClosesNow(sh, t, pc, c, x)
  {
    hide KeysMatch, Cleanup, CanSsh, CanTun, CanPair, SshStep, TunStep, PairStep, Owned, ClosesNow;
    OnlyOthers(sh, t, pc, c, x);
    if pc.WClean? || pc.EClean? { CleanupClosed(sh.heap, pc.key, TIMEOUT); }
  }

  lemma OthersRefuseNot(sh: Shared, t: Tid, pc: Pc, c: Choice, x: Id)
    ensures !t.Main? ==> !RefusesSsh(sh, t, pc, x) && !RefusesTunnel(sh, t, pc, c, x)
    ensures !t.Fwd? && !t.Splice? ==> !PairEnds(t, pc, c, x)
  {
    if !t.Fwd? && !t.Splice? { NotAPair(t, pc, c, x); }
    hide KeysMatch, BindOutcome, ReadId, Control, PairEnds;
  }

  lemma NotAPair(t: Tid, pc: Pc, c: Choice, x: Id)
    requires !t.Fwd? && !t.Splice?
    ensures !PairEnds(t, pc, c, x)
  {
  }

  lemma OnlyOthers(sh: Shared, t: Tid, pc: Pc, c: Choice, x: Id)
    requires t.Watch? || t.Wait? || t.Dial?
    ensures ClosesNow(sh, t, pc, c, x) <==> LetsGo(sh, t, pc, c, x) || CleansUp(sh, pc, c, x)
  {
    hide RefusesSsh, RefusesTunnel, LetsGo, PairEnds, CleansUp;
    OthersRefuseNot(sh, t, pc, c, x);
  }

  lemma MainClosed(sh: Shared, id: Id, pc: Pc, c: Choice, x: Id)
    requires CanStep(sh, Main(id), pc, c)
    ensures x in Step(sh, Main(id), pc, c).sh.heap.closed <==> x in sh.heap.closed || ClosesNow(sh, Main(id), pc, c, x)
  {
    hide ClosesNow, CanSsh, CanTun, IsSsh, IsTun, SshStep, TunStep;
    if id.Ssh? { SshClosed(sh, id, pc, c, x); } else { TunClosed(sh, id, pc, c, x); }
  }

  lemma PairStepClosed(sh: Shared, t: Tid, pc: Pc, c: Choice, x: Id)
    requires CanStep(sh, t, pc, c) && (t.Fwd? || t.Splice?) && (pc.XPair? ==> !pc.pair.once.Unlist?)
    ensures x in Step(sh, t, pc, c).sh.heap.closed <==> x in sh.heap.closed || ClosesNow(sh, t, pc, c, x)
  {
    hide ClosesNow, CanPair, PairStep;
    PairClosed(sh, t, pc, c, x);
  }

  lemma StepCloses(sh: Shared, t: Tid, pc: Pc, c: Choice, x: Id)
    requires CanStep(sh, t, pc, c) && (pc.XPair? ==> !pc.pair.once.Unlist?)
    ensures x in Step(sh, t, pc, c).sh.heap.closed <==> x in sh.heap.closed || ClosesNow(sh, t, pc, c, x)
  {
    hide ClosesNow, CanStep, Step;
    if t.Main? {
      MainClosed(sh, t.id, pc, c, x);
    } else if t.Fwd? || t.Splice? {
      PairStepClosed(sh, t, pc, c, x);
    } else {
      OtherClosed(sh, t, pc, c, x);
    }
  }

  // A splice has no session to unlist.
  lemma SpliceStages(s: State, t: Tid)
    requires Inv(s) && t in s.th
    ensures s.th[t].XPair? ==> !s.th[t].pair.once.Unlist?
  {
    ThreadOk(s, t);
    hide Inv, Gone, Begun, FrameOk, HelloOk, RefOk, Unbound, Holding, PortOf, BoundTo;
  }

  lemma ClosesIs(s: State, l: Label, x: Id)
    requires Inv(s) && Enabled(s, l)
    ensures x in Do(s, l).sh.heap.closed <==> x in s.sh.heap.closed || Closes(s, l, x)
  {
    hide Inv, CanStep, Step, ClosesNow, Registry.Enabled, Registry.Do, Fresh;
    if l.Go? {
      SpliceStages(s, l.t);
      StepCloses(s.sh, l.t, s.th[l.t], l.c, x);
      assert Do(s, l).sh.heap == Step(s.sh, l.t, s.th[l.t], l.c).sh.heap;
    } else {
      assert Do(s, l).sh.heap == s.sh.heap;
    }
  }

  // ---------- Over a run ----------

  // A connection is closed if and only if some step of the run closed it: a refusal, a waiter that gave up, a
  // pair's cleanup, or a cleanup of the session it belongs to.
  lemma {:induction false} ClosedIff(ss: seq<State>, ls: seq<Label>, i: nat, x: Id)
    requires Trace(ss, ls) && i <= |ls| < |ss|
    ensures x in ss[i].sh.heap.closed <==> exists k :: 0 <= k < i && Closes(ss[k], ls[k], x)
  {
    hide Inv, Enabled, Do, Closes;
    if i > 0 {
      TraceInv(ss, ls, i - 1);
      assert Enabled(ss[i - 1], ls[i - 1]) && ss[i] == Do(ss[i - 1], ls[i - 1]);
      ClosesIs(ss[i - 1], ls[i - 1], x);
      ClosedIff(ss, ls, i - 1, x);
    }
  }
}
