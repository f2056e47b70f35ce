/**
 Where a session's tunnel came from: the one step in which the handler of that websocket wrote it. A handler
 writes its websocket into one session, once.
*/
module TunnelHistory {
  import opened Options
  import opened PendingHeap
  import opened Protocol
  import opened ProtocolInvariant
  import opened ProtocolOwnership
  import opened SessionTheorems
  import Registry

  // In this step the handler of websocket w makes it the tunnel of session o.
  ghost predicate Gives(s: State, l: Label, o: Id, w: Id) {
    || Binds(s, l, o, w)
    || (l.Go? && l.t == Main(w) && Main(w) in s.th && s.th[Main(w)].TEntry? && s.th[Main(w)].o == o)
  }

  lemma TunKeepsOthers(sh: Shared, w: Id, pc: Pc, c: Choice, o: Id)
    requires IsTun(pc) && CanTun(sh, w, pc, c) && o in sh.heap.objs && !pc.TBind? && !(pc.TEntry? && pc.o == o)
    requires pc.TCreate? ==> w !in sh.heap.objs
    ensures var h := TunStep(sh, w, pc, c).sh.heap; o in h.objs && h.objs[o].tunnel == sh.heap.objs[o].tunnel
  {
    if pc.TFail? { CleanupKeepsTunnels(sh.heap, pc.key, CLOSED, o); }
    hide KeysMatch, Cleanup, Bind, BindOutcome, ReadId;
  }

  lemma CreatesNew(sh: Shared, w: Id, pc: Pc)
    requires w.Tun? && PcOk(sh, Main(w), pc)
    ensures pc.TCreate? ==> w !in sh.heap.objs
  {
  }

  lemma HeapGives(a: Heap, b: Heap, t: Tid, o: Id, w: Id)
    requires HeapGuarantee(a, b, t) && o in b.objs && b.objs[o].tunnel == Some(w)
    requires !(o in a.objs && a.objs[o].tunnel == Some(w))
    ensures t == Main(w) && o in a.objs
  {
  }

  // A websocket gets into a session in no other way.
  lemma MainGives(sh: Shared, w: Id, pc: Pc, c: Choice, o: Id)
    requires CanStep(sh, Main(w), pc, c) && PcOk(sh, Main(w), pc)
    requires o in sh.heap.objs && sh.heap.objs[o].tunnel != Some(w)
    requires var h := Step(sh, Main(w), pc, c).sh.heap; o in h.objs && h.objs[o].tunnel == Some(w)
    ensures (pc.TEntry? && pc.o == o) || (pc.TBind? && KeysMatch(sh.heap) && BindOutcome(sh.heap, pc.key) == Success(o))
  {
    hide PcOk, KeysMatch, IsSsh, IsTun, SshStep, TunStep;
    if w.Ssh? {
      InsertsNew(sh, w, pc);
      SshKeepsTunnels(sh, w, pc, c, o);
    } else {
      CreatesNew(sh, w, pc);
      if pc.TBind? {
        TunBindGives(sh, w, pc, c, o);
      } else if !(pc.TEntry? && pc.o == o) {
        TunKeepsOthers(sh, w, pc, c, o);
      }
    }
  }

  lemma GoGives(s: State, t: Tid, c: Choice, o: Id, w: Id)
    requires Inv(s) && Enabled(s, Go(t, c))
    requires var h := Do(s, Go(t, c)).sh.heap; o in h.objs && h.objs[o].tunnel == Some(w)
    requires !(o in s.sh.heap.objs && s.sh.heap.objs[o].tunnel == Some(w))
    ensures Gives(s, Go(t, c), o, w)
  {
    hide Inv, PcOk, KeysMatch, Guarantee, HeapGuarantee, CanStep, Step;
    GoInv(s, t, c);
    ThreadOk(s, t);
    GuaranteedHeap(s.sh, Do(s, Go(t, c)).sh, t);
    HeapGives(s.sh.heap, Do(s, Go(t, c)).sh.heap, t, o, w);
    MainGives(s.sh, w, s.th[t], c, o);
  }

  lemma GuaranteedHeap(a: Shared, b: Shared, t: Tid)
    requires Guarantee(a, b, t)
    ensures HeapGuarantee(a.heap, b.heap, t)
  {
  }

  lemma TunBindGives(sh: Shared, w: Id, pc: Pc, c: Choice, o: Id)
    requires pc.TBind? && CanTun(sh, w, pc, c) && o in sh.heap.objs && sh.heap.objs[o].tunnel != Some(w)
    ensures var h := TunStep(sh, w, pc, c).sh.heap;
            o in h.objs && h.objs[o].tunnel == Some(w) ==> BindOutcome(sh.heap, pc.key) == Success(o)
  {
    hide KeysMatch;
  }

  lemma StepGives(s: State, l: Label, o: Id, w: Id)
    requires Inv(s) && Enabled(s, l)
    requires o in Do(s, l).sh.heap.objs && Do(s, l).sh.heap.objs[o].tunnel == Some(w)
    requires !(o in s.sh.heap.objs && s.sh.heap.objs[o].tunnel == Some(w))
    ensures Gives(s, l, o, w)
  {
    if l.Go? {
      GoGives(s, l.t, l.c, o, w);
    } else {
      EnvInv(s, l);
      assert false;
    }
  }

  ghost predicate HasTunnel(s: State, o: Id, w: Id) {
    o in s.sh.heap.objs && s.sh.heap.objs[o].tunnel == Some(w)
  }

  // A tunnel that a session did not have at i and has at j was given to it in between.
  lemma {:induction false} TunnelGivenSince(ss: seq<State>, ls: seq<Label>, i: nat, j: nat, o: Id, w: Id)
    requires Trace(ss, ls) && i <= j < |ss| && !HasTunnel(ss[i], o, w) && HasTunnel(ss[j], o, w)
    ensures exists k :: i <= k < j && Gives(ss[k], ls[k], o, w)
    decreases j
  {
    hide Inv, Enabled, Do, Gives;
    if i < j {
      var k := j - 1;
      TraceInv(ss, ls, k);
      assert Enabled(ss[k], ls[k]) && ss[j] == Do(ss[k], ls[k]);
      if HasTunnel(ss[k], o, w) {
        TunnelGivenSince(ss, ls, i, k, o, w);
      } else {
        StepGives(ss[k], ls[k], o, w);
      }
    }
  }

  // Every tunnel was given to its session in some earlier step.
  lemma TunnelWasGiven(ss: seq<State>, ls: seq<Label>, i: nat, o: Id, w: Id)
    requires Trace(ss, ls) && i < |ss| && HasTunnel(ss[i], o, w)
    ensures exists k :: 0 <= k < i && Gives(ss[k], ls[k], o, w)
  {
    assert !HasTunnel(ss[0], o, w);
    TunnelGivenSince(ss, ls, 0, i, o, w);
  }

  lemma GivesSets(s: State, l: Label, o: Id, w: Id)
    requires Enabled(s, l) && Gives(s, l, o, w) && w.Tun?
    ensures HasTunnel(Do(s, l), o, w)
  {
    hide KeysMatch;
  }

  // ---------- Once ----------

  // A tunnel handler past the point at which it gave its websocket away, or failed to.
  ghost predicate PastGiving(s: State, w: Id) {
    Main(w) in s.th && (s.th[Main(w)].TVerify? || s.th[Main(w)].TMismatch? || s.th[Main(w)].Done?)
  }

  lemma PastMoves(sh: Shared, w: Id, pc: Pc, c: Choice)
    requires CanStep(sh, Main(w), pc, c) && (pc.TVerify? || pc.TBind? || pc.TEntry?)
    ensures var e := Step(sh, Main(w), pc, c); e.pc.TVerify? || e.pc.TMismatch? || e.pc.Done?
  {
    hide KeysMatch;
  }

  lemma PastStays(s: State, l: Label, o: Id, w: Id)
    requires Inv(s) && SpawnInv(s) && Enabled(s, l) && (PastGiving(s, w) || Gives(s, l, o, w))
    ensures PastGiving(Do(s, l), w)
  {
    hide Inv, SpawnInv, CanStep, Step, KeysMatch, Registry.Enabled, Registry.Do, Fresh;
    if l.Go? {
      NextIsNoThread(s, Tun(s.sh.next));
      StepShape(s.sh, l.t, s.th[l.t], l.c);
      if l.t == Main(w) { PastMoves(s.sh, w, s.th[l.t], l.c); }
    } else {
      EnvThreads(s, l, Main(w));
    }
  }

  lemma {:induction false} PastForever(ss: seq<State>, ls: seq<Label>, i: nat, j: nat, w: Id)
    requires Trace(ss, ls) && i <= j < |ss| && PastGiving(ss[i], w)
    ensures PastGiving(ss[j], w)
    decreases j
  {
    hide Inv, SpawnInv, OwnerInv, Enabled, Do, Init, PastGiving, Gives;
    if i < j {
      PastForever(ss, ls, i, j - 1, w);
      TraceHeld(ss, ls, j - 1);
      assert Enabled(ss[j - 1], ls[j - 1]);
      PastStays(ss[j - 1], ls[j - 1], w, w);
    }
  }

  lemma GivingIsBefore(s: State, l: Label, o: Id, w: Id)
    requires PastGiving(s, w)
    ensures !Gives(s, l, o, w)
  {
  }

  lemma GivesTwice(ss: seq<State>, ls: seq<Label>, i: nat, j: nat, o: Id, o': Id, w: Id)
    requires Trace(ss, ls) && i < j < |ls| && Gives(ss[i], ls[i], o, w)
    ensures !Gives(ss[j], ls[j], o', w)
  {
    hide Inv, SpawnInv, OwnerInv, Enabled, Do, Init, PastGiving, Gives;
    TraceHeld(ss, ls, i);
    assert Enabled(ss[i], ls[i]);
    PastStays(ss[i], ls[i], o, w);
    PastForever(ss, ls, i + 1, j, w);
    GivingIsBefore(ss[j], ls[j], o', w);
  }

  lemma GivesSame(s: State, l: Label, o: Id, o': Id, w: Id)
    requires Gives(s, l, o, w) && Gives(s, l, o', w)
    ensures o == o'
  {
  }

  // Over a whole run each websocket is given to one session, once, whatever the session's kind.
  lemma GivesOnce(ss: seq<State>, ls: seq<Label>, i: nat, j: nat, o: Id, o': Id, w: Id)
    requires Trace(ss, ls) && i < |ls| && j < |ls| && Gives(ss[i], ls[i], o, w) && Gives(ss[j], ls[j], o', w)
    ensures i == j && o == o'
  {
    if i < j {
      GivesTwice(ss, ls, i, j, o, o', w);
    } else if j < i {
      GivesTwice(ss, ls, j, i, o', o, w);
    } else {
      GivesSame(ss[i], ls[i], o, o', w);
    }
  }
}
