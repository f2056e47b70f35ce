/**
 How a goroutine got where it is: by its own last step, or by being started; no step of another one moves it.
*/
module ThreadHistory {
  import opened Protocol
  import opened ProtocolInvariant
  import opened ProtocolOwnership
  import opened PendingHeap
  import Registry

  ghost predicate StepOf(l: Label, t: Tid) {
    l.Go? && l.t == t
  }

  lemma OthersStay(s: State, l: Label, t: Tid)
    requires Inv(s) && SpawnInv(s) && Enabled(s, l) && t in s.th && !StepOf(l, t)
    ensures t in Do(s, l).th && Do(s, l).th[t] == s.th[t]
  {
    hide Inv, SpawnInv, CanStep, Step, Registry.Enabled, Registry.Do, Fresh;
    if l.Go? {
      NextIsNoThread(s, Tun(s.sh.next));
      StepShape(s.sh, l.t, s.th[l.t], l.c);
      if !l.t.Dial? { SpawnedBy(s, l.t); }
    } else {
      EnvThreads(s, l, t);
    }
  }

  lemma SpawnedBy(s: State, t: Tid)
    requires SpawnInv(s) && !t.Dial?
    ensures SpawnOk(s.th, t.id)
  {
  }

  // Thread t is at one point from step k to i, and step k put it there.
  ghost predicate PutBy(ss: seq<State>, ls: seq<Label>, k: nat, i: nat, t: Tid)
    requires i <= |ls| < |ss|
  {
    && k < i && t in ss[i].th
    && (forall n {:trigger ss[n]} :: k < n <= i ==> t in ss[n].th && ss[n].th[t] == ss[i].th[t])
    && (t in ss[k].th ==> StepOf(ls[k], t))
  }

  lemma {:induction false} WasPut(ss: seq<State>, ls: seq<Label>, i: nat, t: Tid)
    requires Trace(ss, ls) && i <= |ls| && t in ss[i].th
    ensures exists k :: PutBy(ss, ls, k, i, t)
  {
    hide Inv, SpawnInv, OwnerInv, Enabled, Do;
    if i > 0 {
      var j := i - 1;
      TraceHeld(ss, ls, j);
      assert Enabled(ss[j], ls[j]) && ss[i] == Do(ss[j], ls[j]);
      if t in ss[j].th && !StepOf(ls[j], t) {
        OthersStay(ss[j], ls[j], t);
        WasPut(ss, ls, j, t);
        var k :| PutBy(ss, ls, k, j, t);
        assert PutBy(ss, ls, k, i, t);
      } else {
        assert PutBy(ss, ls, j, i, t);
      }
    }
  }

  lemma PutSince(ss: seq<State>, ls: seq<Label>, k: nat, i: nat, t: Tid, n: nat)
    requires i <= |ls| < |ss| && PutBy(ss, ls, k, i, t) && k < n <= i
    ensures t in ss[n].th && t in ss[i].th && ss[n].th[t] == ss[i].th[t]
  {
  }

  // The step that put t at its point: either it started t, or it was a step of t.
  lemma PutByStep(ss: seq<State>, ls: seq<Label>, k: nat, i: nat, t: Tid)
    requires Trace(ss, ls) && i <= |ls| && PutBy(ss, ls, k, i, t)
    ensures Enabled(ss[k], ls[k]) && ss[k + 1] == Do(ss[k], ls[k]) && Inv(ss[k]) && SpawnInv(ss[k])
    ensures t in ss[k + 1].th && ss[k + 1].th[t] == ss[i].th[t]
    ensures t in ss[k].th ==> StepOf(ls[k], t)
  {
    hide Inv, SpawnInv, OwnerInv, Enabled, Do;
    TraceHeld(ss, ls, k);
    assert Enabled(ss[k], ls[k]);
  }

  // A goroutine's own step takes it where its program says.
  lemma GoNext(s: State, l: Label, t: Tid)
    requires Enabled(s, l) && StepOf(l, t)
    ensures t in s.th && CanStep(s.sh, t, s.th[t], l.c)
    ensures var e := Step(s.sh, t, s.th[t], l.c); Do(s, l).sh == e.sh && t in Do(s, l).th && Do(s, l).th[t] == e.pc
  {
    hide CanStep, Step, Fresh;
    StepShape(s.sh, t, s.th[t], l.c);
  }

  // ---------- Where a goroutine starts ----------

  ghost predicate StartPoint(pc: Pc) {
    || pc.SLookup? || pc.TAgent? || pc.WArm? || pc.EWait? || pc.ADial?
    || ((pc.FPair? || pc.XPair?) && pc.pair == Pair(true, true, Idle))
  }

  lemma MainSpawns(sh: Shared, id: Id, pc: Pc, c: Choice)
    requires CanStep(sh, Main(id), pc, c)
    ensures var e := Step(sh, Main(id), pc, c); forall u :: u in e.spawn ==> StartPoint(e.spawn[u])
  {
    hide KeysMatch, BindOutcome, Bind, Cleanup, ReadId, SendOpen, Control;
  }

  lemma OtherSpawns(sh: Shared, t: Tid, pc: Pc, c: Choice)
    requires CanStep(sh, t, pc, c) && !t.Main?
    ensures var e := Step(sh, t, pc, c); forall u :: u in e.spawn ==> StartPoint(e.spawn[u])
  {
    hide KeysMatch, Cleanup, CanSsh, CanTun, SshStep, TunStep;
  }

  lemma StartsThere(s: State, l: Label, t: Tid)
    requires Enabled(s, l) && t !in s.th && t in Do(s, l).th
    ensures StartPoint(Do(s, l).th[t])
  {
    hide CanStep, Step, Registry.Enabled, Registry.Do, Fresh;
    if l.Go? {
      if l.t.Main? { MainSpawns(s.sh, l.t.id, s.th[l.t], l.c); } else { OtherSpawns(s.sh, l.t, s.th[l.t], l.c); }
    }
  }

  // A goroutine that is past its start is where its own last step, k, took it.
  lemma OwnStep(ss: seq<State>, ls: seq<Label>, i: nat, t: Tid) returns (k: nat)
    requires Trace(ss, ls) && i <= |ls| < |ss| && t in ss[i].th && !StartPoint(ss[i].th[t])
    ensures k < i && PutBy(ss, ls, k, i, t) && t in ss[k].th && StepOf(ls[k], t)
    ensures Enabled(ss[k], ls[k]) && ss[k + 1] == Do(ss[k], ls[k]) && Inv(ss[k]) && SpawnInv(ss[k])
    ensures t in ss[k + 1].th && ss[k + 1].th[t] == ss[i].th[t]
  {
    hide Trace, Inv, SpawnInv, Enabled, Do, StartPoint;
    WasPut(ss, ls, i, t);
    k :| PutBy(ss, ls, k, i, t);
    PutByStep(ss, ls, k, i, t);
    if t !in ss[k].th { StartsThere(ss[k], ls[k], t); }
  }
}
