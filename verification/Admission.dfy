/**
 Which SSH connections get a session, and who is left in charge of a session when its handler has returned.
*/
module Admission {
  import opened PendingHeap
  import opened Protocol
  import opened ProtocolInvariant
  import opened ProtocolOwnership
  import opened SessionTheorems
  import opened SessionStates
  import opened ThreadHistory
  import AgentBook
  import Handshake
  import Registry
  import RegistryTheorems

  // onSSHConn of connection c finds no such agent, or an agent without a control connection.
  ghost predicate TurnsAway(s: State, l: Label, c: Id) {
    && StepOf(l, Main(c)) && Main(c) in s.th
    && ((s.th[Main(c)].SLookup? && s.th[Main(c)].agent !in s.sh.reg.book.agents)
        || (s.th[Main(c)].SCheck? && Control(s.sh, s.th[Main(c)].ref).None?))
  }

  // It finds the agent, and later its control connection.
  ghost predicate FindsAgent(s: State, l: Label, c: Id, ref: AgentBook.Ref) {
    && StepOf(l, Main(c)) && Main(c) in s.th && s.th[Main(c)].SLookup?
    && s.th[Main(c)].agent in s.sh.reg.book.agents && s.sh.reg.book.agents[s.th[Main(c)].agent] == ref
  }

  ghost predicate FindsOnline(s: State, l: Label, c: Id, ref: AgentBook.Ref) {
    && StepOf(l, Main(c)) && Main(c) in s.th && s.th[Main(c)].SCheck? && s.th[Main(c)].ref == ref
    && Control(s.sh, ref).Some?
  }

  lemma SshGoes(sh: Shared, c: Id, pc: Pc, ch: Choice)
    requires CanStep(sh, Main(c), pc, ch) && c.Ssh?
    ensures var e := Step(sh, Main(c), pc, ch);
            && (e.pc.SCheck? <==> pc.SLookup? && pc.agent in sh.reg.book.agents)
            && (e.pc.SCheck? ==> e.pc.ref == sh.reg.book.agents[pc.agent])
            && (e.pc.SInsert? <==> pc.SCheck? && Control(sh, pc.ref).Some?)
            && (e.pc.SInsert? ==> e.pc.ref == pc.ref)
            && (e.pc.SSend? <==> pc.SInsert?)
            && (e.pc.Done? <==>
                  || (pc.SLookup? && pc.agent !in sh.reg.book.agents) || (pc.SCheck? && Control(sh, pc.ref).None?)
                  || pc.SFail? || pc.SSpawn?)
  {
    hide KeysMatch, Cleanup, SendOpen, Control, SendOk, CanTun, IsTun, TunStep;
  }

  // What onSSHConn sees of an agent's current AgentState is the control connection that LatestControlWins is about.
  lemma SeesControl(sh: Shared, a: string)
    requires AgentBook.Known(sh.reg.book, a)
    ensures Control(sh, sh.reg.book.agents[a]) == RegistryTheorems.Controlling(sh.reg.book, a)
  {
  }

  // ---------- Admitted ----------

  // A handler about to enter a session has found its agent, and then a control connection of it.
  lemma InsertsAfterCheck(ss: seq<State>, ls: seq<Label>, j: nat, c: Id) returns (a: nat, k: nat)
    requires Trace(ss, ls) && j <= |ls| < |ss| && c.Ssh? && Main(c) in ss[j].th && ss[j].th[Main(c)].SInsert?
    ensures a < k < j
    ensures FindsAgent(ss[a], ls[a], c, ss[j].th[Main(c)].ref) && FindsOnline(ss[k], ls[k], c, ss[j].th[Main(c)].ref)
  {
    hide Trace, Inv, SpawnInv, PutBy, CanStep, Step, Fresh, Control;
    k := OwnStep(ss, ls, j, Main(c));
    GoNext(ss[k], ls[k], Main(c));
    SshGoes(ss[k].sh, c, ss[k].th[Main(c)], ls[k].c);
    a := OwnStep(ss, ls, k, Main(c));
    GoNext(ss[a], ls[a], Main(c));
    SshGoes(ss[a].sh, c, ss[a].th[Main(c)], ls[a].c);
    hide Enabled, Do;
  }

  // onSSHConn is about to enter its session, or has done so.
  ghost predicate Admitted(s: State, c: Id) {
    Main(c) in s.th && (s.th[Main(c)].SInsert? || c in s.sh.heap.objs)
  }

  // It has returned without one.
  ghost predicate TurnedAway(s: State, c: Id) {
    Main(c) in s.th && s.th[Main(c)].Done? && c !in s.sh.heap.objs
  }

  lemma EntersNow(s: State, l: Label, c: Id)
    requires Inv(s) && Enabled(s, l) && StepOf(l, Main(c)) && Main(c) in s.th && s.th[Main(c)].SInsert?
    ensures c in Do(s, l).sh.heap.objs
  {
    hide Inv, KeysMatch, Handshake.IsUuid, Fresh;
  }

  lemma ObjsStay(s: State, l: Label, c: Id)
    requires Inv(s) && SpawnInv(s) && Enabled(s, l)
    ensures c in s.sh.heap.objs ==> c in Do(s, l).sh.heap.objs
    ensures TurnedAway(s, c) ==> c !in Do(s, l).sh.heap.objs
  {
    hide Inv, SpawnInv, Do, Registry.Enabled, Fresh, CanStep;
    StateStep(s, l, c);
    if TurnedAway(s, c) && StepOf(l, Main(c)) { DoneIsOver(s, l, Main(c)); }
    if c !in s.sh.heap.objs && c in Do(s, l).sh.heap.objs { NewByMain(s, l, c); }
    hide Written;
  }

  lemma DoneIsOver(s: State, l: Label, t: Tid)
    requires Enabled(s, l) && t in s.th && s.th[t].Done?
    ensures !StepOf(l, t)
  {
    hide CanSsh, CanTun, CanWatch, CanWait, CanPair;
  }

  // Only its handler makes a session.
  lemma NewByMain(s: State, l: Label, c: Id)
    requires Inv(s) && Enabled(s, l) && c !in s.sh.heap.objs && c in Do(s, l).sh.heap.objs
    ensures StepOf(l, Main(c))
  {
    hide Do, Registry.Enabled;
    if l.Go? { GoInv(s, l.t, l.c); } else { EnvInv(s, l); }
    hide Inv, CanStep;
  }

  lemma AdmittedStays(s: State, l: Label, c: Id)
    requires Inv(s) && SpawnInv(s) && Enabled(s, l) && c.Ssh?
    ensures Admitted(s, c) ==> Admitted(Do(s, l), c)
    ensures TurnedAway(s, c) ==> TurnedAway(Do(s, l), c)
  {
    hide Inv, SpawnInv, CanStep, Step, Fresh;
    if Main(c) in s.th {
      if StepOf(l, Main(c)) {
        GoNext(s, l, Main(c));
        if s.th[Main(c)].SInsert? { EntersNow(s, l, c); }
        DoneTakesNone(s, l, c);
      } else {
        OthersStay(s, l, Main(c));
      }
      hide Enabled, Do;
      ObjsStay(s, l, c);
    }
  }

  lemma DoneTakesNone(s: State, l: Label, c: Id)
    requires Enabled(s, l) && StepOf(l, Main(c))
    ensures !TurnedAway(s, c)
  {
    if TurnedAway(s, c) { DoneIsOver(s, l, Main(c)); }
    hide Enabled;
  }

  lemma {:induction false} AdmittedForever(ss: seq<State>, ls: seq<Label>, i: nat, j: nat, c: Id)
    requires Trace(ss, ls) && i <= j <= |ls| < |ss| && c.Ssh?
    ensures Admitted(ss[i], c) ==> Admitted(ss[j], c)
    ensures TurnedAway(ss[i], c) ==> TurnedAway(ss[j], c)
    decreases j
  {
    hide Inv, SpawnInv, OwnerInv, Enabled, Do, Init, Admitted, TurnedAway;
    if i < j {
      AdmittedForever(ss, ls, i, j - 1, c);
      TraceHeld(ss, ls, j - 1);
      assert Enabled(ss[j - 1], ls[j - 1]);
      AdmittedStays(ss[j - 1], ls[j - 1], c);
    }
  }

  lemma SshOnlyByInsert(sh: Shared, c: Id, pc: Pc, ch: Choice)
    requires CanStep(sh, Main(c), pc, ch) && c.Ssh? && c !in sh.heap.objs && c in Step(sh, Main(c), pc, ch).sh.heap.objs
    ensures pc.SInsert?
  {
    StepWrites(sh, Main(c), pc, ch, c);
    hide Step, KeysMatch, BindsSession, CleansSession, CanTun, IsTun, CanSsh;
  }

  // Every SSH-initiated session was entered by its onSSHConn.
  lemma {:induction false} WasEntered(ss: seq<State>, ls: seq<Label>, i: nat, c: Id)
    requires Trace(ss, ls) && i <= |ls| < |ss| && c.Ssh? && c in ss[i].sh.heap.objs
    ensures exists j :: 0 <= j < i && Main(c) in ss[j].th && ss[j].th[Main(c)].SInsert?
  {
    hide Inv, Enabled, Do, CanStep, Step;
    if i > 0 {
      var j := i - 1;
      if c in ss[j].sh.heap.objs {
        WasEntered(ss, ls, j, c);
      } else {
        TraceInv(ss, ls, j);
        assert Enabled(ss[j], ls[j]) && ss[i] == Do(ss[j], ls[j]);
        NewByMain(ss[j], ls[j], c);
        GoNext(ss[j], ls[j], Main(c));
        SshOnlyByInsert(ss[j].sh, c, ss[j].th[Main(c)], ls[j].c);
      }
    }
  }

  lemma AdmitsNow(s: State, l: Label, c: Id, ref: AgentBook.Ref)
    requires Inv(s) && Enabled(s, l) && c.Ssh?
    ensures FindsOnline(s, l, c, ref) ==> Admitted(Do(s, l), c)
    ensures TurnsAway(s, l, c) ==> TurnedAway(Do(s, l), c)
  {
    hide Inv, CanStep, Step, Fresh, Control;
    if StepOf(l, Main(c)) {
      GoNext(s, l, Main(c));
      SshGoes(s.sh, c, s.th[Main(c)], l.c);
      ThreadOk(s, Main(c));
      if s.th[Main(c)].SLookup? || s.th[Main(c)].SCheck? {
        NotYet(s.sh, c, s.th[Main(c)]);
        LooksOnly(s.sh, c, s.th[Main(c)], l.c);
      }
      hide PcOk;
    }
  }

  lemma NotYet(sh: Shared, c: Id, pc: Pc)
    requires PcOk(sh, Main(c), pc) && (pc.SLookup? || pc.SCheck?)
    ensures c.Ssh? ==> c !in sh.heap.objs
  {
    hide PortOf, RefOk;
  }

  lemma LooksOnly(sh: Shared, c: Id, pc: Pc, ch: Choice)
    requires CanStep(sh, Main(c), pc, ch) && c.Ssh? && (pc.SLookup? || pc.SCheck?)
    ensures Step(sh, Main(c), pc, ch).sh.heap.objs == sh.heap.objs
  {
    hide KeysMatch, Control, CanTun, IsTun, TunStep;
  }

  // An accepted SSH connection, once its onSSHConn has returned, has a session if and only if its agent was found
  // and then found online, and has none if and only if one of the two failed.
  lemma AdmittedIff(ss: seq<State>, ls: seq<Label>, i: nat, c: Id)
    requires Trace(ss, ls) && i <= |ls| < |ss| && c.Ssh? && Main(c) in ss[i].th && ss[i].th[Main(c)].Done?
    ensures c in ss[i].sh.heap.objs
            <==> exists a, k, ref ::
                   0 <= a < k < i && FindsAgent(ss[a], ls[a], c, ref) && FindsOnline(ss[k], ls[k], c, ref)
    ensures c !in ss[i].sh.heap.objs <==> exists k :: 0 <= k < i && TurnsAway(ss[k], ls[k], c)
  {
    hide Trace, Enabled, Do, Inv, FindsAgent, FindsOnline, TurnsAway, PutBy, SpawnInv;
    if c in ss[i].sh.heap.objs {
      WasEntered(ss, ls, i, c);
      var j: nat :| j < i && Main(c) in ss[j].th && ss[j].th[Main(c)].SInsert?;
      var a, k := InsertsAfterCheck(ss, ls, j, c);
    } else {
      ReturnsEarly(ss, ls, i, c);
    }
    forall a, k, ref | 0 <= a < k < i && FindsAgent(ss[a], ls[a], c, ref) && FindsOnline(ss[k], ls[k], c, ref)
      ensures c in ss[i].sh.heap.objs
    {
      Leads(ss, ls, k, i, c, ref);
    }
    forall k | 0 <= k < i && TurnsAway(ss[k], ls[k], c) ensures c !in ss[i].sh.heap.objs {
      Leads(ss, ls, k, i, c, AgentBook.Added(0));
    }
  }

  lemma Leads(ss: seq<State>, ls: seq<Label>, k: nat, i: nat, c: Id, ref: AgentBook.Ref)
    requires Trace(ss, ls) && k < i <= |ls| < |ss| && c.Ssh? && Main(c) in ss[i].th && ss[i].th[Main(c)].Done?
    ensures FindsOnline(ss[k], ls[k], c, ref) ==> c in ss[i].sh.heap.objs
    ensures TurnsAway(ss[k], ls[k], c) ==> c !in ss[i].sh.heap.objs
  {
    hide Init, Inv, Do, FindsOnline, TurnsAway;
    TraceInv(ss, ls, k);
    assert Enabled(ss[k], ls[k]) && ss[k + 1] == Do(ss[k], ls[k]);
    hide Trace, Enabled;
    AdmitsNow(ss[k], ls[k], c, ref);
    AdmittedForever(ss, ls, k + 1, i, c);
  }

  lemma ReturnsEarly(ss: seq<State>, ls: seq<Label>, i: nat, c: Id)
    requires Trace(ss, ls) && i <= |ls| < |ss| && c.Ssh? && Main(c) in ss[i].th && ss[i].th[Main(c)].Done?
    requires c !in ss[i].sh.heap.objs
    ensures exists k :: 0 <= k < i && TurnsAway(ss[k], ls[k], c)
  {
    hide Trace, Inv, SpawnInv, PutBy, CanStep, Step, Fresh, Control;
    var k := OwnStep(ss, ls, i, Main(c));
    GoNext(ss[k], ls[k], Main(c));
    SshGoes(ss[k].sh, c, ss[k].th[Main(c)], ls[k].c);
    hide Enabled, Do;
    ThreadOk(ss[k], Main(c));
    LaterRun(ss, ls, k, i);
    if ss[k].th[Main(c)].SFail? || ss[k].th[Main(c)].SSpawn? { HasEntered(ss[k].sh, c, ss[k].th[Main(c)]); }
    hide PcOk;
    assert TurnsAway(ss[k], ls[k], c);
  }

  lemma HasEntered(sh: Shared, c: Id, pc: Pc)
    requires PcOk(sh, Main(c), pc) && (pc.SFail? || pc.SSpawn?) && c.Ssh?
    ensures c in sh.heap.objs
  {
    hide Begun;
  }

  // ---------- Who is left in charge ----------

  // The handler of o is still at work on it, or has left it to a watcher, and to a waiter if it is an entry one.
  ghost predicate Attended(th: Threads, o: Id) {
    || (Main(o) in th && (th[Main(o)].SSend? || th[Main(o)].SMark? || th[Main(o)].SSpawn?
                          || th[Main(o)].TSend? || th[Main(o)].TMark? || th[Main(o)].TSpawn?))
    || (Watch(o) in th && (o.Tun? ==> Wait(o) in th))
  }

  lemma AttendedGoes(sh: Shared, o: Id, pc: Pc, c: Choice)
    requires CanStep(sh, Main(o), pc, c)
    requires pc.SInsert? || pc.TCreate? || pc.SSend? || pc.SMark? || pc.SSpawn? || pc.TSend? || pc.TMark? || pc.TSpawn?
    ensures var e := Step(sh, Main(o), pc, c);
            || e.pc.SSend? || e.pc.SMark? || e.pc.SSpawn? || e.pc.TSend? || e.pc.TMark? || e.pc.TSpawn?
            || (Watch(o) in e.spawn && (o.Tun? ==> Wait(o) in e.spawn))
            || ((pc.SSend? || pc.TSend?) && (!c.Ok? || Control(sh, pc.ref).None?))
  {
    hide KeysMatch, Cleanup, SendOpen, Control;
  }

  lemma AttendedStays(s: State, l: Label, o: Id)
    requires Inv(s) && SpawnInv(s) && Enabled(s, l)
    requires Attended(s.th, o)
             || (StepOf(l, Main(o)) && Main(o) in s.th && (s.th[Main(o)].SInsert? || s.th[Main(o)].TCreate?))
    ensures Attended(Do(s, l).th, o) || FailsToSend(s, l, o)
  {
    hide Inv, SpawnInv, CanStep, Step, Fresh, SendOk;
    if Watch(o) in s.th && (o.Tun? ==> Wait(o) in s.th) {
      Remains(s, l, Watch(o));
      if o.Tun? { Remains(s, l, Wait(o)); }
    } else if StepOf(l, Main(o)) {
      AttendedGoes(s.sh, o, s.th[Main(o)], l.c);
      StepShape(s.sh, Main(o), s.th[Main(o)], l.c);
    } else {
      OthersStay(s, l, Main(o));
      hide Enabled, Do;
    }
  }

  lemma Remains(s: State, l: Label, t: Tid)
    requires Inv(s) && SpawnInv(s) && Enabled(s, l) && t in s.th
    ensures t in Do(s, l).th
  {
    hide Inv, SpawnInv, Enabled, Do;
    if StepOf(l, t) { GoNext(s, l, t); } else { OthersStay(s, l, t); }
  }

  lemma EnteredAt(sh: Shared, o: Id, pc: Pc, c: Choice)
    requires CanStep(sh, Main(o), pc, c) && o !in sh.heap.objs && o in Step(sh, Main(o), pc, c).sh.heap.objs
    ensures pc.SInsert? || pc.TCreate?
  {
    StepWrites(sh, Main(o), pc, c, o);
    MarksExisting(sh, o, pc, c);
    hide Step, CanStep;
    if CleansSession(sh, pc, c, o) || BindsSession(sh, pc, o) {
      FoundExists(sh, pc, c, o);
    }
  }

  lemma MarksExisting(sh: Shared, o: Id, pc: Pc, c: Choice)
    requires CanStep(sh, Main(o), pc, c)
    ensures pc.SMark? || pc.TMark? ==> o in sh.heap.objs
    ensures KeysMatch(sh.heap) && (pc.TEntry? ==> pc.o in sh.heap.objs)
  {
    hide KeysMatch;
  }

  lemma FoundExists(sh: Shared, pc: Pc, c: Choice, o: Id)
    requires KeysMatch(sh.heap) && (pc.TEntry? ==> pc.o in sh.heap.objs)
    requires CleansSession(sh, pc, c, o) || BindsSession(sh, pc, o)
    ensures o in sh.heap.objs
  {
  }

  // In every run every session that exists is attended to, unless its handler failed to send OPEN.
  lemma {:induction false} AllAttended(ss: seq<State>, ls: seq<Label>, i: nat, o: Id)
    requires Trace(ss, ls) && i <= |ls| < |ss| && o in ss[i].sh.heap.objs
    ensures Attended(ss[i].th, o) || exists k :: 0 <= k < i && FailsToSend(ss[k], ls[k], o)
  {
    hide Inv, SpawnInv, OwnerInv, Enabled, Do, Attended, FailsToSend, CanStep, Step;
    if i > 0 {
      var j := i - 1;
      TraceHeld(ss, ls, j);
      assert Enabled(ss[j], ls[j]) && ss[i] == Do(ss[j], ls[j]);
      if o in ss[j].sh.heap.objs {
        AllAttended(ss, ls, j, o);
        if Attended(ss[j].th, o) { AttendedStays(ss[j], ls[j], o); }
      } else {
        NewByMain(ss[j], ls[j], o);
        GoNext(ss[j], ls[j], Main(o));
        EnteredAt(ss[j].sh, o, ss[j].th[Main(o)], ls[j].c);
        AttendedStays(ss[j], ls[j], o);
      }
    }
  }
}
