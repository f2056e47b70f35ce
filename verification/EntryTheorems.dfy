/**
 What becomes of an entry client's websocket: its waiter closes it, or splices it, once, with a tunnel that an
 agent's handler gave to a session under the waiter's own ID. Two waiters can splice one tunnel only when two
 clients chose one ID.
*/
module EntryTheorems {
  import opened Options
  import opened PendingHeap
  import opened Protocol
  import opened ProtocolInvariant
  import opened ProtocolOwnership
  import opened SessionTheorems
  import opened TunnelHistory
  import Registry

  // ---------- The waiter's steps ----------

  // The waiter of entry session id finds session o bound.
  ghost predicate ReadsBound(s: State, l: Label, id: Id, o: Id) {
    && l.Go? && l.t == Wait(id) && Wait(id) in s.th && s.th[Wait(id)].EState? && s.th[Wait(id)].o == o
    && o in s.sh.heap.objs && s.sh.heap.objs[o].phase.BOUND?
  }

  // The waiter of entry session id reads the tunnel w of session o and starts its splice with w.
  ghost predicate HandsOver(s: State, l: Label, id: Id, o: Id, w: Id) {
    && l.Go? && l.t == Wait(id) && Wait(id) in s.th && s.th[Wait(id)].ETunnel? && s.th[Wait(id)].o == o
    && o in s.sh.heap.objs && s.sh.heap.objs[o].tunnel == Some(w)
  }

  // Sessions id and o are entry sessions under one ID.
  ghost predicate SameId(sh: Shared, id: Id, o: Id) {
    && id.Tun? && o.Tun? && id in sh.heap.objs && o in sh.heap.objs
    && sh.heap.objs[id].key == sh.heap.objs[o].key
  }

  lemma WaiterMoves(sh: Shared, id: Id, pc: Pc, c: Choice)
    requires CanStep(sh, Wait(id), pc, c)
    ensures var e := Step(sh, Wait(id), pc, c);
            && (e.pc.ETunnel? ==> pc.EState? && pc.o == e.pc.o && sh.heap.objs[pc.o].phase.BOUND?)
            && (e.pc.EHanded? ==> pc.ETunnel? && sh.heap.objs[pc.o].tunnel == Some(e.pc.tunnel))
  {
    hide KeysMatch, Cleanup;
  }

  // A waiter gets to ETunnel and EHanded by its own steps only.
  lemma WaiterStep(s: State, l: Label, id: Id)
    requires Inv(s) && SpawnInv(s) && Enabled(s, l) && Wait(id) in Do(s, l).th
    requires !(Wait(id) in s.th && s.th[Wait(id)] == Do(s, l).th[Wait(id)])
    ensures var pc := Do(s, l).th[Wait(id)];
            && (pc.ETunnel? ==> ReadsBound(s, l, id, pc.o))
            && (pc.EHanded? ==>
                  Wait(id) in s.th && s.th[Wait(id)].ETunnel? && HandsOver(s, l, id, s.th[Wait(id)].o, pc.tunnel))
  {
    hide Inv, SpawnInv, CanStep, Step, Registry.Enabled, Registry.Do, Fresh;
    if l.Go? {
      NextIsNoThread(s, Tun(s.sh.next));
      StepShape(s.sh, l.t, s.th[l.t], l.c);
      if l.t == Wait(id) {
        WaiterMoves(s.sh, id, s.th[l.t], l.c);
        WaiterReads(s.sh, id, s.th[l.t], l.c);
      }
    } else {
      EnvWaiter(s, l, id);
    }
  }

  lemma WaiterReads(sh: Shared, id: Id, pc: Pc, c: Choice)
    requires CanStep(sh, Wait(id), pc, c)
    ensures pc.EState? || pc.ETunnel? ==> pc.o in sh.heap.objs
  {
    hide KeysMatch;
  }

  lemma EnvWaiter(s: State, l: Label, id: Id)
    requires Inv(s) && Enabled(s, l) && !l.Go? && Wait(id) in Do(s, l).th
    ensures Wait(id) in s.th && s.th[Wait(id)] == Do(s, l).th[Wait(id)]
  {
    hide Inv, Registry.Enabled, Registry.Do, Fresh;
    if Wait(id) in s.th { EnvThreads(s, l, Wait(id)); }
  }

  lemma {:induction false} BoundWasRead(ss: seq<State>, ls: seq<Label>, i: nat, id: Id)
    requires Trace(ss, ls) && i < |ss| && Wait(id) in ss[i].th && ss[i].th[Wait(id)].ETunnel?
    ensures exists e :: 0 <= e < i && ReadsBound(ss[e], ls[e], id, ss[i].th[Wait(id)].o)
  {
    hide Inv, SpawnInv, OwnerInv, Enabled, Do, ReadsBound, HandsOver;
    if i > 0 {
      var k := i - 1;
      TraceHeld(ss, ls, k);
      assert Enabled(ss[k], ls[k]) && ss[i] == Do(ss[k], ls[k]);
      if Wait(id) in ss[k].th && ss[k].th[Wait(id)] == ss[i].th[Wait(id)] {
        BoundWasRead(ss, ls, k, id);
      } else {
        WaiterStep(ss[k], ls[k], id);
      }
    }
  }

  lemma {:induction false} WasHandedOver(ss: seq<State>, ls: seq<Label>, i: nat, id: Id)
    requires Trace(ss, ls) && i < |ss| && Wait(id) in ss[i].th && ss[i].th[Wait(id)].EHanded?
    ensures exists j, o :: 0 <= j < i && HandsOver(ss[j], ls[j], id, o, ss[i].th[Wait(id)].tunnel)
  {
    hide Inv, SpawnInv, OwnerInv, Enabled, Do, ReadsBound, HandsOver;
    if i > 0 {
      var k := i - 1;
      TraceHeld(ss, ls, k);
      assert Enabled(ss[k], ls[k]) && ss[i] == Do(ss[k], ls[k]);
      if Wait(id) in ss[k].th && ss[k].th[Wait(id)] == ss[i].th[Wait(id)] {
        WasHandedOver(ss, ls, k, id);
      } else {
        WaiterStep(ss[k], ls[k], id);
      }
    }
  }

  lemma HandsOverSameId(s: State, l: Label, id: Id, o: Id, w: Id)
    requires Inv(s) && HandsOver(s, l, id, o, w)
    ensures SameId(s.sh, id, o)
  {
    ThreadOk(s, Wait(id));
    hide Inv;
  }

  // ---------- The outcome ----------

  // In step j the waiter of id handed its websocket over to tunnel w of session o: an entry session under the
  // waiter's own ID, which it had found bound, and to which the handler of w had given w.
  ghost predicate HandedFrom(ss: seq<State>, ls: seq<Label>, j: nat, id: Id, o: Id, w: Id)
    requires |ls| < |ss|
  {
    && j < |ls| && HandsOver(ss[j], ls[j], id, o, w) && SameId(ss[j].sh, id, o)
    && (exists e :: 0 <= e < j && ReadsBound(ss[e], ls[e], id, o))
    && (exists k :: 0 <= k < j && Gives(ss[k], ls[k], o, w))
  }

  lemma HandedWell(ss: seq<State>, ls: seq<Label>, j: nat, id: Id, o: Id, w: Id)
    requires Trace(ss, ls) && j < |ls| && HandsOver(ss[j], ls[j], id, o, w)
    ensures HandedFrom(ss, ls, j, id, o, w)
  {
    TraceInv(ss, ls, j);
    HandsOverSameId(ss[j], ls[j], id, o, w);
    BoundWasRead(ss, ls, j, id);
    TunnelWasGiven(ss, ls, j, o, w);
    hide Trace, Inv, Gives, ReadsBound, SameId;
  }

  // Once the waiter of an entry session has returned, it has closed the entry websocket and started no
  // splice; or it has handed it over, in a step of the run, to a bound tunnel of a session under its own ID,
  // and its splice joins it with that tunnel.
  lemma EntryWaiterOutcome(ss: seq<State>, ls: seq<Label>, i: nat, id: Id)
    requires Trace(ss, ls) && i < |ss| && Wait(id) in ss[i].th && Exited(ss[i].th[Wait(id)])
    ensures ss[i].th[Wait(id)].EClosed? || ss[i].th[Wait(id)].EHanded?
    ensures ss[i].th[Wait(id)].EClosed? ==> id in ss[i].sh.heap.closed && Splice(id) !in ss[i].th
    ensures ss[i].th[Wait(id)].EHanded? ==>
              var w := ss[i].th[Wait(id)].tunnel;
              && Splice(id) in ss[i].th && ss[i].th[Splice(id)].XPair? && ss[i].th[Splice(id)].tunnel == w
              && exists j: nat, o :: j < i && HandedFrom(ss, ls, j, id, o, w)
  {
    hide Inv, OwnerInv, HandedFrom, Trace;
    TraceHeld(ss, ls, i);
    ThreadOk(ss[i], Wait(id));
    assert SpawnOk(ss[i].th, id);
    if ss[i].th[Wait(id)].EHanded? {
      var w := ss[i].th[Wait(id)].tunnel;
      WasHandedOver(ss, ls, i, id);
      TraceLength(ss, ls);
      var j, o :| 0 <= j < i && HandsOver(ss[j], ls[j], id, o, w);
      HandedWell(ss, ls, j, id, o, w);
    }
  }

  lemma TraceLength(ss: seq<State>, ls: seq<Label>)
    requires Trace(ss, ls)
    ensures |ss| == |ls| + 1
  {
  }

  lemma HandedIsExit(s: State, l: Label, id: Id, o: Id, w: Id)
    requires Inv(s) && SpawnInv(s) && Enabled(s, l) && HandsOver(s, l, id, o, w)
    ensures Wait(id) in Do(s, l).th && Do(s, l).th[Wait(id)].EHanded?
  {
    hide Inv, SpawnInv, KeysMatch;
  }

  lemma ExitedHandsOverNot(s: State, l: Label, id: Id, o: Id, w: Id)
    requires Wait(id) in s.th && s.th[Wait(id)].EHanded?
    ensures !HandsOver(s, l, id, o, w)
  {
  }

  lemma HandsOverTwice(ss: seq<State>, ls: seq<Label>, i: nat, j: nat, id: Id, o: Id, o': Id, w: Id, w': Id)
    requires Trace(ss, ls) && i < j < |ls| && HandsOver(ss[i], ls[i], id, o, w)
    ensures !HandsOver(ss[j], ls[j], id, o', w')
  {
    hide Inv, SpawnInv, OwnerInv, Enabled, Do, HandsOver;
    TraceHeld(ss, ls, i);
    assert Enabled(ss[i], ls[i]);
    HandedIsExit(ss[i], ls[i], id, o, w);
    FinishedForever(ss, ls, i + 1, j, Wait(id));
    ExitedHandsOverNot(ss[j], ls[j], id, o', w');
  }

  // A waiter hands its websocket over at most once in a whole run, to one splice.
  lemma HandsOverAtMostOnce(ss: seq<State>, ls: seq<Label>, i: nat, j: nat, id: Id, o: Id, o': Id, w: Id, w': Id)
    requires Trace(ss, ls) && i < |ls| && j < |ls|
    requires HandsOver(ss[i], ls[i], id, o, w) && HandsOver(ss[j], ls[j], id, o', w')
    ensures i == j && o == o' && w == w'
  {
    if i < j {
      HandsOverTwice(ss, ls, i, j, id, o, o', w, w');
    } else if j < i {
      HandsOverTwice(ss, ls, j, i, id, o', o, w', w);
    }
  }

  // At rest, whichever way the waiter went, the entry websocket is closed, and so is the websocket it was
  // spliced to.
  lemma EntryClosedAtRest(ss: seq<State>, ls: seq<Label>, i: nat, id: Id)
    requires Trace(ss, ls) && i < |ss| && Quiescent(ss[i]) && Wait(id) in ss[i].th
    ensures id in ss[i].sh.heap.closed
    ensures ss[i].th[Wait(id)].EHanded? ==> ss[i].th[Wait(id)].tunnel in ss[i].sh.heap.closed
  {
    TraceHeld(ss, ls, i);
    var s := ss[i];
    assert AtRest(s.th[Wait(id)]) && PcOk(s.sh, Wait(id), s.th[Wait(id)]);
    if s.th[Wait(id)].EHanded? {
      assert SpawnOk(s.th, id);
      assert AtRest(s.th[Splice(id)]) && PcOk(s.sh, Splice(id), s.th[Splice(id)]);
    }
  }

  // ---------- One websocket in two pairs ----------

  lemma GiverIsTun(s: State, l: Label, o: Id, w: Id)
    requires Inv(s) && Gives(s, l, o, w)
    ensures w.Tun?
  {
    ThreadOk(s, Main(w));
    hide Inv;
  }

  // One websocket handed over twice came from one session both times.
  lemma OneSource(ss: seq<State>, ls: seq<Label>, i: nat, j: nat, id: Id, id': Id, o: Id, o': Id, w: Id)
    requires Trace(ss, ls) && i < |ls| && j < |ls|
    requires HandsOver(ss[i], ls[i], id, o, w) && HandsOver(ss[j], ls[j], id', o', w)
    ensures o == o'
  {
    hide Trace, Gives;
    TraceLength(ss, ls);
    TunnelWasGiven(ss, ls, i, o, w);
    TunnelWasGiven(ss, ls, j, o', w);
    var k :| 0 <= k < i && Gives(ss[k], ls[k], o, w);
    var k' :| 0 <= k' < j && Gives(ss[k'], ls[k'], o', w);
    GivesOnce(ss, ls, k, k', o, o', w);
  }

  // A tunnel that a session has at i and at j was not replaced in between.
  lemma NotReplaced(ss: seq<State>, ls: seq<Label>, i: nat, j: nat, k: nat, o: Id, w: Id, v: Id)
    requires Trace(ss, ls) && i <= k < j < |ss| && HasTunnel(ss[i], o, w) && HasTunnel(ss[j], o, w)
    ensures !Gives(ss[k], ls[k], o, v)
  {
    hide Inv, Enabled, Do, Init, Gives;
    TunnelWasGiven(ss, ls, i, o, w);
    var k0 :| 0 <= k0 < i && Gives(ss[k0], ls[k0], o, w);
    if Gives(ss[k], ls[k], o, v) {
      TraceInv(ss, ls, k);
      assert Enabled(ss[k], ls[k]) && ss[k + 1] == Do(ss[k], ls[k]);
      GiverIsTun(ss[k], ls[k], o, v);
      GivesSets(ss[k], ls[k], o, v);
      if v == w {
        GivesOnce(ss, ls, k0, k, o, o, w);
      } else {
        TunnelGivenSince(ss, ls, k + 1, j, o, w);
        var k1 :| k + 1 <= k1 < j && Gives(ss[k1], ls[k1], o, w);
        GivesOnce(ss, ls, k0, k1, o, o, w);
      }
    }
  }

  // Two handovers are of one websocket if and only if they are from one session whose tunnel nobody replaced
  // in between.
  lemma SplicesShareIff(ss: seq<State>, ls: seq<Label>, i: nat, j: nat, id: Id, id': Id, o: Id, o': Id, w: Id, w': Id)
    requires Trace(ss, ls) && i <= j < |ls|
    requires HandsOver(ss[i], ls[i], id, o, w) && HandsOver(ss[j], ls[j], id', o', w')
    ensures w == w' <==> o == o' && !exists k, v :: i <= k < j && Gives(ss[k], ls[k], o, v)
  {
    hide Trace, Gives;
    TraceLength(ss, ls);
    if w == w' {
      OneSource(ss, ls, i, j, id, id', o, o', w);
      forall k, v | i <= k < j ensures !Gives(ss[k], ls[k], o, v) {
        NotReplaced(ss, ls, i, j, k, o, w, v);
      }
    } else if o == o' {
      TunnelGivenSince(ss, ls, i, j, o, w');
    }
  }

  // So two waiters splice one websocket only if their clients chose one ID.
  lemma SplicesShareOnlyOneId(ss: seq<State>, ls: seq<Label>, i: nat, j: nat, id: Id, id': Id, o: Id, o': Id, w: Id)
    requires Trace(ss, ls) && i <= j < |ls|
    requires HandsOver(ss[i], ls[i], id, o, w) && HandsOver(ss[j], ls[j], id', o', w)
    ensures SameId(ss[j].sh, id, id')
  {
    hide Trace, Inv, HandsOver;
    TraceLength(ss, ls);
    OneSource(ss, ls, i, j, id, id', o, o', w);
    TraceInv(ss, ls, i);
    TraceInv(ss, ls, j);
    HandsOverSameId(ss[i], ls[i], id, o, w);
    HandsOverSameId(ss[j], ls[j], id', o', w);
    LaterRun(ss, ls, i, j);
  }

  // The websocket that is forwarded to an SSH connection is never spliced with an entry websocket.
  lemma ForwardedNotSpliced(ss: seq<State>, ls: seq<Label>, i: nat, w: Id, id: Id)
    requires Trace(ss, ls) && i < |ss| && Fwd(w) in ss[i].th && Splice(id) in ss[i].th
    requires ss[i].th[Fwd(w)].FPair? && ss[i].th[Fwd(w)].o.Ssh? && ss[i].th[Splice(id)].XPair?
    ensures ss[i].th[Splice(id)].tunnel != w
  {
    hide Inv, OwnerInv, Trace, Gives;
    TraceHeld(ss, ls, i);
    assert SpawnOk(ss[i].th, id);
    ThreadOk(ss[i], Fwd(w));
    var o, v := ss[i].th[Fwd(w)].o, ss[i].th[Splice(id)].tunnel;
    TunnelWasGiven(ss, ls, i, o, w);
    TraceLength(ss, ls);
    var k :| 0 <= k < i && Gives(ss[k], ls[k], o, w);
    EntryWaiterOutcome(ss, ls, i, id);
    var j: nat, o' :| j < i && HandedFrom(ss, ls, j, id, o', v);
    var k' :| 0 <= k' < j && Gives(ss[k'], ls[k'], o', v);
    if v == w { GivesOnce(ss, ls, k, k', o, o', w); }
  }

  // ---------- Which tunnel ----------

  // Step k made w the tunnel of o, and no step between it and i gave o another.
  ghost predicate LastGiven(ss: seq<State>, ls: seq<Label>, k: nat, i: nat, o: Id, w: Id)
    requires i <= |ls| < |ss|
  {
    k < i && Gives(ss[k], ls[k], o, w) && forall n, v :: k < n < i ==> !Gives(ss[n], ls[n], o, v)
  }

  // The tunnel of a session, of either kind, is the one it was given last.
  lemma TunnelIsLastGiven(ss: seq<State>, ls: seq<Label>, i: nat, o: Id, w: Id)
    requires Trace(ss, ls) && i <= |ls| < |ss|
    ensures HasTunnel(ss[i], o, w) <==> exists k :: LastGiven(ss, ls, k, i, o, w)
  {
    hide Trace, Gives;
    if HasTunnel(ss[i], o, w) {
      TunnelWasGiven(ss, ls, i, o, w);
      var k: nat :| k < i && Gives(ss[k], ls[k], o, w);
      GivenNow(ss, ls, k, o, w);
      forall n, v | k < n < i ensures !Gives(ss[n], ls[n], o, v) {
        NotReplaced(ss, ls, k + 1, i, n, o, w, v);
      }
      assert LastGiven(ss, ls, k, i, o, w);
    }
    forall k: nat | LastGiven(ss, ls, k, i, o, w) ensures HasTunnel(ss[i], o, w) {
      GivenNow(ss, ls, k, o, w);
      LaterRun(ss, ls, k + 1, i);
      var v := ss[i].sh.heap.objs[o].tunnel.value;
      if v != w { TunnelGivenSince(ss, ls, k + 1, i, o, v); }
    }
  }

  lemma GivenNow(ss: seq<State>, ls: seq<Label>, k: nat, o: Id, w: Id)
    requires Trace(ss, ls) && k < |ls| < |ss| && Gives(ss[k], ls[k], o, w)
    ensures HasTunnel(ss[k + 1], o, w)
  {
    hide Inv, Do, Init, Gives;
    TraceInv(ss, ls, k);
    assert Enabled(ss[k], ls[k]) && ss[k + 1] == Do(ss[k], ls[k]);
    hide Enabled;
    GiverIsTun(ss[k], ls[k], o, w);
    GivesSets(ss[k], ls[k], o, w);
  }
}
