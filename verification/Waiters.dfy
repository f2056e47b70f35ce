/**
 Why the waiter of an entry client ends as it does: it closes its client exactly when its timer fires or its ID is
 no longer listed, and hands it over exactly when it takes a tunnel out of a session.
*/
module Waiters {
  import opened PendingHeap
  import opened Protocol
  import opened ProtocolInvariant
  import opened ProtocolOwnership
  import opened SessionTheorems
  import opened ThreadHistory
  import opened EntryTheorems

  // The timer of id's waiter fires before it has found a tunnel.
  ghost predicate GivesUp(s: State, l: Label, id: Id) {
    StepOf(l, Wait(id)) && l.c.Timer? && Wait(id) in s.th && s.th[Wait(id)].EWait?
  }

  // It looks its ID up and finds no session.
  ghost predicate FindsGone(s: State, l: Label, id: Id) {
    && StepOf(l, Wait(id)) && !l.c.Timer? && Wait(id) in s.th && s.th[Wait(id)].EWait?
    && s.th[Wait(id)].key !in s.sh.heap.pending
  }

  ghost predicate Lets(s: State, l: Label, id: Id) {
    GivesUp(s, l, id) || FindsGone(s, l, id)
  }

  // It is closing its client, or has done so.
  ghost predicate Letting(s: State, id: Id) {
    Wait(id) in s.th && (s.th[Wait(id)].EClean? || s.th[Wait(id)].EClosed?)
  }

  lemma WaitGoes(sh: Shared, id: Id, pc: Pc, c: Choice)
    requires CanStep(sh, Wait(id), pc, c)
    ensures var e := Step(sh, Wait(id), pc, c).pc;
            && (e.EClean? <==> pc.EWait? && c.Timer?)
            && (e.EClosed? <==> pc.EClean? || (pc.EWait? && !c.Timer? && pc.key !in sh.heap.pending))
  {
    hide KeysMatch, Cleanup;
  }

  lemma LettingStays(s: State, l: Label, id: Id)
    requires Inv(s) && SpawnInv(s) && Enabled(s, l)
    requires Letting(s, id) || Lets(s, l, id)
    ensures Letting(Do(s, l), id)
  {
    hide Inv, SpawnInv, CanStep, Step, Fresh;
    if StepOf(l, Wait(id)) {
      GoNext(s, l, Wait(id));
      WaitGoes(s.sh, id, s.th[Wait(id)], l.c);
      if s.th[Wait(id)].EClosed? { ExitedTakesNone(s, l, Wait(id)); }
    } else {
      OthersStay(s, l, Wait(id));
      hide Enabled, Do;
    }
  }

  lemma ExitedTakesNone(s: State, l: Label, t: Tid)
    requires Enabled(s, l) && t in s.th && (s.th[t].EClosed? || s.th[t].EHanded?)
    ensures !StepOf(l, t)
  {
    hide CanSsh, CanTun, CanWatch, CanWait, CanPair;
  }

  lemma {:induction false} LettingForever(ss: seq<State>, ls: seq<Label>, i: nat, j: nat, id: Id)
    requires Trace(ss, ls) && i <= j <= |ls| < |ss| && Letting(ss[i], id)
    ensures Letting(ss[j], id)
    decreases j
  {
    hide Inv, SpawnInv, OwnerInv, Enabled, Do, Init, Letting, Lets;
    if i < j {
      LettingForever(ss, ls, i, j - 1, id);
      TraceHeld(ss, ls, j - 1);
      assert Enabled(ss[j - 1], ls[j - 1]);
      LettingStays(ss[j - 1], ls[j - 1], id);
    }
  }

  lemma WhyLetting(ss: seq<State>, ls: seq<Label>, i: nat, id: Id)
    requires Trace(ss, ls) && i <= |ls| < |ss| && Letting(ss[i], id)
    ensures exists k :: 0 <= k < i && Lets(ss[k], ls[k], id)
    decreases i
  {
    hide Trace, Inv, SpawnInv, PutBy, CanStep, Step, Fresh;
    var k := OwnStep(ss, ls, i, Wait(id));
    GoNext(ss[k], ls[k], Wait(id));
    WaitGoes(ss[k].sh, id, ss[k].th[Wait(id)], ls[k].c);
    hide Enabled, Do;
    if ss[k].th[Wait(id)].EClean? {
      WhyLetting(ss, ls, k, id);
    } else {
      assert Lets(ss[k], ls[k], id);
    }
  }

  // A waiter that has returned closed its client if and only if its timer fired or its ID was unlisted when it
  // looked, and handed it over if and only if it took a tunnel out of a session.
  lemma WaiterOutcomeIff(ss: seq<State>, ls: seq<Label>, i: nat, id: Id)
    requires Trace(ss, ls) && i <= |ls| < |ss| && Wait(id) in ss[i].th && Exited(ss[i].th[Wait(id)])
    ensures ss[i].th[Wait(id)].EClosed? <==> exists k :: 0 <= k < i && Lets(ss[k], ls[k], id)
    ensures ss[i].th[Wait(id)].EHanded? <==> exists k, o, w :: 0 <= k < i && HandsOver(ss[k], ls[k], id, o, w)
  {
    hide Trace, Inv, SpawnInv, OwnerInv, Lets, HandsOver, HandedFrom;
    EntryWaiterOutcome(ss, ls, i, id);
    if ss[i].th[Wait(id)].EClosed? { WhyLetting(ss, ls, i, id); }
    if ss[i].th[Wait(id)].EHanded? { WasHandedOver(ss, ls, i, id); }
    forall k | 0 <= k < i && Lets(ss[k], ls[k], id) ensures ss[i].th[Wait(id)].EClosed? {
      LetsLeads(ss, ls, k, i, id);
    }
    forall k, o, w | 0 <= k < i && HandsOver(ss[k], ls[k], id, o, w) ensures ss[i].th[Wait(id)].EHanded? {
      HandsLeads(ss, ls, k, i, id, o, w);
    }
  }

  lemma LetsLeads(ss: seq<State>, ls: seq<Label>, k: nat, i: nat, id: Id)
    requires Trace(ss, ls) && k < i <= |ls| < |ss| && Lets(ss[k], ls[k], id)
    requires Wait(id) in ss[i].th && Exited(ss[i].th[Wait(id)])
    ensures ss[i].th[Wait(id)].EClosed?
  {
    hide Init, Inv, SpawnInv, OwnerInv, Do, Lets;
    TraceHeld(ss, ls, k);
    assert Enabled(ss[k], ls[k]) && ss[k + 1] == Do(ss[k], ls[k]);
    hide Trace, Enabled;
    LettingStays(ss[k], ls[k], id);
    LettingForever(ss, ls, k + 1, i, id);
  }

  lemma HandsLeads(ss: seq<State>, ls: seq<Label>, k: nat, i: nat, id: Id, o: Id, w: Id)
    requires Trace(ss, ls) && k < i <= |ls| < |ss| && HandsOver(ss[k], ls[k], id, o, w)
    ensures Wait(id) in ss[i].th && ss[i].th[Wait(id)].EHanded?
  {
    hide Init, Inv, SpawnInv, OwnerInv, Do, HandsOver;
    TraceHeld(ss, ls, k);
    assert Enabled(ss[k], ls[k]) && ss[k + 1] == Do(ss[k], ls[k]);
    hide Trace, Enabled;
    HandedIsExit(ss[k], ls[k], id, o, w);
    FinishedForever(ss, ls, k + 1, i, Wait(id));
  }
}
