/**
 What the watcher of a session does, for sessions of both kinds: it removes its ID exactly when it has read the
 state of the session listed there, and read neither BOUND nor CLOSED.
*/
module Watchers {
  import opened PendingHeap
  import opened Protocol
  import opened ProtocolInvariant
  import opened ProtocolOwnership
  import opened SessionTheorems
  import opened ThreadHistory
  import Registry

  // The timer of session id's watcher has fired, and it finds session o listed, or none.
  ghost predicate FindsListed(s: State, l: Label, id: Id, o: Id) {
    && StepOf(l, Watch(id)) && Watch(id) in s.th && s.th[Watch(id)].WArm?
    && s.th[Watch(id)].key in s.sh.heap.pending && s.sh.heap.pending[s.th[Watch(id)].key] == o
  }

  ghost predicate FindsNone(s: State, l: Label, id: Id) {
    && StepOf(l, Watch(id)) && Watch(id) in s.th && s.th[Watch(id)].WArm?
    && s.th[Watch(id)].key !in s.sh.heap.pending
  }

  // It reads the state p of session o.
  ghost predicate ReadsState(s: State, l: Label, id: Id, o: Id, p: Phase) {
    && StepOf(l, Watch(id)) && Watch(id) in s.th && s.th[Watch(id)].WRead? && s.th[Watch(id)].o == o
    && o in s.sh.heap.objs && s.sh.heap.objs[o].phase == p
  }

  // It removes its session's ID.
  ghost predicate TimesOutId(s: State, l: Label, id: Id) {
    StepOf(l, Watch(id)) && Watch(id) in s.th && s.th[Watch(id)].WClean?
  }

  predicate Settled(p: Phase) {
    p == BOUND || p == CLOSED
  }

  // ---------- One step ----------

  lemma WatchStepIs(s: State, l: Label, id: Id)
    requires Enabled(s, l) && StepOf(l, Watch(id))
    ensures var pc, th := s.th[Watch(id)], Do(s, l).th;
            && Watch(id) in th
            && (th[Watch(id)].WRead? <==> exists o :: FindsListed(s, l, id, o))
            && (th[Watch(id)].WRead? ==> FindsListed(s, l, id, th[Watch(id)].o))
            && (th[Watch(id)].WClean? <==> exists o, p :: ReadsState(s, l, id, o, p) && !Settled(p))
            && (th[Watch(id)].Done? <==>
                  || FindsNone(s, l, id) || TimesOutId(s, l, id)
                  || exists o, p :: ReadsState(s, l, id, o, p) && Settled(p))
  {
    hide KeysMatch, Cleanup, Fresh;
    var pc := s.th[Watch(id)];
    if pc.WArm? && pc.key in s.sh.heap.pending {
      assert FindsListed(s, l, id, s.sh.heap.pending[pc.key]);
    }
    if pc.WRead? {
      assert ReadsState(s, l, id, pc.o, s.sh.heap.objs[pc.o].phase);
    }
  }

  lemma StartsArmed(s: State, l: Label, id: Id)
    requires Inv(s) && Enabled(s, l) && Watch(id) !in s.th && Watch(id) in Do(s, l).th
    ensures Do(s, l).th[Watch(id)].WArm?
  {
    hide Inv, CanStep, Step, Registry.Enabled, Registry.Do, Fresh;
    if l.Go? { StepShape(s.sh, l.t, s.th[l.t], l.c); }
  }

  lemma WatchMove(ss: seq<State>, ls: seq<Label>, i: nat, id: Id) returns (k: nat)
    requires Trace(ss, ls) && i <= |ls| < |ss| && Watch(id) in ss[i].th && !ss[i].th[Watch(id)].WArm?
    ensures k < i && PutBy(ss, ls, k, i, Watch(id)) && StepOf(ls[k], Watch(id)) && Enabled(ss[k], ls[k])
    ensures ss[k + 1] == Do(ss[k], ls[k]) && Watch(id) in ss[k + 1].th && ss[k + 1].th[Watch(id)] == ss[i].th[Watch(id)]
  {
    hide Trace, Inv, SpawnInv, Enabled, Do;
    WasPut(ss, ls, i, Watch(id));
    k :| PutBy(ss, ls, k, i, Watch(id));
    PutByStep(ss, ls, k, i, Watch(id));
    if Watch(id) !in ss[k].th { StartsArmed(ss[k], ls[k], id); }
  }

  // ---------- The whole run ----------

  // The watcher of id found session o listed and read its state p, in two steps before j.
  ghost predicate HasRead(ss: seq<State>, ls: seq<Label>, j: nat, id: Id, o: Id, p: Phase)
    requires j <= |ls| < |ss|
  {
    exists a, k :: 0 <= a < k < j && FindsListed(ss[a], ls[a], id, o) && ReadsState(ss[k], ls[k], id, o, p)
  }

  // A watcher removes an ID only after it has read a state other than BOUND and CLOSED of the session it found.
  lemma TimeoutWasRead(ss: seq<State>, ls: seq<Label>, j: nat, id: Id)
    requires Trace(ss, ls) && j < |ls| < |ss| && TimesOutId(ss[j], ls[j], id)
    ensures exists o, p :: HasRead(ss, ls, j, id, o, p) && !Settled(p)
  {
    hide Trace, Enabled, Do, PutBy;
    var k := WatchMove(ss, ls, j, id);
    WatchStepIs(ss[k], ls[k], id);
    var o, p :| ReadsState(ss[k], ls[k], id, o, p) && !Settled(p);
    ReadWasFound(ss, ls, k, id, o, p);
    ReadBefore(ss, ls, k, j, id, o, p);
  }

  lemma ReadWasFound(ss: seq<State>, ls: seq<Label>, k: nat, id: Id, o: Id, p: Phase)
    requires Trace(ss, ls) && k < |ls| < |ss| && ReadsState(ss[k], ls[k], id, o, p)
    ensures exists a :: 0 <= a < k && FindsListed(ss[a], ls[a], id, o)
  {
    hide Trace, Enabled, Do, PutBy;
    var a := WatchMove(ss, ls, k, id);
    WatchStepIs(ss[a], ls[a], id);
  }

  // One that has read BOUND or CLOSED takes no further step.
  lemma SettledIsLast(ss: seq<State>, ls: seq<Label>, k: nat, j: nat, id: Id, o: Id, p: Phase)
    requires Trace(ss, ls) && k < j < |ls| && ReadsState(ss[k], ls[k], id, o, p) && Settled(p)
    ensures !StepOf(ls[j], Watch(id))
  {
    assert Enabled(ss[k], ls[k]) && ss[k + 1] == Do(ss[k], ls[k]) && Enabled(ss[j], ls[j]);
    hide Init, Do, ReadsState;
    WatchStepIs(ss[k], ls[k], id);
    FinishedForever(ss, ls, k + 1, j, Watch(id));
    DoneDoesNothing(ss[j], ls[j], Watch(id));
  }

  lemma DoneDoesNothing(s: State, l: Label, t: Tid)
    requires Enabled(s, l) && t in s.th && s.th[t].Done?
    ensures !StepOf(l, t)
  {
    hide CanSsh, CanTun, CanWatch, CanWait, CanPair;
  }

  // The watcher is about to remove its ID, or has returned.
  ghost predicate Decided(s: State, id: Id) {
    Watch(id) in s.th && (s.th[Watch(id)].WClean? || s.th[Watch(id)].Done?)
  }

  lemma DecidedStays(s: State, l: Label, id: Id)
    requires Inv(s) && SpawnInv(s) && Enabled(s, l) && Decided(s, id)
    ensures Decided(Do(s, l), id)
  {
    hide Inv, SpawnInv, Do;
    if StepOf(l, Watch(id)) { WatchStepIs(s, l, id); } else { hide Enabled; OthersStay(s, l, Watch(id)); }
  }

  lemma {:induction false} DecidedForever(ss: seq<State>, ls: seq<Label>, i: nat, j: nat, id: Id)
    requires Trace(ss, ls) && i <= j < |ss| && Decided(ss[i], id)
    ensures Decided(ss[j], id)
    decreases j
  {
    hide Inv, SpawnInv, OwnerInv, Enabled, Do, Init, Decided;
    if i < j {
      DecidedForever(ss, ls, i, j - 1, id);
      TraceHeld(ss, ls, j - 1);
      assert Enabled(ss[j - 1], ls[j - 1]);
      DecidedStays(ss[j - 1], ls[j - 1], id);
    }
  }

  // A watcher that has returned removed its ID if and only if it read a state other than BOUND and CLOSED; if
  // it did not, it found no session listed, or read BOUND or CLOSED.
  lemma WatcherOutcome(ss: seq<State>, ls: seq<Label>, i: nat, id: Id)
    requires Trace(ss, ls) && i <= |ls| < |ss| && Watch(id) in ss[i].th && ss[i].th[Watch(id)].Done?
    ensures (exists j :: 0 <= j < i && TimesOutId(ss[j], ls[j], id))
            <==> exists o, p :: HasRead(ss, ls, i, id, o, p) && !Settled(p)
    ensures (exists j :: 0 <= j < i && TimesOutId(ss[j], ls[j], id))
            || (exists j :: 0 <= j < i && FindsNone(ss[j], ls[j], id))
            || exists o, p :: HasRead(ss, ls, i, id, o, p) && Settled(p)
  {
    hide Trace, Enabled, Do, PutBy, HasRead, TimesOutId;
    var k := WatchMove(ss, ls, i, id);
    WatchStepIs(ss[k], ls[k], id);
    if o, p :| ReadsState(ss[k], ls[k], id, o, p) && Settled(p) {
      ReadWasFound(ss, ls, k, id, o, p);
      ReadBefore(ss, ls, k, i, id, o, p);
    }
    forall j | 0 <= j < i && TimesOutId(ss[j], ls[j], id)
      ensures exists o, p :: HasRead(ss, ls, i, id, o, p) && !Settled(p)
    {
      TimeoutWasRead(ss, ls, j, id);
      var o, p :| HasRead(ss, ls, j, id, o, p) && !Settled(p);
      ReadEarlier(ss, ls, j, i, id, o, p);
    }
    forall o, p | HasRead(ss, ls, i, id, o, p) && !Settled(p) ensures TimesOutId(ss[k], ls[k], id) {
      UnsettledGoesOn(ss, ls, k, i, id, o, p);
    }
  }

  lemma ReadBefore(ss: seq<State>, ls: seq<Label>, k: nat, i: nat, id: Id, o: Id, p: Phase)
    requires k < i <= |ls| < |ss| && ReadsState(ss[k], ls[k], id, o, p)
    requires exists a :: 0 <= a < k && FindsListed(ss[a], ls[a], id, o)
    ensures HasRead(ss, ls, i, id, o, p)
  {
  }

  lemma ReadEarlier(ss: seq<State>, ls: seq<Label>, j: nat, i: nat, id: Id, o: Id, p: Phase)
    requires j <= i <= |ls| < |ss| && HasRead(ss, ls, j, id, o, p)
    ensures HasRead(ss, ls, i, id, o, p)
  {
  }

  // The last step of a watcher that has read an unsettled state is the removal.
  lemma UnsettledGoesOn(ss: seq<State>, ls: seq<Label>, k: nat, i: nat, id: Id, o: Id, p: Phase)
    requires Trace(ss, ls) && k < i <= |ls| < |ss| && PutBy(ss, ls, k, i, Watch(id)) && ss[i].th[Watch(id)].Done?
    requires HasRead(ss, ls, i, id, o, p) && !Settled(p)
    ensures TimesOutId(ss[k], ls[k], id)
  {
    hide Trace, Enabled, Inv, SpawnInv, Do, ReadsState, FindsListed, PutBy, TimesOutId, Decided;
    var a, m :| 0 <= a < m < i && FindsListed(ss[a], ls[a], id, o) && ReadsState(ss[m], ls[m], id, o, p);
    UnsettledNext(ss, ls, m, id, o, p);
    PutByStep(ss, ls, k, i, Watch(id));
    if k <= m {
      PutSince(ss, ls, k, i, Watch(id), m + 1);
    } else {
      DecidedForever(ss, ls, m + 1, k, id);
      LastIsRemoval(ss[k], ls[k], id);
    }
  }

  lemma UnsettledNext(ss: seq<State>, ls: seq<Label>, m: nat, id: Id, o: Id, p: Phase)
    requires Trace(ss, ls) && m < |ls| < |ss| && ReadsState(ss[m], ls[m], id, o, p) && !Settled(p)
    ensures Decided(ss[m + 1], id) && ss[m + 1].th[Watch(id)].WClean?
  {
    assert Enabled(ss[m], ls[m]) && ss[m + 1] == Do(ss[m], ls[m]);
    hide Trace, Enabled, Do;
    ReadIsStep(ss[m], ls[m], id, o, p);
    WatchStepIs(ss[m], ls[m], id);
  }

  // A step that a decided watcher can take.
  lemma LastIsRemoval(s: State, l: Label, id: Id)
    requires Enabled(s, l) && Decided(s, id) && (Watch(id) in s.th ==> StepOf(l, Watch(id)))
    ensures TimesOutId(s, l, id)
  {
    if s.th[Watch(id)].Done? { DoneDoesNothing(s, l, Watch(id)); }
    hide Enabled;
  }

  lemma ReadIsStep(s: State, l: Label, id: Id, o: Id, p: Phase)
    requires ReadsState(s, l, id, o, p)
    ensures StepOf(l, Watch(id)) && Watch(id) in s.th
  {
  }
}
