/**
 A forwarding pair or a splice at any moment of a run: which of its two copies have ended, and how far its once-only
 cleanup has come.
*/
module Pairs {
  import opened PendingHeap
  import opened Protocol
  import opened ProtocolInvariant
  import opened ProtocolOwnership
  import opened ThreadHistory

  ghost predicate IsPair(t: Tid) {
    t.Fwd? || t.Splice?
  }

  // How many steps of the cleanup of t are among the first i of the run.
  function Actions(ls: seq<Label>, t: Tid, i: nat): nat
    requires i <= |ls|
  {
    if i == 0 then 0 else Actions(ls, t, i - 1) + if ls[i - 1] == Go(t, Ok) then 1 else 0
  }

  // Where the cleanup stands after n actions, once a copy has ended: a forwarding pair closes the SSH connection,
  // then the tunnel, and then cleans its session up; a splice closes both websockets.
  function Stage(forward: bool, n: nat): Once {
    if n == 0 then CloseFirst
    else if n == 1 then CloseSecond
    else if n == 2 && forward then Unlist
    else Finished
  }

  ghost predicate HasEnded(ls: seq<Label>, t: Tid, c: Choice, i: nat)
    requires i <= |ls|
  {
    exists k :: 0 <= k < i && ls[k] == Go(t, c)
  }

  // The pair is what its history makes it.
  ghost predicate AsHistory(p: Pair, forward: bool, ls: seq<Label>, t: Tid, i: nat)
    requires i <= |ls|
  {
    && (p.left <==> !HasEnded(ls, t, Left, i))
    && (p.right <==> !HasEnded(ls, t, Right, i))
    && p.once == (if p.left && p.right then Idle else Stage(forward, Actions(ls, t, i)))
    && (p.left && p.right ==> Actions(ls, t, i) == 0)
    && Actions(ls, t, i) <= (if forward then 3 else 2)
  }

  lemma PairMoves(sh: Shared, t: Tid, pc: Pc, c: Choice)
    requires CanStep(sh, t, pc, c) && IsPair(t)
    ensures pc.FPair? || pc.XPair?
    ensures t.Fwd? <==> pc.FPair?
    ensures c == Left || c == Right || c == Ok
    ensures var e := Step(sh, t, pc, c);
            && (e.pc.FPair? <==> pc.FPair?) && (e.pc.XPair? <==> pc.XPair?)
            && CanMove(pc.pair, c)
            && e.pc.pair == (if c == Ok then pc.pair.(once := if pc.pair.once.CloseFirst? then CloseSecond
                                                              else if pc.pair.once.CloseSecond? && pc.FPair? then Unlist
                                                              else Finished)
                             else EndCopy(pc.pair, c))
  {
    hide KeysMatch, CanSsh, CanTun, CanWatch, CanWait;
  }

  lemma NothingYet(ls: seq<Label>, t: Tid, i: nat)
    requires i <= |ls| && forall k :: 0 <= k < i ==> !StepOf(ls[k], t)
    ensures Actions(ls, t, i) == 0 && !HasEnded(ls, t, Left, i) && !HasEnded(ls, t, Right, i)
  {
    if i > 0 { NothingYet(ls, t, i - 1); }
  }

  lemma HistoryMoves(p: Pair, forward: bool, ls: seq<Label>, t: Tid, i: nat)
    requires i < |ls| && AsHistory(p, forward, ls, t, i)
    ensures !StepOf(ls[i], t) ==> AsHistory(p, forward, ls, t, i + 1)
    ensures ls[i] == Go(t, Left) && p.left ==> AsHistory(EndCopy(p, Left), forward, ls, t, i + 1)
    ensures ls[i] == Go(t, Right) && p.right ==> AsHistory(EndCopy(p, Right), forward, ls, t, i + 1)
    ensures ls[i] == Go(t, Ok) && p.once != Idle && p.once != Finished ==>
              AsHistory(p.(once := if p.once.CloseFirst? then CloseSecond
                                   else if p.once.CloseSecond? && forward then Unlist else Finished),
                        forward, ls, t, i + 1)
  {
    EndedMore(ls, t, Left, i);
    EndedMore(ls, t, Right, i);
    hide HasEnded;
  }

  lemma EndedMore(ls: seq<Label>, t: Tid, c: Choice, i: nat)
    requires i < |ls|
    ensures HasEnded(ls, t, c, i + 1) <==> HasEnded(ls, t, c, i) || ls[i] == Go(t, c)
  {
  }

  lemma {:induction false} NotThereYet(ss: seq<State>, ls: seq<Label>, i: nat, t: Tid)
    requires Trace(ss, ls) && i <= |ls| < |ss| && t !in ss[i].th
    ensures forall k :: 0 <= k < i ==> !StepOf(ls[k], t)
  {
    hide Inv, SpawnInv, OwnerInv, Do;
    if i > 0 {
      var j := i - 1;
      TraceHeld(ss, ls, j);
      assert Enabled(ss[j], ls[j]) && ss[i] == Do(ss[j], ls[j]);
      if StepOf(ls[j], t) { GoNext(ss[j], ls[j], t); }
      hide Enabled;
      if t in ss[j].th && !StepOf(ls[j], t) { OthersStay(ss[j], ls[j], t); }
      NotThereYet(ss, ls, j, t);
    }
  }

  // At every moment of every run: a copy runs until it ends, once; the cleanup is idle while both run, and then
  // goes through its actions in order, one step each, whichever copy ended first.
  lemma {:induction false} PairIsHistory(ss: seq<State>, ls: seq<Label>, i: nat, t: Tid)
    requires Trace(ss, ls) && i <= |ls| < |ss| && t in ss[i].th && IsPair(t)
    ensures t.Fwd? ==> ss[i].th[t].FPair? && AsHistory(ss[i].th[t].pair, true, ls, t, i)
    ensures t.Splice? ==> ss[i].th[t].XPair? && AsHistory(ss[i].th[t].pair, false, ls, t, i)
  {
    hide Inv, SpawnInv, OwnerInv, Do, AsHistory, CanStep, Step, EndCopy, HasEnded;
    if i > 0 {
      var j := i - 1;
      TraceHeld(ss, ls, j);
      assert Enabled(ss[j], ls[j]) && ss[i] == Do(ss[j], ls[j]);
      if t !in ss[j].th {
        hide Enabled;
        NotThereYet(ss, ls, j, t);
        PairStarts(ss[j], ls[j], t);
        assert !StepOf(ls[j], t);
        NothingYet(ls, t, i);
        FreshHistory(t.Fwd?, ls, t, i);
      } else {
        PairIsHistory(ss, ls, j, t);
        HistoryMoves(ss[j].th[t].pair, t.Fwd?, ls, t, j);
        if StepOf(ls[j], t) {
          GoNext(ss[j], ls[j], t);
          PairMoves(ss[j].sh, t, ss[j].th[t], ls[j].c);
        } else {
          hide Enabled;
          OthersStay(ss[j], ls[j], t);
        }
      }
    }
  }

  lemma FreshHistory(forward: bool, ls: seq<Label>, t: Tid, i: nat)
    requires i <= |ls| && Actions(ls, t, i) == 0 && !HasEnded(ls, t, Left, i) && !HasEnded(ls, t, Right, i)
    ensures AsHistory(Pair(true, true, Idle), forward, ls, t, i)
  {
  }

  lemma PairStarts(s: State, l: Label, t: Tid)
    requires Inv(s) && SpawnInv(s) && Enabled(s, l) && t !in s.th && t in Do(s, l).th && IsPair(t)
    ensures !StepOf(l, t)
    ensures t.Fwd? ==> Do(s, l).th[t].FPair? && Do(s, l).th[t].pair == Pair(true, true, Idle)
    ensures t.Splice? ==> Do(s, l).th[t].XPair? && Do(s, l).th[t].pair == Pair(true, true, Idle)
  {
    StartsThere(s, l, t);
    StepInv(s, l);
    ThreadOk(Do(s, l), t);
    hide Inv, SpawnInv, Do, CanStep, BoundTo, HelloOk, FrameOk;
  }
}
