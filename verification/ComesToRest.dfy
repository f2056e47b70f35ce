/**
 Rest can be reached: from every state, with enough unused IDs for the connections still on their way in,
 goroutine steps alone bring the hub to rest, in no more steps than the work that remains. With real agents
 it then has nothing left behind.
*/
module ComesToRest {
  import opened Options
  import opened PendingHeap
  import opened Protocol
  import opened ProtocolInvariant
  import opened ProtocolOwnership
  import opened SessionTheorems
  import opened ComposedSystem
  import opened Drain
  import Handshake

  // ---------- IDs nobody holds ----------

  // onSSHConn has yet to generate its session's ID.
  ghost predicate NeedsId(pc: Pc) {
    pc.SLookup? || pc.SCheck? || pc.SInsert?
  }

  ghost function Needing(th: Threads): set<Tid> {
    set t | t in th && NeedsId(th[t])
  }

  // Distinct IDs that nobody holds.
  ghost predicate Pool(s: State, pool: seq<string>) {
    && (forall i :: 0 <= i < |pool| ==> Handshake.IsUuid(pool[i]) && Fresh(s, pool[i]))
    && (forall i, j :: 0 <= i < j < |pool| ==> pool[i] != pool[j])
  }

  // A step of a goroutine that does not hold k, and is not given k, brings k into nothing.
  ghost predicate KeepsOut(sh: Shared, e: Effect, k: string) {
    && Unused(e.sh, k) && Carries(e.pc) != Some(k)
    && forall u :: u in e.spawn ==> Carries(e.spawn[u]) != Some(k)
  }

  lemma HeapKeepsOut(h: Heap, key: string, phase: Phase, k: string)
    requires KeysMatch(h) && forall o :: o in h.objs ==> h.objs[o].key != k
    ensures var g := Cleanup(h, key, phase); forall o :: o in g.objs ==> g.objs[o].key != k
  {
  }

  lemma SshKeepsOut(sh: Shared, id: Id, pc: Pc, c: Choice, k: string)
    requires IsSsh(pc) && CanSsh(sh, id, pc, c) && Unused(sh, k) && Carries(pc) != Some(k) && c != New(k)
    ensures KeepsOut(sh, SshStep(sh, id, pc, c), k)
  {
    hide KeysMatch, Cleanup, Handshake.IsUuid, Control, SendOk;
    if pc.SFail? { HeapKeepsOut(sh.heap, pc.key, CLOSED, k); }
  }

  lemma ReadKeepsOut(sha: Handshake.Hash, hdr: string, f: Wire, k: string)
    requires Handshake.IsUuid(k) && hdr != k
    ensures ReadId(sha, hdr, f) != Some(k)
  {
    if hdr == "" && |f.data| == Handshake.FRAME_SIZE {
      Handshake.HeaderlessId(sha, f.data[Handshake.MAGIC_SIZE..]);
    }
    hide Handshake.IsUuid, Handshake.Frame;
  }

  lemma BindKeepsOut(h: Heap, key: string, w: Id, k: string)
    requires KeysMatch(h) && forall o :: o in h.objs ==> h.objs[o].key != k
    ensures forall o :: o in Bind(h, key, w).objs ==> Bind(h, key, w).objs[o].key != k
  {
  }

  lemma TunKeepsOut(sh: Shared, id: Id, pc: Pc, c: Choice, k: string)
    requires IsTun(pc) && CanTun(sh, id, pc, c) && Unused(sh, k) && Carries(pc) != Some(k) && Handshake.IsUuid(k)
    ensures KeepsOut(sh, TunStep(sh, id, pc, c), k)
  {
    hide Unused, Carries, Handshake.IsUuid;
    TunHeapKeepsOut(sh, id, pc, c, k);
    TunPointKeepsOut(sh, id, pc, c, k);
    hide TunStep, CanTun, IsTun;
  }

  // No session or message gets the ID ...
  lemma TunHeapKeepsOut(sh: Shared, id: Id, pc: Pc, c: Choice, k: string)
    requires IsTun(pc) && CanTun(sh, id, pc, c) && Unused(sh, k) && Carries(pc) != Some(k)
    ensures Unused(TunStep(sh, id, pc, c).sh, k)
  {
    hide KeysMatch, Cleanup, Bind, ReadId;
    TunFrame(sh, id, pc, c);
    if pc.TFail? {
      HeapKeepsOut(sh.heap, pc.key, CLOSED, k);
    } else if pc.TBind? {
      BindKeepsOut(sh.heap, pc.key, id, k);
    } else if pc.TEntry? || pc.TCreate? || pc.TMark? || pc.TSend? {
    } else {
      TunQuiet(sh, id, pc, c);
      hide TunStep;
    }
  }

  lemma TunQuiet(sh: Shared, id: Id, pc: Pc, c: Choice)
    requires IsTun(pc) && CanTun(sh, id, pc, c)
    requires pc.TAgent? || pc.TAccept? || pc.TRead? || pc.TLookup? || pc.TVerify? || pc.TFailClose? || pc.TSpawn?
    ensures var b := TunStep(sh, id, pc, c).sh; b.heap.objs == sh.heap.objs && b.sent == sh.sent
  {
    hide KeysMatch, ReadId, IsTun;
  }

  // ... and neither the handler's next point nor what it starts carries it.
  lemma TunPointKeepsOut(sh: Shared, id: Id, pc: Pc, c: Choice, k: string)
    requires IsTun(pc) && CanTun(sh, id, pc, c) && Unused(sh, k) && Carries(pc) != Some(k) && Handshake.IsUuid(k)
    ensures var e := TunStep(sh, id, pc, c);
            Carries(e.pc) != Some(k) && forall u :: u in e.spawn ==> Carries(e.spawn[u]) != Some(k)
  {
    hide KeysMatch, Cleanup, Bind, BindOutcome, ReadId, SendOpen, SendOk, Handshake.IsUuid;
    if pc.TRead? {
      if c.Ok? { ReadKeepsOut(sh.sha, pc.hdr, sh.wire[id], k); }
      hide Unused, IsTun;
    }
  }

  lemma PairKeepsOut(sh: Shared, id: Id, pc: Pc, c: Choice, k: string)
    requires CanPair(sh, pc, c) && Unused(sh, k) && Carries(pc) != Some(k)
    ensures KeepsOut(sh, PairStep(sh, id, pc, c), k)
  {
    if pc.FPair? { HeapKeepsOut(sh.heap, pc.key, CLOSED, k); }
    hide KeysMatch, Cleanup;
  }

  lemma OtherKeepsOut(sh: Shared, t: Tid, pc: Pc, c: Choice, k: string)
    requires CanStep(sh, t, pc, c) && (t.Watch? || t.Wait? || t.Dial?) && Unused(sh, k) && Carries(pc) != Some(k)
    ensures KeepsOut(sh, Step(sh, t, pc, c), k)
  {
    hide CanSsh, CanTun, CanPair, CanWatch, CanWait, IsWatch, IsWait, IsDial, SshStep, TunStep, PairStep, WatchStep,
         WaitStep, DialStep, Unused, Carries, KeepsOut;
    if t.Dial? {
      DialKeepsOut(sh, t.msg, pc, c, k);
    } else if t.Watch? {
      WatchKeepsOut(sh, pc, k);
    } else {
      WaitKeepsOut(sh, t.id, pc, c, k);
    }
  }

  lemma WatchKeepsOut(sh: Shared, pc: Pc, k: string)
    requires IsWatch(pc) && CanWatch(sh, pc) && Unused(sh, k) && Carries(pc) != Some(k)
    ensures KeepsOut(sh, WatchStep(sh, pc), k)
  {
    if pc.WClean? { HeapKeepsOut(sh.heap, pc.key, TIMEOUT, k); }
    hide KeysMatch, Cleanup;
  }

  lemma WaitKeepsOut(sh: Shared, id: Id, pc: Pc, c: Choice, k: string)
    requires IsWait(pc) && CanWait(sh, pc) && Unused(sh, k) && Carries(pc) != Some(k)
    ensures KeepsOut(sh, WaitStep(sh, id, pc, c), k)
  {
    if pc.EClean? { HeapKeepsOut(sh.heap, pc.key, TIMEOUT, k); }
    hide KeysMatch, Cleanup;
  }

  lemma DialKeepsOut(sh: Shared, m: nat, pc: Pc, c: Choice, k: string)
    requires IsDial(pc) && Unused(sh, k) && Carries(pc) != Some(k)
    ensures KeepsOut(sh, DialStep(sh, m, pc, c), k)
  {
  }

  lemma StepKeepsOut(sh: Shared, t: Tid, pc: Pc, c: Choice, k: string)
    requires CanStep(sh, t, pc, c) && Unused(sh, k) && Carries(pc) != Some(k) && c != New(k) && Handshake.IsUuid(k)
    ensures KeepsOut(sh, Step(sh, t, pc, c), k)
  {
    hide Unused, Carries, KeepsOut, CanSsh, CanTun, CanPair, IsSsh, IsTun, SshStep, TunStep, PairStep, Handshake.IsUuid;
    if t.Main? {
      if t.id.Ssh? { SshKeepsOut(sh, t.id, pc, c, k); } else { TunKeepsOut(sh, t.id, pc, c, k); }
    } else if t.Fwd? || t.Splice? {
      PairKeepsOut(sh, t.id, pc, c, k);
    } else {
      OtherKeepsOut(sh, t, pc, c, k);
    }
  }

  lemma FreshStays(s: State, t: Tid, c: Choice, k: string)
    requires Enabled(s, Go(t, c)) && Fresh(s, k) && Handshake.IsUuid(k) && c != New(k)
    ensures Fresh(Do(s, Go(t, c)), k)
  {
    hide CanStep, Step, Unused, Carries, Handshake.IsUuid;
    StepKeepsOut(s.sh, t, s.th[t], c, k);
  }

  // ---------- Connections on their way in ----------

  lemma StepNeeds(sh: Shared, t: Tid, pc: Pc, c: Choice)
    requires CanStep(sh, t, pc, c)
    ensures var e := Step(sh, t, pc, c);
            && (NeedsId(e.pc) ==> NeedsId(pc) && !pc.SInsert?)
            && forall u :: u in e.spawn ==> !NeedsId(e.spawn[u])
  {
    hide IsSsh, IsTun, CanSsh, CanTun, CanPair, SshStep, TunStep, PairStep, NeedsId;
    if t.Main? {
      if t.id.Ssh? { SshNeeds(sh, t.id, pc, c); } else { TunNeeds(sh, t.id, pc, c); }
    } else if t.Fwd? || t.Splice? {
      PairNeeds(sh, t.id, pc, c);
    } else {
      OtherNeeds(sh, t, pc, c);
    }
  }

  lemma SshNeeds(sh: Shared, id: Id, pc: Pc, c: Choice)
    requires IsSsh(pc) && CanSsh(sh, id, pc, c)
    ensures var e := SshStep(sh, id, pc, c);
            && (NeedsId(e.pc) ==> NeedsId(pc) && !pc.SInsert?)
            && forall u :: u in e.spawn ==> !NeedsId(e.spawn[u])
  {
    hide KeysMatch, Cleanup, Handshake.IsUuid;
  }

  lemma TunNeeds(sh: Shared, id: Id, pc: Pc, c: Choice)
    requires IsTun(pc) && CanTun(sh, id, pc, c)
    ensures var e := TunStep(sh, id, pc, c); !NeedsId(e.pc) && forall u :: u in e.spawn ==> !NeedsId(e.spawn[u])
  {
    hide KeysMatch, Cleanup, Bind, BindOutcome, ReadId, SendOpen, SendOk;
  }

  lemma PairNeeds(sh: Shared, id: Id, pc: Pc, c: Choice)
    requires CanPair(sh, pc, c)
    ensures !NeedsId(PairStep(sh, id, pc, c).pc) && PairStep(sh, id, pc, c).spawn == map[]
  {
    hide KeysMatch, Cleanup;
  }

  lemma OtherNeeds(sh: Shared, t: Tid, pc: Pc, c: Choice)
    requires CanStep(sh, t, pc, c) && (t.Watch? || t.Wait? || t.Dial?)
    ensures var e := Step(sh, t, pc, c); !NeedsId(e.pc) && forall u :: u in e.spawn ==> !NeedsId(e.spawn[u])
  {
    hide KeysMatch, Cleanup, CanSsh, CanTun, CanPair, SshStep, TunStep, PairStep;
  }

  lemma NeedingShrinks(s: State, t: Tid, c: Choice)
    requires Enabled(s, Go(t, c))
    ensures Needing(Do(s, Go(t, c)).th) <= Needing(s.th) - if s.th[t].SInsert? then {t} else {}
  {
    StepNeeds(s.sh, t, s.th[t], c);
    hide CanStep, Step, Fresh;
  }

  lemma Fewer<T>(a: set<T>, b: set<T>)
    requires a <= b
    ensures |a| <= |b|
  {
    assert |b| == |a| + |b - a| by { assert b == a + (b - a); }
  }

  lemma PoolStays(s: State, t: Tid, c: Choice, pool: seq<string>)
    requires Enabled(s, Go(t, c)) && Pool(s, pool) && |Needing(s.th)| <= |pool|
    requires t in s.th
    requires c.New? ==> s.th[t].SInsert? && pool != [] && c == New(pool[0])
    requires s.th[t].SInsert? ==> c.New?
    ensures var rest := if c.New? then pool[1..] else pool;
            Pool(Do(s, Go(t, c)), rest) && |Needing(Do(s, Go(t, c)).th)| <= |rest|
  {
    hide Do, Enabled, Fresh, Handshake.IsUuid;
    var rest := if c.New? then pool[1..] else pool;
    forall i | 0 <= i < |rest| ensures Fresh(Do(s, Go(t, c)), rest[i]) {
      FreshStays(s, t, c, rest[i]);
    }
    NeedingShrinks(s, t, c);
    var now, was := Needing(Do(s, Go(t, c)).th), Needing(s.th);
    if c.New? {
      assert t in was;
      Fewer(now, was - {t});
    } else {
      Fewer(now, was);
    }
  }

  // ---------- Rest is reachable ----------

  // The run (ss', ls') goes on from (ss, ls) with goroutine steps that are no polls.
  ghost predicate Continues(ss: seq<State>, ls: seq<Label>, ss': seq<State>, ls': seq<Label>) {
    && |ss| == |ls| + 1 && |ss'| == |ls'| + 1 && ls <= ls' && ss <= ss'
    && forall k {:trigger ls'[k]} :: |ls| <= k < |ls'| ==> ls'[k].Go? && !Poll(ss'[k], ls'[k])
  }

  lemma OneMore(ss: seq<State>, ls: seq<Label>, l: Label) returns (ss': seq<State>, ls': seq<Label>)
    requires Trace(ss, ls) && Enabled(ss[|ls|], l) && l.Go? && !Poll(ss[|ls|], l)
    ensures Trace(ss', ls') && Continues(ss, ls, ss', ls')
    ensures |ls'| == |ls| + 1 && ss'[|ls'|] == Do(ss[|ls|], l)
  {
    hide Enabled, Do, Init, Poll;
    ss', ls' := ss + [Do(ss[|ls|], l)], ls + [l];
    assert forall i :: 0 <= i < |ls| ==> ls'[i] == ls[i];
    assert ss'[0] == ss[0];
  }

  lemma ContinuesOn(ss: seq<State>, ls: seq<Label>, ss1: seq<State>, ls1: seq<Label>, ss2: seq<State>, ls2: seq<Label>)
    requires Continues(ss, ls, ss1, ls1) && Continues(ss1, ls1, ss2, ls2)
    ensures Continues(ss, ls, ss2, ls2)
  {
    hide Poll;
    forall k {:trigger ls2[k]} | |ls| <= k < |ls2| ensures ls2[k].Go? && !Poll(ss2[k], ls2[k]) {
      if k < |ls1| { assert ls2[k] == ls1[k] && ss2[k] == ss1[k]; }
    }
  }

  // From every state of every run goroutine steps alone lead to rest, in at most as many steps as there is
  // work left.
  lemma {:induction false} RestIsReachable(ss: seq<State>, ls: seq<Label>, pool: seq<string>)
    returns (ss': seq<State>, ls': seq<Label>)
    requires Trace(ss, ls) && Pool(ss[|ls|], pool) && |Needing(ss[|ls|].th)| <= |pool|
    ensures Trace(ss', ls') && Continues(ss, ls, ss', ls') && Quiescent(ss'[|ls'|])
    ensures |ls'| <= |ls| + Total(ss[|ls|].th)
    decreases Total(ss[|ls|].th)
  {
    hide Inv, SpawnInv, OwnerInv, Enabled, Do, Init, Poll, Total, AtRest, Pool, Fresh, Handshake.IsUuid, Trace,
         Continues;
    TraceLasts(ss, ls);
    var s := ss[|ls|];
    if Quiescent(s) {
      ContinuesSame(ss, ls);
      return ss, ls;
    }
    TraceHeld(ss, ls, |ls|);
    var t :| t in s.th && !AtRest(s.th[t]);
    var c, rest := Chosen(s, t, pool);
    ss', ls' := OneMore(ss, ls, Go(t, c));
    GoWorks(s, t, c);
    var ss1, ls1 := ss', ls';
    ss', ls' := RestIsReachable(ss1, ls1, rest);
    ContinuesOn(ss, ls, ss1, ls1, ss', ls');
  }

  // A step that can be taken, and the IDs that remain unused after it.
  lemma Chosen(s: State, t: Tid, pool: seq<string>) returns (c: Choice, rest: seq<string>)
    requires Inv(s) && t in s.th && !AtRest(s.th[t]) && Pool(s, pool) && |Needing(s.th)| <= |pool|
    ensures Enabled(s, Go(t, c)) && !Poll(s, Go(t, c))
    ensures Pool(Do(s, Go(t, c)), rest) && |Needing(Do(s, Go(t, c)).th)| <= |rest|
  {
    hide Inv, Do, AtRest, Poll, Fresh, Handshake.IsUuid;
    if s.th[t].SInsert? {
      assert t in Needing(s.th);
      Fewer({t}, Needing(s.th));
    }
    c := Mover(s, t, if s.th[t].SInsert? then pool[0] else "");
    if s.th[t].SInsert? { InsertTakesId(s, t, c); }
    rest := if c.New? then pool[1..] else pool;
    hide Enabled;
    PoolStays(s, t, c, pool);
  }

  lemma InsertTakesId(s: State, t: Tid, c: Choice)
    requires Enabled(s, Go(t, c)) && s.th[t].SInsert?
    ensures c.New?
  {
  }

  lemma TraceLasts(ss: seq<State>, ls: seq<Label>)
    requires Trace(ss, ls)
    ensures |ss| == |ls| + 1
  {
  }

  lemma ContinuesSame(ss: seq<State>, ls: seq<Label>)
    requires Trace(ss, ls)
    ensures Continues(ss, ls, ss, ls)
  {
    hide Poll;
  }

  // ---------- With real agents ----------

  lemma ContinuesComposed(ss: seq<State>, ls: seq<Label>, ss': seq<State>, ls': seq<Label>)
    requires ComposedTrace(ss, ls) && Trace(ss', ls') && Continues(ss, ls, ss', ls')
    ensures ComposedTrace(ss', ls')
  {
    hide Trace, Poll;
    forall i {:trigger ls'[i]} | 0 <= i < |ls'| ensures FromAgents(ss'[i], ls'[i]) {
      if i < |ls| { assert ls'[i] == ls[i] && ss'[i] == ss[i]; }
    }
  }

  // From every state of every composed run goroutine steps alone lead, in at most as many steps as there is
  // work left, to a hub at rest that lists no SSH-initiated session and in which every SSH connection and
  // every tunnel of an SSH-initiated session is closed.
  lemma NothingIsLeftReachable(ss: seq<State>, ls: seq<Label>, pool: seq<string>)
    returns (ss': seq<State>, ls': seq<Label>)
    requires ComposedTrace(ss, ls) && Pool(ss[|ls|], pool) && |Needing(ss[|ls|].th)| <= |pool|
    ensures ComposedTrace(ss', ls') && Continues(ss, ls, ss', ls') && Quiescent(ss'[|ls'|])
    ensures |ls'| <= |ls| + Total(ss[|ls|].th)
    ensures var h := ss'[|ls'|].sh.heap;
            && (forall k :: k in h.pending ==> h.pending[k].Tun?)
            && (forall c :: c in ss'[|ls'|].sh.port ==> c in h.closed)
            && (forall o :: o in h.objs && o.Ssh? ==> Owned(h, o) <= h.closed)
  {
    hide Trace, Pool, Quiescent, Continues, Total;
    ss', ls' := RestIsReachable(ss, ls, pool);
    ContinuesComposed(ss, ls, ss', ls');
    TraceLasts(ss', ls');
    NothingLeftBehind(ss', ls', |ls'|);
  }
}
