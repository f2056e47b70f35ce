/**
 Cleanups go by ID, not by session. What lists an ID in a run, what removes it, and exactly when a repeated
 cleanup has no effect.
*/
module SessionCleanups {
  import opened PendingHeap
  import opened Protocol
  import opened ProtocolInvariant
  import Handshake
  import Registry

  // ---------- What lists an ID and what removes it ----------

  // The next action of a goroutine at this point is cleanupPending(key, ...).
  ghost predicate CleansNow(pc: Pc, c: Choice, key: string) {
    || ((pc.SFail? || pc.TFail? || pc.WClean? || pc.EClean?) && pc.key == key)
    || (pc.FPair? && pc.key == key && c.Ok? && pc.pair.once.Unlist?)
  }

  // The next action enters a new session under this ID.
  ghost predicate InsertsNow(pc: Pc, c: Choice, key: string) {
    (pc.SInsert? && c == New(key)) || (pc.TCreate? && pc.key == key)
  }

  ghost predicate Cleans(s: State, l: Label, key: string) {
    l.Go? && l.t in s.th && CleansNow(s.th[l.t], l.c, key)
  }

  ghost predicate Inserts(s: State, l: Label, key: string) {
    l.Go? && l.t in s.th && InsertsNow(s.th[l.t], l.c, key)
  }

  ghost predicate IsCleanup(pc: Pc, c: Choice) {
    pc.SFail? || pc.TFail? || pc.WClean? || pc.EClean? || (pc.FPair? && c.Ok? && pc.pair.once.Unlist?)
  }

  // The hub's map after a step of session id's goroutine at pc.
  ghost function PendingAfter(pending: map<string, Id>, id: Id, pc: Pc, c: Choice): map<string, Id> {
    if pc.SInsert? && c.New? then pending[c.key := id]
    else if pc.TCreate? then pending[pc.key := id]
    else if IsCleanup(pc, c) then pending - {pc.key}
    else pending
  }

  lemma CleanupPending(h: Heap, key: string, phase: Phase)
    requires KeysMatch(h)
    ensures Cleanup(h, key, phase).pending == h.pending - {key}
  {
  }

  lemma BindPending(h: Heap, key: string, w: Id)
    requires KeysMatch(h)
    ensures Bind(h, key, w).pending == h.pending
  {
  }

  lemma SshPending(sh: Shared, id: Id, pc: Pc, c: Choice)
    requires IsSsh(pc) && CanSsh(sh, id, pc, c)
    ensures SshStep(sh, id, pc, c).sh.heap.pending == PendingAfter(sh.heap.pending, id, pc, c)
  {
    if pc.SFail? { CleanupPending(sh.heap, pc.key, CLOSED); }
    hide KeysMatch, Cleanup, Control, SendOk, Handshake.IsUuid;
  }

  lemma TunPending(sh: Shared, id: Id, pc: Pc, c: Choice)
    requires IsTun(pc) && CanTun(sh, id, pc, c)
    ensures TunStep(sh, id, pc, c).sh.heap.pending == PendingAfter(sh.heap.pending, id, pc, c)
  {
    hide KeysMatch, Cleanup, Bind, BindOutcome, ReadId, Control, SendOk;
    if pc.TFail? {
      CleanupPending(sh.heap, pc.key, CLOSED);
    } else if pc.TBind? {
      BindPending(sh.heap, pc.key, id);
    } else if pc.TSend? {
      SendTouches(sh, id, pc.ref, pc.key, c);
      hide SendOpen;
    } else if pc.TEntry? || pc.TCreate? || pc.TMark? {
    } else {
      TunReadsPending(sh, id, pc, c);
      hide TunStep;
    }
  }

  lemma TunReadsPending(sh: Shared, id: Id, pc: Pc, c: Choice)
    requires IsTun(pc) && CanTun(sh, id, pc, c)
    requires pc.TAgent? || pc.TAccept? || pc.TRead? || pc.TLookup? || pc.TVerify? || pc.TFailClose? || pc.TSpawn?
    ensures TunStep(sh, id, pc, c).sh.heap.pending == sh.heap.pending
  {
    hide KeysMatch, ReadId, IsTun;
  }

  lemma PairPending(sh: Shared, id: Id, pc: Pc, c: Choice)
    requires CanPair(sh, pc, c)
    ensures PairStep(sh, id, pc, c).sh.heap.pending == PendingAfter(sh.heap.pending, id, pc, c)
  {
    hide KeysMatch, Cleanup, PendingAfter;
    if pc.FPair? {
      CleanupPending(sh.heap, pc.key, CLOSED);
      assert IsCleanup(pc, c) <==> c.Ok? && pc.pair.once.Unlist?;
    }
    PendingMove(sh.heap.pending, id, pc, c);
  }

  lemma PendingMove(pending: map<string, Id>, id: Id, pc: Pc, c: Choice)
    requires pc.FPair? || pc.XPair?
    ensures PendingAfter(pending, id, pc, c) == if IsCleanup(pc, c) then pending - {pc.key} else pending
  {
  }

  lemma OtherPending(sh: Shared, t: Tid, pc: Pc, c: Choice)
    requires CanStep(sh, t, pc, c) && (t.Watch? || t.Wait?)
    ensures Step(sh, t, pc, c).sh.heap.pending == PendingAfter(sh.heap.pending, t.id, pc, c)
  {
    if pc.WClean? || pc.EClean? { CleanupPending(sh.heap, pc.key, TIMEOUT); }
    hide KeysMatch, Cleanup, CanSsh, CanTun, CanPair, SshStep, TunStep, PairStep;
  }

  lemma StepPending(sh: Shared, t: Tid, pc: Pc, c: Choice)
    requires CanStep(sh, t, pc, c)
    ensures t.Dial? ==> IsDial(pc) && Step(sh, t, pc, c).sh.heap == sh.heap
    ensures !t.Dial? ==> Step(sh, t, pc, c).sh.heap.pending == PendingAfter(sh.heap.pending, t.id, pc, c)
  {
    hide CanSsh, CanTun, CanPair, IsSsh, IsTun, SshStep, TunStep, PairStep, PendingAfter;
    if t.Main? {
      if t.id.Ssh? { SshPending(sh, t.id, pc, c); } else { TunPending(sh, t.id, pc, c); }
    } else if t.Fwd? || t.Splice? {
      PairPending(sh, t.id, pc, c);
    } else if t.Watch? || t.Wait? {
      OtherPending(sh, t, pc, c);
    }
  }

  lemma StepEntry(s: State, l: Label, key: string)
    requires Enabled(s, l)
    ensures var a, b := s.sh.heap, Do(s, l).sh.heap;
            && (key in b.pending <==> Inserts(s, l, key) || (key in a.pending && !Cleans(s, l, key)))
            && (key in b.pending && !Inserts(s, l, key) ==> b.pending[key] == a.pending[key])
  {
    hide CanStep, Step, Registry.Enabled, Registry.Do, Fresh;
    if l.Go? { StepPending(s.sh, l.t, s.th[l.t], l.c); }
  }

  // Step m enters a session under key, and no cleanup of key comes between it and j.
  ghost predicate ListedBy(ss: seq<State>, ls: seq<Label>, m: nat, j: nat, key: string)
    requires j <= |ls| < |ss|
  {
    && m < j && Inserts(ss[m], ls[m], key)
    && forall n {:trigger ls[n]} :: m < n < j ==> !Cleans(ss[n], ls[n], key)
  }

  // An ID is listed exactly if some session was entered under it after its last cleanup.
  lemma {:induction false} ListedIff(ss: seq<State>, ls: seq<Label>, j: nat, key: string)
    requires Trace(ss, ls) && j <= |ls|
    ensures key in ss[j].sh.heap.pending <==> exists m :: ListedBy(ss, ls, m, j, key)
  {
    hide Enabled, Do, Cleans, Inserts;
    if j > 0 {
      var n := j - 1;
      ListedIff(ss, ls, n, key);
      assert Enabled(ss[n], ls[n]) && ss[j] == Do(ss[n], ls[n]);
      StepEntry(ss[n], ls[n], key);
      NotBoth(ss[n], ls[n], key);
      if Inserts(ss[n], ls[n], key) {
        assert ListedBy(ss, ls, n, j, key);
      } else if key in ss[j].sh.heap.pending {
        var m :| ListedBy(ss, ls, m, n, key);
        assert ListedBy(ss, ls, m, j, key);
      }
      forall m | ListedBy(ss, ls, m, j, key) && m != n
        ensures ListedBy(ss, ls, m, n, key) && !Cleans(ss[n], ls[n], key)
      {
        assert ls[n] == ls[n];
      }
    }
  }

  lemma NotBoth(s: State, l: Label, key: string)
    ensures !(Cleans(s, l, key) && Inserts(s, l, key))
  {
  }

  // ---------- Repeated cleanups ----------

  lemma CleanupActs(s: State, l: Label, key: string)
    requires Enabled(s, l) && Cleans(s, l, key)
    ensures Do(s, l).sh.heap != s.sh.heap <==> key in s.sh.heap.pending
  {
    StepEntry(s, l, key);
    NotBoth(s, l, key);
    if key !in s.sh.heap.pending { CleanupIdle(s.sh, l.t, s.th[l.t], l.c); }
    hide CanStep, Step, Inserts;
  }

  lemma CleanupIdle(sh: Shared, t: Tid, pc: Pc, c: Choice)
    requires CanStep(sh, t, pc, c) && IsCleanup(pc, c) && pc.key !in sh.heap.pending
    ensures Step(sh, t, pc, c).sh.heap == sh.heap
  {
    hide KeysMatch;
  }

  // A cleanup of key has an effect exactly if a session was entered under key since the cleanup before it.
  lemma CleanupActsIff(ss: seq<State>, ls: seq<Label>, j: nat, key: string)
    requires Trace(ss, ls) && j < |ls| && Cleans(ss[j], ls[j], key)
    ensures ss[j + 1].sh.heap != ss[j].sh.heap <==> exists m :: ListedBy(ss, ls, m, j, key)
  {
    hide Enabled, Do, Cleans, Inserts, ListedBy;
    assert Enabled(ss[j], ls[j]) && ss[j + 1] == Do(ss[j], ls[j]);
    ListedIff(ss, ls, j, key);
    CleanupActs(ss[j], ls[j], key);
  }

  lemma MustBeAfter(ss: seq<State>, ls: seq<Label>, i: nat, j: nat, m: nat, key: string)
    requires i < j <= |ls| < |ss| && ListedBy(ss, ls, m, j, key) && Cleans(ss[i], ls[i], key)
    ensures i < m
  {
    NotBoth(ss[i], ls[i], key);
    hide Cleans, Inserts;
  }

  // Of two cleanups of key the later one changes nothing if and only if nothing was entered under key after
  // the last cleanup before it; that entry, if any, came after the earlier of the two.
  lemma RepeatedCleanupIff(ss: seq<State>, ls: seq<Label>, i: nat, j: nat, key: string)
    requires Trace(ss, ls) && i < j < |ls| && Cleans(ss[i], ls[i], key) && Cleans(ss[j], ls[j], key)
    ensures ss[j + 1].sh.heap == ss[j].sh.heap <==> !exists m :: i < m && ListedBy(ss, ls, m, j, key)
  {
    hide Enabled, Do, Cleans, Inserts;
    CleanupActsIff(ss, ls, j, key);
    forall m: nat | ListedBy(ss, ls, m, j, key) ensures i < m {
      MustBeAfter(ss, ls, i, j, m, key);
    }
  }
}
