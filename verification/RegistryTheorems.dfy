/**
 What the registry guarantees over whole runs: across any interleaving of registrations and saves, across
 restarts, and for the control connection of one agent.
*/
module RegistryTheorems {
  import opened Options
  import opened AgentBook
  import opened Registry

  lemma {:induction false} TraceInv(ss: seq<State>, ls: seq<Label>, i: nat)
    requires FromBoot(ss, ls) && i < |ss|
    ensures Inv(ss[i])
  {
    hide Inv, Enabled, Do, Loadable;
    if i == 0 {
      var f, n :| Loadable(f) && ss[0] == Boot(f, n);
      BootInv(f, n);
    } else {
      TraceInv(ss, ls, i - 1);
      assert Enabled(ss[i - 1], ls[i - 1]);
      StepInv(ss[i - 1], ls[i - 1]);
    }
  }

  lemma ReachableInv(s: State)
    requires Reachable(s)
    ensures Inv(s)
  {
    var ss, ls :| FromBoot(ss, ls) && s == ss[|ls|];
    TraceInv(ss, ls, |ls|);
  }

  // ---------- The port index, under every interleaving ----------

  // In every reachable state, whatever registrations and saves overlapped: each agent's port, each entry of
  // the file and each listener's captured name agree with the port index.
  lemma PortIndexAgrees(ss: seq<State>, ls: seq<Label>, i: nat)
    requires FromBoot(ss, ls) && i < |ss|
    ensures var b := ss[i].book; forall a :: a in b.agents ==>
              b.agents[a] in b.refs && b.refs[b.agents[a]].port in b.ports && b.ports[b.refs[b.agents[a]].port] == a
    ensures Indexed(ss[i].book.ports, Contents(ss[i].file))
    ensures forall p :: p in ss[i].book.listeners ==>
              p in ss[i].book.ports && ss[i].book.ports[p] == ss[i].book.listeners[p]
  {
    TraceInv(ss, ls, i);
    assert BookInv(ss[i].book);
    hide PcOk, ControlsOwned;
  }

  // Hence a restart never meets two agents with one port: it fails only on a file that cannot be parsed.
  lemma ReloadFailsOnlyWhenCorrupt(ss: seq<State>, ls: seq<Label>, i: nat)
    requires FromBoot(ss, ls) && i < |ss|
    ensures Enabled(ss[i], Restart) <==> !ss[i].file.Corrupt?
  {
    TraceInv(ss, ls, i);
    var m := Contents(ss[i].file);
    assert Injective(m) by {
      assert Indexed(ss[i].book.ports, m);
      hide Inv;
    }
  }

  // While one hub process runs, ports only grows and no port changes hands.
  lemma {:induction false} PortsOnlyGrow(ss: seq<State>, ls: seq<Label>, i: nat, j: nat)
    requires FromBoot(ss, ls) && i <= j < |ss|
    requires forall k :: i <= k < j ==> !ls[k].Restart?
    ensures forall p :: p in ss[i].book.ports ==> p in ss[j].book.ports && ss[j].book.ports[p] == ss[i].book.ports[p]
    decreases j
  {
    hide Inv, Enabled, Do;
    if i < j {
      PortsOnlyGrow(ss, ls, i, j - 1);
      TraceInv(ss, ls, j - 1);
      assert Enabled(ss[j - 1], ls[j - 1]);
      StepInv(ss[j - 1], ls[j - 1]);
      var a, b := ss[j - 1], ss[j];
      assert forall p :: p in a.book.ports ==> p in b.book.ports && b.book.ports[p] == a.book.ports[p];
    }
  }

  // ---------- The fixed mapping ----------

  ghost predicate HasPort(b: Book, a: string, p: int) {
    Known(b, a) && b.refs[b.agents[a]].port == p
  }

  // Agent a has port p, and any hub loaded from the file will give it p again.
  ghost predicate Fixed(s: State, a: string, p: int) {
    && HasPort(s.book, a, p)
    && !s.file.Missing?
    && (s.file.Saved? ==> a in s.file.agents && s.file.agents[a] == p)
  }

  // The two steps of the code that can move a: the insert that does not look a up again under the lock, and
  // the write of a snapshot that does not have a on p.
  ghost predicate Moves(s: State, l: Label, a: string, p: int) {
    l.Go? && l.t in s.th &&
    ((s.th[l.t].AtInsert? && s.th[l.t].name == a)
     || (s.th[l.t].AtWrite? && l.c.Ok? && !(a in s.th[l.t].snap && s.th[l.t].snap[a] == p)))
  }

  // An agent with a saved port keeps it in the next state, restarts included, exactly when the step is
  // neither of the two.
  lemma FixedStepIff(s: State, l: Label, a: string, p: int)
    requires Inv(s) && Enabled(s, l) && Fixed(s, a, p)
    ensures Fixed(Do(s, l), a, p) <==> !Moves(s, l, a, p)
  {
    match l
    case Connect(_) =>
    case Restart =>
    case Go(t, c) =>
      assert PcOk(s, t, s.th[t]) && BookInv(s.book);
      if s.th[t].AtInsert? { RegisterGives(s.book, t, s.th[t].name, c.Ok?, a, p); }
      hide Inv;
  }

  lemma RegisterGives(b: Book, t: nat, name: string, listens: bool, a: string, p: int)
    requires BookInv(b) && Added(t) !in b.refs && HasPort(b, a, p)
    ensures HasPort(Register(b, t, name, listens), a, p) <==> a != name
  {
    assert p in b.ports && FirstFree(b.ports) !in b.ports;
  }

  // Registrations of one name do not overlap, and neither do saves.
  ghost predicate Serial(s: State, l: Label) {
    l.Go? && l.t in s.th ==>
      && (s.th[l.t].AtLookup? ==> forall u :: u in s.th && s.th[u].AtInsert? ==> s.th[u].name != s.th[l.t].name)
      && (s.th[l.t].AtSave? ==> forall u :: u in s.th ==> !s.th[u].AtWrite?)
  }

  ghost predicate SerialTrace(ss: seq<State>, ls: seq<Label>) {
    FromBoot(ss, ls) && forall i {:trigger ls[i]} :: 0 <= i < |ls| ==> Serial(ss[i], ls[i])
  }

  ghost predicate InsertsSerial(s: State) {
    && (forall t :: t in s.th && s.th[t].AtInsert? ==> s.th[t].name !in s.book.agents)
    && (forall t, u ::
          t in s.th && u in s.th && s.th[t].AtInsert? && s.th[u].AtInsert? && s.th[t].name == s.th[u].name ==> t == u)
  }

  ghost predicate WritesSerial(s: State) {
    && (forall t, u :: t in s.th && u in s.th && s.th[t].AtWrite? && s.th[u].AtWrite? ==> t == u)
    && (forall t :: t in s.th && s.th[t].AtWrite? ==> Current(s, s.th[t].snap))
    && (forall a :: a in Contents(s.file) ==> HasPort(s.book, a, Contents(s.file)[a]))
  }

  ghost predicate PortsSerial(b: Book) {
    forall p :: p in b.ports ==> HasPort(b, b.ports[p], p)
  }

  ghost predicate SerialInv(s: State) {
    InsertsSerial(s) && WritesSerial(s) && PortsSerial(s.book)
  }

  // A snapshot that may be written: what it says is true, and it covers the file.
  ghost predicate Current(s: State, snap: map<string, int>) {
    && (forall a :: a in snap ==> HasPort(s.book, a, snap[a]))
    && (forall a :: a in Contents(s.file) ==> a in snap && snap[a] == Contents(s.file)[a])
  }

  lemma HasPortKept(s: State, l: Label, a: string, p: int)
    requires Inv(s) && Enabled(s, l) && l.Go? && HasPort(s.book, a, p)
    requires s.th[l.t].AtInsert? ==> s.th[l.t].name != a
    ensures HasPort(Do(s, l).book, a, p)
  {
    assert PcOk(s, l.t, s.th[l.t]) && BookInv(s.book);
    if s.th[l.t].AtInsert? { RegisterGives(s.book, l.t, s.th[l.t].name, l.c.Ok?, a, p); }
  }

  lemma SerialPorts(s: State, t: nat, c: Choice)
    requires Inv(s) && InsertsSerial(s) && PortsSerial(s.book) && Enabled(s, Go(t, c))
    ensures PortsSerial(Do(s, Go(t, c)).book)
  {
    var l := Go(t, c);
    var b := Do(s, l).book;
    assert PcOk(s, t, s.th[t]);
    forall p | p in b.ports ensures HasPort(b, b.ports[p], p) {
      if p in s.book.ports && b.ports[p] == s.book.ports[p] {
        if s.th[t].AtInsert? { assert s.book.ports[p] in s.book.agents; }
        HasPortKept(s, l, s.book.ports[p], p);
      }
    }
  }

  lemma SerialEntries(s: State, t: nat, c: Choice, m: map<string, int>)
    requires Inv(s) && InsertsSerial(s) && Enabled(s, Go(t, c))
    requires forall a :: a in m ==> HasPort(s.book, a, m[a])
    ensures forall a :: a in m ==> HasPort(Do(s, Go(t, c)).book, a, m[a])
  {
    forall a | a in m ensures HasPort(Do(s, Go(t, c)).book, a, m[a]) {
      HasPortKept(s, Go(t, c), a, m[a]);
    }
  }

  lemma SerialInserts(s: State, t: nat, c: Choice)
    requires Inv(s) && InsertsSerial(s) && Enabled(s, Go(t, c)) && Serial(s, Go(t, c))
    ensures InsertsSerial(Do(s, Go(t, c)))
  {
    hide Inv;
  }

  lemma CurrentStays(s: State, t: nat, c: Choice, snap: map<string, int>)
    requires Inv(s) && InsertsSerial(s) && Enabled(s, Go(t, c)) && Current(s, snap)
    ensures var s' := Do(s, Go(t, c)); Contents(s'.file) == Contents(s.file) ==> Current(s', snap)
  {
    SerialEntries(s, t, c, snap);
    hide HasPort, Inv;
  }

  // A step that neither takes a snapshot nor writes one.
  lemma OtherWrites(s: State, t: nat, c: Choice)
    requires Inv(s) && InsertsSerial(s) && WritesSerial(s) && Enabled(s, Go(t, c))
    requires !s.th[t].AtSave? && !s.th[t].AtWrite?
    ensures WritesSerial(Do(s, Go(t, c)))
  {
    var s' := Do(s, Go(t, c));
    SerialEntries(s, t, c, Contents(s.file));
    assert s'.file == s.file;
    forall u | u in s'.th && s'.th[u].AtWrite? ensures u in s.th && s.th[u] == s'.th[u] && Current(s', s'.th[u].snap) {
      CurrentStays(s, t, c, s.th[u].snap);
    }
    hide Inv, InsertsSerial, HasPort, Current;
  }

  lemma SaveWrites(s: State, t: nat, c: Choice)
    requires Inv(s) && WritesSerial(s) && Enabled(s, Go(t, c)) && Serial(s, Go(t, c)) && s.th[t].AtSave?
    ensures WritesSerial(Do(s, Go(t, c)))
  {
    var s' := Do(s, Go(t, c));
    SnapshotCurrent(s);
    assert s'.book == s.book && s'.file == s.file && s'.th[t].snap == Mapping(s.book);
    hide Inv;
  }

  lemma WriteWrites(s: State, t: nat, c: Choice)
    requires Inv(s) && WritesSerial(s) && Enabled(s, Go(t, c)) && s.th[t].AtWrite?
    ensures WritesSerial(Do(s, Go(t, c)))
  {
    var s' := Do(s, Go(t, c));
    assert Current(s, s.th[t].snap) && s'.book == s.book;
    hide Inv, HasPort;
  }

  lemma SerialWrites(s: State, t: nat, c: Choice)
    requires Inv(s) && InsertsSerial(s) && WritesSerial(s) && Enabled(s, Go(t, c)) && Serial(s, Go(t, c))
    ensures WritesSerial(Do(s, Go(t, c)))
  {
    hide Inv, InsertsSerial, WritesSerial, Serial;
    if s.th[t].AtSave? { SaveWrites(s, t, c); }
    else if s.th[t].AtWrite? { WriteWrites(s, t, c); }
    else { OtherWrites(s, t, c); }
  }

  lemma SnapshotCurrent(s: State)
    requires BookInv(s.book) && forall a :: a in Contents(s.file) ==> HasPort(s.book, a, Contents(s.file)[a])
    ensures Current(s, Mapping(s.book))
  {
  }

  lemma BootSerial(f: File, n: nat)
    requires Loadable(f)
    ensures SerialInv(Boot(f, n))
  {
    assert IsLoading(Contents(f), Loading(Contents(f)));
  }

  lemma SerialStep(s: State, l: Label)
    requires Inv(s) && SerialInv(s) && Enabled(s, l) && Serial(s, l)
    ensures SerialInv(Do(s, l))
  {
    match l
    case Connect(_) =>
      assert forall t :: t in s.th ==> PcOk(s, t, s.th[t]);
      hide HasPort;
    case Restart => BootSerial(s.file, s.next);
    case Go(t, c) =>
      SerialPorts(s, t, c);
      SerialInserts(s, t, c);
      SerialWrites(s, t, c);
  }

  lemma {:induction false} SerialRun(ss: seq<State>, ls: seq<Label>, i: nat)
    requires SerialTrace(ss, ls) && i < |ss|
    ensures Inv(ss[i]) && SerialInv(ss[i])
  {
    hide Inv, SerialInv, Enabled, Do, Loadable, Serial;
    TraceInv(ss, ls, i);
    if i == 0 {
      var f, n :| Loadable(f) && ss[0] == Boot(f, n);
      BootSerial(f, n);
    } else {
      SerialRun(ss, ls, i - 1);
      assert Enabled(ss[i - 1], ls[i - 1]) && Serial(ss[i - 1], ls[i - 1]) && ss[i] == Do(ss[i - 1], ls[i - 1]);
      SerialStep(ss[i - 1], ls[i - 1]);
    }
  }

  // agents and ports are inverse bijections when registrations of one name and saves do not overlap.
  lemma AgentsAndPortsInverse(ss: seq<State>, ls: seq<Label>, i: nat)
    requires SerialTrace(ss, ls) && i < |ss|
    ensures forall a :: a in ss[i].book.agents ==> ss[i].book.agents[a] in ss[i].book.refs
    ensures Inverse(Mapping(ss[i].book), ss[i].book.ports)
  {
    SerialRun(ss, ls, i);
    var b := ss[i].book;
    assert BookInv(b) && PortsSerial(b);
  }

  // Step i is the write of a save that covers agent a, with port p.
  ghost predicate SavesAgent(s: State, l: Label, a: string, p: int) {
    l.Go? && l.c.Ok? && l.t in s.th && s.th[l.t].AtWrite? && a in s.th[l.t].snap && s.th[l.t].snap[a] == p
  }

  ghost predicate FixedFor(s: State, a: string, p: int) {
    Fixed(s, a, p) && forall t :: t in s.th && s.th[t].AtWrite? ==> a in s.th[t].snap && s.th[t].snap[a] == p
  }

  lemma FixedForStep(s: State, l: Label, a: string, p: int)
    requires Inv(s) && SerialInv(s) && Enabled(s, l) && Serial(s, l)
    requires FixedFor(s, a, p) || SavesAgent(s, l, a, p)
    ensures FixedFor(Do(s, l), a, p)
  {
    if FixedFor(s, a, p) {
      SerialDoesNotMove(s, l, a, p);
      FixedStepIff(s, l, a, p);
      SnapshotsKeep(s, l, a, p);
    } else {
      SaveFixes(s, l, a, p);
    }
  }

  lemma SerialDoesNotMove(s: State, l: Label, a: string, p: int)
    requires SerialInv(s) && FixedFor(s, a, p)
    ensures !Moves(s, l, a, p)
  {
  }

  lemma SnapshotsKeep(s: State, l: Label, a: string, p: int)
    requires Enabled(s, l) && FixedFor(s, a, p)
    ensures forall t :: t in Do(s, l).th && Do(s, l).th[t].AtWrite? ==>
              a in Do(s, l).th[t].snap && Do(s, l).th[t].snap[a] == p
  {
  }

  lemma SaveFixes(s: State, l: Label, a: string, p: int)
    requires SerialInv(s) && Enabled(s, l) && SavesAgent(s, l, a, p)
    ensures FixedFor(Do(s, l), a, p)
  {
    assert Current(s, s.th[l.t].snap);
    hide InsertsSerial;
  }

  // With no assumption on the schedule: a saved port lasts until one of the two steps.
  lemma {:induction false} FixedUntilMoved(ss: seq<State>, ls: seq<Label>, i: nat, j: nat, a: string, p: int)
    requires FromBoot(ss, ls) && i <= j < |ss| && Fixed(ss[i], a, p)
    requires forall k :: i <= k < j ==> !Moves(ss[k], ls[k], a, p)
    ensures Fixed(ss[j], a, p)
    ensures j < |ls| && Moves(ss[j], ls[j], a, p) ==> !Fixed(ss[j + 1], a, p)
    decreases j
  {
    hide Inv, Enabled, Do, Loadable, Fixed, Moves;
    if i < j {
      FixedUntilMoved(ss, ls, i, j - 1, a, p);
      TraceInv(ss, ls, j - 1);
      assert Enabled(ss[j - 1], ls[j - 1]) && ss[j] == Do(ss[j - 1], ls[j - 1]);
      FixedStepIff(ss[j - 1], ls[j - 1], a, p);
    }
    if j < |ls| {
      TraceInv(ss, ls, j);
      assert Enabled(ss[j], ls[j]) && ss[j + 1] == Do(ss[j], ls[j]);
      FixedStepIff(ss[j], ls[j], a, p);
    }
  }

  // Once a save covering agent a has completed, a has the same port in every later state of every later hub
  // process, and so does the file.
  lemma {:induction false} FixedMapping(ss: seq<State>, ls: seq<Label>, i: nat, j: nat, a: string, p: int)
    requires SerialTrace(ss, ls) && i < j < |ss| && SavesAgent(ss[i], ls[i], a, p)
    ensures FixedFor(ss[j], a, p)
    decreases j
  {
    hide Inv, SerialInv, Enabled, Do, Loadable, Serial, FixedFor;
    if i + 1 < j { FixedMapping(ss, ls, i, j - 1, a, p); }
    SerialRun(ss, ls, j - 1);
    assert Enabled(ss[j - 1], ls[j - 1]) && Serial(ss[j - 1], ls[j - 1]) && ss[j] == Do(ss[j - 1], ls[j - 1]);
    FixedForStep(ss[j - 1], ls[j - 1], a, p);
  }

  // ---------- A damaged file ----------

  ghost predicate Completes(s: State, l: Label) {
    l.Go? && l.t in s.th && s.th[l.t].AtWrite? && l.c.Ok?
  }

  ghost predicate Damages(s: State, l: Label) {
    l.Go? && l.t in s.th && s.th[l.t].AtWrite? && l.c.FailBadly?
  }

  // Step k damages the file, and no save completes between it and j.
  ghost predicate DamagedBy(ss: seq<State>, ls: seq<Label>, k: nat, j: nat)
    requires j <= |ls| < |ss|
  {
    k < j && Damages(ss[k], ls[k]) && forall n {:trigger ls[n]} :: k < n < j ==> !Completes(ss[n], ls[n])
  }

  lemma StepDamage(s: State, l: Label)
    requires Enabled(s, l)
    ensures Do(s, l).file.Corrupt? <==> Damages(s, l) || (s.file.Corrupt? && !Completes(s, l))
  {
  }

  // The file is damaged exactly if a write has failed on it and no save has completed since.
  lemma {:induction false} DamagedIff(ss: seq<State>, ls: seq<Label>, j: nat)
    requires FromBoot(ss, ls) && j <= |ls|
    ensures ss[j].file.Corrupt? <==> exists k :: DamagedBy(ss, ls, k, j)
  {
    hide Enabled, Do, Loadable, Damages, Completes;
    if j > 0 {
      var n := j - 1;
      DamagedIff(ss, ls, n);
      assert Enabled(ss[n], ls[n]) && ss[j] == Do(ss[n], ls[n]);
      StepDamage(ss[n], ls[n]);
      if Damages(ss[n], ls[n]) {
        assert DamagedBy(ss, ls, n, j);
      } else if ss[j].file.Corrupt? {
        var k :| DamagedBy(ss, ls, k, n);
        assert DamagedBy(ss, ls, k, j);
      }
      forall k | DamagedBy(ss, ls, k, j) && k != n
        ensures DamagedBy(ss, ls, k, n) && !Completes(ss[n], ls[n])
      {
        assert ls[n] == ls[n];
      }
    }
  }

  // After a save that covers agent a, the file has a's port except while it is damaged: the next save that
  // completes restores the entry.
  lemma FileHasPortIff(ss: seq<State>, ls: seq<Label>, i: nat, j: nat, a: string, p: int)
    requires SerialTrace(ss, ls) && i < j < |ss| && SavesAgent(ss[i], ls[i], a, p)
    ensures a in Contents(ss[j].file) && Contents(ss[j].file)[a] == p
            <==> !exists k :: i < k && DamagedBy(ss, ls, k, j)
  {
    hide Trace, Enabled, Do, Loadable, Serial;
    FixedMapping(ss, ls, i, j, a, p);
    assert |ls| == |ss| - 1 by { assert Trace(ss, ls); TraceLasts(ss, ls); }
    DamagedIff(ss, ls, j);
    forall k: nat | DamagedBy(ss, ls, k, j) ensures i < k {
      assert Completes(ss[i], ls[i]) && !Damages(ss[i], ls[i]);
      assert ls[i] == ls[i];
    }
  }

  lemma TraceLasts(ss: seq<State>, ls: seq<Label>)
    requires Trace(ss, ls)
    ensures |ss| == |ls| + 1
  {
  }

  // ---------- Two first connections of one name ----------

  lemma FirstFreeIs(ports: map<int, string>, p: int)
    requires IsFirstFree(ports, p)
    ensures FirstFree(ports) == p
  {
  }

  // A run with one more step.
  lemma Extend(ss: seq<State>, ls: seq<Label>, l: Label) returns (ss': seq<State>, ls': seq<Label>)
    requires FromBoot(ss, ls) && Enabled(ss[|ls|], l)
    ensures FromBoot(ss', ls') && ls' == ls + [l] && ss' == ss + [Do(ss[|ls|], l)]
  {
    hide Enabled, Do, Boot, Loadable;
    ss', ls' := ss + [Do(ss[|ls|], l)], ls + [l];
    assert forall i :: 0 <= i < |ls| ==> ls'[i] == ls[i];
    assert ss'[0] == ss[0];
  }

  const NEW_BOOK := Book(map[], map[], map[], map[])
  const ONE_PORT :=
    Book(map[Added(0) := AgentRecord("a", 10000, None)], map["a" := Added(0)], map[10000 := "a"], map[10000 := "a"])

  // A handler of agent "a" and one of agent other find their names unregistered.
  lemma BothFindNothing(other: string) returns (ss: seq<State>, ls: seq<Label>)
    requires other != ""
    ensures FromBoot(ss, ls) && |ls| == 4 && |ss| == 5 && ls == [Connect("a"), Connect(other), Go(0, Ok), Go(1, Ok)]
    ensures ss[0].th == map[] && ss[1].th == map[0 := AtLookup("a")]
    ensures ss[2].th == map[0 := AtLookup("a"), 1 := AtLookup(other)]
    ensures ss[3].th == map[0 := AtInsert("a"), 1 := AtLookup(other)]
    ensures ss[4] == State(NEW_BOOK, Saved(map[]), map[0 := AtInsert("a"), 1 := AtInsert(other)], map[], 2)
  {
    ss, ls := [Boot(Missing, 0)], [];
    assert FromBoot(ss, ls) by { assert Loadable(Missing) && ss[0] == Boot(Missing, 0); }
    LoadingUnique(map[], ss[0].book, NEW_BOOK);
    hide Loading, FromBoot, Trace, Boot, Loadable;
    assert ss[0] == State(NEW_BOOK, Saved(map[]), map[], map[], 0);
    ss, ls := Extend(ss, ls, Connect("a"));
    ss, ls := Extend(ss, ls, Connect(other));
    ss, ls := Extend(ss, ls, Go(0, Ok));
    ss, ls := Extend(ss, ls, Go(1, Ok));
    assert ss[4].th == map[0 := AtInsert("a"), 1 := AtInsert(other)];
  }

  // The first registers it on port 10000 and saves that.
  lemma FirstSaves() returns (ss: seq<State>, ls: seq<Label>)
    ensures FromBoot(ss, ls) && |ls| == 7 && |ss| == 8
    ensures ss[7] == State(ONE_PORT, Saved(map["a" := 10000]), map[0 := AtAccept("a"), 1 := AtInsert("a")], map[], 2)
  {
    hide FromBoot, Trace, FirstFree;
    ss, ls := BothFindNothing("a");
    FirstFreeIs(map[], 10000);
    ss, ls := Extend(ss, ls, Go(0, Ok));
    assert ss[5] == State(ONE_PORT, Saved(map[]), map[0 := AtSave("a"), 1 := AtInsert("a")], map[], 2);
    ss, ls := Extend(ss, ls, Go(0, Ok));
    assert Mapping(ONE_PORT) == map["a" := 10000];
    ss, ls := Extend(ss, ls, Go(0, Ok));
  }

  // A run that shows the assumption is needed: both handlers of agent "a" find it unregistered; the first
  // registers it and saves port 10000; the second then moves it to 10001 and leaves 10000 pointing at it too.
  lemma DoubleRegistration() returns (ss: seq<State>, ls: seq<Label>)
    ensures FromBoot(ss, ls) && |ls| == 8 && |ss| == 9
    ensures Fixed(ss[7], "a", 10000) && Moves(ss[7], ls[7], "a", 10000)
    ensures HasPort(ss[8].book, "a", 10001) && ss[8].book.ports == map[10000 := "a", 10001 := "a"]
    ensures forall a :: a in ss[8].book.agents ==> ss[8].book.agents[a] in ss[8].book.refs
    ensures !Inverse(Mapping(ss[8].book), ss[8].book.ports)
  {
    ss, ls := FirstSaves();
    FirstFreeIs(map[10000 := "a"], 10001);
    hide FromBoot, Trace, FirstFree;
    ss, ls := Extend(ss, ls, Go(1, Ok));
    assert ss[8].book.agents == map["a" := Added(1)] && ss[8].book.refs[Added(1)] == AgentRecord("a", 10001, None);
    assert 10000 in ss[8].book.ports && Mapping(ss[8].book)["a"] == 10001;
  }

  // ---------- Two saves that overlap ----------

  const TWO_PORTS :=
    Book(map[Added(0) := AgentRecord("a", 10000, None), Added(1) := AgentRecord("b", 10001, None)],
         map["a" := Added(0), "b" := Added(1)], map[10000 := "a", 10001 := "b"], map[10000 := "a", 10001 := "b"])

  const ONE_LOADED :=
    Book(map[Loaded("a") := AgentRecord("a", 10000, None)], map["a" := Loaded("a")], map[10000 := "a"],
         map[10000 := "a"])

  const ONE := map["a" := 10000]
  const BOTH := map["a" := 10000, "b" := 10001]

  // All steps but the one at k are serial.
  ghost predicate SerialBut(ss: seq<State>, ls: seq<Label>, k: nat) {
    |ls| < |ss| && forall i {:trigger ls[i]} :: 0 <= i < |ls| && i != k ==> Serial(ss[i], ls[i])
  }

  lemma SerialSoFar(ss: seq<State>, ls: seq<Label>, l: Label, s: State, k: nat)
    requires |ss| == |ls| + 1 && SerialBut(ss, ls, k) && (|ls| == k || Serial(ss[|ls|], l))
    ensures SerialBut(ss + [s], ls + [l], k)
  {
    hide Serial;
  }

  lemma Registers(b: Book, p: int, t: nat, name: string)
    requires IsFirstFree(b.ports, p)
    ensures Register(b, t, name, true)
            == Book(b.refs[Added(t) := AgentRecord(name, p, None)], b.agents[name := Added(t)], b.ports[p := name],
                    b.listeners[p := name])
  {
  }

  // The first has registered and taken its snapshot.
  lemma FirstSnapshot() returns (ss: seq<State>, ls: seq<Label>)
    ensures FromBoot(ss, ls) && |ls| == 6 && |ss| == 7 && SerialBut(ss, ls, 7)
    ensures ss[6] == State(ONE_PORT, Saved(map[]), map[0 := AtWrite("a", ONE), 1 := AtInsert("b")], map[], 2)
  {
    hide FromBoot, Trace, Register, FirstFree;
    ss, ls := BothFindNothing("b");
    assert SerialBut(ss, ls, 7);
    Registers(NEW_BOOK, 10000, 0, "a");
    assert Mapping(ONE_PORT) == ONE;
    hide SerialBut, Mapping;
    ss, ls := SerialExtend(ss, ls, Go(0, Ok), 7);
    assert ss[5] == State(ONE_PORT, Saved(map[]), map[0 := AtSave("a"), 1 := AtInsert("b")], map[], 2);
    ss, ls := SerialExtend(ss, ls, Go(0, Ok), 7);
  }

  // Both handlers have registered; the first is about to write the mapping without the second's agent, and the
  // second has written the mapping with both.
  lemma StaleSnapshot() returns (ss: seq<State>, ls: seq<Label>)
    ensures FromBoot(ss, ls) && |ls| == 9 && |ss| == 10 && SerialBut(ss, ls, 7)
    ensures ss[9] == State(TWO_PORTS, Saved(BOTH), map[0 := AtWrite("a", ONE), 1 := AtAccept("b")], map[], 2)
  {
    hide FromBoot, Trace, SerialBut, Register, FirstFree;
    ss, ls := FirstSnapshot();
    Registers(ONE_PORT, 10001, 1, "b");
    assert Mapping(TWO_PORTS) == BOTH;
    hide Mapping;
    ss, ls := SerialExtend(ss, ls, Go(1, Ok), 7);
    assert ss[7] == State(TWO_PORTS, Saved(map[]), map[0 := AtWrite("a", ONE), 1 := AtSave("b")], map[], 2);
    ss, ls := SerialExtend(ss, ls, Go(1, Ok), 7);
    ss, ls := SerialExtend(ss, ls, Go(1, Ok), 7);
  }

  lemma SerialExtend(ss: seq<State>, ls: seq<Label>, l: Label, k: nat) returns (ss': seq<State>, ls': seq<Label>)
    requires FromBoot(ss, ls) && Enabled(ss[|ls|], l) && SerialBut(ss, ls, k) && (|ls| == k || Serial(ss[|ls|], l))
    ensures FromBoot(ss', ls') && ls' == ls + [l] && ss' == ss + [Do(ss[|ls|], l)] && SerialBut(ss', ls', k)
  {
    hide Enabled, Do, SerialBut, Serial;
    ss', ls' := Extend(ss, ls, l);
    SerialSoFar(ss, ls, l, Do(ss[|ls|], l), k);
  }

  lemma LoadsOne()
    ensures Loadable(Saved(ONE)) && Boot(Saved(ONE), 2) == State(ONE_LOADED, Saved(ONE), map[], map[], 2)
  {
    assert IsLoading(ONE, ONE_LOADED);
    LoadingUnique(ONE, Loading(ONE), ONE_LOADED);
  }

  // The first handler writes its snapshot, and the hub restarts.
  lemma StaleReload() returns (ss: seq<State>, ls: seq<Label>)
    ensures FromBoot(ss, ls) && |ls| == 11 && |ss| == 12 && SerialBut(ss, ls, 7)
    ensures Fixed(ss[9], "b", 10001) && Moves(ss[9], ls[9], "b", 10001)
    ensures ls[10].Restart? && "b" !in Contents(ss[10].file)
    ensures ss[11] == State(ONE_LOADED, Saved(ONE), map[], map[], 2)
  {
    hide FromBoot, Trace, SerialBut, Boot, Loadable;
    ss, ls := StaleSnapshot();
    LoadsOne();
    ss, ls := SerialExtend(ss, ls, Go(0, Ok), 7);
    ss, ls := SerialExtend(ss, ls, Restart, 7);
  }

  // A run in which nothing but two saves overlaps, and that alone moves a saved agent: "b" has been saved on
  // port 10001 when the older snapshot is written; the next hub process does not know "b", and gives its port
  // to the next agent that comes.
  lemma StaleSave() returns (ss: seq<State>, ls: seq<Label>)
    ensures FromBoot(ss, ls) && |ls| == 14 && |ss| == 15 && SerialBut(ss, ls, 7)
    ensures Fixed(ss[9], "b", 10001) && Moves(ss[9], ls[9], "b", 10001)
    ensures ls[10].Restart? && "b" !in Contents(ss[10].file) && "b" !in ss[11].book.agents
    ensures HasPort(ss[14].book, "c", 10001)
  {
    hide FromBoot, Trace, SerialBut, Register, FirstFree, Fixed, Moves;
    ss, ls := StaleReload();
    Registers(ONE_LOADED, 10001, 2, "c");
    ss, ls := SerialExtend(ss, ls, Connect("c"), 7);
    ss, ls := SerialExtend(ss, ls, Go(2, Ok), 7);
    assert ss[13] == State(ONE_LOADED, Saved(ONE), map[2 := AtInsert("c")], map[], 3);
    ss, ls := SerialExtend(ss, ls, Go(2, Ok), 7);
  }

  // ---------- The latest control connection wins ----------

  // The handler that most recently took the control connection of agent a over, unless a's AgentState was
  // replaced or the process restarted since.
  ghost function Latest(ss: seq<State>, ls: seq<Label>, i: nat, a: string): Option<nat>
    requires i <= |ls| < |ss|
  {
    if i == 0 then None
    else
      var s, l := ss[i - 1], ls[i - 1];
      if l.Restart? then None
      else if l.Go? && l.t in s.th && s.th[l.t].AtTakeover? && s.th[l.t].name == a then Some(l.t)
      else if l.Go? && l.t in s.th && s.th[l.t].AtInsert? && s.th[l.t].name == a then None
      else Latest(ss, ls, i - 1, a)
  }

  // The handler has taken the connection over and not yet run its release step.
  ghost predicate Holds(s: State, t: nat) {
    t in s.th && (s.th[t].Reading? || s.th[t].AtRelease?)
  }

  ghost function Controlling(b: Book, a: string): Option<nat> {
    if Known(b, a) then b.refs[b.agents[a]].control else None
  }

  ghost predicate LatestControls(s: State, latest: Option<nat>, a: string) {
    && Controlling(s.book, a) == (if latest.Some? && Holds(s, latest.value) then latest else None)
    && (latest.Some? ==> latest.value in s.th && s.th[latest.value].name == a)
  }

  lemma ControlGo(s: State, t: nat, c: Choice, latest: Option<nat>, a: string)
    requires Inv(s) && Enabled(s, Go(t, c)) && LatestControls(s, latest, a)
    ensures var pc := s.th[t];
            LatestControls(Do(s, Go(t, c)),
              if pc.AtTakeover? && pc.name == a then Some(t)
              else if pc.AtInsert? && pc.name == a then None else latest, a)
  {
    hide Mapping, Register, Takeover, Release, Known, Controlling, CanStep;
    ControlBook(s, t, c, a);
    assert PcOk(s, t, s.th[t]);
    hide Inv, PcOk;
  }

  // What a step does to the control connection of agent a.
  lemma ControlBook(s: State, t: nat, c: Choice, a: string)
    requires Inv(s) && Enabled(s, Go(t, c))
    ensures var pc, was, now := s.th[t], Controlling(s.book, a), Controlling(Do(s, Go(t, c)).book, a);
            now == (if pc.name != a then was
                    else if pc.AtTakeover? then Some(t)
                    else if pc.AtInsert? || (pc.AtRelease? && was == Some(t)) then None
                    else was)
  {
    assert PcOk(s, t, s.th[t]) && BookInv(s.book);
    hide Inv, PcOk;
  }

  lemma ControlBoot(f: File, n: nat, a: string)
    requires Loadable(f)
    ensures LatestControls(Boot(f, n), None, a)
  {
  }

  // In every run and at every moment, agent a's control connection is that of the handler that took it over
  // last, if that handler has not yet run its release step, and nil otherwise: the exit of an older handler
  // never takes a newer connection away.
  lemma {:induction false} LatestControlWins(ss: seq<State>, ls: seq<Label>, i: nat, a: string)
    requires FromBoot(ss, ls) && i < |ss|
    ensures LatestControls(ss[i], Latest(ss, ls, i, a), a)
  {
    hide Inv, Loadable, LatestControls;
    if i == 0 {
      var f, n :| Loadable(f) && ss[0] == Boot(f, n);
      ControlBoot(f, n, a);
    } else {
      var s, l := ss[i - 1], ls[i - 1];
      LatestControlWins(ss, ls, i - 1, a);
      TraceInv(ss, ls, i - 1);
      assert Enabled(s, l) && ss[i] == Do(s, l);
      match l {
        case Connect(_) => ControlConnect(s, l.name, Latest(ss, ls, i - 1, a), a);
        case Restart => ControlBoot(s.file, s.next, a);
        case Go(t, c) => ControlGo(s, t, c, Latest(ss, ls, i - 1, a), a);
      }
    }
  }

  lemma ControlConnect(s: State, name: string, latest: Option<nat>, a: string)
    requires Inv(s) && Enabled(s, Connect(name)) && LatestControls(s, latest, a)
    ensures LatestControls(Do(s, Connect(name)), latest, a)
  {
    assert forall t :: t in s.th ==> PcOk(s, t, s.th[t]);
  }

  // An AgentState is replaced only by an overlapping first registration: if a handler holds a's connection,
  // a is registered, so a non-overlapping registration of a never comes after a takeover.
  lemma ReplacedOnlyByOverlap(ss: seq<State>, ls: seq<Label>, i: nat, t: nat, c: Choice)
    requires SerialTrace(ss, ls) && i < |ls| && ls[i] == Go(t, c) && t in ss[i].th && ss[i].th[t].AtInsert?
    ensures ss[i].th[t].name !in ss[i].book.agents
    ensures Latest(ss, ls, i, ss[i].th[t].name).Some? ==> !Holds(ss[i], Latest(ss, ls, i, ss[i].th[t].name).value)
  {
    SerialRun(ss, ls, i);
    var a := ss[i].th[t].name;
    LatestControlWins(ss, ls, i, a);
  }
}
