/**
 What had to happen before a registry handler got where it is: which handlers get their agent's control connection
 and which return early, which ports are listened on, and which agents are left without a listener.
*/
module RegistryHistory {
  import opened Options
  import opened AgentBook
  import opened Registry
  import opened RegistryTheorems

  // ---------- A handler's own steps ----------

  ghost predicate StepOf(l: Label, t: nat) {
    l.Go? && l.t == t
  }

  lemma OthersStay(s: State, l: Label, t: nat)
    requires Inv(s) && Enabled(s, l) && t in Do(s, l).th && !StepOf(l, t)
    ensures t in s.th || Do(s, l).th[t].AtLookup?
    ensures t in s.th ==> Do(s, l).th[t] == s.th[t]
  {
    hide Register, Takeover, Release, Mapping, Known;
    if t in s.th { BelowNext(s, t); }
    hide Inv;
  }

  lemma BelowNext(s: State, t: nat)
    requires Inv(s) && t in s.th
    ensures t < s.next
  {
    assert PcOk(s, t, s.th[t]);
  }

  // Handler t has been at one point since its step k.
  ghost predicate PutBy(ss: seq<State>, ls: seq<Label>, k: nat, i: nat, t: nat)
    requires i <= |ls| < |ss|
  {
    && k < i && t in ss[i].th && StepOf(ls[k], t)
    && forall n {:trigger ss[n]} :: k < n <= i ==> t in ss[n].th && ss[n].th[t] == ss[i].th[t]
  }

  lemma {:induction false} WasPut(ss: seq<State>, ls: seq<Label>, i: nat, t: nat)
    requires FromBoot(ss, ls) && i <= |ls| < |ss| && t in ss[i].th && !ss[i].th[t].AtLookup?
    ensures exists k: nat :: PutBy(ss, ls, k, i, t)
  {
    hide Inv, Enabled, Do, Loadable;
    if i > 0 {
      var j := i - 1;
      TraceInv(ss, ls, j);
      assert Enabled(ss[j], ls[j]) && ss[i] == Do(ss[j], ls[j]);
      if StepOf(ls[j], t) {
        assert PutBy(ss, ls, j, i, t);
      } else {
        OthersStay(ss[j], ls[j], t);
        WasPut(ss, ls, j, t);
        var k: nat :| PutBy(ss, ls, k, j, t);
        assert PutBy(ss, ls, k, i, t);
      }
    }
  }

  lemma OwnStep(ss: seq<State>, ls: seq<Label>, i: nat, t: nat) returns (k: nat)
    requires FromBoot(ss, ls) && i <= |ls| < |ss| && t in ss[i].th && !ss[i].th[t].AtLookup?
    ensures k < i && StepOf(ls[k], t) && Enabled(ss[k], ls[k]) && t in ss[k].th
    ensures var s' := Do(ss[k], ls[k]); ss[k + 1] == s' && t in s'.th && s'.th[t] == ss[i].th[t]
    ensures PutBy(ss, ls, k, i, t)
  {
    hide Inv, Enabled, Do, Loadable;
    WasPut(ss, ls, i, t);
    k :| PutBy(ss, ls, k, i, t);
    assert Enabled(ss[k], ls[k]) && ss[k + 1] == Do(ss[k], ls[k]);
    assert t in ss[k].th by { TakesStep(ss[k], ls[k], t); }
    assert ss[k + 1].th[t] == ss[i].th[t];
  }

  lemma TakesStep(s: State, l: Label, t: nat)
    requires Enabled(s, l) && StepOf(l, t)
    ensures t in s.th
  {
  }

  // ---------- Which handlers are accepted ----------

  // The handler finds its agent registered, or not.
  ghost predicate FindsAgent(s: State, l: Label, t: nat) {
    StepOf(l, t) && t in s.th && s.th[t].AtLookup? && s.th[t].name in s.book.agents
  }

  ghost predicate FindsNone(s: State, l: Label, t: nat) {
    StepOf(l, t) && t in s.th && s.th[t].AtLookup? && s.th[t].name !in s.book.agents
  }

  // It registers the agent and opens its port, and then completes a save.
  ghost predicate Opens(s: State, l: Label, t: nat) {
    StepOf(l, t) && t in s.th && s.th[t].AtInsert? && l.c.Ok?
  }

  ghost predicate Snapshots(s: State, l: Label, t: nat) {
    StepOf(l, t) && t in s.th && s.th[t].AtSave?
  }

  ghost predicate Saves(s: State, l: Label, t: nat) {
    StepOf(l, t) && Completes(s, l)
  }

  // Its websocket is accepted.
  ghost predicate Upgrades(s: State, l: Label, t: nat) {
    StepOf(l, t) && t in s.th && s.th[t].AtAccept? && l.c.Ok?
  }

  // It returns early: the port cannot be opened, the mapping cannot be written, or the upgrade fails.
  ghost predicate Fails(s: State, l: Label, t: nat) {
    StepOf(l, t) && t in s.th && (s.th[t].AtInsert? || s.th[t].AtWrite? || s.th[t].AtAccept?) && !l.c.Ok?
  }

  lemma HandlerGoes(s: State, l: Label, t: nat)
    requires Enabled(s, l) && StepOf(l, t)
    ensures t in s.th && t in Do(s, l).th
    ensures var pc, e := s.th[t], Do(s, l).th[t];
            && (e.AtInsert? <==> FindsNone(s, l, t))
            && (e.AtSave? <==> Opens(s, l, t))
            && (e.AtWrite? <==> Snapshots(s, l, t))
            && (e.AtAccept? <==> FindsAgent(s, l, t) || Saves(s, l, t))
            && (e.AtTakeover? <==> Upgrades(s, l, t))
            && (e.Reading? <==> pc.AtTakeover?) && (e.AtRelease? <==> pc.Reading?) && (e.AtClose? <==> pc.AtRelease?)
            && (e.Done? <==> Fails(s, l, t) || pc.AtClose?)
            && e.name == pc.name
            && (t in Do(s, l).owner <==> t in s.owner || Upgrades(s, l, t))
  {
    hide Register, Takeover, Release, Mapping, Known;
  }

  // Before a handler asks for its upgrade its agent was registered, or it registered the agent itself, with an open
  // port, and has completed a save of the mapping since.
  lemma AcceptedWhen(ss: seq<State>, ls: seq<Label>, i: nat, t: nat)
    requires FromBoot(ss, ls) && i <= |ls| < |ss| && t in ss[i].th && ss[i].th[t].AtAccept?
    ensures (exists a :: 0 <= a < i && FindsAgent(ss[a], ls[a], t))
            || exists a, b, c, d :: 0 <= a < b < c < d < i && FindsNone(ss[a], ls[a], t) && Opens(ss[b], ls[b], t)
                                    && Snapshots(ss[c], ls[c], t) && Saves(ss[d], ls[d], t)
  {
    hide FromBoot, Enabled, Do, PutBy, FindsNone, FindsAgent, Opens;
    var d := OwnStep(ss, ls, i, t);
    HandlerGoes(ss[d], ls[d], t);
    if !FindsAgent(ss[d], ls[d], t) {
      var c := OwnStep(ss, ls, d, t);
      HandlerGoes(ss[c], ls[c], t);
      var b := OwnStep(ss, ls, c, t);
      HandlerGoes(ss[b], ls[b], t);
      assert ss[b].th[t].AtInsert? by { OpensAtInsert(ss[b], ls[b], t); }
      var a := OwnStep(ss, ls, b, t);
      HandlerGoes(ss[a], ls[a], t);
    }
  }

  lemma OpensAtInsert(s: State, l: Label, t: nat)
    requires Opens(s, l, t)
    ensures t in s.th && s.th[t].AtInsert?
  {
  }

  // ---------- Which handlers return early ----------

  lemma OwnersOf(s: State, t: nat)
    requires Inv(s) && t in s.th
    ensures s.th[t].AtInsert? || s.th[t].AtWrite? || s.th[t].AtAccept? ==> t !in s.owner
    ensures s.th[t].AtTakeover? || s.th[t].Reading? || s.th[t].AtRelease? || s.th[t].AtClose? ==> t in s.owner
  {
    assert PcOk(s, t, s.th[t]);
    hide Inv;
  }

  lemma OwnerStays(s: State, l: Label, t: nat)
    requires Enabled(s, l) && t in s.th && t in Do(s, l).th && s.th[t].Done?
    ensures t in Do(s, l).owner <==> t in s.owner
  {
    hide Register, Takeover, Release, Mapping, Known;
  }

  lemma {:induction false} OwnerSince(ss: seq<State>, ls: seq<Label>, k: nat, i: nat, t: nat)
    requires FromBoot(ss, ls) && k < i <= |ls| < |ss|
    requires forall n {:trigger ss[n]} :: k < n <= i ==> t in ss[n].th && ss[n].th[t].Done?
    ensures t in ss[i].owner <==> t in ss[k + 1].owner
    decreases i
  {
    hide Enabled, Do, Loadable;
    if k + 1 < i {
      OwnerSince(ss, ls, k, i - 1, t);
      assert Enabled(ss[i - 1], ls[i - 1]) && ss[i] == Do(ss[i - 1], ls[i - 1]);
      assert t in ss[i - 1].th && t in ss[i].th;
      OwnerStays(ss[i - 1], ls[i - 1], t);
    }
  }

  // A handler that has returned was the control connection's, if its upgrade succeeded, or returned early, and then
  // for one of the three reasons.
  lemma ReturnedWhen(ss: seq<State>, ls: seq<Label>, i: nat, t: nat)
    requires FromBoot(ss, ls) && i <= |ls| < |ss| && t in ss[i].th && ss[i].th[t].Done?
    ensures t !in ss[i].owner ==> exists k :: 0 <= k < i && Fails(ss[k], ls[k], t)
    ensures t in ss[i].owner ==> exists k :: 0 <= k < i && Upgrades(ss[k], ls[k], t)
  {
    hide Inv, FromBoot, Enabled, Do, Fails;
    var k := OwnStep(ss, ls, i, t);
    HandlerGoes(ss[k], ls[k], t);
    TraceInv(ss, ls, k);
    OwnersOf(ss[k], t);
    OwnerSince(ss, ls, k, i, t);
    if Fails(ss[k], ls[k], t) {
      FailsAt(ss[k], ls[k], t);
    } else {
      UpgradedBefore(ss, ls, k, t);
    }
  }

  lemma FailsAt(s: State, l: Label, t: nat)
    requires Fails(s, l, t)
    ensures !Upgrades(s, l, t) && (s.th[t].AtInsert? || s.th[t].AtWrite? || s.th[t].AtAccept?)
  {
  }

  lemma UpgradedBefore(ss: seq<State>, ls: seq<Label>, i: nat, t: nat)
    requires FromBoot(ss, ls) && i <= |ls| < |ss| && t in ss[i].th
    requires ss[i].th[t].AtTakeover? || ss[i].th[t].Reading? || ss[i].th[t].AtRelease? || ss[i].th[t].AtClose?
    ensures exists k :: 0 <= k < i && Upgrades(ss[k], ls[k], t)
    decreases i
  {
    hide FromBoot, Enabled, Do, PutBy, Upgrades;
    var k := OwnStep(ss, ls, i, t);
    HandlerGoes(ss[k], ls[k], t);
    if !ss[i].th[t].AtTakeover? { UpgradedBefore(ss, ls, k, t); }
  }

  // ---------- Which ports are listened on ----------

  // A registration takes port p.
  ghost predicate Takes(s: State, l: Label, p: int) {
    l.Go? && l.t in s.th && s.th[l.t].AtInsert? && IsFirstFree(s.book.ports, p)
  }

  // The number of steps up to the last start of the hub process.
  function LastStart(ls: seq<Label>, i: nat): (n: nat)
    requires i <= |ls|
    ensures n <= i
  {
    if i == 0 then 0 else if ls[i - 1].Restart? then i else LastStart(ls, i - 1)
  }

  lemma PortStep(s: State, l: Label, p: int)
    requires Enabled(s, l) && !l.Restart?
    ensures p in Do(s, l).book.ports <==> p in s.book.ports || Takes(s, l, p)
    ensures p in Do(s, l).book.listeners <==> p in s.book.listeners || (Takes(s, l, p) && l.c.Ok?)
  {
    if l.Go? && l.t in s.th && s.th[l.t].AtInsert? {
      var q := FirstFree(s.book.ports);
      if IsFirstFree(s.book.ports, p) { FirstFreeIs(s.book.ports, p); }
    }
    hide FirstFree, Known, Mapping, IsFirstFree;
  }

  // A port is taken exactly if it was in the file at the last start or a registration has taken it since, and it is
  // listened on exactly if, in the second case, it could be opened then.
  lemma {:induction false} ListenedIff(ss: seq<State>, ls: seq<Label>, i: nat, p: int)
    requires FromBoot(ss, ls) && i <= |ls| < |ss|
    ensures p in ss[i].book.ports
            <==> || p in ss[LastStart(ls, i)].book.ports
                 || exists k :: LastStart(ls, i) <= k < i && Takes(ss[k], ls[k], p)
    ensures p in ss[i].book.listeners
            <==> || p in ss[LastStart(ls, i)].book.ports
                 || exists k :: LastStart(ls, i) <= k < i && Takes(ss[k], ls[k], p) && ls[k].c.Ok?
  {
    hide Enabled, Do, Takes, Loadable, Boot;
    if i == 0 {
      var f, n :| Loadable(f) && ss[0] == Boot(f, n);
      BootListens(f, n);
    } else {
      var j := i - 1;
      assert Enabled(ss[j], ls[j]) && ss[i] == Do(ss[j], ls[j]);
      if ls[j].Restart? {
        RestartListens(ss[j]);
      } else {
        ListenedIff(ss, ls, j, p);
        PortStep(ss[j], ls[j], p);
      }
    }
  }

  lemma BootListens(f: File, n: nat)
    requires Loadable(f)
    ensures Boot(f, n).book.listeners == Boot(f, n).book.ports
  {
  }

  lemma RestartListens(s: State)
    requires Enabled(s, Restart)
    ensures Do(s, Restart).book.listeners == Do(s, Restart).book.ports
  {
  }

  // ---------- An agent that nobody can reach ----------

  const UNHEARD :=
    Book(map[Added(0) := AgentRecord("a", 10000, None)], map["a" := Added(0)], map[10000 := "a"], map[])

  // The port of a new agent cannot be opened, and its handler returns.
  lemma PortNotOpened() returns (ss: seq<State>, ls: seq<Label>)
    ensures FromBoot(ss, ls) && |ls| == 3 && |ss| == 4
    ensures ss[3] == State(UNHEARD, Saved(map[]), map[0 := Done("a")], map[], 1)
  {
    ss, ls := [Boot(Missing, 0)], [];
    assert FromBoot(ss, ls) by { assert Loadable(Missing) && ss[0] == Boot(Missing, 0); }
    LoadingUnique(map[], ss[0].book, NEW_BOOK);
    FirstFreeIs(map[], 10000);
    hide Loading, FromBoot, Trace, Boot, Loadable, FirstFree;
    assert ss[0] == State(NEW_BOOK, Saved(map[]), map[], map[], 0);
    ss, ls := Extend(ss, ls, Connect("a"));
    ss, ls := Extend(ss, ls, Go(0, Ok));
    ss, ls := Extend(ss, ls, Go(0, Fail));
  }

  // A run after which an agent has a control connection and a port, but nothing listens on that port: its
  // registration could not open it, and its next connection is accepted because it is registered.
  lemma UnreachableAgent() returns (ss: seq<State>, ls: seq<Label>)
    ensures FromBoot(ss, ls) && |ls| == 7 && |ss| == 8
    ensures HasPort(ss[7].book, "a", 10000) && Controlling(ss[7].book, "a") == Some(1)
    ensures 10000 !in ss[7].book.listeners
  {
    hide FromBoot, Trace;
    ss, ls := PortNotOpened();
    ss, ls := Extend(ss, ls, Connect("a"));
    ss, ls := Extend(ss, ls, Go(1, Ok));
    ss, ls := Extend(ss, ls, Go(1, Ok));
    assert ss[6] == State(UNHEARD, Saved(map[]), map[0 := Done("a"), 1 := AtTakeover("a")], map[1 := "a"], 2);
    ss, ls := Extend(ss, ls, Go(1, Ok));
  }
}
