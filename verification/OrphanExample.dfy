/**
 A run that shows that the exception in OrphansOnlyByStrangers happens: a hub at rest that still lists an
 SSH-initiated session. Its OPEN message is never answered by its own agent; a handler of another agent
 presents the session's ID, binds the session, and only then finds that it belongs to someone else.
*/
module OrphanExample {
  import opened Options
  import opened PendingHeap
  import opened Protocol
  import opened ProtocolOwnership
  import opened SessionTheorems
  import AgentBook
  import Handshake
  import Registry
  import RegistryTheorems

  const A := AgentBook.Loaded("a")
  const B := AgentBook.Loaded("b")
  const SSH := Ssh(0)
  const TUN := Tun(1)

  // Agent "a" is connected and listens on port 10000, agent "b" is registered.
  const BOOK :=
    AgentBook.Book(map[A := AgentBook.AgentRecord("a", 10000, Some(0)), B := AgentBook.AgentRecord("b", 10001, None)],
                   map["a" := A, "b" := B], map[10000 := "a", 10001 := "b"], map[10000 := "a", 10001 := "b"])

  const MAPPING := map["a" := 10000, "b" := 10001]

  const REG :=
    Registry.State(BOOK, Registry.Saved(MAPPING), map[0 := Registry.Reading("a")], map[0 := "a"], 1)

  // Both agents are loaded from the file, and none is connected.
  const LOADED :=
    AgentBook.Book(map[A := AgentBook.AgentRecord("a", 10000, None), B := AgentBook.AgentRecord("b", 10001, None)],
                   map["a" := A, "b" := B], map[10000 := "a", 10001 := "b"], map[10000 := "a", 10001 := "b"])

  // The registry while handler 0 of agent "a" is on its way.
  function Connecting(pc: Registry.Pc, owner: map<nat, string>): Registry.State {
    Registry.State(LOADED, Registry.Saved(MAPPING), map[0 := pc], owner, 1)
  }

  lemma LoadedFromFile()
    ensures Registry.Loadable(Registry.Saved(MAPPING))
    ensures Registry.Boot(Registry.Saved(MAPPING), 0)
            == Registry.State(LOADED, Registry.Saved(MAPPING), map[], map[], 0)
  {
    assert AgentBook.IsLoading(MAPPING, LOADED);
    AgentBook.LoadingUnique(MAPPING, AgentBook.Loading(MAPPING), LOADED);
  }

  ghost predicate RegMoves(s: Registry.State, l: Registry.Label, s': Registry.State) {
    Registry.Enabled(s, l) && Registry.Do(s, l) == s'
  }

  lemma AgentConnects()
    ensures RegMoves(Registry.State(LOADED, Registry.Saved(MAPPING), map[], map[], 0), Registry.Connect("a"),
                     Connecting(Registry.AtLookup("a"), map[]))
  {
  }

  lemma AgentIsKnown()
    ensures RegMoves(Connecting(Registry.AtLookup("a"), map[]), Registry.Go(0, Registry.Ok),
                     Connecting(Registry.AtAccept("a"), map[]))
  {
  }

  lemma AgentIsAccepted()
    ensures RegMoves(Connecting(Registry.AtAccept("a"), map[]), Registry.Go(0, Registry.Ok),
                     Connecting(Registry.AtTakeover("a"), map[0 := "a"]))
  {
  }

  lemma AgentTakesOver()
    ensures RegMoves(Connecting(Registry.AtTakeover("a"), map[0 := "a"]), Registry.Go(0, Registry.Ok), REG)
  {
    assert AgentBook.Takeover(LOADED, "a", 0) == BOOK;
  }

  // A hub that starts on the file gets to REG once agent "a" has connected.
  lemma RegIsReachable()
    ensures Registry.Reachable(REG)
  {
    hide Registry.Enabled, Registry.Do, Registry.Loadable, Registry.Boot;
    LoadedFromFile();
    AgentConnects();
    AgentIsKnown();
    AgentIsAccepted();
    AgentTakesOver();
    var f := Registry.Saved(MAPPING);
    var ss, ls := [Registry.Boot(f, 0)], [];
    assert Registry.FromBoot(ss, ls) by { assert Registry.Loadable(f) && ss[0] == Registry.Boot(f, 0); }
    hide Registry.FromBoot;
    ss, ls := RegistryTheorems.Extend(ss, ls, Registry.Connect("a"));
    ss, ls := RegistryTheorems.Extend(ss, ls, Registry.Go(0, Registry.Ok));
    ss, ls := RegistryTheorems.Extend(ss, ls, Registry.Go(0, Registry.Ok));
    ss, ls := RegistryTheorems.Extend(ss, ls, Registry.Go(0, Registry.Ok));
    assert ss[|ls|] == REG;
  }

  function Started(sha: Handshake.Hash): Shared {
    Shared(sha, REG, Heap(map[], map[], {}), 0, map[], map[], [], map[], map[])
  }

  function Accepted(sha: Handshake.Hash): Shared {
    Started(sha).(next := 1, port := map[SSH := 10000])
  }

  function OneSession(key: string, phase: Phase, tunnel: Option<Id>, closed: set<Id>): Heap {
    Heap(map[SSH := Session(key, "a", phase, tunnel)], map[key := SSH], closed)
  }

  function Entered(sha: Handshake.Hash, key: string): Shared {
    Accepted(sha).(heap := OneSession(key, INIT, None, {}), issued := map[key := SSH])
  }

  function Sent(sha: Handshake.Hash, key: string): Shared {
    Entered(sha, key).(sent := [Msg(key, 0, SSH)])
  }

  function Opened(sha: Handshake.Hash, key: string): Shared {
    Sent(sha, key).(heap := OneSession(key, OPEN_SENT, None, {}))
  }

  function Requested(sha: Handshake.Hash, key: string): Shared {
    Opened(sha, key).(next := 2, hello := map[TUN := Hello("b", key, None)])
  }

  function Framed(sha: Handshake.Hash, key: string): Shared {
    Requested(sha, key).(wire := map[TUN := Wire(true, Handshake.Frame(sha, key))])
  }

  function Taken(sha: Handshake.Hash, key: string, closed: set<Id>): Shared {
    Framed(sha, key).(heap := OneSession(key, BOUND, Some(TUN), closed))
  }

  lemma FramedHeap(sha: Handshake.Hash, key: string)
    ensures Framed(sha, key).heap == OneSession(key, OPEN_SENT, None, {}) && Framed(sha, key).sha == sha
    ensures Framed(sha, key).wire == map[TUN := Wire(true, Handshake.Frame(sha, key))]
  {
  }

  lemma BindsHere(key: string)
    ensures var h := OneSession(key, OPEN_SENT, None, {});
            && KeysMatch(h) && BindOutcome(h, key) == Success(SSH)
            && Bind(h, key, TUN) == OneSession(key, BOUND, Some(TUN), {})
  {
  }

  lemma RequestedReg(sha: Handshake.Hash, key: string)
    ensures Requested(sha, key).reg.book.agents == map["a" := A, "b" := B]
    ensures KeysMatch(Requested(sha, key).heap)
  {
  }

  // onSSHConn has returned; the tunnel handler and the watcher are at these points.
  function Threads2(tun: Pc, watch: Pc): Threads {
    map[Main(SSH) := Done, Watch(SSH) := watch, Main(TUN) := tun]
  }

  ghost predicate Moves(s: State, l: Label, s': State) {
    Enabled(s, l) && Do(s, l) == s'
  }

  // A step of the tunnel handler that starts no goroutine moves it to its next point.
  lemma HandlerMoves(sh: Shared, watch: Pc, tun: Pc, sh': Shared, pc: Pc)
    requires IsTun(tun) && CanTun(sh, TUN, tun, Ok) && TunStep(sh, TUN, tun, Ok) == Just(sh', pc)
    ensures Moves(State(sh, Threads2(tun, watch)), Go(Main(TUN), Ok), State(sh', Threads2(pc, watch)))
  {
    hide IsTun, CanTun, TunStep;
    assert Threads2(tun, watch)[Main(TUN) := pc] + map[] == Threads2(pc, watch);
  }

  lemma SshEnters(sha: Handshake.Hash, key: string)
    requires Handshake.IsUuid(key)
    ensures Moves(State(Started(sha), map[]), Accept(10000), State(Accepted(sha), map[Main(SSH) := SLookup("a")]))
    ensures Moves(State(Accepted(sha), map[Main(SSH) := SLookup("a")]), Go(Main(SSH), Ok),
                  State(Accepted(sha), map[Main(SSH) := SCheck("a", A)]))
    ensures Moves(State(Accepted(sha), map[Main(SSH) := SCheck("a", A)]), Go(Main(SSH), Ok),
                  State(Accepted(sha), map[Main(SSH) := SInsert("a", A)]))
  {
    hide Handshake.IsUuid;
  }

  lemma SshInserts(sha: Handshake.Hash, key: string)
    requires Handshake.IsUuid(key)
    ensures Moves(State(Accepted(sha), map[Main(SSH) := SInsert("a", A)]), Go(Main(SSH), New(key)),
                  State(Entered(sha, key), map[Main(SSH) := SSend(A, key)]))
  {
    hide Handshake.IsUuid;
  }

  lemma SshSends(sha: Handshake.Hash, key: string)
    ensures Moves(State(Entered(sha, key), map[Main(SSH) := SSend(A, key)]), Go(Main(SSH), Ok),
                  State(Sent(sha, key), map[Main(SSH) := SMark(key)]))
  {
    hide CanTun, CanWatch, CanWait, CanPair, TunStep, WatchStep, WaitStep, PairStep, DialStep, Fresh;
  }

  lemma SshMarks(sha: Handshake.Hash, key: string)
    ensures Moves(State(Sent(sha, key), map[Main(SSH) := SMark(key)]), Go(Main(SSH), Ok),
                  State(Opened(sha, key), map[Main(SSH) := SSpawn(key)]))
  {
  }

  lemma SshSpawns(sha: Handshake.Hash, key: string)
    ensures Moves(State(Opened(sha, key), map[Main(SSH) := SSpawn(key)]), Go(Main(SSH), Ok),
                  State(Opened(sha, key), map[Main(SSH) := Done, Watch(SSH) := WArm(key)]))
  {
  }

  lemma TunArrives(sha: Handshake.Hash, key: string)
    ensures Moves(State(Opened(sha, key), map[Main(SSH) := Done, Watch(SSH) := WArm(key)]), Arrive("b", key),
                  State(Requested(sha, key), Threads2(TAgent("b", key), WArm(key))))
  {
  }

  lemma TunLooksAgentUp(sha: Handshake.Hash, key: string)
    ensures Moves(State(Requested(sha, key), Threads2(TAgent("b", key), WArm(key))), Go(Main(TUN), Ok),
                  State(Requested(sha, key), Threads2(TAccept("b", key, B), WArm(key))))
    ensures Moves(State(Requested(sha, key), Threads2(TAccept("b", key, B), WArm(key))), Go(Main(TUN), Ok),
                  State(Requested(sha, key), Threads2(TRead("b", key, B), WArm(key))))
  {
    hide Requested, Moves, Threads2;
    RequestedReg(sha, key);
    HandlerMoves(Requested(sha, key), WArm(key), TAgent("b", key), Requested(sha, key), TAccept("b", key, B));
    HandlerMoves(Requested(sha, key), WArm(key), TAccept("b", key, B), Requested(sha, key), TRead("b", key, B));
  }

  lemma TunIsFramed(sha: Handshake.Hash, key: string)
    ensures Moves(State(Requested(sha, key), Threads2(TRead("b", key, B), WArm(key))),
                  SendFrame(TUN, Wire(true, Handshake.Frame(sha, key))),
                  State(Framed(sha, key), Threads2(TRead("b", key, B), WArm(key))))
  {
    hide Handshake.Frame;
  }

  lemma TunReads(sha: Handshake.Hash, key: string)
    requires key != ""
    ensures Moves(State(Framed(sha, key), Threads2(TRead("b", key, B), WArm(key))), Go(Main(TUN), Ok),
                  State(Framed(sha, key), Threads2(TLookup("b", key, B), WArm(key))))
  {
    hide Framed, Moves, Threads2, Handshake.Frame;
    FramedHeap(sha, key);
    HandlerMoves(Framed(sha, key), WArm(key), TRead("b", key, B), Framed(sha, key), TLookup("b", key, B));
  }

  lemma TunLooksSessionUp(sha: Handshake.Hash, key: string)
    ensures Moves(State(Framed(sha, key), Threads2(TLookup("b", key, B), WArm(key))), Go(Main(TUN), Ok),
                  State(Framed(sha, key), Threads2(TBind("b", key), WArm(key))))
  {
    hide Framed, Moves, Threads2;
    FramedHeap(sha, key);
    HandlerMoves(Framed(sha, key), WArm(key), TLookup("b", key, B), Framed(sha, key), TBind("b", key));
  }

  lemma TunBinds(sha: Handshake.Hash, key: string)
    ensures Moves(State(Framed(sha, key), Threads2(TBind("b", key), WArm(key))), Go(Main(TUN), Ok),
                  State(Taken(sha, key, {}), Threads2(TVerify("b", SSH), WArm(key))))
  {
    hide Framed, Moves, Threads2;
    FramedHeap(sha, key);
    BindsHere(key);
    HandlerMoves(Framed(sha, key), WArm(key), TBind("b", key), Taken(sha, key, {}), TVerify("b", SSH));
  }

  lemma TunRefuses(sha: Handshake.Hash, key: string)
    ensures Moves(State(Taken(sha, key, {}), Threads2(TVerify("b", SSH), WArm(key))), Go(Main(TUN), Ok),
                  State(Taken(sha, key, {TUN}), Threads2(TMismatch("b", SSH), WArm(key))))
  {
    hide Framed, Moves, Threads2;
    HandlerMoves(Taken(sha, key, {}), WArm(key), TVerify("b", SSH), Taken(sha, key, {TUN}), TMismatch("b", SSH));
  }

  lemma WatcherArms(sha: Handshake.Hash, key: string)
    ensures Moves(State(Taken(sha, key, {TUN}), Threads2(TMismatch("b", SSH), WArm(key))), Go(Watch(SSH), Ok),
                  State(Taken(sha, key, {TUN}), Threads2(TMismatch("b", SSH), WRead(key, SSH))))
  {
    hide Framed;
  }

  lemma WatcherGivesUp(sha: Handshake.Hash, key: string)
    ensures Moves(State(Taken(sha, key, {TUN}), Threads2(TMismatch("b", SSH), WRead(key, SSH))), Go(Watch(SSH), Ok),
                  State(Taken(sha, key, {TUN}), Threads2(TMismatch("b", SSH), Done)))
  {
    hide Framed;
  }

  // No tunnel request has been made, except by an agent's handleOpen.
  ghost predicate NoRequests(ls: seq<Label>) {
    forall i :: 0 <= i < |ls| ==> !ls[i].Arrive?
  }

  // A run with one more step.
  lemma Extend(ss: seq<State>, ls: seq<Label>, l: Label, s: State) returns (ss': seq<State>, ls': seq<Label>)
    requires Trace(ss, ls) && Moves(ss[|ls|], l, s)
    ensures Trace(ss', ls') && |ls'| == |ls| + 1 && ss'[|ls'|] == s
    ensures NoRequests(ls) && !l.Arrive? ==> NoRequests(ls')
  {
    hide Enabled, Do, Init;
    ss', ls' := ss + [s], ls + [l];
    assert forall i :: 0 <= i < |ls| ==> ls'[i] == ls[i];
    assert ss'[0] == ss[0];
  }

  lemma StartIsInit(sha: Handshake.Hash)
    ensures Init(State(Started(sha), map[]))
  {
    hide Registry.Reachable;
    RegIsReachable();
  }

  // OPEN has been sent, and the session is still INIT.
  lemma SentRun(sha: Handshake.Hash, key: string) returns (ss: seq<State>, ls: seq<Label>)
    requires Handshake.IsUuid(key)
    ensures Trace(ss, ls) && NoRequests(ls)
    ensures ss[|ls|] == State(Sent(sha, key), map[Main(SSH) := SMark(key)])
  {
    hide *;
    StartIsInit(sha);
    SshEnters(sha, key);
    SshInserts(sha, key);
    SshSends(sha, key);
    ss, ls := FirstState(State(Started(sha), map[]));
    ss, ls := Extend(ss, ls, Accept(10000), State(Accepted(sha), map[Main(SSH) := SLookup("a")]));
    ss, ls := Extend(ss, ls, Go(Main(SSH), Ok), State(Accepted(sha), map[Main(SSH) := SCheck("a", A)]));
    ss, ls := Extend(ss, ls, Go(Main(SSH), Ok), State(Accepted(sha), map[Main(SSH) := SInsert("a", A)]));
    ss, ls := Extend(ss, ls, Go(Main(SSH), New(key)), State(Entered(sha, key), map[Main(SSH) := SSend(A, key)]));
    ss, ls := Extend(ss, ls, Go(Main(SSH), Ok), State(Sent(sha, key), map[Main(SSH) := SMark(key)]));
  }

  // OPEN has been sent, and onSSHConn has left the session to its watcher.
  lemma OpenedRun(sha: Handshake.Hash, key: string) returns (ss: seq<State>, ls: seq<Label>)
    requires Handshake.IsUuid(key)
    ensures Trace(ss, ls) && NoRequests(ls)
    ensures ss[|ls|] == State(Opened(sha, key), map[Main(SSH) := Done, Watch(SSH) := WArm(key)])
  {
    hide *;
    SshMarks(sha, key);
    SshSpawns(sha, key);
    ss, ls := SentRun(sha, key);
    ss, ls := Extend(ss, ls, Go(Main(SSH), Ok), State(Opened(sha, key), map[Main(SSH) := SSpawn(key)]));
    ss, ls := Extend(ss, ls, Go(Main(SSH), Ok),
                     State(Opened(sha, key), map[Main(SSH) := Done, Watch(SSH) := WArm(key)]));
  }

  lemma FirstState(s: State) returns (ss: seq<State>, ls: seq<Label>)
    requires Init(s)
    ensures Trace(ss, ls) && NoRequests(ls) && ss[|ls|] == s
  {
    ss, ls := [s], [];
  }

  lemma OrphanAtRest(sha: Handshake.Hash, key: string)
    ensures var s := State(Taken(sha, key, {TUN}), Threads2(TMismatch("b", SSH), Done));
            Quiescent(s) && BoundByStranger(s, SSH) && InPending(s.sh.heap, SSH) && SSH !in s.sh.heap.closed
  {
  }

  // For every ID the hub may generate, a run ends at rest with that session still listed, its SSH connection
  // open and its tunnel closed.
  lemma StrangerLeavesOrphan(sha: Handshake.Hash, key: string) returns (ss: seq<State>, ls: seq<Label>)
    requires Handshake.IsUuid(key)
    ensures Trace(ss, ls) && Quiescent(ss[|ls|])
    ensures var s := ss[|ls|]; BoundByStranger(s, SSH) && InPending(s.sh.heap, SSH) && SSH !in s.sh.heap.closed
  {
    assert key != "";
    hide *;
    ss, ls := OpenedRun(sha, key);
    TunArrives(sha, key);
    TunLooksAgentUp(sha, key);
    TunIsFramed(sha, key);
    TunReads(sha, key);
    TunLooksSessionUp(sha, key);
    TunBinds(sha, key);
    TunRefuses(sha, key);
    WatcherArms(sha, key);
    WatcherGivesUp(sha, key);
    OrphanAtRest(sha, key);
    ss, ls := Extend(ss, ls, Arrive("b", key), State(Requested(sha, key), Threads2(TAgent("b", key), WArm(key))));
    ss, ls := Extend(ss, ls, Go(Main(TUN), Ok), State(Requested(sha, key), Threads2(TAccept("b", key, B), WArm(key))));
    ss, ls := Extend(ss, ls, Go(Main(TUN), Ok), State(Requested(sha, key), Threads2(TRead("b", key, B), WArm(key))));
    ss, ls := Extend(ss, ls, SendFrame(TUN, Wire(true, Handshake.Frame(sha, key))),
                     State(Framed(sha, key), Threads2(TRead("b", key, B), WArm(key))));
    ss, ls := Extend(ss, ls, Go(Main(TUN), Ok), State(Framed(sha, key), Threads2(TLookup("b", key, B), WArm(key))));
    ss, ls := Extend(ss, ls, Go(Main(TUN), Ok), State(Framed(sha, key), Threads2(TBind("b", key), WArm(key))));
    ss, ls := Extend(ss, ls, Go(Main(TUN), Ok), State(Taken(sha, key, {}), Threads2(TVerify("b", SSH), WArm(key))));
    ss, ls := Extend(ss, ls, Go(Main(TUN), Ok),
                     State(Taken(sha, key, {TUN}), Threads2(TMismatch("b", SSH), WArm(key))));
    ss, ls := Extend(ss, ls, Go(Watch(SSH), Ok),
                     State(Taken(sha, key, {TUN}), Threads2(TMismatch("b", SSH), WRead(key, SSH))));
    ss, ls := Extend(ss, ls, Go(Watch(SSH), Ok), State(Taken(sha, key, {TUN}), Threads2(TMismatch("b", SSH), Done)));
  }
}
