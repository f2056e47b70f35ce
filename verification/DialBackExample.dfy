/**
 Two runs of the composed system. In one the agent's dial-back is bound and forwarded: the composed system's
 theorems are about runs that exist. In the other the agent is quick enough to dial back before onSSHConn has
 marked the session OPEN_SENT, and its only dial-back is refused.
*/
module DialBackExample {
  import opened Options
  import opened PendingHeap
  import opened Protocol
  import opened ProtocolOwnership
  import opened OrphanExample
  import opened SessionTheorems
  import opened ComposedSystem
  import opened Drain
  import opened ComesToRest
  import Handshake

  // OPEN has gone out to agent "a", and nobody has dialled yet.
  ghost predicate AwaitsDial(sh: Shared, th: Threads, key: string) {
    && sh.reg == REG && sh.sent == [Msg(key, 0, SSH)]
    && sh.next == 1 && sh.hello == map[] && sh.wire == map[]
    && KeysMatch(sh.heap) && sh.heap.pending == map[key := SSH]
    && Dial(0) !in th && Main(TUN) !in th
  }

  function Dialled(sh: Shared, key: string): Shared {
    sh.(next := 2, hello := map[TUN := Hello("a", key, Some(0))])
  }

  function Shaken(sh: Shared, key: string): Shared {
    Dialled(sh, key).(wire := map[TUN := Wire(true, Handshake.Frame(sh.sha, key))])
  }

  function DialThreads(th: Threads, dial: Pc, tun: Pc): Threads {
    th[Dial(0) := dial][Main(TUN) := tun]
  }

  lemma AgentReceives(sh: Shared, th: Threads, key: string)
    requires AwaitsDial(sh, th, key) && key != ""
    ensures Moves(State(sh, th), Receive(0), State(sh, th[Dial(0) := ADial("a", key)]))
  {
    hide KeysMatch;
  }

  lemma AgentDials(sh: Shared, th: Threads, key: string)
    requires AwaitsDial(sh, th, key)
    ensures Moves(State(sh, th[Dial(0) := ADial("a", key)]), Go(Dial(0), Ok),
                  State(Dialled(sh, key), DialThreads(th, AShake(TUN, key), TAgent("a", key))))
  {
    hide KeysMatch;
    var e := DialStep(sh, 0, ADial("a", key), Ok);
    assert th[Dial(0) := ADial("a", key)][Dial(0) := e.pc] + e.spawn
           == DialThreads(th, AShake(TUN, key), TAgent("a", key));
  }

  lemma ShakeStep(sh: Shared, th: Threads, key: string)
    requires AwaitsDial(sh, th, key)
    ensures DialStep(Dialled(sh, key), 0, AShake(TUN, key), Ok) == Just(Shaken(sh, key), Done)
  {
    hide KeysMatch, Handshake.Frame;
  }

  lemma AgentShakes(sh: Shared, th: Threads, key: string)
    requires AwaitsDial(sh, th, key)
    ensures Moves(State(Dialled(sh, key), DialThreads(th, AShake(TUN, key), TAgent("a", key))), Go(Dial(0), Ok),
                  State(Shaken(sh, key), DialThreads(th, Done, TAgent("a", key))))
  {
    hide KeysMatch, Handshake.Frame, CanSsh, CanTun, CanWatch, CanWait, CanPair, Fresh;
    ShakeStep(sh, th, key);
    hide DialStep, Shaken, Dialled;
    var shaking, shaken := DialThreads(th, AShake(TUN, key), TAgent("a", key)), DialThreads(th, Done, TAgent("a", key));
    assert shaking[Dial(0) := Done] + map[] == shaken;
  }

  // A step of the tunnel handler that starts no goroutine moves it to its next point.
  lemma DialledMoves(sh: Shared, th: Threads, tun: Pc, sh': Shared, pc: Pc)
    requires IsTun(tun) && CanTun(sh, TUN, tun, Ok) && TunStep(sh, TUN, tun, Ok) == Just(sh', pc)
    ensures Moves(State(sh, DialThreads(th, Done, tun)), Go(Main(TUN), Ok), State(sh', DialThreads(th, Done, pc)))
  {
    hide IsTun, CanTun, TunStep;
    assert DialThreads(th, Done, tun)[Main(TUN) := pc] + map[] == DialThreads(th, Done, pc);
  }

  lemma ShakenParts(sh: Shared, th: Threads, key: string)
    requires AwaitsDial(sh, th, key)
    ensures Shaken(sh, key).reg.book.agents == map["a" := A, "b" := B]
    ensures Shaken(sh, key).heap == sh.heap && KeysMatch(sh.heap) && sh.heap.pending == map[key := SSH]
    ensures Shaken(sh, key).wire == map[TUN := Wire(true, Handshake.Frame(sh.sha, key))]
    ensures Shaken(sh, key).sha == sh.sha
  {
  }

  lemma TunAccepts(sh: Shared, th: Threads, key: string)
    requires AwaitsDial(sh, th, key)
    ensures Moves(State(Shaken(sh, key), DialThreads(th, Done, TAgent("a", key))), Go(Main(TUN), Ok),
                  State(Shaken(sh, key), DialThreads(th, Done, TAccept("a", key, A))))
    ensures Moves(State(Shaken(sh, key), DialThreads(th, Done, TAccept("a", key, A))), Go(Main(TUN), Ok),
                  State(Shaken(sh, key), DialThreads(th, Done, TRead("a", key, A))))
  {
    hide Shaken, Handshake.Frame, Moves, DialThreads, AwaitsDial;
    ShakenParts(sh, th, key);
    DialledMoves(Shaken(sh, key), th, TAgent("a", key), Shaken(sh, key), TAccept("a", key, A));
    DialledMoves(Shaken(sh, key), th, TAccept("a", key, A), Shaken(sh, key), TRead("a", key, A));
  }

  lemma TunFinds(sh: Shared, th: Threads, key: string)
    requires AwaitsDial(sh, th, key) && key != ""
    ensures Moves(State(Shaken(sh, key), DialThreads(th, Done, TRead("a", key, A))), Go(Main(TUN), Ok),
                  State(Shaken(sh, key), DialThreads(th, Done, TLookup("a", key, A))))
    ensures Moves(State(Shaken(sh, key), DialThreads(th, Done, TLookup("a", key, A))), Go(Main(TUN), Ok),
                  State(Shaken(sh, key), DialThreads(th, Done, TBind("a", key))))
  {
    hide Shaken, Handshake.Frame, Moves, DialThreads, AwaitsDial;
    ShakenParts(sh, th, key);
    DialledMoves(Shaken(sh, key), th, TRead("a", key, A), Shaken(sh, key), TLookup("a", key, A));
    DialledMoves(Shaken(sh, key), th, TLookup("a", key, A), Shaken(sh, key), TBind("a", key));
  }

  // The dial-back's handler stands before bindTunnel.
  lemma DialBackRun(sh: Shared, th: Threads, key: string, ss0: seq<State>, ls0: seq<Label>)
    returns (ss: seq<State>, ls: seq<Label>)
    requires AwaitsDial(sh, th, key) && key != "" && Trace(ss0, ls0) && NoRequests(ls0) && ss0[|ls0|] == State(sh, th)
    ensures Trace(ss, ls) && NoRequests(ls)
    ensures ss[|ls|] == State(Shaken(sh, key), DialThreads(th, Done, TBind("a", key)))
  {
    hide *;
    AgentReceives(sh, th, key);
    AgentDials(sh, th, key);
    AgentShakes(sh, th, key);
    TunAccepts(sh, th, key);
    TunFinds(sh, th, key);
    ss, ls := Extend(ss0, ls0, Receive(0), State(sh, th[Dial(0) := ADial("a", key)]));
    ss, ls := Extend(ss, ls, Go(Dial(0), Ok),
                     State(Dialled(sh, key), DialThreads(th, AShake(TUN, key), TAgent("a", key))));
    ss, ls := Extend(ss, ls, Go(Dial(0), Ok), State(Shaken(sh, key), DialThreads(th, Done, TAgent("a", key))));
    ss, ls := Extend(ss, ls, Go(Main(TUN), Ok), State(Shaken(sh, key), DialThreads(th, Done, TAccept("a", key, A))));
    ss, ls := Extend(ss, ls, Go(Main(TUN), Ok), State(Shaken(sh, key), DialThreads(th, Done, TRead("a", key, A))));
    ss, ls := Extend(ss, ls, Go(Main(TUN), Ok), State(Shaken(sh, key), DialThreads(th, Done, TLookup("a", key, A))));
    ss, ls := Extend(ss, ls, Go(Main(TUN), Ok), State(Shaken(sh, key), DialThreads(th, Done, TBind("a", key))));
  }

  lemma NoRequestsIsComposed(ss: seq<State>, ls: seq<Label>)
    requires Trace(ss, ls) && NoRequests(ls)
    ensures ComposedTrace(ss, ls)
  {
    hide Trace;
  }

  // ---------- A dial-back that is forwarded ----------

  function Waiting(key: string): Threads {
    map[Main(SSH) := Done, Watch(SSH) := WArm(key)]
  }

  function Bound(sha: Handshake.Hash, key: string): Shared {
    Shaken(Opened(sha, key), key).(heap := OneSession(key, BOUND, Some(TUN), {}))
  }

  lemma OpenedAwaits(sha: Handshake.Hash, key: string)
    ensures AwaitsDial(Opened(sha, key), Waiting(key), key)
    ensures Opened(sha, key).heap == OneSession(key, OPEN_SENT, None, {})
  {
  }

  lemma TunIsBound(sha: Handshake.Hash, key: string)
    ensures Moves(State(Shaken(Opened(sha, key), key), DialThreads(Waiting(key), Done, TBind("a", key))),
                  Go(Main(TUN), Ok),
                  State(Bound(sha, key), DialThreads(Waiting(key), Done, TVerify("a", SSH))))
  {
    hide Shaken, Moves, DialThreads, AwaitsDial, Opened;
    OpenedAwaits(sha, key);
    ShakenParts(Opened(sha, key), Waiting(key), key);
    BindsHere(key);
    DialledMoves(Shaken(Opened(sha, key), key), Waiting(key), TBind("a", key), Bound(sha, key), TVerify("a", SSH));
  }

  function Forwarding(key: string): Threads {
    DialThreads(Waiting(key), Done, Done)[Fwd(TUN) := FPair("a", SSH, key, Pair(true, true, Idle))]
  }

  lemma VerifyPasses(sha: Handshake.Hash, key: string)
    ensures var sh, pc := Bound(sha, key), TVerify("a", SSH);
            && CanTun(sh, TUN, pc, Ok)
            && TunStep(sh, TUN, pc, Ok)
               == Effect(sh, Done, map[Fwd(TUN) := FPair("a", SSH, key, Pair(true, true, Idle))])
  {
    hide Shaken;
  }

  lemma TunForwards(sha: Handshake.Hash, key: string)
    ensures Moves(State(Bound(sha, key), DialThreads(Waiting(key), Done, TVerify("a", SSH))), Go(Main(TUN), Ok),
                  State(Bound(sha, key), Forwarding(key)))
  {
    hide TunStep, CanTun, Bound;
    VerifyPasses(sha, key);
    var spawn := map[Fwd(TUN) := FPair("a", SSH, key, Pair(true, true, Idle))];
    assert DialThreads(Waiting(key), Done, TVerify("a", SSH))[Main(TUN) := Done] + spawn == Forwarding(key);
  }

  lemma ForwardingState(sha: Handshake.Hash, key: string)
    ensures Fwd(TUN) in Forwarding(key) && Forwarding(key)[Fwd(TUN)] == FPair("a", SSH, key, Pair(true, true, Idle))
    ensures Bound(sha, key).heap.objs == map[SSH := Session(key, "a", BOUND, Some(TUN))]
    ensures Needing(Forwarding(key)) == {}
  {
  }

  // For every ID the hub may generate there is a composed run in which the agent's dial-back is forwarded to
  // the SSH connection that the ID was generated for.
  lemma DialBackForwards(sha: Handshake.Hash, key: string) returns (ss: seq<State>, ls: seq<Label>)
    requires Handshake.IsUuid(key)
    ensures ComposedTrace(ss, ls)
    ensures var s := ss[|ls|];
            && Fwd(TUN) in s.th && s.th[Fwd(TUN)] == FPair("a", SSH, key, Pair(true, true, Idle))
            && s.sh.heap.objs == map[SSH := Session(key, "a", BOUND, Some(TUN))]
            && Needing(s.th) == {}
    ensures ss[|ls|] == State(Bound(sha, key), Forwarding(key)) && Trace(ss, ls) && NoRequests(ls)
  {
    assert key != "" && Waiting(key) == map[Main(SSH) := Done, Watch(SSH) := WArm(key)];
    hide *;
    ss, ls := OpenedRun(sha, key);
    OpenedAwaits(sha, key);
    ss, ls := DialBackRun(Opened(sha, key), Waiting(key), key, ss, ls);
    TunIsBound(sha, key);
    ss, ls := Extend(ss, ls, Go(Main(TUN), Ok),
                     State(Bound(sha, key), DialThreads(Waiting(key), Done, TVerify("a", SSH))));
    TunForwards(sha, key);
    ss, ls := Extend(ss, ls, Go(Main(TUN), Ok), State(Bound(sha, key), Forwarding(key)));
    NoRequestsIsComposed(ss, ls);
    ForwardingState(sha, key);
  }

  // That run with the pair at some point of its cleanup, and the shared state then.
  function Ending(key: string, p: Pair): Threads {
    DialThreads(Waiting(key), Done, Done)[Fwd(TUN) := FPair("a", SSH, key, p)]
  }

  function Closed(sha: Handshake.Hash, key: string, closed: set<Id>): Shared {
    Shaken(Opened(sha, key), key).(heap := OneSession(key, BOUND, Some(TUN), closed))
  }

  function Gone(sha: Handshake.Hash, key: string): Shared {
    Shaken(Opened(sha, key), key).(heap := Heap(map[SSH := Session(key, "a", CLOSED, Some(TUN))], map[], {SSH, TUN}))
  }

  function At(key: string, p: Pair): Pc {
    FPair("a", SSH, key, p)
  }

  lemma PairSteps(sha: Handshake.Hash, key: string)
    ensures CanPair(Closed(sha, key, {}), At(key, Pair(true, true, Idle)), Left)
            && PairStep(Closed(sha, key, {}), TUN, At(key, Pair(true, true, Idle)), Left)
               == Just(Closed(sha, key, {}), At(key, Pair(false, true, CloseFirst)))
            && CanPair(Closed(sha, key, {}), At(key, Pair(false, true, CloseFirst)), Ok)
            && PairStep(Closed(sha, key, {}), TUN, At(key, Pair(false, true, CloseFirst)), Ok)
               == Just(Closed(sha, key, {SSH}), At(key, Pair(false, true, CloseSecond)))
            && CanPair(Closed(sha, key, {SSH}), At(key, Pair(false, true, CloseSecond)), Ok)
            && PairStep(Closed(sha, key, {SSH}), TUN, At(key, Pair(false, true, CloseSecond)), Ok)
               == Just(Closed(sha, key, {SSH, TUN}), At(key, Pair(false, true, Unlist)))
            && CanPair(Closed(sha, key, {SSH, TUN}), At(key, Pair(false, true, Unlist)), Ok)
            && PairStep(Closed(sha, key, {SSH, TUN}), TUN, At(key, Pair(false, true, Unlist)), Ok)
               == Just(Gone(sha, key), At(key, Pair(false, true, Finished)))
  {
    hide Shaken, Opened;
  }

  lemma PairAdvances(sh: Shared, key: string, p: Pair, c: Choice, sh': Shared, p': Pair)
    requires CanPair(sh, At(key, p), c) && !c.New?
    requires PairStep(sh, TUN, At(key, p), c) == Just(sh', At(key, p'))
    ensures Moves(State(sh, Ending(key, p)), Go(Fwd(TUN), c), State(sh', Ending(key, p')))
  {
    hide CanPair, PairStep;
    assert Ending(key, p)[Fwd(TUN) := FPair("a", SSH, key, p')] + map[] == Ending(key, p');
  }

  lemma PairAtStart(sha: Handshake.Hash, key: string)
    ensures Bound(sha, key) == Closed(sha, key, {}) && Forwarding(key) == Ending(key, Pair(true, true, Idle))
    ensures Gone(sha, key).heap.objs == map[SSH := Session(key, "a", CLOSED, Some(TUN))]
    ensures Gone(sha, key).heap.pending == map[] && Gone(sha, key).heap.closed == {SSH, TUN}
  {
  }

  // One copy of that pair ends, and its cleanup goes through its three actions: the session ends CLOSED.
  lemma ForwardingEndsClosed(sha: Handshake.Hash, key: string) returns (ss: seq<State>, ls: seq<Label>)
    requires Handshake.IsUuid(key)
    ensures ComposedTrace(ss, ls)
    ensures ss[|ls|].sh.heap == Heap(map[SSH := Session(key, "a", CLOSED, Some(TUN))], map[], {SSH, TUN})
  {
    hide *;
    PairAtStart(sha, key);
    PairSteps(sha, key);
    ss, ls := DialBackForwards(sha, key);
    PairAdvances(Closed(sha, key, {}), key, Pair(true, true, Idle), Left, Closed(sha, key, {}),
                 Pair(false, true, CloseFirst));
    ss, ls := Extend(ss, ls, Go(Fwd(TUN), Left),
                     State(Closed(sha, key, {}), Ending(key, Pair(false, true, CloseFirst))));
    PairAdvances(Closed(sha, key, {}), key, Pair(false, true, CloseFirst), Ok, Closed(sha, key, {SSH}),
                 Pair(false, true, CloseSecond));
    ss, ls := Extend(ss, ls, Go(Fwd(TUN), Ok),
                     State(Closed(sha, key, {SSH}), Ending(key, Pair(false, true, CloseSecond))));
    PairAdvances(Closed(sha, key, {SSH}), key, Pair(false, true, CloseSecond), Ok, Closed(sha, key, {SSH, TUN}),
                 Pair(false, true, Unlist));
    ss, ls := Extend(ss, ls, Go(Fwd(TUN), Ok),
                     State(Closed(sha, key, {SSH, TUN}), Ending(key, Pair(false, true, Unlist))));
    PairAdvances(Closed(sha, key, {SSH, TUN}), key, Pair(false, true, Unlist), Ok, Gone(sha, key),
                 Pair(false, true, Finished));
    ss, ls := Extend(ss, ls, Go(Fwd(TUN), Ok), State(Gone(sha, key), Ending(key, Pair(false, true, Finished))));
    NoRequestsIsComposed(ss, ls);
  }

  // That run goes on to rest: at its end the session is unlisted, and its SSH connection and tunnel are closed.
  lemma DialBackComesToRest(sha: Handshake.Hash, key: string) returns (ss: seq<State>, ls: seq<Label>, m: nat)
    requires Handshake.IsUuid(key)
    ensures ComposedTrace(ss, ls) && m <= |ls| && Quiescent(ss[|ls|])
    ensures Fwd(TUN) in ss[m].th && ss[m].th[Fwd(TUN)] == FPair("a", SSH, key, Pair(true, true, Idle))
    ensures var h := ss[|ls|].sh.heap; SSH in h.objs && !InPending(h, SSH) && SSH in h.closed && TUN in h.closed
  {
    hide Trace, Handshake.IsUuid, Quiescent, Total, Fresh, Poll;
    var ss0, ls0 := DialBackForwards(sha, key);
    ss, ls := NothingIsLeftReachable(ss0, ls0, []);
    m := |ls0|;
    assert ss[m] == ss0[m];
    LaterRun(ss, ls, m, |ls|);
    assert TUN in Owned(ss[|ls|].sh.heap, SSH);
  }

  // ---------- A dial-back that comes too early ----------

  function Marking(key: string): Threads {
    map[Main(SSH) := SMark(key)]
  }

  function TurnedAway(sha: Handshake.Hash, key: string): Shared {
    Shaken(Sent(sha, key), key).(heap := OneSession(key, INIT, None, {TUN}))
  }

  lemma SentAwaits(sha: Handshake.Hash, key: string)
    ensures AwaitsDial(Sent(sha, key), Marking(key), key)
    ensures Sent(sha, key).heap == OneSession(key, INIT, None, {})
  {
  }

  lemma TunIsRefused(sha: Handshake.Hash, key: string)
    ensures Moves(State(Shaken(Sent(sha, key), key), DialThreads(Marking(key), Done, TBind("a", key))),
                  Go(Main(TUN), Ok),
                  State(TurnedAway(sha, key), DialThreads(Marking(key), Done, Done)))
  {
    hide Shaken, Moves, DialThreads, AwaitsDial, Sent;
    SentAwaits(sha, key);
    ShakenParts(Sent(sha, key), Marking(key), key);
    assert BindOutcome(OneSession(key, INIT, None, {}), key) == Failure(DuplicateTunnel);
    DialledMoves(Shaken(Sent(sha, key), key), Marking(key), TBind("a", key), TurnedAway(sha, key), Done);
  }

  lemma TurnedAwayState(sha: Handshake.Hash, key: string)
    ensures var th := DialThreads(Marking(key), Done, Done);
            && Dial(0) in th && th[Dial(0)].Done? && Main(TUN) in th && th[Main(TUN)].Done?
            && Main(SSH) in th && th[Main(SSH)] == SMark(key)
    ensures TUN in TurnedAway(sha, key).heap.closed
    ensures TurnedAway(sha, key).heap.objs == map[SSH := Session(key, "a", INIT, None)]
    ensures |TurnedAway(sha, key).sent| == 1
  {
  }

  // For every ID the hub may generate there is a composed run in which the dial-back to the only OPEN that was
  // sent is over and its tunnel closed, while onSSHConn has yet to mark the session OPEN_SENT.
  lemma EarlyDialBackRefused(sha: Handshake.Hash, key: string) returns (ss: seq<State>, ls: seq<Label>)
    requires Handshake.IsUuid(key)
    ensures ComposedTrace(ss, ls)
    ensures var s := ss[|ls|];
            && |s.sh.sent| == 1 && Dial(0) in s.th && s.th[Dial(0)].Done?
            && Main(TUN) in s.th && s.th[Main(TUN)].Done? && TUN in s.sh.heap.closed
            && Main(SSH) in s.th && s.th[Main(SSH)] == SMark(key)
            && s.sh.heap.objs == map[SSH := Session(key, "a", INIT, None)]
  {
    assert key != "" && Marking(key) == map[Main(SSH) := SMark(key)];
    hide *;
    ss, ls := SentRun(sha, key);
    SentAwaits(sha, key);
    ss, ls := DialBackRun(Sent(sha, key), Marking(key), key, ss, ls);
    TunIsRefused(sha, key);
    ss, ls := Extend(ss, ls, Go(Main(TUN), Ok), State(TurnedAway(sha, key), DialThreads(Marking(key), Done, Done)));
    NoRequestsIsComposed(ss, ls);
    TurnedAwayState(sha, key);
  }
}
