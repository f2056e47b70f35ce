/**
 Runs of the composed system with entry clients. In one a late cleanup ends a session that another client has
 entered under the same ID since the cleanup before it. In one two clients with one ID both create a session, and
 both waiters splice their client with the one tunnel an agent brings. In one a tunnel reaches a session that has
 been removed, and nobody closes it. In one a client is spliced in time, and its watcher leaves the splice alone.
*/
module EntryExamples {
  import opened Options
  import opened PendingHeap
  import opened Protocol
  import opened ProtocolOwnership
  import opened OrphanExample
  import opened SessionCleanups
  import opened EntryTheorems
  import opened EntryTunnels
  import opened SessionTheorems
  import opened Watchers
  import opened ComposedSystem
  import Handshake

  datatype Run = Run(ss: seq<State>, ls: seq<Label>)

  ghost predicate Real(r: Run) {
    |r.ss| == |r.ls| + 1 && ComposedTrace(r.ss, r.ls)
  }

  function End(r: Run): State
    requires |r.ss| == |r.ls| + 1
  {
    r.ss[|r.ls|]
  }

  ghost predicate Onto(r: Run, r': Run) {
    r.ss <= r'.ss && r.ls <= r'.ls
  }

  lemma Moved(r: Run, l: Label, s: State) returns (r': Run)
    requires Real(r) && Moves(End(r), l, s) && FromAgents(End(r), l)
    ensures Real(r') && Onto(r, r') && End(r') == s && r'.ls == r.ls + [l]
  {
    hide Enabled, Do, Init, FromAgents;
    r' := Run(r.ss + [s], r.ls + [l]);
    assert forall i :: 0 <= i < |r.ls| ==> r'.ls[i] == r.ls[i];
    assert r'.ss[0] == r.ss[0];
  }

  lemma Started0(sha: Handshake.Hash) returns (r: Run)
    ensures Real(r) && r.ls == [] && End(r) == State(Started(sha), map[])
  {
    StartIsInit(sha);
    hide Init;
    r := Run([State(Started(sha), map[])], []);
  }

  ghost predicate Takes(sh: Shared, t: Tid, pc: Pc, c: Choice, e: Effect) {
    !c.New? && CanStep(sh, t, pc, c) && Step(sh, t, pc, c) == e
  }

  lemma Goes(r: Run, t: Tid, c: Choice, e: Effect) returns (r': Run)
    requires Real(r) && t in End(r).th && Takes(End(r).sh, t, End(r).th[t], c, e)
    ensures Real(r') && Onto(r, r') && r'.ls == r.ls + [Go(t, c)]
    ensures End(r') == State(e.sh, End(r).th[t := e.pc] + e.spawn)
  {
    hide CanStep, Step, ComposedTrace, Onto, Fresh;
    r' := Moved(r, Go(t, c), State(e.sh, End(r).th[t := e.pc] + e.spawn));
  }

  // ---------- A client comes and creates a session ----------

  ghost predicate Ready(sh: Shared, key: string) {
    && sh.reg == REG && KeysMatch(sh.heap) && key != "" && key !in sh.issued
  }

  function Came(sh: Shared, key: string): Shared {
    var id := Tun(sh.next);
    sh.(next := sh.next + 1, hello := sh.hello[id := Hello("a", key, None)],
        wire := sh.wire[id := Wire(true, Handshake.Frame(sh.sha, key))])
  }

  function Created(sh: Shared, id: Id, key: string): Shared {
    sh.(heap := MarkOpenSent(Insert(sh.heap, id, key, "a"), id), sent := sh.sent + [Msg(key, 0, id)])
  }

  lemma LooksUp(sh: Shared, id: Id, key: string)
    requires Ready(sh, key) && id.Tun?
    ensures Takes(sh, Main(id), TAgent("a", key), Ok, Just(sh, TAccept("a", key, A)))
    ensures Takes(sh, Main(id), TAccept("a", key, A), Ok, Just(sh, TRead("a", key, A)))
  {
    hide KeysMatch;
  }

  lemma Reads(sh: Shared, id: Id, key: string)
    requires Ready(sh, key) && id.Tun? && id in sh.wire && sh.wire[id] == Wire(true, Handshake.Frame(sh.sha, key))
    ensures Takes(sh, Main(id), TRead("a", key, A), Ok, Just(sh, TLookup("a", key, A)))
    ensures key !in sh.heap.pending ==> Takes(sh, Main(id), TLookup("a", key, A), Ok, Just(sh, TCreate("a", key, A)))
    ensures key in sh.heap.pending && sh.heap.pending[key].Tun? ==>
              Takes(sh, Main(id), TLookup("a", key, A), Ok, Just(sh, TEntry(sh.heap.pending[key])))
  {
    hide KeysMatch, Handshake.Frame;
  }

  lemma CameParts(sh: Shared, key: string)
    ensures var sh', id := Came(sh, key), Tun(sh.next);
            && id in sh'.wire && sh'.wire[id] == Wire(true, Handshake.Frame(sh.sha, key)) && sh'.sha == sh.sha
            && sh'.heap == sh.heap && (Ready(sh, key) ==> Ready(sh', key))
            && sh'.next == sh.next + 1 && sh'.wire.Keys == sh.wire.Keys + {id} && sh'.sent == sh.sent
  {
    hide KeysMatch, Handshake.Frame;
  }

  lemma Arrives(r: Run, key: string) returns (r': Run)
    requires Real(r) && key !in End(r).sh.issued && Tun(End(r).sh.next) !in End(r).sh.wire
    ensures Real(r') && Onto(r, r')
    ensures var sh, id := End(r).sh, Tun(End(r).sh.next);
            End(r') == State(Came(sh, key), End(r).th[Main(id) := TAgent("a", key)])
  {
    hide ComposedTrace, Onto, Handshake.Frame;
    var sh, th, id := End(r).sh, End(r).th, Tun(End(r).sh.next);
    var sh' := sh.(next := sh.next + 1, hello := sh.hello[id := Hello("a", key, None)]);
    r' := Moved(r, Arrive("a", key), State(sh', th[Main(id) := TAgent("a", key)]));
    var frame := Wire(true, Handshake.Frame(sh.sha, key));
    var r1 := r';
    r' := Moved(r1, SendFrame(id, frame), State(Came(sh, key), th[Main(id) := TAgent("a", key)]));
    OntoAgain(r, r1, r');
  }

  lemma OntoAgain(r: Run, r1: Run, r2: Run)
    requires Onto(r, r1) && Onto(r1, r2)
    ensures Onto(r, r2)
  {
  }

  // A further step after r0, by a goroutine that starts none.
  lemma Walks(r0: Run, r: Run, th: Threads, t: Tid, pc: Pc, c: Choice, sh': Shared, pc': Pc) returns (r': Run)
    requires Real(r0) && Real(r) && Onto(r0, r) && End(r).th == th[t := pc]
             && Takes(End(r).sh, t, pc, c, Just(sh', pc'))
    ensures Real(r') && Onto(r0, r') && End(r') == State(sh', th[t := pc']) && r'.ls == r.ls + [Go(t, c)]
  {
    hide ComposedTrace, Takes;
    r' := Goes(r, t, c, Just(sh', pc'));
    assert th[t := pc][t := pc'] + map[] == th[t := pc'];
  }

  // The same, starting other goroutines.
  lemma Starts(r0: Run, r: Run, th: Threads, t: Tid, pc: Pc, c: Choice, e: Effect) returns (r': Run)
    requires Real(r0) && Real(r) && Onto(r0, r) && End(r).th == th[t := pc] && Takes(End(r).sh, t, pc, c, e)
    ensures Real(r') && Onto(r0, r') && End(r') == State(e.sh, th[t := e.pc] + e.spawn) && r'.ls == r.ls + [Go(t, c)]
    ensures r'.ss[|r.ls|] == End(r)
  {
    hide ComposedTrace, Takes;
    r' := Goes(r, t, c, e);
    assert th[t := pc][t := e.pc] == th[t := e.pc];
  }

  // The handler of a new request with ID key has found no session under it.
  lemma ClientComes(r: Run, key: string) returns (r': Run)
    requires Real(r) && Ready(End(r).sh, key) && key !in End(r).sh.heap.pending
    requires Tun(End(r).sh.next) !in End(r).sh.wire
    ensures Real(r') && Onto(r, r')
    ensures End(r') == State(Came(End(r).sh, key), End(r).th[Main(Tun(End(r).sh.next)) := TCreate("a", key, A)])
  {
    var sh, th, id := End(r).sh, End(r).th, Tun(End(r).sh.next);
    var t, sh' := Main(id), Came(sh, key);
    assert key !in sh.issued;
    hide ComposedTrace, Onto, Takes, Ready, Handshake.Frame, Came, KeysMatch;
    CameParts(sh, key);
    LooksUp(sh', id, key);
    Reads(sh', id, key);
    r' := Arrives(r, key);
    r' := Walks(r, r', th, t, TAgent("a", key), Ok, sh', TAccept("a", key, A));
    r' := Walks(r, r', th, t, TAccept("a", key, A), Ok, sh', TRead("a", key, A));
    r' := Walks(r, r', th, t, TRead("a", key, A), Ok, sh', TLookup("a", key, A));
    r' := Walks(r, r', th, t, TLookup("a", key, A), Ok, sh', TCreate("a", key, A));
  }

  function Inserted(sh: Shared, id: Id, key: string): Shared {
    sh.(heap := Insert(sh.heap, id, key, "a"))
  }

  function Asked(sh: Shared, id: Id, key: string): Shared {
    Inserted(sh, id, key).(sent := sh.sent + [Msg(key, 0, id)])
  }

  function Spawned(id: Id, key: string): Threads {
    map[Wait(id) := EWait(key), Watch(id) := WArm(key)]
  }

  lemma StillMatch(h: Heap, id: Id, key: string)
    requires KeysMatch(h) && id !in h.objs
    ensures KeysMatch(Insert(h, id, key, "a")) && KeysMatch(MarkOpenSent(Insert(h, id, key, "a"), id))
  {
  }

  lemma Creates(sh: Shared, id: Id, key: string)
    requires Ready(sh, key) && id.Tun? && id !in sh.heap.objs
    ensures Takes(sh, Main(id), TCreate("a", key, A), Ok, Just(Inserted(sh, id, key), TSend(A, key)))
    ensures Takes(Inserted(sh, id, key), Main(id), TSend(A, key), Ok, Just(Asked(sh, id, key), TMark(key)))
  {
    hide KeysMatch, MarkOpenSent;
    StillMatch(sh.heap, id, key);
  }

  lemma Marks(sh: Shared, id: Id, key: string)
    requires Ready(sh, key) && id.Tun? && id !in sh.heap.objs
    ensures Takes(Asked(sh, id, key), Main(id), TMark(key), Ok, Just(Created(sh, id, key), TSpawn(key)))
    ensures Takes(Created(sh, id, key), Main(id), TSpawn(key), Ok, Effect(Created(sh, id, key), Done, Spawned(id, key)))
  {
    hide KeysMatch;
    StillMatch(sh.heap, id, key);
  }

  lemma CreatedParts(sh: Shared, id: Id, key: string)
    requires Ready(sh, key) && id.Tun? && id !in sh.heap.objs
    ensures var sh' := Created(sh, id, key);
            && Ready(sh', key) && sh'.next == sh.next && sh'.wire == sh.wire && sh'.hello == sh.hello
            && sh'.sent == sh.sent + [Msg(key, 0, id)] && sh'.heap.pending == sh.heap.pending[key := id]
            && sh'.heap.objs == sh.heap.objs[id := Session(key, "a", OPEN_SENT, None)]
            && sh'.heap.closed == sh.heap.closed
  {
    hide KeysMatch;
    StillMatch(sh.heap, id, key);
  }

  // That handler enters a session, sends OPEN, and leaves the session to its waiter and its watcher.
  lemma ClientCreates(r: Run, id: Id, key: string) returns (r': Run)
    requires Real(r) && Ready(End(r).sh, key) && id.Tun? && id !in End(r).sh.heap.objs
    requires Main(id) in End(r).th && End(r).th[Main(id)] == TCreate("a", key, A)
    ensures Real(r') && Onto(r, r')
    ensures End(r') == State(Created(End(r).sh, id, key), End(r).th[Main(id) := Done] + Spawned(id, key))
  {
    hide ComposedTrace, Takes, Ready, Created, Asked, Inserted, Spawned;
    var sh, th, t := End(r).sh, End(r).th, Main(id);
    Creates(sh, id, key);
    Marks(sh, id, key);
    assert th == th[t := TCreate("a", key, A)];
    r' := Walks(r, r, th, t, TCreate("a", key, A), Ok, Inserted(sh, id, key), TSend(A, key));
    r' := Walks(r, r', th, t, TSend(A, key), Ok, Asked(sh, id, key), TMark(key));
    r' := Walks(r, r', th, t, TMark(key), Ok, Created(sh, id, key), TSpawn(key));
    r' := Starts(r, r', th, t, TSpawn(key), Ok, Effect(Created(sh, id, key), Done, Spawned(id, key)));
  }

  // ---------- An agent answers ----------

  function Answered(sh: Shared, m: nat, key: string): Shared {
    var id := Tun(sh.next);
    sh.(next := sh.next + 1, hello := sh.hello[id := Hello("a", key, Some(m))],
        wire := sh.wire[id := Wire(true, Handshake.Frame(sh.sha, key))])
  }

  lemma AnsweredParts(sh: Shared, m: nat, key: string)
    ensures var sh', id := Answered(sh, m, key), Tun(sh.next);
            && id in sh'.wire && sh'.wire[id] == Wire(true, Handshake.Frame(sh.sha, key)) && sh'.sha == sh.sha
            && sh'.heap == sh.heap && (Ready(sh, key) ==> Ready(sh', key))
  {
    hide KeysMatch, Handshake.Frame;
  }

  function Asking(sh: Shared, m: nat, key: string): Shared {
    sh.(next := sh.next + 1, hello := sh.hello[Tun(sh.next) := Hello("a", key, Some(m))])
  }

  lemma AnswerSteps(sh: Shared, m: nat, key: string)
    requires Tun(sh.next) !in sh.wire
    ensures var id := Tun(sh.next);
            Takes(sh, Dial(m), ADial("a", key), Ok,
                  Effect(Asking(sh, m, key), AShake(id, key), map[Main(id) := TAgent("a", key)]))
    ensures Takes(Asking(sh, m, key), Dial(m), AShake(Tun(sh.next), key), Ok, Just(Answered(sh, m, key), Done))
  {
    hide Handshake.Frame;
  }

  lemma Apart(th: Threads, t: Tid, pc: Pc, u: Tid, pu: Pc)
    requires t != u
    ensures th[t := pc] + map[u := pu] == (th + map[u := pu])[t := pc] == th[t := pc][u := pu]
  {
  }

  lemma Receives(sh: Shared, th: Threads, m: nat, key: string)
    requires Ready(sh, key) && m < |sh.sent| && sh.sent[m].key == key && sh.sent[m].ws == 0 && Dial(m) !in th
    ensures Moves(State(sh, th), Receive(m), State(sh, th[Dial(m) := ADial("a", key)]))
  {
    hide KeysMatch;
  }

  lemma Dials(r: Run, m: nat, key: string) returns (r': Run)
    requires Real(r) && Ready(End(r).sh, key) && Tun(End(r).sh.next) !in End(r).sh.wire
    requires m < |End(r).sh.sent| && End(r).sh.sent[m].key == key && End(r).sh.sent[m].ws == 0 && Dial(m) !in End(r).th
    ensures Real(r') && Onto(r, r')
    ensures End(r') == State(Answered(End(r).sh, m, key),
                             End(r).th[Dial(m) := Done][Main(Tun(End(r).sh.next)) := TAgent("a", key)])
  {
    var sh, th, id, t := End(r).sh, End(r).th, Tun(End(r).sh.next), Dial(m);
    hide ComposedTrace, Onto, Ready, Moves, Takes, Answered, Asking;
    Receives(sh, th, m, key);
    AnswerSteps(sh, m, key);
    r' := Moved(r, Receive(m), State(sh, th[t := ADial("a", key)]));
    var sh' := Asking(sh, m, key);
    var start := map[Main(id) := TAgent("a", key)];
    r' := Starts(r, r', th, t, ADial("a", key), Ok, Effect(sh', AShake(id, key), start));
    Apart(th, t, AShake(id, key), Main(id), TAgent("a", key));
    r' := Walks(r, r', th + start, t, AShake(id, key), Ok, Answered(sh, m, key), Done);
    Apart(th, t, Done, Main(id), TAgent("a", key));
  }

  function Attached(sh: Shared, o: Id, w: Id): Shared
    requires o in sh.heap.objs
  {
    sh.(heap := Attach(sh.heap, o, w))
  }

  lemma Attaches(sh: Shared, id: Id, o: Id)
    requires o in sh.heap.objs && KeysMatch(sh.heap) && id.Tun?
    ensures Takes(sh, Main(id), TEntry(o), Ok, Just(Attached(sh, o, id), Done))
  {
    hide KeysMatch;
  }

  // The agent answers message m, and its tunnel's handler finds the entry session that is listed under key; step
  // a accepted the tunnel.
  lemma AgentFinds(r: Run, m: nat, key: string, o: Id) returns (r': Run, a: nat)
    requires Real(r) && Ready(End(r).sh, key) && Tun(End(r).sh.next) !in End(r).sh.wire
    requires m < |End(r).sh.sent| && End(r).sh.sent[m].key == key && End(r).sh.sent[m].ws == 0 && Dial(m) !in End(r).th
    requires key in End(r).sh.heap.pending && End(r).sh.heap.pending[key] == o && o.Tun?
    ensures Real(r') && Onto(r, r') && a < |r'.ls| && Accepts(r'.ss[a], r'.ls[a], Tun(End(r).sh.next))
    ensures End(r') == State(Answered(End(r).sh, m, key),
                             End(r).th[Dial(m) := Done][Main(Tun(End(r).sh.next)) := TEntry(o)])
  {
    hide ComposedTrace, Takes, Ready, Handshake.Frame, Answered, KeysMatch;
    var sh, th, id := End(r).sh, End(r).th, Tun(End(r).sh.next);
    var t, sh' := Main(id), Answered(sh, m, key);
    AnsweredParts(sh, m, key);
    LooksUp(sh', id, key);
    Reads(sh', id, key);
    var r1 := Dials(r, m, key);
    var was := th[Dial(m) := Done];
    r1 := Walks(r, r1, was, t, TAgent("a", key), Ok, sh', TAccept("a", key, A));
    a := |r1.ls|;
    var r2 := Walks(r1, r1, was, t, TAccept("a", key, A), Ok, sh', TRead("a", key, A));
    assert Accepts(r2.ss[a], r2.ls[a], id);
    hide Accepts;
    r' := Walks(r2, r2, was, t, TRead("a", key, A), Ok, sh', TLookup("a", key, A));
    r' := Walks(r2, r', was, t, TLookup("a", key, A), Ok, sh', TEntry(o));
    assert r'.ss[a] == r2.ss[a] && r'.ls[a] == r2.ls[a];
    OntoAgain(r, r1, r2);
    OntoAgain(r, r2, r');
  }

  // The handler binds it to that session, listed or not.
  lemma TunnelParks(r: Run, id: Id, o: Id) returns (r': Run, k: nat)
    requires Real(r) && o in End(r).sh.heap.objs && KeysMatch(End(r).sh.heap) && id.Tun?
    requires Main(id) in End(r).th && End(r).th[Main(id)] == TEntry(o)
    ensures Real(r') && Onto(r, r') && k == |r.ls| < |r'.ls| && Parks(r'.ss[k], r'.ls[k], id)
    ensures End(r') == State(Attached(End(r).sh, o, id), End(r).th[Main(id) := Done])
  {
    hide ComposedTrace, Takes, KeysMatch, Attached;
    var sh, th := End(r).sh, End(r).th;
    Attaches(sh, id, o);
    assert th == th[Main(id) := TEntry(o)];
    k := |r.ls|;
    r' := Walks(r, r, th, Main(id), TEntry(o), Ok, Attached(sh, o, id), Done);
    assert r'.ss[k] == End(r);
  }

  // Both.
  lemma AgentAnswers(r: Run, m: nat, key: string, o: Id) returns (r': Run)
    requires Real(r) && Ready(End(r).sh, key) && Tun(End(r).sh.next) !in End(r).sh.wire
    requires m < |End(r).sh.sent| && End(r).sh.sent[m].key == key && End(r).sh.sent[m].ws == 0 && Dial(m) !in End(r).th
    requires key in End(r).sh.heap.pending && End(r).sh.heap.pending[key] == o && o.Tun? && o in End(r).sh.heap.objs
    ensures Real(r') && Onto(r, r')
    ensures var w := Tun(End(r).sh.next);
            && Answered(End(r).sh, m, key).heap == End(r).sh.heap
            && End(r') == State(Attached(Answered(End(r).sh, m, key), o, w),
                                End(r).th[Dial(m) := Done][Main(w) := Done])
  {
    hide ComposedTrace, Onto, Ready, Answered, KeysMatch, Attached, Accepts, Parks;
    var sh, id := End(r).sh, Tun(End(r).sh.next);
    ReadyMatches(sh, key);
    AnsweredParts(sh, m, key);
    var r1, a := AgentFinds(r, m, key, o);
    var k;
    r', k := TunnelParks(r1, id, o);
    OntoAgain(r, r1, r');
  }

  // ---------- A waiter hands its client over ----------

  function Splices(id: Id, w: Id): Threads {
    map[Splice(id) := XPair(w, Pair(true, true, Idle))]
  }

  lemma Finds(sh: Shared, id: Id, key: string, o: Id, w: Id)
    requires KeysMatch(sh.heap) && key in sh.heap.pending && sh.heap.pending[key] == o && o in sh.heap.objs
    requires sh.heap.objs[o].phase.BOUND? && sh.heap.objs[o].tunnel == Some(w)
    ensures Takes(sh, Wait(id), EWait(key), Ok, Just(sh, EState(key, o)))
    ensures Takes(sh, Wait(id), EState(key, o), Ok, Just(sh, ETunnel(key, o)))
    ensures Takes(sh, Wait(id), ETunnel(key, o), Ok, Effect(sh, EHanded(w), Splices(id, w)))
  {
    hide KeysMatch;
  }

  lemma WaiterHands(r: Run, id: Id, key: string, o: Id, w: Id) returns (r': Run, j: nat)
    requires Real(r) && Wait(id) in End(r).th && End(r).th[Wait(id)] == EWait(key)
    requires var h := End(r).sh.heap;
             && KeysMatch(h) && key in h.pending && h.pending[key] == o && o in h.objs
             && h.objs[o].phase.BOUND? && h.objs[o].tunnel == Some(w)
    ensures Real(r') && Onto(r, r') && |r.ls| <= j < |r'.ls| && HandsOver(r'.ss[j], r'.ls[j], id, o, w)
    ensures End(r') == State(End(r).sh, End(r).th[Wait(id) := EHanded(w)] + Splices(id, w))
  {
    var sh, th, t := End(r).sh, End(r).th, Wait(id);
    hide ComposedTrace, Takes, KeysMatch, Splices;
    Finds(sh, id, key, o, w);
    assert th == th[t := EWait(key)];
    r' := Walks(r, r, th, t, EWait(key), Ok, sh, EState(key, o));
    r' := Walks(r, r', th, t, EState(key, o), Ok, sh, ETunnel(key, o));
    j := |r'.ls|;
    r' := Starts(r, r', th, t, ETunnel(key, o), Ok, Effect(sh, EHanded(w), Splices(id, w)));
  }

  // ---------- One tunnel in two pairs ----------

  lemma StartedParts(sha: Handshake.Hash, key: string)
    requires key != ""
    ensures var sh := Started(sha);
            && Ready(sh, key) && sh.next == 0 && sh.wire == map[] && sh.sent == []
            && sh.heap == Heap(map[], map[], {})
  {
  }

  lemma AttachedParts(sh: Shared, o: Id, w: Id)
    requires o in sh.heap.objs && KeysMatch(sh.heap)
    ensures var h := Attached(sh, o, w).heap;
            && KeysMatch(h) && h.pending == sh.heap.pending && o in h.objs && h.closed == sh.heap.closed
            && h.objs[o].phase.BOUND? && h.objs[o].tunnel == Some(w)
  {
  }

  lemma ReadyMatches(sh: Shared, key: string)
    requires Ready(sh, key)
    ensures KeysMatch(sh.heap)
  {
  }

  // Two clients come with one ID, and neither handler finds a session under it.
  lemma TwoCome(sha: Handshake.Hash, key: string) returns (r: Run)
    requires key != ""
    ensures Real(r) && Ready(End(r).sh, key) && End(r).sh.next == 2 && Tun(2) !in End(r).sh.wire
    ensures End(r).sh.sent == [] && End(r).sh.heap == Heap(map[], map[], {})
    ensures End(r).th == map[Main(Tun(0)) := TCreate("a", key, A), Main(Tun(1)) := TCreate("a", key, A)]
  {
    hide ComposedTrace, Onto, Started, Came, Ready;
    StartedParts(sha, key);
    CameParts(Started(sha), key);
    CameParts(Came(Started(sha), key), key);
    r := Started0(sha);
    r := ClientComes(r, key);
    r := ClientComes(r, key);
  }

  // Both create one.
  lemma TwoCreate(sha: Handshake.Hash, key: string) returns (r: Run)
    requires key != ""
    ensures Real(r) && Ready(End(r).sh, key) && End(r).sh.next == 2 && Tun(2) !in End(r).sh.wire
    ensures End(r).sh.sent == [Msg(key, 0, Tun(0)), Msg(key, 0, Tun(1))]
    ensures var h := End(r).sh.heap; key in h.pending && h.pending[key] == Tun(1) && Tun(1) in h.objs
    ensures End(r).th == map[Main(Tun(0)) := Done, Main(Tun(1)) := Done] + Spawned(Tun(0), key) + Spawned(Tun(1), key)
  {
    hide ComposedTrace, Onto, Created, Ready, Spawned;
    var r0 := TwoCome(sha, key);
    var sh, th := End(r0).sh, End(r0).th;
    CreatedParts(sh, Tun(0), key);
    CreatedParts(Created(sh, Tun(0), key), Tun(1), key);
    r := ClientCreates(r0, Tun(0), key);
    SpawnsWaiter(th[Main(Tun(0)) := Done], Tun(0), key);
    r := ClientCreates(r, Tun(1), key);
    SpawnedApart(th, key);
  }

  lemma SpawnsWaiter(th: Threads, id: Id, key: string)
    ensures var th' := th + Spawned(id, key);
            && Wait(id) in th' && th'[Wait(id)] == EWait(key) && Watch(id) in th' && th'[Watch(id)] == WArm(key)
            && forall t :: t in th && !t.Wait? && !t.Watch? ==> t in th' && th'[t] == th[t]
  {
  }

  lemma SpawnedApart(th: Threads, key: string)
    requires th.Keys == {Main(Tun(0)), Main(Tun(1))}
    ensures (th[Main(Tun(0)) := Done] + Spawned(Tun(0), key))[Main(Tun(1)) := Done] + Spawned(Tun(1), key)
            == map[Main(Tun(0)) := Done, Main(Tun(1)) := Done] + Spawned(Tun(0), key) + Spawned(Tun(1), key)
  {
  }

  lemma BothWait(key: string)
    ensures var th := map[Main(Tun(0)) := Done, Main(Tun(1)) := Done] + Spawned(Tun(0), key) + Spawned(Tun(1), key);
            && Dial(0) !in th && Wait(Tun(0)) in th && Wait(Tun(1)) in th
            && th[Wait(Tun(0))] == EWait(key) == th[Wait(Tun(1))]
  {
  }

  // For every ID two clients may choose there is a composed run in which both waiters splice their client with
  // the one tunnel that answers.
  lemma OneTunnelTwoSplices(sha: Handshake.Hash, key: string) returns (r: Run, i: nat, j: nat)
    requires key != ""
    ensures Real(r) && i < j < |r.ls|
    ensures HandsOver(r.ss[i], r.ls[i], Tun(0), Tun(1), Tun(2)) && HandsOver(r.ss[j], r.ls[j], Tun(1), Tun(1), Tun(2))
  {
    hide ComposedTrace, KeysMatch, Ready, HandsOver, Answered, Attached, Spawned;
    var r0 := TwoCreate(sha, key);
    var sh := End(r0).sh;
    BothWait(key);
    ReadyMatches(sh, key);
    AnsweredParts(sh, 0, key);
    AttachedParts(Answered(sh, 0, key), Tun(1), Tun(2));
    r0 := AgentAnswers(r0, 0, key, Tun(1));
    var r1;
    r1, i := WaiterHands(r0, Tun(0), key, Tun(1), Tun(2));
    r, j := WaiterHands(r1, Tun(1), key, Tun(1), Tun(2));
    assert r.ss[i] == r1.ss[i] && r.ls[i] == r1.ls[i];
  }

  // ---------- A cleanup that ends another client's session ----------

  lemma GivesUp(sh: Shared, id: Id, key: string)
    requires KeysMatch(sh.heap) && key in sh.heap.pending && sh.heap.pending[key] == id
    requires sh.heap.objs[id].phase.OPEN_SENT?
    ensures Takes(sh, Watch(id), WArm(key), Ok, Just(sh, WRead(key, id)))
    ensures Takes(sh, Watch(id), WRead(key, id), Ok, Just(sh, WClean(key)))
    ensures Takes(sh, Watch(id), WClean(key), Ok, Just(Unpend(sh, key, TIMEOUT), Done))
  {
    assert id in sh.heap.objs;
    hide KeysMatch, Cleanup;
  }

  // The watcher of session id removes it.
  lemma WatcherCleans(r: Run, id: Id, key: string) returns (r': Run, i: nat)
    requires Real(r) && Watch(id) in End(r).th && End(r).th[Watch(id)] == WArm(key)
    requires var h := End(r).sh.heap;
             KeysMatch(h) && key in h.pending && h.pending[key] == id && h.objs[id].phase.OPEN_SENT?
    ensures Real(r') && Onto(r, r') && i < |r'.ls| && Cleans(r'.ss[i], r'.ls[i], key) && r'.ls[i].t == Watch(id)
    ensures End(r') == State(Unpend(End(r).sh, key, TIMEOUT), End(r).th[Watch(id) := Done])
  {
    hide ComposedTrace, Takes;
    var sh, th, t := End(r).sh, End(r).th, Watch(id);
    GivesUp(sh, id, key);
    hide KeysMatch, Unpend;
    assert th == th[t := WArm(key)];
    r' := Walks(r, r, th, t, WArm(key), Ok, sh, WRead(key, id));
    r' := Walks(r, r', th, t, WRead(key, id), Ok, sh, WClean(key));
    i := |r'.ls|;
    r' := Starts(r, r', th, t, WClean(key), Ok, Just(Unpend(sh, key, TIMEOUT), Done));
    assert th[t := Done] + map[] == th[t := Done];
  }

  lemma WaiterSteps(sh: Shared, id: Id, key: string)
    requires KeysMatch(sh.heap)
    ensures Takes(sh, Wait(id), EWait(key), Timer, Just(CloseConn(sh, id), EClean(key)))
    ensures Takes(sh, Wait(id), EClean(key), Ok, Just(Unpend(sh, key, TIMEOUT), EClosed))
  {
    hide KeysMatch, Cleanup;
  }

  lemma CleanupMatches(h: Heap, key: string, phase: Phase)
    requires KeysMatch(h)
    ensures KeysMatch(Cleanup(h, key, phase)) && Cleanup(h, key, phase).objs.Keys == h.objs.Keys
  {
  }

  lemma UnpendParts(sh: Shared, key: string, id: Id)
    requires Ready(sh, key) && key in sh.heap.pending && sh.heap.pending[key] == id
    ensures var sh' := Unpend(sh, key, TIMEOUT);
            && Ready(sh', key) && sh'.next == sh.next && sh'.wire == sh.wire && key !in sh'.heap.pending
            && sh'.heap.objs.Keys == sh.heap.objs.Keys
            && id in sh'.heap.objs && sh'.heap.objs[id].phase.TIMEOUT? && sh'.heap.objs[id].key == sh.heap.objs[id].key
  {
    CleanupMatches(sh.heap, key, TIMEOUT);
    assert id in sh.heap.objs;
    hide KeysMatch;
  }

  lemma ClosedParts(sh: Shared, c: Id, key: string)
    requires Ready(sh, key)
    ensures var sh' := CloseConn(sh, c);
            && Ready(sh', key) && sh'.next == sh.next && sh'.wire == sh.wire
            && sh'.heap.objs == sh.heap.objs && sh'.heap.pending == sh.heap.pending
  {
  }

  lemma OneCreates(sha: Handshake.Hash, key: string) returns (r: Run)
    requires key != ""
    ensures Real(r) && Ready(End(r).sh, key) && End(r).sh.next == 1 && Tun(1) !in End(r).sh.wire
    ensures var h := End(r).sh.heap;
            && h.objs == map[Tun(0) := Session(key, "a", OPEN_SENT, None)] && h.pending == map[key := Tun(0)]
    ensures End(r).th == map[Main(Tun(0)) := Done] + Spawned(Tun(0), key)
    ensures End(r).sh.sent == [Msg(key, 0, Tun(0))] && End(r).sh.heap.closed == {}
  {
    hide ComposedTrace, Onto, Started, Came, Created, Ready, Spawned;
    StartedParts(sha, key);
    CameParts(Started(sha), key);
    CreatedParts(Came(Started(sha), key), Tun(0), key);
    r := Started0(sha);
    r := ClientComes(r, key);
    r := ClientCreates(r, Tun(0), key);
  }

  lemma AtWaitAndWatch(id: Id, key: string)
    ensures var th := map[Main(id) := Done] + Spawned(id, key);
            && Watch(id) in th && th[Watch(id)] == WArm(key)
            && Wait(id) in th[Watch(id) := Done] && th[Watch(id) := Done][Wait(id)] == EWait(key)
  {
  }

  lemma WaiterTimesOut(r: Run, id: Id, key: string) returns (r': Run)
    requires Real(r) && Wait(id) in End(r).th && End(r).th[Wait(id)] == EWait(key) && KeysMatch(End(r).sh.heap)
    ensures Real(r') && Onto(r, r') && End(r') == State(CloseConn(End(r).sh, id), End(r).th[Wait(id) := EClean(key)])
  {
    hide ComposedTrace, KeysMatch, CloseConn, Takes;
    var sh, th := End(r).sh, End(r).th;
    WaiterSteps(sh, id, key);
    assert th == th[Wait(id) := EWait(key)];
    r' := Walks(r, r, th, Wait(id), EWait(key), Timer, CloseConn(sh, id), EClean(key));
  }

  // Its watcher removes it.
  lemma WatcherRemoves(sha: Handshake.Hash, key: string) returns (r: Run, i: nat)
    requires key != ""
    ensures Real(r) && i < |r.ls| && Cleans(r.ss[i], r.ls[i], key) && r.ls[i].t == Watch(Tun(0))
    ensures Ready(End(r).sh, key) && End(r).sh.next == 1 && Tun(1) !in End(r).sh.wire
    ensures key !in End(r).sh.heap.pending && End(r).sh.heap.objs.Keys == {Tun(0)}
    ensures Wait(Tun(0)) in End(r).th && End(r).th[Wait(Tun(0))] == EWait(key)
  {
    hide ComposedTrace, Ready, KeysMatch, Spawned, Unpend, Cleans, Onto;
    var r0 := OneCreates(sha, key);
    ReadyMatches(End(r0).sh, key);
    UnpendParts(End(r0).sh, key, Tun(0));
    AtWaitAndWatch(Tun(0), key);
    r, i := WatcherCleans(r0, Tun(0), key);
  }

  // Its waiter is about to do the same.
  lemma WaiterIsLate(sha: Handshake.Hash, key: string) returns (r: Run, i: nat)
    requires key != ""
    ensures Real(r) && i < |r.ls| && Cleans(r.ss[i], r.ls[i], key) && r.ls[i].t == Watch(Tun(0))
    ensures Ready(End(r).sh, key) && End(r).sh.next == 1 && Tun(1) !in End(r).sh.wire
    ensures key !in End(r).sh.heap.pending && End(r).sh.heap.objs.Keys == {Tun(0)}
    ensures Wait(Tun(0)) in End(r).th && End(r).th[Wait(Tun(0))] == EClean(key)
  {
    hide ComposedTrace, Ready, KeysMatch, CloseConn, Cleans;
    var r0;
    r0, i := WatcherRemoves(sha, key);
    ReadyMatches(End(r0).sh, key);
    ClosedParts(End(r0).sh, Tun(0), key);
    r := WaiterTimesOut(r0, Tun(0), key);
    assert r.ss[i] == r0.ss[i] && r.ls[i] == r0.ls[i];
  }

  // A second client creates a session.
  lemma SecondClient(sha: Handshake.Hash, key: string) returns (r: Run, i: nat)
    requires key != ""
    ensures Real(r) && i < |r.ls| && Cleans(r.ss[i], r.ls[i], key) && r.ls[i].t == Watch(Tun(0))
    ensures Wait(Tun(0)) in End(r).th && End(r).th[Wait(Tun(0))] == EClean(key) && Ready(End(r).sh, key)
    ensures var h := End(r).sh.heap;
            && key in h.pending && h.pending[key] == Tun(1)
            && Tun(1) in h.objs && h.objs[Tun(1)] == Session(key, "a", OPEN_SENT, None)
  {
    hide ComposedTrace, Came, Created, Ready, Spawned, Cleans;
    var r0, r1;
    r0, i := WaiterIsLate(sha, key);
    var sh, th := End(r0).sh, End(r0).th;
    CameParts(sh, key);
    CreatedParts(Came(sh, key), Tun(1), key);
    r1 := ClientComes(r0, key);
    SpawnsWaiter(End(r1).th[Main(Tun(1)) := Done], Tun(1), key);
    StaysWaiting(End(r1).th[Main(Tun(1)) := Done], Tun(0), Tun(1), key);
    r := ClientCreates(r1, Tun(1), key);
    assert r1.ss[i] == r0.ss[i] && r1.ls[i] == r0.ls[i];
    assert r.ss[i] == r1.ss[i] && r.ls[i] == r1.ls[i];
  }

  lemma StaysWaiting(th: Threads, id: Id, id': Id, key: string)
    requires Wait(id) in th && id != id'
    ensures var th' := th + Spawned(id', key); Wait(id) in th' && th'[Wait(id)] == th[Wait(id)]
  {
  }

  // For every ID two clients may choose there is a composed run in which the first client's session is cleaned
  // up twice, and the second cleanup times out the session of the second client.
  lemma LateCleanupEndsAnother(sha: Handshake.Hash, key: string) returns (r: Run, i: nat, j: nat)
    requires key != ""
    ensures Real(r) && i < j < |r.ls| && Cleans(r.ss[i], r.ls[i], key) && Cleans(r.ss[j], r.ls[j], key)
    ensures r.ls[i].t == Watch(Tun(0)) && r.ls[j].t == Wait(Tun(0))
    ensures var h := r.ss[j].sh.heap; InPending(h, Tun(1)) && h.objs[Tun(1)].phase.OPEN_SENT?
    ensures var h := r.ss[j + 1].sh.heap; Tun(1) in h.objs && !InPending(h, Tun(1)) && h.objs[Tun(1)].phase.TIMEOUT?
  {
    hide ComposedTrace, Ready, KeysMatch, Unpend, Takes;
    var r0;
    r0, i := SecondClient(sha, key);
    j := |r0.ls|;
    var sh, th := End(r0).sh, End(r0).th;
    ReadyMatches(sh, key);
    UnpendParts(sh, key, Tun(1));
    WaiterSteps(sh, Tun(0), key);
    assert th == th[Wait(Tun(0)) := EClean(key)];
    r := Starts(r0, r0, th, Wait(Tun(0)), EClean(key), Ok, Just(Unpend(sh, key, TIMEOUT), EClosed));
    assert r.ss[i] == r0.ss[i] && r.ls[i] == r0.ls[i];
  }

  // ---------- A tunnel that nobody closes ----------

  lemma WaiterFindsNone(r: Run, id: Id, key: string) returns (r': Run)
    requires Real(r) && Wait(id) in End(r).th && End(r).th[Wait(id)] == EWait(key)
    requires KeysMatch(End(r).sh.heap) && key !in End(r).sh.heap.pending
    ensures Real(r') && Onto(r, r') && End(r') == State(CloseConn(End(r).sh, id), End(r).th[Wait(id) := EClosed])
  {
    hide ComposedTrace, KeysMatch;
    var sh, th := End(r).sh, End(r).th;
    assert th == th[Wait(id) := EWait(key)];
    assert Takes(sh, Wait(id), EWait(key), Ok, Just(CloseConn(sh, id), EClosed));
    hide CloseConn, Takes;
    r' := Walks(r, r, th, Wait(id), EWait(key), Ok, CloseConn(sh, id), EClosed);
  }

  // A client's session, and an agent's tunnel whose handler has found it.
  lemma TunnelFinds(sha: Handshake.Hash, key: string) returns (r: Run, a: nat)
    requires key != ""
    ensures Real(r) && Ready(End(r).sh, key) && a < |r.ls| && Accepts(r.ss[a], r.ls[a], Tun(1))
    ensures var h := End(r).sh.heap;
            && h.objs == map[Tun(0) := Session(key, "a", OPEN_SENT, None)] && h.pending == map[key := Tun(0)]
            && h.closed == {}
    ensures End(r).th
            == (map[Main(Tun(0)) := Done] + Spawned(Tun(0), key))[Dial(0) := Done][Main(Tun(1)) := TEntry(Tun(0))]
  {
    hide ComposedTrace, Onto, Ready, Answered, Spawned, Accepts;
    var r0 := OneCreates(sha, key);
    AnsweredParts(End(r0).sh, 0, key);
    NotDialled(key);
    r, a := AgentFinds(r0, 0, key, Tun(0));
  }

  lemma NotDialled(key: string)
    ensures Dial(0) !in map[Main(Tun(0)) := Done] + Spawned(Tun(0), key)
  {
  }

  // The goroutines of that run at the end, and on the way there.
  function Ended(key: string, watch: Pc, wait: Pc, tun: Pc): Threads {
    map[Main(Tun(0)) := Done, Watch(Tun(0)) := watch, Wait(Tun(0)) := wait, Dial(0) := Done, Main(Tun(1)) := tun]
  }

  lemma EndedIs(key: string)
    ensures (map[Main(Tun(0)) := Done] + Spawned(Tun(0), key))[Dial(0) := Done][Main(Tun(1)) := TEntry(Tun(0))]
            == Ended(key, WArm(key), EWait(key), TEntry(Tun(0)))
  {
  }

  lemma EndedMoves(key: string)
    ensures var tun := TEntry(Tun(0));
            && Ended(key, WArm(key), EWait(key), tun)[Watch(Tun(0)) := Done] == Ended(key, Done, EWait(key), tun)
            && Ended(key, Done, EWait(key), tun)[Wait(Tun(0)) := EClosed] == Ended(key, Done, EClosed, tun)
            && Ended(key, Done, EClosed, tun)[Main(Tun(1)) := Done] == Ended(key, Done, EClosed, Done)
  {
  }

  lemma EndedRests(sh: Shared, key: string)
    ensures Quiescent(State(sh, Ended(key, Done, EClosed, Done)))
  {
  }

  lemma UnpendUnbound(sh: Shared, key: string)
    requires KeysMatch(sh.heap) && sh.heap.pending == map[key := Tun(0)] && sh.heap.closed == {}
    requires sh.heap.objs == map[Tun(0) := Session(key, "a", OPEN_SENT, None)]
    ensures Unpend(sh, key, TIMEOUT).heap == Heap(map[Tun(0) := Session(key, "a", TIMEOUT, None)], map[], {})
  {
  }

  // The watcher cleans the session up.
  lemma ClientRemoved(sha: Handshake.Hash, key: string) returns (r: Run, a: nat)
    requires key != ""
    ensures Real(r) && a < |r.ls| && Accepts(r.ss[a], r.ls[a], Tun(1))
    ensures End(r).sh.heap == Heap(map[Tun(0) := Session(key, "a", TIMEOUT, None)], map[], {})
    ensures End(r).th == Ended(key, Done, EWait(key), TEntry(Tun(0)))
  {
    hide ComposedTrace, Ready, KeysMatch, Unpend, Accepts, Spawned, Cleans;
    var r0, i;
    r0, a := TunnelFinds(sha, key);
    EndedIs(key);
    EndedMoves(key);
    ReadyMatches(End(r0).sh, key);
    UnpendUnbound(End(r0).sh, key);
    r, i := WatcherCleans(r0, Tun(0), key);
    assert r.ss[a] == r0.ss[a] && r.ls[a] == r0.ls[a];
  }

  // The waiter closes the client.
  lemma ClientGone(sha: Handshake.Hash, key: string) returns (r: Run, a: nat)
    requires key != ""
    ensures Real(r) && a < |r.ls| && Accepts(r.ss[a], r.ls[a], Tun(1))
    ensures End(r).sh.heap == Heap(map[Tun(0) := Session(key, "a", TIMEOUT, None)], map[], {Tun(0)})
    ensures End(r).th == Ended(key, Done, EClosed, TEntry(Tun(0)))
  {
    hide ComposedTrace, KeysMatch, Accepts;
    var r0;
    r0, a := ClientRemoved(sha, key);
    EndedMoves(key);
    EmptyMatches(End(r0).sh.heap);
    r := WaiterFindsNone(r0, Tun(0), key);
    assert r.ss[a] == r0.ss[a] && r.ls[a] == r0.ls[a];
  }

  lemma EmptyMatches(h: Heap)
    requires h.pending == map[]
    ensures KeysMatch(h)
  {
  }

  // For every ID a client may choose there is a composed run to rest in which an accepted tunnel is written into
  // the client's session after its watcher has removed it, and stays open.
  lemma ForgottenTunnel(sha: Handshake.Hash, key: string) returns (r: Run, a: nat, k: nat)
    requires key != ""
    ensures Real(r) && a < |r.ls| && Accepts(r.ss[a], r.ls[a], Tun(1)) && k < |r.ls| && Parks(r.ss[k], r.ls[k], Tun(1))
    ensures Quiescent(End(r)) && Tun(1) !in End(r).sh.heap.closed
    ensures End(r).sh.heap.objs == map[Tun(0) := Session(key, "a", BOUND, Some(Tun(1)))]
    ensures End(r).sh.heap.pending == map[]
  {
    hide ComposedTrace, Accepts, Parks, KeysMatch, Quiescent;
    var r0;
    r0, a := ClientGone(sha, key);
    EndedMoves(key);
    EmptyMatches(End(r0).sh.heap);
    r, k := TunnelParks(r0, Tun(1), Tun(0));
    EndedRests(End(r).sh, key);
    assert r.ss[a] == r0.ss[a] && r.ls[a] == r0.ls[a];
  }

  // ---------- A watcher that leaves a splice alone ----------

  lemma LeavesAlone(sh: Shared, id: Id, key: string)
    requires KeysMatch(sh.heap) && key in sh.heap.pending && sh.heap.pending[key] == id
    requires sh.heap.objs[id].phase.BOUND?
    ensures Takes(sh, Watch(id), WArm(key), Ok, Just(sh, WRead(key, id)))
    ensures Takes(sh, Watch(id), WRead(key, id), Ok, Just(sh, Done))
  {
    assert id in sh.heap.objs;
    hide KeysMatch, Cleanup;
  }

  lemma WatcherLeaves(r: Run, id: Id, key: string) returns (r': Run, k: nat)
    requires Real(r) && Watch(id) in End(r).th && End(r).th[Watch(id)] == WArm(key)
    requires var h := End(r).sh.heap;
             KeysMatch(h) && key in h.pending && h.pending[key] == id && h.objs[id].phase.BOUND?
    ensures Real(r') && Onto(r, r') && k < |r'.ls| && ReadsState(r'.ss[k], r'.ls[k], id, id, BOUND)
    ensures End(r') == State(End(r).sh, End(r).th[Watch(id) := Done])
  {
    var sh, th, t := End(r).sh, End(r).th, Watch(id);
    assert id in sh.heap.objs;
    LeavesAlone(sh, id, key);
    hide ComposedTrace, Takes, KeysMatch;
    assert th == th[t := WArm(key)];
    r' := Walks(r, r, th, t, WArm(key), Ok, sh, WRead(key, id));
    k := |r'.ls|;
    var r1 := r';
    r' := Starts(r, r1, th, t, WRead(key, id), Ok, Just(sh, Done));
    assert r'.ss[k] == End(r1);
    assert th[t := Done] + map[] == th[t := Done];
  }

  // The agent has answered.
  lemma OneBound(sha: Handshake.Hash, key: string) returns (r: Run)
    requires key != ""
    ensures Real(r) && Watch(Tun(0)) in End(r).th && End(r).th[Watch(Tun(0))] == WArm(key)
    ensures Wait(Tun(0)) in End(r).th && End(r).th[Wait(Tun(0))] == EWait(key)
    ensures var h := End(r).sh.heap;
            && KeysMatch(h) && key in h.pending && h.pending[key] == Tun(0) && Tun(0) in h.objs
            && h.objs[Tun(0)].phase.BOUND? && h.objs[Tun(0)].tunnel == Some(Tun(1)) && h.closed == {}
  {
    hide ComposedTrace, KeysMatch, Ready, Answered, Attached, Spawned, Onto;
    var r0 := OneCreates(sha, key);
    var sh := End(r0).sh;
    NotDialled(key);
    AtWaitAndWatch(Tun(0), key);
    ReadyMatches(sh, key);
    AnsweredParts(sh, 0, key);
    AttachedParts(Answered(sh, 0, key), Tun(0), Tun(1));
    r := AgentAnswers(r0, 0, key, Tun(0));
  }

  // The waiter has spliced the client with its tunnel.
  lemma SplicedInTime(sha: Handshake.Hash, key: string) returns (r: Run)
    requires key != ""
    ensures Real(r) && Watch(Tun(0)) in End(r).th && End(r).th[Watch(Tun(0))] == WArm(key)
    ensures Splice(Tun(0)) in End(r).th && End(r).th[Splice(Tun(0))] == XPair(Tun(1), Pair(true, true, Idle))
    ensures var h := End(r).sh.heap;
            && KeysMatch(h) && key in h.pending && h.pending[key] == Tun(0) && Tun(0) in h.objs
            && h.objs[Tun(0)].phase.BOUND? && h.closed == {}
  {
    hide ComposedTrace, KeysMatch, HandsOver, Splices, Onto;
    var r0 := OneBound(sha, key);
    var j;
    r, j := WaiterHands(r0, Tun(0), key, Tun(0), Tun(1));
    SpliceAdded(End(r0).th[Wait(Tun(0)) := EHanded(Tun(1))], Tun(0), Tun(1));
  }

  lemma SpliceAdded(th: Threads, id: Id, w: Id)
    ensures var th' := th + Splices(id, w);
            && Splice(id) in th' && th'[Splice(id)] == XPair(w, Pair(true, true, Idle))
            && forall t :: t in th && !t.Splice? ==> t in th' && th'[t] == th[t]
  {
  }

  // For every ID a client may choose there is a composed run in which the client is spliced, its watcher fires and
  // reads BOUND, and the splice goes on: the session stays listed, and nothing is closed.
  lemma SplicedStays(sha: Handshake.Hash, key: string) returns (r: Run, k: nat)
    requires key != ""
    ensures Real(r) && k < |r.ls| && ReadsState(r.ss[k], r.ls[k], Tun(0), Tun(0), BOUND)
    ensures Watch(Tun(0)) in End(r).th && End(r).th[Watch(Tun(0))].Done?
    ensures Splice(Tun(0)) in End(r).th && End(r).th[Splice(Tun(0))] == XPair(Tun(1), Pair(true, true, Idle))
    ensures var h := End(r).sh.heap; h.closed == {} && InPending(h, Tun(0)) && h.objs[Tun(0)].phase.BOUND?
  {
    hide ComposedTrace, ReadsState;
    var r0 := SplicedInTime(sha, key);
    r, k := WatcherLeaves(r0, Tun(0), key);
  }
}
