/**
 The hub's session protocol and the agents' dial-back as one transition system. Every goroutine is a
 thread with a program counter: onSSHConn, handleTunnelWS, watchPendingTimeout, waitForAgentAndForward,
 a forwarding pair with its once-only cleanup, and an agent's handleOpen. One step is one section under
 h.mu, one read of a session or agent field outside the lock, or one connection event, so every gap
 between a check and the act that relies on it is a point where other threads can run.
*/
module Protocol {
  import opened Options
  import opened PendingHeap
  import AgentBook
  import Handshake
  import Registry

  // Main(id) is the handler that accepted connection id. Each handler spawns at most one watcher, one
  // entry waiter and one forwarding pair; a waiter starts at most one splice. Dial(m) is the agent
  // goroutine that handles OPEN message m.
  datatype Tid = Main(id: Id) | Watch(id: Id) | Wait(id: Id) | Fwd(id: Id) | Splice(id: Id) | Dial(msg: nat)

  // Progress of the body of a sync.Once: not begun, at its successive actions, complete.
  datatype Once = Idle | CloseFirst | CloseSecond | Unlist | Finished

  // Two copy goroutines, running or ended, and the cleanup they share.
  datatype Pair = Pair(left: bool, right: bool, once: Once)

  datatype Pc =
    // onSSHConn (pkg/hub/hub.go:179-215)
    | SLookup(agent: string)
    | SCheck(agent: string, ref: AgentBook.Ref)
    | SInsert(agent: string, ref: AgentBook.Ref)
    | SSend(ref: AgentBook.Ref, key: string)
    | SFail(key: string)
    | SMark(key: string)
    | SSpawn(key: string)
    // handleTunnelWS (pkg/hub/tunnel_ws.go:15-147); hdr is the X-Session header
    | TAgent(agent: string, hdr: string)
    | TAccept(agent: string, hdr: string, ref: AgentBook.Ref)
    | TRead(agent: string, hdr: string, ref: AgentBook.Ref)
    | TLookup(agent: string, key: string, ref: AgentBook.Ref)
    | TBind(agent: string, key: string)
    | TVerify(agent: string, o: Id)
    | TMismatch(agent: string, o: Id)
    | TEntry(o: Id)
    | TCreate(agent: string, key: string, ref: AgentBook.Ref)
    | TSend(ref: AgentBook.Ref, key: string)
    | TFail(key: string)
    | TFailClose
    | TMark(key: string)
    | TSpawn(key: string)
    // watchPendingTimeout (pkg/hub/hub.go:231-247)
    | WArm(key: string)
    | WRead(key: string, o: Id)
    | WClean(key: string)
    // waitForAgentAndForward (pkg/hub/hub.go:354-385)
    | EWait(key: string)
    | EState(key: string, o: Id)
    | ETunnel(key: string, o: Id)
    | EClean(key: string)
    | EClosed
    | EHanded(tunnel: Id)
    // startForwarding (pkg/hub/hub.go:285-313)
    | FPair(agent: string, o: Id, key: string, pair: Pair)
    // startWebSocketForwarding (pkg/hub/hub.go:388-415)
    | XPair(tunnel: Id, pair: Pair)
    // handleOpen on the agent (pkg/agent/agent.go:153-175)
    | ADial(agent: string, key: string)
    | AShake(tunnel: Id, key: string)
    | Done

  // An OPEN message written to control websocket ws by the handler of session sender.
  datatype Msg = Msg(key: string, ws: nat, sender: Id)

  // The first frame a peer writes on a tunnel websocket.
  datatype Wire = Wire(binary: bool, data: seq<Handshake.byte>)

  // The headers of a /tunnel request; dial is the OPEN message an agent answers with it.
  datatype Hello = Hello(agent: string, hdr: string, dial: Option<nat>)

  // port[c] is the hub port on which SSH connection c was accepted, issued[k] the session whose ID k was
  // generated by onSSHConn, sent the OPEN messages so far, in the order they were written.
  datatype Shared = Shared(sha: Handshake.Hash, reg: Registry.State, heap: Heap, next: nat,
                           port: map<Id, int>, issued: map<string, Id>, sent: seq<Msg>,
                           wire: map<Id, Wire>, hello: map<Id, Hello>)

  datatype State = State(sh: Shared, th: map<Tid, Pc>)

  // How the environment resolves a thread's step. Delivered is a send that reports an error although the
  // message went out; New carries the ID that uuid.New returns.
  datatype Choice = Ok | Fail | Delivered | New(key: string) | Timer | Left | Right

  datatype Label =
    | RegStep(l: Registry.Label)
    | Accept(q: int)
    | Arrive(agent: string, hdr: string)
    | SendFrame(id: Id, frame: Wire)
    | Receive(m: nat)
    | Go(t: Tid, c: Choice)

  // What one step of one thread does: the new shared state, its own next point, the thread it starts.
  datatype Effect = Effect(sh: Shared, pc: Pc, spawn: map<Tid, Pc>)

  function Just(sh: Shared, pc: Pc): Effect {
    Effect(sh, pc, map[])
  }

  function Control(sh: Shared, ref: AgentBook.Ref): Option<nat> {
    if ref in sh.reg.book.refs then sh.reg.book.refs[ref].control else None
  }

  function CloseConn(sh: Shared, c: Id): Shared {
    sh.(heap := Close(sh.heap, c))
  }

  function Unpend(sh: Shared, key: string, phase: Phase): Shared
    requires KeysMatch(sh.heap)
  {
    sh.(heap := Cleanup(sh.heap, key, phase))
  }

  // sendOpen on state.Control, which may be nil by now or fail; a failed write may have gone out.
  function SendOpen(sh: Shared, id: Id, ref: AgentBook.Ref, key: string, c: Choice): Shared {
    if c.Fail? || Control(sh, ref).None? then sh
    else sh.(sent := sh.sent + [Msg(key, Control(sh, ref).value, id)])
  }

  predicate SendOk(sh: Shared, ref: AgentBook.Ref, c: Choice) {
    c.Ok? && Control(sh, ref).Some?
  }

  // ---------- onSSHConn ----------

  ghost predicate IsSsh(pc: Pc) {
    pc.SLookup? || pc.SCheck? || pc.SInsert? || pc.SSend? || pc.SFail? || pc.SMark? || pc.SSpawn?
  }

  ghost predicate CanSsh(sh: Shared, id: Id, pc: Pc, c: Choice) {
    && KeysMatch(sh.heap)
    && (pc.SInsert? ==> c.New? && Handshake.IsUuid(c.key))
    && (pc.SMark? ==> id in sh.heap.objs)
  }

  ghost function SshStep(sh: Shared, id: Id, pc: Pc, c: Choice): Effect
    requires IsSsh(pc) && CanSsh(sh, id, pc, c)
  {
    match pc
    case SLookup(agent) =>
      if agent in sh.reg.book.agents then Just(sh, SCheck(agent, sh.reg.book.agents[agent]))
      else Just(CloseConn(sh, id), Done)
    case SCheck(agent, ref) =>
      if Control(sh, ref).Some? then Just(sh, SInsert(agent, ref)) else Just(CloseConn(sh, id), Done)
    case SInsert(agent, ref) =>
      Just(sh.(heap := Insert(sh.heap, id, c.key, agent), issued := sh.issued[c.key := id]), SSend(ref, c.key))
    case SSend(ref, key) =>
      Just(SendOpen(sh, id, ref, key, c), if SendOk(sh, ref, c) then SMark(key) else SFail(key))
    case SFail(key) =>
      Just(Unpend(sh, key, CLOSED), Done)
    case SMark(key) =>
      Just(sh.(heap := MarkOpenSent(sh.heap, id)), SSpawn(key))
    case SSpawn(key) =>
      Effect(sh, Done, map[Watch(id) := WArm(key)])
  }

  // ---------- handleTunnelWS ----------

  ghost predicate IsTun(pc: Pc) {
    || pc.TAgent? || pc.TAccept? || pc.TRead? || pc.TLookup? || pc.TBind? || pc.TVerify? || pc.TEntry?
    || pc.TCreate? || pc.TSend? || pc.TFail? || pc.TFailClose? || pc.TMark? || pc.TSpawn?
  }

  ghost predicate CanTun(sh: Shared, id: Id, pc: Pc, c: Choice) {
    && KeysMatch(sh.heap)
    && (pc.TRead? && c.Ok? ==> id in sh.wire)
    && (pc.TVerify? || pc.TEntry? ==> pc.o in sh.heap.objs)
    && (pc.TMark? ==> id in sh.heap.objs)
  }

  // The session ID the handler settles on after the first frame, or None when it refuses the frame.
  ghost function ReadId(sha: Handshake.Hash, hdr: string, f: Wire): Option<string> {
    if !f.binary || |f.data| != Handshake.FRAME_SIZE then None
    else if hdr == "" then Some(Handshake.EncodeHex(f.data[Handshake.MAGIC_SIZE..]))
    else if f.data == Handshake.Frame(sha, hdr) then Some(hdr)
    else None
  }

  ghost function TunStep(sh: Shared, id: Id, pc: Pc, c: Choice): Effect
    requires IsTun(pc) && CanTun(sh, id, pc, c)
  {
    match pc
    case TAgent(agent, hdr) =>
      if agent != "" && agent in sh.reg.book.agents then Just(sh, TAccept(agent, hdr, sh.reg.book.agents[agent]))
      else Just(sh, Done)
    case TAccept(agent, hdr, ref) =>
      Just(sh, if c.Ok? then TRead(agent, hdr, ref) else Done)
    case TRead(agent, hdr, ref) =>
      if c.Ok? && ReadId(sh.sha, hdr, sh.wire[id]).Some? then
        Just(sh, TLookup(agent, ReadId(sh.sha, hdr, sh.wire[id]).value, ref))
      else Just(CloseConn(sh, id), Done)
    case TLookup(agent, key, ref) =>
      Just(sh, if key !in sh.heap.pending then TCreate(agent, key, ref)
               else if sh.heap.pending[key].Tun? then TEntry(sh.heap.pending[key])
               else TBind(agent, key))
    case TBind(agent, key) =>
      (match BindOutcome(sh.heap, key)
       case Success(o) => Just(sh.(heap := Bind(sh.heap, key, id)), TVerify(agent, o))
       case Failure(_) => Just(CloseConn(sh, id), Done))
    case TVerify(agent, o) =>
      var p := sh.heap.objs[o];
      if p.agent != agent then Just(CloseConn(sh, id), TMismatch(agent, o))
      else Effect(sh, Done, map[Fwd(id) := FPair(agent, o, p.key, Pair(true, true, Idle))])
    case TEntry(o) =>
      Just(sh.(heap := Attach(sh.heap, o, id)), Done)
    case TCreate(agent, key, ref) =>
      Just(sh.(heap := Insert(sh.heap, id, key, agent)), TSend(ref, key))
    case TSend(ref, key) =>
      Just(SendOpen(sh, id, ref, key, c), if SendOk(sh, ref, c) then TMark(key) else TFail(key))
    case TFail(key) =>
      Just(Unpend(sh, key, CLOSED), TFailClose)
    case TFailClose =>
      Just(CloseConn(sh, id), Done)
    case TMark(key) =>
      Just(sh.(heap := MarkOpenSent(sh.heap, id)), TSpawn(key))
    case TSpawn(key) =>
      Effect(sh, Done, map[Wait(id) := EWait(key), Watch(id) := WArm(key)])
  }

  // ---------- watchPendingTimeout ----------

  ghost predicate IsWatch(pc: Pc) {
    pc.WArm? || pc.WRead? || pc.WClean?
  }

  ghost predicate CanWatch(sh: Shared, pc: Pc) {
    KeysMatch(sh.heap) && (pc.WRead? ==> pc.o in sh.heap.objs)
  }

  ghost function WatchStep(sh: Shared, pc: Pc): Effect
    requires IsWatch(pc) && CanWatch(sh, pc)
  {
    match pc
    case WArm(key) =>
      Just(sh, if key in sh.heap.pending then WRead(key, sh.heap.pending[key]) else Done)
    case WRead(key, o) =>
      Just(sh, if sh.heap.objs[o].phase.BOUND? || sh.heap.objs[o].phase.CLOSED? then Done else WClean(key))
    case WClean(key) =>
      Just(Unpend(sh, key, TIMEOUT), Done)
  }

  // ---------- waitForAgentAndForward ----------

  ghost predicate IsWait(pc: Pc) {
    pc.EWait? || pc.EState? || pc.ETunnel? || pc.EClean?
  }

  ghost predicate CanWait(sh: Shared, pc: Pc) {
    KeysMatch(sh.heap) && (pc.EState? || pc.ETunnel? ==> pc.o in sh.heap.objs)
  }

  ghost function WaitStep(sh: Shared, id: Id, pc: Pc, c: Choice): Effect
    requires IsWait(pc) && CanWait(sh, pc)
  {
    match pc
    case EWait(key) =>
      if c.Timer? then Just(CloseConn(sh, id), EClean(key))
      else if key !in sh.heap.pending then Just(CloseConn(sh, id), EClosed)
      else Just(sh, EState(key, sh.heap.pending[key]))
    case EState(key, o) =>
      Just(sh, if sh.heap.objs[o].phase.BOUND? then ETunnel(key, o) else EWait(key))
    case ETunnel(key, o) =>
      (match sh.heap.objs[o].tunnel
       case None => Just(sh, EWait(key))
       case Some(w) => Effect(sh, EHanded(w), map[Splice(id) := XPair(w, Pair(true, true, Idle))]))
    case EClean(key) =>
      Just(Unpend(sh, key, TIMEOUT), EClosed)
  }

  // ---------- Forwarding pairs ----------

  // The thread of a pair moves when a copy goroutine ends (Left, Right) and, with Ok, when the goroutine
  // that entered closeOnce.Do performs the next action of its body.
  predicate CanMove(p: Pair, c: Choice) {
    match c
    case Left => p.left
    case Right => p.right
    case Ok => p.once != Idle && p.once != Finished
    case _ => false
  }

  function EndCopy(p: Pair, c: Choice): Pair {
    Pair(p.left && !c.Left?, p.right && !c.Right?, if p.once.Idle? then CloseFirst else p.once)
  }

  ghost predicate CanPair(sh: Shared, pc: Pc, c: Choice) {
    KeysMatch(sh.heap) && (pc.FPair? || pc.XPair?) && CanMove(pc.pair, c)
  }

  ghost function PairStep(sh: Shared, id: Id, pc: Pc, c: Choice): Effect
    requires CanPair(sh, pc, c)
  {
    if pc.FPair? then
      var FPair(agent, o, key, p) := pc;
      if !c.Ok? then Just(sh, FPair(agent, o, key, EndCopy(p, c)))
      else if p.once.CloseFirst? then
        Just(if o.Ssh? then CloseConn(sh, o) else sh, FPair(agent, o, key, p.(once := CloseSecond)))
      else if p.once.CloseSecond? then
        Just(CloseConn(sh, id), FPair(agent, o, key, p.(once := Unlist)))
      else
        Just(Unpend(sh, key, CLOSED), FPair(agent, o, key, p.(once := Finished)))
    else
      var XPair(w, p) := pc;
      if !c.Ok? then Just(sh, XPair(w, EndCopy(p, c)))
      else if p.once.CloseFirst? then Just(CloseConn(sh, id), XPair(w, p.(once := CloseSecond)))
      else Just(CloseConn(sh, w), XPair(w, p.(once := Finished)))
  }

  // ---------- handleOpen ----------

  ghost predicate IsDial(pc: Pc) {
    pc.ADial? || pc.AShake?
  }

  ghost function DialStep(sh: Shared, m: nat, pc: Pc, c: Choice): Effect
    requires IsDial(pc)
  {
    match pc
    case ADial(agent, key) =>
      var id := Tun(sh.next);
      if c.Ok? then
        Effect(sh.(next := sh.next + 1, hello := sh.hello[id := Hello(agent, key, Some(m))]), AShake(id, key),
               map[Main(id) := TAgent(agent, key)])
      else Just(sh, Done)
    case AShake(id, key) =>
      if c.Ok? && id !in sh.wire then Just(sh.(wire := sh.wire[id := Wire(true, Handshake.Frame(sh.sha, key))]), Done)
      else Just(sh, Done)
  }

  // ---------- The system ----------

  ghost predicate CanStep(sh: Shared, t: Tid, pc: Pc, c: Choice) {
    match t
    case Main(id) => (id.Ssh? && IsSsh(pc) && CanSsh(sh, id, pc, c)) || (id.Tun? && IsTun(pc) && CanTun(sh, id, pc, c))
    case Watch(_) => IsWatch(pc) && CanWatch(sh, pc)
    case Wait(_) => IsWait(pc) && CanWait(sh, pc)
    case Fwd(_) => pc.FPair? && CanPair(sh, pc, c)
    case Splice(_) => pc.XPair? && CanPair(sh, pc, c)
    case Dial(_) => IsDial(pc)
  }

  ghost function Step(sh: Shared, t: Tid, pc: Pc, c: Choice): Effect
    requires CanStep(sh, t, pc, c)
  {
    match t
    case Main(id) => if id.Ssh? then SshStep(sh, id, pc, c) else TunStep(sh, id, pc, c)
    case Watch(_) => WatchStep(sh, pc)
    case Wait(id) => WaitStep(sh, id, pc, c)
    case Fwd(id) => PairStep(sh, id, pc, c)
    case Splice(id) => PairStep(sh, id, pc, c)
    case Dial(m) => DialStep(sh, m, pc, c)
  }

  // The session ID or X-Session header a thread carries.
  function Carries(pc: Pc): Option<string> {
    if pc.TAgent? || pc.TAccept? || pc.TRead? then Some(pc.hdr)
    else if || pc.SSend? || pc.SFail? || pc.SMark? || pc.SSpawn? || pc.TLookup? || pc.TBind? || pc.TCreate? || pc.TSend?
            || pc.TFail? || pc.TMark? || pc.TSpawn? || pc.WArm? || pc.WRead? || pc.WClean? || pc.EWait? || pc.EState?
            || pc.ETunnel? || pc.EClean? || pc.FPair? || pc.ADial? || pc.AShake?
    then Some(pc.key)
    else None
  }

  // No session and no message has ever used this ID.
  ghost predicate Unused(sh: Shared, key: string) {
    && key !in sh.issued
    && (forall o :: o in sh.heap.objs ==> sh.heap.objs[o].key != key)
    && (forall m :: 0 <= m < |sh.sent| ==> sh.sent[m].key != key)
  }

  // The assumption on uuid.New: nobody holds the ID it returns.
  ghost predicate Fresh(s: State, key: string) {
    Unused(s.sh, key) && forall t :: t in s.th ==> Carries(s.th[t]) != Some(key)
  }

  ghost predicate Enabled(s: State, l: Label) {
    match l
    case RegStep(r) => !r.Restart? && Registry.Enabled(s.sh.reg, r)
    case Accept(q) => q in s.sh.reg.book.listeners
    case Arrive(_, _) => true
    case SendFrame(id, _) => id in s.sh.hello && s.sh.hello[id].dial.None? && id !in s.sh.wire
    case Receive(m) =>
      m < |s.sh.sent| && s.sh.sent[m].key != "" && Dial(m) !in s.th && s.sh.sent[m].ws in s.sh.reg.owner
    case Go(t, c) => t in s.th && CanStep(s.sh, t, s.th[t], c) && (c.New? ==> Fresh(s, c.key))
  }

  ghost function Do(s: State, l: Label): State
    requires Enabled(s, l)
  {
    var sh := s.sh;
    match l
    case RegStep(r) => s.(sh := sh.(reg := Registry.Do(sh.reg, r)))
    case Accept(q) =>
      var id := Ssh(sh.next);
      State(sh.(next := sh.next + 1, port := sh.port[id := q]), s.th[Main(id) := SLookup(sh.reg.book.listeners[q])])
    case Arrive(agent, hdr) =>
      var id := Tun(sh.next);
      State(sh.(next := sh.next + 1, hello := sh.hello[id := Hello(agent, hdr, None)]),
            s.th[Main(id) := TAgent(agent, hdr)])
    case SendFrame(id, frame) => s.(sh := sh.(wire := sh.wire[id := frame]))
    case Receive(m) => s.(th := s.th[Dial(m) := ADial(sh.reg.owner[sh.sent[m].ws], sh.sent[m].key)])
    case Go(t, c) =>
      var e := Step(sh, t, s.th[t], c);
      State(e.sh, s.th[t := e.pc] + e.spawn)
  }

  // A hub with no session and no tunnel yet, and any registry that the registry's own steps can produce.
  ghost predicate Init(s: State) {
    && Registry.Reachable(s.sh.reg)
    && s.sh.heap == Heap(map[], map[], {})
    && s.sh.port == map[] && s.sh.issued == map[] && s.sh.sent == [] && s.sh.wire == map[] && s.sh.hello == map[]
    && s.th == map[]
  }

  ghost predicate Trace(ss: seq<State>, ls: seq<Label>) {
    && |ss| == |ls| + 1
    && Init(ss[0])
    && forall i {:trigger ls[i]} :: 0 <= i < |ls| ==> Enabled(ss[i], ls[i]) && ss[i + 1] == Do(ss[i], ls[i])
  }
}
