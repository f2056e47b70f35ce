/**
 What every step of the session protocol keeps. The invariant is local: one condition on the shared
 state, and for each thread a condition on the shared state and that thread's own point. Guarantee says
 what a step of thread t may do to the shared state; every step gives it, and every other thread's
 condition survives it.
*/
module ProtocolInvariant {
  import opened Options
  import opened PendingHeap
  import opened Protocol
  import AgentBook
  import Handshake
  import Registry
  import RegistryTheorems

  // The edges an SSH-initiated session's state may take.
  predicate PhaseEdge(p: Phase, q: Phase) {
    || p == q
    || (p.INIT? && (q.OPEN_SENT? || q.CLOSED?))
    || (p.OPEN_SENT? && (q.BOUND? || q.TIMEOUT?))
    || (p.BOUND? && (q.CLOSED? || q.TIMEOUT?))
  }

  // ---------- The shared state ----------

  // The heap's side of an SSH-initiated session: it is listed exactly while it is live, its tunnel is set
  // exactly by the bind, and once it is over everything it owned is closed.
  ghost predicate Listed(h: Heap, o: Id)
    requires o in h.objs
  {
    var p := h.objs[o];
    && (Live(p.phase) <==> InPending(h, o))
    && (p.phase.INIT? || p.phase.OPEN_SENT? ==> p.tunnel.None?)
    && (p.phase.BOUND? ==> p.tunnel.Some?)
    && (Over(p.phase) ==> Owned(h, o) <= h.closed)
  }

  ghost predicate HeapOk(h: Heap) {
    && KeysMatch(h)
    && TunnelsDistinct(h)
    && forall o :: o in h.objs && o.Ssh? ==> Listed(h, o)
  }

  // Its ID is the UUID the hub issued for it, and its agent owns the port it came in on.
  ghost predicate SshOk(sh: Shared, o: Id)
    requires o in sh.heap.objs
  {
    var p := sh.heap.objs[o];
    p.key in sh.issued && sh.issued[p.key] == o && Handshake.IsUuid(p.key) && PortOf(sh, o, p.agent)
  }

  ghost predicate PortOf(sh: Shared, c: Id, agent: string) {
    c in sh.port && sh.port[c] in sh.reg.book.ports && sh.reg.book.ports[sh.port[c]] == agent
  }

  // If the hub issued this ID, its SSH-initiated session is over.
  ghost predicate Gone(sh: Shared, key: string) {
    key in sh.issued ==> sh.issued[key] in sh.heap.objs && Over(sh.heap.objs[sh.issued[key]].phase)
  }

  // If the hub issued this ID, its SSH-initiated session has left INIT.
  ghost predicate Begun(sh: Shared, key: string) {
    key in sh.issued ==> sh.issued[key] in sh.heap.objs && !sh.heap.objs[sh.issued[key]].phase.INIT?
  }

  ghost predicate MsgOk(sh: Shared, m: Msg) {
    && m.sender in sh.heap.objs
    && m.key == sh.heap.objs[m.sender].key
    && m.ws in sh.reg.owner && sh.reg.owner[m.ws] == sh.heap.objs[m.sender].agent
  }

  ghost predicate TunnelsDistinct(h: Heap) {
    forall o1, o2 :: o1 in h.objs && o2 in h.objs && h.objs[o1].tunnel.Some? && h.objs[o1].tunnel == h.objs[o2].tunnel
      ==> o1 == o2
  }

  ghost predicate IssuedOk(sh: Shared) {
    forall k :: k in sh.issued ==>
      sh.issued[k].Ssh? && sh.issued[k] in sh.heap.objs && sh.heap.objs[sh.issued[k]].key == k
  }

  ghost predicate SharedInv(sh: Shared) {
    && HeapOk(sh.heap)
    && (forall o :: o in sh.heap.objs && o.Ssh? ==> SshOk(sh, o))
    && (forall o :: o in sh.heap.objs && o.Tun? ==> Gone(sh, sh.heap.objs[o].key))
    && IssuedOk(sh)
    && (forall m :: 0 <= m < |sh.sent| ==> MsgOk(sh, sh.sent[m]))
  }

  // ---------- A step's guarantee ----------

  ghost predicate HeapGuarantee(a: Heap, b: Heap, t: Tid) {
    && (forall o :: o in a.objs ==> o in b.objs && b.objs[o].key == a.objs[o].key && b.objs[o].agent == a.objs[o].agent)
    && (forall o :: o in b.objs && o !in a.objs ==> t == Main(o) && b.objs[o].tunnel.None? && b.objs[o].phase.INIT?)
    && (forall o :: o in a.objs && o.Ssh? ==>
          && PhaseEdge(a.objs[o].phase, b.objs[o].phase)
          && (a.objs[o].phase.INIT? && !b.objs[o].phase.INIT? ==> t == Main(o)))
    && (forall o :: o in a.objs && b.objs[o].tunnel != a.objs[o].tunnel ==>
          && b.objs[o].tunnel.Some? && t == Main(b.objs[o].tunnel.value) && b.objs[o].phase.BOUND?
          && (o.Ssh? ==> a.objs[o].phase.OPEN_SENT?))
    && a.closed <= b.closed
  }

  ghost predicate Guarantee(a: Shared, b: Shared, t: Tid) {
    && b.sha == a.sha
    && HeapGuarantee(a.heap, b.heap, t)
    && (forall k :: k in a.issued ==> k in b.issued && b.issued[k] == a.issued[k])
    && (forall k :: k in b.issued && k !in a.issued ==> Unused(a, k))
    && Registry.Extends(a.reg, b.reg)
    && (forall c :: c in a.port ==> c in b.port && b.port[c] == a.port[c])
    && (forall c :: c in a.wire ==> c in b.wire && b.wire[c] == a.wire[c])
    && (forall c :: c in a.hello ==> c in b.hello && b.hello[c] == a.hello[c])
    && a.sent <= b.sent
    && a.next <= b.next
  }

  // ---------- Threads ----------

  // No session has ever been given websocket id.
  ghost predicate Unbound(sh: Shared, id: Id) {
    forall o :: o in sh.heap.objs ==> sh.heap.objs[o].tunnel != Some(id)
  }

  ghost predicate RefOk(sh: Shared, ref: AgentBook.Ref, agent: string) {
    ref in sh.reg.book.refs && sh.reg.book.refs[ref].name == agent
  }

  // The first frame read on websocket id is the one built from key, whenever the hub could issue key.
  ghost predicate FrameOk(sh: Shared, id: Id, key: string) {
    && id in sh.wire && sh.wire[id].binary
    && (Handshake.IsUuid(key) ==> sh.wire[id].data == Handshake.Frame(sh.sha, key))
  }

  ghost predicate HelloOk(sh: Shared, id: Id, agent: string) {
    id in sh.hello && sh.hello[id].agent == agent
  }

  // The handler of session id still holds it, in state INIT.
  ghost predicate Holding(sh: Shared, id: Id, key: string) {
    id in sh.heap.objs && sh.heap.objs[id].key == key && sh.heap.objs[id].phase.INIT?
  }

  // Session o is bound to websocket id, once and for all if it is SSH-initiated.
  ghost predicate BoundTo(sh: Shared, o: Id, id: Id) {
    && o in sh.heap.objs
    && (o.Ssh? ==>
          && sh.heap.objs[o].tunnel == Some(id)
          && !sh.heap.objs[o].phase.INIT? && !sh.heap.objs[o].phase.OPEN_SENT?)
  }

  ghost predicate SshPcOk(sh: Shared, id: Id, pc: Pc) {
    (IsSsh(pc) || pc.Done?) &&
    match pc
    case SLookup(agent) => id !in sh.heap.objs && PortOf(sh, id, agent)
    case SCheck(agent, ref) => id !in sh.heap.objs && PortOf(sh, id, agent) && RefOk(sh, ref, agent)
    case SInsert(agent, ref) => id !in sh.heap.objs && PortOf(sh, id, agent) && RefOk(sh, ref, agent)
    case SSend(ref, key) => Holding(sh, id, key) && RefOk(sh, ref, sh.heap.objs[id].agent)
    case SFail(key) => Holding(sh, id, key)
    case SMark(key) => Holding(sh, id, key)
    case SSpawn(key) => id in sh.heap.objs && sh.heap.objs[id].key == key && Begun(sh, key)
    case Done => id in sh.heap.closed || id in sh.heap.objs
  }

  ghost predicate EntryHeld(sh: Shared, id: Id, key: string) {
    id in sh.heap.objs && sh.heap.objs[id].key == key && Gone(sh, key)
  }

  ghost predicate TunPcOk(sh: Shared, id: Id, pc: Pc) {
    (IsTun(pc) || pc.TMismatch? || pc.Done?) &&
    match pc
    case TAgent(agent, hdr) => id !in sh.heap.objs && Unbound(sh, id) && HelloOk(sh, id, agent)
    case TAccept(agent, hdr, ref) =>
      id !in sh.heap.objs && Unbound(sh, id) && HelloOk(sh, id, agent) && RefOk(sh, ref, agent)
    case TRead(agent, hdr, ref) =>
      id !in sh.heap.objs && Unbound(sh, id) && HelloOk(sh, id, agent) && RefOk(sh, ref, agent)
    case TLookup(agent, key, ref) =>
      id !in sh.heap.objs && Unbound(sh, id) && HelloOk(sh, id, agent) && RefOk(sh, ref, agent) && FrameOk(sh, id, key)
    case TBind(agent, key) =>
      id !in sh.heap.objs && Unbound(sh, id) && HelloOk(sh, id, agent) && FrameOk(sh, id, key) && key in sh.issued
    case TVerify(agent, o) => BoundTo(sh, o, id) && HelloOk(sh, id, agent) && FrameOk(sh, id, sh.heap.objs[o].key)
    case TMismatch(agent, o) =>
      o in sh.heap.objs && sh.heap.objs[o].agent != agent && HelloOk(sh, id, agent) && id in sh.heap.closed
    case TEntry(o) => o.Tun? && o in sh.heap.objs && Unbound(sh, id)
    case TCreate(agent, key, ref) =>
      id !in sh.heap.objs && Unbound(sh, id) && HelloOk(sh, id, agent) && RefOk(sh, ref, agent) && Gone(sh, key)
    case TSend(ref, key) => EntryHeld(sh, id, key) && RefOk(sh, ref, sh.heap.objs[id].agent)
    case TFail(key) => EntryHeld(sh, id, key)
    case TFailClose => true
    case TMark(key) => EntryHeld(sh, id, key)
    case TSpawn(key) => EntryHeld(sh, id, key)
    case Done => true
  }

  // A watcher of a live SSH-initiated session that found a session found that one.
  ghost predicate WatchPcOk(sh: Shared, id: Id, pc: Pc) {
    (IsWatch(pc) || pc.Done?) &&
    match pc
    case WArm(key) => Begun(sh, key) && id in sh.heap.objs && sh.heap.objs[id].key == key
    case WRead(key, o) =>
      && Begun(sh, key) && id in sh.heap.objs && sh.heap.objs[id].key == key && o in sh.heap.objs
      && (id.Ssh? && Live(sh.heap.objs[id].phase) ==> o == id)
    case WClean(key) => Begun(sh, key) && id in sh.heap.objs && sh.heap.objs[id].key == key
    case Done => true
  }

  // o is an entry session under this ID.
  ghost predicate SharesId(sh: Shared, o: Id, key: string) {
    o.Tun? && o in sh.heap.objs && sh.heap.objs[o].key == key
  }

  ghost predicate WaitPcOk(sh: Shared, id: Id, pc: Pc) {
    (IsWait(pc) || pc.EClosed? || pc.EHanded?) &&
    match pc
    case EWait(key) => EntryHeld(sh, id, key)
    case EState(key, o) => EntryHeld(sh, id, key) && SharesId(sh, o, key)
    case ETunnel(key, o) => EntryHeld(sh, id, key) && SharesId(sh, o, key)
    case EClean(key) => EntryHeld(sh, id, key) && id in sh.heap.closed
    case EClosed => id in sh.heap.closed
    case EHanded(w) => true
  }

  ghost predicate FwdPcOk(sh: Shared, id: Id, pc: Pc) {
    && pc.FPair?
    && BoundTo(sh, pc.o, id)
    && pc.key == sh.heap.objs[pc.o].key && pc.agent == sh.heap.objs[pc.o].agent
    && HelloOk(sh, id, pc.agent) && FrameOk(sh, id, pc.key)
    && (pc.pair.once.Idle? <==> pc.pair.left && pc.pair.right)
    && (pc.o.Ssh? && (pc.pair.once.CloseSecond? || pc.pair.once.Unlist? || pc.pair.once.Finished?) ==>
          pc.o in sh.heap.closed)
    && (pc.pair.once.Unlist? || pc.pair.once.Finished? ==> id in sh.heap.closed)
    && (pc.o.Ssh? && pc.pair.once.Finished? ==> Over(sh.heap.objs[pc.o].phase))
  }

  ghost predicate SplicePcOk(sh: Shared, id: Id, pc: Pc) {
    && pc.XPair?
    && (pc.pair.once.Idle? <==> pc.pair.left && pc.pair.right)
    && !pc.pair.once.Unlist?
    && (pc.pair.once.CloseSecond? || pc.pair.once.Finished? ==> id in sh.heap.closed)
    && (pc.pair.once.Finished? ==> pc.tunnel in sh.heap.closed)
  }

  ghost predicate PcOk(sh: Shared, t: Tid, pc: Pc) {
    match t
    case Main(id) => id.n < sh.next && (if id.Ssh? then SshPcOk(sh, id, pc) else TunPcOk(sh, id, pc))
    case Watch(id) => WatchPcOk(sh, id, pc)
    case Wait(id) => id.Tun? && WaitPcOk(sh, id, pc)
    case Fwd(id) => id.Tun? && FwdPcOk(sh, id, pc)
    case Splice(id) => SplicePcOk(sh, id, pc)
    case Dial(m) => m < |sh.sent| && (pc.ADial? || pc.AShake? || pc.Done?)
  }

  // Connections are numbered in the order they are accepted.
  ghost predicate Numbered(sh: Shared) {
    && (forall o :: o in sh.heap.objs ==> o.n < sh.next)
    && (forall o :: o in sh.heap.objs && sh.heap.objs[o].tunnel.Some? ==> sh.heap.objs[o].tunnel.value.n < sh.next)
    && (forall c :: c in sh.port ==> c.n < sh.next)
    && (forall c :: c in sh.hello ==> c.n < sh.next)
  }

  ghost predicate Inv(s: State) {
    && Registry.Inv(s.sh.reg)
    && SharedInv(s.sh)
    && Numbered(s.sh)
    && (forall t :: t in s.th ==> PcOk(s.sh, t, s.th[t]))
  }

  lemma ThreadOk(s: State, t: Tid)
    requires Inv(s) && t in s.th
    ensures PcOk(s.sh, t, s.th[t])
  {
  }

  // ---------- Other threads' conditions survive a step ----------

  ghost predicate NewlyIssued(a: Shared, b: Shared, key: string) {
    key in b.issued && key !in a.issued
  }

  lemma GoneStable(a: Shared, b: Shared, t: Tid, key: string)
    requires Guarantee(a, b, t) && IssuedOk(a)
    requires !NewlyIssued(a, b, key)
    ensures Gone(a, key) ==> Gone(b, key)
    ensures Begun(a, key) ==> Begun(b, key)
  {
  }

  lemma SshPcStable(a: Shared, b: Shared, t: Tid, id: Id, pc: Pc)
    requires Guarantee(a, b, t) && t != Main(id)
    requires Carries(pc).Some? && Begun(a, Carries(pc).value) ==> Begun(b, Carries(pc).value)
    requires id.Ssh? && SshPcOk(a, id, pc)
    ensures SshPcOk(b, id, pc)
  {
  }

  lemma UnboundStable(a: Shared, b: Shared, t: Tid, id: Id)
    requires Guarantee(a, b, t) && t != Main(id) && Unbound(a, id)
    ensures Unbound(b, id)
  {
  }

  lemma BoundStable(a: Shared, b: Shared, t: Tid, o: Id, id: Id)
    requires Guarantee(a, b, t) && BoundTo(a, o, id)
    ensures BoundTo(b, o, id)
  {
  }

  lemma FrameStable(a: Shared, b: Shared, t: Tid, id: Id, key: string)
    requires Guarantee(a, b, t) && FrameOk(a, id, key)
    ensures FrameOk(b, id, key)
  {
  }

  lemma TunPcStable(a: Shared, b: Shared, t: Tid, id: Id, pc: Pc)
    requires Guarantee(a, b, t) && t != Main(id)
    requires Carries(pc).Some? && Gone(a, Carries(pc).value) ==> Gone(b, Carries(pc).value)
    requires id.Tun? && TunPcOk(a, id, pc)
    ensures TunPcOk(b, id, pc)
  {
    hide Unbound, BoundTo, FrameOk, Gone;
    if Unbound(a, id) { UnboundStable(a, b, t, id); }
    if pc.TLookup? || pc.TBind? { FrameStable(a, b, t, id, pc.key); }
    if pc.TVerify? { VerifyPcStable(a, b, t, id, pc); }
  }

  lemma VerifyPcStable(a: Shared, b: Shared, t: Tid, id: Id, pc: Pc)
    requires Guarantee(a, b, t) && pc.TVerify? && TunPcOk(a, id, pc)
    ensures TunPcOk(b, id, pc)
  {
    BoundStable(a, b, t, pc.o, id);
    FrameStable(a, b, t, id, a.heap.objs[pc.o].key);
  }

  lemma FwdPcStable(a: Shared, b: Shared, t: Tid, id: Id, pc: Pc)
    requires Guarantee(a, b, t) && FwdPcOk(a, id, pc)
    ensures FwdPcOk(b, id, pc)
  {
    BoundStable(a, b, t, pc.o, id);
    FrameStable(a, b, t, id, pc.key);
  }

  lemma WatchPcStable(a: Shared, b: Shared, t: Tid, id: Id, pc: Pc)
    requires Guarantee(a, b, t) && WatchPcOk(a, id, pc)
    requires Carries(pc).Some? && Begun(a, Carries(pc).value) ==> Begun(b, Carries(pc).value)
    ensures WatchPcOk(b, id, pc)
  {
    hide Begun;
  }

  lemma WaitPcStable(a: Shared, b: Shared, t: Tid, id: Id, pc: Pc)
    requires Guarantee(a, b, t) && WaitPcOk(a, id, pc)
    requires Carries(pc).Some? && Gone(a, Carries(pc).value) ==> Gone(b, Carries(pc).value)
    ensures WaitPcOk(b, id, pc)
  {
    hide Gone;
  }

  lemma Grows(a: Shared, b: Shared, t: Tid)
    requires Guarantee(a, b, t)
    ensures a.next <= b.next && |a.sent| <= |b.sent| && a.heap.closed <= b.heap.closed
  {
  }

  lemma PcStable(a: Shared, b: Shared, t: Tid, u: Tid, pc: Pc)
    requires Guarantee(a, b, t) && IssuedOk(a)
    requires PcOk(a, u, pc) && u != t
    requires Carries(pc).Some? ==> !NewlyIssued(a, b, Carries(pc).value)
    ensures PcOk(b, u, pc)
  {
    hide Guarantee, IssuedOk, Carries, NewlyIssued, SshPcOk, TunPcOk, FwdPcOk, WatchPcOk, WaitPcOk, Begun, Gone;
    Grows(a, b, t);
    if Carries(pc).Some? {
      GoneStable(a, b, t, Carries(pc).value);
    }
    match u {
      case Main(id) => if id.Ssh? { SshPcStable(a, b, t, id, pc); } else { TunPcStable(a, b, t, id, pc); }
      case Watch(id) => WatchPcStable(a, b, t, id, pc);
      case Wait(id) => WaitPcStable(a, b, t, id, pc);
      case Fwd(id) => FwdPcStable(a, b, t, id, pc);
      case _ =>
    }
  }

  // ---------- The critical sections on the heap ----------

  // Session o may be put in state phase by thread t's cleanup.
  ghost predicate MayEnd(h: Heap, o: Id, phase: Phase, t: Tid)
    requires o in h.objs
  {
    o.Ssh? ==> PhaseEdge(h.objs[o].phase, phase) && (h.objs[o].phase.INIT? ==> t == Main(o))
  }

  lemma InsertHeap(h: Heap, id: Id, key: string, agent: string)
    requires HeapOk(h) && id !in h.objs
    requires key in h.pending ==> h.pending[key].Tun?
    ensures HeapOk(Insert(h, id, key, agent)) && HeapGuarantee(h, Insert(h, id, key, agent), Main(id))
  {
    var g := Insert(h, id, key, agent);
    forall o | o in g.objs && o.Ssh? ensures Listed(g, o) {
      if o != id { assert Listed(h, o); }
    }
  }

  lemma MarkHeap(h: Heap, id: Id)
    requires HeapOk(h) && id in h.objs && (id.Ssh? ==> h.objs[id].phase.INIT?)
    ensures HeapOk(MarkOpenSent(h, id)) && HeapGuarantee(h, MarkOpenSent(h, id), Main(id))
  {
    var g := MarkOpenSent(h, id);
    forall o | o in g.objs && o.Ssh? ensures Listed(g, o) {
      assert Listed(h, o);
    }
  }

  lemma AttachHeap(h: Heap, o: Id, id: Id)
    requires HeapOk(h) && o in h.objs && (o.Ssh? ==> h.objs[o].phase.OPEN_SENT?)
    requires forall x :: x in h.objs ==> h.objs[x].tunnel != Some(id)
    ensures HeapOk(Attach(h, o, id)) && HeapGuarantee(h, Attach(h, o, id), Main(id))
  {
    var g := Attach(h, o, id);
    forall x | x in g.objs && x.Ssh? ensures Listed(g, x) {
      assert Listed(h, x);
    }
  }

  lemma CleanupHeap(h: Heap, key: string, phase: Phase, t: Tid)
    requires HeapOk(h) && Over(phase)
    requires key in h.pending ==> MayEnd(h, h.pending[key], phase, t)
    ensures HeapOk(Cleanup(h, key, phase)) && HeapGuarantee(h, Cleanup(h, key, phase), t)
  {
    CleanupHeapOk(h, key, phase);
    if key in h.pending && h.pending[key].Ssh? { assert Listed(h, h.pending[key]); }
    hide TunnelsDistinct;
  }

  lemma CleanupHeapOk(h: Heap, key: string, phase: Phase)
    requires HeapOk(h) && Over(phase)
    ensures HeapOk(Cleanup(h, key, phase))
  {
    var g := Cleanup(h, key, phase);
    forall o | o in g.objs && o.Ssh? ensures Listed(g, o) {
      assert Listed(h, o);
    }
  }

  lemma CloseHeap(h: Heap, c: Id, t: Tid)
    requires HeapOk(h)
    ensures HeapOk(Close(h, c)) && HeapGuarantee(h, Close(h, c), t)
  {
    var g := Close(h, c);
    forall o | o in g.objs && o.Ssh? ensures Listed(g, o) {
      assert Listed(h, o);
    }
  }

  // ---------- The same sections on the shared state ----------

  lemma SshStable(a: Shared, b: Shared, t: Tid, o: Id)
    requires Guarantee(a, b, t) && o in a.heap.objs && SshOk(a, o)
    ensures SshOk(b, o)
  {
  }

  lemma MsgStable(a: Shared, b: Shared, t: Tid, m: Msg)
    requires Guarantee(a, b, t) && MsgOk(a, m)
    ensures MsgOk(b, m)
  {
  }

  // The invariant of the shared state survives a step whose new sessions and messages are good.
  lemma SharedKeeps(a: Shared, b: Shared, t: Tid)
    requires SharedInv(a) && Guarantee(a, b, t) && HeapOk(b.heap) && IssuedOk(b)
    requires forall o :: o in b.heap.objs && o !in a.heap.objs ==>
               if o.Ssh? then SshOk(b, o) else Gone(b, b.heap.objs[o].key)
    requires forall m :: |a.sent| <= m < |b.sent| ==> MsgOk(b, b.sent[m])
    ensures SharedInv(b)
  {
    forall o | o in b.heap.objs && o.Ssh? ensures SshOk(b, o) {
      if o in a.heap.objs { SshStable(a, b, t, o); }
    }
    forall o | o in b.heap.objs && o.Tun? ensures Gone(b, b.heap.objs[o].key) {
      if o in a.heap.objs { GoneStable(a, b, t, a.heap.objs[o].key); }
    }
    forall m | 0 <= m < |b.sent| ensures MsgOk(b, b.sent[m]) {
      if m < |a.sent| { MsgStable(a, b, t, a.sent[m]); }
    }
  }

  lemma HeapGuaranteed(a: Shared, h: Heap, t: Tid)
    requires HeapGuarantee(a.heap, h, t)
    ensures Guarantee(a, a.(heap := h), t)
  {
  }

  // A section that changes only the heap.
  lemma HeapStep(a: Shared, h: Heap, t: Tid)
    requires SharedInv(a) && HeapOk(h) && HeapGuarantee(a.heap, h, t)
    requires forall o :: o in h.objs && o !in a.heap.objs ==> o.Tun? && Gone(a, h.objs[o].key)
    ensures SharedInv(a.(heap := h)) && Guarantee(a, a.(heap := h), t)
  {
    var b := a.(heap := h);
    HeapGuaranteed(a, h, t);
    forall o | o in h.objs && o !in a.heap.objs ensures o.Tun? && Gone(b, h.objs[o].key) {
      GoneStable(a, b, t, h.objs[o].key);
    }
    SharedKeeps(a, b, t);
  }

  lemma CloseOk(sh: Shared, c: Id, t: Tid)
    requires SharedInv(sh)
    ensures SharedInv(CloseConn(sh, c)) && Guarantee(sh, CloseConn(sh, c), t)
  {
    CloseHeap(sh.heap, c, t);
    HeapStep(sh, Close(sh.heap, c), t);
  }

  lemma SendOpenOk(sh: Shared, id: Id, ref: AgentBook.Ref, key: string, c: Choice, t: Tid)
    requires SharedInv(sh) && Registry.ControlsOwned(sh.reg)
    requires id in sh.heap.objs && sh.heap.objs[id].key == key && RefOk(sh, ref, sh.heap.objs[id].agent)
    ensures SharedInv(SendOpen(sh, id, ref, key, c)) && Guarantee(sh, SendOpen(sh, id, ref, key, c), t)
  {
    var b := SendOpen(sh, id, ref, key, c);
    SendGuaranteed(sh, id, ref, key, c, t);
    SharedKeeps(sh, b, t);
  }

  lemma HeapSame(h: Heap, t: Tid)
    ensures HeapGuarantee(h, h, t)
  {
  }

  lemma SendGuaranteed(sh: Shared, id: Id, ref: AgentBook.Ref, key: string, c: Choice, t: Tid)
    ensures Guarantee(sh, SendOpen(sh, id, ref, key, c), t)
  {
    var b := SendOpen(sh, id, ref, key, c);
    HeapSame(sh.heap, t);
    assert Registry.Extends(sh.reg, b.reg);
    assert b == sh.(sent := b.sent) && sh.sent <= b.sent;
  }

  lemma InsertSshOk(sh: Shared, id: Id, key: string, agent: string)
    requires SharedInv(sh) && id.Ssh? && id !in sh.heap.objs
    requires Unused(sh, key) && Handshake.IsUuid(key) && PortOf(sh, id, agent)
    ensures var b := sh.(heap := Insert(sh.heap, id, key, agent), issued := sh.issued[key := id]);
            SharedInv(b) && Guarantee(sh, b, Main(id))
  {
    var h := Insert(sh.heap, id, key, agent);
    var b := sh.(heap := h, issued := sh.issued[key := id]);
    UnusedUnlisted(sh, key);
    InsertHeap(sh.heap, id, key, agent);
    IssueGuaranteed(sh, h, key, id);
    IssuedInsert(sh, id, key, agent);
    SharedKeeps(sh, b, Main(id));
  }

  lemma UnusedUnlisted(sh: Shared, key: string)
    requires KeysMatch(sh.heap) && Unused(sh, key)
    ensures key !in sh.heap.pending
  {
  }

  lemma IssuedInsert(sh: Shared, id: Id, key: string, agent: string)
    requires IssuedOk(sh) && id.Ssh? && id !in sh.heap.objs
    requires Unused(sh, key) && Handshake.IsUuid(key) && PortOf(sh, id, agent)
    ensures var b := sh.(heap := Insert(sh.heap, id, key, agent), issued := sh.issued[key := id]);
            IssuedOk(b) && SshOk(b, id)
  {
  }

  lemma IssueGuaranteed(sh: Shared, h: Heap, key: string, id: Id)
    requires HeapGuarantee(sh.heap, h, Main(id)) && Unused(sh, key)
    ensures Guarantee(sh, sh.(heap := h, issued := sh.issued[key := id]), Main(id))
  {
    assert Registry.Extends(sh.reg, sh.reg);
  }

  // An ID whose SSH-initiated session is over lists no SSH-initiated session.
  lemma GoneUnlisted(sh: Shared, key: string)
    requires SharedInv(sh) && Gone(sh, key)
    ensures key in sh.heap.pending ==> sh.heap.pending[key].Tun?
  {
    if key in sh.heap.pending {
      var o := sh.heap.pending[key];
      assert o in sh.heap.objs && InPending(sh.heap, o);
    }
  }

  lemma InsertEntryOk(sh: Shared, id: Id, key: string, agent: string)
    requires SharedInv(sh) && id.Tun? && id !in sh.heap.objs && Gone(sh, key)
    ensures var b := sh.(heap := Insert(sh.heap, id, key, agent)); SharedInv(b) && Guarantee(sh, b, Main(id))
  {
    GoneUnlisted(sh, key);
    InsertHeap(sh.heap, id, key, agent);
    HeapStep(sh, Insert(sh.heap, id, key, agent), Main(id));
  }

  lemma MarkOk(sh: Shared, id: Id)
    requires SharedInv(sh) && id in sh.heap.objs && (id.Ssh? ==> sh.heap.objs[id].phase.INIT?)
    ensures var b := sh.(heap := MarkOpenSent(sh.heap, id)); SharedInv(b) && Guarantee(sh, b, Main(id))
  {
    MarkHeap(sh.heap, id);
    HeapStep(sh, MarkOpenSent(sh.heap, id), Main(id));
  }

  lemma AttachOk(sh: Shared, o: Id, id: Id)
    requires SharedInv(sh) && o in sh.heap.objs && Unbound(sh, id)
    requires o.Ssh? ==> sh.heap.objs[o].phase.OPEN_SENT?
    ensures var b := sh.(heap := Attach(sh.heap, o, id)); SharedInv(b) && Guarantee(sh, b, Main(id))
  {
    AttachHeap(sh.heap, o, id);
    HeapStep(sh, Attach(sh.heap, o, id), Main(id));
  }

  lemma UnpendOk(sh: Shared, key: string, phase: Phase, t: Tid)
    requires SharedInv(sh) && Over(phase)
    requires key in sh.heap.pending ==> MayEnd(sh.heap, sh.heap.pending[key], phase, t)
    ensures SharedInv(Unpend(sh, key, phase)) && Guarantee(sh, Unpend(sh, key, phase), t)
  {
    CleanupHeap(sh.heap, key, phase, t);
    HeapStep(sh, Cleanup(sh.heap, key, phase), t);
  }

  // ---------- One step of one thread ----------

  ghost predicate StepGood(sh: Shared, t: Tid, e: Effect) {
    && SharedInv(e.sh)
    && Guarantee(sh, e.sh, t)
    && PcOk(e.sh, t, e.pc)
    && forall u :: u in e.spawn ==> PcOk(e.sh, u, e.spawn[u])
  }

  lemma GuaranteeSame(sh: Shared, t: Tid)
    ensures Guarantee(sh, sh, t)
  {
    HeapSame(sh.heap, t);
    assert Registry.Extends(sh.reg, sh.reg);
  }

  // An issued ID belongs to its session alone.
  lemma IssuedTo(sh: Shared, o: Id)
    requires SharedInv(sh) && o in sh.heap.objs && o.Ssh?
    ensures sh.heap.objs[o].key in sh.issued && sh.issued[sh.heap.objs[o].key] == o
  {
    assert SshOk(sh, o);
  }

  lemma UnlistedGone(sh: Shared, key: string)
    requires SharedInv(sh) && key !in sh.heap.pending
    ensures Gone(sh, key)
  {
    if key in sh.issued {
      assert Listed(sh.heap, sh.issued[key]);
    }
  }

  // An ID that has begun lists, if an SSH-initiated session at all, one that may time out.
  lemma BegunMayTimeOut(sh: Shared, key: string, t: Tid)
    requires SharedInv(sh) && Begun(sh, key) && key in sh.heap.pending
    ensures MayEnd(sh.heap, sh.heap.pending[key], TIMEOUT, t)
  {
    var o := sh.heap.pending[key];
    if o.Ssh? {
      IssuedTo(sh, o);
      assert Listed(sh.heap, o);
    }
  }

  // Looking a registered agent up yields its AgentState.
  lemma LookupRef(sh: Shared, agent: string)
    requires Registry.BookInv(sh.reg.book) && agent in sh.reg.book.agents
    ensures RefOk(sh, sh.reg.book.agents[agent], agent)
  {
  }

  lemma JustGood(sh: Shared, b: Shared, t: Tid, pc: Pc)
    requires SharedInv(b) && Guarantee(sh, b, t) && PcOk(b, t, pc)
    ensures StepGood(sh, t, Just(b, pc))
  {
  }

  lemma CloseGood(sh: Shared, c: Id, t: Tid, pc: Pc)
    requires SharedInv(sh) && PcOk(CloseConn(sh, c), t, pc)
    ensures StepGood(sh, t, Just(CloseConn(sh, c), pc))
  {
    CloseOk(sh, c, t);
  }

  lemma StayGood(sh: Shared, t: Tid, pc: Pc)
    requires SharedInv(sh) && PcOk(sh, t, pc)
    ensures StepGood(sh, t, Just(sh, pc))
  {
    GuaranteeSame(sh, t);
  }

  lemma SpawnGood(sh: Shared, t: Tid, pc: Pc, u: Tid, pc': Pc)
    requires SharedInv(sh) && PcOk(sh, t, pc) && PcOk(sh, u, pc')
    ensures StepGood(sh, t, Effect(sh, pc, map[u := pc']))
  {
    GuaranteeSame(sh, t);
  }

  lemma SpawnTwoGood(sh: Shared, t: Tid, pc: Pc, u: Tid, pu: Pc, v: Tid, pv: Pc)
    requires SharedInv(sh) && PcOk(sh, t, pc) && PcOk(sh, u, pu) && PcOk(sh, v, pv) && u != v
    ensures StepGood(sh, t, Effect(sh, pc, map[u := pu, v := pv]))
  {
    hide SharedInv, PcOk, Guarantee;
    GuaranteeSame(sh, t);
  }

  lemma SshLookGood(sh: Shared, id: Id, pc: Pc, c: Choice)
    requires SharedInv(sh) && Registry.BookInv(sh.reg.book) && id.Ssh? && PcOk(sh, Main(id), pc)
    requires (pc.SLookup? || pc.SCheck?) && CanSsh(sh, id, pc, c)
    ensures StepGood(sh, Main(id), SshStep(sh, id, pc, c))
  {
    var t, e := Main(id), SshStep(sh, id, pc, c);
    if e.pc.Done? {
      CloseGood(sh, id, t, Done);
    } else {
      if pc.SLookup? { LookupRef(sh, pc.agent); }
      StayGood(sh, t, e.pc);
    }
  }

  lemma SshSpawnGood(sh: Shared, id: Id, pc: Pc, c: Choice)
    requires SharedInv(sh) && id.Ssh? && PcOk(sh, Main(id), pc)
    requires pc.SSpawn? && CanSsh(sh, id, pc, c)
    ensures StepGood(sh, Main(id), SshStep(sh, id, pc, c))
  {
    SpawnGood(sh, Main(id), Done, Watch(id), WArm(pc.key));
  }

  lemma SshSendGood(sh: Shared, id: Id, pc: Pc, c: Choice)
    requires SharedInv(sh) && Registry.ControlsOwned(sh.reg) && id.Ssh? && PcOk(sh, Main(id), pc)
    requires pc.SSend? && CanSsh(sh, id, pc, c)
    ensures StepGood(sh, Main(id), SshStep(sh, id, pc, c))
  {
    hide SharedInv, Guarantee, Registry.ControlsOwned, CanSsh, KeysMatch;
    SendOpenOk(sh, id, pc.ref, pc.key, c, Main(id));
    assert SendOpen(sh, id, pc.ref, pc.key, c).heap == sh.heap;
  }

  lemma SshFailGood(sh: Shared, id: Id, pc: Pc, c: Choice)
    requires SharedInv(sh) && id.Ssh? && PcOk(sh, Main(id), pc)
    requires pc.SFail? && CanSsh(sh, id, pc, c)
    ensures StepGood(sh, Main(id), SshStep(sh, id, pc, c))
  {
    if pc.key in sh.heap.pending {
      IssuedTo(sh, id);
      if sh.heap.pending[pc.key].Ssh? { IssuedTo(sh, sh.heap.pending[pc.key]); }
    }
    UnpendOk(sh, pc.key, CLOSED, Main(id));
    assert id in Cleanup(sh.heap, pc.key, CLOSED).objs;
  }

  lemma SshMarkGood(sh: Shared, id: Id, pc: Pc, c: Choice)
    requires SharedInv(sh) && id.Ssh? && PcOk(sh, Main(id), pc)
    requires pc.SMark? && CanSsh(sh, id, pc, c)
    ensures StepGood(sh, Main(id), SshStep(sh, id, pc, c))
  {
    MarkOk(sh, id);
    IssuedTo(sh, id);
  }

  lemma SshInsertGood(sh: Shared, id: Id, pc: Pc, c: Choice)
    requires SharedInv(sh) && id.Ssh? && PcOk(sh, Main(id), pc)
    requires pc.SInsert? && CanSsh(sh, id, pc, c) && Unused(sh, c.key)
    ensures StepGood(sh, Main(id), SshStep(sh, id, pc, c))
  {
    InsertSshOk(sh, id, c.key, pc.agent);
  }

  lemma SshStepGood(sh: Shared, id: Id, pc: Pc, c: Choice)
    requires SharedInv(sh) && Registry.BookInv(sh.reg.book) && Registry.ControlsOwned(sh.reg)
    requires id.Ssh? && PcOk(sh, Main(id), pc) && IsSsh(pc) && CanSsh(sh, id, pc, c)
    requires pc.SInsert? ==> Unused(sh, c.key)
    ensures StepGood(sh, Main(id), SshStep(sh, id, pc, c))
  {
    hide StepGood, SshStep, SharedInv, PcOk, CanSsh, Unused, Registry.BookInv, Registry.ControlsOwned;
    if pc.SInsert? {
      SshInsertGood(sh, id, pc, c);
    } else if pc.SSend? {
      SshSendGood(sh, id, pc, c);
    } else if pc.SFail? {
      SshFailGood(sh, id, pc, c);
    } else if pc.SMark? {
      SshMarkGood(sh, id, pc, c);
    } else if pc.SSpawn? {
      SshSpawnGood(sh, id, pc, c);
    } else {
      SshLookGood(sh, id, pc, c);
    }
  }

  // ---------- handleTunnelWS ----------

  lemma TunLookGood(sh: Shared, id: Id, pc: Pc, c: Choice)
    requires SharedInv(sh) && Registry.BookInv(sh.reg.book) && id.Tun? && PcOk(sh, Main(id), pc)
    requires (pc.TAgent? || pc.TAccept? || pc.TLookup?) && CanTun(sh, id, pc, c)
    ensures StepGood(sh, Main(id), TunStep(sh, id, pc, c))
  {
    var e := TunStep(sh, id, pc, c);
    if pc.TAgent? && pc.agent in sh.reg.book.agents { LookupRef(sh, pc.agent); }
    if e.pc.TCreate? { UnlistedGone(sh, pc.key); }
    if e.pc.TBind? { IssuedTo(sh, sh.heap.pending[pc.key]); }
    StayGood(sh, Main(id), e.pc);
  }

  lemma TunReadGood(sh: Shared, id: Id, pc: Pc, c: Choice)
    requires SharedInv(sh) && id.Tun? && PcOk(sh, Main(id), pc)
    requires pc.TRead? && CanTun(sh, id, pc, c)
    ensures StepGood(sh, Main(id), TunStep(sh, id, pc, c))
  {
    var e := TunStep(sh, id, pc, c);
    if e.pc.Done? {
      CloseGood(sh, id, Main(id), Done);
    } else {
      if pc.hdr == "" {
        Handshake.HeaderlessId(sh.sha, sh.wire[id].data[Handshake.MAGIC_SIZE..]);
      }
      StayGood(sh, Main(id), e.pc);
    }
  }

  lemma TunBindGood(sh: Shared, id: Id, pc: Pc, c: Choice)
    requires SharedInv(sh) && id.Tun? && PcOk(sh, Main(id), pc)
    requires pc.TBind? && CanTun(sh, id, pc, c)
    ensures StepGood(sh, Main(id), TunStep(sh, id, pc, c))
  {
    match BindOutcome(sh.heap, pc.key) {
      case Success(o) => AttachOk(sh, o, id);
      case Failure(_) => CloseGood(sh, id, Main(id), Done);
    }
  }

  lemma TunVerifyGood(sh: Shared, id: Id, pc: Pc, c: Choice)
    requires SharedInv(sh) && id.Tun? && PcOk(sh, Main(id), pc)
    requires pc.TVerify? && CanTun(sh, id, pc, c)
    ensures StepGood(sh, Main(id), TunStep(sh, id, pc, c))
  {
    hide SharedInv, StepGood, KeysMatch;
    var p := sh.heap.objs[pc.o];
    if p.agent != pc.agent {
      CloseGood(sh, id, Main(id), TMismatch(pc.agent, pc.o));
    } else {
      SpawnGood(sh, Main(id), Done, Fwd(id), FPair(pc.agent, pc.o, p.key, Pair(true, true, Idle)));
    }
  }

  lemma TunEntryGood(sh: Shared, id: Id, pc: Pc, c: Choice)
    requires SharedInv(sh) && id.Tun? && PcOk(sh, Main(id), pc)
    requires pc.TEntry? && CanTun(sh, id, pc, c)
    ensures StepGood(sh, Main(id), TunStep(sh, id, pc, c))
  {
    AttachOk(sh, pc.o, id);
  }

  lemma TunCreateGood(sh: Shared, id: Id, pc: Pc, c: Choice)
    requires SharedInv(sh) && id.Tun? && PcOk(sh, Main(id), pc)
    requires pc.TCreate? && CanTun(sh, id, pc, c)
    ensures StepGood(sh, Main(id), TunStep(sh, id, pc, c))
  {
    var b := sh.(heap := Insert(sh.heap, id, pc.key, pc.agent));
    assert IssuedOk(sh);
    InsertEntryOk(sh, id, pc.key, pc.agent);
    hide SharedInv, Guarantee, Gone, StepGood;
    GoneStable(sh, b, Main(id), pc.key);
    JustGood(sh, b, Main(id), TSend(pc.ref, pc.key));
  }

  lemma TunSendGood(sh: Shared, id: Id, pc: Pc, c: Choice)
    requires SharedInv(sh) && Registry.ControlsOwned(sh.reg) && id.Tun? && PcOk(sh, Main(id), pc)
    requires pc.TSend? && CanTun(sh, id, pc, c)
    ensures StepGood(sh, Main(id), TunStep(sh, id, pc, c))
  {
    SendOpenOk(sh, id, pc.ref, pc.key, c, Main(id));
    assert SendOpen(sh, id, pc.ref, pc.key, c).heap == sh.heap;
  }

  lemma SpawnPointGood(sh: Shared, b: Shared, id: Id, key: string)
    requires SharedInv(sh) && Guarantee(sh, b, Main(id)) && id.Tun? && PcOk(sh, Main(id), TMark(key))
    requires b.issued == sh.issued
    ensures PcOk(b, Main(id), TSpawn(key))
  {
    GoneStable(sh, b, Main(id), key);
  }

  lemma TunMarkGood(sh: Shared, id: Id, pc: Pc, c: Choice)
    requires SharedInv(sh) && id.Tun? && PcOk(sh, Main(id), pc)
    requires pc.TMark? && CanTun(sh, id, pc, c)
    ensures StepGood(sh, Main(id), TunStep(sh, id, pc, c))
  {
    var b := sh.(heap := MarkOpenSent(sh.heap, id));
    MarkOk(sh, id);
    SpawnPointGood(sh, b, id, pc.key);
    JustGood(sh, b, Main(id), TSpawn(pc.key));
  }

  lemma TunFailGood(sh: Shared, id: Id, pc: Pc, c: Choice)
    requires SharedInv(sh) && id.Tun? && PcOk(sh, Main(id), pc)
    requires pc.TFail? && CanTun(sh, id, pc, c)
    ensures StepGood(sh, Main(id), TunStep(sh, id, pc, c))
  {
    GoneUnlisted(sh, pc.key);
    UnpendOk(sh, pc.key, CLOSED, Main(id));
  }

  lemma TunFailCloseGood(sh: Shared, id: Id, pc: Pc, c: Choice)
    requires SharedInv(sh) && id.Tun? && PcOk(sh, Main(id), pc)
    requires pc.TFailClose? && CanTun(sh, id, pc, c)
    ensures StepGood(sh, Main(id), TunStep(sh, id, pc, c))
  {
    CloseGood(sh, id, Main(id), Done);
  }

  lemma TunSpawnGood(sh: Shared, id: Id, pc: Pc, c: Choice)
    requires SharedInv(sh) && id.Tun? && PcOk(sh, Main(id), pc)
    requires pc.TSpawn? && CanTun(sh, id, pc, c)
    ensures StepGood(sh, Main(id), TunStep(sh, id, pc, c))
  {
    hide SharedInv, StepGood, KeysMatch;
    assert PcOk(sh, Main(id), Done) && PcOk(sh, Wait(id), EWait(pc.key)) && PcOk(sh, Watch(id), WArm(pc.key));
    SpawnTwoGood(sh, Main(id), Done, Wait(id), EWait(pc.key), Watch(id), WArm(pc.key));
  }

  lemma TunStepGood(sh: Shared, id: Id, pc: Pc, c: Choice)
    requires SharedInv(sh) && Registry.BookInv(sh.reg.book) && Registry.ControlsOwned(sh.reg)
    requires id.Tun? && PcOk(sh, Main(id), pc) && IsTun(pc) && CanTun(sh, id, pc, c)
    ensures StepGood(sh, Main(id), TunStep(sh, id, pc, c))
  {
    hide StepGood, TunStep, SharedInv, PcOk, CanTun, Registry.BookInv, Registry.ControlsOwned;
    if pc.TRead? {
      TunReadGood(sh, id, pc, c);
    } else if pc.TBind? {
      TunBindGood(sh, id, pc, c);
    } else if pc.TVerify? {
      TunVerifyGood(sh, id, pc, c);
    } else if pc.TEntry? {
      TunEntryGood(sh, id, pc, c);
    } else if pc.TCreate? {
      TunCreateGood(sh, id, pc, c);
    } else if pc.TSend? {
      TunSendGood(sh, id, pc, c);
    } else if pc.TMark? {
      TunMarkGood(sh, id, pc, c);
    } else if pc.TFail? {
      TunFailGood(sh, id, pc, c);
    } else if pc.TFailClose? {
      TunFailCloseGood(sh, id, pc, c);
    } else if pc.TSpawn? {
      TunSpawnGood(sh, id, pc, c);
    } else {
      TunLookGood(sh, id, pc, c);
    }
  }

  // ---------- Watchers, waiters and pairs ----------

  lemma WatchStepGood(sh: Shared, id: Id, pc: Pc)
    requires SharedInv(sh) && PcOk(sh, Watch(id), pc)
    requires IsWatch(pc) && CanWatch(sh, pc)
    ensures StepGood(sh, Watch(id), WatchStep(sh, pc))
  {
    var e := WatchStep(sh, pc);
    if pc.WClean? {
      if pc.key in sh.heap.pending { BegunMayTimeOut(sh, pc.key, Watch(id)); }
      UnpendOk(sh, pc.key, TIMEOUT, Watch(id));
    } else {
      if pc.WArm? && id.Ssh? { assert Listed(sh.heap, id); }
      StayGood(sh, Watch(id), e.pc);
    }
  }

  lemma WaitStepGood(sh: Shared, id: Id, pc: Pc, c: Choice)
    requires SharedInv(sh) && PcOk(sh, Wait(id), pc)
    requires IsWait(pc) && CanWait(sh, pc)
    ensures StepGood(sh, Wait(id), WaitStep(sh, id, pc, c))
  {
    var e := WaitStep(sh, id, pc, c);
    if pc.EWait? { GoneUnlisted(sh, pc.key); }
    if pc.EClean? {
      WaitCleanGood(sh, id, pc.key);
    } else if e.spawn != map[] {
      SpawnGood(sh, Wait(id), e.pc, Splice(id), XPair(e.pc.tunnel, Pair(true, true, Idle)));
    } else if e.sh == sh {
      StayGood(sh, Wait(id), e.pc);
    } else {
      CloseGood(sh, id, Wait(id), e.pc);
    }
  }

  lemma WaitCleanGood(sh: Shared, id: Id, key: string)
    requires SharedInv(sh) && PcOk(sh, Wait(id), EClean(key))
    ensures StepGood(sh, Wait(id), Just(Unpend(sh, key, TIMEOUT), EClosed))
  {
    GoneUnlisted(sh, key);
    UnpendOk(sh, key, TIMEOUT, Wait(id));
  }

  // The last action of a forwarding pair's cleanup ends its session, if it is SSH-initiated.
  lemma UnlistGood(sh: Shared, id: Id, agent: string, o: Id, key: string, p: Pair)
    requires SharedInv(sh) && PcOk(sh, Fwd(id), FPair(agent, o, key, p)) && p.once.Unlist?
    ensures StepGood(sh, Fwd(id), Just(Unpend(sh, key, CLOSED), FPair(agent, o, key, p.(once := Finished))))
  {
    if key in sh.heap.pending { PairMayEnd(sh, id, o, key); }
    UnpendOk(sh, key, CLOSED, Fwd(id));
    if o.Ssh? {
      IssuedTo(sh, o);
      assert Listed(sh.heap, o);
    }
  }

  lemma PairMayEnd(sh: Shared, id: Id, o: Id, key: string)
    requires SharedInv(sh) && BoundTo(sh, o, id) && key == sh.heap.objs[o].key && key in sh.heap.pending
    ensures MayEnd(sh.heap, sh.heap.pending[key], CLOSED, Fwd(id))
  {
    if o.Ssh? {
      IssuedTo(sh, o);
      assert Listed(sh.heap, o);
      if sh.heap.pending[key].Ssh? { IssuedTo(sh, sh.heap.pending[key]); }
    } else {
      GoneUnlisted(sh, key);
    }
  }

  lemma PairStepGood(sh: Shared, t: Tid, pc: Pc, c: Choice)
    requires SharedInv(sh) && PcOk(sh, t, pc) && (t.Fwd? || t.Splice?)
    requires CanPair(sh, pc, c)
    ensures StepGood(sh, t, PairStep(sh, t.id, pc, c))
  {
    if t.Fwd? { FwdStepGood(sh, t.id, pc, c); } else { SpliceStepGood(sh, t.id, pc, c); }
  }

  lemma FwdStepGood(sh: Shared, id: Id, pc: Pc, c: Choice)
    requires SharedInv(sh) && PcOk(sh, Fwd(id), pc) && CanPair(sh, pc, c)
    ensures StepGood(sh, Fwd(id), PairStep(sh, id, pc, c))
  {
    hide SharedInv, StepGood;
    var t, e := Fwd(id), PairStep(sh, id, pc, c);
    if !c.Ok? {
      StayGood(sh, t, e.pc);
    } else if pc.pair.once.CloseFirst? {
      if pc.o.Ssh? { CloseGood(sh, pc.o, t, e.pc); } else { StayGood(sh, t, e.pc); }
    } else if pc.pair.once.CloseSecond? {
      CloseGood(sh, id, t, e.pc);
    } else {
      UnlistGood(sh, id, pc.agent, pc.o, pc.key, pc.pair);
    }
  }

  lemma SpliceStepGood(sh: Shared, id: Id, pc: Pc, c: Choice)
    requires SharedInv(sh) && PcOk(sh, Splice(id), pc) && CanPair(sh, pc, c)
    ensures StepGood(sh, Splice(id), PairStep(sh, id, pc, c))
  {
    hide SharedInv, StepGood;
    var t, e := Splice(id), PairStep(sh, id, pc, c);
    if !c.Ok? {
      StayGood(sh, t, e.pc);
    } else if pc.pair.once.CloseFirst? {
      CloseGood(sh, id, t, e.pc);
    } else {
      CloseGood(sh, pc.tunnel, t, e.pc);
    }
  }

  // ---------- handleOpen and the environment ----------

  // A connection numbered next is new to every session.
  lemma NextIsNew(sh: Shared, id: Id)
    requires Numbered(sh) && id.n == sh.next
    ensures id !in sh.heap.objs && Unbound(sh, id) && id !in sh.port && id !in sh.hello
  {
  }

  // A step that changes neither sessions nor issued IDs nor messages.
  ghost predicate Quiet(a: Shared, b: Shared) {
    && b.sha == a.sha && b.heap == a.heap && b.issued == a.issued && b.sent == a.sent && a.next <= b.next
    && Registry.Extends(a.reg, b.reg)
    && (forall c :: c in a.port ==> c in b.port && b.port[c] == a.port[c])
    && (forall c :: c in a.wire ==> c in b.wire && b.wire[c] == a.wire[c])
    && (forall c :: c in a.hello ==> c in b.hello && b.hello[c] == a.hello[c])
  }

  lemma QuietGood(a: Shared, b: Shared, t: Tid)
    requires SharedInv(a) && Quiet(a, b)
    ensures Guarantee(a, b, t) && SharedInv(b)
  {
    HeapSame(a.heap, t);
    assert Guarantee(a, b, t);
    SharedKeeps(a, b, t);
  }

  lemma DialStepGood(sh: Shared, m: nat, pc: Pc, c: Choice)
    requires SharedInv(sh) && Numbered(sh) && PcOk(sh, Dial(m), pc) && IsDial(pc)
    ensures var e := DialStep(sh, m, pc, c); StepGood(sh, Dial(m), e) && Quiet(sh, e.sh)
  {
    hide SharedInv, Guarantee, Numbered, Registry.Extends;
    var e := DialStep(sh, m, pc, c);
    NextIsNew(sh, Tun(sh.next));
    Registry.ExtendsSelf(sh.reg);
    QuietGood(sh, e.sh, Dial(m));
  }

  lemma StepIsGood(sh: Shared, t: Tid, pc: Pc, c: Choice)
    requires SharedInv(sh) && Registry.BookInv(sh.reg.book) && Registry.ControlsOwned(sh.reg) && Numbered(sh)
    requires PcOk(sh, t, pc) && CanStep(sh, t, pc, c)
    requires pc.SInsert? ==> Unused(sh, c.key)
    ensures StepGood(sh, t, Step(sh, t, pc, c))
  {
    hide StepGood, SharedInv, PcOk, Numbered, Unused, CanSsh, CanTun, CanWatch, CanWait, CanPair, IsSsh, IsTun, IsWatch,
         IsWait, IsDial, SshStep, TunStep, WatchStep, WaitStep, PairStep, DialStep, Registry.BookInv,
         Registry.ControlsOwned;
    match t {
      case Main(id) => if id.Ssh? { SshStepGood(sh, id, pc, c); } else { TunStepGood(sh, id, pc, c); }
      case Watch(id) => WatchStepGood(sh, id, pc);
      case Wait(id) => WaitStepGood(sh, id, pc, c);
      case Fwd(_) => PairStepGood(sh, t, pc, c);
      case Splice(_) => PairStepGood(sh, t, pc, c);
      case Dial(m) => DialStepGood(sh, m, pc, c);
    }
  }

  // Only handleOpen numbers a connection, and only onSSHConn issues an ID.
  ghost predicate Accounted(sh: Shared, b: Shared, pc: Pc, c: Choice) {
    && b.reg == sh.reg && b.port == sh.port && sh.next <= b.next
    && (forall x :: x in b.hello ==> x in sh.hello || (x.n == sh.next && b.next == sh.next + 1))
    && (forall k :: k in b.issued && k !in sh.issued ==> pc.SInsert? && c == New(k))
  }

  lemma SendTouches(sh: Shared, id: Id, ref: AgentBook.Ref, key: string, c: Choice)
    ensures SendOpen(sh, id, ref, key, c) == sh.(sent := SendOpen(sh, id, ref, key, c).sent)
  {
  }

  lemma SshFrame(sh: Shared, id: Id, pc: Pc, c: Choice)
    requires IsSsh(pc) && CanSsh(sh, id, pc, c)
    ensures var b := SshStep(sh, id, pc, c).sh;
            && b == sh.(heap := b.heap, issued := b.issued, sent := b.sent)
            && b.issued == if pc.SInsert? then sh.issued[c.key := id] else sh.issued
  {
    if pc.SSend? { SendTouches(sh, id, pc.ref, pc.key, c); }
    hide KeysMatch, Cleanup, Insert, Close, MarkOpenSent, Handshake.IsUuid, SendOpen, SendOk, Control;
  }

  lemma TunFrame(sh: Shared, id: Id, pc: Pc, c: Choice)
    requires IsTun(pc) && CanTun(sh, id, pc, c)
    ensures var b := TunStep(sh, id, pc, c).sh; b == sh.(heap := b.heap, sent := b.sent)
  {
    if pc.TSend? { SendTouches(sh, id, pc.ref, pc.key, c); }
    hide KeysMatch, Cleanup, Insert, Close, MarkOpenSent, Bind, BindOutcome, Attach, ReadId, SendOpen, SendOk, Control;
  }

  lemma SshAccounted(sh: Shared, id: Id, pc: Pc, c: Choice)
    requires IsSsh(pc) && CanSsh(sh, id, pc, c)
    ensures Accounted(sh, SshStep(sh, id, pc, c).sh, pc, c)
  {
    assert pc.SInsert? ==> c.New?;
    hide SshStep;
    SshFrame(sh, id, pc, c);
  }

  lemma TunAccounted(sh: Shared, id: Id, pc: Pc, c: Choice)
    requires IsTun(pc) && CanTun(sh, id, pc, c)
    ensures Accounted(sh, TunStep(sh, id, pc, c).sh, pc, c)
  {
    hide TunStep, CanTun;
    TunFrame(sh, id, pc, c);
  }

  lemma PairTouchesHeap(sh: Shared, id: Id, pc: Pc, c: Choice)
    requires CanPair(sh, pc, c)
    ensures PairStep(sh, id, pc, c).sh == sh.(heap := PairStep(sh, id, pc, c).sh.heap)
  {
    hide KeysMatch, Cleanup, Close;
  }

  lemma PairAccounted(sh: Shared, id: Id, pc: Pc, c: Choice)
    requires CanPair(sh, pc, c)
    ensures Accounted(sh, PairStep(sh, id, pc, c).sh, pc, c)
  {
    PairTouchesHeap(sh, id, pc, c);
    hide PairStep, CanPair;
  }

  lemma OtherAccounted(sh: Shared, t: Tid, pc: Pc, c: Choice)
    requires CanStep(sh, t, pc, c) && (t.Watch? || t.Wait? || t.Dial?)
    ensures Accounted(sh, Step(sh, t, pc, c).sh, pc, c)
  {
    hide KeysMatch, Cleanup, Close, CanSsh, CanTun, CanPair, SshStep, TunStep, PairStep;
  }

  lemma StepAccounted(sh: Shared, t: Tid, pc: Pc, c: Choice)
    requires CanStep(sh, t, pc, c)
    ensures Accounted(sh, Step(sh, t, pc, c).sh, pc, c)
  {
    hide IsSsh, IsTun, CanSsh, CanTun, CanPair, SshStep, TunStep, PairStep, Accounted;
    if t.Main? {
      if t.id.Ssh? { SshAccounted(sh, t.id, pc, c); } else { TunAccounted(sh, t.id, pc, c); }
    } else if t.Fwd? || t.Splice? {
      PairAccounted(sh, t.id, pc, c);
    } else {
      OtherAccounted(sh, t, pc, c);
    }
  }

  lemma NumberedKeeps(a: Shared, b: Shared, t: Tid)
    requires Numbered(a) && Guarantee(a, b, t)
    requires t.Main? ==> t.id.n < a.next
    requires a.next <= b.next && b.port == a.port
    requires forall x :: x in b.hello ==> x in a.hello || (x.n == a.next && b.next == a.next + 1)
    ensures Numbered(b)
  {
  }

  lemma ThreadsKeep(s: State, t: Tid, e: Effect, th: map<Tid, Pc>, key: Option<string>)
    requires Inv(s) && t in s.th && StepGood(s.sh, t, e) && th == s.th[t := e.pc] + e.spawn
    requires forall k :: k in e.sh.issued && k !in s.sh.issued ==> key == Some(k)
    requires key.Some? ==> forall u :: u in s.th ==> Carries(s.th[u]) != key
    ensures forall u :: u in th ==> PcOk(e.sh, u, th[u])
  {
    assert IssuedOk(s.sh);
    hide Guarantee, PcOk, Carries, SharedInv, Registry.Inv, Numbered, IssuedOk;
    forall u | u in th ensures PcOk(e.sh, u, th[u]) {
      if u in e.spawn {
        assert th[u] == e.spawn[u];
      } else if u == t {
        assert th[u] == e.pc;
      } else {
        PcStable(s.sh, e.sh, t, u, s.th[u]);
      }
    }
  }

  lemma GoInv(s: State, t: Tid, c: Choice)
    requires Inv(s) && Enabled(s, Go(t, c))
    ensures Inv(Do(s, Go(t, c)))
    ensures Guarantee(s.sh, Do(s, Go(t, c)).sh, t)
  {
    var pc := s.th[t];
    var e := Step(s.sh, t, pc, c);
    GoStepGood(s, t, c);
    StepAccounted(s.sh, t, pc, c);
    assert t.Main? ==> t.id.n < s.sh.next;
    hide PcOk, SharedInv, Guarantee, Numbered, Step, CanStep, Unused, Registry.Inv, Carries;
    NumberedKeeps(s.sh, e.sh, t);
    ThreadsKeep(s, t, e, s.th[t := e.pc] + e.spawn, if pc.SInsert? && c.New? then Some(c.key) else None);
  }

  lemma GoStepGood(s: State, t: Tid, c: Choice)
    requires Inv(s) && Enabled(s, Go(t, c))
    ensures StepGood(s.sh, t, Step(s.sh, t, s.th[t], c))
  {
    assert s.th[t].SInsert? ==> c.New?;
    hide StepGood, Step;
    StepIsGood(s.sh, t, s.th[t], c);
  }

  lemma QuietThreads(s: State, b: Shared)
    requires Inv(s) && Quiet(s.sh, b)
    ensures forall u :: u in s.th ==> PcOk(b, u, s.th[u])
  {
    assert IssuedOk(s.sh);
    hide PcOk, SharedInv, Registry.Inv, Numbered;
    forall u | u in s.th ensures PcOk(b, u, s.th[u]) {
      var t := if u.Dial? then Main(Ssh(0)) else Dial(0);
      QuietGood(s.sh, b, t);
      PcStable(s.sh, b, t, u, s.th[u]);
    }
  }

  lemma RegQuiet(s: State, l: Label)
    requires Registry.Inv(s.sh.reg) && Enabled(s, l) && !l.Go?
    ensures Registry.Inv(Do(s, l).sh.reg) && Registry.Extends(s.sh.reg, Do(s, l).sh.reg)
  {
    hide Registry.Inv, Registry.Extends, Registry.Do;
    if l.RegStep? {
      Registry.StepInv(s.sh.reg, l.l);
    } else {
      Registry.ExtendsSelf(s.sh.reg);
    }
  }

  lemma EnvNumbered(s: State, l: Label)
    requires Numbered(s.sh) && Enabled(s, l) && !l.Go?
    ensures Numbered(Do(s, l).sh)
  {
    hide Registry.Do, Registry.Enabled, Step, CanStep;
  }

  lemma EnvQuiet(s: State, l: Label)
    requires Inv(s) && Enabled(s, l) && !l.Go?
    ensures Quiet(s.sh, Do(s, l).sh) && Registry.Inv(Do(s, l).sh.reg) && Numbered(Do(s, l).sh)
  {
    hide Registry.Inv, Registry.Extends, Registry.Do, Registry.Enabled, SharedInv, PcOk, Step, CanStep, Numbered, Fresh;
    assert Registry.Inv(s.sh.reg) && Numbered(s.sh);
    hide Inv;
    NextIsNew(s.sh, Ssh(s.sh.next));
    NextIsNew(s.sh, Tun(s.sh.next));
    EnvNumbered(s, l);
    RegQuiet(s, l);
  }

  // The thread that an event of the environment starts, if any, starts well.
  lemma EnvThread(s: State, l: Label, u: Tid)
    requires Inv(s) && Enabled(s, l) && !l.Go?
    requires u in Do(s, l).th && u !in s.th
    ensures PcOk(Do(s, l).sh, u, Do(s, l).th[u])
  {
    var sh := s.sh;
    NextIsNew(sh, Ssh(sh.next));
    NextIsNew(sh, Tun(sh.next));
    hide Registry.Inv, SharedInv;
  }

  // Numbers are not reused, so the environment starts no thread twice.
  lemma EnvThreads(s: State, l: Label, u: Tid)
    requires Inv(s) && Enabled(s, l) && !l.Go? && u in s.th
    ensures u in Do(s, l).th && Do(s, l).th[u] == s.th[u]
  {
    assert PcOk(s.sh, u, s.th[u]);
    hide Registry.Inv, SharedInv, SshPcOk, TunPcOk;
  }

  lemma EnvInv(s: State, l: Label)
    requires Inv(s) && Enabled(s, l) && !l.Go?
    ensures Inv(Do(s, l))
    ensures Quiet(s.sh, Do(s, l).sh)
  {
    var s' := Do(s, l);
    hide PcOk, SharedInv, Registry.Inv, Numbered, Quiet, Do, Enabled;
    EnvQuiet(s, l);
    QuietGood(s.sh, s'.sh, Dial(0));
    QuietThreads(s, s'.sh);
    forall u | u in s'.th ensures PcOk(s'.sh, u, s'.th[u]) {
      if u in s.th { EnvThreads(s, l, u); } else { EnvThread(s, l, u); }
    }
  }

  // ---------- Runs ----------

  lemma InitInv(s: State)
    requires Init(s)
    ensures Inv(s)
  {
    RegistryTheorems.ReachableInv(s.sh.reg);
    hide Registry.Reachable, Registry.Inv;
  }

  lemma StepInv(s: State, l: Label)
    requires Inv(s) && Enabled(s, l)
    ensures Inv(Do(s, l))
  {
    hide Inv, Do;
    if l.Go? { GoInv(s, l.t, l.c); } else { EnvInv(s, l); }
  }

  // Every state of every run satisfies the invariant.
  lemma {:induction false} TraceInv(ss: seq<State>, ls: seq<Label>, i: nat)
    requires Trace(ss, ls) && i < |ss|
    ensures Inv(ss[i])
  {
    hide Inv, Enabled, Do, Init;
    if i == 0 {
      InitInv(ss[0]);
    } else {
      TraceInv(ss, ls, i - 1);
      assert Enabled(ss[i - 1], ls[i - 1]);
      StepInv(ss[i - 1], ls[i - 1]);
    }
  }
}
