/**
 The hub together with real agents. Tunnel requests that name an ID the hub generated come only from an
 agent's handleOpen, answering an OPEN message read from that agent's own control connection; every other
 client uses IDs the hub has not generated. Under that restriction no tunnel is ever refused for its
 agent or its handshake, startForwarding always has an SSH connection, and nothing is left behind.
*/
module ComposedSystem {
  import opened Options
  import opened PendingHeap
  import opened Protocol
  import opened ProtocolInvariant
  import opened ProtocolOwnership
  import opened SessionTheorems
  import AgentBook
  import Handshake
  import Registry

  ghost predicate FromAgents(s: State, l: Label) {
    l.Arrive? ==> l.hdr !in s.sh.issued
  }

  ghost predicate ComposedTrace(ss: seq<State>, ls: seq<Label>) {
    Trace(ss, ls) && forall i {:trigger ls[i]} :: 0 <= i < |ls| ==> FromAgents(ss[i], ls[i])
  }

  // ---------- The invariant ----------

  // A request made by handleOpen answers one message: with its ID, in its agent's name, and with the
  // frame built from that ID.
  ghost predicate HelloGood(sh: Shared, id: Id)
    requires id in sh.hello
  {
    var hello := sh.hello[id];
    hello.dial.Some? ==>
      var m := hello.dial.value;
      && id.Tun? && m < |sh.sent| && hello.hdr == sh.sent[m].key && hello.hdr != ""
      && sh.sent[m].ws in sh.reg.owner && hello.agent == sh.reg.owner[sh.sent[m].ws]
      && (id in sh.wire ==> sh.wire[id] == Wire(true, Handshake.Frame(sh.sha, hello.hdr)))
  }

  // Tunnel request id answers the OPEN message that session o sent.
  ghost predicate Answers(sh: Shared, id: Id, o: Id) {
    && id in sh.hello && sh.hello[id].dial.Some? && sh.hello[id].dial.value < |sh.sent|
    && sh.sent[sh.hello[id].dial.value].sender == o
  }

  // An entry session that reuses an issued ID serves the same agent, and exists only because the request
  // that answered the SSH-initiated session's own OPEN came too late and made an entry session itself.
  ghost predicate EntryGood(sh: Shared, x: Id)
    requires x in sh.heap.objs
  {
    sh.heap.objs[x].key in sh.issued ==>
      var o := sh.issued[sh.heap.objs[x].key];
      && o in sh.heap.objs && sh.heap.objs[x].agent == sh.heap.objs[o].agent
      && exists id :: id in sh.heap.objs && Answers(sh, id, o)
  }

  ghost predicate OneOpenEach(sh: Shared) {
    forall m1, m2 :: 0 <= m1 < |sh.sent| && 0 <= m2 < |sh.sent| && sh.sent[m1].sender == sh.sent[m2].sender ==> m1 == m2
  }

  ghost predicate OneAnswerEach(sh: Shared) {
    forall c1, c2 ::
      c1 in sh.hello && c2 in sh.hello && sh.hello[c1].dial.Some? && sh.hello[c1].dial == sh.hello[c2].dial ==> c1 == c2
  }

  ghost predicate SharedGood(sh: Shared) {
    && (forall id :: id in sh.hello ==> HelloGood(sh, id))
    && (forall x :: x in sh.heap.objs && x.Tun? ==> EntryGood(sh, x))
    && OneOpenEach(sh)
    && OneAnswerEach(sh)
    && (forall c :: c in sh.wire ==> c in sh.hello)
  }

  ghost predicate Unsent(sh: Shared, id: Id) {
    forall m :: 0 <= m < |sh.sent| ==> sh.sent[m].sender != id
  }

  ghost predicate Unanswered(sh: Shared, m: nat) {
    forall c :: c in sh.hello ==> sh.hello[c].dial != Some(m)
  }

  // Request id, if it names an issued ID, was made by handleOpen with that ID.
  ghost predicate Dialed(sh: Shared, id: Id, key: string) {
    key in sh.issued ==> id in sh.hello && sh.hello[id].dial.Some? && sh.hello[id].hdr == key
  }

  ghost predicate MainGood(sh: Shared, id: Id, pc: Pc) {
    && (pc.SSend? || pc.TSend? ==> Unsent(sh, id))
    && (pc.TAgent? || pc.TAccept? || pc.TRead? ==>
          id in sh.hello && sh.hello[id].hdr == pc.hdr && Dialed(sh, id, pc.hdr))
    && (pc.TLookup? || pc.TCreate? ==> Dialed(sh, id, pc.key))
    && (pc.TBind? ==> Dialed(sh, id, pc.key) && pc.key in sh.issued && Answers(sh, id, sh.issued[pc.key]))
    && (pc.TVerify? ==> pc.o.Ssh? && pc.o in sh.heap.objs && sh.heap.objs[pc.o].agent == pc.agent)
    && !pc.TMismatch?
  }

  ghost predicate DialGood(sh: Shared, m: nat, pc: Pc) {
    && m < |sh.sent|
    && (pc.ADial? ==>
          && sh.sent[m].ws in sh.reg.owner && pc.agent == sh.reg.owner[sh.sent[m].ws] && pc.key == sh.sent[m].key
          && pc.key != "" && Unanswered(sh, m))
    && (pc.AShake? ==>
          pc.tunnel in sh.hello && sh.hello[pc.tunnel].dial == Some(m) && sh.hello[pc.tunnel].hdr == pc.key)
  }

  ghost predicate PcGood(sh: Shared, t: Tid, pc: Pc) {
    match t
    case Main(id) => MainGood(sh, id, pc)
    case Dial(m) => DialGood(sh, m, pc)
    case Fwd(_) => pc.FPair? && pc.o.Ssh?
    case _ => true
  }

  ghost predicate Good(s: State) {
    && SharedGood(s.sh)
    && (forall t :: t in s.th ==> PcGood(s.sh, t, s.th[t]))
    && (forall c :: c in s.sh.hello && s.sh.hello[c].dial.Some? ==> Dial(s.sh.hello[c].dial.value) in s.th)
  }

  // ---------- What a step of thread t may add ----------

  ghost predicate Adds(a: Shared, b: Shared, t: Tid) {
    && (forall c :: c in b.hello && c !in a.hello ==> b.hello[c].dial.None? || t == Dial(b.hello[c].dial.value))
    && (forall m :: |a.sent| <= m < |b.sent| ==> t == Main(b.sent[m].sender))
  }

  lemma DialedStable(a: Shared, b: Shared, t: Tid, id: Id, key: string)
    requires Guarantee(a, b, t) && Dialed(a, id, key) && !NewlyIssued(a, b, key)
    ensures Dialed(b, id, key)
  {
  }

  lemma AnswersStable(a: Shared, b: Shared, t: Tid, id: Id, o: Id)
    requires Guarantee(a, b, t) && Answers(a, id, o)
    ensures Answers(b, id, o)
  {
  }

  lemma UnsentStable(a: Shared, b: Shared, t: Tid, id: Id)
    requires Guarantee(a, b, t) && Adds(a, b, t) && t != Main(id) && Unsent(a, id)
    ensures Unsent(b, id)
  {
    hide HeapGuarantee, Registry.Extends;
  }

  lemma MainKeeps(a: Shared, b: Shared, t: Tid, id: Id, pc: Pc)
    requires Guarantee(a, b, t)
    ensures id in a.hello ==> id in b.hello && b.hello[id] == a.hello[id]
    ensures pc.TBind? && pc.key in a.issued ==> pc.key in b.issued && b.issued[pc.key] == a.issued[pc.key]
    ensures pc.TVerify? && pc.o in a.heap.objs ==>
              pc.o in b.heap.objs && b.heap.objs[pc.o].agent == a.heap.objs[pc.o].agent
  {
  }

  lemma MainGoodStable(a: Shared, b: Shared, t: Tid, id: Id, pc: Pc)
    requires Guarantee(a, b, t) && Adds(a, b, t) && t != Main(id)
    requires Carries(pc).Some? ==> !NewlyIssued(a, b, Carries(pc).value)
    requires MainGood(a, id, pc)
    ensures MainGood(b, id, pc)
  {
    hide Dialed, Answers;
    if pc.TAgent? || pc.TAccept? || pc.TRead? { DialedStable(a, b, t, id, pc.hdr); }
    if pc.TLookup? || pc.TCreate? || pc.TBind? { DialedStable(a, b, t, id, pc.key); }
    if pc.TBind? { AnswersStable(a, b, t, id, a.issued[pc.key]); }
    if pc.SSend? || pc.TSend? { UnsentStable(a, b, t, id); }
    MainKeeps(a, b, t, id, pc);
    hide Guarantee, Adds, Unsent;
  }

  lemma DialGoodStable(a: Shared, b: Shared, t: Tid, m: nat, pc: Pc)
    requires Guarantee(a, b, t) && Adds(a, b, t) && t != Dial(m)
    requires DialGood(a, m, pc)
    ensures DialGood(b, m, pc)
  {
  }

  lemma PcGoodStable(a: Shared, b: Shared, t: Tid, u: Tid, pc: Pc)
    requires Guarantee(a, b, t) && Adds(a, b, t) && t != u
    requires Carries(pc).Some? ==> !NewlyIssued(a, b, Carries(pc).value)
    requires PcGood(a, u, pc)
    ensures PcGood(b, u, pc)
  {
    hide Guarantee, Adds, MainGood, DialGood, Carries;
    match u {
      case Main(id) => MainGoodStable(a, b, t, id, pc);
      case Dial(m) => DialGoodStable(a, b, t, m, pc);
      case _ =>
    }
  }

  lemma EntryGoodStable(a: Shared, b: Shared, t: Tid, x: Id)
    requires Guarantee(a, b, t) && IssuedOk(a) && x in a.heap.objs && EntryGood(a, x)
    ensures x in b.heap.objs && EntryGood(b, x)
  {
    var key := a.heap.objs[x].key;
    if key in b.issued {
      assert key in a.issued;
      var o := a.issued[key];
      var id :| id in a.heap.objs && Answers(a, id, o);
      AnswersStable(a, b, t, id, o);
    }
  }

  // ---------- What a dial-back is about ----------

  // The OPEN message a dial-back answers came from a session with its ID and its agent.
  lemma DialedMessage(sh: Shared, id: Id, key: string)
    requires SharedInv(sh) && SharedGood(sh) && Dialed(sh, id, key) && key in sh.issued
    ensures HelloGood(sh, id) && sh.hello[id].dial.Some?
    ensures var x := sh.sent[sh.hello[id].dial.value].sender;
            x in sh.heap.objs && sh.heap.objs[x].key == key && sh.heap.objs[x].agent == sh.hello[id].agent
            && (x.Ssh? ==> x == sh.issued[key])
  {
    assert HelloGood(sh, id);
    var m := sh.hello[id].dial.value;
    assert MsgOk(sh, sh.sent[m]);
    if sh.sent[m].sender.Ssh? { IssuedTo(sh, sh.sent[m].sender); }
  }

  // While the SSH-initiated session is live, the only OPEN with its ID is its own.
  lemma LiveAnswers(sh: Shared, id: Id, key: string)
    requires SharedInv(sh) && SharedGood(sh) && Dialed(sh, id, key)
    requires key in sh.heap.pending && sh.heap.pending[key].Ssh?
    ensures key in sh.issued && Answers(sh, id, sh.issued[key])
  {
    var o := sh.heap.pending[key];
    IssuedTo(sh, o);
    IsListed(sh, o);
    DialedMessage(sh, id, key);
    var x := sh.sent[sh.hello[id].dial.value].sender;
    assert x.Tun? ==> Gone(sh, sh.heap.objs[x].key);
  }

  // A dial-back that answers the SSH-initiated session's own OPEN, and made no entry session, is proof that
  // no entry session reuses the ID.
  lemma NoEntryYet(sh: Shared, id: Id, key: string, x: Id)
    requires SharedGood(sh) && key in sh.issued && Answers(sh, id, sh.issued[key]) && id !in sh.heap.objs
    requires x in sh.heap.objs && sh.heap.objs[x].key == key
    ensures x.Ssh?
  {
    var o := sh.issued[key];
    assert x.Tun? ==> EntryGood(sh, x);
    hide SharedGood, Answers;
    forall id0 | id0 in sh.heap.objs ensures !Answers(sh, id0, o) {
      OnlyAnswer(sh, id, id0, o);
    }
  }

  lemma OnlyAnswer(sh: Shared, id: Id, id0: Id, o: Id)
    requires SharedGood(sh) && Answers(sh, id, o)
    ensures Answers(sh, id0, o) ==> id0 == id
  {
  }

  // The request that creates an entry session under an issued ID is itself such an answer, or repeats one.
  lemma LateEntryGood(sh: Shared, b: Shared, id: Id, key: string, agent: string)
    requires SharedInv(sh) && SharedGood(sh) && Dialed(sh, id, key) && HelloOk(sh, id, agent)
    requires id.Tun? && id !in sh.heap.objs
    requires b == sh.(heap := Insert(sh.heap, id, key, agent))
    ensures EntryGood(b, id)
  {
    if key in sh.issued {
      DialedMessage(sh, id, key);
      var o, x := sh.issued[key], sh.sent[sh.hello[id].dial.value].sender;
      if x.Ssh? {
        assert Answers(b, id, o);
      } else {
        assert EntryGood(sh, x);
        var id0 :| id0 in sh.heap.objs && Answers(sh, id0, o);
        assert Answers(b, id0, o);
      }
    }
  }

  // ---------- One step of one thread ----------

  // A step that changes only sessions and issued IDs.
  lemma SharedGoodKeeps(a: Shared, b: Shared, t: Tid)
    requires SharedGood(a) && Guarantee(a, b, t) && IssuedOk(a)
    requires b.hello == a.hello && b.sent == a.sent && b.wire == a.wire
    requires forall x :: x in b.heap.objs && x !in a.heap.objs && x.Tun? ==> EntryGood(b, x)
    ensures SharedGood(b) && Adds(a, b, t)
  {
    forall x | x in b.heap.objs && x.Tun? ensures EntryGood(b, x) {
      if x in a.heap.objs { EntryGoodStable(a, b, t, x); }
    }
    forall id | id in b.hello ensures HelloGood(b, id) {
      assert HelloGood(a, id);
    }
  }

  lemma SendKeeps(a: Shared, b: Shared, id: Id, m: Msg)
    requires SharedGood(a) && Guarantee(a, b, Main(id)) && IssuedOk(a) && Unsent(a, id)
    requires b == a.(sent := a.sent + [m]) && m.sender == id
    ensures SharedGood(b) && Adds(a, b, Main(id))
  {
    forall x | x in b.heap.objs && x.Tun? ensures EntryGood(b, x) {
      EntryGoodStable(a, b, Main(id), x);
    }
    forall c | c in b.hello ensures HelloGood(b, c) {
      assert HelloGood(a, c);
    }
  }

  lemma SendOpenKeeps(sh: Shared, id: Id, ref: AgentBook.Ref, key: string, c: Choice)
    requires SharedGood(sh) && IssuedOk(sh) && Unsent(sh, id)
    ensures SharedGood(SendOpen(sh, id, ref, key, c)) && Adds(sh, SendOpen(sh, id, ref, key, c), Main(id))
  {
    SendGuaranteed(sh, id, ref, key, c, Main(id));
    var b := SendOpen(sh, id, ref, key, c);
    if b != sh {
      SendKeeps(sh, b, id, Msg(key, Control(sh, ref).value, id));
    }
  }

  // A session that does not exist has sent nothing.
  lemma NewUnsent(sh: Shared, id: Id)
    requires SharedInv(sh) && id !in sh.heap.objs
    ensures Unsent(sh, id)
  {
    forall m | 0 <= m < |sh.sent| ensures sh.sent[m].sender != id {
      assert MsgOk(sh, sh.sent[m]);
    }
  }

  // What a step of onSSHConn or handleTunnelWS leaves untouched.
  lemma SshTouches(sh: Shared, id: Id, pc: Pc, c: Choice)
    requires IsSsh(pc) && CanSsh(sh, id, pc, c) && !pc.SSend?
    ensures var b := SshStep(sh, id, pc, c).sh;
            && b.hello == sh.hello && b.sent == sh.sent && b.wire == sh.wire
            && forall x :: x in b.heap.objs && x !in sh.heap.objs ==> x == id
  {
    if pc.SFail? { UnpendKeeps(sh, pc.key, CLOSED); }
    hide KeysMatch, Cleanup, Handshake.IsUuid;
  }

  lemma SshMainGood(sh: Shared, id: Id, pc: Pc, c: Choice)
    requires SharedInv(sh) && id.Ssh? && PcOk(sh, Main(id), pc) && MainGood(sh, id, pc)
    requires IsSsh(pc) && CanSsh(sh, id, pc, c)
    ensures var e := SshStep(sh, id, pc, c); MainGood(e.sh, id, e.pc)
  {
    hide SharedInv, PcOk, CanSsh, SshStep;
    InsertsNew(sh, id, pc);
    if pc.SInsert? { NewUnsent(sh, id); }
    SshMoves(sh, id, pc, c);
  }

  // Where onSSHConn goes, and that only the send point sends.
  lemma SshMoves(sh: Shared, id: Id, pc: Pc, c: Choice)
    requires IsSsh(pc) && CanSsh(sh, id, pc, c)
    ensures var e := SshStep(sh, id, pc, c);
            && (IsSsh(e.pc) || e.pc.Done?)
            && (e.pc.SSend? ==> pc.SInsert? && e.sh.sent == sh.sent)
  {
    hide KeysMatch, Cleanup, Handshake.IsUuid;
  }

  lemma SshGood(sh: Shared, id: Id, pc: Pc, c: Choice)
    requires SharedInv(sh) && SharedGood(sh) && id.Ssh? && PcOk(sh, Main(id), pc) && MainGood(sh, id, pc)
    requires IsSsh(pc) && CanSsh(sh, id, pc, c)
    requires Guarantee(sh, SshStep(sh, id, pc, c).sh, Main(id))
    ensures var e := SshStep(sh, id, pc, c); SharedGood(e.sh) && Adds(sh, e.sh, Main(id)) && MainGood(e.sh, id, e.pc)
  {
    assert IssuedOk(sh);
    hide Guarantee, SharedGood, SharedInv, Adds, CanSsh, PcOk;
    SshMainGood(sh, id, pc, c);
    if pc.SSend? {
      SendOpenKeeps(sh, id, pc.ref, pc.key, c);
    } else {
      SshTouches(sh, id, pc, c);
      hide SshStep;
      SharedGoodKeeps(sh, SshStep(sh, id, pc, c).sh, Main(id));
    }
  }

  lemma IssuedAreUuids(sh: Shared, key: string)
    requires SharedInv(sh)
    ensures key in sh.issued ==> Handshake.IsUuid(key)
  {
    assert key in sh.issued ==> SshOk(sh, sh.issued[key]);
  }

  lemma TunReads(sh: Shared, id: Id, pc: Pc, c: Choice)
    requires SharedInv(sh) && SharedGood(sh) && id.Tun? && PcOk(sh, Main(id), pc) && MainGood(sh, id, pc)
    requires (pc.TAgent? || pc.TAccept? || pc.TRead?) && CanTun(sh, id, pc, c)
    ensures MainGood(TunStep(sh, id, pc, c).sh, id, TunStep(sh, id, pc, c).pc)
  {
    var e := TunStep(sh, id, pc, c);
    if e.pc.TLookup? && pc.hdr == "" {
      Handshake.HeaderlessId(sh.sha, sh.wire[id].data[Handshake.MAGIC_SIZE..]);
      IssuedAreUuids(sh, e.pc.key);
    }
    hide SharedInv, SharedGood;
  }

  lemma TunLooksUp(sh: Shared, id: Id, pc: Pc, c: Choice)
    requires SharedInv(sh) && SharedGood(sh) && id.Tun? && PcOk(sh, Main(id), pc) && MainGood(sh, id, pc)
    requires pc.TLookup? && CanTun(sh, id, pc, c)
    ensures MainGood(sh, id, TunStep(sh, id, pc, c).pc)
  {
    if TunStep(sh, id, pc, c).pc.TBind? { LiveAnswers(sh, id, pc.key); }
  }

  // A dial-back binds only an SSH-initiated session, and one of its own agent.
  lemma TunBinds(sh: Shared, id: Id, pc: Pc, o: Id)
    requires SharedInv(sh) && SharedGood(sh) && id.Tun? && PcOk(sh, Main(id), pc) && MainGood(sh, id, pc) && pc.TBind?
    requires BindOutcome(sh.heap, pc.key) == Success(o)
    ensures o.Ssh? && o in sh.heap.objs && sh.heap.objs[o].agent == pc.agent
  {
    NoEntryYet(sh, id, pc.key, o);
    IssuedTo(sh, o);
    DialedMessage(sh, id, pc.key);
  }

  lemma TunVerifies(sh: Shared, id: Id, pc: Pc, c: Choice)
    requires id.Tun? && MainGood(sh, id, pc) && pc.TVerify? && CanTun(sh, id, pc, c)
    ensures var e := TunStep(sh, id, pc, c);
            e.pc.Done? && e.sh == sh && forall u :: u in e.spawn ==> u.Fwd? && e.spawn[u].FPair? && e.spawn[u].o.Ssh?
  {
  }

  lemma TunBindsGood(sh: Shared, id: Id, pc: Pc, c: Choice)
    requires SharedInv(sh) && SharedGood(sh) && id.Tun? && PcOk(sh, Main(id), pc) && MainGood(sh, id, pc)
    requires pc.TBind? && CanTun(sh, id, pc, c)
    ensures MainGood(TunStep(sh, id, pc, c).sh, id, TunStep(sh, id, pc, c).pc)
  {
    hide SharedInv, SharedGood, PcOk;
    var out := BindOutcome(sh.heap, pc.key);
    if out.Success? { TunBinds(sh, id, pc, out.value); }
    BindKeeps(sh.heap, pc.key, id);
    hide BindOutcome, KeysMatch;
  }

  lemma TunMainGood(sh: Shared, id: Id, pc: Pc, c: Choice)
    requires SharedInv(sh) && SharedGood(sh) && id.Tun? && PcOk(sh, Main(id), pc) && MainGood(sh, id, pc)
    requires IsTun(pc) && CanTun(sh, id, pc, c)
    ensures var e := TunStep(sh, id, pc, c); MainGood(e.sh, id, e.pc)
  {
    hide SharedInv, SharedGood;
    if pc.TAgent? || pc.TAccept? || pc.TRead? {
      TunReads(sh, id, pc, c);
    } else if pc.TLookup? {
      TunLooksUp(sh, id, pc, c);
    } else if pc.TBind? {
      TunBindsGood(sh, id, pc, c);
    } else if pc.TVerify? {
      TunVerifies(sh, id, pc, c);
    } else if pc.TCreate? {
      NewUnsent(sh, id);
    }
    hide PcOk, KeysMatch, Cleanup, Bind, BindOutcome, ReadId;
  }

  lemma TunSpawnsGood(sh: Shared, id: Id, pc: Pc, c: Choice)
    requires id.Tun? && MainGood(sh, id, pc) && IsTun(pc) && CanTun(sh, id, pc, c)
    ensures var e := TunStep(sh, id, pc, c); forall u :: u in e.spawn ==> PcGood(e.sh, u, e.spawn[u])
  {
    if pc.TVerify? { TunVerifies(sh, id, pc, c); }
  }

  lemma TunTouches(sh: Shared, id: Id, pc: Pc, c: Choice)
    requires IsTun(pc) && CanTun(sh, id, pc, c) && !pc.TSend?
    ensures var b := TunStep(sh, id, pc, c).sh;
            && b.hello == sh.hello && b.sent == sh.sent && b.wire == sh.wire
            && forall x :: x in b.heap.objs && x !in sh.heap.objs ==> x == id && pc.TCreate?
  {
    if pc.TFail? { UnpendKeeps(sh, pc.key, CLOSED); }
    if pc.TBind? { BindKeeps(sh.heap, pc.key, id); }
    TunFrame(sh, id, pc, c);
    hide KeysMatch, Cleanup, Bind, BindOutcome, ReadId, SendOpen, SendOk, Control;
  }

  lemma BindKeeps(h: Heap, key: string, w: Id)
    requires KeysMatch(h)
    ensures forall x :: x in Bind(h, key, w).objs ==> x in h.objs
    ensures forall o :: BindOutcome(h, key) == Success(o) ==> o in h.objs
  {
  }

  lemma TunSharedGood(sh: Shared, id: Id, pc: Pc, c: Choice)
    requires SharedInv(sh) && SharedGood(sh) && id.Tun? && PcOk(sh, Main(id), pc) && MainGood(sh, id, pc)
    requires IsTun(pc) && CanTun(sh, id, pc, c)
    requires Guarantee(sh, TunStep(sh, id, pc, c).sh, Main(id))
    ensures var e := TunStep(sh, id, pc, c); SharedGood(e.sh) && Adds(sh, e.sh, Main(id))
  {
    var e := TunStep(sh, id, pc, c);
    assert IssuedOk(sh);
    if pc.TCreate? { LateEntryGood(sh, e.sh, id, pc.key, pc.agent); }
    hide Guarantee, SharedGood, SharedInv, Adds, CanTun, PcOk, EntryGood;
    if pc.TSend? {
      SendOpenKeeps(sh, id, pc.ref, pc.key, c);
    } else {
      TunTouches(sh, id, pc, c);
      SharedGoodKeeps(sh, e.sh, Main(id));
    }
  }

  // ---------- The other threads ----------

  // A step that leaves requests, messages and frames alone and creates no session.
  ghost predicate Leaves(a: Shared, b: Shared) {
    b.hello == a.hello && b.sent == a.sent && b.wire == a.wire && forall x :: x in b.heap.objs ==> x in a.heap.objs
  }

  lemma UnpendKeeps(sh: Shared, key: string, phase: Phase)
    requires KeysMatch(sh.heap)
    ensures forall x :: x in Unpend(sh, key, phase).heap.objs ==> x in sh.heap.objs
  {
  }

  lemma PairLeaves(sh: Shared, id: Id, pc: Pc, c: Choice)
    requires CanPair(sh, pc, c)
    ensures Leaves(sh, PairStep(sh, id, pc, c).sh)
  {
    PairTouchesHeap(sh, id, pc, c);
    if pc.FPair? { UnpendKeeps(sh, pc.key, CLOSED); }
    hide KeysMatch, Cleanup;
  }

  lemma WatchLeaves(sh: Shared, pc: Pc)
    requires IsWatch(pc) && CanWatch(sh, pc)
    ensures Leaves(sh, WatchStep(sh, pc).sh)
  {
  }

  lemma WaitLeaves(sh: Shared, id: Id, pc: Pc, c: Choice)
    requires IsWait(pc) && CanWait(sh, pc)
    ensures Leaves(sh, WaitStep(sh, id, pc, c).sh)
    ensures forall u :: u in WaitStep(sh, id, pc, c).spawn ==> u.Splice?
  {
  }

  lemma OthersGood(sh: Shared, t: Tid, pc: Pc, c: Choice)
    requires SharedInv(sh) && SharedGood(sh) && PcGood(sh, t, pc) && CanStep(sh, t, pc, c) && !t.Main? && !t.Dial?
    requires Guarantee(sh, Step(sh, t, pc, c).sh, t)
    ensures var e := Step(sh, t, pc, c); SharedGood(e.sh) && Adds(sh, e.sh, t) && PcGood(e.sh, t, e.pc)
    ensures var e := Step(sh, t, pc, c); forall u :: u in e.spawn ==> PcGood(e.sh, u, e.spawn[u])
  {
    var e := Step(sh, t, pc, c);
    assert IssuedOk(sh);
    StepShape(sh, t, pc, c);
    hide SharedInv, SharedGood, Guarantee, Adds, CanPair, CanWatch, CanWait, PairStep, WatchStep, WaitStep, IsWatch,
         IsWait;
    match t {
      case Watch(_) => WatchLeaves(sh, pc);
      case Wait(id) => WaitLeaves(sh, id, pc, c);
      case Fwd(id) => PairLeaves(sh, id, pc, c);
      case Splice(id) => PairLeaves(sh, id, pc, c);
    }
    SharedGoodKeeps(sh, e.sh, t);
  }

  lemma DialsGood(sh: Shared, m: nat, pc: Pc, c: Choice)
    requires SharedInv(sh) && SharedGood(sh) && Numbered(sh) && DialGood(sh, m, pc) && IsDial(pc)
    requires Guarantee(sh, DialStep(sh, m, pc, c).sh, Dial(m))
    ensures var e := DialStep(sh, m, pc, c); SharedGood(e.sh) && Adds(sh, e.sh, Dial(m)) && DialGood(e.sh, m, e.pc)
    ensures var e := DialStep(sh, m, pc, c); forall u :: u in e.spawn ==> PcGood(e.sh, u, e.spawn[u])
  {
    assert IssuedOk(sh);
    hide Guarantee, SharedInv;
    if pc.ADial? && c.Ok? {
      DialAnswers(sh, m, pc);
    } else if pc.AShake? && c.Ok? && pc.tunnel !in sh.wire {
      ShakeGood(sh, m, pc);
    } else {
      hide SharedGood;
    }
  }

  // The request handleOpen makes answers its message, as the first one to do so.
  lemma DialAnswers(sh: Shared, m: nat, pc: Pc)
    requires SharedGood(sh) && IssuedOk(sh) && Numbered(sh) && DialGood(sh, m, pc) && pc.ADial?
    requires Guarantee(sh, DialStep(sh, m, pc, Ok).sh, Dial(m))
    ensures var e := DialStep(sh, m, pc, Ok);
            && SharedGood(e.sh) && Adds(sh, e.sh, Dial(m)) && DialGood(e.sh, m, e.pc)
            && forall u :: u in e.spawn ==> PcGood(e.sh, u, e.spawn[u])
  {
    hide Guarantee, EntryGood, Numbered, HelloGood;
    var b := DialStep(sh, m, pc, Ok).sh;
    NextIsNew(sh, Tun(sh.next));
    EntriesStay(sh, b, Dial(m));
    HellosStayGood(sh, m, pc);
  }

  lemma HellosStayGood(sh: Shared, m: nat, pc: Pc)
    requires SharedGood(sh) && Numbered(sh) && DialGood(sh, m, pc) && pc.ADial?
    ensures var b := DialStep(sh, m, pc, Ok).sh; forall x :: x in b.hello ==> HelloGood(b, x)
  {
    hide Numbered, EntryGood;
    var b, id := DialStep(sh, m, pc, Ok).sh, Tun(sh.next);
    NextIsNew(sh, id);
    forall x | x in b.hello ensures HelloGood(b, x) {
      if x != id { assert HelloGood(sh, x); }
    }
  }

  // It then writes the frame built from the same ID.
  lemma ShakeGood(sh: Shared, m: nat, pc: Pc)
    requires SharedGood(sh) && IssuedOk(sh) && DialGood(sh, m, pc) && pc.AShake? && pc.tunnel !in sh.wire
    requires Guarantee(sh, DialStep(sh, m, pc, Ok).sh, Dial(m))
    ensures var e := DialStep(sh, m, pc, Ok);
            SharedGood(e.sh) && Adds(sh, e.sh, Dial(m)) && DialGood(e.sh, m, e.pc) && e.spawn == map[]
  {
    hide Guarantee, EntryGood;
    var b := DialStep(sh, m, pc, Ok).sh;
    EntriesStay(sh, b, Dial(m));
    forall x | x in b.hello ensures HelloGood(b, x) {
      assert HelloGood(sh, x);
    }
  }

  lemma EntriesStay(a: Shared, b: Shared, t: Tid)
    requires SharedGood(a) && IssuedOk(a) && Guarantee(a, b, t) && b.heap == a.heap
    ensures forall x :: x in b.heap.objs && x.Tun? ==> EntryGood(b, x)
  {
    hide Guarantee, EntryGood;
    forall x | x in b.heap.objs && x.Tun? ensures EntryGood(b, x) {
      EntryGoodStable(a, b, t, x);
    }
  }

  ghost predicate EffectGood(sh: Shared, t: Tid, e: Effect) {
    && SharedGood(e.sh) && Adds(sh, e.sh, t) && PcGood(e.sh, t, e.pc)
    && forall u :: u in e.spawn ==> PcGood(e.sh, u, e.spawn[u])
  }

  lemma StepIsGoodToo(sh: Shared, t: Tid, pc: Pc, c: Choice)
    requires SharedInv(sh) && SharedGood(sh) && Numbered(sh) && PcOk(sh, t, pc) && PcGood(sh, t, pc)
             && CanStep(sh, t, pc, c)
    requires Guarantee(sh, Step(sh, t, pc, c).sh, t)
    ensures EffectGood(sh, t, Step(sh, t, pc, c))
  {
    hide SharedInv, SharedGood, Guarantee, Adds, CanSsh, CanTun, IsSsh, IsTun, SshStep, TunStep, DialStep, IsDial,
         MainGood, DialGood, PcOk, Numbered;
    if t.Main? && t.id.Ssh? {
      SshGood(sh, t.id, pc, c);
      SshSpawnsGood(sh, t.id, pc, c);
    } else if t.Main? {
      TunMainGood(sh, t.id, pc, c);
      TunSharedGood(sh, t.id, pc, c);
      TunSpawnsGood(sh, t.id, pc, c);
    } else if t.Dial? {
      DialsGood(sh, t.msg, pc, c);
    } else {
      OthersGood(sh, t, pc, c);
    }
  }

  lemma SshSpawnsGood(sh: Shared, id: Id, pc: Pc, c: Choice)
    requires IsSsh(pc) && CanSsh(sh, id, pc, c)
    ensures var e := SshStep(sh, id, pc, c); forall u :: u in e.spawn ==> PcGood(e.sh, u, e.spawn[u])
  {
  }

  lemma GoodGo(s: State, t: Tid, c: Choice)
    requires Inv(s) && Good(s) && Enabled(s, Go(t, c))
    ensures Good(Do(s, Go(t, c)))
  {
    hide PcGood, SharedGood, Adds, Accounted, CanStep, Step, Fresh;
    var pc := s.th[t];
    var e, s' := Step(s.sh, t, pc, c), Do(s, Go(t, c));
    GoInv(s, t, c);
    StepAccounted(s.sh, t, pc, c);
    StepIsGoodToo(s.sh, t, pc, c);
    hide Inv, Guarantee;
    GoodThreads(s, t, c, e, s'.th);
    GoodDials(s, t, c, e);
  }

  lemma GoodThreads(s: State, t: Tid, c: Choice, e: Effect, th: Threads)
    requires th == s.th[t := e.pc] + e.spawn
    requires Good(s) && t in s.th && EffectGood(s.sh, t, e)
    requires Guarantee(s.sh, e.sh, t) && Accounted(s.sh, e.sh, s.th[t], c)
    requires c.New? ==> Fresh(s, c.key)
    ensures forall u :: u in th ==> PcGood(e.sh, u, th[u])
  {
    hide Guarantee, PcGood, SharedGood, Adds, Carries;
    forall u | u in s.th && u != t && u !in e.spawn ensures PcGood(e.sh, u, s.th[u]) {
      PcGoodStable(s.sh, e.sh, t, u, s.th[u]);
    }
  }

  lemma GoodDials(s: State, t: Tid, c: Choice, e: Effect)
    requires Good(s) && t in s.th && Guarantee(s.sh, e.sh, t) && Adds(s.sh, e.sh, t)
    ensures forall x :: x in e.sh.hello && e.sh.hello[x].dial.Some? ==>
              Dial(e.sh.hello[x].dial.value) in s.th[t := e.pc] + e.spawn
  {
  }

  lemma QuietGoodToo(a: Shared, b: Shared)
    requires SharedGood(a) && Quiet(a, b) && IssuedOk(a)
    requires forall x :: x in b.hello && x !in a.hello ==> b.hello[x].dial.None?
    requires forall x :: x in b.wire && x !in a.wire ==> x in b.hello && b.hello[x].dial.None?
    ensures SharedGood(b)
  {
    forall x | x in b.heap.objs && x.Tun? ensures EntryGood(b, x) {
      assert EntryGood(a, x);
      if b.heap.objs[x].key in b.issued {
        var o := b.issued[b.heap.objs[x].key];
        var id :| id in a.heap.objs && Answers(a, id, o);
        assert Answers(b, id, o);
      }
    }
    forall id | id in b.hello ensures HelloGood(b, id) {
      if id in a.hello { assert HelloGood(a, id); }
    }
  }

  lemma EnvAdds(s: State, l: Label)
    requires Inv(s) && Good(s) && Enabled(s, l) && !l.Go?
    ensures var b := Do(s, l).sh;
            && (forall x :: x in b.hello && x !in s.sh.hello ==> b.hello[x].dial.None?)
            && (forall x :: x in b.wire && x !in s.sh.wire ==> x in b.hello && b.hello[x].dial.None?)
            && (forall x :: x in s.sh.hello ==> x in b.hello && b.hello[x] == s.sh.hello[x])
  {
    NextIsNew(s.sh, Ssh(s.sh.next));
    NextIsNew(s.sh, Tun(s.sh.next));
    hide Inv, Good;
  }

  lemma EnvThreadGood(s: State, l: Label, u: Tid)
    requires Inv(s) && Good(s) && Enabled(s, l) && !l.Go? && FromAgents(s, l)
    requires u in Do(s, l).th && u !in s.th
    ensures PcGood(Do(s, l).sh, u, Do(s, l).th[u])
  {
    hide Inv, SharedGood, Registry.Enabled, Registry.Do, Fresh, CanStep, Step;
    if l.Accept? {
      AcceptStarts(s, l, u);
    } else if l.Arrive? {
      ArriveStarts(s, l, u);
    } else {
      ReceiveStarts(s, l, u);
    }
  }

  lemma AcceptStarts(s: State, l: Label, u: Tid)
    requires Enabled(s, l) && l.Accept? && u in Do(s, l).th && u !in s.th
    ensures PcGood(Do(s, l).sh, u, Do(s, l).th[u])
  {
    hide Registry.Enabled, Registry.Do, Fresh, CanStep, Step;
  }

  lemma ArriveStarts(s: State, l: Label, u: Tid)
    requires Enabled(s, l) && l.Arrive? && FromAgents(s, l) && u in Do(s, l).th && u !in s.th
    ensures PcGood(Do(s, l).sh, u, Do(s, l).th[u])
  {
    hide Registry.Enabled, Registry.Do, Fresh, CanStep, Step;
  }

  lemma ReceiveStarts(s: State, l: Label, u: Tid)
    requires Good(s) && Enabled(s, l) && !l.Go? && !l.Accept? && !l.Arrive? && u in Do(s, l).th && u !in s.th
    ensures PcGood(Do(s, l).sh, u, Do(s, l).th[u])
  {
    hide SharedGood, Registry.Enabled, Registry.Do, Fresh, CanStep, Step;
    if l.Receive? {
      assert forall c :: c in s.sh.hello ==> s.sh.hello[c].dial != Some(l.m);
    }
  }

  lemma GoodEnv(s: State, l: Label)
    requires Inv(s) && Good(s) && Enabled(s, l) && !l.Go? && FromAgents(s, l)
    ensures Good(Do(s, l))
  {
    var s' := Do(s, l);
    EnvInv(s, l);
    EnvAdds(s, l);
    assert SharedInv(s.sh) && IssuedOk(s.sh);
    QuietGoodToo(s.sh, s'.sh);
    forall u | u in s'.th ensures PcGood(s'.sh, u, s'.th[u]) {
      if u in s.th {
        EnvThreads(s, l, u);
        GoodUnderEnv(s, l, u);
      } else {
        EnvThreadGood(s, l, u);
      }
    }
    forall x | x in s'.sh.hello && s'.sh.hello[x].dial.Some? ensures Dial(s'.sh.hello[x].dial.value) in s'.th {
      EnvThreads(s, l, Dial(s'.sh.hello[x].dial.value));
    }
  }

  lemma GoodUnderEnv(s: State, l: Label, u: Tid)
    requires Inv(s) && Good(s) && Enabled(s, l) && !l.Go? && u in s.th
    ensures PcGood(Do(s, l).sh, u, s.th[u])
  {
    hide PcGood, SharedGood, SharedInv, Registry.Inv, Numbered, PcOk, Guarantee;
    var b := Do(s, l).sh;
    var t := if u.Dial? then Main(Ssh(0)) else Dial(0);
    EnvInv(s, l);
    EnvAdds(s, l);
    QuietGood(s.sh, b, t);
    assert Quiet(s.sh, b);
    hide Do, Enabled;
    PcGoodStable(s.sh, b, t, u, s.th[u]);
  }

  lemma InitGood(s: State)
    requires Init(s)
    ensures Good(s)
  {
  }

  lemma {:induction false} ComposedGood(ss: seq<State>, ls: seq<Label>, i: nat)
    requires ComposedTrace(ss, ls) && i < |ss|
    ensures Good(ss[i])
  {
    hide Inv, Good, Enabled, Do, Init, FromAgents;
    if i == 0 {
      InitGood(ss[0]);
    } else {
      var s, l := ss[i - 1], ls[i - 1];
      ComposedGood(ss, ls, i - 1);
      TraceInv(ss, ls, i - 1);
      assert Enabled(s, l) && FromAgents(s, l) && ss[i] == Do(s, l);
      if l.Go? { GoodGo(s, l.t, l.c); } else { GoodEnv(s, l); }
    }
  }

  // ---------- Main results ----------

  // No tunnel handler of a real agent ever finds that a session belongs to another agent.
  lemma MismatchUnreachable(ss: seq<State>, ls: seq<Label>, i: nat, t: Tid)
    requires ComposedTrace(ss, ls) && i < |ss| && t in ss[i].th
    ensures !ss[i].th[t].TMismatch?
  {
    ComposedGood(ss, ls, i);
    TraceInv(ss, ls, i);
    assert PcGood(ss[i].sh, t, ss[i].th[t]) && PcOk(ss[i].sh, t, ss[i].th[t]);
  }

  // The first frame of a dial-back always validates, and yields the ID of the OPEN it answers.
  lemma DialBackValidates(ss: seq<State>, ls: seq<Label>, i: nat, id: Id)
    requires ComposedTrace(ss, ls) && i < |ss|
    requires Main(id) in ss[i].th && ss[i].th[Main(id)].TRead? && id in ss[i].sh.wire
    requires id in ss[i].sh.hello && ss[i].sh.hello[id].dial.Some?
    ensures var sh, m := ss[i].sh, ss[i].sh.hello[id].dial.value;
            m < |sh.sent| && ReadId(sh.sha, ss[i].th[Main(id)].hdr, sh.wire[id]) == Some(sh.sent[m].key)
  {
    ComposedGood(ss, ls, i);
    assert HelloGood(ss[i].sh, id);
    assert PcGood(ss[i].sh, Main(id), ss[i].th[Main(id)]);
  }

  // A successful bindTunnel is always of an SSH-initiated session, by a tunnel of that session's own agent.
  lemma BindsOwnAgent(ss: seq<State>, ls: seq<Label>, i: nat, o: Id, w: Id)
    requires ComposedTrace(ss, ls) && i < |ls| && Binds(ss[i], ls[i], o, w)
    ensures o.Ssh? && o in ss[i].sh.heap.objs && ss[i].sh.heap.objs[o].agent == ss[i].th[Main(w)].agent
  {
    ComposedGood(ss, ls, i);
    TraceInv(ss, ls, i);
    var s := ss[i];
    assert Enabled(s, ls[i]);
    assert PcOk(s.sh, Main(w), s.th[Main(w)]) && PcGood(s.sh, Main(w), s.th[Main(w)]);
    assert w.Tun?;
    TunBinds(s.sh, w, s.th[Main(w)], o);
  }

  // startForwarding is only ever called on a session that has an SSHConn.
  lemma ForwardingHasSshConn(ss: seq<State>, ls: seq<Label>, i: nat, w: Id)
    requires ComposedTrace(ss, ls) && i < |ss| && Fwd(w) in ss[i].th
    ensures ss[i].th[Fwd(w)].FPair? && ss[i].th[Fwd(w)].o.Ssh?
  {
    ComposedGood(ss, ls, i);
    assert PcGood(ss[i].sh, Fwd(w), ss[i].th[Fwd(w)]);
  }

  // Every OPEN that carries an ID the hub issued goes to a control connection of that session's agent,
  // whoever sends it: onSSHConn, or the handler of a dial-back that came too late and made an entry session.
  lemma OpensByIdGoHome(ss: seq<State>, ls: seq<Label>, i: nat, m: nat)
    requires ComposedTrace(ss, ls) && i < |ss| && m < |ss[i].sh.sent| && ss[i].sh.sent[m].key in ss[i].sh.issued
    ensures var sh, msg := ss[i].sh, ss[i].sh.sent[m];
            && sh.issued[msg.key] in sh.heap.objs && msg.ws in sh.reg.owner
            && sh.reg.owner[msg.ws] == sh.heap.objs[sh.issued[msg.key]].agent
  {
    hide Trace;
    ComposedGood(ss, ls, i);
    TraceInv(ss, ls, i);
    HomeByMessage(ss[i].sh, m);
    hide Inv, Good;
  }

  lemma HomeByMessage(sh: Shared, m: nat)
    requires SharedInv(sh) && SharedGood(sh) && m < |sh.sent| && sh.sent[m].key in sh.issued
    ensures var msg := sh.sent[m];
            && sh.issued[msg.key] in sh.heap.objs && msg.ws in sh.reg.owner
            && sh.reg.owner[msg.ws] == sh.heap.objs[sh.issued[msg.key]].agent
  {
    assert MsgOk(sh, sh.sent[m]);
    var x := sh.sent[m].sender;
    assert IssuedOk(sh);
    if x.Ssh? { IssuedTo(sh, x); } else { assert EntryGood(sh, x); }
    hide SharedInv, SharedGood;
  }

  // Every listed SSH-initiated session has an owner that has not finished.
  lemma ListedIsOwned(ss: seq<State>, ls: seq<Label>, i: nat, o: Id)
    requires ComposedTrace(ss, ls) && i < |ss| && o in ss[i].sh.heap.objs && o.Ssh? && InPending(ss[i].sh.heap, o)
    ensures var s, p := ss[i], ss[i].sh.heap.objs[o];
            || (p.phase.INIT? && OwnedInit(s.th, o))
            || (p.phase.OPEN_SENT? && OwnedOpen(s.th, o))
            || (p.phase.BOUND? && p.tunnel.Some? && OwnedBound(s.th, o, p.tunnel.value))
  {
    hide Inv, SpawnInv, OwnerInv, OwnedInit, OwnedOpen, OwnedBound;
    TraceOwned(ss, ls, i);
    IsListedIn(ss[i], o);
    var s, p := ss[i], ss[i].sh.heap.objs[o];
    assert OwnedOk(s, o);
    if p.phase.BOUND? {
      var w := p.tunnel.value;
      if Main(w) in s.th { MismatchUnreachable(ss, ls, i, Main(w)); }
    }
  }

  // At rest the hub lists no SSH-initiated session, and every SSH connection it accepted and every tunnel it
  // bound to one is closed.
  lemma NothingLeftBehind(ss: seq<State>, ls: seq<Label>, i: nat)
    requires ComposedTrace(ss, ls) && i < |ss| && Quiescent(ss[i])
    ensures forall k :: k in ss[i].sh.heap.pending ==> ss[i].sh.heap.pending[k].Tun?
    ensures forall c :: c in ss[i].sh.port ==> c in ss[i].sh.heap.closed
    ensures forall o :: o in ss[i].sh.heap.objs && o.Ssh? ==> Owned(ss[i].sh.heap, o) <= ss[i].sh.heap.closed
  {
    var s := ss[i];
    forall o | o in s.sh.heap.objs && o.Ssh?
      ensures !InPending(s.sh.heap, o) && Owned(s.sh.heap, o) <= s.sh.heap.closed
    {
      ListedAtRest(ss, ls, i, o);
      if BoundByStranger(s, o) { MismatchUnreachable(ss, ls, i, Main(s.sh.heap.objs[o].tunnel.value)); }
    }
    forall c | c in s.sh.port ensures c in s.sh.heap.closed {
      ClosedAtRest(ss, ls, i, c);
      if BoundByStranger(s, c) { MismatchUnreachable(ss, ls, i, Main(s.sh.heap.objs[c].tunnel.value)); }
    }
    TraceInv(ss, ls, i);
  }
}
