/**
 What the hub decides about a /tunnel request, as facts about the run: which session ID its first frame gives,
 whether it joins a listed session or creates one, and why a bind is refused.
*/
module Requests {
  import opened Options
  import opened PendingHeap
  import opened Protocol
  import opened ProtocolInvariant
  import opened ProtocolOwnership
  import opened SessionTheorems
  import opened SessionCleanups
  import opened TunnelHistory
  import opened ThreadHistory
  import Handshake
  import Registry

  // ---------- The agent's name ----------

  // The request's X-Agent header names a registered agent.
  ghost predicate NamesAgent(s: State, l: Label, w: Id) {
    && StepOf(l, Main(w)) && Main(w) in s.th && s.th[Main(w)].TAgent?
    && s.th[Main(w)].agent != "" && s.th[Main(w)].agent in s.sh.reg.book.agents
  }

  lemma AgentGoes(sh: Shared, w: Id, pc: Pc, c: Choice)
    requires CanStep(sh, Main(w), pc, c)
    ensures var e := Step(sh, Main(w), pc, c).pc;
            && (e.TAccept? <==> pc.TAgent? && pc.agent != "" && pc.agent in sh.reg.book.agents)
            && (e.TAccept? ==> e.agent == pc.agent && e.hdr == pc.hdr && e.ref == sh.reg.book.agents[pc.agent])
            && (pc.TAgent? && !e.TAccept? ==> e.Done?)
  {
    hide KeysMatch, Cleanup, Bind, BindOutcome, ReadId, SendOpen, SendOk, Control;
  }

  // A request is about to be upgraded only if it named a registered agent, whose AgentState it then holds; any other
  // is refused before the upgrade.
  lemma UpgradedWhenNamed(ss: seq<State>, ls: seq<Label>, i: nat, w: Id)
    requires Trace(ss, ls) && i <= |ls| < |ss| && Main(w) in ss[i].th && ss[i].th[Main(w)].TAccept?
    ensures exists k :: 0 <= k < i && NamesAgent(ss[k], ls[k], w)
                        && ss[k].sh.reg.book.agents[ss[k].th[Main(w)].agent] == ss[i].th[Main(w)].ref
                        && ss[k].th[Main(w)].agent == ss[i].th[Main(w)].agent
  {
    hide Trace, Inv, SpawnInv, PutBy, CanStep, Step, Fresh;
    var k := OwnStep(ss, ls, i, Main(w));
    GoNext(ss[k], ls[k], Main(w));
    AgentGoes(ss[k].sh, w, ss[k].th[Main(w)], ls[k].c);
    hide Enabled, Do;
    assert NamesAgent(ss[k], ls[k], w);
  }

  lemma RefusedWhenNot(ss: seq<State>, ls: seq<Label>, j: nat, w: Id)
    requires Trace(ss, ls) && j < |ls| < |ss| && StepOf(ls[j], Main(w)) && Main(w) in ss[j].th
    requires ss[j].th[Main(w)].TAgent?
    ensures Main(w) in ss[j + 1].th
    ensures ss[j + 1].th[Main(w)].TAccept? <==> NamesAgent(ss[j], ls[j], w)
    ensures ss[j + 1].th[Main(w)].Done? <==> !NamesAgent(ss[j], ls[j], w)
  {
    assert Enabled(ss[j], ls[j]) && ss[j + 1] == Do(ss[j], ls[j]);
    hide Trace, Enabled, Do, CanStep, Step;
    GoNext(ss[j], ls[j], Main(w));
    AgentGoes(ss[j].sh, w, ss[j].th[Main(w)], ls[j].c);
  }

  // ---------- The first frame ----------

  // Without an X-Session header any binary frame of the right size gives an ID, the hex text of the bytes after
  // the magic, which it names; with one, exactly the frame built from that header gives it.
  lemma ReadIdIff(sha: Handshake.Hash, hdr: string, f: Wire)
    ensures hdr == "" ==> (ReadId(sha, hdr, f).Some? <==> f.binary && |f.data| == Handshake.FRAME_SIZE)
    ensures hdr == "" && ReadId(sha, hdr, f).Some? ==>
              var k := ReadId(sha, hdr, f).value;
              && Handshake.SessionBytes(sha, k) == f.data[Handshake.MAGIC_SIZE..]
              && k == Handshake.EncodeHex(Handshake.SessionBytes(sha, k))
    ensures hdr != "" ==> (ReadId(sha, hdr, f).Some? <==> f.binary && f.data == Handshake.Frame(sha, hdr))
    ensures hdr != "" && ReadId(sha, hdr, f).Some? ==> ReadId(sha, hdr, f).value == hdr
  {
    if f.binary && |f.data| == Handshake.FRAME_SIZE {
      Handshake.HeaderlessId(sha, f.data[Handshake.MAGIC_SIZE..]);
    }
    hide Handshake.Frame, Handshake.SessionBytes;
  }

  // ---------- Which session is listed ----------

  // Step m entered session o under key, and no later step before j cleaned key up or entered another one.
  ghost predicate ListedAs(ss: seq<State>, ls: seq<Label>, m: nat, j: nat, key: string, o: Id)
    requires j <= |ls| < |ss|
  {
    && m < j && Inserts(ss[m], ls[m], key) && ls[m].t == Main(o)
    && forall n {:trigger ls[n]} :: m < n < j ==> !Cleans(ss[n], ls[n], key) && !Inserts(ss[n], ls[n], key)
  }

  lemma InsertsOwn(s: State, l: Label, key: string)
    requires Enabled(s, l) && Inserts(s, l, key)
    ensures l.Go? && l.t.Main? && key in Do(s, l).sh.heap.pending && Do(s, l).sh.heap.pending[key] == l.t.id
  {
    hide CanStep, Step, Registry.Enabled, Registry.Do, Fresh;
    GoNext(s, l, l.t);
    InsertsAtMain(s.sh, l.t, s.th[l.t], l.c, key);
    StepPending(s.sh, l.t, s.th[l.t], l.c);
  }

  lemma InsertsAtMain(sh: Shared, t: Tid, pc: Pc, c: Choice, key: string)
    requires CanStep(sh, t, pc, c) && InsertsNow(pc, c, key)
    ensures t.Main?
  {
    hide CanSsh, CanTun, KeysMatch;
  }

  // The session listed under an ID is the one entered last, if nothing has cleaned that ID up since.
  lemma {:induction false} ListedAsIff(ss: seq<State>, ls: seq<Label>, j: nat, key: string, o: Id)
    requires Trace(ss, ls) && j <= |ls| < |ss|
    ensures key in ss[j].sh.heap.pending && ss[j].sh.heap.pending[key] == o
            <==> exists m :: ListedAs(ss, ls, m, j, key, o)
  {
    hide Enabled, Do, Cleans, Inserts;
    if j > 0 {
      var n := j - 1;
      ListedAsIff(ss, ls, n, key, o);
      assert Enabled(ss[n], ls[n]) && ss[j] == Do(ss[n], ls[n]);
      StepEntry(ss[n], ls[n], key);
      NotBoth(ss[n], ls[n], key);
      if Inserts(ss[n], ls[n], key) {
        InsertsOwn(ss[n], ls[n], key);
        if ls[n].t.id == o { assert ListedAs(ss, ls, n, j, key, o); }
      } else if key in ss[j].sh.heap.pending && ss[j].sh.heap.pending[key] == o {
        var m :| ListedAs(ss, ls, m, n, key, o);
        assert ListedAs(ss, ls, m, j, key, o);
      }
      forall m | ListedAs(ss, ls, m, j, key, o) && m != n
        ensures ListedAs(ss, ls, m, n, key, o) && !Cleans(ss[n], ls[n], key) && !Inserts(ss[n], ls[n], key)
      {
        assert ls[n] == ls[n];
      }
    }
  }

  // ---------- Join or create ----------

  lemma LookupGoes(sh: Shared, w: Id, pc: Pc, c: Choice)
    requires CanStep(sh, Main(w), pc, c) && pc.TLookup?
    ensures var next := Step(sh, Main(w), pc, c).pc;
            && (next.TCreate? <==> pc.key !in sh.heap.pending)
            && (next.TEntry? <==> pc.key in sh.heap.pending && sh.heap.pending[pc.key].Tun?)
            && (next.TEntry? ==> next.o == sh.heap.pending[pc.key])
            && (next.TBind? <==> pc.key in sh.heap.pending && sh.heap.pending[pc.key].Ssh?)
            && (next.TBind? || next.TCreate? ==> next.key == pc.key && next.agent == pc.agent)
            && Step(sh, Main(w), pc, c).sh == sh
  {
    hide KeysMatch;
  }

  // A request joins the session entered last under its ID, as an entry session's tunnel or by bindTunnel, if
  // nothing has cleaned that ID up since; otherwise it is an entry client's, and creates one.
  lemma JoinsOrCreates(ss: seq<State>, ls: seq<Label>, j: nat, w: Id)
    requires Trace(ss, ls) && j < |ls| < |ss| && StepOf(ls[j], Main(w)) && Main(w) in ss[j].th
    requires ss[j].th[Main(w)].TLookup?
    ensures Main(w) in ss[j + 1].th
    ensures var key, next := ss[j].th[Main(w)].key, ss[j + 1].th[Main(w)];
            && (next.TCreate? <==> !exists m, o :: ListedAs(ss, ls, m, j, key, o))
            && (next.TEntry? <==> exists m, o :: ListedAs(ss, ls, m, j, key, o) && o.Tun?)
            && (next.TEntry? ==> exists m :: ListedAs(ss, ls, m, j, key, next.o))
            && (next.TBind? <==> exists m, o :: ListedAs(ss, ls, m, j, key, o) && o.Ssh?)
  {
    assert Enabled(ss[j], ls[j]) && ss[j + 1] == Do(ss[j], ls[j]);
    hide Trace, Enabled, Do, CanStep, Step, ListedAs;
    GoNext(ss[j], ls[j], Main(w));
    LookupGoes(ss[j].sh, w, ss[j].th[Main(w)], ls[j].c);
    ListedMeans(ss, ls, j, ss[j].th[Main(w)].key);
  }

  lemma ListedMeans(ss: seq<State>, ls: seq<Label>, j: nat, key: string)
    requires Trace(ss, ls) && j <= |ls| < |ss|
    ensures var p := ss[j].sh.heap.pending;
            && (key in p <==> exists m, o :: ListedAs(ss, ls, m, j, key, o))
            && (key in p ==> exists m :: ListedAs(ss, ls, m, j, key, p[key]))
            && (forall m, o :: ListedAs(ss, ls, m, j, key, o) ==> key in p && p[key] == o)
  {
    hide Trace, ListedAs;
    var p := ss[j].sh.heap.pending;
    if key in p { ListedAsIff(ss, ls, j, key, p[key]); }
    forall m, o | ListedAs(ss, ls, m, j, key, o) ensures key in p && p[key] == o {
      ListedAsIff(ss, ls, j, key, o);
    }
  }

  // ---------- Why a bind is refused ----------

  // Some earlier step gave session o a tunnel.
  ghost predicate WasGiven(ss: seq<State>, ls: seq<Label>, j: nat, o: Id)
    requires j <= |ls| < |ss|
  {
    exists k, v :: 0 <= k < j && Gives(ss[k], ls[k], o, v)
  }

  lemma OutcomeIs(h: Heap, key: string)
    requires KeysMatch(h)
    ensures BindOutcome(h, key) == Failure(SessionNotFound) <==> key !in h.pending
    ensures BindOutcome(h, key) == Failure(DuplicateTunnel)
            <==> key in h.pending
                 && (h.objs[h.pending[key]].phase != OPEN_SENT || h.objs[h.pending[key]].tunnel.Some?)
    ensures BindOutcome(h, key).Success? ==> key in h.pending && BindOutcome(h, key).value == h.pending[key]
  {
  }

  // A bind is refused as "session not found" if and only if no session entered under its ID is uncleaned.
  lemma NotFoundIff(ss: seq<State>, ls: seq<Label>, j: nat, key: string)
    requires Trace(ss, ls) && j <= |ls| < |ss| && KeysMatch(ss[j].sh.heap)
    ensures BindOutcome(ss[j].sh.heap, key) == Failure(SessionNotFound)
            <==> !exists m, o :: ListedAs(ss, ls, m, j, key, o)
  {
    hide Trace, ListedAs, KeysMatch, BindOutcome;
    OutcomeIs(ss[j].sh.heap, key);
    ListedMeans(ss, ls, j, key);
  }

  // A bind of the session listed is refused as "duplicate tunnel" if and only if it has no OPEN_SENT state or
  // has been given a tunnel before.
  lemma DuplicateIff(ss: seq<State>, ls: seq<Label>, m: nat, j: nat, key: string, o: Id)
    requires Trace(ss, ls) && j <= |ls| < |ss| && KeysMatch(ss[j].sh.heap) && ListedAs(ss, ls, m, j, key, o)
    ensures o in ss[j].sh.heap.objs
    ensures BindOutcome(ss[j].sh.heap, key) == Failure(DuplicateTunnel)
            <==> ss[j].sh.heap.objs[o].phase != OPEN_SENT || WasGiven(ss, ls, j, o)
  {
    hide Trace, ListedAs, BindOutcome, Gives, WasGiven;
    OutcomeIs(ss[j].sh.heap, key);
    ListedMeans(ss, ls, j, key);
    GivenIff(ss, ls, j, o);
  }

  // A session has a tunnel exactly if it was given one.
  lemma GivenIff(ss: seq<State>, ls: seq<Label>, j: nat, o: Id)
    requires Trace(ss, ls) && j <= |ls| < |ss| && o in ss[j].sh.heap.objs
    ensures ss[j].sh.heap.objs[o].tunnel.Some? <==> WasGiven(ss, ls, j, o)
  {
    hide Trace, Gives;
    if ss[j].sh.heap.objs[o].tunnel.Some? {
      TunnelWasGiven(ss, ls, j, o, ss[j].sh.heap.objs[o].tunnel.value);
    }
    forall k, v | 0 <= k < j && Gives(ss[k], ls[k], o, v) ensures ss[j].sh.heap.objs[o].tunnel.Some? {
      GivenStays(ss, ls, k, j, o, v);
    }
  }

  lemma GivenStays(ss: seq<State>, ls: seq<Label>, k: nat, j: nat, o: Id, v: Id)
    requires Trace(ss, ls) && k < j <= |ls| < |ss| && Gives(ss[k], ls[k], o, v)
    ensures o in ss[j].sh.heap.objs && ss[j].sh.heap.objs[o].tunnel.Some?
  {
    hide Inv, Do, Init, Gives;
    TraceInv(ss, ls, k);
    assert Enabled(ss[k], ls[k]) && ss[k + 1] == Do(ss[k], ls[k]);
    hide Trace, Enabled;
    GiverIsTunnel(ss[k], ls[k], o, v);
    GivesSets(ss[k], ls[k], o, v);
    LaterRun(ss, ls, k + 1, j);
  }

  lemma GiverIsTunnel(s: State, l: Label, o: Id, w: Id)
    requires Inv(s) && Gives(s, l, o, w)
    ensures w.Tun?
  {
    ThreadOk(s, Main(w));
    hide Inv;
  }

  // For an SSH-initiated session that is so exactly if OPEN has not been marked as sent, or some earlier request
  // has bound it.
  lemma SshDuplicateIff(ss: seq<State>, ls: seq<Label>, m: nat, j: nat, key: string, o: Id)
    requires Trace(ss, ls) && j <= |ls| < |ss| && KeysMatch(ss[j].sh.heap) && ListedAs(ss, ls, m, j, key, o) && o.Ssh?
    ensures o in ss[j].sh.heap.objs
    ensures BindOutcome(ss[j].sh.heap, key) == Failure(DuplicateTunnel)
            <==> ss[j].sh.heap.objs[o].phase == INIT || exists k, v :: 0 <= k < j && Binds(ss[k], ls[k], o, v)
  {
    hide Trace, ListedAs, BindOutcome, Gives, WasGiven, Binds, Inv;
    DuplicateIff(ss, ls, m, j, key, o);
    ListedMeans(ss, ls, j, key);
    TraceInv(ss, ls, j);
    ListedSsh(ss[j], key, o);
    GivenIff(ss, ls, j, o);
    BoundIffGiven(ss, ls, j, o);
  }

  lemma ListedSsh(s: State, key: string, o: Id)
    requires Inv(s) && o in s.sh.heap.objs && o.Ssh? && key in s.sh.heap.pending && s.sh.heap.pending[key] == o
    ensures var p := s.sh.heap.objs[o];
            Live(p.phase) && (p.phase.BOUND? <==> p.tunnel.Some?)
  {
    IsListedIn(s, o);
    ListedKeyIs(s, key);
  }

  lemma ListedKeyIs(s: State, key: string)
    requires Inv(s) && key in s.sh.heap.pending
    ensures InPending(s.sh.heap, s.sh.heap.pending[key])
  {
  }

  lemma BoundIffGiven(ss: seq<State>, ls: seq<Label>, j: nat, o: Id)
    requires Trace(ss, ls) && j <= |ls| < |ss| && o.Ssh?
    ensures WasGiven(ss, ls, j, o) <==> exists k, v :: 0 <= k < j && Binds(ss[k], ls[k], o, v)
  {
    forall k, v | 0 <= k < j ensures Gives(ss[k], ls[k], o, v) <==> Binds(ss[k], ls[k], o, v) {
      TraceInv(ss, ls, k);
      hide Inv, Trace;
      if Gives(ss[k], ls[k], o, v) { SshGivenByBind(ss[k], ls[k], o, v); }
    }
    hide Trace, Gives, Binds;
  }

  lemma SshGivenByBind(s: State, l: Label, o: Id, w: Id)
    requires Inv(s) && Gives(s, l, o, w) && o.Ssh?
    ensures Binds(s, l, o, w)
  {
    ThreadOk(s, Main(w));
    hide Inv;
  }
}
