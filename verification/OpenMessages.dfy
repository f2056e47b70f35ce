/**
 The OPEN messages of a run: the handler of a session writes at most one, with the session's ID, on the control
 connection its agent has at that moment, and marks the session OPEN_SENT only after it.
*/
module OpenMessages {
  import opened Options
  import opened PendingHeap
  import opened Protocol
  import opened ProtocolInvariant
  import opened ProtocolOwnership
  import opened SessionTheorems
  import opened SessionStates
  import opened ThreadHistory
  import Registry

  // The handler of o sends OPEN, and the message goes out, whether or not an error is reported.
  ghost predicate WritesOpen(s: State, l: Label, o: Id) {
    && StepOf(l, Main(o)) && Main(o) in s.th && (s.th[Main(o)].SSend? || s.th[Main(o)].TSend?)
    && !l.c.Fail? && Control(s.sh, s.th[Main(o)].ref).Some?
  }

  // The message it writes.
  ghost function OpenOf(s: State, o: Id): Msg
    requires Main(o) in s.th && (s.th[Main(o)].SSend? || s.th[Main(o)].TSend?)
    requires Control(s.sh, s.th[Main(o)].ref).Some?
  {
    Msg(s.th[Main(o)].key, Control(s.sh, s.th[Main(o)].ref).value, o)
  }

  lemma MainSends(sh: Shared, id: Id, pc: Pc, c: Choice)
    requires CanStep(sh, Main(id), pc, c)
    ensures var e := Step(sh, Main(id), pc, c);
            e.sh.sent == sh.sent + if (pc.SSend? || pc.TSend?) && !c.Fail? && Control(sh, pc.ref).Some?
                                   then [Msg(pc.key, Control(sh, pc.ref).value, id)] else []
    ensures var e := Step(sh, Main(id), pc, c);
            (e.pc.SMark? || e.pc.TMark? ==> (pc.SSend? || pc.TSend?) && c.Ok? && Control(sh, pc.ref).Some?)
  {
    hide KeysMatch, Cleanup, Bind, BindOutcome, ReadId, Control;
  }

  lemma OtherSends(sh: Shared, t: Tid, pc: Pc, c: Choice)
    requires CanStep(sh, t, pc, c) && !t.Main?
    ensures Step(sh, t, pc, c).sh.sent == sh.sent
  {
    hide KeysMatch, Cleanup, CanSsh, CanTun, SshStep, TunStep;
  }

  lemma StepSends(s: State, l: Label)
    requires Enabled(s, l)
    ensures forall o :: WritesOpen(s, l, o) ==> Do(s, l).sh.sent == s.sh.sent + [OpenOf(s, o)]
    ensures (forall o :: !WritesOpen(s, l, o)) ==> Do(s, l).sh.sent == s.sh.sent
    ensures s.sh.sent <= Do(s, l).sh.sent
    ensures |s.sh.sent| < |Do(s, l).sh.sent| ==> exists o :: WritesOpen(s, l, o)
  {
    hide CanStep, Step, Registry.Enabled, Registry.Do, Fresh;
    if l.Go? {
      GoNext(s, l, l.t);
      if l.t.Main? {
        MainSends(s.sh, l.t.id, s.th[l.t], l.c);
        var pc := s.th[l.t];
        if (pc.SSend? || pc.TSend?) && !l.c.Fail? && Control(s.sh, pc.ref).Some? { assert WritesOpen(s, l, l.t.id); }
      } else {
        OtherSends(s.sh, l.t, s.th[l.t], l.c);
      }
    }
  }

  // Message m was written by step k.
  ghost predicate WrittenAt(ss: seq<State>, ls: seq<Label>, k: nat, m: nat, msg: Msg)
    requires k < |ls| < |ss|
  {
    WritesOpen(ss[k], ls[k], msg.sender) && |ss[k].sh.sent| == m && msg == OpenOf(ss[k], msg.sender)
  }

  // Every message was written in some step, by the handler it names and with what that handler had.
  lemma {:induction false} WasWritten(ss: seq<State>, ls: seq<Label>, i: nat, m: nat)
    requires Trace(ss, ls) && i <= |ls| < |ss| && m < |ss[i].sh.sent|
    ensures exists k :: 0 <= k < i && WrittenAt(ss, ls, k, m, ss[i].sh.sent[m])
  {
    hide Enabled, Do, WritesOpen;
    if i > 0 {
      var j := i - 1;
      assert Enabled(ss[j], ls[j]) && ss[i] == Do(ss[j], ls[j]);
      StepSends(ss[j], ls[j]);
      if m < |ss[j].sh.sent| {
        WasWritten(ss, ls, j, m);
        assert ss[i].sh.sent[m] == ss[j].sh.sent[m];
      } else {
        var o :| WritesOpen(ss[j], ls[j], o);
        SenderIs(ss[j], ls[j], o);
        assert WrittenAt(ss, ls, j, m, ss[i].sh.sent[m]);
      }
    }
  }

  lemma SenderIs(s: State, l: Label, o: Id)
    requires WritesOpen(s, l, o)
    ensures Main(o) in s.th && (s.th[Main(o)].SSend? || s.th[Main(o)].TSend?)
    ensures Control(s.sh, s.th[Main(o)].ref).Some?
    ensures OpenOf(s, o).sender == o && OpenOf(s, o).key == s.th[Main(o)].key
  {
  }

  lemma {:induction false} SentGrows(ss: seq<State>, ls: seq<Label>, i: nat, j: nat)
    requires Trace(ss, ls) && i <= j <= |ls| < |ss|
    ensures ss[i].sh.sent <= ss[j].sh.sent
    decreases j
  {
    hide Enabled, Do, WritesOpen;
    if i < j {
      SentGrows(ss, ls, i, j - 1);
      assert Enabled(ss[j - 1], ls[j - 1]) && ss[j] == Do(ss[j - 1], ls[j - 1]);
      StepSends(ss[j - 1], ls[j - 1]);
    }
  }

  // ---------- Once ----------

  // The handler of o has tried to send.
  ghost predicate PastSend(th: Threads, o: Id) {
    && Main(o) in th
    && var pc := th[Main(o)];
       || pc.SMark? || pc.SFail? || pc.SSpawn? || pc.TMark? || pc.TFail? || pc.TFailClose? || pc.TSpawn? || pc.Done?
  }

  lemma PastMoves(sh: Shared, id: Id, pc: Pc, c: Choice)
    requires CanStep(sh, Main(id), pc, c)
    requires pc.SSend? || pc.TSend? || pc.SMark? || pc.SFail? || pc.SSpawn? || pc.TMark? || pc.TFail? || pc.TFailClose?
             || pc.TSpawn? || pc.Done?
    ensures var e := Step(sh, Main(id), pc, c).pc;
            || e.SMark? || e.SFail? || e.SSpawn? || e.TMark? || e.TFail? || e.TFailClose? || e.TSpawn? || e.Done?
  {
    hide KeysMatch, Cleanup, SendOpen, Control;
  }

  lemma PastStays(s: State, l: Label, o: Id)
    requires Inv(s) && SpawnInv(s) && Enabled(s, l)
    requires PastSend(s.th, o) || WritesOpen(s, l, o)
    ensures PastSend(Do(s, l).th, o)
  {
    hide Inv, SpawnInv, CanStep, Step;
    if StepOf(l, Main(o)) {
      GoNext(s, l, Main(o));
      PastMoves(s.sh, o, s.th[Main(o)], l.c);
    } else {
      hide Enabled, Do;
      OthersStay(s, l, Main(o));
    }
  }

  lemma {:induction false} PastForever(ss: seq<State>, ls: seq<Label>, i: nat, j: nat, o: Id)
    requires Trace(ss, ls) && i <= j <= |ls| < |ss| && PastSend(ss[i].th, o)
    ensures PastSend(ss[j].th, o)
    decreases j
  {
    hide Inv, SpawnInv, OwnerInv, Enabled, Do, Init, PastSend, WritesOpen;
    if i < j {
      PastForever(ss, ls, i, j - 1, o);
      TraceHeld(ss, ls, j - 1);
      assert Enabled(ss[j - 1], ls[j - 1]);
      PastStays(ss[j - 1], ls[j - 1], o);
    }
  }

  lemma NotAgain(ss: seq<State>, ls: seq<Label>, k: nat, j: nat, o: Id)
    requires Trace(ss, ls) && k < j < |ls| < |ss| && WritesOpen(ss[k], ls[k], o)
    ensures !WritesOpen(ss[j], ls[j], o)
  {
    hide Inv, SpawnInv, OwnerInv, Enabled, Do, Init, PastSend, WritesOpen;
    TraceHeld(ss, ls, k);
    assert Enabled(ss[k], ls[k]);
    PastStays(ss[k], ls[k], o);
    PastForever(ss, ls, k + 1, j, o);
    PastWritesNot(ss[j], ls[j], o);
  }

  lemma PastWritesNot(s: State, l: Label, o: Id)
    requires PastSend(s.th, o)
    ensures !WritesOpen(s, l, o)
  {
  }

  // A handler writes at most one OPEN message in a whole run.
  lemma OneOpenEach(ss: seq<State>, ls: seq<Label>, i: nat, m: nat, m': nat)
    requires Trace(ss, ls) && i <= |ls| < |ss| && m < |ss[i].sh.sent| && m' < |ss[i].sh.sent|
    requires ss[i].sh.sent[m].sender == ss[i].sh.sent[m'].sender
    ensures m == m'
  {
    hide Trace, WritesOpen;
    WasWritten(ss, ls, i, m);
    WasWritten(ss, ls, i, m');
    var o := ss[i].sh.sent[m].sender;
    var k: nat :| k < i && WrittenAt(ss, ls, k, m, ss[i].sh.sent[m]);
    var k': nat :| k' < i && WrittenAt(ss, ls, k', m', ss[i].sh.sent[m']);
    if k < k' { NotAgain(ss, ls, k, k', o); } else if k' < k { NotAgain(ss, ls, k', k, o); }
  }

  // ---------- Marked only after it was sent, with no error ----------

  lemma MarkedWasSent(ss: seq<State>, ls: seq<Label>, j: nat, o: Id)
    requires Trace(ss, ls) && j <= |ls| < |ss| && Main(o) in ss[j].th
    requires ss[j].th[Main(o)].SMark? || ss[j].th[Main(o)].TMark?
    ensures exists k :: 0 <= k < j && WritesOpen(ss[k], ls[k], o) && ls[k].c.Ok?
  {
    hide Trace, Inv, SpawnInv, PutBy, CanStep, Step, Fresh;
    var k := OwnStep(ss, ls, j, Main(o));
    GoNext(ss[k], ls[k], Main(o));
    MainSends(ss[k].sh, o, ss[k].th[Main(o)], ls[k].c);
    hide Enabled, Do;
    assert WritesOpen(ss[k], ls[k], o);
  }

  lemma OnlyMarks(s: State, l: Label, o: Id)
    requires Written(s, l, o) == Some(OPEN_SENT)
    ensures Main(o) in s.th && (s.th[Main(o)].SMark? || s.th[Main(o)].TMark?)
  {
    hide BindsSession, CleansSession;
  }

  lemma KeyHeld(s: State, o: Id)
    requires Inv(s) && Main(o) in s.th && (s.th[Main(o)].SSend? || s.th[Main(o)].TSend?)
    ensures o in s.sh.heap.objs && s.sh.heap.objs[o].key == s.th[Main(o)].key
  {
    ThreadOk(s, Main(o));
    hide Inv, Gone, RefOk;
  }

  // A session in state OPEN_SENT has its OPEN message, which carries its ID.
  lemma OpenSentHasOne(ss: seq<State>, ls: seq<Label>, i: nat, o: Id)
    requires Trace(ss, ls) && i <= |ls| < |ss| && o in ss[i].sh.heap.objs && ss[i].sh.heap.objs[o].phase.OPEN_SENT?
    ensures exists m: nat :: m < |ss[i].sh.sent| && ss[i].sh.sent[m].sender == o
                             && ss[i].sh.sent[m].key == ss[i].sh.heap.objs[o].key
  {
    hide Trace, WritesOpen, Written;
    StateIsLastWrite(ss, ls, i, o);
    var j: nat :| LastWrite(ss, ls, j, i, o, OPEN_SENT);
    OnlyMarks(ss[j], ls[j], o);
    MarkedWasSent(ss, ls, j, o);
    var k: nat :| k < j && WritesOpen(ss[k], ls[k], o);
    MessageIsThere(ss, ls, k, i, o);
  }

  // What a handler has written stays in the record.
  lemma MessageIsThere(ss: seq<State>, ls: seq<Label>, k: nat, i: nat, o: Id)
    requires Trace(ss, ls) && k < i <= |ls| < |ss| && WritesOpen(ss[k], ls[k], o)
    ensures o in ss[i].sh.heap.objs && |ss[k].sh.sent| < |ss[i].sh.sent|
    ensures var msg := ss[i].sh.sent[|ss[k].sh.sent|]; msg.sender == o && msg.key == ss[i].sh.heap.objs[o].key
  {
    hide Init, Inv, Do, WritesOpen;
    TraceInv(ss, ls, k);
    assert Enabled(ss[k], ls[k]) && ss[k + 1] == Do(ss[k], ls[k]);
    hide Trace, Enabled;
    SenderIs(ss[k], ls[k], o);
    StepSends(ss[k], ls[k]);
    SentGrows(ss, ls, k + 1, i);
    KeyHeld(ss[k], o);
    LaterRun(ss, ls, k, i);
    assert ss[i].sh.sent[|ss[k].sh.sent|] == OpenOf(ss[k], o);
  }
}
