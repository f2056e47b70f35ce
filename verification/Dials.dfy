/**
 The agent's side of a run: which OPEN messages are answered with a request, and which tunnels get their first frame.
*/
module Dials {
  import opened Options
  import opened PendingHeap
  import opened Protocol
  import opened ProtocolInvariant
  import opened ThreadHistory
  import Handshake
  import Registry

  // handleOpen of message m dials, and the request it makes gets through.
  ghost predicate GetsThrough(s: State, l: Label, m: nat) {
    StepOf(l, Dial(m)) && l.c.Ok? && Dial(m) in s.th && s.th[Dial(m)].ADial?
  }

  // The first frame of websocket w is written: by its client, or by the agent that dialled it, without an error.
  ghost predicate Frames(s: State, l: Label, w: Id) {
    || (l.SendFrame? && l.id == w)
    || (l.Go? && l.t.Dial? && l.c.Ok? && l.t in s.th && s.th[l.t].AShake? && s.th[l.t].tunnel == w)
  }

  lemma DialStepIs(sh: Shared, m: nat, pc: Pc, c: Choice)
    requires CanStep(sh, Dial(m), pc, c) && Tun(sh.next) !in sh.hello
    ensures var e := Step(sh, Dial(m), pc, c);
            && (forall x :: x in e.sh.hello <==> x in sh.hello || (pc.ADial? && c.Ok? && x == Tun(sh.next)))
            && (forall x :: x in sh.hello ==> e.sh.hello[x] == sh.hello[x])
            && (pc.ADial? && c.Ok? ==> e.sh.hello[Tun(sh.next)] == Hello(pc.agent, pc.key, Some(m)))
            && (forall x :: x in e.sh.wire <==> x in sh.wire || (pc.AShake? && c.Ok? && x == pc.tunnel))
            && (forall x :: x in sh.wire ==> e.sh.wire[x] == sh.wire[x])
            && (pc.AShake? && c.Ok? && pc.tunnel !in sh.wire ==>
                  e.sh.wire[pc.tunnel] == Wire(true, Handshake.Frame(sh.sha, pc.key)))
  {
    hide KeysMatch, Handshake.Frame;
  }

  lemma MainKeeps(sh: Shared, id: Id, pc: Pc, c: Choice)
    requires CanStep(sh, Main(id), pc, c)
    ensures var e := Step(sh, Main(id), pc, c); e.sh.hello == sh.hello && e.sh.wire == sh.wire
  {
    hide KeysMatch, CanSsh, CanTun, IsSsh, IsTun, SshStep, TunStep;
    if id.Ssh? { SshKeeps(sh, id, pc, c); } else { TunKeeps(sh, id, pc, c); }
  }

  lemma SshKeeps(sh: Shared, id: Id, pc: Pc, c: Choice)
    requires IsSsh(pc) && CanSsh(sh, id, pc, c)
    ensures var e := SshStep(sh, id, pc, c); e.sh.hello == sh.hello && e.sh.wire == sh.wire
  {
    hide KeysMatch, Cleanup, Control, SendOk, Handshake.IsUuid;
  }

  lemma TunKeeps(sh: Shared, id: Id, pc: Pc, c: Choice)
    requires IsTun(pc) && CanTun(sh, id, pc, c)
    ensures var e := TunStep(sh, id, pc, c); e.sh.hello == sh.hello && e.sh.wire == sh.wire
  {
    hide KeysMatch, Cleanup, Bind, BindOutcome, ReadId, Control, SendOk, Insert, MarkOpenSent, Attach, Close, CanTun;
  }

  lemma OtherKeeps(sh: Shared, t: Tid, pc: Pc, c: Choice)
    requires CanStep(sh, t, pc, c) && !t.Main? && !t.Dial?
    ensures var e := Step(sh, t, pc, c); e.sh.hello == sh.hello && e.sh.wire == sh.wire
  {
    hide KeysMatch, Cleanup, CanSsh, CanTun, SshStep, TunStep;
  }

  lemma NoHelloYet(s: State)
    requires Inv(s)
    ensures Tun(s.sh.next) !in s.sh.hello
  {
  }

  lemma FrameStep(s: State, l: Label, w: Id)
    requires Inv(s) && Enabled(s, l)
    ensures w in Do(s, l).sh.wire <==> w in s.sh.wire || Frames(s, l, w)
    ensures w in s.sh.wire ==> Do(s, l).sh.wire[w] == s.sh.wire[w]
  {
    hide Inv, CanStep, Step, Registry.Enabled, Registry.Do, Fresh;
    if l.Go? {
      NoHelloYet(s);
      if l.t.Dial? {
        DialStepIs(s.sh, l.t.msg, s.th[l.t], l.c);
      } else if l.t.Main? {
        MainKeeps(s.sh, l.t.id, s.th[l.t], l.c);
      } else {
        OtherKeeps(s.sh, l.t, s.th[l.t], l.c);
      }
    }
  }

  // A websocket has a first frame if and only if some step wrote it without an error, and keeps the first one.
  lemma {:induction false} FramedIff(ss: seq<State>, ls: seq<Label>, i: nat, w: Id)
    requires Trace(ss, ls) && i <= |ls| < |ss|
    ensures w in ss[i].sh.wire <==> exists k :: 0 <= k < i && Frames(ss[k], ls[k], w)
    ensures i > 0 && w in ss[i - 1].sh.wire ==> w in ss[i].sh.wire && ss[i].sh.wire[w] == ss[i - 1].sh.wire[w]
  {
    hide Inv, Enabled, Do, Frames;
    if i > 0 {
      FramedIff(ss, ls, i - 1, w);
      TraceInv(ss, ls, i - 1);
      assert Enabled(ss[i - 1], ls[i - 1]) && ss[i] == Do(ss[i - 1], ls[i - 1]);
      FrameStep(ss[i - 1], ls[i - 1], w);
    }
  }

  ghost predicate Answered(sh: Shared, m: nat) {
    exists w :: w in sh.hello && sh.hello[w].dial == Some(m)
  }

  lemma AnswerStep(s: State, l: Label, m: nat)
    requires Inv(s) && Enabled(s, l)
    ensures Answered(Do(s, l).sh, m) <==> Answered(s.sh, m) || GetsThrough(s, l, m)
  {
    hide CanStep, Step, Registry.Enabled, Registry.Do, Fresh;
    NoHelloYet(s);
    hide Inv;
    var a, b := s.sh, Do(s, l).sh;
    if l.Go? {
      if l.t.Dial? {
        DialStepIs(a, l.t.msg, s.th[l.t], l.c);
      } else if l.t.Main? {
        MainKeeps(a, l.t.id, s.th[l.t], l.c);
      } else {
        OtherKeeps(a, l.t, s.th[l.t], l.c);
      }
    }
    assert forall w :: w in a.hello ==> w in b.hello && b.hello[w] == a.hello[w];
    if GetsThrough(s, l, m) { assert Tun(a.next) in b.hello && b.hello[Tun(a.next)].dial == Some(m); }
    assert forall w :: w in b.hello && w !in a.hello && b.hello[w].dial == Some(m) ==> GetsThrough(s, l, m);
  }

  // An OPEN message is answered with a request if and only if the agent's dial for it got through.
  lemma {:induction false} AnsweredIff(ss: seq<State>, ls: seq<Label>, i: nat, m: nat)
    requires Trace(ss, ls) && i <= |ls| < |ss|
    ensures Answered(ss[i].sh, m) <==> exists k :: 0 <= k < i && GetsThrough(ss[k], ls[k], m)
  {
    hide Inv, Enabled, Do, GetsThrough;
    if i > 0 {
      AnsweredIff(ss, ls, i - 1, m);
      TraceInv(ss, ls, i - 1);
      assert Enabled(ss[i - 1], ls[i - 1]) && ss[i] == Do(ss[i - 1], ls[i - 1]);
      AnswerStep(ss[i - 1], ls[i - 1], m);
    }
  }
}
