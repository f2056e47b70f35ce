/**
 The registry as a transition system: any number of /agent handlers (pkg/hub/agent_ws.go) register new
 names, save the mapping file, take over and release control connections, and the hub process restarts
 from the file. One step is one lock-protected section, one snapshot of h.agents, one file write, or one
 websocket event.
*/
module Registry {
  import opened Options
  import opened AgentBook

  // Missing: no file yet. Corrupt: a write that failed after truncating the file.
  datatype File = Missing | Corrupt | Saved(agents: map<string, int>)

  // Where handler t stands; its websocket, once accepted, is websocket t.
  datatype Pc =
    | AtLookup(name: string)
    | AtInsert(name: string)
    | AtSave(name: string)
    | AtWrite(name: string, snap: map<string, int>)
    | AtAccept(name: string)
    | AtTakeover(name: string)
    | Reading(name: string)
    | AtRelease(name: string)
    | AtClose(name: string)
    | Done(name: string)

  // owner[t] is the X-Agent header of the connection accepted by handler t.
  datatype State = State(book: Book, file: File, th: map<nat, Pc>, owner: map<nat, string>, next: nat)

  // How the environment resolves a handler's step; FailBadly is a write that leaves a truncated file.
  datatype Choice = Ok | Fail | FailBadly

  datatype Label = Connect(name: string) | Go(t: nat, c: Choice) | Restart

  ghost predicate Loadable(f: File) {
    match f
    case Missing => true
    case Corrupt => false
    case Saved(m) => Injective(m)
  }

  // LoadMapping creates an empty mapping when there is no file.
  function Contents(f: File): map<string, int> {
    if f.Saved? then f.agents else map[]
  }

  ghost function Boot(f: File, next: nat): State
    requires Loadable(f)
  {
    State(Loading(Contents(f)), Saved(Contents(f)), map[], map[], next)
  }

  ghost predicate Enabled(s: State, l: Label) {
    match l
    case Connect(name) => name != ""
    case Go(t, c) => t in s.th && CanStep(s, s.th[t])
    case Restart => Loadable(s.file)
  }

  predicate CanStep(s: State, pc: Pc) {
    match pc
    case AtSave(_) => forall a :: a in s.book.agents ==> s.book.agents[a] in s.book.refs
    case AtTakeover(name) => Known(s.book, name)
    case AtRelease(name) => Known(s.book, name)
    case Done(_) => false
    case _ => true
  }

  ghost function Do(s: State, l: Label): State
    requires Enabled(s, l)
  {
    match l
    case Connect(name) => s.(th := s.th[s.next := AtLookup(name)], next := s.next + 1)
    case Go(t, c) => Step(s, t, c)
    case Restart => Boot(s.file, s.next)
  }

  ghost function Step(s: State, t: nat, c: Choice): State
    requires t in s.th && CanStep(s, s.th[t])
  {
    match s.th[t]
    case AtLookup(name) =>
      At(s, t, if name in s.book.agents then AtAccept(name) else AtInsert(name))
    case AtInsert(name) =>
      At(s.(book := Register(s.book, t, name, c.Ok?)), t, if c.Ok? then AtSave(name) else Done(name))
    case AtSave(name) =>
      At(s, t, AtWrite(name, Mapping(s.book)))
    case AtWrite(name, snap) =>
      (match c
       case Ok => At(s.(file := Saved(snap)), t, AtAccept(name))
       case Fail => At(s, t, Done(name))
       case FailBadly => At(s.(file := Corrupt), t, Done(name)))
    case AtAccept(name) =>
      if c.Ok? then At(s.(owner := s.owner[t := name]), t, AtTakeover(name)) else At(s, t, Done(name))
    case AtTakeover(name) =>
      At(s.(book := Takeover(s.book, name, t)), t, Reading(name))
    case Reading(name) =>
      At(s, t, AtRelease(name))
    case AtRelease(name) =>
      At(s.(book := Release(s.book, name, t)), t, AtClose(name))
    case AtClose(name) =>
      At(s, t, Done(name))
    case Done(name) => s
  }

  function At(s: State, t: nat, pc: Pc): State {
    s.(th := s.th[t := pc])
  }

  // ---------- Runs ----------

  // ss[0], ss[1], ... is the sequence of states of a run that takes the steps ls.
  ghost predicate Trace(ss: seq<State>, ls: seq<Label>) {
    && |ss| == |ls| + 1
    && forall i {:trigger ls[i]} :: 0 <= i < |ls| ==> Enabled(ss[i], ls[i]) && ss[i + 1] == Do(ss[i], ls[i])
  }

  // A run of hub processes, the first one started on some loadable file.
  ghost predicate FromBoot(ss: seq<State>, ls: seq<Label>) {
    Trace(ss, ls) && exists f, n :: Loadable(f) && ss[0] == Boot(f, n)
  }

  // Some run of the registry gets to s.
  ghost predicate Reachable(s: State) {
    exists ss, ls :: FromBoot(ss, ls) && s == ss[|ls|]
  }

  // ---------- What every step keeps ----------

  ghost predicate BookInv(b: Book) {
    && (forall a :: a in b.agents ==> b.agents[a] in b.refs && b.refs[b.agents[a]].name == a)
    && (forall r :: r in b.refs ==> b.refs[r].port in b.ports && b.ports[b.refs[r].port] == b.refs[r].name)
    && (forall p :: p in b.ports ==> b.ports[p] in b.agents)
    && (forall p :: p in b.listeners ==> p in b.ports && b.ports[p] == b.listeners[p])
  }

  // Every entry of a mapping agrees with the port index.
  ghost predicate Indexed(ports: map<int, string>, m: map<string, int>) {
    forall a :: a in m ==> m[a] in ports && ports[m[a]] == a
  }

  lemma IndexedGrows(ports: map<int, string>, ports': map<int, string>, m: map<string, int>)
    requires Indexed(ports, m)
    requires forall p :: p in ports ==> p in ports' && ports'[p] == ports[p]
    ensures Indexed(ports', m)
  {
    forall a | a in m ensures m[a] in ports' && ports'[m[a]] == a {
      var p := m[a];
      assert p in ports && ports[p] == a;
    }
  }

  ghost predicate ControlsOwned(s: State) {
    forall r :: r in s.book.refs && s.book.refs[r].control.Some? ==>
      var c := s.book.refs[r].control.value;
      c in s.owner && s.owner[c] == s.book.refs[r].name
  }

  ghost predicate PcOk(s: State, t: nat, pc: Pc) {
    && t < s.next
    && pc.name != ""
    && match pc
       case AtLookup(_) => Added(t) !in s.book.refs && t !in s.owner
       case AtInsert(_) => Added(t) !in s.book.refs && t !in s.owner
       case AtSave(name) => name in s.book.agents && t !in s.owner
       case AtWrite(name, snap) => name in s.book.agents && t !in s.owner && Indexed(s.book.ports, snap)
       case AtAccept(name) => name in s.book.agents && t !in s.owner
       case Done(_) => true
       case _ => pc.name in s.book.agents && t in s.owner && s.owner[t] == pc.name
  }

  ghost predicate Inv(s: State) {
    && BookInv(s.book)
    && ControlsOwned(s)
    && Indexed(s.book.ports, Contents(s.file))
    && (forall t :: t in s.th ==> PcOk(s, t, s.th[t]))
    && (forall t :: t in s.owner ==> t < s.next && s.owner[t] != "")
    && (forall t: nat :: Added(t) in s.book.refs ==> t < s.next)
  }

  // What one hub process never undoes.
  ghost predicate Extends(a: State, b: State) {
    && (forall p :: p in a.book.ports ==> p in b.book.ports && b.book.ports[p] == a.book.ports[p])
    && (forall n :: n in a.book.agents ==> n in b.book.agents)
    && (forall r :: r in a.book.refs ==>
          r in b.book.refs && b.book.refs[r].name == a.book.refs[r].name && b.book.refs[r].port == a.book.refs[r].port)
    && (forall p :: p in a.book.listeners ==> p in b.book.listeners && b.book.listeners[p] == a.book.listeners[p])
    && (forall t :: t in a.owner ==> t in b.owner && b.owner[t] == a.owner[t])
    && a.next <= b.next
  }

  lemma ExtendsSelf(s: State)
    ensures Extends(s, s)
  {
  }

  lemma BootInv(f: File, n: nat)
    requires Loadable(f)
    ensures Inv(Boot(f, n))
  {
    assert IsLoading(Contents(f), Loading(Contents(f)));
  }

  // Steps of other handlers leave a handler's point as good as it was.
  lemma PcStable(s: State, s': State, u: nat, pc: Pc)
    requires PcOk(s, u, pc) && Extends(s, s')
    requires Added(u) in s'.book.refs ==> Added(u) in s.book.refs
    requires u in s'.owner ==> u in s.owner
    ensures PcOk(s', u, pc)
  {
    if pc.AtWrite? { IndexedGrows(s.book.ports, s'.book.ports, pc.snap); }
  }

  // A handler's step keeps the invariant when it keeps the book and leaves the handler at a good point.
  lemma MoveKeeps(s: State, s': State, t: nat, pc: Pc)
    requires Inv(s) && t < s.next && s'.next == s.next && s'.th == s.th[t := pc]
    requires Extends(s, s') && BookInv(s'.book) && ControlsOwned(s') && Indexed(s'.book.ports, Contents(s'.file))
    requires PcOk(s', t, pc)
    requires forall u: nat :: Added(u) in s'.book.refs ==> u == t || Added(u) in s.book.refs
    requires forall u :: u in s'.owner ==> u < s.next && s'.owner[u] != "" && (u == t || u in s.owner)
    ensures Inv(s')
  {
    forall u | u in s'.th ensures PcOk(s', u, s'.th[u]) {
      if u != t { PcStable(s, s', u, s.th[u]); }
    }
  }

  lemma RegisterInv(b: Book, t: nat, name: string, listens: bool)
    requires BookInv(b) && Added(t) !in b.refs
    ensures BookInv(Register(b, t, name, listens))
  {
    var b', port := Register(b, t, name, listens), FirstFree(b.ports);
    assert IsFirstFree(b.ports, port);
    forall r | r in b'.refs ensures b'.refs[r].port in b'.ports && b'.ports[b'.refs[r].port] == b'.refs[r].name {
      if r != Added(t) {
        var q := b.refs[r].port;
        assert q in b.ports && q != port;
      }
    }
    forall p | p in b'.listeners ensures p in b'.ports && b'.ports[p] == b'.listeners[p] {
      if p != port { assert p in b.listeners; }
    }
  }

  lemma RegisterExtends(s: State, t: nat, name: string, listens: bool)
    requires BookInv(s.book) && Added(t) !in s.book.refs
    ensures Extends(s, s.(book := Register(s.book, t, name, listens)))
  {
    var port := FirstFree(s.book.ports);
    assert IsFirstFree(s.book.ports, port);
    assert port !in s.book.ports && port !in s.book.listeners;
    hide IsFirstFree, BookInv;
  }

  lemma RegisterControls(s: State, t: nat, name: string, listens: bool)
    requires ControlsOwned(s) && Added(t) !in s.book.refs
    ensures ControlsOwned(s.(book := Register(s.book, t, name, listens)))
  {
    hide IsFirstFree;
  }

  lemma RegisterBook(s: State, t: nat, name: string, listens: bool)
    requires Inv(s) && Added(t) !in s.book.refs
    ensures BookInv(Register(s.book, t, name, listens))
    ensures ControlsOwned(s.(book := Register(s.book, t, name, listens)))
    ensures Extends(s, s.(book := Register(s.book, t, name, listens)))
  {
    hide BookInv, ControlsOwned, Extends, Register, PcOk;
    RegisterInv(s.book, t, name, listens);
    RegisterExtends(s, t, name, listens);
    RegisterControls(s, t, name, listens);
  }

  lemma TakeoverBook(s: State, t: nat, name: string)
    requires Inv(s) && Known(s.book, name) && t in s.owner && s.owner[t] == name
    ensures BookInv(Takeover(s.book, name, t))
    ensures ControlsOwned(s.(book := Takeover(s.book, name, t)))
    ensures Extends(s, s.(book := Takeover(s.book, name, t)))
  {
    assert s.book.refs[s.book.agents[name]].name == name;
  }

  lemma ReleaseBook(s: State, t: nat, name: string)
    requires Inv(s) && Known(s.book, name)
    ensures BookInv(Release(s.book, name, t))
    ensures ControlsOwned(s.(book := Release(s.book, name, t)))
    ensures Extends(s, s.(book := Release(s.book, name, t)))
  {
  }

  lemma BookMoveInv(s: State, t: nat, c: Choice)
    requires Inv(s) && t in s.th && CanStep(s, s.th[t])
    requires s.th[t].AtInsert? || s.th[t].AtTakeover? || s.th[t].AtRelease?
    ensures Inv(Step(s, t, c)) && Extends(s, Step(s, t, c))
  {
    assert PcOk(s, t, s.th[t]);
    var s', name := Step(s, t, c), s.th[t].name;
    if s.th[t].AtInsert? {
      RegisterBook(s, t, name, c.Ok?);
    } else if s.th[t].AtTakeover? {
      TakeoverBook(s, t, name);
    } else {
      ReleaseBook(s, t, name);
    }
    IndexedGrows(s.book.ports, s'.book.ports, Contents(s.file));
    MoveKeeps(s, s', t, s'.th[t]);
  }

  lemma GoInv(s: State, t: nat, c: Choice)
    requires Inv(s) && t in s.th && CanStep(s, s.th[t])
    ensures Inv(Step(s, t, c)) && Extends(s, Step(s, t, c))
  {
    if s.th[t].AtInsert? || s.th[t].AtTakeover? || s.th[t].AtRelease? {
      BookMoveInv(s, t, c);
    } else {
      OtherMoveInv(s, t, c);
    }
  }

  lemma SameBookKeeps(s: State, s': State)
    requires ControlsOwned(s) && s'.book == s.book && s.next <= s'.next
    requires forall t :: t in s.owner ==> t in s'.owner && s'.owner[t] == s.owner[t]
    ensures Extends(s, s') && ControlsOwned(s')
  {
  }

  lemma OtherMoveInv(s: State, t: nat, c: Choice)
    requires Inv(s) && t in s.th && CanStep(s, s.th[t])
    requires !s.th[t].AtInsert? && !s.th[t].AtTakeover? && !s.th[t].AtRelease?
    ensures Inv(Step(s, t, c)) && Extends(s, Step(s, t, c))
  {
    hide Register, Takeover, Release, BookInv, ControlsOwned, Extends;
    assert PcOk(s, t, s.th[t]);
    var s' := Step(s, t, c);
    assert s'.book == s.book;
    if s.th[t].AtSave? { MappingIndexed(s.book); }
    SameBookKeeps(s, s');
    MoveKeeps(s, s', t, s'.th[t]);
  }

  lemma MappingIndexed(b: Book)
    requires BookInv(b)
    ensures Indexed(b.ports, Mapping(b))
  {
  }

  lemma StepInv(s: State, l: Label)
    requires Inv(s) && Enabled(s, l)
    ensures Inv(Do(s, l))
    ensures !l.Restart? ==> Extends(s, Do(s, l))
  {
    match l
    case Connect(name) =>
      var s' := Do(s, l);
      forall u | u in s'.th ensures PcOk(s', u, s'.th[u]) {
        if u != s.next { assert PcOk(s, u, s.th[u]); }
      }
    case Restart => BootInv(s.file, s.next);
    case Go(t, c) => GoInv(s, t, c);
  }
}
