/**
 The agent and port maps of pkg/hub/hub.go as a value. AgentState objects have identity, because a
 handler can hold a pointer to one after h.agents has been pointed at another.
*/
module AgentBook {
  import opened Options

  const FIRST_PORT := 10000
  const LAST_PORT := 65535

  // Loaded(a) is the AgentState loadMapping makes for agent a; Added(t) the one /agent handler t makes.
  datatype Ref = Loaded(agent: string) | Added(handler: nat)

  // control is the number of the /agent handler whose websocket is the control connection.
  datatype AgentRecord = AgentRecord(name: string, port: int, control: Option<nat>)

  // listeners[p] is the agent name captured by the servePort goroutine of port p.
  datatype Book = Book(refs: map<Ref, AgentRecord>, agents: map<string, Ref>, ports: map<int, string>,
                       listeners: map<int, string>)

  // ---------- First free port ----------

  ghost predicate IsFirstFree(ports: map<int, string>, p: int) {
    p >= FIRST_PORT && p !in ports && forall q :: FIRST_PORT <= q < p ==> q in ports
  }

  function UsedFrom(ports: map<int, string>, p: int): set<int> {
    set q | q in ports.Keys && q >= p
  }

  function FirstFreeFrom(ports: map<int, string>, p: int): (r: int)
    ensures p <= r && r !in ports
    ensures forall q :: p <= q < r ==> q in ports
    ensures r <= p + |UsedFrom(ports, p)|
    decreases |UsedFrom(ports, p)|
  {
    if p !in ports then p
    else
      UsedShrinks(ports, p);
      FirstFreeFrom(ports, p + 1)
  }

  lemma UsedShrinks(ports: map<int, string>, p: int)
    requires p in ports
    ensures |UsedFrom(ports, p)| == |UsedFrom(ports, p + 1)| + 1
  {
    assert UsedFrom(ports, p) == UsedFrom(ports, p + 1) + {p};
  }

  function FirstFree(ports: map<int, string>): (r: int)
    ensures IsFirstFree(ports, r)
    ensures r <= FIRST_PORT + |UsedFrom(ports, FIRST_PORT)|
  {
    FirstFreeFrom(ports, FIRST_PORT)
  }

  // The search stays within the TCP port range exactly while some port of the range is unused.
  lemma FirstFreeInRange(ports: map<int, string>)
    ensures FirstFree(ports) <= LAST_PORT <==> exists q :: FIRST_PORT <= q <= LAST_PORT && q !in ports
  {
    if FirstFree(ports) <= LAST_PORT {
      assert FirstFree(ports) !in ports;
    }
  }

  // ---------- Critical sections ----------

  predicate Known(b: Book, name: string) {
    name in b.agents && b.agents[name] in b.refs
  }

  // agent_ws.go:35-52: a new AgentState on the first free port; the listener may fail to open.
  function Register(b: Book, t: nat, name: string, listens: bool): Book {
    var port := FirstFree(b.ports);
    Book(b.refs[Added(t) := AgentRecord(name, port, None)], b.agents[name := Added(t)], b.ports[port := name],
         if listens then b.listeners[port := name] else b.listeners)
  }

  // agent_ws.go:75-79
  function Takeover(b: Book, name: string, ws: nat): Book
    requires Known(b, name)
  {
    b.(refs := b.refs[b.agents[name] := b.refs[b.agents[name]].(control := Some(ws))])
  }

  // agent_ws.go:96-101
  function Release(b: Book, name: string, ws: nat): Book
    requires Known(b, name)
  {
    if b.refs[b.agents[name]].control == Some(ws) then
      b.(refs := b.refs[b.agents[name] := b.refs[b.agents[name]].(control := None)])
    else b
  }

  // ---------- The mapping file's contents ----------

  ghost predicate Injective(m: map<string, int>) {
    forall a, c :: a in m && c in m && m[a] == m[c] ==> a == c
  }

  // ports is the inverse of m.
  ghost predicate Inverse(m: map<string, int>, ports: map<int, string>) {
    && (forall a :: a in m ==> m[a] in ports && ports[m[a]] == a)
    && (forall p :: p in ports ==> ports[p] in m && m[ports[p]] == p)
  }

  // m holds each agent with its HubPort.
  ghost predicate IsMapping(b: Book, m: map<string, int>) {
    && m.Keys == b.agents.Keys
    && forall a :: a in b.agents ==> b.agents[a] in b.refs && m[a] == b.refs[b.agents[a]].port
  }

  // What saveMapping writes.
  ghost function Mapping(b: Book): (m: map<string, int>)
    requires forall a :: a in b.agents ==> b.agents[a] in b.refs
    ensures IsMapping(b, m)
  {
    MappingExists(b);
    var m :| IsMapping(b, m);
    m
  }

  lemma MappingExists(b: Book)
    requires forall a :: a in b.agents ==> b.agents[a] in b.refs
    ensures exists m :: IsMapping(b, m)
  {
    assert IsMapping(b, map a | a in b.agents :: b.refs[b.agents[a]].port);
  }

  ghost function InverseOf(m: map<string, int>): (ports: map<int, string>)
    requires Injective(m)
    ensures Inverse(m, ports)
  {
    InverseExists(m);
    var ports :| Inverse(m, ports);
    ports
  }

  lemma {:induction false} InverseExists(m: map<string, int>)
    requires Injective(m)
    ensures exists ports :: Inverse(m, ports)
    decreases |m|
  {
    if m == map[] {
      assert Inverse(m, map[]);
    } else {
      var a :| a in m;
      var rest := m - {a};
      assert |rest| < |m| && Injective(rest);
      InverseExists(rest);
      var ports :| Inverse(rest, ports);
      hide Injective, Inverse;
      InverseAdds(m, a, ports);
    }
  }

  lemma InverseAdds(m: map<string, int>, a: string, ports: map<int, string>)
    requires Injective(m) && a in m && Inverse(m - {a}, ports)
    ensures Inverse(m, ports[m[a] := a])
  {
    forall p | p in ports ensures p != m[a] && ports[p] in m && m[ports[p]] == p {
      assert ports[p] in m - {a};
    }
    forall c | c in m && c != a ensures m[c] != m[a] && m[c] in ports && ports[m[c]] == c {
      assert c in m - {a} && (m - {a})[c] == m[c];
    }
  }

  lemma InverseUnique(m: map<string, int>, ports: map<int, string>, ports': map<int, string>)
    requires Inverse(m, ports) && Inverse(m, ports')
    ensures ports == ports'
  {
    forall p ensures p in ports <==> p in ports' {
      if p in ports { assert m[ports[p]] in ports'; }
      if p in ports' { assert m[ports'[p]] in ports; }
    }
    forall p | p in ports ensures ports[p] == ports'[p] {
      assert ports'[m[ports[p]]] == ports[p];
    }
  }

  // The maps after loadMapping and startPortListeners.
  ghost predicate IsLoading(m: map<string, int>, b: Book) {
    && b.agents.Keys == m.Keys
    && (forall a :: a in m ==> b.agents[a] == Loaded(a))
    && (forall r :: r in b.refs <==> r.Loaded? && r.agent in m)
    && (forall r :: r in b.refs ==> b.refs[r] == AgentRecord(r.agent, m[r.agent], None))
    && Inverse(m, b.ports)
    && b.listeners == b.ports
  }

  // Those maps for a file whose ports are distinct.
  ghost function Loading(m: map<string, int>): (b: Book)
    requires Injective(m)
    ensures IsLoading(m, b)
  {
    LoadingExists(m);
    var b :| IsLoading(m, b);
    b
  }

  lemma {:induction false} LoadingExists(m: map<string, int>)
    requires Injective(m)
    ensures exists b :: IsLoading(m, b)
    decreases |m|
  {
    hide Injective, Inverse;
    var ports := InverseOf(m);
    if m == map[] {
      assert IsLoading(m, Book(map[], map[], ports, ports));
    } else {
      hide IsLoading, InverseOf;
      var a :| a in m;
      InjectivePart(m, a);
      LoadingExists(m - {a});
      var b :| IsLoading(m - {a}, b);
      LoadingAdds(m, a, b, ports);
    }
  }

  lemma InjectivePart(m: map<string, int>, a: string)
    requires Injective(m) && a in m
    ensures Injective(m - {a}) && |m - {a}| < |m|
  {
  }

  lemma LoadingAdds(m: map<string, int>, a: string, b: Book, ports: map<int, string>)
    requires a in m && IsLoading(m - {a}, b) && Inverse(m, ports)
    ensures IsLoading(m, Book(b.refs[Loaded(a) := AgentRecord(a, m[a], None)], b.agents[a := Loaded(a)], ports, ports))
  {
    hide Inverse;
    var refs := b.refs[Loaded(a) := AgentRecord(a, m[a], None)];
    assert forall r :: r in refs <==> r.Loaded? && r.agent in m;
  }

  // They are determined by the file.
  lemma LoadingUnique(m: map<string, int>, b: Book, b': Book)
    requires IsLoading(m, b) && IsLoading(m, b')
    ensures b == b'
  {
    InverseUnique(m, b.ports, b'.ports);
    assert b.refs == b'.refs;
    assert b.agents == b'.agents;
  }

  // ---------- Saving and loading again ----------

  lemma SameMapping(b: Book, m: map<string, int>, m': map<string, int>)
    requires IsMapping(b, m) && IsMapping(b, m')
    ensures m == m'
  {
  }

  // A hub that starts on a file and saves at once writes that file again.
  lemma SaveGivesFileBack(m: map<string, int>)
    requires Injective(m)
    ensures IsMapping(Loading(m), m) && Mapping(Loading(m)) == m
  {
    var b := Loading(m);
    assert IsMapping(b, m);
    SameMapping(b, m, Mapping(b));
  }

  // What a hub saves can be loaded, and loads to its own port index with the agents' ports unchanged, if and
  // only if its port index names each agent's one port and nothing else.
  lemma LoadGivesPortsBack(b: Book)
    requires forall a :: a in b.agents ==> b.agents[a] in b.refs
    ensures Inverse(Mapping(b), b.ports) <==> Injective(Mapping(b)) && Loading(Mapping(b)).ports == b.ports
  {
    var m := Mapping(b);
    if Inverse(m, b.ports) {
      assert forall a :: a in m ==> b.ports[m[a]] == a;
      InverseUnique(m, b.ports, Loading(m).ports);
    }
  }
}
