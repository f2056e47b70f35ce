/**
 The Hub struct of pkg/hub/hub.go with its critical sections carried out in place: each method is the code
 between one h.mu.Lock and its Unlock, proved against the function on values of the same section.
*/
module HubObject {
  import opened Options
  import opened PendingHeap
  import AgentBook
  import Registry

  // An SSH connection or a websocket.
  class Conn {
    const id: Id
    var open: bool

    constructor (id: Id)
      ensures this.id == id && open
    {
      this.id := id;
      open := true;
    }

    method Close()
      modifies this
      ensures !open
    {
      open := false;
    }
  }

  class PendingSession {
    const id: Id
    const sessionID: string
    const agentName: string
    const sshConn: Conn?
    const entryWS: Conn?
    var state: Phase
    var tunnel: Conn?

    // A session made by onSSHConn has an SSHConn, one made by handleTunnelWS an EntryWS.
    constructor (conn: Conn, sessionID: string, agentName: string)
      ensures this.id == conn.id && this.sessionID == sessionID && this.agentName == agentName
      ensures sshConn == (if conn.id.Ssh? then conn else null) && entryWS == (if conn.id.Tun? then conn else null)
      ensures state == INIT && tunnel == null
    {
      id, this.sessionID, this.agentName := conn.id, sessionID, agentName;
      sshConn := if conn.id.Ssh? then conn else null;
      entryWS := if conn.id.Tun? then conn else null;
      state, tunnel := INIT, null;
    }

    ghost function View(): Session
      reads this
    {
      Session(sessionID, agentName, state, if tunnel == null then None else Some(tunnel.id))
    }
  }

  class AgentState {
    ghost const ref: AgentBook.Ref
    const name: string
    const hubPort: int
    var control: Option<nat>

    constructor (ghost ref: AgentBook.Ref, name: string, hubPort: int)
      ensures this.ref == ref && this.name == name && this.hubPort == hubPort && control == None
    {
      this.ref, this.name, this.hubPort := ref, name, hubPort;
      control := None;
    }

    ghost function View(): AgentBook.AgentRecord
      reads this
    {
      AgentBook.AgentRecord(name, hubPort, control)
    }
  }

  // One iteration of a Go range takes some remaining key.
  method Pick<T(==)>(keys: set<T>) returns (key: T)
    requires keys != {}
    ensures key in keys
  {
    key :| key in keys;
  }

  // The agents of done have been entered in ports, each on its own port.
  ghost predicate PortsSoFar(ports: map<int, string>, m: map<string, int>, done: set<string>) {
    && done <= m.Keys
    && (forall a :: a in done ==> m[a] in ports && ports[m[a]] == a)
    && (forall p :: p in ports ==> ports[p] in done && m[ports[p]] == p)
  }

  lemma PortLoaded(ports: map<int, string>, m: map<string, int>, done: set<string>, agent: string)
    requires PortsSoFar(ports, m, done) && agent in m && agent !in done
    ensures if m[agent] in ports then !AgentBook.Injective(m)
            else PortsSoFar(ports[m[agent] := agent], m, done + {agent})
  {
  }

  lemma AllInverse(ports: map<int, string>, m: map<string, int>)
    requires PortsSoFar(ports, m, m.Keys)
    ensures AgentBook.Injective(m) && AgentBook.Inverse(m, ports)
  {
    forall a, c | a in m && c in m && m[a] == m[c] ensures a == c {
      assert ports[m[a]] == a && ports[m[c]] == c;
    }
  }

  class Hub {
    var agents: map<string, AgentState>
    var ports: map<int, string>
    var listeners: map<int, string>
    var pending: map<string, PendingSession>

    // Every session, connection and AgentState made so far, listed or not.
    ghost var sessions: map<Id, PendingSession>
    ghost var conns: map<Id, Conn>
    ghost var refs: map<AgentBook.Ref, AgentState>

    // ---------- Sessions ----------

    ghost predicate Owns(c: Conn)
      reads this
    {
      c.id in conns && conns[c.id] == c
    }

    ghost predicate OwnsConns(p: PendingSession)
      reads this, p
    {
      (p.sshConn != null ==> Owns(p.sshConn)) && (p.tunnel != null ==> Owns(p.tunnel))
    }

    ghost predicate ValidSessions()
      reads this, sessions.Values
    {
      && (forall c :: c in conns ==> conns[c].id == c)
      && (forall o :: o in sessions ==>
            && sessions[o].id == o
            && (sessions[o].sshConn != null <==> o.Ssh?)
            && (o.Ssh? ==> sessions[o].sshConn.id == o && Owns(sessions[o].sshConn))
            && (sessions[o].tunnel != null ==> Owns(sessions[o].tunnel)))
      && (forall k :: k in pending ==>
            pending[k].id in sessions && sessions[pending[k].id] == pending[k] && pending[k].sessionID == k)
    }

    ghost predicate IsView(h: Heap)
      reads this, sessions.Values, pending.Values, conns.Values
    {
      && h.objs.Keys == sessions.Keys && h.pending.Keys == pending.Keys
      && (forall o :: o in sessions ==> h.objs[o] == sessions[o].View())
      && (forall k :: k in pending ==> h.pending[k] == pending[k].id)
      && (forall c :: c in h.closed <==> c in conns && !conns[c].open)
    }

    lemma SessionViews() returns (objs: map<Id, Session>)
      ensures objs.Keys == sessions.Keys && forall o :: o in sessions ==> objs[o] == sessions[o].View()
    {
      objs := map o | o in sessions :: sessions[o].View();
    }

    lemma PendingIds() returns (ids: map<string, Id>)
      ensures ids.Keys == pending.Keys && forall k :: k in pending ==> ids[k] == pending[k].id
    {
      ids := map k | k in pending :: pending[k].id;
    }

    lemma ViewExists()
      ensures exists h :: IsView(h)
    {
      var objs := SessionViews();
      var ids := PendingIds();
      assert IsView(Heap(objs, ids, set c | c in conns && !conns[c].open));
    }

    ghost function View(): (h: Heap)
      requires ValidSessions()
      reads this, sessions.Values, conns.Values
      ensures IsView(h) && KeysMatch(h)
    {
      ViewExists();
      var h :| IsView(h);
      h
    }

    // hub.go:68-77
    constructor ()
      ensures agents == map[] && ports == map[] && listeners == map[] && refs == map[]
      ensures ValidAgents() && ValidSessions() && View() == Heap(map[], map[], {})
    {
      agents, ports, listeners, pending := map[], map[], map[], map[];
      sessions, conns, refs := map[], map[], map[];
      new;
      SameView(Heap(map[], map[], {}), View());
    }

    // The fields and objects determine the view.
    lemma SameView(g: Heap, h: Heap)
      requires IsView(g) && IsView(h)
      ensures g == h
    {
      assert g.objs == h.objs && g.pending == h.pending && g.closed == h.closed;
    }

    // A connection is accepted and handed to its handler.
    method Accept(c: Conn)
      requires ValidSessions() && c.id !in conns && c.open
      modifies this`conns
      ensures ValidSessions() && Owns(c) && View() == old(View())
    {
      hide View;
      conns := conns[c.id := c];
      SameView(old(View()), View());
    }

    // hub.go:200-202 and tunnel_ws.go:127-129
    method Insert(p: PendingSession)
      requires ValidSessions() && p.id !in sessions && p.state == INIT && p.tunnel == null
      requires (p.sshConn != null <==> p.id.Ssh?) && (p.id.Ssh? ==> p.sshConn.id == p.id && Owns(p.sshConn))
      modifies this`pending, this`sessions
      ensures ValidSessions() && p.id in sessions && sessions[p.id] == p
      ensures View() == PendingHeap.Insert(old(View()), p.id, p.sessionID, p.agentName)
    {
      hide View;
      pending := pending[p.sessionID := p];
      sessions := sessions[p.id := p];
      Inserted(p);
    }

    twostate lemma Inserted(p: PendingSession)
      requires old(ValidSessions()) && ValidSessions() && conns == old(conns)
      requires p.id !in old(sessions) && sessions == old(sessions)[p.id := p]
      requires p.View() == Session(p.sessionID, p.agentName, INIT, None)
      requires pending == old(pending)[p.sessionID := p]
      requires forall x :: x in old(sessions) ==> unchanged(old(sessions)[x])
      requires forall c :: c in conns ==> unchanged(conns[c])
      ensures View() == PendingHeap.Insert(old(View()), p.id, p.sessionID, p.agentName)
    {
      assert forall x :: x in old(sessions) ==>
               sessions[x] == old(sessions)[x] && sessions[x].View() == old(sessions[x].View());
      hide View;
      SameView(PendingHeap.Insert(old(View()), p.id, p.sessionID, p.agentName), View());
    }

    // The view after the state or tunnel of one session has been written.
    twostate lemma Rewritten(p: PendingSession)
      requires old(ValidSessions()) && sessions == old(sessions) && conns == old(conns) && pending == old(pending)
      requires p.id in sessions && sessions[p.id] == p && (p.tunnel != null ==> Owns(p.tunnel))
      requires forall x :: x in sessions && sessions[x] != p ==> unchanged(sessions[x])
      requires forall c :: c in conns ==> unchanged(conns[c])
      ensures ValidSessions() && p.id in old(View()).objs && old(View()).objs[p.id] == old(p.View())
      ensures View() == old(View()).(objs := old(View()).objs[p.id := p.View()])
    {
      assert forall x :: x in sessions && x != p.id ==>
               sessions[x] != p && sessions[x].View() == old(sessions[x].View());
      hide View;
      SameView(old(View()).(objs := old(View()).objs[p.id := p.View()]), View());
    }

    // hub.go:210-212 and tunnel_ws.go:139-141; p may have been removed from the map meanwhile.
    method MarkOpenSent(p: PendingSession)
      requires ValidSessions() && p.id in sessions && sessions[p.id] == p
      modifies p`state
      ensures ValidSessions() && View() == PendingHeap.MarkOpenSent(old(View()), p.id)
    {
      hide View, IsView;
      p.state := OPEN_SENT;
      Rewritten(p);
    }

    // hub.go:254-259
    method CloseOwned(p: PendingSession)
      requires OwnsConns(p) && forall c :: c in conns ==> conns[c].id == c
      modifies conns.Values
      ensures forall c :: c in conns ==>
                conns[c].open == (old(conns[c].open) && conns[c] != p.sshConn && conns[c] != p.tunnel)
    {
      if p.sshConn != null {
        p.sshConn.Close();
      }
      if p.tunnel != null {
        p.tunnel.Close();
      }
    }

    // hub.go:249-263
    method CleanupPending(sessionID: string, newState: Phase)
      requires ValidSessions()
      modifies this`pending, sessions.Values, conns.Values
      ensures ValidSessions() && sessions == old(sessions) && conns == old(conns)
      ensures View() == Cleanup(old(View()), sessionID, newState)
    {
      hide View, ValidSessions, Cleanup, IsView;
      if sessionID in pending {
        var p := pending[sessionID];
        Lists(sessionID);
        p.state := newState;
        CloseOwned(p);
        pending := pending - {sessionID};
        CleanedUp(p, sessionID, newState);
      } else {
        NotListed(sessionID, newState);
      }
    }

    lemma Lists(key: string)
      requires ValidSessions() && key in pending
      ensures pending[key].id in sessions && sessions[pending[key].id] == pending[key] && OwnsConns(pending[key])
      ensures forall c :: c in conns ==> conns[c].id == c
    {
    }

    lemma NotListed(key: string, phase: Phase)
      requires ValidSessions() && key !in pending
      ensures Cleanup(View(), key, phase) == View()
    {
    }

    // The view after one session's state has changed, its connections have closed and it has left the map.
    twostate lemma CleanedUp(p: PendingSession, new key: string, new phase: Phase)
      requires old(ValidSessions()) && sessions == old(sessions) && conns == old(conns)
      requires key in old(pending) && old(pending[key]) == p && pending == old(pending) - {key}
      requires forall x :: x in sessions && sessions[x] != p ==> unchanged(sessions[x])
      requires p.state == phase && p.tunnel == old(p.tunnel)
      requires forall c :: c in conns ==>
                 conns[c].open == (old(conns[c].open) && conns[c] != p.sshConn && conns[c] != p.tunnel)
      ensures ValidSessions()
      ensures View() == Cleanup(old(View()), key, phase)
    {
      assert ValidSessions();
      assert View().pending == old(View()).pending - {key};
      CleanedObjs(p, phase);
      CleanedConns(p);
    }

    twostate lemma CleanedObjs(p: PendingSession, new phase: Phase)
      requires old(ValidSessions()) && ValidSessions() && sessions == old(sessions)
      requires p.id in sessions && sessions[p.id] == p
      requires forall x :: x in sessions && sessions[x] != p ==> unchanged(sessions[x])
      requires p.state == phase && p.tunnel == old(p.tunnel)
      ensures View().objs == old(View()).objs[p.id := old(View()).objs[p.id].(phase := phase)]
    {
      assert p.View() == old(p.View()).(phase := phase);
      assert forall x :: x in sessions && x != p.id ==>
               sessions[x] != p && sessions[x].View() == old(sessions[x].View());
    }

    twostate lemma CleanedConns(p: PendingSession)
      requires old(ValidSessions()) && ValidSessions() && sessions == old(sessions) && conns == old(conns)
      requires p.id in sessions && sessions[p.id] == p && p.tunnel == old(p.tunnel)
      requires forall c :: c in conns ==>
                 conns[c].open == (old(conns[c].open) && conns[c] != p.sshConn && conns[c] != p.tunnel)
      ensures View().closed == old(View()).closed + Owned(old(View()), p.id)
    {
      assert old(View()).objs[p.id] == old(p.View());
    }

    // hub.go:265-283
    method BindTunnel(sessionID: string, ws: Conn) returns (r: Result<PendingSession, BindError>)
      requires ValidSessions() && Owns(ws)
      modifies sessions.Values
      ensures ValidSessions() && View() == Bind(old(View()), sessionID, ws.id)
      ensures match BindOutcome(old(View()), sessionID)
              case Success(o) => o in sessions && r == Success(sessions[o])
              case Failure(e) => r == Failure(e)
      ensures r == Failure(SessionNotFound) <==> sessionID !in old(pending)
      ensures r == Failure(DuplicateTunnel)
              <==> sessionID in old(pending)
                   && (old(pending[sessionID].state) != OPEN_SENT || old(pending[sessionID].tunnel) != null)
      ensures r.Success? ==>
                && sessionID in old(pending) && r.value == old(pending[sessionID])
                && r.value.state == BOUND && r.value.tunnel == ws
    {
      hide View;
      if sessionID !in pending {
        return Failure(SessionNotFound);
      }
      var p := pending[sessionID];
      if p.state != OPEN_SENT || p.tunnel != null {
        return Failure(DuplicateTunnel);
      }
      p.tunnel := ws;
      p.state := BOUND;
      Rewritten(p);
      return Success(p);
    }

    // tunnel_ws.go:91-94
    method BindEntry(p: PendingSession, ws: Conn)
      requires ValidSessions() && Owns(ws) && p.id in sessions && sessions[p.id] == p
      modifies p
      ensures ValidSessions() && View() == Attach(old(View()), p.id, ws.id)
    {
      hide View, IsView;
      p.tunnel := ws;
      p.state := BOUND;
      Rewritten(p);
    }

    // ---------- The registry ----------

    ghost predicate ValidAgents()
      reads this
    {
      && (forall r :: r in refs ==> refs[r].ref == r)
      && (forall a :: a in agents ==> agents[a].ref in refs && refs[agents[a].ref] == agents[a])
    }

    ghost predicate IsBook(b: AgentBook.Book)
      reads this, refs.Values
    {
      && b.refs.Keys == refs.Keys && b.agents.Keys == agents.Keys && b.ports == ports && b.listeners == listeners
      && (forall r :: r in refs ==> b.refs[r] == refs[r].View())
      && (forall a :: a in agents ==> b.agents[a] == agents[a].ref)
    }

    lemma StateViews() returns (states: map<AgentBook.Ref, AgentBook.AgentRecord>)
      ensures states.Keys == refs.Keys && forall r :: r in refs ==> states[r] == refs[r].View()
    {
      states := map r | r in refs :: refs[r].View();
    }

    lemma AgentRefs() returns (byName: map<string, AgentBook.Ref>)
      ensures byName.Keys == agents.Keys && forall a :: a in agents ==> byName[a] == agents[a].ref
    {
      byName := map a | a in agents :: agents[a].ref;
    }

    lemma BookExists()
      ensures exists b :: IsBook(b)
    {
      var states := StateViews();
      var byName := AgentRefs();
      assert IsBook(AgentBook.Book(states, byName, ports, listeners));
    }

    ghost function Book(): (b: AgentBook.Book)
      requires ValidAgents()
      reads this, refs.Values
      ensures IsBook(b)
      ensures forall a :: a in b.agents ==> b.agents[a] in b.refs
    {
      BookExists();
      var b :| IsBook(b);
      b
    }

    lemma SameBook(b: AgentBook.Book, c: AgentBook.Book)
      requires IsBook(b) && IsBook(c)
      ensures b == c
    {
      assert b.refs == c.refs && b.agents == c.agents;
    }

    // hub.go:334-342
    method FindAvailablePort() returns (port: int)
      ensures port == AgentBook.FirstFree(ports)
    {
      port := AgentBook.FIRST_PORT;
      while port in ports
        invariant port >= AgentBook.FIRST_PORT
        invariant forall q :: AgentBook.FIRST_PORT <= q < port ==> q in ports
        decreases |AgentBook.UsedFrom(ports, port)|
      {
        AgentBook.UsedShrinks(ports, port);
        port := port + 1;
      }
    }

    // agent_ws.go:35-52; opens says whether net.Listen succeeds.
    method RegisterAgent(ghost t: nat, name: string, opens: bool) returns (port: int)
      requires ValidAgents() && AgentBook.Added(t) !in refs
      modifies this`agents, this`ports, this`listeners, this`refs
      ensures ValidAgents() && fresh(refs.Values - old(refs.Values))
      ensures Book() == AgentBook.Register(old(Book()), t, name, opens)
      ensures port == AgentBook.FirstFree(old(ports)) && name in agents && agents[name].hubPort == port
    {
      hide Book, IsBook;
      port := FindAvailablePort();
      var state := new AgentState(AgentBook.Added(t), name, port);
      agents := agents[name := state];
      refs := refs[AgentBook.Added(t) := state];
      ports := ports[port := name];
      if opens {
        listeners := listeners[port := name];
      }
      Registered(t, name, opens);
    }

    // The book after a fresh AgentState has been entered for name.
    twostate lemma Registered(new t: nat, new name: string, new opens: bool)
      requires old(ValidAgents()) && ValidAgents()
      requires name in agents
      requires agents[name].View() == AgentBook.AgentRecord(name, AgentBook.FirstFree(old(ports)), None)
      requires agents[name].ref == AgentBook.Added(t) && agents == old(agents)[name := agents[name]]
      requires refs == old(refs)[AgentBook.Added(t) := agents[name]] && AgentBook.Added(t) !in old(refs)
      requires forall r :: r in old(refs) ==> old(refs)[r].View() == old(refs[r].View())
      requires ports == old(ports)[AgentBook.FirstFree(old(ports)) := name]
      requires listeners == (if opens then old(listeners)[AgentBook.FirstFree(old(ports)) := name] else old(listeners))
      ensures Book() == AgentBook.Register(old(Book()), t, name, opens)
    {
      hide Book;
      SameBook(AgentBook.Register(old(Book()), t, name, opens), Book());
    }

    // agent_ws.go:75-79
    method TakeOver(name: string, ws: nat)
      requires ValidAgents() && name in agents
      modifies agents[name]
      ensures ValidAgents() && Book() == AgentBook.Takeover(old(Book()), name, ws)
    {
      hide Book;
      agents[name].control := Some(ws);
      SameBook(AgentBook.Takeover(old(Book()), name, ws), Book());
    }

    // agent_ws.go:96-101
    method Release(name: string, ws: nat)
      requires ValidAgents() && name in agents
      modifies agents[name]
      ensures ValidAgents() && Book() == AgentBook.Release(old(Book()), name, ws)
    {
      var state := agents[name];
      if state.control == Some(ws) {
        state.control := None;
      }
      hide Book;
      SameBook(AgentBook.Release(old(Book()), name, ws), Book());
    }

    // The agents of done have been entered, each on its own port.
    ghost predicate LoadedSoFar(m: map<string, int>, done: set<string>)
      reads this, refs.Values
    {
      && done <= m.Keys && agents.Keys == done
      && (forall r :: r in refs <==> r.Loaded? && r.agent in done)
      && (forall a :: a in done ==>
            agents[a].ref == AgentBook.Loaded(a) && refs[AgentBook.Loaded(a)] == agents[a]
            && agents[a].View() == AgentBook.AgentRecord(a, m[a], None))
    }

    // One more fresh AgentState has been entered.
    twostate lemma OneLoaded(new m: map<string, int>, new done: set<string>, new agent: string, new state: AgentState)
      requires old(LoadedSoFar(m, done)) && agent in m && agent !in done
      requires state.ref == AgentBook.Loaded(agent)
      requires state.name == agent && state.hubPort == m[agent] && state.control == None
      requires agents == old(agents)[agent := state]
      requires refs == old(refs)[AgentBook.Loaded(agent) := state]
      requires forall r :: r in old(refs) ==> unchanged(old(refs)[r])
      ensures LoadedSoFar(m, done + {agent})
    {
      assert forall a :: a in done ==> agents[a] == old(agents[a]) && agents[a].View() == old(agents[a].View());
    }

    // hub.go:91-98: one entry of the file.
    method LoadEntry(m: map<string, int>, ghost done: set<string>, agent: string) returns (ok: bool)
      requires LoadedSoFar(m, done) && PortsSoFar(ports, m, done) && agent in m && agent !in done
      modifies this`agents, this`ports, this`refs
      ensures ok <==> m[agent] !in old(ports)
      ensures ok ==> LoadedSoFar(m, done + {agent}) && PortsSoFar(ports, m, done + {agent})
    {
      hide PortsSoFar;
      PortLoaded(ports, m, done, agent);
      var state := new AgentState(AgentBook.Loaded(agent), agent, m[agent]);
      agents := agents[agent := state];
      refs := refs[AgentBook.Loaded(agent) := state];
      ok := m[agent] !in ports;
      if ok {
        ports := ports[m[agent] := agent];
      }
      OneLoaded(m, done, agent, state);
    }

    // hub.go:90-99: the file's entries in whatever order the map yields them.
    method LoadMapping(m: map<string, int>) returns (ok: bool)
      requires agents == map[] && ports == map[] && listeners == map[] && refs == map[]
      modifies this`agents, this`ports, this`refs
      ensures ok <==> AgentBook.Injective(m)
      ensures ok ==> ValidAgents() && Book() == AgentBook.Loading(m).(listeners := map[])
    {
      assert LoadedSoFar(m, {}) && PortsSoFar(ports, m, {});
      hide LoadedSoFar, PortsSoFar, Book, AgentBook.Loading, AgentBook.Injective;
      var rest := m.Keys;
      assert m.Keys - rest == {};
      while rest != {}
        invariant rest <= m.Keys && listeners == map[]
        invariant LoadedSoFar(m, m.Keys - rest) && PortsSoFar(ports, m, m.Keys - rest)
        decreases rest
      {
        var agent := Pick(rest);
        PortLoaded(ports, m, m.Keys - rest, agent);
        ok := LoadEntry(m, m.Keys - rest, agent);
        if !ok {
          return;
        }
        assert m.Keys - (rest - {agent}) == (m.Keys - rest) + {agent};
        rest := rest - {agent};
      }
      assert m.Keys - rest == m.Keys;
      AllLoaded(m);
      return true;
    }

    lemma AllLoaded(m: map<string, int>)
      requires LoadedSoFar(m, m.Keys) && PortsSoFar(ports, m, m.Keys) && listeners == map[]
      ensures AgentBook.Injective(m) && ValidAgents() && Book() == AgentBook.Loading(m).(listeners := map[])
    {
      AllInverse(ports, m);
      hide AgentBook.Injective, AgentBook.Loading, PortsSoFar;
      AgentBook.LoadingUnique(m, Book().(listeners := ports), AgentBook.Loading(m));
    }

    // hub.go:150-161; free holds the ports that net.Listen can open.
    method StartPortListeners(free: set<int>) returns (ok: bool)
      requires listeners == map[]
      modifies this`listeners
      ensures ok <==> ports.Keys <= free
      ensures ok ==> listeners == ports
    {
      var rest := ports.Keys;
      while rest != {}
        invariant rest <= ports.Keys && ports.Keys - rest <= free && listeners == ports - rest
        decreases rest
      {
        var port := Pick(rest);
        if port !in free {
          return false;
        }
        listeners := listeners[port := ports[port]];
        rest := rest - {port};
        assert listeners == ports - rest;
      }
      assert ports.Keys - rest == ports.Keys;
      return true;
    }

    // hub.go:79 and hub.go:110: a hub process starts from the file, and is then the registry's Boot state.
    method Startup(cell: MappingFile, c: Registry.Choice, free: set<int>) returns (ok: bool)
      requires agents == map[] && ports == map[] && listeners == map[] && refs == map[]
      modifies this`agents, this`ports, this`listeners, this`refs, cell
      ensures var f := old(cell.file);
              ok <==> Registry.Loadable(f) && (f.Missing? ==> c.Ok?) && Registry.Contents(f).Values <= free
      ensures ok ==>
                var boot := Registry.Boot(old(cell.file), 0);
                ValidAgents() && Book() == boot.book && cell.file == boot.file
    {
      hide Book, AgentBook.Loading;
      var m := cell.Load(c);
      if m.None? {
        return false;
      }
      ok := LoadMapping(m.value);
      if !ok {
        return;
      }
      PortsAreValues(m.value, Book().ports);
      ok := StartPortListeners(free);
      if ok { SameBook(AgentBook.Loading(m.value), Book()); }
    }

    lemma PortsAreValues(m: map<string, int>, ports: map<int, string>)
      requires AgentBook.Inverse(m, ports)
      ensures ports.Keys == m.Values
    {
      assert forall p :: p in ports.Keys <==> p in m.Values;
    }

    // hub.go:346-349: the snapshot that saveMapping writes.
    method Snapshot() returns (m: map<string, int>)
      requires ValidAgents()
      ensures m == AgentBook.Mapping(Book())
    {
      m := map[];
      var rest := agents.Keys;
      while rest != {}
        invariant rest <= agents.Keys
        invariant m.Keys == agents.Keys - rest
        invariant forall a :: a in m ==> m[a] == agents[a].hubPort
        decreases rest
      {
        var agent := Pick(rest);
        m := m[agent := agents[agent].hubPort];
        rest := rest - {agent};
      }
      assert m == AgentBook.Mapping(Book());
    }
  }

  // The file cell behind the mapping path (pkg/hub/mapping.go).
  class MappingFile {
    var file: Registry.File

    // mapping.go:16-41; a file that does not exist is created empty, with outcome c.
    method Load(c: Registry.Choice) returns (m: Option<map<string, int>>)
      modifies this
      ensures m.Some? <==> old(file).Saved? || (old(file).Missing? && c.Ok?)
      ensures m.Some? ==> m.value == Registry.Contents(old(file)) && file == Registry.Saved(m.value)
      ensures m.None? ==> file == if old(file).Missing? && c.FailBadly? then Registry.Corrupt else old(file)
    {
      if file.Missing? {
        var ok := Save(map[], c);
        return if ok then Some(map[]) else None;
      }
      return if file.Corrupt? then None else Some(file.agents);
    }

    // mapping.go:44-53
    method Save(m: map<string, int>, c: Registry.Choice) returns (ok: bool)
      modifies this
      ensures ok <==> c.Ok?
      ensures file == match c case Ok => Registry.Saved(m) case Fail => old(file) case FailBadly => Registry.Corrupt
    {
      match c {
        case Ok => file := Registry.Saved(m);
        case Fail =>
        case FailBadly => file := Registry.Corrupt;
      }
      ok := c.Ok?;
    }
  }
}
